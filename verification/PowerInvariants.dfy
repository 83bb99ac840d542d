/** What every event keeps, whatever the order of events. */
module PowerInvariants {
  import opened Alarms
  import opened Plans
  import opened PowerModel

  /** The display is on or off; a dark one has nothing scheduled to turn it off. */
  predicate DarkDisplay(m: Machine, p: Plan) {
    && m.display != UnknownMode
    && (m.display == Off && !m.paused ==> p.kind == NoTimeout && p.offTime == At(0) && p.dim == INVALID)
  }

  /** A lit display without inhibitors has an off schedule. */
  predicate NotStuckOn(m: Machine, p: Plan) {
    m.display == On && !m.paused && m.TimeoutAllowed() ==> p.kind != NoTimeout
  }

  /** When automatic suspend must be blocked: the display is on, or it is off only because
      something is near, or suspending is disallowed. */
  predicate HoldsOffSuspend(m: Machine) {
    m.display == On || m.reason == Proximity || !m.suspendAllowed
  }

  /** Proximity events on imply a reason to have them, and unless paused the converse holds. */
  predicate ProximityAgrees(m: Machine, out: Outputs) {
    && (out.proximityEvents ==> m.ProximityEnabled())
    && (!m.paused && m.ProximityEnabled() ==> out.proximityEvents)
  }

  /** A deferred suspend means suspending is disallowed; a paused session awaits no long press. */
  predicate Gates(m: Machine, p: Plan) {
    && (m.suspendPending ==> !m.suspendAllowed)
    && (m.paused ==> p.longPress == INVALID)
  }

  predicate Settled(m: Machine, p: Plan) {
    m.options.reducedOffTimeout > 0 && p.Valid() && DarkDisplay(m, p) && NotStuckOn(m, p) && Gates(m, p)
  }

  predicate Faithful(m: Machine, out: Outputs) {
    && out.suspendBlocked == HoldsOffSuspend(m)
    && ProximityAgrees(m, out)
    && ProperLog(out.log)
  }

  predicate Calm(w: World) {
    Settled(w.m, w.p) && Faithful(w.m, w.out)
  }

  /** A notification holds off the timeouts exactly while its expiration is scheduled. */
  predicate NotificationGate(w: World) {
    !w.m.notificationAllows <==> w.p.expiration != INVALID
  }

  predicate Inv(w: World) {
    Calm(w) && NotificationGate(w)
  }

  /** What the notification gate talks about is untouched. */
  predicate SameNotice(w: World, v: World) {
    && v.m.notificationAllows == w.m.notificationAllows
    && v.p.expiration == w.p.expiration
  }

  predicate Kept(w: World, v: World) {
    Calm(v) && SameNotice(w, v) && (Inv(w) ==> Inv(v))
  }

  // ---------- Helpers ----------

  lemma ScheduleNormalKeeps(w: World)
    requires w.p.Sound()
    ensures var v := w.ScheduleNormal();
      && v.out == w.out && v.m == w.m.(suspendPending := false)
      && v.p.Valid() && v.p.kind == Normal
      && v.p.expiration == w.p.expiration && v.p.longPress == w.p.longPress
  {
    hide Plan.Valid, Plan.NormalOff, Plan.NormalSuspend;
    NormalOffKeeps(w.p, w.m.offTimeout.Get());
    NormalSuspendKeeps(w.p.NormalOff(w.m.offTimeout.Get()), w.m.suspendTimeout.Get());
  }

  lemma ScheduleNormalSuspendKeeps(w: World)
    requires w.p.Valid()
    ensures var v := w.ScheduleNormalSuspend();
      && v.out == w.out && v.m == w.m.(suspendPending := false)
      && v.p.Valid() && v.p == w.p.(suspend := v.p.suspend, clock := v.p.clock)
  {
    hide Plan.Valid, Plan.NormalSuspend;
    NormalSuspendKeeps(w.p, w.m.suspendTimeout.Get());
  }

  lemma TurnOffKeeps(w: World, reason: Reason)
    requires w.p.Sound() && !w.m.paused && ProperLog(w.out.log)
    ensures var v := w.TurnOff(reason);
      && v.p == w.p.CancelOff() && v.p.Valid() && w.p.OffRescheduled(v.p)
      && v.m == w.m.(display := Off, reason := reason)
      && v.out.suspendBlocked == (w.out.suspendBlocked && (reason == Proximity || !w.m.suspendAllowed))
      && v.out.proximityEvents == w.out.proximityEvents
      && ProperLog(v.out.log)
  {
    hide ProperLog, Plan.CancelOff, Plan.Valid, Plan.Sound;
    CancelOffKeeps(w.p);
  }

  lemma TurnOnKeeps(w: World, reason: Reason)
    requires ProperLog(w.out.log)
    ensures var v := w.TurnOnWithoutTimeout(reason);
      && v.p == w.p
      && v.m == (if w.m.paused then w.m else w.m.(display := On, reason := reason))
      && SaysLit(w, v)
  {
    hide ProperLog;
  }

  lemma BrightenKeeps(w: World)
    requires ProperLog(w.out.log)
    ensures var v := w.Brighten();
      && v.m == w.m && v.p == w.p
      && v.out.suspendBlocked == w.out.suspendBlocked && v.out.proximityEvents == w.out.proximityEvents
      && ProperLog(v.out.log)
  {
    hide ProperLog;
  }

  lemma EnableProximityKeeps(w: World, e: Enablement)
    requires Calm(w)
    ensures Kept(w, w.EnableProximity(e))
    ensures w.EnableProximity(e).m == w.m.Enable(e, true)
  {
    hide ProperLog, Plan.Valid;
  }

  lemma DisableProximityKeeps(w: World, e: Enablement)
    requires Calm(w)
    ensures Kept(w, w.DisableProximity(e))
    ensures w.DisableProximity(e).m == w.m.Enable(e, false)
  {
    hide ProperLog, Plan.Valid;
  }

  /** Turning the display on with the normal timeout. */
  lemma TurnOnFacts(w: World, reason: Reason)
    requires w.p.Sound() && ProperLog(w.out.log)
    ensures var v := w.TurnOn(reason);
      && v.m == (if w.m.paused then w.m else w.m.(display := On, reason := reason)).(suspendPending := false)
      && v.p.Valid() && v.p.kind == Normal
      && v.p.expiration == w.p.expiration && v.p.longPress == w.p.longPress
      && SaysLit(w, v)
  {
    hide World.TurnOnWithoutTimeout, World.ScheduleNormal, ProperLog, Plan.Valid, Plan.Sound;
    TurnOnKeeps(w, reason);
    ScheduleNormalKeeps(w.TurnOnWithoutTimeout(reason));
  }

  /** Unless paused, turning the display on blocks automatic suspend. */
  predicate SaysLit(w: World, v: World) {
    && v.out.suspendBlocked == (w.out.suspendBlocked || !w.m.paused)
    && v.out.proximityEvents == w.out.proximityEvents
    && ProperLog(v.out.log)
  }

  lemma LitIsFaithful(w: World, v: World, reason: Reason, pending: bool)
    requires Faithful(w.m, w.out) && SaysLit(w, v)
    requires v.m == (if w.m.paused then w.m else w.m.(display := On, reason := reason)).(suspendPending := pending)
    ensures Faithful(v.m, v.out)
  {
    hide ProperLog;
  }

  lemma TurnOnNormalKeeps(w: World, reason: Reason)
    requires Calm(w)
    ensures Kept(w, w.TurnOn(reason))
    ensures w.TurnOn(reason).m.paused == w.m.paused
    ensures w.TurnOn(reason).p.longPress == w.p.longPress
  {
    hide World.TurnOn, Faithful, ProperLog, Plan.Valid, SaysLit;
    CalmIsProper(w);
    TurnOnFacts(w, reason);
    LitIsFaithful(w, w.TurnOn(reason), reason, false);
  }

  lemma CalmIsProper(w: World)
    requires Calm(w)
    ensures w.p.Sound() && ProperLog(w.out.log)
  {
  }

  lemma PlanSound(p: Plan)
    requires p.Valid()
    ensures p.Sound()
  {
  }

  /** Turning a dark display on with the reduced timeout: it is always scheduled to go off. */
  lemma TurnOnReducedKeeps(w: World, reason: Reason)
    requires Calm(w) && w.m.display == Off
    ensures Kept(w, w.TurnOnReduced(reason))
  {
    hide Faithful, World.TurnOnWithoutTimeout, Plan.Postpone, ProperLog, Plan.Valid, SaysLit;
    CalmIsProper(w);
    TurnOnKeeps(w, reason);
    PostponeKeeps(w.p, w.m.options.reducedOffTimeout, Reduced);
    LitIsFaithful(w, w.TurnOnWithoutTimeout(reason), reason, w.m.suspendPending);
  }

  /** Extending a lit display. */
  lemma ExtendKeeps(w: World)
    requires Calm(w) && w.m.display == On
    ensures Kept(w, w.Extend())
    ensures w.Extend().m == w.m.(suspendPending := false)
    ensures w.Extend().p.longPress == w.p.longPress
  {
    hide World.Brighten, World.ScheduleNormal, ProperLog, Plan.Valid;
    BrightenKeeps(w);
    PlanSound(w.p);
    ScheduleNormalKeeps(w.Brighten());
  }

  lemma BrightenKeepsInv(w: World)
    requires Calm(w)
    ensures Kept(w, w.Brighten()) && w.Brighten().m == w.m && w.Brighten().p == w.p
  {
    hide ProperLog, Plan.Valid, World.Brighten;
    BrightenKeeps(w);
  }

  /** Postponing the off time of a lit display, by the reduced or the post-notification timeout. */
  lemma PostponeKeepsInv(w: World, t: int, k: TimeoutType)
    requires Calm(w) && w.m.display == On && k != NoTimeout
    ensures Kept(w, w.(p := w.p.Postpone(t, k)))
  {
    hide ProperLog, Plan.Valid, Plan.Postpone;
    PostponeKeeps(w.p, t, k);
  }

  lemma ProximityDisableKeepsInv(w: World)
    requires Calm(w)
    ensures Kept(w, w.ScheduleProximityDisable())
  {
    hide ProperLog, Plan.Valid, Plan.ProximityDisable;
    ProximityDisableKeeps(w.p, w.m.options.reducedOffTimeout);
  }

  lemma TurnOffKeepsInv(w: World, reason: Reason)
    requires Calm(w)
    requires reason == Proximity ==> w.m.display == On
    ensures Kept(w, w.TurnOff(reason))
    ensures w.TurnOff(reason).m == if w.m.paused then w.m else w.m.(display := Off, reason := reason)
  {
    hide ProperLog, Plan.Valid, Plan.CancelOff, World.TurnOff;
    PlanSound(w.p);
    if w.m.paused {
      PausedTurnOff(w, reason);
    } else {
      TurnOffKeeps(w, reason);
      CancelOffClears(w.p);
    }
  }

  lemma PausedTurnOff(w: World, reason: Reason)
    requires w.m.paused
    ensures w.TurnOff(reason) == w
  {
  }

  lemma CancelOffClears(p: Plan)
    ensures p.CancelOff().dim == INVALID && p.CancelOff().kind == NoTimeout && p.CancelOff().offTime == At(0)
  {
  }

  /** The reason for a lit display does not matter to the invariant. */
  lemma ReasonKeeps(w: World, reason: Reason)
    requires Calm(w) && w.m.display == On
    ensures Kept(w, w.(m := w.m.(reason := reason)))
  {
    hide ProperLog, Plan.Valid;
  }

  lemma ExtendForKeeps(w: World, reason: Reason)
    requires Calm(w) && w.m.display == On
    ensures Kept(w, w.ExtendFor(reason))
    ensures w.ExtendFor(reason).p.longPress == w.p.longPress
    ensures w.ExtendFor(reason).m.paused == w.m.paused
  {
    hide Calm, World.Extend;
    ExtendKeeps(w);
    ReasonKeeps(w.Extend(), reason);
  }

  /** Lifting an inhibitor. */
  lemma AllowClientKeeps(w: World)
    requires Calm(w)
    ensures Kept(w, w.AllowTimeout(Client))
  {
    hide ProperLog, Plan.Valid, World.ScheduleNormal;
    PlanSound(w.p);
    ScheduleNormalKeeps(w.(m := w.m.Allow(Client, true)));
  }

  /** Lifting the notification inhibitor: a lit display without schedule goes dark at once. */
  lemma AllowNotificationsKeeps(w: World)
    requires Calm(w)
    ensures var v := w.AllowTimeout(Notifications);
      Calm(v) && v.p.expiration == w.p.expiration && v.m.notificationAllows
  {
    hide Calm, World.TurnOff;
    if !w.m.notificationAllows && w.m.clientAllows && w.m.display == On && w.p.kind == NoTimeout {
      DarkensAtOnce(w);
    } else {
      StaysAsItIs(w);
    }
  }

  lemma DarkensAtOnce(w: World)
    requires Calm(w) && w.m.display == On
    ensures var v := w.(m := w.m.(notificationAllows := true)).TurnOff(Activity);
      Calm(v) && v.p.expiration == w.p.expiration && v.m.notificationAllows
  {
    hide ProperLog, Plan.Valid, World.TurnOff, Plan.CancelOff;
    PlanSound(w.p);
    var u := w.(m := w.m.(notificationAllows := true));
    if u.m.paused {
      PausedTurnOff(u, Activity);
    } else {
      TurnOffKeeps(u, Activity);
      CancelOffClears(u.p);
    }
  }

  lemma StaysAsItIs(w: World)
    requires Calm(w) && w.AllowTimeout(Notifications).p == w.p && w.AllowTimeout(Notifications).out == w.out
    requires w.AllowTimeout(Notifications).m == w.m.(notificationAllows := true)
    ensures Calm(w.AllowTimeout(Notifications))
  {
  }

  // ---------- The handlers ----------

  lemma ActiveCallKeeps(w: World, far: bool)
    requires Inv(w) && !w.m.paused
    ensures Inv(w.HandleActiveCall(far))
  {
    hide Inv, Calm, SameNotice, World.Extend, World.TurnOn, World.EnableProximity;
    InvIsCalm(w);
    if w.m.display == On { ExtendKeeps(w); } else if far { TurnOnNormalKeeps(w, Call); }
    var v := if w.m.display == On then w.Extend() else if far then w.TurnOn(Call) else w;
    EnableProximityKeeps(v, UntilDisabled);
  }

  lemma DarkOrLit(w: World)
    requires Inv(w)
    ensures w.m.display == On || w.m.display == Off
  {
  }

  lemma NoActiveCallKeeps(w: World, far: bool)
    requires Inv(w)
    ensures Inv(w.HandleNoActiveCall(far))
  {
    hide Inv, Calm, SameNotice, World.Brighten, World.TurnOnReduced, World.EnableProximity, World.DisableProximity;
    InvIsCalm(w);
    hide Plan.Postpone, World.ScheduleProximityDisable;
    DarkOrLit(w);
    var v;
    if w.m.display == On {
      BrightenKeepsInv(w);
      PostponeKeepsInv(w.Brighten(), w.m.options.reducedOffTimeout, Reduced);
      v := w.Brighten().ScheduleReduced();
    } else if far {
      TurnOnReducedKeeps(w, CallDone);
      v := w.TurnOnReduced(CallDone);
    } else {
      EnableProximityKeeps(w, UntilFarOrTimeout);
      ProximityDisableKeepsInv(w.EnableProximity(UntilFarOrTimeout));
      v := w.EnableProximity(UntilFarOrTimeout).ScheduleProximityDisable();
    }
    DisableProximityKeeps(v, UntilDisabled);
  }

  lemma EnableInactivityTimeoutKeeps(w: World)
    requires Inv(w)
    ensures Inv(w.HandleEnableInactivityTimeout())
  {
    hide Calm, World.AllowTimeout;
    AllowClientKeeps(w);
  }

  /** Turning the display on without a timeout is safe while something inhibits the timeout. */
  lemma LitIsSettled(m: Machine, m': Machine, p: Plan, reason: Reason)
    requires Settled(m, p) && !m.TimeoutAllowed()
    requires m' == if m.paused then m else m.(display := On, reason := reason)
    ensures Settled(m', p)
  {
    hide Plan.Valid;
  }

  lemma KeptWhen(w: World, v: World)
    requires Settled(v.m, v.p) && Faithful(v.m, v.out) && SameNotice(w, v)
    ensures Kept(w, v)
  {
    hide Settled, Faithful;
  }

  lemma TurnOnWithoutTimeoutKeeps(w: World, reason: Reason)
    requires Calm(w) && !w.m.TimeoutAllowed()
    ensures Kept(w, w.TurnOnWithoutTimeout(reason))
  {
    hide Kept, Inv, NotificationGate, Faithful, Settled, ProperLog, World.TurnOnWithoutTimeout, SaysLit;
    var v := w.TurnOnWithoutTimeout(reason);
    CalmIsProper(w);
    TurnOnKeeps(w, reason);
    LitIsFaithful(w, v, reason, w.m.suspendPending);
    LitIsSettled(w.m, v.m, w.p, reason);
    KeptWhen(w, v);
  }

  lemma DisallowKeeps(w: World, a: Allowance)
    requires Calm(w)
    ensures Calm(w.DisallowTimeout(a)) && w.DisallowTimeout(a).p == w.p
    ensures !w.DisallowTimeout(a).m.TimeoutAllowed()
  {
    hide ProperLog, Plan.Valid;
  }

  lemma DisableInactivityTimeoutKeeps(w: World)
    requires Inv(w)
    ensures Inv(w.HandleDisableInactivityTimeout())
  {
    hide Calm, World.Brighten, World.TurnOnWithoutTimeout;
    DisallowKeeps(w, Client);
    BrightenKeepsInv(w.DisallowTimeout(Client));
    TurnOnWithoutTimeoutKeeps(w.DisallowTimeout(Client), UnknownReason);
  }

  lemma SetInactivityBehaviorKeeps(w: World, a: PowerAction, s: PowerSupply, t: int)
    requires Inv(w)
    ensures Inv(w.HandleSetInactivityBehavior(a, s, t))
  {
    hide Inv, Calm, SameNotice, World.ScheduleNormal;
    InvIsCalm(w);
    var off := if a == DisplayOff then w.m.offTimeout.Set(s, t) else w.m.offTimeout;
    var suspend := if a == DisplayOff then w.m.suspendTimeout else w.m.suspendTimeout.Set(s, t);
    var v := w.(m := w.m.(offTimeout := off, suspendTimeout := suspend));
    TimeoutsKeep(w, off, suspend);
    if v.p.kind == Normal { RescheduleKeeps(v); }
  }

  lemma TimeoutsKeep(w: World, off: Configurable<int>, suspend: Configurable<int>)
    requires Calm(w)
    ensures Kept(w, w.(m := w.m.(offTimeout := off, suspendTimeout := suspend)))
  {
    hide ProperLog, Plan.Valid;
  }

  lemma RescheduleKeeps(w: World)
    requires Calm(w) && w.p.kind == Normal
    ensures Kept(w, w.ScheduleNormal())
  {
    hide ProperLog, Plan.Valid, World.ScheduleNormal;
    PlanSound(w.p);
    KindNormalMeansLit(w);
    ScheduleNormalKeeps(w);
  }

  lemma KindNormalMeansLit(w: World)
    requires Calm(w) && w.p.kind == Normal
    ensures w.m.paused || w.m.display == On
  {
  }

  lemma EmitKeeps(w: World, c: Command)
    requires Calm(w) && Proper(Entry(c, w.m.paused, w.m.suspendAllowed)) && !Housekeeping(c)
    ensures Kept(w, w.Emit(c)) && w.Emit(c).m == w.m && w.Emit(c).p == w.p
  {
    hide ProperLog, Plan.Valid;
  }

  lemma LidClosedKeeps(w: World, x: bool)
    requires Inv(w) && !w.m.paused
    ensures Inv(w.HandleLidClosed(x))
  {
    hide Inv, Calm, SameNotice, World.TurnOff, World.Emit;
    InvIsCalm(w);
    var v := w.(m := w.m.(lidClosed := true));
    LidKeeps(w, true);
    EmitKeeps(v, TurnOffDisplay(Internal));
    TurnOffKeepsInv(v, UnknownReason);
    EmitKeeps(v, SuspendNow(LidClosing));
    EmitKeeps(v.TurnOff(UnknownReason), SuspendNow(LidClosing));
  }

  lemma LidKeeps(w: World, closed: bool)
    requires Calm(w)
    ensures Kept(w, w.(m := w.m.(lidClosed := closed)))
  {
    hide ProperLog, Plan.Valid;
  }

  lemma LidOpenKeeps(w: World)
    requires Inv(w) && !w.m.paused
    ensures Inv(w.HandleLidOpen())
  {
    hide Inv, Calm, SameNotice, World.TurnOn, World.ExtendFor, World.Emit;
    InvIsCalm(w);
    var v := w.(m := w.m.(lidClosed := false));
    LidKeeps(w, false);
    if w.m.display == On {
      EmitKeeps(v, TurnOnDisplay(Internal));
      ExtendForKeeps(v.Emit(TurnOnDisplay(Internal)), Activity);
    } else {
      TurnOnNormalKeeps(v, Activity);
    }
  }

  lemma InvIsCalm(w: World)
    requires Inv(w)
    ensures Calm(w)
  {
  }

  lemma BehaviorKeeps(w: World, a: PowerAction, s: PowerSupply)
    requires Inv(w)
    ensures Inv(w.HandleSetLidBehavior(a, s)) && Inv(w.HandleSetCriticalPowerBehavior(a))
  {
    hide ProperLog, Plan.Valid;
  }

  lemma CancelExpirationKeepsCalm(w: World)
    requires Calm(w)
    ensures Calm(w.(p := w.p.CancelExpiration())) && w.p.CancelExpiration().expiration == INVALID
  {
    hide ProperLog, Plan.Valid, Plan.CancelExpiration;
    CancelExpirationKeeps(w.p);
  }

  lemma NoNotificationKeeps(w: World)
    requires Inv(w)
    ensures Inv(w.HandleNoNotification())
  {
    hide Calm, Plan.Postpone, World.AllowTimeout, World.DisableProximity, Plan.CancelExpiration;
    var v := w;
    if w.m.display == On {
      PostponeKeepsInv(w, w.m.options.postNotificationOffTimeout, PostNotification);
      v := w.SchedulePostNotification();
    }
    AllowNotificationsKeeps(v);
    v := v.AllowTimeout(Notifications);
    DisableProximityKeeps(v, UntilFarOrExpiration);
    CancelExpirationKeepsCalm(v.DisableProximity(UntilFarOrExpiration));
  }

  lemma ExpirationKeepsCalm(w: World)
    requires Calm(w)
    ensures Calm(w.ScheduleExpiration()) && w.ScheduleExpiration().p.expiration != INVALID
    ensures w.ScheduleExpiration().m == w.m
  {
    hide ProperLog, Plan.Valid, Plan.Expiration;
    var t := w.m.offTimeout.Get();
    ExpirationKeeps(w.p, if t < w.m.options.notificationExpiration then t else w.m.options.notificationExpiration);
  }

  lemma NotificationKeeps(w: World, far: bool)
    requires Inv(w)
    ensures Inv(w.HandleNotification(far))
  {
    hide Calm, World.Brighten, World.TurnOnWithoutTimeout, World.EnableProximity, World.ScheduleExpiration;
    var v := w.DisallowTimeout(Notifications);
    DisallowKeeps(w, Notifications);
    if w.m.display == On {
      BrightenKeepsInv(v);
      v := v.Brighten();
    } else if far {
      TurnOnWithoutTimeoutKeeps(v, Notification);
      v := v.TurnOnWithoutTimeout(Notification);
    } else {
      EnableProximityKeeps(v, UntilFarOrExpiration);
      v := v.EnableProximity(UntilFarOrExpiration);
    }
    ExpirationKeepsCalm(v);
  }

  lemma PressKeeps(w: World)
    requires Inv(w) && !w.m.paused
    ensures Inv(w.HandlePowerButtonPress())
  {
    hide Inv, Calm, SameNotice, World.ExtendFor, World.TurnOn, Plan.LongPress;
    InvIsCalm(w);
    var v := w.(m := w.m.(displayAtPress := w.m.display));
    ButtonKeeps(w, w.m.display, w.m.longPressDetected);
    if w.m.options.powerButtonIsActivity && w.m.display == On {
      ExtendForKeeps(v, PowerButton);
      v := v.ExtendFor(PowerButton);
    } else if w.m.display == Off {
      TurnOnNormalKeeps(v, PowerButton);
      v := v.TurnOn(PowerButton);
    }
    LongPressKeepsCalm(v, w.m.options.longPressTimeout);
  }

  lemma ButtonKeeps(w: World, mode: DisplayMode, detected: bool)
    requires Calm(w)
    ensures Kept(w, w.(m := w.m.(displayAtPress := mode, longPressDetected := detected)))
  {
    hide ProperLog, Plan.Valid;
  }

  lemma LongPressKeepsCalm(w: World, t: int)
    requires Calm(w) && !w.m.paused
    ensures Kept(w, w.(p := w.p.LongPress(t)))
  {
    hide ProperLog, Plan.Valid, Plan.LongPress;
    LongPressKeeps(w.p, t);
  }

  lemma ForgetLongPress(w: World)
    requires Calm(w)
    ensures Kept(w, w.(p := w.p.(longPress := INVALID)))
  {
    hide ProperLog;
  }

  lemma ReleaseKeeps(w: World)
    requires Inv(w) && !w.m.paused
    ensures Inv(w.HandlePowerButtonRelease())
  {
    hide Inv, Calm, SameNotice, World.TurnOff;
    InvIsCalm(w);
    var v := w;
    if w.m.longPressDetected {
      v := w.(m := w.m.(longPressDetected := false));
      ButtonKeeps(w, w.m.displayAtPress, false);
    } else if w.m.displayAtPress == On && !w.m.options.powerButtonIsActivity {
      TurnOffKeepsInv(w, PowerButton);
      v := w.TurnOff(PowerButton);
    }
    ButtonKeeps(v, UnknownMode, v.m.longPressDetected);
    ForgetLongPress(v.(m := v.m.(displayAtPress := UnknownMode)));
  }

  lemma OnBatteryKeeps(w: World, battery: bool)
    requires Calm(w)
    ensures Kept(w, w.OnBattery(battery))
  {
    hide ProperLog, Plan.Valid;
  }

  lemma PowerSourceChangeKeeps(w: World, battery: bool, far: bool)
    requires Inv(w) && !w.m.paused
    ensures Inv(w.HandlePowerSourceChange(battery, far))
  {
    hide Inv, Calm, SameNotice, World.ExtendFor, World.TurnOnReduced, World.ScheduleNormalSuspend;
    InvIsCalm(w);
    DarkOrLit(w);
    var v := w.OnBattery(battery);
    OnBatteryKeeps(w, battery);
    if w.m.display == On {
      ExtendForKeeps(v, Activity);
      v := v.ExtendFor(Activity);
    } else if far {
      TurnOnReducedKeeps(v, Notification);
      v := v.TurnOnReduced(Notification);
    }
    NormalSuspendKeepsCalm(v);
  }

  lemma NormalSuspendKeepsCalm(w: World)
    requires Calm(w)
    ensures Kept(w, w.ScheduleNormalSuspend())
  {
    hide ProperLog, Plan.Valid, World.ScheduleNormalSuspend;
    PlanSound(w.p);
    ScheduleNormalSuspendKeeps(w);
  }

  lemma PowerSourceCriticalKeeps(w: World)
    requires Inv(w) && !w.m.paused
    ensures Inv(w.HandlePowerSourceCritical())
  {
    hide Inv, Calm, SameNotice, World.Emit;
    InvIsCalm(w);
    EmitKeeps(w, PowerOffNow);
    EmitKeeps(w, SuspendNow(CriticalPower));
  }

  lemma ProximityKeeps(w: World)
    requires Inv(w) && !w.m.paused
    ensures Inv(w.HandleProximityFar()) && Inv(w.HandleProximityNear())
  {
    hide Inv, Calm, SameNotice, World.DisableProximity, World.TurnOn, World.TurnOnReduced, World.TurnOff;
    InvIsCalm(w);
    DisableProximityKeeps(w, UntilFarOrExpiration);
    var v := w.DisableProximity(UntilFarOrExpiration);
    DisableProximityKeeps(v, UntilFarOrTimeout);
    v := v.DisableProximity(UntilFarOrTimeout);
    TurnOnNormalKeeps(v, Proximity);
    if w.m.display == Off { TurnOnReducedKeeps(v, Proximity); }
    if w.m.display == On { TurnOffKeepsInv(w, Proximity); }
  }

  lemma ActivityKeeps(w: World, far: bool)
    requires Inv(w)
    ensures Inv(w.HandleUserActivityChangingPowerState(far))
    ensures Inv(w.HandleUserActivityExtendingPowerState())
  {
    hide Inv, Calm, SameNotice, World.ExtendFor, World.TurnOn;
    InvIsCalm(w);
    if w.m.display == On { ExtendForKeeps(w, Activity); }
    TurnOnNormalKeeps(w, Activity);
  }

  lemma BrightnessKeeps(w: World, value: real, enabled: bool)
    requires Inv(w)
    ensures Inv(w.HandleSetNormalBrightnessValue(value)) && Inv(w.HandleAutobrightness(enabled))
  {
    hide ProperLog, Plan.Valid;
  }

  lemma AllowSuspendKeeps(w: World)
    requires Inv(w)
    ensures Inv(w.HandleAllowSuspend())
  {
    hide Inv, Calm, World.SuspendWhenAllowed, SameNotice;
    InvIsCalm(w);
    var v := w.(m := w.m.(suspendAllowed := true));
    var u := if w.m.display == Off && w.m.reason != Proximity then v.Emit(AllowAutomaticSuspend) else v;
    ReleaseBlock(w, u);
    CarryOut(u);
  }

  /** Everything but a deferred suspend that is now due. */
  predicate Released(w: World) {
    && w.m.suspendAllowed && Faithful(w.m, w.out) && NotificationGate(w)
    && Settled(w.m.(suspendPending := false), w.p)
  }

  lemma ReleaseBlock(w: World, u: World)
    requires Inv(w)
    requires var v := w.(m := w.m.(suspendAllowed := true));
      u == if w.m.display == Off && w.m.reason != Proximity then v.Emit(AllowAutomaticSuspend) else v
    ensures Released(u)
  {
    hide Faithful, Settled, ProperLog;
    DarkOrLit(w);
    ReleasedIsSettled(w.m, w.p);
    ReleasedIsFaithful(w, u);
  }

  lemma ReleasedIsSettled(m: Machine, p: Plan)
    requires Settled(m, p)
    ensures Settled(m.(suspendAllowed := true, suspendPending := false), p)
  {
    hide Plan.Valid;
  }

  lemma ReleasedIsFaithful(w: World, u: World)
    requires Faithful(w.m, w.out) && w.m.display != UnknownMode
    requires var v := w.(m := w.m.(suspendAllowed := true));
      u == if w.m.display == Off && w.m.reason != Proximity then v.Emit(AllowAutomaticSuspend) else v
    ensures Faithful(u.m, u.out)
  {
    hide ProperLog;
  }

  lemma CarryOut(u: World)
    requires Released(u)
    ensures Inv(if u.m.suspendPending then u.SuspendWhenAllowed() else u)
  {
    hide ProperLog, Plan.Valid;
  }

  lemma DisallowSuspendKeeps(w: World)
    requires Inv(w)
    ensures Inv(w.HandleDisallowSuspend())
  {
    hide ProperLog, Plan.Valid;
  }

  lemma SwitchDisplayKeeps(w: World)
    requires Inv(w)
    ensures Inv(w.HandleTurnOnDisplay()) && Inv(w.HandleTurnOffDisplay()) && Inv(w.HandleSystemResume())
  {
    hide Inv, Calm, SameNotice, World.TurnOn, World.TurnOff;
    InvIsCalm(w);
    TurnOnNormalKeeps(w, PowerButton);
    TurnOnNormalKeeps(w, Activity);
    TurnOffKeepsInv(w, PowerButton);
  }

  lemma StartKeeps(w: World, battery: bool)
    requires Inv(w) && !w.m.paused
    ensures Inv(w.Start(battery))
  {
    hide Inv, Calm, SameNotice, World.TurnOn, World.Emit;
    InvIsCalm(w);
    OnBatteryKeeps(w, battery);
    var v := w.OnBattery(battery);
    EmitKeeps(v, DisallowDefaultHandlers);
    TurnOnNormalKeeps(v.Emit(DisallowDefaultHandlers), UnknownReason);
  }

  lemma PauseKeeps(w: World)
    requires Inv(w) && !w.m.paused
    ensures Inv(w.Pause())
  {
    hide ProperLog, Plan.Valid, Plan.CancelLongPress;
    CancelLongPressKeeps(w.p);
  }

  lemma TakeOverKeeps(w: World)
    requires Calm(w)
    ensures var v := w.TakeOver();
      && v.m == w.m.(paused := false) && v.p == w.p
      && v.out.suspendBlocked == w.out.suspendBlocked && v.out.proximityEvents == w.out.proximityEvents
      && ProperLog(v.out.log)
  {
    hide ProperLog, Plan.Valid;
  }

  lemma ResumeKeeps(w: World)
    requires Inv(w)
    ensures Inv(w.Resume())
  {
    hide ProperLog, Plan.Valid, World.TurnOn, World.TakeOver;
    TakeOverKeeps(w);
    TurnOnAfterPause(w, w.TakeOver());
    FinishResume(w.TakeOver().TurnOn(UnknownReason));
  }

  predicate OnExceptProximity(v: World) {
    && Settled(v.m, v.p) && NotificationGate(v) && !v.m.paused
    && v.out.suspendBlocked == HoldsOffSuspend(v.m)
    && (v.out.proximityEvents ==> v.m.ProximityEnabled())
    && ProperLog(v.out.log)
  }

  lemma TurnOnAfterPause(w: World, v: World)
    requires Inv(w)
    requires v.m == w.m.(paused := false) && v.p == w.p
    requires v.out.suspendBlocked == w.out.suspendBlocked && v.out.proximityEvents == w.out.proximityEvents
    requires ProperLog(v.out.log)
    ensures OnExceptProximity(v.TurnOn(UnknownReason))
    ensures v.TurnOn(UnknownReason).m.ProximityEnabled() == w.m.ProximityEnabled()
  {
    hide ProperLog, Plan.Valid, World.TurnOn;
    PlanSound(w.p);
    TurnOnFacts(v, UnknownReason);
  }

  lemma FinishResume(v: World)
    requires OnExceptProximity(v)
    ensures Inv(if v.m.ProximityEnabled() then v.Emit(EnableProximityEvents) else v)
  {
    hide ProperLog, Plan.Valid;
  }

  // ---------- Alarms and the clock ----------

  lemma TimeKeeps(w: World, t: nat)
    requires Inv(w)
    ensures Inv(Step(w, TimePasses(t)))
  {
    hide ProperLog;
  }

  lemma FireKeeps(w: World, id: AlarmId)
    requires Inv(w) && id in w.p.clock.pending
    ensures Inv(Step(w, AlarmFires(id)))
  {
    hide ProperLog;
  }

  lemma DeliverKeeps(w: World, id: AlarmId)
    requires Inv(w) && !w.p.Owns(id)
    ensures Inv(w.(p := w.p.(clock := w.p.clock.Delivered(id))))
  {
    hide ProperLog;
  }

  lemma LongPressArrives(w: World, id: AlarmId)
    requires Inv(w) && id in w.p.clock.fired && id == w.p.longPress
    ensures Inv(w.HandleAlarm(id)) && !w.HandleAlarm(id).p.Owns(id)
  {
    hide ProperLog;
  }

  lemma DimCleared(p: Plan, id: AlarmId)
    requires p.Valid() && id in p.clock.fired && id == p.dim
    ensures p.(dim := INVALID).Valid() && !p.(dim := INVALID).Owns(id) && id != p.longPress
  {
  }

  lemma DimArrives(w: World, id: AlarmId)
    requires Inv(w) && id in w.p.clock.fired && id == w.p.dim
    ensures Inv(w.HandleAlarm(id)) && !w.HandleAlarm(id).p.Owns(id)
  {
    hide ProperLog, Plan.Valid, Plan.Owns;
    DimCleared(w.p, id);
  }

  lemma SuspendCleared(p: Plan, id: AlarmId)
    requires p.Valid() && id in p.clock.fired && id == p.suspend
    ensures p.(suspend := INVALID).Valid() && !p.(suspend := INVALID).Owns(id)
    ensures id != p.longPress && id != p.dim && id != p.off
  {
  }

  lemma SuspendArrives(w: World, id: AlarmId)
    requires Inv(w) && id in w.p.clock.fired && id == w.p.suspend
    ensures Inv(w.HandleAlarm(id)) && !w.HandleAlarm(id).p.Owns(id)
  {
    hide ProperLog, Plan.Valid, Plan.Owns;
    SuspendCleared(w.p, id);
  }

  lemma ProximityCleared(p: Plan, id: AlarmId)
    requires p.Valid() && id in p.clock.fired && id == p.proximity
    ensures p.(proximity := INVALID).Valid() && !p.(proximity := INVALID).Owns(id)
    ensures id != p.longPress && id != p.dim && id != p.off && id != p.suspend
  {
  }

  lemma ProximityArrives(w: World, id: AlarmId)
    requires Inv(w) && id in w.p.clock.fired && id == w.p.proximity
    ensures Inv(w.HandleAlarm(id)) && !w.HandleAlarm(id).p.Owns(id)
  {
    hide ProperLog, Plan.Valid, Plan.Owns, World.DisableProximity;
    ProximityCleared(w.p, id);
    var v := w.(p := w.p.(proximity := INVALID));
    DisableProximityKeeps(v, UntilFarOrTimeout);
    DisableProximityPlan(v, UntilFarOrTimeout);
  }

  lemma OffCleared(p: Plan, id: AlarmId)
    requires p.Valid() && id in p.clock.fired && id == p.off
    ensures p.(off := INVALID).Sound()
    ensures p.(off := INVALID, kind := NoTimeout).Valid() && !p.(off := INVALID, kind := NoTimeout).Owns(id)
  {
  }

  lemma CancelOffDisowns(p: Plan, id: AlarmId)
    requires id != INVALID && !p.Owns(id)
    ensures !p.CancelOff().Owns(id) && p.CancelOff().(kind := NoTimeout) == p.CancelOff()
  {
  }

  lemma OffArrives(w: World, id: AlarmId)
    requires Inv(w) && id in w.p.clock.fired && id == w.p.off
    ensures Inv(w.HandleAlarm(id)) && !w.HandleAlarm(id).p.Owns(id)
  {
    hide ProperLog, Plan.Valid, Plan.Sound, World.TurnOff, Plan.CancelOff;
    OffCleared(w.p, id);
    var v := w.(p := w.p.(off := INVALID));
    if !w.m.TimeoutApplies() {
    } else if w.m.paused {
      PausedTurnOff(v, Activity);
    } else {
      TurnOffKeeps(v, Activity);
      CancelOffClears(v.p);
      CancelOffDisowns(v.p, id);
    }
  }

  lemma ExpirationCleared(w: World, id: AlarmId)
    requires Calm(w) && id in w.p.clock.fired && id == w.p.expiration
    ensures Calm(w.(p := w.p.(expiration := INVALID)))
    ensures id < w.p.clock.next && !w.p.(expiration := INVALID).Owns(id)
  {
    hide ProperLog;
  }

  /** Neither postponing nor cancelling brings an old alarm id back. */
  lemma PostponeDisowns(p: Plan, id: AlarmId, t: int, k: TimeoutType)
    requires id < p.clock.next && id != INVALID && !p.Owns(id)
    ensures !p.Postpone(t, k).Owns(id)
  {
  }

  lemma AllowNotificationsPlan(w: World)
    ensures w.AllowTimeout(Notifications).p == w.p || w.AllowTimeout(Notifications).p == w.p.CancelOff()
  {
    hide Plan.CancelOff, World.TurnOff;
    TurnOffPlan(w.(m := w.m.Allow(Notifications, true)), Activity);
  }

  lemma TurnOffPlan(w: World, reason: Reason)
    ensures w.TurnOff(reason).p == w.p || w.TurnOff(reason).p == w.p.CancelOff()
  {
    hide Plan.CancelOff;
  }

  lemma DisableProximityPlan(w: World, e: Enablement)
    ensures w.DisableProximity(e).p == w.p
  {
  }

  lemma ExpirationArrives(w: World, id: AlarmId)
    requires Inv(w) && id in w.p.clock.fired && id == w.p.expiration
    requires id != w.p.longPress && id != w.p.dim && id != w.p.off && id != w.p.suspend && id != w.p.proximity
    requires id != INVALID
    ensures Inv(w.HandleAlarm(id)) && !w.HandleAlarm(id).p.Owns(id)
  {
    hide Calm, Plan.Postpone, Plan.CancelOff, World.AllowTimeout, World.DisableProximity, Plan.Owns;
    var v := w.(p := w.p.(expiration := INVALID));
    ExpirationCleared(w, id);
    if w.m.display == On {
      PostponeKeepsInv(v, 0, PostNotification);
      PostponeDisowns(v.p, id, 0, PostNotification);
      v := v.ScheduleImmediate();
    }
    AllowNotificationsKeeps(v);
    AllowNotificationsPlan(v);
    CancelOffDisowns(v.p, id);
    v := v.AllowTimeout(Notifications);
    DisableProximityKeeps(v, UntilFarOrExpiration);
    DisableProximityPlan(v, UntilFarOrExpiration);
  }

  lemma AlarmSlots(p: Plan, id: AlarmId)
    requires p.Valid() && id in p.clock.fired
    ensures id != INVALID
    ensures id == p.dim ==> id != p.longPress
    ensures id == p.off ==> id != p.longPress && id != p.dim
    ensures id == p.suspend ==> id != p.longPress && id != p.dim && id != p.off
    ensures id == p.proximity ==> id != p.longPress && id != p.dim && id != p.off && id != p.suspend
    ensures id == p.expiration ==>
      id != p.longPress && id != p.dim && id != p.off && id != p.suspend && id != p.proximity
  {
  }

  lemma UnknownAlarm(w: World, id: AlarmId)
    requires !w.p.Owns(id)
    ensures w.HandleAlarm(id) == w
  {
  }

  lemma SoundPlan(w: World)
    requires Inv(w)
    ensures w.p.Valid()
  {
  }

  lemma AlarmKeeps(w: World, id: AlarmId)
    requires Inv(w) && id in w.p.clock.fired
    ensures Inv(w.HandleAlarm(id)) && !w.HandleAlarm(id).p.Owns(id)
    ensures Inv(Step(w, AlarmEvent(id)))
  {
    hide Inv, World.HandleAlarm, Plan.Valid;
    SoundPlan(w);
    AlarmSlots(w.p, id);
    if id == w.p.longPress { LongPressArrives(w, id); }
    else if id == w.p.dim { DimArrives(w, id); }
    else if id == w.p.off { OffArrives(w, id); }
    else if id == w.p.suspend { SuspendArrives(w, id); }
    else if id == w.p.proximity { ProximityArrives(w, id); }
    else if id == w.p.expiration { ExpirationArrives(w, id); }
    else { UnknownAlarm(w, id); }
    DeliverKeeps(w.HandleAlarm(id), id);
  }
}
