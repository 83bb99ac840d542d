/** What a handler call may do to the shared timer and to the outside. */
module PowerEffects {
  import opened Alarms
  import opened Plans
  import opened PowerModel

  /** Ids issued before and not awaited are left alone and never awaited again. */
  predicate Leaves(p: Plan, q: Plan, id: AlarmId) {
    1 <= id < p.clock.next && !p.Owns(id) ==>
      && !q.Owns(id)
      && (id in q.clock.pending <==> id in p.clock.pending)
      && (id in p.clock.pending ==> q.clock.pending[id] == p.clock.pending[id])
  }

  ghost predicate Frame(p: Plan, q: Plan) {
    && q.clock.now == p.clock.now && q.clock.fired == p.clock.fired
    && 1 <= p.clock.next <= q.clock.next
    && forall id: AlarmId :: Leaves(p, q, id)
  }

  lemma FrameTrans(p: Plan, q: Plan, r: Plan)
    requires Frame(p, q) && Frame(q, r)
    ensures Frame(p, r)
  {
    forall id: AlarmId ensures Leaves(p, r, id) {
      assert Leaves(p, q, id) && Leaves(q, r, id);
    }
  }

  lemma FrameRefl(p: Plan)
    requires p.clock.next >= 1
    ensures Frame(p, p)
  {
  }

  lemma CancelOffFrame(p: Plan)
    requires p.clock.next >= 1
    ensures Frame(p, p.CancelOff())
  {
  }

  lemma NormalOffFrame(p: Plan, t: int)
    requires p.clock.next >= 1
    ensures Frame(p, p.NormalOff(t))
  {
    CancelOffFrame(p);
    var q := p.CancelOff();
    if t != INFINITE {
      assert Frame(q, q.ScheduleDim(t));
      ScheduleOffFrame(q.ScheduleDim(t), t, Normal);
      FrameTrans(p, q, q.ScheduleDim(t));
      FrameTrans(p, q.ScheduleDim(t), p.NormalOff(t));
    }
  }

  lemma ScheduleOffFrame(p: Plan, t: int, k: TimeoutType)
    requires p.clock.next >= 1
    ensures Frame(p, p.ScheduleOff(t, k))
  {
  }

  lemma NormalSuspendFrame(p: Plan, t: int)
    requires p.clock.next >= 1
    ensures Frame(p, p.NormalSuspend(t))
  {
  }

  lemma PostponeFrame(p: Plan, t: int, k: TimeoutType)
    requires p.clock.next >= 1
    ensures Frame(p, p.Postpone(t, k))
  {
    CancelOffFrame(p);
    ScheduleOffFrame(p.CancelOff(), t, k);
    if Later(p.clock.now + t, p.offTime) {
      FrameTrans(p, p.CancelOff(), p.Postpone(t, k));
    }
  }

  lemma ProximityDisableFrame(p: Plan, t: int)
    requires p.clock.next >= 1
    ensures Frame(p, p.ProximityDisable(t))
  {
  }

  lemma ExpirationFrame(p: Plan, t: int)
    requires p.clock.next >= 1
    ensures Frame(p, p.Expiration(t)) && Frame(p, p.CancelExpiration())
  {
  }

  lemma LongPressFrame(p: Plan, t: int)
    requires p.clock.next >= 1
    ensures Frame(p, p.LongPress(t)) && Frame(p, p.CancelLongPress())
  {
  }

  // ---------- Effects of the helpers ----------

  /** `v` comes from `w` by a call that leaves pausing alone, respects everybody else's alarms,
      says nothing loud while paused, and suspends and reports so many times. */
  ghost predicate Does(w: World, v: World, suspends: nat, presses: nat) {
    && Frame(w.p, v.p)
    && v.m.paused == w.m.paused
    && v.out.inactivitySuspends == w.out.inactivitySuspends + suspends
    && v.out.longPresses == w.out.longPresses + presses
    && (w.m.paused ==> v.out.loud == w.out.loud)
  }

  lemma Chain(w: World, u: World, v: World, s: nat, t: nat, a: nat, b: nat)
    requires Does(w, u, s, a) && Does(u, v, t, b)
    ensures Does(w, v, s + t, a + b)
  {
    FrameTrans(w.p, u.p, v.p);
  }

  predicate Ready(w: World) {
    w.p.clock.next >= 1
  }

  lemma DoesReady(w: World, v: World)
    requires Does(w, v, 0, 0)
    ensures Ready(v)
  {
  }

  lemma NothingDone(w: World)
    requires Ready(w)
    ensures Does(w, w, 0, 0)
  {
    FrameRefl(w.p);
  }

  lemma FieldsOnly(w: World, m': Machine)
    requires Ready(w) && m'.paused == w.m.paused
    ensures Does(w, w.(m := m'), 0, 0)
  {
    FrameRefl(w.p);
  }

  lemma TurnOffDoes(w: World, reason: Reason)
    requires Ready(w)
    ensures Does(w, w.TurnOff(reason), 0, 0)
  {
    hide Frame, Plan.CancelOff, Plan.NormalOff, Plan.NormalSuspend, Plan.Postpone, Plan.ProximityDisable;
    hide Plan.Expiration, Plan.CancelExpiration, Plan.LongPress, Plan.CancelLongPress;
    FrameRefl(w.p);
    CancelOffFrame(w.p);
  }

  lemma TurnOnWithoutTimeoutDoes(w: World, reason: Reason)
    requires Ready(w)
    ensures Does(w, w.TurnOnWithoutTimeout(reason), 0, 0)
  {
    hide Frame;
    FrameRefl(w.p);
  }

  lemma NormalSuspendDoes(w: World)
    requires Ready(w)
    ensures Does(w, w.ScheduleNormalSuspend(), 0, 0)
  {
    hide Frame, Plan.CancelOff, Plan.NormalOff, Plan.NormalSuspend, Plan.Postpone, Plan.ProximityDisable;
    hide Plan.Expiration, Plan.CancelExpiration, Plan.LongPress, Plan.CancelLongPress;
    NormalSuspendFrame(w.p, w.m.suspendTimeout.Get());
  }

  lemma ScheduleNormalDoes(w: World)
    requires Ready(w)
    ensures Does(w, w.ScheduleNormal(), 0, 0)
  {
    hide Frame, Plan.NormalOff, World.ScheduleNormalSuspend;
    NormalOffFrame(w.p, w.m.offTimeout.Get());
    var u := w.(p := w.p.NormalOff(w.m.offTimeout.Get()));
    assert Does(w, u, 0, 0);
    DoesReady(w, u);
    NormalSuspendDoes(u);
    Chain(w, u, u.ScheduleNormalSuspend(), 0, 0, 0, 0);
  }

  lemma PostponeDoes(w: World, t: int, k: TimeoutType)
    requires Ready(w)
    ensures Does(w, w.(p := w.p.Postpone(t, k)), 0, 0)
  {
    hide Frame, Plan.CancelOff, Plan.NormalOff, Plan.NormalSuspend, Plan.Postpone, Plan.ProximityDisable;
    hide Plan.Expiration, Plan.CancelExpiration, Plan.LongPress, Plan.CancelLongPress;
    PostponeFrame(w.p, t, k);
  }

  lemma TurnOnDoes(w: World, reason: Reason)
    requires Ready(w)
    ensures Does(w, w.TurnOn(reason), 0, 0)
  {
    hide Does, World.TurnOnWithoutTimeout, World.ScheduleNormal;
    var u := w.TurnOnWithoutTimeout(reason);
    TurnOnWithoutTimeoutDoes(w, reason);
    DoesReady(w, u);
    ScheduleNormalDoes(u);
    Chain(w, u, w.TurnOn(reason), 0, 0, 0, 0);
  }

  lemma TurnOnReducedDoes(w: World, reason: Reason)
    requires Ready(w)
    ensures Does(w, w.TurnOnReduced(reason), 0, 0)
  {
    hide Does, World.TurnOnWithoutTimeout, Plan.Postpone;
    var u := w.TurnOnWithoutTimeout(reason);
    TurnOnWithoutTimeoutDoes(w, reason);
    DoesReady(w, u);
    PostponeDoes(u, u.m.options.reducedOffTimeout, Reduced);
    Chain(w, u, w.TurnOnReduced(reason), 0, 0, 0, 0);
  }

  lemma BrightenDoes(w: World)
    requires Ready(w)
    ensures Does(w, w.Brighten(), 0, 0) && Does(w, w.Dim(), 0, 0)
  {
    hide Frame;
    FrameRefl(w.p);
  }

  lemma ExtendDoes(w: World)
    requires Ready(w)
    ensures Does(w, w.Extend(), 0, 0)
  {
    hide Does, World.Brighten, World.ScheduleNormal;
    BrightenDoes(w);
    DoesReady(w, w.Brighten());
    ScheduleNormalDoes(w.Brighten());
    Chain(w, w.Brighten(), w.Extend(), 0, 0, 0, 0);
  }

  lemma ExtendForDoes(w: World, reason: Reason)
    requires Ready(w)
    ensures Does(w, w.ExtendFor(reason), 0, 0)
  {
    hide Does, World.Extend;
    var u := w.Extend();
    ExtendDoes(w);
    DoesReady(w, u);
    FieldsOnly(u, u.m.(reason := reason));
    Chain(w, u, w.ExtendFor(reason), 0, 0, 0, 0);
  }

  lemma AllowTimeoutDoes(w: World, a: Allowance)
    requires Ready(w)
    ensures Does(w, w.AllowTimeout(a), 0, 0)
  {
    hide Does, World.TurnOff, World.ScheduleNormal;
    var u := w.(m := w.m.Allow(a, true));
    if w.m.TimeoutAllowed() {
      NothingDone(w);
    } else if w.AllowTimeout(a) == u.TurnOff(Activity) {
      FieldsOnly(w, u.m);
      TurnOffDoes(u, Activity);
      Chain(w, u, u.TurnOff(Activity), 0, 0, 0, 0);
    } else if w.AllowTimeout(a) == u.ScheduleNormal() {
      FieldsOnly(w, u.m);
      ScheduleNormalDoes(u);
      Chain(w, u, u.ScheduleNormal(), 0, 0, 0, 0);
    } else {
      FieldsOnly(w, u.m);
    }
  }

  lemma ProximityDoes(w: World, e: Enablement)
    requires Ready(w)
    ensures Does(w, w.EnableProximity(e), 0, 0) && Does(w, w.DisableProximity(e), 0, 0)
  {
    hide Frame;
    FrameRefl(w.p);
  }

  lemma SuspendWhenAllowedDoes(w: World)
    requires Ready(w)
    ensures Does(w, w.SuspendWhenAllowed(), if w.m.suspendAllowed && !w.m.paused then 1 else 0, 0)
  {
    hide Frame;
    FrameRefl(w.p);
  }

  lemma EmitDoes(w: World, c: Command)
    requires Ready(w) && (w.m.paused ==> Housekeeping(c))
    requires c != SuspendNow(Inactivity) && c != NotifyLongPress
    ensures Does(w, w.Emit(c), 0, 0)
  {
    hide Frame;
    FrameRefl(w.p);
  }

  // ---------- Effects of the handlers ----------

  lemma HandleActiveCallDoes(w: World, far: bool)
    requires Ready(w)
    ensures Does(w, w.HandleActiveCall(far), 0, 0)
  {
    hide Does, World.Extend, World.TurnOn, World.EnableProximity;
    ExtendDoes(w);
    TurnOnDoes(w, Call);
    NothingDone(w);
    var u := if w.m.display == On then w.Extend() else if far then w.TurnOn(Call) else w;
    DoesReady(w, u);
    ProximityDoes(u, UntilDisabled);
    Chain(w, u, w.HandleActiveCall(far), 0, 0, 0, 0);
  }

  lemma WaitForFarDoes(w: World)
    requires Ready(w)
    ensures Does(w, w.EnableProximity(UntilFarOrTimeout).ScheduleProximityDisable(), 0, 0)
  {
    hide Frame, Plan.ProximityDisable, World.EnableProximity;
    var u := w.EnableProximity(UntilFarOrTimeout);
    ProximityDoes(w, UntilFarOrTimeout);
    DoesReady(w, u);
    ProximityDisableFrame(u.p, u.m.options.reducedOffTimeout);
    Chain(w, u, u.ScheduleProximityDisable(), 0, 0, 0, 0);
  }

  lemma HandleNoActiveCallDoes(w: World, far: bool)
    requires Ready(w)
    ensures Does(w, w.HandleNoActiveCall(far), 0, 0)
  {
    hide Does, World.Brighten, World.TurnOnReduced, World.DisableProximity, Plan.Postpone;
    hide World.EnableProximity, World.ScheduleProximityDisable;
    var u := w.Brighten();
    BrightenDoes(w);
    DoesReady(w, u);
    PostponeDoes(u, u.m.options.reducedOffTimeout, Reduced);
    Chain(w, u, u.ScheduleReduced(), 0, 0, 0, 0);
    TurnOnReducedDoes(w, CallDone);
    WaitForFarDoes(w);
    var v :=
      if w.m.display == On then u.ScheduleReduced()
      else if far then w.TurnOnReduced(CallDone)
      else w.EnableProximity(UntilFarOrTimeout).ScheduleProximityDisable();
    DoesReady(w, v);
    ProximityDoes(v, UntilDisabled);
    Chain(w, v, w.HandleNoActiveCall(far), 0, 0, 0, 0);
  }

  lemma HandleInactivityTimeoutDoes(w: World)
    requires Ready(w)
    ensures Does(w, w.HandleEnableInactivityTimeout(), 0, 0)
    ensures Does(w, w.HandleDisableInactivityTimeout(), 0, 0)
  {
    hide Does, World.AllowTimeout, World.Brighten, World.TurnOnWithoutTimeout;
    AllowTimeoutDoes(w, Client);
    var u := w.DisallowTimeout(Client);
    FieldsOnly(w, u.m);
    DoesReady(w, u);
    BrightenDoes(u);
    TurnOnWithoutTimeoutDoes(u, UnknownReason);
    Chain(w, u, u.Brighten(), 0, 0, 0, 0);
    Chain(w, u, u.TurnOnWithoutTimeout(UnknownReason), 0, 0, 0, 0);
  }

  lemma HandleSetInactivityBehaviorDoes(w: World, a: PowerAction, s: PowerSupply, t: int)
    requires Ready(w)
    ensures Does(w, w.HandleSetInactivityBehavior(a, s, t), 0, 0)
  {
    hide Does, World.ScheduleNormal;
    NothingDone(w);
    var off := if a == DisplayOff then w.m.offTimeout.Set(s, t) else w.m.offTimeout;
    var suspend := if a == DisplayOff then w.m.suspendTimeout else w.m.suspendTimeout.Set(s, t);
    var u := w.(m := w.m.(offTimeout := off, suspendTimeout := suspend));
    FieldsOnly(w, u.m);
    DoesReady(w, u);
    ScheduleNormalDoes(u);
    Chain(w, u, u.ScheduleNormal(), 0, 0, 0, 0);
  }

  lemma EmitFrom(w: World, u: World, c: Command)
    requires Does(w, u, 0, 0) && !w.m.paused
    requires c != SuspendNow(Inactivity) && c != NotifyLongPress
    ensures Does(w, u.Emit(c), 0, 0)
  {
    hide Frame;
    assert Ready(u) by { DoesReady(w, u); }
    EmitDoes(u, c);
    Chain(w, u, u.Emit(c), 0, 0, 0, 0);
  }

  lemma HandleLidClosedDoes(w: World, x: bool)
    requires Ready(w) && !w.m.paused
    ensures Does(w, w.HandleLidClosed(x), 0, 0)
  {
    hide Does, World.TurnOff, World.Emit;
    var u := w.(m := w.m.(lidClosed := true));
    FieldsOnly(w, u.m);
    if x {
      EmitFrom(w, u, TurnOffDisplay(Internal));
    } else if w.m.display == On {
      DoesReady(w, u);
      TurnOffDoes(u, UnknownReason);
      Chain(w, u, u.TurnOff(UnknownReason), 0, 0, 0, 0);
      EmitFrom(w, u.TurnOff(UnknownReason), SuspendNow(LidClosing));
    } else {
      EmitFrom(w, u, SuspendNow(LidClosing));
    }
  }

  lemma HandleLidOpenDoes(w: World)
    requires Ready(w) && !w.m.paused
    ensures Does(w, w.HandleLidOpen(), 0, 0)
  {
    hide Does, World.TurnOn, World.ExtendFor, World.Emit;
    var u := w.(m := w.m.(lidClosed := false));
    FieldsOnly(w, u.m);
    DoesReady(w, u);
    TurnOnDoes(u, Activity);
    Chain(w, u, u.TurnOn(Activity), 0, 0, 0, 0);
    EmitDoes(u, TurnOnDisplay(Internal));
    var v := u.Emit(TurnOnDisplay(Internal));
    Chain(w, u, v, 0, 0, 0, 0);
    DoesReady(w, v);
    ExtendForDoes(v, Activity);
    Chain(w, v, v.ExtendFor(Activity), 0, 0, 0, 0);
  }

  lemma HandleNoNotificationDoes(w: World)
    requires Ready(w)
    ensures Does(w, w.HandleNoNotification(), 0, 0)
  {
    hide Does, Plan.Postpone, World.AllowTimeout, World.DisableProximity, Plan.CancelExpiration;
    NothingDone(w);
    PostponeDoes(w, w.m.options.postNotificationOffTimeout, PostNotification);
    var u := if w.m.display == On then w.SchedulePostNotification() else w;
    DoesReady(w, u);
    AllowTimeoutDoes(u, Notifications);
    var v := u.AllowTimeout(Notifications);
    Chain(w, u, v, 0, 0, 0, 0);
    DoesReady(w, v);
    ProximityDoes(v, UntilFarOrExpiration);
    var x := v.DisableProximity(UntilFarOrExpiration);
    Chain(w, v, x, 0, 0, 0, 0);
    DoesReady(w, x);
    ExpirationDoes(x, 0);
    Chain(w, x, w.HandleNoNotification(), 0, 0, 0, 0);
  }

  lemma ExpirationDoes(w: World, t: int)
    requires Ready(w)
    ensures Does(w, w.(p := w.p.CancelExpiration()), 0, 0) && Does(w, w.(p := w.p.Expiration(t)), 0, 0)
  {
    hide Frame, Plan.CancelOff, Plan.NormalOff, Plan.NormalSuspend, Plan.Postpone, Plan.ProximityDisable;
    hide Plan.Expiration, Plan.CancelExpiration, Plan.LongPress, Plan.CancelLongPress;
    ExpirationFrame(w.p, t);
  }

  lemma ScheduleExpirationDoes(w: World)
    requires Ready(w)
    ensures Does(w, w.ScheduleExpiration(), 0, 0)
  {
    hide Does, Plan.Expiration;
    var t := w.m.offTimeout.Get();
    ExpirationDoes(w, if t < w.m.options.notificationExpiration then t else w.m.options.notificationExpiration);
  }

  lemma ExpireFrom(w: World, u: World, v: World)
    requires Does(w, u, 0, 0) && Does(u, v, 0, 0)
    ensures Does(w, v.ScheduleExpiration(), 0, 0)
  {
    hide Does, World.ScheduleExpiration;
    Chain(w, u, v, 0, 0, 0, 0);
    DoesReady(w, v);
    ScheduleExpirationDoes(v);
    Chain(w, v, v.ScheduleExpiration(), 0, 0, 0, 0);
  }

  lemma DisallowDoes(w: World, a: Allowance)
    requires Ready(w)
    ensures Does(w, w.DisallowTimeout(a), 0, 0)
  {
    hide Frame;
    FrameRefl(w.p);
  }

  lemma HandleNotificationDoes(w: World, far: bool)
    requires Ready(w)
    ensures Does(w, w.HandleNotification(far), 0, 0)
  {
    hide Does, World.Brighten, World.TurnOnWithoutTimeout, World.EnableProximity, World.ScheduleExpiration;
    hide World.DisallowTimeout;
    var u := w.DisallowTimeout(Notifications);
    DisallowDoes(w, Notifications);
    DoesReady(w, u);
    if w.m.display == On {
      BrightenDoes(u);
      ExpireFrom(w, u, u.Brighten());
    } else if far {
      TurnOnWithoutTimeoutDoes(u, Notification);
      ExpireFrom(w, u, u.TurnOnWithoutTimeout(Notification));
    } else {
      ProximityDoes(u, UntilFarOrExpiration);
      ExpireFrom(w, u, u.EnableProximity(UntilFarOrExpiration));
    }
  }

  lemma LongPressDoes(w: World, t: int)
    requires Ready(w)
    ensures Does(w, w.(p := w.p.LongPress(t)), 0, 0)
  {
    hide Frame, Plan.CancelOff, Plan.NormalOff, Plan.NormalSuspend, Plan.Postpone, Plan.ProximityDisable;
    hide Plan.Expiration, Plan.CancelExpiration, Plan.LongPress, Plan.CancelLongPress;
    LongPressFrame(w.p, t);
  }

  lemma HandlePowerButtonPressDoes(w: World)
    requires Ready(w)
    ensures Does(w, w.HandlePowerButtonPress(), 0, 0)
  {
    hide Does, World.ExtendFor, World.TurnOn, Plan.LongPress;
    var u := w.(m := w.m.(displayAtPress := w.m.display));
    FieldsOnly(w, u.m);
    DoesReady(w, u);
    ExtendForDoes(u, PowerButton);
    TurnOnDoes(u, PowerButton);
    NothingDone(u);
    var v :=
      if w.m.options.powerButtonIsActivity && w.m.display == On then u.ExtendFor(PowerButton)
      else if w.m.display == Off then u.TurnOn(PowerButton)
      else u;
    Chain(w, u, v, 0, 0, 0, 0);
    DoesReady(w, v);
    LongPressDoes(v, w.m.options.longPressTimeout);
    Chain(w, v, w.HandlePowerButtonPress(), 0, 0, 0, 0);
  }

  lemma ForgetLongPressDoes(w: World, m': Machine)
    requires Ready(w) && m'.paused == w.m.paused
    ensures Does(w, w.(m := m', p := w.p.(longPress := INVALID)), 0, 0)
  {
  }

  lemma ReleaseFrom(w: World, u: World)
    requires Does(w, u, 0, 0)
    ensures Does(w, u.(m := u.m.(displayAtPress := UnknownMode), p := u.p.(longPress := INVALID)), 0, 0)
  {
    hide Does;
    DoesReady(w, u);
    var v := u.(m := u.m.(displayAtPress := UnknownMode), p := u.p.(longPress := INVALID));
    ForgetLongPressDoes(u, v.m);
    Chain(w, u, v, 0, 0, 0, 0);
  }

  lemma HandlePowerButtonReleaseDoes(w: World)
    requires Ready(w)
    ensures Does(w, w.HandlePowerButtonRelease(), 0, 0)
  {
    hide Does, World.TurnOff;
    if w.m.longPressDetected {
      FieldsOnly(w, w.m.(longPressDetected := false));
      ReleaseFrom(w, w.(m := w.m.(longPressDetected := false)));
    } else if w.m.displayAtPress == On && !w.m.options.powerButtonIsActivity {
      TurnOffDoes(w, PowerButton);
      ReleaseFrom(w, w.TurnOff(PowerButton));
    } else {
      NothingDone(w);
      ReleaseFrom(w, w);
    }
  }

  lemma HandlePowerSourceChangeDoes(w: World, battery: bool, far: bool)
    requires Ready(w)
    ensures Does(w, w.HandlePowerSourceChange(battery, far), 0, 0)
  {
    hide Does, World.ExtendFor, World.TurnOnReduced, World.ScheduleNormalSuspend;
    var u := w.OnBattery(battery);
    FieldsOnly(w, u.m);
    DoesReady(w, u);
    ExtendForDoes(u, Activity);
    TurnOnReducedDoes(u, Notification);
    NothingDone(u);
    var v :=
      if w.m.display == On then u.ExtendFor(Activity)
      else if far then u.TurnOnReduced(Notification)
      else u;
    Chain(w, u, v, 0, 0, 0, 0);
    DoesReady(w, v);
    NormalSuspendDoes(v);
    Chain(w, v, w.HandlePowerSourceChange(battery, far), 0, 0, 0, 0);
  }

  lemma HandleProximityFarDoes(w: World)
    requires Ready(w)
    ensures Does(w, w.HandleProximityFar(), 0, 0)
  {
    hide Does, World.DisableProximity, World.TurnOn, World.TurnOnReduced;
    ProximityDoes(w, UntilFarOrExpiration);
    var u := w.DisableProximity(UntilFarOrExpiration);
    DoesReady(w, u);
    ProximityDoes(u, UntilFarOrTimeout);
    var v := u.DisableProximity(UntilFarOrTimeout);
    Chain(w, u, v, 0, 0, 0, 0);
    DoesReady(w, v);
    TurnOnDoes(v, Proximity);
    TurnOnReducedDoes(v, Proximity);
    Chain(w, v, v.TurnOn(Proximity), 0, 0, 0, 0);
    Chain(w, v, v.TurnOnReduced(Proximity), 0, 0, 0, 0);
  }

  lemma HandleActivityDoes(w: World, far: bool)
    requires Ready(w)
    ensures Does(w, w.HandleUserActivityChangingPowerState(far), 0, 0)
    ensures Does(w, w.HandleUserActivityExtendingPowerState(), 0, 0)
    ensures Does(w, w.HandleProximityNear(), 0, 0)
  {
    hide Does, World.ExtendFor, World.TurnOn, World.TurnOff;
    ExtendForDoes(w, Activity);
    TurnOnDoes(w, Activity);
    TurnOffDoes(w, Proximity);
    NothingDone(w);
  }

  lemma HandleBrightnessDoes(w: World, value: real, enabled: bool)
    requires Ready(w)
    ensures Does(w, w.HandleSetNormalBrightnessValue(value), 0, 0)
    ensures Does(w, w.HandleAutobrightness(enabled), 0, 0)
  {
    hide Frame;
    FrameRefl(w.p);
  }

  lemma HandleBehaviorDoes(w: World, a: PowerAction, s: PowerSupply)
    requires Ready(w)
    ensures Does(w, w.HandleSetLidBehavior(a, s), 0, 0)
    ensures Does(w, w.HandleSetCriticalPowerBehavior(a), 0, 0)
    ensures Does(w, w.HandleDisallowSuspend(), 0, 0)
  {
    hide Frame;
    FrameRefl(w.p);
  }

  lemma HandlePowerSourceCriticalDoes(w: World)
    requires Ready(w) && !w.m.paused
    ensures Does(w, w.HandlePowerSourceCritical(), 0, 0)
  {
    hide Frame;
    FrameRefl(w.p);
  }

  lemma HandleSwitchDoes(w: World)
    requires Ready(w)
    ensures Does(w, w.HandleTurnOnDisplay(), 0, 0)
    ensures Does(w, w.HandleTurnOffDisplay(), 0, 0)
    ensures Does(w, w.HandleSystemResume(), 0, 0)
  {
    hide Does, World.TurnOn, World.TurnOff;
    TurnOnDoes(w, PowerButton);
    TurnOnDoes(w, Activity);
    TurnOffDoes(w, PowerButton);
  }

  /** A deferred suspend is carried out when suspending is allowed again, unless paused. */
  lemma HandleAllowSuspendDoes(w: World)
    requires Ready(w)
    ensures Does(w, w.HandleAllowSuspend(), if w.m.suspendPending && !w.m.paused then 1 else 0, 0)
  {
    hide Frame;
    FrameRefl(w.p);
  }

  lemma StartDoes(w: World, battery: bool)
    requires Ready(w) && !w.m.paused
    ensures Does(w, w.Start(battery), 0, 0)
  {
    hide Does, World.TurnOn, World.Emit;
    var u := w.OnBattery(battery);
    FieldsOnly(w, u.m);
    DoesReady(w, u);
    EmitDoes(u, DisallowDefaultHandlers);
    var v := u.Emit(DisallowDefaultHandlers);
    Chain(w, u, v, 0, 0, 0, 0);
    DoesReady(w, v);
    TurnOnDoes(v, UnknownReason);
    Chain(w, v, v.TurnOn(UnknownReason), 0, 0, 0, 0);
  }

  lemma PauseDoes(w: World)
    requires Ready(w)
    ensures Frame(w.p, w.Pause().p) && w.Pause().m.paused
    ensures w.Pause().out.inactivitySuspends == w.out.inactivitySuspends
    ensures w.Pause().out.longPresses == w.out.longPresses
  {
    hide Frame, Plan.CancelLongPress;
    LongPressFrame(w.p, 0);
  }

  lemma ResumeDoes(w: World)
    requires Ready(w)
    ensures Frame(w.p, w.Resume().p) && !w.Resume().m.paused
    ensures w.Resume().out.inactivitySuspends == w.out.inactivitySuspends
    ensures w.Resume().out.longPresses == w.out.longPresses
  {
    hide Frame, World.TurnOn, World.TakeOver;
    TakeOverDoes(w);
    TurnOnDoes(w.TakeOver(), UnknownReason);
  }

  lemma TakeOverDoes(w: World)
    ensures var v := w.TakeOver();
      && v.p == w.p && v.m == w.m.(paused := false)
      && v.out.inactivitySuspends == w.out.inactivitySuspends && v.out.longPresses == w.out.longPresses
  {
  }

  // ---------- Alarms ----------

  lemma ClearSlot(p: Plan, q: Plan)
    requires p.clock.next >= 1
    requires q == p.(longPress := INVALID) || q == p.(dim := INVALID) || q == p.(off := INVALID)
      || q == p.(suspend := INVALID) || q == p.(proximity := INVALID) || q == p.(expiration := INVALID)
      || q == p.(kind := NoTimeout)
    ensures Frame(p, q)
  {
  }

  lemma SlotDoes(w: World, q: Plan)
    requires Frame(w.p, q)
    ensures Does(w, w.(p := q), 0, 0)
  {
  }

  lemma LongPressAlarmDoes(w: World, id: AlarmId)
    requires Ready(w) && id == w.p.longPress && !w.m.paused
    ensures Does(w, w.HandleAlarm(id), 0, 1)
  {
    hide Frame;
    ClearSlot(w.p, w.p.(longPress := INVALID));
  }

  lemma SuspendAlarmDoes(w: World, id: AlarmId)
    requires Ready(w) && id == w.p.suspend && id != w.p.longPress && id != w.p.dim && id != w.p.off
    ensures Does(w, w.HandleAlarm(id),
                 if w.m.TimeoutApplies() && w.m.suspendAllowed && !w.m.paused then 1 else 0, 0)
  {
    hide Does, World.SuspendWhenAllowed, Frame;
    ClearSlot(w.p, w.p.(suspend := INVALID));
    var u := w.(p := w.p.(suspend := INVALID));
    SlotDoes(w, u.p);
    DoesReady(w, u);
    SuspendWhenAllowedDoes(u);
    Chain(w, u, u.SuspendWhenAllowed(), 0, if w.m.suspendAllowed && !w.m.paused then 1 else 0, 0, 0);
  }

  lemma OffAlarmDoes(w: World, id: AlarmId)
    requires Ready(w) && id == w.p.off && id != w.p.longPress && id != w.p.dim
    ensures Does(w, w.HandleAlarm(id), 0, 0)
  {
    hide Does, World.TurnOff, Frame;
    ClearSlot(w.p, w.p.(off := INVALID));
    var u := w.(p := w.p.(off := INVALID));
    SlotDoes(w, u.p);
    DoesReady(w, u);
    TurnOffDoes(u, Activity);
    Chain(w, u, u.TurnOff(Activity), 0, 0, 0, 0);
    var v := if w.m.TimeoutApplies() then u.TurnOff(Activity) else u;
    DoesReady(w, v);
    ClearSlot(v.p, v.p.(kind := NoTimeout));
    SlotDoes(v, v.p.(kind := NoTimeout));
    Chain(w, v, v.(p := v.p.(kind := NoTimeout)), 0, 0, 0, 0);
  }

  lemma DimAlarmDoes(w: World, id: AlarmId)
    requires Ready(w) && id == w.p.dim && id != w.p.longPress
    ensures Does(w, w.HandleAlarm(id), 0, 0)
  {
    hide Does, World.Dim, Frame;
    ClearSlot(w.p, w.p.(dim := INVALID));
    var u := w.(p := w.p.(dim := INVALID));
    SlotDoes(w, u.p);
    DoesReady(w, u);
    BrightenDoes(u);
    Chain(w, u, u.Dim(), 0, 0, 0, 0);
  }

  lemma ProximityAlarmDoes(w: World, id: AlarmId)
    requires Ready(w) && id == w.p.proximity
    requires id != w.p.longPress && id != w.p.dim && id != w.p.off && id != w.p.suspend
    ensures Does(w, w.HandleAlarm(id), 0, 0)
  {
    hide Does, World.DisableProximity, Frame;
    ClearSlot(w.p, w.p.(proximity := INVALID));
    var u := w.(p := w.p.(proximity := INVALID));
    SlotDoes(w, u.p);
    DoesReady(w, u);
    ProximityDoes(u, UntilFarOrTimeout);
    Chain(w, u, u.DisableProximity(UntilFarOrTimeout), 0, 0, 0, 0);
  }

  lemma ExpirationAlarmDoes(w: World, id: AlarmId)
    requires Ready(w) && id == w.p.expiration && id != w.p.longPress && id != w.p.dim
    requires id != w.p.off && id != w.p.suspend && id != w.p.proximity
    ensures Does(w, w.HandleAlarm(id), 0, 0)
  {
    hide Does, World.DisableProximity, World.AllowTimeout, Plan.Postpone, Frame;
    ClearSlot(w.p, w.p.(expiration := INVALID));
    var u := w.(p := w.p.(expiration := INVALID));
    SlotDoes(w, u.p);
    DoesReady(w, u);
    PostponeDoes(u, 0, PostNotification);
    Chain(w, u, u.ScheduleImmediate(), 0, 0, 0, 0);
    var v := if w.m.display == On then u.ScheduleImmediate() else u;
    DoesReady(w, v);
    AllowTimeoutDoes(v, Notifications);
    var x := v.AllowTimeout(Notifications);
    Chain(w, v, x, 0, 0, 0, 0);
    DoesReady(w, x);
    ProximityDoes(x, UntilFarOrExpiration);
    Chain(w, x, x.DisableProximity(UntilFarOrExpiration), 0, 0, 0, 0);
  }
}
