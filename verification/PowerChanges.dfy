/** What each handler changes, part by part: one relation between the state before and the state
    after, from which deadlines, inhibitor flags, deferred suspends and the shared interfaces are
    read off. */
module PowerChanges {
  import opened Alarms
  import opened Plans
  import opened PowerModel
  import opened PowerInvariants

  // ---------- Deadlines ----------

  /** The longest time a schedule of this kind may still leave the display on. */
  function Limit(m: Machine, k: TimeoutType): int {
    match k
    case NoTimeout => 0
    case Normal => m.offTimeout.Get()
    case PostNotification =>
      if m.options.postNotificationOffTimeout > 0 then m.options.postNotificationOffTimeout else 0
    case Reduced => m.options.reducedOffTimeout
  }

  predicate Within(p: Plan, limit: int) {
    p.offTime.At? && p.offTime.t <= p.clock.now + limit
  }

  /** The off time lies no further ahead than the timeout in force, and is never only when that is
      infinite. */
  predicate Timely(w: World) {
    && (w.p.kind == Normal && w.p.offTime == Never ==> Limit(w.m, Normal) == INFINITE)
    && (w.p.kind == Normal && w.p.offTime != Never ==> Within(w.p, Limit(w.m, Normal)))
    && (w.p.kind == PostNotification ==> Within(w.p, Limit(w.m, PostNotification)))
    && (w.p.kind == Reduced ==> Within(w.p, Limit(w.m, Reduced)))
  }

  predicate SameTimeouts(w: World, v: World) {
    v.m.options == w.m.options && v.m.offTimeout == w.m.offTimeout && v.p.clock.now == w.p.clock.now
  }

  predicate Punctual(w: World, v: World) {
    Timely(w) ==> Timely(v)
  }

  // ---------- Proximity sensor ----------

  predicate SameReasons(m: Machine, n: Machine) {
    && n.proximityUntilFarOrExpiration == m.proximityUntilFarOrExpiration
    && n.proximityUntilDisabled == m.proximityUntilDisabled
    && n.proximityUntilFarOrTimeout == m.proximityUntilFarOrTimeout
  }

  /** The sensor was left alone, and so were the reasons for it. */
  predicate SameSensor(w: World, v: World) {
    SameReasons(w.m, v.m) && v.out.sensor == w.out.sensor
  }

  /** The sensor was switched when the first reason came or the last one went, and only then. */
  predicate Switches(w: World, v: World) {
    v.out.sensor ==
      if v.m.ProximityEnabled() == w.m.ProximityEnabled() then w.out.sensor else v.m.ProximityEnabled()
  }

  // ---------- Inhibitors ----------

  /** What clients and logind asked for is untouched; a notification's hold may only end. */
  predicate SameFlags(w: World, v: World) {
    && v.m.clientAllows == w.m.clientAllows
    && v.m.suspendAllowed == w.m.suspendAllowed
    && (w.m.notificationAllows ==> v.m.notificationAllows)
  }

  // ---------- Suspend block and deferred suspend ----------

  /** The shared suspend block is as this machine alone would have it. */
  predicate Alone(w: World) {
    w.out.block == w.out.suspendBlocked
  }

  /** A paused machine leaves the shared block alone, and none makes it differ from its own. */
  predicate SameBlock(w: World, v: World) {
    && v.m.paused == w.m.paused
    && (w.m.paused ==> v.out.block == w.out.block)
    && (Alone(w) ==> Alone(v))
  }

  predicate PendingUnless(w: World, v: World, forgets: bool) {
    v.m.suspendPending == (w.m.suspendPending && !forgets)
  }

  // ---------- All of it ----------

  /** A part of a handler that touches none of this, except that it may forget a deferred suspend. */
  predicate Spares(w: World, v: World, forgets: bool) {
    && SameTimeouts(w, v) && Punctual(w, v)
    && SameSensor(w, v) && SameFlags(w, v) && SameBlock(w, v)
    && PendingUnless(w, v, forgets)
  }

  /** What can be said of a handler that gives or takes reasons for the sensor, or allowances. */
  predicate Bare(w: World, v: World, forgets: bool) {
    Punctual(w, v) && Switches(w, v) && SameBlock(w, v) && PendingUnless(w, v, forgets)
  }

  predicate Sways(w: World, v: World, forgets: bool) {
    Bare(w, v, forgets) && SameFlags(w, v)
  }

  lemma Through(w: World, u: World, v: World, f: bool, g: bool)
    requires Spares(w, u, f) && Spares(u, v, g)
    ensures Spares(w, v, f || g)
  {
    hide Timely, Alone;
  }

  lemma SpareSways(w: World, u: World, v: World, f: bool, g: bool)
    requires Spares(w, u, f) && Sways(u, v, g)
    ensures Sways(w, v, f || g)
  {
    hide Timely, Alone;
  }

  lemma SwaySpares(w: World, u: World, v: World, f: bool, g: bool)
    requires Sways(w, u, f) && Spares(u, v, g)
    ensures Sways(w, v, f || g)
  {
    hide Timely, Alone;
  }

  lemma Still(w: World, v: World, f: bool)
    requires Spares(w, v, f)
    ensures Sways(w, v, f)
  {
    hide Timely, Alone;
  }

  lemma Itself(w: World)
    ensures Spares(w, w, false) && Sways(w, w, false)
  {
    hide Timely, Alone;
  }

  // ---------- The smallest parts ----------

  /** Only these fields matter to a deadline. */
  lemma TimelyDepends(w: World, v: World)
    requires SameTimeouts(w, v) && v.p.kind == w.p.kind && v.p.offTime == w.p.offTime
    ensures Timely(v) == Timely(w)
  {
  }

  predicate ForSensor(c: Command) {
    c == EnableProximityEvents || c == DisableProximityEvents
  }

  predicate ForBlock(c: Command) {
    c == AllowAutomaticSuspend || c == DisallowAutomaticSuspend
  }

  lemma EmitSpares(w: World, c: Command)
    requires !ForSensor(c) && (ForBlock(c) ==> !w.m.paused)
    ensures Spares(w, w.Emit(c), false)
  {
    hide Timely;
    TimelyDepends(w, w.Emit(c));
  }

  /** The fields that none of this looks at. */
  predicate Cosmetic(m: Machine, n: Machine) {
    n == m.(display := n.display, displayAtPress := n.displayAtPress, reason := n.reason,
            longPressDetected := n.longPressDetected, suspendTimeout := n.suspendTimeout,
            lidAction := n.lidAction, criticalAction := n.criticalAction,
            autobrightness := n.autobrightness, brightness := n.brightness, lidClosed := n.lidClosed)
  }

  lemma CosmeticSpares(w: World, m: Machine)
    requires Cosmetic(w.m, m)
    ensures Spares(w, w.(m := m), false)
  {
    hide Timely;
    TimelyDepends(w, w.(m := m));
  }

  lemma PlanSpares(w: World, p: Plan)
    requires p.clock.now == w.p.clock.now && Punctual(w, w.(p := p))
    ensures Spares(w, w.(p := p), false)
  {
    hide Timely;
  }

  /** A change of other alarms than the off alarm. */
  lemma OtherPlanSpares(w: World, p: Plan)
    requires p.clock.now == w.p.clock.now && p.kind == w.p.kind && p.offTime == w.p.offTime
    ensures Spares(w, w.(p := p), false)
  {
    hide Timely, Spares;
    TimelyDepends(w, w.(p := p));
    PlanSpares(w, p);
  }

  lemma NoTimeoutSpares(w: World, p: Plan)
    requires p.clock.now == w.p.clock.now && p.kind == NoTimeout
    ensures Spares(w, w.(p := p), false)
  {
    hide Spares;
    PlanSpares(w, p);
  }

  lemma PendingTimes(w: World, b: bool)
    ensures SameTimeouts(w, w.(m := w.m.(suspendPending := b))) && Punctual(w, w.(m := w.m.(suspendPending := b)))
  {
    hide Timely;
    TimelyDepends(w, w.(m := w.m.(suspendPending := b)));
  }

  lemma PendingParts(w: World, b: bool)
    ensures SameSensor(w, w.(m := w.m.(suspendPending := b))) && SameFlags(w, w.(m := w.m.(suspendPending := b)))
    ensures SameBlock(w, w.(m := w.m.(suspendPending := b)))
  {
  }

  lemma PendingSpares(w: World, b: bool)
    requires b ==> w.m.suspendPending
    ensures Spares(w, w.(m := w.m.(suspendPending := b)), !b)
  {
    hide SameTimeouts, Punctual, SameSensor, SameFlags, SameBlock;
    PendingTimes(w, b);
    PendingParts(w, b);
  }

  // ---------- The helpers ----------

  lemma TurnOffSpares(w: World, reason: Reason)
    ensures Spares(w, w.TurnOff(reason), false)
  {
    hide Spares, World.Emit, Plan.CancelOff;
    Itself(w);
    if !w.m.paused {
      var b := w.Emit(SetOffBrightness).Emit(TurnOffDisplay(All));
      TwoEmitsSpare(w, SetOffBrightness, TurnOffDisplay(All));
      if reason == Proximity {
        DarkenSpares(w, b, reason);
      } else {
        var c := b.Emit(LowPowerModem);
        EmitSpares(b, LowPowerModem);
        EmitLeavesMachine(b, LowPowerModem);
        Through(w, b, c, false, false);
        DarkenSpares(w, c, reason);
      }
    }
  }

  lemma TwoEmitsSpare(w: World, c: Command, d: Command)
    requires !ForSensor(c) && !ForBlock(c) && !ForSensor(d) && !ForBlock(d)
    ensures Spares(w, w.Emit(c).Emit(d), false)
    ensures w.Emit(c).Emit(d).m == w.m && w.Emit(c).Emit(d).p == w.p
  {
    hide Spares, World.Emit;
    EmitLeavesMachine(w, c);
    EmitLeavesMachine(w.Emit(c), d);
    EmitSpares(w, c);
    EmitSpares(w.Emit(c), d);
    Through(w, w.Emit(c), w.Emit(c).Emit(d), false, false);
  }

  /** The second half of turning the display off. */
  lemma DarkenSpares(w: World, b: World, reason: Reason)
    requires Spares(w, b, false) && !w.m.paused
    ensures var c := b.(m := b.m.(display := Off, reason := reason), p := b.p.CancelOff());
      var d := c.Emit(NotifyDisplayOff(reason)).Emit(DisableInteractive);
      Spares(w, d, false) && Spares(w, d.Emit(AllowAutomaticSuspend), false)
  {
    hide Spares, World.Emit, Plan.CancelOff;
    var a := b.(m := b.m.(display := Off, reason := reason));
    CosmeticSpares(b, a.m);
    Through(w, b, a, false, false);
    CancelOffTimes(b.p);
    NoTimeoutSpares(a, a.p.CancelOff());
    var c := a.(p := a.p.CancelOff());
    Through(w, a, c, false, false);
    EmitSpares(c, NotifyDisplayOff(reason));
    Through(w, c, c.Emit(NotifyDisplayOff(reason)), false, false);
    var d := c.Emit(NotifyDisplayOff(reason)).Emit(DisableInteractive);
    EmitSpares(c.Emit(NotifyDisplayOff(reason)), DisableInteractive);
    Through(w, c.Emit(NotifyDisplayOff(reason)), d, false, false);
    SamePause(w, d, false);
    EmitSpares(d, AllowAutomaticSuspend);
    Through(w, d, d.Emit(AllowAutomaticSuspend), false, false);
  }

  lemma SamePause(w: World, v: World, f: bool)
    requires Spares(w, v, f)
    ensures v.m.paused == w.m.paused && v.m.options == w.m.options && v.m.offTimeout == w.m.offTimeout
  {
  }

  lemma CancelOffTimes(p: Plan)
    ensures p.CancelOff().clock.now == p.clock.now && p.CancelOff().kind == NoTimeout
  {
  }

  lemma BrightnessSpares(w: World)
    ensures Spares(w, w.Brighten(), false) && Spares(w, w.Dim(), false)
  {
    hide Spares, World.Emit;
    Itself(w);
    EmitSpares(w, SetNormalBrightness);
    EmitSpares(w, SetDimBrightness);
  }

  lemma LightSpares(w: World, reason: Reason)
    ensures Spares(w, w.TurnOnWithoutTimeout(reason), false)
  {
    hide Spares, World.Emit, World.Brighten;
    Itself(w);
    if !w.m.paused {
      EmitSpares(w, DisallowAutomaticSuspend);
      var a := w.Emit(DisallowAutomaticSuspend);
      EmitSpares(a, EnableInteractive);
      var b := a.Emit(EnableInteractive);
      Through(w, a, b, false, false);
      var on := TurnOnDisplay(if w.m.lidClosed then External else All);
      EmitSpares(b, on);
      var c := b.Emit(on);
      Through(w, b, c, false, false);
      EmitLeavesMachine(w, DisallowAutomaticSuspend);
      EmitLeavesMachine(a, EnableInteractive);
      EmitLeavesMachine(b, on);
      LightenSpares(w, c, reason);
    }
  }

  lemma EmitLeavesMachine(w: World, c: Command)
    ensures w.Emit(c).m == w.m && w.Emit(c).p == w.p
  {
  }

  lemma LightenSpares(w: World, c: World, reason: Reason)
    requires Spares(w, c, false)
    ensures var d := c.(m := c.m.(display := On, reason := reason));
      var e := if c.m.lidClosed then d else d.Brighten();
      Spares(w, e.Emit(NormalPowerModem).Emit(NotifyDisplayOn(reason)), false)
  {
    hide Spares, World.Emit, World.Brighten;
    var d := c.(m := c.m.(display := On, reason := reason));
    CosmeticSpares(c, d.m);
    Through(w, c, d, false, false);
    BrightnessSpares(d);
    Itself(d);
    var e := if c.m.lidClosed then d else d.Brighten();
    Through(w, d, e, false, false);
    EmitSpares(e, NormalPowerModem);
    Through(w, e, e.Emit(NormalPowerModem), false, false);
    EmitSpares(e.Emit(NormalPowerModem), NotifyDisplayOn(reason));
    Through(w, e.Emit(NormalPowerModem), e.Emit(NormalPowerModem).Emit(NotifyDisplayOn(reason)), false, false);
  }

  lemma NormalOffDeadline(p: Plan, t: int)
    ensures var q := p.NormalOff(t);
      && q.kind == Normal && q.clock.now == p.clock.now
      && (if t == INFINITE then q.offTime == Never else q.offTime == At(p.clock.now + t))
  {
  }

  lemma NormalSuspendDeadline(p: Plan, t: int)
    ensures var q := p.NormalSuspend(t);
      q.kind == p.kind && q.clock.now == p.clock.now && q.offTime == p.offTime
  {
  }

  lemma PostponeDeadline(p: Plan, t: int, k: TimeoutType)
    ensures var q := p.Postpone(t, k);
      && q.clock.now == p.clock.now
      && (q == p || (q.kind == k && q.offTime == At(p.clock.now + t)))
  {
  }

  lemma NormalSuspendSpares(w: World)
    ensures Spares(w, w.ScheduleNormalSuspend(), true)
  {
    hide Spares, Plan.NormalSuspend, Configurable.Get;
    var t := w.m.suspendTimeout.Get();
    NormalSuspendDeadline(w.p, t);
    OtherPlanSpares(w, w.p.NormalSuspend(t));
    var u := w.(p := w.p.NormalSuspend(t));
    PendingSpares(u, false);
    Through(w, u, w.ScheduleNormalSuspend(), false, true);
  }

  lemma NormalIsTimely(w: World)
    ensures var v := w.(p := w.p.NormalOff(w.m.offTimeout.Get()));
      Timely(v) && Spares(w, v, false)
  {
    hide Spares, Plan.NormalOff, Configurable.Get;
    NormalOffDeadline(w.p, w.m.offTimeout.Get());
    PlanSpares(w, w.p.NormalOff(w.m.offTimeout.Get()));
  }

  lemma NormalSpares(w: World)
    ensures Spares(w, w.ScheduleNormal(), true) && Timely(w.ScheduleNormal())
  {
    hide Spares, Timely, Plan.NormalOff, World.ScheduleNormalSuspend, Configurable.Get;
    var u := w.(p := w.p.NormalOff(w.m.offTimeout.Get()));
    NormalIsTimely(w);
    NormalSuspendSpares(u);
    StaysTimely(u, u.ScheduleNormalSuspend(), true);
    Through(w, u, w.ScheduleNormal(), false, true);
  }

  lemma StaysTimely(w: World, v: World, f: bool)
    requires Spares(w, v, f) && Timely(w)
    ensures Timely(v)
  {
    hide Timely;
  }

  lemma PostponeSpares(w: World)
    ensures Spares(w, w.ScheduleReduced(), false) && Spares(w, w.SchedulePostNotification(), false)
    ensures Spares(w, w.ScheduleImmediate(), false)
  {
    hide Spares, Plan.Postpone, Configurable.Get;
    PostponeDeadline(w.p, w.m.options.reducedOffTimeout, Reduced);
    PostponeDeadline(w.p, w.m.options.postNotificationOffTimeout, PostNotification);
    PostponeDeadline(w.p, 0, PostNotification);
    PlanSpares(w, w.ScheduleReduced().p);
    PlanSpares(w, w.SchedulePostNotification().p);
    PlanSpares(w, w.ScheduleImmediate().p);
  }

  lemma OtherAlarmsSpare(w: World)
    ensures Spares(w, w.ScheduleProximityDisable(), false) && Spares(w, w.ScheduleExpiration(), false)
    ensures Spares(w, w.(p := w.p.CancelExpiration()), false)
    ensures Spares(w, w.(p := w.p.CancelLongPress()), false)
    ensures forall t :: Spares(w, w.(p := w.p.LongPress(t)), false)
  {
    hide Spares, Configurable.Get;
    OtherPlanSpares(w, w.ScheduleProximityDisable().p);
    OtherPlanSpares(w, w.ScheduleExpiration().p);
    OtherPlanSpares(w, w.p.CancelExpiration());
    OtherPlanSpares(w, w.p.CancelLongPress());
    forall t ensures Spares(w, w.(p := w.p.LongPress(t)), false) {
      OtherPlanSpares(w, w.p.LongPress(t));
    }
  }

  lemma DropSpares(w: World)
    ensures Spares(w, w.(p := w.p.(dim := INVALID)), false) && Spares(w, w.(p := w.p.(off := INVALID)), false)
    ensures Spares(w, w.(p := w.p.(suspend := INVALID)), false)
    ensures Spares(w, w.(p := w.p.(proximity := INVALID)), false)
    ensures Spares(w, w.(p := w.p.(expiration := INVALID)), false)
    ensures Spares(w, w.(p := w.p.(longPress := INVALID)), false)
  {
    hide Spares;
    OtherPlanSpares(w, w.p.(dim := INVALID));
    OtherPlanSpares(w, w.p.(off := INVALID));
    OtherPlanSpares(w, w.p.(suspend := INVALID));
    OtherPlanSpares(w, w.p.(proximity := INVALID));
    OtherPlanSpares(w, w.p.(expiration := INVALID));
    OtherPlanSpares(w, w.p.(longPress := INVALID));
  }

  lemma TurnOnSpares(w: World, reason: Reason)
    ensures Spares(w, w.TurnOn(reason), true) && Timely(w.TurnOn(reason))
    ensures Spares(w, w.TurnOnReduced(reason), false)
  {
    hide Spares, Timely, World.TurnOnWithoutTimeout, World.ScheduleNormal, World.ScheduleReduced;
    LightSpares(w, reason);
    NormalSpares(w.TurnOnWithoutTimeout(reason));
    PostponeSpares(w.TurnOnWithoutTimeout(reason));
    Through(w, w.TurnOnWithoutTimeout(reason), w.TurnOn(reason), false, true);
    Through(w, w.TurnOnWithoutTimeout(reason), w.TurnOnReduced(reason), false, false);
  }

  lemma ExtendSpares(w: World, reason: Reason)
    ensures Spares(w, w.Extend(), true) && Timely(w.Extend())
    ensures Spares(w, w.ExtendFor(reason), true) && Timely(w.ExtendFor(reason))
  {
    hide Spares, Timely, World.Brighten, World.ScheduleNormal;
    BrightnessSpares(w);
    NormalSpares(w.Brighten());
    Through(w, w.Brighten(), w.Extend(), false, true);
    CosmeticSpares(w.Extend(), w.ExtendFor(reason).m);
    StaysTimely(w.Extend(), w.ExtendFor(reason), false);
    Through(w, w.Extend(), w.ExtendFor(reason), true, false);
  }

  // ---------- Inhibitors and enablements ----------

  lemma OnceAllowedSpares(w: World, a: Allowance)
    ensures Spares(w, w.OnceAllowed(a), a == Client && w.m.TimeoutAllowed() && w.m.display == On)
  {
    hide Spares, Machine.TimeoutAllowed, World.TurnOff, World.ScheduleNormal;
    TurnOffSpares(w, Activity);
    NormalSpares(w);
    Itself(w);
  }

  /** The same machine but for what clients, notifications and logind asked for. */
  predicate Reflagged(w: World, u: World) {
    u == w.(m := w.m.(
      clientAllows := u.m.clientAllows,
      notificationAllows := u.m.notificationAllows,
      suspendAllowed := u.m.suspendAllowed))
  }

  lemma ReflaggedBare(w: World, u: World, v: World, f: bool)
    requires Reflagged(w, u) && Bare(u, v, f)
    ensures Bare(w, v, f)
  {
    hide Timely;
    TimelyDepends(w, u);
  }

  lemma SpareIsBare(w: World, v: World, f: bool)
    requires Spares(w, v, f)
    ensures Bare(w, v, f)
  {
    hide Timely, Alone;
  }

  /** Giving the client allowance back restarts the timeouts when nothing else holds them off. */
  predicate Unholds(m: Machine) {
    !m.clientAllows && m.notificationAllows && m.display == On
  }

  lemma AllowClientBare(w: World)
    ensures Bare(w, w.AllowTimeout(Client), Unholds(w.m))
  {
    hide Spares, Sways, Bare, World.OnceAllowed;
    if w.m.TimeoutAllowed() {
      Itself(w);
      SpareIsBare(w, w, false);
    } else {
      var u := w.(m := w.m.Allow(Client, true));
      OnceAllowedSpares(u, Client);
      SpareIsBare(u, u.OnceAllowed(Client), Unholds(w.m));
      ReflaggedBare(w, u, u.OnceAllowed(Client), Unholds(w.m));
    }
  }

  /** Ending a notification's hold forgets nothing. */
  lemma AllowNotificationsSpares(w: World)
    ensures Spares(w, w.AllowTimeout(Notifications), false)
  {
    hide Spares, World.OnceAllowed;
    Itself(w);
    if !w.m.TimeoutAllowed() {
      var u := w.(m := w.m.Allow(Notifications, true));
      OnceAllowedSpares(u, Notifications);
      NotificationsAllowed(w);
      Through(w, u, u.OnceAllowed(Notifications), false, false);
    }
  }

  lemma NotificationsAllowed(w: World)
    ensures Spares(w, w.(m := w.m.Allow(Notifications, true)), false)
  {
    hide Timely;
    TimelyDepends(w, w.(m := w.m.Allow(Notifications, true)));
  }

  lemma EnableFields(m: Machine, e: Enablement)
    ensures m.Enable(e, true).ProximityEnabled()
    ensures m.Enable(e, false).ProximityEnabled() ==> m.ProximityEnabled()
  {
    match e
    case UntilFarOrExpiration =>
    case UntilDisabled =>
    case UntilFarOrTimeout =>
  }

  /** What an enablement does not touch. */
  predicate SameButReasons(m: Machine, n: Machine) {
    n == m.(
      proximityUntilFarOrExpiration := n.proximityUntilFarOrExpiration,
      proximityUntilDisabled := n.proximityUntilDisabled,
      proximityUntilFarOrTimeout := n.proximityUntilFarOrTimeout)
  }

  lemma EnableRest(m: Machine, e: Enablement, b: bool)
    ensures SameButReasons(m, m.Enable(e, b))
  {
    match e
    case UntilFarOrExpiration =>
    case UntilDisabled =>
    case UntilFarOrTimeout =>
  }

  predicate SameButSensor(w: Outputs, v: Outputs) {
    v.block == w.block && v.suspendBlocked == w.suspendBlocked
  }

  lemma EnableShape(w: World, e: Enablement)
    ensures var v := w.EnableProximity(e);
      && v.m == w.m.Enable(e, true) && v.p == w.p && SameButSensor(w.out, v.out)
      && (w.m.ProximityEnabled() ==> v.out == w.out)
      && (!w.m.ProximityEnabled() && v.m.ProximityEnabled() ==> v.out.sensor)
  {
    hide Machine.Enable, Machine.ProximityEnabled;
  }

  lemma DisableShape(w: World, e: Enablement)
    ensures var v := w.DisableProximity(e);
      && v.m == w.m.Enable(e, false) && v.p == w.p && SameButSensor(w.out, v.out)
      && (w.m.ProximityEnabled() == v.m.ProximityEnabled() ==> v.out == w.out)
      && (w.m.ProximityEnabled() && !v.m.ProximityEnabled() ==> !v.out.sensor)
  {
    hide Machine.Enable, Machine.ProximityEnabled;
  }

  /** A change of reasons that the sensor follows. */
  lemma ReasonsSway(w: World, v: World)
    requires SameButReasons(w.m, v.m) && v.p == w.p && SameButSensor(w.out, v.out) && Switches(w, v)
    ensures Sways(w, v, false)
  {
    hide Timely, Machine.ProximityEnabled;
    TimelyDepends(w, v);
  }

  lemma EnableSways(w: World, e: Enablement)
    ensures var v := w.EnableProximity(e);
      Sways(w, v, false) && v.m == w.m.Enable(e, true) && v.m.ProximityEnabled()
  {
    hide Sways, World.EnableProximity, Machine.Enable, Machine.ProximityEnabled;
    EnableShape(w, e);
    EnableFields(w.m, e);
    EnableRest(w.m, e, true);
    ReasonsSway(w, w.EnableProximity(e));
  }

  lemma DisableSways(w: World, e: Enablement)
    ensures var v := w.DisableProximity(e);
      && Sways(w, v, false) && v.m == w.m.Enable(e, false)
      && (v.m.ProximityEnabled() ==> w.m.ProximityEnabled())
  {
    hide Sways, World.DisableProximity, Machine.Enable, Machine.ProximityEnabled;
    DisableShape(w, e);
    EnableFields(w.m, e);
    EnableRest(w.m, e, false);
    ReasonsSway(w, w.DisableProximity(e));
  }

  /** Two changes of reasons of which at most one switches the sensor. */
  lemma SwayTwice(w: World, u: World, v: World)
    requires Sways(w, u, false) && Sways(u, v, false)
    requires w.m.ProximityEnabled() == u.m.ProximityEnabled() || u.m.ProximityEnabled() == v.m.ProximityEnabled()
    ensures Sways(w, v, false)
  {
    hide Timely, Alone, Machine.ProximityEnabled;
  }

  // ---------- Alarms ----------

  lemma LongPressAlarmSpares(w: World)
    ensures Spares(w, w.LongPressAlarm(), false)
  {
    hide Spares, World.Emit;
    EmitSpares(w, NotifyLongPress);
    EmitLeavesMachine(w, NotifyLongPress);
    var a := w.Emit(NotifyLongPress);
    var b := a.(m := a.m.(longPressDetected := true));
    CosmeticSpares(a, b.m);
    Through(w, a, b, false, false);
    DropSpares(b);
    Through(w, b, w.LongPressAlarm(), false, false);
  }

  lemma DimAlarmSpares(w: World)
    ensures Spares(w, w.DimAlarm(), false)
  {
    hide Spares, World.Dim, Machine.TimeoutApplies;
    var u := w.(p := w.p.(dim := INVALID));
    DropSpares(w);
    BrightnessSpares(u);
    Through(w, u, u.Dim(), false, false);
  }

  lemma OffAlarmSpares(w: World)
    ensures Spares(w, w.OffAlarm(), false)
  {
    hide Spares, World.TurnOff, Machine.TimeoutApplies;
    var u := w.(p := w.p.(off := INVALID));
    DropSpares(w);
    TurnOffSpares(u, Activity);
    Itself(u);
    var v := u.TurnOffIfApplicable();
    Through(w, u, v, false, false);
    NoTimeoutSpares(v, v.p.(kind := NoTimeout));
    Through(w, v, w.OffAlarm(), false, false);
  }

  /** The machine with a suspend deferred. */
  function Deferring(w: World): World {
    w.(m := w.m.(suspendPending := true))
  }

  lemma SuspendSpares(w: World)
    ensures if w.m.suspendAllowed then Spares(w, w.SuspendWhenAllowed(), true)
      else w.SuspendWhenAllowed() == Deferring(w)
  {
    hide Spares, World.Emit;
    if w.m.suspendAllowed {
      var u := w.(m := w.m.(suspendPending := false));
      PendingSpares(w, false);
      EmitSpares(u, SuspendNow(Inactivity));
      Through(w, u, u.Emit(SuspendNow(Inactivity)), true, false);
    }
  }

  lemma SuspendAlarmSpares(w: World)
    ensures w.m.suspendAllowed || !w.m.TimeoutApplies() ==> Spares(w, w.SuspendAlarm(), w.m.TimeoutApplies())
    ensures !w.m.suspendAllowed && w.m.TimeoutApplies() ==> Spares(Deferring(w), w.SuspendAlarm(), false)
  {
    hide Spares, World.SuspendWhenAllowed, Machine.TimeoutApplies;
    var u := w.(p := w.p.(suspend := INVALID));
    DropSpares(w);
    DropSpares(Deferring(w));
    SuspendSpares(u);
    if w.m.suspendAllowed && w.m.TimeoutApplies() {
      Through(w, u, u.SuspendWhenAllowed(), false, true);
    }
  }

  lemma ProximityAlarmSways(w: World)
    ensures Sways(w, w.ProximityAlarm(), false) && w.ProximityAlarm().m == w.m.Enable(UntilFarOrTimeout, false)
  {
    hide Spares, Sways, World.DisableProximity, Machine.Enable;
    var u := w.(p := w.p.(proximity := INVALID));
    DropSpares(w);
    DisableSways(u, UntilFarOrTimeout);
    SpareSways(w, u, w.ProximityAlarm(), false, false);
  }

  /** The reasons that are left once a notification is over. */
  predicate OtherReasons(m: Machine) {
    m.proximityUntilDisabled || m.proximityUntilFarOrTimeout
  }

  lemma EndsNotification(w: World, u: World)
    requires Spares(w, u, false)
    ensures var v := u.AllowTimeout(Notifications).DisableProximity(UntilFarOrExpiration);
      Sways(w, v, false) && v.m.ProximityEnabled() == OtherReasons(w.m)
  {
    hide Spares, Sways, World.AllowTimeout, World.DisableProximity;
    var a := u.AllowTimeout(Notifications);
    AllowNotificationsSpares(u);
    Through(w, u, a, false, false);
    SpareReasons(w, a, false);
    DisableSways(a, UntilFarOrExpiration);
    SpareSways(w, a, a.DisableProximity(UntilFarOrExpiration), false, false);
  }

  lemma SpareReasons(w: World, v: World, f: bool)
    requires Spares(w, v, f)
    ensures SameReasons(w.m, v.m) && v.m.ProximityEnabled() == w.m.ProximityEnabled()
  {
    hide Timely, Alone;
  }

  lemma ExpirationAlarmSways(w: World)
    ensures Sways(w, w.ExpirationAlarm(), false)
    ensures w.ExpirationAlarm().m.ProximityEnabled() == OtherReasons(w.m)
  {
    hide Spares, Sways, World.AllowTimeout, World.DisableProximity, World.ScheduleImmediate;
    DropSpares(w);
    var u := w.(p := w.p.(expiration := INVALID));
    if w.m.display == On {
      PostponeSpares(u);
      Through(w, u, u.ScheduleImmediate(), false, false);
      EndsNotification(w, u.ScheduleImmediate());
    } else {
      EndsNotification(w, u);
    }
  }

  // ---------- Handlers ----------

  lemma ActiveCallSways(w: World, far: bool)
    ensures Sways(w, w.HandleActiveCall(far), w.m.display == On || far)
    ensures w.HandleActiveCall(far).m.ProximityEnabled()
  {
    hide Spares, Sways, World.Extend, World.TurnOn, World.EnableProximity, Machine.ProximityEnabled;
    ExtendSpares(w, Call);
    TurnOnSpares(w, Call);
    Itself(w);
    var u := if w.m.display == On then w.Extend() else if far then w.TurnOn(Call) else w;
    EnableSways(u, UntilDisabled);
    SpareSways(w, u, w.HandleActiveCall(far), w.m.display == On || far, false);
  }

  /** The reasons that are left once a call is over. */
  predicate AfterCall(m: Machine, far: bool) {
    (m.display != On && !far) || m.proximityUntilFarOrExpiration || m.proximityUntilFarOrTimeout
  }

  lemma NoActiveCallSways(w: World, far: bool)
    ensures Sways(w, w.HandleNoActiveCall(far), false)
    ensures w.HandleNoActiveCall(far).m.ProximityEnabled() == AfterCall(w.m, far)
  {
    hide Spares, Sways, World.Brighten, World.ScheduleReduced, World.TurnOnReduced;
    hide World.EnableProximity, World.DisableProximity, World.ScheduleProximityDisable;
    if w.m.display == On {
      var u := w.Brighten().ScheduleReduced();
      BrightnessSpares(w);
      PostponeSpares(w.Brighten());
      Through(w, w.Brighten(), u, false, false);
      EndsCall(w, u);
    } else if far {
      TurnOnSpares(w, CallDone);
      EndsCall(w, w.TurnOnReduced(CallDone));
    } else {
      HandsOver(w);
    }
  }

  lemma EndsCall(w: World, u: World)
    requires Spares(w, u, false)
    ensures var v := u.DisableProximity(UntilDisabled);
      && Sways(w, v, false)
      && v.m.ProximityEnabled() == (w.m.proximityUntilFarOrExpiration || w.m.proximityUntilFarOrTimeout)
  {
    hide Spares, Sways, World.DisableProximity;
    SpareReasons(w, u, false);
    DisableSways(u, UntilDisabled);
    SpareSways(w, u, u.DisableProximity(UntilDisabled), false, false);
  }

  /** The call's reason is replaced by another one: the sensor stays on throughout. */
  lemma HandsOver(w: World)
    ensures var v := w.EnableProximity(UntilFarOrTimeout).ScheduleProximityDisable().DisableProximity(UntilDisabled);
      Sways(w, v, false) && v.m.ProximityEnabled()
  {
    hide Spares, Sways, World.EnableProximity, World.DisableProximity, World.ScheduleProximityDisable;
    var u := w.EnableProximity(UntilFarOrTimeout);
    var a := u.ScheduleProximityDisable();
    EnableSways(w, UntilFarOrTimeout);
    OtherAlarmsSpare(u);
    SpareReasons(u, a, false);
    SwaySpares(w, u, a, false, false);
    DisableSways(a, UntilDisabled);
    SwayTwice(w, a, a.DisableProximity(UntilDisabled));
  }

  lemma DisallowBare(w: World, a: Allowance, v: World, f: bool)
    requires Bare(w.DisallowTimeout(a), v, f)
    ensures Bare(w, v, f)
  {
    hide Bare;
    ReflaggedBare(w, w.DisallowTimeout(a), v, f);
  }

  lemma DisableInactivityTimeoutBare(w: World)
    ensures Bare(w, w.HandleDisableInactivityTimeout(), false)
  {
    hide Spares, Bare, World.Brighten, World.TurnOnWithoutTimeout, World.DisallowTimeout;
    var u := w.DisallowTimeout(Client);
    BrightnessSpares(u);
    LightSpares(u, UnknownReason);
    SpareIsBare(u, w.HandleDisableInactivityTimeout(), false);
    DisallowBare(w, Client, w.HandleDisableInactivityTimeout(), false);
  }

  lemma LidClosedSpares(w: World, x: bool)
    ensures Spares(w, w.HandleLidClosed(x), false)
  {
    hide Spares, World.TurnOff, World.Emit;
    var u := w.(m := w.m.(lidClosed := true));
    CosmeticSpares(w, u.m);
    Itself(u);
    if x {
      EmitSpares(u, TurnOffDisplay(Internal));
      Through(w, u, u.Emit(TurnOffDisplay(Internal)), false, false);
    } else {
      TurnOffSpares(u, UnknownReason);
      var v := if w.m.display == On then u.TurnOff(UnknownReason) else u;
      Through(w, u, v, false, false);
      EmitSpares(v, SuspendNow(LidClosing));
      Through(w, v, v.Emit(SuspendNow(LidClosing)), false, false);
    }
  }

  lemma LidOpenSpares(w: World)
    ensures Spares(w, w.HandleLidOpen(), true)
  {
    hide Spares, World.TurnOn, World.ExtendFor, World.Emit;
    var u := w.(m := w.m.(lidClosed := false));
    CosmeticSpares(w, u.m);
    if w.m.display == On {
      var v := u.Emit(TurnOnDisplay(Internal));
      EmitSpares(u, TurnOnDisplay(Internal));
      ExtendSpares(v, Activity);
      Through(w, u, v, false, false);
      Through(w, v, v.ExtendFor(Activity), false, true);
    } else {
      TurnOnSpares(u, Activity);
      Through(w, u, u.TurnOn(Activity), false, true);
    }
  }

  lemma BehaviorSpares(w: World, a: PowerAction, s: PowerSupply)
    ensures Spares(w, w.HandleSetLidBehavior(a, s), false)
    ensures Spares(w, w.HandleSetCriticalPowerBehavior(a), false)
  {
    hide Spares, Configurable.Set;
    CosmeticSpares(w, w.m.(lidAction := w.m.lidAction.Set(s, a)));
    CosmeticSpares(w, w.m.(criticalAction := a));
    Itself(w);
  }

  lemma BrightnessValueSpares(w: World, value: real)
    ensures Spares(w, w.HandleSetNormalBrightnessValue(value), false)
  {
    hide Spares, World.Emit;
    var u := w.(m := w.m.(brightness := value));
    CosmeticSpares(w, u.m);
    TwoEmitsSpare(u, DisableAutobrightness, SetBrightnessValue(value));
    Through(w, u, u.Emit(DisableAutobrightness).Emit(SetBrightnessValue(value)), false, false);
  }

  lemma AutobrightnessSpares(w: World, enabled: bool)
    ensures Spares(w, w.HandleAutobrightness(enabled), false)
  {
    hide Spares, World.Emit;
    var u := w.(m := w.m.(autobrightness := enabled));
    var c := if enabled then EnableAutobrightness else DisableAutobrightness;
    CosmeticSpares(w, u.m);
    EmitSpares(u, c);
    Through(w, u, u.Emit(c), false, false);
  }

  lemma NoNotificationSways(w: World)
    ensures Sways(w, w.HandleNoNotification(), false)
    ensures w.HandleNoNotification().m.ProximityEnabled() == OtherReasons(w.m)
  {
    hide Spares, Sways, World.AllowTimeout, World.DisableProximity, World.SchedulePostNotification;
    hide Plan.CancelExpiration;
    Itself(w);
    PostponeSpares(w);
    var u := if w.m.display == On then w.SchedulePostNotification() else w;
    EndsNotification(w, u);
    var v := u.AllowTimeout(Notifications).DisableProximity(UntilFarOrExpiration);
    OtherAlarmsSpare(v);
    SwaySpares(w, v, w.HandleNoNotification(), false, false);
  }

  /** A notification adds its reason when it may not light the display. */
  predicate AfterNotification(m: Machine, far: bool) {
    m.ProximityEnabled() || (m.display != On && !far)
  }

  lemma NotificationBare(w: World, far: bool)
    ensures Bare(w, w.HandleNotification(far), false)
    ensures w.HandleNotification(far).m.ProximityEnabled() == AfterNotification(w.m, far)
  {
    hide Spares, Sways, Bare, World.Brighten, World.TurnOnWithoutTimeout, World.EnableProximity;
    hide World.ScheduleExpiration;
    var u := w.DisallowTimeout(Notifications);
    if w.m.display == On {
      BrightnessSpares(u);
      Notifies(w, u.Brighten());
    } else if far {
      LightSpares(u, Notification);
      Notifies(w, u.TurnOnWithoutTimeout(Notification));
    } else {
      EnableSways(u, UntilFarOrExpiration);
      var v := u.EnableProximity(UntilFarOrExpiration);
      OtherAlarmsSpare(v);
      SpareReasons(v, v.ScheduleExpiration(), false);
      SwaySpares(u, v, v.ScheduleExpiration(), false, false);
      SwayIsBare(u, v.ScheduleExpiration(), false);
      DisallowBare(w, Notifications, v.ScheduleExpiration(), false);
    }
  }

  lemma SwayIsBare(w: World, v: World, f: bool)
    requires Sways(w, v, f)
    ensures Bare(w, v, f)
  {
  }

  lemma Notifies(w: World, v: World)
    requires Spares(w.DisallowTimeout(Notifications), v, false)
    ensures Bare(w, v.ScheduleExpiration(), false)
    ensures v.ScheduleExpiration().m.ProximityEnabled() == w.m.ProximityEnabled()
  {
    hide Spares, Bare, World.ScheduleExpiration;
    var u := w.DisallowTimeout(Notifications);
    OtherAlarmsSpare(v);
    Through(u, v, v.ScheduleExpiration(), false, false);
    SpareReasons(u, v.ScheduleExpiration(), false);
    SpareIsBare(u, v.ScheduleExpiration(), false);
    DisallowBare(w, Notifications, v.ScheduleExpiration(), false);
  }

  /** A press starts the timeouts over when it lights the display or counts as activity. */
  predicate PressRestarts(m: Machine) {
    m.display == Off || (m.display == On && m.options.powerButtonIsActivity)
  }

  lemma PressSpares(w: World)
    ensures Spares(w, w.HandlePowerButtonPress(), PressRestarts(w.m))
  {
    hide Spares, World.ExtendFor, World.TurnOn, Plan.LongPress;
    var u := w.(m := w.m.(displayAtPress := w.m.display));
    CosmeticSpares(w, u.m);
    Itself(u);
    ExtendSpares(u, PowerButton);
    TurnOnSpares(u, PowerButton);
    var v :=
      if w.m.options.powerButtonIsActivity && w.m.display == On then u.ExtendFor(PowerButton)
      else if w.m.display == Off then u.TurnOn(PowerButton)
      else u;
    Through(w, u, v, false, PressRestarts(w.m));
    SamePause(w, v, PressRestarts(w.m));
    OtherAlarmsSpare(v);
    Through(w, v, w.HandlePowerButtonPress(), PressRestarts(w.m), false);
  }

  lemma ReleaseSpares(w: World)
    ensures Spares(w, w.HandlePowerButtonRelease(), false)
  {
    hide Spares, World.TurnOff;
    CosmeticSpares(w, w.m.(longPressDetected := false));
    TurnOffSpares(w, PowerButton);
    Itself(w);
    var u := w.EndPress();
    DropSpares(u);
    var v := u.(p := u.p.(longPress := INVALID));
    Through(w, u, v, false, false);
    CosmeticSpares(v, v.m.(displayAtPress := UnknownMode));
    Through(w, v, w.HandlePowerButtonRelease(), false, false);
  }

  lemma CriticalSpares(w: World)
    ensures Spares(w, w.HandlePowerSourceCritical(), false)
  {
    hide Spares, World.Emit;
    EmitSpares(w, PowerOffNow);
    EmitSpares(w, SuspendNow(CriticalPower));
    Itself(w);
  }

  lemma ProximityNearSpares(w: World)
    ensures Spares(w, w.HandleProximityNear(), false)
  {
    hide Spares, World.TurnOff;
    TurnOffSpares(w, Proximity);
    Itself(w);
  }

  /** Ending two enablements switches the sensor off once at most. */
  lemma TwoEnd(w: World)
    ensures var v := w.DisableProximity(UntilFarOrExpiration).DisableProximity(UntilFarOrTimeout);
      && Sways(w, v, false)
      && v.m == w.m.(proximityUntilFarOrExpiration := false, proximityUntilFarOrTimeout := false)
  {
    hide Sways, World.DisableProximity, Machine.ProximityEnabled;
    var u := w.DisableProximity(UntilFarOrExpiration);
    DisableSways(w, UntilFarOrExpiration);
    DisableSways(u, UntilFarOrTimeout);
    SwayTwice(w, u, u.DisableProximity(UntilFarOrTimeout));
  }

  /** Something far lights a dark display with normal timeouts, unless only a notification waited. */
  predicate FarRestarts(m: Machine) {
    m.display == Off && !m.ProximityOnlyUntilExpiration()
  }

  lemma ProximityFarSways(w: World)
    ensures Sways(w, w.HandleProximityFar(), FarRestarts(w.m))
    ensures w.HandleProximityFar().m.ProximityEnabled() == w.m.proximityUntilDisabled
  {
    hide Spares, Sways, World.DisableProximity, World.TurnOn, World.TurnOnReduced;
    TwoEnd(w);
    var u := w.DisableProximity(UntilFarOrExpiration).DisableProximity(UntilFarOrTimeout);
    TurnOnSpares(u, Proximity);
    Itself(u);
    SwaySpares(w, u, w.HandleProximityFar(), false, FarRestarts(w.m));
    SpareReasons(u, w.HandleProximityFar(), FarRestarts(w.m));
  }

  lemma ActivitySpares(w: World, far: bool)
    ensures Spares(w, w.HandleUserActivityChangingPowerState(far), w.m.display == On || far)
    ensures Spares(w, w.HandleUserActivityExtendingPowerState(), w.m.display == On)
  {
    hide Spares, World.ExtendFor, World.TurnOn;
    ExtendSpares(w, Activity);
    TurnOnSpares(w, Activity);
    Itself(w);
  }

  lemma SwitchSpares(w: World)
    ensures Spares(w, w.HandleTurnOnDisplay(), true) && Spares(w, w.HandleTurnOffDisplay(), false)
    ensures Spares(w, w.HandleSystemResume(), true)
  {
    hide Spares, World.TurnOn, World.TurnOff;
    TurnOnSpares(w, PowerButton);
    TurnOffSpares(w, PowerButton);
    TurnOnSpares(w, Activity);
  }

  // ---------- Handlers that change the timeouts, the block or the pausing ----------

  lemma InactiveSupply(c: Configurable<int>, supply: PowerSupply, t: int)
    requires c.isOnBattery != supply.Battery?
    ensures c.Set(supply, t).Get() == c.Get()
  {
  }

  /** New timeouts matter to a normal schedule only. */
  lemma OtherKindsTimely(w: World, v: World)
    requires v.p == w.p && v.m.options == w.m.options && Timely(w)
    requires w.p.kind == Normal ==> v.m.offTimeout.Get() == w.m.offTimeout.Get()
    ensures Timely(v)
  {
    hide Configurable.Get;
  }

  /** A new timeout of the supply in use restarts a normal schedule. */
  predicate Reconfigures(w: World, action: PowerAction, supply: PowerSupply, timeout: int) {
    && timeout > 0 && (action == DisplayOff || action == SuspendSystem)
    && w.p.kind == Normal && w.m.offTimeout.isOnBattery == supply.Battery?
  }

  /** The same but for a display-off timeout. */
  predicate Retimed(w: World, u: World) {
    u == w.(m := w.m.(offTimeout := u.m.offTimeout))
  }

  lemma RetimedSways(w: World, u: World, v: World, f: bool)
    requires Retimed(w, u) && Spares(u, v, f) && Punctual(w, v)
    ensures Sways(w, v, f) && v.m.ProximityEnabled() == w.m.ProximityEnabled()
  {
    hide Timely;
  }

  lemma SetInactivityBehaviorSways(w: World, action: PowerAction, supply: PowerSupply, timeout: int)
    ensures var v := w.HandleSetInactivityBehavior(action, supply, timeout);
      Sways(w, v, Reconfigures(w, action, supply, timeout)) && v.m.ProximityEnabled() == w.m.ProximityEnabled()
  {
    hide Timely, Spares, Sways, World.ScheduleNormal, Configurable.Set, Configurable.Get, Machine.ProximityEnabled;
    var f := Reconfigures(w, action, supply, timeout);
    Itself(w);
    if timeout <= 0 || (action != DisplayOff && action != SuspendSystem) {
    } else if action == SuspendSystem {
      var u := w.(m := w.m.(suspendTimeout := w.m.suspendTimeout.Set(supply, timeout)));
      CosmeticSpares(w, u.m);
      NormalSpares(u);
      Itself(u);
      var v := if f then u.ScheduleNormal() else u;
      Through(w, u, v, false, f);
      SpareReasons(w, v, f);
      Still(w, v, f);
    } else {
      var u := w.(m := w.m.(offTimeout := w.m.offTimeout.Set(supply, timeout)));
      NormalSpares(u);
      Itself(u);
      if w.m.offTimeout.isOnBattery != supply.Battery? { InactiveSupply(w.m.offTimeout, supply, timeout); }
      if Timely(w) && !f { OtherKindsTimely(w, u); }
      RetimedSways(w, u, if f then u.ScheduleNormal() else u, f);
    }
  }

  /** The same but for which supply is in use. */
  predicate Resupplied(w: World, u: World) {
    u == w.(m := w.m.(
      offTimeout := u.m.offTimeout, suspendTimeout := u.m.suspendTimeout, lidAction := u.m.lidAction))
  }

  lemma ResuppliedBut(w: World, u: World, v: World, f: bool)
    requires Resupplied(w, u) && Spares(u, v, f)
    ensures SameSensor(w, v) && SameFlags(w, v) && SameBlock(w, v) && PendingUnless(w, v, f)
  {
    hide Timely;
  }

  lemma BatteryShape(w: World, battery: bool)
    ensures Resupplied(w, w.OnBattery(battery))
    ensures w.p.kind == NoTimeout ==> Timely(w.OnBattery(battery))
  {
  }

  lemma PowerSourceChangeSpares(w: World, battery: bool, far: bool)
    ensures var v := w.HandlePowerSourceChange(battery, far);
      SameSensor(w, v) && SameFlags(w, v) && SameBlock(w, v) && PendingUnless(w, v, true)
    ensures w.m.display == On || w.p.kind == NoTimeout ==> Timely(w.HandlePowerSourceChange(battery, far))
  {
    hide Timely, Spares, World.OnBattery, World.ExtendFor, World.TurnOnReduced, World.ScheduleNormalSuspend;
    hide SameSensor, SameFlags, SameBlock, PendingUnless;
    var u := w.OnBattery(battery);
    BatteryShape(w, battery);
    ExtendSpares(u, Activity);
    TurnOnSpares(u, Notification);
    Itself(u);
    var f := w.m.display == On;
    var v := if f then u.ExtendFor(Activity) else if far then u.TurnOnReduced(Notification) else u;
    NormalSuspendSpares(v);
    Through(u, v, v.ScheduleNormalSuspend(), f, true);
    ResuppliedBut(w, u, v.ScheduleNormalSuspend(), true);
    if Timely(v) { StaysTimely(v, v.ScheduleNormalSuspend(), true); }
    if !f && w.p.kind == NoTimeout { StaysTimely(u, v, false); }
  }

  lemma StartSpares(w: World, battery: bool)
    ensures var v := w.Start(battery);
      SameSensor(w, v) && SameFlags(w, v) && SameBlock(w, v)
      && PendingUnless(w, v, w.m.options.displayOnAtStartup)
    ensures w.p.kind == NoTimeout ==> Timely(w.Start(battery))
  {
    hide Timely, Spares, World.OnBattery, World.Emit, World.TurnOn;
    hide SameSensor, SameFlags, SameBlock, PendingUnless;
    BatteryShape(w, battery);
    var u := w.OnBattery(battery);
    var v := u.Emit(DisallowDefaultHandlers);
    var f := w.m.options.displayOnAtStartup;
    EmitSpares(u, DisallowDefaultHandlers);
    TurnOnSpares(v, UnknownReason);
    Itself(v);
    Through(u, v, w.Start(battery), false, f);
    ResuppliedBut(w, u, w.Start(battery), f);
    if w.p.kind == NoTimeout { StaysTimely(u, v, false); }
  }

  /** What the pausing leaves alone. */
  predicate SameRest(w: World, v: World) {
    SameReasons(w.m, v.m) && SameFlags(w, v) && (Alone(w) ==> Alone(v)) && Punctual(w, v)
  }

  lemma PauseChanges(w: World)
    ensures var v := w.Pause();
      && SameRest(w, v) && !v.out.sensor && v.out.block == w.out.block
      && v.m.suspendPending == w.m.suspendPending
  {
    hide Timely;
    TimelyDepends(w, w.Pause());
  }

  lemma TakeOverChanges(w: World)
    ensures var v := w.TakeOver();
      && SameRest(w, v) && v.out.sensor == w.out.sensor && !v.m.paused
      && v.m.suspendPending == w.m.suspendPending
  {
    hide Timely;
    TimelyDepends(w, w.TakeOver());
  }

  lemma ResumeChanges(w: World)
    ensures var v := w.Resume();
      && SameRest(w, v) && Timely(v) && !v.m.suspendPending
      && v.out.sensor == (w.m.ProximityEnabled() || w.out.sensor)
  {
    hide Timely, World.TakeOver, World.TurnOn, World.Emit, Machine.ProximityEnabled;
    TakeOverChanges(w);
    var u := w.TakeOver().TurnOn(UnknownReason);
    TurnOnSpares(w.TakeOver(), UnknownReason);
    SameReason(w.m, u.m);
    if w.m.ProximityEnabled() { ListenChanges(u); }
  }

  lemma SameReason(m: Machine, n: Machine)
    requires SameReasons(m, n)
    ensures m.ProximityEnabled() == n.ProximityEnabled()
  {
  }

  lemma ListenChanges(w: World)
    ensures var v := w.Emit(EnableProximityEvents);
      v.m == w.m && v.out.sensor && Timely(v) == Timely(w) && Alone(v) == Alone(w)
  {
    hide Timely;
    TimelyDepends(w, w.Emit(EnableProximityEvents));
  }

  /** Allowing suspend releases the block of a machine that is dark for good. */
  predicate ReleasesBlock(m: Machine) {
    m.display == Off && m.reason != Proximity
  }

  lemma AllowSuspendChanges(w: World)
    ensures var v := w.HandleAllowSuspend();
      && Punctual(w, v) && SameSensor(w, v) && v.m.paused == w.m.paused && (Alone(w) ==> Alone(v))
      && !v.m.suspendPending
      && v.out.block == (w.out.block && !ReleasesBlock(w.m))
  {
    hide Timely, World.SuspendWhenAllowed;
    var u := w.(m := w.m.(suspendAllowed := true));
    if ReleasesBlock(w.m) {
      CarriesOut(u.Emit(AllowAutomaticSuspend));
      TimelyDepends(w, u.Emit(AllowAutomaticSuspend));
    } else {
      CarriesOut(u);
      TimelyDepends(w, u);
    }
  }

  lemma CarriesOut(w: World)
    requires w.m.suspendAllowed
    ensures var v := w.SuspendWhenAllowed();
      && Timely(v) == Timely(w) && SameSensor(w, v) && v.m.paused == w.m.paused
      && !v.m.suspendPending && v.out.block == w.out.block && Alone(v) == Alone(w)
  {
    hide Timely, SameSensor, SameTimeouts, Alone, World.SuspendWhenAllowed;
    CarryingOut(w);
    CarryingOutSpares(w);
    TimelyDepends(w, w.SuspendWhenAllowed());
  }

  lemma CarryingOut(w: World)
    requires w.m.suspendAllowed
    ensures var v := w.SuspendWhenAllowed();
      v.p == w.p && v.m.paused == w.m.paused && !v.m.suspendPending && SameTimeouts(w, v)
  {
    hide Outputs.Record;
  }

  lemma CarryingOutSpares(w: World)
    requires w.m.suspendAllowed
    ensures var v := w.SuspendWhenAllowed();
      SameSensor(w, v) && v.out.block == w.out.block && Alone(v) == Alone(w)
  {
  }

  lemma DisallowSuspendChanges(w: World)
    ensures var v := w.HandleDisallowSuspend();
      && Punctual(w, v) && SameSensor(w, v) && v.m.paused == w.m.paused && (Alone(w) ==> Alone(v))
    ensures var v := w.HandleDisallowSuspend();
      v.m.suspendPending == w.m.suspendPending && v.out.block
  {
    hide Timely;
    TimelyDepends(w, w.HandleDisallowSuspend());
  }

  // ---------- Every event ----------

  /** The arrival of the suspend alarm, with timeouts applicable. */
  predicate SuspendDue(w: World, e: Event) {
    && e.AlarmEvent? && e.id == w.p.suspend && e.id != w.p.longPress && e.id != w.p.dim && e.id != w.p.off
    && w.m.TimeoutApplies()
  }

  /** The event defers a suspend. */
  predicate Defers(w: World, e: Event) {
    SuspendDue(w, e) && !w.m.suspendAllowed
  }

  /** The event leaves no suspend deferred: it starts the timeouts over, or the suspend is carried
      out or dropped. */
  predicate Forgets(w: World, e: Event) {
    match e
    case ActiveCall(far) => w.m.display == On || far
    case EnableInactivityTimeout => Unholds(w.m)
    case SetInactivityBehavior(action, supply, timeout) => Reconfigures(w, action, supply, timeout)
    case PowerButtonPress => PressRestarts(w.m)
    case ProximityFar => FarRestarts(w.m)
    case ActivityChanging(far) => w.m.display == On || far
    case ActivityExtending => w.m.display == On
    case Starting(_) => w.m.options.displayOnAtStartup
    case AlarmEvent(_) => SuspendDue(w, e) && w.m.suspendAllowed
    case _ =>
      || e.LidOpen? || e.PowerSourceChange? || e.TurnDisplayOn? || e.SystemResume? || e.Resuming?
      || e.AllowSuspend?
  }

  /** Whether the machine has a reason for proximity events once the event is handled. */
  predicate ReasonAfter(w: World, e: Event) {
    match e
    case ActiveCall(_) => true
    case NoActiveCall(far) => AfterCall(w.m, far)
    case NoNotification => OtherReasons(w.m)
    case NewNotification(far) => AfterNotification(w.m, far)
    case ProximityFar => w.m.proximityUntilDisabled
    case AlarmEvent(id) =>
      if id == w.p.longPress || id == w.p.dim || id == w.p.off || id == w.p.suspend then w.m.ProximityEnabled()
      else if id == w.p.proximity then w.m.proximityUntilFarOrExpiration || w.m.proximityUntilDisabled
      else if id == w.p.expiration then OtherReasons(w.m)
      else w.m.ProximityEnabled()
    case _ => w.m.ProximityEnabled()
  }

  predicate Inhibits(e: Event) {
    || e.EnableInactivityTimeout? || e.DisableInactivityTimeout? || e.NewNotification?
    || e.NoNotification? || e.AllowSuspend? || e.DisallowSuspend?
  }

  predicate Routine(e: Event) {
    && !e.TimePasses? && !e.AlarmFires? && !e.AlarmEvent?
    && !e.AllowSuspend? && !e.DisallowSuspend?
    && !e.PowerSourceChange? && !e.Starting? && !e.Pausing? && !e.Resuming?
  }

  /** What a routine event does. */
  predicate Changes(w: World, v: World, e: Event) {
    && Bare(w, v, Forgets(w, e))
    && v.m.ProximityEnabled() == ReasonAfter(w, e)
    && (!Inhibits(e) ==> SameFlags(w, v))
  }

  lemma SpareChanges(w: World, v: World, e: Event, f: bool)
    requires Spares(w, v, f) && f == Forgets(w, e) && ReasonAfter(w, e) == w.m.ProximityEnabled()
    ensures Changes(w, v, e)
  {
    hide Timely, Alone, Forgets, ReasonAfter;
  }

  lemma SwayChanges(w: World, v: World, e: Event, f: bool)
    requires Sways(w, v, f) && f == Forgets(w, e) && v.m.ProximityEnabled() == ReasonAfter(w, e)
    ensures Changes(w, v, e)
  {
    hide Bare, SameFlags, Forgets, ReasonAfter;
  }

  lemma RoutineActiveChanges(w: World, e: Event)
    requires Routine(e) && !ReachesPaused(e)
    ensures Changes(w, Step(w, e), e)
  {
    hide Spares, Sways, Changes, Machine.ProximityEnabled;
    hide World.HandleActiveCall, World.HandleLidClosed, World.HandleLidOpen, World.HandlePowerButtonPress;
    hide World.HandlePowerButtonRelease, World.HandlePowerSourceCritical, World.HandleProximityFar;
    hide World.HandleProximityNear, World.HandleUserActivityChangingPowerState;
    hide World.HandleUserActivityExtendingPowerState, World.HandleSystemResume;
    var v := Step(w, e);
    match e
    case ActiveCall(far) => ActiveCallSways(w, far); SwayChanges(w, v, e, w.m.display == On || far);
    case ProximityFar => ProximityFarSways(w); SwayChanges(w, v, e, FarRestarts(w.m));
    case LidClosed(x) => LidClosedSpares(w, x); SpareChanges(w, v, e, false);
    case LidOpen => LidOpenSpares(w); SpareChanges(w, v, e, true);
    case PowerButtonPress => PressSpares(w); SpareChanges(w, v, e, PressRestarts(w.m));
    case PowerButtonRelease => ReleaseSpares(w); SpareChanges(w, v, e, false);
    case PowerSourceCritical => CriticalSpares(w); SpareChanges(w, v, e, false);
    case ProximityNear => ProximityNearSpares(w); SpareChanges(w, v, e, false);
    case ActivityChanging(far) => ActivitySpares(w, far); SpareChanges(w, v, e, w.m.display == On || far);
    case ActivityExtending => ActivitySpares(w, true); SpareChanges(w, v, e, w.m.display == On);
    case SystemResume => SwitchSpares(w); SpareChanges(w, v, e, true);
    case _ =>
  }

  lemma EnableTimeoutChanges(w: World)
    ensures Changes(w, w.HandleEnableInactivityTimeout(), EnableInactivityTimeout)
    ensures Changes(w, w.HandleDisableInactivityTimeout(), DisableInactivityTimeout)
  {
    hide Bare, World.AllowTimeout, World.HandleDisableInactivityTimeout, Machine.ProximityEnabled;
    AllowClientBare(w);
    DisableInactivityTimeoutBare(w);
    InactivityTimeoutReasons(w);
  }

  lemma InactivityTimeoutReasons(w: World)
    ensures w.HandleEnableInactivityTimeout().m.ProximityEnabled() == w.m.ProximityEnabled()
    ensures w.HandleDisableInactivityTimeout().m.ProximityEnabled() == w.m.ProximityEnabled()
  {
    hide Spares, World.OnceAllowed, World.Brighten, World.TurnOnWithoutTimeout;
    var u := w.(m := w.m.Allow(Client, true));
    OnceAllowedSpares(u, Client);
    SpareReasons(u, u.OnceAllowed(Client), w.m.notificationAllows && w.m.display == On);
    var d := w.DisallowTimeout(Client);
    BrightnessSpares(d);
    LightSpares(d, UnknownReason);
    SpareReasons(d, d.Brighten(), false);
    SpareReasons(d, d.TurnOnWithoutTimeout(UnknownReason), false);
  }

  lemma RoutineClientChanges(w: World, e: Event)
    requires Routine(e) && ReachesPaused(e)
    ensures Changes(w, Step(w, e), e)
  {
    hide Spares, Sways, Bare, Changes, Machine.ProximityEnabled;
    hide World.HandleNoActiveCall, World.HandleEnableInactivityTimeout, World.HandleDisableInactivityTimeout;
    hide World.HandleSetInactivityBehavior, World.HandleNoNotification, World.HandleNotification;
    hide World.HandleSetLidBehavior, World.HandleSetCriticalPowerBehavior, World.HandleSetNormalBrightnessValue;
    hide World.HandleAutobrightness, World.HandleTurnOnDisplay, World.HandleTurnOffDisplay;
    var v := Step(w, e);
    match e
    case NoActiveCall(far) => NoActiveCallSways(w, far); SwayChanges(w, v, e, false);
    case SetInactivityBehavior(a, s, t) =>
      SetInactivityBehaviorSways(w, a, s, t); SwayChanges(w, v, e, Reconfigures(w, a, s, t));
    case NoNotification => NoNotificationSways(w); SwayChanges(w, v, e, false);
    case NewNotification(far) => NotificationChanges(w, far);
    case EnableInactivityTimeout => EnableTimeoutChanges(w);
    case DisableInactivityTimeout => EnableTimeoutChanges(w);
    case SetLidBehavior(a, s) => BehaviorSpares(w, a, s); SpareChanges(w, v, e, false);
    case SetCriticalPowerBehavior(a) => BehaviorSpares(w, a, Battery); SpareChanges(w, v, e, false);
    case SetNormalBrightness'(x) => BrightnessValueSpares(w, x); SpareChanges(w, v, e, false);
    case Autobrightness(b) => AutobrightnessSpares(w, b); SpareChanges(w, v, e, false);
    case TurnDisplayOn => SwitchSpares(w); SpareChanges(w, v, e, true);
    case TurnDisplayOff => SwitchSpares(w); SpareChanges(w, v, e, false);
    case _ =>
  }

  lemma NotificationChanges(w: World, far: bool)
    ensures Changes(w, w.HandleNotification(far), NewNotification(far))
  {
    hide Bare, World.HandleNotification, Machine.ProximityEnabled;
    NotificationBare(w, far);
  }

  lemma RoutineChanges(w: World, e: Event)
    requires Routine(e)
    ensures Changes(w, Step(w, e), e)
  {
    hide Changes, Step;
    if ReachesPaused(e) { RoutineClientChanges(w, e); } else { RoutineActiveChanges(w, e); }
  }

  /** What the arrival of an alarm does. A suspend it defers is there afterwards. */
  lemma AlarmChanges(w: World, id: AlarmId)
    ensures var e := AlarmEvent(id);
      && (if Defers(w, e) then Sways(Deferring(w), w.HandleAlarm(id), false)
          else Sways(w, w.HandleAlarm(id), Forgets(w, e)))
      && w.HandleAlarm(id).m.ProximityEnabled() == ReasonAfter(w, e)
  {
    hide Spares, Sways, World.LongPressAlarm, World.DimAlarm, World.OffAlarm;
    hide World.SuspendAlarm, World.ProximityAlarm, World.ExpirationAlarm, Machine.TimeoutApplies;
    if id == w.p.longPress {
      LongPressAlarmSpares(w);
      SpareReasons(w, w.LongPressAlarm(), false);
      Still(w, w.LongPressAlarm(), false);
    } else if id == w.p.dim {
      DimAlarmSpares(w);
      SpareReasons(w, w.DimAlarm(), false);
      Still(w, w.DimAlarm(), false);
    } else if id == w.p.off {
      OffAlarmSpares(w);
      SpareReasons(w, w.OffAlarm(), false);
      Still(w, w.OffAlarm(), false);
    } else if id == w.p.suspend {
      SuspendAlarmChanges(w, id);
    } else if id == w.p.proximity {
      ProximityAlarmSways(w);
    } else if id == w.p.expiration {
      ExpirationAlarmSways(w);
    } else {
      Itself(w);
    }
  }

  lemma SuspendAlarmChanges(w: World, id: AlarmId)
    requires id == w.p.suspend && id != w.p.longPress && id != w.p.dim && id != w.p.off
    ensures var e := AlarmEvent(id);
      && (if Defers(w, e) then Sways(Deferring(w), w.SuspendAlarm(), false)
          else Sways(w, w.SuspendAlarm(), Forgets(w, e)))
      && w.SuspendAlarm().m.ProximityEnabled() == w.m.ProximityEnabled()
  {
    hide Spares, Sways, World.SuspendAlarm, Machine.TimeoutApplies;
    SuspendAlarmSpares(w);
    if Defers(w, AlarmEvent(id)) {
      SpareReasons(Deferring(w), w.SuspendAlarm(), false);
      Still(Deferring(w), w.SuspendAlarm(), false);
    } else {
      SpareReasons(w, w.SuspendAlarm(), w.m.TimeoutApplies());
      Still(w, w.SuspendAlarm(), w.m.TimeoutApplies());
    }
  }

  /** What an event leaves of the sensor: pausing switches it off, resuming on if there is a reason;
      any other event switches it when the first reason comes or the last one goes. */
  predicate Swings(w: World, e: Event, v: World) {
    if e == Pausing then !v.out.sensor
    else if e == Resuming then v.out.sensor == (w.m.ProximityEnabled() || w.out.sensor)
    else Switches(w, v)
  }

  /** What an event leaves of the shared suspend block. A paused machine has a say only when clients
      or logind allow or disallow suspending. */
  predicate Blocks(w: World, e: Event, v: World) {
    && (Alone(w) ==> Alone(v))
    && (w.m.paused && e != Resuming ==>
          v.out.block ==
            if e == DisallowSuspend then true
            else if e == AllowSuspend then w.out.block && !ReleasesBlock(w.m)
            else w.out.block)
  }

  /** All of it for one event. */
  predicate Effects(w: World, e: Event, v: World) {
    && v.m.suspendPending == ((w.m.suspendPending && !Forgets(w, e)) || Defers(w, e))
    && v.m.ProximityEnabled() == ReasonAfter(w, e)
    && Swings(w, e, v)
    && Blocks(w, e, v)
    && (!Inhibits(e) ==> SameFlags(w, v))
  }

  lemma RoutineEffects(w: World, e: Event)
    requires Routine(e)
    ensures Effects(w, e, Step(w, e)) && Punctual(w, Step(w, e))
  {
    hide Step, Timely, Alone, Forgets, ReasonAfter, Machine.ProximityEnabled;
    RoutineChanges(w, e);
  }

  lemma ClockEffects(w: World, e: Event)
    requires e.TimePasses? || e.AlarmFires?
    ensures Effects(w, e, Step(w, e))
  {
  }

  /** The machine that has delivered the alarm's event. */
  function Delivering(w: World, id: AlarmId): World {
    w.(p := w.p.(clock := w.p.clock.Delivered(id)))
  }

  lemma AlarmEffects(w: World, id: AlarmId)
    ensures Effects(w, AlarmEvent(id), Step(w, AlarmEvent(id))) && Punctual(w, Step(w, AlarmEvent(id)))
  {
    hide Timely, World.HandleAlarm, ReasonAfter, Machine.TimeoutApplies, Machine.ProximityEnabled;
    AlarmChanges(w, id);
    SameReason(w.m, Deferring(w).m);
    TimelyDepends(w, Deferring(w));
    TimelyDepends(w.HandleAlarm(id), Delivering(w.HandleAlarm(id), id));
  }

  lemma PowerSourceEffects(w: World, e: Event)
    requires e.PowerSourceChange? || e.Starting?
    ensures Effects(w, e, Step(w, e))
  {
    hide Alone, World.HandlePowerSourceChange, World.Start, Machine.ProximityEnabled;
    if e.PowerSourceChange? { PowerSourceChangeSpares(w, e.battery, e.far); } else { StartSpares(w, e.battery); }
    SameReason(w.m, Step(w, e).m);
  }

  lemma PausingEffects(w: World, e: Event)
    requires e == Pausing || e == Resuming
    ensures Effects(w, e, Step(w, e))
  {
    hide Alone, Timely, World.Pause, World.Resume, Machine.ProximityEnabled;
    if e == Pausing { PauseChanges(w); } else { ResumeChanges(w); }
    SameReason(w.m, Step(w, e).m);
  }

  lemma SuspendEffects(w: World, e: Event)
    requires e == AllowSuspend || e == DisallowSuspend
    ensures Effects(w, e, Step(w, e))
  {
    hide Alone, Timely, World.HandleAllowSuspend, World.HandleDisallowSuspend, Machine.ProximityEnabled;
    if e == AllowSuspend { AllowSuspendChanges(w); } else { DisallowSuspendChanges(w); }
    SameReason(w.m, Step(w, e).m);
  }

  /** For every event, from any state: when a deferred suspend is kept, forgotten or made, whether a
      reason for proximity events is left, what happens to the shared sensor and suspend block, and
      that only the inhibitors' own events touch what they asked for. */
  lemma EventEffects(w: World, e: Event)
    ensures Effects(w, e, Step(w, e))
  {
    hide Effects, Step;
    if e.TimePasses? || e.AlarmFires? { ClockEffects(w, e); }
    else if e.AlarmEvent? { AlarmEffects(w, e.id); }
    else if e.PowerSourceChange? || e.Starting? { PowerSourceEffects(w, e); }
    else if e == Pausing || e == Resuming { PausingEffects(w, e); }
    else if e == AllowSuspend || e == DisallowSuspend { SuspendEffects(w, e); }
    else { RoutineEffects(w, e); }
  }

  // ---------- The inhibitors' own events ----------

  /** What the inhibitors' own events do to the flags; the notification flag may be up besides. */
  predicate Flags(w: World, client: bool, suspend: bool, notification: bool) {
    w.m.clientAllows == client && w.m.suspendAllowed == suspend && (notification ==> w.m.notificationAllows)
  }

  lemma SpareFlags(w: World, v: World, f: bool)
    requires Spares(w, v, f)
    ensures Flags(v, w.m.clientAllows, w.m.suspendAllowed, w.m.notificationAllows)
  {
    hide Timely, Alone;
  }

  lemma AllowSetsFlag(w: World, a: Allowance)
    ensures Flags(w.AllowTimeout(a),
      a == Client || w.m.clientAllows, w.m.suspendAllowed, a == Notifications || w.m.notificationAllows)
  {
    hide Spares, World.OnceAllowed;
    if !w.m.TimeoutAllowed() {
      var u := w.(m := w.m.Allow(a, true));
      OnceAllowedSpares(u, a);
      SpareFlags(u, u.OnceAllowed(a), a == Client && u.m.TimeoutAllowed() && u.m.display == On);
    }
  }

  lemma InactivityTimeoutSetsFlag(w: World)
    ensures Flags(w.HandleEnableInactivityTimeout(), true, w.m.suspendAllowed, w.m.notificationAllows)
    ensures Flags(w.HandleDisableInactivityTimeout(), false, w.m.suspendAllowed, w.m.notificationAllows)
  {
    hide Spares, World.AllowTimeout, World.Brighten, World.TurnOnWithoutTimeout;
    AllowSetsFlag(w, Client);
    var u := w.DisallowTimeout(Client);
    BrightnessSpares(u);
    LightSpares(u, UnknownReason);
    SpareFlags(u, w.HandleDisableInactivityTimeout(), false);
  }

  lemma AllowSuspendSetsFlag(w: World)
    ensures Flags(w.HandleAllowSuspend(), w.m.clientAllows, true, w.m.notificationAllows)
  {
    hide World.SuspendWhenAllowed, Outputs.Record;
    var u := w.(m := w.m.(suspendAllowed := true));
    SuspendExactly(if w.m.display == Off && w.m.reason != Proximity then u.Emit(AllowAutomaticSuspend) else u);
  }

  lemma SuspendExactly(w: World)
    ensures Flags(w.SuspendWhenAllowed(), w.m.clientAllows, w.m.suspendAllowed, w.m.notificationAllows)
  {
    hide Outputs.Record;
  }

  lemma DisallowSuspendSetsFlag(w: World)
    ensures Flags(w.HandleDisallowSuspend(), w.m.clientAllows, false, w.m.notificationAllows)
  {
    hide Outputs.Record;
  }

  lemma NotificationSetsFlag(w: World, far: bool)
    ensures Flags(w.HandleNotification(far), w.m.clientAllows, w.m.suspendAllowed, false)
  {
    hide Spares, Bare, World.Brighten, World.TurnOnWithoutTimeout, World.EnableProximity, World.ScheduleExpiration;
    var u := w.DisallowTimeout(Notifications);
    BrightnessSpares(u);
    LightSpares(u, Notification);
    EnableSways(u, UntilFarOrExpiration);
    var v :=
      if w.m.display == On then u.Brighten()
      else if far then u.TurnOnWithoutTimeout(Notification)
      else u.EnableProximity(UntilFarOrExpiration);
    if w.m.display == On || far { SpareFlags(u, v, false); }
    OtherAlarmsSpare(v);
    SpareFlags(v, w.HandleNotification(far), false);
  }

  lemma NoNotificationSetsFlag(w: World)
    ensures Flags(w.HandleNoNotification(), w.m.clientAllows, w.m.suspendAllowed, true)
  {
    hide Spares, Bare, World.AllowTimeout, World.DisableProximity, World.SchedulePostNotification;
    hide Plan.CancelExpiration;
    var u := if w.m.display == On then w.SchedulePostNotification() else w;
    PostponeSpares(w);
    Itself(w);
    SpareFlags(w, u, false);
    AllowSetsFlag(u, Notifications);
    DisableSways(u.AllowTimeout(Notifications), UntilFarOrExpiration);
  }
}
