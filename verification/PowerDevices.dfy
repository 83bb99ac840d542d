/** What the commands of a session make of the devices: the log replayed into panels, backlight, modem,
    interactive mode and the system's default handlers, and proved to follow the machine. */
module PowerDevices {
  import opened Alarms
  import opened Plans
  import opened PowerModel
  import opened PowerInvariants
  import opened PowerTheorems
  import opened PowerChanges
  import opened PowerOutcomes

  // ---------- Replaying the log ----------

  datatype Light = NoLight | OffLight | NormalLight | DimLight

  datatype Notice = NoNotice | SaidOn(on: Reason) | SaidOff(off: Reason)

  /** Everything that goes with a lit display. */
  datatype Screen = Screen(
    external: bool,
    internal: bool,
    light: Light,
    interactive: bool,
    fullPower: bool,
    notice: Notice)

  datatype Handlers = Untouched | Allowed | Disallowed

  datatype Value = Unset | Set(value: real)

  /** Everything else a session controls. */
  datatype Services = Services(
    handlers: Handlers,
    automatic: bool,
    value: Value,
    lidSuspends: nat,
    criticalSuspends: nat,
    powerOffs: nat)

  const DARK := Screen(false, false, NoLight, false, false, NoNotice)

  const IDLE := Services(Untouched, false, Unset, 0, 0, 0)

  function ScreenHears(s: Screen, c: Command): Screen {
    match c
    case TurnOnDisplay(f) => s.(external := s.external || f != Internal, internal := s.internal || f != External)
    case TurnOffDisplay(f) => s.(external := s.external && f == Internal, internal := s.internal && f == External)
    case SetOffBrightness => s.(light := OffLight)
    case SetNormalBrightness => s.(light := NormalLight)
    case SetDimBrightness => s.(light := DimLight)
    case EnableInteractive => s.(interactive := true)
    case DisableInteractive => s.(interactive := false)
    case NormalPowerModem => s.(fullPower := true)
    case LowPowerModem => s.(fullPower := false)
    case NotifyDisplayOn(r) => s.(notice := SaidOn(r))
    case NotifyDisplayOff(r) => s.(notice := SaidOff(r))
    case _ => s
  }

  function ServicesHear(s: Services, c: Command): Services {
    match c
    case AllowDefaultHandlers => s.(handlers := Allowed)
    case DisallowDefaultHandlers => s.(handlers := Disallowed)
    case EnableAutobrightness => s.(automatic := true)
    case DisableAutobrightness => s.(automatic := false)
    case SetBrightnessValue(v) => s.(value := Set(v))
    case SuspendNow(LidClosing) => s.(lidSuspends := s.lidSuspends + 1)
    case SuspendNow(CriticalPower) => s.(criticalSuspends := s.criticalSuspends + 1)
    case PowerOffNow => s.(powerOffs := s.powerOffs + 1)
    case _ => s
  }

  function ScreenOf(log: seq<Entry>): Screen {
    if log == [] then DARK else ScreenHears(ScreenOf(log[..|log| - 1]), log[|log| - 1].command)
  }

  function ServicesOf(log: seq<Entry>): Services {
    if log == [] then IDLE else ServicesHear(ServicesOf(log[..|log| - 1]), log[|log| - 1].command)
  }

  function Shown(w: World): Screen {
    ScreenOf(w.out.log)
  }

  function Served(w: World): Services {
    ServicesOf(w.out.log)
  }

  lemma EmitHeard(w: World, c: Command)
    ensures Shown(w.Emit(c)) == ScreenHears(Shown(w), c) && Served(w.Emit(c)) == ServicesHear(Served(w), c)
  {
    var e := Entry(c, w.m.paused, w.m.suspendAllowed);
    assert (w.out.log + [e])[..|w.out.log|] == w.out.log;
  }

  predicate SameHeard(w: World, v: World) {
    Shown(v) == Shown(w) && Served(v) == Served(w)
  }

  /** The devices are left as they were, apart from these changes. */
  predicate Heard(w: World, v: World, screen: Screen, services: Services) {
    Shown(v) == screen && Served(v) == services
  }

  // ---------- What the devices come to ----------

  function LitUp(s: Screen, lidClosed: bool, reason: Reason): Screen {
    Screen(true, s.internal || !lidClosed, if lidClosed then s.light else NormalLight, true, true, SaidOn(reason))
  }

  function GoneDark(s: Screen, reason: Reason): Screen {
    Screen(false, false, OffLight, false, s.fullPower && reason == Proximity, SaidOff(reason))
  }

  /** A lit display that is used again gets its normal brightness. */
  predicate Brightens(w: World, e: Event) {
    && w.m.display == On && !w.m.paused
    && (e.ActiveCall? || e.NoActiveCall? || e.DisableInactivityTimeout? || e.NewNotification? || e.LidOpen?
        || e.PowerSourceChange? || e.ActivityChanging? || e.ActivityExtending?
        || (e.PowerButtonPress? && w.m.options.powerButtonIsActivity))
  }

  predicate Dims(w: World, e: Event) {
    e.AlarmEvent? && e.id == w.p.dim && MayTimeOut(w.m) && !w.m.paused
  }

  predicate LidClosedAfter(w: World, e: Event) {
    e.LidClosed? || (w.m.lidClosed && !e.LidOpen?)
  }

  /** The screen after an event. */
  function ScreenAfter(w: World, e: Event): Screen {
    var s := Shown(w);
    if Lights(w, e) then LitUp(s, LidClosedAfter(w, e), LightReason(e))
    else if Darkens(w, e) then GoneDark(s, DarkReason(e))
    else if Brightens(w, e) then s.(light := NormalLight, internal := s.internal || e.LidOpen?)
    else if Dims(w, e) then s.(light := DimLight)
    else if e == LidClosed(true) then s.(internal := false)
    else s
  }

  /** The services after an event. */
  function ServicesAfter(w: World, e: Event): Services {
    var s := Served(w);
    match e
    case LidClosed(externalDisplays) =>
      if !externalDisplays && w.m.lidAction.Get() == SuspendSystem then s.(lidSuspends := s.lidSuspends + 1) else s
    case PowerSourceCritical =>
      if w.m.criticalAction == PowerOff then s.(powerOffs := s.powerOffs + 1)
      else if w.m.criticalAction == SuspendSystem then s.(criticalSuspends := s.criticalSuspends + 1)
      else s
    case SetNormalBrightness'(v) => if w.m.paused then s else s.(automatic := false, value := Set(v))
    case Autobrightness(enabled) => if w.m.paused then s else s.(automatic := enabled)
    case Starting(_) => s.(handlers := Disallowed)
    case Pausing => s.(handlers := Allowed, automatic := false)
    case Resuming => s.(handlers := Disallowed, automatic := w.m.autobrightness, value := Set(w.m.brightness))
    case _ => s
  }

  // ---------- The helpers ----------

  lemma TwoHeard(w: World, c: Command, d: Command)
    ensures var v := w.Emit(c).Emit(d);
      && Shown(v) == ScreenHears(ScreenHears(Shown(w), c), d)
      && Served(v) == ServicesHear(ServicesHear(Served(w), c), d)
  {
    hide World.Emit, Shown, Served, ScreenHears, ServicesHear;
    EmitHeard(w, c);
    EmitHeard(w.Emit(c), d);
  }

  lemma SameLog(w: World, v: World)
    requires v.out.log == w.out.log
    ensures SameHeard(w, v)
  {
  }

  /** All that goes with a dark display but interactive mode and the notice. */
  predicate Darkening(w: World, b: World, reason: Reason) {
    var s := Shown(w);
    Heard(w, b, Screen(false, false, OffLight, s.interactive, s.fullPower && reason == Proximity, s.notice), Served(w))
  }

  lemma DarkPanels(w: World, reason: Reason)
    ensures var b := w.Emit(SetOffBrightness).Emit(TurnOffDisplay(All));
      Darkening(w, if reason == Proximity then b else b.Emit(LowPowerModem), reason)
  {
    hide World.Emit, Shown, Served;
    TwoHeard(w, SetOffBrightness, TurnOffDisplay(All));
    EmitHeard(w.Emit(SetOffBrightness).Emit(TurnOffDisplay(All)), LowPowerModem);
  }

  /** It has gone dark. */
  predicate Darkened(w: World, v: World, reason: Reason) {
    Heard(w, v, GoneDark(Shown(w), reason), Served(w))
  }

  /** The second half of turning the display off. */
  lemma DarkNotice(w: World, b: World, reason: Reason)
    requires Darkening(w, b, reason)
    ensures var c := b.(m := w.m.(display := Off, reason := reason), p := w.p.CancelOff());
      var d := c.Emit(NotifyDisplayOff(reason)).Emit(DisableInteractive);
      Darkened(w, d, reason) && Darkened(w, d.Emit(AllowAutomaticSuspend), reason)
  {
    hide World.Emit, Shown, Served, Plan.CancelOff;
    var c := b.(m := w.m.(display := Off, reason := reason), p := w.p.CancelOff());
    SameLog(b, c);
    TwoHeard(c, NotifyDisplayOff(reason), DisableInteractive);
    EmitHeard(c.Emit(NotifyDisplayOff(reason)).Emit(DisableInteractive), AllowAutomaticSuspend);
  }

  lemma DarkHeard(w: World, reason: Reason)
    requires !w.m.paused
    ensures Darkened(w, w.TurnOff(reason), reason)
  {
    hide World.Emit, Plan.CancelOff, Darkening, Darkened;
    var b := w.Emit(SetOffBrightness).Emit(TurnOffDisplay(All));
    DarkPanels(w, reason);
    if reason == Proximity {
      DarkNotice(w, b, reason);
    } else {
      DarkNotice(w, b.Emit(LowPowerModem), reason);
    }
  }

  predicate Brightened(w: World, v: World) {
    Heard(w, v, Shown(w).(light := NormalLight), Served(w))
  }

  lemma BrightHeard(w: World)
    ensures !w.m.paused ==> Brightened(w, w.Brighten())
    ensures w.m.paused ==> w.Brighten() == w
  {
    hide World.Emit, Shown, Served;
    EmitHeard(w, SetNormalBrightness);
  }

  lemma DimHeard(w: World)
    ensures !w.m.paused ==> Heard(w, w.Dim(), Shown(w).(light := DimLight), Served(w))
    ensures w.m.paused ==> w.Dim() == w
  {
    hide World.Emit, Shown, Served;
    EmitHeard(w, SetDimBrightness);
  }

  lemma LitPanels(w: World, lidClosed: bool)
    ensures var b := w.Emit(DisallowAutomaticSuspend).Emit(EnableInteractive);
      var c := b.Emit(TurnOnDisplay(if lidClosed then External else All));
      var s := Shown(w).(external := true, internal := Shown(w).internal || !lidClosed, interactive := true);
      Heard(w, c, s, Served(w)) && c.m == w.m
  {
    hide World.Emit, Shown, Served;
    var b := w.Emit(DisallowAutomaticSuspend).Emit(EnableInteractive);
    TwoHeard(w, DisallowAutomaticSuspend, EnableInteractive);
    EmitHeard(b, TurnOnDisplay(if lidClosed then External else All));
    EmitLeavesMachine(w, DisallowAutomaticSuspend);
    EmitLeavesMachine(w.Emit(DisallowAutomaticSuspend), EnableInteractive);
    EmitLeavesMachine(b, TurnOnDisplay(if lidClosed then External else All));
  }

  lemma LitNotice(d: World, reason: Reason)
    requires !d.m.paused
    ensures var e := if d.m.lidClosed then d else d.Brighten();
      var s := Shown(d);
      Heard(d, e.Emit(NormalPowerModem).Emit(NotifyDisplayOn(reason)),
        s.(light := if d.m.lidClosed then s.light else NormalLight, fullPower := true, notice := SaidOn(reason)),
        Served(d))
  {
    hide World.Emit, World.Brighten, Shown, Served;
    BrightHeard(d);
    TwoHeard(if d.m.lidClosed then d else d.Brighten(), NormalPowerModem, NotifyDisplayOn(reason));
  }

  predicate Lit(w: World, v: World, reason: Reason) {
    Heard(w, v, LitUp(Shown(w), w.m.lidClosed, reason), Served(w))
  }

  lemma LightHeard(w: World, reason: Reason)
    requires !w.m.paused
    ensures Lit(w, w.TurnOnWithoutTimeout(reason), reason)
  {
    hide World.Emit, World.Brighten, Shown, Served;
    var b := w.Emit(DisallowAutomaticSuspend).Emit(EnableInteractive);
    var c := b.Emit(TurnOnDisplay(if w.m.lidClosed then External else All));
    var d := c.(m := c.m.(display := On, reason := reason));
    LitPanels(w, w.m.lidClosed);
    SameLog(c, d);
    LitNotice(d, reason);
  }

  /** Scheduling says nothing. */
  lemma ScheduleHeard(w: World)
    ensures SameHeard(w, w.ScheduleNormal()) && SameHeard(w, w.ScheduleNormalSuspend())
    ensures SameHeard(w, w.ScheduleReduced()) && SameHeard(w, w.SchedulePostNotification())
    ensures SameHeard(w, w.ScheduleImmediate()) && SameHeard(w, w.ScheduleProximityDisable())
    ensures SameHeard(w, w.ScheduleExpiration())
  {
    hide Shown, Served, Plan.NormalOff, Plan.NormalSuspend, Plan.Postpone, Plan.ProximityDisable, Plan.Expiration;
    SameLog(w, w.ScheduleNormal());
    SameLog(w, w.ScheduleNormalSuspend());
    SameLog(w, w.ScheduleReduced());
    SameLog(w, w.SchedulePostNotification());
    SameLog(w, w.ScheduleImmediate());
    SameLog(w, w.ScheduleProximityDisable());
    SameLog(w, w.ScheduleExpiration());
  }

  lemma PausedLight(w: World, reason: Reason)
    requires w.m.paused
    ensures w.TurnOnWithoutTimeout(reason) == w && w.TurnOff(reason) == w
  {
  }

  lemma TurnOnHeard(w: World, reason: Reason)
    ensures !w.m.paused ==> Lit(w, w.TurnOn(reason), reason) && Lit(w, w.TurnOnReduced(reason), reason)
    ensures w.m.paused ==> SameHeard(w, w.TurnOn(reason)) && SameHeard(w, w.TurnOnReduced(reason))
  {
    hide Shown, Served, World.TurnOnWithoutTimeout, World.ScheduleNormal, World.ScheduleReduced, LitUp;
    if w.m.paused { PausedLight(w, reason); } else { LightHeard(w, reason); }
    ScheduleHeard(w.TurnOnWithoutTimeout(reason));
  }

  lemma ExtendHeard(w: World, reason: Reason)
    requires !w.m.paused
    ensures Brightened(w, w.Extend()) && Brightened(w, w.ExtendFor(reason))
  {
    hide Shown, Served, World.Brighten, World.ScheduleNormal;
    BrightHeard(w);
    ScheduleHeard(w.Brighten());
    SameLog(w.Extend(), w.ExtendFor(reason));
  }

  lemma SensorHeard(w: World, e: Enablement)
    ensures SameHeard(w, w.EnableProximity(e)) && SameHeard(w, w.DisableProximity(e))
  {
    hide World.Emit, Shown, Served, Machine.Enable, Machine.ProximityEnabled;
    var u := w.(m := w.m.Enable(e, true));
    var v := w.(m := w.m.Enable(e, false));
    SameLog(w, u);
    SameLog(w, v);
    EmitHeard(u, EnableProximityEvents);
    EmitHeard(v, DisableProximityEvents);
  }

  lemma AllowClientHeard(w: World)
    ensures SameHeard(w, w.AllowTimeout(Client))
  {
    hide Shown, Served, World.ScheduleNormal, World.TurnOff;
    var u := w.(m := w.m.Allow(Client, true));
    SameLog(w, u);
    ScheduleHeard(u);
  }

  lemma AllowNotificationsHeard(w: World)
    ensures var off := !w.m.notificationAllows && w.m.clientAllows && w.m.display == On && w.p.kind == NoTimeout;
      if off && !w.m.paused then Darkened(w, w.AllowTimeout(Notifications), Activity)
      else SameHeard(w, w.AllowTimeout(Notifications))
  {
    hide Shown, Served, World.ScheduleNormal, World.TurnOff, GoneDark;
    var u := w.(m := w.m.Allow(Notifications, true));
    SameLog(w, u);
    if w.m.paused { PausedLight(u, Activity); } else { DarkHeard(u, Activity); }
  }

  lemma SuspendHeard(w: World)
    ensures SameHeard(w, w.SuspendWhenAllowed())
  {
    hide World.Emit, Shown, Served;
    var u := w.(m := w.m.(suspendPending := false));
    SameLog(w, u);
    SameLog(w, w.(m := w.m.(suspendPending := true)));
    EmitHeard(u, SuspendNow(Inactivity));
  }

  // ---------- The handlers ----------

  /** The devices have heard what this event says. */
  predicate Follows(w: World, e: Event, v: World) {
    Heard(w, v, ScreenAfter(w, e), ServicesAfter(w, e))
  }

  /** What this event says, when it says nothing of other services. */
  predicate Says(w: World, e: Event, screen: Screen) {
    ScreenAfter(w, e) == screen && ServicesAfter(w, e) == Served(w)
  }

  predicate SaysBright(w: World, e: Event) {
    Says(w, e, Shown(w).(light := NormalLight))
  }

  predicate SaysLight(w: World, e: Event, reason: Reason) {
    Says(w, e, LitUp(Shown(w), w.m.lidClosed, reason))
  }

  predicate SaysNothing(w: World, e: Event) {
    Says(w, e, Shown(w))
  }

  lemma BrightFollows(w: World, e: Event, v: World)
    requires SaysBright(w, e) && Brightened(w, v)
    ensures Follows(w, e, v)
  {
    hide ScreenAfter, ServicesAfter, Shown, Served;
  }

  lemma LightFollows(w: World, e: Event, v: World, reason: Reason)
    requires SaysLight(w, e, reason) && Lit(w, v, reason)
    ensures Follows(w, e, v)
  {
    hide ScreenAfter, ServicesAfter, Shown, Served, LitUp;
  }

  lemma SilenceFollows(w: World, e: Event, v: World)
    requires SaysNothing(w, e) && SameHeard(w, v)
    ensures Follows(w, e, v)
  {
    hide ScreenAfter, ServicesAfter, Shown, Served;
  }

  lemma ActiveCallSays(w: World, far: bool)
    requires w.m.display != UnknownMode && !w.m.paused
    ensures w.m.display == On ==> SaysBright(w, ActiveCall(far))
    ensures w.m.display == Off && far ==> SaysLight(w, ActiveCall(far), Call)
    ensures w.m.display == Off && !far ==> SaysNothing(w, ActiveCall(far))
  {
    hide Shown, Served;
  }

  lemma ActiveCallHeard(w: World, far: bool)
    requires w.m.display != UnknownMode && !w.m.paused
    ensures Follows(w, ActiveCall(far), w.HandleActiveCall(far))
  {
    hide SaysBright, SaysLight, SaysNothing, Follows, LitUp, Shown, Served;
    hide World.Extend, World.TurnOn, World.EnableProximity;
    ActiveCallSays(w, far);
    if w.m.display == On {
      ExtendHeard(w, Call);
      SensorHeard(w.Extend(), UntilDisabled);
      BrightFollows(w, ActiveCall(far), w.HandleActiveCall(far));
    } else if far {
      TurnOnHeard(w, Call);
      SensorHeard(w.TurnOn(Call), UntilDisabled);
      LightFollows(w, ActiveCall(far), w.HandleActiveCall(far), Call);
    } else {
      SensorHeard(w, UntilDisabled);
      SilenceFollows(w, ActiveCall(far), w.HandleActiveCall(far));
    }
  }

  lemma NoActiveCallSays(w: World, far: bool)
    requires w.m.display != UnknownMode
    ensures w.m.display == On && !w.m.paused ==> SaysBright(w, NoActiveCall(far))
    ensures w.m.display == Off && far && !w.m.paused ==> SaysLight(w, NoActiveCall(far), CallDone)
    ensures w.m.paused || (w.m.display == Off && !far) ==> SaysNothing(w, NoActiveCall(far))
  {
    hide Shown, Served;
  }

  lemma NoActiveCallHeard(w: World, far: bool)
    requires w.m.display != UnknownMode
    ensures Follows(w, NoActiveCall(far), w.HandleNoActiveCall(far))
  {
    hide SaysBright, SaysLight, SaysNothing, Follows, LitUp, Shown, Served, World.Brighten, World.TurnOnReduced;
    hide World.EnableProximity, World.DisableProximity, World.ScheduleReduced, World.ScheduleProximityDisable;
    var e, v := NoActiveCall(far), w.HandleNoActiveCall(far);
    NoActiveCallSays(w, far);
    if w.m.display == On {
      BrightHeard(w);
      ScheduleHeard(w.Brighten());
      SensorHeard(w.Brighten().ScheduleReduced(), UntilDisabled);
      if w.m.paused { SilenceFollows(w, e, v); } else { BrightFollows(w, e, v); }
    } else if far {
      TurnOnHeard(w, CallDone);
      SensorHeard(w.TurnOnReduced(CallDone), UntilDisabled);
      if w.m.paused { SilenceFollows(w, e, v); } else { LightFollows(w, e, v, CallDone); }
    } else {
      var u := w.EnableProximity(UntilFarOrTimeout);
      SensorHeard(w, UntilFarOrTimeout);
      ScheduleHeard(u);
      SensorHeard(u.ScheduleProximityDisable(), UntilDisabled);
      SilenceFollows(w, e, v);
    }
  }

  lemma EnableTimeoutHeard(w: World)
    ensures Follows(w, EnableInactivityTimeout, w.HandleEnableInactivityTimeout())
  {
    hide Shown, Served, World.AllowTimeout;
    AllowClientHeard(w);
  }

  lemma DisableTimeoutHeard(w: World)
    requires w.m.display != UnknownMode
    ensures Follows(w, DisableInactivityTimeout, w.HandleDisableInactivityTimeout())
  {
    hide Shown, Served, World.Brighten, World.TurnOnWithoutTimeout;
    var u := w.DisallowTimeout(Client);
    SameLog(w, u);
    BrightHeard(u);
    if w.m.paused { PausedLight(u, UnknownReason); } else { LightHeard(u, UnknownReason); }
  }

  lemma NewNotificationSays(w: World, far: bool)
    requires w.m.display != UnknownMode
    ensures w.m.display == On && !w.m.paused ==> SaysBright(w, NewNotification(far))
    ensures w.m.display == Off && far && !w.m.paused ==> SaysLight(w, NewNotification(far), Notification)
    ensures w.m.paused || (w.m.display == Off && !far) ==> SaysNothing(w, NewNotification(far))
  {
    hide Shown, Served;
  }

  lemma WithheldHeard(w: World)
    ensures var u := w.DisallowTimeout(Notifications);
      SameHeard(w, u) && u.m.paused == w.m.paused && u.m.lidClosed == w.m.lidClosed
  {
    hide Shown, Served;
    SameLog(w, w.DisallowTimeout(Notifications));
  }

  lemma NewNotificationHeard(w: World, far: bool)
    requires w.m.display != UnknownMode && !w.m.paused
    ensures Follows(w, NewNotification(far), w.HandleNotification(far))
  {
    hide SaysBright, SaysLight, SaysNothing, Follows, LitUp, Shown, Served, World.DisallowTimeout;
    hide World.Brighten, World.TurnOnWithoutTimeout, World.EnableProximity, World.ScheduleExpiration;
    var e, v := NewNotification(far), w.HandleNotification(far);
    var u := w.DisallowTimeout(Notifications);
    NewNotificationSays(w, far);
    WithheldHeard(w);
    if w.m.display == On {
      BrightHeard(u);
      ScheduleHeard(u.Brighten());
      BrightFollows(w, e, v);
    } else if far {
      LightHeard(u, Notification);
      ScheduleHeard(u.TurnOnWithoutTimeout(Notification));
      LightFollows(w, e, v, Notification);
    } else {
      SensorHeard(u, UntilFarOrExpiration);
      ScheduleHeard(u.EnableProximity(UntilFarOrExpiration));
      SilenceFollows(w, e, v);
    }
  }

  lemma PausedNotificationHeard(w: World, far: bool)
    requires w.m.display != UnknownMode && w.m.paused
    ensures Follows(w, NewNotification(far), w.HandleNotification(far))
  {
    hide SaysBright, SaysLight, SaysNothing, Follows, LitUp, Shown, Served, World.DisallowTimeout;
    hide World.Brighten, World.TurnOnWithoutTimeout, World.EnableProximity, World.ScheduleExpiration;
    var u := w.DisallowTimeout(Notifications);
    NewNotificationSays(w, far);
    WithheldHeard(w);
    BrightHeard(u);
    PausedLight(u, Notification);
    SensorHeard(u, UntilFarOrExpiration);
    ScheduleHeard(u);
    ScheduleHeard(u.EnableProximity(UntilFarOrExpiration));
    SilenceFollows(w, NewNotification(far), w.HandleNotification(far));
  }

  lemma BehaviorHeard(w: World, action: PowerAction, supply: PowerSupply, timeout: int)
    ensures Follows(w, SetInactivityBehavior(action, supply, timeout),
      w.HandleSetInactivityBehavior(action, supply, timeout))
  {
    hide Shown, Served, World.ScheduleNormal, Configurable.Set;
    var off := w.(m := w.m.(offTimeout := w.m.offTimeout.Set(supply, timeout)));
    var suspend := w.(m := w.m.(suspendTimeout := w.m.suspendTimeout.Set(supply, timeout)));
    SameLog(w, off);
    SameLog(w, suspend);
    ScheduleHeard(off);
    ScheduleHeard(suspend);
  }

  lemma LidClosedSays(w: World, externalDisplays: bool)
    requires !w.m.paused
    ensures ScreenAfter(w, LidClosed(externalDisplays))
      == if externalDisplays then Shown(w).(internal := false)
         else if w.m.display == On then GoneDark(Shown(w), UnknownReason)
         else Shown(w)
  {
    hide Shown, Served;
  }

  lemma LidClosedHeard(w: World, externalDisplays: bool)
    requires !w.m.paused
    ensures Follows(w, LidClosed(externalDisplays), w.HandleLidClosed(externalDisplays))
  {
    hide World.Emit, World.TurnOff, Shown, Served, Configurable.Get, ScreenAfter, GoneDark;
    var u := w.(m := w.m.(lidClosed := true));
    LidClosedSays(w, externalDisplays);
    SameLog(w, u);
    if externalDisplays {
      EmitHeard(u, TurnOffDisplay(Internal));
    } else {
      DarkHeard(u, UnknownReason);
      EmitHeard(u, SuspendNow(LidClosing));
      EmitHeard(u.TurnOff(UnknownReason), SuspendNow(LidClosing));
    }
  }

  lemma LidOpenSays(w: World)
    requires w.m.display != UnknownMode && !w.m.paused
    ensures w.m.display == On ==> Says(w, LidOpen, Shown(w).(light := NormalLight, internal := true))
    ensures w.m.display == Off ==> Says(w, LidOpen, LitUp(Shown(w), false, Activity))
  {
    hide Shown, Served;
  }

  lemma LidOpenHeard(w: World)
    requires w.m.display != UnknownMode && !w.m.paused
    ensures Follows(w, LidOpen, w.HandleLidOpen())
  {
    hide World.Emit, World.ExtendFor, World.TurnOn, Shown, Served, ScreenAfter, ServicesAfter, LitUp;
    var u := w.(m := w.m.(lidClosed := false));
    LidOpenSays(w);
    SameLog(w, u);
    EmitHeard(u, TurnOnDisplay(Internal));
    EmitLeavesMachine(u, TurnOnDisplay(Internal));
    if w.m.display == On { ExtendHeard(u.Emit(TurnOnDisplay(Internal)), Activity); } else { TurnOnHeard(u, Activity); }
  }

  lemma NoNotificationHeard(w: World)
    ensures Follows(w, NoNotification, w.HandleNoNotification())
  {
    hide Shown, Served, World.AllowTimeout, World.DisableProximity, Plan.Postpone, Plan.CancelExpiration;
    var u := if w.m.display == On then w.SchedulePostNotification() else w;
    var v := u.AllowTimeout(Notifications).DisableProximity(UntilFarOrExpiration);
    PostponeKind(w.p, w.m.options.postNotificationOffTimeout);
    SameLog(w, u);
    AllowNotificationsHeard(u);
    SensorHeard(u.AllowTimeout(Notifications), UntilFarOrExpiration);
    SameLog(v, v.(p := v.p.CancelExpiration()));
  }

  lemma PressSays(w: World)
    requires w.m.display != UnknownMode && !w.m.paused
    ensures w.m.display == On && w.m.options.powerButtonIsActivity ==> SaysBright(w, PowerButtonPress)
    ensures w.m.display == Off ==> SaysLight(w, PowerButtonPress, PowerButton)
    ensures w.m.display == On && !w.m.options.powerButtonIsActivity ==> SaysNothing(w, PowerButtonPress)
  {
    hide Shown, Served;
  }

  lemma PressHeard(w: World)
    requires w.m.display != UnknownMode && !w.m.paused
    ensures Follows(w, PowerButtonPress, w.HandlePowerButtonPress())
  {
    hide SaysBright, SaysLight, SaysNothing, Follows, LitUp, Shown, Served;
    hide World.ExtendFor, World.TurnOn, Plan.LongPress;
    var v := w.HandlePowerButtonPress();
    var u := w.(m := w.m.(displayAtPress := w.m.display));
    PressSays(w);
    SameLog(w, u);
    if w.m.display == Off {
      TurnOnHeard(u, PowerButton);
      SameLog(u.TurnOn(PowerButton), v);
      LightFollows(w, PowerButtonPress, v, PowerButton);
    } else if w.m.options.powerButtonIsActivity {
      ExtendHeard(u, PowerButton);
      SameLog(u.ExtendFor(PowerButton), v);
      BrightFollows(w, PowerButtonPress, v);
    } else {
      SameLog(u, v);
      SilenceFollows(w, PowerButtonPress, v);
    }
  }

  lemma ReleaseHeard(w: World)
    requires !w.m.paused
    ensures Follows(w, PowerButtonRelease, w.HandlePowerButtonRelease())
  {
    hide Shown, Served, World.TurnOff;
    SameLog(w, w.(m := w.m.(longPressDetected := false)));
    DarkHeard(w, PowerButton);
    SameLog(w.EndPress(), w.HandlePowerButtonRelease());
  }

  lemma PowerSourceSays(w: World, battery: bool, far: bool)
    requires w.m.display != UnknownMode && !w.m.paused
    ensures w.m.display == On ==> SaysBright(w, PowerSourceChange(battery, far))
    ensures w.m.display == Off && far ==> SaysLight(w, PowerSourceChange(battery, far), Notification)
    ensures w.m.display == Off && !far ==> SaysNothing(w, PowerSourceChange(battery, far))
  {
    hide Shown, Served;
  }

  lemma PowerSourceHeard(w: World, battery: bool, far: bool)
    requires w.m.display != UnknownMode && !w.m.paused
    ensures Follows(w, PowerSourceChange(battery, far), w.HandlePowerSourceChange(battery, far))
  {
    hide SaysBright, SaysLight, SaysNothing, Follows, LitUp, Shown, Served;
    hide World.ExtendFor, World.TurnOnReduced, World.ScheduleNormalSuspend;
    var e, v := PowerSourceChange(battery, far), w.HandlePowerSourceChange(battery, far);
    var u := w.OnBattery(battery);
    PowerSourceSays(w, battery, far);
    SameLog(w, u);
    if w.m.display == On {
      ExtendHeard(u, Activity);
      ScheduleHeard(u.ExtendFor(Activity));
      BrightFollows(w, e, v);
    } else if far {
      TurnOnHeard(u, Notification);
      ScheduleHeard(u.TurnOnReduced(Notification));
      LightFollows(w, e, v, Notification);
    } else {
      ScheduleHeard(u);
      SilenceFollows(w, e, v);
    }
  }

  lemma CriticalHeard(w: World)
    ensures Follows(w, PowerSourceCritical, w.HandlePowerSourceCritical())
  {
    hide World.Emit, Shown, Served;
    EmitHeard(w, PowerOffNow);
    EmitHeard(w, SuspendNow(CriticalPower));
  }

  lemma ProximityFarHeard(w: World)
    requires !w.m.paused
    ensures Follows(w, ProximityFar, w.HandleProximityFar())
  {
    hide Shown, Served, World.DisableProximity, World.TurnOn, World.TurnOnReduced, Machine.ProximityOnlyUntilExpiration;
    var u := w.DisableProximity(UntilFarOrExpiration);
    SensorHeard(w, UntilFarOrExpiration);
    SensorHeard(u, UntilFarOrTimeout);
    TwoReasonsEnd(w);
    TurnOnHeard(u.DisableProximity(UntilFarOrTimeout), Proximity);
  }

  lemma ProximityNearHeard(w: World)
    requires !w.m.paused
    ensures Follows(w, ProximityNear, w.HandleProximityNear())
  {
    hide Shown, Served, World.TurnOff;
    DarkHeard(w, Proximity);
  }

  lemma ActivitySays(w: World, far: bool)
    requires w.m.display != UnknownMode && !w.m.paused
    ensures w.m.display == On ==> SaysBright(w, ActivityChanging(far)) && SaysBright(w, ActivityExtending)
    ensures w.m.display == Off && far ==> SaysLight(w, ActivityChanging(far), Activity)
    ensures w.m.display == Off && !far ==> SaysNothing(w, ActivityChanging(far))
    ensures w.m.display == Off ==> SaysNothing(w, ActivityExtending)
  {
    hide Shown, Served;
  }

  lemma ActivityHeard(w: World, far: bool)
    requires w.m.display != UnknownMode && !w.m.paused
    ensures Follows(w, ActivityChanging(far), w.HandleUserActivityChangingPowerState(far))
    ensures Follows(w, ActivityExtending, w.HandleUserActivityExtendingPowerState())
  {
    hide SaysBright, SaysLight, SaysNothing, Follows, LitUp, Shown, Served, World.ExtendFor, World.TurnOn;
    ActivitySays(w, far);
    if w.m.display == On {
      ExtendHeard(w, Activity);
      BrightFollows(w, ActivityChanging(far), w.ExtendFor(Activity));
      BrightFollows(w, ActivityExtending, w.ExtendFor(Activity));
    } else {
      SilenceFollows(w, ActivityExtending, w);
      if far {
        TurnOnHeard(w, Activity);
        LightFollows(w, ActivityChanging(far), w.TurnOn(Activity), Activity);
      } else {
        SilenceFollows(w, ActivityChanging(far), w);
      }
    }
  }

  lemma BrightnessValueHeard(w: World, value: real)
    ensures Follows(w, SetNormalBrightness'(value), w.HandleSetNormalBrightnessValue(value))
  {
    hide World.Emit, Shown, Served;
    var u := w.(m := w.m.(brightness := value));
    SameLog(w, u);
    TwoHeard(u, DisableAutobrightness, SetBrightnessValue(value));
  }

  lemma AutobrightnessHeard(w: World, enabled: bool)
    ensures Follows(w, Autobrightness(enabled), w.HandleAutobrightness(enabled))
  {
    hide World.Emit, Shown, Served;
    var u := w.(m := w.m.(autobrightness := enabled));
    SameLog(w, u);
    EmitHeard(u, if enabled then EnableAutobrightness else DisableAutobrightness);
  }

  lemma AllowSuspendHeard(w: World)
    ensures Follows(w, AllowSuspend, w.HandleAllowSuspend())
  {
    hide World.Emit, World.SuspendWhenAllowed, Shown, Served;
    var u := w.(m := w.m.(suspendAllowed := true));
    SameLog(w, u);
    EmitHeard(u, AllowAutomaticSuspend);
    SuspendHeard(u);
    SuspendHeard(u.Emit(AllowAutomaticSuspend));
  }

  lemma DisallowSuspendHeard(w: World)
    ensures Follows(w, DisallowSuspend, w.HandleDisallowSuspend())
  {
    hide World.Emit, Shown, Served;
    var u := w.(m := w.m.(suspendAllowed := false));
    SameLog(w, u);
    EmitHeard(u, DisallowAutomaticSuspend);
  }

  lemma SwitchSays(w: World)
    ensures !w.m.paused ==> SaysLight(w, TurnDisplayOn, PowerButton) && SaysLight(w, SystemResume, Activity)
    ensures w.m.paused ==> SaysNothing(w, TurnDisplayOn)
  {
    hide Shown, Served;
  }

  lemma SwitchHeard(w: World)
    ensures Follows(w, TurnDisplayOn, w.HandleTurnOnDisplay())
    ensures !w.m.paused ==> Follows(w, SystemResume, w.HandleSystemResume())
  {
    hide SaysLight, SaysNothing, Follows, LitUp, Shown, Served, World.TurnOn;
    SwitchSays(w);
    TurnOnHeard(w, PowerButton);
    TurnOnHeard(w, Activity);
    if w.m.paused {
      SilenceFollows(w, TurnDisplayOn, w.TurnOn(PowerButton));
    } else {
      LightFollows(w, TurnDisplayOn, w.TurnOn(PowerButton), PowerButton);
      LightFollows(w, SystemResume, w.TurnOn(Activity), Activity);
    }
  }

  lemma SwitchOffHeard(w: World)
    ensures Follows(w, TurnDisplayOff, w.HandleTurnOffDisplay())
  {
    hide Shown, Served, World.TurnOff;
    if w.m.paused { PausedLight(w, PowerButton); } else { DarkHeard(w, PowerButton); }
  }

  lemma StartSays(w: World, battery: bool)
    requires !w.m.paused
    ensures ServicesAfter(w, Starting(battery)) == Served(w).(handlers := Disallowed)
    ensures ScreenAfter(w, Starting(battery))
      == if w.m.options.displayOnAtStartup then LitUp(Shown(w), w.m.lidClosed, UnknownReason) else Shown(w)
  {
    hide Shown, Served;
  }

  lemma StartHeard(w: World, battery: bool)
    requires !w.m.paused
    ensures Follows(w, Starting(battery), w.Start(battery))
  {
    hide World.Emit, World.TurnOn, Shown, Served, ScreenAfter, ServicesAfter, LitUp;
    var u := w.OnBattery(battery);
    StartSays(w, battery);
    SameLog(w, u);
    EmitHeard(u, DisallowDefaultHandlers);
    EmitLeavesMachine(u, DisallowDefaultHandlers);
    TurnOnHeard(u.Emit(DisallowDefaultHandlers), UnknownReason);
  }

  lemma PauseSays(w: World)
    ensures ScreenAfter(w, Pausing) == Shown(w)
    ensures ServicesAfter(w, Pausing) == Served(w).(handlers := Allowed, automatic := false)
  {
    hide Shown, Served;
  }

  lemma StepBackHeard(w: World)
    ensures Heard(w, w.StepBack(), Shown(w), Served(w).(handlers := Allowed, automatic := false))
  {
    hide World.Emit, Shown, Served;
    TwoHeard(w, DisableProximityEvents, DisableAutobrightness);
    var v := w.Emit(DisableProximityEvents).Emit(DisableAutobrightness);
    EmitHeard(v, AllowDefaultHandlers);
    SameLog(v.Emit(AllowDefaultHandlers), w.StepBack());
  }

  lemma PauseHeard(w: World)
    requires !w.m.paused
    ensures Follows(w, Pausing, w.Pause())
  {
    hide World.StepBack, Plan.CancelLongPress, Shown, Served, ScreenAfter, ServicesAfter;
    var u := w.(p := w.p.CancelLongPress());
    PauseSays(w);
    SameLog(w, u);
    StepBackHeard(u);
  }

  lemma TakeOverHeard(w: World)
    ensures Heard(w, w.TakeOver(), Shown(w),
      Served(w).(handlers := Disallowed, automatic := w.m.autobrightness, value := Set(w.m.brightness)))
  {
    hide World.Emit, Shown, Served;
    var u := w.(m := w.m.(paused := false));
    SameLog(w, u);
    var c := if w.m.autobrightness then EnableAutobrightness else DisableAutobrightness;
    EmitLeavesMachine(u, DisallowDefaultHandlers);
    TwoHeard(u, DisallowDefaultHandlers, c);
    EmitLeavesMachine(u.Emit(DisallowDefaultHandlers), c);
    EmitHeard(u.Emit(DisallowDefaultHandlers).Emit(c), SetBrightnessValue(w.m.brightness));
  }

  lemma ResumeSays(w: World)
    ensures ScreenAfter(w, Resuming) == LitUp(Shown(w), w.m.lidClosed, UnknownReason)
    ensures ServicesAfter(w, Resuming)
      == Served(w).(handlers := Disallowed, automatic := w.m.autobrightness, value := Set(w.m.brightness))
  {
    hide Shown, Served;
  }

  lemma ResumeHeard(w: World)
    ensures Follows(w, Resuming, w.Resume())
  {
    hide World.Emit, World.TakeOver, World.TurnOn, Shown, Served, Machine.ProximityEnabled;
    hide ScreenAfter, ServicesAfter, LitUp;
    ResumeSays(w);
    TakeOverHeard(w);
    TakeOverMakes(w);
    TurnOnHeard(w.TakeOver(), UnknownReason);
    EmitHeard(w.TakeOver().TurnOn(UnknownReason), EnableProximityEvents);
  }

  // ---------- The alarms ----------

  lemma OffAlarmHeard(w: World)
    ensures if MayTimeOut(w.m) && !w.m.paused then Darkened(w, w.OffAlarm(), Activity) else SameHeard(w, w.OffAlarm())
  {
    hide World.TurnOff, Shown, Served, GoneDark;
    var u := w.(p := w.p.(off := INVALID));
    SameLog(w, u);
    if w.m.paused { PausedLight(u, Activity); } else { DarkHeard(u, Activity); }
    SameLog(u.TurnOffIfApplicable(), w.OffAlarm());
  }

  lemma DimAlarmHeard(w: World)
    ensures MayTimeOut(w.m) && !w.m.paused ==>
      Heard(w, w.DimAlarm(), Shown(w).(light := DimLight), Served(w))
    ensures !MayTimeOut(w.m) || w.m.paused ==> SameHeard(w, w.DimAlarm())
  {
    hide World.Dim, Shown, Served;
    var u := w.(p := w.p.(dim := INVALID));
    SameLog(w, u);
    DimHeard(u);
  }

  lemma SmallAlarmsHeard(w: World)
    ensures SameHeard(w, w.LongPressAlarm()) && SameHeard(w, w.SuspendAlarm()) && SameHeard(w, w.ProximityAlarm())
  {
    hide World.Emit, World.SuspendWhenAllowed, World.DisableProximity, Shown, Served, Machine.TimeoutApplies;
    EmitHeard(w, NotifyLongPress);
    SameLog(w.Emit(NotifyLongPress), w.LongPressAlarm());
    var suspend := w.(p := w.p.(suspend := INVALID));
    SameLog(w, suspend);
    SuspendHeard(suspend);
    var proximity := w.(p := w.p.(proximity := INVALID));
    SameLog(w, proximity);
    SensorHeard(proximity, UntilFarOrTimeout);
  }

  lemma ExpirationHeard(w: World)
    ensures if NothingLeft(w, 0) && !w.m.paused then Darkened(w, w.ExpirationAlarm(), Activity)
      else SameHeard(w, w.ExpirationAlarm())
  {
    hide Shown, Served, World.AllowTimeout, World.DisableProximity, Plan.Postpone, GoneDark;
    var u := w.(p := w.p.(expiration := INVALID));
    var v := if w.m.display == On then u.ScheduleImmediate() else u;
    PostponeKind(u.p, 0);
    SameLog(w, v);
    AllowNotificationsHeard(v);
    SensorHeard(v.AllowTimeout(Notifications), UntilFarOrExpiration);
  }

  lemma AlarmSays(w: World, id: AlarmId)
    requires id == w.p.off ==> id != w.p.expiration && id != w.p.dim
    requires id == w.p.expiration ==> id != w.p.dim
    ensures var e := AlarmEvent(id);
      if !w.m.paused && ((id == w.p.off && MayTimeOut(w.m)) || (id == w.p.expiration && NothingLeft(w, 0)))
      then Says(w, e, GoneDark(Shown(w), Activity))
      else if !w.m.paused && id == w.p.dim && MayTimeOut(w.m) then Says(w, e, Shown(w).(light := DimLight))
      else SaysNothing(w, e)
  {
    hide Shown, Served, NothingLeft, MayTimeOut;
  }

  lemma AlarmHeard(w: World, id: AlarmId)
    requires Inv(w) && id in w.p.clock.fired
    ensures Follows(w, AlarmEvent(id), w.HandleAlarm(id))
  {
    hide Inv, Plan.Valid, World.HandleAlarm, World.ExpirationAlarm, World.OffAlarm, World.SuspendAlarm;
    hide World.ProximityAlarm, World.DimAlarm, World.LongPressAlarm, NothingLeft, MayTimeOut;
    hide ScreenAfter, ServicesAfter, Shown, Served, GoneDark;
    AlarmMakes(w, id);
    SoundPlan(w);
    AlarmSlots(w.p, id);
    AlarmSays(w, id);
    if id == w.p.off { OffAlarmHeard(w); }
    else if id == w.p.dim { DimAlarmHeard(w); }
    else if id == w.p.expiration { ExpirationHeard(w); }
    else { SmallAlarmsHeard(w); }
  }

  lemma DeliveredHeard(w: World, id: AlarmId)
    requires Follows(w, AlarmEvent(id), w.HandleAlarm(id))
    ensures Follows(w, AlarmEvent(id), Step(w, AlarmEvent(id)))
  {
    hide ScreenAfter, ServicesAfter, Shown, Served, World.HandleAlarm;
    SameLog(w.HandleAlarm(id), Step(w, AlarmEvent(id)));
  }

  lemma RestHeard(w: World, e: Event)
    requires e.SetLidBehavior? || e.SetCriticalPowerBehavior? || e.TimePasses? || e.AlarmFires?
    ensures Follows(w, e, Step(w, e))
  {
    hide Shown, Served;
    SameLog(w, Step(w, e));
  }

  // ---------- Every event ----------

  lemma ActiveHeard(w: World, e: Event)
    requires w.m.display != UnknownMode && !w.m.paused && !ReachesPaused(e)
    ensures Follows(w, e, Step(w, e))
  {
    hide Follows, World.HandleActiveCall, World.HandleLidClosed, World.HandleLidOpen, World.HandlePowerButtonPress;
    hide World.HandlePowerButtonRelease, World.HandlePowerSourceChange, World.HandlePowerSourceCritical;
    hide World.HandleProximityFar, World.HandleProximityNear, World.HandleUserActivityChangingPowerState;
    hide World.HandleUserActivityExtendingPowerState, World.HandleSystemResume, World.Start, World.Pause;
    match e
    case ActiveCall(far) => ActiveCallHeard(w, far);
    case LidClosed(x) => LidClosedHeard(w, x);
    case LidOpen => LidOpenHeard(w);
    case PowerButtonPress => PressHeard(w);
    case PowerButtonRelease => ReleaseHeard(w);
    case PowerSourceChange(b, far) => PowerSourceHeard(w, b, far);
    case PowerSourceCritical => CriticalHeard(w);
    case ProximityFar => ProximityFarHeard(w);
    case ProximityNear => ProximityNearHeard(w);
    case ActivityChanging(far) => ActivityHeard(w, far);
    case ActivityExtending => ActivityHeard(w, true);
    case SystemResume => SwitchHeard(w);
    case Starting(b) => StartHeard(w, b);
    case Pausing => PauseHeard(w);
    case _ =>
  }

  lemma NotificationHeard(w: World, far: bool)
    requires w.m.display != UnknownMode
    ensures Follows(w, NewNotification(far), w.HandleNotification(far))
  {
    hide Follows, World.HandleNotification;
    if w.m.paused { PausedNotificationHeard(w, far); } else { NewNotificationHeard(w, far); }
  }

  lemma ClientCallHeard(w: World, e: Event)
    requires w.m.display != UnknownMode && ClientEvent(e)
    ensures Follows(w, e, Step(w, e))
  {
    hide Follows, World.HandleNoActiveCall, World.HandleEnableInactivityTimeout;
    hide World.HandleDisableInactivityTimeout, World.HandleSetInactivityBehavior, World.HandleNoNotification;
    hide World.HandleNotification;
    match e
    case NoActiveCall(far) => NoActiveCallHeard(w, far);
    case EnableInactivityTimeout => EnableTimeoutHeard(w);
    case DisableInactivityTimeout => DisableTimeoutHeard(w);
    case SetInactivityBehavior(a, s, t) => BehaviorHeard(w, a, s, t);
    case NoNotification => NoNotificationHeard(w);
    case NewNotification(far) => NotificationHeard(w, far);
    case _ =>
  }

  lemma ClientHeard(w: World, e: Event)
    requires Inv(w) && Possible(w, e) && ReachesPaused(e) && w.m.display != UnknownMode
    ensures Follows(w, e, Step(w, e))
  {
    hide Inv, Follows, World.HandleNoActiveCall, World.HandleEnableInactivityTimeout;
    hide World.HandleDisableInactivityTimeout, World.HandleSetInactivityBehavior, World.HandleNoNotification;
    hide World.HandleNotification, World.HandleSetLidBehavior, World.HandleSetCriticalPowerBehavior;
    hide World.HandleSetNormalBrightnessValue, World.HandleAutobrightness, World.HandleAllowSuspend;
    hide World.HandleDisallowSuspend, World.HandleTurnOnDisplay, World.HandleTurnOffDisplay;
    hide World.HandleAlarm, World.Resume;
    if ClientEvent(e) {
      ClientCallHeard(w, e);
    } else {
      match e
      case AlarmEvent(id) =>
        AlarmHeard(w, id);
        DeliveredHeard(w, id);
      case SetNormalBrightness'(v) => BrightnessValueHeard(w, v);
      case Autobrightness(b) => AutobrightnessHeard(w, b);
      case AllowSuspend => AllowSuspendHeard(w);
      case DisallowSuspend => DisallowSuspendHeard(w);
      case TurnDisplayOn => SwitchHeard(w);
      case TurnDisplayOff => SwitchOffHeard(w);
      case Resuming => ResumeHeard(w);
      case _ => RestHeard(w, e);
    }
  }

  /** What every possible event makes of the devices. */
  lemma EventHeard(w: World, e: Event)
    requires Inv(w) && Possible(w, e)
    ensures Shown(Step(w, e)) == ScreenAfter(w, e) && Served(Step(w, e)) == ServicesAfter(w, e)
  {
    hide ProperLog, Plan.Valid, ScreenAfter, ServicesAfter, Shown, Served, Step;
    if ReachesPaused(e) { ClientHeard(w, e); } else { ActiveHeard(w, e); }
  }

  // ---------- Every run ----------

  /** The screen is as the machine's display. */
  predicate ScreenAgrees(m: Machine, s: Screen) {
    var on := m.display == On;
    && s.external == s.interactive == s.notice.SaidOn? == on
    && s.internal == (on && !m.lidClosed)
    && s.fullPower == (on || m.reason == Proximity)
    && (on && !m.lidClosed ==> s.light == NormalLight || s.light == DimLight)
    && (!on ==> s.light == OffLight || s.light == NoLight)
    && (!on ==> s.notice == SaidOff(m.reason) || s.notice == NoNotice)
  }

  /** The services are as the machine's settings. */
  predicate ServicesAgree(m: Machine, s: Services) {
    && (s.handlers != Untouched ==> (s.handlers == Allowed <==> m.paused))
    && (s.automatic ==> m.autobrightness && !m.paused)
    && (s.value.Set? && !m.paused ==> s.value == Set(m.brightness))
  }

  datatype Controls = Controls(lidClosed: bool, paused: bool, inCall: bool, brightness: real, autobrightness: bool)

  function ControlsOf(m: Machine): Controls {
    Controls(m.lidClosed, m.paused, m.proximityUntilDisabled, m.brightness, m.autobrightness)
  }

  /** What the machine remembers of lid, pause, calls and brightness. */
  function ControlsAfter(m: Machine, e: Event): Controls {
    var c := ControlsOf(m);
    match e
    case LidClosed(_) => c.(lidClosed := true)
    case LidOpen => c.(lidClosed := false)
    case ActiveCall(_) => c.(inCall := true)
    case NoActiveCall(_) => c.(inCall := false)
    case Pausing => c.(paused := true)
    case Resuming => c.(paused := false)
    case SetNormalBrightness'(v) => c.(brightness := v)
    case Autobrightness(enabled) => c.(autobrightness := enabled)
    case _ => c
  }

  lemma SwitchControls(w: World, reason: Reason)
    ensures ControlsOf(w.TurnOn(reason).m) == ControlsOf(w.m)
      && ControlsOf(w.TurnOnReduced(reason).m) == ControlsOf(w.m)
    ensures ControlsOf(w.TurnOff(reason).m) == ControlsOf(w.m)
  {
    hide World.TurnOn, World.TurnOnReduced, World.TurnOff;
    LightMachine(w, reason);
    OffMachine(w, reason);
  }

  lemma ExtendControls(w: World, reason: Reason)
    ensures ControlsOf(w.Extend().m) == ControlsOf(w.m) && ControlsOf(w.ExtendFor(reason).m) == ControlsOf(w.m)
  {
    hide World.Extend, World.ExtendFor;
    ExtendMachine(w, reason);
  }

  lemma ScheduleControls(w: World)
    ensures ControlsOf(w.ScheduleNormalSuspend().m) == ControlsOf(w.m)
  {
    hide Plan.NormalSuspend;
  }

  predicate Moves(w: World, e: Event, v: World) {
    ControlsOf(v.m) == ControlsAfter(w.m, e)
  }

  /** No other event moves any of them. */
  lemma StaysPut(w: World, e: Event, v: World)
    requires ControlsOf(v.m) == ControlsOf(w.m)
    requires !e.ActiveCall? && !e.NoActiveCall? && !e.LidClosed? && !e.LidOpen? && !e.Pausing? && !e.Resuming?
    requires !e.SetNormalBrightness'? && !e.Autobrightness?
    ensures Moves(w, e, v)
  {
  }

  lemma ActiveCallMoves(w: World, far: bool)
    requires !w.m.paused
    ensures Moves(w, ActiveCall(far), w.HandleActiveCall(far))
  {
    hide World.HandleActiveCall;
    ActiveCallMakes(w, far);
  }

  lemma NoActiveCallMoves(w: World, far: bool)
    requires w.m.display != UnknownMode
    ensures Moves(w, NoActiveCall(far), w.HandleNoActiveCall(far))
  {
    hide World.HandleNoActiveCall;
    if w.m.display == On || far { NoActiveCallMakes(w, far); } else { NoActiveCallInTheDarkMakes(w); }
  }

  lemma EnableTimeoutMoves(w: World)
    ensures Moves(w, EnableInactivityTimeout, w.HandleEnableInactivityTimeout())
  {
    hide World.HandleEnableInactivityTimeout, Unholds;
    EnableTimeoutMakes(w);
  }

  lemma DisableTimeoutMoves(w: World)
    requires w.m.display != UnknownMode
    ensures Moves(w, DisableInactivityTimeout, w.HandleDisableInactivityTimeout())
  {
    hide World.HandleDisableInactivityTimeout;
    DisableTimeoutMakes(w);
  }

  lemma BehaviorMoves(w: World, action: PowerAction, supply: PowerSupply, timeout: int)
    ensures Moves(w, SetInactivityBehavior(action, supply, timeout),
      w.HandleSetInactivityBehavior(action, supply, timeout))
  {
    hide World.HandleSetInactivityBehavior, Replaced, InForce;
    if timeout <= 0 || (action != DisplayOff && action != SuspendSystem) {
      OtherBehaviorMakes(w, action, supply, timeout);
    } else if action == DisplayOff {
      OffBehaviorMakes(w, supply, timeout);
    } else {
      SuspendBehaviorMakes(w, supply, timeout);
    }
  }

  lemma LidClosedMoves(w: World, externalDisplays: bool)
    requires w.m.display != UnknownMode && !w.m.paused
    ensures Moves(w, LidClosed(externalDisplays), w.HandleLidClosed(externalDisplays))
  {
    hide World.HandleLidClosed;
    LidClosedMakes(w, externalDisplays);
  }

  lemma LidOpenMoves(w: World)
    requires !w.m.paused
    ensures Moves(w, LidOpen, w.HandleLidOpen())
  {
    hide World.HandleLidOpen;
    LidOpenMakes(w);
  }

  lemma NewNotificationMoves(w: World, far: bool)
    requires w.m.display != UnknownMode
    ensures Moves(w, NewNotification(far), w.HandleNotification(far))
  {
    hide World.HandleNotification;
    if w.m.display == On || far { NewNotificationMakes(w, far); } else { NewNotificationInTheDarkMakes(w); }
  }

  lemma NoNotificationMoves(w: World)
    ensures Moves(w, NoNotification, w.HandleNoNotification())
  {
    hide Moves, World.HandleNoNotification, NothingLeft;
    NoNotificationMakes(w);
    StaysPut(w, NoNotification, w.HandleNoNotification());
  }

  lemma PressedControls(w: World)
    ensures ControlsOf(w.m.(displayAtPress := w.m.display)) == ControlsOf(w.m)
  {
  }

  lemma PressMoves(w: World)
    ensures Moves(w, PowerButtonPress, w.HandlePowerButtonPress())
  {
    hide Moves, ControlsOf, World.ExtendFor, World.TurnOn, Plan.LongPress;
    var u := w.(m := w.m.(displayAtPress := w.m.display));
    PressedControls(w);
    ExtendControls(u, PowerButton);
    SwitchControls(u, PowerButton);
    StaysPut(w, PowerButtonPress, w.HandlePowerButtonPress());
  }

  lemma ReleaseMoves(w: World)
    ensures Moves(w, PowerButtonRelease, w.HandlePowerButtonRelease())
  {
    hide World.HandlePowerButtonRelease, TurnsOff;
    ReleaseMakes(w);
  }

  lemma PowerSourceMoves(w: World, battery: bool, far: bool)
    ensures Moves(w, PowerSourceChange(battery, far), w.HandlePowerSourceChange(battery, far))
  {
    hide Moves, World.ExtendFor, World.TurnOnReduced, World.ScheduleNormalSuspend;
    var u := w.OnBattery(battery);
    ExtendControls(u, Activity);
    SwitchControls(u, Notification);
    ScheduleControls(
      if w.m.display == On then u.ExtendFor(Activity) else if far then u.TurnOnReduced(Notification) else u);
    StaysPut(w, PowerSourceChange(battery, far), w.HandlePowerSourceChange(battery, far));
  }

  lemma CriticalMoves(w: World)
    ensures Moves(w, PowerSourceCritical, w.HandlePowerSourceCritical())
  {
    hide World.HandlePowerSourceCritical;
    CriticalMakes(w);
  }

  lemma TwoReasonsControls(w: World)
    ensures ControlsOf(w.DisableProximity(UntilFarOrExpiration).DisableProximity(UntilFarOrTimeout).m)
      == ControlsOf(w.m)
  {
    hide World.DisableProximity;
    TwoReasonsEnd(w);
  }

  lemma ProximityFarMoves(w: World)
    ensures Moves(w, ProximityFar, w.HandleProximityFar())
  {
    hide Moves, ControlsOf, World.DisableProximity, World.TurnOn, World.TurnOnReduced;
    hide Machine.ProximityOnlyUntilExpiration;
    TwoReasonsControls(w);
    SwitchControls(w.DisableProximity(UntilFarOrExpiration).DisableProximity(UntilFarOrTimeout), Proximity);
    StaysPut(w, ProximityFar, w.HandleProximityFar());
  }

  lemma ProximityNearMoves(w: World)
    ensures Moves(w, ProximityNear, w.HandleProximityNear())
  {
    hide World.HandleProximityNear;
    ProximityNearMakes(w);
  }

  lemma ActivityMoves(w: World, far: bool)
    ensures Moves(w, ActivityChanging(far), w.HandleUserActivityChangingPowerState(far))
    ensures Moves(w, ActivityExtending, w.HandleUserActivityExtendingPowerState())
  {
    hide Moves, ControlsOf, World.ExtendFor, World.TurnOn;
    ExtendControls(w, Activity);
    SwitchControls(w, Activity);
    StaysPut(w, ActivityChanging(far), w.HandleUserActivityChangingPowerState(far));
    StaysPut(w, ActivityExtending, w.HandleUserActivityExtendingPowerState());
  }

  lemma BrightnessValueMoves(w: World, value: real)
    ensures Moves(w, SetNormalBrightness'(value), w.HandleSetNormalBrightnessValue(value))
  {
    hide World.HandleSetNormalBrightnessValue;
    BrightnessValueMakes(w, value, true);
  }

  lemma AutobrightnessMoves(w: World, enabled: bool)
    ensures Moves(w, Autobrightness(enabled), w.HandleAutobrightness(enabled))
  {
    hide World.HandleAutobrightness;
    BrightnessValueMakes(w, 0.0, enabled);
  }

  lemma AllowSuspendMoves(w: World)
    ensures Moves(w, AllowSuspend, w.HandleAllowSuspend())
  {
    hide World.HandleAllowSuspend;
    AllowSuspendMakes(w);
  }

  lemma DisallowSuspendMoves(w: World)
    ensures Moves(w, DisallowSuspend, w.HandleDisallowSuspend())
  {
    hide World.HandleDisallowSuspend;
    DisallowSuspendMakes(w);
  }

  lemma SwitchMoves(w: World)
    ensures Moves(w, TurnDisplayOn, w.HandleTurnOnDisplay()) && Moves(w, TurnDisplayOff, w.HandleTurnOffDisplay())
    ensures Moves(w, SystemResume, w.HandleSystemResume())
  {
    hide World.TurnOn, World.TurnOff, ControlsOf, Moves;
    SwitchControls(w, PowerButton);
    SwitchControls(w, Activity);
    StaysPut(w, TurnDisplayOn, w.TurnOn(PowerButton));
    StaysPut(w, TurnDisplayOff, w.TurnOff(PowerButton));
    StaysPut(w, SystemResume, w.TurnOn(Activity));
  }

  lemma StartMoves(w: World, battery: bool)
    requires !w.m.paused
    ensures Moves(w, Starting(battery), w.Start(battery))
  {
    hide World.Start, Supplied;
    StartMakes(w, battery);
  }

  lemma PauseMoves(w: World)
    ensures Moves(w, Pausing, w.Pause())
  {
    hide World.Pause;
    PauseMakes(w);
  }

  lemma ResumeMoves(w: World)
    ensures Moves(w, Resuming, w.Resume())
  {
    hide World.Resume;
    ResumeMakes(w);
  }

  lemma SmallAlarmControls(w: World)
    ensures ControlsOf(w.LongPressAlarm().m) == ControlsOf(w.DimAlarm().m) == ControlsOf(w.m)
    ensures ControlsOf(w.ProximityAlarm().m) == ControlsOf(w.m)
  {
    hide World.LongPressAlarm, World.DimAlarm, World.ProximityAlarm;
    SmallAlarmsMake(w);
  }

  lemma SuspendAlarmControls(w: World)
    ensures ControlsOf(w.SuspendAlarm().m) == ControlsOf(w.m)
  {
    hide World.SuspendAlarm, MayTimeOut;
    SuspendAlarmMakes(w);
  }

  lemma LastAlarmControls(w: World)
    ensures ControlsOf(w.OffAlarm().m) == ControlsOf(w.ExpirationAlarm().m) == ControlsOf(w.m)
  {
    hide World.OffAlarm, World.ExpirationAlarm, MayTimeOut, NothingLeft;
    OffAlarmMakes(w);
    ExpirationMakes(w);
  }

  lemma AlarmMoves(w: World, id: AlarmId)
    requires Inv(w) && id in w.p.clock.fired
    ensures Moves(w, AlarmEvent(id), w.HandleAlarm(id))
  {
    hide Inv, Plan.Valid, World.HandleAlarm, World.ExpirationAlarm, World.OffAlarm, World.SuspendAlarm;
    hide World.ProximityAlarm, World.DimAlarm, World.LongPressAlarm, ControlsOf, Moves;
    AlarmMakes(w, id);
    SoundPlan(w);
    AlarmSlots(w.p, id);
    SmallAlarmControls(w);
    SuspendAlarmControls(w);
    LastAlarmControls(w);
    StaysPut(w, AlarmEvent(id), w.HandleAlarm(id));
  }

  lemma RestMoves(w: World, e: Event)
    requires e.SetLidBehavior? || e.SetCriticalPowerBehavior? || e.TimePasses? || e.AlarmFires?
    ensures Moves(w, e, Step(w, e))
  {
  }

  lemma DeliveredMoves(w: World, id: AlarmId)
    requires Moves(w, AlarmEvent(id), w.HandleAlarm(id))
    ensures Moves(w, AlarmEvent(id), Step(w, AlarmEvent(id)))
  {
    hide ControlsAfter, World.HandleAlarm;
  }

  lemma ActiveMoves(w: World, e: Event)
    requires w.m.display != UnknownMode && !w.m.paused && !ReachesPaused(e)
    ensures Moves(w, e, Step(w, e))
  {
    hide Moves, World.HandleActiveCall, World.HandleLidClosed, World.HandleLidOpen, World.HandlePowerButtonPress;
    hide World.HandlePowerButtonRelease, World.HandlePowerSourceChange, World.HandlePowerSourceCritical;
    hide World.HandleProximityFar, World.HandleProximityNear, World.HandleUserActivityChangingPowerState;
    hide World.HandleUserActivityExtendingPowerState, World.HandleSystemResume, World.Start, World.Pause;
    match e
    case ActiveCall(far) => ActiveCallMoves(w, far);
    case LidClosed(x) => LidClosedMoves(w, x);
    case LidOpen => LidOpenMoves(w);
    case PowerButtonPress => PressMoves(w);
    case PowerButtonRelease => ReleaseMoves(w);
    case PowerSourceChange(b, far) => PowerSourceMoves(w, b, far);
    case PowerSourceCritical => CriticalMoves(w);
    case ProximityFar => ProximityFarMoves(w);
    case ProximityNear => ProximityNearMoves(w);
    case ActivityChanging(far) => ActivityMoves(w, far);
    case ActivityExtending => ActivityMoves(w, true);
    case SystemResume => SwitchMoves(w);
    case Starting(b) => StartMoves(w, b);
    case Pausing => PauseMoves(w);
    case _ =>
  }

  lemma ClientCallMoves(w: World, e: Event)
    requires w.m.display != UnknownMode && ClientEvent(e)
    ensures Moves(w, e, Step(w, e))
  {
    hide Moves, World.HandleNoActiveCall, World.HandleEnableInactivityTimeout;
    hide World.HandleDisableInactivityTimeout, World.HandleSetInactivityBehavior, World.HandleNoNotification;
    hide World.HandleNotification;
    match e
    case NoActiveCall(far) => NoActiveCallMoves(w, far);
    case EnableInactivityTimeout => EnableTimeoutMoves(w);
    case DisableInactivityTimeout => DisableTimeoutMoves(w);
    case SetInactivityBehavior(a, s, t) => BehaviorMoves(w, a, s, t);
    case NoNotification => NoNotificationMoves(w);
    case NewNotification(far) => NewNotificationMoves(w, far);
    case _ =>
  }

  lemma ClientMoves(w: World, e: Event)
    requires Inv(w) && Possible(w, e) && ReachesPaused(e) && w.m.display != UnknownMode
    ensures Moves(w, e, Step(w, e))
  {
    hide Inv, Moves, World.HandleNoActiveCall, World.HandleEnableInactivityTimeout;
    hide World.HandleDisableInactivityTimeout, World.HandleSetInactivityBehavior, World.HandleNoNotification;
    hide World.HandleNotification, World.HandleSetLidBehavior, World.HandleSetCriticalPowerBehavior;
    hide World.HandleSetNormalBrightnessValue, World.HandleAutobrightness, World.HandleAllowSuspend;
    hide World.HandleDisallowSuspend, World.HandleTurnOnDisplay, World.HandleTurnOffDisplay;
    hide World.HandleAlarm, World.Resume;
    if ClientEvent(e) {
      ClientCallMoves(w, e);
    } else {
      match e
      case AlarmEvent(id) =>
        AlarmMoves(w, id);
        DeliveredMoves(w, id);
      case SetNormalBrightness'(v) => BrightnessValueMoves(w, v);
      case Autobrightness(b) => AutobrightnessMoves(w, b);
      case AllowSuspend => AllowSuspendMoves(w);
      case DisallowSuspend => DisallowSuspendMoves(w);
      case TurnDisplayOn => SwitchMoves(w);
      case TurnDisplayOff => SwitchMoves(w);
      case Resuming => ResumeMoves(w);
      case _ => RestMoves(w, e);
    }
  }

  /** Nothing else moves them. */
  lemma EventMoves(w: World, e: Event)
    requires Inv(w) && Possible(w, e)
    ensures ControlsOf(Step(w, e).m) == ControlsAfter(w.m, e)
  {
    hide ProperLog, Plan.Valid, ControlsOf, ControlsAfter, Step;
    if ReachesPaused(e) { ClientMoves(w, e); } else { ActiveMoves(w, e); }
  }

  /** A dark display has nothing scheduled that would dim it. */
  lemma DarkIsNotDimmed(w: World, e: Event)
    requires Inv(w) && Possible(w, e) && Dims(w, e)
    ensures w.m.display == On
  {
    hide ProperLog, MayTimeOut;
  }

  lemma KeepsDark(w: World, e: Event, v: World)
    requires Darkens(w, e)
    requires ScreenAgrees(w.m, Shown(w)) && Shown(v) == GoneDark(Shown(w), DarkReason(e))
    requires v.m.display == Off && v.m.reason == DarkReason(e)
    ensures ScreenAgrees(v.m, Shown(v))
  {
    hide Shown;
  }

  lemma KeepsLit(w: World, e: Event, v: World)
    requires ScreenAgrees(w.m, Shown(w)) && Lights(w, e) && v.m.display == On
    requires Shown(v) == LitUp(Shown(w), LidClosedAfter(w, e), LightReason(e))
    requires v.m.lidClosed == LidClosedAfter(w, e)
    ensures ScreenAgrees(v.m, Shown(v))
  {
    hide Shown, Lights, LightReason;
    if e.LidOpen? || e.LidClosed? { LidLights(w, e); }
  }

  lemma LidLights(w: World, e: Event)
    requires Lights(w, e) && (e.LidOpen? || e.LidClosed?)
    ensures w.m.display == Off && e.LidOpen?
  {
  }

  /** With the display as it was, the lid moves only where the panels follow. */
  lemma LidMoves(w: World, e: Event)
    requires Inv(w) && Possible(w, e) && !Lights(w, e) && !Darkens(w, e)
    ensures e.LidOpen? ==> w.m.display == On && !w.m.paused
    ensures e.LidClosed? && w.m.display == On ==> e == LidClosed(true)
  {
    hide ProperLog, Plan.Valid;
  }

  lemma KeepsShown(w: World, e: Event, v: World)
    requires ScreenAgrees(w.m, Shown(w)) && Shown(v) == ScreenAfter(w, e)
    requires !Lights(w, e) && !Darkens(w, e) && (Dims(w, e) ==> w.m.display == On)
    requires e.LidOpen? ==> w.m.display == On && !w.m.paused
    requires e.LidClosed? && w.m.display == On ==> e == LidClosed(true)
    requires w.m.display == v.m.display != UnknownMode && (w.m.display == Off ==> v.m.reason == w.m.reason)
    requires v.m.lidClosed == LidClosedAfter(w, e)
    ensures ScreenAgrees(v.m, Shown(v))
  {
    hide Shown, Lights, Darkens, MayTimeOut, LitUp, GoneDark;
  }

  lemma StepKeepsScreen(w: World, e: Event)
    requires Inv(w) && Possible(w, e) && ScreenAgrees(w.m, Shown(w))
    ensures ScreenAgrees(Step(w, e).m, Shown(Step(w, e)))
  {
    hide Inv, Shown, Step, Lights, Darkens, Possible, ScreenAgrees, ScreenAfter, DisplayAfter, ReasonLeft;
    var v := Step(w, e);
    EventHeard(w, e);
    EventShows(w, e);
    EventMoves(w, e);
    LidAfter(w, e, v);
    if Lights(w, e) {
      LightsTell(w, e);
      KeepsLit(w, e, v);
    } else if Darkens(w, e) {
      DarknessTells(w, e);
      KeepsDark(w, e, v);
    } else {
      NothingTells(w, e);
      if Dims(w, e) { DarkIsNotDimmed(w, e); }
      LidMoves(w, e);
      KeepsShown(w, e, v);
    }
  }

  lemma LidAfter(w: World, e: Event, v: World)
    requires ControlsOf(v.m) == ControlsAfter(w.m, e)
    ensures v.m.lidClosed == LidClosedAfter(w, e)
  {
  }

  lemma LightsTell(w: World, e: Event)
    requires Lights(w, e)
    ensures DisplayAfter(w, e) == On
    ensures ScreenAfter(w, e) == LitUp(Shown(w), LidClosedAfter(w, e), LightReason(e))
  {
    hide Lights, Shown, LightReason;
  }

  lemma DarknessTells(w: World, e: Event)
    requires !Lights(w, e) && Darkens(w, e)
    ensures DisplayAfter(w, e) == Off && ReasonLeft(w, e) == DarkReason(e)
    ensures ScreenAfter(w, e) == GoneDark(Shown(w), DarkReason(e))
  {
    hide Lights, Darkens, Shown, DarkReason;
  }

  lemma NothingTells(w: World, e: Event)
    requires Inv(w) && !Lights(w, e) && !Darkens(w, e)
    ensures DisplayAfter(w, e) == w.m.display != UnknownMode
    ensures w.m.display == Off ==> ReasonLeft(w, e) == w.m.reason
  {
    hide Lights, Darkens, ProperLog, Plan.Valid;
  }

  lemma KeepsServices(w: World, e: Event, v: World)
    requires ServicesAgree(w.m, Served(w)) && Served(v) == ServicesAfter(w, e)
    requires w.m.paused ==> ReachesPaused(e)
    requires ControlsOf(v.m) == ControlsAfter(w.m, e)
    ensures ServicesAgree(v.m, Served(v))
  {
    hide Served, Configurable.Get;
  }

  lemma StepKeepsServices(w: World, e: Event)
    requires Inv(w) && Possible(w, e) && ServicesAgree(w.m, Served(w))
    ensures ServicesAgree(Step(w, e).m, Served(Step(w, e)))
  {
    hide Inv, Served, Step, ServicesAgree, ServicesAfter, ControlsAfter, ControlsOf, ReachesPaused;
    EventHeard(w, e);
    EventMoves(w, e);
    KeepsServices(w, e, Step(w, e));
  }

  /** In every reachable state the devices are as the machine says. */
  lemma {:induction false} RunKeepsDevices(w: World, es: seq<Event>)
    requires Inv(w) && PossibleRun(w, es)
    requires ScreenAgrees(w.m, Shown(w)) && ServicesAgree(w.m, Served(w))
    ensures var v := Run(w, es);
      Inv(v) && ScreenAgrees(v.m, Shown(v)) && ServicesAgree(v.m, Served(v))
    decreases |es|
  {
    hide Inv, Step, Possible, ScreenAgrees, ServicesAgree, Shown, Served;
    if es != [] {
      StepKeeps(w, es[0]);
      StepKeepsScreen(w, es[0]);
      StepKeepsServices(w, es[0]);
      RunKeepsDevices(Step(w, es[0]), es[1..]);
    }
  }

  /** From start-up on. */
  lemma DevicesFollowMachine(o: Options, es: seq<Event>)
    requires o.reducedOffTimeout > 0 && PossibleRun(Initial(o), es)
    ensures var v := Run(Initial(o), es);
      ScreenAgrees(v.m, Shown(v)) && ServicesAgree(v.m, Served(v))
  {
    InitialHolds(o);
    RunKeepsDevices(Initial(o), es);
  }

  // ---------- Actions that were set are taken ----------

  /** The critical action is the one that was set last, if it was an accepted one. */
  lemma CriticalActionIsTaken(w: World, action: PowerAction)
    requires Inv(w) && !w.m.paused
    ensures var v := Step(Step(w, SetCriticalPowerBehavior(action)), PowerSourceCritical);
      && (action == PowerOff ==> Served(v) == Served(w).(powerOffs := Served(w).powerOffs + 1))
      && (action == SuspendSystem ==> Served(v) == Served(w).(criticalSuspends := Served(w).criticalSuspends + 1))
      && (action != PowerOff && action != SuspendSystem ==> v == Step(w, PowerSourceCritical))
  {
    hide Inv, Served, World.HandleSetCriticalPowerBehavior, World.HandlePowerSourceCritical;
    var u := Step(w, SetCriticalPowerBehavior(action));
    StepKeeps(w, SetCriticalPowerBehavior(action));
    EventHeard(w, SetCriticalPowerBehavior(action));
    EventMoves(w, SetCriticalPowerBehavior(action));
    CriticalBehaviorMakes(w, action);
    EventHeard(u, PowerSourceCritical);
  }

  /** Closing the lid without external displays suspends exactly if that was set for the supply in use. */
  lemma LidActionIsTaken(w: World, action: PowerAction, supply: PowerSupply)
    requires Inv(w) && !w.m.paused && (action == NoAction || action == SuspendSystem)
    ensures var v := Step(Step(w, SetLidBehavior(action, supply)), LidClosed(false));
      var inUse := w.m.lidAction.isOnBattery == supply.Battery?;
      Served(v).lidSuspends == Served(w).lidSuspends
        + (if (if inUse then action else w.m.lidAction.Get()) == SuspendSystem then 1 else 0)
  {
    hide Inv, Served, World.HandleSetLidBehavior, World.HandleLidClosed;
    var u := Step(w, SetLidBehavior(action, supply));
    StepKeeps(w, SetLidBehavior(action, supply));
    EventHeard(w, SetLidBehavior(action, supply));
    EventMoves(w, SetLidBehavior(action, supply));
    LidBehaviorMakes(w, action, supply);
    EventHeard(u, LidClosed(false));
  }
}
