/** What every event makes of the machine, told field by field and cause by cause, independently of
    how the handlers are put together. */
module PowerOutcomes {
  import opened Alarms
  import opened Plans
  import opened PowerModel
  import opened PowerInvariants
  import opened PowerChanges

  // ---------- The display ----------

  /** The event lights the display, or lights it again. */
  predicate Lights(w: World, e: Event) {
    var dark := w.m.display == Off;
    match e
    case ActiveCall(far) => dark && far
    case NoActiveCall(far) => dark && far && !w.m.paused
    case DisableInactivityTimeout => dark && !w.m.paused
    case LidOpen => dark
    case NewNotification(far) => dark && far && !w.m.paused
    case PowerButtonPress => dark
    case PowerSourceChange(_, far) => dark && far
    case ProximityFar => dark
    case ActivityChanging(far) => dark && far
    case TurnDisplayOn => !w.m.paused
    case SystemResume => true
    case Starting(_) => w.m.options.displayOnAtStartup
    case Resuming => true
    case _ => false
  }

  function LightReason(e: Event): Reason {
    match e
    case ActiveCall(_) => Call
    case NoActiveCall(_) => CallDone
    case NewNotification(_) => Notification
    case PowerSourceChange(_, _) => Notification
    case PowerButtonPress => PowerButton
    case TurnDisplayOn => PowerButton
    case ProximityFar => Proximity
    case LidOpen => Activity
    case ActivityChanging(_) => Activity
    case SystemResume => Activity
    case _ => UnknownReason
  }

  /** Inactivity may turn the display off: nobody holds that off, or it is lit for a notification or a
      call. */
  predicate MayTimeOut(m: Machine) {
    (m.clientAllows && m.notificationAllows) || m.reason == Notification || m.reason == Call
  }

  /** The end of a notification lifts the last hold on a display that has no schedule, and gives it none:
      the new off time would not be later than the recorded one. */
  predicate NothingLeft(w: World, t: int) {
    && w.m.display == On && w.m.clientAllows && !w.m.notificationAllows
    && w.p.kind == NoTimeout && !Later(w.p.clock.now + t, w.p.offTime)
  }

  /** The event turns the display off, or off again. */
  predicate Darkens(w: World, e: Event) {
    && !w.m.paused
    && match e
       case TurnDisplayOff => true
       case ProximityNear => w.m.display == On
       case LidClosed(externalDisplays) => w.m.display == On && !externalDisplays
       case PowerButtonRelease =>
         !w.m.longPressDetected && w.m.displayAtPress == On && !w.m.options.powerButtonIsActivity
       case NoNotification => NothingLeft(w, w.m.options.postNotificationOffTimeout)
       case AlarmEvent(id) =>
         || (id == w.p.off && MayTimeOut(w.m))
         || (id == w.p.expiration && NothingLeft(w, 0))
       case _ => false
  }

  function DarkReason(e: Event): Reason {
    match e
    case TurnDisplayOff => PowerButton
    case PowerButtonRelease => PowerButton
    case ProximityNear => Proximity
    case LidClosed(_) => UnknownReason
    case _ => Activity
  }

  /** Activity on a lit display is its new reason. */
  predicate Touches(w: World, e: Event) {
    && w.m.display == On
    && (e.LidOpen? || e.PowerSourceChange? || e.ActivityChanging? || e.ActivityExtending?
        || (e.PowerButtonPress? && w.m.options.powerButtonIsActivity))
  }

  function DisplayAfter(w: World, e: Event): DisplayMode {
    if Lights(w, e) then On else if Darkens(w, e) then Off else w.m.display
  }

  function ReasonLeft(w: World, e: Event): Reason {
    if Lights(w, e) then LightReason(e)
    else if Darkens(w, e) then DarkReason(e)
    else if Touches(w, e) then if e.PowerButtonPress? then PowerButton else Activity
    else w.m.reason
  }

  // ---------- Settings ----------

  /** A setting per power supply: one of them is replaced, or the supply in use changes. */
  function Replaced<T>(c: Configurable<T>, supply: PowerSupply, value: T): Configurable<T> {
    match supply
    case Battery => Configurable(value, c.onLine, c.isOnBattery)
    case LinePower => Configurable(c.onBattery, value, c.isOnBattery)
  }

  function Supplied<T>(c: Configurable<T>, battery: bool): Configurable<T> {
    Configurable(c.onBattery, c.onLine, battery)
  }

  /** All settings that depend on the power supply. */
  function OnSupply(m: Machine, battery: bool): Machine {
    m.(offTimeout := Supplied(m.offTimeout, battery),
       suspendTimeout := Supplied(m.suspendTimeout, battery),
       lidAction := Supplied(m.lidAction, battery))
  }

  // ---------- The helpers ----------

  lemma OffMachine(w: World, reason: Reason)
    ensures w.TurnOff(reason).m == if w.m.paused then w.m else w.m.(display := Off, reason := reason)
  {
    hide Outputs.Record, Plan.CancelOff;
  }

  lemma OnMachine(w: World, reason: Reason)
    ensures w.TurnOnWithoutTimeout(reason).m == if w.m.paused then w.m else w.m.(display := On, reason := reason)
  {
    hide Outputs.Record;
  }

  lemma ScheduleMachine(w: World)
    ensures w.ScheduleNormal().m == w.m.(suspendPending := false)
    ensures w.ScheduleNormalSuspend().m == w.m.(suspendPending := false)
  {
    hide Plan.NormalOff, Plan.NormalSuspend;
  }

  /** These schedule and do nothing else. */
  lemma PlanOnly(w: World)
    ensures w.ScheduleReduced().m == w.m && w.SchedulePostNotification().m == w.m && w.ScheduleImmediate().m == w.m
    ensures w.ScheduleProximityDisable().m == w.m && w.ScheduleExpiration().m == w.m
  {
    hide Plan.Postpone, Plan.ProximityDisable, Plan.Expiration;
  }

  lemma LightMachine(w: World, reason: Reason)
    ensures var m := if w.m.paused then w.m else w.m.(display := On, reason := reason);
      w.TurnOn(reason).m == m.(suspendPending := false) && w.TurnOnReduced(reason).m == m
  {
    hide World.TurnOnWithoutTimeout, World.ScheduleNormal, World.ScheduleReduced;
    OnMachine(w, reason);
    ScheduleMachine(w.TurnOnWithoutTimeout(reason));
    PlanOnly(w.TurnOnWithoutTimeout(reason));
  }

  lemma BrightnessMachine(w: World)
    ensures w.Brighten().m == w.m && w.Dim().m == w.m
  {
    hide Outputs.Record;
  }

  lemma ExtendMachine(w: World, reason: Reason)
    ensures w.Extend().m == w.m.(suspendPending := false)
    ensures w.ExtendFor(reason).m == w.m.(suspendPending := false, reason := reason)
  {
    hide World.Brighten, World.ScheduleNormal;
    BrightnessMachine(w);
    ScheduleMachine(w.Brighten());
  }

  lemma SensorMachine(w: World, e: Enablement)
    ensures w.EnableProximity(e).m == w.m.Enable(e, true) && w.DisableProximity(e).m == w.m.Enable(e, false)
  {
    hide Machine.Enable, Machine.ProximityEnabled;
    EnableShape(w, e);
    DisableShape(w, e);
  }

  lemma SuspendMachine(w: World)
    ensures w.SuspendWhenAllowed().m == w.m.(suspendPending := !w.m.suspendAllowed)
  {
    hide Outputs.Record;
  }

  /** Once the last hold is lifted, a display without schedule goes off after a notification. */
  lemma AllowNotificationsMachine(w: World)
    ensures var off := !w.m.notificationAllows && w.m.clientAllows && w.m.display == On && w.p.kind == NoTimeout;
      w.AllowTimeout(Notifications).m ==
        if off && !w.m.paused then w.m.(notificationAllows := true, display := Off, reason := Activity)
        else w.m.(notificationAllows := true)
  {
    hide World.TurnOff, World.ScheduleNormal;
    OffMachine(w.(m := w.m.Allow(Notifications, true)), Activity);
  }

  // ---------- What each handler makes of the machine ----------

  lemma ActiveCallMakes(w: World, far: bool)
    requires !w.m.paused
    ensures w.m.display == On ==>
      w.HandleActiveCall(far).m == w.m.(suspendPending := false, proximityUntilDisabled := true)
    ensures w.m.display != On && far ==>
      w.HandleActiveCall(far).m
        == w.m.(display := On, reason := Call, suspendPending := false, proximityUntilDisabled := true)
    ensures w.m.display != On && !far ==> w.HandleActiveCall(far).m == w.m.(proximityUntilDisabled := true)
  {
    hide World.Extend, World.TurnOn, World.EnableProximity;
    if w.m.display == On {
      ExtendMachine(w, Call);
      SensorMachine(w.Extend(), UntilDisabled);
    } else if far {
      LightMachine(w, Call);
      SensorMachine(w.TurnOn(Call), UntilDisabled);
    } else {
      SensorMachine(w, UntilDisabled);
    }
  }

  lemma NoActiveCallMakes(w: World, far: bool)
    requires w.m.display == On || far
    ensures w.m.display == On || w.m.paused ==>
      w.HandleNoActiveCall(far).m == w.m.(proximityUntilDisabled := false)
    ensures w.m.display != On && !w.m.paused ==>
      w.HandleNoActiveCall(far).m == w.m.(display := On, reason := CallDone, proximityUntilDisabled := false)
  {
    hide World.Brighten, World.TurnOnReduced, World.DisableProximity, World.ScheduleReduced;
    if w.m.display == On {
      BrightnessMachine(w);
      PlanOnly(w.Brighten());
      SensorMachine(w.Brighten().ScheduleReduced(), UntilDisabled);
    } else {
      LightMachine(w, CallDone);
      SensorMachine(w.TurnOnReduced(CallDone), UntilDisabled);
    }
  }

  lemma NoActiveCallInTheDarkMakes(w: World)
    requires w.m.display != On
    ensures w.HandleNoActiveCall(false).m
      == w.m.(proximityUntilFarOrTimeout := true, proximityUntilDisabled := false)
  {
    hide World.EnableProximity, World.DisableProximity, World.ScheduleProximityDisable;
    var u := w.EnableProximity(UntilFarOrTimeout);
    SensorMachine(w, UntilFarOrTimeout);
    PlanOnly(u);
    SensorMachine(u.ScheduleProximityDisable(), UntilDisabled);
  }

  lemma EnableTimeoutMakes(w: World)
    ensures Unholds(w.m) ==>
      w.HandleEnableInactivityTimeout().m == w.m.(clientAllows := true, suspendPending := false)
    ensures !Unholds(w.m) ==> w.HandleEnableInactivityTimeout().m == w.m.(clientAllows := true)
  {
    hide World.TurnOff, World.ScheduleNormal;
    ScheduleMachine(w.(m := w.m.Allow(Client, true)));
  }

  lemma DisableTimeoutMakes(w: World)
    ensures w.m.display == On || w.m.paused ==>
      w.HandleDisableInactivityTimeout().m == w.m.(clientAllows := false)
    ensures w.m.display != On && !w.m.paused ==>
      w.HandleDisableInactivityTimeout().m
        == w.m.(clientAllows := false, display := On, reason := UnknownReason)
  {
    hide World.Brighten, World.TurnOnWithoutTimeout;
    BrightnessMachine(w.DisallowTimeout(Client));
    OnMachine(w.DisallowTimeout(Client), UnknownReason);
  }

  lemma SetReplaces<T>(c: Configurable<T>, supply: PowerSupply, value: T)
    ensures c.Set(supply, value) == Replaced(c, supply, value)
  {
  }

  predicate InForce(w: World, supply: PowerSupply) {
    w.p.kind == Normal && w.m.offTimeout.isOnBattery == supply.Battery?
  }

  lemma OffBehaviorMakes(w: World, supply: PowerSupply, timeout: int)
    requires timeout > 0
    ensures w.HandleSetInactivityBehavior(DisplayOff, supply, timeout).m
      == w.m.(offTimeout := Replaced(w.m.offTimeout, supply, timeout),
              suspendPending := w.m.suspendPending && !InForce(w, supply))
  {
    hide World.ScheduleNormal, Replaced, Configurable.Set;
    SetReplaces(w.m.offTimeout, supply, timeout);
    ScheduleMachine(w.(m := w.m.(offTimeout := w.m.offTimeout.Set(supply, timeout))));
  }

  lemma SuspendBehaviorMakes(w: World, supply: PowerSupply, timeout: int)
    requires timeout > 0
    ensures w.HandleSetInactivityBehavior(SuspendSystem, supply, timeout).m
      == w.m.(suspendTimeout := Replaced(w.m.suspendTimeout, supply, timeout),
              suspendPending := w.m.suspendPending && !InForce(w, supply))
  {
    hide World.ScheduleNormal, Replaced, Configurable.Set;
    SetReplaces(w.m.suspendTimeout, supply, timeout);
    ScheduleMachine(w.(m := w.m.(suspendTimeout := w.m.suspendTimeout.Set(supply, timeout))));
  }

  lemma OtherBehaviorMakes(w: World, action: PowerAction, supply: PowerSupply, timeout: int)
    requires timeout <= 0 || (action != DisplayOff && action != SuspendSystem)
    ensures w.HandleSetInactivityBehavior(action, supply, timeout) == w
  {
  }

  lemma LidClosedMakes(w: World, externalDisplays: bool)
    ensures externalDisplays || w.m.display != On || w.m.paused ==>
      w.HandleLidClosed(externalDisplays).m == w.m.(lidClosed := true)
    ensures !externalDisplays && w.m.display == On && !w.m.paused ==>
      w.HandleLidClosed(externalDisplays).m == w.m.(lidClosed := true, display := Off, reason := UnknownReason)
  {
    hide Outputs.Record, World.TurnOff;
    OffMachine(w.(m := w.m.(lidClosed := true)), UnknownReason);
  }

  lemma LidOpenMakes(w: World)
    requires !w.m.paused
    ensures w.HandleLidOpen().m == w.m.(lidClosed := false, suspendPending := false, display := On, reason := Activity)
  {
    hide Outputs.Record, World.ExtendFor, World.TurnOn;
    var u := w.(m := w.m.(lidClosed := false));
    if w.m.display == On {
      ExtendMachine(u.Emit(TurnOnDisplay(Internal)), Activity);
    } else {
      LightMachine(u, Activity);
    }
  }

  lemma LidBehaviorMakes(w: World, action: PowerAction, supply: PowerSupply)
    ensures w.HandleSetLidBehavior(action, supply) ==
      if action == NoAction || action == SuspendSystem then
        w.(m := w.m.(lidAction := Replaced(w.m.lidAction, supply, action)))
      else w
  {
    hide Replaced, Configurable.Set;
    SetReplaces(w.m.lidAction, supply, action);
  }

  lemma CriticalBehaviorMakes(w: World, action: PowerAction)
    ensures w.HandleSetCriticalPowerBehavior(action) ==
      if action == PowerOff || action == SuspendSystem then w.(m := w.m.(criticalAction := action)) else w
  {
  }

  lemma NewNotificationMakes(w: World, far: bool)
    requires w.m.display == On || far
    ensures w.m.display == On || w.m.paused ==>
      w.HandleNotification(far).m == w.m.(notificationAllows := false)
    ensures w.m.display != On && !w.m.paused ==>
      w.HandleNotification(far).m == w.m.(notificationAllows := false, display := On, reason := Notification)
  {
    hide World.Brighten, World.TurnOnWithoutTimeout, World.ScheduleExpiration;
    var u := w.DisallowTimeout(Notifications);
    if w.m.display == On {
      BrightnessMachine(u);
      PlanOnly(u.Brighten());
    } else {
      OnMachine(u, Notification);
      PlanOnly(u.TurnOnWithoutTimeout(Notification));
    }
  }

  lemma NewNotificationInTheDarkMakes(w: World)
    requires w.m.display != On
    ensures w.HandleNotification(false).m == w.m.(notificationAllows := false, proximityUntilFarOrExpiration := true)
  {
    hide World.EnableProximity, World.ScheduleExpiration;
    var u := w.DisallowTimeout(Notifications);
    SensorMachine(u, UntilFarOrExpiration);
    PlanOnly(u.EnableProximity(UntilFarOrExpiration));
  }

  /** The end of a notification, by a client or by the expiration alarm, after the display was given the
      time that it still may stay on. */
  predicate NotificationEnds(w: World, m: Machine, t: int) {
    var ended := w.m.(notificationAllows := true, proximityUntilFarOrExpiration := false);
    m == if NothingLeft(w, t) && !w.m.paused then ended.(display := Off, reason := Activity) else ended
  }

  lemma EndsWith(w: World, u: World, t: int)
    requires u.m == w.m
    requires w.m.display == On ==>
      (u.p.kind == NoTimeout <==> w.p.kind == NoTimeout && !Later(w.p.clock.now + t, w.p.offTime))
    ensures NotificationEnds(w, u.AllowTimeout(Notifications).DisableProximity(UntilFarOrExpiration).m, t)
  {
    hide World.AllowTimeout, World.DisableProximity;
    AllowNotificationsMachine(u);
    SensorMachine(u.AllowTimeout(Notifications), UntilFarOrExpiration);
  }

  lemma PostponeKind(p: Plan, t: int)
    ensures p.Postpone(t, PostNotification).kind == NoTimeout <==>
      p.kind == NoTimeout && !Later(p.clock.now + t, p.offTime)
  {
  }

  lemma NoNotificationMakes(w: World)
    ensures NotificationEnds(w, w.HandleNoNotification().m, w.m.options.postNotificationOffTimeout)
  {
    hide World.AllowTimeout, World.DisableProximity, Plan.Postpone, Plan.CancelExpiration, NotificationEnds;
    PostponeKind(w.p, w.m.options.postNotificationOffTimeout);
    EndsWith(w, if w.m.display == On then w.SchedulePostNotification() else w, w.m.options.postNotificationOffTimeout);
  }

  lemma ExpirationMakes(w: World)
    ensures NotificationEnds(w, w.ExpirationAlarm().m, 0)
  {
    hide World.AllowTimeout, World.DisableProximity, Plan.Postpone, NotificationEnds;
    var u := w.(p := w.p.(expiration := INVALID));
    PostponeKind(u.p, 0);
    EndsWith(w, if w.m.display == On then u.ScheduleImmediate() else u, 0);
  }

  lemma PressMakes(w: World)
    requires !w.m.paused
    ensures w.m.display == Off ==>
      w.HandlePowerButtonPress().m
        == w.m.(displayAtPress := Off, display := On, reason := PowerButton, suspendPending := false)
    ensures w.m.display == On && w.m.options.powerButtonIsActivity ==>
      w.HandlePowerButtonPress().m == w.m.(displayAtPress := On, reason := PowerButton, suspendPending := false)
    ensures w.m.display == On && !w.m.options.powerButtonIsActivity ==>
      w.HandlePowerButtonPress().m == w.m.(displayAtPress := On)
  {
    hide World.ExtendFor, World.TurnOn, Plan.LongPress;
    var u := w.(m := w.m.(displayAtPress := w.m.display));
    if w.m.display == On { ExtendMachine(u, PowerButton); } else { LightMachine(u, PowerButton); }
  }

  /** A press that turns a lit display off on its release: a short one, unless the button is activity. */
  predicate TurnsOff(m: Machine) {
    !m.longPressDetected && m.displayAtPress == On && !m.options.powerButtonIsActivity && !m.paused
  }

  lemma ReleaseMakes(w: World)
    ensures TurnsOff(w.m) ==>
      w.HandlePowerButtonRelease().m
        == w.m.(displayAtPress := UnknownMode, longPressDetected := false, display := Off, reason := PowerButton)
    ensures !TurnsOff(w.m) ==>
      w.HandlePowerButtonRelease().m == w.m.(displayAtPress := UnknownMode, longPressDetected := false)
  {
    hide World.TurnOff;
    OffMachine(w, PowerButton);
  }

  lemma BatteryMakes(w: World, battery: bool)
    ensures w.OnBattery(battery) == w.(m := OnSupply(w.m, battery))
    ensures OnSupply(w.m, battery).display == w.m.display && OnSupply(w.m, battery).paused == w.m.paused
  {
  }

  lemma PowerSourceMakes(w: World, battery: bool, far: bool)
    requires !w.m.paused
    ensures var m := OnSupply(w.m, battery);
      && (w.m.display == On ==>
            w.HandlePowerSourceChange(battery, far).m == m.(suspendPending := false, reason := Activity))
      && (w.m.display != On && far ==>
            w.HandlePowerSourceChange(battery, far).m
              == m.(suspendPending := false, display := On, reason := Notification))
      && (w.m.display != On && !far ==> w.HandlePowerSourceChange(battery, far).m == m.(suspendPending := false))
  {
    hide World.ExtendFor, World.TurnOnReduced, World.ScheduleNormalSuspend, World.OnBattery, OnSupply;
    var u := w.OnBattery(battery);
    BatteryMakes(w, battery);
    if w.m.display == On {
      ExtendMachine(u, Activity);
      ScheduleMachine(u.ExtendFor(Activity));
    } else if far {
      LightMachine(u, Notification);
      ScheduleMachine(u.TurnOnReduced(Notification));
    } else {
      ScheduleMachine(u);
    }
  }

  lemma TwoReasonsEnd(w: World)
    ensures w.DisableProximity(UntilFarOrExpiration).DisableProximity(UntilFarOrTimeout).m
      == w.m.(proximityUntilFarOrExpiration := false, proximityUntilFarOrTimeout := false)
  {
    hide World.DisableProximity;
    SensorMachine(w, UntilFarOrExpiration);
    SensorMachine(w.DisableProximity(UntilFarOrExpiration), UntilFarOrTimeout);
  }

  lemma ProximityFarMakes(w: World)
    requires !w.m.paused
    ensures var m := w.m.(proximityUntilFarOrExpiration := false, proximityUntilFarOrTimeout := false);
      && (w.m.display != Off ==> w.HandleProximityFar().m == m)
      && (w.m.display == Off && w.m.ProximityOnlyUntilExpiration() ==>
            w.HandleProximityFar().m == m.(display := On, reason := Proximity))
      && (w.m.display == Off && !w.m.ProximityOnlyUntilExpiration() ==>
            w.HandleProximityFar().m == m.(display := On, reason := Proximity, suspendPending := false))
  {
    hide World.DisableProximity, World.TurnOn, World.TurnOnReduced, Machine.ProximityOnlyUntilExpiration;
    TwoReasonsEnd(w);
    LightMachine(w.DisableProximity(UntilFarOrExpiration).DisableProximity(UntilFarOrTimeout), Proximity);
  }

  lemma ProximityNearMakes(w: World)
    ensures w.HandleProximityNear().m ==
      if w.m.display == On && !w.m.paused then w.m.(display := Off, reason := Proximity) else w.m
  {
    hide World.TurnOff;
    OffMachine(w, Proximity);
  }

  lemma AllowSuspendMakes(w: World)
    ensures w.HandleAllowSuspend().m == w.m.(suspendAllowed := true, suspendPending := false)
  {
    hide Outputs.Record, World.SuspendWhenAllowed;
    var u := w.(m := w.m.(suspendAllowed := true));
    if w.m.display == Off && w.m.reason != Proximity {
      SuspendMachine(u.Emit(AllowAutomaticSuspend));
    } else {
      SuspendMachine(u);
    }
  }

  lemma DisallowSuspendMakes(w: World)
    ensures w.HandleDisallowSuspend().m == w.m.(suspendAllowed := false)
  {
    hide Outputs.Record;
  }

  lemma CriticalMakes(w: World)
    ensures w.HandlePowerSourceCritical().m == w.m
  {
    hide Outputs.Record;
  }

  lemma BrightnessValueMakes(w: World, value: real, enabled: bool)
    ensures w.HandleSetNormalBrightnessValue(value).m == w.m.(brightness := value)
    ensures w.HandleAutobrightness(enabled).m == w.m.(autobrightness := enabled)
  {
    hide Outputs.Record;
  }

  lemma StartMakes(w: World, battery: bool)
    requires !w.m.paused
    ensures var m := OnSupply(w.m, battery);
      w.Start(battery).m ==
        if w.m.options.displayOnAtStartup then m.(display := On, reason := UnknownReason, suspendPending := false)
        else m
  {
    hide Outputs.Record, World.TurnOn, World.OnBattery;
    BatteryMakes(w, battery);
    LightMachine(w.OnBattery(battery).Emit(DisallowDefaultHandlers), UnknownReason);
  }

  lemma PauseMakes(w: World)
    ensures w.Pause().m == w.m.(paused := true)
  {
    hide Outputs.Record, Plan.CancelLongPress;
  }

  lemma TakeOverMakes(w: World)
    ensures w.TakeOver().m == w.m.(paused := false)
  {
    hide Outputs.Record;
  }

  lemma ResumeMakes(w: World)
    ensures w.Resume().m == w.m.(paused := false, display := On, reason := UnknownReason, suspendPending := false)
  {
    hide World.Emit, World.TakeOver, World.TurnOn;
    TakeOverMakes(w);
    LightMachine(w.TakeOver(), UnknownReason);
    EmitLeavesMachine(w.TakeOver().TurnOn(UnknownReason), EnableProximityEvents);
  }

  lemma SmallAlarmsMake(w: World)
    ensures w.LongPressAlarm().m == w.m.(longPressDetected := true) && w.DimAlarm().m == w.m
    ensures w.ProximityAlarm().m == w.m.(proximityUntilFarOrTimeout := false)
  {
    hide Outputs.Record, World.DisableProximity;
    SensorMachine(w.(p := w.p.(proximity := INVALID)), UntilFarOrTimeout);
  }

  lemma OffAlarmMakes(w: World)
    ensures w.OffAlarm().m ==
      if MayTimeOut(w.m) && !w.m.paused then w.m.(display := Off, reason := Activity) else w.m
  {
    hide World.TurnOff;
    OffMachine(w.(p := w.p.(off := INVALID)), Activity);
  }

  lemma SuspendAlarmMakes(w: World)
    ensures w.SuspendAlarm().m ==
      if MayTimeOut(w.m) then w.m.(suspendPending := !w.m.suspendAllowed) else w.m
  {
    hide World.SuspendWhenAllowed;
    SuspendMachine(w.(p := w.p.(suspend := INVALID)));
  }

  /** Every alarm id stands for one purpose. */
  lemma AlarmMakes(w: World, id: AlarmId)
    requires Inv(w) && id in w.p.clock.fired
    ensures id == w.p.longPress ==> w.HandleAlarm(id) == w.LongPressAlarm()
    ensures id == w.p.dim ==> w.HandleAlarm(id) == w.DimAlarm()
    ensures id == w.p.off ==> w.HandleAlarm(id) == w.OffAlarm()
    ensures id == w.p.suspend ==> w.HandleAlarm(id) == w.SuspendAlarm()
    ensures id == w.p.proximity ==> w.HandleAlarm(id) == w.ProximityAlarm()
    ensures id == w.p.expiration ==> w.HandleAlarm(id) == w.ExpirationAlarm()
    ensures !w.p.Owns(id) ==> w.HandleAlarm(id) == w
  {
    hide Inv, Plan.Valid, World.ExpirationAlarm, World.OffAlarm, World.SuspendAlarm, World.ProximityAlarm;
    hide World.DimAlarm, World.LongPressAlarm;
    SoundPlan(w);
    AlarmSlots(w.p, id);
  }

  // ---------- When the display is lit ----------

  /** The display, and its reason, are as the causes tell. */
  predicate Shows(w: World, e: Event, v: World) {
    v.m.display == DisplayAfter(w, e) && v.m.reason == ReasonLeft(w, e)
  }

  /** What the causes tell of a display that this event lights, leaves or touches. */
  predicate Tells(w: World, e: Event, display: DisplayMode, reason: Reason) {
    DisplayAfter(w, e) == display && ReasonLeft(w, e) == reason
  }

  /** Neither the display nor its reason has changed; */
  predicate SameShown(w: World, v: World) {
    v.m.display == w.m.display && v.m.reason == w.m.reason
  }

  /** or both have, unless paused. */
  predicate NowShown(w: World, v: World, display: DisplayMode, reason: Reason) {
    if w.m.paused then SameShown(w, v) else v.m.display == display && v.m.reason == reason
  }

  lemma LightShown(w: World, reason: Reason)
    ensures NowShown(w, w.TurnOn(reason), On, reason) && NowShown(w, w.TurnOnReduced(reason), On, reason)
  {
    hide World.TurnOn, World.TurnOnReduced;
    LightMachine(w, reason);
  }

  lemma ExtendShown(w: World, reason: Reason)
    ensures SameShown(w, w.Extend())
    ensures w.ExtendFor(reason).m.display == w.m.display && w.ExtendFor(reason).m.reason == reason
  {
    hide World.Extend, World.ExtendFor;
    ExtendMachine(w, reason);
  }

  lemma SensorShown(w: World, e: Enablement)
    ensures SameShown(w, w.EnableProximity(e)) && SameShown(w, w.DisableProximity(e))
  {
    hide World.EnableProximity, World.DisableProximity, Machine.ProximityEnabled;
    SensorMachine(w, e);
    EnableRest(w.m, e, true);
    EnableRest(w.m, e, false);
  }

  lemma SuspendShown(w: World)
    ensures SameShown(w, w.ScheduleNormalSuspend())
  {
    hide Plan.NormalSuspend;
  }

  lemma ActiveCallTells(w: World, far: bool)
    requires w.m.display != UnknownMode && !w.m.paused
    ensures w.m.display == On || !far ==> Tells(w, ActiveCall(far), w.m.display, w.m.reason)
    ensures w.m.display == Off && far ==> Tells(w, ActiveCall(far), On, Call)
  {
  }

  lemma ActiveCallShows(w: World, far: bool)
    requires w.m.display != UnknownMode && !w.m.paused
    ensures Shows(w, ActiveCall(far), w.HandleActiveCall(far))
  {
    hide DisplayAfter, ReasonLeft, World.Extend, World.TurnOn, World.EnableProximity;
    ActiveCallTells(w, far);
    if w.m.display == On {
      ExtendShown(w, Call);
      SensorShown(w.Extend(), UntilDisabled);
    } else if far {
      LightShown(w, Call);
      SensorShown(w.TurnOn(Call), UntilDisabled);
    } else {
      SensorShown(w, UntilDisabled);
    }
  }

  lemma NoActiveCallShows(w: World, far: bool)
    requires w.m.display != UnknownMode
    ensures Shows(w, NoActiveCall(far), w.HandleNoActiveCall(far))
  {
    hide World.HandleNoActiveCall;
    if w.m.display == On || far { NoActiveCallMakes(w, far); } else { NoActiveCallInTheDarkMakes(w); }
  }

  lemma EnableInactivityTimeoutShows(w: World)
    requires w.m.display != UnknownMode
    ensures Shows(w, EnableInactivityTimeout, w.HandleEnableInactivityTimeout())
  {
    hide World.HandleEnableInactivityTimeout, Unholds;
    EnableTimeoutMakes(w);
  }

  lemma DisableInactivityTimeoutShows(w: World)
    requires w.m.display != UnknownMode
    ensures Shows(w, DisableInactivityTimeout, w.HandleDisableInactivityTimeout())
  {
    hide World.HandleDisableInactivityTimeout;
    DisableTimeoutMakes(w);
  }

  lemma NewNotificationShows(w: World, far: bool)
    requires w.m.display != UnknownMode
    ensures Shows(w, NewNotification(far), w.HandleNotification(far))
  {
    hide World.HandleNotification;
    if w.m.display == On || far { NewNotificationMakes(w, far); } else { NewNotificationInTheDarkMakes(w); }
  }

  lemma NoNotificationShows(w: World)
    requires w.m.display != UnknownMode
    ensures Shows(w, NoNotification, w.HandleNoNotification())
  {
    hide World.HandleNoNotification, NothingLeft;
    NoNotificationMakes(w);
  }

  lemma LidClosedShows(w: World, externalDisplays: bool)
    requires w.m.display != UnknownMode
    ensures Shows(w, LidClosed(externalDisplays), w.HandleLidClosed(externalDisplays))
  {
    hide World.HandleLidClosed;
    LidClosedMakes(w, externalDisplays);
  }

  lemma LidOpenShows(w: World)
    requires w.m.display != UnknownMode && !w.m.paused
    ensures Shows(w, LidOpen, w.HandleLidOpen())
  {
    hide World.HandleLidOpen;
    LidOpenMakes(w);
  }

  lemma PowerButtonPressTells(w: World)
    requires w.m.display != UnknownMode && !w.m.paused
    ensures w.m.display == Off || w.m.options.powerButtonIsActivity ==> Tells(w, PowerButtonPress, On, PowerButton)
    ensures w.m.display == On && !w.m.options.powerButtonIsActivity ==>
      Tells(w, PowerButtonPress, w.m.display, w.m.reason)
  {
  }

  lemma PowerButtonPressShows(w: World)
    requires w.m.display != UnknownMode && !w.m.paused
    ensures Shows(w, PowerButtonPress, w.HandlePowerButtonPress())
  {
    hide DisplayAfter, ReasonLeft, World.ExtendFor, World.TurnOn, Plan.LongPress;
    PowerButtonPressTells(w);
    var u := w.(m := w.m.(displayAtPress := w.m.display));
    if w.m.display == On { ExtendShown(u, PowerButton); } else { LightShown(u, PowerButton); }
  }

  lemma PowerButtonReleaseShows(w: World)
    requires w.m.display != UnknownMode
    ensures Shows(w, PowerButtonRelease, w.HandlePowerButtonRelease())
  {
    hide World.HandlePowerButtonRelease;
    ReleaseMakes(w);
  }

  lemma PowerSourceChangeTells(w: World, battery: bool, far: bool)
    requires w.m.display != UnknownMode && !w.m.paused
    ensures w.m.display == On ==> Tells(w, PowerSourceChange(battery, far), On, Activity)
    ensures w.m.display == Off && far ==> Tells(w, PowerSourceChange(battery, far), On, Notification)
    ensures w.m.display == Off && !far ==> Tells(w, PowerSourceChange(battery, far), w.m.display, w.m.reason)
  {
  }

  lemma PowerSourceChangeShows(w: World, battery: bool, far: bool)
    requires w.m.display != UnknownMode && !w.m.paused
    ensures Shows(w, PowerSourceChange(battery, far), w.HandlePowerSourceChange(battery, far))
  {
    hide DisplayAfter, ReasonLeft, World.ExtendFor, World.TurnOnReduced, World.ScheduleNormalSuspend;
    PowerSourceChangeTells(w, battery, far);
    var u := w.OnBattery(battery);
    if w.m.display == On { ExtendShown(u, Activity); } else { LightShown(u, Notification); }
    SuspendShown(if w.m.display == On then u.ExtendFor(Activity) else if far then u.TurnOnReduced(Notification) else u);
  }

  lemma ProximityFarShows(w: World)
    requires w.m.display != UnknownMode && !w.m.paused
    ensures Shows(w, ProximityFar, w.HandleProximityFar())
  {
    hide World.HandleProximityFar, Machine.ProximityOnlyUntilExpiration;
    ProximityFarMakes(w);
  }

  lemma ProximityNearShows(w: World)
    requires w.m.display != UnknownMode
    ensures Shows(w, ProximityNear, w.HandleProximityNear())
  {
    hide World.HandleProximityNear;
    ProximityNearMakes(w);
  }

  lemma ActivityChangingTells(w: World, far: bool)
    requires w.m.display != UnknownMode && !w.m.paused
    ensures w.m.display == On || far ==> Tells(w, ActivityChanging(far), On, Activity)
    ensures w.m.display == Off && !far ==> Tells(w, ActivityChanging(far), w.m.display, w.m.reason)
  {
  }

  lemma ActivityChangingShows(w: World, far: bool)
    requires w.m.display != UnknownMode && !w.m.paused
    ensures Shows(w, ActivityChanging(far), w.HandleUserActivityChangingPowerState(far))
  {
    hide DisplayAfter, ReasonLeft, World.ExtendFor, World.TurnOn;
    ActivityChangingTells(w, far);
    if w.m.display == On { ExtendShown(w, Activity); } else { LightShown(w, Activity); }
  }

  lemma ActivityExtendingTells(w: World)
    requires w.m.display != UnknownMode && !w.m.paused
    ensures w.m.display == On ==> Tells(w, ActivityExtending, On, Activity)
    ensures w.m.display == Off ==> Tells(w, ActivityExtending, w.m.display, w.m.reason)
  {
  }

  lemma ActivityExtendingShows(w: World)
    requires w.m.display != UnknownMode && !w.m.paused
    ensures Shows(w, ActivityExtending, w.HandleUserActivityExtendingPowerState())
  {
    hide DisplayAfter, ReasonLeft, World.ExtendFor;
    ActivityExtendingTells(w);
    ExtendShown(w, Activity);
  }

  lemma TurnDisplayOnTells(w: World)
    requires w.m.display != UnknownMode
    ensures !w.m.paused ==> Tells(w, TurnDisplayOn, On, PowerButton)
    ensures w.m.paused ==> Tells(w, TurnDisplayOn, w.m.display, w.m.reason)
  {
  }

  lemma TurnDisplayOnShows(w: World)
    requires w.m.display != UnknownMode
    ensures Shows(w, TurnDisplayOn, w.HandleTurnOnDisplay())
  {
    hide DisplayAfter, ReasonLeft, World.TurnOn;
    TurnDisplayOnTells(w);
    LightShown(w, PowerButton);
  }

  lemma TurnDisplayOffShows(w: World)
    requires w.m.display != UnknownMode
    ensures Shows(w, TurnDisplayOff, w.HandleTurnOffDisplay())
  {
    hide World.TurnOff;
    OffMachine(w, PowerButton);
  }

  lemma SystemResumeTells(w: World)
    requires !w.m.paused
    ensures Tells(w, SystemResume, On, Activity)
  {
  }

  lemma SystemResumeShows(w: World)
    requires !w.m.paused
    ensures Shows(w, SystemResume, w.HandleSystemResume())
  {
    hide DisplayAfter, ReasonLeft, World.TurnOn;
    SystemResumeTells(w);
    LightShown(w, Activity);
  }

  lemma StartingShows(w: World, battery: bool)
    requires w.m.display != UnknownMode && !w.m.paused
    ensures Shows(w, Starting(battery), w.Start(battery))
  {
    hide World.Start;
    StartMakes(w, battery);
  }

  lemma ResumingShows(w: World)
    requires w.m.display != UnknownMode
    ensures Shows(w, Resuming, w.Resume())
  {
    hide World.Resume;
    ResumeMakes(w);
  }

  lemma AlarmTells(w: World, id: AlarmId)
    requires id == w.p.off ==> id != w.p.expiration
    ensures var dark := !w.m.paused &&
        ((id == w.p.off && MayTimeOut(w.m)) || (id == w.p.expiration && NothingLeft(w, 0)));
      if dark then Tells(w, AlarmEvent(id), Off, Activity)
      else Tells(w, AlarmEvent(id), w.m.display, w.m.reason)
  {
    hide NothingLeft, MayTimeOut;
  }

  lemma AlarmShows(w: World, id: AlarmId)
    requires Inv(w) && id in w.p.clock.fired
    ensures Shows(w, AlarmEvent(id), w.HandleAlarm(id))
  {
    hide Inv, Plan.Valid, World.HandleAlarm, World.ExpirationAlarm, World.OffAlarm, World.SuspendAlarm;
    hide World.ProximityAlarm, World.DimAlarm, World.LongPressAlarm, NothingLeft, MayTimeOut, DisplayAfter, ReasonLeft;
    AlarmMakes(w, id);
    SoundPlan(w);
    AlarmSlots(w.p, id);
    AlarmTells(w, id);
    if id == w.p.off { OffAlarmMakes(w); }
    else if id == w.p.suspend { SuspendAlarmMakes(w); }
    else if id == w.p.expiration { ExpirationMakes(w); }
    else { SmallAlarmsMake(w); }
  }

  lemma RestShows(w: World, e: Event)
    requires e.SetLidBehavior? || e.SetCriticalPowerBehavior? || e.PowerSourceCritical? || e.TimePasses?
      || e.AlarmFires?
    ensures Shows(w, e, Step(w, e))
  {
    hide Replaced, Outputs.Record;
  }

  lemma QuietTells(w: World, e: Event)
    requires e.SetNormalBrightness'? || e.Autobrightness? || e.AllowSuspend? || e.DisallowSuspend? || e.Pausing?
    ensures Tells(w, e, w.m.display, w.m.reason)
  {
  }

  lemma BehaviorShows(w: World, action: PowerAction, supply: PowerSupply, timeout: int)
    ensures Shows(w, SetInactivityBehavior(action, supply, timeout),
      w.HandleSetInactivityBehavior(action, supply, timeout))
  {
    hide Replaced, InForce, World.HandleSetInactivityBehavior;
    if timeout <= 0 || (action != DisplayOff && action != SuspendSystem) {
      OtherBehaviorMakes(w, action, supply, timeout);
    } else if action == DisplayOff {
      OffBehaviorMakes(w, supply, timeout);
    } else {
      SuspendBehaviorMakes(w, supply, timeout);
    }
  }

  lemma BrightnessShows(w: World, value: real, enabled: bool)
    ensures SameShown(w, w.HandleSetNormalBrightnessValue(value)) && SameShown(w, w.HandleAutobrightness(enabled))
  {
    hide World.HandleSetNormalBrightnessValue, World.HandleAutobrightness;
    BrightnessValueMakes(w, value, enabled);
  }

  lemma AllowanceShows(w: World)
    ensures SameShown(w, w.HandleAllowSuspend()) && SameShown(w, w.HandleDisallowSuspend())
  {
    hide World.HandleAllowSuspend, World.HandleDisallowSuspend;
    AllowSuspendMakes(w);
    DisallowSuspendMakes(w);
  }

  lemma PauseShows(w: World)
    ensures SameShown(w, w.Pause())
  {
    hide World.Pause;
    PauseMakes(w);
  }

  lemma SettingShows(w: World, e: Event)
    requires e.SetNormalBrightness'? || e.Autobrightness? || e.AllowSuspend? || e.DisallowSuspend? || e.Pausing?
    ensures Shows(w, e, Step(w, e))
  {
    hide DisplayAfter, ReasonLeft, World.HandleSetNormalBrightnessValue, World.HandleAutobrightness;
    hide World.HandleAllowSuspend, World.HandleDisallowSuspend, World.Pause;
    QuietTells(w, e);
    match e
    case SetNormalBrightness'(v) => BrightnessShows(w, v, true);
    case Autobrightness(b) => BrightnessShows(w, 0.0, b);
    case Pausing => PauseShows(w);
    case _ => AllowanceShows(w);
  }

  lemma DelayedShows(w: World, id: AlarmId)
    requires Shows(w, AlarmEvent(id), w.HandleAlarm(id))
    ensures Shows(w, AlarmEvent(id), Step(w, AlarmEvent(id)))
  {
    hide DisplayAfter, ReasonLeft, World.HandleAlarm;
  }

  lemma ActiveShows(w: World, e: Event)
    requires w.m.display != UnknownMode && !w.m.paused && !ReachesPaused(e)
    ensures Shows(w, e, Step(w, e))
  {
    hide Shows, World.HandleActiveCall, World.HandleLidClosed, World.HandleLidOpen, World.HandlePowerButtonPress;
    hide World.HandlePowerButtonRelease, World.HandlePowerSourceChange, World.HandlePowerSourceCritical;
    hide World.HandleProximityFar, World.HandleProximityNear, World.HandleUserActivityChangingPowerState;
    hide World.HandleUserActivityExtendingPowerState, World.HandleSystemResume, World.Start, World.Pause;
    match e
    case ActiveCall(far) => ActiveCallShows(w, far);
    case LidClosed(x) => LidClosedShows(w, x);
    case LidOpen => LidOpenShows(w);
    case PowerButtonPress => PowerButtonPressShows(w);
    case PowerButtonRelease => PowerButtonReleaseShows(w);
    case PowerSourceChange(b, far) => PowerSourceChangeShows(w, b, far);
    case PowerSourceCritical => RestShows(w, e);
    case ProximityFar => ProximityFarShows(w);
    case ProximityNear => ProximityNearShows(w);
    case ActivityChanging(far) => ActivityChangingShows(w, far);
    case ActivityExtending => ActivityExtendingShows(w);
    case SystemResume => SystemResumeShows(w);
    case Starting(b) => StartingShows(w, b);
    case Pausing => SettingShows(w, e);
    case _ =>
  }

  lemma ClientShows(w: World, e: Event)
    requires Inv(w) && Possible(w, e) && ReachesPaused(e) && w.m.display != UnknownMode
    ensures Shows(w, e, Step(w, e))
  {
    hide Inv, Shows, World.HandleNoActiveCall, World.HandleEnableInactivityTimeout;
    hide World.HandleDisableInactivityTimeout, World.HandleSetInactivityBehavior, World.HandleNoNotification;
    hide World.HandleNotification, World.HandleSetLidBehavior, World.HandleSetCriticalPowerBehavior;
    hide World.HandleSetNormalBrightnessValue, World.HandleAutobrightness, World.HandleAllowSuspend;
    hide World.HandleDisallowSuspend, World.HandleTurnOnDisplay, World.HandleTurnOffDisplay;
    hide World.HandleAlarm, World.Resume;
    match e
    case NoActiveCall(far) => NoActiveCallShows(w, far);
    case EnableInactivityTimeout => EnableInactivityTimeoutShows(w);
    case DisableInactivityTimeout => DisableInactivityTimeoutShows(w);
    case SetInactivityBehavior(a, s, t) => BehaviorShows(w, a, s, t);
    case NoNotification => NoNotificationShows(w);
    case NewNotification(far) => NewNotificationShows(w, far);
    case AlarmEvent(id) =>
      AlarmShows(w, id);
      DelayedShows(w, id);
    case TurnDisplayOn => TurnDisplayOnShows(w);
    case TurnDisplayOff => TurnDisplayOffShows(w);
    case Resuming => ResumingShows(w);
    case SetLidBehavior(_, _) => RestShows(w, e);
    case SetCriticalPowerBehavior(_) => RestShows(w, e);
    case TimePasses(_) => RestShows(w, e);
    case AlarmFires(_) => RestShows(w, e);
    case _ => SettingShows(w, e);
  }

  /** The display after every possible event, and the reason it has: by the causes told above. */
  lemma EventShows(w: World, e: Event)
    requires Inv(w) && Possible(w, e)
    ensures Step(w, e).m.display == DisplayAfter(w, e) && Step(w, e).m.reason == ReasonLeft(w, e)
  {
    hide ProperLog, Plan.Valid, DisplayAfter, ReasonLeft, Step;
    if ReachesPaused(e) { ClientShows(w, e); } else { ActiveShows(w, e); }
  }
}
