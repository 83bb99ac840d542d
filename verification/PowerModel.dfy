/** The per-session power state machine as a function on values: the machine, the timer it
    schedules on, and a recorder of everything it tells the outside. One function per event
    handler and per private helper. */
module PowerModel {
  import opened Alarms
  import opened Plans

  datatype DisplayMode = UnknownMode | On | Off

  datatype Reason = UnknownReason | PowerButton | Activity | Proximity | Notification | Call | CallDone

  datatype PowerAction = NoAction | DisplayOff | SuspendSystem | PowerOff

  datatype PowerSupply = Battery | LinePower

  datatype Configurable<T> = Configurable(onBattery: T, onLine: T, isOnBattery: bool)
  {
    function Get(): T {
      if isOnBattery then onBattery else onLine
    }

    function Set(supply: PowerSupply, value: T): Configurable<T> {
      if supply == Battery then this.(onBattery := value) else this.(onLine := value)
    }
  }

  datatype Options = Options(
    longPressTimeout: int,
    dimDuration: int,
    normalOffTimeout: int,
    normalSuspendTimeout: int,
    reducedOffTimeout: int,
    postNotificationOffTimeout: int,
    notificationExpiration: int,
    powerButtonIsActivity: bool,
    displayOnAtStartup: bool)

  datatype Allowance = Client | Notifications

  datatype Enablement = UntilFarOrExpiration | UntilDisabled | UntilFarOrTimeout

  datatype Machine = Machine(
    options: Options,
    clientAllows: bool,
    notificationAllows: bool,
    proximityUntilFarOrExpiration: bool,
    proximityUntilDisabled: bool,
    proximityUntilFarOrTimeout: bool,
    display: DisplayMode,
    displayAtPress: DisplayMode,
    reason: Reason,
    longPressDetected: bool,
    offTimeout: Configurable<int>,
    suspendTimeout: Configurable<int>,
    lidAction: Configurable<PowerAction>,
    criticalAction: PowerAction,
    paused: bool,
    autobrightness: bool,
    brightness: real,
    lidClosed: bool,
    suspendAllowed: bool,
    suspendPending: bool)
  {
    predicate TimeoutAllowed() {
      notificationAllows && clientAllows
    }

    predicate TimeoutApplies() {
      TimeoutAllowed() || reason == Notification || reason == Call
    }

    predicate ProximityEnabled() {
      proximityUntilFarOrExpiration || proximityUntilDisabled || proximityUntilFarOrTimeout
    }

    predicate ProximityOnlyUntilExpiration() {
      proximityUntilFarOrExpiration && !proximityUntilDisabled && !proximityUntilFarOrTimeout
    }

    function Enable(e: Enablement, value: bool): Machine {
      match e
      case UntilFarOrExpiration => this.(proximityUntilFarOrExpiration := value)
      case UntilDisabled => this.(proximityUntilDisabled := value)
      case UntilFarOrTimeout => this.(proximityUntilFarOrTimeout := value)
    }

    function Allow(a: Allowance, value: bool): Machine {
      if a == Client then this.(clientAllows := value) else this.(notificationAllows := value)
    }
  }

  function NewMachine(o: Options): Machine {
    Machine(
      o, true, true, false, false, false, Off, UnknownMode, UnknownReason,
      false,
      Configurable(o.normalOffTimeout, o.normalOffTimeout, true),
      Configurable(o.normalSuspendTimeout, o.normalSuspendTimeout, true),
      Configurable(SuspendSystem, SuspendSystem, true), PowerOff,
      false, false, 0.5, false, true, false)
  }

  // ---------- What the machine tells the outside ----------

  datatype Filter = All | Internal | External

  datatype Cause = Inactivity | LidClosing | CriticalPower

  datatype Command =
    | SetOffBrightness | SetNormalBrightness | SetDimBrightness | SetBrightnessValue(value: real)
    | EnableAutobrightness | DisableAutobrightness
    | TurnOnDisplay(on: Filter) | TurnOffDisplay(off: Filter)
    | LowPowerModem | NormalPowerModem
    | NotifyDisplayOn(onReason: Reason) | NotifyDisplayOff(offReason: Reason)
    | EnableInteractive | DisableInteractive
    | NotifyLongPress
    | SuspendNow(cause: Cause) | PowerOffNow
    | AllowDefaultHandlers | DisallowDefaultHandlers
    | AllowAutomaticSuspend | DisallowAutomaticSuspend
    | EnableProximityEvents | DisableProximityEvents

  /** A command with the circumstances it was given in. */
  datatype Entry = Entry(command: Command, paused: bool, suspendAllowed: bool)

  /** The recorder: the two interfaces with a standing effect, the suspend block and the sensor as
      all machines share them, three counts, and the log. */
  datatype Outputs = Outputs(
    suspendBlocked: bool,
    proximityEvents: bool,
    block: bool,
    sensor: bool,
    inactivitySuspends: nat,
    longPresses: nat,
    loud: nat,
    log: seq<Entry>)
  {
    function Record(e: Entry): Outputs {
      var c := e.command;
      Outputs(
        if c == DisallowAutomaticSuspend then true else if c == AllowAutomaticSuspend then false else suspendBlocked,
        if c == EnableProximityEvents then true else if c == DisableProximityEvents then false else proximityEvents,
        if c == DisallowAutomaticSuspend then true else if c == AllowAutomaticSuspend then false else block,
        if c == EnableProximityEvents then true else if c == DisableProximityEvents then false else sensor,
        if c == SuspendNow(Inactivity) then inactivitySuspends + 1 else inactivitySuspends,
        if c == NotifyLongPress then longPresses + 1 else longPresses,
        if Housekeeping(c) then loud else loud + 1,
        log + [e])
    }
  }

  const NO_OUTPUTS := Outputs(false, false, false, false, 0, 0, 0, [])

  /** The only things a paused machine may still say. */
  predicate Housekeeping(c: Command) {
    || c == AllowAutomaticSuspend || c == DisallowAutomaticSuspend
    || c == EnableProximityEvents || c == DisableProximityEvents
  }

  /** A paused machine does housekeeping only, and inactivity suspends only when allowed. */
  predicate Proper(e: Entry) {
    && (e.paused ==> Housekeeping(e.command))
    && (e.command == SuspendNow(Inactivity) ==> !e.paused && e.suspendAllowed)
  }

  predicate ProperLog(log: seq<Entry>) {
    forall i :: 0 <= i < |log| ==> Proper(log[i])
  }

  // ---------- The handlers ----------

  datatype World = World(m: Machine, p: Plan, out: Outputs)
  {
    function Emit(c: Command): (w: World)
      ensures ProperLog(out.log) && Proper(Entry(c, m.paused, m.suspendAllowed)) ==> ProperLog(w.out.log)
    {
      this.(out := out.Record(Entry(c, m.paused, m.suspendAllowed)))
    }

    function ScheduleNormalSuspend(): World {
      this.(p := p.NormalSuspend(m.suspendTimeout.Get()), m := m.(suspendPending := false))
    }

    function ScheduleNormal(): World {
      this.(p := p.NormalOff(m.offTimeout.Get())).ScheduleNormalSuspend()
    }

    function ScheduleReduced(): World {
      this.(p := p.Postpone(m.options.reducedOffTimeout, Reduced))
    }

    function SchedulePostNotification(): World {
      this.(p := p.Postpone(m.options.postNotificationOffTimeout, PostNotification))
    }

    function ScheduleImmediate(): World {
      this.(p := p.Postpone(0, PostNotification))
    }

    function ScheduleProximityDisable(): World {
      this.(p := p.ProximityDisable(m.options.reducedOffTimeout))
    }

    function ScheduleExpiration(): World {
      var t := m.offTimeout.Get();
      var u := if t < m.options.notificationExpiration then t else m.options.notificationExpiration;
      this.(p := p.Expiration(u))
    }

    function Brighten(): World {
      if m.paused then this else Emit(SetNormalBrightness)
    }

    function Dim(): World {
      if m.paused then this else Emit(SetDimBrightness)
    }

    function TurnOff(reason: Reason): World {
      if m.paused then this
      else
        var w := Emit(SetOffBrightness).Emit(TurnOffDisplay(All));
        var w := if reason != Proximity then w.Emit(LowPowerModem) else w;
        var w := w.(m := m.(display := Off, reason := reason), p := p.CancelOff());
        var w := w.Emit(NotifyDisplayOff(reason)).Emit(DisableInteractive);
        if reason != Proximity && m.suspendAllowed then w.Emit(AllowAutomaticSuspend) else w
    }

    function TurnOnWithoutTimeout(reason: Reason): World {
      if m.paused then this
      else
        var w := Emit(DisallowAutomaticSuspend).Emit(EnableInteractive);
        var w := w.Emit(TurnOnDisplay(if m.lidClosed then External else All));
        var w := w.(m := m.(display := On, reason := reason));
        var w := if m.lidClosed then w else w.Brighten();
        w.Emit(NormalPowerModem).Emit(NotifyDisplayOn(reason))
    }

    function TurnOn(reason: Reason): World {
      TurnOnWithoutTimeout(reason).ScheduleNormal()
    }

    function TurnOnReduced(reason: Reason): World {
      TurnOnWithoutTimeout(reason).ScheduleReduced()
    }

    function AllowTimeout(a: Allowance): World {
      if m.TimeoutAllowed() then this else this.(m := m.Allow(a, true)).OnceAllowed(a)
    }

    function OnceAllowed(a: Allowance): World {
      if m.TimeoutAllowed() && m.display == On then
        if a == Notifications && p.kind == NoTimeout then TurnOff(Activity)
        else if a == Client then ScheduleNormal()
        else this
      else this
    }

    function DisallowTimeout(a: Allowance): World {
      this.(m := m.Allow(a, false))
    }

    function EnableProximity(e: Enablement): World {
      var w := this.(m := m.Enable(e, true));
      if !m.ProximityEnabled() && w.m.ProximityEnabled() then w.Emit(EnableProximityEvents) else w
    }

    function DisableProximity(e: Enablement): World {
      var w := this.(m := m.Enable(e, false));
      if m.ProximityEnabled() && !w.m.ProximityEnabled() then w.Emit(DisableProximityEvents) else w
    }

    function SuspendWhenAllowed(): World {
      if m.suspendAllowed then
        var w := this.(m := m.(suspendPending := false));
        if m.paused then w else w.Emit(SuspendNow(Inactivity))
      else this.(m := m.(suspendPending := true))
    }

    /** Activity on a lit display: brighten, restart the normal timeouts. */
    function Extend(): World {
      Brighten().ScheduleNormal()
    }

    function ExtendFor(reason: Reason): World {
      var w := Extend();
      w.(m := w.m.(reason := reason))
    }

    function HandleAlarm(id: AlarmId): World {
      if id == p.longPress then LongPressAlarm()
      else if id == p.dim then DimAlarm()
      else if id == p.off then OffAlarm()
      else if id == p.suspend then SuspendAlarm()
      else if id == p.proximity then ProximityAlarm()
      else if id == p.expiration then ExpirationAlarm()
      else this
    }

    function LongPressAlarm(): World {
      Emit(NotifyLongPress).(m := m.(longPressDetected := true), p := p.(longPress := INVALID))
    }

    function DimAlarm(): World {
      var w := this.(p := p.(dim := INVALID));
      if m.TimeoutApplies() then w.Dim() else w
    }

    function SuspendAlarm(): World {
      var w := this.(p := p.(suspend := INVALID));
      if m.TimeoutApplies() then w.SuspendWhenAllowed() else w
    }

    function ProximityAlarm(): World {
      this.(p := p.(proximity := INVALID)).DisableProximity(UntilFarOrTimeout)
    }

    function OffAlarm(): World {
      var w := this.(p := p.(off := INVALID)).TurnOffIfApplicable();
      w.(p := w.p.(kind := NoTimeout))
    }

    function TurnOffIfApplicable(): World {
      if m.TimeoutApplies() then TurnOff(Activity) else this
    }

    function ExpirationAlarm(): World {
      var w := this.(p := p.(expiration := INVALID));
      var w := if m.display == On then w.ScheduleImmediate() else w;
      w.AllowTimeout(Notifications).DisableProximity(UntilFarOrExpiration)
    }

    function HandleActiveCall(far: bool): World {
      var w := if m.display == On then Extend() else if far then TurnOn(Call) else this;
      w.EnableProximity(UntilDisabled)
    }

    function HandleNoActiveCall(far: bool): World {
      var w :=
        if m.display == On then Brighten().ScheduleReduced()
        else if far then TurnOnReduced(CallDone)
        else EnableProximity(UntilFarOrTimeout).ScheduleProximityDisable();
      w.DisableProximity(UntilDisabled)
    }

    function HandleEnableInactivityTimeout(): World {
      AllowTimeout(Client)
    }

    function HandleDisableInactivityTimeout(): World {
      var w := DisallowTimeout(Client);
      if m.display == On then w.Brighten() else w.TurnOnWithoutTimeout(UnknownReason)
    }

    function HandleSetInactivityBehavior(action: PowerAction, supply: PowerSupply, timeout: int): World {
      if timeout <= 0 || (action != DisplayOff && action != SuspendSystem) then this
      else
        var m' :=
          if action == DisplayOff then m.(offTimeout := m.offTimeout.Set(supply, timeout))
          else m.(suspendTimeout := m.suspendTimeout.Set(supply, timeout));
        var w := this.(m := m');
        if p.kind == Normal && m.offTimeout.isOnBattery == supply.Battery? then w.ScheduleNormal()
        else w
    }

    function HandleLidClosed(externalDisplays: bool): World {
      var w := this.(m := m.(lidClosed := true));
      if externalDisplays then w.Emit(TurnOffDisplay(Internal))
      else
        var w := if m.display == On then w.TurnOff(UnknownReason) else w;
        if m.lidAction.Get() == SuspendSystem then w.Emit(SuspendNow(LidClosing)) else w
    }

    function HandleLidOpen(): World {
      var w := this.(m := m.(lidClosed := false));
      if m.display == On then w.Emit(TurnOnDisplay(Internal)).ExtendFor(Activity)
      else w.TurnOn(Activity)
    }

    function HandleSetLidBehavior(action: PowerAction, supply: PowerSupply): World {
      if action != NoAction && action != SuspendSystem then this
      else this.(m := m.(lidAction := m.lidAction.Set(supply, action)))
    }

    function HandleSetCriticalPowerBehavior(action: PowerAction): World {
      if action != SuspendSystem && action != PowerOff then this
      else this.(m := m.(criticalAction := action))
    }

    function HandleNoNotification(): World {
      var w := if m.display == On then SchedulePostNotification() else this;
      var w := w.AllowTimeout(Notifications).DisableProximity(UntilFarOrExpiration);
      w.(p := w.p.CancelExpiration())
    }

    function HandleNotification(far: bool): World {
      var w := DisallowTimeout(Notifications);
      var w :=
        if m.display == On then w.Brighten()
        else if far then w.TurnOnWithoutTimeout(Notification)
        else w.EnableProximity(UntilFarOrExpiration);
      w.ScheduleExpiration()
    }

    function HandlePowerButtonPress(): World {
      var w := this.(m := m.(displayAtPress := m.display));
      var w :=
        if m.options.powerButtonIsActivity && m.display == On then w.ExtendFor(PowerButton)
        else if m.display == Off then w.TurnOn(PowerButton)
        else w;
      w.(p := w.p.LongPress(m.options.longPressTimeout))
    }

    function EndPress(): World {
      if m.longPressDetected then this.(m := m.(longPressDetected := false))
      else if m.displayAtPress == On && !m.options.powerButtonIsActivity then TurnOff(PowerButton)
      else this
    }

    function HandlePowerButtonRelease(): World {
      var w := EndPress();
      w.(m := w.m.(displayAtPress := UnknownMode), p := w.p.(longPress := INVALID))
    }

    function OnBattery(battery: bool): World {
      this.(m := m.(
        offTimeout := m.offTimeout.(isOnBattery := battery),
        suspendTimeout := m.suspendTimeout.(isOnBattery := battery),
        lidAction := m.lidAction.(isOnBattery := battery)))
    }

    function HandlePowerSourceChange(battery: bool, far: bool): World {
      var w := OnBattery(battery);
      var w :=
        if m.display == On then w.ExtendFor(Activity)
        else if far then w.TurnOnReduced(Notification)
        else w;
      w.ScheduleNormalSuspend()
    }

    function HandlePowerSourceCritical(): World {
      if m.criticalAction == PowerOff then Emit(PowerOffNow)
      else if m.criticalAction == SuspendSystem then Emit(SuspendNow(CriticalPower))
      else this
    }

    function HandleProximityFar(): World {
      var w := DisableProximity(UntilFarOrExpiration).DisableProximity(UntilFarOrTimeout);
      if m.display != Off then w
      else if m.ProximityOnlyUntilExpiration() then w.TurnOnReduced(Proximity)
      else w.TurnOn(Proximity)
    }

    function HandleProximityNear(): World {
      if m.display == On then TurnOff(Proximity) else this
    }

    function HandleUserActivityChangingPowerState(far: bool): World {
      if m.display == On then ExtendFor(Activity)
      else if far then TurnOn(Activity)
      else this
    }

    function HandleUserActivityExtendingPowerState(): World {
      if m.display == On then ExtendFor(Activity) else this
    }

    function HandleSetNormalBrightnessValue(value: real): World {
      var w := this.(m := m.(brightness := value));
      if m.paused then w else w.Emit(DisableAutobrightness).Emit(SetBrightnessValue(value))
    }

    function HandleAutobrightness(enabled: bool): World {
      var w := this.(m := m.(autobrightness := enabled));
      if m.paused then w else w.Emit(if enabled then EnableAutobrightness else DisableAutobrightness)
    }

    function HandleAllowSuspend(): World {
      var w := this.(m := m.(suspendAllowed := true));
      var w := if m.display == Off && m.reason != Proximity then w.Emit(AllowAutomaticSuspend) else w;
      if m.suspendPending then w.SuspendWhenAllowed() else w
    }

    function HandleDisallowSuspend(): World {
      this.(m := m.(suspendAllowed := false)).Emit(DisallowAutomaticSuspend)
    }

    function HandleTurnOnDisplay(): World {
      TurnOn(PowerButton)
    }

    function HandleTurnOffDisplay(): World {
      TurnOff(PowerButton)
    }

    function HandleSystemResume(): World {
      TurnOn(Activity)
    }

    function Start(battery: bool): World {
      var w := OnBattery(battery).Emit(DisallowDefaultHandlers);
      if m.options.displayOnAtStartup then w.TurnOn(UnknownReason) else w
    }

    function StepBack(): World {
      var w := Emit(DisableProximityEvents).Emit(DisableAutobrightness).Emit(AllowDefaultHandlers);
      w.(m := w.m.(paused := true))
    }

    function Pause(): World {
      this.(p := p.CancelLongPress()).StepBack()
    }

    function TakeOver(): World {
      var w := this.(m := m.(paused := false)).Emit(DisallowDefaultHandlers);
      var w := w.Emit(if m.autobrightness then EnableAutobrightness else DisableAutobrightness);
      w.Emit(SetBrightnessValue(m.brightness))
    }

    function Resume(): World {
      var w := TakeOver().TurnOn(UnknownReason);
      if m.ProximityEnabled() then w.Emit(EnableProximityEvents) else w
    }
  }

  // ---------- Runs ----------

  datatype Event =
    | TimePasses(t: nat) | AlarmFires(due: AlarmId) | AlarmEvent(id: AlarmId)
    | ActiveCall(far: bool) | NoActiveCall(far: bool)
    | EnableInactivityTimeout | DisableInactivityTimeout
    | SetInactivityBehavior(action: PowerAction, supply: PowerSupply, timeout: int)
    | LidClosed(externalDisplays: bool) | LidOpen
    | SetLidBehavior(action: PowerAction, supply: PowerSupply) | SetCriticalPowerBehavior(action: PowerAction)
    | NoNotification | NewNotification(far: bool)
    | PowerButtonPress | PowerButtonRelease
    | PowerSourceChange(battery: bool, far: bool) | PowerSourceCritical
    | ProximityFar | ProximityNear
    | ActivityChanging(far: bool) | ActivityExtending
    | SetNormalBrightness'(value: real) | Autobrightness(enabled: bool)
    | AllowSuspend | DisallowSuspend
    | TurnDisplayOn | TurnDisplayOff
    | SystemResume | Starting(battery: bool) | Pausing | Resuming

  /** What a handler call does, and what the environment may do in between. */
  function Step(w: World, e: Event): World {
    match e
    case TimePasses(t) => w.(p := w.p.(clock := w.p.clock.Advance(t)))
    case AlarmFires(id) => w.(p := w.p.(clock := w.p.clock.Fire(id)))
    case AlarmEvent(id) =>
      var w' := w.HandleAlarm(id);
      w'.(p := w'.p.(clock := w'.p.clock.Delivered(id)))
    case ActiveCall(far) => w.HandleActiveCall(far)
    case NoActiveCall(far) => w.HandleNoActiveCall(far)
    case EnableInactivityTimeout => w.HandleEnableInactivityTimeout()
    case DisableInactivityTimeout => w.HandleDisableInactivityTimeout()
    case SetInactivityBehavior(a, s, t) => w.HandleSetInactivityBehavior(a, s, t)
    case LidClosed(x) => w.HandleLidClosed(x)
    case LidOpen => w.HandleLidOpen()
    case SetLidBehavior(a, s) => w.HandleSetLidBehavior(a, s)
    case SetCriticalPowerBehavior(a) => w.HandleSetCriticalPowerBehavior(a)
    case NoNotification => w.HandleNoNotification()
    case NewNotification(far) => w.HandleNotification(far)
    case PowerButtonPress => w.HandlePowerButtonPress()
    case PowerButtonRelease => w.HandlePowerButtonRelease()
    case PowerSourceChange(b, far) => w.HandlePowerSourceChange(b, far)
    case PowerSourceCritical => w.HandlePowerSourceCritical()
    case ProximityFar => w.HandleProximityFar()
    case ProximityNear => w.HandleProximityNear()
    case ActivityChanging(far) => w.HandleUserActivityChangingPowerState(far)
    case ActivityExtending => w.HandleUserActivityExtendingPowerState()
    case SetNormalBrightness'(v) => w.HandleSetNormalBrightnessValue(v)
    case Autobrightness(b) => w.HandleAutobrightness(b)
    case AllowSuspend => w.HandleAllowSuspend()
    case DisallowSuspend => w.HandleDisallowSuspend()
    case TurnDisplayOn => w.HandleTurnOnDisplay()
    case TurnDisplayOff => w.HandleTurnOffDisplay()
    case SystemResume => w.HandleSystemResume()
    case Starting(b) => w.Start(b)
    case Pausing => w.Pause()
    case Resuming => w.Resume()
  }

  /** The events the daemon passes on to sessions that are not active. */
  predicate ReachesPaused(e: Event) {
    || e.TimePasses? || e.AlarmFires? || e.AlarmEvent? || e.NoActiveCall?
    || e.EnableInactivityTimeout? || e.DisableInactivityTimeout? || e.SetInactivityBehavior?
    || e.SetLidBehavior? || e.SetCriticalPowerBehavior? || e.NoNotification? || e.NewNotification?
    || e.SetNormalBrightness'? || e.Autobrightness? || e.AllowSuspend? || e.DisallowSuspend?
    || e.TurnDisplayOn? || e.TurnDisplayOff? || e.Resuming?
  }

  /** Alarms fire when due and are delivered after they fired; the rest of the restriction is
      the daemon's routing. */
  predicate Possible(w: World, e: Event) {
    && (e.AlarmFires? ==> w.p.clock.Due(e.due))
    && (e.AlarmEvent? ==> e.id in w.p.clock.fired)
    && (w.m.paused ==> ReachesPaused(e))
  }

  ghost predicate PossibleRun(w: World, es: seq<Event>)
    decreases |es|
  {
    es == [] || (Possible(w, es[0]) && PossibleRun(Step(w, es[0]), es[1..]))
  }

  ghost function Run(w: World, es: seq<Event>): World
    decreases |es|
  {
    if es == [] then w else Run(Step(w, es[0]), es[1..])
  }

  function Initial(o: Options): World {
    World(NewMachine(o), NoPlan(o.dimDuration, START_OF_TIME), NO_OUTPUTS)
  }
}
