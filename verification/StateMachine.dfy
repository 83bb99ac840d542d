/** The state machine as an object that updates its fields, schedules on a shared timer and
    talks to the outside; every method is proved against its function on values. */
module StateMachine {
  import opened Alarms
  import opened Plans
  import opened PowerModel
  import opened PowerInvariants
  import opened PowerTheorems

  /** The outgoing interfaces. */
  class Ports {
    var suspendBlocked: bool
    var proximityEvents: bool
    var block: bool
    var sensor: bool
    var inactivitySuspends: nat
    var longPresses: nat
    var loud: nat
    var log: seq<Entry>

    function View(): Outputs
      reads this
    {
      Outputs(suspendBlocked, proximityEvents, block, sensor, inactivitySuspends, longPresses, loud, log)
    }

    constructor ()
      ensures View() == NO_OUTPUTS
    {
      suspendBlocked, proximityEvents, block, sensor := false, false, false, false;
      inactivitySuspends, longPresses, loud, log := 0, 0, 0, [];
    }

    method Tell(c: Command, paused: bool, suspendAllowed: bool)
      modifies this
      ensures View() == old(View()).Record(Entry(c, paused, suspendAllowed))
    {
      log := log + [Entry(c, paused, suspendAllowed)];
      if c == DisallowAutomaticSuspend { suspendBlocked, block := true, true; }
      if c == AllowAutomaticSuspend { suspendBlocked, block := false, false; }
      if c == EnableProximityEvents { proximityEvents, sensor := true, true; }
      if c == DisableProximityEvents { proximityEvents, sensor := false, false; }
      if c == SuspendNow(Inactivity) { inactivitySuspends := inactivitySuspends + 1; }
      if c == NotifyLongPress { longPresses := longPresses + 1; }
      if !Housekeeping(c) { loud := loud + 1; }
    }
  }

  class DefaultStateMachine {
    const options: Options
    const timer: Timer
    const ports: Ports

    var clientAllows: bool
    var notificationAllows: bool
    var proximityUntilFarOrExpiration: bool
    var proximityUntilDisabled: bool
    var proximityUntilFarOrTimeout: bool
    var displayPowerMode: DisplayMode
    var displayPowerModeAtPress: DisplayMode
    var displayPowerModeReason: Reason
    var longPressAlarm: AlarmId
    var longPressDetected: bool
    var dimAlarm: AlarmId
    var offAlarm: AlarmId
    var suspendAlarm: AlarmId
    var proximityAlarm: AlarmId
    var expirationAlarm: AlarmId
    var offTime: TimePoint
    var offTimeout: Configurable<int>
    var suspendTimeout: Configurable<int>
    var scheduledTimeoutType: TimeoutType
    var lidAction: Configurable<PowerAction>
    var criticalAction: PowerAction
    var paused: bool
    var autobrightness: bool
    var normalBrightness: real
    var lidClosed: bool
    var suspendAllowed: bool
    var suspendPending: bool

    function Fields(): (m: Machine)
      reads `clientAllows, `notificationAllows
      reads `proximityUntilFarOrExpiration, `proximityUntilDisabled, `proximityUntilFarOrTimeout
      reads `displayPowerMode, `displayPowerModeAtPress, `displayPowerModeReason, `longPressDetected
      reads `offTimeout, `suspendTimeout, `lidAction, `criticalAction
      reads `paused, `autobrightness, `normalBrightness, `lidClosed, `suspendAllowed, `suspendPending
      ensures m.options == options && m.paused == paused && m.lidClosed == lidClosed
      ensures m.display == displayPowerMode && m.reason == displayPowerModeReason
      ensures m.proximityUntilFarOrExpiration == proximityUntilFarOrExpiration
      ensures m.proximityUntilDisabled == proximityUntilDisabled
      ensures m.proximityUntilFarOrTimeout == proximityUntilFarOrTimeout
      ensures m.suspendAllowed == suspendAllowed && m.suspendPending == suspendPending
      ensures m.offTimeout == offTimeout && m.suspendTimeout == suspendTimeout && m.lidAction == lidAction
      ensures m.longPressDetected == longPressDetected && m.displayAtPress == displayPowerModeAtPress
      ensures m.autobrightness == autobrightness && m.brightness == normalBrightness
    {
      Machine(
        options, clientAllows, notificationAllows,
        proximityUntilFarOrExpiration, proximityUntilDisabled, proximityUntilFarOrTimeout,
        displayPowerMode, displayPowerModeAtPress, displayPowerModeReason, longPressDetected,
        offTimeout, suspendTimeout, lidAction, criticalAction,
        paused, autobrightness, normalBrightness, lidClosed, suspendAllowed, suspendPending)
    }

    function Schedule(): (p: Plan)
      reads `longPressAlarm, `dimAlarm, `offAlarm, `suspendAlarm, `proximityAlarm, `expirationAlarm
      reads `offTime, `scheduledTimeoutType, timer
      ensures p.kind == scheduledTimeoutType && p.offTime == offTime
      ensures p.clock.now == timer.now && p.clock.fired == timer.fired
      ensures p.longPress == longPressAlarm && p.dim == dimAlarm && p.off == offAlarm
      ensures p.suspend == suspendAlarm && p.proximity == proximityAlarm && p.expiration == expirationAlarm
    {
      Plan(
        options.dimDuration, longPressAlarm, dimAlarm, offAlarm, suspendAlarm, proximityAlarm,
        expirationAlarm, offTime, scheduledTimeoutType, timer.View())
    }

    function View(): World
      reads this, timer, ports
    {
      World(Fields(), Schedule(), ports.View())
    }

    /** What every event keeps. */
    ghost predicate Valid()
      reads this, timer, ports
    {
      Inv(View())
    }

    /** A lit display that nothing holds on, left to itself, goes off at its off time. */
    lemma LeftAloneTurnsOff()
      requires Valid() && displayPowerMode == On && !paused && clientAllows && notificationAllows
      requires offTime != Never
      ensures PossibleRun(View(), OffRun(Schedule())) && Run(View(), OffRun(Schedule())).m.display == Off
    {
      hide Inv, PossibleRun, Run, OffRun;
      LeftAloneGoesOff(View());
    }

    /** Automatic suspend is blocked exactly while the display is on, or off only for something
        near, or suspending is disallowed; and a deferred suspend waits for that alone. */
    lemma BlocksSuspendExactly()
      requires Valid()
      ensures ports.suspendBlocked <==>
        displayPowerMode == On || displayPowerModeReason == Proximity || !suspendAllowed
      ensures suspendPending ==> !suspendAllowed
    {
      hide ProperLog, Plan.Valid;
    }

    /** A notification holds the display on exactly while its expiration is awaited and will come. */
    lemma NotificationHoldIsTimed()
      requires Valid()
      ensures !notificationAllows <==> expirationAlarm != INVALID
      ensures !notificationAllows ==> expirationAlarm in timer.pending || expirationAlarm in timer.fired
    {
      hide ProperLog;
    }

    constructor (options: Options, timer: Timer, ports: Ports)
      ensures this.options == options && this.timer == timer && this.ports == ports
      ensures View() == World(NewMachine(options), NoPlan(options.dimDuration, timer.View()), ports.View())
      ensures options.reducedOffTimeout > 0 && timer.View().Valid() && ports.View() == NO_OUTPUTS ==> Valid()
    {
      this.options, this.timer, this.ports := options, timer, ports;
      clientAllows, notificationAllows := true, true;
      proximityUntilFarOrExpiration, proximityUntilDisabled, proximityUntilFarOrTimeout := false, false, false;
      displayPowerMode, displayPowerModeAtPress, displayPowerModeReason := Off, UnknownMode, UnknownReason;
      longPressAlarm, longPressDetected := INVALID, false;
      dimAlarm, offAlarm, suspendAlarm, proximityAlarm, expirationAlarm := INVALID, INVALID, INVALID, INVALID, INVALID;
      offTime, scheduledTimeoutType := At(0), NoTimeout;
      offTimeout := Configurable(options.normalOffTimeout, options.normalOffTimeout, true);
      suspendTimeout := Configurable(options.normalSuspendTimeout, options.normalSuspendTimeout, true);
      lidAction, criticalAction := Configurable(SuspendSystem, SuspendSystem, true), PowerOff;
      paused, autobrightness, normalBrightness, lidClosed := false, false, 0.5, false;
      suspendAllowed, suspendPending := true, false;
    }

    // ---------- Private helpers ----------

    method Emit(c: Command)
      modifies ports
      ensures View() == old(View()).Emit(c)
      ensures Fields() == old(Fields()) && Schedule() == old(Schedule())
    {
      hide Outputs.Record;
      ports.Tell(c, paused, suspendAllowed);
    }

    method CancelUserInactivityDisplayOffAlarm()
      modifies `dimAlarm, `offAlarm, `offTime, `scheduledTimeoutType, timer
      ensures Schedule() == old(Schedule()).CancelOff() && Fields() == old(Fields())
      ensures timer.now == old(timer.now)
    {
      hide DefaultStateMachine.Fields, DefaultStateMachine.Schedule, Clock.Cancel;
      CancelDim();
      CancelOff();
      SetOffTime(At(0), NoTimeout);
    }

    method CancelDim()
      modifies `dimAlarm, timer
      ensures Schedule() == old(Schedule()).Cancel(old(dimAlarm)).(dim := INVALID)
      ensures timer.now == old(timer.now)
    {
      if dimAlarm != INVALID {
        timer.CancelAlarm(dimAlarm);
        dimAlarm := INVALID;
      }
    }

    method CancelOff()
      modifies `offAlarm, timer
      ensures Schedule() == old(Schedule()).Cancel(old(offAlarm)).(off := INVALID)
      ensures timer.now == old(timer.now)
    {
      if offAlarm != INVALID {
        timer.CancelAlarm(offAlarm);
        offAlarm := INVALID;
      }
    }

    method CancelNotificationExpirationAlarm()
      modifies `expirationAlarm, timer
      ensures Schedule() == old(Schedule()).CancelExpiration() && Fields() == old(Fields())
    {
      hide DefaultStateMachine.Fields;
      if expirationAlarm != INVALID {
        timer.CancelAlarm(expirationAlarm);
        expirationAlarm := INVALID;
      }
    }

    method ScheduleDisplayDim(timeout: int)
      modifies `dimAlarm, timer
      ensures Schedule() == old(Schedule()).ScheduleDim(timeout) && timer.now == old(timer.now)
    {
      hide Clock.ScheduleIn;
      if timeout > options.dimDuration {
        dimAlarm := timer.ScheduleAlarmIn(timeout - options.dimDuration);
      }
    }

    method ScheduleDisplayOff(timeout: int, kind: TimeoutType)
      modifies `offAlarm, `offTime, `scheduledTimeoutType, timer
      ensures Schedule() == old(Schedule()).ScheduleOff(timeout, kind)
    {
      hide Clock.ScheduleIn;
      offTime := At(timer.now + timeout);
      scheduledTimeoutType := kind;
      offAlarm := timer.ScheduleAlarmIn(timeout);
    }

    method SetOffTime(t: TimePoint, kind: TimeoutType)
      modifies `offTime, `scheduledTimeoutType
      ensures Schedule() == old(Schedule()).(offTime := t, kind := kind)
    {
      offTime := t;
      scheduledTimeoutType := kind;
    }

    method ScheduleNormalUserInactivityDisplayOffAlarm()
      modifies `dimAlarm, `offAlarm, `offTime, `scheduledTimeoutType, timer
      ensures Schedule() == old(Schedule().NormalOff(offTimeout.Get())) && Fields() == old(Fields())
    {
      hide DefaultStateMachine.Fields, DefaultStateMachine.Schedule;
      hide Plan.CancelOff, Plan.ScheduleDim, Plan.ScheduleOff;
      CancelUserInactivityDisplayOffAlarm();
      var timeout := offTimeout.Get();
      if timeout == INFINITE {
        SetOffTime(Never, Normal);
      } else {
        ScheduleDisplayDim(timeout);
        ScheduleDisplayOff(timeout, Normal);
      }
    }

    method ScheduleSuspend(timeout: int)
      modifies `suspendAlarm, timer
      ensures Schedule() == old(Schedule()).NormalSuspend(timeout)
    {
      if suspendAlarm != INVALID {
        timer.CancelAlarm(suspendAlarm);
        suspendAlarm := INVALID;
      }
      if timeout != INFINITE {
        suspendAlarm := timer.ScheduleAlarmIn(timeout);
      }
    }

    method ScheduleNormalUserInactivitySuspendAlarm()
      modifies `suspendAlarm, `suspendPending, timer
      ensures View() == old(View()).ScheduleNormalSuspend()
    {
      hide DefaultStateMachine.Schedule, Plan.NormalSuspend;
      suspendPending := false;
      ScheduleSuspend(suspendTimeout.Get());
    }

    method ScheduleNormalUserInactivityAlarm()
      modifies `dimAlarm, `offAlarm, `offTime, `scheduledTimeoutType
      modifies `suspendAlarm, `suspendPending, timer
      ensures View() == old(View()).ScheduleNormal()
    {
      hide DefaultStateMachine.Schedule;
      hide Plan.NormalOff, World.ScheduleNormalSuspend;
      ScheduleNormalUserInactivityDisplayOffAlarm();
      ScheduleNormalUserInactivitySuspendAlarm();
    }

    /** The common shape of the reduced, post-notification and immediate schedules. */
    method PostponeDisplayOff(timeout: int, kind: TimeoutType)
      modifies `dimAlarm, `offAlarm, `offTime, `scheduledTimeoutType, timer
      ensures Schedule() == old(Schedule()).Postpone(timeout, kind) && Fields() == old(Fields())
    {
      hide DefaultStateMachine.Fields, DefaultStateMachine.Schedule, Plan.CancelOff, Plan.ScheduleOff;
      if Later(timer.now + timeout, offTime) {
        CancelUserInactivityDisplayOffAlarm();
        ScheduleDisplayOff(timeout, kind);
      }
    }

    method ScheduleProximityDisableAlarm()
      modifies `proximityAlarm, timer
      ensures View() == old(View()).ScheduleProximityDisable()
    {
      hide DefaultStateMachine.Fields;
      if proximityAlarm != INVALID {
        timer.CancelAlarm(proximityAlarm);
      }
      proximityAlarm := timer.ScheduleAlarmIn(options.reducedOffTimeout);
    }

    method ScheduleNotificationExpirationAlarm()
      modifies `expirationAlarm, timer
      ensures View() == old(View()).ScheduleExpiration()
    {
      hide DefaultStateMachine.Fields;
      hide Plan.CancelExpiration, Clock.ScheduleIn;
      CancelNotificationExpirationAlarm();
      var timeout := offTimeout.Get();
      if timeout >= options.notificationExpiration {
        timeout := options.notificationExpiration;
      }
      expirationAlarm := timer.ScheduleAlarmIn(timeout);
    }

    method BrightenDisplay()
      modifies ports
      ensures View() == old(View()).Brighten()
    {
      if paused { return; }
      Emit(SetNormalBrightness);
    }

    method DimDisplay()
      modifies ports
      ensures View() == old(View()).Dim()
    {
      if paused { return; }
      Emit(SetDimBrightness);
    }

    method SetDisplay(mode: DisplayMode, reason: Reason)
      modifies `displayPowerMode, `displayPowerModeReason
      ensures Fields() == old(Fields()).(display := mode, reason := reason) && Schedule() == old(Schedule())
    {
      hide DefaultStateMachine.Schedule;
      displayPowerMode := mode;
      displayPowerModeReason := reason;
    }

    method TurnOffDisplay(reason: Reason)
      modifies `displayPowerMode, `displayPowerModeReason, `dimAlarm, `offAlarm, `offTime,
        `scheduledTimeoutType, timer, ports
      ensures View() == old(View()).TurnOff(reason)
    {
      hide DefaultStateMachine.Fields, DefaultStateMachine.Schedule, Ports.View;
      hide World.Emit, Plan.CancelOff;
      if paused { return; }
      Emit(SetOffBrightness);
      Emit(Command.TurnOffDisplay(All));
      if reason != Proximity {
        Emit(LowPowerModem);
      }
      SetDisplay(Off, reason);
      CancelUserInactivityDisplayOffAlarm();
      Emit(NotifyDisplayOff(reason));
      Emit(DisableInteractive);
      if reason != Proximity && suspendAllowed {
        Emit(AllowAutomaticSuspend);
      }
    }

    method TurnOnDisplayWithoutTimeout(reason: Reason)
      modifies `displayPowerMode, `displayPowerModeReason, ports
      ensures View() == old(View()).TurnOnWithoutTimeout(reason)
    {
      hide DefaultStateMachine.Fields, DefaultStateMachine.Schedule, Ports.View;
      hide World.Emit, World.Brighten;
      if paused { return; }
      Emit(DisallowAutomaticSuspend);
      Emit(EnableInteractive);
      if lidClosed {
        Emit(TurnOnDisplay(External));
      } else {
        Emit(TurnOnDisplay(All));
      }
      SetDisplay(On, reason);
      if !lidClosed {
        BrightenDisplay();
      }
      Emit(NormalPowerModem);
      Emit(NotifyDisplayOn(reason));
    }

    method TurnOnDisplayWithNormalTimeout(reason: Reason)
      modifies `displayPowerMode, `displayPowerModeReason, `dimAlarm, `offAlarm, `offTime, `scheduledTimeoutType
      modifies `suspendAlarm, `suspendPending, timer, ports
      ensures View() == old(View()).TurnOn(reason)
    {
      hide DefaultStateMachine.Schedule;
      hide World.TurnOnWithoutTimeout, World.ScheduleNormal;
      TurnOnDisplayWithoutTimeout(reason);
      ScheduleNormalUserInactivityAlarm();
    }

    method ScheduleReducedUserInactivityAlarm()
      modifies this, timer
      ensures View() == old(View()).ScheduleReduced()
    {
      hide DefaultStateMachine.Schedule;
      hide Plan.Postpone;
      PostponeDisplayOff(options.reducedOffTimeout, Reduced);
    }

    method TurnOnDisplayWithReducedTimeout(reason: Reason)
      modifies this, timer, ports
      ensures View() == old(View()).TurnOnReduced(reason)
    {
      hide DefaultStateMachine.Schedule;
      hide World.TurnOnWithoutTimeout, World.ScheduleReduced;
      TurnOnDisplayWithoutTimeout(reason);
      ScheduleReducedUserInactivityAlarm();
    }

    method IsInactivityTimeoutAllowed() returns (r: bool)
      ensures r == Fields().TimeoutAllowed()
    {
      return notificationAllows && clientAllows;
    }

    method IsInactivityTimeoutApplicationAllowed() returns (r: bool)
      ensures r == Fields().TimeoutApplies()
    {
      r := IsInactivityTimeoutAllowed();
      if r { return true; }
      return displayPowerModeReason == Notification || displayPowerModeReason == Call;
    }

    method SetClientAllows(value: bool)
      modifies `clientAllows
      ensures Fields() == old(Fields()).(clientAllows := value)
    {
      clientAllows := value;
    }

    method SetNotificationAllows(value: bool)
      modifies `notificationAllows
      ensures Fields() == old(Fields()).(notificationAllows := value)
    {
      notificationAllows := value;
    }

    method SetAllowance(a: Allowance, value: bool)
      modifies `clientAllows, `notificationAllows
      ensures Fields() == old(Fields()).Allow(a, value)
    {
      hide DefaultStateMachine.Fields;
      if a == Client { SetClientAllows(value); } else { SetNotificationAllows(value); }
    }

    method AllowInactivityTimeout(a: Allowance)
      modifies this, timer, ports
      ensures View() == old(View()).AllowTimeout(a)
    {
      hide DefaultStateMachine.Fields, DefaultStateMachine.Schedule;
      hide World.OnceAllowed, Machine.Allow, Machine.TimeoutAllowed;
      var allowed := IsInactivityTimeoutAllowed();
      if !allowed {
        SetAllowance(a, true);
        OnceAllowed(a);
      }
    }

    method OnceAllowed(a: Allowance)
      modifies this, timer, ports
      ensures View() == old(View()).OnceAllowed(a)
    {
      hide DefaultStateMachine.Fields, DefaultStateMachine.Schedule;
      hide World.TurnOff, World.ScheduleNormal, Machine.TimeoutAllowed;
      var allowed := IsInactivityTimeoutAllowed();
      if allowed && displayPowerMode == On {
        if a == Notifications && scheduledTimeoutType == NoTimeout {
          TurnOffDisplay(Activity);
        } else if a == Client {
          ScheduleNormalUserInactivityAlarm();
        }
      }
    }

    method IsProximityEnabled() returns (r: bool)
      ensures r == Fields().ProximityEnabled()
    {
      return proximityUntilFarOrExpiration || proximityUntilDisabled || proximityUntilFarOrTimeout;
    }

    method SetEnablement(e: Enablement, value: bool)
      modifies `proximityUntilFarOrExpiration, `proximityUntilDisabled, `proximityUntilFarOrTimeout
      ensures Fields() == old(Fields()).Enable(e, value)
    {
      hide DefaultStateMachine.Schedule;
      match e
      case UntilFarOrExpiration => proximityUntilFarOrExpiration := value;
      case UntilDisabled => proximityUntilDisabled := value;
      case UntilFarOrTimeout => proximityUntilFarOrTimeout := value;
    }

    method EnableProximity(e: Enablement)
      modifies `proximityUntilFarOrExpiration, `proximityUntilDisabled, `proximityUntilFarOrTimeout, ports
      ensures View() == old(View()).EnableProximity(e)
    {
      hide DefaultStateMachine.Fields, DefaultStateMachine.Schedule;
      hide World.Emit, Machine.Enable, Machine.ProximityEnabled;
      var before := IsProximityEnabled();
      SetEnablement(e, true);
      var after := IsProximityEnabled();
      if !before && after {
        Emit(EnableProximityEvents);
      }
    }

    method DisableProximity(e: Enablement)
      modifies `proximityUntilFarOrExpiration, `proximityUntilDisabled, `proximityUntilFarOrTimeout, ports
      ensures View() == old(View()).DisableProximity(e)
    {
      hide DefaultStateMachine.Fields, DefaultStateMachine.Schedule;
      hide World.Emit, Machine.Enable, Machine.ProximityEnabled;
      var before := IsProximityEnabled();
      SetEnablement(e, false);
      var after := IsProximityEnabled();
      if before && !after {
        Emit(DisableProximityEvents);
      }
    }

    method SetSuspendPending(value: bool)
      modifies `suspendPending
      ensures Fields() == old(Fields()).(suspendPending := value)
    {
      suspendPending := value;
    }

    method SuspendWhenAllowed()
      modifies `suspendPending, ports
      ensures View() == old(View()).SuspendWhenAllowed()
    {
      hide DefaultStateMachine.Fields, DefaultStateMachine.Schedule;
      hide World.Emit;
      if suspendAllowed {
        SetSuspendPending(false);
        if !paused {
          Emit(SuspendNow(Inactivity));
        }
      } else {
        SetSuspendPending(true);
      }
    }

    // ---------- Handlers ----------

    method DropLongPress()
      modifies `longPressAlarm
      ensures Schedule() == old(Schedule()).(longPress := INVALID)
    {
      longPressAlarm := INVALID;
    }

    method DropDim()
      modifies `dimAlarm
      ensures Schedule() == old(Schedule()).(dim := INVALID)
    {
      dimAlarm := INVALID;
    }

    method DropOff()
      modifies `offAlarm
      ensures Schedule() == old(Schedule()).(off := INVALID)
    {
      offAlarm := INVALID;
    }

    method DropSuspend()
      modifies `suspendAlarm
      ensures Schedule() == old(Schedule()).(suspend := INVALID)
    {
      suspendAlarm := INVALID;
    }

    method DropProximity()
      modifies `proximityAlarm
      ensures Schedule() == old(Schedule()).(proximity := INVALID)
    {
      proximityAlarm := INVALID;
    }

    method DropExpiration()
      modifies `expirationAlarm
      ensures Schedule() == old(Schedule()).(expiration := INVALID)
    {
      expirationAlarm := INVALID;
    }

    method SetLongPressDetected(value: bool)
      modifies `longPressDetected
      ensures Fields() == old(Fields()).(longPressDetected := value)
    {
      longPressDetected := value;
    }

    method HandleAlarm(id: AlarmId)
      modifies this, timer, ports
      ensures View() == old(View()).HandleAlarm(id)
      ensures old(Valid()) && id in old(timer.fired) ==> Valid()
    {
      hide Inv, DefaultStateMachine.Fields, DefaultStateMachine.Schedule, Ports.View;
      hide World.LongPressAlarm, World.DimAlarm, World.OffAlarm;
      hide World.SuspendAlarm, World.ProximityAlarm, World.ExpirationAlarm;
      if Valid() && id in timer.fired { AlarmKeeps(View(), id); }
      if id == longPressAlarm { HandleLongPressAlarm(); }
      else if id == dimAlarm { HandleDimAlarm(); }
      else if id == offAlarm { HandleOffAlarm(); }
      else if id == suspendAlarm { HandleSuspendAlarm(); }
      else if id == proximityAlarm { HandleProximityAlarm(); }
      else if id == expirationAlarm { HandleExpirationAlarm(); }
    }

    method HandleLongPressAlarm()
      modifies `longPressDetected, `longPressAlarm, ports
      ensures View() == old(View()).LongPressAlarm()
    {
      hide DefaultStateMachine.Fields, DefaultStateMachine.Schedule, World.Emit;
      Emit(NotifyLongPress);
      SetLongPressDetected(true);
      DropLongPress();
    }

    method HandleDimAlarm()
      modifies `dimAlarm, ports
      ensures View() == old(View()).DimAlarm()
    {
      hide DefaultStateMachine.Fields, DefaultStateMachine.Schedule, World.Dim, Machine.TimeoutApplies;
      DropDim();
      var applies := IsInactivityTimeoutApplicationAllowed();
      if applies { DimDisplay(); }
    }

    method HandleSuspendAlarm()
      modifies `suspendAlarm, `suspendPending, ports
      ensures View() == old(View()).SuspendAlarm()
    {
      hide DefaultStateMachine.Fields, DefaultStateMachine.Schedule, World.SuspendWhenAllowed, Machine.TimeoutApplies;
      DropSuspend();
      var applies := IsInactivityTimeoutApplicationAllowed();
      if applies { SuspendWhenAllowed(); }
    }

    method HandleProximityAlarm()
      modifies this, ports
      ensures View() == old(View()).ProximityAlarm()
    {
      hide DefaultStateMachine.Fields, DefaultStateMachine.Schedule, World.DisableProximity;
      DropProximity();
      DisableProximity(UntilFarOrTimeout);
    }

    method HandleOffAlarm()
      modifies this, timer, ports
      ensures View() == old(View()).OffAlarm()
    {
      hide DefaultStateMachine.Fields, DefaultStateMachine.Schedule;
      hide Ports.View, World.TurnOffIfApplicable;
      DropOff();
      TurnOffIfApplicable();
      SetOffTime(offTime, NoTimeout);
    }

    method TurnOffIfApplicable()
      modifies `displayPowerMode, `displayPowerModeReason, `dimAlarm, `offAlarm, `offTime, `scheduledTimeoutType
      modifies timer, ports
      ensures View() == old(View()).TurnOffIfApplicable()
    {
      hide DefaultStateMachine.Fields, DefaultStateMachine.Schedule;
      hide Ports.View, World.TurnOff, Machine.TimeoutApplies;
      var applies := IsInactivityTimeoutApplicationAllowed();
      if applies { TurnOffDisplay(Activity); }
    }

    method HandleExpirationAlarm()
      modifies this, timer, ports
      ensures View() == old(View()).ExpirationAlarm()
    {
      hide DefaultStateMachine.Fields, DefaultStateMachine.Schedule;
      hide World.DisableProximity, World.AllowTimeout, Plan.Postpone;
      DropExpiration();
      if displayPowerMode == On { PostponeDisplayOff(0, PostNotification); }
      AllowInactivityTimeout(Notifications);
      DisableProximity(UntilFarOrExpiration);
    }

    method HandleActiveCall(far: bool)
      modifies this, timer, ports
      ensures View() == old(View()).HandleActiveCall(far)
      ensures old(Valid()) && !old(paused) ==> Valid()
    {
      hide Inv, DefaultStateMachine.Fields, DefaultStateMachine.Schedule;
      hide World.Brighten, World.ScheduleNormal, World.TurnOn, World.EnableProximity;
      if Valid() && !paused { ActiveCallKeeps(View(), far); }
      if displayPowerMode == On {
        BrightenDisplay();
        ScheduleNormalUserInactivityAlarm();
      } else if far {
        TurnOnDisplayWithNormalTimeout(Call);
      }
      EnableProximity(UntilDisabled);
    }

    method HandleNoActiveCall(far: bool)
      modifies this, timer, ports
      ensures View() == old(View()).HandleNoActiveCall(far)
      ensures old(Valid()) ==> Valid()
    {
      hide Inv, DefaultStateMachine.Fields, DefaultStateMachine.Schedule;
      hide World.Brighten, World.ScheduleReduced, World.TurnOnReduced, World.EnableProximity;
      hide World.DisableProximity, World.ScheduleProximityDisable;
      if Valid() { NoActiveCallKeeps(View(), far); }
      if displayPowerMode == On {
        BrightenDisplay();
        ScheduleReducedUserInactivityAlarm();
      } else if far {
        TurnOnDisplayWithReducedTimeout(CallDone);
      } else {
        EnableProximity(UntilFarOrTimeout);
        ScheduleProximityDisableAlarm();
      }
      DisableProximity(UntilDisabled);
    }

    method HandleEnableInactivityTimeout()
      modifies this, timer, ports
      ensures View() == old(View()).HandleEnableInactivityTimeout()
      ensures old(Valid()) ==> Valid()
    {
      hide Inv, DefaultStateMachine.Fields, DefaultStateMachine.Schedule;
      hide World.AllowTimeout;
      if Valid() { EnableInactivityTimeoutKeeps(View()); }
      AllowInactivityTimeout(Client);
    }

    method HandleDisableInactivityTimeout()
      modifies this, timer, ports
      ensures View() == old(View()).HandleDisableInactivityTimeout()
      ensures old(Valid()) ==> Valid()
    {
      hide Inv, DefaultStateMachine.Fields, DefaultStateMachine.Schedule;
      hide World.Brighten, World.TurnOnWithoutTimeout;
      if Valid() { DisableInactivityTimeoutKeeps(View()); }
      SetAllowance(Client, false);
      if displayPowerMode == On {
        BrightenDisplay();
      } else {
        TurnOnDisplayWithoutTimeout(UnknownReason);
      }
    }

    method SetOffTimeout(timeout: Configurable<int>)
      modifies `offTimeout
      ensures Fields() == old(Fields()).(offTimeout := timeout)
    {
      offTimeout := timeout;
    }

    method SetSuspendTimeout(timeout: Configurable<int>)
      modifies `suspendTimeout
      ensures Fields() == old(Fields()).(suspendTimeout := timeout)
    {
      suspendTimeout := timeout;
    }

    method SetLidAction(action: Configurable<PowerAction>)
      modifies `lidAction
      ensures Fields() == old(Fields()).(lidAction := action)
    {
      lidAction := action;
    }

    method HandleSetInactivityBehavior(action: PowerAction, supply: PowerSupply, timeout: int)
      modifies this, timer, ports
      ensures View() == old(View()).HandleSetInactivityBehavior(action, supply, timeout)
      ensures old(Valid()) ==> Valid()
    {
      hide Inv, DefaultStateMachine.Fields, DefaultStateMachine.Schedule;
      hide World.ScheduleNormal;
      if Valid() { SetInactivityBehaviorKeeps(View(), action, supply, timeout); }
      if timeout <= 0 { return; }
      if action != DisplayOff && action != SuspendSystem { return; }
      if action == DisplayOff {
        SetOffTimeout(offTimeout.Set(supply, timeout));
      } else {
        SetSuspendTimeout(suspendTimeout.Set(supply, timeout));
      }
      var active := if supply == Battery then offTimeout.isOnBattery else !offTimeout.isOnBattery;
      if scheduledTimeoutType == Normal && active {
        ScheduleNormalUserInactivityAlarm();
      }
    }

    method HandleLidClosed(externalDisplays: bool)
      modifies this, timer, ports
      ensures View() == old(View()).HandleLidClosed(externalDisplays)
      ensures old(Valid()) && !old(paused) ==> Valid()
    {
      hide Inv, DefaultStateMachine.Fields, DefaultStateMachine.Schedule;
      hide World.TurnOff, World.Emit;
      if Valid() && !paused { LidClosedKeeps(View(), externalDisplays); }
      SetLid(true);
      if !externalDisplays {
        if displayPowerMode == On { TurnOffDisplay(UnknownReason); }
        if lidAction.Get() == SuspendSystem { Emit(SuspendNow(LidClosing)); }
      } else {
        Emit(Command.TurnOffDisplay(Internal));
      }
    }

    method SetLid(closed: bool)
      modifies `lidClosed
      ensures Fields() == old(Fields()).(lidClosed := closed)
    {
      lidClosed := closed;
    }

    method SetReason(reason: Reason)
      modifies `displayPowerModeReason
      ensures Fields() == old(Fields()).(reason := reason)
    {
      displayPowerModeReason := reason;
    }

    /** Brighten, restart the normal timeouts, note the reason. */
    method ExtendFor(reason: Reason)
      modifies this, timer, ports
      ensures View() == old(View()).ExtendFor(reason)
    {
      hide DefaultStateMachine.Fields, DefaultStateMachine.Schedule;
      hide World.Brighten, World.ScheduleNormal;
      BrightenDisplay();
      ScheduleNormalUserInactivityAlarm();
      SetReason(reason);
    }

    method HandleLidOpen()
      modifies this, timer, ports
      ensures View() == old(View()).HandleLidOpen()
      ensures old(Valid()) && !old(paused) ==> Valid()
    {
      hide Inv, DefaultStateMachine.Fields, DefaultStateMachine.Schedule;
      hide World.ExtendFor, World.TurnOn, World.Emit;
      if Valid() && !paused { LidOpenKeeps(View()); }
      SetLid(false);
      if displayPowerMode == On {
        Emit(TurnOnDisplay(Internal));
        ExtendFor(Activity);
      } else {
        TurnOnDisplayWithNormalTimeout(Activity);
      }
    }

    method HandleSetLidBehavior(action: PowerAction, supply: PowerSupply)
      modifies this
      ensures View() == old(View()).HandleSetLidBehavior(action, supply)
      ensures old(Valid()) ==> Valid()
    {
      hide Inv, DefaultStateMachine.Schedule;
      if Valid() { BehaviorKeeps(View(), action, supply); }
      if action != NoAction && action != SuspendSystem { return; }
      SetLidAction(lidAction.Set(supply, action));
    }

    method HandleSetCriticalPowerBehavior(action: PowerAction)
      modifies this
      ensures View() == old(View()).HandleSetCriticalPowerBehavior(action)
      ensures old(Valid()) ==> Valid()
    {
      hide Inv, DefaultStateMachine.Schedule;
      if Valid() { BehaviorKeeps(View(), action, Battery); }
      if action != SuspendSystem && action != PowerOff { return; }
      criticalAction := action;
    }

    method HandleNoNotification()
      modifies this, timer, ports
      ensures View() == old(View()).HandleNoNotification()
      ensures old(Valid()) ==> Valid()
    {
      hide Inv, DefaultStateMachine.Fields, DefaultStateMachine.Schedule;
      hide World.AllowTimeout, World.DisableProximity, Plan.Postpone, Plan.CancelExpiration;
      if Valid() { NoNotificationKeeps(View()); }
      if displayPowerMode == On {
        PostponeDisplayOff(options.postNotificationOffTimeout, PostNotification);
      }
      AllowInactivityTimeout(Notifications);
      DisableProximity(UntilFarOrExpiration);
      CancelNotificationExpirationAlarm();
    }

    method HandleNotification(far: bool)
      modifies this, timer, ports
      ensures View() == old(View()).HandleNotification(far)
      ensures old(Valid()) ==> Valid()
    {
      hide Inv, DefaultStateMachine.Fields, DefaultStateMachine.Schedule;
      hide World.Brighten, World.TurnOnWithoutTimeout, World.EnableProximity, World.ScheduleExpiration;
      if Valid() { NotificationKeeps(View(), far); }
      SetAllowance(Notifications, false);
      if displayPowerMode == On {
        BrightenDisplay();
      } else if far {
        TurnOnDisplayWithoutTimeout(Notification);
      } else {
        EnableProximity(UntilFarOrExpiration);
      }
      ScheduleNotificationExpirationAlarm();
    }

    method SetModeAtPress(mode: DisplayMode)
      modifies `displayPowerModeAtPress
      ensures Fields() == old(Fields()).(displayAtPress := mode)
    {
      displayPowerModeAtPress := mode;
    }

    method ScheduleLongPress()
      modifies `longPressAlarm, timer
      ensures Schedule() == old(Schedule()).LongPress(options.longPressTimeout)
    {
      hide Clock.ScheduleIn;
      longPressAlarm := timer.ScheduleAlarmIn(options.longPressTimeout);
    }

    method HandlePowerButtonPress()
      modifies this, timer, ports
      ensures View() == old(View()).HandlePowerButtonPress()
      ensures old(Valid()) && !old(paused) ==> Valid()
    {
      hide Inv, DefaultStateMachine.Fields, DefaultStateMachine.Schedule, Ports.View;
      hide World.ExtendFor, World.TurnOn, Plan.LongPress;
      if Valid() && !paused { PressKeeps(View()); }
      SetModeAtPress(displayPowerMode);
      if options.powerButtonIsActivity && displayPowerMode == On {
        ExtendFor(PowerButton);
      } else if displayPowerMode == Off {
        TurnOnDisplayWithNormalTimeout(PowerButton);
      }
      ScheduleLongPress();
    }

    /** What a release does to the display. */
    method EndPress()
      modifies this, timer, ports
      ensures View() == old(View()).EndPress()
    {
      hide DefaultStateMachine.Fields, DefaultStateMachine.Schedule;
      hide Ports.View, World.TurnOff;
      if longPressDetected {
        SetLongPressDetected(false);
      } else if displayPowerModeAtPress == On && !options.powerButtonIsActivity {
        TurnOffDisplay(PowerButton);
      }
    }

    method HandlePowerButtonRelease()
      modifies this, timer, ports
      ensures View() == old(View()).HandlePowerButtonRelease()
      ensures old(Valid()) && !old(paused) ==> Valid()
    {
      hide Inv, DefaultStateMachine.Fields, DefaultStateMachine.Schedule;
      hide Ports.View, World.EndPress;
      if Valid() && !paused { ReleaseKeeps(View()); }
      EndPress();
      SetModeAtPress(UnknownMode);
      DropLongPress();
    }

    method SetOnBattery(battery: bool)
      modifies `offTimeout, `suspendTimeout, `lidAction
      ensures View() == old(View()).OnBattery(battery)
    {
      hide DefaultStateMachine.Fields, DefaultStateMachine.Schedule;
      SetOffTimeout(offTimeout.(isOnBattery := battery));
      SetSuspendTimeout(suspendTimeout.(isOnBattery := battery));
      SetLidAction(lidAction.(isOnBattery := battery));
    }

    method HandlePowerSourceChange(battery: bool, far: bool)
      modifies this, timer, ports
      ensures View() == old(View()).HandlePowerSourceChange(battery, far)
      ensures old(Valid()) && !old(paused) ==> Valid()
    {
      hide Inv, DefaultStateMachine.Fields, DefaultStateMachine.Schedule;
      hide World.OnBattery, World.ExtendFor, World.TurnOnReduced, World.ScheduleNormalSuspend;
      if Valid() && !paused { PowerSourceChangeKeeps(View(), battery, far); }
      SetOnBattery(battery);
      if displayPowerMode == On {
        ExtendFor(Activity);
      } else if far {
        TurnOnDisplayWithReducedTimeout(Notification);
      }
      ScheduleNormalUserInactivitySuspendAlarm();
    }

    method HandlePowerSourceCritical()
      modifies ports
      ensures View() == old(View()).HandlePowerSourceCritical()
      ensures old(Valid()) && !old(paused) ==> Valid()
    {
      hide Inv, World.Emit;
      if Valid() && !paused { PowerSourceCriticalKeeps(View()); }
      if criticalAction == PowerOff {
        Emit(PowerOffNow);
      } else if criticalAction == SuspendSystem {
        Emit(SuspendNow(CriticalPower));
      }
    }

    method HandleProximityFar()
      modifies this, timer, ports
      ensures View() == old(View()).HandleProximityFar()
      ensures old(Valid()) && !old(paused) ==> Valid()
    {
      hide Inv, DefaultStateMachine.Fields, DefaultStateMachine.Schedule;
      hide World.DisableProximity, World.TurnOn, World.TurnOnReduced;
      if Valid() && !paused { ProximityKeeps(View()); }
      var reduced := OnlyUntilFarOrExpiration();
      DisableProximity(UntilFarOrExpiration);
      DisableProximity(UntilFarOrTimeout);
      if displayPowerMode == Off {
        if reduced {
          TurnOnDisplayWithReducedTimeout(Proximity);
        } else {
          TurnOnDisplayWithNormalTimeout(Proximity);
        }
      }
    }

    method OnlyUntilFarOrExpiration() returns (r: bool)
      ensures r == Fields().ProximityOnlyUntilExpiration()
    {
      var n := 0;
      if proximityUntilFarOrExpiration { n := n + 1; }
      if proximityUntilDisabled { n := n + 1; }
      if proximityUntilFarOrTimeout { n := n + 1; }
      return n == 1 && proximityUntilFarOrExpiration;
    }

    method HandleProximityNear()
      modifies this, timer, ports
      ensures View() == old(View()).HandleProximityNear()
      ensures old(Valid()) && !old(paused) ==> Valid()
    {
      hide Inv, DefaultStateMachine.Fields, DefaultStateMachine.Schedule;
      hide World.TurnOff;
      if Valid() && !paused { ProximityKeeps(View()); }
      if displayPowerMode == On { TurnOffDisplay(Proximity); }
    }

    method HandleUserActivityChangingPowerState(far: bool)
      modifies this, timer, ports
      ensures View() == old(View()).HandleUserActivityChangingPowerState(far)
      ensures old(Valid()) ==> Valid()
    {
      hide Inv, DefaultStateMachine.Fields, DefaultStateMachine.Schedule;
      hide World.ExtendFor, World.TurnOn;
      if Valid() { ActivityKeeps(View(), far); }
      if displayPowerMode == On {
        ExtendFor(Activity);
      } else if far {
        TurnOnDisplayWithNormalTimeout(Activity);
      }
    }

    method HandleUserActivityExtendingPowerState()
      modifies this, timer, ports
      ensures View() == old(View()).HandleUserActivityExtendingPowerState()
      ensures old(Valid()) ==> Valid()
    {
      hide Inv, DefaultStateMachine.Fields, DefaultStateMachine.Schedule;
      hide World.ExtendFor;
      if Valid() { ActivityKeeps(View(), true); }
      if displayPowerMode == On { ExtendFor(Activity); }
    }

    method HandleSetNormalBrightnessValue(value: real)
      modifies this, ports
      ensures View() == old(View()).HandleSetNormalBrightnessValue(value)
      ensures old(Valid()) ==> Valid()
    {
      hide Inv, DefaultStateMachine.Schedule, World.Emit;
      if Valid() { BrightnessKeeps(View(), value, true); }
      normalBrightness := value;
      if paused { return; }
      Emit(DisableAutobrightness);
      Emit(SetBrightnessValue(value));
    }

    method HandleAutobrightness(enabled: bool)
      modifies this, ports
      ensures View() == old(View()).HandleAutobrightness(enabled)
      ensures old(Valid()) ==> Valid()
    {
      hide Inv, DefaultStateMachine.Schedule, World.Emit;
      if Valid() { BrightnessKeeps(View(), 0.0, enabled); }
      autobrightness := enabled;
      if paused { return; }
      if enabled { Emit(EnableAutobrightness); } else { Emit(DisableAutobrightness); }
    }

    method SetSuspendAllowed(value: bool)
      modifies `suspendAllowed
      ensures Fields() == old(Fields()).(suspendAllowed := value)
    {
      suspendAllowed := value;
    }

    method HandleAllowSuspend()
      modifies this, ports
      ensures View() == old(View()).HandleAllowSuspend()
      ensures old(Valid()) ==> Valid()
    {
      hide Inv, DefaultStateMachine.Fields, DefaultStateMachine.Schedule;
      hide World.SuspendWhenAllowed, Outputs.Record;
      if Valid() { AllowSuspendKeeps(View()); }
      SetSuspendAllowed(true);
      if displayPowerMode == Off && displayPowerModeReason != Proximity {
        Emit(AllowAutomaticSuspend);
      }
      if suspendPending { SuspendWhenAllowed(); }
    }

    method HandleDisallowSuspend()
      modifies this, ports
      ensures View() == old(View()).HandleDisallowSuspend()
      ensures old(Valid()) ==> Valid()
    {
      hide Inv, DefaultStateMachine.Fields, DefaultStateMachine.Schedule;
      hide World.Emit;
      if Valid() { DisallowSuspendKeeps(View()); }
      SetSuspendAllowed(false);
      Emit(DisallowAutomaticSuspend);
    }

    method HandleTurnOnDisplay()
      modifies this, timer, ports
      ensures View() == old(View()).HandleTurnOnDisplay()
      ensures old(Valid()) ==> Valid()
    {
      hide Inv, World.TurnOn;
      if Valid() { SwitchDisplayKeeps(View()); }
      TurnOnDisplayWithNormalTimeout(PowerButton);
    }

    method HandleTurnOffDisplay()
      modifies this, timer, ports
      ensures View() == old(View()).HandleTurnOffDisplay()
      ensures old(Valid()) ==> Valid()
    {
      hide Inv, World.TurnOff;
      if Valid() { SwitchDisplayKeeps(View()); }
      TurnOffDisplay(PowerButton);
    }

    method HandleSystemResume()
      modifies this, timer, ports
      ensures View() == old(View()).HandleSystemResume()
      ensures old(Valid()) ==> Valid()
    {
      hide Inv, World.TurnOn;
      if Valid() { SwitchDisplayKeeps(View()); }
      TurnOnDisplayWithNormalTimeout(Activity);
    }

    method Start(battery: bool)
      modifies this, timer, ports
      ensures View() == old(View()).Start(battery)
      ensures old(Valid()) && !old(paused) ==> Valid()
    {
      hide Inv, DefaultStateMachine.Fields, DefaultStateMachine.Schedule;
      hide World.OnBattery, World.Emit, World.TurnOn;
      if Valid() && !paused { StartKeeps(View(), battery); }
      SetOnBattery(battery);
      Emit(DisallowDefaultHandlers);
      if options.displayOnAtStartup { TurnOnDisplayWithNormalTimeout(UnknownReason); }
    }

    method SetPaused(value: bool)
      modifies `paused
      ensures Fields() == old(Fields()).(paused := value)
    {
      paused := value;
    }

    method CancelLongPress()
      modifies `longPressAlarm, timer
      ensures Schedule() == old(Schedule()).CancelLongPress()
    {
      if longPressAlarm != INVALID {
        timer.CancelAlarm(longPressAlarm);
        longPressAlarm := INVALID;
      }
    }

    /** The part of pausing that comes after the long press is given up. */
    method StepBack()
      modifies `paused, ports
      ensures View() == old(View()).StepBack()
    {
      hide DefaultStateMachine.Fields, DefaultStateMachine.Schedule, Ports.View;
      hide World.Emit;
      Emit(DisableProximityEvents);
      Emit(DisableAutobrightness);
      Emit(AllowDefaultHandlers);
      SetPaused(true);
    }

    method Pause()
      modifies this, timer, ports
      ensures View() == old(View()).Pause()
      ensures old(Valid()) && !old(paused) ==> Valid()
    {
      hide Inv, DefaultStateMachine.Fields, DefaultStateMachine.Schedule, Ports.View;
      hide World.StepBack, Plan.CancelLongPress;
      if Valid() && !paused { PauseKeeps(View()); }
      CancelLongPress();
      StepBack();
    }

    /** The part of resuming that comes before the display is turned on. */
    method TakeOver()
      modifies `paused, ports
      ensures View() == old(View()).TakeOver()
    {
      hide DefaultStateMachine.Fields, DefaultStateMachine.Schedule, Ports.View;
      hide World.Emit;
      SetPaused(false);
      Emit(DisallowDefaultHandlers);
      if autobrightness { Emit(EnableAutobrightness); } else { Emit(DisableAutobrightness); }
      Emit(SetBrightnessValue(normalBrightness));
    }

    method Resume()
      modifies this, timer, ports
      ensures View() == old(View()).Resume()
      ensures old(Valid()) ==> Valid()
    {
      hide Inv, DefaultStateMachine.Fields, DefaultStateMachine.Schedule;
      hide World.TurnOn, World.TakeOver, World.Emit;
      if Valid() { ResumeKeeps(View()); }
      TakeOver();
      TurnOnDisplayWithNormalTimeout(UnknownReason);
      var enabled := IsProximityEnabled();
      if enabled { Emit(EnableProximityEvents); }
    }
  }
}
