/** What holds in every run of one session's state machine. */
module PowerTheorems {
  import opened Alarms
  import opened Plans
  import opened PowerModel
  import opened PowerInvariants
  import opened PowerEffects

  lemma StepKeepsActive(w: World, e: Event)
    requires Inv(w) && Possible(w, e) && !ReachesPaused(e)
    ensures Inv(Step(w, e))
  {
    hide Inv;
    hide World.HandleActiveCall, World.HandleLidClosed, World.HandleLidOpen, World.HandlePowerButtonPress;
    hide World.HandlePowerButtonRelease, World.HandlePowerSourceChange, World.HandlePowerSourceCritical;
    hide World.HandleProximityFar, World.HandleProximityNear, World.HandleUserActivityChangingPowerState;
    hide World.HandleUserActivityExtendingPowerState, World.HandleSystemResume, World.Start, World.Pause;
    match e
    case ActiveCall(far) => ActiveCallKeeps(w, far);
    case LidClosed(x) => LidClosedKeeps(w, x);
    case LidOpen => LidOpenKeeps(w);
    case PowerButtonPress => PressKeeps(w);
    case PowerButtonRelease => ReleaseKeeps(w);
    case PowerSourceChange(b, far) => PowerSourceChangeKeeps(w, b, far);
    case PowerSourceCritical => PowerSourceCriticalKeeps(w);
    case ProximityFar => ProximityKeeps(w);
    case ProximityNear => ProximityKeeps(w);
    case ActivityChanging(far) => ActivityKeeps(w, far);
    case ActivityExtending => ActivityKeeps(w, true);
    case SystemResume => SwitchDisplayKeeps(w);
    case Starting(b) => StartKeeps(w, b);
    case Pausing => PauseKeeps(w);
    case _ =>
  }

  predicate ClientEvent(e: Event) {
    || e.NoActiveCall? || e.EnableInactivityTimeout? || e.DisableInactivityTimeout?
    || e.SetInactivityBehavior? || e.NoNotification? || e.NewNotification?
  }

  lemma StepKeepsClient(w: World, e: Event)
    requires Inv(w) && ClientEvent(e)
    ensures Inv(Step(w, e))
  {
    hide Inv;
    hide World.HandleNoActiveCall, World.HandleEnableInactivityTimeout, World.HandleDisableInactivityTimeout;
    hide World.HandleSetInactivityBehavior, World.HandleNoNotification, World.HandleNotification;
    match e
    case NoActiveCall(far) => NoActiveCallKeeps(w, far);
    case EnableInactivityTimeout => EnableInactivityTimeoutKeeps(w);
    case DisableInactivityTimeout => DisableInactivityTimeoutKeeps(w);
    case SetInactivityBehavior(a, s, t) => SetInactivityBehaviorKeeps(w, a, s, t);
    case NoNotification => NoNotificationKeeps(w);
    case NewNotification(far) => NotificationKeeps(w, far);
    case _ =>
  }

  lemma StepKeepsOther(w: World, e: Event)
    requires Inv(w) && Possible(w, e) && ReachesPaused(e) && !ClientEvent(e)
    ensures Inv(Step(w, e))
  {
    hide Inv;
    hide World.HandleSetLidBehavior, World.HandleSetCriticalPowerBehavior, World.HandleSetNormalBrightnessValue;
    hide World.HandleAutobrightness, World.HandleAllowSuspend, World.HandleDisallowSuspend;
    hide World.HandleTurnOnDisplay, World.HandleTurnOffDisplay, World.HandleAlarm, World.Resume;
    match e
    case TimePasses(t) => TimeKeeps(w, t);
    case AlarmFires(id) => FireKeeps(w, id);
    case AlarmEvent(id) => AlarmKeeps(w, id);
    case SetLidBehavior(a, s) => BehaviorKeeps(w, a, s);
    case SetCriticalPowerBehavior(a) => BehaviorKeeps(w, a, Battery);
    case SetNormalBrightness'(v) => BrightnessKeeps(w, v, true);
    case Autobrightness(b) => BrightnessKeeps(w, 0.0, b);
    case AllowSuspend => AllowSuspendKeeps(w);
    case DisallowSuspend => DisallowSuspendKeeps(w);
    case TurnDisplayOn => SwitchDisplayKeeps(w);
    case TurnDisplayOff => SwitchDisplayKeeps(w);
    case Resuming => ResumeKeeps(w);
    case _ =>
  }

  /** Every possible event keeps the invariant. */
  lemma StepKeeps(w: World, e: Event)
    requires Inv(w) && Possible(w, e)
    ensures Inv(Step(w, e))
  {
    hide Inv, Step;
    if ClientEvent(e) { StepKeepsClient(w, e); }
    else if ReachesPaused(e) { StepKeepsOther(w, e); }
    else { StepKeepsActive(w, e); }
  }

  lemma InitialHolds(o: Options)
    requires o.reducedOffTimeout > 0
    ensures Inv(Initial(o))
  {
  }

  lemma {:induction false} RunKeeps(w: World, es: seq<Event>)
    requires Inv(w) && PossibleRun(w, es)
    ensures Inv(Run(w, es))
    decreases |es|
  {
    hide Inv, Step, Possible;
    if es != [] {
      StepKeeps(w, es[0]);
      RunKeeps(Step(w, es[0]), es[1..]);
    }
  }

  /** All runs from start-up. */
  ghost predicate Reachable(w: World, o: Options) {
    o.reducedOffTimeout > 0 && exists es :: PossibleRun(Initial(o), es) && w == Run(Initial(o), es)
  }

  lemma ReachableHolds(w: World, o: Options)
    requires Reachable(w, o)
    ensures Inv(w)
  {
    hide Inv, Initial;
    var es :| PossibleRun(Initial(o), es) && w == Run(Initial(o), es);
    InitialHolds(o);
    RunKeeps(Initial(o), es);
  }

  // ---------- The display ----------

  /** No stuck-on display: whenever nothing holds off the timeouts of a lit display, either the
      timeout is infinite, or the off alarm is on its way, due exactly at the recorded off time,
      and its arrival darkens the display. */
  lemma DisplayNeverStuckOn(w: World, o: Options)
    requires Reachable(w, o)
    requires w.m.display == On && !w.m.paused && w.m.TimeoutAllowed()
    ensures w.p.offTime == Never
      || (w.p.off != INVALID && w.p.clock.Live(w.p.off)
          && (w.p.off in w.p.clock.pending ==> w.p.offTime == At(w.p.clock.pending[w.p.off]))
          && (w.p.off in w.p.clock.fired ==> w.HandleAlarm(w.p.off).m.display == Off))
  {
    hide ProperLog, World.HandleAlarm;
    ReachableHolds(w, o);
    if w.p.off in w.p.clock.fired {
      OffAlarmDarkens(w);
    }
  }

  lemma OffAlarmDarkens(w: World)
    requires Inv(w) && w.p.off in w.p.clock.fired && !w.m.paused && w.m.TimeoutAllowed()
    ensures w.HandleAlarm(w.p.off).m.display == Off
  {
    hide ProperLog, World.TurnOff, Plan.Valid;
    SoundPlan(w);
    AlarmSlots(w.p, w.p.off);
    TurnOffDarkens(w.(p := w.p.(off := INVALID)), Activity);
  }

  /** How long until the recorded off time. */
  function Wait(p: Plan): nat {
    if p.offTime.At? && p.offTime.t > p.clock.now then p.offTime.t - p.clock.now else 0
  }

  /** Time passes up to the off time, the off alarm goes off, and its event arrives. */
  function OffRun(p: Plan): seq<Event> {
    if p.off in p.clock.fired then [AlarmEvent(p.off)]
    else [TimePasses(Wait(p)), AlarmFires(p.off), AlarmEvent(p.off)]
  }

  /** Left to itself, a lit display that nothing holds on goes off at its off time. */
  lemma LeftAloneGoesOff(w: World)
    requires Inv(w) && w.m.display == On && !w.m.paused && w.m.TimeoutAllowed() && w.p.offTime != Never
    ensures PossibleRun(w, OffRun(w.p)) && Run(w, OffRun(w.p)).m.display == Off
  {
    hide Inv, World.HandleAlarm;
    LitIsScheduled(w);
    if w.p.off in w.p.clock.fired {
      OffAlarmDarkens(w);
      OneStep(w, AlarmEvent(w.p.off));
    } else {
      var u := Step(w, TimePasses(Wait(w.p)));
      var v := Step(u, AlarmFires(w.p.off));
      TimeKeeps(w, Wait(w.p));
      FireKeeps(u, w.p.off);
      OffAlarmDarkens(v);
      ThreeSteps(w, TimePasses(Wait(w.p)), AlarmFires(w.p.off), AlarmEvent(w.p.off));
    }
  }

  lemma LitIsScheduled(w: World)
    requires Inv(w) && w.m.display == On && !w.m.paused && w.m.TimeoutAllowed() && w.p.offTime != Never
    ensures w.p.off != INVALID && w.p.clock.Live(w.p.off)
    ensures w.p.off in w.p.clock.pending ==> w.p.offTime == At(w.p.clock.pending[w.p.off])
  {
    hide ProperLog;
  }

  lemma OneStep(w: World, e: Event)
    requires Possible(w, e)
    ensures PossibleRun(w, [e]) && Run(w, [e]) == Step(w, e)
  {
    hide Possible, Step;
    assert [e][1..] == [];
  }

  lemma ThreeSteps(w: World, e: Event, f: Event, g: Event)
    requires Possible(w, e) && Possible(Step(w, e), f) && Possible(Step(Step(w, e), f), g)
    ensures PossibleRun(w, [e, f, g]) && Run(w, [e, f, g]) == Step(Step(Step(w, e), f), g)
  {
    hide Possible, Step;
    assert [e, f, g][1..] == [f, g];
    assert [f, g][1..] == [g];
    OneStep(Step(Step(w, e), f), g);
  }

  // ---------- Timer events alone ----------

  predicate OfTimer(e: Event) {
    e.TimePasses? || e.AlarmFires? || e.AlarmEvent?
  }

  /** A lit display that nothing holds on, waiting for this off alarm. */
  predicate WaitsFor(w: World, off: AlarmId) {
    w.m.display == On && !w.m.paused && w.m.TimeoutAllowed() && w.p.off == off
  }

  /** Until its off alarm arrives no other alarm touches it. */
  lemma OtherAlarmWaits(w: World, id: AlarmId)
    requires Inv(w) && id in w.p.clock.fired && WaitsFor(w, w.p.off) && id != w.p.off
    ensures WaitsFor(Step(w, AlarmEvent(id)), w.p.off)
  {
    hide Calm, Plan.Valid, World.LongPressAlarm, World.DimAlarm, World.OffAlarm, World.SuspendAlarm;
    hide World.ProximityAlarm, World.ExpirationAlarm;
    SoundPlan(w);
    AlarmSlots(w.p, id);
    PlainAlarmKeepsLight(w);
    SuspendAlarmKeepsLight(w);
    ProximityAlarmKeepsLight(w);
  }

  /** What the display waits for is as it was. */
  predicate SameLight(w: World, v: World) {
    && v.m.display == w.m.display && v.m.paused == w.m.paused && v.p.off == w.p.off
    && v.m.clientAllows == w.m.clientAllows && v.m.notificationAllows == w.m.notificationAllows
  }

  lemma PlainAlarmKeepsLight(w: World)
    ensures SameLight(w, w.LongPressAlarm()) && SameLight(w, w.DimAlarm())
  {
    hide Outputs.Record, Machine.TimeoutApplies;
  }

  lemma SuspendAlarmKeepsLight(w: World)
    ensures SameLight(w, w.SuspendAlarm())
  {
    hide Outputs.Record, Machine.TimeoutApplies;
  }

  lemma ProximityAlarmKeepsLight(w: World)
    ensures SameLight(w, w.ProximityAlarm())
  {
    hide Outputs.Record, Machine.ProximityEnabled;
  }

  lemma TimerWaits(w: World, e: Event)
    requires Inv(w) && Possible(w, e) && OfTimer(e) && WaitsFor(w, w.p.off) && e != AlarmEvent(w.p.off)
    ensures WaitsFor(Step(w, e), w.p.off)
  {
    hide Inv, World.HandleAlarm;
    if e.AlarmEvent? { OtherAlarmWaits(w, e.id); }
  }

  lemma OffAlarmStaysDark(w: World)
    requires w.m.display == Off
    ensures w.OffAlarm().m.display == Off
  {
    hide Outputs.Record, Plan.CancelOff, Machine.TimeoutApplies;
  }

  lemma ExpirationStaysDark(w: World)
    requires w.m.display == Off
    ensures w.ExpirationAlarm().m.display == Off
  {
    hide Outputs.Record, Machine.ProximityEnabled, World.ScheduleImmediate, World.ScheduleNormal, World.TurnOff;
  }

  lemma TimerStaysDark(w: World, e: Event)
    requires w.m.display == Off && OfTimer(e)
    ensures Step(w, e).m.display == Off
  {
    hide World.LongPressAlarm, World.DimAlarm, World.OffAlarm, World.SuspendAlarm;
    hide World.ProximityAlarm, World.ExpirationAlarm;
    PlainAlarmKeepsLight(w);
    SuspendAlarmKeepsLight(w);
    ProximityAlarmKeepsLight(w);
    OffAlarmStaysDark(w);
    ExpirationStaysDark(w);
  }

  lemma {:induction false} TimerRunStaysDark(w: World, es: seq<Event>)
    requires w.m.display == Off && forall e :: e in es ==> OfTimer(e)
    ensures Run(w, es).m.display == Off
    decreases |es|
  {
    hide Step, OfTimer;
    if es != [] {
      TimerStaysDark(w, es[0]);
      TimerRunStaysDark(Step(w, es[0]), es[1..]);
    }
  }

  /** Left to the timer, a lit display that nothing holds on is dark at the end of a run exactly when
      its off alarm has arrived, whatever other alarms come before, in between or after. */
  lemma {:induction false} DarkOnceOffAlarmCame(w: World, es: seq<Event>)
    requires Inv(w) && PossibleRun(w, es) && forall e :: e in es ==> OfTimer(e)
    requires w.m.display == On && !w.m.paused && w.m.TimeoutAllowed()
    ensures Run(w, es).m.display == Off <==> AlarmEvent(w.p.off) in es
    decreases |es|
  {
    hide Inv, Step, OfTimer, Machine.TimeoutAllowed, Possible;
    if es != [] {
      if es[0] == AlarmEvent(w.p.off) {
        OffAlarmComes(w);
        TimerRunStaysDark(Step(w, es[0]), es[1..]);
      } else {
        TimerWaits(w, es[0]);
        StepKeeps(w, es[0]);
        DarkOnceOffAlarmCame(Step(w, es[0]), es[1..]);
      }
    }
  }

  lemma OffAlarmComes(w: World)
    requires Inv(w) && Possible(w, AlarmEvent(w.p.off)) && !w.m.paused && w.m.TimeoutAllowed()
    ensures Step(w, AlarmEvent(w.p.off)).m.display == Off
  {
    hide Inv, World.HandleAlarm, Machine.TimeoutAllowed;
    OffAlarmDarkens(w);
  }

  lemma TurnOffDarkens(w: World, reason: Reason)
    requires !w.m.paused
    ensures w.TurnOff(reason).m.display == Off
  {
  }

  // ---------- Suspending ----------

  /** The automatic-suspend block is held exactly when the display is on, or is off because
      something is near, or suspending is disallowed; in paused periods too. */
  lemma SuspendBlockedExactly(w: World, o: Options)
    requires Reachable(w, o)
    ensures w.out.suspendBlocked <==>
      (w.m.display == On || (w.m.display == Off && w.m.reason == Proximity) || !w.m.suspendAllowed)
    ensures w.m.suspendPending ==> !w.m.suspendAllowed
  {
    hide ProperLog, Plan.Valid;
    ReachableHolds(w, o);
  }

  /** Inactivity suspends the system in two situations only: the suspend alarm arrives while
      timeouts apply and suspending is allowed, or a deferred suspend is released; never paused. */
  predicate Suspends(w: World, e: Event) {
    && !w.m.paused
    && match e
       case AlarmEvent(id) => id == w.p.suspend && w.m.TimeoutApplies() && w.m.suspendAllowed
       case AllowSuspend => w.m.suspendPending
       case _ => false
  }

  /** A long press is reported when its alarm arrives, and never otherwise. */
  predicate ReportsLongPress(w: World, e: Event) {
    e.AlarmEvent? && e.id == w.p.longPress
  }

  ghost predicate ActsAs(w: World, e: Event) {
    var v := Step(w, e);
    && v.out.inactivitySuspends == w.out.inactivitySuspends + (if Suspends(w, e) then 1 else 0)
    && v.out.longPresses == w.out.longPresses + (if ReportsLongPress(w, e) then 1 else 0)
    && (w.m.paused && e != Resuming ==> v.m.paused && v.out.loud == w.out.loud)
    && (!w.m.paused && e != Pausing ==> !v.m.paused)
    && (!e.TimePasses? && !e.AlarmFires? && !e.AlarmEvent? ==> Frame(w.p, v.p))
    && w.p.clock.next <= v.p.clock.next
    && forall id :: Stale(w.p, id) ==> Stale(v.p, id)
  }

  /** An alarm id that was issued and is no longer awaited. */
  predicate Stale(p: Plan, id: AlarmId) {
    1 <= id < p.clock.next && !p.Owns(id)
  }

  lemma FrameKeepsStale(p: Plan, q: Plan)
    requires Frame(p, q)
    ensures p.clock.next <= q.clock.next
    ensures forall id :: Stale(p, id) ==> Stale(q, id)
  {
    forall id | Stale(p, id) ensures Stale(q, id) {
      assert Leaves(p, q, id);
    }
  }

  lemma DoesActsAs(w: World, e: Event, suspends: nat, presses: nat)
    requires Does(w, Step(w, e), suspends, presses)
    requires suspends == if Suspends(w, e) then 1 else 0
    requires presses == if ReportsLongPress(w, e) then 1 else 0
    ensures ActsAs(w, e)
  {
    hide Step, Suspends, ReportsLongPress, Frame, Stale;
    FrameKeepsStale(w.p, Step(w, e).p);
  }

  lemma IsReady(w: World)
    requires Inv(w)
    ensures Ready(w)
  {
  }

  lemma ActiveEventsActAs(w: World, e: Event)
    requires Inv(w) && Possible(w, e) && !ReachesPaused(e) && e != Pausing
    ensures ActsAs(w, e)
  {
    hide Inv, Does, ActsAs;
    hide World.HandleActiveCall, World.HandleLidClosed, World.HandleLidOpen, World.HandlePowerButtonPress;
    hide World.HandlePowerButtonRelease, World.HandlePowerSourceChange, World.HandlePowerSourceCritical;
    hide World.HandleProximityFar, World.HandleProximityNear, World.HandleUserActivityChangingPowerState;
    hide World.HandleUserActivityExtendingPowerState, World.HandleSystemResume, World.Start, World.Pause;
    IsReady(w);
    match e {
    case ActiveCall(far) => HandleActiveCallDoes(w, far);
    case LidClosed(x) => HandleLidClosedDoes(w, x);
    case LidOpen => HandleLidOpenDoes(w);
    case PowerButtonPress => HandlePowerButtonPressDoes(w);
    case PowerButtonRelease => HandlePowerButtonReleaseDoes(w);
    case PowerSourceChange(b, far) => HandlePowerSourceChangeDoes(w, b, far);
    case PowerSourceCritical => HandlePowerSourceCriticalDoes(w);
    case ProximityFar => HandleProximityFarDoes(w);
    case ProximityNear => HandleActivityDoes(w, true);
    case ActivityChanging(far) => HandleActivityDoes(w, far);
    case ActivityExtending => HandleActivityDoes(w, true);
    case SystemResume => HandleSwitchDoes(w);
    case Starting(b) => StartDoes(w, b);
    case _ =>
    }
    DoesActsAs(w, e, 0, 0);
  }

  lemma ClientEventsActAs(w: World, e: Event)
    requires Inv(w) && ClientEvent(e)
    ensures ActsAs(w, e)
  {
    hide Inv, Does, ActsAs;
    hide World.HandleNoActiveCall, World.HandleEnableInactivityTimeout, World.HandleDisableInactivityTimeout;
    hide World.HandleSetInactivityBehavior, World.HandleNoNotification, World.HandleNotification;
    IsReady(w);
    match e {
    case NoActiveCall(far) => HandleNoActiveCallDoes(w, far);
    case EnableInactivityTimeout => HandleInactivityTimeoutDoes(w);
    case DisableInactivityTimeout => HandleInactivityTimeoutDoes(w);
    case SetInactivityBehavior(a, s, t) => HandleSetInactivityBehaviorDoes(w, a, s, t);
    case NoNotification => HandleNoNotificationDoes(w);
    case NewNotification(far) => HandleNotificationDoes(w, far);
    case _ =>
    }
    DoesActsAs(w, e, 0, 0);
  }

  lemma OtherEventsActAs(w: World, e: Event)
    requires Inv(w) && Possible(w, e) && ReachesPaused(e) && !ClientEvent(e)
    requires !e.SetLidBehavior? && !e.SetCriticalPowerBehavior?
    requires e != Resuming && e != AllowSuspend && !e.TimePasses? && !e.AlarmFires? && !e.AlarmEvent?
    ensures ActsAs(w, e)
  {
    hide Inv, Does, ActsAs;
    hide World.HandleSetNormalBrightnessValue, World.HandleAutobrightness, World.HandleDisallowSuspend;
    hide World.HandleTurnOnDisplay, World.HandleTurnOffDisplay;
    IsReady(w);
    match e {
    case SetNormalBrightness'(v) => HandleBrightnessDoes(w, v, true);
    case Autobrightness(b) => HandleBrightnessDoes(w, 0.0, b);
    case DisallowSuspend => HandleBehaviorDoes(w, NoAction, Battery);
    case TurnDisplayOn => HandleSwitchDoes(w);
    case TurnDisplayOff => HandleSwitchDoes(w);
    case _ =>
    }
    DoesActsAs(w, e, 0, 0);
  }

  lemma BehaviorActsAs(w: World, e: Event)
    requires Inv(w) && (e.SetLidBehavior? || e.SetCriticalPowerBehavior?)
    ensures ActsAs(w, e)
  {
    hide Inv, Does, ActsAs;
    IsReady(w);
    HandleBehaviorDoes(w, e.action, if e.SetLidBehavior? then e.supply else Battery);
    DoesActsAs(w, e, 0, 0);
  }

  lemma AllowSuspendActsAs(w: World)
    requires Inv(w)
    ensures ActsAs(w, AllowSuspend)
  {
    hide Inv, Does, ActsAs;
    IsReady(w);
    HandleAllowSuspendDoes(w);
    DoesActsAs(w, AllowSuspend, if w.m.suspendPending && !w.m.paused then 1 else 0, 0);
  }

  /** What the arrival of an alarm does, before the timer forgets it. */
  lemma AlarmDoes(w: World, id: AlarmId) returns (suspends: nat, presses: nat)
    requires Inv(w) && id in w.p.clock.fired
    ensures Does(w, w.HandleAlarm(id), suspends, presses)
    ensures suspends == if Suspends(w, AlarmEvent(id)) then 1 else 0
    ensures presses == if id == w.p.longPress then 1 else 0
  {
    hide Inv, Does, World.HandleAlarm, Plan.Valid;
    IsReady(w);
    SoundPlan(w);
    AlarmSlots(w.p, id);
    suspends, presses := 0, 0;
    if id == w.p.longPress {
      PausedAwaitsNoPress(w);
      LongPressAlarmDoes(w, id);
      presses := 1;
    } else if id == w.p.dim { DimAlarmDoes(w, id); }
    else if id == w.p.off { OffAlarmDoes(w, id); }
    else if id == w.p.suspend {
      SuspendAlarmDoes(w, id);
      suspends := if Suspends(w, AlarmEvent(id)) then 1 else 0;
    } else if id == w.p.proximity { ProximityAlarmDoes(w, id); }
    else if id == w.p.expiration { ExpirationAlarmDoes(w, id); }
    else {
      UnknownAlarm(w, id);
      NothingDone(w);
    }
  }

  lemma PausedAwaitsNoPress(w: World)
    requires Inv(w)
    ensures w.m.paused ==> w.p.longPress == INVALID
  {
  }

  lemma AlarmActsAs(w: World, id: AlarmId)
    requires Inv(w) && id in w.p.clock.fired
    ensures ActsAs(w, AlarmEvent(id))
  {
    hide Inv, World.HandleAlarm, Frame;
    var s, p := AlarmDoes(w, id);
    FrameKeepsStale(w.p, w.HandleAlarm(id).p);
  }

  lemma ClockActsAs(w: World, e: Event)
    requires e.TimePasses? || e.AlarmFires?
    ensures ActsAs(w, e)
  {
  }

  lemma PauseResumeActsAs(w: World, e: Event)
    requires Inv(w) && (e == Pausing || e == Resuming) && (w.m.paused ==> e == Resuming)
    ensures ActsAs(w, e)
  {
    hide Inv, Frame, World.Pause, World.Resume;
    IsReady(w);
    if e == Pausing { PauseDoes(w); } else { ResumeDoes(w); }
    FrameKeepsStale(w.p, Step(w, e).p);
  }

  /** For every possible event: when the system is suspended for inactivity, when a long press
      is reported, that a paused session stays quiet, and that no alarm id comes back. */
  lemma EveryEventActsAs(w: World, e: Event)
    requires Inv(w) && Possible(w, e)
    ensures ActsAs(w, e)
  {
    hide Inv, ActsAs;
    if e.AlarmEvent? { AlarmActsAs(w, e.id); }
    else if e.TimePasses? || e.AlarmFires? { ClockActsAs(w, e); }
    else if e == Pausing || e == Resuming { PauseResumeActsAs(w, e); }
    else if e == AllowSuspend { AllowSuspendActsAs(w); }
    else if e.SetLidBehavior? || e.SetCriticalPowerBehavior? { BehaviorActsAs(w, e); }
    else if ClientEvent(e) { ClientEventsActAs(w, e); }
    else if ReachesPaused(e) { OtherEventsActAs(w, e); }
    else { ActiveEventsActAs(w, e); }
  }

  // ---------- Late alarms ----------

  /** Once given up, an alarm id stays given up through every run, and its late event changes
      nothing and says nothing. */
  lemma {:induction false} StaleForever(w: World, es: seq<Event>, id: AlarmId)
    requires Inv(w) && PossibleRun(w, es) && Stale(w.p, id)
    ensures Stale(Run(w, es).p, id)
    ensures Run(w, es).HandleAlarm(id) == Run(w, es)
    decreases |es|
  {
    hide Inv, Step, Possible, World.HandleAlarm, Suspends, ReportsLongPress;
    if es == [] {
      UnknownAlarm(w, id);
    } else {
      EveryEventActsAs(w, es[0]);
      StepKeeps(w, es[0]);
      StaleForever(Step(w, es[0]), es[1..], id);
    }
  }

  lemma DroppedIsStale(p: Plan, q: Plan)
    requires p.Valid() && p.longPress != INVALID
    requires q.clock.next >= p.clock.next && q.longPress != p.longPress
    requires q.dim == p.dim && q.off == p.off
    requires q.suspend == p.suspend && q.proximity == p.proximity && q.expiration == p.expiration
    ensures Stale(q, p.longPress)
  {
  }

  /** Releasing the power button gives the pending long press up for good. */
  lemma ReleaseEndsLongPress(w: World)
    requires Inv(w) && w.p.longPress != INVALID
    ensures Stale(w.HandlePowerButtonRelease().p, w.p.longPress)
  {
    hide Inv, Plan.CancelOff, Plan.Valid, Plan.Owns, Stale;
    SoundPlan(w);
    var q := w.p.(longPress := INVALID);
    DroppedIsStale(w.p, q);
    StaleUnderCancelOff(q, w.p.longPress);
    CancelOffKeepsOthers(w.p);
    TurnOffPlan(w, PowerButton);
  }

  lemma StaleUnderCancelOff(q: Plan, id: AlarmId)
    requires Stale(q, id)
    ensures Stale(q.CancelOff(), id)
  {
  }

  lemma CancelOffKeepsOthers(p: Plan)
    ensures p.CancelOff().(longPress := INVALID) == p.(longPress := INVALID).CancelOff()
  {
  }

  /** So does pausing the session. */
  lemma PauseEndsLongPress(w: World)
    requires Inv(w) && w.p.longPress != INVALID
    ensures Stale(w.Pause().p, w.p.longPress)
  {
    hide Inv, Plan.Valid, Stale;
    SoundPlan(w);
    DroppedIsStale(w.p, w.p.CancelLongPress());
  }

  /** And so does pressing it again. */
  lemma PressSupersedesLongPress(w: World)
    requires Inv(w) && w.p.longPress != INVALID
    ensures Stale(w.HandlePowerButtonPress().p, w.p.longPress)
  {
    hide Inv, Calm, SameNotice, World.ExtendFor, World.TurnOn, Plan.LongPress, Plan.Valid, Stale;
    InvIsCalm(w);
    var u := w.(m := w.m.(displayAtPress := w.m.display));
    ButtonKeeps(w, w.m.display, w.m.longPressDetected);
    if w.m.options.powerButtonIsActivity && w.m.display == On {
      ExtendForKeeps(u, PowerButton);
      NewPressIsLater(u.ExtendFor(PowerButton), w.m.options.longPressTimeout);
    } else if w.m.display == Off {
      TurnOnNormalKeeps(u, PowerButton);
      NewPressIsLater(u.TurnOn(PowerButton), w.m.options.longPressTimeout);
    } else {
      NewPressIsLater(u, w.m.options.longPressTimeout);
    }
  }

  lemma NewPressIsLater(v: World, t: int)
    requires Calm(v) && v.p.longPress != INVALID
    ensures Stale(v.p.LongPress(t), v.p.longPress)
  {
    hide ProperLog, Stale;
    DroppedIsStale(v.p, v.p.LongPress(t));
  }

  // ---------- Inhibitors, proximity, pausing ----------

  /** A notification cannot hold off the timeouts forever: it does so exactly while its
      expiration alarm is awaited, that alarm is on its way, and its arrival lifts the hold. */
  lemma NotificationHoldEnds(w: World, o: Options)
    requires Reachable(w, o)
    ensures !w.m.notificationAllows <==> w.p.expiration != INVALID
    ensures !w.m.notificationAllows ==> w.p.clock.Live(w.p.expiration)
    ensures w.p.expiration in w.p.clock.fired ==> w.HandleAlarm(w.p.expiration).m.notificationAllows
  {
    hide ProperLog, World.HandleAlarm;
    ReachableHolds(w, o);
    if w.p.expiration in w.p.clock.fired {
      ExpirationLiftsHold(w);
    }
  }

  lemma ExpirationLiftsHold(w: World)
    requires Inv(w) && w.p.expiration in w.p.clock.fired
    ensures w.HandleAlarm(w.p.expiration).m.notificationAllows
  {
    hide Calm, Plan.Postpone, World.AllowTimeout, World.DisableProximity, Plan.Valid;
    SoundPlan(w);
    AlarmSlots(w.p, w.p.expiration);
    var u := w.(p := w.p.(expiration := INVALID));
    ExpirationCleared(w, w.p.expiration);
    if w.m.display == On {
      PostponeKeepsInv(u, 0, PostNotification);
      u := u.ScheduleImmediate();
    }
    AllowNotificationsKeeps(u);
    u := u.AllowTimeout(Notifications);
    DisableProximityKeeps(u, UntilFarOrExpiration);
  }

  /** Proximity events are on only for a reason, and while unpaused exactly when there is one. */
  lemma ProximityFollowsReasons(w: World, o: Options)
    requires Reachable(w, o)
    ensures w.out.proximityEvents ==> w.m.ProximityEnabled()
    ensures !w.m.paused ==> (w.out.proximityEvents <==> w.m.ProximityEnabled())
  {
    hide ProperLog, Plan.Valid;
    ReachableHolds(w, o);
  }

  /** Everything ever said while paused was housekeeping, and every suspend for inactivity was
      issued unpaused and with suspending allowed. */
  lemma LogIsProper(w: World, o: Options, k: nat)
    requires Reachable(w, o) && k < |w.out.log|
    ensures w.out.log[k].paused ==> Housekeeping(w.out.log[k].command)
    ensures w.out.log[k].command == SuspendNow(Inactivity) ==>
      !w.out.log[k].paused && w.out.log[k].suspendAllowed
  {
    hide Plan.Valid;
    ReachableHolds(w, o);
    assert Proper(w.out.log[k]);
  }

  /** The six alarm ids never coincide, so an alarm event concerns one purpose only. */
  lemma AlarmsNeverCoincide(w: World, o: Options)
    requires Reachable(w, o)
    ensures w.p.Distinct() && w.p.AllLive()
  {
    hide ProperLog;
    ReachableHolds(w, o);
  }
}
