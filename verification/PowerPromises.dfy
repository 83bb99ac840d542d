/** What the timetable and the causes of light promise over every run: the system is suspended after
    its timeout, and a display that is held on stays on. */
module PowerPromises {
  import opened Alarms
  import opened Plans
  import opened PowerModel
  import opened PowerInvariants
  import opened PowerEffects
  import opened PowerTheorems
  import opened PowerChanges
  import opened PowerOutcomes
  import opened PowerSchedules

  // ---------- The timeouts in force ----------

  predicate InForceAfter(w: World, e: Event, v: World) {
    v.m.offTimeout.Get() == OffTimeout(w.m, e) && v.m.suspendTimeout.Get() == SuspendTimeout(w.m, e)
  }

  datatype Settings = Settings(off: Configurable<int>, suspend: Configurable<int>)

  function SettingsOf(m: Machine): Settings {
    Settings(m.offTimeout, m.suspendTimeout)
  }

  /** The timeouts themselves are as they were. */
  predicate SameSettings(w: World, v: World) {
    SettingsOf(v.m) == SettingsOf(w.m)
  }

  lemma UsualInForce(w: World, e: Event, v: World)
    requires !e.SetInactivityBehavior? && !e.PowerSourceChange? && !e.Starting? && SameSettings(w, v)
    ensures InForceAfter(w, e, v)
  {
    hide Configurable.Get;
  }

  lemma LightKeepsSettings(w: World, reason: Reason)
    ensures SameSettings(w, w.TurnOn(reason)) && SameSettings(w, w.TurnOnReduced(reason))
  {
    hide World.TurnOn, World.TurnOnReduced;
    LightMachine(w, reason);
  }

  lemma ExtendKeepsSettings(w: World, reason: Reason)
    ensures SameSettings(w, w.Extend()) && SameSettings(w, w.ExtendFor(reason))
  {
    hide World.Extend, World.ExtendFor;
    ExtendMachine(w, reason);
  }

  lemma CallKeepsSettings(w: World, far: bool)
    ensures SameSettings(w, w.HandleActiveCall(far))
  {
    hide World.Extend, World.TurnOn, World.EnableProximity, Machine.Enable;
    LightKeepsSettings(w, Call);
    ExtendKeepsSettings(w, Call);
    var u := if w.m.display == On then w.Extend() else if far then w.TurnOn(Call) else w;
    EnableShape(u, UntilDisabled);
    EnableRest(u.m, UntilDisabled, true);
  }

  lemma LidKeepsSettings(w: World)
    requires !w.m.paused
    ensures SameSettings(w, w.HandleLidOpen())
  {
    hide World.HandleLidOpen;
    LidOpenMakes(w);
  }

  function Pressing(w: World): World {
    w.(m := w.m.(displayAtPress := w.m.display))
  }

  lemma PressShape(w: World)
    ensures var u := Pressing(w);
      w.HandlePowerButtonPress().m ==
        if w.m.options.powerButtonIsActivity && w.m.display == On then u.ExtendFor(PowerButton).m
        else if w.m.display == Off then u.TurnOn(PowerButton).m
        else u.m
  {
    hide World.ExtendFor, World.TurnOn, Plan.LongPress;
  }

  lemma PressingKeeps(w: World)
    ensures SameSettings(w, Pressing(w)) && Pressing(w).m.displayAtPress == Pressing(w).m.display == w.m.display
    ensures Pressing(w).m.paused == w.m.paused && Pressing(w).m.longPressDetected == w.m.longPressDetected
    ensures Pressing(w).m.options == w.m.options
  {
  }

  lemma PressKeepsSettings(w: World)
    ensures SameSettings(w, w.HandlePowerButtonPress())
  {
    hide SettingsOf, Pressing, World.HandlePowerButtonPress, World.ExtendFor, World.TurnOn;
    PressShape(w);
    PressingKeeps(w);
    LightKeepsSettings(Pressing(w), PowerButton);
    ExtendKeepsSettings(Pressing(w), PowerButton);
  }

  lemma ButtonKeepsSettings(w: World, e: Event)
    requires w.m.display != UnknownMode && !w.m.paused
    requires e.ActiveCall? || e.LidOpen? || e.PowerButtonPress?
    ensures SameSettings(w, Step(w, e))
  {
    hide SameSettings, World.HandleActiveCall, World.HandleLidOpen, World.HandlePowerButtonPress;
    if e.ActiveCall? { CallKeepsSettings(w, e.far); }
    else if e.LidOpen? { LidKeepsSettings(w); }
    else { PressKeepsSettings(w); }
  }

  lemma FarSettings(w: World)
    ensures SameSettings(w, w.DisableProximity(UntilFarOrExpiration).DisableProximity(UntilFarOrTimeout))
  {
    hide World.DisableProximity;
    TwoReasonsEnd(w);
  }

  lemma FarKeepsSettings(w: World)
    ensures SameSettings(w, w.HandleProximityFar())
  {
    hide SettingsOf, World.DisableProximity, World.TurnOn, World.TurnOnReduced, Machine.ProximityOnlyUntilExpiration;
    FarSettings(w);
    LightKeepsSettings(w.DisableProximity(UntilFarOrExpiration).DisableProximity(UntilFarOrTimeout), Proximity);
  }

  lemma UseKeepsSettings(w: World, far: bool)
    ensures SameSettings(w, w.HandleUserActivityChangingPowerState(far))
    ensures SameSettings(w, w.HandleUserActivityExtendingPowerState())
  {
    hide SettingsOf, World.ExtendFor, World.TurnOn;
    LightKeepsSettings(w, Activity);
    ExtendKeepsSettings(w, Activity);
  }

  lemma ActivityKeepsSettings(w: World, e: Event)
    requires e.ProximityFar? || e.ActivityChanging? || e.ActivityExtending?
    ensures SameSettings(w, Step(w, e))
  {
    hide SameSettings, World.HandleProximityFar, World.HandleUserActivityChangingPowerState;
    hide World.HandleUserActivityExtendingPowerState;
    if e.ProximityFar? { FarKeepsSettings(w); } else { UseKeepsSettings(w, e.ActivityChanging? && e.far); }
  }

  lemma EnablingKeepsSettings(w: World)
    ensures SameSettings(w, w.HandleEnableInactivityTimeout())
  {
    hide World.HandleEnableInactivityTimeout, Unholds;
    EnableTimeoutMakes(w);
  }

  lemma SwitchKeepsSettings(w: World, e: Event)
    requires e.TurnDisplayOn? || e.SystemResume? || e.Resuming? || e.EnableInactivityTimeout?
    ensures SameSettings(w, Step(w, e))
  {
    hide World.TurnOn, World.Resume, World.HandleEnableInactivityTimeout;
    LightKeepsSettings(w, PowerButton);
    LightKeepsSettings(w, Activity);
    if e.Resuming? { ResumeMakes(w); }
    EnablingKeepsSettings(w);
  }

  lemma RestartInForce(w: World, e: Event)
    requires w.m.display != UnknownMode && (w.m.paused ==> ReachesPaused(e))
    requires StartsOver(w, e)
    ensures InForceAfter(w, e, Step(w, e))
  {
    hide InForceAfter, StartsOver, SameSettings, World.HandleSetInactivityBehavior, World.HandlePowerSourceChange;
    hide World.Start, Step;
    RestartsNothing(w, e);
    if e.SetInactivityBehavior? { StepIsHandler(w, e); BehaviorInForce(w, e.action, e.supply, e.timeout); }
    else if e.PowerSourceChange? { StepIsHandler(w, e); SourceInForce(w, e.battery, e.far); }
    else if e.Starting? { StepIsHandler(w, e); StartInForce(w, e.battery); }
    else {
      if e.ActiveCall? || e.LidOpen? || e.PowerButtonPress? { ButtonKeepsSettings(w, e); }
      else if e.ProximityFar? || e.ActivityChanging? || e.ActivityExtending? { ActivityKeepsSettings(w, e); }
      else { SwitchKeepsSettings(w, e); }
      UsualInForce(w, e, Step(w, e));
    }
  }

  lemma StepIsHandler(w: World, e: Event)
    ensures e.SetInactivityBehavior? ==> Step(w, e) == w.HandleSetInactivityBehavior(e.action, e.supply, e.timeout)
    ensures e.PowerSourceChange? ==> Step(w, e) == w.HandlePowerSourceChange(e.battery, e.far)
    ensures e.Starting? ==> Step(w, e) == w.Start(e.battery)
  {
    hide World.HandleSetInactivityBehavior, World.HandlePowerSourceChange, World.Start;
  }

  lemma RestartsNothing(w: World, e: Event)
    requires StartsOver(w, e)
    ensures e.ActiveCall? || e.EnableInactivityTimeout? || e.LidOpen? || e.PowerButtonPress? || e.ProximityFar?
      || e.ActivityChanging? || e.ActivityExtending? || e.TurnDisplayOn? || e.SystemResume? || e.Resuming?
      || e.SetInactivityBehavior? || e.PowerSourceChange? || e.Starting?
  {
  }

  lemma BehaviorInForce(w: World, action: PowerAction, supply: PowerSupply, timeout: int)
    ensures InForceAfter(w, SetInactivityBehavior(action, supply, timeout),
      w.HandleSetInactivityBehavior(action, supply, timeout))
  {
    hide World.HandleSetInactivityBehavior, Replaced, Configurable.Get, InForce;
    if timeout <= 0 || (action != DisplayOff && action != SuspendSystem) {
      OtherBehaviorMakes(w, action, supply, timeout);
    } else if action == DisplayOff {
      OffBehaviorMakes(w, supply, timeout);
    } else {
      SuspendBehaviorMakes(w, supply, timeout);
    }
  }

  lemma SourceInForce(w: World, battery: bool, far: bool)
    requires !w.m.paused
    ensures InForceAfter(w, PowerSourceChange(battery, far), w.HandlePowerSourceChange(battery, far))
  {
    hide World.HandlePowerSourceChange, OnSupply, Configurable.Get, OffTimeout, SuspendTimeout;
    PowerSourceMakes(w, battery, far);
    SuppliedTimeouts(w.m, battery, far);
  }

  lemma StartInForce(w: World, battery: bool)
    requires !w.m.paused
    ensures InForceAfter(w, Starting(battery), w.Start(battery))
  {
    hide World.Start, OnSupply, Configurable.Get, OffTimeout, SuspendTimeout;
    StartMakes(w, battery);
    SuppliedTimeouts(w.m, battery, true);
  }

  // ---------- Suspending after inactivity ----------

  /** Every event that starts the timeouts over leaves a suspend alarm due after the suspend timeout in
      force then, or none if that is infinite. */
  lemma SuspendIsRearmed(w: World, e: Event)
    requires Inv(w) && Possible(w, e) && StartsOver(w, e)
    ensures var v := Step(w, e);
      var t := v.m.suspendTimeout.Get();
      if t == INFINITE then v.p.suspend == INVALID else DueAt(v.p, v.p.suspend, v.p.clock.now + t)
  {
    hide Step, ProperLog, Plan.Valid, StartsOver, OffTimeout, SuspendTimeout, Configurable.Get;
    hide PressBecomes, ProximityBecomes, ExpirationBecomes, OffBecomes;
    RestartsNothing(w, e);
    EventTimes(w, e);
    RestartInForce(w, e);
  }

  /** This suspend alarm is awaited and will arrive, not before it is due. */
  predicate Armed(p: Plan, s: AlarmId, due: int) {
    p.suspend == s && s != INVALID && p.clock.Live(s) && (s in p.clock.pending ==> p.clock.pending[s] == due)
  }

  lemma StaysArmed(w: World, e: Event, s: AlarmId, due: int)
    requires Inv(w) && Possible(w, e) && Armed(w.p, s, due)
    requires !StartsOver(w, e) && e != AlarmEvent(s)
    ensures Armed(Step(w, e).p, s, due)
  {
    hide Inv, StartsOver, Possible, PressBecomes, ProximityBecomes, ExpirationBecomes, OffBecomes;
    if e.TimePasses? || e.AlarmFires? {
      ClockKeepsArmed(w, e, s, due);
    } else {
      hide Step;
      EventTimes(w, e);
    }
  }

  lemma ClockKeepsArmed(w: World, e: Event, s: AlarmId, due: int)
    requires (e.TimePasses? || e.AlarmFires?) && Armed(w.p, s, due)
    ensures Armed(Step(w, e).p, s, due)
  {
  }

  /** Nothing on the way starts the timeouts over, and the suspend alarm does not arrive. */
  ghost predicate Undisturbed(w: World, es: seq<Event>, s: AlarmId)
    decreases |es|
  {
    es == [] || (!StartsOver(w, es[0]) && es[0] != AlarmEvent(s) && Undisturbed(Step(w, es[0]), es[1..], s))
  }

  lemma {:induction false} RunStaysArmed(w: World, es: seq<Event>, s: AlarmId, due: int)
    requires Inv(w) && PossibleRun(w, es) && Armed(w.p, s, due) && Undisturbed(w, es, s)
    ensures Inv(Run(w, es)) && Armed(Run(w, es).p, s, due)
    decreases |es|
  {
    hide Inv, Armed, Step, Possible, StartsOver;
    if es != [] {
      StepKeeps(w, es[0]);
      StaysArmed(w, es[0], s, due);
      RunStaysArmed(Step(w, es[0]), es[1..], s, due);
    }
  }

  /** Time passes until the alarm is due, it goes off, and its event arrives. */
  function SuspendRun(p: Plan, due: int): seq<Event> {
    if p.suspend in p.clock.fired then [AlarmEvent(p.suspend)]
    else
      [TimePasses(if due > p.clock.now then due - p.clock.now else 0), AlarmFires(p.suspend), AlarmEvent(p.suspend)]
  }

  lemma ArrivalSuspends(w: World)
    requires Inv(w) && w.p.suspend in w.p.clock.fired
    requires !w.m.paused && MayTimeOut(w.m) && w.m.suspendAllowed
    ensures var e := AlarmEvent(w.p.suspend);
      Possible(w, e) && Step(w, e).out.inactivitySuspends == w.out.inactivitySuspends + 1
  {
    hide Inv, Step, Stale, Frame;
    EveryEventActsAs(w, AlarmEvent(w.p.suspend));
  }

  lemma LeftAloneSuspends(w: World, s: AlarmId, due: int)
    requires Inv(w) && Armed(w.p, s, due) && !w.m.paused && MayTimeOut(w.m) && w.m.suspendAllowed
    ensures PossibleRun(w, SuspendRun(w.p, due))
    ensures Run(w, SuspendRun(w.p, due)).out.inactivitySuspends == w.out.inactivitySuspends + 1
  {
    hide Inv, MayTimeOut, World.HandleAlarm;
    if s in w.p.clock.fired {
      ArrivalSuspends(w);
      OneStep(w, AlarmEvent(s));
    } else {
      var t: nat := if due > w.p.clock.now then due - w.p.clock.now else 0;
      var u := Step(w, TimePasses(t));
      var v := Step(u, AlarmFires(s));
      TimeKeeps(w, t);
      FireKeeps(u, s);
      ArrivalSuspends(v);
      ThreeSteps(w, TimePasses(t), AlarmFires(s), AlarmEvent(s));
    }
  }

  /** After any event that starts the timeouts over, with a finite suspend timeout, and whatever comes
      then but another such event: the suspend alarm stays armed for the end of that timeout, and if the
      session may suspend then, waiting until that time and delivering the alarm is possible and
      suspends the system once. */
  lemma SuspendsAfterTimeout(w: World, e: Event, es: seq<Event>)
    requires Inv(w) && Possible(w, e) && StartsOver(w, e)
    requires var v := Step(w, e);
      v.m.suspendTimeout.Get() != INFINITE && PossibleRun(v, es) && Undisturbed(v, es, v.p.suspend)
    ensures var v := Step(w, e);
      var u, due := Run(v, es), v.p.clock.now + v.m.suspendTimeout.Get();
      && Armed(u.p, v.p.suspend, due)
      && (!u.m.paused && MayTimeOut(u.m) && u.m.suspendAllowed ==>
            && PossibleRun(u, SuspendRun(u.p, due))
            && Run(u, SuspendRun(u.p, due)).out.inactivitySuspends == u.out.inactivitySuspends + 1)
  {
    hide Inv, Step, Possible, StartsOver, MayTimeOut, SuspendRun, Configurable.Get;
    var v := Step(w, e);
    var due := v.p.clock.now + v.m.suspendTimeout.Get();
    StepKeeps(w, e);
    SuspendIsRearmed(w, e);
    RunStaysArmed(v, es, v.p.suspend, due);
    var u := Run(v, es);
    if !u.m.paused && MayTimeOut(u.m) && u.m.suspendAllowed {
      LeftAloneSuspends(u, v.p.suspend, due);
    }
  }

  // ---------- Timer events alone ----------

  /** Nothing holds off a suspend. */
  predicate MaySuspend(w: World) {
    !w.m.paused && w.m.clientAllows && w.m.notificationAllows && w.m.suspendAllowed
  }

  lemma TimerKeepsSuspend(w: World, e: Event)
    requires Inv(w) && Possible(w, e) && OfTimer(e) && MaySuspend(w)
    ensures var v := Step(w, e);
      MaySuspend(v) && v.p.suspend == if e == AlarmEvent(w.p.suspend) then INVALID else w.p.suspend
  {
    hide Inv, World.HandleAlarm, PressBecomes, ProximityBecomes, ExpirationBecomes, OffBecomes, Forgets;
    if e.AlarmEvent? {
      EventTimes(w, e);
      AlarmKeepsFlags(w, e.id);
    }
  }

  lemma AlarmKeepsFlags(w: World, id: AlarmId)
    requires Inv(w) && id in w.p.clock.fired && MaySuspend(w)
    ensures MaySuspend(w.(m := w.HandleAlarm(id).m))
  {
    hide Calm, Plan.Valid, World.HandleAlarm, World.LongPressAlarm, World.DimAlarm, World.OffAlarm;
    hide World.SuspendAlarm, World.ProximityAlarm, World.ExpirationAlarm, MayTimeOut;
    SoundPlan(w);
    AlarmSlots(w.p, id);
    AlarmMakes(w, id);
    if id == w.p.off { OffAlarmMakes(w); }
    else if id == w.p.suspend { SuspendAlarmMakes(w); }
    else if id != w.p.expiration { SmallAlarmsMake(w); }
  }

  lemma {:induction false} InvalidNeverArrives(w: World, es: seq<Event>)
    requires Inv(w) && PossibleRun(w, es)
    ensures AlarmEvent(INVALID) !in es
    decreases |es|
  {
    hide Inv, Step, Possible;
    if es != [] {
      FirstIsValid(w, es[0]);
      StepKeeps(w, es[0]);
      InvalidNeverArrives(Step(w, es[0]), es[1..]);
    }
  }

  lemma FirstIsValid(w: World, e: Event)
    requires Inv(w) && Possible(w, e)
    ensures e != AlarmEvent(INVALID)
  {
    hide ProperLog;
  }

  /** Left to the timer, a session that may suspend is suspended exactly once by a run that delivers its
      suspend alarm, and not at all by any other, whatever other alarms come. */
  lemma {:induction false} SuspendedOnceByItsAlarm(w: World, es: seq<Event>)
    requires Inv(w) && PossibleRun(w, es) && forall e :: e in es ==> OfTimer(e)
    requires MaySuspend(w)
    ensures Run(w, es).out.inactivitySuspends
      == w.out.inactivitySuspends + (if AlarmEvent(w.p.suspend) in es then 1 else 0)
    decreases |es|
  {
    hide Inv, Step, Possible, OfTimer, MaySuspend, ReportsLongPress, Stale, Frame;
    if es != [] {
      StepKeeps(w, es[0]);
      TimerKeepsSuspend(w, es[0]);
      EveryEventActsAs(w, es[0]);
      SuspendsExactly(w, es[0]);
      SuspendedOnceByItsAlarm(Step(w, es[0]), es[1..]);
      InvalidNeverArrives(Step(w, es[0]), es[1..]);
    }
  }

  lemma SuspendsExactly(w: World, e: Event)
    requires OfTimer(e) && MaySuspend(w)
    ensures Suspends(w, e) <==> e == AlarmEvent(w.p.suspend)
  {
  }

  // ---------- Holding the display on ----------

  /** The display is lit and a client holds it on. */
  predicate HeldLit(w: World) {
    && w.m.display == On && !w.m.paused && !w.m.clientAllows
    && w.m.reason != Notification && w.m.reason != Call
  }

  /** The events that may end it: the client gives up, somebody turns the display off, something is near,
      the lid is closed, the power button is let go, or the session is left. */
  predicate Overrides(e: Event) {
    || e.EnableInactivityTimeout? || e.TurnDisplayOff? || e.ProximityNear?
    || e.LidClosed? || e.PowerButtonRelease? || e.Pausing?
  }

  lemma NothingDarkens(w: World, e: Event)
    requires HeldLit(w) && !Overrides(e)
    ensures !Darkens(w, e)
  {
  }

  lemma LitAgain(w: World, e: Event)
    requires HeldLit(w) && Lights(w, e)
    ensures LightReason(e) != Notification && LightReason(e) != Call
  {
  }

  lemma InhibitorKeepsHold(w: World, e: Event)
    requires Inhibits(e) && e != EnableInactivityTimeout && !w.m.clientAllows
    ensures !Step(w, e).m.clientAllows
  {
    hide World.HandleDisableInactivityTimeout, World.HandleNoNotification, World.HandleNotification;
    hide World.HandleAllowSuspend, World.HandleDisallowSuspend;
    match e
    case DisableInactivityTimeout => InactivityTimeoutSetsFlag(w);
    case NoNotification => NoNotificationSetsFlag(w);
    case NewNotification(far) => NotificationSetsFlag(w, far);
    case AllowSuspend => AllowSuspendSetsFlag(w);
    case DisallowSuspend => DisallowSuspendSetsFlag(w);
    case _ =>
  }

  lemma KeepsHold(w: World, e: Event)
    requires HeldLit(w) && e != EnableInactivityTimeout
    ensures !Step(w, e).m.clientAllows
  {
    hide Step, Blocks, Swings, Forgets, Defers, ReasonAfter, Machine.ProximityEnabled;
    if Inhibits(e) { InhibitorKeepsHold(w, e); } else { EventEffects(w, e); }
  }

  lemma HeldStaysLit(w: World, e: Event)
    requires Inv(w) && Possible(w, e) && HeldLit(w) && !Overrides(e)
    ensures HeldLit(Step(w, e))
  {
    hide Inv, Step, Possible, Lights, Darkens, LightReason, Frame, Stale, Suspends, ReportsLongPress;
    EventShows(w, e);
    EveryEventActsAs(w, e);
    KeepsHold(w, e);
    NothingDarkens(w, e);
    if Lights(w, e) { LitAgain(w, e); }
  }

  /** A display that a client holds on, and that was not lit for a notification or a call, stays on over
      every run in which nothing overrides that: whatever alarms, notifications, calls, activity and
      changes of settings or of the power supply come. */
  lemma {:induction false} HeldDisplayStaysOn(w: World, es: seq<Event>)
    requires Inv(w) && PossibleRun(w, es) && HeldLit(w) && forall e :: e in es ==> !Overrides(e)
    ensures HeldLit(Run(w, es))
    decreases |es|
  {
    hide Inv, Step, Possible, HeldLit, Overrides;
    if es != [] {
      StepKeeps(w, es[0]);
      HeldStaysLit(w, es[0]);
      HeldDisplayStaysOn(Step(w, es[0]), es[1..]);
    }
  }

  /** A hold does not keep a display on that was lit for a notification or a call: the arrival of its off
      alarm turns a held display off exactly then. */
  lemma HoldYieldsToOffAlarm(w: World)
    requires Inv(w) && w.p.off in w.p.clock.fired
    requires w.m.display == On && !w.m.paused && !w.m.clientAllows
    ensures Step(w, AlarmEvent(w.p.off)).m.display == Off <==> w.m.reason == Notification || w.m.reason == Call
  {
    hide Inv, Step, NothingLeft;
    EventShows(w, AlarmEvent(w.p.off));
    OffIsNotExpiration(w);
  }

  lemma OffIsNotExpiration(w: World)
    requires Inv(w) && w.p.off in w.p.clock.fired
    ensures w.p.off != w.p.expiration
  {
    hide ProperLog;
  }

  // ---------- The power button ----------

  lemma LitButtonMachine(w: World)
    requires !w.m.paused
    ensures var m := w.TurnOn(PowerButton).m;
      && m.display == On && !m.paused && m.displayAtPress == w.m.displayAtPress
      && m.longPressDetected == w.m.longPressDetected && m.options == w.m.options
  {
    hide World.TurnOn;
    LightMachine(w, PowerButton);
  }

  /** The press lights the display and remembers how it was. */
  lemma PressRemembers(w: World)
    requires w.m.display != UnknownMode && !w.m.paused && !w.m.options.powerButtonIsActivity
    ensures var m := w.HandlePowerButtonPress().m;
      && m.displayAtPress == w.m.display && m.display == On && !m.paused
      && m.longPressDetected == w.m.longPressDetected && m.options == w.m.options
  {
    hide Pressing, World.HandlePowerButtonPress, World.ExtendFor, World.TurnOn;
    PressShape(w);
    PressingKeeps(w);
    LitButtonMachine(Pressing(w));
  }

  lemma ReleaseDarkens(w: World)
    requires w.m.display == On && !w.m.paused && !w.m.longPressDetected && !w.m.options.powerButtonIsActivity
    ensures DisplayAfter(w, PowerButtonRelease) == if w.m.displayAtPress == On then Off else On
  {
  }

  /** A short press turns a lit display off and a dark one on; */
  lemma ShortPressToggles(w: World)
    requires Inv(w) && !w.m.paused && !w.m.longPressDetected && !w.m.options.powerButtonIsActivity
    ensures var v := Step(Step(w, PowerButtonPress), PowerButtonRelease);
      v.m.display == if w.m.display == On then Off else On
  {
    hide Inv, World.HandlePowerButtonPress, World.HandlePowerButtonRelease, DisplayAfter;
    var u := Step(w, PowerButtonPress);
    DarkOrLit(w);
    StepKeeps(w, PowerButtonPress);
    PressRemembers(w);
    ReleaseDarkens(u);
    EventShows(u, PowerButtonRelease);
  }

  /** a press that was reported as a long one leaves it as it is when the button is let go. */
  lemma LongPressLeavesDisplay(w: World, id: AlarmId)
    requires Inv(w) && !w.m.paused && id == w.p.longPress && id in w.p.clock.fired
    ensures var u := Step(w, AlarmEvent(id));
      && u.out.longPresses == w.out.longPresses + 1
      && Step(u, PowerButtonRelease).m.display == w.m.display
  {
    hide Inv, Step, Stale, Frame, Suspends;
    var u := Step(w, AlarmEvent(id));
    StepKeeps(w, AlarmEvent(id));
    EventShows(w, AlarmEvent(id));
    EveryEventActsAs(w, AlarmEvent(id));
    LongPressIsNoOther(w, id);
    LongPressNoted(w, id);
    EventShows(u, PowerButtonRelease);
  }

  lemma LongPressIsNoOther(w: World, id: AlarmId)
    requires Inv(w) && id == w.p.longPress && id in w.p.clock.fired
    ensures id != w.p.off && id != w.p.expiration
  {
    hide ProperLog;
  }

  lemma LongPressNoted(w: World, id: AlarmId)
    requires Inv(w) && id == w.p.longPress && id in w.p.clock.fired
    ensures Step(w, AlarmEvent(id)).m.longPressDetected && Step(w, AlarmEvent(id)).m.paused == w.m.paused
  {
    hide Inv, World.HandleAlarm, World.LongPressAlarm;
    AlarmMakes(w, id);
    SmallAlarmsMake(w);
  }
}
