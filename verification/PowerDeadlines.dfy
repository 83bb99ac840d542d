/** How far ahead the display-off time may lie, over every run. */
module PowerDeadlines {
  import opened Alarms
  import opened Plans
  import opened PowerModel
  import opened PowerInvariants
  import opened PowerChanges
  import opened PowerTheorems

  /** The daemon starts a machine once, when nothing is scheduled. */
  predicate StartsIdle(w: World, e: Event) {
    e.Starting? ==> w.p.kind == NoTimeout
  }

  lemma ClockTimely(w: World, e: Event)
    requires Timely(w) && (e.TimePasses? || e.AlarmFires?)
    ensures Timely(Step(w, e))
  {
    hide Configurable.Get;
  }

  /** A dark, unpaused session has nothing scheduled. */
  lemma DarkHasNoTimeout(w: World)
    requires Inv(w) && !w.m.paused && w.m.display != On
    ensures w.p.kind == NoTimeout
  {
    hide ProperLog, Plan.Valid;
  }

  /** Every event keeps the deadlines, also when it changes the timeout in force. */
  lemma StepKeepsTimely(w: World, e: Event)
    requires Inv(w) && Timely(w) && Possible(w, e) && StartsIdle(w, e)
    ensures Timely(Step(w, e))
  {
    hide Inv, Timely, Effects, World.HandleAllowSuspend, World.HandleDisallowSuspend;
    hide World.HandleAlarm, World.HandlePowerSourceChange, World.Start, World.Pause, World.Resume;
    match e
    case TimePasses(_) => ClockTimely(w, e);
    case AlarmFires(_) => ClockTimely(w, e);
    case AlarmEvent(id) => AlarmEffects(w, id);
    case PowerSourceChange(b, far) =>
      PowerSourceChangeSpares(w, b, far);
      if w.m.display != On { DarkHasNoTimeout(w); }
    case Starting(b) => StartSpares(w, b);
    case Pausing => PauseChanges(w);
    case Resuming => ResumeChanges(w);
    case AllowSuspend => AllowSuspendChanges(w);
    case DisallowSuspend => DisallowSuspendChanges(w);
    case _ => RoutineEffects(w, e);
  }

  /** Only the first event may start the machine. */
  predicate StartsFirst(es: seq<Event>) {
    forall i :: 0 < i < |es| ==> !es[i].Starting?
  }

  lemma {:induction false} RunKeepsTimely(w: World, es: seq<Event>)
    requires Inv(w) && Timely(w) && PossibleRun(w, es)
    requires forall i :: 0 <= i < |es| ==> !es[i].Starting?
    ensures Timely(Run(w, es))
    decreases |es|
  {
    hide Inv, Timely, Step, Possible;
    if es != [] {
      StepKeeps(w, es[0]);
      StepKeepsTimely(w, es[0]);
      RunKeepsTimely(Step(w, es[0]), es[1..]);
    }
  }

  lemma InitialTimely(o: Options)
    requires o.reducedOffTimeout > 0
    ensures Inv(Initial(o)) && Timely(Initial(o)) && Initial(o).p.kind == NoTimeout
  {
    InitialHolds(o);
  }

  /** All runs of a machine as the daemon runs it: started at most once, and then first of all. */
  ghost predicate Daemonic(w: World, o: Options) {
    && o.reducedOffTimeout > 0
    && exists es :: StartsFirst(es) && PossibleRun(Initial(o), es) && w == Run(Initial(o), es)
  }

  lemma DaemonicHolds(w: World, o: Options)
    requires Daemonic(w, o)
    ensures Inv(w) && Timely(w)
  {
    hide Inv, Timely, Initial, Step, Possible;
    var es :| StartsFirst(es) && PossibleRun(Initial(o), es) && w == Run(Initial(o), es);
    InitialTimely(o);
    RunKeeps(Initial(o), es);
    if es != [] {
      StepKeeps(Initial(o), es[0]);
      StepKeepsTimely(Initial(o), es[0]);
      RunKeepsTimely(Step(Initial(o), es[0]), es[1..]);
    }
  }

  /** The display is off after what is left of the timeout in force, or that timeout is infinite. */
  ghost predicate GoesOffInTime(w: World) {
    && (w.p.offTime == Never ==> w.p.kind == Normal && w.m.offTimeout.Get() == INFINITE)
    && (w.p.offTime != Never ==>
          && PossibleRun(w, OffRun(w.p)) && Run(w, OffRun(w.p)).m.display == Off
          && (Wait(w.p) == 0 || Wait(w.p) <= Limit(w.m, w.p.kind)))
  }

  lemma TimelyGoesOff(w: World)
    requires Inv(w) && Timely(w)
    requires w.m.display == On && !w.m.paused && w.m.TimeoutAllowed()
    ensures GoesOffInTime(w)
  {
    hide ProperLog, OffRun, Step, Possible, Configurable.Get;
    if w.p.offTime != Never {
      LeftAloneGoesOff(w);
    }
  }

  /** No stuck-on display, with time: a lit, unpaused display that nothing holds on has an infinite
      timeout, or an off time no further ahead than the timeout in force; and letting that time pass
      and the off alarm arrive is a possible run that ends with the display off. */
  lemma DisplayGoesOffInTime(w: World, o: Options)
    requires Daemonic(w, o)
    requires w.m.display == On && !w.m.paused && w.m.TimeoutAllowed()
    ensures w.p.offTime == Never ==> w.p.kind == Normal && w.m.offTimeout.Get() == INFINITE
    ensures w.p.offTime != Never ==>
      && PossibleRun(w, OffRun(w.p)) && Run(w, OffRun(w.p)).m.display == Off
      && (Wait(w.p) == 0 || Wait(w.p) <= Limit(w.m, w.p.kind))
  {
    hide Inv, Timely, OffRun, Wait, Step, Possible, Daemonic, Configurable.Get;
    DaemonicHolds(w, o);
    TimelyGoesOff(w);
  }
}
