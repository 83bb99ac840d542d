/** Runs from start-up that lead into the situations in which a deferred suspend, the shared sensor
    or the shared suspend block is lost. */
module Scenarios {
  import opened Alarms
  import opened Plans
  import opened PowerModel
  import opened PowerInvariants
  import opened PowerChanges
  import opened Sessions
  import C = Clients
  import Text
  import SharedSensor
  import SharedBlock

  // ---------- Machines, up to what they said ----------

  predicate Looks(w: World, m: Machine, p: Plan) {
    w.m == m && w.p == p
  }

  lemma Lit(w: World, reason: Reason)
    requires !w.m.paused
    ensures Looks(w.TurnOnWithoutTimeout(reason), w.m.(display := On, reason := reason), w.p)
  {
    hide Outputs.Record;
  }

  lemma StartsLit(w: World)
    requires !w.m.paused && w.m.options.displayOnAtStartup && w.m == w.OnBattery(true).m
    ensures Looks(w.Start(true),
      w.m.(display := On, reason := UnknownReason, suspendPending := false),
      w.p.NormalOff(w.m.offTimeout.Get()).NormalSuspend(w.m.suspendTimeout.Get()))
  {
    hide World.Emit, World.TurnOnWithoutTimeout, Plan.NormalOff, Plan.NormalSuspend, Configurable.Get;
    EmitLeavesMachine(w, DisallowDefaultHandlers);
    Lit(w.Emit(DisallowDefaultHandlers), UnknownReason);
  }

  lemma Disallowed(w: World)
    ensures Looks(w.HandleDisallowSuspend(), w.m.(suspendAllowed := false), w.p)
  {
    hide Outputs.Record;
  }

  lemma HeldOn(w: World)
    requires w.m.display == On
    ensures Looks(w.HandleDisableInactivityTimeout(), w.m.(clientAllows := false), w.p)
  {
    hide Outputs.Record;
  }

  lemma SuspendDeferred(w: World, id: AlarmId)
    requires Defers(w, AlarmEvent(id))
    ensures Looks(w.HandleAlarm(id), w.m.(suspendPending := true), w.p.(suspend := INVALID))
  {
  }

  // ---------- A deferred suspend that is forgotten ----------

  // A suspend timeout shorter than the display-off timeout.
  const QUICK := Options(1000, 1000, 100, 50, 10, 10, 60, false, true)

  // The plan of a display lit at time 0, and the same once the suspend alarm, of id 2, has come.
  const SCHEDULED := Plan(1000, INVALID, INVALID, 1, 2, INVALID, INVALID, At(100), Normal,
                          Clock(0, 3, map[1 := 100, 2 := 50], {}))
  const SUSPENDING := SCHEDULED.(suspend := INVALID, clock := Clock(50, 3, map[1 := 100], {}))

  /** A client requests that the system stay up; the suspend alarm comes, so the suspend is deferred;
      and another client, or the same, keeps the display on. */
  function Holding(keeper: string, holder: string): seq<C.Call> {
    [ C.Elsewhere(Starting(true)), C.RequestSysState(holder, C.ACTIVE_STATE), C.Elsewhere(TimePasses(50)),
      C.Elsewhere(AlarmFires(2)), C.Elsewhere(AlarmEvent(2)), C.KeepDisplayOn(keeper) ]
  }

  predicate IsHolding(s: C.System, keeper: string, holder: string) {
    && s.keep == {(keeper, 1)} && s.states == {(holder, 1)} && !s.systemBlock && s.notes == multiset{}
    && s.w.m.suspendPending && !s.w.m.paused && s.w.m.display == On && s.w.m.notificationAllows
  }

  /** What the calls lead to, one after the other. */
  predicate Books(s: C.System, m: Machine, p: Plan, keep: set<C.Request>, states: set<C.Request>) {
    && Looks(s.w, m, p) && s.keep == keep && s.states == states && !s.systemBlock && s.notes == multiset{}
    && s.nextKeep == 1 && (states == {} ==> s.nextState == 1)
  }

  const RUNNING := NewMachine(QUICK).(display := On)

  lemma FirstPlan()
    ensures NoPlan(1000, START_OF_TIME).NormalOff(100).NormalSuspend(50) == SCHEDULED
  {
  }

  lemma AfterStart()
    ensures Books(C.Idle(QUICK).Apply(C.Elsewhere(Starting(true))), RUNNING, SCHEDULED, {}, {})
  {
    hide World.Start, Plan.NormalOff, Plan.NormalSuspend;
    StartsLit(Initial(QUICK));
    FirstPlan();
  }

  lemma AfterRequest(s: C.System, holder: string)
    requires Books(s, RUNNING, SCHEDULED, {}, {})
    ensures Books(s.Apply(C.RequestSysState(holder, C.ACTIVE_STATE)),
      RUNNING.(suspendAllowed := false), SCHEDULED, {}, {(holder, 1)})
  {
    hide World.HandleDisallowSuspend;
    Disallowed(s.w);
    assert {} + {(holder, 1)} == {(holder, 1)};
  }

  lemma AfterAlarm(s: C.System, holder: string)
    requires Books(s, RUNNING.(suspendAllowed := false), SCHEDULED, {}, {(holder, 1)})
    ensures var cs := [C.Elsewhere(TimePasses(50)), C.Elsewhere(AlarmFires(2)), C.Elsewhere(AlarmEvent(2))];
      && C.PossibleCalls(s, cs)
      && Books(C.After(s, cs), RUNNING.(suspendAllowed := false, suspendPending := true), SUSPENDING, {}, {(holder, 1)})
  {
    hide World.HandleAlarm;
    var t := s.Apply(C.Elsewhere(TimePasses(50)));
    var u := t.Apply(C.Elsewhere(AlarmFires(2)));
    var v := u.Apply(C.Elsewhere(AlarmEvent(2)));
    assert u.w.p.clock == Clock(50, 3, map[1 := 100], {2});
    SuspendDeferred(u.w, 2);
    assert C.After(v, []) == v;
    assert C.After(u, [C.Elsewhere(AlarmEvent(2))]) == v;
  }

  lemma AfterKeep(s: C.System, keeper: string, holder: string)
    requires Books(s, RUNNING.(suspendAllowed := false, suspendPending := true), SUSPENDING, {}, {(holder, 1)})
    ensures IsHolding(s.Apply(C.KeepDisplayOn(keeper)), keeper, holder)
  {
    hide World.HandleDisableInactivityTimeout;
    HeldOn(s.w);
    assert {} + {(keeper, 1)} == {(keeper, 1)};
  }

  lemma {:induction false} Joined(s: C.System, cs: seq<C.Call>, ds: seq<C.Call>)
    requires C.PossibleCalls(s, cs) && C.PossibleCalls(C.After(s, cs), ds)
    ensures C.PossibleCalls(s, cs + ds) && C.After(s, cs + ds) == C.After(C.After(s, cs), ds)
    decreases |cs|
  {
    hide C.System.Apply, C.PossibleCall;
    if cs == [] {
      assert cs + ds == ds;
    } else {
      assert (cs + ds)[1..] == cs[1..] + ds;
      Joined(s.Apply(cs[0]), cs[1..], ds);
    }
  }

  lemma OneCall(s: C.System, c: C.Call)
    requires C.PossibleCall(s, c)
    ensures C.PossibleCalls(s, [c]) && C.After(s, [c]) == s.Apply(c)
  {
    hide C.System.Apply, C.PossibleCall;
    assert C.After(s.Apply(c), []) == s.Apply(c);
  }

  /** Such a state is reached. */
  lemma HoldingReached(keeper: string, holder: string)
    ensures var s := C.After(C.Idle(QUICK), Holding(keeper, holder));
      C.PossibleCalls(C.Idle(QUICK), Holding(keeper, holder)) && IsHolding(s, keeper, holder) && C.Reached(s, QUICK)
  {
    hide C.System.Apply, IsHolding, Books;
    var start, request := C.Elsewhere(Starting(true)), C.RequestSysState(holder, C.ACTIVE_STATE);
    var alarm := [C.Elsewhere(TimePasses(50)), C.Elsewhere(AlarmFires(2)), C.Elsewhere(AlarmEvent(2))];
    var s1 := C.Idle(QUICK).Apply(start);
    AfterStart();
    OneCall(C.Idle(QUICK), start);
    AfterRequest(s1, holder);
    OneCall(s1, request);
    Joined(C.Idle(QUICK), [start], [request]);
    AfterAlarm(s1.Apply(request), holder);
    Joined(C.Idle(QUICK), [start] + [request], alarm);
    var s3 := C.After(C.Idle(QUICK), [start] + [request] + alarm);
    AfterKeep(s3, keeper, holder);
    OneCall(s3, C.KeepDisplayOn(keeper));
    Joined(C.Idle(QUICK), [start] + [request] + alarm, [C.KeepDisplayOn(keeper)]);
    assert [start] + [request] + alarm + [C.KeepDisplayOn(keeper)] == Holding(keeper, holder);
  }

  /** One client holds both the display and the last system-state request and disconnects: the
      timeouts start over first, and the suspend is never carried out. */
  lemma DisconnectForgetsSuspend(name: string)
    ensures var s := C.After(C.Idle(QUICK), Holding(name, name));
      var c := C.NameOwnerChanged(name, name, "");
      && C.Reached(s, QUICK) && s.w.m.suspendPending && !s.w.m.paused && C.Restarts(s, c) && C.Frees(s, c)
      && var t := s.Apply(c);
         t.keep == {} && !t.SuspendHeld() && !t.w.m.suspendPending
         && t.w.out.inactivitySuspends == s.w.out.inactivitySuspends
  {
    hide C.System.Apply, C.Sound, Holding;
    HoldingReached(name, name);
    var s := C.After(C.Idle(QUICK), Holding(name, name));
    C.ReachedHolds(s, QUICK);
    C.CallDecides(s, C.NameOwnerChanged(name, name, ""));
    C.FreesExactly(s, C.NameOwnerChanged(name, name, ""));
    NothingKept(s, name);
  }

  lemma NothingKept(s: C.System, name: string)
    requires C.Sound(s) && s.keep == {(name, 1)}
    ensures s.Apply(C.NameOwnerChanged(name, name, "")).keep == {}
  {
    hide Inv;
    C.DisconnectReleasesAll(s, name);
  }

  /** One client holds the display, another the last system-state request. The display is given back
      first, which starts the timeouts over, so that the last release suspends nothing; */
  lemma ReleaseForgetsSuspend(keeper: string, holder: string)
    ensures var s := C.After(C.Idle(QUICK), Holding(keeper, holder));
      var t := s.Apply(C.RemoveDisplayOnRequest(keeper, 1));
      var c := C.ClearSysState(holder, Text.ToString(1));
      && C.Reached(s, QUICK) && s.w.m.suspendPending && !s.w.m.paused
      && C.Frees(t, c) && !C.Restarts(t, c)
      && !t.Apply(c).w.m.suspendPending && t.Apply(c).w.out.inactivitySuspends == s.w.out.inactivitySuspends
  {
    hide C.System.Apply, C.Sound, Holding, Text.ToString, Text.Number;
    HoldingReached(keeper, holder);
    var s := C.After(C.Idle(QUICK), Holding(keeper, holder));
    C.ReachedHolds(s, QUICK);
    var r := C.RemoveDisplayOnRequest(keeper, 1);
    C.CallDecides(s, r);
    C.CallKeepsSound(s, r);
    StatesStay(s, keeper);
    Text.NumberOfNumeral(1);
    C.CallDecides(s.Apply(r), C.ClearSysState(holder, Text.ToString(1)));
  }

  lemma StatesStay(s: C.System, keeper: string)
    ensures var t := s.Apply(C.RemoveDisplayOnRequest(keeper, 1));
      t.states == s.states && t.systemBlock == s.systemBlock
  {
    hide World.HandleEnableInactivityTimeout;
  }

  /** and while the display is still held, the last release carries the suspend out. */
  lemma ReleaseCarriesOutSuspend(keeper: string, holder: string)
    ensures var s := C.After(C.Idle(QUICK), Holding(keeper, holder));
      s.Apply(C.ClearSysState(holder, Text.ToString(1))).w.out.inactivitySuspends == s.w.out.inactivitySuspends + 1
  {
    hide C.System.Apply, C.Sound, Holding, Text.ToString, Text.Number;
    HoldingReached(keeper, holder);
    var s := C.After(C.Idle(QUICK), Holding(keeper, holder));
    C.ReachedHolds(s, QUICK);
    Text.NumberOfNumeral(1);
    C.CallDecides(s, C.ClearSysState(holder, Text.ToString(1)));
  }

  // ---------- A call under which the sensor goes off ----------

  lemma StartsDark(w: World)
    requires !w.m.options.displayOnAtStartup && w.m == w.OnBattery(true).m
    ensures Looks(w.Start(true), w.m, w.p)
  {
    hide World.Emit;
    EmitLeavesMachine(w, DisallowDefaultHandlers);
  }

  lemma CallInTheDark(w: World)
    requires w.m.display == Off
    ensures Looks(w.HandleActiveCall(false), w.m.(proximityUntilDisabled := true), w.p)
  {
    hide Outputs.Record;
  }

  lemma CallEndsInTheDark(w: World)
    requires w.m.display == Off
    ensures Looks(w.HandleNoActiveCall(false),
      w.m.(proximityUntilFarOrTimeout := true, proximityUntilDisabled := false),
      w.p.ProximityDisable(w.m.options.reducedOffTimeout))
  {
    hide World.EnableProximity, World.DisableProximity, Plan.ProximityDisable;
    var u := w.EnableProximity(UntilFarOrTimeout);
    EnableShape(w, UntilFarOrTimeout);
    DisableShape(u.ScheduleProximityDisable(), UntilDisabled);
  }

  lemma Paused(w: World)
    ensures Looks(w.Pause(), w.m.(paused := true), w.p.CancelLongPress())
  {
    hide Outputs.Record;
  }

  // The display stays off when a session starts.
  const DARK := Options(1000, 1000, 100, 50, 10, 10, 60, false, false)

  const IDLE := NewMachine(DARK)

  /** The session has this machine and, but for the clock, this plan. */
  predicate Slotted(h: Hub, id: string, m: Machine, p: Plan) {
    h.Has(id) && Looks(h.sessions[id].w, m, p.(clock := START_OF_TIME))
  }

  predicate SameOther(h: Hub, g: Hub, id: string) {
    && g.sessions.Keys == h.sessions.Keys + {id} && g.options == h.options
    && forall j :: j in h.sessions && j != id ==> g.sessions[j] == h.sessions[j]
  }

  /** One session handles an event; what comes of it is known of that event alone. */
  lemma Handles(h: Hub, id: string, e: Event, m: Machine, p: Plan)
    requires h.Has(id) && Looks(Step(h.Load(id), e), m, p)
    ensures var g := h.On(id, e);
      && Slotted(g, id, m, p) && g.clock == p.clock && SameOther(h, g, id)
      && g.active == h.active && g.calls == h.calls
  {
    hide Step;
  }

  lemma Begins(h: Hub, id: string)
    requires id !in h.sessions && h.options == DARK
    ensures var g := h.NewSession(id, true);
      && Slotted(g, id, IDLE, NoPlan(DARK.dimDuration, h.clock)) && g.clock == h.clock && SameOther(h, g, id)
      && g.active == h.active && g.calls == h.calls
  {
    hide World.Start;
    var g := h.Store(id, h.Fresh());
    StartsDark(g.Load(id));
  }

  // The plan of a session that waits for its proximity timeout.
  const WAITING := NoPlan(1000, START_OF_TIME).(proximity := 1, clock := Clock(0, 2, map[1 := 10], {}))

  const LISTENING := IDLE.(proximityUntilDisabled := true)
  const LEFT := IDLE.(proximityUntilFarOrTimeout := true)

  predicate OnlyA(h: Hub, m: Machine, p: Plan, calls: seq<string>) {
    && Slotted(h, "A", m, p) && h.clock == p.clock && h.sessions.Keys == {NOBODY, "A"}
    && h.active == "A" && h.calls == calls && h.options == DARK
  }

  lemma AStarts()
    ensures OnlyA(Boot(DARK).Apply(SessionActivated("A", true, true)),
      IDLE, NoPlan(1000, START_OF_TIME), [])
  {
    hide Hub.NewSession;
    Begins(Boot(DARK), "A");
  }

  lemma ACalls(h: Hub)
    requires OnlyA(h, IDLE, NoPlan(1000, START_OF_TIME), [])
    ensures OnlyA(h.Apply(CallBegins(false)), LISTENING, NoPlan(1000, START_OF_TIME), ["A"])
  {
    hide Hub.On, World.HandleActiveCall;
    var g := h.(calls := h.calls + [h.active]);
    CallInTheDark(g.Load("A"));
    Handles(g, "A", ActiveCall(false), LISTENING, NoPlan(1000, START_OF_TIME));
  }

  lemma AHangsUp(h: Hub)
    requires OnlyA(h, LISTENING, NoPlan(1000, START_OF_TIME), ["A"])
    ensures OnlyA(h.Apply(CallEnds(false)), LEFT, WAITING, ["A"])
  {
    hide Hub.On, World.HandleNoActiveCall;
    CallEndsInTheDark(h.Load("A"));
    Handles(h, "A", NoActiveCall(false), LEFT, WAITING);
    assert h.ToSessions([], NoActiveCall(false)) == h;
    assert h.calls[..|h.calls| - 1] == [];
  }

  predicate AThenB(h: Hub, b: Machine, calls: seq<string>, clock: Clock) {
    && Slotted(h, "A", LEFT.(paused := true), WAITING) && h.Has("B") && h.sessions["B"].w.m == b
    && h.clock == clock && h.sessions.Keys == {NOBODY, "A", "B"}
    && h.active == "B" && h.calls == calls && h.options == DARK
  }

  lemma BStarts(h: Hub)
    requires OnlyA(h, LEFT, WAITING, ["A"])
    ensures AThenB(h.Apply(SessionActivated("B", true, true)), IDLE, ["A"], WAITING.clock)
  {
    hide Hub.On, Hub.NewSession, World.Pause, NoPlan;
    Paused(h.Load("A"));
    PausedPlan();
    Handles(h, "A", Pausing, LEFT.(paused := true), WAITING);
    Begins(h.On("A", Pausing), "B");
  }

  lemma PausedPlan()
    ensures WAITING.CancelLongPress() == WAITING
  {
  }

  lemma BCalls(h: Hub)
    requires AThenB(h, IDLE, ["A"], WAITING.clock)
    ensures AThenB(h.Apply(CallBegins(false)), LISTENING, ["A", "B"], WAITING.clock)
  {
    hide Hub.On, World.HandleActiveCall;
    var g := h.(calls := h.calls + [h.active]);
    CallInTheDark(g.Load("B"));
    Handles(g, "B", ActiveCall(false), LISTENING, g.Load("B").p);
  }

  lemma AlarmComesDue(h: Hub)
    requires AThenB(h, LISTENING, ["A", "B"], WAITING.clock)
    ensures var wait := [ClockTicks(10), AlarmGoesOff(1)];
      AllowedRun(h, wait) && AThenB(After(h, wait), LISTENING, ["A", "B"], Clock(10, 2, map[], {1}))
  {
    var g := h.Apply(ClockTicks(10));
    var g' := g.Apply(AlarmGoesOff(1));
    assert WAITING.clock.pending - {1} == map[];
    assert g'.clock == Clock(10, 2, map[], {1});
    assert After(g', []) == g';
    assert After(g, [AlarmGoesOff(1)]) == g';
  }

  lemma {:induction false} JoinedActions(h: Hub, a: seq<Action>, b: seq<Action>)
    requires AllowedRun(h, a) && AllowedRun(After(h, a), b)
    ensures AllowedRun(h, a + b) && After(h, a + b) == After(After(h, a), b)
    decreases |a|
  {
    hide Hub.Apply, Allowed;
    if a == [] {
      assert a + b == b;
    } else {
      assert (a + b)[1..] == a[1..] + b;
      JoinedActions(h.Apply(a[0]), a[1..], b);
    }
  }

  lemma OneMoreAction(h: Hub, run: seq<Action>, a: Action)
    requires AllowedRun(h, run) && Allowed(After(h, run), a)
    ensures AllowedRun(h, run + [a]) && After(h, run + [a]) == After(h, run).Apply(a)
  {
    hide Hub.Apply, Allowed;
    OneAction(After(h, run), a);
    JoinedActions(h, run, [a]);
  }

  /** A call of session A begins and ends with something near, session B is activated, and a call
      begins there. */
  const TWO_CALLS := [ SessionActivated("A", true, true), CallBegins(false), CallEnds(false),
                       SessionActivated("B", true, true), CallBegins(false) ]

  lemma FirstCallReached()
    ensures var h := After(Boot(DARK), TWO_CALLS[..3]);
      && AllowedRun(Boot(DARK), TWO_CALLS[..3]) && OnlyA(h, LEFT, WAITING, ["A"])
  {
    hide Hub.Apply, OnlyA;
    var boot := Boot(DARK);
    assert AllowedRun(boot, []) && After(boot, []) == boot;
    AStarts();
    OneMoreAction(boot, [], TWO_CALLS[0]);
    assert TWO_CALLS[..1] == [] + [TWO_CALLS[0]];
    ACalls(boot.Apply(TWO_CALLS[0]));
    OneMoreAction(boot, TWO_CALLS[..1], TWO_CALLS[1]);
    assert TWO_CALLS[..2] == TWO_CALLS[..1] + [TWO_CALLS[1]];
    AHangsUp(After(boot, TWO_CALLS[..2]));
    OneMoreAction(boot, TWO_CALLS[..2], TWO_CALLS[2]);
    assert TWO_CALLS[..3] == TWO_CALLS[..2] + [TWO_CALLS[2]];
  }

  lemma SecondCallAgrees(h: Hub)
    requires OnlyA(h, LEFT, WAITING, ["A"]) && HubInv(h)
    ensures var g := h.Apply(TWO_CALLS[3]).Apply(TWO_CALLS[4]);
      AThenB(g, LISTENING, ["A", "B"], WAITING.clock) && SharedSensor.SensorAgrees(g)
  {
    hide Sane, Hub.Activate, Hub.On, SharedSensor.SensorAgrees;
    BStarts(h);
    SharedSensor.ActivationAgrees(h, "B", true, true);
    var g := h.Apply(TWO_CALLS[3]);
    BCalls(g);
    NotedAgrees(g);
    SharedSensor.DispatchAgrees(g.(calls := g.calls + [g.active]), "B", ActiveCall(false));
  }

  lemma NotedAgrees(h: Hub)
    ensures SharedSensor.SensorAgrees(h.(calls := h.calls + [h.active])) == SharedSensor.SensorAgrees(h)
  {
  }

  /** This run is possible, and the sensor is on for the call of session B, the only active one. */
  lemma TwoCallsReached()
    ensures var h := After(Boot(DARK), TWO_CALLS);
      && AllowedRun(Boot(DARK), TWO_CALLS)
      && AThenB(h, LISTENING, ["A", "B"], WAITING.clock) && SharedSensor.SensorAgrees(h)
  {
    hide Hub.Apply, OnlyA, AThenB, Sane, SharedSensor.SensorAgrees;
    var boot := Boot(DARK);
    FirstCallReached();
    var h := After(boot, TWO_CALLS[..3]);
    BootHolds(DARK);
    DaemonRunKeeps(boot, TWO_CALLS[..3]);
    SecondCallAgrees(h);
    OneMoreAction(boot, TWO_CALLS[..3], TWO_CALLS[3]);
    assert TWO_CALLS[..4] == TWO_CALLS[..3] + [TWO_CALLS[3]];
    OneMoreAction(boot, TWO_CALLS[..4], TWO_CALLS[4]);
    assert TWO_CALLS == TWO_CALLS[..4] + [TWO_CALLS[4]];
  }

  lemma BootHolds(o: Options)
    requires o.reducedOffTimeout > 0
    ensures HubInv(Boot(o))
  {
  }

  const WAIT := [ClockTicks(10), AlarmGoesOff(1)]
  const TIMEOUT := AlarmArrives([NOBODY, "A", "B"], 1)

  /** Then the proximity timeout that session A waits for arrives, and the sensor goes off under the
      call of session B. */
  lemma SilencedCallReached()
    ensures AllowedRun(Boot(DARK), TWO_CALLS + WAIT + [TIMEOUT])
    ensures var h := After(Boot(DARK), TWO_CALLS + WAIT + [TIMEOUT]);
      && h.active == "B" && SharedSensor.Reason(h, "B") && !h.sensor
  {
    hide Hub.Apply, AThenB, Sane, SharedSensor.SensorAgrees, SharedSensor.Reason;
    var boot := Boot(DARK);
    TwoCallsReached();
    var h := After(boot, TWO_CALLS);
    AlarmComesDue(h);
    JoinedActions(boot, TWO_CALLS, WAIT);
    var g := After(boot, TWO_CALLS + WAIT);
    BootHolds(DARK);
    DaemonRunKeeps(boot, TWO_CALLS + WAIT);
    WaitingAgrees(h);
    TimeoutSilences(g);
    OneMoreAction(boot, TWO_CALLS + WAIT, TIMEOUT);
  }

  lemma WaitingAgrees(h: Hub)
    ensures SharedSensor.SensorAgrees(After(h, WAIT)) == SharedSensor.SensorAgrees(h)
  {
    var g := h.Apply(ClockTicks(10));
    var g' := g.Apply(AlarmGoesOff(1));
    assert After(g', []) == g';
    assert After(g, [AlarmGoesOff(1)]) == g';
  }

  lemma TimeoutSilences(h: Hub)
    requires HubInv(h) && SharedSensor.SensorAgrees(h)
    requires AThenB(h, LISTENING, ["A", "B"], Clock(10, 2, map[], {1}))
    ensures Allowed(h, TIMEOUT)
    ensures var g := h.Apply(TIMEOUT); g.active == "B" && SharedSensor.Reason(g, "B") && !g.sensor
  {
    hide Sane, Hub.AlarmTo;
    assert Enumerates(TIMEOUT.order, h.sessions.Keys);
    SharedSensor.PausedTimeoutSilencesCall(h, TIMEOUT.order, "A");
    ArrivalKeepsActive(h, TIMEOUT.order, 1);
  }

  lemma {:induction false} ArrivalKeepsActive(h: Hub, order: seq<string>, alarm: AlarmId)
    ensures h.AlarmTo(order, alarm).active == h.active
  {
    hide World.HandleAlarm;
    if order != [] { ArrivalKeepsActive(h, order[..|order| - 1], alarm); }
  }

  // ---------- A lit display without its suspend block ----------

  lemma StartedLit(w: World)
    requires !w.m.paused && w.m.options.displayOnAtStartup
    ensures Step(w, Starting(true)).m.display == On
  {
    hide World.TurnOn;
    SharedBlock.LitTakesBlock(w.OnBattery(true).Emit(DisallowDefaultHandlers), UnknownReason);
  }

  lemma TurnedOff(w: World)
    requires !w.m.paused
    ensures ReleasesBlock(Step(w, TurnDisplayOff).m)
  {
    hide Outputs.Record, Plan.CancelOff;
  }

  lemma PausedAsBefore(w: World)
    ensures ReleasesBlock(Step(w, Pausing).m) == ReleasesBlock(w.m)
  {
    hide Outputs.Record;
  }

  lemma LitSession(h: Hub, id: string)
    requires id !in h.sessions && h.options == QUICK
    ensures var g := h.NewSession(id, true);
      && g.Has(id) && g.sessions[id].w.m.display == On && SameOther(h, g, id)
  {
    hide Step;
    StartedLit(h.Store(id, h.Fresh()).Load(id));
  }

  // Session A is lit, then turned off; session B is activated.
  const ONE_DARK := [ SessionActivated("A", true, true), ToClients(["A"], TurnDisplayOff),
                      SessionActivated("B", true, true) ]
  const LIFTED := ToClients(["A", "B"], AllowSuspend)

  /** Session A is there alone, and active. */
  predicate Single(h: Hub) {
    h.sessions.Keys == {NOBODY, "A"} && h.Has("A") && h.active == "A" && h.options == QUICK
  }

  lemma ALights()
    ensures Single(Boot(QUICK).Apply(ONE_DARK[0]))
  {
    hide Hub.NewSession;
    LitSession(Boot(QUICK), "A");
    assert Boot(QUICK).On(NOBODY, Pausing) == Boot(QUICK);
    NewSessionStays(Boot(QUICK), "A");
  }

  lemma NewSessionStays(h: Hub, id: string)
    ensures h.NewSession(id, true).active == h.active && h.NewSession(id, true).options == h.options
  {
    hide Step;
  }

  lemma ADarkens(h: Hub)
    requires Single(h) && HubInv(h)
    ensures var g := h.Apply(ONE_DARK[1]);
      Single(g) && ReleasesBlock(g.sessions["A"].w.m)
  {
    hide Sane, Step, ReleasesBlock;
    LoadIsGood(h, "A", "A");
    TurnedOff(h.Load("A"));
    assert h.ToSessions([], TurnDisplayOff) == h;
    assert ["A"][..0] == [];
  }

  lemma BLights(h: Hub)
    requires Single(h) && ReleasesBlock(h.sessions["A"].w.m)
    ensures var g := h.Apply(ONE_DARK[2]);
      && SharedBlock.Releaser(g, "A") && g.active == "B" && g.Has("B") && g.sessions["B"].w.m.display == On
  {
    hide Step, ReleasesBlock, Hub.NewSession;
    PausedAsBefore(h.Load("A"));
    LitSession(h.On("A", Pausing), "B");
  }

  /** The run is possible and leads to `h`, with the block as the active session needs it. */
  ghost predicate LeadsTo(run: seq<Action>, h: Hub) {
    && AllowedRun(Boot(QUICK), run) && h == After(Boot(QUICK), run)
    && HubInv(h) && SharedBlock.BlockAgrees(h)
  }

  lemma LeadsOn(run: seq<Action>, h: Hub, a: Action)
    requires LeadsTo(run, h) && Allowed(h, a) && !SharedBlock.DisturbsBlock(h, a)
    ensures LeadsTo(run + [a], h.Apply(a))
  {
    hide Sane, Hub.Apply, SharedBlock.BlockAgrees, SharedBlock.DisturbsBlock, Allowed;
    ApplyKeeps(h, a);
    SharedBlock.BlockAgreesUnlessDisturbed(h, a);
    OneMoreAction(Boot(QUICK), run, a);
  }

  lemma BootLeads()
    ensures LeadsTo([], Boot(QUICK))
  {
    BootHolds(QUICK);
    SharedBlock.NobodyAgrees(Boot(QUICK));
  }

  lemma OneDarkReached()
    ensures var h := After(Boot(QUICK), ONE_DARK);
      && LeadsTo(ONE_DARK, h)
      && SharedBlock.Releaser(h, "A") && h.active == "B" && h.Has("B") && h.sessions["B"].w.m.display == On
  {
    hide Hub.Apply, Sane, SharedBlock.BlockAgrees, SharedBlock.Releaser, ReleasesBlock;
    var h0 := Boot(QUICK);
    BootLeads();
    ALights();
    LeadsOn([], h0, ONE_DARK[0]);
    var h1 := h0.Apply(ONE_DARK[0]);
    ADarkens(h1);
    assert [] + [ONE_DARK[0]] == [ONE_DARK[0]];
    LeadsOn([ONE_DARK[0]], h1, ONE_DARK[1]);
    var h2 := h1.Apply(ONE_DARK[1]);
    BLights(h2);
    LeadsOn([ONE_DARK[0]] + [ONE_DARK[1]], h2, ONE_DARK[2]);
    assert [ONE_DARK[0]] + [ONE_DARK[1]] + [ONE_DARK[2]] == ONE_DARK;
  }

  /** logind lifts its block, all sessions hear of it, and session A releases the suspend block under
      the lit display of session B. */
  lemma ReleasedBlockReached()
    ensures AllowedRun(Boot(QUICK), ONE_DARK + [LIFTED])
    ensures var h := After(Boot(QUICK), ONE_DARK + [LIFTED]);
      && h.active == "B" && SharedBlock.Wants(h, "B") && !h.block
  {
    hide Hub.ToSessions, Sane, SharedBlock.BlockAgrees, SharedBlock.Releaser, ReleasesBlock, Boot;
    OneDarkReached();
    var h := After(Boot(QUICK), ONE_DARK);
    SharedBlock.DarkSessionReleasesBlock(h, LIFTED.ids, "A");
    SwitchingKeepsActive(h, LIFTED.ids, AllowSuspend);
    OneMoreAction(Boot(QUICK), ONE_DARK, LIFTED);
  }

  lemma {:induction false} SwitchingKeepsActive(h: Hub, ids: seq<string>, e: Event)
    ensures h.ToSessions(ids, e).active == h.active
  {
    hide Step;
    if ids != [] { SwitchingKeepsActive(h, ids[..|ids| - 1], e); }
  }
}
