/** The clients' requests and one session's machine, end to end: what every client holds, and
    what the machine is told about it. */
module Clients {
  import opened Alarms
  import opened Plans
  import opened PowerModel
  import opened PowerInvariants
  import opened PowerChanges
  import opened PowerDeadlines
  import opened PowerPromises
  import PowerEffects
  import PowerOutcomes
  import PowerTheorems
  import Text

  type Request = (string, int)

  const ACTIVE_STATE := 1

  datatype Call =
    | KeepDisplayOn(sender: string)
    | RemoveDisplayOnRequest(sender: string, id: int)
    | NameOwnerChanged(name: string, oldOwner: string, newOwner: string)
    | SetScreenPowerMode(sender: string, mode: string, reason: int, far: bool)
    | RequestSysState(sender: string, state: int)
    | ClearSysState(sender: string, cookie: string)
    | SystemDisallowsSuspend
    | SystemAllowsSuspend
    | Elsewhere(event: Event)

  predicate Disconnects(name: string, oldOwner: string, newOwner: string) {
    newOwner == "" && oldOwner == name
  }

  // Reasons a client gives for a change of the screen power mode.
  predicate ForNotification(reason: int) {
    reason == 4 || reason == 5
  }

  predicate ForDisplay(reason: int) {
    reason == 1 || reason == 2
  }

  function Of(requests: set<Request>, sender: string): (mine: set<Request>)
    ensures forall r :: r in mine <==> r in requests && r.0 == sender
  {
    set r | r in requests && r.0 == sender
  }

  datatype System = System(
    keep: set<Request>,
    nextKeep: int,
    states: set<Request>,
    nextState: int,
    notes: multiset<string>,
    systemBlock: bool,
    w: World)
  {
    function KeepDisplayOn(sender: string): System {
      this.(keep := keep + {(sender, nextKeep)}, nextKeep := nextKeep + 1, w := w.HandleDisableInactivityTimeout())
    }

    /** The requests in `gone` are released. */
    function Release(gone: set<Request>): System {
      var s := this.(keep := keep - gone);
      if keep * gone != {} && s.keep == {} then s.(w := w.HandleEnableInactivityTimeout()) else s
    }

    predicate SuspendHeld() {
      states != {} || systemBlock
    }

    function AllowIfFree(): System {
      if SuspendHeld() then this else this.(w := w.HandleAllowSuspend())
    }

    function ReleaseStates(gone: set<Request>): System {
      var s := this.(states := states - gone);
      if states * gone != {} then s.AllowIfFree() else s
    }

    function Notified(sender: string, far: bool): System {
      this.(notes := notes + multiset{sender}, w := w.HandleNotification(far))
    }

    /** So many notifications of this sender remain. */
    function Leave(sender: string, n: nat): System {
      var s := this.(notes := notes[sender := n]);
      if notes[sender] != n && s.notes == multiset{} then s.(w := w.HandleNoNotification()) else s
    }

    function Disconnect(name: string): System {
      Release(Of(keep, name)).ReleaseStates(Of(states, name)).Leave(name, 0)
    }

    function SetMode(sender: string, mode: string, reason: int, far: bool): System {
      if ForNotification(reason) then
        if mode == "on" then Notified(sender, far)
        else if mode == "off" && notes[sender] > 0 then Leave(sender, notes[sender] - 1)
        else this
      else if ForDisplay(reason) then
        if mode == "on" then this.(w := w.HandleTurnOnDisplay())
        else if mode == "off" then this.(w := w.HandleTurnOffDisplay())
        else this
      else this
    }

    function RequestSysState(sender: string): System {
      this.(states := states + {(sender, nextState)}, nextState := nextState + 1, w := w.HandleDisallowSuspend())
    }

    function Apply(c: Call): System {
      match c
      case KeepDisplayOn(sender) => KeepDisplayOn(sender)
      case RemoveDisplayOnRequest(sender, id) => Release({(sender, id)})
      case NameOwnerChanged(name, old', new') => if Disconnects(name, old', new') then Disconnect(name) else this
      case SetScreenPowerMode(sender, mode, reason, far) => SetMode(sender, mode, reason, far)
      case RequestSysState(sender, state) => if state == ACTIVE_STATE then RequestSysState(sender) else this
      case ClearSysState(sender, cookie) => ReleaseStates({(sender, Text.Number(cookie))})
      case SystemDisallowsSuspend => this.(systemBlock := true, w := w.HandleDisallowSuspend())
      case SystemAllowsSuspend => this.(systemBlock := false).AllowIfFree()
      case Elsewhere(e) => this.(w := Step(w, e))
    }

    /** The machine's inhibitor flags are exactly what the clients hold. */
    predicate Conserved() {
      Tallied(w, keep != {}, SuspendHeld(), notes != multiset{})
    }

    predicate Consistent() {
      Issued(keep, nextKeep) && Issued(states, nextState) && Conserved()
    }
  }

  /** Every id belongs to one client, and new ones are fresh. */
  predicate Issued(requests: set<Request>, next: int) {
    && next >= 1
    && (forall r :: r in requests ==> 1 <= r.1 < next)
    && (forall q, r :: q in requests && r in requests && q.1 == r.1 ==> q == r)
  }

  predicate Tallied(w: World, kept: bool, suspendHeld: bool, noted: bool) {
    && (!w.m.clientAllows <==> kept)
    && (!w.m.suspendAllowed <==> suspendHeld)
    && (!w.m.notificationAllows ==> noted)
  }

  // ---------- The inhibitor flags ----------

  /** No event but the inhibitors' own ones touches what they asked for. */
  lemma EventKeepsFlags(w: World, e: Event)
    requires !Inhibits(e)
    ensures SameFlags(w, Step(w, e))
  {
    hide Step, Blocks, Swings, Forgets, Defers, ReasonAfter, Machine.ProximityEnabled;
    EventEffects(w, e);
  }

  // ---------- Every call keeps the books ----------

  lemma IssuedStays(requests: set<Request>, next: int, gone: set<Request>, sender: string)
    requires Issued(requests, next)
    ensures Issued(requests - gone, next) && Issued(requests + {(sender, next)}, next + 1)
  {
  }

  lemma NothingGone(requests: set<Request>, gone: set<Request>)
    requires requests * gone == {}
    ensures requests - gone == requests
  {
    assert forall r :: r in requests && r in gone ==> r in requests * gone;
  }

  lemma ReleaseKeeps(s: System, gone: set<Request>)
    requires s.Consistent()
    ensures s.Release(gone).Consistent()
  {
    hide World.HandleEnableInactivityTimeout, Issued;
    IssuedStays(s.keep, s.nextKeep, gone, "");
    InactivityTimeoutSetsFlag(s.w);
    if s.keep * gone == {} {
      NothingGone(s.keep, gone);
    }
  }

  lemma AllowIfFreeKeeps(s: System)
    requires Issued(s.keep, s.nextKeep) && Issued(s.states, s.nextState)
    requires s.SuspendHeld() ==> s.Conserved()
    requires Tallied(s.w, s.keep != {}, !s.w.m.suspendAllowed, s.notes != multiset{})
    ensures s.AllowIfFree().Consistent()
  {
    hide World.HandleAllowSuspend, Issued;
    AllowSuspendSetsFlag(s.w);
  }

  lemma ReleaseStatesKeeps(s: System, gone: set<Request>)
    requires s.Consistent()
    ensures s.ReleaseStates(gone).Consistent()
  {
    hide System.AllowIfFree, Issued;
    IssuedStays(s.states, s.nextState, gone, "");
    if s.states * gone == {} {
      NothingGone(s.states, gone);
    } else {
      AllowIfFreeKeeps(s.(states := s.states - gone));
    }
  }

  lemma LeaveKeeps(s: System, sender: string, n: nat)
    requires s.Consistent() && n <= s.notes[sender]
    ensures s.Leave(sender, n).Consistent()
  {
    hide World.HandleNoNotification, Issued;
    NoNotificationSetsFlag(s.w);
    if s.notes[sender] == n {
      assert s.notes[sender := n] == s.notes;
    }
  }

  /** Releasing one kind of request concerns nothing else. */
  lemma ReleaseLeaves(s: System, gone: set<Request>)
    ensures var t := s.Release(gone);
      t.states == s.states && t.notes == s.notes && t.systemBlock == s.systemBlock && t.keep == s.keep - gone
    ensures var t := s.ReleaseStates(gone);
      t.keep == s.keep && t.notes == s.notes && t.systemBlock == s.systemBlock && t.states == s.states - gone
  {
    hide World.HandleEnableInactivityTimeout, World.HandleAllowSuspend;
  }

  lemma DisconnectKeeps(s: System, name: string)
    requires s.Consistent()
    ensures s.Disconnect(name).Consistent()
  {
    hide System.Release, System.ReleaseStates, System.Leave, System.Consistent, Of;
    ReleaseKeeps(s, Of(s.keep, name));
    ReleaseLeaves(s, Of(s.keep, name));
    var u := s.Release(Of(s.keep, name));
    ReleaseStatesKeeps(u, Of(s.states, name));
    LeaveKeeps(u.ReleaseStates(Of(s.states, name)), name, 0);
  }

  lemma NotifiedKeeps(s: System, sender: string, far: bool)
    requires s.Consistent()
    ensures s.Notified(sender, far).Consistent()
  {
    hide World.HandleNotification, Issued;
    NotificationSetsFlag(s.w, far);
    assert sender in s.notes + multiset{sender};
  }

  /** An event that leaves the flags alone. */
  lemma SameFlagsConsistent(s: System, w: World)
    requires s.Consistent() && SameFlags(s.w, w)
    ensures s.(w := w).Consistent()
  {
    hide Issued;
  }

  lemma SetModeKeeps(s: System, sender: string, mode: string, reason: int, far: bool)
    requires s.Consistent()
    ensures s.SetMode(sender, mode, reason, far).Consistent()
  {
    hide World.HandleTurnOnDisplay, World.HandleTurnOffDisplay;
    hide System.Leave, System.Notified, System.Consistent, SameFlags;
    if ForNotification(reason) {
      NotifiedKeeps(s, sender, far);
      if s.notes[sender] > 0 {
        LeaveKeeps(s, sender, s.notes[sender] - 1);
      }
    } else {
      EventKeepsFlags(s.w, TurnDisplayOn);
      EventKeepsFlags(s.w, TurnDisplayOff);
      SameFlagsConsistent(s, s.w.HandleTurnOnDisplay());
      SameFlagsConsistent(s, s.w.HandleTurnOffDisplay());
    }
  }

  lemma KeepDisplayOnKeeps(s: System, sender: string)
    requires s.Consistent()
    ensures s.KeepDisplayOn(sender).Consistent()
  {
    hide World.HandleDisableInactivityTimeout, Issued;
    InactivityTimeoutSetsFlag(s.w);
    IssuedStays(s.keep, s.nextKeep, {}, sender);
    assert (sender, s.nextKeep) in s.KeepDisplayOn(sender).keep;
  }

  lemma RequestSysStateKeeps(s: System, sender: string)
    requires s.Consistent()
    ensures s.RequestSysState(sender).Consistent()
  {
    hide World.HandleDisallowSuspend, Issued;
    DisallowSuspendSetsFlag(s.w);
    IssuedStays(s.states, s.nextState, {}, sender);
    assert (sender, s.nextState) in s.RequestSysState(sender).states;
  }

  lemma SystemBlockKeeps(s: System)
    requires s.Consistent()
    ensures s.Apply(SystemDisallowsSuspend).Consistent() && s.Apply(SystemAllowsSuspend).Consistent()
  {
    hide World.HandleDisallowSuspend, System.AllowIfFree, Issued;
    DisallowSuspendSetsFlag(s.w);
    AllowIfFreeKeeps(s.(systemBlock := false));
  }

  /** What a call may be: the inhibitors' own events come through the clients only. */
  predicate PossibleCall(s: System, c: Call) {
    c.Elsewhere? ==> !Inhibits(c.event) && Possible(s.w, c.event)
  }

  lemma CallKeeps(s: System, c: Call)
    requires s.Consistent() && PossibleCall(s, c)
    ensures s.Apply(c).Consistent()
  {
    hide System.Disconnect, System.Release, System.ReleaseStates, System.SetMode, System.KeepDisplayOn;
    hide System.RequestSysState, System.Consistent, Step, Possible, SameFlags;
    match c
    case KeepDisplayOn(sender) => KeepDisplayOnKeeps(s, sender);
    case RemoveDisplayOnRequest(sender, id) => ReleaseKeeps(s, {(sender, id)});
    case NameOwnerChanged(name, _, _) => DisconnectKeeps(s, name);
    case SetScreenPowerMode(sender, mode, reason, far) => SetModeKeeps(s, sender, mode, reason, far);
    case RequestSysState(sender, _) => RequestSysStateKeeps(s, sender);
    case ClearSysState(sender, cookie) => ReleaseStatesKeeps(s, {(sender, Text.Number(cookie))});
    case SystemDisallowsSuspend => SystemBlockKeeps(s);
    case SystemAllowsSuspend => SystemBlockKeeps(s);
    case Elsewhere(e) =>
      EventKeepsFlags(s.w, e);
      SameFlagsConsistent(s, Step(s.w, e));
  }

  // ---------- The machine behind the clients ----------

  /** The machine's invariant holds afterwards, and its deadlines if they did before. */
  predicate Upheld(w: World, v: World) {
    Inv(v) && Punctual(w, v)
  }

  lemma EventUpholds(w: World, e: Event)
    requires Inv(w) && Possible(w, e)
    ensures Inv(Step(w, e)) && (StartsIdle(w, e) ==> Upheld(w, Step(w, e)))
  {
    hide Inv, Timely, Step, Possible;
    PowerTheorems.StepKeeps(w, e);
    if Timely(w) && StartsIdle(w, e) { StepKeepsTimely(w, e); }
  }

  lemma UpheldOn(u: World, v: World, w: World)
    requires Upheld(u, v) && Upheld(v, w)
    ensures Upheld(u, w)
  {
    hide Inv, Timely;
  }

  lemma NothingUpholds(w: World)
    requires Inv(w)
    ensures Upheld(w, w)
  {
    hide Inv, Timely;
  }

  lemma ReleaseUpholds(s: System, keepGone: set<Request>, statesGone: set<Request>)
    requires Inv(s.w)
    ensures Upheld(s.w, s.Release(keepGone).w) && Upheld(s.w, s.ReleaseStates(statesGone).w)
    ensures Upheld(s.w, s.AllowIfFree().w)
  {
    hide Inv, Upheld, World.HandleEnableInactivityTimeout, World.HandleAllowSuspend;
    NothingUpholds(s.w);
    EventUpholds(s.w, EnableInactivityTimeout);
    EventUpholds(s.w, AllowSuspend);
  }

  lemma LeaveUpholds(s: System, sender: string, n: nat)
    requires Inv(s.w)
    ensures Upheld(s.w, s.Leave(sender, n).w)
  {
    hide Inv, Upheld, World.HandleNoNotification;
    NothingUpholds(s.w);
    EventUpholds(s.w, NoNotification);
  }

  lemma DisconnectUpholds(s: System, name: string)
    requires Inv(s.w)
    ensures Upheld(s.w, s.Disconnect(name).w)
  {
    hide Inv, Timely, Of, System.Release, System.ReleaseStates, System.Leave;
    var t := s.Release(Of(s.keep, name));
    ReleaseUpholds(s, Of(s.keep, name), {});
    ReleaseLeaves(s, Of(s.keep, name));
    var u := t.ReleaseStates(Of(s.states, name));
    ReleaseUpholds(t, {}, Of(s.states, name));
    LeaveUpholds(u, name, 0);
    UpheldOn(s.w, t.w, u.w);
    UpheldOn(s.w, u.w, u.Leave(name, 0).w);
  }

  lemma SetModeUpholds(s: System, sender: string, mode: string, reason: int, far: bool)
    requires Inv(s.w)
    ensures Upheld(s.w, s.SetMode(sender, mode, reason, far).w)
  {
    hide Inv, Upheld, System.Leave, World.HandleNotification, World.HandleTurnOnDisplay, World.HandleTurnOffDisplay;
    NothingUpholds(s.w);
    EventUpholds(s.w, NewNotification(far));
    EventUpholds(s.w, TurnDisplayOn);
    EventUpholds(s.w, TurnDisplayOff);
    if s.notes[sender] > 0 {
      LeaveUpholds(s, sender, s.notes[sender] - 1);
    }
  }

  /** The call starts the machine. */
  predicate Starts(c: Call) {
    c.Elsewhere? && c.event.Starting?
  }

  lemma CallUpholds(s: System, c: Call)
    requires Inv(s.w) && PossibleCall(s, c)
    ensures Inv(s.Apply(c).w) && ((Starts(c) ==> s.w.p.kind == NoTimeout) ==> Upheld(s.w, s.Apply(c).w))
  {
    hide Inv, Timely, System.Release, System.ReleaseStates, System.SetMode, System.Disconnect, System.AllowIfFree;
    hide World.HandleDisableInactivityTimeout, World.HandleDisallowSuspend, Step, Possible;
    match c
    case KeepDisplayOn(_) => KeepOrRequestUpholds(s, c);
    case RemoveDisplayOnRequest(sender, id) => ReleaseUpholds(s, {(sender, id)}, {});
    case NameOwnerChanged(name, old', new') =>
      NothingUpholds(s.w);
      DisconnectUpholds(s, name);
    case SetScreenPowerMode(sender, mode, reason, far) => SetModeUpholds(s, sender, mode, reason, far);
    case RequestSysState(_, _) => KeepOrRequestUpholds(s, c);
    case ClearSysState(sender, cookie) => ReleaseUpholds(s, {}, {(sender, Text.Number(cookie))});
    case SystemDisallowsSuspend => KeepOrRequestUpholds(s, c);
    case SystemAllowsSuspend => ReleaseUpholds(s.(systemBlock := false), {}, {});
    case Elsewhere(e) => EventUpholds(s.w, e);
  }

  lemma KeepOrRequestUpholds(s: System, c: Call)
    requires Inv(s.w) && (c.KeepDisplayOn? || c.RequestSysState? || c.SystemDisallowsSuspend?)
    ensures Upheld(s.w, s.Apply(c).w)
  {
    hide Inv, Upheld, World.HandleDisableInactivityTimeout, World.HandleDisallowSuspend;
    NothingUpholds(s.w);
    EventUpholds(s.w, DisableInactivityTimeout);
    EventUpholds(s.w, DisallowSuspend);
  }

  /** The books agree with the machine, and the machine keeps its own invariant. */
  predicate Sound(s: System) {
    s.Consistent() && Inv(s.w)
  }

  /** Every possible call keeps both. */
  lemma CallKeepsSound(s: System, c: Call)
    requires Sound(s) && PossibleCall(s, c)
    ensures Sound(s.Apply(c))
  {
    hide Inv, System.Consistent, System.Apply, PossibleCall;
    CallKeeps(s, c);
    CallUpholds(s, c);
  }

  // ---------- Runs ----------

  function Idle(o: Options): System {
    System({}, 1, {}, 1, multiset{}, false, Initial(o))
  }

  ghost predicate PossibleCalls(s: System, cs: seq<Call>)
    decreases |cs|
  {
    cs == [] || (PossibleCall(s, cs[0]) && PossibleCalls(s.Apply(cs[0]), cs[1..]))
  }

  ghost function After(s: System, cs: seq<Call>): System
    decreases |cs|
  {
    if cs == [] then s else After(s.Apply(cs[0]), cs[1..])
  }

  lemma {:induction false} CallsKeep(s: System, cs: seq<Call>)
    requires Sound(s) && PossibleCalls(s, cs)
    ensures Sound(After(s, cs))
    decreases |cs|
  {
    hide Sound, System.Apply, PossibleCall;
    if cs != [] {
      CallKeepsSound(s, cs[0]);
      CallsKeep(s.Apply(cs[0]), cs[1..]);
    }
  }

  lemma IdleHolds(o: Options)
    requires o.reducedOffTimeout > 0
    ensures Sound(Idle(o))
  {
  }

  /** What runs of client calls, logind's blocks, alarms and other events lead to from start-up. */
  ghost predicate Reached(s: System, o: Options) {
    o.reducedOffTimeout > 0 && exists cs :: PossibleCalls(Idle(o), cs) && s == After(Idle(o), cs)
  }

  lemma ReachedHolds(s: System, o: Options)
    requires Reached(s, o)
    ensures Sound(s)
  {
    hide Sound, Idle;
    var cs :| PossibleCalls(Idle(o), cs) && s == After(Idle(o), cs);
    IdleHolds(o);
    CallsKeep(Idle(o), cs);
  }

  /** The inhibitors are conserved in every run: the client allowance is withheld exactly while
      some client keeps the display on, suspending is disallowed exactly while a system-state
      request or the system's own block is held, and the notification allowance is withheld only
      while a notification is active. */
  lemma InhibitorsConserved(s: System, o: Options)
    requires Reached(s, o)
    ensures !s.w.m.clientAllows <==> s.keep != {}
    ensures !s.w.m.suspendAllowed <==> s.states != {} || s.systemBlock
    ensures !s.w.m.notificationAllows ==> s.notes != multiset{}
  {
    hide Inv, Issued, Reached;
    ReachedHolds(s, o);
  }

  /** So a display that is lit, unpaused and that nobody holds on goes off when its off time comes, if
      it has one and nothing else happens. */
  lemma UnheldDisplayGoesOff(s: System, o: Options)
    requires Reached(s, o)
    requires s.keep == {} && s.notes == multiset{} && s.w.m.display == On && !s.w.m.paused
    ensures s.w.p.offTime != Never ==>
      var run := PowerTheorems.OffRun(s.w.p);
      PossibleRun(s.w, run) && Run(s.w, run).m.display == Off
  {
    hide Inv, Issued, Reached, PowerTheorems.OffRun, Step, Possible;
    ReachedHolds(s, o);
    if s.w.p.offTime != Never {
      PowerTheorems.LeftAloneGoesOff(s.w);
    }
  }

  /** The same where the machine is started as the daemon does it: at most once, and first of all. */
  ghost predicate Served(s: System, o: Options) {
    && o.reducedOffTimeout > 0
    && exists cs :: PossibleCalls(Idle(o), cs) && s == After(Idle(o), cs) && forall i :: 0 < i < |cs| ==> !Starts(cs[i])
  }

  lemma {:induction false} CallsKeepTimely(s: System, cs: seq<Call>)
    requires Inv(s.w) && Timely(s.w) && PossibleCalls(s, cs)
    requires forall i :: 0 <= i < |cs| ==> !Starts(cs[i])
    ensures Timely(After(s, cs).w)
    decreases |cs|
  {
    hide Inv, Timely, System.Apply, PossibleCall, Starts;
    if cs != [] {
      CallUpholds(s, cs[0]);
      CallsKeepTimely(s.Apply(cs[0]), cs[1..]);
    }
  }

  lemma ServedHolds(s: System, o: Options)
    requires Served(s, o)
    ensures Sound(s) && Timely(s.w)
  {
    hide Inv, Timely, Initial, System.Consistent, System.Apply, PossibleCall, Starts;
    var cs :| PossibleCalls(Idle(o), cs) && s == After(Idle(o), cs) && forall i :: 0 < i < |cs| ==> !Starts(cs[i]);
    IdleHolds(o);
    InitialTimely(o);
    CallsKeep(Idle(o), cs);
    if cs != [] {
      CallUpholds(Idle(o), cs[0]);
      CallsKeepTimely(Idle(o).Apply(cs[0]), cs[1..]);
    }
  }

  /** And it does not stay on for longer than the timeout in force: with no off time that timeout is
      infinite, and otherwise the off time is no further ahead than the timeout its schedule is for. */
  lemma UnheldDisplayGoesOffInTime(s: System, o: Options)
    requires Served(s, o)
    requires s.keep == {} && s.notes == multiset{} && s.w.m.display == On && !s.w.m.paused
    ensures s.w.p.offTime == Never ==> s.w.p.kind == Normal && s.w.m.offTimeout.Get() == INFINITE
    ensures s.w.p.offTime != Never ==>
      var run := PowerTheorems.OffRun(s.w.p);
      && PossibleRun(s.w, run) && Run(s.w, run).m.display == Off
      && (PowerTheorems.Wait(s.w.p) == 0 || PowerTheorems.Wait(s.w.p) <= Limit(s.w.m, s.w.p.kind))
  {
    hide Inv, Timely, Issued, Served, PowerTheorems.OffRun, PowerTheorems.Wait, Step, Possible, Configurable.Get;
    ServedHolds(s, o);
    TimelyGoesOff(s.w);
  }

  // ---------- Keeping the display on ----------

  /** The call turns the display off by other means than giving a request back. */
  predicate TurnsOff(c: Call) {
    match c
    case SetScreenPowerMode(_, mode, reason, _) => ForDisplay(reason) && mode == "off"
    case Elsewhere(e) => Overrides(e)
    case _ => false
  }

  lemma ReleaseKeepsLit(s: System, gone: set<Request>)
    requires HeldLit(s.w) && s.keep - gone != {}
    ensures HeldLit(s.Release(gone).w)
  {
    hide HeldLit;
  }

  lemma StatesKeepLit(s: System, gone: set<Request>)
    requires Inv(s.w) && HeldLit(s.w)
    ensures HeldLit(s.ReleaseStates(gone).w) && HeldLit(s.AllowIfFree().w)
  {
    hide Inv, HeldLit, World.HandleAllowSuspend;
    HeldStaysLit(s.w, AllowSuspend);
  }

  lemma LeaveKeepsLit(s: System, sender: string, n: nat)
    requires Inv(s.w) && HeldLit(s.w)
    ensures HeldLit(s.Leave(sender, n).w)
  {
    hide Inv, HeldLit, World.HandleNoNotification;
    HeldStaysLit(s.w, NoNotification);
  }

  lemma DisconnectKeepsLit(s: System, name: string)
    requires Inv(s.w) && HeldLit(s.w) && s.Disconnect(name).keep != {}
    ensures HeldLit(s.Disconnect(name).w)
  {
    hide Inv, Timely, HeldLit, System.Release, System.ReleaseStates, System.Leave, Of;
    var mine, states := Of(s.keep, name), Of(s.states, name);
    DisconnectBooks(s, name);
    ReleaseKeepsLit(s, mine);
    ReleaseUpholds(s, mine, {});
    var t := s.Release(mine);
    StatesKeepLit(t, states);
    ReleaseUpholds(t, {}, states);
    LeaveKeepsLit(t.ReleaseStates(states), name, 0);
  }

  lemma SetModeKeepsLit(s: System, c: Call)
    requires Inv(s.w) && HeldLit(s.w) && c.SetScreenPowerMode? && !TurnsOff(c)
    ensures HeldLit(s.SetMode(c.sender, c.mode, c.reason, c.far).w)
  {
    hide Inv, HeldLit, System.Leave, World.HandleNotification, World.HandleTurnOnDisplay, World.HandleTurnOffDisplay;
    HeldStaysLit(s.w, NewNotification(c.far));
    HeldStaysLit(s.w, TurnDisplayOn);
    if s.notes[c.sender] > 0 { LeaveKeepsLit(s, c.sender, s.notes[c.sender] - 1); }
  }

  lemma CallKeepsLit(s: System, c: Call)
    requires Inv(s.w) && PossibleCall(s, c) && HeldLit(s.w) && !TurnsOff(c) && s.Apply(c).keep != {}
    ensures HeldLit(s.Apply(c).w)
  {
    hide Inv, HeldLit, System.Release, System.ReleaseStates, System.SetMode, System.Disconnect, System.AllowIfFree;
    hide World.HandleDisableInactivityTimeout, World.HandleDisallowSuspend, Step, Possible, Text.Number;
    match c
    case KeepDisplayOn(_) => RequestKeepsLit(s);
    case RemoveDisplayOnRequest(sender, id) =>
      ReleaseLeaves(s, {(sender, id)});
      ReleaseKeepsLit(s, {(sender, id)});
    case NameOwnerChanged(name, old', new') => if Disconnects(name, old', new') { DisconnectKeepsLit(s, name); }
    case SetScreenPowerMode(_, _, _, _) => SetModeKeepsLit(s, c);
    case RequestSysState(_, _) => RequestKeepsLit(s);
    case ClearSysState(sender, cookie) => StatesKeepLit(s, {(sender, Text.Number(cookie))});
    case SystemDisallowsSuspend => RequestKeepsLit(s);
    case SystemAllowsSuspend => StatesKeepLit(s.(systemBlock := false), {});
    case Elsewhere(e) => HeldStaysLit(s.w, e);
  }

  lemma RequestKeepsLit(s: System)
    requires Inv(s.w) && HeldLit(s.w)
    ensures HeldLit(s.w.HandleDisableInactivityTimeout()) && HeldLit(s.w.HandleDisallowSuspend())
  {
    hide Inv, HeldLit, World.HandleDisableInactivityTimeout, World.HandleDisallowSuspend;
    HeldStaysLit(s.w, DisableInactivityTimeout);
    HeldStaysLit(s.w, DisallowSuspend);
  }

  /** Some client keeps the display on throughout, and nobody turns it off. */
  ghost predicate KeptOn(s: System, cs: seq<Call>)
    decreases |cs|
  {
    cs == [] || (!TurnsOff(cs[0]) && s.Apply(cs[0]).keep != {} && KeptOn(s.Apply(cs[0]), cs[1..]))
  }

  /** A lit display stays on as long as some client keeps it on and nobody turns it off, whatever else
      clients, logind, alarms and the devices do, if it was not lit for a notification or a call. */
  lemma {:induction false} KeptDisplayStaysOn(s: System, cs: seq<Call>)
    requires Sound(s) && PossibleCalls(s, cs) && HeldLit(s.w) && KeptOn(s, cs)
    ensures After(s, cs).w.m.display == On
    decreases |cs|
  {
    hide Inv, System.Consistent, System.Apply, PossibleCall, TurnsOff;
    if cs != [] {
      CallKeepsLit(s, cs[0]);
      CallKeepsSound(s, cs[0]);
      KeptDisplayStaysOn(s.Apply(cs[0]), cs[1..]);
    }
  }

  /** A request to keep the display on is filed under a fresh id, lights a dark display, and holds any
      display on that was not lit for a notification or a call. */
  lemma RequestHoldsOn(s: System, sender: string)
    requires Sound(s)
    ensures var t := s.Apply(KeepDisplayOn(sender));
      && (sender, s.nextKeep) !in s.keep && t.keep == s.keep + {(sender, s.nextKeep)}
      && !t.w.m.clientAllows
      && (!s.w.m.paused ==> t.w.m.display == On)
      && (!s.w.m.paused && (s.w.m.display == Off || (s.w.m.reason != Notification && s.w.m.reason != Call)) ==>
            HeldLit(t.w))
  {
    hide Inv, System.Conserved, World.HandleDisableInactivityTimeout;
    InactivityTimeoutSetsFlag(s.w);
    PowerOutcomes.EventShows(s.w, DisableInactivityTimeout);
    LitIsKnown(s.w);
    QuietEvent(s.w, DisableInactivityTimeout);
  }

  lemma LitIsKnown(w: World)
    requires Inv(w)
    ensures w.m.display != UnknownMode
  {
    hide ProperLog, Plan.Valid;
  }

  // ---------- Deferred suspends ----------

  /** What one event does to a deferred suspend, and how often it suspends the system. */
  lemma OneEvent(w: World, e: Event)
    requires Inv(w) && Possible(w, e)
    ensures var v := Step(w, e);
      && v.m.suspendPending == ((w.m.suspendPending && !Forgets(w, e)) || Defers(w, e))
      && v.out.inactivitySuspends == w.out.inactivitySuspends + (if PowerTheorems.Suspends(w, e) then 1 else 0)
      && (e != Pausing && e != Resuming ==> v.m.paused == w.m.paused)
  {
    hide Inv, Possible, Step, Forgets, Defers, ReasonAfter, Blocks, Swings, SameFlags, Machine.ProximityEnabled;
    hide PowerEffects.Frame, PowerTheorems.Stale, PowerTheorems.Suspends, PowerTheorems.ReportsLongPress;
    EventEffects(w, e);
    PowerTheorems.EveryEventActsAs(w, e);
  }

  /** The call starts the timeouts over, and so forgets a deferred suspend: the last display request
      is given back on a lit display, the display is switched on, or the machine's event does it. */
  predicate ForgetsBy(s: System, c: Call) {
    match c
    case RemoveDisplayOnRequest(sender, id) =>
      s.keep == {(sender, id)} && s.w.m.notificationAllows && s.w.m.display == On
    case NameOwnerChanged(_, _, _) => Restarts(s, c)
    case SetScreenPowerMode(_, mode, reason, _) => ForDisplay(reason) && mode == "on"
    case Elsewhere(e) => Forgets(s.w, e)
    case _ => false
  }

  /** A disconnect first gives the client's display requests back; when they were the last on a lit
      display the timeouts start over. */
  predicate Restarts(s: System, c: Call) {
    && c.NameOwnerChanged? && Disconnects(c.name, c.oldOwner, c.newOwner)
    && s.keep != {} && s.keep == Of(s.keep, c.name)
    && s.w.m.notificationAllows && s.w.m.display == On
  }

  /** The call ends the last thing that held suspending off. */
  predicate Frees(s: System, c: Call) {
    match c
    case ClearSysState(sender, cookie) => s.states == {(sender, Text.Number(cookie))} && !s.systemBlock
    case NameOwnerChanged(name, old', new') =>
      Disconnects(name, old', new') && s.states != {} && s.states == Of(s.states, name) && !s.systemBlock
    case SystemAllowsSuspend => s.systemBlock && s.states == {}
    case _ => false
  }

  predicate DefersBy(s: System, c: Call) {
    c.Elsewhere? && Defers(s.w, c.event)
  }

  /** The call suspends the system: it frees a suspend that it does not forget first, or the suspend
      alarm arrives. */
  predicate SuspendsBy(s: System, c: Call) {
    || (Frees(s, c) && s.w.m.suspendPending && !ForgetsBy(s, c) && !s.w.m.paused)
    || (c.Elsewhere? && PowerTheorems.Suspends(s.w, c.event))
  }

  /** From `s` to `t` a deferred suspend is kept unless `lost`, and the system is suspended so often. */
  predicate Passes(s: System, t: System, lost: bool, suspends: nat) {
    && t.w.m.suspendPending == (s.w.m.suspendPending && !lost)
    && t.w.out.inactivitySuspends == s.w.out.inactivitySuspends + suspends
    && t.w.m.paused == s.w.m.paused
  }

  lemma EnablePasses(w: World)
    requires Inv(w)
    ensures var v := w.HandleEnableInactivityTimeout();
      && v.m.suspendPending == (w.m.suspendPending && !Unholds(w.m))
      && v.out.inactivitySuspends == w.out.inactivitySuspends && v.m.paused == w.m.paused
  {
    hide Inv, World.HandleEnableInactivityTimeout;
    OneEvent(w, EnableInactivityTimeout);
  }

  lemma AllowPasses(w: World)
    requires Inv(w)
    ensures var v := w.HandleAllowSuspend();
      && !v.m.suspendPending && v.m.paused == w.m.paused
      && v.out.inactivitySuspends ==
           w.out.inactivitySuspends + (if w.m.suspendPending && !w.m.paused then 1 else 0)
  {
    hide Inv, World.HandleAllowSuspend;
    OneEvent(w, AllowSuspend);
  }

  predicate Quietly(w: World, v: World) {
    && v.m.suspendPending == w.m.suspendPending
    && v.out.inactivitySuspends == w.out.inactivitySuspends && v.m.paused == w.m.paused
  }

  lemma QuietEvent(w: World, e: Event)
    requires Inv(w)
    requires e.NoNotification? || e.NewNotification? || e.DisableInactivityTimeout?
      || e.TurnDisplayOff? || e.DisallowSuspend?
    ensures Quietly(w, Step(w, e))
  {
    hide Inv, Step;
    OneEvent(w, e);
  }

  lemma ReleasePasses(s: System, gone: set<Request>)
    requires Sound(s)
    ensures var restarts :=
        s.keep * gone != {} && s.keep - gone == {} && s.w.m.notificationAllows && s.w.m.display == On;
      Passes(s, s.Release(gone), restarts, 0)
  {
    hide Inv, Issued, World.HandleEnableInactivityTimeout;
    EnablePasses(s.w);
    if s.keep * gone != {} && s.keep - gone == {} {
      assert s.keep != {};
    }
  }

  lemma StatesPass(s: System, gone: set<Request>)
    requires Inv(s.w)
    ensures var frees := s.states * gone != {} && s.states - gone == {} && !s.systemBlock;
      Passes(s, s.ReleaseStates(gone), frees, if frees && s.w.m.suspendPending && !s.w.m.paused then 1 else 0)
  {
    hide Inv, World.HandleAllowSuspend;
    AllowPasses(s.w);
  }

  lemma LeavePasses(s: System, sender: string, n: nat)
    requires Inv(s.w)
    ensures Passes(s, s.Leave(sender, n), false, 0)
  {
    hide Inv, World.HandleNoNotification;
    QuietEvent(s.w, NoNotification);
  }

  lemma Onward(s: System, t: System, u: System, f: bool, g: bool, a: nat, b: nat)
    requires Passes(s, t, f, a) && Passes(t, u, g, b)
    ensures Passes(s, u, f || g, a + b)
  {
  }

  /** A disconnect: display requests first, then system-state requests, then notifications. */
  lemma DisconnectPasses(s: System, name: string)
    requires Sound(s)
    ensures var c := NameOwnerChanged(name, name, "");
      Passes(s, s.Disconnect(name), ForgetsBy(s, c) || Frees(s, c),
        if Frees(s, c) && s.w.m.suspendPending && !ForgetsBy(s, c) && !s.w.m.paused then 1 else 0)
  {
    hide Inv, System.Consistent, System.Release, System.ReleaseStates, System.Leave, Passes, Of;
    var c := NameOwnerChanged(name, name, "");
    var mine, states := Of(s.keep, name), Of(s.states, name);
    var t := s.Release(mine);
    ReleasePasses(s, mine);
    ReleaseLeaves(s, mine);
    ReleaseUpholds(s, mine, {});
    AllOf(s.keep, name);
    AllOf(s.states, name);
    var u := t.ReleaseStates(states);
    StatesPass(t, states);
    ReleaseUpholds(t, {}, states);
    LeavePasses(u, name, 0);
    var carried := if Frees(s, c) && t.w.m.suspendPending && !t.w.m.paused then 1 else 0;
    Onward(s, t, u, ForgetsBy(s, c), Frees(s, c), 0, carried);
    Onward(s, u, u.Leave(name, 0), ForgetsBy(s, c) || Frees(s, c), false, carried, 0);
    PassesPending(s, t, ForgetsBy(s, c), 0);
  }

  lemma PassesPending(s: System, t: System, f: bool, a: nat)
    requires Passes(s, t, f, a)
    ensures t.w.m.suspendPending == (s.w.m.suspendPending && !f) && t.w.m.paused == s.w.m.paused
  {
  }

  /** A client's requests are all there are exactly when none is left without them. */
  lemma AllOf(requests: set<Request>, name: string)
    ensures requests * Of(requests, name) != {} && requests - Of(requests, name) == {} <==>
      requests != {} && requests == Of(requests, name)
  {
    assert requests * Of(requests, name) == Of(requests, name);
    assert forall r :: r in requests && r.0 != name ==> r in requests - Of(requests, name);
    if requests - Of(requests, name) == {} { assert requests == Of(requests, name); }
  }

  lemma NotifiedPasses(s: System, sender: string, far: bool)
    requires Inv(s.w)
    ensures Passes(s, s.Notified(sender, far), false, 0)
  {
    hide Inv, World.HandleNotification;
    QuietEvent(s.w, NewNotification(far));
  }

  lemma SetModePasses(s: System, c: Call)
    requires Sound(s) && c.SetScreenPowerMode?
    ensures Passes(s, s.SetMode(c.sender, c.mode, c.reason, c.far), ForgetsBy(s, c), 0)
  {
    hide Inv, System.Consistent, System.Leave, System.Notified, World.HandleTurnOnDisplay, World.HandleTurnOffDisplay;
    NothingPasses(s);
    if ForNotification(c.reason) {
      NotifiedPasses(s, c.sender, c.far);
      if s.notes[c.sender] > 0 { LeavePasses(s, c.sender, s.notes[c.sender] - 1); }
    } else if c.mode == "on" {
      OneEvent(s.w, TurnDisplayOn);
    } else {
      QuietEvent(s.w, TurnDisplayOff);
    }
  }

  lemma OneRequest(requests: set<Request>, r: Request)
    ensures requests * {r} != {} && requests - {r} == {} <==> requests == {r}
  {
    if requests == {r} { assert r in requests * {r}; }
    if requests * {r} != {} && requests - {r} == {} {
      assert forall q :: q in requests && q != r ==> q in requests - {r};
      assert r in requests * {r};
    }
  }

  /** Without a hold nothing is deferred. */
  lemma HeldWhileDeferred(s: System)
    requires Sound(s) && s.w.m.suspendPending
    ensures s.SuspendHeld()
  {
    hide ProperLog, Plan.Valid, Issued;
  }

  lemma FreePasses(s: System)
    requires Sound(s)
    ensures Passes(s, s.Apply(SystemAllowsSuspend), Frees(s, SystemAllowsSuspend),
      if Frees(s, SystemAllowsSuspend) && s.w.m.suspendPending && !s.w.m.paused then 1 else 0)
  {
    hide Inv, System.Consistent, World.HandleAllowSuspend;
    AllowPasses(s.w);
    if s.w.m.suspendPending { HeldWhileDeferred(s); }
  }

  /** Every client call: exactly when it keeps, forgets or carries out a deferred suspend. */
  lemma ClientCallPasses(s: System, c: Call)
    requires Sound(s) && !c.Elsewhere?
    ensures Passes(s, s.Apply(c), ForgetsBy(s, c) || Frees(s, c), if SuspendsBy(s, c) then 1 else 0)
  {
    hide Inv, System.Consistent, System.Release, System.ReleaseStates, System.SetMode, System.Disconnect;
    hide System.AllowIfFree;
    hide World.HandleDisableInactivityTimeout, World.HandleDisallowSuspend, Passes, Text.Number;
    match c
    case KeepDisplayOn(_) => KeepOrRequestPasses(s, c);
    case RemoveDisplayOnRequest(sender, id) =>
      OneRequest(s.keep, (sender, id));
      ReleasePasses(s, {(sender, id)});
    case NameOwnerChanged(name, old', new') =>
      if Disconnects(name, old', new') { DisconnectPasses(s, name); } else { NothingPasses(s); }
    case SetScreenPowerMode(_, _, _, _) => SetModePasses(s, c);
    case RequestSysState(_, _) => KeepOrRequestPasses(s, c);
    case ClearSysState(sender, cookie) =>
      OneRequest(s.states, (sender, Text.Number(cookie)));
      StatesPass(s, {(sender, Text.Number(cookie))});
    case SystemDisallowsSuspend => KeepOrRequestPasses(s, c);
    case SystemAllowsSuspend => FreePasses(s);
  }

  lemma KeepOrRequestPasses(s: System, c: Call)
    requires Inv(s.w) && (c.KeepDisplayOn? || c.RequestSysState? || c.SystemDisallowsSuspend?)
    ensures Passes(s, s.Apply(c), false, 0)
  {
    hide Inv, World.HandleDisableInactivityTimeout, World.HandleDisallowSuspend;
    QuietEvent(s.w, DisableInactivityTimeout);
    QuietEvent(s.w, DisallowSuspend);
  }

  lemma NothingPasses(s: System)
    ensures Passes(s, s, false, 0)
  {
  }

  /** For every call: a suspend is deferred afterwards exactly when the call defers it, or it was
      deferred before and the call neither forgets it nor frees it; and the system is suspended once
      exactly when the call frees a suspend it does not forget, unpaused, or the alarm does it. */
  lemma CallDecides(s: System, c: Call)
    requires Sound(s) && PossibleCall(s, c)
    ensures s.Apply(c).w.m.suspendPending ==
      ((s.w.m.suspendPending && !ForgetsBy(s, c) && !Frees(s, c)) || DefersBy(s, c))
    ensures s.Apply(c).w.out.inactivitySuspends == s.w.out.inactivitySuspends + (if SuspendsBy(s, c) then 1 else 0)
  {
    hide Inv, System.Consistent, Step, Possible, Forgets, Defers, PowerTheorems.Suspends;
    if c.Elsewhere? {
      OneEvent(s.w, c.event);
    } else {
      ClientCallPasses(s, c);
    }
  }

  /** Nothing forgets or frees on the way. */
  ghost predicate Patient(s: System, cs: seq<Call>)
    decreases |cs|
  {
    cs == [] || (!ForgetsBy(s, cs[0]) && !Frees(s, cs[0]) && Patient(s.Apply(cs[0]), cs[1..]))
  }

  /** Somewhere on the way a suspend is deferred, and nothing forgets or frees it from then on. */
  ghost predicate DefersAndWaits(s: System, cs: seq<Call>)
    decreases |cs|
  {
    cs != []
    && ((DefersBy(s, cs[0]) && Patient(s.Apply(cs[0]), cs[1..])) || DefersAndWaits(s.Apply(cs[0]), cs[1..]))
  }

  /** A suspend is deferred at the end of a run exactly when it was deferred at some point of it, or
      before, and nothing has forgotten or freed it since. */
  lemma {:induction false} DeferredExactly(s: System, cs: seq<Call>)
    requires Sound(s) && PossibleCalls(s, cs)
    ensures After(s, cs).w.m.suspendPending <==>
      (s.w.m.suspendPending && Patient(s, cs)) || DefersAndWaits(s, cs)
    decreases |cs|
  {
    hide Sound, System.Apply, PossibleCall, ForgetsBy, Frees, DefersBy, SuspendsBy;
    if cs != [] {
      CallKeepsSound(s, cs[0]);
      CallDecides(s, cs[0]);
      DeferredExactly(s.Apply(cs[0]), cs[1..]);
    }
  }

  /** While it waits, inactivity suspends nothing. */
  lemma {:induction false} WaitingSuspendsNothing(s: System, cs: seq<Call>)
    requires Sound(s) && PossibleCalls(s, cs) && s.w.m.suspendPending && Patient(s, cs)
    ensures var t := After(s, cs);
      t.w.m.suspendPending && t.w.out.inactivitySuspends == s.w.out.inactivitySuspends && Sound(t)
    decreases |cs|
  {
    hide Sound, System.Apply, PossibleCall, ForgetsBy, Frees, DefersBy, SuspendsBy;
    if cs != [] {
      CallKeepsSound(s, cs[0]);
      CallDecides(s, cs[0]);
      DeferredSuspendsNothing(s, cs[0]);
      WaitingSuspendsNothing(s.Apply(cs[0]), cs[1..]);
    }
  }

  lemma DeferredSuspendsNothing(s: System, c: Call)
    requires Sound(s) && PossibleCall(s, c) && s.w.m.suspendPending && !Frees(s, c)
    ensures !SuspendsBy(s, c)
  {
    hide ProperLog, Plan.Valid, System.Consistent, Frees, ForgetsBy, Machine.TimeoutApplies;
  }

  /** A suspend that inactivity asked for while it was held off: if no call on the way restarts the
      timeouts or ends the last hold, it is still deferred then, and the call that ends the last hold
      suspends the system, once, unless that very call restarts the timeouts first or the session is
      paused; in any case nothing is deferred afterwards. */
  lemma DeferredSuspendHappensOnce(s: System, e: Event, cs: seq<Call>, c: Call)
    requires Sound(s) && PossibleCall(s, Elsewhere(e)) && Defers(s.w, e)
    requires var t := s.Apply(Elsewhere(e));
      PossibleCalls(t, cs) && Patient(t, cs) && PossibleCall(After(t, cs), c) && Frees(After(t, cs), c)
    ensures var v := After(s.Apply(Elsewhere(e)), cs);
      && v.w.m.suspendPending
      && v.Apply(c).w.out.inactivitySuspends ==
           s.w.out.inactivitySuspends + (if ForgetsBy(v, c) || v.w.m.paused then 0 else 1)
      && !v.Apply(c).w.m.suspendPending
  {
    hide Sound, System.Apply, PossibleCall, ForgetsBy, Defers;
    var t := s.Apply(Elsewhere(e));
    CallKeepsSound(s, Elsewhere(e));
    CallDecides(s, Elsewhere(e));
    DeferringSuspendsNothing(s, e);
    WaitingSuspendsNothing(t, cs);
    CallDecides(After(t, cs), c);
  }

  lemma DeferringSuspendsNothing(s: System, e: Event)
    requires Defers(s.w, e)
    ensures !SuspendsBy(s, Elsewhere(e)) && DefersBy(s, Elsewhere(e))
  {
    hide Machine.TimeoutApplies, ForgetsBy;
  }

  /** `Frees` says it all: the call ends the last hold. */
  lemma FreesExactly(s: System, c: Call)
    requires Sound(s)
    ensures Frees(s, c) <==> s.SuspendHeld() && !s.Apply(c).SuspendHeld()
  {
    hide Inv, System.Consistent, Step, World.HandleDisableInactivityTimeout, World.HandleDisallowSuspend;
    hide World.HandleAllowSuspend, System.Release, System.ReleaseStates, System.SetMode, System.Leave, Of;
    match c
    case ClearSysState(sender, cookie) =>
      OneRequest(s.states, (sender, Text.Number(cookie)));
      ReleaseLeaves(s, {(sender, Text.Number(cookie))});
      if s.states == {} { assert s.states - {(sender, Text.Number(cookie))} == {}; }
    case NameOwnerChanged(name, _, _) =>
      DisconnectBooks(s, name);
      AllOf(s.states, name);
    case RemoveDisplayOnRequest(sender, id) => ReleaseLeaves(s, {(sender, id)});
    case SetScreenPowerMode(sender, mode, reason, far) => SetModeBooks(s, c);
    case RequestSysState(sender, _) => assert (sender, s.nextState) in s.states + {(sender, s.nextState)};
    case _ =>
  }

  lemma SetModeBooks(s: System, c: Call)
    requires c.SetScreenPowerMode?
    ensures var t := s.SetMode(c.sender, c.mode, c.reason, c.far);
      t.states == s.states && t.systemBlock == s.systemBlock
  {
    hide World.HandleNotification, World.HandleNoNotification, World.HandleTurnOnDisplay, World.HandleTurnOffDisplay;
  }

  /** So in every reachable, unpaused state with a deferred suspend, the call that ends the last hold
      carries it out, whether a client clears its request, a client disconnects, or logind lifts its
      block; unless that very call restarts the timeouts first. */
  lemma LastReleaseSuspends(s: System, o: Options, c: Call)
    requires Reached(s, o) && PossibleCall(s, c)
    requires s.w.m.suspendPending && !s.w.m.paused
    requires s.SuspendHeld() && !s.Apply(c).SuspendHeld()
    ensures s.Apply(c).w.out.inactivitySuspends == s.w.out.inactivitySuspends + (if Restarts(s, c) then 0 else 1)
    ensures !s.Apply(c).w.m.suspendPending
  {
    hide Sound, Reached, System.Apply, PossibleCall, Defers, Forgets, Of;
    ReachedHolds(s, o);
    FreesExactly(s, c);
    CallDecides(s, c);
  }

  // ---------- What one call undoes ----------

  /** Only its owner can withdraw a request: the same id from another sender changes nothing. */
  lemma WrongSenderChangesNothing(s: System, owner: string, other: string, id: int)
    requires s.Consistent() && (owner, id) in s.keep && other != owner
    ensures s.Apply(RemoveDisplayOnRequest(other, id)) == s
  {
    hide World.HandleEnableInactivityTimeout, System.Conserved;
    var gone: set<Request> := {(other, id)};
    assert s.keep * gone == {} by {
      assert (other, id) !in s.keep;
    }
    NothingGone(s.keep, gone);
  }

  /** Withdrawing a request right after making it restores who holds what, and the allowance. */
  lemma RemoveUndoesKeep(s: System, sender: string)
    requires s.Consistent()
    ensures var t := s.Apply(KeepDisplayOn(sender)).Apply(RemoveDisplayOnRequest(sender, s.nextKeep));
      && t.keep == s.keep && t.states == s.states && t.notes == s.notes && t.systemBlock == s.systemBlock
      && t.w.m.clientAllows == s.w.m.clientAllows
  {
    hide System.Consistent, System.KeepDisplayOn, System.Release;
    CallKeeps(s, KeepDisplayOn(sender));
    var u := s.KeepDisplayOn(sender);
    CallKeeps(u, RemoveDisplayOnRequest(sender, s.nextKeep));
    KeepThenRelease(s, sender);
    FlagsFollowHolders(s);
    FlagsFollowHolders(u.Release({(sender, s.nextKeep)}));
  }

  lemma FlagsFollowHolders(s: System)
    requires s.Consistent()
    ensures s.w.m.clientAllows == (s.keep == {}) && s.w.m.suspendAllowed == !s.SuspendHeld()
  {
  }

  lemma KeepThenRelease(s: System, sender: string)
    requires s.Consistent()
    ensures var t := s.KeepDisplayOn(sender).Release({(sender, s.nextKeep)});
      && t.keep == s.keep && t.states == s.states && t.notes == s.notes && t.systemBlock == s.systemBlock
  {
    hide World.HandleDisableInactivityTimeout, World.HandleEnableInactivityTimeout, System.Conserved;
    assert (sender, s.nextKeep) !in s.keep;
    assert s.keep + {(sender, s.nextKeep)} - {(sender, s.nextKeep)} == s.keep;
  }

  /** The cookie a client got for a system-state request withdraws exactly that request. */
  lemma CookieUndoesRequest(s: System, sender: string)
    requires s.Consistent() && s.nextState <= Text.INT_MAX
    ensures var cookie := Text.ToString(s.nextState);
      var t := s.Apply(RequestSysState(sender, ACTIVE_STATE)).Apply(ClearSysState(sender, cookie));
      t.states == s.states && t.keep == s.keep && t.w.m.suspendAllowed == s.w.m.suspendAllowed
  {
    hide System.Consistent, System.RequestSysState, System.ReleaseStates, Text.Number;
    Text.NumberOfNumeral(NextCookie(s));
    CallKeeps(s, RequestSysState(sender, ACTIVE_STATE));
    var u := s.RequestSysState(sender);
    CallKeeps(u, ClearSysState(sender, Text.ToString(s.nextState)));
    RequestThenRelease(s, sender);
    FlagsFollowHolders(s);
    FlagsFollowHolders(u.ReleaseStates({(sender, s.nextState)}));
  }

  function NextCookie(s: System): (n: nat)
    requires s.Consistent()
    ensures n == s.nextState
  {
    s.nextState
  }

  lemma RequestThenRelease(s: System, sender: string)
    requires s.Consistent()
    ensures var t := s.RequestSysState(sender).ReleaseStates({(sender, s.nextState)});
      t.states == s.states && t.keep == s.keep && t.notes == s.notes && t.systemBlock == s.systemBlock
  {
    hide World.HandleDisallowSuspend, World.HandleAllowSuspend, System.Conserved;
    assert (sender, s.nextState) !in s.states;
    assert s.states + {(sender, s.nextState)} - {(sender, s.nextState)} == s.states;
  }

  /** A client that disconnects leaves nothing behind and takes nothing of the others along; if
      it was the only one holding anything, the allowances are back. */
  lemma DisconnectReleasesAll(s: System, name: string)
    requires s.Consistent()
    ensures var t := s.Apply(NameOwnerChanged(name, name, ""));
      && t.keep == s.keep - Of(s.keep, name) && t.states == s.states - Of(s.states, name)
      && t.notes == s.notes[name := 0] && t.systemBlock == s.systemBlock
      && ((forall r :: r in s.keep ==> r.0 == name) ==> t.w.m.clientAllows)
      && ((forall r :: r in s.states ==> r.0 == name) && !s.systemBlock ==> t.w.m.suspendAllowed)
      && ((forall sender :: sender in s.notes ==> sender == name) ==> t.w.m.notificationAllows)
  {
    hide World.HandleEnableInactivityTimeout, World.HandleAllowSuspend, World.HandleNoNotification;
    CallKeeps(s, NameOwnerChanged(name, name, ""));
    var t := s.Apply(NameOwnerChanged(name, name, ""));
    DisconnectBooks(s, name);
    if forall r :: r in s.keep ==> r.0 == name { assert t.keep == {}; }
    if forall r :: r in s.states ==> r.0 == name { assert t.states == {}; }
    if forall sender :: sender in s.notes ==> sender == name { assert t.notes == multiset{}; }
  }

  lemma DisconnectBooks(s: System, name: string)
    ensures var t := s.Disconnect(name);
      && t.keep == s.keep - Of(s.keep, name) && t.states == s.states - Of(s.states, name)
      && t.notes == s.notes[name := 0] && t.systemBlock == s.systemBlock
  {
    hide System.Release, System.ReleaseStates, World.HandleNoNotification, Of;
    ReleaseLeaves(s, Of(s.keep, name));
    ReleaseLeaves(s.Release(Of(s.keep, name)), Of(s.states, name));
  }
}
