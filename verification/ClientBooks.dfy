/** Who holds what after any run of calls, told by the calls alone. */
module ClientBooks {
  import opened PowerModel
  import opened PowerInvariants
  import opened Clients
  import PowerOutcomes
  import Text

  // ---------- Requests ----------

  /** This client is gone from the bus. */
  predicate Vanishes(c: Call, client: string) {
    c.NameOwnerChanged? && c.name == client && Disconnects(c.name, c.oldOwner, c.newOwner)
  }

  predicate WithdrawsKeep(c: Call, r: Request) {
    c == RemoveDisplayOnRequest(r.0, r.1) || Vanishes(c, r.0)
  }

  predicate WithdrawsState(c: Call, r: Request) {
    (c.ClearSysState? && c.sender == r.0 && Text.Number(c.cookie) == r.1) || Vanishes(c, r.0)
  }

  predicate AsksState(c: Call) {
    c.RequestSysState? && c.state == ACTIVE_STATE
  }

  lemma ModeKeepsRequests(s: System, c: Call)
    requires c.SetScreenPowerMode?
    ensures var t := s.SetMode(c.sender, c.mode, c.reason, c.far);
      && t.keep == s.keep && t.nextKeep == s.nextKeep && t.states == s.states && t.nextState == s.nextState
      && t.systemBlock == s.systemBlock
  {
    hide World.HandleNotification, World.HandleNoNotification, World.HandleTurnOnDisplay, World.HandleTurnOffDisplay;
  }

  lemma FreeKeepsRequests(s: System)
    ensures var t := s.AllowIfFree();
      && t.keep == s.keep && t.nextKeep == s.nextKeep && t.states == s.states && t.nextState == s.nextState
      && t.systemBlock == s.systemBlock
  {
    hide World.HandleAllowSuspend;
  }

  lemma IdsStand(s: System, gone: set<Request>, name: string)
    ensures s.Release(gone).nextKeep == s.ReleaseStates(gone).nextKeep == s.Disconnect(name).nextKeep == s.nextKeep
    ensures s.Release(gone).nextState == s.ReleaseStates(gone).nextState == s.Disconnect(name).nextState == s.nextState
  {
    hide World.HandleEnableInactivityTimeout, World.HandleAllowSuspend, World.HandleNoNotification, Of;
  }

  /** What one call makes of the requests: a new one under the next id, and what is withdrawn. */
  lemma KeepBooks(s: System, c: Call, r: Request)
    ensures var t := s.Apply(c);
      && (r in t.keep <==> (r in s.keep && !WithdrawsKeep(c, r)) || (c == KeepDisplayOn(r.0) && r.1 == s.nextKeep))
      && t.nextKeep == s.nextKeep + (if c.KeepDisplayOn? then 1 else 0)
  {
    hide System.Release, System.ReleaseStates, System.Disconnect, System.SetMode, System.AllowIfFree, Text.Number;
    hide Step, World.HandleDisableInactivityTimeout, World.HandleDisallowSuspend;
    match c
    case RemoveDisplayOnRequest(sender, id) =>
      ReleaseLeaves(s, {(sender, id)});
      IdsStand(s, {(sender, id)}, "");
    case NameOwnerChanged(name, _, _) =>
      DisconnectBooks(s, name);
      IdsStand(s, {}, name);
    case SetScreenPowerMode(_, _, _, _) => ModeKeepsRequests(s, c);
    case ClearSysState(sender, cookie) =>
      ReleaseLeaves(s, {(sender, Text.Number(cookie))});
      IdsStand(s, {(sender, Text.Number(cookie))}, "");
    case SystemAllowsSuspend => FreeKeepsRequests(s.(systemBlock := false));
    case _ =>
  }

  lemma StateBooks(s: System, c: Call, r: Request)
    ensures var t := s.Apply(c);
      && (r in t.states <==>
            (r in s.states && !WithdrawsState(c, r)) || (AsksState(c) && r == (c.sender, s.nextState)))
      && t.nextState == s.nextState + (if AsksState(c) then 1 else 0)
  {
    hide System.Release, System.ReleaseStates, System.Disconnect, System.SetMode, System.AllowIfFree, Text.Number;
    hide Step, World.HandleDisableInactivityTimeout, World.HandleDisallowSuspend;
    match c
    case RemoveDisplayOnRequest(sender, id) =>
      ReleaseLeaves(s, {(sender, id)});
      IdsStand(s, {(sender, id)}, "");
    case NameOwnerChanged(name, _, _) =>
      DisconnectBooks(s, name);
      IdsStand(s, {}, name);
    case SetScreenPowerMode(_, _, _, _) => ModeKeepsRequests(s, c);
    case ClearSysState(sender, cookie) =>
      ReleaseLeaves(s, {(sender, Text.Number(cookie))});
      IdsStand(s, {(sender, Text.Number(cookie))}, "");
    case SystemAllowsSuspend => FreeKeepsRequests(s.(systemBlock := false));
    case _ =>
  }

  /** A client's notifications: one more for each that it shows, one fewer for each that it takes back
      while there are any, and none once it is gone. */
  lemma NoteBooks(s: System, c: Call, client: string)
    ensures s.Apply(c).notes[client] ==
      if Vanishes(c, client) then 0
      else if !c.SetScreenPowerMode? || c.sender != client || !ForNotification(c.reason) then s.notes[client]
      else if c.mode == "on" then s.notes[client] + 1
      else if c.mode == "off" && s.notes[client] > 0 then s.notes[client] - 1
      else s.notes[client]
  {
    hide Step, World.HandleDisableInactivityTimeout, World.HandleEnableInactivityTimeout, World.HandleNotification;
    hide World.HandleNoNotification, World.HandleTurnOnDisplay, World.HandleTurnOffDisplay;
    hide World.HandleAllowSuspend, World.HandleDisallowSuspend, Text.Number;
  }

  lemma BlockBooks(s: System, c: Call)
    ensures s.Apply(c).systemBlock ==
      if c.SystemDisallowsSuspend? then true else if c.SystemAllowsSuspend? then false else s.systemBlock
  {
    hide Step, World.HandleDisableInactivityTimeout, World.HandleEnableInactivityTimeout, World.HandleNotification;
    hide World.HandleNoNotification, World.HandleTurnOnDisplay, World.HandleTurnOffDisplay;
    hide World.HandleAllowSuspend, World.HandleDisallowSuspend, Text.Number;
  }

  // ---------- Runs of calls ----------

  ghost predicate KeepStays(cs: seq<Call>, r: Request) {
    forall c :: c in cs ==> !WithdrawsKeep(c, r)
  }

  /** Somewhere on the way the client asks, is given this id, and does not withdraw it from then on. */
  ghost predicate AsksAndKeeps(cs: seq<Call>, next: int, r: Request)
    decreases |cs|
  {
    && cs != []
    && ((cs[0] == KeepDisplayOn(r.0) && r.1 == next && KeepStays(cs[1..], r))
        || AsksAndKeeps(cs[1..], next + (if cs[0].KeepDisplayOn? then 1 else 0), r))
  }

  /** A request to keep the display on is held after a run exactly when it was held before or made on the
      way, and not withdrawn since: neither by its owner under its id nor by the owner's disconnect. */
  lemma {:induction false} KeepHeldExactly(s: System, cs: seq<Call>, r: Request)
    ensures r in After(s, cs).keep <==> (r in s.keep && KeepStays(cs, r)) || AsksAndKeeps(cs, s.nextKeep, r)
    decreases |cs|
  {
    hide System.Apply, WithdrawsKeep;
    if cs != [] {
      KeepBooks(s, cs[0], r);
      KeepHeldExactly(s.Apply(cs[0]), cs[1..], r);
    }
  }

  ghost predicate StateStays(cs: seq<Call>, r: Request) {
    forall c :: c in cs ==> !WithdrawsState(c, r)
  }

  ghost predicate AsksAndStays(cs: seq<Call>, next: int, r: Request)
    decreases |cs|
  {
    && cs != []
    && ((AsksState(cs[0]) && r == (cs[0].sender, next) && StateStays(cs[1..], r))
        || AsksAndStays(cs[1..], next + (if AsksState(cs[0]) then 1 else 0), r))
  }

  /** The same for requests of the active system state, by their cookies. */
  lemma {:induction false} StateHeldExactly(s: System, cs: seq<Call>, r: Request)
    ensures r in After(s, cs).states <==> (r in s.states && StateStays(cs, r)) || AsksAndStays(cs, s.nextState, r)
    decreases |cs|
  {
    hide System.Apply, WithdrawsState;
    if cs != [] {
      StateBooks(s, cs[0], r);
      StateHeldExactly(s.Apply(cs[0]), cs[1..], r);
    }
  }

  /** Whether logind blocks suspending after these calls. */
  predicate Blocked(cs: seq<Call>, before: bool)
    decreases |cs|
  {
    if cs == [] then before
    else if cs[|cs| - 1].SystemDisallowsSuspend? then true
    else if cs[|cs| - 1].SystemAllowsSuspend? then false
    else Blocked(cs[..|cs| - 1], before)
  }

  lemma {:induction false} LastAfter(s: System, cs: seq<Call>, c: Call)
    ensures After(s, cs + [c]) == After(s, cs).Apply(c)
    decreases |cs|
  {
    hide System.Apply;
    if cs != [] {
      assert (cs + [c])[1..] == cs[1..] + [c];
      LastAfter(s.Apply(cs[0]), cs[1..], c);
    } else {
      assert ([] + [c])[1..] == [];
    }
  }

  lemma {:induction false} BlockHeldExactly(s: System, cs: seq<Call>)
    ensures After(s, cs).systemBlock == Blocked(cs, s.systemBlock)
    decreases |cs|
  {
    hide System.Apply;
    if cs != [] {
      var n := |cs| - 1;
      BlockHeldExactly(s, cs[..n]);
      LastAfter(s, cs[..n], cs[n]);
      assert cs == cs[..n] + [cs[n]];
      BlockBooks(After(s, cs[..n]), cs[n]);
    }
  }

  /** So after any run of calls from start-up, told by the calls alone: the display's timeouts are held off
      exactly while some request to keep it on has been made and not withdrawn; */
  lemma TimeoutsHeldExactly(o: Options, cs: seq<Call>)
    requires o.reducedOffTimeout > 0 && PossibleCalls(Idle(o), cs)
    ensures !After(Idle(o), cs).w.m.clientAllows <==> exists r :: AsksAndKeeps(cs, 1, r)
  {
    hide System.Apply, PossibleCall, System.Consistent, AsksAndKeeps;
    var t := After(Idle(o), cs);
    IdleHolds(o);
    CallsKeep(Idle(o), cs);
    FlagsFollowHolders(t);
    forall r: Request ensures r in t.keep <==> AsksAndKeeps(cs, 1, r) {
      KeepHeldExactly(Idle(o), cs, r);
    }
    if t.keep != {} {
      var r :| r in t.keep;
      assert AsksAndKeeps(cs, 1, r);
    }
  }

  /** and suspending is held off exactly while some request of the active state stands or logind blocks. */
  lemma SuspendHeldExactly(o: Options, cs: seq<Call>)
    requires o.reducedOffTimeout > 0 && PossibleCalls(Idle(o), cs)
    ensures !After(Idle(o), cs).w.m.suspendAllowed <==> Blocked(cs, false) || exists r :: AsksAndStays(cs, 1, r)
  {
    hide System.Apply, PossibleCall, System.Consistent, AsksAndStays, Blocked;
    var t := After(Idle(o), cs);
    IdleHolds(o);
    CallsKeep(Idle(o), cs);
    FlagsFollowHolders(t);
    BlockHeldExactly(Idle(o), cs);
    forall r: Request ensures r in t.states <==> AsksAndStays(cs, 1, r) {
      StateHeldExactly(Idle(o), cs, r);
    }
    if t.states != {} {
      var r :| r in t.states;
      assert AsksAndStays(cs, 1, r);
    }
  }

  // ---------- Switching the screen ----------

  lemma SwitchShows(w: World)
    ensures !w.m.paused ==> w.HandleTurnOnDisplay().m.display == On && w.HandleTurnOffDisplay().m.display == Off
  {
    hide World.TurnOn, World.TurnOff;
    PowerOutcomes.LightShown(w, PowerButton);
    PowerOutcomes.OffMachine(w, PowerButton);
  }

  /** A client that asks for the screen to be on or off gets it; an unknown mode or reason changes nothing. */
  lemma ScreenModeSwitches(s: System, sender: string, mode: string, reason: int, far: bool)
    requires !ForNotification(reason)
    ensures var t := s.Apply(SetScreenPowerMode(sender, mode, reason, far));
      && t == s.(w := t.w)
      && (ForDisplay(reason) && mode == "on" && !s.w.m.paused ==> t.w.m.display == On)
      && (ForDisplay(reason) && mode == "off" && !s.w.m.paused ==> t.w.m.display == Off)
      && (!ForDisplay(reason) || (mode != "on" && mode != "off") ==> t == s)
  {
    hide World.HandleTurnOnDisplay, World.HandleTurnOffDisplay;
    SwitchShows(s.w);
  }
}
