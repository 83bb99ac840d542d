/** Where the daemon's actions arrive: which sessions handle them, and what becomes of the others. */
module Routing {
  import opened Alarms
  import opened Plans
  import opened PowerModel
  import opened PowerInvariants
  import opened PowerTheorems
  import PowerDevices
  import opened Sessions
  import PowerOutcomes

  /** The session is exactly as it was. */
  predicate Untouched(h: Hub, g: Hub, id: string) {
    (id in g.sessions <==> id in h.sessions) && (id in h.sessions ==> g.sessions[id] == h.sessions[id])
  }

  /** The session has handled the event once, on the shared parts as `at` has them. */
  predicate Handles(h: Hub, at: Hub, g: Hub, id: string, e: Event) {
    && h.Has(id) && g.Has(id)
    && var v := Step(Placed(h.sessions[id].w, at.clock, at.sensor, at.block), e);
       g.sessions[id].w == Placed(v, START_OF_TIME, false, false)
  }

  lemma OnReaches(h: Hub, id: string, e: Event, other: string)
    ensures h.Has(id) ==> Handles(h, h, h.On(id, e), id, e) && h.On(id, e).Load(id) == Step(h.Load(id), e)
    ensures !h.Has(id) ==> h.On(id, e) == h
    ensures h.On(id, e).sessions.Keys == h.sessions.Keys && h.On(id, e).calls == h.calls
    ensures h.On(id, e).active == h.active && h.On(id, e).options == h.options
    ensures h.On(id, e).Has(other) == h.Has(other) && (other != id ==> Untouched(h, h.On(id, e), other))
  {
    hide Step;
  }

  /** An event for whichever session is active is handled by exactly that one. */
  lemma ToActiveReaches(h: Hub, e: Event, other: string)
    requires HubInv(h)
    ensures var g := h.Apply(ToActive(e));
      && (h.active != NOBODY ==> Handles(h, h, g, h.active, e))
      && (h.active == NOBODY ==> g == h)
      && (other != h.active ==> Untouched(h, g, other))
  {
    hide Step, Good, Disjoint, Hub.On;
    OnReaches(h, h.active, e, other);
  }

  /** When some session's turn comes, it handles the event. */
  ghost predicate HandledInTurn(h: Hub, ids: seq<string>, g: Hub, id: string, e: Event) {
    exists k: nat :: k < |ids| && Handles(h, h.ToSessions(ids[..k], e), g, id, e)
  }

  /** An event for some sessions is handled once by each of them that there is, and by no other. */
  lemma {:induction false} ToSessionsReaches(h: Hub, ids: seq<string>, e: Event, id: string)
    requires forall i, j :: 0 <= i < j < |ids| ==> ids[i] != ids[j]
    ensures var g := h.ToSessions(ids, e);
      && g.sessions.Keys == h.sessions.Keys && g.active == h.active && g.calls == h.calls
      && (id !in ids ==> Untouched(h, g, id))
      && (id in ids && h.Has(id) ==> HandledInTurn(h, ids, g, id, e))
  {
    hide Hub.On, Hub.Has, Hub.ToSessions, Untouched, HandledInTurn;
    NothingUntouched(h, e, id);
    if ids != [] {
      var n := |ids| - 1;
      ToSessionsReaches(h, ids[..n], e, id);
      assert ids == ids[..n] + [ids[n]];
      OneMoreSession(h, ids[..n], ids[n], e);
      OneMoreReaches(h, ids[..n], ids[n], e, id);
    }
  }

  lemma NothingUntouched(h: Hub, e: Event, id: string)
    ensures h.ToSessions([], e) == h && Untouched(h, h, id)
  {
  }

  lemma OneMoreSession(h: Hub, ids: seq<string>, last: string, e: Event)
    ensures h.ToSessions(ids + [last], e) == h.ToSessions(ids, e).On(last, e)
  {
    hide Hub.On;
    assert (ids + [last])[..|ids|] == ids;
  }

  lemma OneMoreReaches(h: Hub, ids: seq<string>, last: string, e: Event, id: string)
    requires last !in ids
    requires var b := h.ToSessions(ids, e);
      && b.sessions.Keys == h.sessions.Keys && b.active == h.active && b.calls == h.calls
      && (id !in ids ==> Untouched(h, b, id))
      && (id in ids && h.Has(id) ==> HandledInTurn(h, ids, b, id, e))
    ensures var g := h.ToSessions(ids, e).On(last, e);
      && g.sessions.Keys == h.sessions.Keys && g.active == h.active && g.calls == h.calls
      && (id !in ids && id != last ==> Untouched(h, g, id))
      && (id in ids + [last] && h.Has(id) ==> HandledInTurn(h, ids + [last], g, id, e))
  {
    hide Hub.On, Handles, Hub.ToSessions;
    var b := h.ToSessions(ids, e);
    OnReaches(b, last, e, id);
    if id == last {
      LastHandles(h, b, id, e);
      assert (ids + [last])[..|ids|] == ids;
    } else if id in ids && h.Has(id) {
      var k: nat :| k < |ids| && Handles(h, h.ToSessions(ids[..k], e), b, id, e);
      assert (ids + [last])[..k] == ids[..k];
      StillHandles(h, h.ToSessions(ids[..k], e), b, b.On(last, e), id, e);
    }
  }

  lemma LastHandles(h: Hub, b: Hub, id: string, e: Event)
    requires Untouched(h, b, id) && (b.Has(id) ==> Handles(b, b, b.On(id, e), id, e))
    ensures h.Has(id) ==> Handles(h, b, b.On(id, e), id, e)
  {
    hide Step, Hub.On;
  }

  lemma StillHandles(h: Hub, at: Hub, b: Hub, g: Hub, id: string, e: Event)
    requires Handles(h, at, b, id, e) && Untouched(b, g, id)
    ensures Handles(h, at, g, id, e)
  {
    hide Step;
  }

  // ---------- Switching sessions ----------

  lemma ActiveIsReal(h: Hub, id: string)
    requires HubInv(h)
    ensures h.active in h.sessions && (id in h.sessions && id != NOBODY ==> h.Has(id)) && !h.Has(NOBODY)
  {
    hide Good, Disjoint;
  }

  /** A known session that becomes active is resumed, after the session that was active is paused; any
      other is as it was. */
  lemma KnownSessionResumes(h: Hub, id: string, battery: bool, other: string)
    requires HubInv(h) && id in h.sessions
    ensures var b, g := h.On(h.active, Pausing), h.Apply(SessionActivated(id, true, battery));
      && g.active == id && g.sessions.Keys == h.sessions.Keys
      && (h.active != NOBODY ==> Handles(h, h, b, h.active, Pausing))
      && (id != NOBODY ==> Handles(b, b, g, id, Resuming))
      && (h.active != id ==> Untouched(b, g, h.active))
      && (other != id && other != h.active ==> Untouched(h, g, other))
  {
    hide Step, Sane, Hub.On;
    ActiveIsReal(h, id);
    ActiveIsReal(h, h.active);
    OnReaches(h, h.active, Pausing, other);
    OnReaches(h, h.active, Pausing, id);
    OnReaches(h.On(h.active, Pausing), id, Resuming, h.active);
    OnReaches(h.On(h.active, Pausing), id, Resuming, other);
    ActiveChanges(h.On(h.active, Pausing).On(id, Resuming), id, h.active);
    if other != id && other != h.active {
      assert Untouched(h, h.On(h.active, Pausing), other);
      assert Untouched(h.On(h.active, Pausing), h.On(h.active, Pausing).On(id, Resuming), other);
    }
  }

  lemma ActiveChanges(h: Hub, id: string, other: string)
    ensures var g := h.(active := id);
      g.Has(other) == h.Has(other) && Untouched(h, g, other)
  {
  }

  lemma ResumedIsLit(w: World)
    ensures Step(w, Resuming).m.display == On && !Step(w, Resuming).m.paused
  {
    hide World.Resume;
    PowerOutcomes.ResumeMakes(w);
  }

  lemma StartedIsLit(w: World, battery: bool)
    requires !w.m.paused && w.m.display == Off
    ensures Step(w, Starting(battery)).m.display == if w.m.options.displayOnAtStartup then On else Off
  {
    hide World.Start;
    PowerOutcomes.StartingShows(w, battery);
  }

  /** A compatible session that becomes active is there, unpaused and lit; a new one is lit if displays
      are on at start-up. */
  lemma ActivatedIsLit(h: Hub, id: string, battery: bool)
    requires HubInv(h) && id != NOBODY
    ensures var g := h.Apply(SessionActivated(id, true, battery));
      && g.active == id && g.Has(id)
      && g.sessions[id].w.m.display == (if id in h.sessions || h.options.displayOnAtStartup then On else Off)
  {
    hide Step, Sane, Hub.On, NewMachine, NoPlan;
    var b := h.On(h.active, Pausing);
    ActiveIsReal(h, id);
    OnReaches(h, h.active, Pausing, id);
    if id in h.sessions {
      OnReaches(b, id, Resuming, id);
      ResumedIsLit(b.Load(id));
    } else {
      NewSessionIsLit(b, id, battery);
    }
  }

  lemma NewSessionIsLit(h: Hub, id: string, battery: bool)
    ensures var g := h.NewSession(id, battery);
      && g.Has(id) && g.sessions[id].w.m.display == (if h.options.displayOnAtStartup then On else Off)
      && g.sessions.Keys == h.sessions.Keys + {id}
  {
    hide Step, Hub.On;
    var b := h.Store(id, h.Fresh());
    OnReaches(b, id, Starting(battery), id);
    StartedIsLit(b.Load(id), battery);
  }

  /** A removed session is forgotten, and nobody is active if it was the one; any other stays. */
  lemma RemovedIsForgotten(h: Hub, id: string, other: string)
    requires HubInv(h) && id != NOBODY
    ensures var g := h.Apply(SessionRemoved(id));
      && g.sessions.Keys == h.sessions.Keys - {id}
      && g.active == (if h.active == id then NOBODY else h.active)
      && (other != id ==> Untouched(h, g, other))
  {
    hide Step, Good, Disjoint, Hub.On;
    OnReaches(h, h.active, Pausing, other);
  }

  // ---------- Calls ----------

  lemma OnKeepsCalls(h: Hub, id: string, e: Event)
    ensures h.On(id, e).calls == h.calls
  {
    hide Step;
  }

  lemma NewSessionKeepsCalls(h: Hub, id: string, battery: bool)
    ensures h.NewSession(id, battery).calls == h.calls
  {
    hide Step;
  }

  lemma {:induction false} ToSessionsKeepsCalls(h: Hub, ids: seq<string>, e: Event)
    ensures h.ToSessions(ids, e).calls == h.calls
  {
    hide Hub.On;
    if ids != [] {
      ToSessionsKeepsCalls(h, ids[..|ids| - 1], e);
      OnKeepsCalls(h.ToSessions(ids[..|ids| - 1], e), ids[|ids| - 1], e);
    }
  }

  lemma {:induction false} AlarmKeepsCalls(h: Hub, ids: seq<string>, alarm: AlarmId)
    ensures h.AlarmTo(ids, alarm).calls == h.calls
  {
    hide World.HandleAlarm;
    if ids != [] {
      AlarmKeepsCalls(h, ids[..|ids| - 1], alarm);
    }
  }

  /** The sessions with calls: the active one joins them when a call begins, and none ever leaves. */
  lemma CallsExactly(h: Hub, a: Action)
    ensures h.Apply(a).calls == if a.CallBegins? && h.active !in h.calls then h.calls + [h.active] else h.calls
  {
    hide Hub.AlarmAt, Hub.On;
    match a
    case SessionActivated(id, _, battery) =>
      OnKeepsCalls(h, h.active, Pausing);
      OnKeepsCalls(h.On(h.active, Pausing), id, Resuming);
      NewSessionKeepsCalls(h.On(h.active, Pausing), id, battery);
    case SessionRemoved(_) => OnKeepsCalls(h, h.active, Pausing);
    case ToActive(e) => OnKeepsCalls(h, h.active, e);
    case ToClients(ids, e) => ToSessionsKeepsCalls(h, ids, e);
    case CallBegins(far) =>
      OnKeepsCalls(if h.active in h.calls then h else h.(calls := h.calls + [h.active]), h.active, ActiveCall(far));
    case CallEnds(far) => ToSessionsKeepsCalls(h, h.calls, NoActiveCall(far));
    case AlarmArrives(order, alarm) => AlarmKeepsCalls(h, order, alarm);
    case ClockTicks(_) =>
    case AlarmGoesOff(_) =>
  }

  /** This session's sensor is on for a call. */
  predicate InCall(h: Hub, id: string) {
    h.Has(id) && h.sessions[id].w.m.proximityUntilDisabled
  }

  /** A session whose sensor is on for a call is among those that the end of the call is told to. */
  ghost predicate CallsNoted(h: Hub) {
    forall id :: InCall(h, id) ==> id in h.calls
  }

  /** Only a call makes it so, and only in the session that hears of it. */
  predicate NoNewCall(h: Hub, g: Hub, id: string) {
    InCall(g, id) ==> InCall(h, id)
  }

  lemma EventMovesCall(w: World, e: Event)
    requires Inv(w) && Possible(w, e)
    ensures Step(w, e).m.proximityUntilDisabled == (e.ActiveCall? || (w.m.proximityUntilDisabled && !e.NoActiveCall?))
  {
    hide Inv, Step, Possible;
    PowerDevices.EventMoves(w, e);
  }

  lemma OnMovesCall(h: Hub, who: string, id: string, e: Event, other: string)
    requires Sane(h, who) && Handled(e) && (h.Has(id) ==> id == who || ReachesPaused(e))
    ensures var g := h.On(id, e);
      && (other != id ==> InCall(g, other) == InCall(h, other))
      && (InCall(g, id) <==> h.Has(id) && (e.ActiveCall? || (InCall(h, id) && !e.NoActiveCall?)))
  {
    hide Inv, Sane, Step, Hub.On;
    OnReaches(h, id, e, other);
    OnReaches(h, id, e, id);
    if h.Has(id) {
      LoadIsGood(h, id, who);
      EventMovesCall(h.Load(id), e);
    }
  }

  lemma {:induction false} ToSessionsMoveCalls(h: Hub, ids: seq<string>, e: Event, id: string)
    requires HubInv(h) && Handled(e) && ReachesPaused(e) && e != Resuming
    ensures var g := h.ToSessions(ids, e);
      && HubInv(g) && g.active == h.active
      && NoNewCall(h, g, id) && (e.NoActiveCall? && id in ids ==> !InCall(g, id))
  {
    hide Sane, Hub.On, InCall;
    ToSessionsKeeps(h, ids, e);
    if ids != [] {
      var n := |ids| - 1;
      var b := h.ToSessions(ids[..n], e);
      ToSessionsMoveCalls(h, ids[..n], e, id);
      OnMovesCall(b, b.active, ids[n], e, id);
      assert ids == ids[..n] + [ids[n]];
    }
  }

  lemma AlarmMovesNoCall(h: Hub, owner: string, alarm: AlarmId, id: string)
    requires HubInv(h) && alarm in h.clock.fired
    ensures NoNewCall(h, h.AlarmAt(owner, alarm).Deliver(alarm), id)
  {
    hide Inv, Sane, World.HandleAlarm;
    if h.Has(owner) {
      LoadIsGood(h, owner, h.active);
      PowerDevices.AlarmMoves(h.Load(owner), alarm);
    }
  }

  lemma AlarmBeginsNoCall(h: Hub, order: seq<string>, alarm: AlarmId, id: string)
    requires HubInv(h) && alarm in h.clock.fired && Enumerates(order, h.sessions.Keys)
    ensures NoNewCall(h, h.AlarmTo(order, alarm).Deliver(alarm), id)
  {
    hide Sane, Hub.AlarmAt, Enumerates, OwnedBy;
    if owner :| OwnedBy(h, owner, alarm) {
      BroadcastIsOwners(h, order, owner, alarm);
      AlarmMovesNoCall(h, owner, alarm, id);
    } else {
      AlarmReachesNobody(h, h.active, order, alarm);
    }
  }

  lemma ActivationKeepsCalls(h: Hub, a: Action, id: string)
    requires HubInv(h) && a.SessionActivated?
    ensures NoNewCall(h, h.Apply(a), id)
  {
    hide Sane, Hub.On, Hub.NewSession;
    var b := h.On(h.active, Pausing);
    OnMovesCall(h, h.active, h.active, Pausing, id);
    PauseActiveKeeps(h);
    if a.compatible {
      if a.id in b.sessions {
        OnMovesCall(b, NOBODY, a.id, Resuming, id);
      } else {
        NewSessionHasNoCall(b, a.id, a.battery, id);
      }
    }
  }

  lemma NewSessionHasNoCall(h: Hub, new_: string, battery: bool, id: string)
    requires Sane(h, NOBODY) && new_ !in h.sessions
    ensures NoNewCall(h, h.NewSession(new_, battery), id)
  {
    hide Sane, Hub.On, NoPlan;
    JoinKeeps(h, new_);
    OnMovesCall(h.Store(new_, h.Fresh()), new_, new_, Starting(battery), id);
  }

  lemma RemovalKeepsCalls(h: Hub, removed: string, id: string)
    requires HubInv(h)
    ensures NoNewCall(h, h.Remove(removed), id)
  {
    hide Sane, Hub.On;
    OnMovesCall(h, h.active, h.active, Pausing, id);
  }

  /** Every action but the beginning of a call. */
  lemma OtherActionsKeepCalls(h: Hub, a: Action, id: string)
    requires HubInv(h) && Allowed(h, a) && !a.CallBegins?
    ensures NoNewCall(h, h.Apply(a), id)
  {
    hide Sane, InCall, Hub.Activate, Hub.Remove, Hub.On, Hub.ToSessions, Hub.AlarmTo;
    match a
    case SessionActivated(_, _, _) => ActivationKeepsCalls(h, a, id);
    case SessionRemoved(removed) => RemovalKeepsCalls(h, removed, id);
    case ToActive(e) => OnMovesCall(h, h.active, h.active, e, id);
    case ToClients(ids, e) => ToSessionsMoveCalls(h, ids, e, id);
    case CallEnds(far) => ToSessionsMoveCalls(h, h.calls, NoActiveCall(far), id);
    case AlarmArrives(order, alarm) => AlarmBeginsNoCall(h, order, alarm, id);
    case ClockTicks(_) => ClockMovesNoCall(h, a, id);
    case AlarmGoesOff(_) => ClockMovesNoCall(h, a, id);
    case CallBegins(_) =>
  }

  lemma ClockMovesNoCall(h: Hub, a: Action, id: string)
    requires a.ClockTicks? || a.AlarmGoesOff?
    ensures NoNewCall(h, h.Apply(a), id)
  {
  }

  /** The beginning of a call turns the active session's sensor on for it, and no other's. */
  lemma CallIsHeard(h: Hub, far: bool, id: string)
    requires HubInv(h)
    ensures var g := h.Apply(CallBegins(far));
      && g.active == h.active && h.active in g.calls
      && (InCall(g, id) <==> InCall(h, id) || (id == h.active && h.active != NOBODY))
  {
    hide Sane, Hub.On, InCall, Hub.Has;
    var b := if h.active in h.calls then h else h.(calls := h.calls + [h.active]);
    CallsExactly(h, CallBegins(far));
    NotedIsSane(h, b, id);
    ActiveIsReal(b, b.active);
    OnReaches(b, b.active, ActiveCall(far), id);
    OnMovesCall(b, b.active, b.active, ActiveCall(far), id);
  }

  lemma NotedIsSane(h: Hub, b: Hub, id: string)
    requires HubInv(h) && b == h.(calls := b.calls)
    ensures HubInv(b) && InCall(b, id) == InCall(h, id)
  {
    hide Good, Disjoint;
  }

  lemma ApplyKeepsNoted(h: Hub, a: Action)
    requires HubInv(h) && CallsNoted(h) && Allowed(h, a)
    ensures CallsNoted(h.Apply(a))
  {
    hide Sane, InCall, Hub.Apply, Allowed;
    CallsExactly(h, a);
    forall id | InCall(h.Apply(a), id) ensures id in h.Apply(a).calls {
      if a.CallBegins? { CallIsHeard(h, a.far, id); } else { OtherActionsKeepCalls(h, a, id); }
    }
  }

  lemma {:induction false} RunKeepsNoted(h: Hub, actions: seq<Action>)
    requires HubInv(h) && CallsNoted(h) && AllowedRun(h, actions)
    ensures HubInv(After(h, actions)) && CallsNoted(After(h, actions))
    decreases |actions|
  {
    hide Sane, CallsNoted, Hub.Apply, Allowed;
    if actions != [] {
      ApplyKeeps(h, actions[0]);
      ApplyKeepsNoted(h, actions[0]);
      RunKeepsNoted(h.Apply(actions[0]), actions[1..]);
    }
  }

  /** In every run of the daemon: when a call ends, no session's sensor stays on for a call, whichever
      sessions were active while calls began and wherever they were switched to and from. */
  lemma EndOfCallReachesAll(o: Options, actions: seq<Action>, far: bool, id: string)
    requires o.reducedOffTimeout > 0 && AllowedRun(Boot(o), actions)
    ensures !InCall(After(Boot(o), actions).Apply(CallEnds(far)), id)
  {
    hide Sane, InCall, Hub.ToSessions;
    var h := After(Boot(o), actions);
    BootHasNoCall(o);
    RunKeepsNoted(Boot(o), actions);
    ToSessionsMoveCalls(h, h.calls, NoActiveCall(far), id);
  }

  lemma BootHasNoCall(o: Options)
    requires o.reducedOffTimeout > 0
    ensures HubInv(Boot(o)) && CallsNoted(Boot(o))
  {
  }
}
