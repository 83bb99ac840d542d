/** The one suspend block that all sessions take and release under the same id. */
module SharedBlock {
  import opened Alarms
  import opened Plans
  import opened PowerModel
  import opened PowerInvariants
  import opened PowerEffects
  import opened PowerTheorems
  import opened PowerChanges
  import opened Sessions
  import SharedSensor

  /** The session needs automatic suspend blocked. */
  predicate Wants(h: Hub, id: string) {
    h.Has(id) && HoldsOffSuspend(h.sessions[id].w.m)
  }

  /** The block is held exactly when the active session needs it. */
  predicate BlockAgrees(h: Hub) {
    h.Has(h.active) ==> h.block == Wants(h, h.active)
  }

  /** A session that is dark for good releases the block when suspending is allowed again. */
  predicate Releaser(h: Hub, id: string) {
    h.Has(id) && ReleasesBlock(h.sessions[id].w.m)
  }

  // ---------- One session ----------

  /** What a handler of the active session leaves: the block is as that session needs it. */
  lemma ActiveDecides(h: Hub, e: Event)
    requires HubInv(h) && BlockAgrees(h)
    requires e != Resuming && e != Pausing && Handled(e)
    ensures BlockAgrees(h.On(h.active, e))
  {
    hide Inv, Sane, Step, Frame, Effects;
    if h.Has(h.active) {
      var w := h.Load(h.active);
      LoadIsGood(h, h.active, h.active);
      OwnBlock(w);
      HandlerCall(w, e);
      EventEffects(w, e);
      StaysAlone(w, e);
      OwnBlock(Step(w, e));
    }
  }

  lemma OwnBlock(w: World)
    requires Inv(w)
    ensures w.out.suspendBlocked == HoldsOffSuspend(w.m)
  {
    hide ProperLog, Plan.Valid;
  }

  lemma StaysAlone(w: World, e: Event)
    requires Effects(w, e, Step(w, e))
    ensures Alone(w) ==> Alone(Step(w, e))
  {
    hide Step, Forgets, Defers, ReasonAfter, Swings, SameFlags, Alone, Machine.ProximityEnabled;
  }

  /** What a handler of a paused session leaves of the block. */
  function BlockAfter(h: Hub, id: string, e: Event): bool {
    if !h.Has(id) then h.block
    else if e == DisallowSuspend then true
    else if e == AllowSuspend then h.block && !Releaser(h, id)
    else h.block
  }

  lemma PausedLeaves(h: Hub, id: string, e: Event)
    requires HubInv(h) && id != h.active && e != Resuming
    ensures var g := h.On(id, e);
      && g.block == BlockAfter(h, id, e) && g.active == h.active
      && (forall j :: j != id ==> (g.Has(j) <==> h.Has(j)) && (h.Has(j) ==> g.sessions[j] == h.sessions[j]))
      && (g.Has(id) <==> h.Has(id))
  {
    hide Inv, Sane, Step, Effects;
    if h.Has(id) {
      LoadIsGood(h, id, h.active);
      EventEffects(h.Load(id), e);
      PausedBlock(h.Load(id), e);
    }
  }

  lemma PausedBlock(w: World, e: Event)
    requires Effects(w, e, Step(w, e)) && w.m.paused && e != Resuming
    ensures Step(w, e).out.block ==
      if e == DisallowSuspend then true
      else if e == AllowSuspend then w.out.block && !ReleasesBlock(w.m)
      else w.out.block
  {
    hide Step, Forgets, Defers, ReasonAfter, Swings, SameFlags, Alone, Machine.ProximityEnabled;
  }

  // ---------- Allowing and disallowing suspend in several sessions ----------

  /** What allowing or disallowing suspend leaves of what the block depends on. */
  predicate Switched(m: Machine, n: Machine, allowed: bool) {
    n.display == m.display && n.reason == m.reason && n.suspendAllowed == allowed
  }

  lemma SuspendingKeepsLooks(w: World)
    ensures Switched(w.m, w.SuspendWhenAllowed().m, w.m.suspendAllowed)
  {
    hide World.Emit;
    EmitLeavesMachine(w.(m := w.m.(suspendPending := false)), SuspendNow(Inactivity));
  }

  lemma AllowSwitches(w: World)
    ensures var v := w.HandleAllowSuspend();
      Switched(w.m, v.m, true) && v.out.block == (w.out.block && !ReleasesBlock(w.m))
  {
    hide World.Emit, World.SuspendWhenAllowed, Punctual, Alone;
    AllowSuspendChanges(w);
    var u := w.(m := w.m.(suspendAllowed := true));
    EmitLeavesMachine(u, AllowAutomaticSuspend);
    SuspendingKeepsLooks(u);
    SuspendingKeepsLooks(u.Emit(AllowAutomaticSuspend));
  }

  lemma DisallowSwitches(w: World)
    ensures var v := w.HandleDisallowSuspend();
      Switched(w.m, v.m, false) && v.out.block
  {
    hide World.Emit, Punctual, Alone;
    DisallowSuspendChanges(w);
    EmitLeavesMachine(w.(m := w.m.(suspendAllowed := false)), DisallowAutomaticSuspend);
  }

  predicate Switching(e: Event) {
    e == AllowSuspend || e == DisallowSuspend
  }

  /** The sessions in the row have been switched, the others are as they were. */
  predicate SwitchedIn(h: Hub, g: Hub, ids: seq<string>, e: Event, j: string) {
    && (g.Has(j) <==> h.Has(j))
    && (h.Has(j) ==> Switched(h.sessions[j].w.m, g.sessions[j].w.m,
          if j in ids then e == AllowSuspend else h.sessions[j].w.m.suspendAllowed))
  }

  /** The block after the row: taken by any session that disallows suspending, released by any that
      is dark for good and allows it. */
  ghost predicate RowBlocks(h: Hub, g: Hub, ids: seq<string>, e: Event) {
    g.block <==>
      if e == DisallowSuspend then h.block || exists id :: id in ids && h.Has(id)
      else h.block && forall id :: id in ids ==> !Releaser(h, id)
  }

  lemma StepSwitches(w: World, e: Event)
    requires Switching(e)
    ensures Switched(w.m, Step(w, e).m, e == AllowSuspend)
    ensures Step(w, e).out.block == if e == DisallowSuspend then true else w.out.block && !ReleasesBlock(w.m)
  {
    hide World.HandleAllowSuspend, World.HandleDisallowSuspend, ReleasesBlock;
    if e == AllowSuspend { AllowSwitches(w); } else { DisallowSwitches(w); }
  }

  lemma OnSwitches(h: Hub, id: string, e: Event)
    requires Switching(e)
    ensures var g := h.On(id, e);
      && g.active == h.active && RowBlocks(h, g, [id], e)
      && forall j :: SwitchedIn(h, g, [id], e, j)
  {
    hide Step, ReleasesBlock, Switched;
    assert forall j :: j in [id] <==> j == id;
    forall j | j != id ensures SwitchedIn(h, h.On(id, e), [id], e, j) {
      UnheardUnswitched(h, id, e, j);
    }
    assert id in [id];
    if h.Has(id) {
      StepSwitches(h.Load(id), e);
      assert Releaser(h, id) == ReleasesBlock(h.Load(id).m);
    }
  }

  lemma UnheardUnswitched(h: Hub, id: string, e: Event, j: string)
    requires j != id
    ensures SwitchedIn(h, h.On(id, e), [id], e, j)
  {
    hide Step;
  }

  lemma {:induction false} RowSwitches(h: Hub, ids: seq<string>, e: Event)
    requires Switching(e)
    ensures var g := h.ToSessions(ids, e);
      && g.active == h.active && RowBlocks(h, g, ids, e)
      && forall j :: SwitchedIn(h, g, ids, e, j)
  {
    hide Hub.On, SwitchedIn, RowBlocks;
    if ids == [] {
      NoneSwitches(h, e);
    } else {
      var init, last := ids[..|ids| - 1], ids[|ids| - 1];
      var g := h.ToSessions(init, e);
      RowSwitches(h, init, e);
      OnSwitches(g, last, e);
      assert ids == init + [last];
      forall j ensures SwitchedIn(h, g.On(last, e), ids, e, j) {
        OneMoreSwitched(h, g, g.On(last, e), init, last, e, j);
      }
      OneMoreBlocks(h, g, g.On(last, e), init, last, e);
    }
  }

  lemma NoneSwitches(h: Hub, e: Event)
    requires Switching(e)
    ensures RowBlocks(h, h, [], e) && forall j :: SwitchedIn(h, h, [], e, j)
  {
  }

  lemma OneMoreSwitched(h: Hub, g: Hub, g': Hub, init: seq<string>, last: string, e: Event, j: string)
    requires SwitchedIn(h, g, init, e, j) && SwitchedIn(g, g', [last], e, j)
    ensures SwitchedIn(h, g', init + [last], e, j)
  {
    assert j in init + [last] <==> j in init || j == last;
  }

  lemma OneMoreBlocks(h: Hub, g: Hub, g': Hub, init: seq<string>, last: string, e: Event)
    requires RowBlocks(h, g, init, e) && RowBlocks(g, g', [last], e) && SwitchedIn(h, g, init, e, last)
    ensures RowBlocks(h, g', init + [last], e)
  {
    assert Releaser(g, last) == Releaser(h, last);
    assert last in [last];
    assert forall id :: id in init + [last] <==> id in init || id == last;
  }

  /** Somebody in the row contradicts the active session: by taking the block that it does not need,
      or by releasing the one that it needs. */
  ghost predicate Interferes(h: Hub, ids: seq<string>, e: Event) {
    if e == DisallowSuspend then
      h.active !in ids && !Wants(h, h.active) && exists id :: id in ids && h.Has(id)
    else
      && (if h.active in ids then !Releaser(h, h.active) else Wants(h, h.active))
      && exists id :: id in ids && Releaser(h, id)
  }

  lemma SwitchingAgrees(h: Hub, ids: seq<string>, e: Event)
    requires HubInv(h) && BlockAgrees(h) && h.Has(h.active) && Switching(e)
    ensures BlockAgrees(h.ToSessions(ids, e)) <==> !Interferes(h, ids, e)
  {
    hide Hub.ToSessions, Sane, Inv;
    RowSwitches(h, ids, e);
    assert SwitchedIn(h, h.ToSessions(ids, e), ids, e, h.active);
    LoadIsGood(h, h.active, h.active);
    DisplayIsKnown(h.Load(h.active));
  }

  lemma DisplayIsKnown(w: World)
    requires Inv(w)
    ensures w.m.display != UnknownMode
  {
    hide ProperLog, Plan.Valid;
  }

  // ---------- Other events ----------

  lemma OthersStay(h: Hub, id: string, e: Event)
    requires HubInv(h) && BlockAgrees(h) && Handled(e)
    requires e != Pausing && e != Resuming && !Switching(e)
    ensures BlockAgrees(h.On(id, e))
  {
    hide Sane, Step, Releaser, HoldsOffSuspend;
    if id == h.active { ActiveDecides(h, e); } else { PausedLeaves(h, id, e); }
  }

  lemma {:induction false} RowStays(h: Hub, ids: seq<string>, e: Event)
    requires HubInv(h) && BlockAgrees(h) && Handled(e) && ReachesPaused(e)
    requires e != Resuming && !Switching(e)
    ensures BlockAgrees(h.ToSessions(ids, e))
  {
    hide Sane, Hub.On, BlockAgrees;
    if ids != [] {
      RowStays(h, ids[..|ids| - 1], e);
      ToSessionsKeeps(h, ids[..|ids| - 1], e);
      OthersStay(h.ToSessions(ids[..|ids| - 1], e), ids[|ids| - 1], e);
    }
  }

  lemma AlarmStays(h: Hub, order: seq<string>, alarm: AlarmId)
    requires HubInv(h) && alarm in h.clock.fired && Enumerates(order, h.sessions.Keys) && BlockAgrees(h)
    ensures BlockAgrees(h.AlarmTo(order, alarm).Deliver(alarm))
  {
    hide Sane, Hub.AlarmAt, BlockAgrees, Plan.Owns;
    if owner :| OwnedBy(h, owner, alarm) {
      BroadcastIsOwners(h, order, owner, alarm);
      OwnerStays(h, owner, alarm);
    } else {
      AlarmReachesNobody(h, h.active, order, alarm);
      DeliveredAgrees(h, alarm);
    }
  }

  lemma DeliveredAgrees(h: Hub, alarm: AlarmId)
    ensures BlockAgrees(h.Deliver(alarm)) == BlockAgrees(h)
  {
  }

  lemma OwnerStays(h: Hub, owner: string, alarm: AlarmId)
    requires HubInv(h) && alarm in h.clock.fired && h.Has(owner) && BlockAgrees(h)
    ensures BlockAgrees(h.AlarmAt(owner, alarm).Deliver(alarm))
  {
    hide Inv, Sane, Effects, World.HandleAlarm, HoldsOffSuspend;
    LoadIsGood(h, owner, h.active);
    var w := h.Load(owner);
    AlarmEffects(w, alarm);
    if owner == h.active {
      StepKeeps(w, AlarmEvent(alarm));
      OwnBlock(w);
      StaysAlone(w, AlarmEvent(alarm));
      OwnBlock(Step(w, AlarmEvent(alarm)));
    } else {
      PausedBlock(w, AlarmEvent(alarm));
    }
  }

  // ---------- Switching sessions ----------

  lemma PausingStays(h: Hub)
    ensures h.On(h.active, Pausing).block == h.block
  {
    hide Step;
    if h.Has(h.active) { PausedKeepsBlock(h.Load(h.active)); }
  }

  lemma PausedKeepsBlock(w: World)
    ensures Step(w, Pausing).out.block == w.out.block
  {
    hide World.Pause, SameRest;
    PauseChanges(w);
  }

  lemma LitTakesBlock(w: World, reason: Reason)
    requires !w.m.paused
    ensures w.TurnOn(reason).out.block && w.TurnOn(reason).m.display == On
  {
  }

  lemma ResumedTakesBlock(w: World)
    ensures var v := Step(w, Resuming); v.out.block && v.m.display == On
  {
    hide World.TurnOn, World.TakeOver, Machine.ProximityEnabled;
    TakeOverChanges(w);
    LitTakesBlock(w.TakeOver(), UnknownReason);
  }

  lemma StartedTakesBlock(w: World, battery: bool)
    requires !w.m.paused
    ensures var v := Step(w, Starting(battery));
      if w.m.options.displayOnAtStartup then v.out.block && v.m.display == On
      else v.out.block == w.out.block && HoldsOffSuspend(v.m) == HoldsOffSuspend(w.m)
  {
    hide World.TurnOn;
    LitTakesBlock(w.OnBattery(battery).Emit(DisallowDefaultHandlers), UnknownReason);
  }

  /** A session that starts with its display off finds the block as the previous one left it. */
  predicate StartsUnder(h: Hub, id: string, compatible: bool) {
    compatible && id !in h.sessions && !h.options.displayOnAtStartup && h.block
  }

  lemma ActivationDecides(h: Hub, id: string, compatible: bool, battery: bool)
    requires HubInv(h)
    ensures BlockAgrees(h.Activate(id, compatible, battery)) <==> !StartsUnder(h, id, compatible)
  {
    hide Good, Disjoint, Hub.On, Hub.NewSession;
    var g := h.On(h.active, Pausing);
    PausingStays(h);
    OnKeepsKeys(h, h.active, Pausing);
    OnKeepsOptions(h, h.active, Pausing);
    PauseActiveKeeps(h);
    if compatible && id in g.sessions {
      ResumedAgrees(g, id);
    } else if compatible {
      StartedAgrees(g, id, battery);
    }
  }

  lemma OnKeepsOptions(h: Hub, id: string, e: Event)
    ensures h.On(id, e).options == h.options
  {
    hide Step;
  }

  lemma ResumedAgrees(g: Hub, id: string)
    ensures BlockAgrees(g.On(id, Resuming).(active := id))
  {
    hide Step;
    if g.Has(id) { ResumedTakesBlock(g.Load(id)); }
  }

  lemma FreshNeedsNothing(g: Hub)
    ensures var w := g.Fresh();
      && w == Placed(w, g.clock, g.sensor, g.block)
      && !w.m.paused && w.m.options == g.options && !HoldsOffSuspend(w.m)
  {
  }

  lemma StartedAgrees(g: Hub, id: string, battery: bool)
    ensures BlockAgrees(g.NewSession(id, battery).(active := id)) <==> g.options.displayOnAtStartup || !g.block
  {
    hide Step, Hub.Fresh, HoldsOffSuspend;
    FreshNeedsNothing(g);
    var w := Placed(Placed(g.Fresh(), START_OF_TIME, false, false), g.clock, g.sensor, g.block);
    assert w == g.Fresh();
    StartedTakesBlock(w, battery);
    LitHoldsOff(Step(w, Starting(battery)).m);
  }

  lemma LitHoldsOff(m: Machine)
    ensures m.display == On ==> HoldsOffSuspend(m)
  {
  }

  // ---------- Every action ----------

  /** When an action of the daemon makes the shared block disagree, told before it is carried out. */
  ghost predicate DisturbsBlock(h: Hub, a: Action) {
    match a
    case ToClients(ids, e) => Switching(e) && h.Has(h.active) && Interferes(h, ids, e)
    case SessionActivated(id, compatible, _) => StartsUnder(h, id, compatible)
    case _ => false
  }

  lemma ClientsDecide(h: Hub, ids: seq<string>, e: Event)
    requires HubInv(h) && BlockAgrees(h) && ForClients(e)
    ensures BlockAgrees(h.ToSessions(ids, e)) <==> !DisturbsBlock(h, ToClients(ids, e))
  {
    hide Sane, Hub.On, BlockAgrees, Interferes;
    if !Switching(e) {
      RowStays(h, ids, e);
    } else if h.Has(h.active) {
      SwitchingAgrees(h, ids, e);
    } else {
      RowSwitches(h, ids, e);
      assert SwitchedIn(h, h.ToSessions(ids, e), ids, e, h.active);
      NobodyAgrees(h.ToSessions(ids, e));
    }
  }

  lemma NobodyAgrees(h: Hub)
    requires !h.Has(h.active)
    ensures BlockAgrees(h)
  {
  }

  lemma RemovalStays(h: Hub, id: string)
    requires HubInv(h) && BlockAgrees(h) && id != NOBODY
    ensures BlockAgrees(h.Remove(id))
  {
    hide Good, Disjoint, Hub.On, HoldsOffSuspend;
    if h.active == id { PauseActiveKeeps(h); }
  }

  /** The shared suspend block is held exactly when the active session needs it, after an action of
      the daemon, if and only if that action neither allows suspending in another session that is dark
      for good while the active one still needs the block, nor disallows it in others only, nor starts a
      session with its display off under a block that is held. */
  lemma BlockAgreesUnlessDisturbed(h: Hub, a: Action)
    requires HubInv(h) && Allowed(h, a) && BlockAgrees(h)
    ensures BlockAgrees(h.Apply(a)) <==> !DisturbsBlock(h, a)
  {
    hide Sane, Hub.On, Hub.Activate, Hub.Remove, Hub.ToSessions, Hub.AlarmTo, BlockAgrees, Interferes, StartsUnder;
    match a
    case SessionActivated(id, compatible, battery) => ActivationDecides(h, id, compatible, battery);
    case SessionRemoved(id) => RemovalStays(h, id);
    case ToActive(e) => ActiveDecides(h, e);
    case ToClients(ids, e) => ClientsDecide(h, ids, e);
    case CallBegins(far) => CallStays(h, far);
    case CallEnds(far) => RowStays(h, h.calls, NoActiveCall(far));
    case AlarmArrives(order, alarm) => AlarmStays(h, order, alarm);
    case ClockTicks(_) => ClockAgrees(h, h.Apply(a));
    case AlarmGoesOff(_) => ClockAgrees(h, h.Apply(a));
  }

  lemma CallStays(h: Hub, far: bool)
    requires HubInv(h) && BlockAgrees(h)
    ensures BlockAgrees(h.CallBegins(far))
  {
    hide Good, Disjoint, Hub.On, HoldsOffSuspend;
    ActiveDecides(if h.active in h.calls then h else h.(calls := h.calls + [h.active]), ActiveCall(far));
  }

  lemma ClockAgrees(h: Hub, g: Hub)
    requires g == h.(clock := g.clock)
    ensures BlockAgrees(g) == BlockAgrees(h)
  {
  }

  // ---------- Runs ----------

  /** No action on the way disturbs the sensor or the block. */
  ghost predicate Undisturbed(h: Hub, actions: seq<Action>)
    decreases |actions|
  {
    actions == []
    || (var a := actions[0];
        && !DisturbsBlock(h, a) && !SharedSensor.DisturbsSensor(h, a)
        && (a.ToClients? ==> SharedSensor.NoDuplicates(a.ids))
        && Undisturbed(h.Apply(a), actions[1..]))
  }

  ghost predicate SharedAgree(h: Hub) {
    HubInv(h) && SharedSensor.NoDuplicates(h.calls) && BlockAgrees(h) && SharedSensor.SensorAgrees(h)
  }

  lemma {:induction false} UndisturbedKeeps(h: Hub, actions: seq<Action>)
    requires SharedAgree(h) && AllowedRun(h, actions) && Undisturbed(h, actions)
    ensures SharedAgree(After(h, actions))
    decreases |actions|
  {
    hide Sane, Hub.Apply, Allowed, BlockAgrees, DisturbsBlock;
    hide SharedSensor.SensorAgrees, SharedSensor.DisturbsSensor, SharedSensor.NoDuplicates;
    if actions != [] {
      ApplyKeeps(h, actions[0]);
      BlockAgreesUnlessDisturbed(h, actions[0]);
      SharedSensor.SensorAgreesUnlessDisturbed(h, actions[0]);
      SharedSensor.CallsStayDistinct(h, actions[0]);
      UndisturbedKeeps(h.Apply(actions[0]), actions[1..]);
    }
  }

  /** In every run of the daemon in which nothing disturbs them, the shared sensor is on exactly when
      the active session has a reason for it, and the shared block is held exactly when it needs it. */
  lemma SharedFollowActive(o: Options, actions: seq<Action>)
    requires o.reducedOffTimeout > 0 && AllowedRun(Boot(o), actions) && Undisturbed(Boot(o), actions)
    ensures var h := After(Boot(o), actions);
      BlockAgrees(h) && SharedSensor.SensorAgrees(h)
  {
    hide Hub.Apply, Allowed, Undisturbed;
    UndisturbedKeeps(Boot(o), actions);
  }

  /** How it fails: logind lifts its block, every session hears of it, and one left dark releases the
      block under the lit display of the active one. */
  lemma DarkSessionReleasesBlock(h: Hub, ids: seq<string>, id: string)
    requires HubInv(h) && BlockAgrees(h) && id in ids && Releaser(h, id) && h.active in ids
    requires h.Has(h.active) && h.sessions[h.active].w.m.display == On
    ensures var g := h.Apply(ToClients(ids, AllowSuspend));
      Wants(g, g.active) && !g.block
  {
    hide Sane, Hub.ToSessions;
    RowSwitches(h, ids, AllowSuspend);
    assert SwitchedIn(h, h.ToSessions(ids, AllowSuspend), ids, AllowSuspend, h.active);
  }
}
