/** The one timer that all sessions schedule on: how long each session may still leave the display on,
    and that the active one turns it off in time. */
module SharedTimer {
  import opened Alarms
  import opened Plans
  import opened PowerModel
  import opened PowerInvariants
  import opened PowerEffects
  import opened PowerTheorems
  import opened PowerChanges
  import opened PowerDeadlines
  import opened Sessions

  /** Every session's off time lies no further ahead than its timeout in force, on the shared clock. */
  ghost predicate AllTimely(h: Hub) {
    forall id :: h.Has(id) ==> Timely(h.Load(id))
  }

  /** The clock has not moved between the two, and all but one session are as they were. */
  predicate SameElsewhere(h: Hub, g: Hub, id: string) {
    && g.clock.now == h.clock.now
    && forall j :: j in g.sessions && g.Has(j) && j != id ==> h.Has(j) && g.sessions[j] == h.sessions[j]
  }

  lemma ElsewhereTimely(h: Hub, g: Hub, id: string)
    requires AllTimely(h) && SameElsewhere(h, g, id) && (g.Has(id) ==> Timely(g.Load(id)))
    ensures AllTimely(g)
  {
    hide Timely;
    forall j | g.Has(j) ensures Timely(g.Load(j)) {
      if j != id { TimelyDepends(h.Load(j), g.Load(j)); }
    }
  }

  lemma AsideTimely(h: Hub, g: Hub)
    requires AllTimely(h) && g.sessions == h.sessions && g.clock.now == h.clock.now
    ensures AllTimely(g)
  {
    hide Timely;
    forall id | g.Has(id) ensures Timely(g.Load(id)) {
      TimelyDepends(h.Load(id), g.Load(id));
    }
  }

  lemma FrameNow(p: Plan, q: Plan)
    requires Frame(p, q)
    ensures q.clock.now == p.clock.now
  {
  }

  lemma OnKeepsTimely(h: Hub, id: string, e: Event, who: string)
    requires Sane(h, who) && AllTimely(h) && Handled(e)
    requires id == who || ReachesPaused(e)
    requires h.Has(id) ==> StartsIdle(h.Load(id), e)
    ensures AllTimely(h.On(id, e))
  {
    hide Inv, Sane, Step, Timely, Frame, StartsIdle;
    if h.Has(id) {
      var w := h.Load(id);
      LoadIsGood(h, id, who);
      HandlerCall(w, e);
      FrameNow(w.p, Step(w, e).p);
      StepKeepsTimely(w, e);
      StoredTimely(h, id, Step(w, e));
    }
  }

  lemma StoredTimely(h: Hub, id: string, v: World)
    requires AllTimely(h) && h.Has(id) && Timely(v) && v.p.clock.now == h.clock.now
    ensures AllTimely(h.Store(id, v))
  {
    hide Timely;
    TimelyDepends(v, h.Store(id, v).Load(id));
    ElsewhereTimely(h, h.Store(id, v), id);
  }

  lemma {:induction false} ToSessionsKeepsTimely(h: Hub, ids: seq<string>, e: Event)
    requires HubInv(h) && AllTimely(h) && Handled(e) && ReachesPaused(e) && e != Resuming
    ensures AllTimely(h.ToSessions(ids, e))
  {
    hide Sane, AllTimely, Hub.On;
    if ids != [] {
      var g := h.ToSessions(ids[..|ids| - 1], e);
      ToSessionsKeepsTimely(h, ids[..|ids| - 1], e);
      ToSessionsKeeps(h, ids[..|ids| - 1], e);
      OnKeepsTimely(g, ids[|ids| - 1], e, g.active);
    }
  }

  lemma PausingKeepsTimely(h: Hub)
    requires HubInv(h) && AllTimely(h)
    ensures AllTimely(h.On(h.active, Pausing))
  {
    hide Sane, AllTimely, Hub.On;
    OnKeepsTimely(h, h.active, Pausing, h.active);
  }

  lemma JoinKeepsTimely(h: Hub, id: string)
    requires AllTimely(h)
    ensures var g := h.Store(id, h.Fresh());
      AllTimely(g) && StartsIdle(g.Load(id), Starting(true)) && StartsIdle(g.Load(id), Starting(false))
  {
    var g := h.Store(id, h.Fresh());
    ElsewhereTimely(h, g, id);
  }

  lemma NewSessionKeepsTimely(h: Hub, id: string, battery: bool)
    requires Sane(h, NOBODY) && id !in h.sessions && AllTimely(h)
    ensures AllTimely(h.NewSession(id, battery))
  {
    hide Sane, AllTimely, Hub.On, Hub.Store, Hub.Fresh;
    JoinKeeps(h, id);
    JoinKeepsTimely(h, id);
    OnKeepsTimely(h.Store(id, h.Fresh()), id, Starting(battery), id);
  }

  lemma ActivateKeepsTimely(h: Hub, id: string, compatible: bool, battery: bool)
    requires HubInv(h) && AllTimely(h)
    ensures AllTimely(h.Activate(id, compatible, battery))
  {
    hide Sane, AllTimely, Hub.On, Hub.NewSession;
    PausingKeepsTimely(h);
    PauseActiveKeeps(h);
    var g := h.On(h.active, Pausing);
    if !compatible {
      AsideTimely(g, g.(active := NOBODY));
    } else if id in g.sessions {
      OnKeepsTimely(g, id, Resuming, NOBODY);
      AsideTimely(g.On(id, Resuming), g.On(id, Resuming).(active := id));
    } else {
      NewSessionKeepsTimely(g, id, battery);
      AsideTimely(g.NewSession(id, battery), g.NewSession(id, battery).(active := id));
    }
  }

  lemma AlarmKeepsTimely(h: Hub, order: seq<string>, alarm: AlarmId)
    requires HubInv(h) && alarm in h.clock.fired && Enumerates(order, h.sessions.Keys) && AllTimely(h)
    ensures AllTimely(h.AlarmTo(order, alarm).Deliver(alarm))
  {
    hide Sane, AllTimely, Hub.AlarmAt, Plan.Owns;
    if owner :| OwnedBy(h, owner, alarm) {
      BroadcastIsOwners(h, order, owner, alarm);
      OwnerKeepsTimely(h, owner, alarm);
      DeliveredTimely(h.AlarmAt(owner, alarm), alarm);
    } else {
      AlarmReachesNobody(h, h.active, order, alarm);
      DeliveredTimely(h, alarm);
    }
  }

  lemma OwnerKeepsTimely(h: Hub, owner: string, alarm: AlarmId)
    requires HubInv(h) && alarm in h.clock.fired && h.Has(owner) && AllTimely(h)
    ensures AllTimely(h.AlarmAt(owner, alarm))
  {
    hide Inv, Sane, Timely, Effects, World.HandleAlarm, Frame;
    LoadIsGood(h, owner, h.active);
    var w := h.Load(owner);
    var s, p := AlarmDoes(w, alarm);
    AlarmEffects(w, alarm);
    TimelyDepends(w.HandleAlarm(alarm), Delivering(w.HandleAlarm(alarm), alarm));
    FrameNow(w.p, w.HandleAlarm(alarm).p);
    StoredTimely(h, owner, w.HandleAlarm(alarm));
  }

  lemma DeliveredTimely(h: Hub, alarm: AlarmId)
    requires AllTimely(h)
    ensures AllTimely(h.Deliver(alarm))
  {
    hide AllTimely;
    AsideTimely(h, h.Deliver(alarm));
  }

  lemma RemoveKeepsTimely(h: Hub, id: string)
    requires HubInv(h) && AllTimely(h)
    ensures AllTimely(h.Remove(id))
  {
    hide Sane, Timely, Hub.On;
    PausingKeepsTimely(h);
    var g := if h.active == id then h.On(h.active, Pausing) else h;
    if id in h.sessions {
      forall j | h.Remove(id).Has(j) ensures Timely(h.Remove(id).Load(j)) {
        assert g.Has(j);
        TimelyDepends(g.Load(j), h.Remove(id).Load(j));
      }
    }
  }

  lemma TickKeepsTimely(h: Hub, t: nat)
    requires AllTimely(h)
    ensures AllTimely(h.(clock := h.clock.Advance(t)))
  {
    hide Timely;
    var g := h.(clock := h.clock.Advance(t));
    forall id | g.Has(id) ensures Timely(g.Load(id)) {
      ClockTimely(h.Load(id), TimePasses(t));
      TimelyDepends(Step(h.Load(id), TimePasses(t)), g.Load(id));
    }
  }

  lemma CallBeginsKeepsTimely(h: Hub, far: bool)
    requires HubInv(h) && AllTimely(h)
    ensures AllTimely(h.CallBegins(far))
  {
    hide Good, Disjoint, AllTimely, Hub.On;
    var g := if h.active in h.calls then h else h.(calls := h.calls + [h.active]);
    AsideTimely(h, g);
    OnKeepsTimely(g, h.active, ActiveCall(far), h.active);
  }

  /** Every action of the daemon keeps the deadlines of every session. */
  lemma ApplyKeepsTimely(h: Hub, a: Action)
    requires HubInv(h) && Allowed(h, a) && AllTimely(h)
    ensures AllTimely(h.Apply(a))
  {
    hide Sane, AllTimely, Hub.On, Hub.Activate, Hub.Remove, Hub.ToSessions, Hub.AlarmTo, Hub.CallBegins;
    match a
    case SessionActivated(id, compatible, battery) => ActivateKeepsTimely(h, id, compatible, battery);
    case SessionRemoved(id) => RemoveKeepsTimely(h, id);
    case ToActive(e) => OnKeepsTimely(h, h.active, e, h.active);
    case ToClients(ids, e) => ToSessionsKeepsTimely(h, ids, e);
    case CallBegins(far) => CallBeginsKeepsTimely(h, far);
    case CallEnds(far) => ToSessionsKeepsTimely(h, h.calls, NoActiveCall(far));
    case AlarmArrives(order, alarm) => AlarmKeepsTimely(h, order, alarm);
    case ClockTicks(t) => TickKeepsTimely(h, t);
    case AlarmGoesOff(alarm) => AsideTimely(h, h.Apply(a));
  }

  lemma {:induction false} DaemonRunKeepsTimely(h: Hub, actions: seq<Action>)
    requires HubInv(h) && AllowedRun(h, actions) && AllTimely(h)
    ensures AllTimely(After(h, actions))
    decreases |actions|
  {
    hide Sane, AllTimely, Hub.Apply, Allowed;
    if actions != [] {
      ApplyKeeps(h, actions[0]);
      ApplyKeepsTimely(h, actions[0]);
      DaemonRunKeepsTimely(h.Apply(actions[0]), actions[1..]);
    }
  }

  lemma BootTimely(o: Options)
    requires o.reducedOffTimeout > 0
    ensures HubInv(Boot(o)) && AllTimely(Boot(o))
  {
  }

  // ---------- The active session goes dark ----------

  /** The timer runs up to the off time of the active session, its off alarm goes off, and all
      sessions are told of it. */
  function OffActions(h: Hub, order: seq<string>): seq<Action>
    requires h.Has(h.active)
  {
    var p := h.Load(h.active).p;
    if p.off in p.clock.fired then [AlarmArrives(order, p.off)]
    else [ClockTicks(Wait(p)), AlarmGoesOff(p.off), AlarmArrives(order, p.off)]
  }

  /** An alarm of the active session reaches it as if it were alone on the timer. */
  lemma ArrivesAtActive(h: Hub, order: seq<string>, alarm: AlarmId)
    requires HubInv(h) && alarm in h.clock.fired && Enumerates(order, h.sessions.Keys)
    requires OwnedBy(h, h.active, alarm)
    ensures var g := h.Apply(AlarmArrives(order, alarm));
      && g.active == h.active && g.Has(h.active)
      && g.Load(h.active) == Step(h.Load(h.active), AlarmEvent(alarm))
  {
    hide Sane, World.HandleAlarm, Plan.Owns;
    BroadcastIsOwners(h, order, h.active, alarm);
    var w := h.Load(h.active).HandleAlarm(alarm);
    assert Placed(Placed(w, START_OF_TIME, false, false), w.p.clock.Delivered(alarm), w.out.sensor, w.out.block)
      == Delivering(w, alarm);
  }

  lemma AlarmTurnsOff(h: Hub, order: seq<string>)
    requires HubInv(h) && h.Has(h.active) && Enumerates(order, h.sessions.Keys)
    requires h.Load(h.active).p.off in h.clock.fired && h.Load(h.active).m.TimeoutAllowed()
    ensures var g := h.Apply(AlarmArrives(order, h.Load(h.active).p.off));
      g.active == h.active && g.Has(h.active) && g.sessions[h.active].w.m.display == Off
  {
    hide Inv, Sane, Step, Possible, Hub.Apply, Machine.TimeoutAllowed;
    LoadIsGood(h, h.active, h.active);
    var w := h.Load(h.active);
    ArrivesAtActive(h, order, w.p.off);
    AlarmIsPossible(w, w.p.off);
    OffAlarmComes(w);
    assert h.Apply(AlarmArrives(order, w.p.off)).Load(h.active).m.display == Off;
  }

  lemma AlarmIsPossible(w: World, id: AlarmId)
    requires id in w.p.clock.fired
    ensures Possible(w, AlarmEvent(id))
  {
  }

  lemma ThreeActions(h: Hub, a: Action, b: Action, c: Action)
    requires Allowed(h, a) && Allowed(h.Apply(a), b) && Allowed(h.Apply(a).Apply(b), c)
    ensures AllowedRun(h, [a, b, c]) && After(h, [a, b, c]) == h.Apply(a).Apply(b).Apply(c)
  {
    hide Allowed, Hub.Apply;
    assert [a, b, c][1..] == [b, c] && [b, c][1..] == [c];
    OneAction(h.Apply(a).Apply(b), c);
  }

  lemma ActiveTurnsOff(h: Hub, order: seq<string>)
    requires HubInv(h) && h.Has(h.active) && Enumerates(order, h.sessions.Keys)
    requires var w := h.Load(h.active); w.m.display == On && w.m.TimeoutAllowed() && w.p.offTime != Never
    ensures AllowedRun(h, OffActions(h, order))
    ensures var g := After(h, OffActions(h, order));
      g.active == h.active && g.Has(h.active) && g.sessions[h.active].w.m.display == Off
  {
    hide Inv, Sane, Enumerates, Hub.AlarmTo, Wait;
    LoadIsGood(h, h.active, h.active);
    var w := h.Load(h.active);
    LitIsScheduled(w);
    if w.p.off in h.clock.fired {
      AlarmTurnsOff(h, order);
      OneAction(h, AlarmArrives(order, w.p.off));
    } else {
      var tick, fire := ClockTicks(Wait(w.p)), AlarmGoesOff(w.p.off);
      WaitsLongEnough(w);
      ApplyKeeps(h, tick);
      ApplyKeeps(h.Apply(tick), fire);
      AlarmTurnsOff(h.Apply(tick).Apply(fire), order);
      ThreeActions(h, tick, fire, AlarmArrives(order, w.p.off));
    }
  }

  lemma WaitsLongEnough(w: World)
    requires w.p.off in w.p.clock.pending && w.p.offTime == At(w.p.clock.pending[w.p.off])
    ensures w.p.clock.Advance(Wait(w.p)).Due(w.p.off)
  {
  }

  /** In every run of the daemon, a lit display that nothing holds on in the active session has an
      infinite timeout or goes off within the timeout in force, although the timer and its alarms are
      shared by all sessions, whatever the order in which they are told. */
  lemma ActiveGoesOffInTime(o: Options, actions: seq<Action>, order: seq<string>)
    requires o.reducedOffTimeout > 0 && AllowedRun(Boot(o), actions)
    requires var h := After(Boot(o), actions);
      h.Has(h.active) && h.sessions[h.active].w.m.display == On && h.sessions[h.active].w.m.TimeoutAllowed()
      && Enumerates(order, h.sessions.Keys)
    ensures var h := After(Boot(o), actions);
      var w := h.Load(h.active);
      && (w.p.offTime == Never ==> w.p.kind == Normal && w.m.offTimeout.Get() == INFINITE)
      && (w.p.offTime != Never ==>
            && (Wait(w.p) == 0 || Wait(w.p) <= Limit(w.m, w.p.kind))
            && AllowedRun(h, OffActions(h, order))
            && var g := After(h, OffActions(h, order));
               g.active == h.active && g.Has(h.active) && g.sessions[h.active].w.m.display == Off)
  {
    hide Inv, Sane, Timely, Boot, Hub.Apply, Allowed, Configurable.Get, Wait, OffActions, Enumerates;
    var h := After(Boot(o), actions);
    BootTimely(o);
    DaemonRunKeeps(Boot(o), actions);
    DaemonRunKeepsTimely(Boot(o), actions);
    LoadIsGood(h, h.active, h.active);
    TimelyGoesOff(h.Load(h.active));
    if h.Load(h.active).p.offTime != Never { ActiveTurnsOff(h, order); }
  }
}
