/** The one proximity sensor that all sessions switch. */
module SharedSensor {
  import opened Alarms
  import opened Plans
  import opened PowerModel
  import opened PowerInvariants
  import opened PowerEffects
  import opened PowerTheorems
  import opened PowerChanges
  import opened Sessions
  import Routing

  /** The session has a reason for proximity events. */
  predicate Reason(h: Hub, id: string) {
    h.Has(id) && h.sessions[id].w.m.ProximityEnabled()
  }

  /** It will have one once it has handled the event. */
  predicate Will(h: Hub, id: string, e: Event) {
    h.Has(id) && ReasonAfter(h.Load(id), e)
  }

  /** The event is its first reason, or ends its last. */
  predicate Turns(h: Hub, id: string, e: Event) {
    Will(h, id, e) != Reason(h, id)
  }

  /** The sensor is on exactly when the active session has a reason. */
  predicate SensorAgrees(h: Hub) {
    h.sensor == Reason(h, h.active)
  }

  /** A session that is not active would begin its first reason while the active one has none, or
      end its last while the active one has some. */
  predicate Disturbs(h: Hub, id: string, e: Event) {
    id != h.active && Turns(h, id, e) && Will(h, id, e) != Reason(h, h.active)
  }

  /** What one session's handling of the event leaves of reasons and sensor. */
  ghost predicate Heard(h: Hub, g: Hub, id: string, e: Event) {
    && g.active == h.active
    && (forall j :: Reason(g, j) == if j == id then Will(h, id, e) else Reason(h, j))
    && g.sensor == if Turns(h, id, e) then Will(h, id, e) else h.sensor
  }

  lemma OnIsHeard(h: Hub, id: string, e: Event)
    requires e != Pausing && e != Resuming
    ensures Heard(h, h.On(id, e), id, e)
  {
    hide Step, ReasonAfter, Machine.ProximityEnabled, Blocks, SameFlags, Forgets, Defers;
    if h.Has(id) {
      EventEffects(h.Load(id), e);
    }
  }

  lemma AlarmIsHeard(h: Hub, id: string, alarm: AlarmId)
    ensures Heard(h, h.AlarmAt(id, alarm), id, AlarmEvent(alarm))
  {
    hide World.HandleAlarm, ReasonAfter, Machine.ProximityEnabled, Timely, Defers, Forgets;
    if h.Has(id) {
      AlarmChanges(h.Load(id), alarm);
      SameReason(h.Load(id).m, Deferring(h.Load(id)).m);
    }
  }

  lemma HeardAgrees(h: Hub, g: Hub, id: string, e: Event)
    requires SensorAgrees(h) && Heard(h, g, id, e)
    ensures SensorAgrees(g) <==> !Disturbs(h, id, e)
  {
    hide Reason, Will;
  }

  /** One session handles one event: the sensor still agrees with the active session if and only
      if no other session's first or last reason contradicts it. */
  lemma DispatchAgrees(h: Hub, id: string, e: Event)
    requires SensorAgrees(h) && e != Pausing && e != Resuming
    ensures SensorAgrees(h.On(id, e)) <==> !Disturbs(h, id, e)
  {
    hide Hub.On, SensorAgrees, Disturbs, Heard;
    OnIsHeard(h, id, e);
    HeardAgrees(h, h.On(id, e), id, e);
  }

  // ---------- Several sessions in a row ----------

  predicate NoDuplicates(ids: seq<string>) {
    forall i, j :: 0 <= i < j < |ids| ==> ids[i] != ids[j]
  }

  /** The last session in the row for which the event is the first reason or ends the last. */
  predicate LastTurn(h: Hub, ids: seq<string>, e: Event, k: int) {
    && 0 <= k < |ids| && Turns(h, ids[k], e)
    && forall j :: k < j < |ids| ==> !Turns(h, ids[j], e)
  }

  /** Whether the active session will have a reason once all in the row have handled the event. */
  predicate ActiveWill(h: Hub, ids: seq<string>, e: Event) {
    if h.active in ids then Will(h, h.active, e) else Reason(h, h.active)
  }

  /** The last one to turn contradicts the active one. */
  ghost predicate Contradicts(h: Hub, ids: seq<string>, e: Event) {
    exists k :: LastTurn(h, ids, e, k) && Will(h, ids[k], e) != ActiveWill(h, ids, e)
  }

  /** What is to come of an event does not depend on what others did to the shared things. */
  lemma ReasonAfterAside(w: World, v: World, e: Event)
    requires v.m == w.m && v.p == w.p.(clock := v.p.clock)
    ensures ReasonAfter(v, e) == ReasonAfter(w, e)
  {
    hide Machine.ProximityEnabled, AfterCall, OtherReasons, AfterNotification;
  }

  lemma WillStays(h: Hub, g: Hub, id: string, e: Event)
    requires (id in h.sessions) == (id in g.sessions) && (id in h.sessions ==> g.sessions[id] == h.sessions[id])
    ensures Will(g, id, e) == Will(h, id, e) && Reason(g, id) == Reason(h, id)
  {
    hide Machine.ProximityEnabled, ReasonAfter;
    if h.Has(id) { ReasonAfterAside(h.Load(id), g.Load(id), e); }
  }

  /** What a row of sessions has done to the machines and their reasons, */
  ghost predicate RowReasons(h: Hub, g: Hub, ids: seq<string>, e: Event) {
    && g.active == h.active
    && (forall j :: j !in ids ==>
          (j in g.sessions) == (j in h.sessions) && (j in h.sessions ==> g.sessions[j] == h.sessions[j]))
    && (forall j :: Reason(g, j) == if j in ids then Will(h, j, e) else Reason(h, j))
  }

  /** and to the sensor. */
  ghost predicate RowSensor(h: Hub, g: Hub, ids: seq<string>, e: Event) {
    && (forall k :: 0 <= k < |ids| && LastTurn(h, ids, e, k) ==> g.sensor == Will(h, ids[k], e))
    && ((forall k :: 0 <= k < |ids| ==> !Turns(h, ids[k], e)) ==> g.sensor == h.sensor)
  }

  lemma OnLeavesOthers(h: Hub, id: string, e: Event)
    ensures forall j :: j != id ==>
      (j in h.On(id, e).sessions) == (j in h.sessions)
      && (j in h.sessions ==> h.On(id, e).sessions[j] == h.sessions[j])
  {
    hide Step;
  }

  lemma {:induction false} RowIsDone(h: Hub, ids: seq<string>, e: Event)
    requires e != Pausing && e != Resuming && NoDuplicates(ids)
    ensures RowReasons(h, h.ToSessions(ids, e), ids, e) && RowSensor(h, h.ToSessions(ids, e), ids, e)
  {
    hide Hub.On, Reason, Will, Turns, RowSensor;
    if ids == [] {
      NoTurn(h, e);
    } else {
      var init, last := ids[..|ids| - 1], ids[|ids| - 1];
      var g := h.ToSessions(init, e);
      RowIsDone(h, init, e);
      OnIsHeard(g, last, e);
      OnLeavesOthers(g, last, e);
      WillStays(h, g, last, e);
      assert ids == init + [last];
      OneMoreReason(h, g, g.On(last, e), init, last, e);
      TurnsAlike(g, h, last, e);
      OneMoreTurn(h, g, g.On(last, e), init, last, e);
    }
  }

  lemma NoTurn(h: Hub, e: Event)
    ensures RowSensor(h, h, [], e)
  {
  }

  lemma OneMoreReason(h: Hub, g: Hub, g': Hub, init: seq<string>, last: string, e: Event)
    requires RowReasons(h, g, init, e) && last !in init && Heard(g, g', last, e)
    requires Will(g, last, e) == Will(h, last, e)
    requires forall j :: j != last ==>
      (j in g'.sessions) == (j in g.sessions) && (j in g.sessions ==> g'.sessions[j] == g.sessions[j])
    ensures RowReasons(h, g', init + [last], e)
  {
    hide Reason, Will, Turns;
    assert forall j :: j in init + [last] <==> j in init || j == last;
  }

  lemma OneMoreTurn(h: Hub, g: Hub, g': Hub, init: seq<string>, last: string, e: Event)
    requires RowSensor(h, g, init, e)
    requires g'.sensor == if Turns(h, last, e) then Will(h, last, e) else g.sensor
    ensures RowSensor(h, g', init + [last], e)
  {
    hide Reason, Will, LastTurn, Turns;
    var ids := init + [last];
    forall k | 0 <= k < |ids| && LastTurn(h, ids, e, k) ensures g'.sensor == Will(h, ids[k], e) {
      LastTurnOfMore(h, init, last, e, k);
    }
    if forall k :: 0 <= k < |ids| ==> !Turns(h, ids[k], e) {
      forall k | 0 <= k < |init| ensures !Turns(h, init[k], e) { assert init[k] == ids[k]; }
      assert ids[|init|] == last;
    }
  }

  lemma TurnsAlike(g: Hub, h: Hub, id: string, e: Event)
    requires Will(g, id, e) == Will(h, id, e) && Reason(g, id) == Reason(h, id)
    ensures Turns(g, id, e) == Turns(h, id, e)
  {
  }

  lemma LastTurnOfMore(h: Hub, init: seq<string>, last: string, e: Event, k: int)
    requires LastTurn(h, init + [last], e, k)
    ensures if k == |init| then Turns(h, last, e) else LastTurn(h, init, e, k) && !Turns(h, last, e)
    ensures (init + [last])[k] == if k == |init| then last else init[k]
  {
    hide Turns;
    var ids := init + [last];
    if k < |init| {
      assert ids[|init|] == last;
      forall j | k < j < |init| ensures !Turns(h, init[j], e) { assert ids[j] == init[j]; }
    }
  }

  /** A last one to turn exists as soon as one turns. */
  lemma {:induction false} SomeLastTurn(h: Hub, ids: seq<string>, e: Event, k: nat) returns (l: int)
    requires k < |ids| && Turns(h, ids[k], e)
    ensures LastTurn(h, ids, e, l)
    decreases |ids| - k
  {
    hide Turns;
    if j :| k < j < |ids| && Turns(h, ids[j], e) {
      l := SomeLastTurn(h, ids, e, j);
    } else {
      l := k;
    }
  }

  lemma OneLastTurn(h: Hub, ids: seq<string>, e: Event, l: int, m: int)
    requires LastTurn(h, ids, e, l) && LastTurn(h, ids, e, m)
    ensures l == m
  {
    hide Turns;
  }

  /** Several sessions, each once: the sensor agrees afterwards unless the last one whose reasons
      begin or end contradicts the active one. */
  lemma ToSessionsAgrees(h: Hub, ids: seq<string>, e: Event)
    requires SensorAgrees(h) && e != Pausing && e != Resuming && NoDuplicates(ids)
    ensures SensorAgrees(h.ToSessions(ids, e)) <==> !Contradicts(h, ids, e)
  {
    hide Hub.ToSessions, Reason, Will;
    RowIsDone(h, ids, e);
    if k :| 0 <= k < |ids| && Turns(h, ids[k], e) {
      var l := SomeLastTurn(h, ids, e, k);
      forall m | LastTurn(h, ids, e, m) ensures m == l {
        OneLastTurn(h, ids, e, l, m);
      }
    }
  }

  // ---------- Switching sessions ----------

  lemma PauseSilences(h: Hub)
    requires h.Has(h.active) || SensorAgrees(h)
    ensures var g := h.On(h.active, Pausing);
      !g.sensor && g.active == h.active && g.sessions.Keys == h.sessions.Keys
    ensures forall j :: Reason(h.On(h.active, Pausing), j) == Reason(h, j)
  {
    hide Step, Machine.ProximityEnabled, Blocks, SameFlags, Forgets, Defers;
    if h.Has(h.active) {
      EventEffects(h.Load(h.active), Pausing);
    }
  }

  lemma ResumeListens(h: Hub, id: string)
    requires !h.sensor
    ensures h.On(id, Resuming).sensor == Reason(h.On(id, Resuming), id)
  {
    hide Step, Machine.ProximityEnabled, Blocks, SameFlags, Forgets, Defers;
    if h.Has(id) {
      EventEffects(h.Load(id), Resuming);
    }
  }

  lemma NewSessionListens(h: Hub, id: string, battery: bool)
    requires !h.sensor
    ensures h.NewSession(id, battery).sensor == Reason(h.NewSession(id, battery), id)
  {
    hide Step, Hub.On;
    var g := h.Store(id, h.Fresh());
    assert !Reason(g, id) && !g.sensor;
    OnIsHeard(g, id, Starting(battery));
  }

  /** Activating a session sets the sensor right, whatever happened to it before, unless nobody
      was active to switch it off. */
  lemma ActivationAgrees(h: Hub, id: string, compatible: bool, battery: bool)
    requires HubInv(h) && (h.Has(h.active) || SensorAgrees(h))
    ensures SensorAgrees(h.Activate(id, compatible, battery))
  {
    hide Inv, Disjoint, Hub.On, Hub.NewSession, Machine.ProximityEnabled;
    PauseSilences(h);
    var g := h.On(h.active, Pausing);
    if !compatible {
      NobodyHasNoReason(h, g);
    } else if id in g.sessions {
      ResumeListens(g, id);
    } else {
      NewSessionListens(g, id, battery);
    }
  }

  lemma NobodyHasNoReason(h: Hub, g: Hub)
    requires HubInv(h) && forall j :: Reason(g, j) == Reason(h, j)
    ensures !Reason(g, NOBODY)
  {
    hide Inv, Disjoint, Machine.ProximityEnabled;
    assert h.sessions[NOBODY] == Null;
  }

  lemma RemovalAgrees(h: Hub, id: string)
    requires HubInv(h) && SensorAgrees(h) && id != NOBODY
    ensures SensorAgrees(h.Remove(id))
  {
    hide Inv, Disjoint, Hub.On, Machine.ProximityEnabled;
    if id in h.sessions && h.active == id {
      PauseSilences(h);
      NobodyHasNoReason(h, h.On(h.active, Pausing));
    }
  }

  // ---------- Every action ----------

  /** A call is noted once for each session. */
  lemma CallsStayDistinct(h: Hub, a: Action)
    requires NoDuplicates(h.calls)
    ensures NoDuplicates(h.Apply(a).calls)
  {
    hide Hub.Apply;
    Routing.CallsExactly(h, a);
  }

  /** When an action of the daemon makes the shared sensor disagree, told before it is carried out. */
  ghost predicate DisturbsSensor(h: Hub, a: Action) {
    match a
    case ToClients(ids, e) => Contradicts(h, ids, e)
    case CallEnds(far) => Contradicts(h, h.calls, NoActiveCall(far))
    case AlarmArrives(_, alarm) =>
      exists owner :: OwnedBy(h, owner, alarm) && Disturbs(h, owner, AlarmEvent(alarm))
    case _ => false
  }

  lemma AlarmArrivesAgrees(h: Hub, order: seq<string>, alarm: AlarmId)
    requires HubInv(h) && alarm in h.clock.fired && Enumerates(order, h.sessions.Keys) && SensorAgrees(h)
    ensures SensorAgrees(h.AlarmTo(order, alarm).Deliver(alarm)) <==> !DisturbsSensor(h, AlarmArrives(order, alarm))
  {
    hide Sane, Hub.AlarmAt, Disturbs, Heard, Plan.Owns;
    if owner :| OwnedBy(h, owner, alarm) {
      FiredIsIssued(h, alarm);
      BroadcastIsOwners(h, order, owner, alarm);
      AlarmIsHeard(h, owner, alarm);
      HeardAgrees(h, h.AlarmAt(owner, alarm), owner, AlarmEvent(alarm));
      forall other | OwnedBy(h, other, alarm) ensures other == owner {
        OneOwner(h, h.active, owner, other, alarm);
      }
    } else {
      AlarmReachesNobody(h, h.active, order, alarm);
    }
  }

  /** The shared sensor agrees with the active session after an action of the daemon if and only if
      that action does not make a session that is not active end its last reason while the active
      one has one, or begin a first one while it has none, and leave it at that. The condition is
      read off the sessions' flags before the action. */
  lemma SensorAgreesUnlessDisturbed(h: Hub, a: Action)
    requires HubInv(h) && Allowed(h, a) && SensorAgrees(h)
    requires NoDuplicates(h.calls) && (a.ToClients? ==> NoDuplicates(a.ids))
    ensures SensorAgrees(h.Apply(a)) <==> !DisturbsSensor(h, a)
  {
    hide Sane, Hub.On, Hub.Activate, Hub.Remove, Hub.ToSessions, Hub.AlarmTo, Contradicts, Machine.ProximityEnabled;
    match a
    case SessionActivated(id, compatible, battery) => ActivationAgrees(h, id, compatible, battery);
    case SessionRemoved(id) => RemovalAgrees(h, id);
    case ToActive(e) => DispatchAgrees(h, h.active, e);
    case ToClients(ids, e) => ToSessionsAgrees(h, ids, e);
    case CallBegins(far) =>
      DispatchAgrees(if h.active in h.calls then h else h.(calls := h.calls + [h.active]), h.active, ActiveCall(far));
    case CallEnds(far) => ToSessionsAgrees(h, h.calls, NoActiveCall(far));
    case AlarmArrives(order, alarm) => AlarmArrivesAgrees(h, order, alarm);
    case ClockTicks(_) =>
    case AlarmGoesOff(_) =>
  }

  /** How it fails: a session left after a call still waits for its proximity timeout; when that
      comes while another session is in a call, the sensor goes off under that call. */
  lemma PausedTimeoutSilencesCall(h: Hub, order: seq<string>, id: string)
    requires HubInv(h) && SensorAgrees(h) && Reason(h, h.active)
    requires h.Has(id) && id != h.active && h.sessions[id].w.p.proximity in h.clock.fired
    requires var m := h.sessions[id].w.m;
      m.proximityUntilFarOrTimeout && !m.proximityUntilDisabled && !m.proximityUntilFarOrExpiration
    requires Enumerates(order, h.sessions.Keys)
    ensures var g := h.Apply(AlarmArrives(order, h.sessions[id].w.p.proximity));
      Reason(g, g.active) && !g.sensor
  {
    hide Inv, Sane, Hub.AlarmAt, Plan.Valid, Heard;
    var alarm := h.sessions[id].w.p.proximity;
    LoadIsGood(h, id, h.active);
    SoundPlan(h.Load(id));
    AlarmSlots(h.Load(id).p, alarm);
    BroadcastIsOwners(h, order, id, alarm);
    AlarmIsHeard(h, id, alarm);
    HeardSilenced(h, h.AlarmAt(id, alarm), id, AlarmEvent(alarm));
  }

  lemma HeardSilenced(h: Hub, g: Hub, id: string, e: Event)
    requires Heard(h, g, id, e) && Reason(h, id) && !Will(h, id, e) && Reason(h, h.active) && id != h.active
    ensures Reason(g, g.active) && !g.sensor
  {
    hide Reason, Will;
  }
}
