/** All sessions of the daemon on one shared timer, and how events are routed to them. */
module Sessions {
  import opened Alarms
  import opened Plans
  import opened PowerModel
  import opened PowerInvariants
  import opened PowerEffects
  import opened PowerTheorems

  // The session that stands for "no session": its machine ignores everything.
  const NOBODY: string := ""

  /** A session's machine; it is kept without the clock, the sensor and the suspend block, which all of
      them share. */
  datatype Slot = Null | Real(w: World)

  /** The same machine on this clock, with the shared sensor and suspend block like this. */
  function Placed(w: World, clock: Clock, sensor: bool, block: bool): World {
    w.(p := w.p.(clock := clock), out := w.out.(sensor := sensor, block := block))
  }

  datatype Hub = Hub(
    options: Options,
    sessions: map<string, Slot>,
    active: string,
    calls: seq<string>,
    clock: Clock,
    sensor: bool,
    block: bool)
  {
    predicate Has(id: string) {
      id in sessions && sessions[id].Real?
    }

    function Load(id: string): World
      requires Has(id)
    {
      Placed(sessions[id].w, clock, sensor, block)
    }

    function Store(id: string, w: World): Hub {
      this.(
        sessions := sessions[id := Real(Placed(w, START_OF_TIME, false, false))],
        clock := w.p.clock,
        sensor := w.out.sensor,
        block := w.out.block)
    }

    /** The session handles the event, if there is such a session. */
    function On(id: string, e: Event): Hub {
      if Has(id) then Store(id, Step(Load(id), e)) else this
    }

    function ToSessions(ids: seq<string>, e: Event): Hub {
      if ids == [] then this else ToSessions(ids[..|ids| - 1], e).On(ids[|ids| - 1], e)
    }

    /** The session hears of an alarm, its own or not. */
    function AlarmAt(id: string, alarm: AlarmId): Hub {
      if Has(id) then Store(id, Load(id).HandleAlarm(alarm)) else this
    }

    function AlarmTo(ids: seq<string>, alarm: AlarmId): Hub {
      if ids == [] then this else AlarmTo(ids[..|ids| - 1], alarm).AlarmAt(ids[|ids| - 1], alarm)
    }

    function Deliver(alarm: AlarmId): Hub {
      this.(clock := clock.Delivered(alarm))
    }

    /** A machine nothing has happened to yet. */
    function Fresh(): World {
      World(NewMachine(options), NoPlan(options.dimDuration, clock), NO_OUTPUTS.(sensor := sensor, block := block))
    }

    function NewSession(id: string, battery: bool): Hub {
      Store(id, Fresh()).On(id, Starting(battery))
    }

    function Activate(id: string, compatible: bool, battery: bool): Hub {
      var h := On(active, Pausing);
      if !compatible then h.(active := NOBODY)
      else if id in h.sessions then h.On(id, Resuming).(active := id)
      else h.NewSession(id, battery).(active := id)
    }

    function Remove(id: string): Hub {
      if id !in sessions then this
      else
        var h := if active == id then On(active, Pausing).(active := NOBODY) else this;
        h.(sessions := h.sessions - {id})
    }

    function CallBegins(far: bool): Hub {
      var h := if active in calls then this else this.(calls := calls + [active]);
      h.On(active, ActiveCall(far))
    }

    function Apply(a: Action): Hub {
      match a
      case SessionActivated(id, compatible, battery) => Activate(id, compatible, battery)
      case SessionRemoved(id) => Remove(id)
      case ToActive(e) => On(active, e)
      case ToClients(ids, e) => ToSessions(ids, e)
      case CallBegins(far) => CallBegins(far)
      case CallEnds(far) => ToSessions(calls, NoActiveCall(far))
      case AlarmArrives(order, alarm) => AlarmTo(order, alarm).Deliver(alarm)
      case ClockTicks(t) => this.(clock := clock.Advance(t))
      case AlarmGoesOff(alarm) => this.(clock := clock.Fire(alarm))
    }
  }

  datatype Action =
    | SessionActivated(id: string, compatible: bool, battery: bool)
    | SessionRemoved(removed: string)
    | ToActive(event: Event)
    | ToClients(ids: seq<string>, event: Event)
    | CallBegins(far: bool)
    | CallEnds(far: bool)
    | AlarmArrives(order: seq<string>, alarm: AlarmId)
    | ClockTicks(t: nat)
    | AlarmGoesOff(alarm: AlarmId)

  /** Events for whichever session is active. */
  predicate ForActive(e: Event) {
    !ReachesPaused(e) && !e.ActiveCall? && !e.Starting? && !e.Pausing?
  }

  /** Events for the sessions of a client. */
  predicate ForClients(e: Event) {
    ReachesPaused(e) && !e.TimePasses? && !e.AlarmFires? && !e.AlarmEvent? && !e.Resuming? && !e.NoActiveCall?
  }

  ghost predicate Enumerates(order: seq<string>, ids: set<string>) {
    && (forall i, j :: 0 <= i < j < |order| ==> order[i] != order[j])
    && (forall id :: id in order <==> id in ids)
  }

  ghost predicate Allowed(h: Hub, a: Action) {
    match a
    case SessionRemoved(id) => id != NOBODY
    case ToActive(e) => ForActive(e)
    case ToClients(_, e) => ForClients(e)
    case AlarmArrives(order, alarm) => alarm in h.clock.fired && Enumerates(order, h.sessions.Keys)
    case AlarmGoesOff(alarm) => h.clock.Due(alarm)
    case _ => true
  }

  // ---------- The invariant ----------

  predicate Good(s: Slot, clock: Clock, unpaused: bool) {
    s.Real? ==>
      && s.w.p.clock == START_OF_TIME && !s.w.out.sensor && !s.w.out.block
      && Inv(Placed(s.w, clock, false, false))
      && s.w.m.paused == !unpaused
  }

  /** No alarm is awaited by two sessions. */
  ghost predicate Disjoint(s: Slot, t: Slot) {
    s.Real? && t.Real? ==> NoneShared(s.w.p, t.w.p)
  }

  ghost predicate NoneShared(p: Plan, q: Plan) {
    forall a: AlarmId :: a != INVALID && p.Owns(a) ==> !q.Owns(a)
  }

  /** `who` is the one session that is not paused. */
  ghost predicate Sane(h: Hub, who: string) {
    && h.options.reducedOffTimeout > 0 && h.clock.Valid()
    && h.active in h.sessions && NOBODY in h.sessions
    && (forall id :: id in h.sessions ==> (h.sessions[id] == Null <==> id == NOBODY))
    && (forall id :: id in h.sessions ==> Good(h.sessions[id], h.clock, id == who))
    && (forall i, j :: i in h.sessions && j in h.sessions && i != j ==> Disjoint(h.sessions[i], h.sessions[j]))
  }

  ghost predicate HubInv(h: Hub) {
    Sane(h, h.active)
  }

  /** A neighbour's alarms: issued before, and not awaited by the session at work. */
  ghost predicate Foreign(u: Plan, p: Plan) {
    forall a: AlarmId :: a != INVALID && u.Owns(a) ==> 1 <= a < p.clock.next && !p.Owns(a)
  }

  lemma ForeignPlan(u: Plan, p: Plan)
    requires u.(clock := p.clock).Valid() && NoneShared(u, p)
    ensures Foreign(u, p)
  {
  }

  lemma PlanUnderFrame(u: Plan, p: Plan, q: Plan)
    requires u.(clock := p.clock).Valid() && Foreign(u, p)
    requires Frame(p, q) && q.clock.Valid()
    ensures u.(clock := q.clock).Valid()
  {
    assert Leaves(p, q, u.longPress) && Leaves(p, q, u.dim) && Leaves(p, q, u.off);
    assert Leaves(p, q, u.suspend) && Leaves(p, q, u.proximity) && Leaves(p, q, u.expiration);
  }

  lemma StillNoneShared(u: Plan, p: Plan, q: Plan)
    requires Foreign(u, p) && Frame(p, q)
    ensures NoneShared(u, q) && NoneShared(q, u)
  {
    forall a: AlarmId | a != INVALID && u.Owns(a) ensures !q.Owns(a) {
      assert Leaves(p, q, a);
    }
  }

  /** Only the plan in the invariant looks at the clock, and nothing in it at what is shared besides. */
  lemma InvPlaced(w: World, c: Clock, sensor: bool, block: bool)
    requires Inv(w) && w.p.(clock := c).Valid()
    ensures Inv(Placed(w, c, sensor, block))
  {
    hide Plan.Valid, ProperLog;
  }

  lemma PlanOf(w: World)
    requires Inv(w)
    ensures w.p.Valid() && w.p.clock.Valid()
  {
  }

  /** A handler call in one session leaves every other session as it was. */
  lemma NeighbourKeeps(u: World, p: Plan, q: Plan)
    requires Inv(Placed(u, p.clock, false, false)) && NoneShared(u.p, p)
    requires Frame(p, q) && q.clock.Valid()
    ensures Inv(Placed(u, q.clock, false, false)) && NoneShared(u.p, q) && NoneShared(q, u.p)
  {
    hide Inv, Plan.Valid, Frame, NoneShared, Foreign;
    PlanOf(Placed(u, p.clock, false, false));
    assert u.p.(clock := p.clock) == Placed(u, p.clock, false, false).p;
    ForeignPlan(u.p, p);
    PlanUnderFrame(u.p, p, q);
    StillNoneShared(u.p, p, q);
    InvPlaced(Placed(u, p.clock, false, false), q.clock, false, false);
    assert Placed(Placed(u, p.clock, false, false), q.clock, false, false) == Placed(u, q.clock, false, false);
  }

  // ---------- Every action keeps the invariant ----------

  /** The two say the same about everybody but `id`. */
  predicate SameFor(h: Hub, id: string, who: string, now: string) {
    forall j :: j in h.sessions && j != id && h.Has(j) ==> (j == who <==> j == now)
  }

  lemma SharedAside(w: World, c: Clock, sensor: bool, block: bool)
    requires Inv(Placed(w, c, false, false))
    ensures Inv(Placed(w, c, sensor, block))
  {
    hide Plan.Valid, ProperLog;
  }

  lemma LoadIsGood(h: Hub, id: string, who: string)
    requires Sane(h, who) && h.Has(id)
    ensures var w := h.Load(id);
      && Inv(w) && w.m.paused == (id != who) && w.p.clock == h.clock && id != NOBODY
      && h.sessions[id].w.p.clock == START_OF_TIME
  {
    hide Inv, Disjoint;
    assert Good(h.sessions[id], h.clock, id == who);
    SharedAside(h.sessions[id].w, h.clock, h.sensor, h.block);
  }

  lemma NeighbourGood(h: Hub, id: string, j: string, v: World, who: string, now: string)
    requires Sane(h, who) && h.Has(id) && j in h.sessions && j != id
    requires Inv(v) && Frame(h.Load(id).p, v.p) && SameFor(h, id, who, now)
    ensures Good(h.sessions[j], v.p.clock, j == now)
    ensures h.Has(j) ==> NoneShared(h.sessions[j].w.p, v.p) && NoneShared(v.p, h.sessions[j].w.p)
  {
    hide Inv, Frame, NoneShared;
    assert Good(h.sessions[j], h.clock, j == who);
    if h.Has(j) {
      assert Disjoint(h.sessions[j], h.sessions[id]);
      SharedDespiteClock(h.sessions[j].w.p, h.sessions[id].w.p, h.clock);
      PlanOf(v);
      NeighbourKeeps(h.sessions[j].w, h.Load(id).p, v.p);
    }
  }

  lemma SharedDespiteClock(p: Plan, q: Plan, c: Clock)
    requires NoneShared(p, q)
    ensures NoneShared(p, q.(clock := c)) && NoneShared(p.(clock := c), q)
  {
    forall a: AlarmId | a != INVALID && p.(clock := c).Owns(a) ensures !q.Owns(a) {
      assert p.Owns(a);
    }
  }

  /** The result of one session's handler call takes its place among the others. */
  lemma StoreKeeps(h: Hub, id: string, v: World, who: string, now: string)
    requires Sane(h, who) && h.Has(id)
    requires Inv(v) && Frame(h.Load(id).p, v.p)
    requires SameFor(h, id, who, now) && v.m.paused == (id != now)
    ensures Sane(h.Store(id, v), now)
  {
    hide Inv, Frame, Disjoint, Good, SameFor;
    LoadIsGood(h, id, who);
    PlanOf(v);
    StoredAllGood(h, id, v, who, now);
    StoredAllDisjoint(h, id, v, who, now);
  }

  lemma StoredAllGood(h: Hub, id: string, v: World, who: string, now: string)
    requires Sane(h, who) && h.Has(id)
    requires Inv(v) && Frame(h.Load(id).p, v.p)
    requires SameFor(h, id, who, now) && v.m.paused == (id != now)
    ensures forall j :: j in h.sessions ==> Good(h.Store(id, v).sessions[j], v.p.clock, j == now)
  {
    hide Inv, Frame, Disjoint, Good, SameFor, Sane;
    forall j | j in h.sessions ensures Good(h.Store(id, v).sessions[j], v.p.clock, j == now) {
      StoredGood(h, id, j, v, who, now);
    }
  }

  lemma StoredAllDisjoint(h: Hub, id: string, v: World, who: string, now: string)
    requires Sane(h, who) && h.Has(id)
    requires Inv(v) && Frame(h.Load(id).p, v.p) && SameFor(h, id, who, now)
    ensures var g := h.Store(id, v);
      forall i, j :: i in g.sessions && j in g.sessions && i != j ==> Disjoint(g.sessions[i], g.sessions[j])
  {
    hide Inv, Frame, Disjoint, Good, SameFor;
    var g := h.Store(id, v);
    forall i, j | i in g.sessions && j in g.sessions && i != j ensures Disjoint(g.sessions[i], g.sessions[j]) {
      if i == id {
        StoredDisjoint(h, id, j, v, who, now);
      } else if j == id {
        StoredDisjoint(h, id, i, v, who, now);
      }
    }
  }

  lemma StoredGood(h: Hub, id: string, j: string, v: World, who: string, now: string)
    requires Sane(h, who) && h.Has(id) && j in h.sessions
    requires Inv(v) && Frame(h.Load(id).p, v.p)
    requires SameFor(h, id, who, now) && v.m.paused == (id != now)
    ensures Good(h.Store(id, v).sessions[j], v.p.clock, j == now)
  {
    hide Inv, Frame, Good, Sane, SameFor;
    if j == id { StoredIsGood(v, id == now); } else { NeighbourGood(h, id, j, v, who, now); }
  }

  lemma StoredDisjoint(h: Hub, id: string, j: string, v: World, who: string, now: string)
    requires Sane(h, who) && h.Has(id) && j in h.sessions && j != id
    requires Inv(v) && Frame(h.Load(id).p, v.p) && SameFor(h, id, who, now)
    ensures var s := Real(Placed(v, START_OF_TIME, false, false));
      Disjoint(s, h.sessions[j]) && Disjoint(h.sessions[j], s)
  {
    hide Inv, Frame, Good, NoneShared, Sane, SameFor;
    NeighbourGood(h, id, j, v, who, now);
    if h.Has(j) {
      SharedDespiteClock(v.p, h.sessions[j].w.p, START_OF_TIME);
      SharedDespiteClock(h.sessions[j].w.p, v.p, START_OF_TIME);
    }
  }

  lemma StoredIsGood(v: World, unpaused: bool)
    requires Inv(v) && v.m.paused == !unpaused
    ensures Good(Real(Placed(v, START_OF_TIME, false, false)), v.p.clock, unpaused)
  {
    hide Inv;
    PlanOf(v);
    assert v.p.(clock := v.p.clock) == v.p;
    InvPlaced(v, v.p.clock, false, false);
    assert Placed(Placed(v, START_OF_TIME, false, false), v.p.clock, false, false)
      == Placed(v, v.p.clock, false, false);
  }

  predicate Handled(e: Event) {
    !e.TimePasses? && !e.AlarmFires? && !e.AlarmEvent?
  }

  /** What a possible handler call does, as its neighbours see it. */
  lemma HandlerCall(w: World, e: Event)
    requires Inv(w) && Possible(w, e) && Handled(e)
    ensures Inv(Step(w, e)) && Frame(w.p, Step(w, e).p)
    ensures Step(w, e).m.paused == (e == Pausing || (w.m.paused && e != Resuming))
  {
    hide Inv, Frame, Stale, Possible, World.Pause, World.Resume;
    StepKeeps(w, e);
    EveryEventActsAs(w, e);
    IsReady(w);
    if e == Pausing { PauseDoes(w); }
    if e == Resuming { ResumeDoes(w); }
  }

  /** One session handles an event; `now` is unpaused afterwards. */
  lemma OnKeeps(h: Hub, id: string, e: Event, who: string, now: string)
    requires Sane(h, who) && Handled(e)
    requires h.Has(id) ==> id == who || ReachesPaused(e)
    requires h.Has(id) ==> SameFor(h, id, who, now)
    requires h.Has(id) ==> (id == now <==> (if e == Pausing then false else if e == Resuming then true else id == who))
    requires !h.Has(id) ==> now == who
    ensures Sane(h.On(id, e), now)
  {
    hide Inv, Frame, Sane, Step, SameFor;
    if h.Has(id) {
      LoadIsGood(h, id, who);
      HandlerCall(h.Load(id), e);
      StoreKeeps(h, id, Step(h.Load(id), e), who, now);
    }
  }

  lemma PauseActiveKeeps(h: Hub)
    requires HubInv(h)
    ensures Sane(h.On(h.active, Pausing), NOBODY)
    ensures h.On(h.active, Pausing).sessions.Keys == h.sessions.Keys
  {
    hide Good, Disjoint, Step;
    OnKeeps(h, h.active, Pausing, h.active, NOBODY);
  }

  lemma FreshKeeps(h: Hub)
    requires h.options.reducedOffTimeout > 0 && h.clock.Valid()
    ensures Inv(h.Fresh())
  {
  }

  /** A new session joins. */
  lemma JoinKeeps(h: Hub, id: string)
    requires Sane(h, NOBODY) && id !in h.sessions
    ensures Sane(h.Store(id, h.Fresh()), id)
  {
    hide Inv, Disjoint;
    var v := h.Fresh();
    var g := h.Store(id, v);
    FreshKeeps(h);
    StoredIsGood(v, true);
    forall j | j in h.sessions ensures Good(g.sessions[j], g.clock, j == id) {
      assert Good(h.sessions[j], h.clock, j == NOBODY);
    }
    forall j | j in h.sessions
      ensures Disjoint(g.sessions[id], h.sessions[j]) && Disjoint(h.sessions[j], g.sessions[id])
    {
      AwaitsNothing(h.sessions[j], g.sessions[id]);
    }
  }

  lemma AwaitsNothing(s: Slot, t: Slot)
    requires t.Real? && forall a: AlarmId :: t.w.p.Owns(a) ==> a == INVALID
    ensures Disjoint(s, t) && Disjoint(t, s)
  {
  }

  lemma NewSessionKeeps(h: Hub, id: string, battery: bool)
    requires Sane(h, NOBODY) && id !in h.sessions
    ensures Sane(h.NewSession(id, battery), id)
  {
    hide Sane, Step, NewMachine, NoPlan;
    JoinKeeps(h, id);
    var g := h.Store(id, h.Fresh());
    OnKeeps(g, id, Starting(battery), id, id);
  }

  lemma ActivateKeeps(h: Hub, id: string, compatible: bool, battery: bool)
    requires HubInv(h)
    ensures HubInv(h.Activate(id, compatible, battery))
  {
    hide Good, Disjoint, Step, Hub.NewSession, Hub.On;
    PauseActiveKeeps(h);
    var g := h.On(h.active, Pausing);
    if compatible && id in g.sessions {
      OnKeeps(g, id, Resuming, NOBODY, if g.Has(id) then id else NOBODY);
      OnKeepsKeys(g, id, Resuming);
    } else if compatible {
      NewSessionKeeps(g, id, battery);
      NewSessionKeys(g, id, battery);
    }
  }

  lemma OnKeepsKeys(h: Hub, id: string, e: Event)
    ensures h.On(id, e).sessions.Keys == h.sessions.Keys && h.On(id, e).active == h.active
  {
    hide Step;
  }

  lemma NewSessionKeys(h: Hub, id: string, battery: bool)
    ensures id in h.NewSession(id, battery).sessions
  {
    hide Step;
  }

  lemma RemoveKeeps(h: Hub, id: string)
    requires HubInv(h) && id != NOBODY
    ensures HubInv(h.Remove(id))
  {
    hide Good, Disjoint, Step, Hub.On;
    if h.active == id {
      PauseActiveKeeps(h);
    }
  }

  lemma {:induction false} ToSessionsKeeps(h: Hub, ids: seq<string>, e: Event)
    requires HubInv(h) && Handled(e) && ReachesPaused(e) && e != Resuming
    ensures HubInv(h.ToSessions(ids, e)) && h.ToSessions(ids, e).active == h.active
  {
    hide Good, Disjoint, Step, Hub.On;
    if ids != [] {
      var g := h.ToSessions(ids[..|ids| - 1], e);
      ToSessionsKeeps(h, ids[..|ids| - 1], e);
      OnKeeps(g, ids[|ids| - 1], e, g.active, g.active);
      OnKeepsKeys(g, ids[|ids| - 1], e);
    }
  }

  lemma ActiveKeeps(h: Hub, e: Event)
    requires HubInv(h) && Handled(e) && e != Pausing && e != Resuming
    ensures HubInv(h.On(h.active, e))
  {
    hide Good, Disjoint, Step, Hub.On;
    OnKeeps(h, h.active, e, h.active, h.active);
    OnKeepsKeys(h, h.active, e);
  }

  // ---------- Alarms ----------

  ghost predicate OwnedBy(h: Hub, id: string, alarm: AlarmId) {
    h.Has(id) && h.sessions[id].w.p.Owns(alarm)
  }

  lemma OneOwner(h: Hub, who: string, i: string, j: string, alarm: AlarmId)
    requires Sane(h, who) && OwnedBy(h, i, alarm) && OwnedBy(h, j, alarm) && alarm != INVALID
    ensures i == j
  {
    hide Good;
    assert i == j || Disjoint(h.sessions[i], h.sessions[j]);
  }

  /** Whoever does not await the alarm is not affected. */
  lemma DeafToOthers(h: Hub, who: string, id: string, alarm: AlarmId)
    requires Sane(h, who) && !OwnedBy(h, id, alarm)
    ensures h.AlarmAt(id, alarm) == h
  {
    hide Inv, Disjoint, World.HandleAlarm;
    if h.Has(id) {
      LoadIsGood(h, id, who);
      UnknownAlarm(h.Load(id), alarm);
      assert Placed(h.Load(id), START_OF_TIME, false, false) == h.sessions[id].w;
    }
  }

  /** Only the slot of `id` is its own: hearing of an alarm at another place changes nothing here. */
  lemma DeafAfter(h: Hub, who: string, owner: string, id: string, alarm: AlarmId)
    requires Sane(h, who) && OwnedBy(h, owner, alarm) && alarm != INVALID && id != owner
    ensures h.AlarmAt(owner, alarm).AlarmAt(id, alarm) == h.AlarmAt(owner, alarm)
  {
    hide Inv, Disjoint, World.HandleAlarm;
    var g := h.AlarmAt(owner, alarm);
    if h.Has(id) {
      if OwnedBy(h, id, alarm) { OneOwner(h, who, owner, id, alarm); }
      LoadIsGood(h, id, who);
      UnknownAlarm(g.Load(id), alarm);
      assert Placed(g.Load(id), START_OF_TIME, false, false) == g.sessions[id].w;
      assert g.sessions[id := g.sessions[id]] == g.sessions;
    }
  }

  /** Telling all sessions of an alarm, in whatever order, tells its owner. */
  lemma {:induction false} AlarmReachesOwner(h: Hub, who: string, ids: seq<string>, owner: string, alarm: AlarmId)
    requires Sane(h, who) && alarm != INVALID && OwnedBy(h, owner, alarm)
    requires forall i, j :: 0 <= i < j < |ids| ==> ids[i] != ids[j]
    ensures h.AlarmTo(ids, alarm) == if owner in ids then h.AlarmAt(owner, alarm) else h
  {
    hide Sane, Hub.AlarmAt;
    if ids != [] {
      var last := ids[|ids| - 1];
      AlarmReachesOwner(h, who, ids[..|ids| - 1], owner, alarm);
      if last == owner {
        assert owner !in ids[..|ids| - 1];
      } else {
        assert owner in ids <==> owner in ids[..|ids| - 1];
        DeafAfter(h, who, owner, last, alarm);
        if OwnedBy(h, last, alarm) { OneOwner(h, who, owner, last, alarm); }
        DeafToOthers(h, who, last, alarm);
      }
    }
  }

  lemma {:induction false} AlarmReachesNobody(h: Hub, who: string, ids: seq<string>, alarm: AlarmId)
    requires Sane(h, who) && forall id :: id in ids ==> !OwnedBy(h, id, alarm)
    ensures h.AlarmTo(ids, alarm) == h
  {
    hide Sane, Hub.AlarmAt;
    if ids != [] {
      AlarmReachesNobody(h, who, ids[..|ids| - 1], alarm);
      DeafToOthers(h, who, ids[|ids| - 1], alarm);
    }
  }

  lemma DeliveredPlan(u: Plan, c: Clock, alarm: AlarmId)
    requires u.(clock := c).Valid() && !u.Owns(alarm)
    ensures u.(clock := c.Delivered(alarm)).Valid()
  {
  }

  lemma DeliveredGood(s: Slot, c: Clock, unpaused: bool, alarm: AlarmId)
    requires Good(s, c, unpaused) && (s.Real? ==> !s.w.p.Owns(alarm))
    ensures Good(s, c.Delivered(alarm), unpaused)
  {
    hide Inv, Plan.Valid, Plan.Owns;
    if s.Real? {
      PlanOf(Placed(s.w, c, false, false));
      DeliveredPlan(s.w.p, c, alarm);
      InvPlaced(Placed(s.w, c, false, false), c.Delivered(alarm), false, false);
    }
  }

  /** An alarm nobody awaits any more is forgotten. */
  lemma DeliverKeepsSane(h: Hub, who: string, alarm: AlarmId)
    requires Sane(h, who) && forall id :: !OwnedBy(h, id, alarm)
    ensures Sane(h.Deliver(alarm), who)
  {
    hide Good, Disjoint, Plan.Owns;
    forall id | id in h.sessions ensures Good(h.sessions[id], h.Deliver(alarm).clock, id == who) {
      assert !OwnedBy(h, id, alarm);
      DeliveredGood(h.sessions[id], h.clock, id == who, alarm);
    }
  }

  /** A broadcast alarm does to the daemon what its owner does with it, whatever the order in
      which the sessions are told. */
  lemma BroadcastIsOwners(h: Hub, order: seq<string>, owner: string, alarm: AlarmId)
    requires HubInv(h) && alarm in h.clock.fired && Enumerates(order, h.sessions.Keys)
    requires OwnedBy(h, owner, alarm)
    ensures h.AlarmTo(order, alarm) == h.AlarmAt(owner, alarm)
  {
    hide Good, Disjoint, Hub.AlarmAt;
    AlarmReachesOwner(h, h.active, order, owner, alarm);
  }

  lemma OwnerHandles(h: Hub, owner: string, alarm: AlarmId)
    requires HubInv(h) && alarm in h.clock.fired && OwnedBy(h, owner, alarm)
    ensures Sane(h.AlarmAt(owner, alarm), h.active)
    ensures forall id :: !OwnedBy(h.AlarmAt(owner, alarm), id, alarm)
  {
    hide Inv, Sane, Good, Disjoint, Frame, SameFor, World.HandleAlarm, Plan.Owns;
    LoadIsGood(h, owner, h.active);
    var w := h.Load(owner);
    AlarmKeeps(w, alarm);
    var s, p := AlarmDoes(w, alarm);
    SameForSame(h, owner, h.active);
    StoreKeeps(h, owner, w.HandleAlarm(alarm), h.active, h.active);
    FiredIsIssued(h, alarm);
    forall id ensures !OwnedBy(h.AlarmAt(owner, alarm), id, alarm) {
      if id == owner {
        OwnsDespiteClock(w.HandleAlarm(alarm).p, START_OF_TIME, alarm);
      } else if OwnedBy(h, id, alarm) {
        OneOwner(h, h.active, owner, id, alarm);
      }
    }
  }

  lemma OwnsDespiteClock(p: Plan, c: Clock, alarm: AlarmId)
    ensures p.(clock := c).Owns(alarm) == p.Owns(alarm)
  {
  }

  lemma SameForSame(h: Hub, id: string, who: string)
    ensures SameFor(h, id, who, who)
  {
  }

  lemma FiredIsIssued(h: Hub, alarm: AlarmId)
    requires HubInv(h) && alarm in h.clock.fired
    ensures alarm != INVALID
  {
  }

  lemma AlarmArrivesKeeps(h: Hub, order: seq<string>, alarm: AlarmId)
    requires HubInv(h) && alarm in h.clock.fired && Enumerates(order, h.sessions.Keys)
    ensures HubInv(h.AlarmTo(order, alarm).Deliver(alarm))
  {
    hide Good, Disjoint, Hub.AlarmAt, Plan.Owns;
    if owner :| OwnedBy(h, owner, alarm) {
      BroadcastIsOwners(h, order, owner, alarm);
      OwnerHandles(h, owner, alarm);
      AlarmKeepsActive(h, owner, alarm);
      DeliverKeepsSane(h.AlarmAt(owner, alarm), h.active, alarm);
    } else {
      AlarmReachesNobody(h, h.active, order, alarm);
      DeliverKeepsSane(h, h.active, alarm);
    }
  }

  lemma AlarmKeepsActive(h: Hub, id: string, alarm: AlarmId)
    ensures h.AlarmAt(id, alarm).active == h.active && h.AlarmAt(id, alarm).sessions.Keys == h.sessions.Keys
  {
    hide World.HandleAlarm;
  }

  // ---------- The clock ----------

  lemma TickGood(s: Slot, c: Clock, unpaused: bool, t: nat)
    requires Good(s, c, unpaused)
    ensures Good(s, c.Advance(t), unpaused)
  {
    hide Inv;
    if s.Real? { TimeKeeps(Placed(s.w, c, false, false), t); }
  }

  lemma FireGood(s: Slot, c: Clock, unpaused: bool, alarm: AlarmId)
    requires Good(s, c, unpaused) && alarm in c.pending
    ensures Good(s, c.Fire(alarm), unpaused)
  {
    hide Inv;
    if s.Real? { FireKeeps(Placed(s.w, c, false, false), alarm); }
  }

  lemma ClockKeeps(h: Hub, a: Action)
    requires HubInv(h) && Allowed(h, a) && (a.ClockTicks? || a.AlarmGoesOff?)
    ensures HubInv(h.Apply(a))
  {
    hide Good, Disjoint;
    forall id | id in h.sessions ensures Good(h.sessions[id], h.Apply(a).clock, id == h.active) {
      if a.ClockTicks? {
        TickGood(h.sessions[id], h.clock, id == h.active, a.t);
      } else {
        FireGood(h.sessions[id], h.clock, id == h.active, a.alarm);
      }
    }
  }

  // ---------- Runs ----------

  lemma CallBeginsKeeps(h: Hub, far: bool)
    requires HubInv(h)
    ensures HubInv(h.CallBegins(far))
  {
    hide Good, Disjoint, Hub.On;
    ActiveKeeps(if h.active in h.calls then h else h.(calls := h.calls + [h.active]), ActiveCall(far));
  }

  /** In every run exactly the active session is unpaused, it is always there, every session
      keeps its own invariant, and no two sessions share an alarm. */
  lemma ApplyKeeps(h: Hub, a: Action)
    requires HubInv(h) && Allowed(h, a)
    ensures HubInv(h.Apply(a))
  {
    hide Sane, Hub.Activate, Hub.Remove, Hub.On, Hub.ToSessions, Hub.AlarmTo, Hub.CallBegins;
    match a
    case SessionActivated(id, compatible, battery) => ActivateKeeps(h, id, compatible, battery);
    case SessionRemoved(id) => RemoveKeeps(h, id);
    case ToActive(e) => ActiveKeeps(h, e);
    case ToClients(ids, e) => ToSessionsKeeps(h, ids, e);
    case CallBegins(far) => CallBeginsKeeps(h, far);
    case CallEnds(far) => ToSessionsKeeps(h, h.calls, NoActiveCall(far));
    case AlarmArrives(order, alarm) => AlarmArrivesKeeps(h, order, alarm);
    case ClockTicks(_) => ClockKeeps(h, a);
    case AlarmGoesOff(_) => ClockKeeps(h, a);
  }

  function Boot(o: Options): Hub {
    Hub(o, map[NOBODY := Null], NOBODY, [], START_OF_TIME, false, false)
  }

  ghost predicate AllowedRun(h: Hub, actions: seq<Action>)
    decreases |actions|
  {
    actions == [] || (Allowed(h, actions[0]) && AllowedRun(h.Apply(actions[0]), actions[1..]))
  }

  ghost function After(h: Hub, actions: seq<Action>): Hub
    decreases |actions|
  {
    if actions == [] then h else After(h.Apply(actions[0]), actions[1..])
  }

  lemma OneAction(h: Hub, a: Action)
    requires Allowed(h, a)
    ensures AllowedRun(h, [a]) && After(h, [a]) == h.Apply(a)
  {
    hide Allowed, Hub.Apply;
    assert [a][1..] == [];
  }

  lemma {:induction false} DaemonRunKeeps(h: Hub, actions: seq<Action>)
    requires HubInv(h) && AllowedRun(h, actions)
    ensures HubInv(After(h, actions))
    decreases |actions|
  {
    hide Sane, Hub.Apply, Allowed;
    if actions != [] {
      ApplyKeeps(h, actions[0]);
      DaemonRunKeeps(h.Apply(actions[0]), actions[1..]);
    }
  }

  /** In every run of the daemon: the active session is a live entry, among the real sessions
      exactly it is unpaused, and each of them keeps the invariant of a single session. */
  lemma ExactlyActiveUnpaused(o: Options, actions: seq<Action>, id: string)
    requires o.reducedOffTimeout > 0 && AllowedRun(Boot(o), actions)
    ensures var h := After(Boot(o), actions);
      && h.active in h.sessions
      && (h.Has(id) ==> (h.sessions[id].w.m.paused <==> id != h.active) && Inv(h.Load(id)))
  {
    hide Inv, Hub.Apply, Disjoint;
    DaemonRunKeeps(Boot(o), actions);
    var h := After(Boot(o), actions);
    if h.Has(id) { LoadIsGood(h, id, h.active); }
  }

  // ---------- Only the active session speaks ----------

  /** How often the session has said anything but housekeeping. */
  function Said(h: Hub, id: string): nat {
    if h.Has(id) then h.sessions[id].w.out.loud else 0
  }

  lemma OthersUntouched(h: Hub, j: string, e: Event, id: string)
    requires j != id
    ensures h.On(j, e).Has(id) == h.Has(id) && Said(h.On(j, e), id) == Said(h, id)
  {
    hide Step;
  }

  lemma PausedIsQuiet(h: Hub, e: Event, who: string, id: string)
    requires Sane(h, who) && Handled(e) && ReachesPaused(e) && e != Resuming && id != who
    ensures h.On(id, e).Has(id) == h.Has(id) && Said(h.On(id, e), id) == Said(h, id)
  {
    hide Inv, Frame, Sane, Step, Stale;
    if h.Has(id) {
      LoadIsGood(h, id, who);
      EveryEventActsAs(h.Load(id), e);
    }
  }

  lemma {:induction false} ClientsQuiet(h: Hub, ids: seq<string>, e: Event, id: string)
    requires HubInv(h) && Handled(e) && ReachesPaused(e) && e != Resuming && id != h.active
    ensures h.ToSessions(ids, e).Has(id) == h.Has(id) && Said(h.ToSessions(ids, e), id) == Said(h, id)
  {
    hide Sane, Step, Hub.On, Hub.Has, Said;
    if ids != [] {
      var last := ids[|ids| - 1];
      ClientsQuiet(h, ids[..|ids| - 1], e, id);
      ToSessionsKeeps(h, ids[..|ids| - 1], e);
      if last == id {
        PausedIsQuiet(h.ToSessions(ids[..|ids| - 1], e), e, h.active, id);
      } else {
        OthersUntouched(h.ToSessions(ids[..|ids| - 1], e), last, e, id);
      }
    }
  }

  lemma ActivationQuiet(h: Hub, other: string, compatible: bool, battery: bool, id: string)
    requires id != h.active && id != other
    ensures var g := h.Activate(other, compatible, battery); Said(g, id) == Said(h, id)
  {
    hide Step;
    OthersUntouched(h, h.active, Pausing, id);
  }

  lemma RemovalQuiet(h: Hub, other: string, id: string)
    requires id != h.active
    ensures h.Remove(other).Has(id) ==> Said(h.Remove(other), id) == Said(h, id)
  {
    hide Step;
    OthersUntouched(h, h.active, Pausing, id);
  }

  lemma AlarmQuiet(h: Hub, order: seq<string>, alarm: AlarmId, id: string)
    requires HubInv(h) && alarm in h.clock.fired && Enumerates(order, h.sessions.Keys) && id != h.active
    ensures Said(h.AlarmTo(order, alarm).Deliver(alarm), id) == Said(h, id)
  {
    hide Inv, Sane, Frame, World.HandleAlarm, Plan.Owns, Enumerates;
    if owner :| OwnedBy(h, owner, alarm) {
      BroadcastIsOwners(h, order, owner, alarm);
      if owner == id {
        LoadIsGood(h, id, h.active);
        SaneClock(h, alarm);
        var s, p := AlarmDoes(h.Load(id), alarm);
      }
    } else {
      AlarmReachesNobody(h, h.active, order, alarm);
    }
  }

  lemma SaneClock(h: Hub, alarm: AlarmId)
    requires HubInv(h) && alarm in h.clock.fired
    ensures forall id :: h.Has(id) ==> alarm in h.Load(id).p.clock.fired
  {
  }

  /** Display, brightness, display-event, long-press, suspend and power-off commands are issued
      for the active session or the one being activated, and for no other, although alarms and
      client events reach the paused ones. */
  lemma OnlyActiveSpeaks(h: Hub, a: Action, id: string)
    requires HubInv(h) && Allowed(h, a) && id != h.active
    requires a.SessionActivated? ==> a.id != id
    ensures h.Apply(a).Has(id) ==> Said(h.Apply(a), id) == Said(h, id)
  {
    hide Inv, Sane, Hub.Activate, Hub.Remove, Hub.On, Hub.ToSessions, Hub.AlarmTo;
    match a
    case SessionActivated(other, compatible, battery) => ActivationQuiet(h, other, compatible, battery, id);
    case SessionRemoved(other) => RemovalQuiet(h, other, id);
    case ToActive(e) => OthersUntouched(h, h.active, e, id);
    case ToClients(ids, e) => ClientsQuiet(h, ids, e, id);
    case CallBegins(far) =>
      var g := if h.active in h.calls then h else h.(calls := h.calls + [h.active]);
      OthersUntouched(g, h.active, ActiveCall(far), id);
    case CallEnds(far) => ClientsQuiet(h, h.calls, NoActiveCall(far), id);
    case AlarmArrives(order, alarm) => AlarmQuiet(h, order, alarm, id);
    case ClockTicks(_) =>
    case AlarmGoesOff(_) =>
  }
}
