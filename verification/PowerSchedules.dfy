/** When every alarm of a machine is due: which events set it, which drop it, and that all others
    leave it as it is. */
module PowerSchedules {
  import opened Alarms
  import opened Plans
  import opened PowerModel
  import opened PowerInvariants
  import opened PowerEffects
  import opened PowerTheorems
  import opened PowerChanges
  import opened PowerOutcomes

  // ---------- Alarms ----------

  /** The alarm is awaited and due at this time. */
  predicate DueAt(p: Plan, id: AlarmId, t: int) {
    id != INVALID && id in p.clock.pending && p.clock.pending[id] == t
  }

  /** An awaited alarm is the same as before, due at the same time or on its way. */
  predicate Alike(p: Plan, a: AlarmId, q: Plan, b: AlarmId) {
    && b == a
    && (a in q.clock.pending <==> a in p.clock.pending)
    && (a in p.clock.pending ==> q.clock.pending[a] == p.clock.pending[a])
    && (a in q.clock.fired <==> a in p.clock.fired)
  }

  predicate SamePress(p: Plan, q: Plan) {
    Alike(p, p.longPress, q, q.longPress)
  }

  predicate SameSuspend(p: Plan, q: Plan) {
    Alike(p, p.suspend, q, q.suspend)
  }

  predicate SameProximity(p: Plan, q: Plan) {
    Alike(p, p.proximity, q, q.proximity)
  }

  predicate SameExpiration(p: Plan, q: Plan) {
    Alike(p, p.expiration, q, q.expiration)
  }

  predicate SameOff(p: Plan, q: Plan) {
    && Alike(p, p.off, q, q.off) && Alike(p, p.dim, q, q.dim)
    && q.offTime == p.offTime && q.kind == p.kind
  }

  /** The suspend alarm is due after this timeout, unless that is infinite. */
  predicate SuspendsAfter(q: Plan, t: int) {
    if t == INFINITE then q.suspend == INVALID else DueAt(q, q.suspend, q.clock.now + t)
  }

  /** The display-off schedule after this timeout: the off alarm at its end, the dim alarm a while before
      if there is room for it, and neither if it is infinite. */
  predicate GoesOffAfter(q: Plan, t: int) {
    && q.kind == Normal
    && if t == INFINITE then q.offTime == Never && q.off == INVALID && q.dim == INVALID
       else
         && q.offTime == At(q.clock.now + t) && DueAt(q, q.off, q.clock.now + t)
         && if t > q.dimDuration then DueAt(q, q.dim, q.clock.now + t - q.dimDuration) else q.dim == INVALID
  }

  /** The display-off schedule after one of the shorter timeouts, which dims nothing. */
  predicate PostponedBy(q: Plan, t: int, k: TimeoutType) {
    && q.kind == k && q.offTime == At(q.clock.now + t)
    && DueAt(q, q.off, q.clock.now + t) && q.dim == INVALID
  }

  predicate NothingScheduled(q: Plan) {
    q.off == INVALID && q.dim == INVALID && q.kind == NoTimeout
  }

  /** All but the display-off schedule. */
  predicate OnlyOff(p: Plan, q: Plan) {
    && SamePress(p, q) && SameSuspend(p, q) && SameProximity(p, q) && SameExpiration(p, q)
    && q.clock.now == p.clock.now && q.dimDuration == p.dimDuration
  }

  lemma CancelOffTimes(p: Plan)
    requires p.Valid()
    ensures OnlyOff(p, p.CancelOff()) && NothingScheduled(p.CancelOff()) && p.CancelOff().Valid()
  {
    CancelOffKeeps(p);
  }

  lemma NormalOffTimes(p: Plan, t: int)
    requires p.Valid()
    ensures var q := p.NormalOff(t);
      OnlyOff(p, q) && GoesOffAfter(q, t) && q.Valid()
  {
    NormalOffKeeps(p, t);
  }

  lemma PostponeTimes(p: Plan, t: int, k: TimeoutType)
    requires p.Valid() && k != NoTimeout
    ensures var q := p.Postpone(t, k);
      && OnlyOff(p, q) && q.Valid()
      && (if Later(p.clock.now + t, p.offTime) then PostponedBy(q, t, k) else q == p)
  {
    PostponeKeeps(p, t, k);
  }

  lemma NormalSuspendTimes(p: Plan, t: int)
    requires p.Valid()
    ensures var q := p.NormalSuspend(t);
      && SamePress(p, q) && SameOff(p, q) && SameProximity(p, q) && SameExpiration(p, q)
      && SuspendsAfter(q, t) && q.Valid() && q.clock.now == p.clock.now && q.dimDuration == p.dimDuration
  {
    NormalSuspendKeeps(p, t);
  }

  lemma ProximityDisableTimes(p: Plan, t: int)
    requires p.Valid()
    ensures var q := p.ProximityDisable(t);
      && SamePress(p, q) && SameOff(p, q) && SameSuspend(p, q) && SameExpiration(p, q)
      && DueAt(q, q.proximity, p.clock.now + t) && q.clock.now == p.clock.now
      && q.dimDuration == p.dimDuration && q.Valid()
  {
    ProximityDisableKeeps(p, t);
  }

  lemma ExpirationTimes(p: Plan, t: int)
    requires p.Valid()
    ensures var q := p.Expiration(t);
      && SamePress(p, q) && SameOff(p, q) && SameSuspend(p, q) && SameProximity(p, q)
      && DueAt(q, q.expiration, p.clock.now + t) && q.clock.now == p.clock.now
      && q.dimDuration == p.dimDuration && q.Valid()
  {
    ExpirationKeeps(p, t);
  }

  lemma CancelExpirationTimes(p: Plan)
    requires p.Valid()
    ensures var q := p.CancelExpiration();
      && SamePress(p, q) && SameOff(p, q) && SameSuspend(p, q) && SameProximity(p, q)
      && q.expiration == INVALID && q.clock.now == p.clock.now && q.dimDuration == p.dimDuration && q.Valid()
  {
    CancelExpirationKeeps(p);
  }

  lemma LongPressTimes(p: Plan, t: int)
    requires p.Valid()
    ensures var q := p.LongPress(t);
      && SameOff(p, q) && SameSuspend(p, q) && SameProximity(p, q) && SameExpiration(p, q)
      && DueAt(q, q.longPress, p.clock.now + t) && q.clock.now == p.clock.now
      && q.dimDuration == p.dimDuration && q.Valid()
  {
    LongPressKeeps(p, t);
  }

  lemma CancelLongPressTimes(p: Plan)
    requires p.Valid()
    ensures var q := p.CancelLongPress();
      && SameOff(p, q) && SameSuspend(p, q) && SameProximity(p, q) && SameExpiration(p, q)
      && q.longPress == INVALID && q.clock.now == p.clock.now && q.dimDuration == p.dimDuration && q.Valid()
  {
    CancelLongPressKeeps(p);
  }

  // ---------- What each event makes of the plan ----------

  /** The normal timeouts started over. */
  function Restarted(p: Plan, m: Machine): Plan {
    p.NormalOff(m.offTimeout.Get()).NormalSuspend(m.suspendTimeout.Get())
  }

  /** All but display-off schedule and suspend alarm. */
  predicate OtherwiseSame(p: Plan, q: Plan) {
    && SamePress(p, q) && SameProximity(p, q) && SameExpiration(p, q)
    && q.clock.now == p.clock.now && q.dimDuration == p.dimDuration
  }

  lemma RestartedTimes(p: Plan, m: Machine)
    requires p.Valid()
    ensures var q := Restarted(p, m);
      && OtherwiseSame(p, q) && q.Valid()
      && GoesOffAfter(q, m.offTimeout.Get()) && SuspendsAfter(q, m.suspendTimeout.Get())
  {
    hide Plan.Valid, Plan.NormalOff, Plan.NormalSuspend, Configurable.Get;
    var r := p.NormalOff(m.offTimeout.Get());
    NormalOffTimes(p, m.offTimeout.Get());
    NormalSuspendTimes(r, m.suspendTimeout.Get());
  }

  lemma LightPlan(w: World, reason: Reason)
    ensures w.TurnOnWithoutTimeout(reason).p == w.p
    ensures w.TurnOn(reason).p == Restarted(w.p, w.m)
    ensures w.TurnOnReduced(reason).p == w.p.Postpone(w.m.options.reducedOffTimeout, Reduced)
  {
    hide Outputs.Record, Plan.NormalOff, Plan.NormalSuspend, Plan.Postpone, Configurable.Get;
  }

  lemma ExtendPlan(w: World, reason: Reason)
    ensures w.Brighten().p == w.p && w.Dim().p == w.p
    ensures w.Extend().p == Restarted(w.p, w.m) && w.ExtendFor(reason).p == Restarted(w.p, w.m)
  {
    hide Outputs.Record, Plan.NormalOff, Plan.NormalSuspend, Configurable.Get;
  }

  lemma DarkPlan(w: World, reason: Reason)
    ensures w.TurnOff(reason).p == if w.m.paused then w.p else w.p.CancelOff()
  {
    hide Outputs.Record, Plan.CancelOff;
  }

  lemma SensorPlan(w: World, e: Enablement)
    ensures w.EnableProximity(e).p == w.p && w.DisableProximity(e).p == w.p
  {
    hide Machine.Enable, Machine.ProximityEnabled;
    EnableShape(w, e);
    DisableShape(w, e);
  }

  // ---------- The timetable ----------

  datatype OffChange = Stays | Restarts | Postponed(t: int, kind: TimeoutType) | Clears | Expires | DimArrives

  /** What becomes of the display-off schedule, with this normal timeout in force afterwards. */
  predicate OffBecomes(p: Plan, q: Plan, c: OffChange, t: int) {
    match c
    case Stays => SameOff(p, q)
    case Restarts => GoesOffAfter(q, t)
    case Postponed(u, k) => if Later(p.clock.now + u, p.offTime) then PostponedBy(q, u, k) else SameOff(p, q)
    case Clears => NothingScheduled(q)
    case Expires => q.off == INVALID && q.kind == NoTimeout && Alike(p, p.dim, q, q.dim)
    case DimArrives => q.dim == INVALID && Alike(p, p.off, q, q.off) && q.offTime == p.offTime && q.kind == p.kind
  }

  function OffChangeOf(w: World, e: Event): OffChange {
    var lit := w.m.display == On;
    var reduced := Postponed(w.m.options.reducedOffTimeout, Reduced);
    if Darkens(w, e) then Clears
    else
      match e
      case ActiveCall(far) => if lit || far then Restarts else Stays
      case NoActiveCall(far) => if lit || far then reduced else Stays
      case EnableInactivityTimeout => if Unholds(w.m) then Restarts else Stays
      case SetInactivityBehavior(action, supply, t) => if Reconfigures(w, action, supply, t) then Restarts else Stays
      case LidOpen => Restarts
      case NoNotification =>
        if lit then Postponed(w.m.options.postNotificationOffTimeout, PostNotification) else Stays
      case PowerButtonPress => if PressRestarts(w.m) then Restarts else Stays
      case PowerSourceChange(_, far) => if lit then Restarts else if far then reduced else Stays
      case ProximityFar => if lit then Stays else if w.m.ProximityOnlyUntilExpiration() then reduced else Restarts
      case ActivityChanging(far) => if lit || far then Restarts else Stays
      case ActivityExtending => if lit then Restarts else Stays
      case TurnDisplayOn => Restarts
      case SystemResume => Restarts
      case Starting(_) => if w.m.options.displayOnAtStartup then Restarts else Stays
      case Resuming => Restarts
      case AlarmEvent(id) =>
        if id == w.p.off then Expires
        else if id == w.p.dim then DimArrives
        else if id == w.p.expiration && lit then Postponed(0, PostNotification)
        else Stays
      case _ => Stays
  }

  /** The events that start the suspend timeout over. */
  predicate StartsOver(w: World, e: Event) {
    Forgets(w, e) && !e.AlarmEvent? && !e.AllowSuspend?
  }

  function OffTimeout(m: Machine, e: Event): int {
    match e
    case SetInactivityBehavior(action, supply, t) =>
      if action == DisplayOff && t > 0 then Replaced(m.offTimeout, supply, t).Get() else m.offTimeout.Get()
    case PowerSourceChange(battery, _) => Supplied(m.offTimeout, battery).Get()
    case Starting(battery) => Supplied(m.offTimeout, battery).Get()
    case _ => m.offTimeout.Get()
  }

  function SuspendTimeout(m: Machine, e: Event): int {
    match e
    case SetInactivityBehavior(action, supply, t) =>
      if action == SuspendSystem && t > 0 then Replaced(m.suspendTimeout, supply, t).Get() else m.suspendTimeout.Get()
    case PowerSourceChange(battery, _) => Supplied(m.suspendTimeout, battery).Get()
    case Starting(battery) => Supplied(m.suspendTimeout, battery).Get()
    case _ => m.suspendTimeout.Get()
  }

  predicate SuspendBecomes(p: Plan, q: Plan, startsOver: bool, arrives: bool, t: int) {
    if startsOver then SuspendsAfter(q, t) else if arrives then q.suspend == INVALID else SameSuspend(p, q)
  }

  /** The display-off schedule and the suspend alarm after the event. */
  predicate TimesOut(w: World, e: Event, q: Plan) {
    && OffBecomes(w.p, q, OffChangeOf(w, e), OffTimeout(w.m, e))
    && SuspendBecomes(w.p, q, StartsOver(w, e), e == AlarmEvent(w.p.suspend), SuspendTimeout(w.m, e))
  }

  /** This is what the event makes of schedule and suspend alarm. */
  predicate Says(w: World, e: Event, c: OffChange, startsOver: bool) {
    OffChangeOf(w, e) == c && StartsOver(w, e) == startsOver
  }

  lemma SameTimeouts(m: Machine, e: Event)
    requires !e.SetInactivityBehavior? && !e.PowerSourceChange? && !e.Starting?
    ensures OffTimeout(m, e) == m.offTimeout.Get() && SuspendTimeout(m, e) == m.suspendTimeout.Get()
  {
    hide Configurable.Get;
  }

  lemma RestartTimesOut(w: World, e: Event, m: Machine)
    requires w.p.Valid() && Says(w, e, Restarts, true)
    requires OffTimeout(w.m, e) == m.offTimeout.Get() && SuspendTimeout(w.m, e) == m.suspendTimeout.Get()
    ensures TimesOut(w, e, Restarted(w.p, m)) && OtherwiseSame(w.p, Restarted(w.p, m)) && Restarted(w.p, m).Valid()
  {
    hide Plan.Valid, Restarted, OffChangeOf, OffTimeout, SuspendTimeout, Configurable.Get, StartsOver;
    RestartedTimes(w.p, m);
  }

  /** The same for the usual timeouts. */
  lemma RestartsAsUsual(w: World, e: Event)
    requires w.p.Valid() && Says(w, e, Restarts, true)
    requires !e.SetInactivityBehavior? && !e.PowerSourceChange? && !e.Starting?
    ensures var q := Restarted(w.p, w.m);
      TimesOut(w, e, q) && OtherwiseSame(w.p, q) && q.Valid()
  {
    hide Plan.Valid, Restarted, OffTimeout, SuspendTimeout, Configurable.Get, Says, TimesOut, OtherwiseSame;
    SameTimeouts(w.m, e);
    RestartTimesOut(w, e, w.m);
  }

  lemma NothingTimesOut(w: World, e: Event)
    requires Says(w, e, Stays, false) && !e.AlarmEvent?
    ensures TimesOut(w, e, w.p) && OtherwiseSame(w.p, w.p)
  {
    hide OffChangeOf, OffTimeout, SuspendTimeout, StartsOver;
  }

  lemma ClearTimesOut(w: World, e: Event)
    requires w.p.Valid() && Says(w, e, Clears, false) && !e.AlarmEvent?
    ensures TimesOut(w, e, w.p.CancelOff()) && OtherwiseSame(w.p, w.p.CancelOff())
  {
    hide Plan.Valid, Plan.CancelOff, OffChangeOf, OffTimeout, SuspendTimeout, StartsOver;
    CancelOffTimes(w.p);
  }

  lemma PostponeTimesOut(w: World, e: Event, t: int, k: TimeoutType)
    requires w.p.Valid() && k != NoTimeout && Says(w, e, Postponed(t, k), false) && !e.AlarmEvent?
    ensures var q := w.p.Postpone(t, k);
      TimesOut(w, e, q) && OtherwiseSame(w.p, q) && q.Valid()
  {
    hide Plan.Valid, Plan.Postpone, OffChangeOf, OffTimeout, SuspendTimeout, StartsOver;
    PostponeTimes(w.p, t, k);
    if !Later(w.p.clock.now + t, w.p.offTime) { AlikeItself(w.p); }
  }

  lemma AlikeItself(p: Plan)
    ensures SameOff(p, p) && OnlyOff(p, p)
  {
  }

  lemma ActivityChangingSays(w: World, far: bool)
    requires w.m.display != UnknownMode && !w.m.paused
    ensures w.m.display == On || far ==> Says(w, ActivityChanging(far), Restarts, true)
    ensures w.m.display == Off && !far ==> Says(w, ActivityChanging(far), Stays, false)
  {
  }

  lemma ActivityChangingTimes(w: World, far: bool)
    requires w.p.Valid() && w.m.display != UnknownMode && !w.m.paused
    ensures var q := w.HandleUserActivityChangingPowerState(far).p;
      TimesOut(w, ActivityChanging(far), q) && OtherwiseSame(w.p, q)
  {
    hide Plan.Valid, Says, TimesOut, OtherwiseSame, Restarted, Forgets, World.ExtendFor, World.TurnOn;
    ActivityChangingSays(w, far);
    LightPlan(w, Activity);
    ExtendPlan(w, Activity);
    if w.m.display == On || far {
      RestartsAsUsual(w, ActivityChanging(far));
    } else {
      NothingTimesOut(w, ActivityChanging(far));
    }
  }

  lemma ActivityExtendingSays(w: World)
    requires w.m.display != UnknownMode && !w.m.paused
    ensures w.m.display == On ==> Says(w, ActivityExtending, Restarts, true)
    ensures w.m.display == Off ==> Says(w, ActivityExtending, Stays, false)
  {
  }

  lemma ActivityExtendingTimes(w: World)
    requires w.p.Valid() && w.m.display != UnknownMode && !w.m.paused
    ensures var q := w.HandleUserActivityExtendingPowerState().p;
      TimesOut(w, ActivityExtending, q) && OtherwiseSame(w.p, q)
  {
    hide Plan.Valid, Says, TimesOut, OtherwiseSame, Restarted, Forgets, World.ExtendFor;
    ActivityExtendingSays(w);
    ExtendPlan(w, Activity);
    if w.m.display == On { RestartsAsUsual(w, ActivityExtending); } else { NothingTimesOut(w, ActivityExtending); }
  }

  lemma ActiveCallSays(w: World, far: bool)
    requires w.m.display != UnknownMode && !w.m.paused
    ensures w.m.display == On || far ==> Says(w, ActiveCall(far), Restarts, true)
    ensures w.m.display == Off && !far ==> Says(w, ActiveCall(far), Stays, false)
  {
  }

  lemma ActiveCallTimes(w: World, far: bool)
    requires w.p.Valid() && w.m.display != UnknownMode && !w.m.paused
    ensures var q := w.HandleActiveCall(far).p;
      TimesOut(w, ActiveCall(far), q) && OtherwiseSame(w.p, q)
  {
    hide Plan.Valid, Says, TimesOut, OtherwiseSame, Restarted, Forgets, World.Extend, World.TurnOn;
    hide World.EnableProximity;
    ActiveCallSays(w, far);
    LightPlan(w, Call);
    ExtendPlan(w, Call);
    SensorPlan(if w.m.display == On then w.Extend() else if far then w.TurnOn(Call) else w, UntilDisabled);
    if w.m.display == On || far { RestartsAsUsual(w, ActiveCall(far)); } else { NothingTimesOut(w, ActiveCall(far)); }
  }

  lemma EnableTimeoutSays(w: World)
    requires true
    ensures Unholds(w.m) ==> Says(w, EnableInactivityTimeout, Restarts, true)
    ensures !Unholds(w.m) ==> Says(w, EnableInactivityTimeout, Stays, false)
  {
  }

  lemma EnableTimeoutTimes(w: World)
    requires w.p.Valid() && true
    ensures var q := w.HandleEnableInactivityTimeout().p;
      TimesOut(w, EnableInactivityTimeout, q) && OtherwiseSame(w.p, q)
  {
    hide Plan.Valid, Says, TimesOut, OtherwiseSame, Restarted, Forgets, World.AllowTimeout;
    EnableTimeoutSays(w);
    AllowClientPlan(w);
    if Unholds(w.m) {
      RestartsAsUsual(w, EnableInactivityTimeout);
    } else {
      NothingTimesOut(w, EnableInactivityTimeout);
    }
  }

  lemma DisableTimeoutSays(w: World)
    requires w.m.display != UnknownMode
    ensures Says(w, DisableInactivityTimeout, Stays, false)
  {
  }

  lemma DisableTimeoutTimes(w: World)
    requires w.p.Valid() && w.m.display != UnknownMode
    ensures var q := w.HandleDisableInactivityTimeout().p;
      TimesOut(w, DisableInactivityTimeout, q) && OtherwiseSame(w.p, q)
  {
    hide Plan.Valid, Says, TimesOut, OtherwiseSame, Restarted, Forgets, World.Brighten, World.TurnOnWithoutTimeout;
    DisableTimeoutSays(w);
    LightPlan(w.DisallowTimeout(Client), UnknownReason);
    ExtendPlan(w.DisallowTimeout(Client), UnknownReason);
    NothingTimesOut(w, DisableInactivityTimeout);
  }

  lemma LidOpenSays(w: World)
    requires w.m.display != UnknownMode && !w.m.paused
    ensures Says(w, LidOpen, Restarts, true)
  {
  }

  lemma LidOpenTimes(w: World)
    requires w.p.Valid() && w.m.display != UnknownMode && !w.m.paused
    ensures var q := w.HandleLidOpen().p;
      TimesOut(w, LidOpen, q) && OtherwiseSame(w.p, q)
  {
    hide Plan.Valid, Says, TimesOut, OtherwiseSame, Restarted, Forgets, Outputs.Record, World.ExtendFor, World.TurnOn;
    LidOpenSays(w);
    var u := w.(m := w.m.(lidClosed := false));
    LightPlan(u, Activity);
    ExtendPlan(u.Emit(TurnOnDisplay(Internal)), Activity);
    RestartsAsUsual(w, LidOpen);
    RestartedDepends(w.p, w.m, u.m);
  }

  lemma LidClosedSays(w: World, x: bool)
    requires w.m.display != UnknownMode
    ensures Darkens(w, LidClosed(x)) ==> Says(w, LidClosed(x), Clears, false)
    ensures !Darkens(w, LidClosed(x)) ==> Says(w, LidClosed(x), Stays, false)
  {
  }

  lemma LidClosedTimes(w: World, x: bool)
    requires w.p.Valid() && w.m.display != UnknownMode
    ensures var q := w.HandleLidClosed(x).p;
      TimesOut(w, LidClosed(x), q) && OtherwiseSame(w.p, q)
  {
    hide Plan.Valid, Says, TimesOut, OtherwiseSame, Restarted, Forgets, Outputs.Record, World.TurnOff, Plan.CancelOff;
    LidClosedSays(w, x);
    DarkPlan(w.(m := w.m.(lidClosed := true)), UnknownReason);
    if Darkens(w, LidClosed(x)) { ClearTimesOut(w, LidClosed(x)); } else { NothingTimesOut(w, LidClosed(x)); }
  }

  lemma ProximityNearSays(w: World)
    requires true
    ensures Darkens(w, ProximityNear) ==> Says(w, ProximityNear, Clears, false)
    ensures !Darkens(w, ProximityNear) ==> Says(w, ProximityNear, Stays, false)
  {
  }

  lemma ProximityNearTimes(w: World)
    requires w.p.Valid() && true
    ensures var q := w.HandleProximityNear().p;
      TimesOut(w, ProximityNear, q) && OtherwiseSame(w.p, q)
  {
    hide Plan.Valid, Says, TimesOut, OtherwiseSame, Restarted, Forgets, World.TurnOff, Plan.CancelOff;
    ProximityNearSays(w);
    DarkPlan(w, Proximity);
    if Darkens(w, ProximityNear) { ClearTimesOut(w, ProximityNear); } else { NothingTimesOut(w, ProximityNear); }
  }

  lemma TurnDisplayOffSays(w: World)
    requires true
    ensures !w.m.paused ==> Says(w, TurnDisplayOff, Clears, false)
    ensures w.m.paused ==> Says(w, TurnDisplayOff, Stays, false)
  {
  }

  lemma TurnDisplayOffTimes(w: World)
    requires w.p.Valid() && true
    ensures var q := w.HandleTurnOffDisplay().p;
      TimesOut(w, TurnDisplayOff, q) && OtherwiseSame(w.p, q)
  {
    hide Plan.Valid, Says, TimesOut, OtherwiseSame, Restarted, Forgets, World.TurnOff, Plan.CancelOff;
    TurnDisplayOffSays(w);
    DarkPlan(w, PowerButton);
    if w.m.paused { NothingTimesOut(w, TurnDisplayOff); } else { ClearTimesOut(w, TurnDisplayOff); }
  }

  lemma TurnDisplayOnSays(w: World)
    requires true
    ensures Says(w, TurnDisplayOn, Restarts, true)
  {
  }

  lemma TurnDisplayOnTimes(w: World)
    requires w.p.Valid() && true
    ensures var q := w.HandleTurnOnDisplay().p;
      TimesOut(w, TurnDisplayOn, q) && OtherwiseSame(w.p, q)
  {
    hide Plan.Valid, Says, TimesOut, OtherwiseSame, Restarted, Forgets, World.TurnOn;
    TurnDisplayOnSays(w);
    LightPlan(w, PowerButton);
    RestartsAsUsual(w, TurnDisplayOn);
  }

  lemma SystemResumeSays(w: World)
    requires true
    ensures Says(w, SystemResume, Restarts, true)
  {
  }

  lemma SystemResumeTimes(w: World)
    requires w.p.Valid() && true
    ensures var q := w.HandleSystemResume().p;
      TimesOut(w, SystemResume, q) && OtherwiseSame(w.p, q)
  {
    hide Plan.Valid, Says, TimesOut, OtherwiseSame, Restarted, Forgets, World.TurnOn;
    SystemResumeSays(w);
    LightPlan(w, Activity);
    RestartsAsUsual(w, SystemResume);
  }

  lemma ResumingSays(w: World)
    requires true
    ensures Says(w, Resuming, Restarts, true)
  {
  }

  lemma ResumingTimes(w: World)
    requires w.p.Valid() && true
    ensures var q := w.Resume().p;
      TimesOut(w, Resuming, q) && OtherwiseSame(w.p, q)
  {
    hide Plan.Valid, Says, TimesOut, OtherwiseSame, Restarted, Forgets, Outputs.Record, World.TurnOn;
    ResumingSays(w);
    LightPlan(w.TakeOver(), UnknownReason);
    RestartsAsUsual(w, Resuming);
    RestartedDepends(w.p, w.m, w.TakeOver().m);
  }

  lemma ProximityFarSays(w: World)
    requires w.m.display != UnknownMode && !w.m.paused
    ensures w.m.display == On ==> Says(w, ProximityFar, Stays, false)
    ensures w.m.display == Off && w.m.ProximityOnlyUntilExpiration() ==>
      Says(w, ProximityFar, Postponed(w.m.options.reducedOffTimeout, Reduced), false)
    ensures w.m.display == Off && !w.m.ProximityOnlyUntilExpiration() ==> Says(w, ProximityFar, Restarts, true)
  {
  }

  lemma ProximityFarTimes(w: World)
    requires w.p.Valid() && w.m.display != UnknownMode && !w.m.paused
    ensures var q := w.HandleProximityFar().p;
      TimesOut(w, ProximityFar, q) && OtherwiseSame(w.p, q)
  {
    hide Plan.Valid, Says, TimesOut, OtherwiseSame, Restarted, Forgets, World.DisableProximity, World.TurnOn;
    hide World.TurnOnReduced, Machine.ProximityOnlyUntilExpiration, Plan.Postpone;
    ProximityFarSays(w);
    var u := w.DisableProximity(UntilFarOrExpiration);
    var v := u.DisableProximity(UntilFarOrTimeout);
    TwoReasonsEnd(w);
    SensorPlan(w, UntilFarOrExpiration);
    SensorPlan(u, UntilFarOrTimeout);
    LightPlan(v, Proximity);
    if w.m.display == On { NothingTimesOut(w, ProximityFar); }
    else if w.m.ProximityOnlyUntilExpiration() {
      PostponeTimesOut(w, ProximityFar, w.m.options.reducedOffTimeout, Reduced);
    }
    else {
      RestartsAsUsual(w, ProximityFar);
      RestartedDepends(w.p, w.m, v.m);
    }
  }

  /** Only the timeouts matter. */
  lemma RestartedDepends(p: Plan, m: Machine, n: Machine)
    requires n.offTimeout == m.offTimeout && n.suspendTimeout == m.suspendTimeout
    ensures Restarted(p, n) == Restarted(p, m)
  {
  }

  lemma AllowClientPlan(w: World)
    ensures w.AllowTimeout(Client).p == if Unholds(w.m) then Restarted(w.p, w.m) else w.p
  {
    hide Plan.NormalOff, Plan.NormalSuspend, Configurable.Get, World.TurnOff;
  }

  // ---------- Long press, proximity and notification ----------

  /** A press starts the long-press alarm; the release and pausing drop it. */
  predicate PressBecomes(w: World, e: Event, q: Plan) {
    if e.PowerButtonPress? then DueAt(q, q.longPress, w.p.clock.now + w.m.options.longPressTimeout)
    else if e.PowerButtonRelease? || e.Pausing? || e == AlarmEvent(w.p.longPress) then q.longPress == INVALID
    else SamePress(w.p, q)
  }

  /** The end of a call on a dark display with something near starts the proximity alarm. */
  predicate ProximityBecomes(w: World, e: Event, q: Plan) {
    if e == NoActiveCall(false) && w.m.display == Off then
      DueAt(q, q.proximity, w.p.clock.now + w.m.options.reducedOffTimeout)
    else if e == AlarmEvent(w.p.proximity) then q.proximity == INVALID
    else SameProximity(w.p, q)
  }

  /** A notification starts its expiration over: after the display-off timeout, or its own if shorter. */
  predicate ExpirationBecomes(w: World, e: Event, q: Plan) {
    if e.NewNotification? then
      var t, u := w.m.offTimeout.Get(), w.m.options.notificationExpiration;
      DueAt(q, q.expiration, w.p.clock.now + if t < u then t else u)
    else if e == NoNotification || e == AlarmEvent(w.p.expiration) then q.expiration == INVALID
    else SameExpiration(w.p, q)
  }

  /** When every alarm is due after the event. */
  predicate Timetable(w: World, e: Event, q: Plan) {
    && TimesOut(w, e, q) && PressBecomes(w, e, q) && ProximityBecomes(w, e, q) && ExpirationBecomes(w, e, q)
    && q.clock.now == w.p.clock.now
  }

  /** Most events have nothing to do with these. */
  predicate Ordinary(e: Event) {
    && !e.PowerButtonPress? && !e.PowerButtonRelease? && !e.Pausing? && !e.NoActiveCall?
    && !e.NewNotification? && !e.NoNotification? && !e.AlarmEvent?
  }

  lemma OrdinaryTimes(w: World, e: Event, q: Plan)
    requires Ordinary(e) && TimesOut(w, e, q) && OtherwiseSame(w.p, q)
    ensures Timetable(w, e, q)
  {
    hide TimesOut;
  }

  lemma PowerButtonPressSays(w: World)
    requires w.m.display != UnknownMode && !w.m.paused
    ensures PressRestarts(w.m) ==> Says(w, PowerButtonPress, Restarts, true)
    ensures !PressRestarts(w.m) ==> Says(w, PowerButtonPress, Stays, false)
  {
  }

  lemma PowerButtonPressTimes(w: World)
    requires w.p.Valid() && w.m.display != UnknownMode && !w.m.paused
    ensures Timetable(w, PowerButtonPress, w.HandlePowerButtonPress().p)
  {
    hide Plan.Valid, Says, TimesOut, Restarted, Forgets, Configurable.Get, World.HandlePowerButtonPress;
    hide Plan.LongPress, PressBecomes, ProximityBecomes, ExpirationBecomes, OtherwiseSame, PressRestarts;
    PowerButtonPressSays(w);
    PressPlan(w);
    if PressRestarts(w.m) {
      RestartsAsUsual(w, PowerButtonPress);
      LongPressAfter(w, PowerButtonPress, Restarted(w.p, w.m));
    } else {
      NothingTimesOut(w, PowerButtonPress);
      LongPressAfter(w, PowerButtonPress, w.p);
    }
  }

  lemma PressPlan(w: World)
    requires w.m.display != UnknownMode
    ensures w.HandlePowerButtonPress().p ==
      (if PressRestarts(w.m) then Restarted(w.p, w.m) else w.p).LongPress(w.m.options.longPressTimeout)
  {
    hide World.ExtendFor, World.TurnOn, Plan.LongPress, Restarted;
    var u := w.(m := w.m.(displayAtPress := w.m.display));
    LightPlan(u, PowerButton);
    ExtendPlan(u, PowerButton);
    RestartedDepends(w.p, w.m, u.m);
    PressOptions(w, u);
  }

  lemma PressOptions(w: World, u: World)
    requires u.m.options == w.m.options
    ensures u.ExtendFor(PowerButton).m.options == w.m.options && u.TurnOn(PowerButton).m.options == w.m.options
  {
    hide World.ExtendFor, World.TurnOn;
    LightMachine(u, PowerButton);
    ExtendMachine(u, PowerButton);
  }

  lemma PowerButtonReleaseSays(w: World)
    requires true
    ensures Darkens(w, PowerButtonRelease) ==> Says(w, PowerButtonRelease, Clears, false)
    ensures !Darkens(w, PowerButtonRelease) ==> Says(w, PowerButtonRelease, Stays, false)
  {
  }

  lemma PowerButtonReleaseTimes(w: World)
    requires w.p.Valid() && true
    ensures Timetable(w, PowerButtonRelease, w.HandlePowerButtonRelease().p)
  {
    hide Plan.Valid, Says, TimesOut, Restarted, Forgets, Configurable.Get, World.TurnOff, Plan.CancelOff;
    PowerButtonReleaseSays(w);
    DarkPlan(w, PowerButton);
    if Darkens(w, PowerButtonRelease) {
      ClearTimesOut(w, PowerButtonRelease);
      ReleasedTimes(w, w.p.CancelOff());
    } else {
      NothingTimesOut(w, PowerButtonRelease);
      ReleasedTimes(w, w.p);
    }
  }

  /** The long-press alarm on top of what else the press does. */
  lemma LongPressAfter(w: World, e: Event, q: Plan)
    requires e == PowerButtonPress && q.Valid() && TimesOut(w, e, q) && OtherwiseSame(w.p, q)
    ensures Timetable(w, e, q.LongPress(w.m.options.longPressTimeout))
  {
    hide Plan.Valid, Plan.LongPress, OffChangeOf, OffTimeout, SuspendTimeout, StartsOver;
    LongPressTimes(q, w.m.options.longPressTimeout);
    StillTimesOut(w, e, q, q.LongPress(w.m.options.longPressTimeout));
  }

  /** Schedule and suspend alarm do not depend on the other alarms. */
  lemma StillTimesOut(w: World, e: Event, q: Plan, r: Plan)
    requires TimesOut(w, e, q) && SameOff(q, r) && SameSuspend(q, r)
    requires r.clock.now == q.clock.now && r.dimDuration == q.dimDuration
    ensures TimesOut(w, e, r)
  {
    hide OffChangeOf, OffTimeout, SuspendTimeout, StartsOver;
  }

  lemma ReleasedTimes(w: World, q: Plan)
    requires TimesOut(w, PowerButtonRelease, q) && OtherwiseSame(w.p, q)
    ensures Timetable(w, PowerButtonRelease, q.(longPress := INVALID))
  {
    hide TimesOut;
    StillTimesOutReleased(w, q);
  }

  lemma StillTimesOutReleased(w: World, q: Plan)
    requires TimesOut(w, PowerButtonRelease, q)
    ensures TimesOut(w, PowerButtonRelease, q.(longPress := INVALID))
  {
    hide OffChangeOf, OffTimeout, SuspendTimeout, StartsOver;
  }

  lemma NoActiveCallSays(w: World, far: bool)
    requires w.m.display != UnknownMode
    ensures w.m.display == On || far ==>
      Says(w, NoActiveCall(far), Postponed(w.m.options.reducedOffTimeout, Reduced), false)
    ensures w.m.display == Off && !far ==> Says(w, NoActiveCall(far), Stays, false)
  {
  }

  lemma NoActiveCallTimes(w: World, far: bool)
    requires w.p.Valid() && w.m.display != UnknownMode
    ensures Timetable(w, NoActiveCall(far), w.HandleNoActiveCall(far).p)
  {
    hide Plan.Valid, Says, TimesOut, Restarted, Forgets, Configurable.Get, World.HandleNoActiveCall, Plan.Postpone;
    hide Plan.ProximityDisable, OtherwiseSame;
    NoActiveCallSays(w, far);
    var t := w.m.options.reducedOffTimeout;
    NoActiveCallPlan(w, far);
    if w.m.display == On || far {
      PostponeTimesOut(w, NoActiveCall(far), t, Reduced);
      CallTimes(w, far, w.p.Postpone(t, Reduced));
    } else {
      NothingTimesOut(w, NoActiveCall(far));
      ProximityTimes(w);
    }
  }

  lemma NoActiveCallPlan(w: World, far: bool)
    ensures w.HandleNoActiveCall(far).p ==
      if w.m.display == On || far then w.p.Postpone(w.m.options.reducedOffTimeout, Reduced)
      else w.p.ProximityDisable(w.m.options.reducedOffTimeout)
  {
    hide World.Brighten, World.TurnOnReduced, World.EnableProximity, World.DisableProximity;
    hide Plan.Postpone, Plan.ProximityDisable;
    if w.m.display == On {
      ExtendPlan(w, CallDone);
      BrightnessMachine(w);
      SensorPlan(w.Brighten().ScheduleReduced(), UntilDisabled);
    } else if far {
      LightPlan(w, CallDone);
      SensorPlan(w.TurnOnReduced(CallDone), UntilDisabled);
    } else {
      var u := w.EnableProximity(UntilFarOrTimeout);
      SensorPlan(w, UntilFarOrTimeout);
      SensorMachine(w, UntilFarOrTimeout);
      SensorPlan(u.ScheduleProximityDisable(), UntilDisabled);
    }
  }

  lemma CallTimes(w: World, far: bool, q: Plan)
    requires (w.m.display == On || far) && TimesOut(w, NoActiveCall(far), q) && OtherwiseSame(w.p, q)
    ensures Timetable(w, NoActiveCall(far), q)
  {
    hide TimesOut;
  }

  lemma ProximityTimes(w: World)
    requires w.p.Valid() && w.m.display == Off && TimesOut(w, NoActiveCall(false), w.p)
    ensures Timetable(w, NoActiveCall(false), w.p.ProximityDisable(w.m.options.reducedOffTimeout))
  {
    hide Plan.Valid, Plan.ProximityDisable, TimesOut;
    ProximityDisableTimes(w.p, w.m.options.reducedOffTimeout);
    StillTimesOut(w, NoActiveCall(false), w.p, w.p.ProximityDisable(w.m.options.reducedOffTimeout));
  }

  lemma NewNotificationSays(w: World, far: bool)
    requires w.m.display != UnknownMode
    ensures Says(w, NewNotification(far), Stays, false)
  {
  }

  lemma NewNotificationTimes(w: World, far: bool)
    requires w.p.Valid() && w.m.display != UnknownMode
    ensures Timetable(w, NewNotification(far), w.HandleNotification(far).p)
  {
    hide Plan.Valid, Says, TimesOut, Restarted, Forgets, Configurable.Get, World.HandleNotification, Plan.Expiration;
    hide PressBecomes, ProximityBecomes, ExpirationBecomes;
    NewNotificationSays(w, far);
    NewNotificationPlan(w, far);
    NothingTimesOut(w, NewNotification(far));
    NoticeTimes(w, far);
  }

  function NoticeTime(m: Machine): int {
    var t, u := m.offTimeout.Get(), m.options.notificationExpiration;
    if t < u then t else u
  }

  lemma NewNotificationPlan(w: World, far: bool)
    ensures w.HandleNotification(far).p == w.p.Expiration(NoticeTime(w.m))
  {
    hide Spares, World.Brighten, World.TurnOnWithoutTimeout, World.EnableProximity, Plan.Expiration;
    hide Machine.Enable, Configurable.Get;
    var u := w.DisallowTimeout(Notifications);
    if w.m.display == On {
      ExtendPlan(u, Notification);
      BrightnessSpares(u);
      SamePause(u, u.Brighten(), false);
    } else if far {
      LightPlan(u, Notification);
      LightSpares(u, Notification);
      SamePause(u, u.TurnOnWithoutTimeout(Notification), false);
    } else {
      SensorPlan(u, UntilFarOrExpiration);
      EnableShape(u, UntilFarOrExpiration);
      EnableRest(u.m, UntilFarOrExpiration, true);
    }
  }

  lemma NoticeTimes(w: World, far: bool)
    requires w.p.Valid() && TimesOut(w, NewNotification(far), w.p)
    ensures Timetable(w, NewNotification(far), w.p.Expiration(NoticeTime(w.m)))
  {
    hide Plan.Valid, Plan.Expiration, TimesOut, Configurable.Get;
    ExpirationTimes(w.p, NoticeTime(w.m));
    StillTimesOut(w, NewNotification(far), w.p, w.p.Expiration(NoticeTime(w.m)));
  }

  lemma NoNotificationSays(w: World)
    requires w.m.display != UnknownMode
    ensures Darkens(w, NoNotification) ==> Says(w, NoNotification, Clears, false)
    ensures w.m.display == On && !Darkens(w, NoNotification) ==>
      Says(w, NoNotification, Postponed(w.m.options.postNotificationOffTimeout, PostNotification), false)
    ensures w.m.display == Off ==> Says(w, NoNotification, Stays, false)
  {
  }

  lemma NoNotificationTimes(w: World)
    requires w.p.Valid() && w.m.display != UnknownMode
    ensures Timetable(w, NoNotification, w.HandleNoNotification().p)
  {
    hide Plan.Valid, Says, TimesOut, Restarted, Forgets, Configurable.Get, World.HandleNoNotification, Plan.Postpone;
    hide Plan.CancelOff, Plan.CancelExpiration, OtherwiseSame, PressBecomes, ProximityBecomes, ExpirationBecomes;
    hide Darkens;
    NoNotificationSays(w);
    var q := Ended(w, NoNotification, w.m.options.postNotificationOffTimeout);
    NoNotificationPlan(w);
    EndedTimes(w, NoNotification, w.m.options.postNotificationOffTimeout);
    NoNoticeTimes(w, q);
  }

  /** What the end of a notification makes of the display-off schedule. */
  function Ended(w: World, e: Event, t: int): Plan {
    var q := if w.m.display == On then w.p.Postpone(t, PostNotification) else w.p;
    if Darkens(w, e) then q.CancelOff() else q
  }

  lemma AllowNotificationsPlan(w: World)
    ensures var off := !w.m.notificationAllows && w.m.clientAllows && w.m.display == On && w.p.kind == NoTimeout;
      w.AllowTimeout(Notifications).p == if off && !w.m.paused then w.p.CancelOff() else w.p
  {
    hide World.TurnOff, World.ScheduleNormal, Plan.CancelOff;
    DarkPlan(w.(m := w.m.Allow(Notifications, true)), Activity);
  }

  lemma NoNotificationPlan(w: World)
    ensures w.HandleNoNotification().p
      == Ended(w, NoNotification, w.m.options.postNotificationOffTimeout).CancelExpiration()
  {
    hide World.AllowTimeout, World.DisableProximity, Plan.Postpone, Plan.CancelOff, Plan.CancelExpiration;
    var u := if w.m.display == On then w.SchedulePostNotification() else w;
    PostponeKind(w.p, w.m.options.postNotificationOffTimeout);
    AllowNotificationsPlan(u);
    SensorPlan(u.AllowTimeout(Notifications), UntilFarOrExpiration);
  }

  lemma EndedTimes(w: World, e: Event, t: int)
    requires w.p.Valid() && !e.AlarmEvent?
    requires Darkens(w, e) ==> Says(w, e, Clears, false)
    requires w.m.display == On && !Darkens(w, e) ==> Says(w, e, Postponed(t, PostNotification), false)
    requires w.m.display != On ==> Says(w, e, Stays, false) && !Darkens(w, e)
    ensures TimesOut(w, e, Ended(w, e, t)) && OtherwiseSame(w.p, Ended(w, e, t)) && Ended(w, e, t).Valid()
  {
    hide Plan.Valid, Plan.Postpone, Plan.CancelOff, Says, TimesOut, OtherwiseSame, Darkens;
    if w.m.display == On {
      var q := w.p.Postpone(t, PostNotification);
      PostponeTimes(w.p, t, PostNotification);
      if Darkens(w, e) { ClearsLater(w, e, q); } else { PostponeTimesOut(w, e, t, PostNotification); }
    } else {
      NothingTimesOut(w, e);
    }
  }

  lemma ClearsLater(w: World, e: Event, q: Plan)
    requires Says(w, e, Clears, false) && !e.AlarmEvent? && q.Valid() && (OnlyOff(w.p, q) || q == w.p)
    ensures TimesOut(w, e, q.CancelOff()) && OtherwiseSame(w.p, q.CancelOff()) && q.CancelOff().Valid()
  {
    hide Plan.Valid, Plan.CancelOff, OffChangeOf, OffTimeout, SuspendTimeout, StartsOver;
    CancelOffTimes(q);
  }

  lemma NoNoticeTimes(w: World, q: Plan)
    requires q.Valid() && TimesOut(w, NoNotification, q) && OtherwiseSame(w.p, q)
    ensures Timetable(w, NoNotification, q.CancelExpiration())
  {
    hide Plan.Valid, Plan.CancelExpiration, TimesOut;
    CancelExpirationTimes(q);
    StillTimesOut(w, NoNotification, q, q.CancelExpiration());
  }

  lemma SuppliedTimeouts(m: Machine, battery: bool, far: bool)
    ensures var n := OnSupply(m, battery);
      && OffTimeout(m, Starting(battery)) == n.offTimeout.Get()
      && SuspendTimeout(m, Starting(battery)) == n.suspendTimeout.Get()
      && OffTimeout(m, PowerSourceChange(battery, far)) == n.offTimeout.Get()
      && SuspendTimeout(m, PowerSourceChange(battery, far)) == n.suspendTimeout.Get()
      && n.options == m.options
  {
  }

  /** A suspend timeout started over on top of what else the event does to the display. */
  lemma SuspendLast(w: World, e: Event, q: Plan)
    requires q.Valid() && OffBecomes(w.p, q, OffChangeOf(w, e), OffTimeout(w.m, e))
    requires OtherwiseSame(w.p, q) && StartsOver(w, e) && !e.AlarmEvent?
    ensures var r := q.NormalSuspend(SuspendTimeout(w.m, e));
      TimesOut(w, e, r) && OtherwiseSame(w.p, r)
  {
    hide Plan.Valid, Plan.NormalSuspend, OffChangeOf, OffTimeout, SuspendTimeout, StartsOver;
    NormalSuspendTimes(q, SuspendTimeout(w.m, e));
  }

  lemma PowerSourcePlan(w: World, battery: bool, far: bool)
    ensures var n := OnSupply(w.m, battery);
      w.HandlePowerSourceChange(battery, far).p ==
        (if w.m.display == On then Restarted(w.p, n)
         else if far then w.p.Postpone(n.options.reducedOffTimeout, Reduced)
         else w.p).NormalSuspend(n.suspendTimeout.Get())
  {
    hide World.HandlePowerSourceChange, Plan.Postpone, Plan.NormalSuspend, Restarted, Configurable.Get, OnSupply;
    if w.m.display == On { PowerSourceLitPlan(w, battery, far); }
    else if far { PowerSourceFarPlan(w, battery); }
    else { PowerSourceNearPlan(w, battery); }
  }

  lemma PowerSourceLitPlan(w: World, battery: bool, far: bool)
    requires w.m.display == On
    ensures var n := OnSupply(w.m, battery);
      w.HandlePowerSourceChange(battery, far).p == Restarted(w.p, n).NormalSuspend(n.suspendTimeout.Get())
  {
    hide World.ExtendFor, World.OnBattery, OnSupply, Plan.NormalSuspend, Restarted, Configurable.Get;
    var u := w.OnBattery(battery);
    BatteryMakes(w, battery);
    ExtendPlan(u, Activity);
    ExtendMachine(u, Activity);
  }

  lemma PowerSourceFarPlan(w: World, battery: bool)
    requires w.m.display != On
    ensures var n := OnSupply(w.m, battery);
      w.HandlePowerSourceChange(battery, true).p
        == w.p.Postpone(n.options.reducedOffTimeout, Reduced).NormalSuspend(n.suspendTimeout.Get())
  {
    hide World.TurnOnReduced, World.OnBattery, OnSupply, Plan.NormalSuspend, Plan.Postpone, Configurable.Get;
    var u := w.OnBattery(battery);
    BatteryMakes(w, battery);
    LightPlan(u, Notification);
    LightMachine(u, Notification);
  }

  lemma PowerSourceNearPlan(w: World, battery: bool)
    requires w.m.display != On
    ensures var n := OnSupply(w.m, battery);
      w.HandlePowerSourceChange(battery, false).p == w.p.NormalSuspend(n.suspendTimeout.Get())
  {
    hide World.OnBattery, OnSupply, Plan.NormalSuspend, Configurable.Get;
    BatteryMakes(w, battery);
  }

  lemma PowerSourceChangeSays(w: World, battery: bool, far: bool)
    requires w.m.display != UnknownMode && !w.m.paused
    ensures w.m.display == On ==> Says(w, PowerSourceChange(battery, far), Restarts, true)
    ensures w.m.display == Off && far ==>
      Says(w, PowerSourceChange(battery, far), Postponed(w.m.options.reducedOffTimeout, Reduced), true)
    ensures w.m.display == Off && !far ==> Says(w, PowerSourceChange(battery, far), Stays, true)
  {
  }

  lemma PowerSourceChangeTimes(w: World, battery: bool, far: bool)
    requires w.p.Valid() && w.m.display != UnknownMode && !w.m.paused
    ensures var q := w.HandlePowerSourceChange(battery, far).p;
      TimesOut(w, PowerSourceChange(battery, far), q) && OtherwiseSame(w.p, q)
  {
    hide Plan.Valid, Says, TimesOut, OtherwiseSame, Restarted, Forgets, World.HandlePowerSourceChange, OnSupply;
    hide Plan.NormalSuspend, Plan.Postpone, Configurable.Get, OffTimeout, SuspendTimeout;
    PowerSourceChangeSays(w, battery, far);
    PowerSourcePlan(w, battery, far);
    SuppliedTimeouts(w.m, battery, far);
    SourceTimes(w, battery, far);
  }

  lemma SourceTimes(w: World, battery: bool, far: bool)
    requires w.p.Valid() && w.m.display != UnknownMode
    requires var e := PowerSourceChange(battery, far);
      && (w.m.display == On ==> Says(w, e, Restarts, true))
      && (w.m.display == Off && far ==> Says(w, e, Postponed(w.m.options.reducedOffTimeout, Reduced), true))
      && (w.m.display == Off && !far ==> Says(w, e, Stays, true))
    ensures var e, n := PowerSourceChange(battery, far), OnSupply(w.m, battery);
      var q := (if w.m.display == On then Restarted(w.p, n)
                else if far then w.p.Postpone(w.m.options.reducedOffTimeout, Reduced)
                else w.p).NormalSuspend(SuspendTimeout(w.m, e));
      TimesOut(w, e, q) && OtherwiseSame(w.p, q)
  {
    hide Plan.Valid, Plan.Postpone, Plan.NormalSuspend, OnSupply, Configurable.Get, Restarted;
    hide OffChangeOf, OffTimeout, SuspendTimeout, StartsOver, TimesOut;
    var e, n := PowerSourceChange(battery, far), OnSupply(w.m, battery);
    var t := w.m.options.reducedOffTimeout;
    SuppliedTimeouts(w.m, battery, far);
    if w.m.display == On {
      RestartedTimes(w.p, n);
      SuspendLast(w, e, Restarted(w.p, n));
    } else if far {
      PostponeTimes(w.p, t, Reduced);
      AlikeItself(w.p);
      SuspendLast(w, e, w.p.Postpone(t, Reduced));
    } else {
      AlikeItself(w.p);
      SuspendLast(w, e, w.p);
    }
  }

  lemma StartingSays(w: World, battery: bool)
    requires !w.m.paused
    ensures w.m.options.displayOnAtStartup ==> Says(w, Starting(battery), Restarts, true)
    ensures !w.m.options.displayOnAtStartup ==> Says(w, Starting(battery), Stays, false)
  {
  }

  lemma StartingTimes(w: World, battery: bool)
    requires w.p.Valid() && !w.m.paused
    ensures var q := w.Start(battery).p;
      TimesOut(w, Starting(battery), q) && OtherwiseSame(w.p, q)
  {
    hide Plan.Valid, Says, TimesOut, OtherwiseSame, Restarted, Forgets, Outputs.Record, World.TurnOn, World.OnBattery;
    hide OnSupply, OffTimeout, SuspendTimeout, Configurable.Get;
    StartingSays(w, battery);
    BatteryMakes(w, battery);
    SuppliedTimeouts(w.m, battery, true);
    LightPlan(w.OnBattery(battery).Emit(DisallowDefaultHandlers), UnknownReason);
    if w.m.options.displayOnAtStartup { RestartTimesOut(w, Starting(battery), OnSupply(w.m, battery)); }
    else { NothingTimesOut(w, Starting(battery)); }
  }

  lemma PausingSays(w: World)
    requires true
    ensures Says(w, Pausing, Stays, false)
  {
  }

  lemma PausingTimes(w: World)
    requires w.p.Valid() && true
    ensures Timetable(w, Pausing, w.Pause().p)
  {
    hide Plan.Valid, Says, TimesOut, Restarted, Forgets, Configurable.Get, Outputs.Record, Plan.CancelLongPress;
    PausingSays(w);
    NothingTimesOut(w, Pausing);
    CancelLongPressTimes(w.p);
    StillTimesOut(w, Pausing, w.p, w.p.CancelLongPress());
  }

  lemma BehaviorSays(w: World, action: PowerAction, supply: PowerSupply, timeout: int)
    requires true
    ensures Reconfigures(w, action, supply, timeout) ==>
      Says(w, SetInactivityBehavior(action, supply, timeout), Restarts, true)
    ensures !Reconfigures(w, action, supply, timeout) ==>
      Says(w, SetInactivityBehavior(action, supply, timeout), Stays, false)
  {
  }

  lemma BehaviorTimes(w: World, action: PowerAction, supply: PowerSupply, timeout: int)
    requires w.p.Valid() && true
    ensures var q := w.HandleSetInactivityBehavior(action, supply, timeout).p;
      TimesOut(w, SetInactivityBehavior(action, supply, timeout), q) && OtherwiseSame(w.p, q)
  {
    hide Plan.Valid, Says, TimesOut, OtherwiseSame, Restarted, Forgets, World.HandleSetInactivityBehavior;
    hide Reconfigures, Replaced, OffTimeout, SuspendTimeout, Configurable.Get;
    BehaviorSays(w, action, supply, timeout);
    BehaviorPlan(w, action, supply, timeout);
    if Reconfigures(w, action, supply, timeout) {
      BehaviorTimeouts(w, action, supply, timeout);
      RestartTimesOut(w, SetInactivityBehavior(action, supply, timeout), Reset(w.m, action, supply, timeout));
    } else {
      NothingTimesOut(w, SetInactivityBehavior(action, supply, timeout));
    }
  }

  function Reset(m: Machine, action: PowerAction, supply: PowerSupply, timeout: int): Machine {
    if action == DisplayOff then m.(offTimeout := Replaced(m.offTimeout, supply, timeout))
    else m.(suspendTimeout := Replaced(m.suspendTimeout, supply, timeout))
  }

  lemma BehaviorTimeouts(w: World, action: PowerAction, supply: PowerSupply, timeout: int)
    requires Reconfigures(w, action, supply, timeout)
    ensures var n := Reset(w.m, action, supply, timeout);
      && OffTimeout(w.m, SetInactivityBehavior(action, supply, timeout)) == n.offTimeout.Get()
      && SuspendTimeout(w.m, SetInactivityBehavior(action, supply, timeout)) == n.suspendTimeout.Get()
  {
  }

  lemma BehaviorPlan(w: World, action: PowerAction, supply: PowerSupply, timeout: int)
    ensures w.HandleSetInactivityBehavior(action, supply, timeout).p ==
      if Reconfigures(w, action, supply, timeout) then Restarted(w.p, Reset(w.m, action, supply, timeout)) else w.p
  {
    hide Plan.NormalOff, Plan.NormalSuspend, Replaced, Configurable.Set, Configurable.Get;
    SetReplaces(w.m.offTimeout, supply, timeout);
    SetReplaces(w.m.suspendTimeout, supply, timeout);
  }

  // ---------- The arrival of an alarm ----------

  lemma SlotsApart(p: Plan, id: AlarmId)
    requires p.Valid() && id in p.clock.fired
    ensures id != INVALID
    ensures id == p.longPress ==> id !in {p.dim, p.off, p.suspend, p.proximity, p.expiration}
    ensures id == p.dim ==> id !in {p.off, p.suspend, p.proximity, p.expiration}
    ensures id == p.off ==> id !in {p.suspend, p.proximity, p.expiration}
    ensures id == p.suspend ==> id !in {p.proximity, p.expiration}
    ensures id == p.proximity ==> id != p.expiration
  {
  }

  lemma LongPressArrival(w: World, id: AlarmId)
    requires w.p.Valid() && id in w.p.clock.fired && id == w.p.longPress
    ensures Timetable(w, AlarmEvent(id), w.p.(longPress := INVALID))
  {
    hide Plan.Valid, Darkens, Forgets;
    SlotsApart(w.p, id);
    AlarmSays(w, id);
  }

  lemma DimArrival(w: World, id: AlarmId)
    requires w.p.Valid() && id in w.p.clock.fired && id == w.p.dim
    ensures Timetable(w, AlarmEvent(id), w.p.(dim := INVALID))
  {
    hide Plan.Valid, Darkens, Forgets;
    SlotsApart(w.p, id);
    AlarmSays(w, id);
  }

  lemma SuspendArrival(w: World, id: AlarmId)
    requires w.p.Valid() && id in w.p.clock.fired && id == w.p.suspend
    ensures Timetable(w, AlarmEvent(id), w.p.(suspend := INVALID))
  {
    hide Plan.Valid, Darkens, Forgets;
    SlotsApart(w.p, id);
    AlarmSays(w, id);
  }

  lemma ProximityArrival(w: World, id: AlarmId)
    requires w.p.Valid() && id in w.p.clock.fired && id == w.p.proximity
    ensures Timetable(w, AlarmEvent(id), w.p.(proximity := INVALID))
  {
    hide Plan.Valid, Darkens, Forgets;
    SlotsApart(w.p, id);
    AlarmSays(w, id);
  }

  lemma UnknownArrival(w: World, id: AlarmId)
    requires w.p.Valid() && id in w.p.clock.fired && !w.p.Owns(id)
    ensures Timetable(w, AlarmEvent(id), w.p)
  {
    hide Plan.Valid, Darkens, Forgets;
    AlarmSays(w, id);
  }

  /** What the table says of an alarm. */
  lemma AlarmSays(w: World, id: AlarmId)
    requires w.p.Valid() && id in w.p.clock.fired
    ensures !StartsOver(w, AlarmEvent(id))
    ensures id != w.p.off && id != w.p.dim && id != w.p.expiration ==> OffChangeOf(w, AlarmEvent(id)) == Stays
    ensures id == w.p.dim ==> OffChangeOf(w, AlarmEvent(id)) == DimArrives
    ensures id == w.p.off ==>
      OffChangeOf(w, AlarmEvent(id)) == if !w.m.paused && MayTimeOut(w.m) then Clears else Expires
    ensures id == w.p.expiration ==>
      OffChangeOf(w, AlarmEvent(id)) ==
        if !w.m.paused && NothingLeft(w, 0) then Clears
        else if w.m.display == On then Postponed(0, PostNotification)
        else Stays
  {
    hide Plan.Valid, MayTimeOut, NothingLeft;
    SlotsApart(w.p, id);
  }

  lemma OffArrival(w: World, id: AlarmId)
    requires w.p.Valid() && id in w.p.clock.fired && id == w.p.off
    ensures var q := w.p.(off := INVALID);
      Timetable(w, AlarmEvent(id), if !w.m.paused && MayTimeOut(w.m) then q.CancelOff() else q.(kind := NoTimeout))
  {
    hide Plan.Valid, Plan.CancelOff, Darkens, Forgets, MayTimeOut;
    SlotsApart(w.p, id);
    AlarmSays(w, id);
    ClearedByArrival(w.p);
  }

  /** Cancelling an off alarm that has gone off comes too late and does no harm. */
  lemma ClearedByArrival(p: Plan)
    requires p.Valid() && p.off in p.clock.fired
    ensures OnlyOff(p, p.(off := INVALID).CancelOff()) && NothingScheduled(p.(off := INVALID).CancelOff())
    ensures p.(off := INVALID).CancelOff().(kind := NoTimeout) == p.(off := INVALID).CancelOff()
  {
  }

  /** What the expiration alarm leaves of the plan. */
  function Expired(w: World): Plan {
    var u := w.p.(expiration := INVALID);
    var q := if w.m.display == On then u.Postpone(0, PostNotification) else u;
    if !w.m.paused && NothingLeft(w, 0) then q.CancelOff() else q
  }

  lemma ExpirationArrival(w: World, id: AlarmId)
    requires w.p.Valid() && id in w.p.clock.fired && id == w.p.expiration
    ensures Timetable(w, AlarmEvent(id), Expired(w))
  {
    hide Plan.Valid, Plan.CancelOff, Plan.Postpone, Darkens, Forgets, NothingLeft, OtherwiseSame;
    SlotsApart(w.p, id);
    AlarmSays(w, id);
    var u := w.p.(expiration := INVALID);
    ExpirationLess(w.p);
    if w.m.display == On {
      PostponeTimes(u, 0, PostNotification);
      if NothingLeft(w, 0) { CancelOffTimes(u.Postpone(0, PostNotification)); }
    } else {
      NothingLeftIsLit(w);
    }
  }

  lemma NothingLeftIsLit(w: World)
    ensures NothingLeft(w, 0) ==> w.m.display == On
  {
  }

  lemma ExpirationLess(p: Plan)
    requires p.Valid()
    ensures var u := p.(expiration := INVALID);
      u.Valid() && SamePress(p, u) && SameOff(p, u) && SameSuspend(p, u) && SameProximity(p, u)
  {
  }

  lemma SmallAlarmPlans(w: World)
    ensures w.LongPressAlarm().p == w.p.(longPress := INVALID) && w.DimAlarm().p == w.p.(dim := INVALID)
    ensures w.SuspendAlarm().p == w.p.(suspend := INVALID)
    ensures w.ProximityAlarm().p == w.p.(proximity := INVALID)
  {
    hide Outputs.Record, World.DisableProximity, World.Dim, Machine.TimeoutApplies;
    SensorPlan(w.(p := w.p.(proximity := INVALID)), UntilFarOrTimeout);
    ExtendPlan(w.(p := w.p.(dim := INVALID)), Activity);
  }

  lemma OffAlarmPlan(w: World)
    requires w.p.Valid() && w.p.off in w.p.clock.fired
    ensures var q := w.p.(off := INVALID);
      w.OffAlarm().p == if !w.m.paused && MayTimeOut(w.m) then q.CancelOff() else q.(kind := NoTimeout)
  {
    hide Plan.Valid, World.TurnOff, Plan.CancelOff;
    DarkPlan(w.(p := w.p.(off := INVALID)), Activity);
    ClearedByArrival(w.p);
  }

  lemma ExpirationAlarmPlan(w: World)
    ensures w.ExpirationAlarm().p == Expired(w)
  {
    hide World.AllowTimeout, World.DisableProximity, Plan.Postpone, Plan.CancelOff;
    var u := w.(p := w.p.(expiration := INVALID));
    PostponeKind(u.p, 0);
    AllowNotificationsPlan(if w.m.display == On then u.ScheduleImmediate() else u);
    var v := if w.m.display == On then u.ScheduleImmediate() else u;
    SensorPlan(v.AllowTimeout(Notifications), UntilFarOrExpiration);
  }

  lemma AlarmTimes(w: World, id: AlarmId)
    requires Inv(w) && id in w.p.clock.fired
    ensures Timetable(w, AlarmEvent(id), w.HandleAlarm(id).p)
  {
    hide Inv, Plan.Valid, Plan.CancelOff, Timetable, Expired, World.HandleAlarm, MayTimeOut;
    hide World.LongPressAlarm, World.DimAlarm, World.OffAlarm, World.SuspendAlarm, World.ProximityAlarm;
    hide World.ExpirationAlarm;
    SoundPlan(w);
    AlarmMakes(w, id);
    SmallAlarmPlans(w);
    if id == w.p.longPress { LongPressArrival(w, id); }
    else if id == w.p.dim { DimArrival(w, id); }
    else if id == w.p.off { OffArrival(w, id); OffAlarmPlan(w); }
    else if id == w.p.suspend { SuspendArrival(w, id); }
    else if id == w.p.proximity { ProximityArrival(w, id); }
    else if id == w.p.expiration { ExpirationArrival(w, id); ExpirationAlarmPlan(w); }
    else { UnknownArrival(w, id); }
  }

  /** The timer forgets the alarm, and no other. */
  lemma ForgottenTimes(w: World, id: AlarmId, q: Plan)
    requires w.p.Valid() && id in w.p.clock.fired && Timetable(w, AlarmEvent(id), q)
    ensures Timetable(w, AlarmEvent(id), q.(clock := q.clock.Delivered(id)))
  {
    hide Plan.Valid, Darkens, Forgets, MayTimeOut, NothingLeft;
    SlotsApart(w.p, id);
    AlarmSays(w, id);
  }

  lemma ArrivalTimes(w: World, id: AlarmId)
    requires Inv(w) && id in w.p.clock.fired
    ensures Timetable(w, AlarmEvent(id), Step(w, AlarmEvent(id)).p)
  {
    hide Inv, Plan.Valid, Timetable, World.HandleAlarm;
    SoundPlan(w);
    AlarmTimes(w, id);
    ForgottenTimes(w, id, w.HandleAlarm(id).p);
  }

  // ---------- Every event ----------

  lemma QuietSays(w: World, e: Event)
    requires e.SetLidBehavior? || e.SetCriticalPowerBehavior? || e.PowerSourceCritical? || e.SetNormalBrightness'?
      || e.Autobrightness? || e.AllowSuspend? || e.DisallowSuspend?
    ensures Says(w, e, Stays, false)
  {
  }

  lemma QuietPlan(w: World, e: Event)
    requires e.SetLidBehavior? || e.SetCriticalPowerBehavior? || e.PowerSourceCritical? || e.SetNormalBrightness'?
      || e.Autobrightness? || e.AllowSuspend? || e.DisallowSuspend?
    ensures Step(w, e).p == w.p
  {
    hide Outputs.Record;
  }

  lemma QuietTimes(w: World, e: Event)
    requires e.SetLidBehavior? || e.SetCriticalPowerBehavior? || e.PowerSourceCritical? || e.SetNormalBrightness'?
      || e.Autobrightness? || e.AllowSuspend? || e.DisallowSuspend?
    ensures Timetable(w, e, Step(w, e).p)
  {
    hide Says, TimesOut, OtherwiseSame, Timetable, Step;
    QuietSays(w, e);
    QuietPlan(w, e);
    NothingTimesOut(w, e);
    OrdinaryTimes(w, e, w.p);
  }

  lemma ActiveTimes(w: World, e: Event)
    requires w.p.Valid() && w.m.display != UnknownMode && !w.m.paused && !ReachesPaused(e)
    ensures Timetable(w, e, Step(w, e).p)
  {
    hide Plan.Valid, Timetable, TimesOut, OtherwiseSame, World.HandleActiveCall, World.HandleLidClosed;
    hide World.HandleLidOpen, World.HandlePowerButtonPress, World.HandlePowerButtonRelease;
    hide World.HandlePowerSourceChange, World.HandlePowerSourceCritical, World.HandleProximityFar;
    hide World.HandleProximityNear, World.HandleUserActivityChangingPowerState;
    hide World.HandleUserActivityExtendingPowerState, World.HandleSystemResume, World.Start, World.Pause;
    match e
    case ActiveCall(far) => ActiveCallTimes(w, far); OrdinaryTimes(w, e, Step(w, e).p);
    case LidClosed(x) => LidClosedTimes(w, x); OrdinaryTimes(w, e, Step(w, e).p);
    case LidOpen => LidOpenTimes(w); OrdinaryTimes(w, e, Step(w, e).p);
    case PowerButtonPress => PowerButtonPressTimes(w);
    case PowerButtonRelease => PowerButtonReleaseTimes(w);
    case PowerSourceChange(b, far) => PowerSourceChangeTimes(w, b, far); OrdinaryTimes(w, e, Step(w, e).p);
    case PowerSourceCritical => QuietTimes(w, e);
    case ProximityFar => ProximityFarTimes(w); OrdinaryTimes(w, e, Step(w, e).p);
    case ProximityNear => ProximityNearTimes(w); OrdinaryTimes(w, e, Step(w, e).p);
    case ActivityChanging(far) => ActivityChangingTimes(w, far); OrdinaryTimes(w, e, Step(w, e).p);
    case ActivityExtending => ActivityExtendingTimes(w); OrdinaryTimes(w, e, Step(w, e).p);
    case SystemResume => SystemResumeTimes(w); OrdinaryTimes(w, e, Step(w, e).p);
    case Starting(b) => StartingTimes(w, b); OrdinaryTimes(w, e, Step(w, e).p);
    case Pausing => PausingTimes(w);
    case _ =>
  }

  lemma ClientTimes(w: World, e: Event)
    requires Inv(w) && Possible(w, e) && w.p.Valid() && w.m.display != UnknownMode
    requires ReachesPaused(e) && !e.TimePasses? && !e.AlarmFires?
    ensures Timetable(w, e, Step(w, e).p)
  {
    hide Inv, Plan.Valid, Timetable, TimesOut, OtherwiseSame, World.HandleNoActiveCall, World.HandleAlarm;
    hide World.HandleEnableInactivityTimeout, World.HandleDisableInactivityTimeout, World.HandleSetInactivityBehavior;
    hide World.HandleNoNotification, World.HandleNotification, World.HandleSetLidBehavior;
    hide World.HandleSetCriticalPowerBehavior, World.HandleSetNormalBrightnessValue, World.HandleAutobrightness;
    hide World.HandleAllowSuspend, World.HandleDisallowSuspend, World.HandleTurnOnDisplay, World.HandleTurnOffDisplay;
    hide World.Resume;
    match e
    case NoActiveCall(far) => NoActiveCallTimes(w, far);
    case EnableInactivityTimeout => EnableTimeoutTimes(w); OrdinaryTimes(w, e, Step(w, e).p);
    case DisableInactivityTimeout => DisableTimeoutTimes(w); OrdinaryTimes(w, e, Step(w, e).p);
    case SetInactivityBehavior(a, s, t) => BehaviorTimes(w, a, s, t); OrdinaryTimes(w, e, Step(w, e).p);
    case NoNotification => NoNotificationTimes(w);
    case NewNotification(far) => NewNotificationTimes(w, far);
    case TurnDisplayOn => TurnDisplayOnTimes(w); OrdinaryTimes(w, e, Step(w, e).p);
    case TurnDisplayOff => TurnDisplayOffTimes(w); OrdinaryTimes(w, e, Step(w, e).p);
    case Resuming => ResumingTimes(w); OrdinaryTimes(w, e, Step(w, e).p);
    case AlarmEvent(id) => ArrivalTimes(w, id);
    case _ => QuietTimes(w, e);
  }

  /** When every alarm is due after every possible event: which events set it, to what time, which drop
      it, and that all others leave it alone. */
  lemma EventTimes(w: World, e: Event)
    requires Inv(w) && Possible(w, e) && !e.TimePasses? && !e.AlarmFires?
    ensures Timetable(w, e, Step(w, e).p)
  {
    hide Plan.Valid, ProperLog, Timetable, Step;
    if ReachesPaused(e) { ClientTimes(w, e); } else { ActiveTimes(w, e); }
  }
}
