/** Automatic brightness: two exponential averages of the ambient light and a chain of debounce
    callbacks told apart by sequence numbers. Times are in nanoseconds. */
module Autobrightness {
  import opened MonotoneSpline
  import opened Reals

  const SLOW_SMOOTHING: real := 2000.0
  const FAST_SMOOTHING: real := 200.0
  const HYSTERESIS_FACTOR: real := 0.1
  const MIN_HYSTERESIS: real := 2.0
  const DEBOUNCE_DELAY: nat := 4_000_000_000
  const NANOSECONDS_PER_MILLISECOND: nat := 1_000_000

  function Max(a: real, b: real): real {
    if a < b then b else a
  }

  function Hysteresis(light: real): real {
    Max(light * HYSTERESIS_FACTOR, MIN_HYSTERESIS)
  }

  function Smoothed(average: real, value: real, factor: real): real {
    average + factor * (value - average)
  }

  function Factor(dt: nat, smoothing: real): real
    requires smoothing > 0.0
  {
    dt as real / (dt as real + smoothing)
  }

  /** The event loop: its clock, and when each scheduled callback is due, by sequence number. */
  datatype Loop = Loop(now: nat, pending: map<int, nat>)

  datatype Algorithm = Algorithm(
    table: Spline,
    maxBrightness: real,
    started: bool,
    lastTime: nat,
    lastLight: real,
    applied: real,
    fast: real,
    slow: real,
    debouncing: bool,
    seqnum: int,
    loop: Loop,
    emitted: seq<real>)
  {
    ghost predicate Ready() {
      table.Valid() && maxBrightness > 0.0
    }

    predicate HavePrevious() {
      lastTime != 0
    }

    /** Whole milliseconds since the last light value; the clock never goes back. */
    function Elapsed(): nat {
      if lastTime <= loop.now then (loop.now - lastTime) / NANOSECONDS_PER_MILLISECOND else 0
    }

    function Reset(): Algorithm {
      this.(lastLight := 0.0, lastTime := 0, applied := 0.0, fast := 0.0, slow := 0.0,
            debouncing := false, seqnum := seqnum + 1)
    }

    function Start(): Algorithm {
      if started then this else Reset().(started := true)
    }

    function Stop(): Algorithm {
      if started then Reset().(started := false) else this
    }

    function UpdateAverages(light: real): Algorithm {
      var fast' := if HavePrevious() then Smoothed(fast, light, Factor(Elapsed(), FAST_SMOOTHING)) else light;
      var slow' := if HavePrevious() then Smoothed(slow, light, Factor(Elapsed(), SLOW_SMOOTHING)) else light;
      this.(fast := fast', slow := slow', lastTime := loop.now, lastLight := light)
    }

    /** Announce the brightness for the fast average. */
    function ApplyFast(): Algorithm
      requires Ready()
    {
      this.(emitted := emitted + [table.Interpolate(fast) / maxBrightness], applied := fast)
    }

    function ScheduleDebounce(): Algorithm {
      if debouncing then this
      else this.(debouncing := true, seqnum := seqnum + 1,
                 loop := loop.(pending := loop.pending[seqnum + 1 := loop.now + DEBOUNCE_DELAY]))
    }

    function NewLightValue(light: real): Algorithm
      requires Ready()
    {
      if !started then this
      else if HavePrevious() then UpdateAverages(light).ScheduleDebounce()
      else UpdateAverages(light).ApplyFast()
    }

    /** Both averages have left the applied light on the same side. */
    predicate Moved() {
      var h := Hysteresis(applied);
      || (slow - applied >= h && fast - applied >= h)
      || (applied - slow >= h && applied - fast >= h)
    }

    predicate Unsettled() {
      Abs(fast - lastLight) >= Hysteresis(lastLight)
    }

    function Debounce(): Algorithm
      requires Ready()
    {
      var s := this.(debouncing := false).UpdateAverages(lastLight);
      var s := if s.Moved() then s.ApplyFast() else s;
      if s.Unsettled() then s.ScheduleDebounce() else s
    }

    /** A scheduled callback runs: one with an old sequence number does nothing. */
    function Callback(n: int): Algorithm
      requires Ready()
    {
      var s := this.(loop := loop.(pending := loop.pending - {n}));
      if n != seqnum then s else s.Debounce()
    }
  }

  // ---------- Runs ----------

  datatype Event = Light(light: real) | Starts | Stops | Runs(n: int) | Passes(t: nat)

  function Step(s: Algorithm, e: Event): (v: Algorithm)
    requires s.Ready()
    ensures v.Ready() && v.table == s.table && v.maxBrightness == s.maxBrightness
  {
    match e
    case Light(light) => s.NewLightValue(light)
    case Starts => s.Start()
    case Stops => s.Stop()
    case Runs(n) => s.Callback(n)
    case Passes(t) => s.(loop := s.loop.(now := s.loop.now + t))
  }

  /** Callbacks run once, and not before they are due. */
  predicate Possible(s: Algorithm, e: Event) {
    e.Runs? ==> e.n in s.loop.pending && s.loop.pending[e.n] <= s.loop.now
  }

  ghost predicate PossibleRun(s: Algorithm, es: seq<Event>)
    requires s.Ready()
    decreases |es|
  {
    es == [] || (Possible(s, es[0]) && PossibleRun(Step(s, es[0]), es[1..]))
  }

  ghost function Run(s: Algorithm, es: seq<Event>): (v: Algorithm)
    requires s.Ready()
    ensures v.Ready() && v.table == s.table && v.maxBrightness == s.maxBrightness
    decreases |es|
  {
    if es == [] then s else Run(Step(s, es[0]), es[1..])
  }

  // ---------- The debounce chain ----------

  /** At most one pending callback is current, and one is exactly while debouncing; a stopped
      algorithm has seen no light, and one that is not debouncing has settled. */
  predicate Chain(s: Algorithm) {
    && (s.debouncing <==> s.seqnum in s.loop.pending)
    && (forall n :: n in s.loop.pending ==> n <= s.seqnum)
    && s.lastTime <= s.loop.now
    && (s.debouncing ==> s.started && s.HavePrevious())
    && (!s.started ==> !s.HavePrevious())
    && (s.HavePrevious() && !s.debouncing ==> !s.Unsettled())
  }

  lemma StepKeepsChain(s: Algorithm, e: Event)
    requires s.Ready() && Chain(s) && Possible(s, e)
    ensures Chain(Step(s, e)) && s.seqnum <= Step(s, e).seqnum
  {
    hide Spline.Interpolate, Smoothed, Factor, Algorithm.Moved;
  }

  lemma {:induction false} RunKeepsChain(s: Algorithm, es: seq<Event>)
    requires s.Ready() && Chain(s) && PossibleRun(s, es)
    ensures Chain(Run(s, es)) && s.seqnum <= Run(s, es).seqnum
    decreases |es|
  {
    hide Step, Possible, Chain;
    if es != [] {
      StepKeepsChain(s, es[0]);
      RunKeepsChain(Step(s, es[0]), es[1..]);
    }
  }

  /** Stopping a running algorithm, or starting one, outdates every callback scheduled before. */
  lemma RestartOutdates(s: Algorithm, n: int)
    requires s.Ready() && Chain(s) && n in s.loop.pending
    ensures s.started ==> n < s.Stop().seqnum
    ensures !s.started ==> n < s.Start().seqnum
  {
  }

  /** An outdated callback changes nothing, after however many events it may run. */
  lemma OutdatedForever(s: Algorithm, es: seq<Event>, n: int)
    requires s.Ready() && Chain(s) && PossibleRun(s, es) && n < s.seqnum
    ensures var v := Run(s, es);
      v.Callback(n) == v.(loop := v.loop.(pending := v.loop.pending - {n}))
  {
    RunKeepsChain(s, es);
  }

  // ---------- The averages ----------

  /** The factor is a quotient below one. */
  lemma FactorIsFraction(dt: nat, smoothing: real)
    requires smoothing > 0.0
    ensures 0.0 <= Factor(dt, smoothing) < 1.0
    ensures Factor(dt, smoothing) * (dt as real + smoothing) == dt as real
  {
    var d := dt as real;
    QuotientInUnit(d, d + smoothing, Factor(dt, smoothing));
  }

  lemma QuotientInUnit(a: real, b: real, q: real)
    requires 0.0 <= a < b && q == a / b
    ensures 0.0 <= q < 1.0 && q * b == a
  {
  }

  /** A mixture of two values lies between them. */
  lemma Mixture(a: real, b: real, f: real, lo: real, hi: real)
    requires 0.0 <= f <= 1.0 && lo <= a <= hi && lo <= b <= hi
    ensures lo <= Smoothed(a, b, f) <= hi
  {
    MixtureAbove(a, b, f, lo);
    MixtureAbove(-a, -b, f, -hi);
  }

  lemma MixtureAbove(a: real, b: real, f: real, lo: real)
    requires 0.0 <= f <= 1.0 && lo <= a && lo <= b
    ensures lo <= a + f * (b - a)
  {
    assert a + f * (b - a) == lo + (1.0 - f) * (a - lo) + f * (b - lo);
    NonnegProduct(1.0 - f, a - lo, (1.0 - f) * (a - lo));
    NonnegProduct(f, b - lo, f * (b - lo));
  }

  /** Once a light value has been seen, everything derived from light values lies in the range. */
  predicate Within(s: Algorithm, lo: real, hi: real) {
    s.HavePrevious() ==>
      && lo <= s.fast <= hi && lo <= s.slow <= hi
      && lo <= s.lastLight <= hi && lo <= s.applied <= hi
  }

  lemma UpdateStaysWithin(s: Algorithm, light: real, lo: real, hi: real)
    requires Within(s, lo, hi) && lo <= light <= hi
    ensures var v := s.UpdateAverages(light);
      lo <= v.fast <= hi && lo <= v.slow <= hi && v.lastLight == light && v.applied == s.applied
  {
    hide Factor, Smoothed;
    if s.HavePrevious() {
      FactorIsFraction(s.Elapsed(), FAST_SMOOTHING);
      FactorIsFraction(s.Elapsed(), SLOW_SMOOTHING);
      Mixture(s.fast, light, Factor(s.Elapsed(), FAST_SMOOTHING), lo, hi);
      Mixture(s.slow, light, Factor(s.Elapsed(), SLOW_SMOOTHING), lo, hi);
    }
  }

  lemma StepStaysWithin(s: Algorithm, e: Event, lo: real, hi: real)
    requires s.Ready() && Chain(s) && Possible(s, e) && Within(s, lo, hi)
    requires e.Light? ==> lo <= e.light <= hi
    ensures Within(Step(s, e), lo, hi)
  {
    hide Algorithm.UpdateAverages, Spline.Interpolate, Algorithm.Moved, Algorithm.Unsettled;
    if e.Light? {
      UpdateStaysWithin(s, e.light, lo, hi);
    } else if e.Runs? {
      var u := s.(loop := s.loop.(pending := s.loop.pending - {e.n}), debouncing := false);
      if s.HavePrevious() { UpdateStaysWithin(u, s.lastLight, lo, hi); }
      UpdateSees(u);
    }
  }

  lemma UpdateSees(s: Algorithm)
    ensures s.UpdateAverages(s.lastLight).HavePrevious() == (s.loop.now != 0)
    ensures s.UpdateAverages(s.lastLight).applied == s.applied
  {
  }

  /** Since the last start, the averages, and the light the brightness was last set for, never
      leave the range of the light values seen. */
  lemma {:induction false} AveragesStayWithin(s: Algorithm, es: seq<Event>, lo: real, hi: real)
    requires s.Ready() && Chain(s) && PossibleRun(s, es) && Within(s, lo, hi)
    requires forall i :: 0 <= i < |es| && es[i].Light? ==> lo <= es[i].light <= hi
    ensures Within(Run(s, es), lo, hi)
    decreases |es|
  {
    hide Step, Possible, Chain, Within;
    if es != [] {
      StepKeepsChain(s, es[0]);
      StepStaysWithin(s, es[0], lo, hi);
      AveragesStayWithin(Step(s, es[0]), es[1..], lo, hi);
    }
  }

  // ---------- What is announced ----------

  ghost predicate TableWithin(sp: Spline, lo: real, hi: real)
    requires sp.Valid()
  {
    && FlatsHarmless(Slopes(sp.points))
    && forall k: nat :: k < |sp.points| ==> lo <= sp.points[k].y <= hi
  }

  predicate AnnouncedWithin(s: Algorithm, lo: real, hi: real)
    requires s.maxBrightness > 0.0
  {
    forall k :: 0 <= k < |s.emitted| ==> lo / s.maxBrightness <= s.emitted[k] <= hi / s.maxBrightness
  }

  lemma DividedOrder(a: real, b: real, d: real)
    requires a <= b && d > 0.0
    ensures a / d <= b / d
  {
  }

  lemma ApplyStaysInTable(s: Algorithm, lo: real, hi: real)
    requires s.Ready() && TableWithin(s.table, lo, hi) && AnnouncedWithin(s, lo, hi)
    ensures AnnouncedWithin(s.ApplyFast(), lo, hi)
  {
    hide Spline.Interpolate, Slopes, FlatsHarmless;
    StaysInTable(s.table, s.fast, lo, hi);
    DividedOrder(lo, s.table.Interpolate(s.fast), s.maxBrightness);
    DividedOrder(s.table.Interpolate(s.fast), hi, s.maxBrightness);
  }

  lemma StepStaysInTable(s: Algorithm, e: Event, lo: real, hi: real)
    requires s.Ready() && TableWithin(s.table, lo, hi) && AnnouncedWithin(s, lo, hi)
    ensures AnnouncedWithin(Step(s, e), lo, hi)
  {
    hide Algorithm.ApplyFast, TableWithin, Smoothed, Factor;
    if e.Light? {
      ApplyStaysInTable(s.UpdateAverages(e.light), lo, hi);
    } else if e.Runs? {
      var u := s.(loop := s.loop.(pending := s.loop.pending - {e.n}), debouncing := false);
      ApplyStaysInTable(u.UpdateAverages(s.lastLight), lo, hi);
    }
  }

  /** Every brightness announced lies between the least and the greatest table value, divided by
      the maximum, for tables whose flat stretches are harmless. */
  lemma {:induction false} AnnouncementsStayInTable(s: Algorithm, es: seq<Event>, lo: real, hi: real)
    requires s.Ready() && TableWithin(s.table, lo, hi) && AnnouncedWithin(s, lo, hi)
    ensures AnnouncedWithin(Run(s, es), lo, hi)
    decreases |es|
  {
    hide Step, TableWithin, AnnouncedWithin;
    if es != [] {
      StepStaysInTable(s, es[0], lo, hi);
      AnnouncementsStayInTable(Step(s, es[0]), es[1..], lo, hi);
    }
  }

  /** The announced brightness changes only when the light has really moved. */
  lemma ChangesAreDeliberate(s: Algorithm, e: Event)
    requires s.Ready() && Possible(s, e) && s.HavePrevious() && Step(s, e).emitted != s.emitted
    ensures var v := Step(s, e);
      && v.applied == v.fast && Abs(v.applied - s.applied) >= Hysteresis(s.applied)
      && Abs(v.slow - s.applied) >= Hysteresis(s.applied)
      && v.emitted == s.emitted + [s.table.Interpolate(v.applied) / s.maxBrightness]
  {
    hide Spline.Interpolate, Smoothed, Factor;
  }

  // ---------- What must be announced ----------

  /** The least change of light that counts: a tenth of the light, but at least two. */
  function Noticeable(light: real): (change: real)
    ensures change >= 2.0
  {
    if light * 0.1 < 2.0 then 2.0 else light * 0.1
  }

  /** Both averages lie above the applied light by a noticeable change, or both below it. */
  predicate LeftBehind(s: Algorithm, applied: real) {
    var h := Noticeable(applied);
    || (s.fast >= applied + h && s.slow >= applied + h)
    || (s.fast <= applied - h && s.slow <= applied - h)
  }

  /** The event calls for an announcement: the first light after a start, or the current callback when
      the averages that it brings up to date have left the applied light behind. */
  predicate CallsFor(s: Algorithm, e: Event)
    requires s.Ready()
  {
    match e
    case Light(_) => s.started && !s.HavePrevious()
    case Runs(n) => n == s.seqnum && LeftBehind(Step(s, e), s.applied)
    case _ => false
  }

  lemma SameNoticeable(light: real)
    ensures Hysteresis(light) == Noticeable(light)
  {
  }

  lemma DebounceAnnounces(s: Algorithm)
    requires s.Ready()
    ensures var v := s.Debounce();
      if LeftBehind(v, s.applied) then
        v.applied == v.fast && v.emitted == s.emitted + [s.table.Interpolate(v.fast) / s.maxBrightness]
      else
        v.applied == s.applied && v.emitted == s.emitted
  {
    hide Spline.Interpolate, Smoothed, Factor, Hysteresis, Noticeable, Algorithm.Unsettled;
    SameNoticeable(s.applied);
  }

  /** An announcement is made exactly when one is called for; it is the curve's value at the fast
      average, over the maximum, and that average becomes the applied light. */
  lemma AnnouncesExactly(s: Algorithm, e: Event)
    requires s.Ready()
    ensures var v := Step(s, e);
      if CallsFor(s, e) then
        v.applied == v.fast && v.emitted == s.emitted + [s.table.Interpolate(v.fast) / s.maxBrightness]
      else
        v.emitted == s.emitted
        && v.applied == if (e.Starts? && !s.started) || (e.Stops? && s.started) then 0.0 else s.applied
  {
    hide Spline.Interpolate, Smoothed, Factor, Algorithm.Debounce, LeftBehind;
    if e.Runs? && e.n == s.seqnum {
      DebounceAnnounces(s.(loop := s.loop.(pending := s.loop.pending - {e.n})));
    }
  }

  /** After the current callback the applied light is not left behind in either direction. */
  lemma CallbackCatchesUp(s: Algorithm, n: int)
    requires s.Ready() && n == s.seqnum
    ensures var v := Step(s, Runs(n));
      var h := Noticeable(v.applied);
      && !(v.fast - v.applied >= h && v.slow - v.applied >= h)
      && !(v.applied - v.fast >= h && v.applied - v.slow >= h)
  {
    hide Spline.Interpolate, Smoothed, Factor, Algorithm.Debounce;
    DebounceAnnounces(s.(loop := s.loop.(pending := s.loop.pending - {n})));
  }

  /** In every run, once light was seen and no callback is awaited, the fast average is not noticeably
      off the last light. */
  lemma QuietMeansSettled(s: Algorithm, es: seq<Event>)
    requires s.Ready() && Chain(s) && PossibleRun(s, es)
    ensures var v := Run(s, es);
      v.HavePrevious() && v.seqnum !in v.loop.pending ==> Abs(v.fast - v.lastLight) < Noticeable(v.lastLight)
  {
    hide Step, Possible;
    RunKeepsChain(s, es);
    SameNoticeable(Run(s, es).lastLight);
  }

  /** Whole milliseconds between two times, the second not before the first. */
  function Milliseconds(since: nat, now: nat): nat
    requires since <= now
  {
    (now - since) / 1_000_000
  }

  predicate Nearer(before: real, after: real, light: real, dt: real, smoothing: real) {
    (after - light) * (dt + smoothing) == smoothing * (before - light)
  }

  /** Each new light value, and each callback, brings both averages nearer to the light: after dt
      milliseconds the distance is 200 / (dt + 200) of what it was for the fast average and
      2000 / (dt + 2000) for the slow one; the first value is taken as it is. */
  lemma AveragesApproach(s: Algorithm, light: real)
    requires s.lastTime <= s.loop.now
    ensures var v := s.UpdateAverages(light);
      && v.lastLight == light && v.lastTime == s.loop.now
      && if s.lastTime == 0 then v.fast == light && v.slow == light
         else
           var dt := Milliseconds(s.lastTime, s.loop.now) as real;
           Nearer(s.fast, v.fast, light, dt, 200.0) && Nearer(s.slow, v.slow, light, dt, 2000.0)
  {
    hide Smoothed, Factor, Nearer;
    if s.lastTime != 0 {
      MixtureShare(s.fast, light, s.Elapsed(), FAST_SMOOTHING);
      MixtureShare(s.slow, light, s.Elapsed(), SLOW_SMOOTHING);
    }
  }

  lemma MixtureShare(average: real, light: real, dt: nat, smoothing: real)
    requires smoothing > 0.0
    ensures Nearer(average, Smoothed(average, light, Factor(dt, smoothing)), light, dt as real, smoothing)
  {
    hide Factor;
    FactorIsFraction(dt, smoothing);
    Share(average, light, dt as real, smoothing, Factor(dt, smoothing));
  }

  lemma Share(average: real, light: real, d: real, smoothing: real, f: real)
    requires f * (d + smoothing) == d
    ensures (average + f * (light - average) - light) * (d + smoothing) == smoothing * (average - light)
  {
    assert (average + f * (light - average) - light) == (1.0 - f) * (average - light);
    assert (1.0 - f) * (d + smoothing) == smoothing;
    assert (1.0 - f) * (average - light) * (d + smoothing) == ((1.0 - f) * (d + smoothing)) * (average - light);
  }

  /** What starting, stopping and later light values do besides. */
  lemma LightIsDebounced(s: Algorithm, e: Event)
    requires s.Ready() && Chain(s) && Possible(s, e)
    ensures var v := Step(s, e);
      && v.started == (if e.Starts? then true else if e.Stops? then false else s.started)
      && (e.Light? && !s.started ==> v == s)
      && (e.Light? && s.started && s.HavePrevious() ==>
            v.seqnum in v.loop.pending
            && (v.seqnum != s.seqnum ==> v.loop.pending[v.seqnum] == s.loop.now + 4_000_000_000))
  {
    hide Spline.Interpolate, Smoothed, Factor, Algorithm.Moved, Algorithm.Unsettled;
  }

  /** The awaited callback is never more than four seconds ahead. */
  predicate DueSoon(s: Algorithm) {
    s.seqnum in s.loop.pending ==> s.loop.pending[s.seqnum] <= s.loop.now + 4_000_000_000
  }

  lemma StepKeepsDueSoon(s: Algorithm, e: Event)
    requires s.Ready() && Chain(s) && Possible(s, e) && DueSoon(s)
    ensures DueSoon(Step(s, e))
  {
    hide Spline.Interpolate, Smoothed, Factor, Algorithm.Moved, Algorithm.Unsettled;
  }

  lemma ShareBelow(before: real, after: real, dt: real, smoothing: real, k: real)
    requires after * (dt + smoothing) == smoothing * before && before >= 0.0
    requires smoothing > 0.0 && k >= 1.0 && dt + smoothing >= k * smoothing
    ensures after >= 0.0 && k * after <= before
  {
    if after < 0.0 {
      PositiveProduct(-after, dt + smoothing, -after * (dt + smoothing));
      NonnegProduct(smoothing, before, smoothing * before);
    }
    NonnegProduct(after, dt + smoothing - k * smoothing, after * (dt + smoothing - k * smoothing));
    Cancelled(smoothing, before - k * after);
  }

  lemma Cancelled(smoothing: real, x: real)
    requires smoothing > 0.0 && smoothing * x >= 0.0
    ensures x >= 0.0
  {
    if x < 0.0 { PositiveProduct(smoothing, -x, smoothing * -x); }
  }

  /** The new value lies between the old one and the light, at most a k-th of the way off. */
  predicate Towards(before: real, after: real, light: real, k: real) {
    if before >= light then 0.0 <= k * (after - light) <= before - light
    else 0.0 <= k * (light - after) <= light - before
  }

  lemma NearerIsTowards(before: real, after: real, light: real, dt: real, smoothing: real, k: real)
    requires Nearer(before, after, light, dt, smoothing)
    requires smoothing > 0.0 && k >= 1.0 && dt + smoothing >= k * smoothing
    ensures Towards(before, after, light, k)
  {
    if before >= light {
      ShareBelow(before - light, after - light, dt, smoothing, k);
      NonnegProduct(k, after - light, k * (after - light));
    } else {
      assert (light - after) * (dt + smoothing) == smoothing * (light - before) by {
        assert (light - after) * (dt + smoothing) == -((after - light) * (dt + smoothing));
        assert smoothing * (light - before) == -(smoothing * (before - light));
      }
      ShareBelow(light - before, light - after, dt, smoothing, k);
      NonnegProduct(k, light - after, k * (light - after));
    }
  }

  /** What an update does to both averages, at any time and after at least four seconds. */
  lemma UpdateGoesTowards(s: Algorithm, light: real)
    requires s.HavePrevious() && s.lastTime <= s.loop.now
    ensures var v := s.UpdateAverages(light);
      && Towards(s.fast, v.fast, light, 1.0) && Towards(s.slow, v.slow, light, 1.0)
      && (s.loop.now - s.lastTime >= 4_000_000_000 ==>
            Towards(s.fast, v.fast, light, 21.0) && Towards(s.slow, v.slow, light, 3.0))
  {
    hide Nearer, Towards, Algorithm.UpdateAverages;
    AveragesApproach(s, light);
    var v := s.UpdateAverages(light);
    var dt := Milliseconds(s.lastTime, s.loop.now) as real;
    NearerIsTowards(s.fast, v.fast, light, dt, 200.0, 1.0);
    NearerIsTowards(s.slow, v.slow, light, dt, 2000.0, 1.0);
    if s.loop.now - s.lastTime >= 4_000_000_000 {
      NearerIsTowards(s.fast, v.fast, light, dt, 200.0, 21.0);
      NearerIsTowards(s.slow, v.slow, light, dt, 2000.0, 3.0);
    }
  }

  /** Twice towards the light from where the brightness was last set. */
  lemma FarEnough(a: real, light: real, x: real, y: real, k: real, h: real)
    requires Towards(a, x, light, 1.0) && Towards(x, y, light, k) && k >= 3.0
    requires h > 0.0 && 3.0 * h <= 2.0 * Abs(light - a)
    ensures if light < a then y <= a - h else y >= a + h
  {
    if x >= light {
      Thirds(k, y - light, x - light);
    } else {
      Thirds(k, light - y, light - x);
    }
  }

  lemma Thirds(k: real, y: real, x: real)
    requires 0.0 <= k * y <= x && k >= 3.0
    ensures 3.0 * y <= x
  {
    if y >= 0.0 { NonnegProduct(k - 3.0, y, (k - 3.0) * y); }
  }

  /** A change of light that lasts is announced, rising or falling: when the light has moved by one and
      a half times what is noticeable and nothing else comes until the callback that it causes, that
      callback announces a brightness, for an average within a twenty-first of the change. */
  lemma LastingChangeIsAnnounced(s: Algorithm, light: real, t: nat)
    requires s.Ready() && Chain(s) && s.started && s.HavePrevious() && !s.debouncing
    requires s.fast == s.applied && s.slow == s.applied
    requires 3.0 * Noticeable(s.applied) <= 2.0 * Abs(light - s.applied) && t >= 4_000_000_000
    ensures var es := [Light(light), Passes(t), Runs(s.seqnum + 1)];
      && PossibleRun(s, es)
      && var v := Run(s, es);
         v.emitted == s.emitted + [s.table.Interpolate(v.applied) / s.maxBrightness]
         && 21.0 * Abs(v.applied - light) <= Abs(s.applied - light)
  {
    hide Algorithm.UpdateAverages, Spline.Interpolate, Noticeable, Towards, Algorithm.Debounce, LeftBehind;
    var u := Step(s, Light(light));
    var p := Step(u, Passes(t));
    var v := Step(p, Runs(s.seqnum + 1));
    UpdateGoesTowards(s, light);
    UpdateLeaves(s, light);
    var q := p.(loop := p.loop.(pending := p.loop.pending - {s.seqnum + 1}));
    DebounceUpdates(q);
    UpdateGoesTowards(q.(debouncing := false), light);
    FarEnough(s.applied, light, u.fast, v.fast, 21.0, Noticeable(s.applied));
    FarEnough(s.applied, light, u.slow, v.slow, 3.0, Noticeable(s.applied));
    DebounceAnnounces(q);
    LeavesBehind(v, s.applied, light);
    MuchNearer(s.applied, u.fast, v.fast, light);
    var es := [Light(light), Passes(t), Runs(s.seqnum + 1)];
    assert es[1..] == [Passes(t), Runs(s.seqnum + 1)] && es[1..][1..] == [Runs(s.seqnum + 1)]
      && es[1..][1..][1..] == [];
    assert PossibleRun(v, []) && Run(v, []) == v;
    assert PossibleRun(p, [Runs(s.seqnum + 1)]) && Run(p, [Runs(s.seqnum + 1)]) == v;
    assert PossibleRun(u, es[1..]) && Run(u, es[1..]) == v;
  }

  lemma UpdateLeaves(s: Algorithm, light: real)
    ensures var v := s.UpdateAverages(light);
      && v == s.(fast := v.fast, slow := v.slow, lastTime := s.loop.now, lastLight := light)
  {
    hide Smoothed, Factor;
  }

  lemma DebounceUpdates(s: Algorithm)
    requires s.Ready()
    ensures var u := s.(debouncing := false).UpdateAverages(s.lastLight);
      s.Debounce().fast == u.fast && s.Debounce().slow == u.slow
  {
    hide Algorithm.UpdateAverages, Spline.Interpolate, Hysteresis, Algorithm.Moved, Algorithm.Unsettled;
  }

  lemma LeavesBehind(v: Algorithm, applied: real, light: real)
    requires var h := Noticeable(applied);
      if light < applied then v.fast <= applied - h && v.slow <= applied - h
      else v.fast >= applied + h && v.slow >= applied + h
    ensures LeftBehind(v, applied)
  {
  }

  lemma MuchNearer(a: real, x: real, y: real, light: real)
    requires Towards(a, x, light, 1.0) && Towards(x, y, light, 21.0)
    ensures 21.0 * Abs(y - light) <= Abs(a - light)
  {
  }

  // ---------- The chain ends ----------

  function Error(s: Algorithm): (r: real)
    ensures r >= 0.0
  {
    Abs(s.fast - s.lastLight)
  }

  lemma Shrink(fast: real, light: real, f: real)
    requires 0.0 <= f < 1.0
    ensures Abs(Smoothed(fast, light, f) - light) == (1.0 - f) * Abs(fast - light)
  {
    assert Smoothed(fast, light, f) - light == (1.0 - f) * (fast - light);
    SignedProduct(1.0 - f, fast - light);
  }

  lemma SignedProduct(x: real, y: real)
    requires x >= 0.0
    ensures Abs(x * y) == x * Abs(y)
  {
    if y >= 0.0 { NonnegProduct(x, y, x * y); } else { NonnegProduct(x, -y, x * -y); }
  }

  /** After four seconds the old error counts for less than a twentieth. */
  lemma LongWait(dt: nat)
    requires dt >= 4000
    ensures 21.0 * (1.0 - Factor(dt, FAST_SMOOTHING)) <= 1.0
  {
    FactorIsFraction(dt, FAST_SMOOTHING);
    Complement(dt as real, Factor(dt, FAST_SMOOTHING));
  }

  lemma Complement(d: real, f: real)
    requires d >= 4000.0 && f * (d + 200.0) == d && f < 1.0
    ensures 21.0 * (1.0 - f) <= 1.0
  {
    assert (1.0 - f) * (d + 200.0) == 200.0;
    NonnegProduct(1.0 - f, d - 4000.0, (1.0 - f) * (d - 4000.0));
  }

  lemma ScaledDown(x: real, e: real, p: real)
    requires e >= 0.0 && 21.0 * x <= 1.0 && p == x * e
    ensures 21.0 * p <= e
  {
    NonnegProduct(1.0 - 21.0 * x, e, (1.0 - 21.0 * x) * e);
  }

  lemma ScaledBelow(x: real, e: real, p: real)
    requires e >= 0.0 && 0.0 <= x <= 1.0 && p == x * e
    ensures p <= e
  {
    NonnegProduct(1.0 - x, e, (1.0 - x) * e);
  }

  /** What a mixture with the light itself does to the distance from it. */
  lemma Closer(fast: real, light: real, f: real, e: real, e': real)
    requires 0.0 <= f < 1.0 && e == Abs(fast - light) && e' == Abs(Smoothed(fast, light, f) - light)
    ensures e' <= e
    ensures 21.0 * (1.0 - f) <= 1.0 ==> 21.0 * e' <= e
  {
    Shrink(fast, light, f);
    ScaledBelow(1.0 - f, e, e');
    if 21.0 * (1.0 - f) <= 1.0 { ScaledDown(1.0 - f, e, e'); }
  }

  /** One round: the error does not grow, it shrinks to a twenty-first when the whole delay lies
      between this round and the last light, and only a large one causes another round. */
  lemma Round(s: Algorithm)
    requires s.Ready() && s.HavePrevious() && s.lastTime <= s.loop.now && s.debouncing
    ensures var v := s.Debounce();
      && v.lastLight == s.lastLight && v.lastTime == s.loop.now && Error(v) <= Error(s)
      && (s.loop.now - s.lastTime >= DEBOUNCE_DELAY ==> 21.0 * Error(v) <= Error(s))
      && v.seqnum == (if v.debouncing then s.seqnum + 1 else s.seqnum)
      && (v.debouncing ==> Error(v) >= MIN_HYSTERESIS && v.loop == Scheduled(s.loop, v.seqnum))
      && (!v.debouncing ==> v.loop == s.loop)
  {
    hide Spline.Interpolate, Smoothed, Factor, Abs;
    FactorIsFraction(s.Elapsed(), FAST_SMOOTHING);
    Closer(s.fast, s.lastLight, Factor(s.Elapsed(), FAST_SMOOTHING), Error(s), Error(s.Debounce()));
    if s.loop.now - s.lastTime >= DEBOUNCE_DELAY {
      LongWait(s.Elapsed());
    }
  }

  function Scheduled(l: Loop, n: int): Loop {
    l.(pending := l.pending[n := l.now + DEBOUNCE_DELAY])
  }

  function Power21(k: nat): (p: real)
    ensures p >= 1.0 && p >= (k + 1) as real
  {
    if k == 0 then 1.0 else 21.0 * Power21(k - 1)
  }

  predicate Quiet(es: seq<Event>) {
    forall i :: 0 <= i < |es| ==> es[i].Runs? || es[i].Passes?
  }

  /** Where the chain stands after `k` more rounds, from an error of `e` at first. */
  predicate Progress(s: Algorithm, k: nat, e: real) {
    && (k >= 1 ==> MIN_HYSTERESIS * Power21(k - 1) <= e)
    && (s.debouncing && k == 0 ==> Error(s) <= e)
    && (s.debouncing && k >= 1 ==>
          && Error(s) * Power21(k - 1) <= e
          && s.seqnum in s.loop.pending && s.loop.pending[s.seqnum] >= s.lastTime + DEBOUNCE_DELAY)
  }

  lemma PowerStep(x: real, y: real, p: real, e: real)
    requires 21.0 * x <= y && y * p <= e && p >= 1.0
    ensures x * (21.0 * p) <= e
  {
    NonnegProduct(y - 21.0 * x, p, (y - 21.0 * x) * p);
  }

  lemma LargeError(x: real, p: real, e: real)
    requires x >= MIN_HYSTERESIS && x * p <= e && p >= 1.0
    ensures MIN_HYSTERESIS * p <= e
  {
    NonnegProduct(x - MIN_HYSTERESIS, p, (x - MIN_HYSTERESIS) * p);
  }

  lemma QuietStep(s: Algorithm, event: Event, k: nat, e: real)
    requires s.Ready() && Chain(s) && Possible(s, event) && (event.Runs? || event.Passes?)
    requires Progress(s, k, e)
    ensures var v := Step(s, event);
      0 <= v.seqnum - s.seqnum <= 1 && Progress(v, k + v.seqnum - s.seqnum, e)
  {
    hide Algorithm.Debounce, Power21, Error;
    if event.Runs? && event.n == s.seqnum {
      var u := s.(loop := s.loop.(pending := s.loop.pending - {event.n}));
      Round(u);
      ErrorIgnoresLoop(s, u);
      var v := u.Debounce();
      if v.debouncing && k >= 1 {
        assert Power21(k) == 21.0 * Power21(k - 1) by { PowerUnfolds(k); }
        PowerStep(Error(v), Error(s), Power21(k - 1), e);
        LargeError(Error(v), Power21(k), e);
      } else if v.debouncing {
        PowerUnfolds(0);
      }
    } else {
      ErrorIgnoresLoop(s, Step(s, event));
    }
  }

  lemma PowerUnfolds(k: nat)
    ensures k == 0 ==> Power21(k) == 1.0
    ensures k >= 1 ==> Power21(k) == 21.0 * Power21(k - 1)
  {
  }

  lemma ErrorIgnoresLoop(s: Algorithm, u: Algorithm)
    requires u.fast == s.fast && u.lastLight == s.lastLight
    ensures Error(u) == Error(s)
  {
  }

  lemma {:induction false} QuietRun(s: Algorithm, es: seq<Event>, k: nat, e: real)
    requires s.Ready() && Chain(s) && PossibleRun(s, es) && Quiet(es) && Progress(s, k, e)
    ensures var v := Run(s, es);
      v.seqnum >= s.seqnum && Progress(v, k + v.seqnum - s.seqnum, e)
    decreases |es|
  {
    hide Step, Possible, Chain, Progress;
    if es != [] {
      StepKeepsChain(s, es[0]);
      QuietStep(s, es[0], k, e);
      var v := Step(s, es[0]);
      QuietRun(v, es[1..], k + v.seqnum - s.seqnum, e);
    }
  }

  /** Once the light values stop, the debounce chain ends: if the error was `e`, then after `k`
      further rounds 2 * 21^(k - 1) <= e, so there are at most e / 2 of them. */
  lemma ChainEnds(s: Algorithm, es: seq<Event>)
    requires s.Ready() && Chain(s) && PossibleRun(s, es) && Quiet(es)
    ensures var rounds := Run(s, es).seqnum - s.seqnum;
      rounds >= 0
      && (rounds >= 1 ==> MIN_HYSTERESIS * Power21(rounds - 1) <= Error(s))
      && MIN_HYSTERESIS * rounds as real <= Error(s)
  {
    hide Step, Possible, Chain, Error, Power21, Run;
    QuietRun(s, es, 0, Error(s));
  }

  // ---------- The algorithm as an object ----------

  /** The table: a first value for darkness, then one for each light level. */
  method CreateBrightnessSpline(levels: seq<int>, values: seq<int>) returns (r: Option<Spline>)
    requires forall i, j :: 0 <= i < j < |levels| ==> levels[i] != levels[j]
    requires 0 !in levels
    ensures r.None? <==> |levels| == 0 || |values| != |levels| + 1
    ensures r.Some? ==>
      r.value.Valid()
      && multiset(r.value.points) == multiset(seq(|values|, i requires 0 <= i < |values| && |values| == |levels| + 1 =>
           Point(if i == 0 then 0.0 else levels[i - 1] as real, values[i] as real)))
  {
    if |levels| == 0 || |values| == 0 || |values| != |levels| + 1 { return None; }
    var points := [Point(0.0, values[0] as real)];
    for i := 0 to |levels|
      invariant |points| == i + 1 && points[0] == Point(0.0, values[0] as real)
      invariant forall k :: 0 < k <= i ==> points[k] == Point(levels[k - 1] as real, values[k] as real)
    {
      points := points + [Point(levels[i] as real, values[i + 1] as real)];
    }
    assert points == seq(|values|, i requires 0 <= i < |values| && |values| == |levels| + 1 =>
      Point(if i == 0 then 0.0 else levels[i - 1] as real, values[i] as real));
    forall i, j | 0 <= i < j < |points| ensures points[i].x != points[j].x {
      assert levels[j - 1] in levels;
    }
    r := Create(points);
  }

  class EventLoop {
    var now: nat
    var pending: map<int, nat>

    function View(): Loop
      reads this
    {
      Loop(now, pending)
    }

    constructor ()
      ensures View() == Loop(0, map[])
    {
      now, pending := 0, map[];
    }

    method ScheduleIn(delay: nat, n: int)
      modifies this
      ensures View() == Loop(old(now), old(pending)[n := old(now) + delay])
    {
      pending := pending[n := now + delay];
    }
  }

  class AndroidAutobrightnessAlgorithm {
    const brightnessSpline: Spline
    const maxBrightness: real
    const eventLoop: EventLoop

    var started: bool
    var lastLightTime: nat
    var lastLight: real
    var appliedLight: real
    var fastAverage: real
    var slowAverage: real
    var debouncing: bool
    var debouncingSeqnum: int
    var emitted: seq<real>

    ghost predicate Valid() {
      brightnessSpline.Valid() && maxBrightness > 0.0
    }

    function View(): Algorithm
      reads this, eventLoop
    {
      Algorithm(
        brightnessSpline, maxBrightness, started, lastLightTime, lastLight, appliedLight,
        fastAverage, slowAverage, debouncing, debouncingSeqnum, eventLoop.View(), emitted)
    }

    constructor (table: Spline, maxBrightness: real, eventLoop: EventLoop)
      requires table.Valid() && maxBrightness > 0.0
      ensures Valid() && this.eventLoop == eventLoop
      ensures View() ==
        Algorithm(table, maxBrightness, false, 0, 0.0, 0.0, 0.0, 0.0, false, 1, eventLoop.View(), [])
      ensures eventLoop.pending == map[] ==> Chain(View())
    {
      brightnessSpline, this.maxBrightness, this.eventLoop := table, maxBrightness, eventLoop;
      started, emitted := false, [];
      lastLight, lastLightTime, appliedLight := 0.0, 0, 0.0;
      fastAverage, slowAverage := 0.0, 0.0;
      debouncing, debouncingSeqnum := false, 1;
    }

    method NewLightValue(light: real)
      requires Valid()
      modifies this, eventLoop
      ensures View() == old(View()).NewLightValue(light)
      ensures old(Chain(View())) ==> Chain(View())
    {
      hide Chain, Spline.Interpolate, Smoothed, Factor;
      if Chain(View()) { StepKeepsChain(View(), Light(light)); }
      if !started { return; }
      var isFirst := lastLightTime == 0;
      UpdateAverages(light);
      if isFirst {
        NotifyBrightness(brightnessSpline.Interpolate(fastAverage));
        appliedLight := fastAverage;
      } else {
        ScheduleDebounce();
      }
    }

    method Start()
      modifies this
      ensures View() == old(View()).Start()
      ensures old(Chain(View())) ==> Chain(View())
    {
      if !started {
        Reset();
        started := true;
      }
    }

    method Stop()
      modifies this
      ensures View() == old(View()).Stop()
      ensures old(Chain(View())) ==> Chain(View())
    {
      if started {
        Reset();
        started := false;
      }
    }

    method Reset()
      modifies this
      ensures View() == old(View()).Reset()
    {
      lastLight, lastLightTime, appliedLight := 0.0, 0, 0.0;
      fastAverage, slowAverage := 0.0, 0.0;
      debouncing := false;
      debouncingSeqnum := debouncingSeqnum + 1;
    }

    method UpdateAverages(light: real)
      modifies `fastAverage, `slowAverage, `lastLightTime, `lastLight
      ensures View() == old(View()).UpdateAverages(light)
    {
      hide Smoothed, Factor;
      if lastLightTime == 0 {
        fastAverage, slowAverage := light, light;
      } else {
        var dt :=
          if lastLightTime <= eventLoop.now then (eventLoop.now - lastLightTime) / NANOSECONDS_PER_MILLISECOND else 0;
        fastAverage := Smoothed(fastAverage, light, Factor(dt, FAST_SMOOTHING));
        slowAverage := Smoothed(slowAverage, light, Factor(dt, SLOW_SMOOTHING));
      }
      lastLightTime, lastLight := eventLoop.now, light;
    }

    method ScheduleDebounce()
      modifies `debouncing, `debouncingSeqnum, eventLoop
      ensures View() == old(View()).ScheduleDebounce()
    {
      if debouncing { return; }
      debouncing := true;
      debouncingSeqnum := debouncingSeqnum + 1;
      eventLoop.ScheduleIn(DEBOUNCE_DELAY, debouncingSeqnum);
    }

    /** The event loop runs the callback scheduled under this number. */
    method RunCallback(expected: int)
      requires Valid()
      modifies this, eventLoop
      ensures View() == old(View()).Callback(expected)
      ensures old(Chain(View()) && Possible(View(), Runs(expected))) ==> Chain(View())
    {
      hide Chain, Spline.Interpolate, Algorithm.UpdateAverages, Hysteresis;
      if Chain(View()) && Possible(View(), Runs(expected)) { StepKeepsChain(View(), Runs(expected)); }
      eventLoop.pending := eventLoop.pending - {expected};
      if debouncingSeqnum != expected { return; }
      debouncing := false;
      UpdateAverages(lastLight);
      var hysteresis := Hysteresis(appliedLight);
      var slowDelta := slowAverage - appliedLight;
      var fastDelta := fastAverage - appliedLight;
      if (slowDelta >= hysteresis && fastDelta >= hysteresis)
        || (-slowDelta >= hysteresis && -fastDelta >= hysteresis)
      {
        NotifyBrightness(brightnessSpline.Interpolate(fastAverage));
        appliedLight := fastAverage;
      }
      if Abs(fastAverage - lastLight) >= Hysteresis(lastLight) {
        ScheduleDebounce();
      }
    }

    method NotifyBrightness(brightness: real)
      requires maxBrightness > 0.0
      modifies `emitted
      ensures emitted == old(emitted) + [brightness / maxBrightness]
    {
      emitted := emitted + [brightness / maxBrightness];
    }
  }
}
