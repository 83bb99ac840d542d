/** The monotone cubic spline behind the autobrightness curve.

    Monotone cubic interpolation promises that between two neighbouring points the curve
    runs monotonically from one to the other. The repair loop keeps that promise except
    around flat stretches, where its extra increment skips the segment that follows. The
    exact condition is `FlatsHarmless`, and the promise is met if and only if it holds. */
module MonotoneSpline {
  import opened Hermite
  import opened Reals

  datatype Point = Point(x: real, y: real)

  // ---------- Sorting the points ----------

  ghost predicate DistinctX(points: seq<Point>) {
    forall i, j :: 0 <= i < j < |points| ==> points[i].x != points[j].x
  }

  ghost predicate Increasing(points: seq<Point>) {
    forall i, j :: 0 <= i < j < |points| ==> points[i].x < points[j].x
  }

  function InsertByX(p: Point, points: seq<Point>): (r: seq<Point>)
    ensures |r| == |points| + 1
    ensures multiset(r) == multiset(points) + multiset{p}
  {
    if points == [] then [p]
    else if p.x < points[0].x then [p] + points
    else
      assert points == [points[0]] + points[1..];
      [points[0]] + InsertByX(p, points[1..])
  }

  /** The points ordered by x. */
  function SortByX(points: seq<Point>): (r: seq<Point>)
    ensures |r| == |points|
    ensures multiset(r) == multiset(points)
  {
    if points == [] then []
    else
      assert points == [points[0]] + points[1..];
      InsertByX(points[0], SortByX(points[1..]))
  }

  lemma InMultiset(points: seq<Point>, others: seq<Point>, p: Point)
    requires multiset(points) == multiset(others) && p in points
    ensures p in others
  {
    assert p in multiset(points);
  }

  lemma {:induction false} InsertKeepsIncreasing(p: Point, points: seq<Point>)
    requires Increasing(points)
    requires forall q :: q in points ==> q.x != p.x
    ensures Increasing(InsertByX(p, points))
  {
    if points == [] || p.x < points[0].x {
    } else {
      var rest := InsertByX(p, points[1..]);
      InsertKeepsIncreasing(p, points[1..]);
      forall k | 0 <= k < |rest| ensures points[0].x < rest[k].x {
        assert rest[k] in multiset(rest);
        assert rest[k] == p || rest[k] in points[1..];
      }
    }
  }

  /** Points with distinct abscissae, in any order, are sorted strictly. */
  lemma {:induction false} SortIsIncreasing(points: seq<Point>)
    requires DistinctX(points)
    ensures Increasing(SortByX(points))
  {
    if points != [] {
      var rest := SortByX(points[1..]);
      SortIsIncreasing(points[1..]);
      forall q | q in rest ensures q.x != points[0].x {
        InMultiset(rest, points[1..], q);
      }
      InsertKeepsIncreasing(points[0], rest);
    }
  }

  // ---------- Slopes and tangents ----------

  function Slope(points: seq<Point>, i: nat): real
    requires i + 1 < |points| && Increasing(points)
  {
    (points[i + 1].y - points[i].y) / (points[i + 1].x - points[i].x)
  }

  /** Secant slopes, padded with a final zero to the number of points. */
  ghost predicate AreSlopes(s: seq<real>, points: seq<Point>)
    requires Increasing(points)
  {
    && |s| == |points| >= 2
    && s[|s| - 1] == 0.0
    && forall i: nat :: i + 1 < |points| ==> s[i] == Slope(points, i)
  }

  method SecantSlopes(points: seq<Point>) returns (s: seq<real>)
    requires Increasing(points) && |points| >= 2
    ensures AreSlopes(s, points)
  {
    s := [];
    for i := 0 to |points| - 1
      invariant |s| == i
      invariant forall k: nat :: k < i ==> s[k] == Slope(points, k)
    {
      var dy := points[i + 1].y - points[i].y;
      var dx := points[i + 1].x - points[i].x;
      s := s + [dy / dx];
    }
    s := s + [0.0];
  }

  function InitialTangent(s: seq<real>, k: nat): real
    requires k < |s| && |s| >= 2
  {
    if k == 0 then s[0]
    else if k == |s| - 1 then s[|s| - 2]
    else if s[k - 1] * s[k] < 0.0 then 0.0
    else (s[k - 1] + s[k]) / 2.0
  }

  method PointTangents(s: seq<real>) returns (t: array<real>)
    requires |s| >= 2
    ensures fresh(t) && t.Length == |s|
    ensures forall k: nat :: k < |s| ==> t[k] == InitialTangent(s, k)
  {
    t := new real[|s|];
    t[0] := s[0];
    for i := 1 to |s| - 1
      invariant forall k: nat :: k < i ==> t[k] == InitialTangent(s, k)
    {
      if s[i - 1] * s[i] < 0.0 {
        t[i] := 0.0;
      } else {
        t[i] := (s[i - 1] + s[i]) / 2.0;
      }
    }
    t[|s| - 1] := s[|s| - 2];
  }

  /** The number of flat segments directly before segment i. */
  function FlatRun(s: seq<real>, i: nat): nat
    requires i < |s|
  {
    if i == 0 || s[i - 1] != 0.0 then 0 else 1 + FlatRun(s, i - 1)
  }

  /** The repair loop jumps over every second segment of a flat run and over the segment
      that ends an odd one. */
  predicate Visited(s: seq<real>, i: nat)
    requires i < |s|
  {
    FlatRun(s, i) % 2 == 0
  }

  /** The segments whose end tangent the loop checks against the secant. */
  predicate Checked(s: seq<real>, i: nat)
    requires i < |s|
  {
    s[i] != 0.0 && Visited(s, i) && !(i > 0 && s[i - 1] == 0.0 && s[i] < 0.0)
  }

  /** The tangent at a point after the visit of the segment to its left. */
  function HalfRepaired(s: seq<real>, k: nat): real
    requires k < |s| && |s| >= 2
  {
    if k > 0 && s[k - 1] == 0.0 && Visited(s, k - 1) then 0.0
    else if k > 0 && Checked(s, k - 1) && InitialTangent(s, k) / s[k - 1] > 3.0 then 3.0 * s[k - 1]
    else InitialTangent(s, k)
  }

  /** The tangent the repair loop leaves at a point, in closed form. */
  function Tangent(s: seq<real>, k: nat): real
    requires k < |s| && |s| >= 2
  {
    if k == |s| - 1 || !Visited(s, k) then HalfRepaired(s, k)
    else if s[k] == 0.0 then 0.0
    else if k > 0 && s[k - 1] == 0.0 && s[k] < 0.0 then 0.0
    else if HalfRepaired(s, k) / s[k] > 3.0 then 3.0 * s[k]
    else HalfRepaired(s, k)
  }

  /** The sign test on a quotient of doubles: dividing by (positive) zero keeps the sign. */
  predicate NegativeQuotient(a: real, b: real) {
    if b == 0.0 then a < 0.0 else a / b < 0.0
  }

  lemma QuotientSign(a: real, b: real)
    requires b != 0.0
    ensures a / b < 0.0 <==> (a < 0.0 < b || b < 0.0 < a)
  {
    var q := a / b;
    assert q * b == a;
    if b > 0.0 {
      if q < 0.0 { PositiveProduct(-q, b, -a); } else { NonnegProduct(q, b, a); }
    } else {
      if q < 0.0 { PositiveProduct(-q, -b, a); } else { NonnegProduct(q, -b, -a); }
    }
  }

  /** What averaging two slopes of one sign means relative to either of them. */
  lemma AverageRatios(p: real, q: real, m: real)
    requires p != 0.0 && q != 0.0
    requires m == if p * q < 0.0 then 0.0 else (p + q) / 2.0
    ensures p * q < 0.0 ==> m / p == 0.0 && m / q == 0.0 && q / p < 0.0
    ensures p * q >= 0.0 ==>
      && q / p > 0.0 && p / q > 0.0
      && m / p == (1.0 + q / p) / 2.0 && m / q == (1.0 + p / q) / 2.0
      && (q / p > 1.0 ==> p / q < 1.0)
      && (q / p > 5.0 ==> p / q < 0.2) && (p / q > 5.0 ==> q / p < 0.2)
    ensures 3.0 * p / q == 3.0 * (p / q) && 3.0 * q / p == 3.0 * (q / p)
    ensures 3.0 * p / p == 3.0
  {
    var r, r' := q / p, p / q;
    assert r * p == q && r' * q == p;
    QuotientSign(q, p);
    QuotientSign(p, q);
    ProductSign(p, q);
    if p * q >= 0.0 {
      assert r * r' == 1.0 by { Reciprocal(p, q, r, r'); }
      assert r != 0.0 && r' != 0.0;
      ReciprocalBound(r, r');
      ReciprocalBound(r', r);
      HalfSum(p, q, m, r);
      HalfSum(q, p, m, r');
    }
  }

  lemma ProductSign(p: real, q: real)
    requires p != 0.0 && q != 0.0
    ensures p * q < 0.0 <==> (p < 0.0 < q || q < 0.0 < p)
  {
    if p > 0.0 {
      if q > 0.0 { PositiveProduct(p, q, p * q); } else { PositiveProduct(p, -q, -(p * q)); }
    } else {
      if q > 0.0 { PositiveProduct(-p, q, -(p * q)); } else { PositiveProduct(-p, -q, p * q); }
    }
  }

  lemma Reciprocal(p: real, q: real, r: real, r': real)
    requires p != 0.0 && r * p == q && r' * q == p
    ensures r * r' == 1.0
  {
    assert r * r' * p == p;
  }

  lemma ReciprocalBound(r: real, r': real)
    requires r > 0.0 && r * r' == 1.0
    ensures r > 1.0 ==> r' < 1.0
    ensures r > 5.0 ==> r' < 0.2
  {
    if r > 1.0 && r' >= 1.0 { NonnegProduct(r - 1.0, r' - 1.0, (r - 1.0) * (r' - 1.0)); }
    if r > 5.0 && r' >= 0.2 { NonnegProduct(r - 5.0, r' - 0.2, (r - 5.0) * (r' - 0.2)); }
  }

  lemma HalfSum(p: real, q: real, m: real, r: real)
    requires p != 0.0 && q == r * p && m == (p + q) / 2.0
    ensures m / p == (1.0 + r) / 2.0
  {
    assert m == (1.0 + r) / 2.0 * p;
    QuotientOf(m, p, (1.0 + r) / 2.0);
  }

  lemma QuotientOf(m: real, p: real, x: real)
    requires p != 0.0 && m == x * p
    ensures m / p == x
  {
    var d := m / p;
    assert d * p == m;
    assert (d - x) * p == 0.0;
  }

  /** After the visit to its left, a tangent between two slopes opposes neither of them. */
  lemma HalfRepairedSign(s: seq<real>, k: nat)
    requires 0 < k < |s| - 1 && s[k - 1] != 0.0 && s[k] != 0.0
    ensures !(HalfRepaired(s, k) / s[k] < 0.0) && !(HalfRepaired(s, k) / s[k - 1] < 0.0)
  {
    AverageRatios(s[k - 1], s[k], InitialTangent(s, k));
  }

  /** The visit of a flat segment settles the tangents of both its ends and jumps. */
  lemma FlatVisit(s: seq<real>, i: nat)
    requires i + 1 < |s| && s[i] == 0.0 && Visited(s, i)
    ensures Tangent(s, i) == 0.0 && Tangent(s, i + 1) == 0.0
    ensures i + 2 < |s| ==> Visited(s, i + 2) && HalfRepaired(s, i + 2) == InitialTangent(s, i + 2)
  {
  }

  /** The sign tests at a sloped segment fire exactly behind a jumped flat one, going down. */
  lemma SlopedVisit(s: seq<real>, i: nat, t: real)
    requires i + 1 < |s| && s[i] != 0.0 && Visited(s, i) && t == HalfRepaired(s, i)
    ensures (t / s[i] < 0.0 || (i > 0 && NegativeQuotient(t, s[i - 1]))) <==> !Checked(s, i)
    ensures Tangent(s, i) ==
            if !Checked(s, i) then 0.0 else if t / s[i] > 3.0 then 3.0 * s[i] else t
    ensures HalfRepaired(s, i + 1) ==
            if Checked(s, i) && InitialTangent(s, i + 1) / s[i] > 3.0 then 3.0 * s[i]
            else InitialTangent(s, i + 1)
    ensures Visited(s, i + 1)
  {
    if i > 0 && s[i - 1] != 0.0 {
      HalfRepairedSign(s, i);
    }
  }

  lemma OuterTangents(s: seq<real>)
    requires |s| >= 2
    ensures Visited(s, 0) && HalfRepaired(s, 0) == InitialTangent(s, 0)
    ensures Tangent(s, |s| - 1) == HalfRepaired(s, |s| - 1)
  {
  }

  /** The repair loop, in place. */
  method EnsureMonotonicity(t: array<real>, s: seq<real>)
    requires |s| >= 2 && t.Length == |s|
    requires forall k: nat :: k < |s| ==> t[k] == InitialTangent(s, k)
    modifies t
    ensures forall k: nat :: k < |s| ==> t[k] == Tangent(s, k)
  {
    hide Tangent, HalfRepaired, InitialTangent, Visited, Checked, NegativeQuotient;
    var i := 0;
    OuterTangents(s);
    while i < |s| - 1
      invariant 0 <= i <= |s|
      invariant i < |s| ==> Visited(s, i) && t[i] == HalfRepaired(s, i)
      invariant forall k: nat :: k < i ==> t[k] == Tangent(s, k)
      invariant forall k: nat :: i < k < |s| ==> t[k] == InitialTangent(s, k)
    {
      if s[i] == 0.0 {
        FlatVisit(s, i);
        t[i] := 0.0;
        i := i + 1;
        t[i] := 0.0;
        i := i + 1;
        continue;
      }
      SlopedVisit(s, i, t[i]);
      var alpha := t[i] / s[i];
      if alpha < 0.0 || (i > 0 && NegativeQuotient(t[i], s[i - 1])) {
        t[i] := 0.0;
        i := i + 1;
        continue;
      }
      if alpha > 3.0 {
        t[i] := 3.0 * s[i];
      }
      if t[i + 1] / s[i] > 3.0 {
        t[i + 1] := 3.0 * s[i];
      }
      i := i + 1;
    }
  }

  // ---------- What the repair achieves ----------

  /** The two ways a flat stretch can spoil the segment i behind it: a flat segment that the
      loop jumped over and that is followed by a rise, and a segment whose end tangent was
      never checked and that is followed by one more than five times as steep. */
  predicate Harmless(s: seq<real>, i: nat)
    requires i + 1 < |s|
  {
    if s[i] == 0.0 then Visited(s, i) || i + 2 >= |s| || s[i + 1] <= 0.0
    else Checked(s, i) || i + 2 >= |s| || s[i + 1] / s[i] <= 5.0
  }

  predicate FlatsHarmless(s: seq<real>) {
    forall i: nat :: i + 1 < |s| ==> Harmless(s, i)
  }

  ghost predicate Boxed(s: real, m0: real, m1: real) {
    if s == 0.0 then m0 == 0.0 && m1 == 0.0
    else 0.0 <= m0 / s <= 3.0 && 0.0 <= m1 / s <= 3.0
  }

  ghost predicate Broken(s: real, m0: real, m1: real) {
    && m0 == 0.0
    && if s == 0.0 then m1 != 0.0 else m1 / s > 3.0
  }

  lemma LeftTangent(s: seq<real>, i: nat)
    requires i + 1 < |s|
    ensures s[i] == 0.0 || !Checked(s, i) ==> Tangent(s, i) == 0.0
    ensures Checked(s, i) ==> 0.0 <= Tangent(s, i) / s[i] <= 3.0
  {
    if i > 0 && s[i - 1] != 0.0 && s[i] != 0.0 {
      AverageRatios(s[i - 1], s[i], InitialTangent(s, i));
    }
  }

  lemma ClampedRatio(p: real, q: real, m: real, half: real, t: real, checked: bool)
    requires p != 0.0 && q != 0.0
    requires m == if p * q < 0.0 then 0.0 else (p + q) / 2.0
    requires half == if checked && m / p > 3.0 then 3.0 * p else m
    requires t == if half / q > 3.0 then 3.0 * q else half
    ensures checked || q / p <= 5.0 ==> 0.0 <= t / p <= 3.0
    ensures !checked && q / p > 5.0 ==> t / p > 3.0
  {
    AverageRatios(p, q, m);
  }

  lemma RightTangent(s: seq<real>, i: nat)
    requires i + 1 < |s|
    ensures s[i] == 0.0 ==> (Tangent(s, i + 1) == 0.0 <==> Harmless(s, i))
    ensures s[i] != 0.0 && Harmless(s, i) ==> 0.0 <= Tangent(s, i + 1) / s[i] <= 3.0
    ensures s[i] != 0.0 && !Harmless(s, i) ==> Tangent(s, i + 1) / s[i] > 3.0
  {
    var k := i + 1;
    if k == |s| - 1 || s[k] == 0.0 {
    } else if s[i] != 0.0 {
      ClampedRatio(s[i], s[k], InitialTangent(s, k), HalfRepaired(s, k), Tangent(s, k), Checked(s, i));
    }
  }

  /** Every segment either satisfies the box condition or is broken in one particular way,
      and which one it is can be read off the slopes. */
  lemma RepairOutcome(s: seq<real>, i: nat)
    requires i + 1 < |s|
    ensures Harmless(s, i) ==> Boxed(s[i], Tangent(s, i), Tangent(s, i + 1))
    ensures !Harmless(s, i) ==> Broken(s[i], Tangent(s, i), Tangent(s, i + 1))
  {
    LeftTangent(s, i);
    RightTangent(s, i);
  }

  // ---------- The spline ----------

  function Slopes(points: seq<Point>): (s: seq<real>)
    requires Increasing(points) && |points| >= 2
    ensures AreSlopes(s, points)
  {
    seq(|points|, i requires 0 <= i < |points| =>
      if i + 1 < |points| then Slope(points, i) else 0.0)
  }

  /** The segment an abscissa falls into: -1 before the first point, the last index behind the
      last one. */
  function IndexFrom(points: seq<Point>, x: real, i: nat): int
    requires i < |points|
    decreases |points| - i
  {
    if i == |points| - 1 then i
    else if points[i].x <= x < points[i + 1].x then i
    else IndexFrom(points, x, i + 1)
  }

  function Index(points: seq<Point>, x: real): int
    requires points != []
  {
    if x < points[0].x then -1 else IndexFrom(points, x, 0)
  }

  datatype Spline = Spline(points: seq<Point>, tangents: seq<real>)
  {
    ghost predicate Valid() {
      && |tangents| == |points| >= 2
      && Increasing(points)
      && forall k: nat :: k < |points| ==> tangents[k] == Tangent(Slopes(points), k)
    }

    method FindIndex(x: real) returns (r: int)
      requires Valid()
      ensures r == Index(points, x)
    {
      if x < points[0].x {
        return -1;
      }
      for i := 0 to |points| - 1
        invariant Index(points, x) == IndexFrom(points, x, i)
      {
        if x >= points[i].x && x < points[i + 1].x {
          return i;
        }
      }
      return |points| - 1;
    }

    function Interpolate(x: real): real
      requires Valid()
    {
      IndexIsBounded(points, x);
      var i := Index(points, x);
      if i < 0 then points[0].y
      else if i >= |points| - 1 then points[|points| - 1].y
      else
        var h := points[i + 1].x - points[i].x;
        Segment(h, points[i].y, points[i + 1].y, tangents[i], tangents[i + 1], (x - points[i].x) / h)
    }

    /** The part of the curve over one segment, both ends included. */
    ghost predicate Over(i: nat, x: real)
      requires Valid()
    {
      i + 1 < |points| && points[i].x <= x <= points[i + 1].x
    }
  }

  /** Fewer than two points are refused; any others give the tangents in closed form. */
  method Create(points: seq<Point>) returns (r: Option<Spline>)
    requires DistinctX(points)
    ensures r.None? <==> |points| < 2
    ensures r.Some? ==> r.value.points == SortByX(points) && r.value.Valid()
  {
    var sorted := SortByX(points);
    if |sorted| < 2 {
      return None;
    }
    SortIsIncreasing(points);
    var s := SecantSlopes(sorted);
    assert s == Slopes(sorted);
    var t := PointTangents(s);
    EnsureMonotonicity(t, s);
    r := Some(Spline(sorted, t[..]));
  }

  datatype Option<T> = None | Some(value: T)

  lemma {:induction false} IndexFromIsBounded(points: seq<Point>, x: real, i: nat)
    requires i < |points|
    ensures i <= IndexFrom(points, x, i) < |points|
    decreases |points| - i
  {
    if i < |points| - 1 {
      IndexFromIsBounded(points, x, i + 1);
    }
  }

  lemma IndexIsBounded(points: seq<Point>, x: real)
    requires points != []
    ensures -1 <= Index(points, x) < |points|
  {
    IndexFromIsBounded(points, x, 0);
  }

  lemma {:induction false} IndexFromFinds(points: seq<Point>, x: real, i: nat, k: nat)
    requires Increasing(points) && i <= k < |points|
    requires points[k].x <= x && (k + 1 < |points| ==> x < points[k + 1].x)
    ensures IndexFrom(points, x, i) == k
    decreases k - i
  {
    if i < k {
      assert points[i + 1].x <= points[k].x;
      IndexFromFinds(points, x, i + 1, k);
    }
  }

  /** The index found is the one segment that holds x. */
  lemma IndexFinds(points: seq<Point>, x: real, k: nat)
    requires Increasing(points) && k < |points|
    requires points[k].x <= x && (k + 1 < |points| ==> x < points[k + 1].x)
    ensures Index(points, x) == k
  {
    assert points[0].x <= points[k].x;
    IndexFromFinds(points, x, 0, k);
  }

  lemma {:induction false} IndexExists(points: seq<Point>, x: real, i: nat) returns (k: nat)
    requires Increasing(points) && i < |points| && points[i].x <= x
    ensures i <= k < |points|
    ensures points[k].x <= x && (k + 1 < |points| ==> x < points[k + 1].x)
    decreases |points| - i
  {
    k := i;
    if i + 1 < |points| && points[i + 1].x <= x {
      k := IndexExists(points, x, i + 1);
    }
  }

  // ---------- One segment ----------

  /** The curve passes through every point. */
  lemma HitsKnots(sp: Spline, i: nat)
    requires sp.Valid() && i < |sp.points|
    ensures sp.Interpolate(sp.points[i].x) == sp.points[i].y
  {
    IndexFinds(sp.points, sp.points[i].x, i);
    if i + 1 < |sp.points| {
      var h := sp.points[i + 1].x - sp.points[i].x;
      assert (sp.points[i].x - sp.points[i].x) / h == 0.0;
    }
  }

  lemma ScaledPosition(a: real, x: real, h: real, t: real)
    requires h > 0.0 && a <= x <= a + h && t == (x - a) / h
    ensures 0.0 <= t <= 1.0 && t * h == x - a
  {
    if t < 0.0 { PositiveProduct(-t, h, a - x); }
    if t > 1.0 { PositiveProduct(t - 1.0, h, x - a - h); }
  }

  /** The curve over a segment, in its scaled form. */
  lemma OverSegment(sp: Spline, i: nat, x: real, t: real)
    requires sp.Valid() && sp.Over(i, x)
    requires t == (x - sp.points[i].x) / (sp.points[i + 1].x - sp.points[i].x)
    ensures 0.0 <= t <= 1.0
    ensures sp.Interpolate(x) ==
            Segment(sp.points[i + 1].x - sp.points[i].x, sp.points[i].y, sp.points[i + 1].y,
                    sp.tangents[i], sp.tangents[i + 1], t)
  {
    var h := sp.points[i + 1].x - sp.points[i].x;
    ScaledPosition(sp.points[i].x, x, h, t);
    if x < sp.points[i + 1].x {
      IndexFinds(sp.points, x, i);
    } else {
      assert t == 1.0 by { QuotientOf(x - sp.points[i].x, h, 1.0); }
      HitsKnots(sp, i + 1);
    }
  }

  lemma SlopeTimesWidth(points: seq<Point>, i: nat)
    requires Increasing(points) && i + 1 < |points|
    ensures Slope(points, i) * (points[i + 1].x - points[i].x) == points[i + 1].y - points[i].y
  {
  }

  ghost predicate Follows(y0: real, y1: real, a: real, b: real) {
    if y0 < y1 then a < b else if y0 > y1 then a > b else a == b
  }

  lemma ScaledFollows(y0: real, y1: real, a: real, b: real)
    requires a < b
    ensures Follows(y0, y1, y0 + (y1 - y0) * a, y0 + (y1 - y0) * b)
  {
    if y0 < y1 {
      PositiveProduct(y1 - y0, b - a, (y1 - y0) * (b - a));
    } else if y0 > y1 {
      PositiveProduct(y0 - y1, b - a, (y0 - y1) * (b - a));
    }
  }

  lemma TangentAsRatio(m: real, s: real)
    requires s != 0.0
    ensures m / s * s == m
  {
  }

  /** A boxed segment follows its two end points strictly. */
  lemma BoxedSegmentFollows(h: real, y0: real, y1: real, s: real, m0: real, m1: real, t: real, u: real)
    requires s * h == y1 - y0 && h > 0.0 && Boxed(s, m0, m1)
    requires 0.0 <= t < u <= 1.0
    ensures Follows(y0, y1, Segment(h, y0, y1, m0, m1, t), Segment(h, y0, y1, m0, m1, u))
  {
    var a := if s == 0.0 then 0.0 else m0 / s;
    var b := if s == 0.0 then 0.0 else m1 / s;
    if s != 0.0 {
      TangentAsRatio(m0, s);
      TangentAsRatio(m1, s);
    }
    SegmentIsScaledBlend(h, y0, y1, s, a, b, t);
    SegmentIsScaledBlend(h, y0, y1, s, a, b, u);
    BoxImpliesIncreasing(a, b, t, u);
    ScaledFollows(y0, y1, Blend(a, b, t), Blend(a, b, u));
  }

  /** A broken segment leaves the band between its end points. */
  lemma BrokenSegmentEscapes(h: real, y0: real, y1: real, s: real, m0: real, m1: real) returns (t: real)
    requires s * h == y1 - y0 && h > 0.0 && Broken(s, m0, m1)
    ensures 0.0 < t < 1.0
    ensures !Within(y0, y1, Segment(h, y0, y1, m0, m1, t))
  {
    if s == 0.0 {
      t := 0.5;
      FlatBump(h, y0, m1);
    } else {
      var b := m1 / s;
      TangentAsRatio(m1, s);
      t := SteepExitUndershoots(b);
      SegmentIsScaledBlend(h, y0, y1, s, 0.0, b, t);
      NonzeroProduct(s, h);
      ScaledUndershoot(y0, y1, Blend(0.0, b, t));
    }
  }

  lemma NonzeroProduct(s: real, h: real)
    requires s != 0.0 && h > 0.0
    ensures s * h != 0.0
  {
  }

  lemma FlatBump(h: real, y: real, m: real)
    requires h > 0.0 && m != 0.0
    ensures Segment(h, y, y, 0.0, m, 0.5) != y
  {
    assert Segment(h, y, y, 0.0, m, 0.5) == y - 0.125 * (h * m);
    NonzeroProduct(m, h);
  }

  lemma ScaledUndershoot(y0: real, y1: real, v: real)
    requires y0 != y1 && v < 0.0
    ensures !Within(y0, y1, y0 + (y1 - y0) * v)
  {
    if y0 < y1 {
      PositiveProduct(y1 - y0, -v, -((y1 - y0) * v));
    } else {
      PositiveProduct(y0 - y1, -v, (y1 - y0) * v);
    }
  }

  ghost predicate Within(y0: real, y1: real, y: real) {
    y0 <= y <= y1 || y1 <= y <= y0
  }

  // ---------- Main results ----------

  /** Over every segment the curve runs strictly the way its end points do. */
  ghost predicate KeepsShape(sp: Spline)
    requires sp.Valid()
  {
    forall i: nat, x: real, u: real ::
      sp.Over(i, x) && sp.Over(i, u) && x < u ==>
        Follows(sp.points[i].y, sp.points[i + 1].y, sp.Interpolate(x), sp.Interpolate(u))
  }

  /** Over every segment the curve stays between its end points. */
  ghost predicate StaysBetween(sp: Spline)
    requires sp.Valid()
  {
    forall i: nat, x: real :: sp.Over(i, x) ==> Within(sp.points[i].y, sp.points[i + 1].y, sp.Interpolate(x))
  }

  lemma HarmlessFollows(sp: Spline, i: nat, x: real, u: real)
    requires sp.Valid() && sp.Over(i, x) && sp.Over(i, u) && x < u
    requires Harmless(Slopes(sp.points), i)
    ensures Follows(sp.points[i].y, sp.points[i + 1].y, sp.Interpolate(x), sp.Interpolate(u))
  {
    hide Spline.Interpolate, Segment, Tangent, Index, Harmless, Slope, FlatsHarmless;
    var p, s := sp.points, Slopes(sp.points);
    var h := p[i + 1].x - p[i].x;
    var t, v := (x - p[i].x) / h, (u - p[i].x) / h;
    OverSegment(sp, i, x, t);
    OverSegment(sp, i, u, v);
    ScaledPosition(p[i].x, x, h, t);
    ScaledPosition(p[i].x, u, h, v);
    if t >= v { NonnegProduct(t - v, h, x - u); }
    RepairOutcome(s, i);
    SlopeTimesWidth(p, i);
    BoxedSegmentFollows(h, p[i].y, p[i + 1].y, s[i], sp.tangents[i], sp.tangents[i + 1], t, v);
  }

  lemma HarmfulEscapes(sp: Spline, i: nat) returns (x: real)
    requires sp.Valid() && i + 1 < |sp.points|
    requires !Harmless(Slopes(sp.points), i)
    ensures sp.Over(i, x) && !Within(sp.points[i].y, sp.points[i + 1].y, sp.Interpolate(x))
  {
    hide Spline.Interpolate, Segment, Tangent, Index, Harmless, Slope, FlatsHarmless;
    var p, s := sp.points, Slopes(sp.points);
    var h := p[i + 1].x - p[i].x;
    RepairOutcome(s, i);
    SlopeTimesWidth(p, i);
    var t := BrokenSegmentEscapes(h, p[i].y, p[i + 1].y, s[i], sp.tangents[i], sp.tangents[i + 1]);
    x := p[i].x + t * h;
    PositiveProduct(t, h, t * h);
    PositiveProduct(1.0 - t, h, (1.0 - t) * h);
    QuotientOf(x - p[i].x, h, t);
    OverSegment(sp, i, x, t);
  }

  /** A curve that keeps its shape stays between its points. */
  lemma ShapeImpliesBetween(sp: Spline)
    requires sp.Valid() && KeepsShape(sp)
    ensures StaysBetween(sp)
  {
    hide Spline.Interpolate, Segment, Tangent, Index, Harmless, Slope, FlatsHarmless;
    forall i: nat, x: real | sp.Over(i, x)
      ensures Within(sp.points[i].y, sp.points[i + 1].y, sp.Interpolate(x))
    {
      var a, b := sp.points[i].x, sp.points[i + 1].x;
      HitsKnots(sp, i);
      HitsKnots(sp, i + 1);
      assert sp.Over(i, a) && sp.Over(i, b);
      assert x > a ==> Follows(sp.points[i].y, sp.points[i + 1].y, sp.Interpolate(a), sp.Interpolate(x));
      assert x < b ==> Follows(sp.points[i].y, sp.points[i + 1].y, sp.Interpolate(x), sp.Interpolate(b));
    }
  }

  /** The promise of the spline and when the code meets it: shape preservation, the weaker
      containment, and the condition on flat stretches are one and the same. */
  lemma ShapeIffFlatsHarmless(sp: Spline)
    requires sp.Valid()
    ensures KeepsShape(sp) <==> FlatsHarmless(Slopes(sp.points))
    ensures StaysBetween(sp) <==> FlatsHarmless(Slopes(sp.points))
  {
    var s := Slopes(sp.points);
    if FlatsHarmless(s) {
      forall i: nat, x: real, u: real | sp.Over(i, x) && sp.Over(i, u) && x < u
        ensures Follows(sp.points[i].y, sp.points[i + 1].y, sp.Interpolate(x), sp.Interpolate(u))
      {
        HarmlessFollows(sp, i, x, u);
      }
    } else {
      var i: nat :| i + 1 < |s| && !Harmless(s, i);
      var x := HarmfulEscapes(sp, i);
    }
    if KeepsShape(sp) {
      ShapeImpliesBetween(sp);
    }
  }

  ghost predicate Ordered(up: bool, a: real, b: real) {
    if up then a <= b else a >= b
  }

  /** The values at the points all rise (or all fall), flat stretches allowed. */
  ghost predicate MonotoneData(up: bool, points: seq<Point>) {
    forall i, j :: 0 <= i <= j < |points| ==> Ordered(up, points[i].y, points[j].y)
  }

  ghost predicate MonotoneCurve(up: bool, sp: Spline)
    requires sp.Valid()
  {
    forall x: real, u: real :: x <= u ==> Ordered(up, sp.Interpolate(x), sp.Interpolate(u))
  }

  /** Where an abscissa behind the first point lies, and the knots around its value. */
  lemma Locate(sp: Spline, x: real, up: bool) returns (k: nat)
    requires sp.Valid() && StaysBetween(sp) && MonotoneData(up, sp.points)
    requires sp.points[0].x <= x
    ensures k < |sp.points| && sp.points[k].x <= x
    ensures k + 1 < |sp.points| ==> x < sp.points[k + 1].x && sp.Over(k, x)
    ensures Ordered(up, sp.points[k].y, sp.Interpolate(x))
    ensures k + 1 < |sp.points| ==> Ordered(up, sp.Interpolate(x), sp.points[k + 1].y)
    ensures k + 1 == |sp.points| ==> sp.Interpolate(x) == sp.points[k].y
  {
    hide Spline.Interpolate, Segment, Tangent, Index, Harmless, Slope, FlatsHarmless;
    k := IndexExists(sp.points, x, 0);
    if k + 1 < |sp.points| {
      assert sp.Over(k, x);
      assert Ordered(up, sp.points[k].y, sp.points[k + 1].y);
      assert Within(sp.points[k].y, sp.points[k + 1].y, sp.Interpolate(x));
    } else {
      AfterLast(sp, x);
    }
  }

  lemma BeforeFirst(sp: Spline, x: real)
    requires sp.Valid() && x < sp.points[0].x
    ensures sp.Interpolate(x) == sp.points[0].y
  {
  }

  lemma AfterLast(sp: Spline, x: real)
    requires sp.Valid() && sp.points[|sp.points| - 1].x <= x
    ensures sp.Interpolate(x) == sp.points[|sp.points| - 1].y
  {
    IndexFinds(sp.points, x, |sp.points| - 1);
  }

  lemma MonotoneCurveAt(up: bool, sp: Spline, x: real, u: real)
    requires sp.Valid() && MonotoneData(up, sp.points) && x < u
    requires KeepsShape(sp) && StaysBetween(sp)
    ensures Ordered(up, sp.Interpolate(x), sp.Interpolate(u))
  {
    hide Spline.Interpolate, Segment, Tangent, Index, Harmless, Slope, FlatsHarmless;
    if x < sp.points[0].x {
      BeforeFirst(sp, x);
    }
    if u < sp.points[0].x {
      BeforeFirst(sp, u);
    } else {
      var k := Locate(sp, u, up);
      assert Ordered(up, sp.points[0].y, sp.points[k].y);
      if x >= sp.points[0].x {
        var j := Locate(sp, x, up);
        if j == k && k + 1 < |sp.points| {
          assert Follows(sp.points[k].y, sp.points[k + 1].y, sp.Interpolate(x), sp.Interpolate(u));
          assert Ordered(up, sp.points[k].y, sp.points[k + 1].y);
        } else if j < k {
          assert Ordered(up, sp.points[j + 1].y, sp.points[k].y);
        } else if j > k {
          assert false;
        }
      }
    }
  }

  /** For rising or falling data the curve is monotone on the whole real line if and only if
      the flat stretches are harmless. */
  lemma MonotoneIffFlatsHarmless(up: bool, sp: Spline)
    requires sp.Valid() && MonotoneData(up, sp.points)
    ensures MonotoneCurve(up, sp) <==> FlatsHarmless(Slopes(sp.points))
  {
    hide Spline.Interpolate, Segment, Tangent, Index, Harmless, Slope, FlatsHarmless;
    ShapeIffFlatsHarmless(sp);
    if FlatsHarmless(Slopes(sp.points)) {
      forall x: real, u: real | x <= u ensures Ordered(up, sp.Interpolate(x), sp.Interpolate(u)) {
        if x < u {
          MonotoneCurveAt(up, sp, x, u);
        }
      }
    }
    if MonotoneCurve(up, sp) {
      MonotoneStaysBetween(up, sp);
    }
  }

  lemma MonotoneStaysBetween(up: bool, sp: Spline)
    requires sp.Valid() && MonotoneCurve(up, sp)
    ensures StaysBetween(sp)
  {
    hide Spline.Interpolate, Segment, Tangent, Index, Harmless, Slope, FlatsHarmless;
    forall i: nat, x: real | sp.Over(i, x)
      ensures Within(sp.points[i].y, sp.points[i + 1].y, sp.Interpolate(x))
    {
      HitsKnots(sp, i);
      HitsKnots(sp, i + 1);
      assert Ordered(up, sp.Interpolate(sp.points[i].x), sp.Interpolate(x));
      assert Ordered(up, sp.Interpolate(x), sp.Interpolate(sp.points[i + 1].x));
    }
  }

  /** Data without equal neighbours, whether it rises, falls or mixes both, is always safe. */
  lemma NoEqualNeighboursIsHarmless(points: seq<Point>)
    requires Increasing(points) && |points| >= 2
    requires forall i: nat :: i + 1 < |points| ==> points[i].y != points[i + 1].y
    ensures FlatsHarmless(Slopes(points))
  {
    var s := Slopes(points);
    forall i: nat | i + 1 < |s| ensures s[i] != 0.0 {
      SlopeTimesWidth(points, i);
    }
  }

  /** Strictly rising or falling data gives a strictly monotone curve between the outer points. */
  lemma StrictDataStrictCurve(sp: Spline, x: real, u: real, up: bool)
    requires sp.Valid() && MonotoneData(up, sp.points)
    requires forall i: nat :: i + 1 < |sp.points| ==> sp.points[i].y != sp.points[i + 1].y
    requires sp.points[0].x <= x < u <= sp.points[|sp.points| - 1].x
    ensures if up then sp.Interpolate(x) < sp.Interpolate(u) else sp.Interpolate(x) > sp.Interpolate(u)
  {
    hide Spline.Interpolate, Segment, Tangent, Index, Harmless, Slope, FlatsHarmless;
    NoEqualNeighboursIsHarmless(sp.points);
    ShapeIffFlatsHarmless(sp);
    var j := Locate(sp, x, up);
    var k := Locate(sp, u, up);
    if j + 1 == |sp.points| {
      assert false;
    }
    assert Ordered(up, sp.points[j].y, sp.points[j + 1].y);
    if j == k {
      assert Follows(sp.points[j].y, sp.points[j + 1].y, sp.Interpolate(x), sp.Interpolate(u));
    } else {
      var b := sp.points[j + 1].x;
      HitsKnots(sp, j + 1);
      assert sp.Over(j, b);
      assert Follows(sp.points[j].y, sp.points[j + 1].y, sp.Interpolate(x), sp.Interpolate(b));
      if k < j {
        assert false;
      }
      assert Ordered(up, sp.points[j + 1].y, sp.points[k].y);
    }
  }

  /** A curve with harmless flat stretches never leaves the range of its table. */
  lemma StaysInTable(sp: Spline, x: real, lo: real, hi: real)
    requires sp.Valid() && FlatsHarmless(Slopes(sp.points))
    requires forall k: nat :: k < |sp.points| ==> lo <= sp.points[k].y <= hi
    ensures lo <= sp.Interpolate(x) <= hi
  {
    hide Spline.Interpolate, Segment, Tangent, Index, Harmless, Slope, FlatsHarmless;
    ShapeIffFlatsHarmless(sp);
    if x >= sp.points[0].x {
      var k := IndexExists(sp.points, x, 0);
      if k + 1 < |sp.points| {
        assert sp.Over(k, x);
      } else {
        AfterLast(sp, x);
      }
    } else {
      BeforeFirst(sp, x);
    }
  }

  /** A rising table with one flat stretch whose curve is not monotone: 0, 0, 1, 10. */
  lemma FlatStretchSpoilsMonotonicity(sp: Spline)
    requires sp.Valid()
    requires sp.points == [Point(0.0, 0.0), Point(1.0, 0.0), Point(2.0, 1.0), Point(3.0, 10.0)]
    ensures MonotoneData(true, sp.points) && !MonotoneCurve(true, sp)
    ensures sp.Interpolate(1.5) < 0.0
  {
    var s := Slopes(sp.points);
    assert s[0] == 0.0 && s[1] == 1.0 && s[2] == 9.0;
    assert FlatRun(s, 1) == 1;
    assert !Harmless(s, 1);
    MonotoneIffFlatsHarmless(true, sp);
    IndexFinds(sp.points, 1.5, 1);
    assert FlatRun(s, 2) == 0;
  }

  // ---------- A smooth curve, close to its secants ----------

  /** Data without equal neighbours. */
  ghost predicate NoneFlat(s: seq<real>) {
    |s| >= 2 && forall i: nat :: i + 1 < |s| ==> s[i] != 0.0
  }

  /** Of all end tangents that keep a segment monotone, those within three times its secant. */
  predicate Mild(m: real, s: real)
    requires s != 0.0
  {
    0.0 <= m / s <= 3.0
  }

  /** The tangent m may be used at point k: it is mild to the segments on both sides. */
  ghost predicate MildAt(s: seq<real>, k: nat, m: real)
    requires NoneFlat(s) && k < |s|
  {
    (k > 0 ==> Mild(m, s[k - 1])) && (k + 1 < |s| ==> Mild(m, s[k]))
  }

  lemma NeverFlat(s: seq<real>, i: nat)
    requires NoneFlat(s) && i + 1 < |s|
    ensures Checked(s, i) && Visited(s, i)
  {
  }

  /** A tangent beyond three times the slope is furthest in at three times the slope. */
  lemma CapIsClosest(p: real, m: real, t: real)
    requires p != 0.0 && m / p > 3.0 && Mild(t, p)
    ensures Abs(3.0 * p - m) <= Abs(t - m)
  {
    var a, b := m / p, t / p;
    assert m == a * p && t == b * p;
    if p > 0.0 {
      PositiveProduct(a - 3.0, p, m - 3.0 * p);
      NonnegProduct(3.0 - b, p, 3.0 * p - t);
    } else {
      PositiveProduct(a - 3.0, -p, 3.0 * p - m);
      NonnegProduct(3.0 - b, -p, t - 3.0 * p);
    }
  }

  /** Without flat stretches the repair leaves a tangent that keeps the segments on both sides monotone,
      and of all such tangents the one closest to the mean of the secants. */
  lemma RepairIsClosest(s: seq<real>, k: nat, t: real)
    requires NoneFlat(s) && k < |s| && MildAt(s, k, t)
    ensures MildAt(s, k, Tangent(s, k))
    ensures Abs(Tangent(s, k) - InitialTangent(s, k)) <= Abs(t - InitialTangent(s, k))
  {
    var m := InitialTangent(s, k);
    if k + 1 < |s| {
      NeverFlat(s, k);
      LeftTangent(s, k);
    }
    if k > 0 {
      NeverFlat(s, k - 1);
      RightTangent(s, k - 1);
      if m / s[k - 1] > 3.0 { CapIsClosest(s[k - 1], m, t); }
    }
    if k + 1 < |s| && m / s[k] > 3.0 { CapIsClosest(s[k], m, t); }
    if 0 < k < |s| - 1 { AverageRatios(s[k - 1], s[k], m); }
  }

  lemma StraightSlopes(points: seq<Point>, c: real, m: real, i: nat)
    requires Increasing(points) && i + 1 < |points|
    requires forall k: nat :: k < |points| ==> points[k].y == c + m * points[k].x
    ensures Slopes(points)[i] == m
  {
    var h := points[i + 1].x - points[i].x;
    assert points[i + 1].y - points[i].y == m * h;
    QuotientOf(points[i + 1].y - points[i].y, h, m);
  }

  lemma StraightTangents(s: seq<real>, m: real, k: nat)
    requires |s| >= 2 && k < |s| && forall i: nat :: i + 1 < |s| ==> s[i] == m
    ensures Tangent(s, k) == m
  {
    NonnegSquare(m);
    if m != 0.0 {
      assert m / m == 1.0;
      RepairIsClosest(s, k, m);
    }
  }

  lemma NonnegSquare(m: real)
    ensures m * m >= 0.0
  {
    if m < 0.0 { PositiveProduct(-m, -m, m * m); } else { NonnegProduct(m, m, m * m); }
  }

  /** Points on a straight line give that line. */
  lemma StraightDataStraightCurve(sp: Spline, c: real, m: real, x: real)
    requires sp.Valid() && forall k: nat :: k < |sp.points| ==> sp.points[k].y == c + m * sp.points[k].x
    requires sp.points[0].x <= x <= sp.points[|sp.points| - 1].x
    ensures sp.Interpolate(x) == c + m * x
  {
    hide Spline.Interpolate, Tangent, Index, Segment;
    var k := IndexExists(sp.points, x, 0);
    if k + 1 < |sp.points| {
      var s := Slopes(sp.points);
      forall i: nat | i + 1 < |s| ensures s[i] == m {
        StraightSlopes(sp.points, c, m, i);
      }
      StraightTangents(s, m, k);
      StraightTangents(s, m, k + 1);
      var p, q := sp.points[k], sp.points[k + 1];
      var t := (x - p.x) / (q.x - p.x);
      OverSegment(sp, k, x, t);
      ScaledPosition(p.x, x, q.x - p.x, t);
      StraightSegment(q.x - p.x, p.y, q.y, m, t, x - p.x);
    } else {
      AfterLast(sp, x);
    }
  }

  lemma StraightSegment(h: real, y0: real, y1: real, m: real, t: real, d: real)
    requires y1 - y0 == m * h && t * h == d
    ensures Segment(h, y0, y1, m, m, t) == y0 + m * d
  {
    SegmentIsScaledBlend(h, y0, y1, m, 1.0, 1.0, t);
    assert Blend(1.0, 1.0, t) == t;
    assert (y1 - y0) * t == m * (t * h);
  }

  /** What the curve of a segment has beyond its tangent at the start; */
  lemma BeyondTangent(h: real, y0: real, y1: real, m0: real, m1: real, t: real, c: real, d: real)
    requires c == 3.0 * (y1 - y0) - h * (2.0 * m0 + m1) && d == h * (m0 + m1) - 2.0 * (y1 - y0)
    ensures Segment(h, y0, y1, m0, m1, t) - (y0 + m0 * (h * t)) == (c + d * t) * (t * t)
  {
    var a, b := h * m0, h * m1;
    assert h * (2.0 * m0 + m1) == 2.0 * a + b && h * (m0 + m1) == a + b;
    assert Segment(h, y0, y1, m0, m1, t) ==
      (t * t * (2.0 * t - 3.0) + 1.0) * y0 + t * (1.0 + t * (t - 2.0)) * a + t * t * (3.0 - 2.0 * t) * y1
        + t * t * (t - 1.0) * b;
    assert m0 * (h * t) == a * t;
  }

  /** and at its end, where the segment is read backwards. */
  lemma Backwards(h: real, y0: real, y1: real, m0: real, m1: real, t: real)
    ensures Segment(h, y0, y1, m0, m1, t) == Segment(h, y1, y0, -m1, -m0, 1.0 - t)
  {
    var u := 1.0 - t;
    assert t * t * (2.0 * t - 3.0) + 1.0 == u * u * (3.0 - 2.0 * u);
    assert t * (1.0 + t * (t - 2.0)) == -(u * u * (u - 1.0));
    assert t * t * (3.0 - 2.0 * t) == u * u * (2.0 * u - 3.0) + 1.0;
    assert t * t * (t - 1.0) == -(u * (1.0 + u * (u - 2.0)));
  }

  lemma LinearBound(c: real, d: real, t: real)
    requires 0.0 <= t <= 1.0
    ensures Abs(c + d * t) <= Abs(c) + Abs(d)
  {
    if d >= 0.0 {
      NonnegProduct(d, t, d * t);
      NonnegProduct(d, 1.0 - t, d - d * t);
    } else {
      NonnegProduct(-d, t, -(d * t));
      NonnegProduct(-d, 1.0 - t, d * t - d);
    }
  }

  lemma ScaledBound(r: real, b: real, q: real)
    requires Abs(r) <= b && q >= 0.0
    ensures Abs(r * q) <= b * q
  {
    NonnegProduct(b - r, q, b * q - r * q);
    NonnegProduct(b + r, q, b * q + r * q);
  }

  /** How fast the curve of a segment leaves its tangents. */
  function Bend(h: real, y0: real, y1: real, m0: real, m1: real): (b: real)
    ensures b >= 0.0
  {
    Abs(3.0 * (y1 - y0) - h * (2.0 * m0 + m1)) + Abs(h * (m0 + m1) - 2.0 * (y1 - y0))
  }

  lemma QuadraticBound(v: real, l: real, c: real, d: real, t: real, b: real)
    requires 0.0 <= t <= 1.0 && v - l == (c + d * t) * (t * t) && b == Abs(c) + Abs(d)
    ensures Abs(v - l) <= b * (t * t)
  {
    LinearBound(c, d, t);
    NonnegProduct(t, t, t * t);
    ScaledBound(c + d * t, b, t * t);
  }

  /** The curve leaves its tangent by the square of the distance at most. */
  lemma SegmentTouches(h: real, y0: real, y1: real, m0: real, m1: real, t: real, v: real, l: real)
    requires 0.0 <= t <= 1.0 && v == Segment(h, y0, y1, m0, m1, t) && l == y0 + m0 * (h * t)
    ensures Abs(v - l) <= Bend(h, y0, y1, m0, m1) * (t * t)
  {
    hide Segment;
    var c, d := 3.0 * (y1 - y0) - h * (2.0 * m0 + m1), h * (m0 + m1) - 2.0 * (y1 - y0);
    BeyondTangent(h, y0, y1, m0, m1, t, c, d);
    QuadraticBound(v, l, c, d, t, Bend(h, y0, y1, m0, m1));
  }

  /** At x the curve is at most so far from the line through point k with that point's tangent. */
  ghost predicate Touches(sp: Spline, k: nat, x: real, bend: real)
    requires sp.Valid() && k < |sp.points|
  {
    var d := x - sp.points[k].x;
    Abs(sp.Interpolate(x) - (sp.points[k].y + sp.tangents[k] * d)) <= bend * (d * d)
  }

  lemma SquareOfScaled(h: real, t: real, b: real, d: real, bend: real)
    requires h > 0.0 && t * h == d && bend == b / (h * h)
    ensures b * (t * t) == bend * (d * d)
  {
    assert d * d == (t * t) * (h * h);
    PositiveProduct(h, h, h * h);
    assert bend * (h * h) == b;
  }

  lemma TouchesStart(sp: Spline, i: nat, x: real, h: real, b: real)
    requires sp.Valid() && sp.Over(i, x) && h == sp.points[i + 1].x - sp.points[i].x > 0.0
    requires b == Bend(h, sp.points[i].y, sp.points[i + 1].y, sp.tangents[i], sp.tangents[i + 1])
    ensures h * h > 0.0 && Touches(sp, i, x, b / (h * h))
  {
    hide Spline.Interpolate, Segment, Tangent, Bend;
    var p, q := sp.points[i], sp.points[i + 1];
    var t := (x - p.x) / h;
    PositiveProduct(h, h, h * h);
    OverSegment(sp, i, x, t);
    ScaledPosition(p.x, x, h, t);
    var m0, m1 := sp.tangents[i], sp.tangents[i + 1];
    SegmentTouches(h, p.y, q.y, m0, m1, t, Segment(h, p.y, q.y, m0, m1, t), p.y + m0 * (h * t));
    SquareOfScaled(h, t, b, x - p.x, b / (h * h));
  }

  lemma TouchesEnd(sp: Spline, i: nat, x: real, h: real, b: real)
    requires sp.Valid() && sp.Over(i, x) && h == sp.points[i + 1].x - sp.points[i].x > 0.0
    requires b == Bend(h, sp.points[i + 1].y, sp.points[i].y, -sp.tangents[i + 1], -sp.tangents[i])
    ensures h * h > 0.0 && Touches(sp, i + 1, x, b / (h * h))
  {
    hide Spline.Interpolate, Segment, Tangent, Bend;
    var p, q := sp.points[i], sp.points[i + 1];
    var m0, m1 := sp.tangents[i], sp.tangents[i + 1];
    var t := (x - p.x) / h;
    PositiveProduct(h, h, h * h);
    OverSegment(sp, i, x, t);
    ScaledPosition(p.x, x, h, t);
    Backwards(h, p.y, q.y, m0, m1, t);
    var u := 1.0 - t;
    SegmentTouches(h, q.y, p.y, -m1, -m0, u, Segment(h, q.y, p.y, -m1, -m0, u), q.y + -m1 * (h * u));
    var d := x - q.x;
    assert h * (1.0 - t) == -d;
    assert -m1 * -d == m1 * d;
    SquareOfScaled(h, 1.0 - t, b, -d, b / (h * h));
    assert -d * -d == d * d;
  }

  lemma WiderTouches(sp: Spline, k: nat, x: real, b: real, c: real)
    requires sp.Valid() && k < |sp.points| && Touches(sp, k, x, b) && b <= c
    ensures Touches(sp, k, x, c)
  {
    hide Spline.Interpolate, Tangent;
    var d := x - sp.points[k].x;
    NonnegSquare(d);
    NonnegProduct(c - b, d * d, c * (d * d) - b * (d * d));
  }

  /** The curve is smooth: at an inner point it has the same tangent on both sides, which it leaves by a
      multiple of the square of the distance at most. */
  lemma SmoothAtPoints(sp: Spline, k: nat) returns (bend: real)
    requires sp.Valid() && 0 < k < |sp.points| - 1
    ensures forall x: real :: sp.points[k - 1].x <= x <= sp.points[k + 1].x ==> Touches(sp, k, x, bend)
  {
    hide Touches, Spline.Interpolate, Tangent, Bend;
    var o, p, q := sp.points[k - 1], sp.points[k], sp.points[k + 1];
    var g, h := p.x - o.x, q.x - p.x;
    var b := Bend(g, p.y, o.y, -sp.tangents[k], -sp.tangents[k - 1]);
    var c := Bend(h, p.y, q.y, sp.tangents[k], sp.tangents[k + 1]);
    PositiveProduct(g, g, g * g);
    PositiveProduct(h, h, h * h);
    bend := if b / (g * g) > c / (h * h) then b / (g * g) else c / (h * h);
    forall x: real | o.x <= x <= q.x ensures Touches(sp, k, x, bend) {
      if x <= p.x {
        TouchesEnd(sp, k - 1, x, g, b);
        WiderTouches(sp, k, x, b / (g * g), bend);
      } else {
        TouchesStart(sp, k, x, h, c);
        WiderTouches(sp, k, x, c / (h * h), bend);
      }
    }
  }
}
