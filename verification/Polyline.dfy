/** Position along a route: arc-length interpolation on a polyline, over exact reals.  The
    length of a segment is a parameter, any non-negative function of its ends. */
module Polylines {

  datatype Point = Point(x: real, y: real)

  type Metric = (Point, Point) -> real

  ghost predicate NonNegative(len: Metric) {
    forall a, b :: len(a, b) >= 0.0
  }

  /** Only a point has no distance from itself, and it has none. */
  ghost predicate Separates(len: Metric) {
    forall a, b :: len(a, b) == 0.0 <==> a == b
  }

  /** Length of the route up to vertex i. */
  function Travelled(len: Metric, coords: seq<Point>, i: nat): real
    requires i < |coords|
  {
    if i == 0 then 0.0 else Travelled(len, coords, i - 1) + len(coords[i - 1], coords[i])
  }

  lemma {:induction false} TravelledRises(len: Metric, coords: seq<Point>, i: nat, j: nat)
    requires NonNegative(len) && i <= j < |coords|
    ensures 0.0 <= Travelled(len, coords, i) <= Travelled(len, coords, j)
  {
    if j > 0 {
      if i < j {
        TravelledRises(len, coords, i, j - 1);
      } else {
        TravelledRises(len, coords, i - 1, j - 1);
      }
    }
  }

  /** From zero, each entry is one segment longer than the one before. */
  predicate Accumulates(len: Metric, coords: seq<Point>, distances: seq<real>) {
    && |distances| == |coords| && (coords != [] ==> distances[0] == 0.0)
    && forall k :: 0 < k < |coords| ==> distances[k] == distances[k - 1] + len(coords[k - 1], coords[k])
  }

  /** The lengths up to the vertices are the one list that accumulates the segments. */
  lemma {:induction false} TravelledAccumulates(len: Metric, coords: seq<Point>, distances: seq<real>, i: nat)
    requires |distances| == |coords| && i < |coords|
    ensures Accumulates(len, coords, distances) ==> distances[i] == Travelled(len, coords, i)
    ensures (forall k :: 0 <= k < |coords| ==> distances[k] == Travelled(len, coords, k)) ==>
              Accumulates(len, coords, distances)
  {
    if i > 0 {
      TravelledAccumulates(len, coords, distances, i - 1);
    }
  }

  /** The point a fraction t of the way from a to b. */
  function Between(a: Point, b: Point, t: real): Point {
    Point(a.x + (b.x - a.x) * t, a.y + (b.y - a.y) * t)
  }

  /** The length of a fraction of a segment. */
  function Portion(t: real, length: real): real {
    t * length
  }

  /** p lies the fraction t along segment i, from vertex i - 1 to vertex i, and that is at
      arc length target from the start of the route. */
  predicate AtFraction(len: Metric, coords: seq<Point>, i: nat, target: real, p: Point, t: real)
    requires 0 < i < |coords|
  {
    && 0.0 <= t <= 1.0
    && p == Between(coords[i - 1], coords[i], t)
    && Travelled(len, coords, i - 1) + Portion(t, len(coords[i - 1], coords[i])) == target
  }

  ghost predicate OnSegmentAt(len: Metric, coords: seq<Point>, i: nat, target: real, p: Point)
    requires 0 < i < |coords|
  {
    exists t: real :: AtFraction(len, coords, i, target, p, t)
  }

  /** Segment i is the first whose end is at or beyond the target. */
  predicate FirstReaching(len: Metric, coords: seq<Point>, i: nat, target: real) {
    && 0 < i < |coords| && Travelled(len, coords, i) >= target
    && forall k :: 0 < k < i ==> Travelled(len, coords, k) < target
  }

  /** The arc length asked for: the fraction t of the whole route. */
  function Target(len: Metric, coords: seq<Point>, t: real): real
    requires coords != []
  {
    Portion(t, Travelled(len, coords, |coords| - 1))
  }

  /** How far along a segment the covered length is; 0 on a segment of no length. */
  function FractionOf(covered: real, segLen: real): real {
    if segLen > 0.0 then covered / segLen else 0.0
  }

  function SegmentFraction(len: Metric, coords: seq<Point>, i: nat, target: real): real
    requires 0 < i < |coords|
  {
    FractionOf(target - Travelled(len, coords, i - 1), Travelled(len, coords, i) - Travelled(len, coords, i - 1))
  }

  /** p divides the way from a to b, of the given length, in the proportion covered to length;
      on a segment of no length it is a. */
  predicate DividesSegment(a: Point, b: Point, p: Point, length: real, covered: real) {
    if length > 0.0 then
      && length * (p.x - a.x) == covered * (b.x - a.x)
      && length * (p.y - a.y) == covered * (b.y - a.y)
    else p == a
  }

  /** p divides a segment of the route where the fraction t of the whole length falls. */
  predicate DividesRoute(len: Metric, coords: seq<Point>, t: real, segment: nat, p: Point)
    requires 0 < segment < |coords|
  {
    var a, b := coords[segment - 1], coords[segment];
    DividesSegment(a, b, p, len(a, b),
                   t * Travelled(len, coords, |coords| - 1) - Travelled(len, coords, segment - 1))
  }

  lemma BetweenDivides(a: Point, b: Point, length: real, covered: real)
    ensures DividesSegment(a, b, Between(a, b, FractionOf(covered, length)), length, covered)
  {
    if length > 0.0 {
      var f := covered / length;
      assert length * f == covered;
      Rescaled(length, f, b.x - a.x);
      Rescaled(length, f, b.y - a.y);
    }
  }

  lemma Rescaled(length: real, f: real, d: real)
    ensures length * (d * f) == (length * f) * d
  {
  }

  /** p is interpolated on the first segment whose end is at or beyond the target; with no
      such segment, number 0 by convention, it is the last vertex. */
  predicate IsPosition(len: Metric, coords: seq<Point>, target: real, p: Point, segment: nat)
    requires coords != []
  {
    if segment > 0 then
      && FirstReaching(len, coords, segment, target)
      && p == Between(coords[segment - 1], coords[segment], SegmentFraction(len, coords, segment, target))
    else
      p == coords[|coords| - 1] && forall k :: 0 < k < |coords| ==> Travelled(len, coords, k) < target
  }

  /** The first loop: how long the route is up to each vertex. */
  method RunningLengths(len: Metric, coords: seq<Point>) returns (distances: seq<real>)
    requires coords != []
    ensures |distances| == |coords|
    ensures forall k :: 0 <= k < |coords| ==> distances[k] == Travelled(len, coords, k)
  {
    distances := [0.0];
    for i := 1 to |coords|
      invariant |distances| == i
      invariant forall k :: 0 <= k < i ==> distances[k] == Travelled(len, coords, k)
    {
      distances := distances + [distances[i - 1] + len(coords[i - 1], coords[i])];
    }
  }

  method InterpolateAlong(len: Metric, coords: seq<Point>, t: real) returns (p: Point, ghost segment: nat)
    ensures |coords| == 0 ==> p == Point(0.0, 0.0)
    ensures |coords| == 1 ==> p == coords[0]
    ensures |coords| >= 2 ==> IsPosition(len, coords, Target(len, coords, t), p, segment)
    ensures NonNegative(len) && |coords| >= 2 && 0.0 <= t <= 1.0 ==>
              segment > 0 && OnSegmentAt(len, coords, segment, Target(len, coords, t), p)
    ensures |coords| >= 2 && segment > 0 ==> DividesRoute(len, coords, t, segment, p)
  {
    segment := 0;
    if |coords| < 2 {
      p := if |coords| == 1 then coords[0] else Point(0.0, 0.0);
      return;
    }
    hide Portion;
    hide OnSegmentAt;
    hide DividesRoute;
    var n := |coords|;
    var distances := RunningLengths(len, coords);
    var total := distances[|distances| - 1];
    var target := Portion(t, total);
    assert target == Target(len, coords, t);
    hide Target;
    hide Travelled;
    hide Between;
    hide FractionOf;
    for i := 1 to n
      invariant forall k :: 0 < k < i ==> Travelled(len, coords, k) < target
    {
      if distances[i] >= target {
        var segLen := distances[i] - distances[i - 1];
        var segT := FractionOf(target - distances[i - 1], segLen);
        assert segT == SegmentFraction(len, coords, i, target);
        segment := i;
        p := Between(coords[i - 1], coords[i], segT);
        PositionIsExact(len, coords, t, segment, p);
        PositionDivides(len, coords, t, segment, p);
        return;
      }
    }
    p := coords[n - 1];
    PositionIsExact(len, coords, t, segment, p);
  }

  lemma TargetWithinRoute(len: Metric, coords: seq<Point>, t: real)
    requires NonNegative(len) && coords != [] && 0.0 <= t <= 1.0
    ensures 0.0 <= Target(len, coords, t) <= Travelled(len, coords, |coords| - 1)
  {
    TravelledRises(len, coords, 0, |coords| - 1);
    hide Travelled;
    hide Portion;
    ScaledDown(Travelled(len, coords, |coords| - 1), t);
  }

  lemma ScaledDown(x: real, t: real)
    requires x >= 0.0 && 0.0 <= t <= 1.0
    ensures 0.0 <= Portion(t, x) <= x
  {
    assert x * t + x * (1.0 - t) == x;
  }

  lemma Fraction(length: real, covered: real)
    requires length > 0.0 && 0.0 <= covered <= length
    ensures 0.0 <= covered / length <= 1.0 && Portion(covered / length, length) == covered
  {
  }

  /** For every t from 0 to 1 some segment is found, and the point lies on it at arc length
      exactly t times the total, zero-length segments included. */
  lemma ArcLengthIsExact(len: Metric, coords: seq<Point>, t: real, segment: nat)
    requires NonNegative(len) && |coords| >= 2 && 0.0 <= t <= 1.0
    ensures exists i :: FirstReaching(len, coords, i, Target(len, coords, t))
    ensures var target := Target(len, coords, t);
            FirstReaching(len, coords, segment, target) ==>
              OnSegmentAt(len, coords, segment, target,
                          Between(coords[segment - 1], coords[segment], SegmentFraction(len, coords, segment, target)))
  {
    TargetWithinRoute(len, coords, t);
    var target := Target(len, coords, t);
    hide Target;
    var _ := SomeSegmentReaches(len, coords, target, |coords| - 1);
    if FirstReaching(len, coords, segment, target) {
      var start, length := Travelled(len, coords, segment - 1), len(coords[segment - 1], coords[segment]);
      var f := SegmentFraction(len, coords, segment, target);
      assert start <= target <= start + length;
      if length > 0.0 {
        Fraction(length, target - start);
      } else {
        assert Portion(f, length) == 0.0;
      }
      assert AtFraction(len, coords, segment, target, Between(coords[segment - 1], coords[segment], f), f);
    }
  }

  lemma PositionDivides(len: Metric, coords: seq<Point>, t: real, segment: nat, p: Point)
    requires |coords| >= 2 && segment > 0 && IsPosition(len, coords, Target(len, coords, t), p, segment)
    ensures segment < |coords| && DividesRoute(len, coords, t, segment, p)
  {
    var a, b := coords[segment - 1], coords[segment];
    var covered := Target(len, coords, t) - Travelled(len, coords, segment - 1);
    assert SegmentFraction(len, coords, segment, Target(len, coords, t)) == FractionOf(covered, len(a, b));
    BetweenDivides(a, b, len(a, b), covered);
  }

  lemma PositionIsExact(len: Metric, coords: seq<Point>, t: real, segment: nat, p: Point)
    requires |coords| >= 2 && IsPosition(len, coords, Target(len, coords, t), p, segment)
    ensures NonNegative(len) && 0.0 <= t <= 1.0 ==>
              segment > 0 && OnSegmentAt(len, coords, segment, Target(len, coords, t), p)
  {
    if NonNegative(len) && 0.0 <= t <= 1.0 {
      ArcLengthIsExact(len, coords, t, segment);
    }
  }

  lemma {:induction false} SomeSegmentReaches(len: Metric, coords: seq<Point>, target: real, j: nat) returns (i: nat)
    requires 0 < j < |coords| && Travelled(len, coords, j) >= target
    ensures FirstReaching(len, coords, i, target)
    decreases j
  {
    if k :| 0 < k < j && Travelled(len, coords, k) >= target {
      i := SomeSegmentReaches(len, coords, target, k);
    } else {
      i := j;
    }
  }

  lemma {:induction false} StandingStill(len: Metric, coords: seq<Point>, i: nat, k: nat)
    requires NonNegative(len) && Separates(len) && i <= k < |coords|
    requires Travelled(len, coords, i) == Travelled(len, coords, k)
    ensures coords[i] == coords[k]
    decreases k
  {
    if i < k {
      TravelledRises(len, coords, i, k - 1);
      TravelledRises(len, coords, k - 1, k);
      StandingStill(len, coords, i, k - 1);
      assert len(coords[k - 1], coords[k]) == 0.0;
    }
  }

  lemma EndOfSegment(a: Point, b: Point, length: real, t: real)
    requires length == 0.0 <==> a == b
    ensures Portion(t, length) == length ==> Between(a, b, t) == b
    ensures Portion(t, length) == 0.0 ==> Between(a, b, t) == a
  {}

  /** The route passes through each of its vertices at that vertex's own arc length, whichever
      segment is chosen for it; the first and the last vertex are t = 0 and t = 1. */
  lemma PassesThroughVertices(len: Metric, coords: seq<Point>, i: nat, k: nat, p: Point)
    requires NonNegative(len) && Separates(len) && k < |coords|
    requires FirstReaching(len, coords, i, Travelled(len, coords, k))
    requires OnSegmentAt(len, coords, i, Travelled(len, coords, k), p)
    ensures p == coords[k]
  {
    hide Portion;
    hide Between;
    var a, b := coords[i - 1], coords[i];
    var t: real :| AtFraction(len, coords, i, Travelled(len, coords, k), p, t);
    EndOfSegment(a, b, len(a, b), t);
    if k == 0 {
      TravelledRises(len, coords, 0, 1);
      assert i == 1;
    } else {
      assert i <= k;
      TravelledRises(len, coords, i, k);
      StandingStill(len, coords, i, k);
    }
  }
}
