/** Point-in-polygon by ray casting, over exact reals.

    The loop of Geofence::contains tests every edge with a quotient of coordinate differences
    and flips a flag.  Everything below is proved from that test alone: its
    division-free reading as an orientation sign, the parity algebra of closed vertex
    cycles, and the agreement with the textbook orientation test on triangles. */
module Geofences {

  datatype Position = Position(latitude: real, longitude: real)

  // ---- The edge test ----

  predicate East(v: Position, pos: Position) {
    v.longitude > pos.longitude
  }

  /** The numerator of the interpolated latitude. */
  function Rise(a: Position, b: Position, p: Position): real {
    (b.latitude - a.latitude) * (p.longitude - a.longitude)
  }

  /** The condition under which the loop flips its flag. */
  predicate Crosses(vi: Position, vj: Position, pos: Position) {
    && East(vi, pos) != East(vj, pos)
    && pos.latitude < Rise(vi, vj, pos) / (vj.longitude - vi.longitude) + vi.latitude
  }

  /** Twice the signed area of the triangle a, b, p. */
  function Orientation(a: Position, b: Position, p: Position): real {
    (b.longitude - a.longitude) * (p.latitude - a.latitude) - Rise(a, b, p)
  }

  lemma QuotientBound(y: real, n: real, d: real)
    requires d != 0.0
    ensures d > 0.0 ==> (y < n / d <==> d * y - n < 0.0)
    ensures d < 0.0 ==> (y < n / d <==> d * y - n > 0.0)
  {}

  /** The edge test without division: an edge is crossed exactly when it straddles the
      point's meridian, half-open to the east, and the point lies on its southern side. */
  lemma CrossesIsOrientation(a: Position, b: Position, p: Position)
    ensures Crosses(a, b, p) <==>
            || (a.longitude <= p.longitude < b.longitude && Orientation(a, b, p) < 0.0)
            || (b.longitude <= p.longitude < a.longitude && Orientation(a, b, p) > 0.0)
  {
    var n, d, y := Rise(a, b, p), b.longitude - a.longitude, p.latitude - a.latitude;
    hide Rise;
    if East(a, p) != East(b, p) {
      QuotientBound(y, n, d);
      var q := n / d;
      assert Crosses(a, b, p) <==> p.latitude < q + a.latitude;
      assert Orientation(a, b, p) == d * y - n;
    }
  }

  lemma CrossesSymmetric(a: Position, b: Position, p: Position)
    ensures Crosses(a, b, p) == Crosses(b, a, p)
  {}

  // ---- Parity of paths and cycles ----

  /** Parity of the number of crossed edges along an open path. */
  function PathParity(vs: seq<Position>, p: Position): bool {
    if |vs| < 2 then false
    else Crosses(vs[1], vs[0], p) != PathParity(vs[1..], p)
  }

  /** Parity of the number of crossed edges of the closed polygon. */
  function CycleParity(vs: seq<Position>, p: Position): bool
    requires vs != []
  {
    Crosses(vs[0], vs[|vs| - 1], p) != PathParity(vs, p)
  }

  predicate Inside(vs: seq<Position>, p: Position) {
    |vs| >= 3 && CycleParity(vs, p)
  }

  /** The flag of the loop when it is about to look at vertex i. */
  function ParityBefore(vs: seq<Position>, i: nat, p: Position): bool
    requires i <= |vs|
  {
    i > 0 && Crosses(vs[0], vs[|vs| - 1], p) != PathParity(vs[..i], p)
  }

  lemma ParityStep(vs: seq<Position>, i: nat, p: Position)
    requires i < |vs|
    ensures ParityBefore(vs, i + 1, p)
            == (ParityBefore(vs, i, p) != Crosses(vs[i], vs[if i == 0 then |vs| - 1 else i - 1], p))
  {
    hide Crosses;
    if i > 0 {
      PathSplit(vs[..i + 1], i - 1, p);
      assert vs[..i + 1][..i] == vs[..i];
      assert vs[..i + 1][i - 1..] == [vs[i - 1], vs[i]];
      assert PathParity([vs[i - 1], vs[i]], p) == Crosses(vs[i], vs[i - 1], p);
    }
  }

  datatype Geofence = Geofence(vertices: seq<Position>) {

    method Contains(pos: Position) returns (inside: bool)
      ensures inside == Inside(vertices, pos)
    {
      var n := |vertices|;
      if n < 3 {
        return false;
      }
      inside := false;
      var j := n - 1;
      for i := 0 to n
        invariant j == if i == 0 then n - 1 else i - 1
        invariant inside == ParityBefore(vertices, i, pos)
      {
        if Crosses(vertices[i], vertices[j], pos) {
          inside := !inside;
        }
        ParityStep(vertices, i, pos);
        j := i;
      }
      assert vertices[..n] == vertices;
    }
  }

  /** A path's parity splits at any of its vertices. */
  lemma {:induction false} PathSplit(vs: seq<Position>, k: nat, p: Position)
    requires k < |vs|
    ensures PathParity(vs, p) == (PathParity(vs[..k + 1], p) != PathParity(vs[k..], p))
  {
    if k == 0 {
      assert vs[0..] == vs;
    } else {
      PathSplit(vs[1..], k - 1, p);
      assert vs[1..][..k] == vs[..k + 1][1..];
      assert vs[1..][k - 1..] == vs[k..];
    }
  }

  /** Closing an open path with the edge back to its start. */
  lemma CycleAsPath(vs: seq<Position>, p: Position)
    requires vs != []
    ensures CycleParity(vs, p) == PathParity(vs + [vs[0]], p)
  {
    var n := |vs|;
    var c := vs + [vs[0]];
    PathSplit(c, n - 1, p);
    assert c[..n] == vs;
    assert c[n - 1..] == [vs[n - 1], vs[0]];
  }

  /** The early exit for fewer than three vertices changes nothing: such cycles are even. */
  lemma InsideIsCycleParity(vs: seq<Position>, p: Position)
    requires vs != []
    ensures Inside(vs, p) == CycleParity(vs, p)
  {
    if |vs| == 2 {
      CrossesSymmetric(vs[0], vs[1], p);
      assert PathParity(vs[1..], p) == false;
    }
  }

  // ---- Cutting and fanning ----

  /** Cutting a polygon along the diagonal from vertex i to vertex j: the point is
      inside exactly when it is inside one of the two parts and not the other. */
  lemma CutAlongDiagonal(vs: seq<Position>, i: nat, j: nat, p: Position)
    requires i <= j < |vs|
    ensures Inside(vs, p) == (Inside(vs[i..j + 1], p) != Inside(vs[..i + 1] + vs[j..], p))
  {
    var n := |vs|;
    var inner, outer := vs[i..j + 1], vs[..i + 1] + vs[j..];
    InsideIsCycleParity(vs, p);
    InsideIsCycleParity(inner, p);
    InsideIsCycleParity(outer, p);
    // the whole path is [0..i], [i..j], [j..n)
    PathSplit(vs, j, p);
    PathSplit(vs[..j + 1], i, p);
    assert vs[..j + 1][..i + 1] == vs[..i + 1];
    assert vs[..j + 1][i..] == inner;
    // the outer path is [0..i], the diagonal, [j..n)
    PathSplit(outer, i, p);
    assert outer[..i + 1] == vs[..i + 1];
    PathSplit(outer[i..], 1, p);
    assert outer[i..][..2] == [vs[i], vs[j]];
    assert outer[i..][1..] == vs[j..];
    CrossesSymmetric(vs[i], vs[j], p);
  }

  /** Parity of the number of triangles (v0, v[k], v[k+1]), k >= 1, that contain the point. */
  function FanParity(vs: seq<Position>, p: Position): bool
    decreases |vs|
  {
    if |vs| < 3 then false
    else Inside([vs[0], vs[1], vs[2]], p) != FanParity([vs[0]] + vs[2..], p)
  }

  lemma {:induction false} InsideIsFanParity(vs: seq<Position>, p: Position)
    ensures Inside(vs, p) == FanParity(vs, p)
    decreases |vs|
  {
    if |vs| >= 3 {
      CutAlongDiagonal(vs, 0, 2, p);
      assert vs[0..3] == [vs[0], vs[1], vs[2]];
      assert vs[..1] + vs[2..] == [vs[0]] + vs[2..];
      InsideIsFanParity([vs[0]] + vs[2..], p);
    }
  }

  // ---- Triangles: the orientation test ----

  predicate StrictlyInside(a: Position, b: Position, c: Position, p: Position) {
    var ab, bc, ca := Orientation(a, b, p), Orientation(b, c, p), Orientation(c, a, p);
    (ab > 0.0 && bc > 0.0 && ca > 0.0) || (ab < 0.0 && bc < 0.0 && ca < 0.0)
  }

  /** Outside the closed triangle: some side has the point strictly on the wrong side. */
  predicate StrictlyOutside(a: Position, b: Position, c: Position, p: Position) {
    var d := Orientation(a, b, c);
    var ab, bc, ca := Orientation(a, b, p), Orientation(b, c, p), Orientation(c, a, p);
    || (d > 0.0 && (ab < 0.0 || bc < 0.0 || ca < 0.0))
    || (d < 0.0 && (ab > 0.0 || bc > 0.0 || ca > 0.0))
  }

  lemma OrientationAsDeterminant(a: Position, b: Position, p: Position)
    ensures Orientation(a, b, p)
            == (a.longitude - p.longitude) * (b.latitude - p.latitude)
               - (b.longitude - p.longitude) * (a.latitude - p.latitude)
  {
    Determinant(a.longitude - p.longitude, a.latitude - p.latitude, b.longitude - p.longitude, b.latitude - p.latitude);
  }

  lemma Determinant(ax: real, ay: real, bx: real, by_: real)
    ensures (bx - ax) * (0.0 - ay) - (by_ - ay) * (0.0 - ax) == ax * by_ - bx * ay
  {}

  lemma SumOfSubareas(ax: real, ay: real, bx: real, by_: real, cx: real, cy: real)
    ensures (ax * by_ - bx * ay) + (bx * cy - cx * by_) + (cx * ay - ax * cy)
            == (bx - ax) * (cy - ay) - (by_ - ay) * (cx - ax)
  {}

  lemma BalancedSum(ax: real, ay: real, bx: real, by_: real, cx: real, cy: real)
    ensures (bx * cy - cx * by_) * ax + (cx * ay - ax * cy) * bx + (ax * by_ - bx * ay) * cx == 0.0
  {}

  lemma WholeArea(a: Position, b: Position, c: Position, p: Position)
    ensures var ax, ay := a.longitude - p.longitude, a.latitude - p.latitude;
            var bx, by_ := b.longitude - p.longitude, b.latitude - p.latitude;
            var cx, cy := c.longitude - p.longitude, c.latitude - p.latitude;
            Orientation(a, b, c) == (bx - ax) * (cy - ay) - (by_ - ay) * (cx - ax)
  {}

  /** Barycentric identities: the three sub-areas sum to the whole, and they balance
      the vertices' longitudes about the point. */
  lemma Barycentric(a: Position, b: Position, c: Position, p: Position)
    ensures Orientation(a, b, p) + Orientation(b, c, p) + Orientation(c, a, p) == Orientation(a, b, c)
    ensures Orientation(b, c, p) * (a.longitude - p.longitude)
            + Orientation(c, a, p) * (b.longitude - p.longitude)
            + Orientation(a, b, p) * (c.longitude - p.longitude) == 0.0
  {
    hide Orientation;
    var ax, ay := a.longitude - p.longitude, a.latitude - p.latitude;
    var bx, by_ := b.longitude - p.longitude, b.latitude - p.latitude;
    var cx, cy := c.longitude - p.longitude, c.latitude - p.latitude;
    OrientationAsDeterminant(a, b, p);
    OrientationAsDeterminant(b, c, p);
    OrientationAsDeterminant(c, a, p);
    WholeArea(a, b, c, p);
    SumOfSubareas(ax, ay, bx, by_, cx, cy);
    BalancedSum(ax, ay, bx, by_, cx, cy);
  }

  /** The edge parity of a triangle, read off the orientation signs. */
  lemma TriangleParity(a: Position, b: Position, c: Position, p: Position)
    ensures Inside([a, b, c], p) == ((Crosses(a, b, p) != Crosses(b, c, p)) != Crosses(c, a, p))
  {
    hide Crosses;
    var t := [a, b, c];
    assert t[1..] == [b, c];
    assert PathParity([b, c], p) == Crosses(c, b, p);
    assert PathParity(t, p) == (Crosses(b, a, p) != Crosses(c, b, p));
    CrossesSymmetric(a, b, p);
    CrossesSymmetric(b, c, p);
    CrossesSymmetric(c, a, p);
  }

  /** The three signed sub-areas as weights of the vertices, with the one vertex on its
      own side of the meridian first. */
  lemma SignsAcrossMeridian(wa: real, wb: real, wc: real, xa: real, xb: real, xc: real)
    requires wa * xa + wb * xb + wc * xc == 0.0
    ensures wa > 0.0 && wb >= 0.0 && wc >= 0.0 ==> !(xa > 0.0 && xb >= 0.0 && xc >= 0.0)
    ensures wa > 0.0 && wb >= 0.0 && wc >= 0.0 ==> !(xa < 0.0 && xb <= 0.0 && xc <= 0.0)
    ensures wa < 0.0 && wb <= 0.0 && wc <= 0.0 ==> !(xa > 0.0 && xb >= 0.0 && xc >= 0.0)
    ensures wa < 0.0 && wb <= 0.0 && wc <= 0.0 ==> !(xa < 0.0 && xb <= 0.0 && xc <= 0.0)
    ensures wa > 0.0 && wb <= 0.0 && wc <= 0.0 ==> !(xa > 0.0 && xb <= 0.0 && xc <= 0.0)
    ensures wa > 0.0 && wb <= 0.0 && wc <= 0.0 ==> !(xa < 0.0 && xb >= 0.0 && xc >= 0.0)
    ensures wa < 0.0 && wb >= 0.0 && wc >= 0.0 ==> !(xa > 0.0 && xb <= 0.0 && xc <= 0.0)
    ensures wa < 0.0 && wb >= 0.0 && wc >= 0.0 ==> !(xa < 0.0 && xb >= 0.0 && xc >= 0.0)
  {
  }

  /** Where exactly one vertex, a, is on its own side of the meridian. */
  lemma LoneVertex(a: Position, b: Position, c: Position, p: Position)
    requires East(a, p) != East(b, p) && East(b, p) == East(c, p)
    ensures StrictlyInside(a, b, c, p) ==> Inside([a, b, c], p)
    ensures StrictlyOutside(a, b, c, p) || Orientation(a, b, c) == 0.0 ==> !Inside([a, b, c], p)
  {
    var ab, bc, ca := Orientation(a, b, p), Orientation(b, c, p), Orientation(c, a, p);
    var xa, xb, xc := a.longitude - p.longitude, b.longitude - p.longitude, c.longitude - p.longitude;
    TriangleParity(a, b, c, p);
    CrossesIsOrientation(a, b, p);
    CrossesIsOrientation(b, c, p);
    CrossesIsOrientation(c, a, p);
    Barycentric(a, b, c, p);
    hide Crosses;
    hide Orientation;
    SignsAcrossMeridian(bc, ca, ab, xa, xb, xc);
    SignsAcrossMeridian(ca, bc, ab, xb, xa, xc);
    SignsAcrossMeridian(ab, bc, ca, xc, xa, xb);
  }

  lemma TriangleRotates(a: Position, b: Position, c: Position, p: Position)
    ensures Inside([b, c, a], p) == Inside([a, b, c], p)
    ensures Orientation(b, c, a) == Orientation(a, b, c)
  {
    TriangleParity(a, b, c, p);
    TriangleParity(b, c, a, p);
    Barycentric(a, b, c, p);
    Barycentric(b, c, a, p);
  }

  /** The point is off the triangle's border: strictly inside, strictly outside, or the
      three vertices are collinear. */
  predicate OffBorder(a: Position, b: Position, c: Position, p: Position) {
    Orientation(a, b, c) == 0.0 || StrictlyInside(a, b, c, p) || StrictlyOutside(a, b, c, p)
  }

  /** The quotient-based loop agrees with the orientation test on every triangle, in either
      winding and collinear ones included, for every point off its border. */
  lemma TriangleAgreesWithOrientation(a: Position, b: Position, c: Position, p: Position)
    requires OffBorder(a, b, c, p)
    ensures Inside([a, b, c], p) <==> StrictlyInside(a, b, c, p)
  {
    Barycentric(a, b, c, p);
    TriangleRotates(a, b, c, p);
    TriangleRotates(b, c, a, p);
    if East(a, p) == East(b, p) == East(c, p) {
      NoneAlone(a, b, c, p);
    } else if East(b, p) == East(c, p) {
      LoneVertex(a, b, c, p);
    } else if East(c, p) == East(a, p) {
      LoneVertex(b, c, a, p);
    } else {
      LoneVertex(c, a, b, p);
    }
  }

  /** A triangle wholly on one side of the meridian neither crosses nor encloses. */
  lemma NoneAlone(a: Position, b: Position, c: Position, p: Position)
    requires East(a, p) == East(b, p) == East(c, p)
    ensures !Inside([a, b, c], p) && !StrictlyInside(a, b, c, p)
  {
    var ab, bc, ca := Orientation(a, b, p), Orientation(b, c, p), Orientation(c, a, p);
    var xa, xb, xc := a.longitude - p.longitude, b.longitude - p.longitude, c.longitude - p.longitude;
    TriangleParity(a, b, c, p);
    Barycentric(a, b, c, p);
    CollinearOnMeridian(a, b, c, p);
    hide Orientation;
    SignsAcrossMeridian(bc, ca, ab, xa, xb, xc);
    SignsAcrossMeridian(ca, bc, ab, xb, xa, xc);
    SignsAcrossMeridian(ab, bc, ca, xc, xa, xb);
  }

  lemma CollinearOnMeridian(a: Position, b: Position, c: Position, p: Position)
    ensures a.longitude == b.longitude == p.longitude ==> Orientation(a, b, p) == 0.0
  {
  }

  /** Number of triangles (v0, v[k], v[k+1]) that strictly enclose the point. */
  function EnclosingTriangles(vs: seq<Position>, p: Position): nat
    decreases |vs|
  {
    if |vs| < 3 then 0
    else (if StrictlyInside(vs[0], vs[1], vs[2], p) then 1 else 0)
         + EnclosingTriangles([vs[0]] + vs[2..], p)
  }

  predicate OffFanBorders(vs: seq<Position>, p: Position) {
    forall k :: 1 <= k < |vs| - 1 ==> OffBorder(vs[0], vs[k], vs[k + 1], p)
  }

  /** The main agreement theorem: for every polygon, convex or not, self-crossing or not,
      the loop answers whether an odd number of its fan triangles enclose the point. */
  lemma {:induction false} InsideCountsTriangles(vs: seq<Position>, p: Position)
    requires OffFanBorders(vs, p)
    ensures Inside(vs, p) <==> EnclosingTriangles(vs, p) % 2 == 1
    decreases |vs|
  {
    hide Crosses;
    hide Orientation;
    if |vs| >= 3 {
      var rest := [vs[0]] + vs[2..];
      CutAlongDiagonal(vs, 0, 2, p);
      assert vs[0..3] == [vs[0], vs[1], vs[2]];
      assert vs[..1] + vs[2..] == rest;
      assert OffBorder(vs[0], vs[1], vs[1 + 1], p);
      TriangleAgreesWithOrientation(vs[0], vs[1], vs[2], p);
      forall k | 1 <= k < |rest| - 1
        ensures OffBorder(rest[0], rest[k], rest[k + 1], p)
      {
        assert OffBorder(vs[0], vs[k + 1], vs[(k + 1) + 1], p);
      }
      InsideCountsTriangles(rest, p);
    }
  }

  // ---- Invariance under relabelling ----

  lemma RotationKeepsInside(vs: seq<Position>, k: nat, p: Position)
    requires k <= |vs|
    ensures Inside(vs[k..] + vs[..k], p) == Inside(vs, p)
  {
    hide Crosses;
    var n, r := |vs|, vs[k..] + vs[..k];
    if n == 0 || k == n {
      assert r == vs;
    } else {
      var c, rc := vs + [vs[0]], r + [r[0]];
      InsideIsCycleParity(vs, p);
      InsideIsCycleParity(r, p);
      CycleAsPath(vs, p);
      CycleAsPath(r, p);
      PathSplit(c, k, p);
      PathSplit(rc, n - k, p);
      assert rc[..n - k + 1] == c[k..];
      assert rc[n - k..] == c[..k + 1];
    }
  }

  function Reverse(vs: seq<Position>): (r: seq<Position>)
    ensures |r| == |vs|
    ensures forall k :: 0 <= k < |vs| ==> r[k] == vs[|vs| - 1 - k]
  {
    if vs == [] then [] else Reverse(vs[1..]) + [vs[0]]
  }

  lemma {:induction false} ReversalKeepsPathParity(vs: seq<Position>, p: Position)
    ensures PathParity(Reverse(vs), p) == PathParity(vs, p)
  {
    hide Crosses;
    var n := |vs|;
    if n >= 2 {
      ReversalKeepsPathParity(vs[1..], p);
      var r := Reverse(vs);
      PathSplit(r, n - 2, p);
      assert r[..n - 1] == Reverse(vs[1..]);
      assert r[n - 2..] == [vs[1], vs[0]];
      assert PathParity([vs[1], vs[0]], p) == Crosses(vs[0], vs[1], p);
      CrossesSymmetric(vs[0], vs[1], p);
    }
  }

  lemma ReversalKeepsInside(vs: seq<Position>, p: Position)
    ensures Inside(Reverse(vs), p) == Inside(vs, p)
  {
    if vs != [] {
      ReversalKeepsPathParity(vs, p);
      CrossesSymmetric(vs[0], vs[|vs| - 1], p);
    }
  }

  lemma InsertingBetween(vs: seq<Position>, i: nat, m: Position, p: Position)
    requires 0 < i < |vs|
    requires Orientation(vs[i - 1], vs[i], m) == 0.0
    ensures Inside(vs[..i] + [m] + vs[i..], p) == Inside(vs, p)
  {
    hide Crosses;
    hide Orientation;
    var w := vs[..i] + [m] + vs[i..];
    CutAlongDiagonal(w, i - 1, i + 1, p);
    assert w[i - 1..i + 2] == [vs[i - 1], m, vs[i]];
    assert w[..i] + w[i + 1..] == vs;
    CollinearEnclosesNothing(vs[i - 1], m, vs[i], p);
  }

  lemma InsertingBeforeTheStart(vs: seq<Position>, m: Position, p: Position)
    requires |vs| >= 2 && Orientation(vs[|vs| - 1], vs[0], m) == 0.0
    ensures Inside(vs + [m], p) == Inside(vs, p)
  {
    hide Crosses;
    hide Orientation;
    hide Inside;
    var n, r, w := |vs|, vs[1..] + vs[..1], vs + [m];
    RotationKeepsInside(vs, 1, p);
    InsertingBetween(r, n - 1, m, p);
    RotationKeepsInside(w, 1, p);
    assert w[1..] + w[..1] == r[..n - 1] + [m] + r[n - 1..];
  }

  /** A vertex anywhere on the line through an edge can be inserted into that edge: the
      edge before vertex i, or the closing edge when i is the number of vertices. */
  lemma InsertingCollinearVertex(vs: seq<Position>, i: nat, m: Position, p: Position)
    requires 0 < i <= |vs|
    requires Orientation(vs[i - 1], vs[if i < |vs| then i else 0], m) == 0.0
    ensures Inside(vs[..i] + [m] + vs[i..], p) == Inside(vs, p)
  {
    hide Crosses;
    hide Orientation;
    hide Inside;
    if i < |vs| {
      InsertingBetween(vs, i, m, p);
    } else {
      assert vs[..i] + [m] + vs[i..] == vs + [m];
      if i >= 2 {
        InsertingBeforeTheStart(vs, m, p);
      } else {
        TooFewVertices(vs, p);
        TooFewVertices(vs + [m], p);
      }
    }
  }

  lemma TooFewVertices(vs: seq<Position>, p: Position)
    ensures |vs| < 3 ==> !Inside(vs, p)
  {
  }

  lemma OrientationFlips(a: Position, b: Position, m: Position)
    ensures Orientation(a, m, b) == -Orientation(a, b, m)
  {
  }

  lemma CollinearEnclosesNothing(a: Position, m: Position, b: Position, p: Position)
    requires Orientation(a, b, m) == 0.0
    ensures !Inside([a, m, b], p)
  {
    OrientationFlips(a, b, m);
    hide Orientation;
    Barycentric(a, m, b, p);
    TriangleAgreesWithOrientation(a, m, b, p);
  }

  // ---- Bounding box ----

  /** Going round a closed cycle one changes side of any meridian an even number of times:
      the parity of the straddling edges of a path is decided by its ends. */
  function StraddleParity(vs: seq<Position>, p: Position): bool {
    if |vs| < 2 then false
    else (East(vs[1], p) != East(vs[0], p)) != StraddleParity(vs[1..], p)
  }

  lemma {:induction false} StraddlesAreEven(vs: seq<Position>, p: Position)
    requires vs != []
    ensures StraddleParity(vs, p) == (East(vs[0], p) != East(vs[|vs| - 1], p))
  {
    if |vs| >= 2 {
      StraddlesAreEven(vs[1..], p);
    }
  }

  lemma SumOfSigns(s: real, y: real, x: real, z: real)
    ensures s > 0.0 && x >= 0.0 && y < 0.0 && z < 0.0 ==> s * y + x * z < 0.0
    ensures s > 0.0 && x >= 0.0 && y >= 0.0 && z >= 0.0 ==> s * y + x * z >= 0.0
    ensures s <= 0.0 && x < 0.0 && y < 0.0 && z < 0.0 ==> s * y + x * z > 0.0
    ensures s <= 0.0 && x < 0.0 && y >= 0.0 && z >= 0.0 ==> s * y + x * z <= 0.0
  {
  }

  lemma CrossesAbove(a: Position, b: Position, p: Position)
    ensures Crosses(a, b, p) ==> East(a, p) != East(b, p)
    ensures Crosses(a, b, p) ==> a.latitude > p.latitude || b.latitude > p.latitude
    ensures East(a, p) != East(b, p) && a.latitude > p.latitude && b.latitude > p.latitude ==> Crosses(a, b, p)
  {
    CrossesIsOrientation(a, b, p);
    var u, v := b.longitude - a.longitude, b.latitude - a.latitude;
    var x, y := p.longitude - a.longitude, p.latitude - a.latitude;
    assert Orientation(a, b, p) == u * y - v * x;
    hide Crosses;
    hide Orientation;
    assert u * y - v * x == (u - x) * y + x * (y - v) by {
      assert (u - x) * y + x * (y - v) == u * y - x * y + x * y - x * v;
    }
    SumOfSigns(u - x, y, x, y - v);
  }

  lemma {:induction false} PathAllAbove(vs: seq<Position>, p: Position)
    requires forall v :: v in vs ==> v.latitude > p.latitude
    ensures PathParity(vs, p) == StraddleParity(vs, p)
  {
    if |vs| >= 2 {
      CrossesAbove(vs[1], vs[0], p);
      PathAllAbove(vs[1..], p);
    }
  }

  lemma {:induction false} PathCrossingWitness(vs: seq<Position>, p: Position) returns (k: nat)
    requires PathParity(vs, p)
    ensures 0 < k < |vs| && Crosses(vs[k], vs[k - 1], p)
  {
    if Crosses(vs[1], vs[0], p) {
      k := 1;
    } else {
      k := PathCrossingWitness(vs[1..], p);
      k := k + 1;
    }
  }

  /** Containment implies the bounding box, each side witnessed by a vertex. */
  lemma InsideImpliesBoundingBox(vs: seq<Position>, p: Position)
    requires Inside(vs, p)
    ensures exists v :: v in vs && v.longitude > p.longitude
    ensures exists v :: v in vs && v.longitude <= p.longitude
    ensures exists v :: v in vs && v.latitude > p.latitude
    ensures exists v :: v in vs && v.latitude <= p.latitude
  {
    hide Crosses;
    var n := |vs|;
    var a, b := vs[0], vs[n - 1];
    if !Crosses(a, b, p) {
      var k := PathCrossingWitness(vs, p);
      a, b := vs[k], vs[k - 1];
    }
    CrossesAbove(a, b, p);
    assert a in vs && b in vs;
    if forall v :: v in vs ==> v.latitude > p.latitude {
      PathAllAbove(vs, p);
      StraddlesAreEven(vs, p);
      CrossesAbove(vs[0], vs[n - 1], p);
      assert false;
    }
  }
}
