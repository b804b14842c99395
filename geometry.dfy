/** The geometry kernel: interpolation, the fist classifier, centroids, the
  * upper hull of a hand or face, and arc-length sampling along a polyline.
  *
  * Dafny's `real` has no square root, so `Math.sqrt` is a parameter `sqrt`
  * of the members that need it, constrained by `IsSqrt`. */
module Geometry {
  import opened Types

  // ---------------------------------------------------------------------
  // Distance

  /** `Math.pow(d, 2)`. */
  function Sq(d: real): real { d * d }

  /** `sqrt` behaves as the square root on the non-negative reals. */
  ghost predicate IsSqrt(sqrt: real -> real) {
    forall a :: 0.0 <= a ==> 0.0 <= sqrt(a) && Sq(sqrt(a)) == a
  }

  function SqDist(p: Point, q: Point): real {
    Sq(p.x - q.x) + Sq(p.y - q.y)
  }

  /** getDistance: the Euclidean distance between two points. */
  function Distance(sqrt: real -> real, p: Point, q: Point): real {
    sqrt(SqDist(p, q))
  }

  // Real arithmetic facts the solver does not find on its own. A product is
  // passed in as `m` so that callers can hand over a term of their own.

  lemma ProductPositive(a: real, b: real, m: real)
    requires m == a * b && a > 0.0 && b > 0.0
    ensures m > 0.0
  {}

  lemma ProductNonNegative(a: real, b: real, m: real)
    requires m == a * b && a >= 0.0 && b >= 0.0
    ensures m >= 0.0
  {}

  lemma SqFacts(s: real)
    ensures Sq(s) >= 0.0
    ensures s != 0.0 ==> Sq(s) > 0.0
    ensures Sq(-s) == Sq(s)
  {
    assert Sq(-s) == Sq(s);
    if s > 0.0 {
      ProductPositive(s, s, Sq(s));
    } else if s < 0.0 {
      ProductPositive(-s, -s, Sq(s));
    }
  }

  lemma SquareMonotone(a: real, b: real)
    requires 0.0 <= a < b
    ensures Sq(a) < Sq(b)
  {
    ProductPositive(b - a, b + a, Sq(b) - Sq(a));
  }

  /** On non-negative numbers squaring preserves and reflects the order. */
  lemma SquareCompare(a: real, b: real)
    requires 0.0 <= a && 0.0 <= b
    ensures a < b <==> Sq(a) < Sq(b)
  {
    if a < b {
      SquareMonotone(a, b);
    } else if b < a {
      SquareMonotone(b, a);
    }
  }

  lemma ScaleSq(k: real, d: real)
    ensures Sq(k * d) == Sq(k) * Sq(d)
  {}

  lemma SqOfQuotient(a: real, h: real)
    requires h != 0.0
    ensures Sq(h) > 0.0 && Sq(a / h) == Sq(a) / Sq(h)
  {
    SqFacts(h);
  }

  lemma FractionsOfSum(a: real, b: real, s: real)
    requires s == a + b && s != 0.0
    ensures a / s + b / s == 1.0
  {}

  /** Division by a positive number keeps bounds: from n*lo <= v <= n*hi follows lo <= v/n <= hi. */
  lemma DivideBounds(v: real, n: real, lo: real, hi: real)
    requires n > 0.0 && n * lo <= v <= n * hi
    ensures lo <= v / n <= hi
  {
    var c := v / n;
    assert c * n == v;
    if c < lo {
      ProductPositive(lo - c, n, n * lo - v);
    }
    if c > hi {
      ProductPositive(c - hi, n, v - n * hi);
    }
  }

  /** Distance is non-negative, symmetric, zero exactly on equal points, and its square is SqDist. */
  lemma DistanceFacts(sqrt: real -> real, p: Point, q: Point)
    requires IsSqrt(sqrt)
    ensures Distance(sqrt, p, q) >= 0.0
    ensures Sq(Distance(sqrt, p, q)) == SqDist(p, q)
    ensures Distance(sqrt, p, q) == Distance(sqrt, q, p)
    ensures Distance(sqrt, p, q) == 0.0 <==> p == q
  {
    SqFacts(p.x - q.x);
    SqFacts(p.y - q.y);
    assert q.x - p.x == -(p.x - q.x) && q.y - p.y == -(p.y - q.y);
    assert SqDist(p, q) == SqDist(q, p);
    SqFacts(Distance(sqrt, p, q));
  }

  /** The cosine and sine of `atan2(dy, dx)`; atan2(0, 0) is 0, whose cosine is 1. */
  function Direction(sqrt: real -> real, dx: real, dy: real): (real, real) {
    var h := sqrt(Sq(dx) + Sq(dy));
    if h == 0.0 then (1.0, 0.0) else (dx / h, dy / h)
  }

  /** The direction is a unit vector, and it points along (dx, dy) when that is not zero. */
  lemma DirectionIsUnit(sqrt: real -> real, dx: real, dy: real)
    requires IsSqrt(sqrt)
    ensures var d := Direction(sqrt, dx, dy); Sq(d.0) + Sq(d.1) == 1.0
    ensures dx != 0.0 || dy != 0.0 ==>
      var h := sqrt(Sq(dx) + Sq(dy)); h > 0.0 && Direction(sqrt, dx, dy) == (dx / h, dy / h)
  {
    SqFacts(dx);
    SqFacts(dy);
    var h := sqrt(Sq(dx) + Sq(dy));
    SqFacts(h);
    if h != 0.0 {
      SqOfQuotient(dx, h);
      SqOfQuotient(dy, h);
      FractionsOfSum(Sq(dx), Sq(dy), Sq(h));
    }
  }

  // ---------------------------------------------------------------------
  // Interpolation

  /** lerp: the point a fraction `amt` of the way from `start` to `end`. */
  function Lerp(start: real, end: real, amt: real): (r: real)
    ensures amt == 0.0 ==> r == start
    ensures amt == 1.0 ==> r == end
    ensures 0.0 <= amt <= 1.0 && start <= end ==> start <= r <= end
    ensures 0.0 <= amt <= 1.0 && end <= start ==> end <= r <= start
  {
    var r := (1.0 - amt) * start + amt * end;
    if 0.0 <= amt <= 1.0 then
      LerpBetween(start, end, amt, r);
      r
    else r
  }

  lemma LerpBetween(start: real, end: real, amt: real, r: real)
    requires r == (1.0 - amt) * start + amt * end
    requires 0.0 <= amt <= 1.0
    ensures start <= end ==> start <= r <= end
    ensures end <= start ==> end <= r <= start
  {
    if start <= end {
      ProductNonNegative(amt, end - start, r - start);
      ProductNonNegative(1.0 - amt, end - start, end - r);
    } else {
      ProductNonNegative(amt, start - end, start - r);
      ProductNonNegative(1.0 - amt, start - end, r - end);
    }
  }

  function LerpPoint(p: Point, q: Point, amt: real): Point {
    Point(Lerp(p.x, q.x, amt), Lerp(p.y, q.y, amt))
  }

  /** getCubicBezierPoint: the Bernstein form of a cubic Bezier curve. */
  function CubicBezierPoint(p0: Point, p1: Point, p2: Point, p3: Point, t: real): (r: Point)
    ensures t == 0.0 ==> r == p0
    ensures t == 1.0 ==> r == p3
  {
    var u := 1.0 - t;
    var tt := t * t;
    var uu := u * u;
    var uuu := uu * u;
    var ttt := tt * t;
    Point(uuu * p0.x + 3.0 * uu * t * p1.x + 3.0 * u * tt * p2.x + ttt * p3.x,
          uuu * p0.y + 3.0 * uu * t * p1.y + 3.0 * u * tt * p2.y + ttt * p3.y)
  }

  /** The Bezier basis weights sum to one, so a curve through equal control points is constant. */
  lemma {:induction false} CubicBezierOfConstant(p: Point, t: real)
    ensures CubicBezierPoint(p, p, p, p, t) == p
  {
    BezierWeights(t, 1.0 - t);
  }

  lemma BezierWeights(t: real, u: real)
    requires u == 1.0 - t
    ensures u * u * u + 3.0 * (u * u) * t + 3.0 * u * (t * t) + (t * t) * t == 1.0
  {
    assert u + t == 1.0;
  }

  // ---------------------------------------------------------------------
  // Fist classifier

  /** Landmark indices of the index, middle, ring and pinky fingertips, and of their knuckles. */
  const Tips: seq<nat> := [8, 12, 16, 20]
  const Knuckles: seq<nat> := [5, 9, 13, 17]

  /** Finger `i` is curled: its tip is closer to the wrist than 0.8 of its knuckle's distance. */
  predicate Folded(sqrt: real -> real, landmarks: seq<Point>, i: nat)
    requires |landmarks| >= 21 && i < 4
  {
    Distance(sqrt, landmarks[Tips[i]], landmarks[0]) < Distance(sqrt, landmarks[Knuckles[i]], landmarks[0]) * 0.8
  }

  /** The same test on squared distances: 0.8 squared is 0.64. */
  predicate FoldedSq(landmarks: seq<Point>, i: nat)
    requires |landmarks| >= 21 && i < 4
  {
    SqDist(landmarks[Tips[i]], landmarks[0]) < 0.64 * SqDist(landmarks[Knuckles[i]], landmarks[0])
  }

  lemma FoldedIffSquared(sqrt: real -> real, landmarks: seq<Point>, i: nat)
    requires IsSqrt(sqrt) && |landmarks| >= 21 && i < 4
    ensures Folded(sqrt, landmarks, i) <==> FoldedSq(landmarks, i)
  {
    var tip, knuckle, wrist := landmarks[Tips[i]], landmarks[Knuckles[i]], landmarks[0];
    DistanceFacts(sqrt, tip, wrist);
    DistanceFacts(sqrt, knuckle, wrist);
    var d1, d2 := Distance(sqrt, tip, wrist), Distance(sqrt, knuckle, wrist);
    SquareCompare(d1, d2 * 0.8);
    ScaleSq(d2, 0.8);
  }

  /** Number of folded fingers among the first `k`. */
  function FoldedCount(sqrt: real -> real, landmarks: seq<Point>, k: nat): nat
    requires |landmarks| >= 21 && k <= 4
  {
    if k == 0 then 0
    else FoldedCount(sqrt, landmarks, k - 1) + (if Folded(sqrt, landmarks, k - 1) then 1 else 0)
  }

  predicate AtLeastThreeOf(a: bool, b: bool, c: bool, d: bool) {
    (a && b && c) || (a && b && d) || (a && c && d) || (b && c && d)
  }

  /** isFist: at least three of the four fingers are folded. */
  method IsFist(sqrt: real -> real, landmarks: seq<Point>) returns (fist: bool)
    requires |landmarks| >= 21
    ensures fist <==> AtLeastThreeOf(Folded(sqrt, landmarks, 0), Folded(sqrt, landmarks, 1),
                                     Folded(sqrt, landmarks, 2), Folded(sqrt, landmarks, 3))
    ensures IsSqrt(sqrt) ==>
      (fist <==> AtLeastThreeOf(FoldedSq(landmarks, 0), FoldedSq(landmarks, 1),
                                FoldedSq(landmarks, 2), FoldedSq(landmarks, 3)))
  {
    var wrist := landmarks[0];
    var foldedCount := 0;
    for i := 0 to 4
      invariant foldedCount == FoldedCount(sqrt, landmarks, i)
    {
      var tip := landmarks[Tips[i]];
      var joint := landmarks[Knuckles[i]];
      var distToWrist := Distance(sqrt, tip, wrist);
      var jointToWrist := Distance(sqrt, joint, wrist);
      if distToWrist < jointToWrist * 0.8 {
        foldedCount := foldedCount + 1;
      }
    }
    assert FoldedCount(sqrt, landmarks, 1) == (if Folded(sqrt, landmarks, 0) then 1 else 0);
    assert FoldedCount(sqrt, landmarks, 2) == FoldedCount(sqrt, landmarks, 1) + (if Folded(sqrt, landmarks, 1) then 1 else 0);
    assert FoldedCount(sqrt, landmarks, 3) == FoldedCount(sqrt, landmarks, 2) + (if Folded(sqrt, landmarks, 2) then 1 else 0);
    assert FoldedCount(sqrt, landmarks, 4) == FoldedCount(sqrt, landmarks, 3) + (if Folded(sqrt, landmarks, 3) then 1 else 0);
    fist := foldedCount >= 3;
    if IsSqrt(sqrt) {
      FoldedIffSquared(sqrt, landmarks, 0);
      FoldedIffSquared(sqrt, landmarks, 1);
      FoldedIffSquared(sqrt, landmarks, 2);
      FoldedIffSquared(sqrt, landmarks, 3);
    }
  }

  // ---------------------------------------------------------------------
  // Centroid

  function SumX(s: seq<Point>): real {
    if s == [] then 0.0 else SumX(s[..|s| - 1]) + s[|s| - 1].x
  }

  function SumY(s: seq<Point>): real {
    if s == [] then 0.0 else SumY(s[..|s| - 1]) + s[|s| - 1].y
  }

  /** getCentroid: the mean of the points. The program divides 0 by 0 (NaN) on an
    * empty list; the model answers None there. */
  method Centroid(landmarks: seq<Point>) returns (c: Option<Point>)
    ensures landmarks == [] <==> c.None?
    ensures c.Some? ==> c.value == Point(SumX(landmarks) / |landmarks| as real, SumY(landmarks) / |landmarks| as real)
  {
    var x, y := 0.0, 0.0;
    for i := 0 to |landmarks|
      invariant x == SumX(landmarks[..i]) && y == SumY(landmarks[..i])
    {
      assert landmarks[..i + 1][..i] == landmarks[..i];
      x := x + landmarks[i].x;
      y := y + landmarks[i].y;
    }
    assert landmarks[..|landmarks|] == landmarks;
    if |landmarks| == 0 {
      c := None;
    } else {
      c := Some(Point(x / |landmarks| as real, y / |landmarks| as real));
    }
  }

  lemma {:induction false} SumXBounds(s: seq<Point>, lo: real, hi: real)
    requires forall i :: 0 <= i < |s| ==> lo <= s[i].x <= hi
    ensures |s| as real * lo <= SumX(s) <= |s| as real * hi
  {
    if s != [] {
      SumXBounds(s[..|s| - 1], lo, hi);
    }
  }

  lemma {:induction false} SumYBounds(s: seq<Point>, lo: real, hi: real)
    requires forall i :: 0 <= i < |s| ==> lo <= s[i].y <= hi
    ensures |s| as real * lo <= SumY(s) <= |s| as real * hi
  {
    if s != [] {
      SumYBounds(s[..|s| - 1], lo, hi);
    }
  }

  /** The centroid lies inside every axis-aligned box that holds all the points. */
  lemma CentroidInsideBox(s: seq<Point>, box0: Point, box1: Point)
    requires s != []
    requires forall i :: 0 <= i < |s| ==> box0.x <= s[i].x <= box1.x && box0.y <= s[i].y <= box1.y
    ensures box0.x <= SumX(s) / |s| as real <= box1.x
    ensures box0.y <= SumY(s) / |s| as real <= box1.y
  {
    var n := |s| as real;
    assert box0.x <= SumX(s) / n <= box1.x by {
      SumXBounds(s, box0.x, box1.x);
      DivideBounds(SumX(s), n, box0.x, box1.x);
    }
    assert box0.y <= SumY(s) / n <= box1.y by {
      SumYBounds(s, box0.y, box1.y);
      DivideBounds(SumY(s), n, box0.y, box1.y);
    }
  }

  // ---------------------------------------------------------------------
  // Upper hull

  predicate SortedByX(s: seq<Point>) {
    forall i, j :: 0 <= i < j < |s| ==> s[i].x <= s[j].x
  }

  /** Inserts `p` before the first point whose x is not smaller, keeping equal keys in order. */
  function InsertByX(p: Point, s: seq<Point>): (r: seq<Point>)
    requires SortedByX(s)
    ensures SortedByX(r) && multiset(r) == multiset(s) + multiset{p}
    ensures r != [] && (r[0] == p || (s != [] && r[0] == s[0]))
  {
    if s == [] || p.x <= s[0].x then [p] + s
    else
      var rest := InsertByX(p, s[1..]);
      assert s == [s[0]] + s[1..];
      [s[0]] + rest
  }

  /** The stable sort by ascending x that `[...landmarks].sort((a, b) => a.x - b.x)` performs. */
  function SortByX(s: seq<Point>): (r: seq<Point>)
    ensures SortedByX(r) && multiset(r) == multiset(s) && |r| == |s|
  {
    if s == [] then []
    else
      assert s == [s[0]] + s[1..];
      InsertByX(s[0], SortByX(s[1..]))
  }

  /** The cross product of (b - a) and (p - a); the hull keeps a point only where it is positive. */
  function Cross(a: Point, b: Point, p: Point): real {
    (b.x - a.x) * (p.y - a.y) - (b.y - a.y) * (p.x - a.x)
  }

  /** Every three consecutive points turn strictly the same way. */
  predicate StrictlyTurning(chain: seq<Point>) {
    forall k :: 0 <= k < |chain| - 2 ==> Cross(chain[k], chain[k + 1], chain[k + 2]) > 0.0
  }

  /** `idx` lists strictly increasing positions of `s` at which the points of `sub` occur. */
  ghost predicate Embeds(idx: seq<int>, sub: seq<Point>, s: seq<Point>) {
    && |idx| == |sub|
    && (forall k :: 0 <= k < |idx| ==> 0 <= idx[k] < |s| && sub[k] == s[idx[k]])
    && (forall k, m :: 0 <= k < m < |idx| ==> idx[k] < idx[m])
  }

  ghost predicate IsSubsequence(sub: seq<Point>, s: seq<Point>) {
    exists idx :: Embeds(idx, sub, s)
  }

  /** `chain` is a strictly turning subsequence of the first `i` sorted points, embedded at `idx`. */
  ghost predicate PartialChain(chain: seq<Point>, idx: seq<int>, sorted: seq<Point>, i: int) {
    && |chain| <= i
    && Embeds(idx, chain, sorted)
    && (forall k :: 0 <= k < |idx| ==> idx[k] < i)
    && StrictlyTurning(chain)
  }

  lemma PopKeepsChain(chain: seq<Point>, idx: seq<int>, sorted: seq<Point>, i: int)
    requires PartialChain(chain, idx, sorted, i) && chain != []
    ensures PartialChain(chain[..|chain| - 1], idx[..|idx| - 1], sorted, i)
  {}

  lemma PushKeepsChain(chain: seq<Point>, idx: seq<int>, sorted: seq<Point>, i: int)
    requires PartialChain(chain, idx, sorted, i) && 0 <= i < |sorted|
    requires |chain| >= 2 ==> Cross(chain[|chain| - 2], chain[|chain| - 1], sorted[i]) > 0.0
    ensures PartialChain(chain + [sorted[i]], idx + [i], sorted, i + 1)
  {
    var c := chain + [sorted[i]];
    forall k | 0 <= k < |c| - 2
      ensures Cross(c[k], c[k + 1], c[k + 2]) > 0.0
    {
      if k < |chain| - 2 {
        assert c[k] == chain[k] && c[k + 1] == chain[k + 1] && c[k + 2] == chain[k + 2];
      }
    }
  }

  lemma FinishedChain(chain: seq<Point>, idx: seq<int>, sorted: seq<Point>)
    requires PartialChain(chain, idx, sorted, |sorted|)
    ensures |chain| <= |sorted| && IsSubsequence(chain, sorted) && StrictlyTurning(chain)
  {}

  /** getUpperHandHull: the lower chain of Andrew's monotone chain over the x-sorted
    * points, which is the visual top of the hand in screen coordinates. */
  method UpperHandHull(landmarks: seq<Point>) returns (chain: seq<Point>)
    ensures |chain| <= |landmarks|
    ensures chain == [] <==> landmarks == []
    ensures IsSubsequence(chain, SortByX(landmarks))
    ensures StrictlyTurning(chain)
    ensures landmarks != [] ==>
      chain[0] == SortByX(landmarks)[0] && chain[|chain| - 1] == SortByX(landmarks)[|landmarks| - 1]
  {
    var sorted := SortByX(landmarks);
    chain := [];
    ghost var idx: seq<int> := [];
    for i := 0 to |sorted|
      invariant PartialChain(chain, idx, sorted, i)
      invariant i > 0 ==> chain != [] && chain[0] == sorted[0] && chain[|chain| - 1] == sorted[i - 1]
    {
      var p := sorted[i];
      chain, idx := PopNonLeftTurns(chain, idx, sorted, i);
      PushKeepsChain(chain, idx, sorted, i);
      assert chain != [] ==> (chain + [p])[0] == chain[0];
      chain := chain + [p];
      idx := idx + [i];
    }
    assert |sorted| == |landmarks|;
    FinishedChain(chain, idx, sorted);
  }

  /** The inner loop of the hull: drops the chain's last point while it and its
    * predecessor do not turn strictly left towards `sorted[i]`. */
  method PopNonLeftTurns(chain0: seq<Point>, ghost idx0: seq<int>, sorted: seq<Point>, i: int)
    returns (chain: seq<Point>, ghost idx: seq<int>)
    requires PartialChain(chain0, idx0, sorted, i) && 0 <= i < |sorted|
    ensures PartialChain(chain, idx, sorted, i)
    ensures |chain| <= |chain0| && chain == chain0[..|chain|] && (chain0 != [] ==> chain != [])
    ensures |chain| >= 2 ==> Cross(chain[|chain| - 2], chain[|chain| - 1], sorted[i]) > 0.0
  {
    chain, idx := chain0, idx0;
    var p := sorted[i];
    while |chain| >= 2
      invariant PartialChain(chain, idx, sorted, i)
      invariant |chain| <= |chain0| && chain == chain0[..|chain|] && (chain0 != [] ==> chain != [])
      decreases |chain|
    {
      var b := chain[|chain| - 1];
      var a := chain[|chain| - 2];
      if Cross(a, b, p) <= 0.0 {
        PopKeepsChain(chain, idx, sorted, i);
        chain := chain[..|chain| - 1];
        idx := idx[..|idx| - 1];
      } else {
        break;
      }
    }
  }

  // ---------------------------------------------------------------------
  // Arc-length sampling

  /** The length of each segment of the polyline. */
  function SegmentLengths(sqrt: real -> real, points: seq<Point>): (lens: seq<real>)
    requires |points| >= 1
    ensures |lens| == |points| - 1
  {
    seq(|points| - 1, i requires 0 <= i < |points| - 1 => Distance(sqrt, points[i], points[i + 1]))
  }

  function Sum(s: seq<real>): real {
    if s == [] then 0.0 else Sum(s[..|s| - 1]) + s[|s| - 1]
  }

  /** The point `along` units past `p1` towards `p2` on a segment of length `len`.
    * The program divides by `len`; a zero-length segment gives NaN there, and the
    * model answers the segment's start. */
  function SegmentPoint(p1: Point, p2: Point, len: real, along: real): Point {
    if len == 0.0 then p1 else LerpPoint(p1, p2, along / len)
  }

  /** The scan for the first segment whose far end reaches `target`; `cur` is the
    * length before segment `i`. Falls through to the last point. */
  function Locate(points: seq<Point>, lens: seq<real>, i: nat, cur: real, target: real): Point
    requires |points| == |lens| + 1 && i <= |lens|
    decreases |lens| - i
  {
    if i == |lens| then points[|points| - 1]
    else if cur + lens[i] >= target then SegmentPoint(points[i], points[i + 1], lens[i], target - cur)
    else Locate(points, lens, i + 1, cur + lens[i], target)
  }

  /** How far along the polyline the sample lies: the fraction `t` of the total length. */
  function TargetDistance(t: real, total: real): real {
    t * total
  }

  /** The point a fraction `t` of the way along the polyline, by arc length. */
  function PolylinePoint(sqrt: real -> real, points: seq<Point>, t: real): Point {
    if |points| == 0 then Point(0.0, 0.0)
    else if |points| == 1 then points[0]
    else
      var lens := SegmentLengths(sqrt, points);
      Locate(points, lens, 0, 0.0, TargetDistance(t, Sum(lens)))
  }

  /** The first loop of getPointOnPolyline: every segment's length and their total. */
  method MeasureSegments(sqrt: real -> real, points: seq<Point>) returns (segLens: seq<real>, totalLen: real)
    requires |points| >= 1
    ensures segLens == SegmentLengths(sqrt, points) && totalLen == Sum(segLens)
  {
    ghost var lens := SegmentLengths(sqrt, points);
    totalLen := 0.0;
    segLens := [];
    for i := 0 to |points| - 1
      invariant segLens == lens[..i] && totalLen == Sum(lens[..i])
    {
      var d := Distance(sqrt, points[i], points[i + 1]);
      assert lens[..i + 1][..i] == lens[..i];
      totalLen := totalLen + d;
      segLens := segLens + [d];
    }
    assert lens[..|lens|] == lens;
  }

  /** getPointOnPolyline. */
  method PointOnPolyline(sqrt: real -> real, points: seq<Point>, t: real) returns (r: Point)
    ensures r == PolylinePoint(sqrt, points, t)
    ensures points == [] ==> r == Point(0.0, 0.0)
    ensures |points| == 1 ==> r == points[0]
  {
    if |points| == 0 {
      return Point(0.0, 0.0);
    }
    if |points| == 1 {
      return points[0];
    }
    var segLens, totalLen := MeasureSegments(sqrt, points);
    var targetDist := t * totalLen;
    assert targetDist == TargetDistance(t, totalLen);
    r := FindOnSegments(points, segLens, targetDist);
  }

  /** The second loop of getPointOnPolyline: walks the segments until the one whose
    * far end reaches `targetDist`, and interpolates on it. */
  method FindOnSegments(points: seq<Point>, segLens: seq<real>, targetDist: real) returns (r: Point)
    requires |points| == |segLens| + 1
    ensures r == Locate(points, segLens, 0, 0.0, targetDist)
  {
    var currentDist := 0.0;
    for i := 0 to |segLens|
      invariant currentDist == Sum(segLens[..i])
      invariant Locate(points, segLens, 0, 0.0, targetDist) == Locate(points, segLens, i, currentDist, targetDist)
    {
      if currentDist + segLens[i] >= targetDist {
        return SegmentPoint(points[i], points[i + 1], segLens[i], targetDist - currentDist);
      }
      assert segLens[..i + 1][..i] == segLens[..i];
      currentDist := currentDist + segLens[i];
    }
    r := points[|points| - 1];
  }

  lemma SegmentLengthsNonNegative(sqrt: real -> real, points: seq<Point>)
    requires IsSqrt(sqrt) && |points| >= 1
    ensures forall i :: 0 <= i < |points| - 1 ==> SegmentLengths(sqrt, points)[i] >= 0.0
  {
    forall i | 0 <= i < |points| - 1
      ensures SegmentLengths(sqrt, points)[i] >= 0.0
    {
      DistanceFacts(sqrt, points[i], points[i + 1]);
    }
  }

  /** Sampling at t = 0 gives the first point. */
  lemma PolylineStart(sqrt: real -> real, points: seq<Point>)
    requires IsSqrt(sqrt) && points != []
    ensures PolylinePoint(sqrt, points, 0.0) == points[0]
  {
    if |points| >= 2 {
      SegmentLengthsNonNegative(sqrt, points);
    }
  }

  lemma {:induction false} SumStrictPrefix(s: seq<real>, j: nat)
    requires j < |s|
    requires forall i :: 0 <= i < |s| ==> s[i] > 0.0
    ensures Sum(s[..j]) < Sum(s)
  {
    if j < |s| - 1 {
      SumStrictPrefix(s[..|s| - 1], j);
      assert s[..|s| - 1][..j] == s[..j];
    } else {
      assert s[..j] == s[..|s| - 1];
    }
  }

  lemma {:induction false} LocateBeyondEnd(points: seq<Point>, lens: seq<real>, i: nat, target: real)
    requires |points| == |lens| + 1 && i <= |lens|
    requires forall k :: 0 <= k < |lens| ==> lens[k] > 0.0
    requires target >= Sum(lens)
    ensures Locate(points, lens, i, Sum(lens[..i]), target) == points[|points| - 1]
    decreases |lens| - i
  {
    if i < |lens| {
      var cur := Sum(lens[..i]);
      assert lens[..i + 1][..i] == lens[..i];
      assert cur + lens[i] == Sum(lens[..i + 1]);
      if i + 1 < |lens| {
        SumStrictPrefix(lens, i + 1);
        LocateBeyondEnd(points, lens, i + 1, target);
      } else {
        assert lens[..i + 1] == lens;
        if cur + lens[i] >= target {
          assert target - cur == lens[i];
          assert (target - cur) / lens[i] == 1.0;
        } else {
          LocateBeyondEnd(points, lens, i + 1, target);
        }
      }
    }
  }

  /** With every segment of positive length, sampling at any t >= 1 gives the last
    * point: exactly at t = 1 through the last segment, beyond it by falling through. */
  lemma PolylineEnd(sqrt: real -> real, points: seq<Point>, t: real)
    requires IsSqrt(sqrt) && points != [] && t >= 1.0
    requires forall i :: 0 <= i < |points| - 1 ==> points[i] != points[i + 1]
    ensures PolylinePoint(sqrt, points, t) == points[|points| - 1]
  {
    if |points| >= 2 {
      var lens := SegmentLengths(sqrt, points);
      forall k | 0 <= k < |lens|
        ensures lens[k] > 0.0
      {
        DistanceFacts(sqrt, points[k], points[k + 1]);
      }
      SumStrictPrefix(lens, 0);
      assert lens[..0] == [];
      var total := Sum(lens);
      var target := TargetDistance(t, total);
      ProductNonNegative(t - 1.0, total, target - total);
      LocateBeyondEnd(points, lens, 0, target);
    }
  }

  /** `r` lies on segment `i` of the polyline, between its two end points. */
  ghost predicate OnSegment(points: seq<Point>, i: int, r: Point)
    requires 0 <= i < |points| - 1
  {
    exists s: real {:trigger LerpPoint(points[i], points[i + 1], s)} :: 0.0 <= s <= 1.0 && r == LerpPoint(points[i], points[i + 1], s)
  }

  lemma {:induction false} LocateOnSegment(points: seq<Point>, lens: seq<real>, i: nat, target: real)
    requires |points| == |lens| + 1 && i < |lens|
    requires forall k :: 0 <= k < |lens| ==> lens[k] >= 0.0
    requires Sum(lens[..i]) <= target <= Sum(lens)
    requires i > 0 ==> Sum(lens[..i]) < target
    ensures var r := Locate(points, lens, i, Sum(lens[..i]), target);
      exists j :: i <= j < |lens| && OnSegment(points, j, r)
    decreases |lens| - i
  {
    var cur := Sum(lens[..i]);
    assert lens[..i + 1][..i] == lens[..i];
    var r := Locate(points, lens, i, cur, target);
    if cur + lens[i] >= target {
      if lens[i] == 0.0 {
        assert r == LerpPoint(points[i], points[i + 1], 0.0);
      } else {
        var s := (target - cur) / lens[i];
        DivideBounds(target - cur, lens[i], 0.0, 1.0);
        assert r == LerpPoint(points[i], points[i + 1], s);
      }
      assert OnSegment(points, i, r);
      assert exists j :: i <= j < |lens| && OnSegment(points, j, Locate(points, lens, i, Sum(lens[..i]), target));
    } else {
      if i + 1 == |lens| {
        assert false;
      }
      LocateOnSegment(points, lens, i + 1, target);
      var j :| i + 1 <= j < |lens| && OnSegment(points, j, Locate(points, lens, i + 1, cur + lens[i], target));
      assert OnSegment(points, j, r);
      assert exists j :: i <= j < |lens| && OnSegment(points, j, Locate(points, lens, i, Sum(lens[..i]), target));
    }
  }

  lemma {:induction false} SumNonNegative(s: seq<real>)
    requires forall k :: 0 <= k < |s| ==> s[k] >= 0.0
    ensures Sum(s) >= 0.0
  {
    if s != [] {
      SumNonNegative(s[..|s| - 1]);
    }
  }

  lemma LocateFromStart(points: seq<Point>, lens: seq<real>, t: real)
    requires |points| == |lens| + 1 && |lens| >= 1 && 0.0 <= t <= 1.0
    requires forall k :: 0 <= k < |lens| ==> lens[k] >= 0.0
    ensures exists j :: 0 <= j < |lens| && OnSegment(points, j, Locate(points, lens, 0, 0.0, TargetDistance(t, Sum(lens))))
  {
    SumNonNegative(lens);
    var total := Sum(lens);
    var target := TargetDistance(t, total);
    ProductNonNegative(t, total, target);
    ProductNonNegative(1.0 - t, total, total - target);
    assert lens[..0] == [];
    LocateOnSegment(points, lens, 0, target);
  }

  /** For t in [0, 1] the sample lies on one of the polyline's segments. */
  lemma PolylineOnSegment(sqrt: real -> real, points: seq<Point>, t: real)
    requires IsSqrt(sqrt) && |points| >= 2 && 0.0 <= t <= 1.0
    ensures exists i :: 0 <= i < |points| - 1 && OnSegment(points, i, PolylinePoint(sqrt, points, t))
  {
    var lens := SegmentLengths(sqrt, points);
    SegmentLengthsNonNegative(sqrt, points);
    LocateFromStart(points, lens, t);
    var r := Locate(points, lens, 0, 0.0, TargetDistance(t, Sum(lens)));
    assert PolylinePoint(sqrt, points, t) == r;
    var j :| 0 <= j < |lens| && OnSegment(points, j, r);
  }
}
