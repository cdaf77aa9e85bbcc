/**
  Keypoints, the angle at a joint, the confidence gate and the statistics
  (minimum, maximum, mean, rounding, per-frame displacement) that the
  repetition engine takes over its measurement buffers.

  Math.atan2 and Math.hypot are floating-point library functions; they
  are not modelled here but passed in as functions. `Polar` stands for
  `(dy, dx) => Math.atan2(dy, dx) * 180 / Math.PI`, so the scaling to
  degrees is folded into it.
*/
module PoseMath {

  /** A position in the frame's pixel space. */
  datatype Point = Point(x: real, y: real)

  /** One joint observation: position and confidence score. */
  datatype Keypoint = Keypoint(x: real, y: real, score: real)

  /** The 17-point body layout the pose model produces. */
  const KeypointCount: nat := 17

  /** Every required joint must score strictly above this to analyse a frame. */
  const MinScore: real := 0.3

  type Polar = (real, real) -> real
  type Hypot = (real, real) -> real

  function Pos(k: Keypoint): Point {
    Point(k.x, k.y)
  }

  /** Math.atan2 returns values in (-pi, pi], so its degree version lies in (-180, 180]. */
  ghost predicate PolarInRange(polar: Polar) {
    forall dy, dx :: -180.0 < polar(dy, dx) <= 180.0
  }

  function Abs(x: real): (r: real)
    ensures r >= 0.0 && (r == x || r == -x)
  {
    if x < 0.0 then -x else x
  }

  /** Takes the magnitude of a degree difference and folds reflex angles back below 180. */
  function NormaliseDegrees(d: real): (r: real)
    ensures -360.0 < d < 360.0 ==> 0.0 <= r <= 180.0
    ensures -180.0 <= d <= 180.0 ==> r == Abs(d)
  {
    var angle := Abs(d);
    if angle > 180.0 then 360.0 - angle else angle
  }

  /** The difference, in degrees, between the polar angles of the rays b->c and b->a. */
  function RawDegrees(polar: Polar, a: Point, b: Point, c: Point): real {
    polar(c.y - b.y, c.x - b.x) - polar(a.y - b.y, a.x - b.x)
  }

  /** The angle at the middle point b of a-b-c, in degrees. */
  function Angle(polar: Polar, a: Point, b: Point, c: Point): (r: real)
    ensures PolarInRange(polar) ==> 0.0 <= r <= 180.0
  {
    NormaliseDegrees(RawDegrees(polar, a, b, c))
  }

  /** Swapping the end points negates the raw difference, which the normalisation ignores. */
  lemma AngleSymmetric(polar: Polar, a: Point, b: Point, c: Point)
    ensures Angle(polar, a, b, c) == Angle(polar, c, b, a)
  {
    assert RawDegrees(polar, c, b, a) == -RawDegrees(polar, a, b, c);
  }

  /** The confidence gate: every listed joint of the frame scores above MinScore. */
  function AllConfident(k: seq<Keypoint>, joints: seq<nat>): (ok: bool)
    requires forall j :: 0 <= j < |joints| ==> joints[j] < |k|
    ensures ok <==> forall j :: 0 <= j < |joints| ==> k[joints[j]].score > MinScore
  {
    if joints == [] then true
    else k[joints[0]].score > MinScore && AllConfident(k, joints[1..])
  }

  /** One low-confidence required joint is enough to close the gate. */
  lemma LowScoreClosesGate(k: seq<Keypoint>, joints: seq<nat>, j: nat)
    requires forall i :: 0 <= i < |joints| ==> joints[i] < |k|
    requires j < |joints| && k[joints[j]].score <= MinScore
    ensures !AllConfident(k, joints)
  {
  }

  /** Math.min over a non-empty buffer. */
  function Min(s: seq<real>): (m: real)
    requires |s| > 0
    ensures m in s
    ensures forall x :: x in s ==> m <= x
  {
    if |s| == 1 then s[0]
    else
      var rest := Min(s[1..]);
      assert forall x :: x in s ==> x == s[0] || x in s[1..];
      if s[0] <= rest then s[0] else rest
  }

  /** Math.max over a non-empty buffer. */
  function Max(s: seq<real>): (m: real)
    requires |s| > 0
    ensures m in s
    ensures forall x :: x in s ==> x <= m
  {
    if |s| == 1 then s[0]
    else
      var rest := Max(s[1..]);
      assert forall x :: x in s ==> x == s[0] || x in s[1..];
      if s[0] >= rest then s[0] else rest
  }

  /** reduce((sum, v) => sum + v, 0), folding from the left. */
  function Sum(s: seq<real>): real {
    if s == [] then 0.0 else Sum(s[..|s| - 1]) + s[|s| - 1]
  }

  /** A sum of n values between lo and hi lies between n*lo and n*hi. */
  lemma {:induction false} SumBounds(s: seq<real>, lo: real, hi: real)
    requires forall x :: x in s ==> lo <= x <= hi
    ensures (|s| as real) * lo <= Sum(s) <= (|s| as real) * hi
  {
    if s != [] {
      var p := s[..|s| - 1];
      assert forall x :: x in p ==> x in s;
      SumBounds(p, lo, hi);
      assert s[|s| - 1] in s;
      assert (|s| as real) * lo == (|p| as real) * lo + lo;
      assert (|s| as real) * hi == (|p| as real) * hi + hi;
    }
  }

  /** The arithmetic mean of a non-empty buffer. */
  function Mean(s: seq<real>): (r: real)
    requires |s| > 0
    ensures Min(s) <= r <= Max(s)
  {
    var n := |s| as real;
    SumBounds(s, Min(s), Max(s));
    QuotientBounds(Sum(s), n, Min(s), Max(s));
    Sum(s) / n
  }

  /** Dividing n*lo <= t <= n*hi by a positive n. */
  lemma QuotientBounds(t: real, n: real, lo: real, hi: real)
    requires n > 0.0 && n * lo <= t <= n * hi
    ensures lo <= t / n <= hi
  {
    var q := t / n;
    assert q * n == t;
  }

  /** Math.round: the nearest integer, halves rounded up. */
  function Round(x: real): (r: int)
    ensures (r as real) - 0.5 <= x < (r as real) + 0.5
  {
    (x + 0.5).Floor
  }

  /**
    The displacement of each buffered position from the one before it, with
    each axis divided by the frame's width and height; the first entry is 0.
  */
  function ElbowDeltas(ps: seq<Point>, width: real, height: real, hypot: Hypot): (d: seq<real>)
    requires width != 0.0 && height != 0.0
    ensures |d| == |ps|
    ensures |ps| > 0 ==> d[0] == 0.0
    ensures forall j :: 1 <= j < |ps| ==>
      d[j] == hypot((ps[j].x - ps[j - 1].x) / width, (ps[j].y - ps[j - 1].y) / height)
  {
    if |ps| <= 1 then (if ps == [] then [] else [0.0])
    else ElbowDeltas(ps[..|ps| - 1], width, height, hypot) +
         [hypot((ps[|ps| - 1].x - ps[|ps| - 2].x) / width, (ps[|ps| - 1].y - ps[|ps| - 2].y) / height)]
  }

  /** The vertical displacement of each buffered position, divided by the frame height; the first entry is 0. */
  function VerticalDeltas(ps: seq<Point>, height: real): (d: seq<real>)
    requires height != 0.0
    ensures |d| == |ps|
    ensures |ps| > 0 ==> d[0] == 0.0
    ensures forall j :: 1 <= j < |ps| ==> d[j] == Abs((ps[j].y - ps[j - 1].y) / height)
  {
    if |ps| <= 1 then (if ps == [] then [] else [0.0])
    else VerticalDeltas(ps[..|ps| - 1], height) + [Abs((ps[|ps| - 1].y - ps[|ps| - 2].y) / height)]
  }

  /** The largest displacement over a buffer is never negative, and is 0 for a single frame. */
  lemma MaxDeltaFromZero(d: seq<real>)
    requires |d| > 0 && d[0] == 0.0
    ensures Max(d) >= 0.0
    ensures |d| == 1 ==> Max(d) == 0.0
  {
    assert d[0] in d;
  }
}
