/** Records shared by the gesture engine (types.ts). Colours, glow colours and
    other purely visual fields are omitted. */
module Types {

  datatype Option<T> = None | Some(value: T)

  /** A 2D point in screen (or normalised camera) space. */
  datatype Point = Point(x: real, y: real)

  datatype ShapeType = Orb | Cube | Pyramid

  datatype ScreenMode = Playground | Browse

  datatype PlaygroundActivity = Shapes | Robot | Studio3D

  datatype MechaObjectType = Katana | Bottle | Bucket | Ball

  datatype GestureMode = Open | PointMode | Pinch | Locked

  /** A throwable body of the SHAPES activity. */
  datatype PhysicsObject = PhysicsObject(
    id: int,
    x: real, y: real,
    vx: real, vy: real,
    radius: real,
    shape: ShapeType,
    isGrabbed: bool,
    isHovered: bool,
    mass: real,
    friction: real,
    restitution: real)

  /** A tool of the ROBOT activity. */
  datatype MechaObject = MechaObject(
    id: int,
    kind: MechaObjectType,
    x: real, y: real,
    vx: real, vy: real,
    angle: real,
    angularVelocity: real,
    isGrabbed: bool,
    scale: real)

  /** What the gesture canvas publishes to the browse screen once per frame. */
  datatype CursorData = CursorData(
    x: real, y: real,
    pinching: bool,
    gestureMode: GestureMode,
    pinchVal: real,
    timestamp: real,
    tilt: real)

  function Abs(v: real): real { if v < 0.0 then -v else v }

  function Max(a: real, b: real): real { if a < b then b else a }

  function Min(a: real, b: real): real { if a < b then a else b }

  /** `lo <= v <= hi` for whichever of lo and hi is smaller. */
  predicate Between(lo: real, v: real, hi: real)
  {
    Min(lo, hi) <= v <= Max(lo, hi)
  }

  /** Squared Euclidean distance; every `distance(p, q) < r` test of the
      source is compared in this squared form. */
  function DistSq(p: Point, q: Point): (d: real)
    ensures d >= 0.0
    ensures p == q ==> d == 0.0
  {
    (q.x - p.x) * (q.x - p.x) + (q.y - p.y) * (q.y - p.y)
  }

  /** One field of every record in a list, in list order. */
  function Project<T, U>(s: seq<T>, f: T -> U): (r: seq<U>)
    ensures |r| == |s| && forall i :: 0 <= i < |s| ==> r[i] == f(s[i])
  {
    seq(|s|, i requires 0 <= i < |s| => f(s[i]))
  }

  // Small facts about products that the solver does not find unaided.

  lemma PosMul(a: real, b: real)
    requires a > 0.0 && b > 0.0
    ensures a * b > 0.0
  {
  }

  lemma NonNegMul(a: real, b: real)
    requires a >= 0.0 && b >= 0.0
    ensures a * b >= 0.0
  {
  }

  lemma SquareNonNeg(a: real)
    ensures a * a >= 0.0
  {
  }

  /** `distance(p, q) < r`, without the square root. */
  predicate Within(p: Point, q: Point, r: real)
  {
    r > 0.0 && DistSq(p, q) < r * r
  }

  /** Any non-negative d with d*d == DistSq(p, q) is the Euclidean distance;
      comparing it with r is the same as the squared test. */
  lemma WithinIffDistance(p: Point, q: Point, r: real, d: real)
    requires d >= 0.0 && d * d == DistSq(p, q)
    ensures d < r <==> Within(p, q, r)
  {
    assert (r - d) * (r + d) == r * r - d * d;
    if d < r {
      PosMul(r - d, r + d);
    } else if r > 0.0 {
      NonNegMul(d - r, d + r);
      assert (d - r) * (d + r) == d * d - r * r;
    }
  }

  /** `distance(p, q) > r` for a non-negative r, without the square root. */
  predicate Beyond(p: Point, q: Point, r: real)
  {
    r >= 0.0 && DistSq(p, q) > r * r
  }

  /** Any non-negative d with d*d == DistSq(p, q) exceeds a non-negative r
      exactly when the squared test holds. */
  lemma BeyondIffDistance(p: Point, q: Point, r: real, d: real)
    requires r >= 0.0 && d >= 0.0 && d * d == DistSq(p, q)
    ensures d > r <==> Beyond(p, q, r)
  {
    assert (d - r) * (d + r) == d * d - r * r;
    if d > r {
      PosMul(d - r, d + r);
      assert d * d > r * r;
    } else {
      NonNegMul(r - d, r + d);
      assert (r - d) * (r + d) == r * r - d * d;
    }
  }

  /** `distance` is symmetric. */
  lemma DistSqSymmetric(p: Point, q: Point)
    ensures DistSq(p, q) == DistSq(q, p)
  {
    var a, b := q.x - p.x, q.y - p.y;
    assert (p.x - q.x) * (p.x - q.x) == a * a;
    assert (p.y - q.y) * (p.y - q.y) == b * b;
  }
}
