/** Cursor smoothing and the rigid-body step of the SHAPES playground
    (utils/physics.ts). */
module Physics {
  import opened Types

  /** Exported tuning constants; the core below does not read them. */
  const LerpFactor: real := 0.2
  const PinchThreshold: real := 0.05

  /** Default blend factors of the adaptive smoother. */
  const DefaultMinAlpha: real := 0.1
  const DefaultMaxAlpha: real := 0.6

  /** Movement (in pixels per frame) at and above which the adaptive
      smoother uses its largest blend factor. */
  const FastMove: real := 100.0

  /** Velocity components smaller than this are snapped to zero. */
  const StopSpeed: real := 0.01

  // ---------------------------------------------------------------------
  // Smoothing
  // ---------------------------------------------------------------------

  /** One step of an exponential moving average from `current` towards
      `target`. */
  function SmoothPoint(current: Point, target: Point, alpha: real): (r: Point)
    ensures alpha == 0.0 ==> r == current
    ensures alpha == 1.0 ==> r == target
    ensures current == target ==> r == current
  {
    Point(current.x + (target.x - current.x) * alpha,
          current.y + (target.y - current.y) * alpha)
  }

  lemma MulAtMostOne(k: real, u: real)
    requires 0.0 <= k <= 1.0 && u >= 0.0
    ensures 0.0 <= k * u <= u
  {
    NonNegMul(k, u);
    NonNegMul(1.0 - k, u);
    assert (1.0 - k) * u == u - k * u;
  }

  /** A number no larger in magnitude has no larger square. */
  lemma SquareMono(a: real, b: real)
    requires Abs(a) <= Abs(b)
    ensures a * a <= b * b
  {
    var p, q := Abs(a), Abs(b);
    assert a * a == p * p;
    assert b * b == q * q;
    NonNegMul(q - p, q + p);
    assert (q - p) * (q + p) == q * q - p * p;
  }

  /** One coordinate of the lerp lies between its two ends, and so is no
      farther from either end than the ends are from each other. */
  lemma LerpCoordinate(c: real, t: real, alpha: real, r: real)
    requires 0.0 <= alpha <= 1.0
    requires r == c + (t - c) * alpha
    ensures Between(c, r, t)
    ensures Abs(t - r) <= Abs(t - c)
    ensures Abs(r - c) <= Abs(t - c)
  {
    var d := t - c;
    var m := alpha * d;
    assert r == c + m;
    MulBetween(alpha, d, m);
  }

  /** A fraction of a number lies between zero and the number. */
  lemma MulBetween(k: real, u: real, m: real)
    requires 0.0 <= k <= 1.0 && m == k * u
    ensures u >= 0.0 ==> 0.0 <= m <= u
    ensures u < 0.0 ==> u <= m <= 0.0
  {
    if u >= 0.0 {
      MulAtMostOne(k, u);
    } else {
      MulAtMostOne(k, -u);
      assert k * -u == -m;
    }
  }

  /** Two points no farther apart on each axis are no farther apart. */
  lemma DistSqMono(p: Point, q: Point, p': Point, q': Point)
    requires Abs(q'.x - p'.x) <= Abs(q.x - p.x)
    requires Abs(q'.y - p'.y) <= Abs(q.y - p.y)
    ensures DistSq(p', q') <= DistSq(p, q)
  {
    var a, b := q.x - p.x, q.y - p.y;
    var a', b' := q'.x - p'.x, q'.y - p'.y;
    SquareMono(a', a);
    SquareMono(b', b);
    assert DistSq(p, q) == a * a + b * b;
    assert DistSq(p', q') == a' * a' + b' * b';
  }

  /** With a blend factor in [0,1] the smoothed point lies on the segment
      from `current` to `target` and is never farther from either end than
      the two ends are from each other. */
  lemma SmoothPointOnSegment(current: Point, target: Point, alpha: real)
    requires 0.0 <= alpha <= 1.0
    ensures var r := SmoothPoint(current, target, alpha);
      && Between(current.x, r.x, target.x)
      && Between(current.y, r.y, target.y)
      && DistSq(r, target) <= DistSq(current, target)
      && DistSq(current, r) <= DistSq(current, target)
  {
    var r := SmoothPoint(current, target, alpha);
    LerpCoordinate(current.x, target.x, alpha, r.x);
    LerpCoordinate(current.y, target.y, alpha, r.y);
    assert Abs(target.x - r.x) <= Abs(target.x - current.x);
    assert Abs(target.y - r.y) <= Abs(target.y - current.y);
    DistSqMono(current, target, r, target);
    assert Abs(r.x - current.x) <= Abs(target.x - current.x);
    assert Abs(r.y - current.y) <= Abs(target.y - current.y);
    DistSqMono(current, target, current, r);
  }

  /** The squared-speed factor of the adaptive smoother, computed from the
      squared movement: min(dist / 100, 1)^2 == min(dist^2 / 10000, 1). */
  function SpeedFactor(distSq: real): (f: real)
    requires distSq >= 0.0
    ensures 0.0 <= f <= 1.0
    ensures distSq == 0.0 ==> f == 0.0
    ensures distSq >= FastMove * FastMove ==> f == 1.0
  {
    Min(distSq / (FastMove * FastMove), 1.0)
  }

  /** SpeedFactor needs no square root: for any distance d it is the square
      of the clamped speed min(d / 100, 1). */
  lemma SpeedFactorIsSquaredSpeed(d: real)
    requires d >= 0.0
    ensures var speed := Min(d / FastMove, 1.0);
      SpeedFactor(d * d) == speed * speed
  {
    if d >= FastMove {
      NonNegMul(d - FastMove, d + FastMove);
      assert (d - FastMove) * (d + FastMove) == d * d - FastMove * FastMove;
    } else {
      assert (d / FastMove) * (d / FastMove) == (d * d) / (FastMove * FastMove);
      NonNegMul(FastMove - d, FastMove + d);
      assert (FastMove - d) * (FastMove + d) == FastMove * FastMove - d * d;
    }
  }

  /** The blend factor of smoothPointAdaptive: minAlpha when still,
      maxAlpha from a movement of 100 pixels on, and in between otherwise. */
  function AdaptiveAlpha(current: Point, target: Point, minAlpha: real, maxAlpha: real): (a: real)
    ensures current == target ==> a == minAlpha
    ensures DistSq(current, target) >= FastMove * FastMove ==> a == maxAlpha
  {
    minAlpha + (maxAlpha - minAlpha) * SpeedFactor(DistSq(current, target))
  }

  /** The effective blend factor always lies between minAlpha and maxAlpha. */
  lemma AdaptiveAlphaBetween(current: Point, target: Point, minAlpha: real, maxAlpha: real)
    ensures Between(minAlpha, AdaptiveAlpha(current, target, minAlpha, maxAlpha), maxAlpha)
  {
    var f := SpeedFactor(DistSq(current, target));
    var span := maxAlpha - minAlpha;
    var m := span * f;
    assert AdaptiveAlpha(current, target, minAlpha, maxAlpha) == minAlpha + m;
    if span >= 0.0 {
      MulAtMostOne(f, span);
      assert m == f * span;
      assert 0.0 <= m <= span;
    } else {
      MulAtMostOne(f, -span);
      assert m == -(f * -span);
      assert span <= m <= 0.0;
    }
  }

  /** Adaptive smoothing: heavy damping for jitter, little lag for fast
      movement. */
  function SmoothPointAdaptive(current: Point, target: Point,
                               minAlpha: real := DefaultMinAlpha,
                               maxAlpha: real := DefaultMaxAlpha): (r: Point)
    ensures current == target ==> r == current
  {
    SmoothPoint(current, target, AdaptiveAlpha(current, target, minAlpha, maxAlpha))
  }

  /** With 0 <= minAlpha <= maxAlpha <= 1 the adaptive result lies on the
      segment from `current` to `target` and never overshoots it. */
  lemma AdaptiveNoOvershoot(current: Point, target: Point, minAlpha: real, maxAlpha: real)
    requires 0.0 <= minAlpha <= maxAlpha <= 1.0
    ensures var r := SmoothPointAdaptive(current, target, minAlpha, maxAlpha);
      && Between(current.x, r.x, target.x)
      && Between(current.y, r.y, target.y)
      && DistSq(r, target) <= DistSq(current, target)
  {
    var a := AdaptiveAlpha(current, target, minAlpha, maxAlpha);
    AdaptiveAlphaBetween(current, target, minAlpha, maxAlpha);
    SmoothPointOnSegment(current, target, a);
  }

  // ---------------------------------------------------------------------
  // Rigid-body step
  // ---------------------------------------------------------------------

  /** Position and velocity along one axis. */
  datatype Axis = Axis(pos: real, vel: real)

  /** "Stop if very slow". */
  function Snap(v: real): (r: real)
    ensures Abs(v) < StopSpeed ==> r == 0.0
    ensures Abs(v) >= StopSpeed ==> r == v
  {
    if Abs(v) < StopSpeed then 0.0 else v
  }

  /** Does the body, once moved, touch the low or the high wall? */
  predicate HitsWall(pos: real, radius: real, extent: real)
  {
    pos - radius < 0.0 || pos + radius > extent
  }

  /** One axis of updatePhysics: move by the velocity, apply friction, stop
      if very slow, then clamp against the walls at 0 and `extent`,
      reflecting the velocity with restitution. */
  function AxisStep(pos: real, vel: real, radius: real, friction: real,
                    restitution: real, extent: real): (r: Axis)
    // the wall clamp keeps the body inside when it fits
    ensures 2.0 * radius <= extent ==> radius <= r.pos <= extent - radius
    // without wall contact, the position advances by the pre-friction velocity
    ensures !HitsWall(pos + vel, radius, extent) ==>
      r.pos == pos + vel && r.vel == Snap(vel * friction)
    // on wall contact the snapped velocity is reflected with restitution
    ensures HitsWall(pos + vel, radius, extent) ==>
      r.vel == Snap(vel * friction) * -restitution
    ensures Abs(vel * friction) < StopSpeed ==> r.vel == 0.0
  {
    var p := pos + vel;
    var v := Snap(vel * friction);
    if p - radius < 0.0 then Axis(radius, v * -restitution)
    else if p + radius > extent then Axis(extent - radius, v * -restitution)
    else Axis(p, v)
  }

  lemma AbsScaled(v: real, k: real)
    requires 0.0 <= k <= 1.0
    ensures Abs(v * k) <= Abs(v)
    ensures Abs(-k * v) <= Abs(v)
  {
    var m := v * k;
    var n := -k * v;
    if v < 0.0 {
      MulAtMostOne(k, -v);
      assert m == -(k * -v);
      assert n == k * -v;
    } else {
      MulAtMostOne(k, v);
      assert m == k * v;
      assert n == -(k * v);
    }
  }

  /** With friction and restitution in [0,1] an axis never speeds up. */
  lemma {:induction false} AxisSpeedNonIncreasing(pos: real, vel: real, radius: real,
                                                  friction: real, restitution: real, extent: real)
    requires 0.0 <= friction <= 1.0 && 0.0 <= restitution <= 1.0
    ensures Abs(AxisStep(pos, vel, radius, friction, restitution, extent).vel) <= Abs(vel)
  {
    AbsScaled(vel, friction);
    var w := Snap(vel * friction);
    assert Abs(w) <= Abs(vel * friction);
    AbsScaled(w, restitution);
  }

  /** updatePhysics as a value: grabbed bodies are left alone, every other
      body takes one AxisStep per axis. */
  function PhysicsStep(o: PhysicsObject, width: real, height: real): (r: PhysicsObject)
    ensures o.isGrabbed ==> r == o
    // identity and material never change
    ensures r == o.(x := r.x, y := r.y, vx := r.vx, vy := r.vy)
    ensures !o.isGrabbed ==>
      && Axis(r.x, r.vx) == AxisStep(o.x, o.vx, o.radius, o.friction, o.restitution, width)
      && Axis(r.y, r.vy) == AxisStep(o.y, o.vy, o.radius, o.friction, o.restitution, height)
    ensures !o.isGrabbed && 2.0 * o.radius <= width ==> o.radius <= r.x <= width - o.radius
    ensures !o.isGrabbed && 2.0 * o.radius <= height ==> o.radius <= r.y <= height - o.radius
  {
    if o.isGrabbed then o
    else
      var ax := AxisStep(o.x, o.vx, o.radius, o.friction, o.restitution, width);
      var ay := AxisStep(o.y, o.vy, o.radius, o.friction, o.restitution, height);
      o.(x := ax.pos, vx := ax.vel, y := ay.pos, vy := ay.vel)
  }

  /** With friction and restitution in [0,1] a body's speed never grows in
      either component. */
  lemma PhysicsStepSpeedNonIncreasing(o: PhysicsObject, width: real, height: real)
    requires 0.0 <= o.friction <= 1.0 && 0.0 <= o.restitution <= 1.0
    ensures var r := PhysicsStep(o, width, height);
      Abs(r.vx) <= Abs(o.vx) && Abs(r.vy) <= Abs(o.vy)
  {
    AxisSpeedNonIncreasing(o.x, o.vx, o.radius, o.friction, o.restitution, width);
    AxisSpeedNonIncreasing(o.y, o.vy, o.radius, o.friction, o.restitution, height);
  }

  /** The body of updatePhysics on the four fields it changes, in the order
      the source updates them. */
  method StepFields(x0: real, vx0: real, y0: real, vy0: real, radius: real,
                    friction: real, restitution: real, width: real, height: real)
    returns (x: real, vx: real, y: real, vy: real)
    ensures Axis(x, vx) == AxisStep(x0, vx0, radius, friction, restitution, width)
    ensures Axis(y, vy) == AxisStep(y0, vy0, radius, friction, restitution, height)
  {
    x, vx, y, vy := x0, vx0, y0, vy0;
    // apply velocity
    x := x + vx;
    y := y + vy;
    // apply friction
    vx := vx * friction;
    vy := vy * friction;
    // stop if very slow
    if Abs(vx) < StopSpeed { vx := 0.0; }
    if Abs(vy) < StopSpeed { vy := 0.0; }
    // wall collisions (bounce)
    if x - radius < 0.0 {
      x := radius;
      vx := vx * -restitution;
    } else if x + radius > width {
      x := width - radius;
      vx := vx * -restitution;
    }
    if y - radius < 0.0 {
      y := radius;
      vy := vy * -restitution;
    } else if y + radius > height {
      y := height - radius;
      vy := vy * -restitution;
    }
  }

  /** updatePhysics: a grabbed body is left alone; otherwise its position and
      velocity fields are updated in place. */
  method UpdatePhysics(obj: PhysicsObject, width: real, height: real) returns (o: PhysicsObject)
    ensures o == PhysicsStep(obj, width, height)
  {
    if obj.isGrabbed {
      return obj;
    }
    var x, vx, y, vy := StepFields(obj.x, obj.vx, obj.y, obj.vy, obj.radius,
                                   obj.friction, obj.restitution, width, height);
    o := obj.(x := x, y := y, vx := vx, vy := vy);
  }
}
