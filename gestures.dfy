/** The per-frame rules of the gesture canvas (components/GestureCanvas.tsx),
    as values: fist strength, the safe-zone remap, the grab latch shared by
    both playground activities, the SHAPES and ROBOT per-object rules, and
    the mecha rigid-body step. The class that holds the state between
    frames is in module Canvas. */
module Gestures {
  import opened Types
  import opened Physics

  // ---------------------------------------------------------------------
  // Fist strength
  // ---------------------------------------------------------------------

  /** Average tip-to-wrist distance at and above which the hand is open. */
  const OpenThreshold: real := 0.55
  /** Average tip-to-wrist distance at and below which the hand is a fist. */
  const ClosedThreshold: real := 0.20

  function Clamp01(v: real): (r: real)
    ensures 0.0 <= r <= 1.0
    ensures 0.0 <= v <= 1.0 ==> r == v
    ensures v < 0.0 ==> r == 0.0
    ensures v > 1.0 ==> r == 1.0
  {
    Max(0.0, Min(1.0, v))
  }

  /** calculateFistStrength: a linear map of the average tip distance from
      the open threshold (0) to the closed threshold (1), clamped to [0,1]. */
  function FistStrength(avgDist: real): (s: real)
    ensures 0.0 <= s <= 1.0
    ensures avgDist <= ClosedThreshold ==> s == 1.0
    ensures avgDist >= OpenThreshold ==> s == 0.0
  {
    Clamp01((OpenThreshold - avgDist) / (OpenThreshold - ClosedThreshold))
  }

  /** A hand that closes further never reads as a weaker fist. */
  lemma FistStrengthMonotone(a: real, b: real)
    requires a <= b
    ensures FistStrength(b) <= FistStrength(a)
  {
    var span := OpenThreshold - ClosedThreshold;
    assert (OpenThreshold - b) / span <= (OpenThreshold - a) / span;
  }

  // ---------------------------------------------------------------------
  // Safe zone and cursor target
  // ---------------------------------------------------------------------

  /** The band of camera coordinates that spans the whole screen. */
  const MinCam: real := 0.2
  const MaxCam: real := 0.8

  /** Safe-zone remap of one normalised camera coordinate. */
  function SafeZone(v: real): (n: real)
    ensures 0.0 <= n <= 1.0
    ensures MinCam <= v <= MaxCam ==> n == (v - MinCam) / (MaxCam - MinCam)
    ensures v <= MinCam ==> n == 0.0
    ensures v >= MaxCam ==> n == 1.0
  {
    Clamp01((v - MinCam) / (MaxCam - MinCam))
  }

  /** The remap keeps the order of camera coordinates. */
  lemma SafeZoneMonotone(a: real, b: real)
    requires a <= b
    ensures SafeZone(a) <= SafeZone(b)
  {
    assert (a - MinCam) / (MaxCam - MinCam) <= (b - MinCam) / (MaxCam - MinCam);
  }

  /** The raw cursor target: the safe-zone position pushed 1.5 palm lengths
      along the wrist-to-knuckle direction, mirrored horizontally and scaled
      to the canvas. */
  function CursorTarget(knuckleMid: Point, wrist: Point, width: real, height: real): Point
  {
    var tipX := SafeZone(knuckleMid.x) + (knuckleMid.x - wrist.x) * 1.5;
    var tipY := SafeZone(knuckleMid.y) + (knuckleMid.y - wrist.y) * 1.5;
    Point((1.0 - tipX) * width, tipY * height)
  }

  /** Where the ROBOT hand is: the raw knuckle centroid, mirrored and scaled,
      without the safe zone. */
  function HandPosition(knuckleMid: Point, width: real, height: real): Point
  {
    Point((1.0 - knuckleMid.x) * width, knuckleMid.y * height)
  }

  // ---------------------------------------------------------------------
  // The grab latch
  // ---------------------------------------------------------------------

  /** `!grabbedIdRef.current`: no holder, or the falsy id 0. */
  predicate NoGrab(holder: Option<int>)
  {
    holder == None || holder == Some(0)
  }

  /** An object's grab flag, the shared holder id, and whether this object
      was just released. */
  datatype Latch = Latch(grabbed: bool, holder: Option<int>, released: bool)

  /** The grab-then-release test both activities run on each object: grab it
      when wanted and nothing is held, then release it when wanted and it is
      the one held. */
  function GrabLatch(id: int, grabbed: bool, holder: Option<int>,
                     grabWanted: bool, releaseWanted: bool): (r: Latch)
    ensures r.released <==> releaseWanted && (holder == Some(id) || (grabWanted && NoGrab(holder)))
    ensures r.released ==> !r.grabbed && r.holder == None
    ensures !r.released && grabWanted && NoGrab(holder) ==> r.grabbed && r.holder == Some(id)
    ensures !r.released && !(grabWanted && NoGrab(holder)) ==>
      r.grabbed == grabbed && r.holder == holder
  {
    var grabs := grabWanted && NoGrab(holder);
    var g1 := if grabs then true else grabbed;
    var h1 := if grabs then Some(id) else holder;
    if releaseWanted && h1 == Some(id) then Latch(false, None, true)
    else Latch(g1, h1, false)
  }

  /** A grab state is consistent when ids are non-zero and distinct and an
      object is flagged grabbed exactly when the holder names it. */
  predicate LatchConsistent(ids: seq<int>, flags: seq<bool>, holder: Option<int>)
  {
    && |ids| == |flags|
    && (forall i :: 0 <= i < |ids| ==> ids[i] != 0)
    && (forall i, j :: 0 <= i < j < |ids| ==> ids[i] != ids[j])
    && (forall i :: 0 <= i < |ids| ==> (flags[i] <==> holder == Some(ids[i])))
  }

  /** In a consistent state at most one object is grabbed. */
  lemma AtMostOneGrabbed(ids: seq<int>, flags: seq<bool>, holder: Option<int>, i: int, j: int)
    requires LatchConsistent(ids, flags, holder)
    requires 0 <= i < |ids| && 0 <= j < |ids| && flags[i] && flags[j]
    ensures i == j
  {
  }

  /** Running the latch on any one object keeps the state consistent. */
  lemma LatchKeepsConsistency(ids: seq<int>, flags: seq<bool>, holder: Option<int>, k: int,
                              grabWanted: bool, releaseWanted: bool)
    requires LatchConsistent(ids, flags, holder) && 0 <= k < |ids|
    ensures var r := GrabLatch(ids[k], flags[k], holder, grabWanted, releaseWanted);
      LatchConsistent(ids, flags[k := r.grabbed], r.holder)
  {
    var r := GrabLatch(ids[k], flags[k], holder, grabWanted, releaseWanted);
    var flags' := flags[k := r.grabbed];
    forall i | 0 <= i < |ids|
      ensures flags'[i] <==> r.holder == Some(ids[i])
    {
      if i != k {
        assert ids[i] != ids[k] by {
          if i < k { assert ids[i] != ids[k]; } else { assert ids[k] != ids[i]; }
        }
        if grabWanted && NoGrab(holder) {
          // nothing was held: no other object can be flagged
          assert holder != Some(ids[i]);
        }
      }
    }
  }

  // ---------------------------------------------------------------------
  // SHAPES
  // ---------------------------------------------------------------------

  /** Pinch value below which the hand counts as pinching. */
  const PinchOn: real := 0.18
  /** Reach of a pinch beyond a body's radius. */
  const GrabReach: real := 60.0
  /** Share of the cursor movement a thrown body keeps. */
  const ThrowScale: real := 0.9
  /** Share of the way to the cursor a held body moves per frame. */
  const ShapesFollow: real := 0.92

  datatype ShapesTouch = ShapesTouch(obj: PhysicsObject, holder: Option<int>)

  /** One object of the SHAPES loop: grab when pinching within radius + 60
      of the cursor, throw with 0.9 of the cursor movement on the first
      frame without a pinch, and pull a held body 0.92 of the way to the
      cursor with its velocity zeroed. */
  function ShapesStep(o: PhysicsObject, holder: Option<int>, cursor: Point, prev: Point,
                      pinching: bool): (r: ShapesTouch)
    // only position, velocity and the grab flag change
    ensures r.obj == o.(x := r.obj.x, y := r.obj.y, vx := r.obj.vx, vy := r.obj.vy,
                        isGrabbed := r.obj.isGrabbed)
    ensures var l := GrabLatch(o.id, o.isGrabbed, holder,
                               pinching && Within(cursor, Point(o.x, o.y), o.radius + GrabReach),
                               !pinching);
      r.obj.isGrabbed == l.grabbed && r.holder == l.holder
    // a grab needs a pinch within reach and nothing held
    ensures !o.isGrabbed && r.obj.isGrabbed ==>
      pinching && Within(cursor, Point(o.x, o.y), o.radius + GrabReach) && NoGrab(holder)
    // the throw
    ensures !pinching && holder == Some(o.id) ==>
      && !r.obj.isGrabbed && r.holder == None
      && r.obj.x == o.x && r.obj.y == o.y
      && r.obj.vx == (cursor.x - prev.x) * ThrowScale
      && r.obj.vy == (cursor.y - prev.y) * ThrowScale
    // a held body follows the cursor and does not move on its own
    ensures r.obj.isGrabbed ==>
      && r.obj.x == o.x + (cursor.x - o.x) * ShapesFollow
      && r.obj.y == o.y + (cursor.y - o.y) * ShapesFollow
      && r.obj.vx == 0.0 && r.obj.vy == 0.0
    ensures !r.obj.isGrabbed && !(!pinching && holder == Some(o.id)) ==>
      r.obj == o.(isGrabbed := false) && r.holder == holder
  {
    var l := GrabLatch(o.id, o.isGrabbed, holder,
                       pinching && Within(cursor, Point(o.x, o.y), o.radius + GrabReach),
                       !pinching);
    var thrown := if l.released
                  then o.(vx := (cursor.x - prev.x) * ThrowScale, vy := (cursor.y - prev.y) * ThrowScale)
                  else o;
    var held := if l.grabbed
                then thrown.(x := o.x + (cursor.x - o.x) * ShapesFollow,
                             y := o.y + (cursor.y - o.y) * ShapesFollow,
                             vx := 0.0, vy := 0.0)
                else thrown;
    ShapesTouch(held.(isGrabbed := l.grabbed), l.holder)
  }

  /** The SHAPES loop over the whole list, in list order, threading the
      holder id from one object to the next. */
  function ShapesPass(s: seq<PhysicsObject>, holder: Option<int>, cursor: Point, prev: Point,
                      pinching: bool): (r: (seq<PhysicsObject>, Option<int>))
    ensures |r.0| == |s|
    ensures forall i :: 0 <= i < |s| ==> r.0[i].id == s[i].id
  {
    if s == [] then ([], holder)
    else
      var front := ShapesPass(s[..|s| - 1], holder, cursor, prev, pinching);
      var t := ShapesStep(s[|s| - 1], front.1, cursor, prev, pinching);
      (front.0 + [t.obj], t.holder)
  }

  /** Without a pinch nothing is grabbed, so a holder that no body in the
      list has survives the whole pass. */
  lemma {:induction false} ShapesPassKeepsHolder(s: seq<PhysicsObject>, holder: Option<int>,
                                                 cursor: Point, prev: Point)
    requires forall j :: 0 <= j < |s| ==> holder != Some(s[j].id)
    ensures ShapesPass(s, holder, cursor, prev, false).1 == holder
    decreases |s|
  {
    if s != [] {
      var front := s[..|s| - 1];
      ShapesPassKeepsHolder(front, holder, cursor, prev);
    }
  }

  /** The throw of GestureCanvas.tsx:199-202 inside the loop: on a frame
      without a pinch the held body (ids being distinct) is released with
      0.9 of the cursor movement as its velocity, and nothing is held
      afterwards. */
  lemma {:induction false} ShapesPassThrows(s: seq<PhysicsObject>, holder: Option<int>,
                                            cursor: Point, prev: Point, k: int)
    requires forall i, j :: 0 <= i < j < |s| ==> s[i].id != s[j].id
    requires 0 <= k < |s| && holder == Some(s[k].id)
    ensures var r := ShapesPass(s, holder, cursor, prev, false);
      && r.1 == None
      && r.0[k] == s[k].(isGrabbed := false,
                         vx := (cursor.x - prev.x) * ThrowScale,
                         vy := (cursor.y - prev.y) * ThrowScale)
    decreases |s|
  {
    var n := |s| - 1;
    var front := s[..n];
    var f := ShapesPass(front, holder, cursor, prev, false);
    if k == n {
      ShapesPassKeepsHolder(front, holder, cursor, prev);
    } else {
      ShapesPassThrows(front, holder, cursor, prev, k);
    }
  }

  /** The id and grab flag of a body, as functions for Project. */
  const BodyId: PhysicsObject -> int := (o: PhysicsObject) => o.id
  const BodyHeld: PhysicsObject -> bool := (o: PhysicsObject) => o.isGrabbed

  /** The SHAPES bodies and their holder id agree. */
  predicate ShapesConsistent(s: seq<PhysicsObject>, holder: Option<int>)
  {
    LatchConsistent(Project(s, BodyId), Project(s, BodyHeld), holder)
  }

  /** Consistent bodies have distinct ids. */
  lemma ShapesConsistentDistinct(s: seq<PhysicsObject>, holder: Option<int>)
    requires ShapesConsistent(s, holder)
    ensures forall i, j :: 0 <= i < j < |s| ==> s[i].id != s[j].id
  {
    forall i, j | 0 <= i < j < |s|
      ensures s[i].id != s[j].id
    {
      assert Project(s, BodyId)[i] == s[i].id && Project(s, BodyId)[j] == s[j].id;
    }
  }

  /** One SHAPES object step anywhere in the list keeps the list consistent. */
  lemma ShapesStepKeepsConsistency(s: seq<PhysicsObject>, k: int, holder: Option<int>,
                                   cursor: Point, prev: Point, pinching: bool)
    requires ShapesConsistent(s, holder) && 0 <= k < |s|
    ensures var t := ShapesStep(s[k], holder, cursor, prev, pinching);
      ShapesConsistent(s[k := t.obj], t.holder)
  {
    var o := s[k];
    var t := ShapesStep(o, holder, cursor, prev, pinching);
    LatchKeepsConsistency(Project(s, BodyId), Project(s, BodyHeld), holder, k,
                          pinching && Within(cursor, Point(o.x, o.y), o.radius + GrabReach),
                          !pinching);
    assert Project(s[k := t.obj], BodyId) == Project(s, BodyId);
    assert Project(s[k := t.obj], BodyHeld) == Project(s, BodyHeld)[k := t.obj.isGrabbed];
  }

  /** The SHAPES loop keeps the grab state consistent, whatever follows the
      part of the list it has walked. */
  lemma {:induction false} ShapesPassKeepsConsistency(s: seq<PhysicsObject>, rest: seq<PhysicsObject>,
                                                      holder: Option<int>, cursor: Point, prev: Point,
                                                      pinching: bool)
    requires ShapesConsistent(s + rest, holder)
    ensures var r := ShapesPass(s, holder, cursor, prev, pinching);
      ShapesConsistent(r.0 + rest, r.1)
  {
    if s != [] {
      var n := |s| - 1;
      var last := s[n];
      assert s + rest == s[..n] + ([last] + rest);
      ShapesPassKeepsConsistency(s[..n], [last] + rest, holder, cursor, prev, pinching);
      var front := ShapesPass(s[..n], holder, cursor, prev, pinching);
      var whole := front.0 + ([last] + rest);
      assert whole[n] == last;
      ShapesStepKeepsConsistency(whole, n, front.1, cursor, prev, pinching);
      var t := ShapesStep(last, front.1, cursor, prev, pinching);
      assert whole[n := t.obj] == (front.0 + [t.obj]) + rest;
    }
  }

  /** Can this body be picked up by the cursor this frame? */
  predicate ShapesInReach(o: PhysicsObject, cursor: Point)
  {
    Within(cursor, Point(o.x, o.y), o.radius + GrabReach)
  }

  /** While pinching with nothing held, a walk over bodies none of which is
      within reach keeps the holder as it was. */
  lemma {:induction false} ShapesPassNoneInReach(s: seq<PhysicsObject>, holder: Option<int>,
                                                 cursor: Point, prev: Point)
    requires forall j :: 0 <= j < |s| ==> !ShapesInReach(s[j], cursor)
    ensures ShapesPass(s, holder, cursor, prev, true).1 == holder
  {
    if s != [] {
      ShapesPassNoneInReach(s[..|s| - 1], holder, cursor, prev);
    }
  }

  /** While pinching with nothing held, the first body in list order that is
      within reach is the one grabbed. */
  lemma {:induction false} ShapesFirstInReachWins(s: seq<PhysicsObject>, holder: Option<int>,
                                                  cursor: Point, prev: Point, k: int)
    requires NoGrab(holder)
    requires forall j :: 0 <= j < |s| ==> s[j].id != 0
    requires 0 <= k < |s| && ShapesInReach(s[k], cursor)
    requires forall j :: 0 <= j < k ==> !ShapesInReach(s[j], cursor)
    ensures ShapesPass(s, holder, cursor, prev, true).1 == Some(s[k].id)
  {
    var n := |s| - 1;
    if k < n {
      ShapesFirstInReachWins(s[..n], holder, cursor, prev, k);
    } else {
      ShapesPassNoneInReach(s[..n], holder, cursor, prev);
    }
  }

  // ---------------------------------------------------------------------
  // ROBOT
  // ---------------------------------------------------------------------

  /** Fist strength above which a hand grabs. */
  const FistGrab: real := 0.4
  /** Fist strength below which a hand lets go. */
  const FistRelease: real := 0.35
  /** Reach of a grab around the hand. */
  const RobotReach: real := 160.0
  /** Reach of the push an open hand gives a free tool. */
  const PushReach: real := 80.0
  /** Terminal throw speed per component. */
  const MaxThrow: real := 25.0
  /** Share of the way to the hand a held tool moves per frame. */
  const RobotFollow: real := 0.9

  /** What the model takes from outside: smoothScalar, the cos/sin hand
      push for an offset from the hand, and the random spin of a thrown
      tool. */
  datatype Externals = Externals(
    smoothScalar: (real, real, real) -> real,
    push: (real, real) -> Point,
    spin: real)

  /** Clamp a throw component to [-25, 25]. */
  function ClampThrow(v: real): (r: real)
    ensures -MaxThrow <= r <= MaxThrow
    ensures -MaxThrow <= v <= MaxThrow ==> r == v
  {
    Max(-MaxThrow, Min(MaxThrow, v))
  }

  datatype RobotTouch = RobotTouch(obj: MechaObject, holder: Option<int>)

  /** One tool of the ROBOT loop: grab with a fist stronger than 0.4 within
      160 of the hand, throw with the clamped cursor movement and a random
      spin once the fist is weaker than 0.35, push a free tool within 80 of
      the hand, and pull a held tool 0.9 of the way to the hand. */
  function RobotStep(o: MechaObject, holder: Option<int>, hand: Point, fist: real,
                     cursor: Point, prev: Point, rollTarget: real, ext: Externals): (r: RobotTouch)
    ensures r.obj.id == o.id && r.obj.kind == o.kind && r.obj.scale == o.scale
    ensures var l := GrabLatch(o.id, o.isGrabbed, holder,
                               fist > FistGrab && Within(hand, Point(o.x, o.y), RobotReach),
                               fist < FistRelease);
      r.obj.isGrabbed == l.grabbed && r.holder == l.holder
    ensures !o.isGrabbed && r.obj.isGrabbed ==>
      fist > FistGrab && Within(hand, Point(o.x, o.y), RobotReach) && NoGrab(holder)
    ensures r.obj.isGrabbed ==>
      && r.obj.x == o.x + (hand.x - o.x) * RobotFollow
      && r.obj.y == o.y + (hand.y - o.y) * RobotFollow
      && r.obj.angle == ext.smoothScalar(o.angle, rollTarget, 0.2)
      && r.obj.vx == 0.0 && r.obj.vy == 0.0 && r.obj.angularVelocity == 0.0
    ensures !r.obj.isGrabbed ==> r.obj.x == o.x && r.obj.y == o.y && r.obj.angle == o.angle
    // a free tool that is not thrown keeps its spin, and its velocity changes
    // only by the push when the hand is within 80
    ensures !(fist < FistRelease && holder == Some(o.id)) && !r.obj.isGrabbed ==>
      var p := ext.push(o.x - hand.x, o.y - hand.y);
      var near := Within(hand, Point(o.x, o.y), PushReach);
      && r.obj.angularVelocity == o.angularVelocity
      && r.obj.vx == o.vx + (if near then p.x else 0.0)
      && r.obj.vy == o.vy + (if near then p.y else 0.0)
  {
    var l := GrabLatch(o.id, o.isGrabbed, holder,
                       fist > FistGrab && Within(hand, Point(o.x, o.y), RobotReach),
                       fist < FistRelease);
    var thrown := if l.released
                  then o.(vx := ClampThrow(cursor.x - prev.x), vy := ClampThrow(cursor.y - prev.y),
                          angularVelocity := ext.spin)
                  else o;
    var p := ext.push(o.x - hand.x, o.y - hand.y);
    var pushed := if !l.grabbed && Within(hand, Point(o.x, o.y), PushReach)
                  then thrown.(vx := thrown.vx + p.x, vy := thrown.vy + p.y)
                  else thrown;
    var held := if l.grabbed
                then pushed.(x := o.x + (hand.x - o.x) * RobotFollow,
                             y := o.y + (hand.y - o.y) * RobotFollow,
                             angle := ext.smoothScalar(o.angle, rollTarget, 0.2),
                             vx := 0.0, vy := 0.0, angularVelocity := 0.0)
                else pushed;
    RobotTouch(held.(isGrabbed := l.grabbed), l.holder)
  }

  /** Between the two fist thresholds nothing is grabbed or released. */
  lemma RobotHysteresis(o: MechaObject, holder: Option<int>, hand: Point, fist: real,
                        cursor: Point, prev: Point, rollTarget: real, ext: Externals)
    requires FistRelease <= fist <= FistGrab
    ensures var r := RobotStep(o, holder, hand, fist, cursor, prev, rollTarget, ext);
      r.obj.isGrabbed == o.isGrabbed && r.holder == holder
  {
  }

  /** The throw: releasing the held tool sets each velocity component to the
      cursor movement clamped to [-25, 25], plus the push when the hand is
      within 80. */
  lemma RobotThrow(o: MechaObject, holder: Option<int>, hand: Point, fist: real,
                   cursor: Point, prev: Point, rollTarget: real, ext: Externals)
    requires fist < FistRelease && holder == Some(o.id)
    ensures var r := RobotStep(o, holder, hand, fist, cursor, prev, rollTarget, ext);
      var p := ext.push(o.x - hand.x, o.y - hand.y);
      && !r.obj.isGrabbed && r.holder == None
      && r.obj.angularVelocity == ext.spin
      && (!Within(hand, Point(o.x, o.y), PushReach) ==>
            && r.obj.vx == ClampThrow(cursor.x - prev.x)
            && r.obj.vy == ClampThrow(cursor.y - prev.y)
            && -MaxThrow <= r.obj.vx <= MaxThrow && -MaxThrow <= r.obj.vy <= MaxThrow)
      && (Within(hand, Point(o.x, o.y), PushReach) ==>
            && r.obj.vx == ClampThrow(cursor.x - prev.x) + p.x
            && r.obj.vy == ClampThrow(cursor.y - prev.y) + p.y)
  {
  }

  /** The ROBOT loop over all tools, in list order. */
  function RobotPass(s: seq<MechaObject>, holder: Option<int>, hand: Point, fist: real,
                     cursor: Point, prev: Point, rollTarget: real, ext: Externals)
    : (r: (seq<MechaObject>, Option<int>))
    ensures |r.0| == |s|
    ensures forall i :: 0 <= i < |s| ==> r.0[i].id == s[i].id
  {
    if s == [] then ([], holder)
    else
      var front := RobotPass(s[..|s| - 1], holder, hand, fist, cursor, prev, rollTarget, ext);
      var t := RobotStep(s[|s| - 1], front.1, hand, fist, cursor, prev, rollTarget, ext);
      (front.0 + [t.obj], t.holder)
  }

  /** The id and grab flag of a tool, as functions for Project. */
  const ToolId: MechaObject -> int := (o: MechaObject) => o.id
  const ToolHeld: MechaObject -> bool := (o: MechaObject) => o.isGrabbed

  /** The tools and their holder id agree. */
  predicate MechaConsistent(s: seq<MechaObject>, holder: Option<int>)
  {
    LatchConsistent(Project(s, ToolId), Project(s, ToolHeld), holder)
  }

  lemma RobotStepKeepsConsistency(s: seq<MechaObject>, k: int, holder: Option<int>, hand: Point,
                                  fist: real, cursor: Point, prev: Point, rollTarget: real,
                                  ext: Externals)
    requires MechaConsistent(s, holder) && 0 <= k < |s|
    ensures var t := RobotStep(s[k], holder, hand, fist, cursor, prev, rollTarget, ext);
      MechaConsistent(s[k := t.obj], t.holder)
  {
    var o := s[k];
    var t := RobotStep(o, holder, hand, fist, cursor, prev, rollTarget, ext);
    LatchKeepsConsistency(Project(s, ToolId), Project(s, ToolHeld), holder, k,
                          fist > FistGrab && Within(hand, Point(o.x, o.y), RobotReach),
                          fist < FistRelease);
    assert Project(s[k := t.obj], ToolId) == Project(s, ToolId);
    assert Project(s[k := t.obj], ToolHeld) == Project(s, ToolHeld)[k := t.obj.isGrabbed];
  }

  /** The ROBOT loop keeps the grab state consistent. */
  lemma {:induction false} RobotPassKeepsConsistency(s: seq<MechaObject>, rest: seq<MechaObject>,
                                                     holder: Option<int>, hand: Point, fist: real,
                                                     cursor: Point, prev: Point, rollTarget: real,
                                                     ext: Externals)
    requires MechaConsistent(s + rest, holder)
    ensures var r := RobotPass(s, holder, hand, fist, cursor, prev, rollTarget, ext);
      MechaConsistent(r.0 + rest, r.1)
  {
    if s != [] {
      var n := |s| - 1;
      var last := s[n];
      assert s + rest == s[..n] + ([last] + rest);
      RobotPassKeepsConsistency(s[..n], [last] + rest, holder, hand, fist, cursor, prev, rollTarget, ext);
      var front := RobotPass(s[..n], holder, hand, fist, cursor, prev, rollTarget, ext);
      var whole := front.0 + ([last] + rest);
      assert whole[n] == last;
      RobotStepKeepsConsistency(whole, n, front.1, hand, fist, cursor, prev, rollTarget, ext);
      var t := RobotStep(last, front.1, hand, fist, cursor, prev, rollTarget, ext);
      assert whole[n := t.obj] == (front.0 + [t.obj]) + rest;
    }
  }

  // ---------------------------------------------------------------------
  // Mecha physics
  // ---------------------------------------------------------------------

  const Gravity: real := 0.55
  const AirResistance: real := 0.99
  /** Height of the floor strip above the bottom of the canvas. */
  const FloorMargin: real := 50.0
  const FloorRestitution: real := 0.45
  const FloorFriction: real := 0.92
  /** Vertical speed at and below which a tool settles on the floor. */
  const SettleSpeed: real := 3.0
  const SpinDrag: real := 0.98
  const FloorSpinDrag: real := 0.8
  const WallRestitution: real := 0.6

  /** Half the approximate collision size of a tool: 30 * scale * 0.5. */
  function HalfSize(scale: real): real
  {
    30.0 * scale * 0.5
  }

  /** updateMechaPhysics as a value. */
  function MechaStep(o: MechaObject, width: real, height: real): (r: MechaObject)
    ensures o.isGrabbed ==> r == o
    ensures r == o.(x := r.x, y := r.y, vx := r.vx, vy := r.vy,
                    angle := r.angle, angularVelocity := r.angularVelocity)
    // the tool never ends below the floor
    ensures r.y + HalfSize(o.scale) <= height - FloorMargin || o.isGrabbed
    // floor contact: bounce with restitution when fast, settle otherwise
    ensures !o.isGrabbed ==>
      var vy := (o.vy + Gravity) * AirResistance;
      o.y + vy + HalfSize(o.scale) > height - FloorMargin ==>
        && r.y == height - FloorMargin - HalfSize(o.scale)
        && r.vy == (if Abs(vy) > SettleSpeed then vy * -FloorRestitution else 0.0)
    ensures !o.isGrabbed && width >= 0.0 ==> 0.0 <= r.x <= width
  {
    if o.isGrabbed then o
    else
      var vx := o.vx * AirResistance;
      var vy := (o.vy + Gravity) * AirResistance;
      var x := o.x + vx;
      var y := o.y + vy;
      var angle := o.angle + o.angularVelocity;
      var spin := o.angularVelocity * SpinDrag;
      var floorY := height - FloorMargin;
      var onFloor := y + HalfSize(o.scale) > floorY;
      var y' := if onFloor then floorY - HalfSize(o.scale) else y;
      var vy' := if !onFloor then vy else if Abs(vy) > SettleSpeed then vy * -FloorRestitution else 0.0;
      var vx1 := if onFloor then vx * FloorFriction else vx;
      var spin' := if onFloor then spin * FloorSpinDrag else spin;
      var x1 := if x < 0.0 then 0.0 else x;
      var vx2 := if x < 0.0 then vx1 * -WallRestitution else vx1;
      var x2 := if x1 > width then width else x1;
      var vx3 := if x1 > width then vx2 * -WallRestitution else vx2;
      o.(x := x2, y := y', vx := vx3, vy := vy', angle := angle, angularVelocity := spin')
  }

  /** Without floor contact, a tool falls under gravity and air drag. */
  lemma MechaFreeFall(o: MechaObject, width: real, height: real)
    requires !o.isGrabbed
    requires o.y + (o.vy + Gravity) * AirResistance + HalfSize(o.scale) <= height - FloorMargin
    ensures var r := MechaStep(o, width, height);
      && r.y == o.y + (o.vy + Gravity) * AirResistance
      && r.vy == (o.vy + Gravity) * AirResistance
      && r.angle == o.angle + o.angularVelocity
      && r.angularVelocity == o.angularVelocity * SpinDrag
  {
  }

  /** A settled tool at rest on the floor stays there. */
  lemma MechaRestingStaysPut(o: MechaObject, width: real, height: real)
    requires !o.isGrabbed && 0.0 <= o.x <= width
    requires o.vx == 0.0 && o.vy == 0.0 && o.angularVelocity == 0.0
    requires o.y == height - FloorMargin - HalfSize(o.scale)
    ensures MechaStep(o, width, height) == o
  {
  }

  /** updateMechaPhysics on the six fields it changes, in the order the
      source updates them. */
  method MechaFields(x0: real, y0: real, vx0: real, vy0: real, angle0: real, spin0: real,
                     scale: real, width: real, height: real)
    returns (x: real, y: real, vx: real, vy: real, angle: real, spin: real)
    ensures var o := MechaObject(0, Ball, x0, y0, vx0, vy0, angle0, spin0, false, scale);
      MechaStep(o, width, height) == o.(x := x, y := y, vx := vx, vy := vy,
                                        angle := angle, angularVelocity := spin)
  {
    x, y, vx, vy, angle, spin := x0, y0, vx0, vy0, angle0, spin0;
    var floorY := height - FloorMargin;
    vy := vy + Gravity;
    vx := vx * AirResistance;
    vy := vy * AirResistance;
    x := x + vx;
    y := y + vy;
    angle := angle + spin;
    spin := spin * SpinDrag;
    // floor collision
    var bottom := y + 30.0 * scale * 0.5;
    if bottom > floorY {
      y := floorY - 30.0 * scale * 0.5;
      if Abs(vy) > SettleSpeed {
        vy := vy * -FloorRestitution;
      } else {
        vy := 0.0;
      }
      vx := vx * FloorFriction;
      spin := spin * FloorSpinDrag;
    }
    // walls
    if x < 0.0 { x := 0.0; vx := vx * -WallRestitution; }
    if x > width { x := width; vx := vx * -WallRestitution; }
  }

  /** updateMechaPhysics: a held tool is left alone; any other tool falls,
      bounces or settles on the floor and is kept between the walls. */
  method UpdateMechaPhysics(obj: MechaObject, width: real, height: real) returns (o: MechaObject)
    ensures o == MechaStep(obj, width, height)
  {
    if obj.isGrabbed {
      return obj;
    }
    var x, y, vx, vy, angle, spin := MechaFields(obj.x, obj.y, obj.vx, obj.vy, obj.angle,
                                                 obj.angularVelocity, obj.scale, width, height);
    o := obj.(x := x, y := y, vx := vx, vy := vy, angle := angle, angularVelocity := spin);
  }
}
