/** The state the gesture canvas keeps between camera frames
    (components/GestureCanvas.tsx): the cursor, the previous cursor
    position, the missed-frame counter, the SHAPES bodies and the ROBOT
    tools with their grabbed ids. FrameStep is one frame as a value; the
    class GestureCanvas runs the same frame in place. */
module Canvas {
  import opened Types
  import opened Physics
  import opened Gestures

  /** The cursor fields the frame logic reads and writes. */
  datatype Cursor = Cursor(
    x: real, y: real,
    pinching: bool,
    visible: bool,
    pinchVal: real,
    tilt: real,
    fistStrength: real)

  /** What one detected hand contributes to a frame, already reduced from
      the 21 landmarks: the wrist and the knuckle centroid (index, middle
      and little-finger knuckles) in normalised camera coordinates, the
      average fingertip-to-wrist distance, the thumb-to-index distance and
      the wrist-to-middle-tip height, both divided by the hand scale, and
      the roll angle plus a quarter turn. */
  datatype HandSample = HandSample(
    wrist: Point,
    knuckleMid: Point,
    avgTipDistance: real,
    pinchRatio: real,
    tiltRatio: real,
    rollTarget: real)

  /** Frames without a hand after which the cursor is hidden. */
  const MissedFrameLimit: nat := 8
  const PlaygroundMinAlpha: real := 0.12
  const BrowseMinAlpha: real := 0.05
  const CursorMaxAlpha: real := 0.75
  const PinchSmoothing: real := 0.3
  const TiltSmoothing: real := 0.15

  /** The cursor after a frame that saw a hand. */
  function TrackHand(c: Cursor, h: HandSample, width: real, height: real, minAlpha: real,
                     ext: Externals): (r: Cursor)
    ensures r.visible
    ensures r.pinching <==> r.pinchVal < PinchOn
    ensures r.pinchVal == ext.smoothScalar(c.pinchVal, h.pinchRatio, PinchSmoothing)
    ensures r.tilt == ext.smoothScalar(c.tilt, h.tiltRatio, TiltSmoothing)
    ensures 0.0 <= r.fistStrength <= 1.0 && r.fistStrength == FistStrength(h.avgTipDistance)
    // the cursor is the adaptive smoothing of its old position towards the
    // safe-zone target, with the 0.75 upper blend
    ensures Point(r.x, r.y) ==
      SmoothPointAdaptive(Point(c.x, c.y), CursorTarget(h.knuckleMid, h.wrist, width, height),
                          minAlpha, CursorMaxAlpha)
    // the cursor moves towards the target and never past it
    ensures 0.0 <= minAlpha <= CursorMaxAlpha ==>
      var target := CursorTarget(h.knuckleMid, h.wrist, width, height);
      && Between(c.x, r.x, target.x) && Between(c.y, r.y, target.y)
      && DistSq(Point(r.x, r.y), target) <= DistSq(Point(c.x, c.y), target)
  {
    var target := CursorTarget(h.knuckleMid, h.wrist, width, height);
    var p := SmoothPointAdaptive(Point(c.x, c.y), target, minAlpha, CursorMaxAlpha);
    var pinchVal := ext.smoothScalar(c.pinchVal, h.pinchRatio, PinchSmoothing);
    if 0.0 <= minAlpha <= CursorMaxAlpha then
      AdaptiveNoOvershoot(Point(c.x, c.y), target, minAlpha, CursorMaxAlpha);
      Cursor(p.x, p.y, pinchVal < PinchOn, true, pinchVal,
             ext.smoothScalar(c.tilt, h.tiltRatio, TiltSmoothing), FistStrength(h.avgTipDistance))
    else
      Cursor(p.x, p.y, pinchVal < PinchOn, true, pinchVal,
             ext.smoothScalar(c.tilt, h.tiltRatio, TiltSmoothing), FistStrength(h.avgTipDistance))
  }

  /** Everything the canvas keeps between frames. */
  datatype CanvasState = CanvasState(
    mode: ScreenMode,
    activity: PlaygroundActivity,
    cursor: Cursor,
    prev: Point,
    missedFrames: nat,
    landmarksKept: bool,
    objects: seq<PhysicsObject>,
    grabbedObjectId: Option<int>,
    mecha: seq<MechaObject>,
    grabbedMechaId: Option<int>)

  datatype FrameResult = FrameResult(state: CanvasState, published: Option<CursorData>)

  /** Both grab states are consistent. */
  predicate GrabsConsistent(s: CanvasState)
  {
    ShapesConsistent(s.objects, s.grabbedObjectId) && MechaConsistent(s.mecha, s.grabbedMechaId)
  }

  /** updatePhysics on every body. */
  function StepBodies(objs: seq<PhysicsObject>, width: real, height: real): (r: seq<PhysicsObject>)
    ensures |r| == |objs|
    ensures forall i :: 0 <= i < |objs| ==> r[i] == PhysicsStep(objs[i], width, height)
  {
    seq(|objs|, i requires 0 <= i < |objs| => PhysicsStep(objs[i], width, height))
  }

  /** updateMechaPhysics on every tool. */
  function StepTools(objs: seq<MechaObject>, width: real, height: real): (r: seq<MechaObject>)
    ensures |r| == |objs|
    ensures forall i :: 0 <= i < |objs| ==> r[i] == MechaStep(objs[i], width, height)
  {
    seq(|objs|, i requires 0 <= i < |objs| => MechaStep(objs[i], width, height))
  }

  /** The cursor tracked from a hand sample, with the miss count reset. */
  function Tracked(s: CanvasState, h: HandSample, width: real, height: real, ext: Externals): CanvasState
  {
    var minAlpha := if s.mode == Browse then BrowseMinAlpha else PlaygroundMinAlpha;
    s.(cursor := TrackHand(s.cursor, h, width, height, minAlpha, ext), missedFrames := 0,
       landmarksKept := true)
  }

  /** The grab logic of the current activity, run with the tracked cursor. */
  function Grabbed(s: CanvasState, h: HandSample, width: real, height: real, ext: Externals): CanvasState
  {
    var at := Point(s.cursor.x, s.cursor.y);
    if s.mode != Playground then s
    else if s.activity == Shapes then
      var p := ShapesPass(s.objects, s.grabbedObjectId, at, s.prev, s.cursor.pinching);
      s.(objects := p.0, grabbedObjectId := p.1)
    else if s.activity == Robot then
      var p := RobotPass(s.mecha, s.grabbedMechaId, HandPosition(h.knuckleMid, width, height),
                         s.cursor.fistStrength, at, s.prev, h.rollTarget, ext);
      s.(mecha := p.0, grabbedMechaId := p.1)
    else s
  }

  /** A frame that saw a hand, up to and including the activity logic and
      the new previous-cursor position. */
  function Sighted(s: CanvasState, h: HandSample, width: real, height: real, ext: Externals): CanvasState
  {
    var s2 := Grabbed(Tracked(s, h, width, height, ext), h, width, height, ext);
    s2.(prev := Point(s2.cursor.x, s2.cursor.y))
  }

  /** A frame without a hand. */
  function Missed(s: CanvasState): (r: CanvasState)
    ensures r.missedFrames == s.missedFrames + 1
    ensures r.cursor.visible <==> s.cursor.visible && r.missedFrames <= MissedFrameLimit
    ensures r.landmarksKept <==> s.landmarksKept && r.missedFrames <= MissedFrameLimit
    ensures r == s.(missedFrames := r.missedFrames, cursor := r.cursor, landmarksKept := r.landmarksKept)
    ensures r.cursor == s.cursor.(visible := r.cursor.visible)
  {
    var n := s.missedFrames + 1;
    if n > MissedFrameLimit then
      s.(missedFrames := n, cursor := s.cursor.(visible := false), landmarksKept := false)
    else s.(missedFrames := n)
  }

  /** The physics pass at the end of every playground frame. */
  function StepWorld(s: CanvasState, width: real, height: real): CanvasState
  {
    if s.mode != Playground then s
    else if s.activity == Shapes then s.(objects := StepBodies(s.objects, width, height))
    else if s.activity == Robot then s.(mecha := StepTools(s.mecha, width, height))
    else s
  }

  /** What the canvas publishes after a frame that saw a hand. */
  function Publish(c: Cursor, now: real): CursorData
  {
    CursorData(c.x, c.y, c.pinching, Open, c.pinchVal, now, c.tilt)
  }

  /** One frame of predictWebcam. In BROWSE mode nothing happens. */
  function FrameStep(s: CanvasState, hand: Option<HandSample>, width: real, height: real,
                     now: real, ext: Externals): (r: FrameResult)
    ensures r.state.mode == s.mode && r.state.activity == s.activity
    ensures s.mode == Browse ==> r == FrameResult(s, None)
    ensures s.mode == Playground && hand.Some? ==>
      && r.state.missedFrames == 0 && r.state.cursor.visible && r.state.landmarksKept
      && r.state.prev == Point(r.state.cursor.x, r.state.cursor.y)
      && r.published == Some(Publish(r.state.cursor, now))
    ensures s.mode == Playground && hand.None? ==>
      && r.state.missedFrames == s.missedFrames + 1
      && (r.state.cursor.visible <==> s.cursor.visible && r.state.missedFrames <= MissedFrameLimit)
      && r.state.cursor == s.cursor.(visible := r.state.cursor.visible)
      && r.published == None
    // a sighting: the tracked cursor drives the current activity's grab pass,
    // then its physics pass; the other activity is left alone
    ensures s.mode == Playground && hand.Some? ==>
      var h := hand.value;
      var c := TrackHand(s.cursor, h, width, height, PlaygroundMinAlpha, ext);
      && r.state.cursor == c
      && (s.activity == Shapes ==>
            var p := ShapesPass(s.objects, s.grabbedObjectId, Point(c.x, c.y), s.prev, c.pinching);
            && r.state.objects == StepBodies(p.0, width, height) && r.state.grabbedObjectId == p.1
            && r.state.mecha == s.mecha && r.state.grabbedMechaId == s.grabbedMechaId)
      && (s.activity == Robot ==>
            var p := RobotPass(s.mecha, s.grabbedMechaId, HandPosition(h.knuckleMid, width, height),
                               c.fistStrength, Point(c.x, c.y), s.prev, h.rollTarget, ext);
            && r.state.mecha == StepTools(p.0, width, height) && r.state.grabbedMechaId == p.1
            && r.state.objects == s.objects && r.state.grabbedObjectId == s.grabbedObjectId)
      && (s.activity == Studio3D ==>
            && r.state.objects == s.objects && r.state.grabbedObjectId == s.grabbedObjectId
            && r.state.mecha == s.mecha && r.state.grabbedMechaId == s.grabbedMechaId)
    // a miss: no grab logic runs and the previous cursor is kept, but the
    // current activity's physics pass still runs
    ensures s.mode == Playground && hand.None? ==>
      && r.state.prev == s.prev
      && r.state.grabbedObjectId == s.grabbedObjectId && r.state.grabbedMechaId == s.grabbedMechaId
      && r.state.objects == (if s.activity == Shapes then StepBodies(s.objects, width, height) else s.objects)
      && r.state.mecha == (if s.activity == Robot then StepTools(s.mecha, width, height) else s.mecha)
  {
    if s.mode == Browse then FrameResult(s, None)
    else
      match hand
      case Some(h) =>
        var s1 := Sighted(s, h, width, height, ext);
        FrameResult(StepWorld(s1, width, height), Some(Publish(s1.cursor, now)))
      case None =>
        FrameResult(StepWorld(Missed(s), width, height), None)
  }

  lemma StepBodiesKeepsConsistency(objs: seq<PhysicsObject>, holder: Option<int>, width: real, height: real)
    requires ShapesConsistent(objs, holder)
    ensures ShapesConsistent(StepBodies(objs, width, height), holder)
  {
    var r := StepBodies(objs, width, height);
    assert Project(r, BodyId) == Project(objs, BodyId);
    assert Project(r, BodyHeld) == Project(objs, BodyHeld);
  }

  lemma StepToolsKeepsConsistency(objs: seq<MechaObject>, holder: Option<int>, width: real, height: real)
    requires MechaConsistent(objs, holder)
    ensures MechaConsistent(StepTools(objs, width, height), holder)
  {
    var r := StepTools(objs, width, height);
    assert Project(r, ToolId) == Project(objs, ToolId);
    assert Project(r, ToolHeld) == Project(objs, ToolHeld);
  }

  /** Every frame keeps both grab states consistent, so at most one body and
      at most one tool is ever held. */
  lemma FrameKeepsConsistency(s: CanvasState, hand: Option<HandSample>, width: real, height: real,
                              now: real, ext: Externals)
    requires GrabsConsistent(s)
    ensures GrabsConsistent(FrameStep(s, hand, width, height, now, ext).state)
  {
    if s.mode == Playground {
      var s1 := if hand.Some? then Sighted(s, hand.value, width, height, ext) else Missed(s);
      if hand.Some? && s.activity == Shapes {
        var c := s1.cursor;
        assert s.objects + [] == s.objects;
        ShapesPassKeepsConsistency(s.objects, [], s.grabbedObjectId, Point(c.x, c.y), s.prev, c.pinching);
        var p := ShapesPass(s.objects, s.grabbedObjectId, Point(c.x, c.y), s.prev, c.pinching);
        assert p.0 + [] == p.0;
      } else if hand.Some? && s.activity == Robot {
        var h := hand.value;
        var c := s1.cursor;
        var at := HandPosition(h.knuckleMid, width, height);
        assert s.mecha + [] == s.mecha;
        RobotPassKeepsConsistency(s.mecha, [], s.grabbedMechaId, at, c.fistStrength,
                                  Point(c.x, c.y), s.prev, h.rollTarget, ext);
        var p := RobotPass(s.mecha, s.grabbedMechaId, at, c.fistStrength, Point(c.x, c.y),
                           s.prev, h.rollTarget, ext);
        assert p.0 + [] == p.0;
      }
      assert GrabsConsistent(s1);
      StepBodiesKeepsConsistency(s1.objects, s1.grabbedObjectId, width, height);
      StepToolsKeepsConsistency(s1.mecha, s1.grabbedMechaId, width, height);
    }
  }

  /** n playground frames in a row without a hand. */
  function MissedRun(s: CanvasState, n: nat, width: real, height: real, now: real, ext: Externals)
    : CanvasState
  {
    if n == 0 then s
    else FrameStep(MissedRun(s, n - 1, width, height, now, ext), None, width, height, now, ext).state
  }

  /** The missed-frame tolerance: after n frames without a hand the counter
      has grown by n, and the cursor stays as visible as it was until the
      counter passes 8. */
  lemma {:induction false} MissedRunHidesAfterLimit(s: CanvasState, n: nat, width: real, height: real,
                                                    now: real, ext: Externals)
    requires s.mode == Playground
    requires s.cursor.visible ==> s.missedFrames <= MissedFrameLimit
    ensures var r := MissedRun(s, n, width, height, now, ext);
      && r.mode == Playground
      && r.missedFrames == s.missedFrames + n
      && (r.cursor.visible <==> s.cursor.visible && s.missedFrames + n <= MissedFrameLimit)
      && Point(r.cursor.x, r.cursor.y) == Point(s.cursor.x, s.cursor.y)
  {
    if n > 0 {
      MissedRunHidesAfterLimit(s, n - 1, width, height, now, ext);
    }
  }

  /** A frame that sees a hand after any run of misses shows the cursor
      again and restarts the count. */
  lemma SightingResetsCount(s: CanvasState, h: HandSample, width: real, height: real,
                            now: real, ext: Externals)
    requires s.mode == Playground
    ensures var r := FrameStep(s, Some(h), width, height, now, ext).state;
      r.missedFrames == 0 && r.cursor.visible
  {
  }

  /** The throw as one frame sees it: when a SHAPES frame sees a hand that
      no longer pinches, the held body is let go with 0.9 of the movement
      from the previous cursor to the newly tracked cursor as its velocity,
      and then takes the physics step; nothing is held afterwards. */
  lemma FrameThrowsHeldBody(s: CanvasState, h: HandSample, width: real, height: real,
                            now: real, ext: Externals, k: int)
    requires s.mode == Playground && s.activity == Shapes
    requires ShapesConsistent(s.objects, s.grabbedObjectId)
    requires 0 <= k < |s.objects| && s.grabbedObjectId == Some(s.objects[k].id)
    requires ext.smoothScalar(s.cursor.pinchVal, h.pinchRatio, PinchSmoothing) >= PinchOn
    ensures var c := TrackHand(s.cursor, h, width, height, PlaygroundMinAlpha, ext);
      var r := FrameStep(s, Some(h), width, height, now, ext).state;
      && r.grabbedObjectId == None
      && r.objects[k] == PhysicsStep(s.objects[k].(isGrabbed := false,
                                                   vx := (c.x - s.prev.x) * ThrowScale,
                                                   vy := (c.y - s.prev.y) * ThrowScale),
                                     width, height)
  {
    var c := TrackHand(s.cursor, h, width, height, PlaygroundMinAlpha, ext);
    var objs := s.objects;
    ShapesConsistentDistinct(objs, s.grabbedObjectId);
    var p := ShapesPass(objs, s.grabbedObjectId, Point(c.x, c.y), s.prev, c.pinching);
    ShapesPassThrows(objs, s.grabbedObjectId, Point(c.x, c.y), s.prev, k);
    var r := FrameStep(s, Some(h), width, height, now, ext).state;
    assert r.objects == StepBodies(p.0, width, height) && r.grabbedObjectId == p.1;
    assert r.objects[k] == PhysicsStep(p.0[k], width, height);
  }

  /** The pass over one more body is the pass over the prefix followed by
      the step on that body. */
  lemma ShapesPassSnoc(s: seq<PhysicsObject>, i: nat, holder: Option<int>, cursor: Point, prev: Point,
                       pinching: bool)
    requires i < |s|
    ensures var front := ShapesPass(s[..i], holder, cursor, prev, pinching);
      var t := ShapesStep(s[i], front.1, cursor, prev, pinching);
      ShapesPass(s[..i + 1], holder, cursor, prev, pinching) == (front.0 + [t.obj], t.holder)
  {
    assert s[..i + 1][..i] == s[..i];
  }

  lemma RobotPassSnoc(s: seq<MechaObject>, i: nat, holder: Option<int>, hand: Point, fist: real,
                      cursor: Point, prev: Point, rollTarget: real, ext: Externals)
    requires i < |s|
    ensures var front := RobotPass(s[..i], holder, hand, fist, cursor, prev, rollTarget, ext);
      var t := RobotStep(s[i], front.1, hand, fist, cursor, prev, rollTarget, ext);
      RobotPass(s[..i + 1], holder, hand, fist, cursor, prev, rollTarget, ext) == (front.0 + [t.obj], t.holder)
  {
    assert s[..i + 1][..i] == s[..i];
  }

  /** Replacing the first element after a finished prefix extends the
      prefix by one. */
  lemma SpliceAt<T>(done: seq<T>, rest: seq<T>, x: T)
    requires rest != []
    ensures (done + rest)[|done| := x] == (done + [x]) + rest[1..]
  {
    assert forall k :: 0 <= k < |done| + |rest| ==>
      (done + rest)[|done| := x][k] == ((done + [x]) + rest[1..])[k];
  }

  /** The canvas: refs of the source become fields updated in place. */
  class GestureCanvas {
    var mode: ScreenMode
    var activity: PlaygroundActivity
    var cursor: Cursor
    var prev: Point
    var missedFrames: nat
    var landmarksKept: bool
    var objects: seq<PhysicsObject>
    var grabbedObjectId: Option<int>
    var mecha: seq<MechaObject>
    var grabbedMechaId: Option<int>

    function State(): CanvasState
      reads this
    {
      CanvasState(mode, activity, cursor, prev, missedFrames, landmarksKept,
                  objects, grabbedObjectId, mecha, grabbedMechaId)
    }

    predicate Valid()
      reads this
    {
      GrabsConsistent(State())
    }

    /** The three starting bodies at 30%, 50% and 70% of the width, the
        cursor hidden at (0.5, 0.5) with the pinch value 1, no tools. */
    constructor(width: real, height: real, mode: ScreenMode, activity: PlaygroundActivity)
      ensures Valid()
      ensures this.mode == mode && this.activity == activity
      ensures cursor == Cursor(0.5, 0.5, false, false, 1.0, 0.0, 0.0)
      ensures prev == Point(0.5, 0.5) && missedFrames == 0 && !landmarksKept
      ensures |objects| == 3 && mecha == []
      ensures grabbedObjectId == None && grabbedMechaId == None
    {
      this.mode := mode;
      this.activity := activity;
      cursor := Cursor(0.5, 0.5, false, false, 1.0, 0.0, 0.0);
      prev := Point(0.5, 0.5);
      missedFrames := 0;
      landmarksKept := false;
      objects := [
        PhysicsObject(1, width * 0.3, height * 0.5, 0.0, 0.0, 50.0, Orb, false, false, 1.0, 0.97, 0.85),
        PhysicsObject(2, width * 0.5, height * 0.5, 0.0, 0.0, 55.0, Cube, false, false, 1.5, 0.95, 0.6),
        PhysicsObject(3, width * 0.7, height * 0.5, 0.0, 0.0, 50.0, Pyramid, false, false, 0.8, 0.98, 0.9)
      ];
      grabbedObjectId := None;
      mecha := [];
      grabbedMechaId := None;
    }

    /** spawnMechaObject: a new tool at the top middle of the canvas; the id,
        the initial horizontal speed and spin come from the caller. */
    method SpawnMecha(kind: MechaObjectType, id: int, width: real, vx: real, spin: real)
      modifies this`mecha
      ensures mecha == old(mecha) + [MechaObject(id, kind, width / 2.0, 100.0, vx, 0.0, 0.0, spin,
                                                 false, if kind == Katana then 2.5 else 2.0)]
      ensures (&& old(Valid()) && id != 0 && grabbedMechaId != Some(id)
               && forall i :: 0 <= i < |old(mecha)| ==> old(mecha)[i].id != id)
              ==> Valid()
    {
      var scale := if kind == Katana then 2.5 else 2.0;
      var obj := MechaObject(id, kind, width / 2.0, 100.0, vx, 0.0, 0.0, spin, false, scale);
      ghost var before := mecha;
      mecha := mecha + [obj];
      var ids := Project(mecha, ToolId);
      assert ids == Project(before, ToolId) + [id];
      assert Project(mecha, ToolHeld) == Project(before, ToolHeld) + [false];
      if old(Valid()) && id != 0 && grabbedMechaId != Some(id)
         && (forall k :: 0 <= k < |before| ==> before[k].id != id) {
        forall i, j | 0 <= i < j < |ids|
          ensures ids[i] != ids[j]
        {
          if j == |before| {
            assert ids[i] == before[i].id;
          } else {
            assert ids[i] == Project(before, ToolId)[i] && ids[j] == Project(before, ToolId)[j];
          }
        }
      }
    }

    /** The SHAPES rules on body i. */
    method TouchBody(i: nat)
      requires i < |objects|
      modifies this`objects, this`grabbedObjectId
      ensures var t := ShapesStep(old(objects)[i], old(grabbedObjectId),
                                  Point(cursor.x, cursor.y), prev, cursor.pinching);
        objects == old(objects)[i := t.obj] && grabbedObjectId == t.holder
    {
      var obj := objects[i];
      var at := Point(cursor.x, cursor.y);
      if cursor.pinching && Within(at, Point(obj.x, obj.y), obj.radius + GrabReach)
         && NoGrab(grabbedObjectId) {
        grabbedObjectId := Some(obj.id);
        obj := obj.(isGrabbed := true);
      }
      if !cursor.pinching && grabbedObjectId == Some(obj.id) {
        obj := obj.(isGrabbed := false);
        grabbedObjectId := None;
        obj := obj.(vx := (cursor.x - prev.x) * ThrowScale, vy := (cursor.y - prev.y) * ThrowScale);
      }
      if obj.isGrabbed {
        obj := obj.(x := obj.x + (cursor.x - obj.x) * ShapesFollow,
                    y := obj.y + (cursor.y - obj.y) * ShapesFollow,
                    vx := 0.0, vy := 0.0);
      }
      objects := objects[i := obj];
    }

    /** The SHAPES loop over all bodies, in list order. */
    method TouchBodies()
      modifies this`objects, this`grabbedObjectId
      ensures var p := ShapesPass(old(objects), old(grabbedObjectId),
                                  Point(cursor.x, cursor.y), prev, cursor.pinching);
        objects == p.0 && grabbedObjectId == p.1
    {
      ghost var s0, g0 := objects, grabbedObjectId;
      ghost var at, before, pinching := Point(cursor.x, cursor.y), prev, cursor.pinching;
      var i := 0;
      while i < |objects|
        invariant 0 <= i <= |s0| == |objects|
        invariant at == Point(cursor.x, cursor.y) && before == prev && pinching == cursor.pinching
        invariant objects == ShapesPass(s0[..i], g0, at, before, pinching).0 + s0[i..]
        invariant grabbedObjectId == ShapesPass(s0[..i], g0, at, before, pinching).1
      {
        ghost var done := ShapesPass(s0[..i], g0, at, before, pinching).0;
        ShapesPassSnoc(s0, i, g0, at, before, pinching);
        assert objects[i] == s0[i];
        TouchBody(i);
        SpliceAt(done, s0[i..], objects[i]);
        assert s0[i..][1..] == s0[i + 1..];
        i := i + 1;
      }
      assert s0[..i] == s0;
    }

    /** The ROBOT rules on tool i. */
    method TouchTool(i: nat, hand: Point, rollTarget: real, ext: Externals)
      requires i < |mecha|
      modifies this`mecha, this`grabbedMechaId
      ensures var t := RobotStep(old(mecha)[i], old(grabbedMechaId), hand, cursor.fistStrength,
                                 Point(cursor.x, cursor.y), prev, rollTarget, ext);
        mecha == old(mecha)[i := t.obj] && grabbedMechaId == t.holder
    {
      var obj := mecha[i];
      var near := Within(hand, Point(obj.x, obj.y), RobotReach);
      var touching := Within(hand, Point(obj.x, obj.y), PushReach);
      var push := ext.push(obj.x - hand.x, obj.y - hand.y);
      if cursor.fistStrength > FistGrab && near && NoGrab(grabbedMechaId) {
        grabbedMechaId := Some(obj.id);
        obj := obj.(isGrabbed := true);
      }
      if cursor.fistStrength < FistRelease && grabbedMechaId == Some(obj.id) {
        obj := obj.(isGrabbed := false);
        grabbedMechaId := None;
        var vx := cursor.x - prev.x;
        var vy := cursor.y - prev.y;
        vx := Max(-MaxThrow, Min(MaxThrow, vx));
        vy := Max(-MaxThrow, Min(MaxThrow, vy));
        obj := obj.(vx := vx, vy := vy, angularVelocity := ext.spin);
      }
      if !obj.isGrabbed && touching {
        obj := obj.(vx := obj.vx + push.x, vy := obj.vy + push.y);
      }
      if obj.isGrabbed {
        obj := obj.(x := obj.x + (hand.x - obj.x) * RobotFollow,
                    y := obj.y + (hand.y - obj.y) * RobotFollow,
                    angle := ext.smoothScalar(obj.angle, rollTarget, 0.2),
                    vx := 0.0, vy := 0.0, angularVelocity := 0.0);
      }
      mecha := mecha[i := obj];
    }

    /** The ROBOT loop over all tools, in list order. */
    method TouchTools(hand: Point, rollTarget: real, ext: Externals)
      modifies this`mecha, this`grabbedMechaId
      ensures var p := RobotPass(old(mecha), old(grabbedMechaId), hand, cursor.fistStrength,
                                 Point(cursor.x, cursor.y), prev, rollTarget, ext);
        mecha == p.0 && grabbedMechaId == p.1
    {
      ghost var s0, g0 := mecha, grabbedMechaId;
      ghost var at, before, fist := Point(cursor.x, cursor.y), prev, cursor.fistStrength;
      var i := 0;
      while i < |mecha|
        invariant 0 <= i <= |s0| == |mecha|
        invariant at == Point(cursor.x, cursor.y) && before == prev && fist == cursor.fistStrength
        invariant mecha == RobotPass(s0[..i], g0, hand, fist, at, before, rollTarget, ext).0 + s0[i..]
        invariant grabbedMechaId == RobotPass(s0[..i], g0, hand, fist, at, before, rollTarget, ext).1
      {
        ghost var done := RobotPass(s0[..i], g0, hand, fist, at, before, rollTarget, ext).0;
        RobotPassSnoc(s0, i, g0, hand, fist, at, before, rollTarget, ext);
        assert mecha[i] == s0[i];
        TouchTool(i, hand, rollTarget, ext);
        SpliceAt(done, s0[i..], mecha[i]);
        assert s0[i..][1..] == s0[i + 1..];
        i := i + 1;
      }
      assert s0[..i] == s0;
    }

    /** updatePhysics on every body, in place. */
    method StepAllBodies(width: real, height: real)
      modifies this`objects
      ensures objects == StepBodies(old(objects), width, height)
    {
      var i := 0;
      while i < |objects|
        invariant 0 <= i <= |objects| == |old(objects)|
        invariant forall j :: 0 <= j < i ==> objects[j] == PhysicsStep(old(objects)[j], width, height)
        invariant objects[i..] == old(objects)[i..]
      {
        assert objects[i] == old(objects)[i];
        var o := UpdatePhysics(objects[i], width, height);
        objects := objects[i := o];
        i := i + 1;
      }
      assert objects == StepBodies(old(objects), width, height);
    }

    /** updateMechaPhysics on every tool, in place. */
    method StepAllTools(width: real, height: real)
      modifies this`mecha
      ensures mecha == StepTools(old(mecha), width, height)
    {
      var i := 0;
      while i < |mecha|
        invariant 0 <= i <= |mecha| == |old(mecha)|
        invariant forall j :: 0 <= j < i ==> mecha[j] == MechaStep(old(mecha)[j], width, height)
        invariant mecha[i..] == old(mecha)[i..]
      {
        assert mecha[i] == old(mecha)[i];
        var o := UpdateMechaPhysics(mecha[i], width, height);
        mecha := mecha[i := o];
        i := i + 1;
      }
      assert mecha == StepTools(old(mecha), width, height);
    }

    /** Lines 154-189: the cursor fields updated from one hand sample. */
    method TrackCursor(h: HandSample, width: real, height: real, minAlpha: real, ext: Externals)
      modifies this`cursor
      ensures cursor == TrackHand(old(cursor), h, width, height, minAlpha, ext)
    {
      cursor := cursor.(tilt := ext.smoothScalar(cursor.tilt, h.tiltRatio, TiltSmoothing));
      var target := CursorTarget(h.knuckleMid, h.wrist, width, height);
      var smoothed := SmoothPointAdaptive(Point(cursor.x, cursor.y), target, minAlpha, CursorMaxAlpha);
      cursor := cursor.(x := smoothed.x, y := smoothed.y);
      cursor := cursor.(fistStrength := FistStrength(h.avgTipDistance));
      cursor := cursor.(pinchVal := ext.smoothScalar(cursor.pinchVal, h.pinchRatio, PinchSmoothing));
      cursor := cursor.(pinching := cursor.pinchVal < PinchOn);
      cursor := cursor.(visible := true);
    }

    /** Lines 143-252 of a frame that saw a hand: reset the miss count,
        track the cursor, run the activity's grab logic and remember the
        cursor as the previous position. */
    method SeeHand(h: HandSample, width: real, height: real, ext: Externals)
      modifies this`missedFrames, this`landmarksKept, this`cursor, this`prev
      modifies this`objects, this`grabbedObjectId, this`mecha, this`grabbedMechaId
      ensures State() == Sighted(old(State()), h, width, height, ext)
    {
      missedFrames := 0;
      landmarksKept := true;
      var minAlpha := if mode == Browse then BrowseMinAlpha else PlaygroundMinAlpha;
      TrackCursor(h, width, height, minAlpha, ext);
      assert State() == Tracked(old(State()), h, width, height, ext);
      GrabInPlace(h, width, height, ext);
      prev := Point(cursor.x, cursor.y);
    }

    /** The activity's grab loop with the tracked cursor. */
    method GrabInPlace(h: HandSample, width: real, height: real, ext: Externals)
      modifies this`objects, this`grabbedObjectId, this`mecha, this`grabbedMechaId
      ensures State() == Grabbed(old(State()), h, width, height, ext)
    {
      if mode == Playground {
        if activity == Shapes {
          TouchBodies();
        } else if activity == Robot {
          TouchTools(HandPosition(h.knuckleMid, width, height), h.rollTarget, ext);
        }
      }
    }

    /** Lines 255-258: a frame without a hand. */
    method MissFrame()
      modifies this
      ensures State() == Missed(old(State()))
    {
      missedFrames := missedFrames + 1;
      if missedFrames > MissedFrameLimit {
        cursor := cursor.(visible := false);
        landmarksKept := false;
      }
    }

    /** Lines 261-267: the physics pass of the current activity. */
    method StepWorldInPlace(width: real, height: real)
      modifies this
      ensures State() == StepWorld(old(State()), width, height)
    {
      if mode == Playground {
        if activity == Shapes {
          StepAllBodies(width, height);
        } else if activity == Robot {
          StepAllTools(width, height);
        }
      }
    }

    /** One frame of predictWebcam: track the hand or count a missed frame,
        publish the cursor, then step the activity's physics. In BROWSE mode
        the frame does nothing. */
    method Frame(hand: Option<HandSample>, width: real, height: real, now: real, ext: Externals)
      returns (published: Option<CursorData>)
      requires Valid()
      modifies this
      ensures Valid()
      ensures var r := FrameStep(old(State()), hand, width, height, now, ext);
        State() == r.state && published == r.published
    {
      FrameKeepsConsistency(State(), hand, width, height, now, ext);
      if mode == Browse {
        return None;
      }
      match hand {
        case Some(h) =>
          SeeHand(h, width, height, ext);
          published := Some(Publish(cursor, now));
        case None =>
          MissFrame();
          published := None;
      }
      StepWorldInPlace(width, height);
    }
  }
}
