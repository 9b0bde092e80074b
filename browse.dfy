/** The pinch effect of the browse screen (components/BrowseScreen.tsx,
    lines 234-437): one run per cursor sample turns pinches into resizes,
    drags, clicks and double clicks on the tabs. EffectStep is one run as a
    value; the class BrowseScreen runs it in place on its refs and state. */
module Browse {
  import opened Types
  import opened Tabs

  /** pinchStateRef. */
  datatype PinchState = PinchState(wasPinching: bool, pinchStartTime: real,
                                   startX: real, startY: real, lastClickTime: real)

  /** The tab state, the resize flag and the three refs the effect keeps. */
  datatype BrowseState = BrowseState(
    desk: Desk,
    isResizing: bool,
    drag: Option<DragSession>,
    resize: Option<ResizeSession>,
    pinch: PinchState)

  datatype EffectResult = EffectResult(state: BrowseState, release: Release)

  function InitialBrowse(screenW: real, screenH: real): BrowseState
  {
    BrowseState(InitialDesk(screenW, screenH), false, None, None, PinchState(false, 0.0, 0.0, 0.0, 0.0))
  }

  /** At most one of drag and resize is open, only while a pinch is held,
      and the resize flag mirrors the resize session. */
  predicate SessionsValid(s: BrowseState)
  {
    && !(s.drag.Some? && s.resize.Some?)
    && (s.drag.Some? || s.resize.Some? ==> s.pinch.wasPinching)
    && (s.isResizing <==> s.resize.Some?)
  }

  /** The tabs are ordered and the sessions are consistent. */
  predicate Consistent(s: BrowseState)
  {
    Ordered(s.desk) && SessionsValid(s)
  }

  lemma InitialBrowseConsistent(screenW: real, screenH: real)
    ensures Consistent(InitialBrowse(screenW, screenH))
  {
  }

  /** Is a committed drag open? (`dragRef.current?.isDragging`) */
  predicate Dragging(s: BrowseState)
  {
    s.drag.Some? && s.drag.value.isDragging
  }

  /** Lines 244-265: on the first frame without a pinch, classify the
      gesture, remember the time of a click, and close every session. */
  function ReleasePhase(s: BrowseState, cd: CursorData): EffectResult
  {
    if s.pinch.wasPinching && !cd.pinching then
      var rel := ClassifyRelease(cd.timestamp - s.pinch.pinchStartTime,
                                 Point(s.pinch.startX, s.pinch.startY), Point(cd.x, cd.y),
                                 Dragging(s), s.resize.Some?, cd.timestamp - s.pinch.lastClickTime);
      var last := if rel.click || rel.doubleClick then cd.timestamp else s.pinch.lastClickTime;
      EffectResult(s.(drag := None, resize := None, isResizing := false,
                      pinch := s.pinch.(lastClickTime := last)), rel)
    else EffectResult(s, Release(false, false))
  }

  /** Bring a tab to the top unless it already is. */
  function RaiseUnlessTop(d: Desk, t: Tab): Desk
  {
    if t.zIndex != d.maxZ then RaiseTab(d, t.id) else d
  }

  /** The session a pinch opens on the handle it takes, with the tab
      brought to the top. */
  function TakeHandle(s: BrowseState, h: Handle, p: Point): BrowseState
  {
    match h
    case ResizeHandle(t) =>
      s.(resize := Some(ResizeSession(t.id, p.x, p.y, t.width, t.height, t.y)),
         isResizing := true, desk := RaiseUnlessTop(s.desk, t))
    case DragHandle(t) =>
      s.(drag := Some(DragSession(t.id, p.x, p.y, t.x, t.y, false)),
         desk := RaiseUnlessTop(s.desk, t))
    case NoHandle => s
  }

  /** Lines 268-320: a new pinch remembers where and when it started and
      takes the handle under the cursor; no pinch clears wasPinching. */
  function StartPhase(s: BrowseState, cd: CursorData): BrowseState
  {
    if cd.pinching && !s.pinch.wasPinching then
      var p := Point(cd.x, cd.y);
      var pinch := s.pinch.(wasPinching := true, pinchStartTime := cd.timestamp,
                            startX := cd.x, startY := cd.y);
      TakeHandle(s.(pinch := pinch), HandleAt(SortByZ(s.desk.tabs), p), p)
    else if !cd.pinching then s.(pinch := s.pinch.(wasPinching := false))
    else s
  }

  /** Lines 323-349: while pinching, an open resize reshapes its tab. */
  function ResizePhase(s: BrowseState, cd: CursorData): BrowseState
  {
    if cd.pinching && s.resize.Some?
    then s.(desk := s.desk.(tabs := ResizeTabs(s.desk.tabs, s.resize.value, Point(cd.x, cd.y))))
    else s
  }

  /** Lines 352-377: while pinching, an open drag advances and, once
      committed, moves its tab. */
  function DragPhase(s: BrowseState, cd: CursorData): BrowseState
  {
    if cd.pinching && s.drag.Some? then
      var p := Point(cd.x, cd.y);
      var g := DragAdvance(s.drag.value, p);
      s.(drag := Some(g), desk := s.desk.(tabs := if g.isDragging then DragTabs(s.desk.tabs, g, p)
                                                  else s.desk.tabs))
    else s
  }

  /** What a click at p lands on: the plus button first, then the topmost
      tab under the cursor. */
  function ClickTargetAt(d: Desk, p: Point, screenW: real, screenH: real): ClickTarget
  {
    if OnPlusButton(p, screenW) then PlusButton else TabHit(SortByZ(d.tabs), p, screenW, screenH)
  }

  /** Lines 380-435: a click or double click acts on what it lands on. */
  function ClickPhase(s: BrowseState, cd: CursorData, rel: Release, newId: int,
                      screenW: real, screenH: real): BrowseState
  {
    if rel.click || rel.doubleClick then
      var target := ClickTargetAt(s.desk, Point(cd.x, cd.y), screenW, screenH);
      s.(desk := ApplyClick(s.desk, target, newId, screenW, screenH))
    else s
  }

  /** One run of the pinch effect for a cursor sample; no sample, no
      change. The new id is the one createTab would take from the clock. */
  function EffectStep(s: BrowseState, cd: Option<CursorData>, newId: int,
                      screenW: real, screenH: real): (r: EffectResult)
    ensures cd.None? ==> r == EffectResult(s, Release(false, false))
    ensures !(r.release.click && r.release.doubleClick)
    ensures r.release.click || r.release.doubleClick ==> cd.Some? && s.pinch.wasPinching && !cd.value.pinching
  {
    match cd
    case None => EffectResult(s, Release(false, false))
    case Some(c) =>
      var rel := ReleasePhase(s, c);
      var s2 := StartPhase(rel.state, c);
      var s3 := DragPhase(ResizePhase(s2, c), c);
      EffectResult(ClickPhase(s3, c, rel.release, newId, screenW, screenH), rel.release)
  }

  // ---------------------------------------------------------------------
  // Properties of one run
  // ---------------------------------------------------------------------

  /** The same ids at the same places. */
  predicate SameIds(a: seq<Tab>, b: seq<Tab>)
  {
    |a| == |b| && forall i :: 0 <= i < |a| ==> a[i].id == b[i].id
  }

  /** Two tab lists with the same ids at the same places hold the same ids. */
  lemma SameIdsHasId(a: seq<Tab>, b: seq<Tab>, id: int)
    requires SameIds(a, b)
    ensures HasId(a, id) <==> HasId(b, id)
  {
    if HasId(a, id) {
      var k :| 0 <= k < |a| && a[k].id == id;
      assert b[k].id == id;
    }
    if HasId(b, id) {
      var k :| 0 <= k < |b| && b[k].id == id;
      assert a[k].id == id;
    }
  }

  lemma StartKeepsConsistency(s: BrowseState, c: CursorData)
    requires Consistent(s)
    ensures var r := StartPhase(ReleasePhase(s, c).state, c);
      Consistent(r) && SameIds(s.desk.tabs, r.desk.tabs)
  {
    var s1 := ReleasePhase(s, c).state;
    if c.pinching && !s1.pinch.wasPinching {
      var h := HandleAt(SortByZ(s1.desk.tabs), Point(c.x, c.y));
      if !h.NoHandle? {
        RaiseOrdered(s1.desk, h.tab.id);
      }
    }
  }

  lemma MoveKeepsConsistency(s: BrowseState, c: CursorData)
    requires Consistent(s)
    ensures var r := DragPhase(ResizePhase(s, c), c);
      Consistent(r) && SameIds(s.desk.tabs, r.desk.tabs)
  {
    var p := Point(c.x, c.y);
    var s1 := ResizePhase(s, c);
    if c.pinching && s.resize.Some? {
      GeometryOrdered(s.desk, s.resize.value, DragSession(0, 0.0, 0.0, 0.0, 0.0, false), p);
    }
    assert Consistent(s1) && SameIds(s.desk.tabs, s1.desk.tabs);
    if c.pinching && s1.drag.Some? {
      GeometryOrdered(s1.desk, ResizeSession(0, 0.0, 0.0, 0.0, 0.0, 0.0), DragAdvance(s1.drag.value, p), p);
    }
  }

  /** Every run keeps the tabs ordered and the sessions consistent, given
      an id no tab has for a tab the run may open. */
  lemma EffectKeepsConsistency(s: BrowseState, cd: Option<CursorData>, newId: int,
                               screenW: real, screenH: real)
    requires Consistent(s) && !HasId(s.desk.tabs, newId)
    ensures Consistent(EffectStep(s, cd, newId, screenW, screenH).state)
  {
    if cd.Some? {
      var c := cd.value;
      var rel := ReleasePhase(s, c);
      var s3 := DragPhase(ResizePhase(StartPhase(rel.state, c), c), c);
      var s2 := StartPhase(rel.state, c);
      StartKeepsConsistency(s, c);
      MoveKeepsConsistency(s2, c);
      SameIdsHasId(s.desk.tabs, s2.desk.tabs, newId);
      SameIdsHasId(s2.desk.tabs, s3.desk.tabs, newId);
      if rel.release.click || rel.release.doubleClick {
        ApplyClickOrdered(s3.desk, ClickTargetAt(s3.desk, Point(c.x, c.y), screenW, screenH),
                          newId, screenW, screenH);
      }
    }
  }

  /** The frame that lets a pinch go closes every session, classifies the
      gesture from its duration, travel and sessions, remembers the time of
      a click, and changes the tabs only by acting on the click's target. */
  lemma ReleaseEndsPinch(s: BrowseState, c: CursorData, newId: int, screenW: real, screenH: real)
    requires s.pinch.wasPinching && !c.pinching
    ensures var r := EffectStep(s, Some(c), newId, screenW, screenH);
      && r.state.drag.None? && r.state.resize.None? && !r.state.isResizing
      && !r.state.pinch.wasPinching
      && r.release == ClassifyRelease(c.timestamp - s.pinch.pinchStartTime,
                                      Point(s.pinch.startX, s.pinch.startY), Point(c.x, c.y),
                                      Dragging(s), s.resize.Some?, c.timestamp - s.pinch.lastClickTime)
      && r.state.pinch.lastClickTime ==
           (if r.release.click || r.release.doubleClick then c.timestamp else s.pinch.lastClickTime)
      && r.state.desk ==
           (if r.release.click || r.release.doubleClick
            then ApplyClick(s.desk, ClickTargetAt(s.desk, Point(c.x, c.y), screenW, screenH),
                            newId, screenW, screenH)
            else s.desk)
  {
  }

  /** A new pinch takes the first handle under the cursor in z order: a
      resize session for a corner, an uncommitted drag for a header, each
      with the tab brought to the top; elsewhere it takes nothing. The
      frame reports no click and moves no tab by dragging. */
  lemma PinchStartTakesHandle(s: BrowseState, c: CursorData, newId: int, screenW: real, screenH: real)
    requires Consistent(s) && c.pinching && !s.pinch.wasPinching
    ensures var r := EffectStep(s, Some(c), newId, screenW, screenH);
      var h := HandleAt(SortByZ(s.desk.tabs), Point(c.x, c.y));
      && r.release == Release(false, false)
      && r.state.pinch == s.pinch.(wasPinching := true, pinchStartTime := c.timestamp,
                                   startX := c.x, startY := c.y)
      && (r.state.resize.Some? <==> h.ResizeHandle?)
      && (r.state.isResizing <==> h.ResizeHandle?)
      && (r.state.drag.Some? <==> h.DragHandle?)
      && (h.ResizeHandle? ==>
            r.state.resize == Some(ResizeSession(h.tab.id, c.x, c.y, h.tab.width, h.tab.height, h.tab.y)))
      && (h.DragHandle? ==>
            && r.state.drag == Some(DragSession(h.tab.id, c.x, c.y, h.tab.x, h.tab.y, false))
            && r.state.desk == RaiseUnlessTop(s.desk, h.tab))
      && (h.NoHandle? ==> r.state.desk == s.desk)
      && (!h.NoHandle? ==>
            forall i :: 0 <= i < |r.state.desk.tabs| && r.state.desk.tabs[i].id == h.tab.id ==>
              r.state.desk.tabs[i].zIndex == r.state.desk.maxZ)
  {
    var p := Point(c.x, c.y);
    var h := HandleAt(SortByZ(s.desk.tabs), p);
    var s2 := StartPhase(s, c);
    var r := EffectStep(s, Some(c), newId, screenW, screenH);
    assert r == EffectResult(DragPhase(ResizePhase(s2, c), c), Release(false, false));
    match h
    case NoHandle =>
      assert r.state == s2;
    case DragHandle(t) =>
      assert t in multiset(SortByZ(s.desk.tabs));
      RaisedIsTop(s.desk, t);
      assert ResizePhase(s2, c) == s2;
      assert DistSq(p, p) == 0.0;
      assert !DragAdvance(s2.drag.value, p).isDragging;
      assert r.state == s2;
    case ResizeHandle(t) =>
      assert t in multiset(SortByZ(s.desk.tabs));
      RaisedIsTop(s.desk, t);
      assert r.state == s2.(desk := s2.desk.(tabs := ResizeTabs(s2.desk.tabs, s2.resize.value, p)));
  }

  /** The tab a pinch takes ends on top whether or not it was raised. */
  lemma RaisedIsTop(d: Desk, t: Tab)
    requires Ordered(d) && t in d.tabs
    ensures var r := RaiseUnlessTop(d, t);
      forall i :: 0 <= i < |r.tabs| && r.tabs[i].id == t.id ==> r.tabs[i].zIndex == r.maxZ
  {
    var k :| 0 <= k < |d.tabs| && d.tabs[k] == t;
    RaiseOrdered(d, t.id);
    var r := RaiseUnlessTop(d, t);
    forall i | 0 <= i < |r.tabs| && r.tabs[i].id == t.id
      ensures r.tabs[i].zIndex == r.maxZ
    {
      if t.zIndex == d.maxZ {
        assert i == k;
      }
    }
  }

  /** While a drag is held it commits once the cursor has travelled more
      than the deadzone and stays committed; a committed drag puts its tab
      at its start position plus the cursor's offset and changes no other
      tab; an uncommitted one changes nothing. */
  lemma DragFollowsCursor(s: BrowseState, c: CursorData, g: DragSession, newId: int,
                           screenW: real, screenH: real)
    requires Consistent(s) && s.drag == Some(g) && s.pinch.wasPinching && c.pinching
    ensures var r := EffectStep(s, Some(c), newId, screenW, screenH);
      var p := Point(c.x, c.y);
      var moved := g.isDragging || Beyond(p, Point(g.startMouseX, g.startMouseY), DragDeadzone);
      && r.release == Release(false, false)
      && (!moved ==> r.state == s)
      && (moved ==>
            && r.state == s.(drag := Some(g.(isDragging := true)), desk := r.state.desk)
            && r.state.desk.maxZ == s.desk.maxZ
            && |r.state.desk.tabs| == |s.desk.tabs|
            && forall i :: 0 <= i < |s.desk.tabs| ==>
                 var t := s.desk.tabs[i];
                 r.state.desk.tabs[i] ==
                   if t.id == g.tabId
                   then t.(x := g.initialTabX + (c.x - g.startMouseX), y := g.initialTabY + (c.y - g.startMouseY))
                   else t)
  {
  }

  /** While a resize is held its tab takes the session's geometry for the
      cursor (Resized) and nothing else changes. */
  lemma ResizeFollowsCursor(s: BrowseState, c: CursorData, rs: ResizeSession, newId: int,
                             screenW: real, screenH: real)
    requires Consistent(s) && s.resize == Some(rs) && s.pinch.wasPinching && c.pinching
    ensures var r := EffectStep(s, Some(c), newId, screenW, screenH);
      && r.release == Release(false, false)
      && r.state == s.(desk := r.state.desk)
      && r.state.desk.maxZ == s.desk.maxZ
      && |r.state.desk.tabs| == |s.desk.tabs|
      && forall i :: 0 <= i < |s.desk.tabs| ==>
           var t := s.desk.tabs[i];
           r.state.desk.tabs[i] == if t.id == rs.tabId then Resized(t, rs, Point(c.x, c.y)) else t
  {
  }

  lemma ResizeTabsIdempotent(tabs: seq<Tab>, rs: ResizeSession, p: Point)
    ensures ResizeTabs(ResizeTabs(tabs, rs, p), rs, p) == ResizeTabs(tabs, rs, p)
  {
  }

  lemma DragTabsIdempotent(tabs: seq<Tab>, g: DragSession, p: Point)
    ensures DragTabs(DragTabs(tabs, g, p), g, p) == DragTabs(tabs, g, p)
  {
  }

  /** The effect also re-runs when the tabs or the counter change with the
      same cursor sample; such a re-run reports nothing and changes
      nothing, so one run per sample is the whole behaviour. */
  lemma EffectRerunChangesNothing(s: BrowseState, c: CursorData, newId: int, laterId: int,
                                  screenW: real, screenH: real)
    requires Consistent(s)
    ensures var r := EffectStep(s, Some(c), newId, screenW, screenH).state;
      EffectStep(r, Some(c), laterId, screenW, screenH) == EffectResult(r, Release(false, false))
  {
    var p := Point(c.x, c.y);
    var r := EffectStep(s, Some(c), newId, screenW, screenH).state;
    if c.pinching {
      var s2 := StartPhase(ReleasePhase(s, c).state, c);
      var s25 := ResizePhase(s2, c);
      if s2.resize.Some? {
        ResizeTabsIdempotent(s2.desk.tabs, s2.resize.value, p);
      }
      if s2.drag.Some? {
        var g := DragAdvance(s2.drag.value, p);
        DragTabsIdempotent(s25.desk.tabs, g, p);
      }
    }
  }

  // ---------------------------------------------------------------------
  // The screen's refs and state, updated in place
  // ---------------------------------------------------------------------

  class BrowseScreen {
    var tabs: seq<Tab>
    var maxZ: int
    var isResizing: bool
    var drag: Option<DragSession>
    var resize: Option<ResizeSession>
    var pinch: PinchState

    function State(): BrowseState
      reads this
    {
      BrowseState(Desk(tabs, maxZ), isResizing, drag, resize, pinch)
    }

    predicate Valid()
      reads this
    {
      Consistent(State())
    }

    constructor(screenW: real, screenH: real)
      ensures State() == InitialBrowse(screenW, screenH)
      ensures Valid()
    {
      var d := InitialDesk(screenW, screenH);
      tabs := d.tabs;
      maxZ := d.maxZ;
      isResizing := false;
      drag := None;
      resize := None;
      pinch := PinchState(false, 0.0, 0.0, 0.0, 0.0);
    }

    /** Lines 244-265 in place. */
    method LiftPinch(c: CursorData) returns (rel: Release)
      modifies this`drag, this`resize, this`isResizing, this`pinch
      ensures EffectResult(State(), rel) == ReleasePhase(old(State()), c)
    {
      rel := Release(false, false);
      if pinch.wasPinching && !c.pinching {
        var duration := c.timestamp - pinch.pinchStartTime;
        var click := false;
        var doubleClick := false;
        if duration < ClickMaxDuration && Within(Point(pinch.startX, pinch.startY), Point(c.x, c.y), ClickMaxTravel) {
          if !(drag.Some? && drag.value.isDragging) && resize.None? {
            click := true;
            if c.timestamp - pinch.lastClickTime < DoubleClickWindow {
              doubleClick := true;
              click := false;
            }
            pinch := pinch.(lastClickTime := c.timestamp);
          }
        }
        drag := None;
        resize := None;
        isResizing := false;
        rel := Release(click, doubleClick);
      }
    }

    /** Lines 268-320 in place, with the loop over the z-sorted tabs. */
    method StartPinch(c: CursorData)
      modifies this`tabs, this`maxZ, this`drag, this`resize, this`isResizing, this`pinch
      ensures State() == StartPhase(old(State()), c)
    {
      if c.pinching && !pinch.wasPinching {
        pinch := pinch.(wasPinching := true, pinchStartTime := c.timestamp, startX := c.x, startY := c.y);
        var p := Point(c.x, c.y);
        var h := FindHandle(SortByZ(tabs), p);
        GrabHandle(h, p);
      } else if !c.pinching {
        pinch := pinch.(wasPinching := false);
      }
    }

    /** Open the session for the handle and raise its tab unless it is
        already on top. */
    method GrabHandle(h: Handle, p: Point)
      modifies this`tabs, this`maxZ, this`drag, this`resize, this`isResizing
      ensures State() == TakeHandle(old(State()), h, p)
    {
      if h.NoHandle? {
        return;
      }
      var t := h.tab;
      if h.ResizeHandle? {
        resize := Some(ResizeSession(t.id, p.x, p.y, t.width, t.height, t.y));
        isResizing := true;
      } else {
        drag := Some(DragSession(t.id, p.x, p.y, t.x, t.y, false));
      }
      if t.zIndex != maxZ {
        tabs := RaiseTab(Desk(tabs, maxZ), t.id).tabs;
        maxZ := maxZ + 1;
      }
    }

    /** Lines 323-377 in place. */
    method FollowPinch(c: CursorData)
      modifies this`tabs, this`drag
      ensures State() == DragPhase(ResizePhase(old(State()), c), c)
    {
      var p := Point(c.x, c.y);
      if c.pinching && resize.Some? {
        tabs := ResizeTabs(tabs, resize.value, p);
      }
      if c.pinching && drag.Some? {
        var g := drag.value;
        if !g.isDragging && Beyond(p, Point(g.startMouseX, g.startMouseY), DragDeadzone) {
          g := g.(isDragging := true);
        }
        drag := Some(g);
        if g.isDragging {
          tabs := DragTabs(tabs, g, p);
        }
      }
    }

    /** Lines 380-435 in place, with the loop over the z-sorted tabs. */
    method ClickAt(c: CursorData, rel: Release, newId: int, screenW: real, screenH: real)
      modifies this`tabs, this`maxZ
      ensures State() == ClickPhase(old(State()), c, rel, newId, screenW, screenH)
    {
      if rel.click || rel.doubleClick {
        var p := Point(c.x, c.y);
        var target := PlusButton;
        if !OnPlusButton(p, screenW) {
          target := FindClickTarget(SortByZ(tabs), p, screenW, screenH);
        }
        var d := ApplyClick(Desk(tabs, maxZ), target, newId, screenW, screenH);
        tabs := d.tabs;
        maxZ := d.maxZ;
      }
    }

    /** One run of the effect for a cursor sample; the tabs stay ordered and
        the sessions consistent when a new tab gets an unused id. */
    method OnCursor(cd: Option<CursorData>, newId: int, screenW: real, screenH: real)
      returns (click: bool, doubleClick: bool)
      modifies this
      ensures EffectResult(State(), Release(click, doubleClick)) ==
              EffectStep(old(State()), cd, newId, screenW, screenH)
      ensures old(Valid()) && !HasId(old(tabs), newId) ==> Valid()
    {
      if cd.Some? && old(Valid()) && !HasId(tabs, newId) {
        EffectKeepsConsistency(State(), cd, newId, screenW, screenH);
      }
      click, doubleClick := false, false;
      if cd.None? {
        return;
      }
      var c := cd.value;
      var rel := LiftPinch(c);
      StartPinch(c);
      FollowPinch(c);
      ClickAt(c, rel, newId, screenW, screenH);
      click, doubleClick := rel.click, rel.doubleClick;
    }
  }
}
