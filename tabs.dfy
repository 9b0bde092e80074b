/** The tab/window manager of the browse screen
    (components/BrowseScreen.tsx): the tab record, the panel operations as
    rebuilds of the tab list with the z-order counter, the ordering of tabs
    by z, and the pure hit tests and gesture rules of the pinch effect. The
    effect's own state lives in module Browse. */
module Tabs {
  import opened Types

  /** A browser panel. */
  datatype Tab = Tab(
    id: int,
    x: real, y: real,
    width: real, height: real,
    title: string,
    url: string,
    isMaximized: bool,
    isCollapsed: bool,
    zIndex: int,
    inputValue: string,
    isListening: bool,
    renderKey: int)

  const HomeUrl: string := "https://www.bing.com"
  const NewTabWidth: real := 800.0
  const NewTabHeight: real := 500.0
  /** Offset between successive new tabs. */
  const Cascade: real := 40.0

  /** The list and the z-order counter the operations rebuild together. */
  datatype Desk = Desk(tabs: seq<Tab>, maxZ: int)

  /** The tab the screen starts with. */
  function InitialDesk(screenW: real, screenH: real): Desk
  {
    Desk([Tab(1, screenW * 0.1, screenH * 0.2, NewTabWidth, NewTabHeight, "Bing Search", HomeUrl,
              false, false, 1, "", false, 0)], 1)
  }

  /** Every tab sits at or below the counter, and no two tabs share an id or
      a z value. */
  predicate Ordered(d: Desk)
  {
    && (forall i :: 0 <= i < |d.tabs| ==> d.tabs[i].zIndex <= d.maxZ)
    && (forall i, j :: 0 <= i < j < |d.tabs| ==> d.tabs[i].id != d.tabs[j].id)
    && (forall i, j :: 0 <= i < j < |d.tabs| ==> d.tabs[i].zIndex != d.tabs[j].zIndex)
  }

  lemma InitialDeskOrdered(screenW: real, screenH: real)
    ensures Ordered(InitialDesk(screenW, screenH))
  {
  }

  /** Does the list hold a tab with this id? */
  predicate HasId(tabs: seq<Tab>, id: int)
  {
    exists i :: 0 <= i < |tabs| && tabs[i].id == id
  }

  // ---------------------------------------------------------------------
  // Panel operations
  // ---------------------------------------------------------------------

  /** createTab: a new tab, cascaded 40 pixels per existing tab from 15% of
      the screen, on top of every other tab. */
  function CreateTab(d: Desk, newId: int, screenW: real, screenH: real): (r: Desk)
    ensures r.maxZ == d.maxZ + 1
    ensures |r.tabs| == |d.tabs| + 1 && r.tabs[..|d.tabs|] == d.tabs
    ensures var t := r.tabs[|d.tabs|];
      && t.id == newId && t.zIndex == d.maxZ + 1
      && !t.isMaximized && !t.isCollapsed && t.renderKey == 0
      && t.width == NewTabWidth && t.height == NewTabHeight
  {
    var n := |d.tabs| as real;
    var t := Tab(newId, screenW * 0.15 + n * Cascade, screenH * 0.15 + n * Cascade,
                 NewTabWidth, NewTabHeight, "New Tab", HomeUrl, false, false, d.maxZ + 1, "", false, 0);
    Desk(d.tabs + [t], d.maxZ + 1)
  }

  /** A new tab with a fresh id keeps the desk ordered and is the top tab. */
  lemma CreateTabOrdered(d: Desk, newId: int, screenW: real, screenH: real)
    requires Ordered(d) && !HasId(d.tabs, newId)
    ensures var r := CreateTab(d, newId, screenW, screenH);
      && Ordered(r)
      && forall i :: 0 <= i < |d.tabs| ==> r.tabs[i].zIndex < r.tabs[|d.tabs|].zIndex
  {
    var r := CreateTab(d, newId, screenW, screenH);
    forall i | 0 <= i < |d.tabs|
      ensures r.tabs[i] == d.tabs[i]
    {
      assert r.tabs[..|d.tabs|][i] == r.tabs[i];
    }
  }

  /** closeTab: keep the tabs whose id differs, in order. */
  function CloseTab(tabs: seq<Tab>, id: int): (r: seq<Tab>)
    ensures |r| <= |tabs|
    ensures forall i :: 0 <= i < |r| ==> r[i].id != id
    ensures forall t :: t in r <==> t in tabs && t.id != id
  {
    if tabs == [] then []
    else
      var rest := CloseTab(tabs[1..], id);
      if tabs[0].id != id then [tabs[0]] + rest else rest
  }

  /** closeTab keeps the relative order of the tabs it keeps. */
  lemma {:induction false} CloseTabAppend(a: seq<Tab>, b: seq<Tab>, id: int)
    ensures CloseTab(a + b, id) == CloseTab(a, id) + CloseTab(b, id)
  {
    if a != [] {
      assert (a + b)[1..] == a[1..] + b;
      CloseTabAppend(a[1..], b, id);
    } else {
      assert a + b == b;
    }
  }

  /** Closing an id no tab has changes nothing. */
  lemma {:induction false} CloseTabAbsent(tabs: seq<Tab>, id: int)
    requires !HasId(tabs, id)
    ensures CloseTab(tabs, id) == tabs
  {
    if tabs != [] {
      assert !HasId(tabs[1..], id) by {
        forall i | 0 <= i < |tabs[1..]| ensures tabs[1..][i].id != id {
          assert tabs[1..][i] == tabs[i + 1];
        }
      }
      CloseTabAbsent(tabs[1..], id);
    }
  }

  /** The tail of an ordered desk is ordered, and every tab in it differs
      from the head in id and in z. */
  lemma OrderedTail(d: Desk)
    requires Ordered(d) && d.tabs != []
    ensures Ordered(Desk(d.tabs[1..], d.maxZ))
    ensures forall t :: t in d.tabs[1..] ==> t.id != d.tabs[0].id && t.zIndex != d.tabs[0].zIndex
  {
    var rest := d.tabs[1..];
    assert forall i :: 0 <= i < |rest| ==> rest[i] == d.tabs[i + 1];
    forall t | t in rest
      ensures t.id != d.tabs[0].id && t.zIndex != d.tabs[0].zIndex
    {
      var k :| 0 <= k < |rest| && rest[k] == t;
      assert d.tabs[k + 1] == t;
    }
  }

  /** A tab below the counter and unlike every tab of an ordered list can
      go in front of it. */
  lemma OrderedCons(t: Tab, r: seq<Tab>, maxZ: int)
    requires Ordered(Desk(r, maxZ)) && t.zIndex <= maxZ
    requires forall u :: u in r ==> u.id != t.id && u.zIndex != t.zIndex
    ensures Ordered(Desk([t] + r, maxZ))
  {
    var c := [t] + r;
    assert forall j :: 0 < j < |c| ==> c[j] == r[j - 1] && r[j - 1] in r;
  }

  /** Closing keeps a desk ordered (the counter is not touched). */
  lemma {:induction false} CloseTabOrdered(d: Desk, id: int)
    requires Ordered(d)
    ensures Ordered(Desk(CloseTab(d.tabs, id), d.maxZ))
    decreases |d.tabs|
  {
    if d.tabs != [] {
      OrderedTail(d);
      CloseTabOrdered(Desk(d.tabs[1..], d.maxZ), id);
      if d.tabs[0].id != id {
        OrderedCons(d.tabs[0], CloseTab(d.tabs[1..], id), d.maxZ);
      }
    }
  }

  /** The same change applied to every tab with a given id. */
  function UpdateId(tabs: seq<Tab>, id: int, f: Tab -> Tab): (r: seq<Tab>)
    ensures |r| == |tabs|
    ensures forall i :: 0 <= i < |tabs| ==> r[i] == (if tabs[i].id == id then f(tabs[i]) else tabs[i])
  {
    seq(|tabs|, i requires 0 <= i < |tabs| => if tabs[i].id == id then f(tabs[i]) else tabs[i])
  }

  /** toggleMaximize: flip the target's maximised flag, expand it, put it on
      top; every other tab is un-maximised. */
  function ToggleMaximize(d: Desk, id: int): (r: Desk)
    ensures r.maxZ == d.maxZ + 1 && |r.tabs| == |d.tabs|
    ensures forall i :: 0 <= i < |d.tabs| ==>
      var t := d.tabs[i];
      if t.id == id
      then r.tabs[i] == t.(isMaximized := !t.isMaximized, isCollapsed := false, zIndex := d.maxZ + 1)
      else r.tabs[i] == t.(isMaximized := false)
  {
    var tabs := seq(|d.tabs|, i requires 0 <= i < |d.tabs| =>
      var t := d.tabs[i];
      if t.id == id then t.(isMaximized := !t.isMaximized, isCollapsed := false, zIndex := d.maxZ + 1)
      else t.(isMaximized := false));
    Desk(tabs, d.maxZ + 1)
  }

  /** After toggleMaximize at most one tab is maximised, and only the target
      can be. */
  lemma ToggleMaximizeAtMostOne(d: Desk, id: int, i: int, j: int)
    requires Ordered(d)
    requires var r := ToggleMaximize(d, id);
      0 <= i < |r.tabs| && 0 <= j < |r.tabs| && r.tabs[i].isMaximized && r.tabs[j].isMaximized
    ensures i == j && d.tabs[i].id == id
  {
  }

  /** The raised target keeps the desk ordered and is the top tab. */
  lemma ToggleMaximizeOrdered(d: Desk, id: int)
    requires Ordered(d)
    ensures var r := ToggleMaximize(d, id);
      && Ordered(r)
      && forall i, j :: 0 <= i < |r.tabs| && 0 <= j < |r.tabs| && d.tabs[i].id == id && j != i ==>
           r.tabs[j].zIndex < r.tabs[i].zIndex
  {
  }

  /** toggleCollapse: flip the target's collapsed flag, un-maximise it and
      put it on top; no other tab changes. */
  function ToggleCollapse(d: Desk, id: int): (r: Desk)
  {
    Desk(UpdateId(d.tabs, id, (t: Tab) => t.(isCollapsed := !t.isCollapsed, isMaximized := false,
                                      zIndex := d.maxZ + 1)), d.maxZ + 1)
  }

  /** startListening's first step (and the raise at pinch start): put the
      target on top. */
  function RaiseTab(d: Desk, id: int): (r: Desk)
  {
    Desk(UpdateId(d.tabs, id, (t: Tab) => t.(zIndex := d.maxZ + 1)), d.maxZ + 1)
  }

  /** reloadTab: bump the target's render key; nothing else changes. */
  function ReloadTab(tabs: seq<Tab>, id: int): (r: seq<Tab>)
  {
    UpdateId(tabs, id, (t: Tab) => t.(renderKey := t.renderKey + 1))
  }

  /** Collapsing and raising keep a desk ordered and leave the target on
      top; every other tab is exactly as before. */
  lemma RaiseOrdered(d: Desk, id: int)
    requires Ordered(d)
    ensures var r := RaiseTab(d, id);
      && Ordered(r)
      && forall i :: 0 <= i < |d.tabs| ==>
           && (d.tabs[i].id == id ==> r.tabs[i].zIndex == r.maxZ)
           && (d.tabs[i].id != id ==> r.tabs[i] == d.tabs[i])
    ensures var r := ToggleCollapse(d, id);
      && Ordered(r)
      && forall i :: 0 <= i < |d.tabs| ==>
           && (d.tabs[i].id == id ==>
                 r.tabs[i].zIndex == r.maxZ && !r.tabs[i].isMaximized
                 && r.tabs[i].isCollapsed == !d.tabs[i].isCollapsed)
           && (d.tabs[i].id != id ==> r.tabs[i] == d.tabs[i])
  {
  }

  /** Reloading keeps a desk ordered; it touches neither z nor the counter. */
  lemma ReloadOrdered(d: Desk, id: int)
    requires Ordered(d)
    ensures var r := ReloadTab(d.tabs, id);
      && Ordered(Desk(r, d.maxZ))
      && forall i :: 0 <= i < |d.tabs| ==>
           && r[i].renderKey == d.tabs[i].renderKey + (if d.tabs[i].id == id then 1 else 0)
           && r[i] == d.tabs[i].(renderKey := r[i].renderKey)
  {
  }

  // ---------------------------------------------------------------------
  // Ordering by z
  // ---------------------------------------------------------------------

  /** Non-increasing z from front to back. */
  predicate DescendingZ(s: seq<Tab>)
  {
    forall i, j :: 0 <= i < j < |s| ==> s[i].zIndex >= s[j].zIndex
  }

  /** Insert t into a list sorted by descending z, ahead of every tab whose
      z is not larger. */
  function InsertByZ(t: Tab, s: seq<Tab>): (r: seq<Tab>)
    ensures multiset(r) == multiset(s) + multiset{t}
    ensures |r| == |s| + 1
  {
    if s == [] || s[0].zIndex <= t.zIndex then [t] + s
    else
      assert s == [s[0]] + s[1..];
      [s[0]] + InsertByZ(t, s[1..])
  }

  /** A tab with z at least that of every tab of a descending list can go
      in front of it. */
  lemma DescendingZCons(t: Tab, r: seq<Tab>)
    requires DescendingZ(r)
    requires forall u :: u in r ==> t.zIndex >= u.zIndex
    ensures DescendingZ([t] + r)
  {
    var c := [t] + r;
    assert forall j :: 0 < j < |c| ==> c[j] == r[j - 1] && r[j - 1] in r;
  }

  /** The head of a descending list has the largest z. */
  lemma DescendingZHead(s: seq<Tab>)
    requires DescendingZ(s) && s != []
    ensures forall u :: u in s ==> s[0].zIndex >= u.zIndex
  {
  }

  lemma {:induction false} InsertByZSorted(t: Tab, s: seq<Tab>)
    requires DescendingZ(s)
    ensures DescendingZ(InsertByZ(t, s))
    ensures |s| > 0 ==> InsertByZ(t, s)[0] == (if s[0].zIndex <= t.zIndex then t else s[0])
  {
    if s == [] {
    } else if s[0].zIndex <= t.zIndex {
      DescendingZHead(s);
      DescendingZCons(t, s);
    } else {
      DescendingZHead(s);
      assert DescendingZ(s[1..]);
      InsertByZSorted(t, s[1..]);
      var rest := InsertByZ(t, s[1..]);
      forall u | u in rest
        ensures s[0].zIndex >= u.zIndex
      {
        assert u in multiset(rest);
        assert u in multiset(s[1..]) || u == t;
        assert u in s[1..] || u == t;
      }
      DescendingZCons(s[0], rest);
    }
  }

  /** `[...tabs].sort((a, b) => b.zIndex - a.zIndex)`, as an insertion
      sort that keeps tabs of equal z in list order. */
  function SortByZ(s: seq<Tab>): (r: seq<Tab>)
    ensures multiset(r) == multiset(s)
    ensures |r| == |s|
  {
    if s == [] then []
    else
      assert s == [s[0]] + s[1..];
      InsertByZ(s[0], SortByZ(s[1..]))
  }

  lemma {:induction false} SortByZSorted(s: seq<Tab>)
    ensures DescendingZ(SortByZ(s))
  {
    if s != [] {
      SortByZSorted(s[1..]);
      InsertByZSorted(s[0], SortByZ(s[1..]));
    }
  }

  // ---------------------------------------------------------------------
  // Pinch start: which handle is under the cursor
  // ---------------------------------------------------------------------

  /** Height of a tab's header bar. */
  const HeaderH: real := 48.0
  /** Reach of the resize handle around the top-right corner. */
  const CornerReach: real := 60.0

  /** Within 60 of the top-right corner. */
  predicate NearCorner(t: Tab, p: Point)
  {
    Within(p, Point(t.x + t.width, t.y), CornerReach)
  }

  /** Inside the header band: the tab's width and its top 48 pixels. */
  predicate InHeader(t: Tab, p: Point)
  {
    t.x <= p.x <= t.x + t.width && t.y <= p.y <= t.y + HeaderH
  }

  /** Can a pinch at p take hold of t? */
  predicate Grips(t: Tab, p: Point)
  {
    !t.isMaximized && (NearCorner(t, p) || InHeader(t, p))
  }

  datatype Handle = NoHandle | ResizeHandle(tab: Tab) | DragHandle(tab: Tab)

  /** The handle a pinch at p takes: the first tab in the given order that
      is not maximised and has p near its corner (resize, checked first) or
      in its header (drag). */
  function HandleAt(s: seq<Tab>, p: Point): (h: Handle)
    ensures h.ResizeHandle? ==> h.tab in s && !h.tab.isMaximized && NearCorner(h.tab, p)
    ensures h.DragHandle? ==> h.tab in s && !h.tab.isMaximized && InHeader(h.tab, p) && !NearCorner(h.tab, p)
    ensures h == NoHandle <==> forall i :: 0 <= i < |s| ==> !Grips(s[i], p)
  {
    if s == [] then NoHandle
    else if s[0].isMaximized then HandleAt(s[1..], p)
    else if NearCorner(s[0], p) then ResizeHandle(s[0])
    else if InHeader(s[0], p) then DragHandle(s[0])
    else HandleAt(s[1..], p)
  }

  /** The scan stops at the first tab that grips: its corner wins over its
      header, and no tab after it is considered. */
  lemma {:induction false} HandleAtFirstGrip(s: seq<Tab>, p: Point, k: int)
    requires 0 <= k < |s| && Grips(s[k], p)
    requires forall j :: 0 <= j < k ==> !Grips(s[j], p)
    ensures HandleAt(s, p) == if NearCorner(s[k], p) then ResizeHandle(s[k]) else DragHandle(s[k])
  {
    if k > 0 {
      HandleAtFirstGrip(s[1..], p, k - 1);
    }
  }

  /** The for-loop with break over the z-sorted tabs. */
  method FindHandle(sorted: seq<Tab>, p: Point) returns (h: Handle)
    ensures h == HandleAt(sorted, p)
  {
    h := NoHandle;
    var i := 0;
    while i < |sorted|
      invariant 0 <= i <= |sorted|
      invariant HandleAt(sorted, p) == HandleAt(sorted[i..], p)
    {
      var tab := sorted[i];
      assert sorted[i..][1..] == sorted[i + 1..];
      if tab.isMaximized {
        i := i + 1;
        continue;
      }
      if NearCorner(tab, p) {
        h := ResizeHandle(tab);
        break;
      }
      if InHeader(tab, p) {
        h := DragHandle(tab);
        break;
      }
      i := i + 1;
    }
  }

  // ---------------------------------------------------------------------
  // Resize and drag geometry
  // ---------------------------------------------------------------------

  const MinWidth: real := 300.0
  const MinHeight: real := 200.0
  /** Cursor travel a drag needs before it moves the tab. */
  const DragDeadzone: real := 40.0

  /** What a resize remembers from its pinch start. */
  datatype ResizeSession = ResizeSession(tabId: int, startX: real, startY: real,
                                         startW: real, startH: real, startTabY: real)

  /** What a drag remembers from its pinch start, and whether it has left
      the deadzone. */
  datatype DragSession = DragSession(tabId: int, startMouseX: real, startMouseY: real,
                                     initialTabX: real, initialTabY: real, isDragging: bool)

  /** The resized tab: the top-right corner follows the cursor, within the
      minimum size, with the top edge moving by the vertical travel. */
  function Resized(t: Tab, r: ResizeSession, p: Point): (u: Tab)
    ensures u == t.(width := u.width, height := u.height, y := u.y)
    ensures u.width >= MinWidth && u.height >= MinHeight
    ensures u.width == Max(MinWidth, r.startW + (p.x - r.startX))
    ensures u.height == Max(MinHeight, r.startH - (p.y - r.startY))
    ensures u.y == r.startTabY + (p.y - r.startY)
    // the bottom edge stays put while the height is above its minimum
    ensures r.startH - (p.y - r.startY) >= MinHeight ==> u.y + u.height == r.startTabY + r.startH
  {
    var dx := p.x - r.startX;
    var dy := p.y - r.startY;
    t.(width := Max(MinWidth, r.startW + dx), height := Max(MinHeight, r.startH - dy),
       y := r.startTabY + dy)
  }

  /** The drag session after a pinching frame: it commits once the cursor
      is more than 40 from where the pinch started, and stays committed. */
  function DragAdvance(g: DragSession, p: Point): (r: DragSession)
    ensures r == g.(isDragging := r.isDragging)
    ensures g.isDragging ==> r.isDragging
    ensures !g.isDragging ==> (r.isDragging <==> Beyond(p, Point(g.startMouseX, g.startMouseY), DragDeadzone))
  {
    if !g.isDragging && Beyond(p, Point(g.startMouseX, g.startMouseY), DragDeadzone)
    then g.(isDragging := true) else g
  }

  /** The dragged tab: its start position plus the cursor's offset from
      where the pinch started. */
  function Dragged(t: Tab, g: DragSession, p: Point): (u: Tab)
    ensures u == t.(x := u.x, y := u.y)
    ensures u.x - g.initialTabX == p.x - g.startMouseX && u.y - g.initialTabY == p.y - g.startMouseY
  {
    t.(x := g.initialTabX + (p.x - g.startMouseX), y := g.initialTabY + (p.y - g.startMouseY))
  }

  /** Apply a tab change to the tabs with the session's id. */
  function ResizeTabs(tabs: seq<Tab>, r: ResizeSession, p: Point): (u: seq<Tab>)
  {
    UpdateId(tabs, r.tabId, (t: Tab) => Resized(t, r, p))
  }

  function DragTabs(tabs: seq<Tab>, g: DragSession, p: Point): (u: seq<Tab>)
  {
    UpdateId(tabs, g.tabId, (t: Tab) => Dragged(t, g, p))
  }

  /** Resizing and dragging keep a desk ordered: ids and z are untouched. */
  lemma GeometryOrdered(d: Desk, r: ResizeSession, g: DragSession, p: Point)
    requires Ordered(d)
    ensures Ordered(Desk(ResizeTabs(d.tabs, r, p), d.maxZ))
    ensures Ordered(Desk(DragTabs(d.tabs, g, p), d.maxZ))
  {
  }

  // ---------------------------------------------------------------------
  // Click classification
  // ---------------------------------------------------------------------

  const ClickMaxDuration: real := 800.0
  const ClickMaxTravel: real := 80.0
  const DoubleClickWindow: real := 500.0

  datatype Release = Release(click: bool, doubleClick: bool)

  /** A pinch release is a click when it was short, stayed within 80 of its
      start and no committed drag or resize is open; a click within 500 of
      the previous one is a double click instead. */
  function ClassifyRelease(duration: real, start: Point, p: Point, dragging: bool, resizing: bool,
                           sinceLastClick: real): (r: Release)
    ensures !(r.click && r.doubleClick)
    ensures r.click || r.doubleClick <==>
      duration < ClickMaxDuration && Within(start, p, ClickMaxTravel) && !dragging && !resizing
    ensures r.doubleClick <==>
      duration < ClickMaxDuration && Within(start, p, ClickMaxTravel) && !dragging && !resizing
      && sinceLastClick < DoubleClickWindow
  {
    if duration < ClickMaxDuration && Within(start, p, ClickMaxTravel) && !dragging && !resizing then
      if sinceLastClick < DoubleClickWindow then Release(false, true) else Release(true, false)
    else Release(false, false)
  }

  // ---------------------------------------------------------------------
  // Click targets
  // ---------------------------------------------------------------------

  /** The header controls, right to left, and the rest of the tab. */
  datatype Control = Close | Maximize | Collapse | Reload | AddressBar | HeaderBlank | Body

  datatype ClickTarget = NoTarget | PlusButton | OnTab(id: int, control: Control)

  /** The "new tab" button: 60 by 60, 20 from the right edge and 30 from
      the top. */
  predicate OnPlusButton(p: Point, screenW: real)
  {
    screenW - 80.0 <= p.x <= screenW - 80.0 + 60.0 && 30.0 <= p.y <= 30.0 + 60.0
  }

  /** Where a tab is drawn: the whole screen when maximised, only its
      header when collapsed. */
  datatype Rect = Rect(x: real, y: real, w: real, h: real)

  function Placement(t: Tab, screenW: real, screenH: real): Rect
  {
    Rect(if t.isMaximized then 0.0 else t.x,
         if t.isMaximized then 0.0 else t.y,
         if t.isMaximized then screenW else t.width,
         if t.isMaximized || !t.isCollapsed then (if t.isMaximized then screenH else t.height) else HeaderH)
  }

  predicate InRect(p: Point, r: Rect)
  {
    r.x <= p.x <= r.x + r.w && r.y <= p.y <= r.y + r.h
  }

  /** Width of each header button. */
  const ButtonW: real := 40.0

  /** The header control under p, for a tab drawn at r: four 40-pixel
      buttons from the right edge leftwards, then the address bar. */
  function HeaderControl(p: Point, r: Rect): (c: Control)
    ensures c == Close <==> p.x > r.x + r.w - ButtonW
    ensures c == Maximize <==> r.x + r.w - 2.0 * ButtonW < p.x <= r.x + r.w - ButtonW
    ensures c == Collapse <==> r.x + r.w - 3.0 * ButtonW < p.x <= r.x + r.w - 2.0 * ButtonW
    ensures c == Reload <==> r.x + r.w - 4.0 * ButtonW < p.x <= r.x + r.w - 3.0 * ButtonW
    ensures c == AddressBar <==>
      p.x <= r.x + r.w - 4.0 * ButtonW && InRect(p, Rect(r.x + 50.0, r.y + 8.0, r.w - 240.0, 32.0))
    ensures c != Body
  {
    if p.x > r.x + r.w - 40.0 then Close
    else if p.x > r.x + r.w - 80.0 then Maximize
    else if p.x > r.x + r.w - 120.0 then Collapse
    else if p.x > r.x + r.w - 160.0 then Reload
    else if InRect(p, Rect(r.x + 50.0, r.y + 8.0, r.w - 240.0, 32.0)) then AddressBar
    else HeaderBlank
  }

  /** The first tab in the given order whose placement contains p, and what
      part of it p is on. */
  function TabHit(s: seq<Tab>, p: Point, screenW: real, screenH: real): (c: ClickTarget)
    ensures c != PlusButton
    ensures c == NoTarget <==> forall i :: 0 <= i < |s| ==> !InRect(p, Placement(s[i], screenW, screenH))
    ensures c.OnTab? ==> HasId(s, c.id)
  {
    if s == [] then NoTarget
    else
      var r := Placement(s[0], screenW, screenH);
      if InRect(p, r) then
        OnTab(s[0].id, if p.y <= r.y + HeaderH then HeaderControl(p, r) else Body)
      else
        var c := TabHit(s[1..], p, screenW, screenH);
        if c.OnTab? then
          assert s[1..][0] == s[1];
          var k :| 0 <= k < |s[1..]| && s[1..][k].id == c.id;
          assert s[k + 1].id == c.id;
          c
        else c
  }

  /** The first tab whose placement holds p is the one hit: the header
      control under p when p is within the 48-pixel header, the body
      otherwise. On the z-sorted list that is the topmost such tab. */
  lemma {:induction false} TabHitFirst(s: seq<Tab>, p: Point, screenW: real, screenH: real, k: int)
    requires 0 <= k < |s| && InRect(p, Placement(s[k], screenW, screenH))
    requires forall j :: 0 <= j < k ==> !InRect(p, Placement(s[j], screenW, screenH))
    ensures var r := Placement(s[k], screenW, screenH);
      TabHit(s, p, screenW, screenH) ==
        OnTab(s[k].id, if p.y <= r.y + HeaderH then HeaderControl(p, r) else Body)
  {
    if k > 0 {
      TabHitFirst(s[1..], p, screenW, screenH, k - 1);
    }
  }

  /** The loop over the z-sorted tabs that returns at the first hit. */
  method FindClickTarget(sorted: seq<Tab>, p: Point, screenW: real, screenH: real)
    returns (c: ClickTarget)
    ensures c == TabHit(sorted, p, screenW, screenH)
  {
    var i := 0;
    while i < |sorted|
      invariant 0 <= i <= |sorted|
      invariant TabHit(sorted, p, screenW, screenH) == TabHit(sorted[i..], p, screenW, screenH)
    {
      var tab := sorted[i];
      assert sorted[i..][1..] == sorted[i + 1..];
      var r := Placement(tab, screenW, screenH);
      if InRect(p, r) {
        if p.y <= r.y + HeaderH {
          return OnTab(tab.id, HeaderControl(p, r));
        }
        return OnTab(tab.id, Body);
      }
      i := i + 1;
    }
    return NoTarget;
  }

  /** What a click at p does to the desk: the plus button opens a tab, the
      header buttons close, maximise, collapse or reload, the address bar
      raises the tab, and anything else changes nothing here. */
  function ApplyClick(d: Desk, c: ClickTarget, newId: int, screenW: real, screenH: real): (r: Desk)
    ensures c.NoTarget? || (c.OnTab? && (c.control == HeaderBlank || c.control == Body)) ==> r == d
    ensures c == PlusButton ==> r == CreateTab(d, newId, screenW, screenH)
    ensures c.OnTab? && c.control == Close ==> r == Desk(CloseTab(d.tabs, c.id), d.maxZ)
    ensures c.OnTab? && c.control == Maximize ==> r == ToggleMaximize(d, c.id)
    ensures c.OnTab? && c.control == Collapse ==> r == ToggleCollapse(d, c.id)
    ensures c.OnTab? && c.control == Reload ==> r == Desk(ReloadTab(d.tabs, c.id), d.maxZ)
    ensures c.OnTab? && c.control == AddressBar ==> r == RaiseTab(d, c.id)
  {
    match c
    case NoTarget => d
    case PlusButton => CreateTab(d, newId, screenW, screenH)
    case OnTab(id, control) =>
      match control
      case Close => Desk(CloseTab(d.tabs, id), d.maxZ)
      case Maximize => ToggleMaximize(d, id)
      case Collapse => ToggleCollapse(d, id)
      case Reload => Desk(ReloadTab(d.tabs, id), d.maxZ)
      case AddressBar => RaiseTab(d, id)
      case HeaderBlank => d
      case Body => d
  }

  /** Every click keeps the desk ordered, given a fresh id for a new tab. */
  lemma ApplyClickOrdered(d: Desk, c: ClickTarget, newId: int, screenW: real, screenH: real)
    requires Ordered(d) && !HasId(d.tabs, newId)
    ensures Ordered(ApplyClick(d, c, newId, screenW, screenH))
  {
    match c
    case NoTarget =>
    case PlusButton => CreateTabOrdered(d, newId, screenW, screenH);
    case OnTab(id, control) =>
      match control
      case Close => CloseTabOrdered(d, id);
      case Maximize => ToggleMaximizeOrdered(d, id);
      case Collapse => RaiseOrdered(d, id);
      case Reload => ReloadOrdered(d, id);
      case AddressBar => RaiseOrdered(d, id);
      case HeaderBlank =>
      case Body =>
  }
}
