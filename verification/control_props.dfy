/**
  What the control's transitions guarantee: which layer each side ends up showing,
  where the candidates are rendered, which notifications fire, which panes are
  clipped, and how attaching and detaching compose.
 */
module SideBySideProps {
  import opened Wrappers
  import opened Layers
  import opened Geometry
  import opened Selection
  import opened Notifications
  import opened SideBySide

  /** The active layer a side ends on after recomputation, from its candidates alone. */
  lemma UpdateLayersSelects(s: State, vp: Viewport)
    requires Attached(s)
    ensures var r, present := UpdateLayers(s, vp).state, HostOf(s).layers;
      && (r.ctl.activeLeft.None? <==> !AnyPresent(s.ctl.left, present))
      && (r.ctl.activeLeft.Some? ==>
            IsLastPresent(s.ctl.left, present, r.ctl.activeLeft.value) && r.ctl.activeLeft.value in s.ctl.left)
      && (r.ctl.activeRight.None? <==> !AnyPresent(s.ctl.right, present))
      && (r.ctl.activeRight.Some? ==>
            IsLastPresent(s.ctl.right, present, r.ctl.activeRight.value) && r.ctl.activeRight.value in s.ctl.right)
  {
    var present := HostOf(s).layers;
    var l := Scan(s.ctl.left, present, LeftPane, ScanState(None, s.world.paneOf));
    ScanActive(s.ctl.left, present, LeftPane, ScanState(None, s.world.paneOf));
    ScanActive(s.ctl.right, present, RightPane, ScanState(None, l.panes));
  }

  /**
    Every candidate on the map ends on its side's pane, one listed on both sides on
    the right pane, and every other layer keeps its pane.
   */
  lemma UpdateLayersPanes(s: State, vp: Viewport)
    requires Attached(s)
    ensures var p, p', present := s.world.paneOf, UpdateLayers(s, vp).state.world.paneOf, HostOf(s).layers;
      && p' == Repane(Repane(p, PresentOf(s.ctl.left, present), LeftPane), PresentOf(s.ctl.right, present), RightPane)
      && (forall l :: l in s.ctl.right && l in present ==> OnPane(p', l, RightPane))
      && (forall l :: l in s.ctl.left && l in present && l !in s.ctl.right ==> OnPane(p', l, LeftPane))
      && (forall l :: l in p && !(l in present && (l in s.ctl.left || l in s.ctl.right)) ==> l in p' && p'[l] == p[l])
      && (forall l :: l !in p && !(l in present && (l in s.ctl.left || l in s.ctl.right)) ==> l !in p')
  {
    var present := HostOf(s).layers;
    var l := Scan(s.ctl.left, present, LeftPane, ScanState(None, s.world.paneOf));
    ScanPanes(s.ctl.left, present, LeftPane, ScanState(None, s.world.paneOf));
    ScanPanes(s.ctl.right, present, RightPane, ScanState(None, l.panes));
  }

  /**
    The notifications of a recomputation: the left diff, then the right diff, then
    one `dividermove` carrying the divider offset. Each side's notifications are its
    diff, and a subscriber that knew a side's old active layer knows the new one.
   */
  lemma UpdateLayersEvents(s: State, vp: Viewport)
    requires Attached(s)
    ensures var r := UpdateLayers(s, vp);
      && r.events == SideEvents(Left, s.ctl.activeLeft, r.state.ctl.activeLeft)
                     + SideEvents(Right, s.ctl.activeRight, r.state.ctl.activeRight)
                     + [DividerMove(Position(s.ctl.fraction, vp.width, s.ctl.options))]
      && OfSide(r.events, Left) == SideEvents(Left, s.ctl.activeLeft, r.state.ctl.activeLeft)
      && OfSide(r.events, Right) == SideEvents(Right, s.ctl.activeRight, r.state.ctl.activeRight)
      && Track(Left, s.ctl.activeLeft, r.events) == r.state.ctl.activeLeft
      && Track(Right, s.ctl.activeRight, r.events) == r.state.ctl.activeRight
  {
    var r := UpdateLayers(s, vp);
    var pl, pr := s.ctl.activeLeft, s.ctl.activeRight;
    var nl, nr := r.state.ctl.activeLeft, r.state.ctl.activeRight;
    var el, er := SideEvents(Left, pl, nl), SideEvents(Right, pr, nr);
    var dm := [DividerMove(Position(s.ctl.fraction, vp.width, s.ctl.options))];
    assert r.events == el + er + dm;
    OfSideAppend(el + er, dm, Left);
    OfSideAppend(el, er, Left);
    OfSideAppend(el + er, dm, Right);
    OfSideAppend(el, er, Right);
    OfSideSideEvents(Left, Right, pl, nl);
    OfSideSideEvents(Right, Left, pr, nr);
    assert OfSide(dm, Left) == [] && OfSide(dm, Right) == [];
    TrackAppend(Left, pl, el + er, dm);
    TrackAppend(Left, pl, el, er);
    TrackSideEvents(Left, pl, nl);
    TrackOtherSide(Right, Left, nl, pr, nr);
    TrackDividerMove(Left, nl, dm[0].x);
    TrackAppend(Right, pr, el + er, dm);
    TrackAppend(Right, pr, el, er);
    TrackOtherSide(Left, Right, pr, pl, nl);
    TrackSideEvents(Right, pr, nr);
    TrackDividerMove(Right, nr, dm[0].x);
  }

  /**
    After a recomputation each side's pane, when it exists, is clipped to that side's
    rectangle if the side has an active layer and keeps its old clip otherwise.
   */
  lemma UpdateLayersClips(s: State, vp: Viewport)
    requires Attached(s)
    ensures var r := UpdateLayers(s, vp).state;
            var c := ClipRects(vp.nw, vp.se, Position(s.ctl.fraction, vp.width, s.ctl.options));
            var p, p' := HostOf(s).panes, HostOf(r).panes;
      && (r.ctl.activeLeft.Some? && LeftPane in p ==> p'[LeftPane] == Clipped(c.left))
      && (r.ctl.activeRight.Some? && RightPane in p ==> p'[RightPane] == Clipped(c.right))
      && (r.ctl.activeLeft.None? && LeftPane in p ==> p'[LeftPane] == p[LeftPane])
      && (r.ctl.activeRight.None? && RightPane in p ==> p'[RightPane] == p[RightPane])
      && r.ctl.divider == Some(Position(s.ctl.fraction, vp.width, s.ctl.options))
  {
  }

  /** Detaching twice is detaching once. */
  lemma RemoveIdempotent(s: State)
    requires Valid(s)
    ensures Remove(Remove(s)) == Remove(s)
  {
  }

  /** Attaching starts by detaching: attaching a detached copy of the state gives the same outcome. */
  lemma AddToRemovesFirst(s: State, m: MapId, vp: Viewport)
    requires Valid(s) && m in s.world.maps
    ensures AddTo(Remove(s), m, vp) == AddTo(s, m, vp)
  {
    RemoveIdempotent(s);
  }

  /** Attaching and then detaching leaves both side panes of the map unclipped. */
  lemma AddToThenRemoveUnclips(s: State, m: MapId, vp: Viewport)
    requires Valid(s) && m in s.world.maps
    ensures var r := Remove(AddTo(s, m, vp).state);
      && r.ctl.attachedTo.None?
      && LeftPane in r.world.maps[m].panes && r.world.maps[m].panes[LeftPane] == NoClip
      && RightPane in r.world.maps[m].panes && r.world.maps[m].panes[RightPane] == NoClip
  {
    UpdateLayersClips(Attach(Remove(s), m), vp);
  }

  /**
    Emptying the right candidates while a right layer is active fires exactly one
    `rightlayerremove`, for that layer, no `rightlayeradd`, and leaves the right
    pane's clip as it was.
   */
  lemma ClearRightLayers(s: State, vp: Viewport)
    requires Attached(s) && s.ctl.activeRight.Some?
    ensures var r := SetRightLayers(s, Many([]), vp);
      && r.state.ctl.activeRight.None?
      && OfSide(r.events, Right) == [LayerRemove(Right, s.ctl.activeRight.value)]
      && (RightPane in HostOf(s).panes ==> HostOf(r.state).panes[RightPane] == HostOf(s).panes[RightPane])
  {
    var s' := s.(ctl := s.ctl.(right := []));
    assert SetRightLayers(s, Many([]), vp) == UpdateLayers(s', vp);
    UpdateLayersSelects(s', vp);
    UpdateLayersEvents(s', vp);
    UpdateLayersClips(s', vp);
  }

  /**
    The layers a recomputation activates depend only on the candidates and on the
    layers of the attached map.
   */
  lemma UpdateLayersActiveDependsOnMembership(s: State, t: State, vp: Viewport, vq: Viewport)
    requires Attached(s) && Attached(t)
    requires s.ctl.left == t.ctl.left && s.ctl.right == t.ctl.right
    requires HostOf(s).layers == HostOf(t).layers
    ensures UpdateLayers(s, vp).state.ctl.activeLeft == UpdateLayers(t, vq).state.ctl.activeLeft
    ensures UpdateLayers(s, vp).state.ctl.activeRight == UpdateLayers(t, vq).state.ctl.activeRight
  {
    var present := HostOf(s).layers;
    var l1 := Scan(s.ctl.left, present, LeftPane, ScanState(None, s.world.paneOf));
    var l2 := Scan(s.ctl.left, present, LeftPane, ScanState(None, t.world.paneOf));
    ScanActiveIgnoresPanes(s.ctl.left, present, LeftPane, None, s.world.paneOf, t.world.paneOf);
    ScanActiveIgnoresPanes(s.ctl.right, present, RightPane, None, l1.panes, l2.panes);
  }

  /** A recomputation that activates the same layers as before fires only `dividermove`. */
  lemma UpdateLayersQuiet(t: State, vp: Viewport)
    requires Attached(t)
    requires UpdateLayers(t, vp).state.ctl.activeLeft == t.ctl.activeLeft
    requires UpdateLayers(t, vp).state.ctl.activeRight == t.ctl.activeRight
    ensures UpdateLayers(t, vp).events == [DividerMove(Position(t.ctl.fraction, vp.width, t.ctl.options))]
  {
    UpdateLayersEvents(t, vp);
    assert SideEvents(Left, t.ctl.activeLeft, t.ctl.activeLeft) == [];
    assert SideEvents(Right, t.ctl.activeRight, t.ctl.activeRight) == [];
  }

  /** Attaching again to the same map after an attach rebuilds the state the first attach recomputed from, with its outcome's active layers. */
  lemma ReattachSetup(s: State, m: MapId, vp: Viewport)
    requires Valid(s) && m in s.world.maps
    ensures var r1 := AddTo(s, m, vp);
            var t2 := Attach(Remove(r1.state), m);
      && AddTo(r1.state, m, vp) == UpdateLayers(t2, vp)
      && t2.ctl.activeLeft == r1.state.ctl.activeLeft && t2.ctl.activeRight == r1.state.ctl.activeRight
      && t2.ctl.fraction == 0.5
      && UpdateLayers(t2, vp).state.ctl.activeLeft == t2.ctl.activeLeft
      && UpdateLayers(t2, vp).state.ctl.activeRight == t2.ctl.activeRight
  {
    var s2 := Attach(Remove(s), m);
    var r1 := UpdateLayers(s2, vp);
    var t1 := Remove(r1.state);
    var t2 := Attach(t1, m);
    assert AddTo(s, m, vp) == r1;
    assert HostOf(t2).layers == t1.world.maps[m].layers == HostOf(r1.state).layers == HostOf(s2).layers;
    UpdateLayersActiveDependsOnMembership(s2, t2, vp, vp);
  }

  /**
    The active layers survive a detach: attaching to the same map twice in a row,
    with nothing changed in between, fires no layer notification the second time,
    only `dividermove`.
   */
  lemma ReattachFiresOnlyDividerMove(s: State, m: MapId, vp: Viewport)
    requires Valid(s) && m in s.world.maps
    ensures var r1 := AddTo(s, m, vp);
            var r2 := AddTo(r1.state, m, vp);
      && r2.state.ctl.activeLeft == r1.state.ctl.activeLeft
      && r2.state.ctl.activeRight == r1.state.ctl.activeRight
      && r2.events == [DividerMove(vp.width / 2.0)]
  {
    var r1 := AddTo(s, m, vp);
    var t2 := Attach(Remove(r1.state), m);
    ReattachSetup(s, m, vp);
    UpdateLayersQuiet(t2, vp);
    var r2 := AddTo(r1.state, m, vp);
    assert r2 == UpdateLayers(t2, vp);
    assert Position(t2.ctl.fraction, vp.width, t2.ctl.options) == vp.width / 2.0;
    assert r2.events == [DividerMove(vp.width / 2.0)];
  }
}
