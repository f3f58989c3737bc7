/**
  The side-by-side control and the part of the host map it touches, as immutable
  values, with each of the control's operations as a transition returning the new
  state and the notifications fired on the way.
 */
module SideBySide {
  import opened Wrappers
  import opened Layers
  import opened Geometry
  import opened Selection
  import opened Notifications

  /** A pane's clip style: none (the empty string), or a rectangle. */
  datatype Clip = NoClip | Clipped(rect: Rect)

  /**
    One host map: the layers on it, its named panes with their clip styles, and
    whether drag panning and (when the map has a tap handler at all) tapping are on.
   */
  datatype Host = Host(layers: set<Layer>, panes: map<PaneName, Clip>, dragging: bool, tap: Option<bool>)

  type MapId = nat

  /** Every host map by identity, and each layer's pane assignment, which belongs to the layer. */
  datatype World = World(maps: map<MapId, Host>, paneOf: map<Layer, PaneName>)

  /**
    The control: each side's candidates, each side's active layer, the options, the
    slider fraction, the divider's offset once one has been set, and the map it is
    attached to.
   */
  datatype Control = Control(
    left: seq<Layer>,
    right: seq<Layer>,
    activeLeft: Option<Layer>,
    activeRight: Option<Layer>,
    options: Options,
    fraction: real,
    divider: Option<real>,
    attachedTo: Option<MapId>)

  /** What a drag saved about the map before switching its gestures off. */
  datatype DragMemo = DragMemo(wasDrag: bool, wasTap: bool)

  /** Nothing saved: both flags read as off before the first drag. */
  const NoMemo: DragMemo := DragMemo(false, false)

  datatype State = State(ctl: Control, world: World, memo: DragMemo)

  /**
    The attached map's viewport: its top-left and bottom-right corners in layer
    coordinates, and its width in pixels.
   */
  datatype Viewport = Viewport(nw: Point, se: Point, width: real)

  /** A transition's outcome: the new state and the notifications, in firing order. */
  datatype Step = Step(state: State, events: seq<Event>)

  /** A control's map reference, when set, names a map that exists. */
  predicate Valid(s: State) {
    s.ctl.attachedTo.Some? ==> s.ctl.attachedTo.value in s.world.maps
  }

  predicate Attached(s: State) {
    Valid(s) && s.ctl.attachedTo.Some?
  }

  function HostOf(s: State): Host
    requires Attached(s)
  {
    s.world.maps[s.ctl.attachedTo.value]
  }

  /** Every map other than `m` is the same in `s` and `t`, and no map appeared or vanished. */
  ghost predicate OtherMapsKept(s: State, t: State, m: MapId) {
    && t.world.maps.Keys == s.world.maps.Keys
    && forall id :: id in s.world.maps && id != m ==> t.world.maps[id] == s.world.maps[id]
  }

  /** Of map `m`, at most the clip styles of its panes differ between `s` and `t`. */
  ghost predicate OnlyPanesOf(s: State, t: State, m: MapId)
    requires m in s.world.maps && m in t.world.maps
  {
    var h, h' := s.world.maps[m], t.world.maps[m];
    && h'.layers == h.layers
    && h'.dragging == h.dragging
    && h'.tap == h.tap
    && h'.panes.Keys == h.panes.Keys
  }

  /** A new, unattached control over the two layer arguments, with the caller's options merged over the defaults. */
  function Construct(leftLayers: Arg, rightLayers: Arg, thumbSize: Option<real>, padding: Option<real>): (c: Control)
    ensures c.left == AsArray(leftLayers) && c.right == AsArray(rightLayers)
    ensures c.attachedTo.None? && c.activeLeft.None? && c.activeRight.None? && c.divider.None?
    ensures c.options == MergeOptions(thumbSize, padding)
  {
    Control(AsArray(leftLayers), AsArray(rightLayers), None, None, MergeOptions(thumbSize, padding), 0.5, None, None)
  }

  /** Sets pane `name`'s clip when the side has an active layer and the pane exists. */
  function SetClipIfActive(panes: map<PaneName, Clip>, active: Option<Layer>, name: PaneName, clip: Clip): map<PaneName, Clip> {
    if active.Some? && name in panes then panes[name := clip] else panes
  }

  /**
    Recomputes the divider offset and the two clip rectangles, moves the divider,
    fires `dividermove`, and clips each side's pane when that side has an active
    layer and the pane exists.
   */
  function UpdateClip(s: State, vp: Viewport): (r: Step)
    requires Attached(s)
    ensures Attached(r.state) && r.state.ctl.attachedTo == s.ctl.attachedTo
    ensures r.events == [DividerMove(Position(s.ctl.fraction, vp.width, s.ctl.options))]
    ensures r.state.ctl == s.ctl.(divider := Some(Position(s.ctl.fraction, vp.width, s.ctl.options)))
    ensures r.state.world.paneOf == s.world.paneOf && r.state.memo == s.memo
    ensures OtherMapsKept(s, r.state, s.ctl.attachedTo.value) && OnlyPanesOf(s, r.state, s.ctl.attachedTo.value)
    ensures var c := ClipRects(vp.nw, vp.se, Position(s.ctl.fraction, vp.width, s.ctl.options));
            var p, p' := HostOf(s).panes, HostOf(r.state).panes;
            && (s.ctl.activeLeft.Some? && LeftPane in p ==> p'[LeftPane] == Clipped(c.left))
            && (s.ctl.activeRight.Some? && RightPane in p ==> p'[RightPane] == Clipped(c.right))
            && (s.ctl.activeLeft.None? && LeftPane in p ==> p'[LeftPane] == p[LeftPane])
            && (s.ctl.activeRight.None? && RightPane in p ==> p'[RightPane] == p[RightPane])
            && (forall n :: n in p && n != LeftPane && n != RightPane ==> p'[n] == p[n])
  {
    var m := s.ctl.attachedTo.value;
    var h := s.world.maps[m];
    var x := Position(s.ctl.fraction, vp.width, s.ctl.options);
    var c := ClipRects(vp.nw, vp.se, x);
    var panes := SetClipIfActive(SetClipIfActive(h.panes, s.ctl.activeLeft, LeftPane, Clipped(c.left)),
                                 s.ctl.activeRight, RightPane, Clipped(c.right));
    var s' := s.(ctl := s.ctl.(divider := Some(x)),
                 world := s.world.(maps := s.world.maps[m := h.(panes := panes)]));
    Step(s', [DividerMove(x)])
  }

  /**
    Recomputes both sides' active layers against the attached map, moves every
    candidate on the map onto its side's pane, fires the per-side diff, and then
    updates the clip. Without a map nothing happens.
   */
  function UpdateLayers(s: State, vp: Viewport): (r: Step)
    requires Valid(s)
    ensures Valid(r.state) && r.state.ctl.attachedTo == s.ctl.attachedTo
    ensures s.ctl.attachedTo.None? ==> r == Step(s, [])
    ensures r.state.ctl.left == s.ctl.left && r.state.ctl.right == s.ctl.right
    ensures r.state.ctl.options == s.ctl.options && r.state.ctl.fraction == s.ctl.fraction
    ensures r.state.memo == s.memo
    ensures s.ctl.attachedTo.Some? ==> OtherMapsKept(s, r.state, s.ctl.attachedTo.value) && OnlyPanesOf(s, r.state, s.ctl.attachedTo.value)
  {
    if s.ctl.attachedTo.None? then Step(s, [])
    else
      var present := HostOf(s).layers;
      var l := Scan(s.ctl.left, present, LeftPane, ScanState(None, s.world.paneOf));
      var r := Scan(s.ctl.right, present, RightPane, ScanState(None, l.panes));
      var diff := SideEvents(Left, s.ctl.activeLeft, l.active) + SideEvents(Right, s.ctl.activeRight, r.active);
      var s' := s.(ctl := s.ctl.(activeLeft := l.active, activeRight := r.active),
                   world := s.world.(paneOf := r.panes));
      var c := UpdateClip(s', vp);
      Step(c.state, diff + c.events)
  }

  /** Sets the left candidates from a layer argument and recomputes. */
  function SetLeftLayers(s: State, leftLayers: Arg, vp: Viewport): (r: Step)
    requires Valid(s)
    ensures Valid(r.state) && r.state.ctl.attachedTo == s.ctl.attachedTo
    ensures r.state.ctl.left == AsArray(leftLayers) && r.state.ctl.right == s.ctl.right
    ensures s.ctl.attachedTo.None? ==> r == Step(s.(ctl := s.ctl.(left := AsArray(leftLayers))), [])
  {
    UpdateLayers(s.(ctl := s.ctl.(left := AsArray(leftLayers))), vp)
  }

  /** Sets the right candidates from a layer argument and recomputes. */
  function SetRightLayers(s: State, rightLayers: Arg, vp: Viewport): (r: Step)
    requires Valid(s)
    ensures Valid(r.state) && r.state.ctl.attachedTo == s.ctl.attachedTo
    ensures r.state.ctl.right == AsArray(rightLayers) && r.state.ctl.left == s.ctl.left
    ensures s.ctl.attachedTo.None? ==> r == Step(s.(ctl := s.ctl.(right := AsArray(rightLayers))), [])
  {
    UpdateLayers(s.(ctl := s.ctl.(right := AsArray(rightLayers))), vp)
  }

  /** The slider's input handler: the slider now reads `f`, and the clip follows. */
  function SlideTo(s: State, f: real, vp: Viewport): (r: Step)
    requires Attached(s)
    requires 0.0 <= f <= 1.0
    ensures Attached(r.state) && r.state.ctl.fraction == f
    ensures r.events == [DividerMove(Position(f, vp.width, s.ctl.options))]
    ensures r.state.ctl.divider == Some(Position(f, vp.width, s.ctl.options))
  {
    UpdateClip(s.(ctl := s.ctl.(fraction := f)), vp)
  }

  /** Clears pane `name`'s clip when the side has an active layer and the pane exists. */
  function ResetClipIfActive(panes: map<PaneName, Clip>, active: Option<Layer>, name: PaneName): map<PaneName, Clip> {
    SetClipIfActive(panes, active, name, NoClip)
  }

  /**
    Detaches the control: unclips each side's pane when that side has an active
    layer, and drops the map reference. Without a map it does nothing. The active
    layers themselves are kept.
   */
  function Remove(s: State): (r: State)
    requires Valid(s)
    ensures Valid(r) && r.ctl.attachedTo.None?
    ensures s.ctl.attachedTo.None? ==> r == s
    ensures r.ctl == s.ctl.(attachedTo := None)
    ensures r.world.paneOf == s.world.paneOf && r.memo == s.memo
    ensures r.world.maps.Keys == s.world.maps.Keys
    ensures s.ctl.attachedTo.Some? ==>
            var m := s.ctl.attachedTo.value;
            var p, p' := s.world.maps[m].panes, r.world.maps[m].panes;
            && OtherMapsKept(s, r, m) && OnlyPanesOf(s, r, m)
            && (s.ctl.activeLeft.Some? && LeftPane in p ==> p'[LeftPane] == NoClip)
            && (s.ctl.activeRight.Some? && RightPane in p ==> p'[RightPane] == NoClip)
            && (s.ctl.activeLeft.None? && LeftPane in p ==> p'[LeftPane] == p[LeftPane])
            && (s.ctl.activeRight.None? && RightPane in p ==> p'[RightPane] == p[RightPane])
            && (forall n :: n in p && n != LeftPane && n != RightPane ==> p'[n] == p[n])
  {
    if s.ctl.attachedTo.None? then s
    else
      var m := s.ctl.attachedTo.value;
      var h := s.world.maps[m];
      var panes := ResetClipIfActive(ResetClipIfActive(h.panes, s.ctl.activeLeft, LeftPane), s.ctl.activeRight, RightPane);
      s.(ctl := s.ctl.(attachedTo := None), world := s.world.(maps := s.world.maps[m := h.(panes := panes)]))
  }

  /**
    The set-up part of attaching to map `m`, before any layer is recomputed: the
    control now refers to `m`, the map has two fresh, unclipped side panes, and the
    divider and a slider at 0.5 are new. Nothing else changes.
   */
  function Attach(s: State, m: MapId): (r: State)
    requires Valid(s) && m in s.world.maps
    ensures Attached(r) && r.ctl == s.ctl.(attachedTo := Some(m), fraction := 0.5, divider := None)
    ensures HostOf(r).panes.Keys == s.world.maps[m].panes.Keys + {LeftPane, RightPane}
    ensures HostOf(r).panes[LeftPane] == NoClip && HostOf(r).panes[RightPane] == NoClip
    ensures forall n :: n in s.world.maps[m].panes && n != LeftPane && n != RightPane ==>
              HostOf(r).panes[n] == s.world.maps[m].panes[n]
    ensures r.world.paneOf == s.world.paneOf && r.memo == s.memo
    ensures OtherMapsKept(s, r, m)
    ensures HostOf(r).layers == s.world.maps[m].layers
    ensures HostOf(r).dragging == s.world.maps[m].dragging && HostOf(r).tap == s.world.maps[m].tap
  {
    var h := s.world.maps[m];
    s.(ctl := s.ctl.(attachedTo := Some(m), fraction := 0.5, divider := None),
       world := s.world.(maps := s.world.maps[m := h.(panes := h.panes[LeftPane := NoClip][RightPane := NoClip])]))
  }

  /**
    Attaches the control to map `m`: detaches first, then creates the two side panes
    unclipped, starts a fresh divider and a slider at 0.5, and recomputes the layers.
   */
  function AddTo(s: State, m: MapId, vp: Viewport): (r: Step)
    requires Valid(s) && m in s.world.maps
    ensures Attached(r.state) && r.state.ctl.attachedTo == Some(m)
    ensures r.state.ctl.fraction == 0.5
    ensures r.state.ctl.divider == Some(vp.width / 2.0)
    ensures r.state.ctl.left == s.ctl.left && r.state.ctl.right == s.ctl.right
    ensures LeftPane in HostOf(r.state).panes && RightPane in HostOf(r.state).panes
    ensures OtherMapsKept(Remove(s), r.state, m)
  {
    UpdateLayers(Attach(Remove(s), m), vp)
  }
}
