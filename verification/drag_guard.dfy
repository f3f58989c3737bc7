/**
  The guard that keeps a slider drag from panning the map: pressing the slider saves
  and switches off the attached map's drag and tap gestures, releasing it switches
  back on whichever of them were on.
 */
module DragGuard {
  import opened Wrappers
  import opened SideBySide

  /** The attached map with its gesture flags replaced, and every other part of the state as in `s`. */
  function WithGestures(s: State, dragging: bool, tap: Option<bool>, memo: DragMemo): (r: State)
    requires Attached(s)
    ensures Attached(r) && r.ctl == s.ctl && r.memo == memo
    ensures HostOf(r) == HostOf(s).(dragging := dragging, tap := tap)
    ensures r.world.paneOf == s.world.paneOf && OtherMapsKept(s, r, s.ctl.attachedTo.value)
  {
    var m := s.ctl.attachedTo.value;
    s.(world := s.world.(maps := s.world.maps[m := HostOf(s).(dragging := dragging, tap := tap)]), memo := memo)
  }

  /**
    Pointer or touch down on the slider: remember whether dragging was on and whether
    the map has a tap handler that was on, then switch dragging off and the tap
    handler, if there is one, off too.
   */
  function CancelMapDrag(s: State): (r: State)
    requires Attached(s)
    ensures Attached(r) && r.ctl == s.ctl
    ensures r.memo == DragMemo(HostOf(s).dragging, HostOf(s).tap == Some(true))
    ensures !HostOf(r).dragging
    ensures HostOf(r).tap == (if HostOf(s).tap.Some? then Some(false) else None)
    ensures HostOf(r).layers == HostOf(s).layers && HostOf(r).panes == HostOf(s).panes
  {
    var h := HostOf(s);
    WithGestures(s, false, if h.tap.Some? then Some(false) else None, DragMemo(h.dragging, h.tap == Some(true)))
  }

  /**
    Pointer or touch up: switch dragging back on if it was on at the last press, and
    likewise the tap handler; a gesture that was off is left as it is now. The tap
    handler is only touched when it was remembered as on, which needs the map to
    have one.
   */
  function UncancelMapDrag(s: State): (r: State)
    requires Attached(s)
    requires s.memo.wasTap ==> HostOf(s).tap.Some?
    ensures Attached(r) && r.ctl == s.ctl && r.memo == s.memo
    ensures HostOf(r).dragging == (s.memo.wasDrag || HostOf(s).dragging)
    ensures HostOf(r).tap == (if s.memo.wasTap then Some(true) else HostOf(s).tap)
    ensures HostOf(r).layers == HostOf(s).layers && HostOf(r).panes == HostOf(s).panes
  {
    var h := HostOf(s);
    WithGestures(s, if s.memo.wasDrag then true else h.dragging, if s.memo.wasTap then Some(true) else h.tap, s.memo)
  }

  /**
    A press followed by a release leaves the world exactly as before the press:
    dragging on iff it was on, the tap handler on iff it was on, and a map without a
    tap handler still without one.
   */
  lemma DragRoundTrip(s: State)
    requires Attached(s)
    ensures var c := CancelMapDrag(s);
      && (c.memo.wasTap ==> HostOf(c).tap.Some?)
      && UncancelMapDrag(c).world == s.world
      && UncancelMapDrag(c).ctl == s.ctl
  {
    var c := CancelMapDrag(s);
    var u := UncancelMapDrag(c);
    assert HostOf(u).dragging == HostOf(s).dragging;
    match HostOf(s).tap {
      case None =>
      case Some(on) => assert c.memo.wasTap == on;
    }
    assert HostOf(u).tap == HostOf(s).tap;
    assert HostOf(u) == HostOf(s);
    assert u.world.maps == s.world.maps;
  }

  /** A release with nothing remembered switches nothing on. */
  lemma UncancelWithoutCancel(s: State)
    requires Attached(s) && s.memo == NoMemo
    ensures UncancelMapDrag(s).world == s.world
  {
    var u := UncancelMapDrag(s);
    assert HostOf(u) == HostOf(s);
    assert u.world.maps == s.world.maps;
  }

  /**
    Only the last press is remembered: two presses in a row, then a release, leave
    dragging off even when it was on before the first press.
   */
  lemma SecondCancelForgetsFirst(s: State)
    requires Attached(s)
    ensures var c := CancelMapDrag(CancelMapDrag(s));
      && !c.memo.wasDrag && !c.memo.wasTap
      && !HostOf(UncancelMapDrag(c)).dragging
  {
  }
}
