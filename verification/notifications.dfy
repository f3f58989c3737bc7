/**
  The notifications the control fires, the per-side diff of the active layer, and a
  subscriber that follows a side's active layer from the notifications alone.
 */
module Notifications {
  import opened Wrappers
  import opened Layers

  datatype Side = Left | Right

  /**
    `LayerRemove(Left, l)` is `leftlayerremove` carrying `l`, `LayerAdd(Right, l)` is
    `rightlayeradd`, and so on; `DividerMove(x)` is `dividermove` carrying `x`.
   */
  datatype Event = LayerRemove(side: Side, layer: Layer) | LayerAdd(side: Side, layer: Layer) | DividerMove(x: real)

  /** True iff `e` is a layer notification of `side`. */
  predicate IsOfSide(e: Event, side: Side) {
    !e.DividerMove? && e.side == side
  }

  /**
    The notifications for one side whose active layer went from `prev` to `next`:
    none when it did not change, otherwise the removal of the old layer (if any)
    followed by the addition of the new one (if any).
   */
  function SideEvents(side: Side, prev: Option<Layer>, next: Option<Layer>): (r: seq<Event>)
    ensures r == [] <==> prev == next
    ensures |r| <= 2
    ensures forall i :: 0 <= i < |r| ==> IsOfSide(r[i], side)
    ensures prev != next && prev.Some? ==> r[0] == LayerRemove(side, prev.value)
    ensures prev != next && next.Some? ==> r[|r| - 1] == LayerAdd(side, next.value)
    ensures forall i :: 0 <= i < |r| && r[i].LayerRemove? ==> i == 0 && prev == Some(r[i].layer)
    ensures forall i :: 0 <= i < |r| && r[i].LayerAdd? ==> i == |r| - 1 && next == Some(r[i].layer)
  {
    if prev == next then []
    else
      (if prev.Some? then [LayerRemove(side, prev.value)] else []) +
      (if next.Some? then [LayerAdd(side, next.value)] else [])
  }

  /** The notifications of `evs` that belong to `side`, in order. */
  function OfSide(evs: seq<Event>, side: Side): (r: seq<Event>)
    ensures |r| <= |evs|
    ensures forall i :: 0 <= i < |r| ==> IsOfSide(r[i], side) && r[i] in evs
    decreases |evs|
  {
    if evs == [] then []
    else (if IsOfSide(evs[0], side) then [evs[0]] else []) + OfSide(evs[1..], side)
  }

  /** A subscriber's view of `side` after one notification: an addition names the layer, a removal of it forgets it. */
  function Apply(side: Side, cur: Option<Layer>, e: Event): Option<Layer> {
    match e
    case LayerAdd(s, l) => if s == side then Some(l) else cur
    case LayerRemove(s, l) => if s == side && cur == Some(l) then None else cur
    case DividerMove(_) => cur
  }

  /** A subscriber's view of `side` after a whole sequence of notifications. */
  function Track(side: Side, cur: Option<Layer>, evs: seq<Event>): Option<Layer>
    decreases |evs|
  {
    if evs == [] then cur else Track(side, Apply(side, cur, evs[0]), evs[1..])
  }

  /** Following two sequences of notifications one after the other is following their concatenation. */
  lemma {:induction false} TrackAppend(side: Side, cur: Option<Layer>, a: seq<Event>, b: seq<Event>)
    ensures Track(side, cur, a + b) == Track(side, Track(side, cur, a), b)
    decreases |a|
  {
    if a == [] {
      assert a + b == b;
    } else {
      assert (a + b)[0] == a[0];
      assert (a + b)[1..] == a[1..] + b;
      TrackAppend(side, Apply(side, cur, a[0]), a[1..], b);
    }
  }

  /** A subscriber that knew the old active layer knows the new one after the side's diff. */
  lemma TrackSideEvents(side: Side, prev: Option<Layer>, next: Option<Layer>)
    ensures Track(side, prev, SideEvents(side, prev, next)) == next
  {
    var evs := SideEvents(side, prev, next);
    if prev != next {
      if prev.Some? && next.Some? {
        var rest := [LayerAdd(side, next.value)];
        assert evs == [LayerRemove(side, prev.value)] + rest;
        assert Track(side, prev, evs) == Track(side, None, rest);
        assert Track(side, None, rest) == Track(side, next, []);
      }
    }
  }

  /** The diff of one side leaves a subscriber's view of the other side alone. */
  lemma TrackOtherSide(side: Side, other: Side, cur: Option<Layer>, prev: Option<Layer>, next: Option<Layer>)
    requires side != other
    ensures Track(other, cur, SideEvents(side, prev, next)) == cur
  {
    var evs := SideEvents(side, prev, next);
    if prev != next && prev.Some? && next.Some? {
      var rest := [LayerAdd(side, next.value)];
      assert evs == [LayerRemove(side, prev.value)] + rest;
      assert Track(other, cur, evs) == Track(other, cur, rest);
      assert Track(other, cur, rest) == Track(other, cur, []);
    }
  }

  /** A divider notification leaves a subscriber's view of either side alone. */
  lemma TrackDividerMove(side: Side, cur: Option<Layer>, x: real)
    ensures Track(side, cur, [DividerMove(x)]) == cur
  {
  }

  /** Picking one side's notifications out of a concatenation picks them out of each part. */
  lemma {:induction false} OfSideAppend(a: seq<Event>, b: seq<Event>, side: Side)
    ensures OfSide(a + b, side) == OfSide(a, side) + OfSide(b, side)
    decreases |a|
  {
    if a == [] {
      assert a + b == b;
    } else {
      assert (a + b)[0] == a[0];
      assert (a + b)[1..] == a[1..] + b;
      OfSideAppend(a[1..], b, side);
    }
  }

  /** A side's diff consists of that side's notifications only. */
  lemma OfSideSideEvents(side: Side, other: Side, prev: Option<Layer>, next: Option<Layer>)
    requires side != other
    ensures OfSide(SideEvents(side, prev, next), side) == SideEvents(side, prev, next)
    ensures OfSide(SideEvents(side, prev, next), other) == []
  {
    var evs := SideEvents(side, prev, next);
    if |evs| == 2 {
      assert evs == [evs[0]] + [evs[1]];
      OfSideAppend([evs[0]], [evs[1]], side);
      OfSideAppend([evs[0]], [evs[1]], other);
    }
  }
}
