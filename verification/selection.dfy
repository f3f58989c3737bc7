/**
  One side's pass over its candidates: every candidate on the map is moved onto the
  side's pane and remembered, so the one remembered at the end is the last candidate,
  in list order, that is on the map.
 */
module Selection {
  import opened Wrappers
  import opened Layers

  /** What the pass threads through: the layer it last found on the map and every layer's pane. */
  datatype ScanState = ScanState(active: Option<Layer>, panes: map<Layer, PaneName>)

  /** True iff layer `l` is assigned to pane `pane`; a layer missing from `panes` is on a pane of its own. */
  predicate OnPane(panes: map<Layer, PaneName>, l: Layer, pane: PaneName) {
    l in panes && panes[l] == pane
  }

  /** Handles one candidate that is on the map: remember it, and move it to `pane` unless it is already there. */
  function Visit(st: ScanState, l: Layer, pane: PaneName): ScanState {
    ScanState(Some(l), if OnPane(st.panes, l, pane) then st.panes else st.panes[l := pane])
  }

  /**
    The pass over `cands` in list order, visiting each candidate that is in `present`:
    it ends either on the layer it started from or on a candidate on the map
    (`ScanActive` says which, `ScanPanes` what it does to the panes).
   */
  function Scan(cands: seq<Layer>, present: set<Layer>, pane: PaneName, st: ScanState): (r: ScanState)
    ensures r.active == st.active || (r.active.Some? && r.active.value in PresentOf(cands, present))
    decreases |cands|
  {
    if cands == [] then
      st
    else
      var st' := if cands[0] in present then Visit(st, cands[0], pane) else st;
      PresentOfCons(cands, present);
      Scan(cands[1..], present, pane, st')
  }

  /** True iff some candidate is in `present`. */
  predicate AnyPresent(cands: seq<Layer>, present: set<Layer>) {
    exists i :: 0 <= i < |cands| && cands[i] in present
  }

  /** True iff `l` is a candidate in `present` and no later candidate is in `present`. */
  ghost predicate IsLastPresent(cands: seq<Layer>, present: set<Layer>, l: Layer) {
    exists i :: 0 <= i < |cands| && cands[i] == l && l in present &&
      forall j :: i < j < |cands| ==> cands[j] !in present
  }

  /** The candidates that are on the map. */
  function PresentOf(cands: seq<Layer>, present: set<Layer>): set<Layer> {
    set l | l in cands && l in present
  }

  /** `panes` with every layer of `moved` assigned to `pane` and every other assignment kept. */
  function Repane(panes: map<Layer, PaneName>, moved: set<Layer>, pane: PaneName): (r: map<Layer, PaneName>)
    ensures r.Keys == panes.Keys + moved
  {
    map l | l in panes.Keys + moved :: if l in moved then pane else panes[l]
  }

  /** At most one layer is the last present candidate. */
  lemma LastPresentUnique(cands: seq<Layer>, present: set<Layer>, a: Layer, b: Layer)
    requires IsLastPresent(cands, present, a)
    requires IsLastPresent(cands, present, b)
    ensures a == b
  {
    var i :| 0 <= i < |cands| && cands[i] == a && a in present &&
      forall j :: i < j < |cands| ==> cands[j] !in present;
    var k :| 0 <= k < |cands| && cands[k] == b && b in present &&
      forall j :: k < j < |cands| ==> cands[j] !in present;
    assert i == k;
  }

  /**
    The pass keeps its incoming layer when no candidate is on the map, and otherwise
    ends on the last candidate that is.
   */
  lemma {:induction false} ScanActive(cands: seq<Layer>, present: set<Layer>, pane: PaneName, st: ScanState)
    ensures !AnyPresent(cands, present) ==> Scan(cands, present, pane, st).active == st.active
    ensures AnyPresent(cands, present) ==>
      && Scan(cands, present, pane, st).active.Some?
      && IsLastPresent(cands, present, Scan(cands, present, pane, st).active.value)
    decreases |cands|
  {
    if cands != [] {
      var tail := cands[1..];
      var st' := if cands[0] in present then Visit(st, cands[0], pane) else st;
      ScanActive(tail, present, pane, st');
      assert Scan(cands, present, pane, st) == Scan(tail, present, pane, st');
      if AnyPresent(tail, present) {
        var r := Scan(tail, present, pane, st').active.value;
        var i :| 0 <= i < |tail| && tail[i] == r && r in present &&
          forall j :: i < j < |tail| ==> tail[j] !in present;
        assert cands[i + 1] == r;
        assert forall j :: i + 1 < j < |cands| ==> cands[j] == tail[j - 1];
      } else {
        assert forall j :: 0 < j < |cands| ==> cands[j] == tail[j - 1];
        if cands[0] in present {
          assert IsLastPresent(cands, present, cands[0]);
        } else {
          assert !AnyPresent(cands, present);
        }
      }
    }
  }

  /** The pass moves exactly the candidates on the map onto `pane` and leaves every other assignment alone. */
  lemma {:induction false} ScanPanes(cands: seq<Layer>, present: set<Layer>, pane: PaneName, st: ScanState)
    ensures Scan(cands, present, pane, st).panes == Repane(st.panes, PresentOf(cands, present), pane)
    decreases |cands|
  {
    if cands == [] {
      RepaneNothing(st.panes, pane);
    } else {
      var tail := cands[1..];
      var st' := if cands[0] in present then Visit(st, cands[0], pane) else st;
      ScanPanes(tail, present, pane, st');
      PresentOfCons(cands, present);
      if cands[0] in present {
        VisitRepanes(st, cands[0], pane);
        RepaneTwice(st.panes, {cands[0]}, PresentOf(tail, present), pane);
      }
    }
  }

  /** The candidates on the map are the first one, if it is on the map, and those of the rest. */
  lemma PresentOfCons(cands: seq<Layer>, present: set<Layer>)
    requires cands != []
    ensures PresentOf(cands, present) ==
      (if cands[0] in present then {cands[0]} else {}) + PresentOf(cands[1..], present)
  {
    assert cands == [cands[0]] + cands[1..];
    assert forall l :: l in cands <==> l == cands[0] || l in cands[1..];
  }

  /** Moving no layer changes no assignment. */
  lemma RepaneNothing(panes: map<Layer, PaneName>, pane: PaneName)
    ensures Repane(panes, {}, pane) == panes
  {
  }

  /** Visiting a layer moves that one layer onto the pane. */
  lemma VisitRepanes(st: ScanState, l: Layer, pane: PaneName)
    ensures Visit(st, l, pane).panes == Repane(st.panes, {l}, pane)
  {
  }

  /** Which layer the pass ends on does not depend on the pane assignments it starts from. */
  lemma {:induction false} ScanActiveIgnoresPanes(cands: seq<Layer>, present: set<Layer>, pane: PaneName,
                                                  active: Option<Layer>, p: map<Layer, PaneName>, q: map<Layer, PaneName>)
    ensures Scan(cands, present, pane, ScanState(active, p)).active == Scan(cands, present, pane, ScanState(active, q)).active
    decreases |cands|
  {
    if cands != [] {
      var sp := if cands[0] in present then Visit(ScanState(active, p), cands[0], pane) else ScanState(active, p);
      var sq := if cands[0] in present then Visit(ScanState(active, q), cands[0], pane) else ScanState(active, q);
      ScanActiveIgnoresPanes(cands[1..], present, pane, sp.active, sp.panes, sq.panes);
    }
  }

  /** Moving two sets of layers onto the same pane one after the other is moving their union. */
  lemma RepaneTwice(panes: map<Layer, PaneName>, a: set<Layer>, b: set<Layer>, pane: PaneName)
    ensures Repane(Repane(panes, a, pane), b, pane) == Repane(panes, a + b, pane)
  {
  }
}
