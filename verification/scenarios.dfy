/** Concrete runs of the control on small maps. */
module Scenarios {
  import opened Wrappers
  import opened Layers
  import opened Geometry
  import opened Notifications
  import opened SideBySide
  import opened Selection
  import SideBySideProps

  const X: Layer := Layer(1)
  const Y: Layer := Layer(2)

  /** An 800-pixel-wide viewport whose top-left corner is the layer origin. */
  const Wide: Viewport := Viewport(Point(0.0, 0.0), Point(800.0, 600.0), 800.0)

  /**
    One layer per side, both already on an 800-pixel map, default options: attaching
    activates both, fires one addition per side, and puts the divider at 400.
   */
  lemma AttachWithBothLayersPresent()
    ensures var map0 := Host({X, Y}, map[], true, None);
            var s := State(Construct(One(X), One(Y), None, None), World(map[0 := map0], map[]), NoMemo);
            var r := AddTo(s, 0, Wide);
      && r.state.ctl.activeLeft == Some(X)
      && r.state.ctl.activeRight == Some(Y)
      && r.state.ctl.divider == Some(400.0)
      && r.events == [LayerAdd(Left, X), LayerAdd(Right, Y), DividerMove(400.0)]
      && r.state.world.paneOf == map[X := LeftPane, Y := RightPane]
  {
    var map0 := Host({X, Y}, map[], true, None);
    var s := State(Construct(One(X), One(Y), None, None), World(map[0 := map0], map[]), NoMemo);
    var s2 := Attach(Remove(s), 0);
    assert s2.ctl.left == [X] && s2.ctl.right == [Y] && s2.ctl.options == Defaults;
    assert s2.ctl.activeLeft == None && s2.ctl.activeRight == None;
    assert HostOf(s2).layers == {X, Y} && s2.world.paneOf == map[];
    var l := Scan([X], {X, Y}, LeftPane, ScanState(None, map[]));
    assert l == Scan([], {X, Y}, LeftPane, ScanState(Some(X), map[X := LeftPane]));
    var rr := Scan([Y], {X, Y}, RightPane, l);
    assert rr == Scan([], {X, Y}, RightPane, ScanState(Some(Y), map[X := LeftPane][Y := RightPane]));
    var r := UpdateLayers(s2, Wide);
    assert r.state.ctl.activeLeft == Some(X) && r.state.ctl.activeRight == Some(Y);
    assert r.state.world.paneOf == map[X := LeftPane, Y := RightPane];
    assert Position(0.5, 800.0, Defaults) == 400.0;
    assert SideEvents(Left, None, Some(X)) == [LayerAdd(Left, X)];
    assert SideEvents(Right, None, Some(Y)) == [LayerAdd(Right, Y)];
    assert r.events == [LayerAdd(Left, X)] + [LayerAdd(Right, Y)] + [DividerMove(400.0)];
  }

  /**
    Of the candidates [A, B, C] with only B and C on the map, the control activates C:
    every candidate on the map overwrites the one before it.
   */
  lemma LastPresentCandidateWins()
    ensures var a, b, c := Layer(10), Layer(11), Layer(12);
            var map0 := Host({b, c}, map[], true, None);
            var s := State(Construct(Many([a, b, c]), Undefined, None, None), World(map[0 := map0], map[]), NoMemo);
      AddTo(s, 0, Wide).state.ctl.activeLeft == Some(c)
  {
    var a, b, c := Layer(10), Layer(11), Layer(12);
    var map0 := Host({b, c}, map[], true, None);
    var s := State(Construct(Many([a, b, c]), Undefined, None, None), World(map[0 := map0], map[]), NoMemo);
    var s2 := Attach(Remove(s), 0);
    var cands := [a, b, c];
    assert s2.ctl.left == cands && HostOf(s2).layers == {b, c};
    SideBySideProps.UpdateLayersSelects(s2, Wide);
    assert cands[2] in {b, c};
    var chosen := UpdateLayers(s2, Wide).state.ctl.activeLeft;
    assert chosen.Some?;
    assert IsLastPresent(cands, {b, c}, c);
    LastPresentUnique(cands, {b, c}, chosen.value, c);
  }
}
