/**
  Layer handles, pane names and the normalisation of a layer argument into
  a candidate sequence.
 */
module Layers {

  /** An opaque map layer; two handles are the same layer exactly when they are equal. */
  datatype Layer = Layer(id: nat)

  /** The name of a rendering pane of the host map. */
  type PaneName = string

  /** The two panes the control creates, one per side. */
  const LeftPane: PaneName := "leftPane"
  const RightPane: PaneName := "rightPane"

  /** What a caller may pass as a side's layers: nothing, an array, or one value. */
  datatype Arg = Undefined | Many(items: seq<Layer>) | One(item: Layer)

  /** True iff `l` is one of the layers the argument names. */
  predicate Names(a: Arg, l: Layer) {
    match a
    case Undefined => false
    case Many(items) => l in items
    case One(item) => l == item
  }

  /** Normalises a layer argument into the sequence of candidates it names. */
  function AsArray(a: Arg): (r: seq<Layer>)
    ensures a.Undefined? ==> r == []
    ensures a.Many? ==> r == a.items
    ensures a.One? ==> r == [a.item]
    ensures forall l :: l in r <==> Names(a, l)
  {
    match a
    case Undefined => []
    case Many(items) => items
    case One(item) => [item]
  }
}
