/** The tap-target padding modifier's arithmetic
    (Sources/KYSwiftUI/TappablePadding.swift): which insets it pads by on
    each edge, the equal-and-opposite padding that undoes them, and how the
    public overloads fill in the edges and the insets. */
module Padding {
  import opened Platform

  /** `TappablePadding`: the edges to expand, the optional insets, and the
      tap callback, which this model only passes along. `edges` defaults
      to `.all`. */
  datatype TappablePadding<Action> = TappablePadding(
    edges: set<Edge> := AllEdges,
    insets: Option<EdgeInsets>,
    perform: Action)
  {
    /** `insetsValue`: the supplied inset on every edge in `edges`, and 0 on
        an edge outside `edges` or when no insets were supplied. */
    function InsetsValue(): (r: EdgeInsets)
      ensures forall e :: r.Amount(e) == if e in edges && insets.Some? then insets.value.Amount(e) else 0.0
    {
      EdgeInsets(
        top := if Top in edges then OrZero(insets.Map((i: EdgeInsets) => i.top)) else 0.0,
        leading := if Leading in edges then OrZero(insets.Map((i: EdgeInsets) => i.leading)) else 0.0,
        bottom := if Bottom in edges then OrZero(insets.Map((i: EdgeInsets) => i.bottom)) else 0.0,
        trailing := if Trailing in edges then OrZero(insets.Map((i: EdgeInsets) => i.trailing)) else 0.0)
    }
  }

  /** Swift's `?? .zero`. */
  function OrZero(length: Option<real>): real
  {
    match length
    case Some(v) => v
    case None => 0.0
  }

  /** `EdgeInsets.inverted`: every edge negated. */
  function Inverted(insets: EdgeInsets): (r: EdgeInsets)
    ensures forall e :: r.Amount(e) == -insets.Amount(e)
  {
    EdgeInsets(top := -insets.top, leading := -insets.leading, bottom := -insets.bottom, trailing := -insets.trailing)
  }

  /** `EdgeInsets(_all:)`: the same inset on every edge. */
  function Uniform(all: real): (r: EdgeInsets)
    ensures forall e :: r.Amount(e) == all
  {
    EdgeInsets(top := all, leading := all, bottom := all, trailing := all)
  }

  /** Inverting twice gives back the original insets. */
  lemma InvertedTwice(insets: EdgeInsets)
    ensures Inverted(Inverted(insets)) == insets
  {
  }

  /** The outer padding by `insetsValue.inverted` exactly cancels the inner
      padding by `insetsValue`: their sum is 0 on every edge. */
  lemma PaddingCancels<Action>(modifier: TappablePadding<Action>)
    ensures forall e :: modifier.InsetsValue().Amount(e) + Inverted(modifier.InsetsValue()).Amount(e) == 0.0
  {
  }

  /** Without insets the modifier pads by 0 on every edge, whatever `edges` is. */
  lemma NoInsetsNoPadding<Action>(edges: set<Edge>, perform: Action)
    ensures TappablePadding(edges, None, perform).InsetsValue() == EdgeInsets(0.0, 0.0, 0.0, 0.0)
  {
  }

  /** With every edge selected the modifier pads by exactly the supplied
      insets; with no edge selected it pads by nothing. */
  lemma EdgesSelectInsets<Action>(insets: EdgeInsets, perform: Action)
    ensures TappablePadding(AllEdges, Some(insets), perform).InsetsValue() == insets
    ensures TappablePadding({}, Some(insets), perform).InsetsValue() == EdgeInsets(0.0, 0.0, 0.0, 0.0)
  {
  }

  /** Masking is restriction: masking insets that were already masked by
      `first` with `second` is masking the original with both at once. */
  lemma MaskTwice<Action>(first: set<Edge>, second: set<Edge>, insets: EdgeInsets, perform: Action)
    ensures TappablePadding(second, Some(TappablePadding(first, Some(insets), perform).InsetsValue()), perform).InsetsValue()
         == TappablePadding(first * second, Some(insets), perform).InsetsValue()
  {
  }

  /** Selecting a single edge pads that edge by its supplied inset and
      leaves the other three edges where they were. */
  lemma SingleEdge<Action>(selected: Edge, insets: EdgeInsets, perform: Action)
    ensures forall e :: TappablePadding({selected}, Some(insets), perform).InsetsValue().Amount(e)
                        == if e == selected then insets.Amount(e) else 0.0
  {
  }

  /** `tappablePadding(_ insets:perform:)`: every edge, the given insets,
      so the modifier pads by exactly those insets. */
  function TappablePaddingInsets<Action>(insets: EdgeInsets, perform: Action): (m: TappablePadding<Action>)
    ensures m.edges == AllEdges && m.perform == perform
    ensures m.InsetsValue() == insets
  {
    EdgesSelectInsets(insets, perform);
    TappablePadding(insets := Some(insets), perform := perform)
  }

  /** `tappablePadding(_ edges:_ length:perform:)`: no insets when `length`
      is nil, otherwise `length` on every edge; the modifier then pads by
      `length` on the selected edges and by 0 elsewhere. */
  function TappablePaddingEdges<Action>(edges: set<Edge> := AllEdges, length: Option<real>, perform: Action): (m: TappablePadding<Action>)
    ensures m.edges == edges && m.perform == perform
    ensures m.insets.None? <==> length.None?
    ensures length.Some? ==> m.insets == Some(Uniform(length.value))
    ensures forall e :: m.InsetsValue().Amount(e) == if e in edges && length.Some? then length.value else 0.0
  {
    var insets := length.Map(Uniform);
    TappablePadding(edges, insets, perform)
  }

  /** `tappablePadding(_ length:perform:)`: every edge, padded by `length`. */
  function TappablePaddingLength<Action>(length: real, perform: Action): (m: TappablePadding<Action>)
    ensures m.edges == AllEdges && m.perform == perform
    ensures m.InsetsValue() == Uniform(length)
  {
    EdgesSelectInsets(Uniform(length), perform);
    TappablePaddingEdges(AllEdges, Some(length), perform)
  }
}
