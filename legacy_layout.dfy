/** The layout descriptor of the older revision: six optional edge pins,
    plus the fixed sizes, relative sizes and flex weight its engine reads,
    with the factories, the single-edge update and the per-axis readers. */
module LegacyLayout {
  import opened Types
  import opened LegacyPin
  import opened LegacyEnums

  datatype BoxLayout = BoxLayout(
    left: Option<Pin>, right: Option<Pin>, centerX: Option<Pin>,
    top: Option<Pin>, bottom: Option<Pin>, centerY: Option<Pin>,
    width: Option<Pin>, height: Option<Pin>,
    relativeWidth: Option<MultiPin>, relativeHeight: Option<MultiPin>,
    flex: Option<real>)

  /** `BoxLayout()`: nothing set. */
  function Empty(): (l: BoxLayout)
    ensures forall e :: PinFor(l, e).None?
    ensures l.width.None? && l.height.None? && l.relativeWidth.None? && l.relativeHeight.None? && l.flex.None?
  {
    BoxLayout(None, None, None, None, None, None, None, None, None, None, None)
  }

  /** The pin a layout holds for an edge. */
  function PinFor(l: BoxLayout, e: BoxEdge): Option<Pin>
  {
    match e
    case Left => l.left
    case Right => l.right
    case CenterX => l.centerX
    case Top => l.top
    case Bottom => l.bottom
    case CenterY => l.centerY
  }

  /** Two layouts that agree everywhere except possibly on edge pins. */
  predicate SameExtras(a: BoxLayout, b: BoxLayout)
  {
    a.width == b.width && a.height == b.height && a.relativeWidth == b.relativeWidth
    && a.relativeHeight == b.relativeHeight && a.flex == b.flex
  }

  /** `withPins(top:left:bottom:right:)`: the four side pins, no centres. */
  function WithPins(top: Option<Pin>, left: Option<Pin>, bottom: Option<Pin>, right: Option<Pin>): (l: BoxLayout)
    ensures l.top == top && l.left == left && l.bottom == bottom && l.right == right
    ensures l.centerX.None? && l.centerY.None? && SameExtras(l, Empty())
  {
    BoxLayout(left, right, None, top, bottom, None, None, None, None, None, None)
  }

  /** `BoxLayout.zero`: zero pins on the four sides, no centres. */
  function Zero(): (l: BoxLayout)
    ensures l == WithPins(Some(LegacyPin.Zero()), Some(LegacyPin.Zero()), Some(LegacyPin.Zero()), Some(LegacyPin.Zero()))
    ensures forall e :: e != BoxEdge.CenterX && e != BoxEdge.CenterY ==> PinFor(l, e) == Some(LegacyPin.Zero())
    ensures PinFor(l, BoxEdge.CenterX).None? && PinFor(l, BoxEdge.CenterY).None?
  {
    var z := Some(LegacyPin.Zero());
    WithPins(z, z, z, z)
  }

  /** `pairs(x:y:)`: the x pair on left and right, the y pair on top and
      bottom. */
  function Pairs(x: Pair, y: Pair): (l: BoxLayout)
    ensures l.left == x.begin && l.right == x.end && l.top == y.begin && l.bottom == y.end
    ensures l.centerX.None? && l.centerY.None?
  {
    WithPins(y.begin, x.begin, y.end, x.end)
  }

  /** `setPin(_:for:)`, and `with(_:_:)` which applies it to a copy: the
      edge reads the new pin and everything else is unchanged. */
  function With(l: BoxLayout, e: BoxEdge, p: Option<Pin>): (r: BoxLayout)
    ensures PinFor(r, e) == p
    ensures forall e2 :: e2 != e ==> PinFor(r, e2) == PinFor(l, e2)
    ensures SameExtras(r, l)
  {
    match e
    case Left => l.(left := p)
    case Right => l.(right := p)
    case CenterX => l.(centerX := p)
    case Top => l.(top := p)
    case Bottom => l.(bottom := p)
    case CenterY => l.(centerY := p)
  }

  /** Two layouts with the same pins and extras are equal. */
  lemma Extensionality(a: BoxLayout, b: BoxLayout)
    requires forall e :: PinFor(a, e) == PinFor(b, e)
    requires SameExtras(a, b)
    ensures a == b
  {
    assert PinFor(a, BoxEdge.Left) == PinFor(b, BoxEdge.Left);
    assert PinFor(a, BoxEdge.Right) == PinFor(b, BoxEdge.Right);
    assert PinFor(a, BoxEdge.CenterX) == PinFor(b, BoxEdge.CenterX);
    assert PinFor(a, BoxEdge.Top) == PinFor(b, BoxEdge.Top);
    assert PinFor(a, BoxEdge.Bottom) == PinFor(b, BoxEdge.Bottom);
    assert PinFor(a, BoxEdge.CenterY) == PinFor(b, BoxEdge.CenterY);
  }

  /** The last write to an edge wins. */
  lemma WithLastWins(l: BoxLayout, e: BoxEdge, p: Option<Pin>, q: Option<Pin>)
    ensures With(With(l, e, p), e, q) == With(l, e, q)
  {
    Extensionality(With(With(l, e, p), e, q), With(l, e, q));
  }

  /** Writes to different edges commute. */
  lemma WithCommutes(l: BoxLayout, e1: BoxEdge, p: Option<Pin>, e2: BoxEdge, q: Option<Pin>)
    requires e1 != e2
    ensures With(With(l, e1, p), e2, q) == With(With(l, e2, q), e1, p)
  {
    Extensionality(With(With(l, e1, p), e2, q), With(With(l, e2, q), e1, p));
  }

  /** Whether the entries of an edge dictionary have distinct keys. */
  predicate DistinctKeys(entries: seq<(BoxEdge, Option<Pin>)>)
  {
    forall i, j :: 0 <= i < j < |entries| ==> entries[i].0 != entries[j].0
  }

  /** The loop of `boxEdgePins(_:)` over the dictionary's entries in the
      order it visits them, starting from `zero`. */
  function BoxEdgePins(entries: seq<(BoxEdge, Option<Pin>)>): (l: BoxLayout)
    decreases |entries|
  {
    if |entries| == 0 then Zero()
    else
      var last := entries[|entries| - 1];
      With(BoxEdgePins(entries[..|entries| - 1]), last.0, last.1)
  }

  /** With distinct keys, whatever the visiting order, every listed edge
      reads its entry and every other edge keeps its `zero` pin. */
  lemma {:induction false} BoxEdgePinsOverrides(entries: seq<(BoxEdge, Option<Pin>)>)
    requires DistinctKeys(entries)
    ensures forall i :: 0 <= i < |entries| ==> PinFor(BoxEdgePins(entries), entries[i].0) == entries[i].1
    ensures forall e :: (forall i :: 0 <= i < |entries| ==> entries[i].0 != e) ==> PinFor(BoxEdgePins(entries), e) == PinFor(Zero(), e)
    ensures SameExtras(BoxEdgePins(entries), Zero())
    decreases |entries|
  {
    if |entries| > 0 {
      var init := entries[..|entries| - 1];
      BoxEdgePinsOverrides(init);
    }
  }

  /** `xAligned(offset:padding:)`: centre x at the offset, `>=padding` on left
      and right when a padding is given (none otherwise), zero on top and
      bottom. */
  function XAligned(offset: real, padding: Option<real>): (l: BoxLayout)
    ensures l.centerX == Some(PrefixEqual(offset)) && l.centerY.None?
    ensures padding.Some? ==> l.left == Some(PrefixGreaterThanOrEqual(padding.value)) && l.right == l.left
    ensures padding.None? ==> l.left.None? && l.right.None?
    ensures l.top == Some(LegacyPin.Zero()) && l.bottom == Some(LegacyPin.Zero())
    ensures SameExtras(l, Empty())
  {
    var side := if padding.Some? then Some(PrefixGreaterThanOrEqual(padding.value)) else None;
    BoxLayout(side, side, Some(PrefixEqual(offset)), Some(LegacyPin.Zero()), Some(LegacyPin.Zero()), None,
              None, None, None, None, None)
  }

  /** `yAligned(offset:padding:)`: the same on the other axis. */
  function YAligned(offset: real, padding: Option<real>): (l: BoxLayout)
    ensures l.centerY == Some(PrefixEqual(offset)) && l.centerX.None?
    ensures padding.Some? ==> l.top == Some(PrefixGreaterThanOrEqual(padding.value)) && l.bottom == l.top
    ensures padding.None? ==> l.top.None? && l.bottom.None?
    ensures l.left == Some(LegacyPin.Zero()) && l.right == Some(LegacyPin.Zero())
    ensures SameExtras(l, Empty())
  {
    var side := if padding.Some? then Some(PrefixGreaterThanOrEqual(padding.value)) else None;
    BoxLayout(Some(LegacyPin.Zero()), Some(LegacyPin.Zero()), None, side, side, Some(PrefixEqual(offset)),
              None, None, None, None, None)
  }

  /** `yAligned` is `xAligned` with the axes exchanged. */
  lemma AlignedMirror(offset: real, padding: Option<real>)
    ensures YAligned(offset, padding).centerY == XAligned(offset, padding).centerX
    ensures YAligned(offset, padding).top == XAligned(offset, padding).left
    ensures YAligned(offset, padding).left == XAligned(offset, padding).top
  {
  }

  /** `begin(_:)`, `end(_:)`, `center(_:)`: top, bottom and centre y on y;
      left, right and centre x on x. */
  function BeginPin(l: BoxLayout, a: Axis): (p: Option<Pin>)
    ensures p == PinFor(l, if a == Y then BoxEdge.Top else BoxEdge.Left)
  {
    if a == Y then l.top else l.left
  }

  function EndPin(l: BoxLayout, a: Axis): (p: Option<Pin>)
    ensures p == PinFor(l, if a == Y then BoxEdge.Bottom else BoxEdge.Right)
  {
    if a == Y then l.bottom else l.right
  }

  function CenterPin(l: BoxLayout, a: Axis): (p: Option<Pin>)
    ensures p == PinFor(l, if a == Y then BoxEdge.CenterY else BoxEdge.CenterX)
  {
    if a == Y then l.centerY else l.centerX
  }

  /** `pinForAxis(_:position:)` */
  function PinForAxis(l: BoxLayout, a: Axis, pos: Position): (p: Option<Pin>)
    ensures p == PinFor(l, EdgeForPosition(a, pos))
  {
    match pos
    case Begin => if a == Y then l.top else l.left
    case Center => if a == Y then l.centerY else l.centerX
    case End => if a == Y then l.bottom else l.right
  }

  /** The per-position readers agree with `pinForAxis`. */
  lemma ReadersAgree(l: BoxLayout, a: Axis)
    ensures BeginPin(l, a) == PinForAxis(l, a, Begin)
    ensures CenterPin(l, a) == PinForAxis(l, a, Center)
    ensures EndPin(l, a) == PinForAxis(l, a, End)
  {
  }

  /** `withFlex(_:)`: the same layout with that flex weight. */
  function WithFlex(l: BoxLayout, v: real): (r: BoxLayout)
    ensures r.flex == Some(v)
    ensures forall e :: PinFor(r, e) == PinFor(l, e)
    ensures r.width == l.width && r.height == l.height
    ensures r.relativeWidth == l.relativeWidth && r.relativeHeight == l.relativeHeight
  {
    l.(flex := Some(v))
  }
}
