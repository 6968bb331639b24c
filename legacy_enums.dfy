/** Axis, edge and attribute mappings of the older revision, and its inset
    selectors on an edge-insets value. */
module LegacyEnums {
  import opened Types

  /** `Axis.other` */
  function Other(a: Axis): (o: Axis)
    ensures o != a
  {
    if a == Y then X else Y
  }

  lemma OtherInvolution(a: Axis)
    ensures Other(Other(a)) == a
  {
  }

  /** `Axis.edgeForPosition(_:)` */
  function EdgeForPosition(a: Axis, p: Position): (e: BoxEdge)
    ensures a == Y ==> e == [BoxEdge.Top, BoxEdge.CenterY, BoxEdge.Bottom][PositionIndex(p)]
    ensures a == X ==> e == [BoxEdge.Left, BoxEdge.CenterX, BoxEdge.Right][PositionIndex(p)]
  {
    match p
    case Begin => if a == Y then BoxEdge.Top else BoxEdge.Left
    case Center => if a == Y then BoxEdge.CenterY else BoxEdge.CenterX
    case End => if a == Y then BoxEdge.Bottom else BoxEdge.Right
  }

  /** Begin, center, end in order. */
  function PositionIndex(p: Position): (i: nat)
    ensures i < 3
  {
    match p
    case Begin => 0
    case Center => 1
    case End => 2
  }

  /** `BoxEdge.attribute(semanticDependent:)` */
  function EdgeAttribute(e: BoxEdge, semanticDependent: bool): (r: Attribute)
    ensures r == Leading <==> semanticDependent && e == BoxEdge.Left
    ensures r == Trailing <==> semanticDependent && e == BoxEdge.Right
    ensures r != Leading && r != Trailing ==> AttributeEdge(r) == Some(e)
  {
    match e
    case Left => if semanticDependent then Leading else Attribute.Left
    case Right => if semanticDependent then Trailing else Attribute.Right
    case Top => Attribute.Top
    case Bottom => Attribute.Bottom
    case CenterX => Attribute.CenterX
    case CenterY => Attribute.CenterY
  }

  /** `NSLayoutConstraint.Attribute.edge` */
  function AttributeEdge(a: Attribute): (r: Option<BoxEdge>)
    ensures r.Some? <==> a in {Attribute.Left, Attribute.Right, Attribute.Top,
                               Attribute.Bottom, Attribute.CenterX, Attribute.CenterY}
  {
    match a
    case Left => Some(BoxEdge.Left)
    case Right => Some(BoxEdge.Right)
    case Top => Some(BoxEdge.Top)
    case Bottom => Some(BoxEdge.Bottom)
    case CenterX => Some(BoxEdge.CenterX)
    case CenterY => Some(BoxEdge.CenterY)
    case _ => None
  }

  lemma AttributeEdgeInverse(e: BoxEdge, a: Attribute)
    ensures AttributeEdge(EdgeAttribute(e, false)) == Some(e)
    ensures AttributeEdge(a).Some? ==> EdgeAttribute(AttributeEdge(a).value, false) == a
  {
  }

  /** `UIEdgeInsets.begin(_:)`: top for y, left for x. */
  function InsetBegin(i: Insets, a: Axis): (v: real)
    ensures v == (if a == Y then i.top else i.left)
    ensures v == SideInset(i, EdgeForPosition(a, Begin))
  {
    if a == Y then i.top else i.left
  }

  /** `UIEdgeInsets.end(_:)`: bottom for y, right for x. */
  function InsetEnd(i: Insets, a: Axis): (v: real)
    ensures v == (if a == Y then i.bottom else i.right)
    ensures v == SideInset(i, EdgeForPosition(a, End))
  {
    if a == Y then i.bottom else i.right
  }

  /** `UIEdgeInsets.insetForAxis(_:position:)` */
  function InsetForAxis(i: Insets, a: Axis, p: Position): (v: real)
    ensures p == Begin ==> v == InsetBegin(i, a)
    ensures p == End ==> v == InsetEnd(i, a)
    ensures p == Center ==> v == 0.0
  {
    match p
    case Begin => if a == Y then i.top else i.left
    case Center => 0.0
    case End => if a == Y then i.bottom else i.right
  }

  /** At every position the inset is the inset on the side of that
      position's edge, and nothing for the centre. */
  lemma InsetForAxisIsSideInset(i: Insets, a: Axis, p: Position)
    ensures InsetForAxis(i, a, p) == SideInset(i, EdgeForPosition(a, p))
  {
  }

  /** The inset of an edge on the cross axis is the inset on that edge's side. */
  lemma InsetForAxisBySide(i: Insets)
    ensures InsetForAxis(i, Y, Begin) == i.top && InsetForAxis(i, Y, End) == i.bottom
    ensures InsetForAxis(i, X, Begin) == i.left && InsetForAxis(i, X, End) == i.right
  {
  }
}
