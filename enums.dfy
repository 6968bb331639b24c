/** Axis, edge, position and attribute mappings of the current revision. */
module Enums {
  import opened Types

  /** `Axis.other` */
  function Other(a: Axis): (o: Axis)
    ensures o != a
  {
    if a == Y then X else Y
  }

  lemma OtherInvolution(a: Axis)
    ensures Other(Other(a)) == a
  {
  }

  /** `BoxEdge.position` */
  function EdgePosition(e: BoxEdge): (p: Position)
    ensures p == Center <==> e in {BoxEdge.CenterX, BoxEdge.CenterY}
    ensures p == Begin <==> e in {BoxEdge.Top, BoxEdge.Left}
  {
    match e
    case Left => Begin
    case Right => End
    case Top => Begin
    case Bottom => End
    case CenterX => Center
    case CenterY => Center
  }

  /** The edges that belong to an axis. */
  predicate OnAxis(e: BoxEdge, a: Axis)
  {
    if a == Y then e in {BoxEdge.Top, BoxEdge.CenterY, BoxEdge.Bottom}
    else e in {BoxEdge.Left, BoxEdge.CenterX, BoxEdge.Right}
  }

  /** `Axis.edgeForPosition(_:)`: the edge of that axis at that position. */
  function EdgeForPosition(a: Axis, p: Position): (e: BoxEdge)
    ensures OnAxis(e, a) && EdgePosition(e) == p
  {
    match p
    case Begin => if a == Y then BoxEdge.Top else BoxEdge.Left
    case Center => if a == Y then BoxEdge.CenterY else BoxEdge.CenterX
    case End => if a == Y then BoxEdge.Bottom else BoxEdge.Right
  }

  /** Every edge lies on exactly one axis. */
  lemma OnExactlyOneAxis(e: BoxEdge)
    ensures OnAxis(e, X) != OnAxis(e, Y)
  {
  }

  /** `edgeForPosition` is injective over (axis, position) and reaches every
      edge: the edge's own axis and position give it back. */
  lemma EdgeForPositionBijective(a1: Axis, p1: Position, a2: Axis, p2: Position, e: BoxEdge)
    ensures EdgeForPosition(a1, p1) == EdgeForPosition(a2, p2) ==> a1 == a2 && p1 == p2
    ensures EdgeForPosition(if OnAxis(e, Y) then Y else X, EdgePosition(e)) == e
  {
    OnExactlyOneAxis(EdgeForPosition(a1, p1));
  }

  /** `BoxEdge.attribute(rtlDependent:)`: left/right become leading/trailing
      when direction-dependent; the other edges map to their namesakes. */
  function EdgeAttribute(e: BoxEdge, rtlDependent: bool): (r: Attribute)
    ensures r == Leading <==> rtlDependent && e == BoxEdge.Left
    ensures r == Trailing <==> rtlDependent && e == BoxEdge.Right
    ensures r != Leading && r != Trailing ==> AttributeEdge(r) == Some(e)
  {
    match e
    case Left => if rtlDependent then Leading else Attribute.Left
    case Right => if rtlDependent then Trailing else Attribute.Right
    case Top => Attribute.Top
    case Bottom => Attribute.Bottom
    case CenterX => Attribute.CenterX
    case CenterY => Attribute.CenterY
  }

  /** `NSLayoutConstraint.Attribute.edge`: the six namesake attributes, nil
      for everything else. */
  function AttributeEdge(a: Attribute): (r: Option<BoxEdge>)
    ensures r.Some? <==> a in {Attribute.Left, Attribute.Right, Attribute.Top,
                               Attribute.Bottom, Attribute.CenterX, Attribute.CenterY}
  {
    match a
    case Left => Some(BoxEdge.Left)
    case Right => Some(BoxEdge.Right)
    case Top => Some(BoxEdge.Top)
    case Bottom => Some(BoxEdge.Bottom)
    case CenterX => Some(BoxEdge.CenterX)
    case CenterY => Some(BoxEdge.CenterY)
    case _ => None
  }

  /** `edge` inverts the direction-independent attribute mapping, in both
      directions. */
  lemma AttributeEdgeInverse(e: BoxEdge, a: Attribute)
    ensures AttributeEdge(EdgeAttribute(e, false)) == Some(e)
    ensures AttributeEdge(a).Some? ==> EdgeAttribute(AttributeEdge(a).value, false) == a
    ensures AttributeEdge(Leading).None? && AttributeEdge(Trailing).None?
  {
  }
}
