/** The direction-aware helpers of the current constraint engine: which
    horizontal attribute stands for "begin" and "end" under a semantic
    content attribute, the edge-to-attribute routing, the two direction
    factors, and the selection of insets per axis and position. */
module Directions {
  import opened Types
  import opened Enums

  /** `xBeginAnchor(sca:)`: leading when unspecified, right when forced
      right-to-left, left otherwise. */
  function XBeginAttr(sca: SemanticContentAttribute): (a: Attribute)
    ensures a == Leading <==> sca == Unspecified
    ensures a == Attribute.Right <==> sca == ForceRightToLeft
    ensures a in {Leading, Attribute.Left, Attribute.Right}
  {
    match sca
    case Unspecified => Leading
    case ForceRightToLeft => Attribute.Right
    case _ => Attribute.Left
  }

  /** `xEndAnchor(sca:)`: trailing when unspecified, left when forced
      right-to-left, right otherwise. */
  function XEndAttr(sca: SemanticContentAttribute): (a: Attribute)
    ensures a == Trailing <==> sca == Unspecified
    ensures a == Attribute.Left <==> sca == ForceRightToLeft
    ensures a in {Trailing, Attribute.Left, Attribute.Right}
  {
    match sca
    case Unspecified => Trailing
    case ForceRightToLeft => Attribute.Left
    case _ => Attribute.Right
  }

  /** Begin and end are always opposite sides: leading/trailing, or left and
      right in one order or the other. */
  lemma XBeginEndOpposite(sca: SemanticContentAttribute)
    ensures XBeginAttr(sca) != XEndAttr(sca)
    ensures XBeginAttr(sca) == Leading <==> XEndAttr(sca) == Trailing
    ensures XBeginAttr(sca) == Attribute.Left <==> XEndAttr(sca) == Attribute.Right
  {
  }

  /** `anchorForEdge(_:sca:)`: left and right go through the begin/end
      choice, every other edge maps to its namesake. */
  function AnchorForEdge(e: BoxEdge, sca: SemanticContentAttribute): (a: Attribute)
    ensures e == BoxEdge.Left ==> a == XBeginAttr(sca)
    ensures e == BoxEdge.Right ==> a == XEndAttr(sca)
    ensures e != BoxEdge.Left && e != BoxEdge.Right ==> a == EdgeAttribute(e, false)
  {
    match e
    case Left => XBeginAttr(sca)
    case Right => XEndAttr(sca)
    case CenterX => Attribute.CenterX
    case Top => Attribute.Top
    case Bottom => Attribute.Bottom
    case CenterY => Attribute.CenterY
  }

  /** With an unspecified attribute the routing agrees with the
      direction-dependent edge attribute; with a forced left-to-right one it
      agrees with the direction-independent one. */
  lemma AnchorForEdgeAgreesWithEdgeAttribute(e: BoxEdge)
    ensures AnchorForEdge(e, Unspecified) == EdgeAttribute(e, true)
    ensures AnchorForEdge(e, ForceLeftToRight) == EdgeAttribute(e, false)
  {
  }

  /** `beginAnchor(axis:)`, `endAnchor(axis:)`, `centerAnchor(axis:)` of an
      anchorable: the attribute of the axis's edge at that position. */
  function BeginAttr(a: Axis, sca: SemanticContentAttribute): (r: Attribute)
    ensures r == AnchorForEdge(EdgeForPosition(a, Begin), sca)
  {
    if a == Y then Attribute.Top else XBeginAttr(sca)
  }

  function EndAttr(a: Axis, sca: SemanticContentAttribute): (r: Attribute)
    ensures r == AnchorForEdge(EdgeForPosition(a, End), sca)
  {
    if a == Y then Attribute.Bottom else XEndAttr(sca)
  }

  function CenterAttr(a: Axis): (r: Attribute)
    ensures forall sca :: r == AnchorForEdge(EdgeForPosition(a, Center), sca)
  {
    if a == Y then Attribute.CenterY else Attribute.CenterX
  }

  /** `layoutDirectionFactorForAxis(_:)`: -1 only for x under a forced
      right-to-left attribute. */
  function LayoutFactor(a: Axis, sca: SemanticContentAttribute): (f: real)
    ensures f == 1.0 || f == -1.0
    ensures f == -1.0 <==> a.X? && sca.ForceRightToLeft?
  {
    if a == Y || sca != ForceRightToLeft then 1.0 else -1.0
  }

  /** `languageDirectionFactorForAxis(_:)`: -1 only for x when the resolved
      layout direction is right-to-left. */
  function LanguageFactor(a: Axis, dir: LayoutDirection): (f: real)
    ensures f == 1.0 || f == -1.0
    ensures f == -1.0 <==> a.X? && dir.RightToLeft?
  {
    if a == Y || dir == LeftToRight then 1.0 else -1.0
  }

  /** `beginForAxis(_:insets:)` and `endForAxis(_:insets:)`: the top and
      bottom insets on y, the left and right ones on x. */
  function BeginForAxis(a: Axis, i: Insets): (v: real)
    ensures a == Y ==> v == i.top
    ensures a == X ==> v == i.left
    ensures v == SideInset(i, EdgeForPosition(a, Begin))
  {
    if a == Y then i.top else i.left
  }

  function EndForAxis(a: Axis, i: Insets): (v: real)
    ensures a == Y ==> v == i.bottom
    ensures a == X ==> v == i.right
    ensures v == SideInset(i, EdgeForPosition(a, End))
  {
    if a == Y then i.bottom else i.right
  }

  /** `centerOffsetForAxis(_:insets:)`: half the difference between the begin
      and end insets. */
  function CenterOffsetForAxis(a: Axis, i: Insets): (v: real)
    ensures v == 0.5 * (BeginForAxis(a, i) - EndForAxis(a, i))
    ensures BeginForAxis(a, i) == EndForAxis(a, i) ==> v == 0.0
  {
    0.5 * (if a == Y then i.top - i.bottom else i.left - i.right)
  }

  /** `insetForAxis(_:position:insets:)` */
  function InsetForAxis(a: Axis, p: Position, i: Insets): (v: real)
    ensures p == Begin ==> v == BeginForAxis(a, i)
    ensures p == Center ==> v == CenterOffsetForAxis(a, i)
    ensures p == End ==> v == EndForAxis(a, i)
  {
    match p
    case Begin => BeginForAxis(a, i)
    case Center => CenterOffsetForAxis(a, i)
    case End => EndForAxis(a, i)
  }

  /** Read by side: the begin and end insets are the insets on the sides of
      the axis's begin and end edges, and the centre offset is half their
      difference. */
  lemma InsetForAxisBySide(a: Axis, p: Position, i: Insets)
    ensures p != Center ==> InsetForAxis(a, p, i) == SideInset(i, EdgeForPosition(a, p))
    ensures p == Center ==>
      InsetForAxis(a, p, i) == 0.5 * (SideInset(i, EdgeForPosition(a, Begin)) - SideInset(i, EdgeForPosition(a, End)))
  {
  }
}
