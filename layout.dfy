/** The layout descriptor and item of the current revision, declared only as
    far as the constraint engine uses them: six optional edge pins, optional
    fixed and relative sizes, and an optional flex weight. */
module Layout {
  import opened Types
  import opened Pin

  datatype BoxLayout = BoxLayout(
    top: Option<Pin>, left: Option<Pin>, bottom: Option<Pin>, right: Option<Pin>,
    centerX: Option<Pin>, centerY: Option<Pin>,
    width: Option<Pin>, height: Option<Pin>,
    relativeWidth: Option<MultiPin>, relativeHeight: Option<MultiPin>,
    flex: Option<real>)

  /** An item: the view or guide it places, and its layout. */
  datatype BoxItem = BoxItem(obj: Obj, layout: BoxLayout)

  /** Zero pins on the four sides, nothing else. */
  function ZeroLayout(): (l: BoxLayout)
    ensures l.top == Some(Zero()) && l.left == Some(Zero())
    ensures l.bottom == Some(Zero()) && l.right == Some(Zero())
    ensures l.centerX.None? && l.centerY.None? && l.width.None? && l.height.None?
    ensures l.relativeWidth.None? && l.relativeHeight.None? && l.flex.None?
  {
    BoxLayout(Some(Zero()), Some(Zero()), Some(Zero()), Some(Zero()), None, None, None, None, None, None, None)
  }

  function BeginPin(l: BoxLayout, a: Axis): Option<Pin>
  {
    if a == Y then l.top else l.left
  }

  function EndPin(l: BoxLayout, a: Axis): Option<Pin>
  {
    if a == Y then l.bottom else l.right
  }

  function CenterPin(l: BoxLayout, a: Axis): Option<Pin>
  {
    if a == Y then l.centerY else l.centerX
  }

  function PinForAxis(l: BoxLayout, a: Axis, p: Position): Option<Pin>
  {
    match p
    case Begin => BeginPin(l, a)
    case Center => CenterPin(l, a)
    case End => EndPin(l, a)
  }
}
