/** The item of the older revision: a view or layout guide with its layout,
    the view/guide accessors, and the anchors it offers to the engine, each
    present only when the layout holds the pin that gates it. */
module LegacyItem {
  import opened Types
  import opened LegacyLayout

  datatype BoxItem = BoxItem(obj: Obj, layout: BoxLayout)

  /** The `view` getter: the object when it is a view. */
  function View(i: BoxItem): (v: Option<ViewId>)
    ensures v.Some? <==> i.obj.View?
    ensures v.Some? ==> i.obj == Obj.View(v.value)
  {
    if i.obj.View? then Some(i.obj.vid) else None
  }

  /** The `guide` getter: the object when it is a layout guide. */
  function Guide(i: BoxItem): (g: Option<GuideId>)
    ensures g.Some? <==> i.obj.Guide?
    ensures g.Some? ==> i.obj == Obj.Guide(g.value)
  {
    if i.obj.Guide? then Some(i.obj.gid) else None
  }

  /** The `view` setter: a view replaces the object, nil changes nothing. */
  function SetView(i: BoxItem, v: Option<ViewId>): (r: BoxItem)
    ensures View(r) == (if v.Some? then v else View(i))
    ensures v.Some? ==> Guide(r).None?
    ensures v.None? ==> r == i
    ensures r.layout == i.layout
  {
    if v.Some? then i.(obj := Obj.View(v.value)) else i
  }

  /** The `guide` setter: a guide replaces the object, nil changes nothing. */
  function SetGuide(i: BoxItem, g: Option<GuideId>): (r: BoxItem)
    ensures Guide(r) == (if g.Some? then g else Guide(i))
    ensures g.Some? ==> View(r).None?
    ensures g.None? ==> r == i
    ensures r.layout == i.layout
  {
    if g.Some? then i.(obj := Obj.Guide(g.value)) else i
  }

  /** Setting a view and then reading it back gives that view, and a second
      set overrides the first. */
  lemma SetViewGet(i: BoxItem, v: ViewId, w: ViewId)
    ensures View(SetView(i, Some(v))) == Some(v)
    ensures SetView(SetView(i, Some(v)), Some(w)) == SetView(i, Some(w))
  {
  }

  /** `init(view:layout:)` and `init(alObj:layout:)`; `DefaultLayout` is the
      default argument of both. */
  function FromView(v: ViewId, l: BoxLayout): (r: BoxItem)
    ensures View(r) == Some(v) && Guide(r).None? && r.layout == l
  {
    BoxItem(Obj.View(v), l)
  }

  function FromObj(o: Obj, l: BoxLayout): (r: BoxItem)
    ensures View(r).Some? <==> o.View?
    ensures Guide(r).Some? <==> o.Guide?
    ensures r.layout == l
  {
    BoxItem(o, l)
  }

  const DefaultLayout: BoxLayout := LegacyLayout.Zero()

  /** The anchor of `attr` when the gating pin is present. */
  function Gated(i: BoxItem, gate: Option<LegacyPin.Pin>, attr: Attribute): (a: Option<Anchor>)
    ensures a.Some? <==> gate.Some?
    ensures a.Some? ==> a.value == Anchor(i.obj, attr)
  {
    if gate.Some? then Some(Anchor(i.obj, attr)) else None
  }

  /** The gated anchors: left and leading on the left pin, right on the
      right pin, trailing (as written) on the left pin, and each centre and
      vertical side on its own pin. */
  function LeftAnchor(i: BoxItem): (a: Option<Anchor>)
    ensures a.Some? <==> i.layout.left.Some?
    ensures a.Some? ==> a.value == Anchor(i.obj, Attribute.Left)
  {
    Gated(i, i.layout.left, Attribute.Left)
  }

  function LeadingAnchor(i: BoxItem): (a: Option<Anchor>)
    ensures a.Some? <==> i.layout.left.Some?
    ensures a.Some? ==> a.value == Anchor(i.obj, Attribute.Leading)
  {
    Gated(i, i.layout.left, Attribute.Leading)
  }

  function RightAnchor(i: BoxItem): (a: Option<Anchor>)
    ensures a.Some? <==> i.layout.right.Some?
    ensures a.Some? ==> a.value == Anchor(i.obj, Attribute.Right)
  {
    Gated(i, i.layout.right, Attribute.Right)
  }

  function TrailingAnchor(i: BoxItem): (a: Option<Anchor>)
    ensures a.Some? <==> i.layout.left.Some?
    ensures a.Some? ==> a.value == Anchor(i.obj, Attribute.Trailing)
  {
    Gated(i, i.layout.left, Attribute.Trailing)
  }

  function CenterXAnchor(i: BoxItem): (a: Option<Anchor>)
    ensures a.Some? <==> i.layout.centerX.Some?
    ensures a.Some? ==> a.value == Anchor(i.obj, Attribute.CenterX)
  {
    Gated(i, i.layout.centerX, Attribute.CenterX)
  }

  function TopAnchor(i: BoxItem): (a: Option<Anchor>)
    ensures a.Some? <==> i.layout.top.Some?
    ensures a.Some? ==> a.value == Anchor(i.obj, Attribute.Top)
  {
    Gated(i, i.layout.top, Attribute.Top)
  }

  function BottomAnchor(i: BoxItem): (a: Option<Anchor>)
    ensures a.Some? <==> i.layout.bottom.Some?
    ensures a.Some? ==> a.value == Anchor(i.obj, Attribute.Bottom)
  {
    Gated(i, i.layout.bottom, Attribute.Bottom)
  }

  function CenterYAnchor(i: BoxItem): (a: Option<Anchor>)
    ensures a.Some? <==> i.layout.centerY.Some?
    ensures a.Some? ==> a.value == Anchor(i.obj, Attribute.CenterY)
  {
    Gated(i, i.layout.centerY, Attribute.CenterY)
  }

  /** `beginAnchor(axis:isRTLDependent:)`: top on y; leading or left on x. */
  function BeginAnchor(i: BoxItem, a: Axis, rtlDependent: bool): (r: Option<Anchor>)
    ensures r.Some? <==> BeginPin(i.layout, a).Some?
    ensures r.Some? ==> r.value.obj == i.obj
    ensures r.Some? ==> r.value.attr == (if a == Y then Attribute.Top else if rtlDependent then Attribute.Leading else Attribute.Left)
  {
    if a == Y then TopAnchor(i) else if rtlDependent then LeadingAnchor(i) else LeftAnchor(i)
  }

  /** `endAnchor(axis:isRTLDependent:)`: bottom on y; trailing or right on
      x. */
  function EndAnchor(i: BoxItem, a: Axis, rtlDependent: bool): (r: Option<Anchor>)
    ensures a == Y || !rtlDependent ==> (r.Some? <==> EndPin(i.layout, a).Some?)
    ensures a == X && rtlDependent ==> (r.Some? <==> BeginPin(i.layout, X).Some?)
    ensures r.Some? ==> r.value.obj == i.obj
    ensures r.Some? ==> r.value.attr == (if a == Y then Attribute.Bottom else if rtlDependent then Attribute.Trailing else Attribute.Right)
  {
    if a == Y then BottomAnchor(i) else if rtlDependent then TrailingAnchor(i) else RightAnchor(i)
  }

  /** `centerAnchor(axis:)` */
  function CenterAnchor(i: BoxItem, a: Axis): (r: Option<Anchor>)
    ensures r.Some? <==> CenterPin(i.layout, a).Some?
    ensures r.Some? ==> r.value == Anchor(i.obj, if a == Y then Attribute.CenterY else Attribute.CenterX)
  {
    if a == Y then CenterYAnchor(i) else CenterXAnchor(i)
  }

  /** Because the trailing anchor is gated on the left pin, an item with a
      right pin and no left pin has no end anchor on x when the direction
      follows the language, and one with a left pin and no right pin has
      one. */
  lemma TrailingFollowsLeftPin(i: BoxItem)
    ensures i.layout.left.None? && i.layout.right.Some? ==> EndAnchor(i, X, true).None? && EndPin(i.layout, X).Some?
    ensures i.layout.left.Some? && i.layout.right.None? ==> EndAnchor(i, X, true).Some? && EndPin(i.layout, X).None?
  {
  }
}
