/** The item builders of the older revision: each returns a new item for the
    same object whose layout differs only in the pins it names (or the flex
    weight). */
module LegacyItemCreate {
  import opened Types
  import opened LegacyPin
  import opened LegacyLayout
  import opened LegacyItem

  /** `r` is `i` with edge `e` reading `p` and nothing else changed. */
  predicate Updated(i: BoxItem, r: BoxItem, e: BoxEdge, p: Option<Pin>)
  {
    r.obj == i.obj && PinFor(r.layout, e) == p && SameExtras(r.layout, i.layout)
    && forall e2 :: e2 != e ==> PinFor(r.layout, e2) == PinFor(i.layout, e2)
  }

  /** `r` is `i` with edges `e1`, `e2` reading `p1`, `p2` and nothing else
      changed. */
  predicate Updated2(i: BoxItem, r: BoxItem, e1: BoxEdge, p1: Option<Pin>, e2: BoxEdge, p2: Option<Pin>)
  {
    r.obj == i.obj && PinFor(r.layout, e1) == p1 && PinFor(r.layout, e2) == p2 && SameExtras(r.layout, i.layout)
    && forall e :: e != e1 && e != e2 ==> PinFor(r.layout, e) == PinFor(i.layout, e)
  }

  function SetEdge(i: BoxItem, e: BoxEdge, p: Option<Pin>): (r: BoxItem)
    ensures Updated(i, r, e, p)
  {
    BoxItem(i.obj, With(i.layout, e, p))
  }

  /** `boxLeft(_:)` / `left(_:)` with a pin, and with an exact padding. */
  function Left(i: BoxItem, p: Option<Pin>): (r: BoxItem)
    ensures Updated(i, r, BoxEdge.Left, p)
  {
    SetEdge(i, BoxEdge.Left, p)
  }

  function LeftValue(i: BoxItem, v: real): (r: BoxItem)
    ensures Updated(i, r, BoxEdge.Left, Some(Pin(v, Equal)))
  {
    SetEdge(i, BoxEdge.Left, Some(PrefixEqual(v)))
  }

  /** `boxRight(_:)` / `right(_:)` */
  function Right(i: BoxItem, p: Option<Pin>): (r: BoxItem)
    ensures Updated(i, r, BoxEdge.Right, p)
  {
    SetEdge(i, BoxEdge.Right, p)
  }

  function RightValue(i: BoxItem, v: real): (r: BoxItem)
    ensures Updated(i, r, BoxEdge.Right, Some(Pin(v, Equal)))
  {
    SetEdge(i, BoxEdge.Right, Some(PrefixEqual(v)))
  }

  /** `boxTop(_:)` / `top(_:)` */
  function Top(i: BoxItem, p: Option<Pin>): (r: BoxItem)
    ensures Updated(i, r, BoxEdge.Top, p)
  {
    SetEdge(i, BoxEdge.Top, p)
  }

  function TopValue(i: BoxItem, v: real): (r: BoxItem)
    ensures Updated(i, r, BoxEdge.Top, Some(Pin(v, Equal)))
  {
    SetEdge(i, BoxEdge.Top, Some(PrefixEqual(v)))
  }

  /** `boxBottom(_:)` / `bottom(_:)` */
  function Bottom(i: BoxItem, p: Option<Pin>): (r: BoxItem)
    ensures Updated(i, r, BoxEdge.Bottom, p)
  {
    SetEdge(i, BoxEdge.Bottom, p)
  }

  function BottomValue(i: BoxItem, v: real): (r: BoxItem)
    ensures Updated(i, r, BoxEdge.Bottom, Some(Pin(v, Equal)))
  {
    SetEdge(i, BoxEdge.Bottom, Some(PrefixEqual(v)))
  }

  /** `boxLeftRight(_:_:)` with pins, and with exact paddings. */
  function LeftRight(i: BoxItem, l: Option<Pin>, rt: Option<Pin>): (r: BoxItem)
    ensures Updated2(i, r, BoxEdge.Left, l, BoxEdge.Right, rt)
  {
    SetEdge(SetEdge(i, BoxEdge.Left, l), BoxEdge.Right, rt)
  }

  function LeftRightValues(i: BoxItem, l: real, rt: real): (r: BoxItem)
    ensures Updated2(i, r, BoxEdge.Left, Some(Pin(l, Equal)), BoxEdge.Right, Some(Pin(rt, Equal)))
  {
    LeftRight(i, Some(PrefixEqual(l)), Some(PrefixEqual(rt)))
  }

  /** `boxTopBottom(_:_:)` with pins, and with exact paddings. */
  function TopBottom(i: BoxItem, t: Option<Pin>, b: Option<Pin>): (r: BoxItem)
    ensures Updated2(i, r, BoxEdge.Top, t, BoxEdge.Bottom, b)
  {
    SetEdge(SetEdge(i, BoxEdge.Top, t), BoxEdge.Bottom, b)
  }

  function TopBottomValues(i: BoxItem, t: real, b: real): (r: BoxItem)
    ensures Updated2(i, r, BoxEdge.Top, Some(Pin(t, Equal)), BoxEdge.Bottom, Some(Pin(b, Equal)))
  {
    TopBottom(i, Some(PrefixEqual(t)), Some(PrefixEqual(b)))
  }

  /** The default padding of `boxCenterX`/`centerX` and
      `boxCenterY`/`centerY`. */
  const DefaultPadding: Option<real> := Some(0.0)

  /** `boxCenterX(offset:padding:)` / `centerX(offset:padding:)`: centre x
      at `==offset`, and with a padding `>=padding` on left and right; the
      other pins stay. */
  function CenterX(i: BoxItem, offset: real, padding: Option<real>): (r: BoxItem)
    ensures r.obj == i.obj && SameExtras(r.layout, i.layout)
    ensures r.layout.centerX == Some(Pin(offset, Equal))
    ensures padding.Some? ==> r.layout.left == Some(Pin(padding.value, GreaterThanOrEqual)) && r.layout.right == r.layout.left
    ensures padding.None? ==> r.layout.left == i.layout.left && r.layout.right == i.layout.right
    ensures r.layout.top == i.layout.top && r.layout.bottom == i.layout.bottom && r.layout.centerY == i.layout.centerY
  {
    var aligned := SetEdge(i, BoxEdge.CenterX, Some(PrefixEqual(offset)));
    if padding.Some? then
      var pin := Some(PrefixGreaterThanOrEqual(padding.value));
      LeftRight(aligned, pin, pin)
    else
      aligned
  }

  /** `boxCenterY(offset:padding:)` / `centerY(offset:padding:)` */
  function CenterY(i: BoxItem, offset: real, padding: Option<real>): (r: BoxItem)
    ensures r.obj == i.obj && SameExtras(r.layout, i.layout)
    ensures r.layout.centerY == Some(Pin(offset, Equal))
    ensures padding.Some? ==> r.layout.top == Some(Pin(padding.value, GreaterThanOrEqual)) && r.layout.bottom == r.layout.top
    ensures padding.None? ==> r.layout.top == i.layout.top && r.layout.bottom == i.layout.bottom
    ensures r.layout.left == i.layout.left && r.layout.right == i.layout.right && r.layout.centerX == i.layout.centerX
  {
    var aligned := SetEdge(i, BoxEdge.CenterY, Some(PrefixEqual(offset)));
    if padding.Some? then
      var pin := Some(PrefixGreaterThanOrEqual(padding.value));
      TopBottom(aligned, pin, pin)
    else
      aligned
  }

  /** `boxIf(_:)`: the item when the condition holds, nothing otherwise. */
  function BoxIf(i: BoxItem, cond: bool): (r: Option<BoxItem>)
    ensures r.Some? <==> cond
    ensures r.Some? ==> r.value == i
  {
    if cond then Some(i) else None
  }

  /** `boxGuide()`: a new layout guide (its identity is a parameter) with the
      default zero layout. */
  function BoxGuide(g: GuideId): (r: BoxItem)
    ensures LegacyItem.Guide(r) == Some(g) && r.layout == LegacyLayout.Zero()
  {
    FromObj(Obj.Guide(g), DefaultLayout)
  }

  /** Static `boxFlex(_:)`: a new layout guide with the zero layout and that
      flex weight. */
  function BoxFlexGuide(g: GuideId, v: real): (r: BoxItem)
    ensures LegacyItem.Guide(r) == Some(g) && r.layout.flex == Some(v)
    ensures forall e :: PinFor(r.layout, e) == PinFor(LegacyLayout.Zero(), e)
  {
    FromObj(Obj.Guide(g), WithFlex(LegacyLayout.Zero(), v))
  }

  /** Instance `boxFlex(_:)`: the same object and pins with that flex
      weight. */
  function BoxFlex(i: BoxItem, v: real): (r: BoxItem)
    ensures r.obj == i.obj && r.layout.flex == Some(v)
    ensures forall e :: PinFor(r.layout, e) == PinFor(i.layout, e)
  {
    FromObj(i.obj, WithFlex(i.layout, v))
  }

  /** Setting the same edge twice keeps only the second pin. */
  lemma SetEdgeLastWins(i: BoxItem, e: BoxEdge, p: Option<Pin>, q: Option<Pin>)
    ensures SetEdge(SetEdge(i, e, p), e, q) == SetEdge(i, e, q)
  {
    WithLastWins(i.layout, e, p, q);
  }

  /** Builders on different edges can be applied in either order. */
  lemma SetEdgeCommutes(i: BoxItem, e1: BoxEdge, p: Option<Pin>, e2: BoxEdge, q: Option<Pin>)
    requires e1 != e2
    ensures SetEdge(SetEdge(i, e1, p), e2, q) == SetEdge(SetEdge(i, e2, q), e1, p)
  {
    WithCommutes(i.layout, e1, p, e2, q);
  }

  /** Centring twice with the same arguments is centring once. */
  lemma CenterXIdempotent(i: BoxItem, offset: real, padding: Option<real>)
    ensures CenterX(CenterX(i, offset, padding), offset, padding) == CenterX(i, offset, padding)
  {
    var once := CenterX(i, offset, padding);
    Extensionality(CenterX(once, offset, padding).layout, once.layout);
  }

  lemma CenterYIdempotent(i: BoxItem, offset: real, padding: Option<real>)
    ensures CenterY(CenterY(i, offset, padding), offset, padding) == CenterY(i, offset, padding)
  {
    var once := CenterY(i, offset, padding);
    Extensionality(CenterY(once, offset, padding).layout, once.layout);
  }

  /** Centring an item built from a zero layout gives the layout's own
      `xAligned` pins on the x axis. */
  lemma CenterXOfZeroIsXAligned(o: Obj, offset: real, padding: Option<real>)
    ensures CenterX(FromObj(o, LegacyLayout.Zero()), offset, padding).layout.centerX == XAligned(offset, padding).centerX
    ensures padding.Some? ==> CenterX(FromObj(o, LegacyLayout.Zero()), offset, padding).layout.left == XAligned(offset, padding).left
    ensures CenterX(FromObj(o, LegacyLayout.Zero()), offset, padding).layout.top == XAligned(offset, padding).top
  {
  }
}
