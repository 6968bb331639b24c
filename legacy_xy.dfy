/** The per-axis pin triples of the older revision: `X` (left, right,
    centre) and `Y` (top, bottom, centre), with their factories. */
module LegacyXY {
  import opened Types
  import opened LegacyPin
  import LegacyLayout

  datatype X = MakeX(left: Option<Pin>, right: Option<Pin>, center: Option<Pin>)

  datatype Y = MakeY(top: Option<Pin>, bottom: Option<Pin>, center: Option<Pin>)

  /** `X.zero`: zero pins on both sides, no centre. */
  function XZero(): (x: X)
    ensures x.left == Some(LegacyPin.Zero()) && x.right == Some(LegacyPin.Zero()) && x.center.None?
  {
    MakeX(Some(LegacyPin.Zero()), Some(LegacyPin.Zero()), None)
  }

  /** `X.align(offset:padding:)`: centred at the offset; `>=padding` on both
      sides exactly when a padding is given. */
  function XAlign(offset: real, padding: Option<real>): (x: X)
    ensures x.center == Some(Pin(offset, Equal))
    ensures x.left.Some? <==> padding.Some?
    ensures x.left.Some? ==> x.left.value == Pin(padding.value, GreaterThanOrEqual)
    ensures x.right == x.left
  {
    if padding.Some? then
      var pin := PrefixGreaterThanOrEqual(padding.value);
      MakeX(Some(pin), Some(pin), Some(PrefixEqual(offset)))
    else
      MakeX(None, None, Some(PrefixEqual(offset)))
  }

  /** `X.leftRight(_:_:)` (alias `lr`): `==` pins of the given values, no
      centre. */
  function XLeftRight(left: Option<real>, right: Option<real>): (x: X)
    ensures x.left.Some? <==> left.Some?
    ensures x.right.Some? <==> right.Some?
    ensures left.Some? ==> x.left.value == Pin(left.value, Equal)
    ensures right.Some? ==> x.right.value == Pin(right.value, Equal)
    ensures x.center.None?
  {
    MakeX(PrefixEqualOptional(left), PrefixEqualOptional(right), None)
  }

  /** `X.leftRightPins(_:_:)` (alias `xPins`): the pins as given. */
  function XLeftRightPins(left: Option<Pin>, right: Option<Pin>): (x: X)
    ensures x.left == left && x.right == right && x.center.None?
  {
    MakeX(left, right, None)
  }

  const Lr: (Option<real>, Option<real>) -> X := XLeftRight
  const XPins: (Option<Pin>, Option<Pin>) -> X := XLeftRightPins

  /** `leftRight` is `leftRightPins` of the `==` pins. */
  lemma XLeftRightIsPins(left: Option<real>, right: Option<real>)
    ensures XLeftRight(left, right) == XLeftRightPins(PrefixEqualOptional(left), PrefixEqualOptional(right))
    ensures Lr(left, right) == XLeftRight(left, right)
  {
  }

  /** `X.align` and the layout's `xAligned` put the same pins on the x axis. */
  lemma XAlignAgreesWithLayout(offset: real, padding: Option<real>)
    ensures XAlign(offset, padding).left == LegacyLayout.XAligned(offset, padding).left
    ensures XAlign(offset, padding).right == LegacyLayout.XAligned(offset, padding).right
    ensures XAlign(offset, padding).center == LegacyLayout.XAligned(offset, padding).centerX
  {
  }

  /** `Y.zero` */
  function YZero(): (y: Y)
    ensures y.top == Some(LegacyPin.Zero()) && y.bottom == Some(LegacyPin.Zero()) && y.center.None?
  {
    MakeY(Some(LegacyPin.Zero()), Some(LegacyPin.Zero()), None)
  }

  /** `Y.align(offset:padding:)` */
  function YAlign(offset: real, padding: Option<real>): (y: Y)
    ensures y.center == Some(Pin(offset, Equal))
    ensures y.top.Some? <==> padding.Some?
    ensures y.top.Some? ==> y.top.value == Pin(padding.value, GreaterThanOrEqual)
    ensures y.bottom == y.top
  {
    if padding.Some? then
      var pin := PrefixGreaterThanOrEqual(padding.value);
      MakeY(Some(pin), Some(pin), Some(PrefixEqual(offset)))
    else
      MakeY(None, None, Some(PrefixEqual(offset)))
  }

  /** `Y.topBottom(_:_:)` (alias `tb`) */
  function YTopBottom(top: Option<real>, bottom: Option<real>): (y: Y)
    ensures y.top.Some? <==> top.Some?
    ensures y.bottom.Some? <==> bottom.Some?
    ensures top.Some? ==> y.top.value == Pin(top.value, Equal)
    ensures bottom.Some? ==> y.bottom.value == Pin(bottom.value, Equal)
    ensures y.center.None?
  {
    MakeY(PrefixEqualOptional(top), PrefixEqualOptional(bottom), None)
  }

  /** `Y.topBottomPins(_:_:)` (alias `yPins`) */
  function YTopBottomPins(top: Option<Pin>, bottom: Option<Pin>): (y: Y)
    ensures y.top == top && y.bottom == bottom && y.center.None?
  {
    MakeY(top, bottom, None)
  }

  const Tb: (Option<real>, Option<real>) -> Y := YTopBottom
  const YPins: (Option<Pin>, Option<Pin>) -> Y := YTopBottomPins

  /** `Y` is `X` on the other axis. */
  lemma YMirrorsX(offset: real, padding: Option<real>, a: Option<real>, b: Option<real>)
    ensures YAlign(offset, padding) == MakeY(XAlign(offset, padding).left, XAlign(offset, padding).right, XAlign(offset, padding).center)
    ensures YTopBottom(a, b) == MakeY(XLeftRight(a, b).left, XLeftRight(a, b).right, None)
    ensures Tb(a, b) == YTopBottom(a, b)
  {
  }

  /** `Y.align` and the layout's `yAligned` put the same pins on the y axis. */
  lemma YAlignAgreesWithLayout(offset: real, padding: Option<real>)
    ensures YAlign(offset, padding).top == LegacyLayout.YAligned(offset, padding).top
    ensures YAlign(offset, padding).bottom == LegacyLayout.YAligned(offset, padding).bottom
    ensures YAlign(offset, padding).center == LegacyLayout.YAligned(offset, padding).centerY
  {
  }
}
