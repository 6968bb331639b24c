/** `H` and `V` of the older revision: declared member for member like `X`
    and `Y` (only the short alias of the pin factory is named `pins`), so
    they are the same types here. */
module LegacyHV {
  import opened Types
  import opened LegacyPin
  import opened LegacyXY

  type H = X
  type V = Y

  const HZero: H := XZero()
  const VZero: V := YZero()

  /** `H.pins` and `V.pins`, the aliases of `leftRightPins` and
      `topBottomPins`. */
  const HPins: (Option<Pin>, Option<Pin>) -> H := XLeftRightPins
  const VPins: (Option<Pin>, Option<Pin>) -> V := YTopBottomPins
}
