/** Building one native constraint from an anchor and a pin, as the anchor
    extensions do: the pin's relation selects which constraint factory is
    called, its constant is passed through, and the priority is left at the
    factory default (required). Dimension anchors are pinned either to a
    constant or to another dimension with a multiplier. */
module Anchors {
  import opened Types

  /** The relation switch of the anchor `pin(_:to:)` extensions: `>=` and
      `<=` pick the matching factory, anything else the equal one. */
  function DispatchRelation(r: Relation): (d: Relation)
    ensures d == r
  {
    match r
    case GreaterThanOrEqual => GreaterThanOrEqual
    case LessThanOrEqual => LessThanOrEqual
    case _ => Equal
  }

  /** `anchor.pin(pin, to: other)` for an x- or y-axis anchor. */
  function AnchorPin(first: Anchor, rel: Relation, constant: real, second: Anchor): (c: Constraint)
    ensures c.first == first && c.second == Some(second)
    ensures c.relation == rel && c.constant == constant
    ensures c.multiplier == 1.0 && c.priority == Required
  {
    Constraint(first, DispatchRelation(rel), Some(second), 1.0, constant, Required)
  }

  /** A dimension anchor pinned to a constant (`pin(_:)` on a dimension). */
  function DimensionPin(first: Anchor, rel: Relation, constant: real): (c: Constraint)
    ensures c.first == first && c.second.None?
    ensures c.relation == rel && c.constant == constant
    ensures c.multiplier == 1.0 && c.priority == Required
  {
    Constraint(first, DispatchRelation(rel), None, 1.0, constant, Required)
  }

  /** A dimension anchor pinned to another dimension with a multiplier
      (`pin(_:to:)` on a dimension with a multiplier pin). */
  function DimensionRatio(first: Anchor, rel: Relation, multiplier: real, constant: real, second: Anchor): (c: Constraint)
    ensures c.first == first && c.second == Some(second)
    ensures c.relation == rel && c.constant == constant
    ensures c.multiplier == multiplier && c.priority == Required
  {
    Constraint(first, DispatchRelation(rel), Some(second), multiplier, constant, Required)
  }
}
