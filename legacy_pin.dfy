/** The older, priority-free pin: a constant and a relation, the begin/end
    pair, the multiplier pin, the relation join, and the operators built on
    them. */
module LegacyPin {
  import opened Types

  datatype Pin = Pin(constant: real, relation: Relation)

  /** A begin pin and an end pin for one axis. */
  datatype Pair = Pair(begin: Option<Pin>, end: Option<Pin>)

  datatype MultiPin = MultiPin(pin: Pin, multiplier: real)

  /** `Pin(constant:relation:)` with both arguments defaulted. */
  function DefaultPin(): (p: Pin)
    ensures p.constant == 0.0 && p.relation == Equal
  {
    Pin(0.0, Equal)
  }

  /** `Pin(_ constant: Double)` */
  function FromDouble(c: real): (p: Pin)
    ensures p.constant == c && p.relation == Equal
  {
    Pin(c, Equal)
  }

  /** `Pin.zero` */
  function Zero(): (p: Pin)
    ensures p == DefaultPin()
  {
    FromDouble(0.0)
  }

  function Factory(c: Option<real>, rel: Relation): (p: Option<Pin>)
    ensures p.None? <==> c.None?
    ensures p.Some? ==> p.value == Pin(c.value, rel)
  {
    match c
    case Some(v) => Some(Pin(v, rel))
    case None => None
  }

  /** `Pin.equal(_:)`, `Pin.greaterThanOrEqual(_:)`, `Pin.lessThanOrEqual(_:)`. */
  function EqualPin(c: Option<real>): (p: Option<Pin>)
    ensures p.None? <==> c.None?
    ensures p.Some? ==> p.value.constant == c.value && p.value.relation == Equal
  {
    Factory(c, Equal)
  }

  function GreaterThanOrEqualPin(c: Option<real>): (p: Option<Pin>)
    ensures p.None? <==> c.None?
    ensures p.Some? ==> p.value.constant == c.value && p.value.relation == GreaterThanOrEqual
  {
    Factory(c, GreaterThanOrEqual)
  }

  function LessThanOrEqualPin(c: Option<real>): (p: Option<Pin>)
    ensures p.None? <==> c.None?
    ensures p.Some? ==> p.value.constant == c.value && p.value.relation == LessThanOrEqual
  {
    Factory(c, LessThanOrEqual)
  }

  /** `joinRelations(_:_:)`: same rule as the current revision. */
  function JoinRelations(r1: Relation, r2: Relation): (r: Option<Relation>)
    ensures r.None? <==> (r1 != r2 && r1 != Equal && r2 != Equal)
    ensures r.Some? ==> r.value == (if r1 == Equal then r2 else r1)
  {
    if r1 == r2 || r2 == Equal then Some(r1)
    else if r1 == Equal then Some(r2)
    else None
  }

  /** `Pair.zero` */
  function PairZero(): (p: Pair)
    ensures p.begin == Some(Zero()) && p.end == Some(Zero())
  {
    Pair(Some(Zero()), Some(Zero()))
  }

  /** `Pair.pins(_:_:)` */
  function Pins(b: Option<Pin>, e: Option<Pin>): (p: Pair)
    ensures p.begin == b && p.end == e
  {
    Pair(b, e)
  }

  // MultiPin accessors write through to the wrapped pin.

  function SetMultiConstant(m: MultiPin, c: real): (r: MultiPin)
    ensures r.pin.constant == c && r.pin.relation == m.pin.relation && r.multiplier == m.multiplier
  {
    m.(pin := m.pin.(constant := c))
  }

  function SetMultiRelation(m: MultiPin, rel: Relation): (r: MultiPin)
    ensures r.pin.relation == rel && r.pin.constant == m.pin.constant && r.multiplier == m.multiplier
  {
    m.(pin := m.pin.(relation := rel))
  }

  /** `MultiPin(_ pin: Pin)` */
  function MultiOf(p: Pin): (m: MultiPin)
    ensures m.pin == p && m.multiplier == 1.0
  {
    MultiPin(p, 1.0)
  }

  /** `MultiPin(_ pin: Pin?)`, failable. */
  function MultiOfOptional(p: Option<Pin>): (m: Option<MultiPin>)
    ensures m.None? <==> p.None?
    ensures m.Some? ==> m.value == MultiOf(p.value)
  {
    match p
    case Some(q) => Some(MultiOf(q))
    case None => None
  }

  /** `MultiPin(multiplier:pin:)` */
  function MultiWith(multiplier: real, p: Pin): (m: MultiPin)
    ensures m.pin == p && m.multiplier == multiplier
  {
    MultiPin(p, multiplier)
  }

  /** `MultiPin(multiplier:constant:relation:)` */
  function MultiFromParts(multiplier: real, constant: real, rel: Relation): (m: MultiPin)
    ensures m == MultiPin(Pin(constant, rel), multiplier)
  {
    SetMultiRelation(SetMultiConstant(MultiPin(Zero(), 1.0), constant).(multiplier := multiplier), rel)
  }

  /** `MultiPin(_ multiplier: Double)` */
  function MultiFromDouble(multiplier: real): (m: MultiPin)
    ensures m.multiplier == multiplier && m.pin == Zero()
  {
    MultiPin(Zero(), multiplier)
  }

  /** `pin1 + pin2`: nil on a nil operand or a relation conflict. */
  function Add(p1: Option<Pin>, p2: Option<Pin>): (r: Option<Pin>)
    ensures r.Some? <==> p1.Some? && p2.Some? && JoinRelations(p1.value.relation, p2.value.relation).Some?
    ensures r.Some? ==> r.value.constant == p1.value.constant + p2.value.constant
                        && r.value.relation == JoinRelations(p1.value.relation, p2.value.relation).value
  {
    if p1.None? || p2.None? then None
    else
      match JoinRelations(p1.value.relation, p2.value.relation)
      case None => None
      case Some(rel) => Some(Pin(p1.value.constant + p2.value.constant, rel))
  }

  /** Summation is commutative. */
  lemma AddCommutes(p1: Option<Pin>, p2: Option<Pin>)
    ensures Add(p1, p2) == Add(p2, p1)
  {
  }

  /** Summation is associative: one grouping is defined exactly when the
      other is, and then they agree. */
  lemma AddAssociative(p1: Option<Pin>, p2: Option<Pin>, p3: Option<Pin>)
    ensures Add(Add(p1, p2), p3) == Add(p1, Add(p2, p3))
  {
  }

  /** `pin + value` */
  function AddValue(p: Pin, value: real): (r: Pin)
    ensures r.constant == p.constant + value && r.relation == p.relation
  {
    Pin(p.constant + value, p.relation)
  }

  /** `pin + value` on an optional pin. */
  function AddValueOptional(p: Option<Pin>, value: real): (r: Option<Pin>)
    ensures r.None? <==> p.None?
    ensures r.Some? ==> r.value == AddValue(p.value, value)
  {
    match p
    case Some(q) => Some(Pin(q.constant + value, q.relation))
    case None => None
  }

  /** Adding a value to a present pin is summing it with an equal pin. */
  lemma AddValueIsAddEqual(p: Pin, value: real)
    ensures AddValueOptional(Some(p), value) == Add(Some(p), EqualPin(Some(value)))
  {
  }

  /** `pin * multiplier` */
  function PinTimes(p: Option<Pin>, multiplier: real): (r: Option<MultiPin>)
    ensures r.None? <==> p.None?
    ensures r.Some? ==> r.value.pin == p.value && r.value.multiplier == multiplier
  {
    match p
    case Some(q) => Some(MultiPin(q, multiplier))
    case None => None
  }

  /** `multiPin * multiplier` */
  function MultiPinTimes(m: Option<MultiPin>, multiplier: real): (r: Option<MultiPin>)
    ensures r.None? <==> m.None?
    ensures r.Some? ==> r.value.pin == m.value.pin && r.value.multiplier == m.value.multiplier * multiplier
  {
    match m
    case Some(q) => Some(MultiPin(q.pin, q.multiplier * multiplier))
    case None => None
  }

  /** Prefix `*m` */
  function PrefixTimes(m: real): (r: MultiPin)
    ensures r.multiplier == m && r.pin == Zero()
  {
    MultiFromDouble(m)
  }

  /** Prefix `>=v`, `<=v`, `==v` and their optional-argument variants. */
  function PrefixGreaterThanOrEqual(v: real): (r: Pin)
    ensures r == Pin(v, GreaterThanOrEqual)
  {
    GreaterThanOrEqualPin(Some(v)).value
  }

  function PrefixLessThanOrEqual(v: real): (r: Pin)
    ensures r == Pin(v, LessThanOrEqual)
  {
    LessThanOrEqualPin(Some(v)).value
  }

  function PrefixEqual(v: real): (r: Pin)
    ensures r == Pin(v, Equal)
  {
    EqualPin(Some(v)).value
  }

  function PrefixGreaterThanOrEqualOptional(v: Option<real>): (r: Option<Pin>)
    ensures r.None? <==> v.None?
    ensures r.Some? ==> r.value == PrefixGreaterThanOrEqual(v.value)
  {
    GreaterThanOrEqualPin(v)
  }

  function PrefixLessThanOrEqualOptional(v: Option<real>): (r: Option<Pin>)
    ensures r.None? <==> v.None?
    ensures r.Some? ==> r.value == PrefixLessThanOrEqual(v.value)
  {
    LessThanOrEqualPin(v)
  }

  function PrefixEqualOptional(v: Option<real>): (r: Option<Pin>)
    ensures r.None? <==> v.None?
    ensures r.Some? ==> r.value == PrefixEqual(v.value)
  {
    EqualPin(v)
  }

  /** The constraint `alPin` builds: multiplier 1, the pin's relation and
      constant, the default (required) priority. */
  function AlPinConstraint(obj: ViewId, attr: Attribute, toAttr: Attribute, view: ViewId, p: Pin): (c: Constraint)
    ensures c.first == Anchor(View(obj), attr) && c.second == Some(Anchor(View(view), toAttr))
    ensures c.relation == p.relation && c.constant == p.constant
    ensures c.multiplier == 1.0 && c.priority == Required
  {
    Constraint(Anchor(View(obj), attr), p.relation, Some(Anchor(View(view), toAttr)), 1.0, p.constant, Required)
  }

  /** `alPin(_:to:of:pin:)`: builds the constraint, activates it, returns it. */
  method AlPin(act: ActiveConstraints, obj: ViewId, attr: Attribute, toAttr: Attribute, view: ViewId, p: Pin)
    returns (c: Constraint)
    modifies act
    ensures c == AlPinConstraint(obj, attr, toAttr, view, p)
    ensures act.active == old(act.active) + {c}
  {
    c := AlPinConstraint(obj, attr, toAttr, view, p);
    act.Activate([c]);
    assert Elems([c]) == {c};
  }
}
