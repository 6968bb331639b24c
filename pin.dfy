/** The priority-carrying pin of the current revision: a constant, a relation
    and a priority, with its factories, priority modifiers, the inset/direction
    transformation used by the constraint engine, the multiplier-carrying
    MultiPin, and the rule that joins two relations. */
module Pin {
  import opened Types

  datatype Pin = Pin(constant: real, relation: Relation, priority: real)

  datatype MultiPin = MultiPin(pin: Pin, multiplier: real)

  /** `Pin(constant:relation:priority:)` with every argument defaulted. */
  function DefaultPin(): (p: Pin)
    ensures p.constant == 0.0 && p.relation == Equal && p.priority == Required
  {
    Pin(0.0, Equal, Required)
  }

  /** `Pin(_ constant: Double)`: an equal, required pin. */
  function FromDouble(c: real): (p: Pin)
    ensures p.constant == c && p.relation == Equal && p.priority == Required
  {
    Pin(c, Equal, Required)
  }

  /** `Pin.zero`. */
  function Zero(): (p: Pin)
    ensures p == DefaultPin()
  {
    FromDouble(0.0)
  }

  /** Shared shape of the three optional factories. */
  function Factory(c: Option<real>, rel: Relation): (p: Option<Pin>)
    ensures p.None? <==> c.None?
    ensures p.Some? ==> p.value == Pin(c.value, rel, Required)
  {
    match c
    case Some(v) => Some(Pin(v, rel, Required))
    case None => None
  }

  /** `Pin.equal(_:)`. */
  function EqualPin(c: Option<real>): (p: Option<Pin>)
    ensures p.None? <==> c.None?
    ensures p.Some? ==> p.value.constant == c.value && p.value.relation == Equal
                        && p.value.priority == Required
  {
    Factory(c, Equal)
  }

  /** `Pin.greaterThanOrEqual(_:)` (its argument defaults to 0). */
  function GreaterThanOrEqualPin(c: Option<real>): (p: Option<Pin>)
    ensures p.None? <==> c.None?
    ensures p.Some? ==> p.value.constant == c.value && p.value.relation == GreaterThanOrEqual
                        && p.value.priority == Required
  {
    Factory(c, GreaterThanOrEqual)
  }

  /** `Pin.lessThanOrEqual(_:)`. */
  function LessThanOrEqualPin(c: Option<real>): (p: Option<Pin>)
    ensures p.None? <==> c.None?
    ensures p.Some? ==> p.value.constant == c.value && p.value.relation == LessThanOrEqual
                        && p.value.priority == Required
  {
    Factory(c, LessThanOrEqual)
  }

  /** `withPriority(_:)` */
  function WithPriority(p: Pin, pr: real): (r: Pin)
    ensures r.constant == p.constant && r.relation == p.relation && r.priority == pr
  {
    Pin(p.constant, p.relation, pr)
  }

  /** `almostRequired`: one below required. */
  function AlmostRequired(p: Pin): (r: Pin)
    ensures r == WithPriority(p, 999.0)
  {
    p.(priority := Required - 1.0)
  }

  /** `required(_ offset:)` */
  function RequiredOffset(p: Pin, offset: real): (r: Pin)
    ensures r == WithPriority(p, 1000.0 + offset)
  {
    p.(priority := Required + offset)
  }

  /** `high(_ offset:)` */
  function High(p: Pin, offset: real): (r: Pin)
    ensures r == WithPriority(p, 750.0 + offset)
  {
    p.(priority := DefaultHigh + offset)
  }

  /** `low(_ offset:)` */
  function Low(p: Pin, offset: real): (r: Pin)
    ensures r == WithPriority(p, 250.0 + offset)
  {
    p.(priority := DefaultLow + offset)
  }

  /** `exact(_ value:)` */
  function Exact(p: Pin, value: real): (r: Pin)
    ensures r == WithPriority(p, value)
  {
    p.(priority := value)
  }

  /** The precondition of `withInset`: the force-unwrapped
      `Relation(rawValue: relation.rawValue * Int(factor))` must exist. */
  predicate InsetFactorOk(p: Pin, factor: real)
  {
    RelationOfRaw(RawValue(p.relation) * Trunc(factor)).Some?
  }

  /** `withInset(_:factor:)`: adds the inset, multiplies by the direction
      factor, and multiplies the relation's raw value by the factor. */
  function WithInset(p: Pin, inset: real, factor: real): (r: Pin)
    requires InsetFactorOk(p, factor)
    ensures r.constant == (p.constant + inset) * factor
    ensures r.priority == p.priority
    ensures factor == 1.0 ==> r.relation == p.relation
    ensures factor == -1.0 ==> r.relation == Flip(p.relation)
  {
    p.(constant := (p.constant + inset) * factor,
       relation := RelationOfRaw(RawValue(p.relation) * Trunc(factor)).value)
  }

  /** The direction factors the engine passes (1 and -1) are always inside
      the domain of `withInset`; 2 is not, for an inequality. */
  lemma InsetFactorDomain(p: Pin)
    ensures InsetFactorOk(p, 1.0) && InsetFactorOk(p, -1.0)
    ensures p.relation != Equal ==> !InsetFactorOk(p, 2.0)
  {
    assert Trunc(1.0) == 1;
    assert Trunc(-1.0) == -1;
    assert Trunc(2.0) == 2;
  }

  /** Mirroring twice with no inset gives back the pin. */
  lemma WithInsetMirrorTwice(p: Pin)
    ensures InsetFactorOk(p, -1.0)
    ensures InsetFactorOk(WithInset(p, 0.0, -1.0), -1.0)
    ensures WithInset(WithInset(p, 0.0, -1.0), 0.0, -1.0) == p
  {
    InsetFactorDomain(p);
    var q := WithInset(p, 0.0, -1.0);
    InsetFactorDomain(q);
  }

  // MultiPin: the accessors read and write through to the wrapped pin.

  function MultiConstant(m: MultiPin): (c: real)
    ensures c == m.pin.constant
  {
    m.pin.constant
  }

  function MultiRelation(m: MultiPin): (r: Relation)
    ensures r == m.pin.relation
  {
    m.pin.relation
  }

  function MultiPriority(m: MultiPin): (pr: real)
    ensures pr == m.pin.priority
  {
    m.pin.priority
  }

  function SetMultiConstant(m: MultiPin, c: real): (r: MultiPin)
    ensures MultiConstant(r) == c && r.pin.relation == m.pin.relation
    ensures r.pin.priority == m.pin.priority && r.multiplier == m.multiplier
  {
    m.(pin := m.pin.(constant := c))
  }

  function SetMultiRelation(m: MultiPin, rel: Relation): (r: MultiPin)
    ensures MultiRelation(r) == rel && r.pin.constant == m.pin.constant
    ensures r.pin.priority == m.pin.priority && r.multiplier == m.multiplier
  {
    m.(pin := m.pin.(relation := rel))
  }

  function SetMultiPriority(m: MultiPin, pr: real): (r: MultiPin)
    ensures MultiPriority(r) == pr && r.pin.constant == m.pin.constant
    ensures r.pin.relation == m.pin.relation && r.multiplier == m.multiplier
  {
    m.(pin := m.pin.(priority := pr))
  }

  /** Reading back what was set gives the value set, and setting what was
      read changes nothing: the constant, relation and priority accessors
      are lenses onto the wrapped pin. */
  lemma MultiConstantRoundTrip(m: MultiPin, c: real)
    ensures MultiConstant(SetMultiConstant(m, c)) == c
    ensures SetMultiConstant(m, MultiConstant(m)) == m
    ensures SetMultiConstant(SetMultiConstant(m, c), MultiConstant(m)) == m
  {
  }

  lemma MultiRelationRoundTrip(m: MultiPin, rel: Relation)
    ensures MultiRelation(SetMultiRelation(m, rel)) == rel
    ensures SetMultiRelation(m, MultiRelation(m)) == m
    ensures SetMultiRelation(SetMultiRelation(m, rel), MultiRelation(m)) == m
  {
  }

  lemma MultiPriorityRoundTrip(m: MultiPin, pr: real)
    ensures MultiPriority(SetMultiPriority(m, pr)) == pr
    ensures SetMultiPriority(m, MultiPriority(m)) == m
    ensures SetMultiPriority(SetMultiPriority(m, pr), MultiPriority(m)) == m
  {
  }

  /** `MultiPin(_ pin: Pin)`: multiplier defaults to 1. */
  function MultiOf(p: Pin): (m: MultiPin)
    ensures m.pin == p && m.multiplier == 1.0
  {
    MultiPin(p, 1.0)
  }

  /** The failable `MultiPin(_ pin: Pin?)`. */
  function MultiOfOptional(p: Option<Pin>): (m: Option<MultiPin>)
    ensures m.None? <==> p.None?
    ensures m.Some? ==> m.value == MultiOf(p.value)
  {
    match p
    case Some(q) => Some(MultiOf(q))
    case None => None
  }

  /** `MultiPin(multiplier:pin:)` */
  function MultiWith(multiplier: real, p: Pin): (m: MultiPin)
    ensures m.pin == p && m.multiplier == multiplier
  {
    MultiPin(p, multiplier)
  }

  /** `MultiPin(multiplier:constant:relation:)`: the wrapped pin starts as
      `.zero`, so its priority is required. */
  function MultiFromParts(multiplier: real, constant: real, rel: Relation): (m: MultiPin)
    ensures m.multiplier == multiplier && MultiConstant(m) == constant
    ensures MultiRelation(m) == rel && MultiPriority(m) == Required
  {
    SetMultiRelation(SetMultiConstant(MultiPin(Zero(), 1.0), constant).(multiplier := multiplier), rel)
  }

  /** `MultiPin(_ multiplier: Double)`: that multiplier and the zero pin. */
  function MultiFromDouble(multiplier: real): (m: MultiPin)
    ensures m.multiplier == multiplier && m.pin == Zero()
  {
    MultiPin(Zero(), multiplier)
  }

  function MultiWithPriority(m: MultiPin, pr: real): (r: MultiPin)
    ensures r.pin == WithPriority(m.pin, pr) && r.multiplier == m.multiplier
  {
    SetMultiPriority(m, pr)
  }

  function MultiAlmostRequired(m: MultiPin): (r: MultiPin)
    ensures r == MultiWithPriority(m, 999.0)
  {
    SetMultiPriority(m, Required - 1.0)
  }

  function MultiRequired(m: MultiPin, offset: real): (r: MultiPin)
    ensures r == MultiWithPriority(m, 1000.0 + offset)
  {
    SetMultiPriority(m, Required + offset)
  }

  function MultiHigh(m: MultiPin, offset: real): (r: MultiPin)
    ensures r == MultiWithPriority(m, 750.0 + offset)
  {
    SetMultiPriority(m, DefaultHigh + offset)
  }

  function MultiLow(m: MultiPin, offset: real): (r: MultiPin)
    ensures r == MultiWithPriority(m, 250.0 + offset)
  {
    SetMultiPriority(m, DefaultLow + offset)
  }

  function MultiExact(m: MultiPin, value: real): (r: MultiPin)
    ensures r == MultiWithPriority(m, value)
  {
    SetMultiPriority(m, value)
  }

  /** `joinRelations(_:_:)`: two relations combine when they are the same or
      one of them is equal; the result is the non-equal one. */
  function JoinRelations(r1: Relation, r2: Relation): (r: Option<Relation>)
    ensures r.None? <==> (r1 != r2 && r1 != Equal && r2 != Equal)
    ensures r.Some? ==> r.value == (if r1 == Equal then r2 else r1)
  {
    if r1 == r2 || r2 == Equal then Some(r1)
    else if r1 == Equal then Some(r2)
    else None
  }

  lemma JoinRelationsCommutes(r1: Relation, r2: Relation)
    ensures JoinRelations(r1, r2) == JoinRelations(r2, r1)
  {
  }
}
