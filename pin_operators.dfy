/** The operators over the priority-carrying pin: summation, adding a value,
    attaching a priority with `&`, building multiplier pins with `*`, and the
    prefix `>=`, `<=`, `==` and `*` shorthands. */
module PinOperators {
  import opened Types
  import opened Pin

  /** `pin1 + pin2` on optional pins: nil when either is nil or the
      relations conflict; otherwise constants add, relations join and the
      lower priority wins. */
  function Add(p1: Option<Pin>, p2: Option<Pin>): (r: Option<Pin>)
    ensures r.Some? <==> p1.Some? && p2.Some? && JoinRelations(p1.value.relation, p2.value.relation).Some?
    ensures r.Some? ==>
      && r.value.constant == p1.value.constant + p2.value.constant
      && r.value.relation == JoinRelations(p1.value.relation, p2.value.relation).value
      && r.value.priority <= p1.value.priority && r.value.priority <= p2.value.priority
      && (r.value.priority == p1.value.priority || r.value.priority == p2.value.priority)
  {
    if p1.None? || p2.None? then None
    else
      match JoinRelations(p1.value.relation, p2.value.relation)
      case None => None
      case Some(rel) =>
        var pr := if p1.value.priority <= p2.value.priority then p1.value.priority else p2.value.priority;
        Some(Pin(p1.value.constant + p2.value.constant, rel, pr))
  }

  /** Summation does not depend on the order of its operands. */
  lemma AddCommutes(p1: Option<Pin>, p2: Option<Pin>)
    ensures Add(p1, p2) == Add(p2, p1)
  {
    if p1.Some? && p2.Some? {
      JoinRelationsCommutes(p1.value.relation, p2.value.relation);
    }
  }

  /** Summing with the zero pin keeps the pin. */
  lemma AddZeroIdentity(p: Pin)
    ensures Add(Some(p), Some(Zero())) == Some(if p.priority <= Required then p else p.(priority := Required))
  {
  }

  /** `pin + value`: only the constant changes. */
  function AddValue(p: Pin, value: real): (r: Pin)
    ensures r.constant == p.constant + value
    ensures r.relation == p.relation && r.priority == p.priority
  {
    Pin(p.constant + value, p.relation, p.priority)
  }

  /** `pin + value` on an optional pin: nil stays nil. */
  function AddValueOptional(p: Option<Pin>, value: real): (r: Option<Pin>)
    ensures r.None? <==> p.None?
    ensures r.Some? ==> r.value == AddValue(p.value, value)
  {
    match p
    case Some(q) => Some(Pin(q.constant + value, q.relation, q.priority))
    case None => None
  }

  /** Adding two values one after the other is adding their sum. */
  lemma AddValueTwice(p: Pin, a: real, b: real)
    ensures AddValue(AddValue(p, a), b) == AddValue(p, a + b)
  {
  }

  /** `pin & priority` and `priority & pin`: only the priority changes. */
  function PinAndPriority(p: Pin, pr: real): (r: Pin)
    ensures r.constant == p.constant && r.relation == p.relation && r.priority == pr
  {
    Pin(p.constant, p.relation, pr)
  }

  function PriorityAndPin(pr: real, p: Pin): (r: Pin)
    ensures r == PinAndPriority(p, pr) && r == WithPriority(p, pr)
  {
    Pin(p.constant, p.relation, pr)
  }

  /** `pin * multiplier`: nil propagates. */
  function PinTimes(p: Option<Pin>, multiplier: real): (r: Option<MultiPin>)
    ensures r.None? <==> p.None?
    ensures r.Some? ==> r.value.pin == p.value && r.value.multiplier == multiplier
  {
    match p
    case Some(q) => Some(MultiPin(q, multiplier))
    case None => None
  }

  /** `multiPin * multiplier`: multiplies the multiplier, keeps the pin. */
  function MultiPinTimes(m: Option<MultiPin>, multiplier: real): (r: Option<MultiPin>)
    ensures r.None? <==> m.None?
    ensures r.Some? ==> r.value.pin == m.value.pin && r.value.multiplier == m.value.multiplier * multiplier
  {
    match m
    case Some(q) => Some(MultiPin(q.pin, q.multiplier * multiplier))
    case None => None
  }

  /** Multiplying twice multiplies by the product. */
  lemma MultiPinTimesTwice(p: Option<Pin>, a: real, b: real)
    ensures MultiPinTimes(PinTimes(p, a), b) == PinTimes(p, a * b)
  {
    match p
    case Some(q) =>
      var r := MultiPinTimes(PinTimes(p, a), b);
      assert r.value.multiplier == a * b;
      assert r.value == MultiPin(q, a * b);
    case None =>
  }

  /** `multiPin & priority` and `priority & multiPin`. */
  function MultiPinAndPriority(m: MultiPin, pr: real): (r: MultiPin)
    ensures r.pin == PinAndPriority(m.pin, pr) && r.multiplier == m.multiplier
  {
    MultiWithPriority(m, pr)
  }

  function PriorityAndMultiPin(pr: real, m: MultiPin): (r: MultiPin)
    ensures r == MultiPinAndPriority(m, pr)
  {
    MultiWithPriority(m, pr)
  }

  /** Prefix `*m` (for CGFloat and Double alike). */
  function PrefixTimes(m: real): (r: MultiPin)
    ensures r.multiplier == m && r.pin == Zero()
  {
    MultiFromDouble(m)
  }

  /** Prefix `>=v`, `<=v`, `==v` on a number: the force-unwrapped factory. */
  function PrefixGreaterThanOrEqual(v: real): (r: Pin)
    ensures r == Pin(v, GreaterThanOrEqual, Required)
  {
    GreaterThanOrEqualPin(Some(v)).value
  }

  function PrefixLessThanOrEqual(v: real): (r: Pin)
    ensures r == Pin(v, LessThanOrEqual, Required)
  {
    LessThanOrEqualPin(Some(v)).value
  }

  function PrefixEqual(v: real): (r: Pin)
    ensures r == Pin(v, Equal, Required)
  {
    EqualPin(Some(v)).value
  }

  /** The optional-argument prefix variants map nil to nil. */
  function PrefixGreaterThanOrEqualOptional(v: Option<real>): (r: Option<Pin>)
    ensures r.None? <==> v.None?
    ensures r.Some? ==> r.value == PrefixGreaterThanOrEqual(v.value)
  {
    GreaterThanOrEqualPin(v)
  }

  function PrefixLessThanOrEqualOptional(v: Option<real>): (r: Option<Pin>)
    ensures r.None? <==> v.None?
    ensures r.Some? ==> r.value == PrefixLessThanOrEqual(v.value)
  {
    LessThanOrEqualPin(v)
  }

  function PrefixEqualOptional(v: Option<real>): (r: Option<Pin>)
    ensures r.None? <==> v.None?
    ensures r.Some? ==> r.value == PrefixEqual(v.value)
  {
    EqualPin(v)
  }

  /** `>=a + >=b` is `>=(a+b)`; `>=a + ==b` is too; `>=a + <=b` has no sum. */
  lemma SumOfPrefixPins(a: real, b: real)
    ensures Add(Some(PrefixGreaterThanOrEqual(a)), Some(PrefixGreaterThanOrEqual(b)))
            == Some(PrefixGreaterThanOrEqual(a + b))
    ensures Add(Some(PrefixGreaterThanOrEqual(a)), Some(PrefixEqual(b)))
            == Some(PrefixGreaterThanOrEqual(a + b))
    ensures Add(Some(PrefixGreaterThanOrEqual(a)), Some(PrefixLessThanOrEqual(b))).None?
  {
  }
}
