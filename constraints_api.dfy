/** The public constraint helpers on views and layout guides: pinning an edge
    to an edge of another object, fixed and relative sizes, aspect ratios,
    equal sizes across an array, removing a view's own constraints, and the
    deprecated attribute-based `bxPin`. */
module ConstraintsApi {
  import opened Types
  import opened Pin
  import opened Anchors
  import opened Directions

  /** The views whose autoresizing-mask translation has been switched off. */
  class AutoresizingMasks {
    var off: set<ViewId>

    constructor ()
      ensures off == {}
    {
      off := {};
    }

    method TurnOff(v: ViewId)
      modifies this
      ensures off == old(off) + {v}
    {
      off := off + {v};
    }
  }

  /** `al`: switches translation off and hands back the same view. */
  method Al(masks: AutoresizingMasks, v: ViewId) returns (r: ViewId)
    modifies masks
    ensures r == v && masks.off == old(masks.off) + {v}
  {
    masks.TurnOff(v);
    r := v;
  }

  /** The constraint `pin(_:to:of:pin:sca:activate:)` builds: the routed
      anchor of `edge` on `obj` against the routed anchor of `toEdge`
      (defaulting to `edge`) on `other`, with the pin's relation and
      constant. The pin's priority is not applied. */
  function EdgeConstraint(obj: Obj, edge: BoxEdge, toEdge: Option<BoxEdge>, other: Obj, p: Pin, sca: SemanticContentAttribute): (c: Constraint)
    ensures c.first == Anchor(obj, AnchorForEdge(edge, sca))
    ensures toEdge.None? ==> c.second == Some(Anchor(other, AnchorForEdge(edge, sca)))
    ensures toEdge.Some? ==> c.second == Some(Anchor(other, AnchorForEdge(toEdge.value, sca)))
    ensures c.relation == p.relation && c.constant == p.constant
    ensures c.multiplier == 1.0 && c.priority == Required
  {
    var target := if toEdge.Some? then toEdge.value else edge;
    AnchorPin(Anchor(obj, AnchorForEdge(edge, sca)), p.relation, p.constant, Anchor(other, AnchorForEdge(target, sca)))
  }

  /** `pin(_:to:of:pin:sca:activate:)`: activates only when asked to. */
  method PinEdge(act: ActiveConstraints, obj: Obj, edge: BoxEdge, toEdge: Option<BoxEdge>, other: Obj,
                 p: Pin, sca: SemanticContentAttribute, activate: bool)
    returns (c: Constraint)
    modifies act
    ensures c == EdgeConstraint(obj, edge, toEdge, other, p, sca)
    ensures activate ==> act.active == old(act.active) + {c}
    ensures !activate ==> act.active == old(act.active)
  {
    c := EdgeConstraint(obj, edge, toEdge, other, p, sca);
    if activate {
      act.Activate([c]);
      assert Elems([c]) == {c};
    }
  }

  /** `pin(_:to:of:offset:sca:activate:)`: an equal pin with that offset. */
  method PinEdgeOffset(act: ActiveConstraints, obj: Obj, edge: BoxEdge, toEdge: BoxEdge, other: Obj,
                       offset: real, sca: SemanticContentAttribute, activate: bool)
    returns (c: Constraint)
    modifies act
    ensures c.relation == Equal && c.constant == offset
    ensures c == EdgeConstraint(obj, edge, Some(toEdge), other, FromDouble(offset), sca)
    ensures activate ==> act.active == old(act.active) + {c}
    ensures !activate ==> act.active == old(act.active)
  {
    c := PinEdge(act, obj, edge, Some(toEdge), other, FromDouble(offset), sca, activate);
  }

  /** A dimension of `obj` tied to the same dimension of `other` through a
      multiplier pin (`pinHeight(to:multiPin:)`, `pinWidth(to:multiPin:)`). */
  function DimensionTo(obj: Obj, dim: Attribute, other: Obj, m: MultiPin): (c: Constraint)
    ensures c.first == Anchor(obj, dim) && c.second == Some(Anchor(other, dim))
    ensures c.relation == m.pin.relation && c.multiplier == m.multiplier && c.constant == m.pin.constant
  {
    DimensionRatio(Anchor(obj, dim), m.pin.relation, m.multiplier, m.pin.constant, Anchor(other, dim))
  }

  /** A dimension of `obj` fixed by a pin (`pinHeight(_:)`, `pinWidth(_:)`). */
  function DimensionConstant(obj: Obj, dim: Attribute, p: Pin): (c: Constraint)
    ensures c.first == Anchor(obj, dim) && c.second.None?
    ensures c.relation == p.relation && c.constant == p.constant
  {
    DimensionPin(Anchor(obj, dim), p.relation, p.constant)
  }

  /** Builds, activates and returns one constraint. */
  method ActivateOne(act: ActiveConstraints, c: Constraint) returns (r: Constraint)
    modifies act
    ensures r == c && act.active == old(act.active) + {c}
  {
    act.Activate([c]);
    assert Elems([c]) == {c};
    r := c;
  }

  /** `pinHeight(to:multiPin:)` and `pinWidth(to:multiPin:)`. */
  method PinHeightToMulti(act: ActiveConstraints, obj: Obj, other: Obj, m: MultiPin) returns (c: Constraint)
    modifies act
    ensures c == DimensionTo(obj, Height, other, m) && act.active == old(act.active) + {c}
  {
    c := ActivateOne(act, DimensionTo(obj, Height, other, m));
  }

  method PinWidthToMulti(act: ActiveConstraints, obj: Obj, other: Obj, m: MultiPin) returns (c: Constraint)
    modifies act
    ensures c == DimensionTo(obj, Width, other, m) && act.active == old(act.active) + {c}
  {
    c := ActivateOne(act, DimensionTo(obj, Width, other, m));
  }

  /** `pinHeight(to:pin:)`, `pinWidth(to:pin:)`: multiplier 1. */
  method PinHeightToPin(act: ActiveConstraints, obj: Obj, other: Obj, p: Pin) returns (c: Constraint)
    modifies act
    ensures c.multiplier == 1.0 && c.relation == p.relation && c.constant == p.constant
    ensures c == DimensionTo(obj, Height, other, MultiOf(p)) && act.active == old(act.active) + {c}
  {
    c := PinHeightToMulti(act, obj, other, MultiOf(p));
  }

  method PinWidthToPin(act: ActiveConstraints, obj: Obj, other: Obj, p: Pin) returns (c: Constraint)
    modifies act
    ensures c.multiplier == 1.0 && c.relation == p.relation && c.constant == p.constant
    ensures c == DimensionTo(obj, Width, other, MultiOf(p)) && act.active == old(act.active) + {c}
  {
    c := PinWidthToMulti(act, obj, other, MultiOf(p));
  }

  /** `pinHeight(to:offset:)`, `pinWidth(to:offset:)`: an equal pin. */
  method PinHeightToOffset(act: ActiveConstraints, obj: Obj, other: Obj, offset: real) returns (c: Constraint)
    modifies act
    ensures c.multiplier == 1.0 && c.relation == Equal && c.constant == offset
    ensures c == DimensionTo(obj, Height, other, MultiOf(FromDouble(offset))) && act.active == old(act.active) + {c}
  {
    c := PinHeightToPin(act, obj, other, FromDouble(offset));
  }

  method PinWidthToOffset(act: ActiveConstraints, obj: Obj, other: Obj, offset: real) returns (c: Constraint)
    modifies act
    ensures c.multiplier == 1.0 && c.relation == Equal && c.constant == offset
    ensures c == DimensionTo(obj, Width, other, MultiOf(FromDouble(offset))) && act.active == old(act.active) + {c}
  {
    c := PinWidthToPin(act, obj, other, FromDouble(offset));
  }

  /** `pinHeight(_ pin:)`, `pinWidth(_ pin:)` */
  method PinHeight(act: ActiveConstraints, obj: Obj, p: Pin) returns (c: Constraint)
    modifies act
    ensures c == DimensionConstant(obj, Height, p) && act.active == old(act.active) + {c}
  {
    c := ActivateOne(act, DimensionConstant(obj, Height, p));
  }

  method PinWidth(act: ActiveConstraints, obj: Obj, p: Pin) returns (c: Constraint)
    modifies act
    ensures c == DimensionConstant(obj, Width, p) && act.active == old(act.active) + {c}
  {
    c := ActivateOne(act, DimensionConstant(obj, Width, p));
  }

  /** `pinHeight(_ height:)`, `pinWidth(_ width:)`: an equal pin. */
  method PinHeightValue(act: ActiveConstraints, obj: Obj, height: real) returns (c: Constraint)
    modifies act
    ensures c.relation == Equal && c.constant == height && c.first == Anchor(obj, Height)
    ensures c == DimensionConstant(obj, Height, FromDouble(height)) && act.active == old(act.active) + {c}
  {
    c := PinHeight(act, obj, FromDouble(height));
  }

  method PinWidthValue(act: ActiveConstraints, obj: Obj, width: real) returns (c: Constraint)
    modifies act
    ensures c.relation == Equal && c.constant == width && c.first == Anchor(obj, Width)
    ensures c == DimensionConstant(obj, Width, FromDouble(width)) && act.active == old(act.active) + {c}
  {
    c := PinWidth(act, obj, FromDouble(width));
  }

  /** `pinSize(_:)`: exactly two constraints, width first, then height. */
  method PinSize(act: ActiveConstraints, obj: Obj, width: real, height: real) returns (cs: seq<Constraint>)
    modifies act
    ensures |cs| == 2
    ensures cs[0] == DimensionConstant(obj, Width, FromDouble(width))
    ensures cs[1] == DimensionConstant(obj, Height, FromDouble(height))
    ensures act.active == old(act.active) + Elems(cs)
  {
    var w := PinWidthValue(act, obj, width);
    var h := PinHeightValue(act, obj, height);
    cs := [w, h];
    assert Elems(cs) == {w, h};
  }

  /** The aspect constraint: height equals width times the aspect. */
  function AspectConstraint(obj: Obj, aspect: real): (c: Constraint)
    ensures c.first == Anchor(obj, Height) && c.second == Some(Anchor(obj, Width))
    ensures c.relation == Equal && c.multiplier == aspect && c.constant == 0.0
  {
    DimensionRatio(Anchor(obj, Height), Equal, aspect, 0.0, Anchor(obj, Width))
  }

  /** `pinAspect(_:)`: always returns a constraint. */
  method PinAspect(act: ActiveConstraints, obj: Obj, aspect: real) returns (c: Option<Constraint>)
    modifies act
    ensures c == Some(AspectConstraint(obj, aspect))
    ensures act.active == old(act.active) + {c.value}
  {
    var a := ActivateOne(act, AspectConstraint(obj, aspect));
    c := Some(a);
  }

  /** The result `pinAspectFromSize(_:)` computes: none for a zero width,
      otherwise the aspect height/width. */
  function AspectFromSize(obj: Obj, width: real, height: real): (c: Option<Constraint>)
    ensures c.None? <==> width == 0.0
    ensures c.Some? ==> c.value == AspectConstraint(obj, height / width)
    ensures c.Some? ==> c.value.multiplier * width == height
  {
    if width != 0.0 then Some(AspectConstraint(obj, height / width)) else None
  }

  /** `pinAspectFromSize(_:)`: activates nothing for a zero width. */
  method PinAspectFromSize(act: ActiveConstraints, obj: Obj, width: real, height: real) returns (c: Option<Constraint>)
    modifies act
    ensures c == AspectFromSize(obj, width, height)
    ensures c.None? ==> act.active == old(act.active)
    ensures c.Some? ==> act.active == old(act.active) + {c.value}
  {
    if width != 0.0 {
      c := PinAspect(act, obj, height / width);
    } else {
      c := None;
    }
  }

  /** The equal-dimension constraint tying `first` to `o`. */
  function Tie(first: Obj, o: Obj, dim: Attribute): (c: Constraint)
    ensures c.first == Anchor(first, dim) && c.second == Some(Anchor(o, dim))
    ensures c.relation == Equal && c.multiplier == 1.0 && c.constant == 0.0
  {
    DimensionRatio(Anchor(first, dim), Equal, 1.0, 0.0, Anchor(o, dim))
  }

  /** The `compactMap` of `pinSameWidth`/`pinSameHeight`: one tie from `first`
      to every element of `s` that differs from it, in order. */
  function SameDimension(first: Obj, s: seq<Obj>, dim: Attribute): (r: seq<Constraint>)
    ensures |r| == |s| - Count(s, first)
    ensures first in s ==> |r| < |s|
    ensures forall c :: c in r <==> exists o :: o in s && o != first && c == Tie(first, o, dim)
    decreases |s|
  {
    if |s| == 0 then []
    else
      var rest := SameDimension(first, s[..|s| - 1], dim);
      var last := s[|s| - 1];
      assert s == s[..|s| - 1] + [last];
      rest + (if last != first then [Tie(first, last, dim)] else [])
  }

  /** The ties follow the order of the array: appending an element appends
      its tie, unless it is `first`. */
  lemma {:induction false} SameDimensionAppend(first: Obj, s: seq<Obj>, o: Obj, dim: Attribute)
    ensures SameDimension(first, s + [o], dim) == SameDimension(first, s, dim) + (if o != first then [Tie(first, o, dim)] else [])
  {
    assert (s + [o])[..|s + [o]| - 1] == s;
  }

  /** The constraints for a whole array: none when it is empty, otherwise the
      ties from its first element. */
  function SameDimensionOf(objs: seq<Obj>, dim: Attribute): (r: seq<Constraint>)
    ensures |objs| == 0 ==> r == []
    ensures |objs| > 0 ==> forall c :: c in r <==> exists o :: o in objs && o != objs[0] && c == Tie(objs[0], o, dim)
    ensures |objs| > 0 ==> |r| == |objs| - Count(objs, objs[0]) < |objs|
  {
    if |objs| == 0 then [] else SameDimension(objs[0], objs, dim)
  }

  /** `pinSameWidth()` and `pinSameHeight()`: activates and returns the ties. */
  method PinSameWidth(act: ActiveConstraints, objs: seq<Obj>) returns (cs: seq<Constraint>)
    modifies act
    ensures cs == SameDimensionOf(objs, Width) && act.active == old(act.active) + Elems(cs)
  {
    cs := SameDimensionOf(objs, Width);
    act.Activate(cs);
  }

  method PinSameHeight(act: ActiveConstraints, objs: seq<Obj>) returns (cs: seq<Constraint>)
    modifies act
    ensures cs == SameDimensionOf(objs, Height) && act.active == old(act.active) + Elems(cs)
  {
    cs := SameDimensionOf(objs, Height);
    act.Activate(cs);
  }

  /** Whether a constraint names `v` as either of its items. */
  predicate NamesView(c: Constraint, v: ViewId)
  {
    c.first.obj == View(v) || (c.second.Some? && c.second.value.obj == View(v))
  }

  /** The constraints a view owns, and the removal helpers that filter them. */
  class OwnedConstraints {
    var owned: seq<Constraint>

    constructor (cs: seq<Constraint>)
      ensures owned == cs
    {
      owned := cs;
    }

    /** `bxRemoveConstraintsForAttribute(_:)`: removes exactly the owned
        constraints whose first attribute is `attr`, keeping the order of the
        rest. */
    method RemoveConstraintsForAttribute(attr: Attribute)
      modifies this
      ensures owned == WithoutAttribute(old(owned), attr)
    {
      var kept: seq<Constraint> := [];
      for i := 0 to |owned|
        invariant kept == WithoutAttribute(owned[..i], attr)
      {
        assert owned[..i + 1] == owned[..i] + [owned[i]];
        if owned[i].first.attr != attr {
          kept := kept + [owned[i]];
        }
      }
      assert owned[..|owned|] == owned;
      owned := kept;
    }

    /** `bxRemoveConstraintsToView(_:)`: removes exactly the owned constraints
        that name the view as either item. */
    method RemoveConstraintsToView(v: ViewId)
      modifies this
      ensures owned == WithoutView(old(owned), v)
    {
      var kept: seq<Constraint> := [];
      for i := 0 to |owned|
        invariant kept == WithoutView(owned[..i], v)
      {
        assert owned[..i + 1] == owned[..i] + [owned[i]];
        if !NamesView(owned[i], v) {
          kept := kept + [owned[i]];
        }
      }
      assert owned[..|owned|] == owned;
      owned := kept;
    }
  }

  /** The constraints of `s` whose first attribute is not `attr`, in order. */
  function WithoutAttribute(s: seq<Constraint>, attr: Attribute): (r: seq<Constraint>)
    ensures |r| <= |s|
    ensures forall c :: c in r <==> c in s && c.first.attr != attr
    decreases |s|
  {
    if |s| == 0 then []
    else
      var last := s[|s| - 1];
      assert s == s[..|s| - 1] + [last];
      WithoutAttribute(s[..|s| - 1], attr) + (if last.first.attr != attr then [last] else [])
  }

  /** The constraints of `s` that do not name view `v`, in order. */
  function WithoutView(s: seq<Constraint>, v: ViewId): (r: seq<Constraint>)
    ensures |r| <= |s|
    ensures forall c :: c in r <==> c in s && !NamesView(c, v)
    decreases |s|
  {
    if |s| == 0 then []
    else
      var last := s[|s| - 1];
      assert s == s[..|s| - 1] + [last];
      WithoutView(s[..|s| - 1], v) + (if !NamesView(last, v) then [last] else [])
  }

  /** Filtering distributes over concatenation. */
  lemma {:induction false} WithoutAttributeAppend(a: seq<Constraint>, b: seq<Constraint>, attr: Attribute)
    ensures WithoutAttribute(a + b, attr) == WithoutAttribute(a, attr) + WithoutAttribute(b, attr)
    decreases |b|
  {
    if |b| == 0 {
      assert a + b == a;
    } else {
      var bi := b[..|b| - 1];
      assert (a + b)[..|a + b| - 1] == a + bi;
      WithoutAttributeAppend(a, bi, attr);
    }
  }

  /** Removing the constraints for an attribute a second time changes
      nothing, and a constraint that survives is never on that attribute. */
  lemma {:induction false} RemoveForAttributeIdempotent(s: seq<Constraint>, attr: Attribute)
    ensures WithoutAttribute(WithoutAttribute(s, attr), attr) == WithoutAttribute(s, attr)
    decreases |s|
  {
    if |s| > 0 {
      var init := s[..|s| - 1];
      var last := s[|s| - 1];
      RemoveForAttributeIdempotent(init, attr);
      WithoutAttributeAppend(WithoutAttribute(init, attr), if last.first.attr != attr then [last] else [], attr);
    }
  }

  /** Removing the constraints to two views commutes. */
  lemma {:induction false} RemoveToViewCommutes(s: seq<Constraint>, v: ViewId, w: ViewId)
    ensures WithoutView(WithoutView(s, v), w) == WithoutView(WithoutView(s, w), v)
    decreases |s|
  {
    if |s| > 0 {
      var init := s[..|s| - 1];
      var last := s[|s| - 1];
      RemoveToViewCommutes(init, v, w);
      WithoutViewAppend(WithoutView(init, v), if !NamesView(last, v) then [last] else [], w);
      WithoutViewAppend(WithoutView(init, w), if !NamesView(last, w) then [last] else [], v);
    }
  }

  lemma {:induction false} WithoutViewAppend(a: seq<Constraint>, b: seq<Constraint>, v: ViewId)
    ensures WithoutView(a + b, v) == WithoutView(a, v) + WithoutView(b, v)
    decreases |b|
  {
    if |b| == 0 {
      assert a + b == a;
    } else {
      var bi := b[..|b| - 1];
      assert (a + b)[..|a + b| - 1] == a + bi;
      WithoutViewAppend(a, bi, v);
    }
  }

  /** The constraint `bxPin` builds: this view's attribute against the other
      view's, multiplier 1, and the pin's priority (required is the default,
      so setting it only when not required always ends with the pin's). */
  function BxPinConstraint(obj: ViewId, attr: Attribute, toAttr: Attribute, other: ViewId, p: Pin): (c: Constraint)
    ensures c.first == Anchor(View(obj), attr) && c.second == Some(Anchor(View(other), toAttr))
    ensures c.relation == p.relation && c.constant == p.constant && c.multiplier == 1.0
    ensures c.priority == p.priority
  {
    var c := Constraint(Anchor(View(obj), attr), p.relation, Some(Anchor(View(other), toAttr)), 1.0, p.constant, Required);
    if p.priority != Required then c.(priority := p.priority) else c
  }

  /** `bxPin(_:to:of:pin:activate:)` */
  method BxPin(act: ActiveConstraints, obj: ViewId, attr: Attribute, toAttr: Attribute, other: ViewId,
               p: Pin, activate: bool)
    returns (c: Constraint)
    modifies act
    ensures c == BxPinConstraint(obj, attr, toAttr, other, p)
    ensures activate ==> act.active == old(act.active) + {c}
    ensures !activate ==> act.active == old(act.active)
  {
    c := BxPinConstraint(obj, attr, toAttr, other, p);
    if activate {
      act.Activate([c]);
      assert Elems([c]) == {c};
    }
  }
}
