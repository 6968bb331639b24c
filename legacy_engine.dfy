/** The constraint engine of the older revision, working on its own items
    and priority-free pins. The container reads its margins and semantic
    content attribute; the main-axis chain sums pins with the `+` operators
    and stops on a relation conflict; the cross-axis pins skip layout guides
    and go through `bxPin`; flex, relative and fixed sizes follow. Nothing
    here activates a constraint: everything is appended to a list. */
module LegacyEngine {
  import opened Types
  import opened LegacyPin
  import opened LegacyEnums
  import opened LegacyLayout
  import opened LegacyItem
  import opened Anchors
  import Directions
  import Current = Pin
  import ConstraintsApi

  /** What the builders read from the container view: its identity, its
      semantic content attribute, the layout direction the system resolves
      for it, its layout margins, the axis and the spacing. */
  datatype Ctx = Ctx(container: ViewId, sca: SemanticContentAttribute, dir: LayoutDirection, margins: Insets,
                     axis: Axis, spacing: real)

  /** `isRTLDependent`: the attribute is left unspecified. */
  predicate IsRTLDependent(sca: SemanticContentAttribute)
  {
    sca == Unspecified
  }

  /** The attributes of the begin, end and centre anchors on an axis: top,
      bottom and centre y on y; leading, trailing (when direction dependent)
      or left, right, and centre x on x. Items and container use the same
      ones. */
  function BeginAttr(a: Axis, rtlDependent: bool): (r: Attribute)
    ensures r == EdgeAttribute(EdgeForPosition(a, Begin), rtlDependent)
  {
    if a == Y then Attribute.Top else if rtlDependent then Leading else Attribute.Left
  }

  function EndAttr(a: Axis, rtlDependent: bool): (r: Attribute)
    ensures r == EdgeAttribute(EdgeForPosition(a, End), rtlDependent)
  {
    if a == Y then Attribute.Bottom else if rtlDependent then Trailing else Attribute.Right
  }

  function CenterAttr(a: Axis): (r: Attribute)
    ensures r == EdgeAttribute(EdgeForPosition(a, Center), false)
  {
    if a == Y then Attribute.CenterY else Attribute.CenterX
  }

  /** `attributeForEdge(_:)`: left and right become leading and trailing
      exactly when the container is direction dependent. */
  function AttributeForEdge(e: BoxEdge, sca: SemanticContentAttribute): (r: Attribute)
    ensures r == EdgeAttribute(e, IsRTLDependent(sca))
    ensures r == Leading || r == Trailing ==> sca == Unspecified
  {
    match e
    case Left => if IsRTLDependent(sca) then Leading else Attribute.Left
    case Right => if IsRTLDependent(sca) then Trailing else Attribute.Right
    case Top => Attribute.Top
    case Bottom => Attribute.Bottom
    case CenterX => Attribute.CenterX
    case CenterY => Attribute.CenterY
  }

  /** The item anchors the engine pins agree with the attributes above. */
  lemma ItemAnchorsAgree(i: BoxItem, a: Axis, rtlDependent: bool)
    ensures LegacyItem.BeginAnchor(i, a, rtlDependent).Some? ==> LegacyItem.BeginAnchor(i, a, rtlDependent).value == Anchor(i.obj, BeginAttr(a, rtlDependent))
    ensures LegacyItem.EndAnchor(i, a, rtlDependent).Some? ==> LegacyItem.EndAnchor(i, a, rtlDependent).value == Anchor(i.obj, EndAttr(a, rtlDependent))
    ensures LegacyItem.CenterAnchor(i, a).Some? ==> LegacyItem.CenterAnchor(i, a).value == Anchor(i.obj, CenterAttr(a))
  {
  }

  /** `offsetFactorForAxis(_:)`: -1 only on x, for a right-to-left language,
      when the container is direction dependent. */
  function OffsetFactor(a: Axis, sca: SemanticContentAttribute, dir: LayoutDirection): (f: real)
    ensures f == 1.0 || f == -1.0
    ensures f == -1.0 <==> a.X? && dir.RightToLeft? && sca.Unspecified?
  {
    if a == Y || dir == LeftToRight || !IsRTLDependent(sca) then 1.0 else -1.0
  }

  /** `centerOffsetForAxis(_:)`: half the difference of the begin and end
      margins, turned round on x by the offset factor. */
  function CenterOffset(a: Axis, ctx: Ctx): (v: real)
    ensures Directions.BeginForAxis(a, ctx.margins) == Directions.EndForAxis(a, ctx.margins) ==> v == 0.0
    ensures OffsetFactor(a, ctx.sca, ctx.dir) == 1.0 ==> v == Directions.CenterOffsetForAxis(a, ctx.margins)
    ensures OffsetFactor(a, ctx.sca, ctx.dir) == -1.0 ==> v == -Directions.CenterOffsetForAxis(a, ctx.margins)
  {
    var m := ctx.margins;
    0.5 * (if a == Y then m.top - m.bottom else (m.left - m.right) * OffsetFactor(a, ctx.sca, ctx.dir))
  }

  /** `insetForAxis(_:position:)`: begin margin, centre offset, end margin. */
  function MarginForAxis(a: Axis, pos: Position, ctx: Ctx): (v: real)
    ensures pos == Begin ==> v == Directions.BeginForAxis(a, ctx.margins)
    ensures pos == Center ==> v == CenterOffset(a, ctx)
    ensures pos == End ==> v == Directions.EndForAxis(a, ctx.margins)
  {
    match pos
    case Begin => Directions.BeginForAxis(a, ctx.margins)
    case Center => CenterOffset(a, ctx)
    case End => Directions.EndForAxis(a, ctx.margins)
  }

  function ContainerObj(ctx: Ctx): Obj
  {
    Obj.View(ctx.container)
  }

  /** The first item's begin constraint: `begin + beginMargin` to the
      container's begin. */
  function FirstConstraint(ctx: Ctx, item: BoxItem): (c: Constraint)
    requires BeginPin(item.layout, ctx.axis).Some?
    ensures c.first == Anchor(item.obj, BeginAttr(ctx.axis, IsRTLDependent(ctx.sca)))
    ensures c.second == Some(Anchor(ContainerObj(ctx), BeginAttr(ctx.axis, IsRTLDependent(ctx.sca))))
    ensures c.constant == BeginPin(item.layout, ctx.axis).value.constant + Directions.BeginForAxis(ctx.axis, ctx.margins)
    ensures c.relation == BeginPin(item.layout, ctx.axis).value.relation
  {
    var rtl := IsRTLDependent(ctx.sca);
    var p := AddValue(BeginPin(item.layout, ctx.axis).value, Directions.BeginForAxis(ctx.axis, ctx.margins));
    AnchorPin(Anchor(item.obj, BeginAttr(ctx.axis, rtl)), p.relation, p.constant, Anchor(ContainerObj(ctx), BeginAttr(ctx.axis, rtl)))
  }

  /** Whether the previous item offers what a link needs: its end anchor
      (gated as the item gates it) and its end pin. */
  predicate LinkGate(ctx: Ctx, prev: BoxItem)
  {
    LegacyItem.EndAnchor(prev, ctx.axis, IsRTLDependent(ctx.sca)).Some? && EndPin(prev.layout, ctx.axis).Some?
  }

  /** `itemBeginPin + prevEndPin + spacing`: none when the relations
      conflict. */
  function LinkPin(ctx: Ctx, prev: BoxItem, item: BoxItem): (r: Option<Pin>)
    ensures r.Some? <==> Add(BeginPin(item.layout, ctx.axis), EndPin(prev.layout, ctx.axis)).Some?
    ensures r.Some? ==>
      var s := Add(BeginPin(item.layout, ctx.axis), EndPin(prev.layout, ctx.axis)).value;
      r.value.constant == s.constant + ctx.spacing && r.value.relation == s.relation
  {
    AddValueOptional(Add(BeginPin(item.layout, ctx.axis), EndPin(prev.layout, ctx.axis)), ctx.spacing)
  }

  /** The link constraint: the item's begin to the previous item's end. */
  function LinkConstraint(ctx: Ctx, prev: BoxItem, item: BoxItem, p: Pin): (c: Constraint)
    ensures c.first.obj == item.obj && c.second == Some(Anchor(prev.obj, EndAttr(ctx.axis, IsRTLDependent(ctx.sca))))
    ensures c.constant == p.constant && c.relation == p.relation
  {
    var rtl := IsRTLDependent(ctx.sca);
    AnchorPin(Anchor(item.obj, BeginAttr(ctx.axis, rtl)), p.relation, p.constant, Anchor(prev.obj, EndAttr(ctx.axis, rtl)))
  }

  /** The main-axis centre constraint: the item's centre to the container's,
      with the pin as it is (no margin). */
  function CenterConstraint(ctx: Ctx, item: BoxItem): (c: Constraint)
    requires CenterPin(item.layout, ctx.axis).Some?
    ensures c.first == Anchor(item.obj, CenterAttr(ctx.axis)) && c.second == Some(Anchor(ContainerObj(ctx), CenterAttr(ctx.axis)))
    ensures c.constant == CenterPin(item.layout, ctx.axis).value.constant
    ensures c.relation == CenterPin(item.layout, ctx.axis).value.relation
  {
    var p := CenterPin(item.layout, ctx.axis).value;
    AnchorPin(Anchor(item.obj, CenterAttr(ctx.axis)), p.relation, p.constant, Anchor(ContainerObj(ctx), CenterAttr(ctx.axis)))
  }

  /** The closing constraint: the container's end to the last item's end,
      with `end + endMargin`. */
  function EndConstraint(ctx: Ctx, last: BoxItem): (c: Constraint)
    requires EndPin(last.layout, ctx.axis).Some?
    ensures c.first == Anchor(ContainerObj(ctx), EndAttr(ctx.axis, IsRTLDependent(ctx.sca)))
    ensures c.second == Some(Anchor(last.obj, EndAttr(ctx.axis, IsRTLDependent(ctx.sca))))
    ensures c.constant == EndPin(last.layout, ctx.axis).value.constant + Directions.EndForAxis(ctx.axis, ctx.margins)
  {
    var rtl := IsRTLDependent(ctx.sca);
    var p := AddValue(EndPin(last.layout, ctx.axis).value, Directions.EndForAxis(ctx.axis, ctx.margins));
    AnchorPin(Anchor(ContainerObj(ctx), EndAttr(ctx.axis, rtl)), p.relation, p.constant, Anchor(last.obj, EndAttr(ctx.axis, rtl)))
  }

  /** The cross-axis constraint of a view for the pin at one position. At
      the end the container is the first item and the constant is
      `pin + margin`; elsewhere the view is first and the constant is
      `constant * factor + margin`, the factor being the offset factor at
      the centre and 1 at the begin. The pin's own priority is absent, so
      `bxPin` leaves the constraint required. */
  function AcrossConstraint(ctx: Ctx, v: ViewId, pos: Position, p: Pin): (c: Constraint)
    ensures c.relation == p.relation && c.priority == Required && c.multiplier == 1.0
    ensures c.first.attr == AttributeForEdge(EdgeForPosition(Other(ctx.axis), pos), ctx.sca)
    ensures c.second.Some? && c.second.value.attr == c.first.attr
    ensures pos == End ==> c.first.obj == ContainerObj(ctx) && c.second.value.obj == Obj.View(v)
    ensures pos == End ==> c.constant == p.constant + MarginForAxis(Other(ctx.axis), End, ctx)
    ensures pos != End ==> c.first.obj == Obj.View(v) && c.second.value.obj == ContainerObj(ctx)
    ensures pos == Begin ==> c.constant == p.constant + MarginForAxis(Other(ctx.axis), Begin, ctx)
    ensures pos == Center ==> c.constant == p.constant * OffsetFactor(Other(ctx.axis), ctx.sca, ctx.dir) + MarginForAxis(Other(ctx.axis), Center, ctx)
  {
    var other := Other(ctx.axis);
    var attr := AttributeForEdge(EdgeForPosition(other, pos), ctx.sca);
    var inset := MarginForAxis(other, pos, ctx);
    if pos == End then
      var insetPin := AddValue(p, inset);
      ConstraintsApi.BxPinConstraint(ctx.container, attr, attr, v, Current.Pin(insetPin.constant, insetPin.relation, Required))
    else
      var factor := if pos == Center then OffsetFactor(other, ctx.sca, ctx.dir) else 1.0;
      ConstraintsApi.BxPinConstraint(v, attr, attr, ctx.container, Current.Pin(p.constant * factor + inset, p.relation, Required))
  }

  /** The cross-axis constraint at one position, for a view item with a pin
      there. */
  function AcrossAt(ctx: Ctx, item: BoxItem, pos: Position): (r: seq<Constraint>)
    ensures |r| <= 1
    ensures |r| == 1 <==> item.obj.View? && PinForAxis(item.layout, Other(ctx.axis), pos).Some?
    ensures |r| == 1 ==> r[0] == AcrossConstraint(ctx, item.obj.vid, pos, PinForAxis(item.layout, Other(ctx.axis), pos).value)
  {
    match LegacyItem.View(item)
    case None => []
    case Some(v) =>
      match PinForAxis(item.layout, Other(ctx.axis), pos)
      case None => []
      case Some(p) => [AcrossConstraint(ctx, v, pos, p)]
  }

  /** The cross-axis constraints for a list of positions, in order. */
  function AcrossFor(ctx: Ctx, item: BoxItem, ps: seq<Position>): (r: seq<Constraint>)
    decreases |ps|
  {
    if |ps| == 0 then []
    else AcrossFor(ctx, item, ps[..|ps| - 1]) + AcrossAt(ctx, item, ps[|ps| - 1])
  }

  const Positions: seq<Position> := [Begin, Center, End]

  /** What `pinAccross` appends for one item. */
  function Across(ctx: Ctx, item: BoxItem): (r: seq<Constraint>)
  {
    AcrossFor(ctx, item, Positions)
  }

  /** The number of pins an item has on an axis. */
  function PinCount(l: BoxLayout, a: Axis): (n: nat)
    ensures n <= 3
  {
    (if BeginPin(l, a).Some? then 1 else 0) + (if CenterPin(l, a).Some? then 1 else 0) + (if EndPin(l, a).Some? then 1 else 0)
  }

  /** `pinAccross` adds nothing for a layout guide, and one constraint per
      cross-axis pin for a view, in begin, centre, end order. */
  lemma AcrossOnePerPin(ctx: Ctx, item: BoxItem)
    ensures item.obj.Guide? ==> Across(ctx, item) == []
    ensures item.obj.View? ==> |Across(ctx, item)| == PinCount(item.layout, Other(ctx.axis))
    ensures Across(ctx, item) == AcrossAt(ctx, item, Begin) + AcrossAt(ctx, item, Center) + AcrossAt(ctx, item, End)
  {
    var p1 := [Begin];
    var p2 := [Begin, Center];
    assert p1[..0] == [];
    assert p2[..1] == p1;
    assert Positions[..2] == p2;
  }

  /** `pinAccross(boxItem:axis:constraints:)` */
  method PinAccross(ctx: Ctx, item: BoxItem, constraints: seq<Constraint>) returns (out: seq<Constraint>)
    ensures out == constraints + Across(ctx, item)
  {
    out := constraints;
    var view := LegacyItem.View(item);
    if view.None? {
      AcrossOnePerPin(ctx, item);
      return;
    }
    var other := Other(ctx.axis);
    for i := 0 to |Positions|
      invariant out == constraints + AcrossFor(ctx, item, Positions[..i])
    {
      var pos := Positions[i];
      assert Positions[..i + 1][..i] == Positions[..i];
      var pin := PinForAxis(item.layout, other, pos);
      if pin.Some? {
        var constr := AcrossConstraint(ctx, view.value, pos, pin.value);
        out := out + [constr];
      }
    }
    assert Positions[..|Positions|] == Positions;
  }

  /** The state of the chain walk after a prefix of the items: the
      constraints so far, the previous item, and whether the walk stopped
      on a conflict. */
  datatype ChainState = ChainState(cs: seq<Constraint>, prev: Option<BoxItem>, aborted: bool)

  /** The begin part of one item's step: what it appends, or none when the
      link's relations conflict. */
  function BeginPart(ctx: Ctx, prev: Option<BoxItem>, item: BoxItem): (r: Option<seq<Constraint>>)
    ensures r.None? <==>
      prev.Some? && BeginPin(item.layout, ctx.axis).Some? && LinkGate(ctx, prev.value) && LinkPin(ctx, prev.value, item).None?
    ensures r.Some? ==> |r.value| <= 1
  {
    if BeginPin(item.layout, ctx.axis).None? then Some([])
    else if prev.None? then Some([FirstConstraint(ctx, item)])
    else if !LinkGate(ctx, prev.value) then Some([])
    else
      match LinkPin(ctx, prev.value, item)
      case None => None
      case Some(p) => Some([LinkConstraint(ctx, prev.value, item, p)])
  }

  /** The main-axis centre constraint of an item, if it has a centre pin. */
  function CenterPart(ctx: Ctx, item: BoxItem): (r: seq<Constraint>)
  {
    if CenterPin(item.layout, ctx.axis).Some? then [CenterConstraint(ctx, item)] else []
  }

  /** One iteration of the loop of `createChainConstraints`. */
  function Step(ctx: Ctx, st: ChainState, item: BoxItem): (r: ChainState)
    requires !st.aborted
  {
    match BeginPart(ctx, st.prev, item)
    case None => st.(aborted := true)
    case Some(b) => ChainState(st.cs + b + CenterPart(ctx, item) + Across(ctx, item), Some(item), false)
  }

  /** The loop of `createChainConstraints` over a prefix of the items. */
  function ChainLoop(ctx: Ctx, items: seq<BoxItem>): (r: ChainState)
    decreases |items|
  {
    if |items| == 0 then ChainState([], None, false)
    else
      var st := ChainLoop(ctx, items[..|items| - 1]);
      if st.aborted then st else Step(ctx, st, items[|items| - 1])
  }

  /** Whether the walk closes with the end constraint: it ran to the end and
      the last item has both its end pin and its end anchor. */
  predicate Closes(ctx: Ctx, st: ChainState)
  {
    !st.aborted && st.prev.Some? && EndPin(st.prev.value.layout, ctx.axis).Some?
    && LegacyItem.EndAnchor(st.prev.value, ctx.axis, IsRTLDependent(ctx.sca)).Some?
  }

  /** Everything `createChainConstraints` appends. */
  function Chain(ctx: Ctx, items: seq<BoxItem>): (r: seq<Constraint>)
  {
    var st := ChainLoop(ctx, items);
    if Closes(ctx, st) then st.cs + [EndConstraint(ctx, st.prev.value)] else st.cs
  }

  /** `createChainConstraints(boxItems:axis:spacing:constraints:)` */
  method CreateChainConstraints(ctx: Ctx, items: seq<BoxItem>, constraints: seq<Constraint>) returns (out: seq<Constraint>)
    ensures out == constraints + Chain(ctx, items)
  {
    out := constraints;
    if |items| == 0 {
      return;
    }
    var prev, stopped;
    out, prev, stopped := WalkItems(ctx, items, out);
    if stopped {
      // the relation conflict: what is appended so far stays
      return;
    }
    out := CloseChain(ctx, prev, out);
  }

  /** The loop of `createChainConstraints`, left on the first conflict. */
  method WalkItems(ctx: Ctx, items: seq<BoxItem>, constraints: seq<Constraint>)
    returns (out: seq<Constraint>, prev: Option<BoxItem>, stopped: bool)
    ensures stopped == ChainLoop(ctx, items).aborted
    ensures out == constraints + ChainLoop(ctx, items).cs
    ensures prev == ChainLoop(ctx, items).prev
  {
    out := constraints;
    prev := None;
    stopped := false;
    var i := 0;
    ghost var st := ChainLoop(ctx, items[..0]);
    while i < |items|
      invariant 0 <= i <= |items|
      invariant st == ChainLoop(ctx, items[..i])
      invariant !st.aborted && out == constraints + st.cs && prev == st.prev
    {
      ChainLoopUnfold(ctx, items, i);
      var stop;
      out, stop := ChainItem(ctx, prev, items[i], out, st, constraints);
      if stop {
        AbortStable(ctx, items, i + 1);
        stopped := true;
        return;
      }
      st := Step(ctx, st, items[i]);
      prev := Some(items[i]);
      i := i + 1;
    }
    assert items[..|items|] == items;
  }

  /** The body of the loop for one item: the begin constraint, the centre
      constraint and the cross-axis pins; `stop` on a relation conflict,
      with nothing appended. */
  method ChainItem(ctx: Ctx, prev: Option<BoxItem>, item: BoxItem, constraints: seq<Constraint>,
                   ghost st: ChainState, ghost base: seq<Constraint>)
    returns (out: seq<Constraint>, stop: bool)
    requires !st.aborted && st.prev == prev && constraints == base + st.cs
    ensures stop <==> Step(ctx, st, item).aborted
    ensures stop ==> out == constraints
    ensures !stop ==> out == base + Step(ctx, st, item).cs
  {
    out, stop := ChainBegin(ctx, prev, item, constraints);
    if stop {
      return;
    }
    ghost var b := BeginPart(ctx, prev, item).value;
    var itemCenterPin := CenterPin(item.layout, ctx.axis);
    var itemCenterAnchor := LegacyItem.CenterAnchor(item, ctx.axis);
    if itemCenterPin.Some? && itemCenterAnchor.Some? {
      out := out + [AnchorPin(itemCenterAnchor.value, itemCenterPin.value.relation, itemCenterPin.value.constant,
                              Anchor(ContainerObj(ctx), CenterAttr(ctx.axis)))];
    }
    assert out == base + st.cs + b + CenterPart(ctx, item);
    out := PinAccross(ctx, item, out);
    AppendFour(base, st.cs, b, CenterPart(ctx, item), Across(ctx, item));
  }

  /** The begin constraint of one item: to the container's begin for the
      first item, to the previous item's end otherwise; `stop` on a
      relation conflict (the sum warning). */
  method ChainBegin(ctx: Ctx, prev: Option<BoxItem>, item: BoxItem, constraints: seq<Constraint>)
    returns (out: seq<Constraint>, stop: bool)
    ensures stop <==> BeginPart(ctx, prev, item).None?
    ensures stop ==> out == constraints
    ensures !stop ==> out == constraints + BeginPart(ctx, prev, item).value
  {
    out := constraints;
    stop := false;
    var rtl := IsRTLDependent(ctx.sca);
    var itemBeginPin := BeginPin(item.layout, ctx.axis);
    var itemBeginAnchor := LegacyItem.BeginAnchor(item, ctx.axis, rtl);
    if itemBeginPin.Some? && itemBeginAnchor.Some? {
      if prev.Some? {
        var prevEndAnchor := LegacyItem.EndAnchor(prev.value, ctx.axis, rtl);
        var prevEndPin := PinForAxis(prev.value.layout, ctx.axis, End);
        if prevEndAnchor.Some? && prevEndPin.Some? {
          var sumPin := AddValueOptional(Add(itemBeginPin, prevEndPin), ctx.spacing);
          if sumPin.None? {
            stop := true;
            return;
          }
          out := out + [AnchorPin(itemBeginAnchor.value, sumPin.value.relation, sumPin.value.constant, prevEndAnchor.value)];
        }
      } else {
        var firstPin := AddValue(itemBeginPin.value, Directions.BeginForAxis(ctx.axis, ctx.margins));
        out := out + [AnchorPin(itemBeginAnchor.value, firstPin.relation, firstPin.constant, Anchor(ContainerObj(ctx), BeginAttr(ctx.axis, rtl)))];
      }
    }
  }

  /** The tail of `createChainConstraints`: the container's end tied to the
      last item's end when that item has its end pin and end anchor. */
  method CloseChain(ctx: Ctx, prev: Option<BoxItem>, constraints: seq<Constraint>) returns (out: seq<Constraint>)
    ensures Closes(ctx, ChainState([], prev, false)) ==> out == constraints + [EndConstraint(ctx, prev.value)]
    ensures !Closes(ctx, ChainState([], prev, false)) ==> out == constraints
  {
    out := constraints;
    if prev.Some? {
      var rtl := IsRTLDependent(ctx.sca);
      var itemEndPin := EndPin(prev.value.layout, ctx.axis);
      var prevEndAnchor := LegacyItem.EndAnchor(prev.value, ctx.axis, rtl);
      if itemEndPin.Some? && prevEndAnchor.Some? {
        var lastPin := AddValue(itemEndPin.value, Directions.EndForAxis(ctx.axis, ctx.margins));
        out := out + [AnchorPin(Anchor(ContainerObj(ctx), EndAttr(ctx.axis, rtl)), lastPin.relation, lastPin.constant, prevEndAnchor.value)];
      }
    }
  }

  lemma ChainLoopUnfold(ctx: Ctx, items: seq<BoxItem>, i: nat)
    requires i < |items|
    ensures !ChainLoop(ctx, items[..i]).aborted ==>
      ChainLoop(ctx, items[..i + 1]) == Step(ctx, ChainLoop(ctx, items[..i]), items[i])
    ensures ChainLoop(ctx, items[..i]).aborted ==> ChainLoop(ctx, items[..i + 1]) == ChainLoop(ctx, items[..i])
  {
    assert items[..i + 1][..i] == items[..i];
  }

  /** Once the walk has stopped on a prefix, the later items change
      nothing, and no end constraint is added. */
  lemma {:induction false} AbortStable(ctx: Ctx, items: seq<BoxItem>, j: nat)
    requires j <= |items|
    requires ChainLoop(ctx, items[..j]).aborted
    ensures ChainLoop(ctx, items) == ChainLoop(ctx, items[..j])
    ensures Chain(ctx, items) == ChainLoop(ctx, items[..j]).cs
    decreases |items| - j
  {
    if j == |items| {
      assert items[..j] == items;
    } else {
      var init := items[..|items| - 1];
      assert init[..j] == items[..j];
      AbortStable(ctx, init, j);
    }
  }

  /** The constraints of a prefix stay, in order, at the head of those of
      any longer prefix. */
  lemma {:induction false} ChainLoopPrefix(ctx: Ctx, items: seq<BoxItem>, j: nat)
    requires j <= |items|
    ensures ChainLoop(ctx, items[..j]).cs <= ChainLoop(ctx, items).cs
    ensures ChainLoop(ctx, items[..j]).aborted ==> ChainLoop(ctx, items).aborted
    decreases |items| - j
  {
    if j == |items| {
      assert items[..j] == items;
    } else {
      var init := items[..|items| - 1];
      assert init[..j] == items[..j];
      ChainLoopPrefix(ctx, init, j);
    }
  }

  /** Whether items k-1 and k meet on the main axis, the link is offered,
      and their relations conflict. */
  predicate ConflictAt(ctx: Ctx, items: seq<BoxItem>, k: int)
    requires 1 <= k < |items|
  {
    BeginPin(items[k].layout, ctx.axis).Some? && LinkGate(ctx, items[k - 1])
    && JoinRelations(BeginPin(items[k].layout, ctx.axis).value.relation, EndPin(items[k - 1].layout, ctx.axis).value.relation).None?
  }

  /** A conflict among all the items is one among all but the last, or one
      between the last two. */
  lemma ConflictSplit(ctx: Ctx, items: seq<BoxItem>, init: seq<BoxItem>)
    requires |items| > 1 && init == items[..|items| - 1]
    ensures (exists k :: 1 <= k < |items| && ConflictAt(ctx, items, k))
      <==> (exists k :: 1 <= k < |init| && ConflictAt(ctx, init, k)) || ConflictAt(ctx, items, |items| - 1)
  {
    if exists k :: 1 <= k < |items| && ConflictAt(ctx, items, k) {
      var k :| 1 <= k < |items| && ConflictAt(ctx, items, k);
      if k < |init| {
        assert init[k] == items[k] && init[k - 1] == items[k - 1];
        assert ConflictAt(ctx, init, k);
      }
    }
    if exists k :: 1 <= k < |init| && ConflictAt(ctx, init, k) {
      var k :| 1 <= k < |init| && ConflictAt(ctx, init, k);
      assert init[k] == items[k] && init[k - 1] == items[k - 1];
      assert ConflictAt(ctx, items, k);
    }
  }

  /** The walk stops exactly when some adjacent pair conflicts, and while it
      runs its previous item is the last one seen. */
  lemma {:induction false} AbortIffConflict(ctx: Ctx, items: seq<BoxItem>)
    ensures ChainLoop(ctx, items).aborted <==> exists k :: 1 <= k < |items| && ConflictAt(ctx, items, k)
    ensures !ChainLoop(ctx, items).aborted && |items| > 0 ==> ChainLoop(ctx, items).prev == Some(items[|items| - 1])
    ensures |items| == 0 ==> ChainLoop(ctx, items).prev.None?
    decreases |items|
  {
    if |items| > 0 {
      var n := |items|;
      var init := items[..n - 1];
      AbortIffConflict(ctx, init);
      if n > 1 {
        ConflictSplit(ctx, items, init);
      }
      var st := ChainLoop(ctx, init);
      if !st.aborted {
        if n > 1 {
          assert init[n - 2] == items[n - 2];
          assert st.prev == Some(items[n - 2]);
          assert BeginPart(ctx, st.prev, items[n - 1]).None? <==> ConflictAt(ctx, items, n - 1);
        } else {
          assert st.prev.None?;
        }
      }
    }
  }

  /** The first item, when it has a begin pin, is tied to the container's
      begin by the very first constraint. */
  lemma FirstItemFirst(ctx: Ctx, items: seq<BoxItem>)
    requires |items| > 0 && BeginPin(items[0].layout, ctx.axis).Some?
    ensures |Chain(ctx, items)| > 0
    ensures Chain(ctx, items)[0] == FirstConstraint(ctx, items[0])
  {
    assert items[..1] == [items[0]];
    assert [items[0]][..0] == [];
    assert ChainLoop(ctx, items[..1][..0]) == ChainState([], None, false);
    assert BeginPart(ctx, None, items[0]) == Some([FirstConstraint(ctx, items[0])]);
    var s1 := ChainLoop(ctx, items[..1]);
    assert s1.cs[0] == FirstConstraint(ctx, items[0]);
    ChainLoopPrefix(ctx, items, 1);
  }

  /** When the walk runs to the end, every adjacent pair whose link is
      offered gets its link constraint, with `begin + prevEnd + spacing`. */
  lemma LinkEmitted(ctx: Ctx, items: seq<BoxItem>, k: nat)
    requires 1 <= k < |items|
    requires !ChainLoop(ctx, items).aborted
    requires BeginPin(items[k].layout, ctx.axis).Some? && LinkGate(ctx, items[k - 1])
    ensures LinkPin(ctx, items[k - 1], items[k]).Some?
    ensures LinkConstraint(ctx, items[k - 1], items[k], LinkPin(ctx, items[k - 1], items[k]).value) in Chain(ctx, items)
  {
    var pre := items[..k + 1];
    assert pre[..k] == items[..k];
    ChainLoopPrefix(ctx, items, k + 1);
    ChainLoopPrefix(ctx, items, k);
    AbortIffConflict(ctx, items[..k]);
    assert items[..k][k - 1] == items[k - 1];
    var st := ChainLoop(ctx, items[..k]);
    assert st.prev == Some(items[k - 1]);
    var l := LinkConstraint(ctx, items[k - 1], items[k], LinkPin(ctx, items[k - 1], items[k]).value);
    assert l in ChainLoop(ctx, pre).cs;
  }

  /** A walk that runs to the end closes with the container's end tied to
      the last item's end exactly when that item offers both its end pin
      and its end anchor. */
  lemma EndClosesChain(ctx: Ctx, items: seq<BoxItem>)
    requires |items| > 0 && !ChainLoop(ctx, items).aborted
    ensures LinkGate(ctx, items[|items| - 1]) ==>
      Chain(ctx, items) == ChainLoop(ctx, items).cs + [EndConstraint(ctx, items[|items| - 1])]
    ensures !LinkGate(ctx, items[|items| - 1]) ==> Chain(ctx, items) == ChainLoop(ctx, items).cs
  {
    AbortIffConflict(ctx, items);
  }

  /** Because the trailing anchor is gated on the left pin, a
      direction-dependent horizontal chain whose last item has a right pin
      but no left pin is not closed, and one whose previous item has a
      right pin but no left pin is not linked to its successor. */
  lemma TrailingGateDropsEnd(ctx: Ctx, items: seq<BoxItem>)
    requires |items| > 0 && !ChainLoop(ctx, items).aborted
    requires ctx.axis == X && ctx.sca == Unspecified
    requires items[|items| - 1].layout.right.Some? && items[|items| - 1].layout.left.None?
    ensures Chain(ctx, items) == ChainLoop(ctx, items).cs
  {
    EndClosesChain(ctx, items);
  }

  /** With left-to-right forced, the same last item is closed. */
  lemma RightPinClosesWhenForced(ctx: Ctx, items: seq<BoxItem>)
    requires |items| > 0 && !ChainLoop(ctx, items).aborted
    requires ctx.axis == X && ctx.sca != Unspecified
    requires items[|items| - 1].layout.right.Some?
    ensures Chain(ctx, items) == ChainLoop(ctx, items).cs + [EndConstraint(ctx, items[|items| - 1])]
  {
    EndClosesChain(ctx, items);
  }

  /** The main-axis dimension: height on y, width on x. */
  function Dim(a: Axis): (d: Attribute)
    ensures d == Height <==> a == Y
    ensures d in {Width, Height}
  {
    if a == Y then Height else Width
  }

  /** The first item with a positive flex, once found. */
  datatype FlexFirst = FlexFirst(obj: Obj, flex: real)

  datatype FlexState = FlexState(cs: seq<Constraint>, first: Option<FlexFirst>)

  /** Whether an item takes part in the flex distribution. */
  predicate HasFlex(item: BoxItem)
  {
    item.layout.flex.Some? && item.layout.flex.value > 0.0
  }

  /** The loop of `createFlexDimentions` over a prefix of the items. */
  function FlexLoop(axis: Axis, items: seq<BoxItem>): (r: FlexState)
    ensures r.first.Some? ==> r.first.value.flex > 0.0
    decreases |items|
  {
    if |items| == 0 then FlexState([], None)
    else
      var st := FlexLoop(axis, items[..|items| - 1]);
      var item := items[|items| - 1];
      if !HasFlex(item) then st
      else if st.first.Some? then
        var f := st.first.value;
        st.(cs := st.cs + [DimensionRatio(Anchor(item.obj, Dim(axis)), Equal, item.layout.flex.value / f.flex, 0.0, Anchor(f.obj, Dim(axis)))])
      else FlexState(st.cs, Some(FlexFirst(item.obj, item.layout.flex.value)))
  }

  /** The number of flexible items. */
  function FlexCount(items: seq<BoxItem>): (n: nat)
    ensures n <= |items|
    decreases |items|
  {
    if |items| == 0 then 0
    else FlexCount(items[..|items| - 1]) + (if HasFlex(items[|items| - 1]) then 1 else 0)
  }

  /** With k flexible items the flex loop yields k-1 constraints. */
  lemma {:induction false} FlexCountLemma(axis: Axis, items: seq<BoxItem>)
    ensures FlexLoop(axis, items).first.None? <==> FlexCount(items) == 0
    ensures |FlexLoop(axis, items).cs| == if FlexCount(items) == 0 then 0 else FlexCount(items) - 1
    decreases |items|
  {
    if |items| > 0 {
      FlexCountLemma(axis, items[..|items| - 1]);
    }
  }

  /** Constraint `c` ties some flexible item, with its weight over the first
      weight as the multiplier. */
  predicate FlexTied(c: Constraint, items: seq<BoxItem>, firstFlex: real)
  {
    firstFlex > 0.0 &&
    exists i :: 0 <= i < |items| && HasFlex(items[i]) && c.first.obj == items[i].obj
      && c.multiplier == items[i].layout.flex.value / firstFlex
  }

  /** Each flex constraint equates a later flexible item's main-axis
      dimension with the first one's, times the ratio of their weights. */
  lemma {:induction false} FlexRatios(axis: Axis, items: seq<BoxItem>)
    ensures forall c :: c in FlexLoop(axis, items).cs ==>
      && FlexLoop(axis, items).first.Some?
      && c.second == Some(Anchor(FlexLoop(axis, items).first.value.obj, Dim(axis)))
      && c.first.attr == Dim(axis) && c.relation == Equal && c.constant == 0.0 && c.multiplier > 0.0
      && FlexTied(c, items, FlexLoop(axis, items).first.value.flex)
    decreases |items|
  {
    if |items| > 0 {
      var init := items[..|items| - 1];
      FlexRatios(axis, init);
      var st := FlexLoop(axis, init);
      var item := items[|items| - 1];
      forall c | c in FlexLoop(axis, items).cs
        ensures FlexTied(c, items, FlexLoop(axis, items).first.value.flex)
      {
        FlexTiedLast(axis, items, init, c);
      }
    }
  }

  /** A flex constraint of all the items either was one of the constraints
      before the last item, and ties the same item, or is the one the last
      item added. */
  lemma FlexTiedLast(axis: Axis, items: seq<BoxItem>, init: seq<BoxItem>, c: Constraint)
    requires |items| > 0 && init == items[..|items| - 1] && c in FlexLoop(axis, items).cs
    requires forall d :: d in FlexLoop(axis, init).cs ==>
      FlexLoop(axis, init).first.Some? && FlexTied(d, init, FlexLoop(axis, init).first.value.flex)
    ensures FlexLoop(axis, items).first.Some? && FlexTied(c, items, FlexLoop(axis, items).first.value.flex)
  {
    var st := FlexLoop(axis, init);
    var item := items[|items| - 1];
    if c in st.cs {
      var i :| 0 <= i < |init| && HasFlex(init[i]) && c.first.obj == init[i].obj
        && c.multiplier == init[i].layout.flex.value / st.first.value.flex;
      assert items[i] == init[i];
      assert FlexLoop(axis, items).first == st.first;
    } else {
      assert HasFlex(item) && st.first.Some?;
    }
  }

  /** `createFlexDimentions(boxItems:axis:constraints:)` */
  method CreateFlexDimensions(items: seq<BoxItem>, axis: Axis, constraints: seq<Constraint>) returns (out: seq<Constraint>)
    ensures out == constraints + FlexLoop(axis, items).cs
  {
    out := constraints;
    var firstFlexAnchor: Option<Anchor> := None;
    var firstFlex: real := 0.0;
    for i := 0 to |items|
      invariant out == constraints + FlexLoop(axis, items[..i]).cs
      invariant firstFlexAnchor.None? <==> FlexLoop(axis, items[..i]).first.None?
      invariant firstFlexAnchor.Some? ==>
        firstFlexAnchor.value == Anchor(FlexLoop(axis, items[..i]).first.value.obj, Dim(axis))
        && firstFlex == FlexLoop(axis, items[..i]).first.value.flex
    {
      var item := items[i];
      assert items[..i + 1][..i] == items[..i];
      if item.layout.flex.Some? && item.layout.flex.value > 0.0 {
        var flex := item.layout.flex.value;
        var itemAnchor := Anchor(item.obj, if axis == Y then Height else Width);
        if firstFlexAnchor.Some? {
          out := out + [DimensionRatio(itemAnchor, Equal, flex / firstFlex, 0.0, firstFlexAnchor.value)];
        } else {
          firstFlexAnchor := Some(itemAnchor);
          firstFlex := flex;
        }
      }
    }
    assert items[..|items| ] == items;
  }

  /** A dimension of an item tied to the container's same dimension by a
      multiplier pin. */
  function RelativeConstraint(ctx: Ctx, item: BoxItem, dim: Attribute, m: MultiPin): (c: Constraint)
    ensures c.first == Anchor(item.obj, dim) && c.second == Some(Anchor(ContainerObj(ctx), dim))
    ensures c.multiplier == m.multiplier && c.constant == m.pin.constant && c.relation == m.pin.relation
  {
    DimensionRatio(Anchor(item.obj, dim), m.pin.relation, m.multiplier, m.pin.constant, Anchor(ContainerObj(ctx), dim))
  }

  /** The relative-size constraints of one item: height, then width. */
  function RelativeOf(ctx: Ctx, item: BoxItem): (r: seq<Constraint>)
  {
    (if item.layout.relativeHeight.Some? then [RelativeConstraint(ctx, item, Height, item.layout.relativeHeight.value)] else [])
    + (if item.layout.relativeWidth.Some? then [RelativeConstraint(ctx, item, Width, item.layout.relativeWidth.value)] else [])
  }

  /** What `createRelativeDimensions` appends for a prefix of the items. */
  function Relative(ctx: Ctx, items: seq<BoxItem>): (r: seq<Constraint>)
    decreases |items|
  {
    if |items| == 0 then []
    else Relative(ctx, items[..|items| - 1]) + RelativeOf(ctx, items[|items| - 1])
  }

  /** The number of relative sizes the items carry. */
  function RelativeCount(items: seq<BoxItem>): (n: nat)
    decreases |items|
  {
    if |items| == 0 then 0
    else
      var l := items[|items| - 1].layout;
      RelativeCount(items[..|items| - 1]) + (if l.relativeHeight.Some? then 1 else 0) + (if l.relativeWidth.Some? then 1 else 0)
  }

  /** One constraint per relative size, each tying an item's dimension to
      the container's. */
  lemma {:induction false} RelativeOnePerPin(ctx: Ctx, items: seq<BoxItem>)
    ensures |Relative(ctx, items)| == RelativeCount(items)
    ensures forall c :: c in Relative(ctx, items) ==>
      c.second == Some(Anchor(ContainerObj(ctx), c.first.attr)) && c.first.attr in {Width, Height}
      && exists item :: item in items && c.first.obj == item.obj
    decreases |items|
  {
    if |items| > 0 {
      var init := items[..|items| - 1];
      RelativeOnePerPin(ctx, init);
      forall c | c in Relative(ctx, items)
        ensures exists item :: item in items && c.first.obj == item.obj
      {
        if c in Relative(ctx, init) {
          var it :| it in init && c.first.obj == it.obj;
          assert it in items;
        } else {
          assert items[|items| - 1] in items;
        }
      }
    }
  }

  /** `createRelativeDimensions(boxItems:constraints:)` */
  method CreateRelativeDimensions(ctx: Ctx, items: seq<BoxItem>, constraints: seq<Constraint>) returns (out: seq<Constraint>)
    ensures out == constraints + Relative(ctx, items)
  {
    out := constraints;
    for i := 0 to |items|
      invariant out == constraints + Relative(ctx, items[..i])
    {
      var item := items[i];
      assert items[..i + 1][..i] == items[..i];
      ghost var before := out;
      if item.layout.relativeHeight.Some? {
        out := out + [RelativeConstraint(ctx, item, Height, item.layout.relativeHeight.value)];
      }
      if item.layout.relativeWidth.Some? {
        out := out + [RelativeConstraint(ctx, item, Width, item.layout.relativeWidth.value)];
      }
      assert out == before + RelativeOf(ctx, item);
    }
    assert items[..|items|] == items;
  }

  /** The fixed-size constraints of one item: height, then width. */
  function FixedOf(item: BoxItem): (r: seq<Constraint>)
  {
    (if item.layout.height.Some? then [DimensionPin(Anchor(item.obj, Height), item.layout.height.value.relation, item.layout.height.value.constant)] else [])
    + (if item.layout.width.Some? then [DimensionPin(Anchor(item.obj, Width), item.layout.width.value.relation, item.layout.width.value.constant)] else [])
  }

  /** What `createDimentions` appends for a prefix of the items. */
  function Fixed(items: seq<BoxItem>): (r: seq<Constraint>)
    decreases |items|
  {
    if |items| == 0 then [] else Fixed(items[..|items| - 1]) + FixedOf(items[|items| - 1])
  }

  /** The number of fixed sizes the items carry. */
  function FixedCount(items: seq<BoxItem>): (n: nat)
    decreases |items|
  {
    if |items| == 0 then 0
    else
      var l := items[|items| - 1].layout;
      FixedCount(items[..|items| - 1]) + (if l.height.Some? then 1 else 0) + (if l.width.Some? then 1 else 0)
  }

  /** One constraint per fixed size, on an item's own dimension. */
  lemma {:induction false} FixedOnePerPin(items: seq<BoxItem>)
    ensures |Fixed(items)| == FixedCount(items)
    ensures forall c :: c in Fixed(items) ==>
      c.second.None? && c.first.attr in {Width, Height} && exists item :: item in items && c.first.obj == item.obj
    decreases |items|
  {
    if |items| > 0 {
      var init := items[..|items| - 1];
      FixedOnePerPin(init);
      forall c | c in Fixed(items)
        ensures exists item :: item in items && c.first.obj == item.obj
      {
        if c in Fixed(init) {
          var it :| it in init && c.first.obj == it.obj;
          assert it in items;
        } else {
          assert items[|items| - 1] in items;
        }
      }
    }
  }

  /** `createDimentions(boxItems:constraints:)` */
  method CreateDimensions(items: seq<BoxItem>, constraints: seq<Constraint>) returns (out: seq<Constraint>)
    ensures out == constraints + Fixed(items)
  {
    out := constraints;
    for i := 0 to |items|
      invariant out == constraints + Fixed(items[..i])
    {
      var item := items[i];
      assert items[..i + 1][..i] == items[..i];
      ghost var before := out;
      if item.layout.height.Some? {
        out := out + [DimensionPin(Anchor(item.obj, Height), item.layout.height.value.relation, item.layout.height.value.constant)];
      }
      if item.layout.width.Some? {
        out := out + [DimensionPin(Anchor(item.obj, Width), item.layout.width.value.relation, item.layout.width.value.constant)];
      }
      assert out == before + FixedOf(item);
    }
    assert items[..|items|] == items;
  }
}
