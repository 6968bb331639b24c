/** The constraint engine of the current revision: the main-axis chain with
    its early abort on a relation conflict, the cross-axis pins, and the flex,
    relative and fixed size constraints. Every builder is a method that
    appends to a constraint list, proved against a function that walks the
    item list by prefixes. */
module Engine {
  import opened Types
  import opened Pin
  import opened PinOperators
  import opened Enums
  import opened Anchors
  import opened Directions
  import opened Layout
  import ConstraintsApi

  /** What the chain builder reads from its container: the container itself,
      its semantic content attribute, the layout direction the system
      resolves for it, the axis and the spacing. */
  datatype Ctx = Ctx(container: Obj, sca: SemanticContentAttribute, dir: LayoutDirection, axis: Axis, spacing: real)

  /** `insets ?? .zero` */
  function ResolveInsets(i: Option<Insets>): (r: Insets)
    ensures i.None? ==> r == ZeroInsets
    ensures i.Some? ==> r == i.value
  {
    if i.Some? then i.value else ZeroInsets
  }

  /** `withInset` at one of the two factors the engine uses. */
  function Inset(p: Pin, inset: real, factor: real): (r: Pin)
    requires factor == 1.0 || factor == -1.0
  {
    InsetFactorDomain(p);
    WithInset(p, inset, factor)
  }

  /** `BoxItem.beginAnchor(axis:sca:)`: present exactly when the item has a
      begin pin on that axis. */
  function ItemBeginAnchor(item: BoxItem, axis: Axis, sca: SemanticContentAttribute): (r: Option<Anchor>)
    ensures r.Some? <==> BeginPin(item.layout, axis).Some?
    ensures r.Some? ==> r.value == Anchor(item.obj, AnchorForEdge(EdgeForPosition(axis, Begin), sca))
  {
    if BeginPin(item.layout, axis).Some? then Some(Anchor(item.obj, BeginAttr(axis, sca))) else None
  }

  /** `BoxItem.endAnchor(axis:sca:)`: present exactly when the item has an
      end pin on that axis. */
  function ItemEndAnchor(item: BoxItem, axis: Axis, sca: SemanticContentAttribute): (r: Option<Anchor>)
    ensures r.Some? <==> EndPin(item.layout, axis).Some?
    ensures r.Some? ==> r.value == Anchor(item.obj, AnchorForEdge(EdgeForPosition(axis, End), sca))
  {
    if EndPin(item.layout, axis).Some? then Some(Anchor(item.obj, EndAttr(axis, sca))) else None
  }

  /** The first item's begin constraint: to the container's begin, with the
      begin inset. */
  function FirstConstraint(ctx: Ctx, insets: Insets, item: BoxItem): (c: Constraint)
    requires BeginPin(item.layout, ctx.axis).Some?
  {
    var p := Inset(BeginPin(item.layout, ctx.axis).value, BeginForAxis(ctx.axis, insets), LayoutFactor(ctx.axis, ctx.sca));
    AnchorPin(ItemBeginAnchor(item, ctx.axis, ctx.sca).value, p.relation, p.constant, Anchor(ctx.container, BeginAttr(ctx.axis, ctx.sca)))
  }

  /** The link pin between an item and its predecessor: the sum of the
      item's begin pin and the predecessor's end pin, inset by the spacing;
      none when the two relations conflict. */
  function LinkPin(ctx: Ctx, prev: BoxItem, item: BoxItem): (r: Option<Pin>)
    ensures r.Some? <==> Add(BeginPin(item.layout, ctx.axis), EndPin(prev.layout, ctx.axis)).Some?
    ensures r.Some? ==>
      var s := Add(BeginPin(item.layout, ctx.axis), EndPin(prev.layout, ctx.axis)).value;
      r.value.constant == (s.constant + ctx.spacing) * LayoutFactor(ctx.axis, ctx.sca) && r.value.priority == s.priority
  {
    match Add(BeginPin(item.layout, ctx.axis), EndPin(prev.layout, ctx.axis))
    case None => None
    case Some(s) => Some(Inset(s, ctx.spacing, LayoutFactor(ctx.axis, ctx.sca)))
  }

  /** The link constraint: the item's begin to the predecessor's end. */
  function LinkConstraint(ctx: Ctx, prev: BoxItem, item: BoxItem, p: Pin): (c: Constraint)
  {
    AnchorPin(Anchor(item.obj, BeginAttr(ctx.axis, ctx.sca)), p.relation, p.constant, Anchor(prev.obj, EndAttr(ctx.axis, ctx.sca)))
  }

  /** The main-axis centre constraint: the item's centre to the container's,
      offset by the centre inset under the language direction factor. */
  function CenterConstraint(ctx: Ctx, insets: Insets, item: BoxItem): (c: Constraint)
    requires CenterPin(item.layout, ctx.axis).Some?
  {
    var p := Inset(CenterPin(item.layout, ctx.axis).value, CenterOffsetForAxis(ctx.axis, insets), LanguageFactor(ctx.axis, ctx.dir));
    ConstraintsApi.EdgeConstraint(item.obj, EdgeForPosition(ctx.axis, Center), None, ctx.container, p, ctx.sca)
  }

  /** The closing constraint: the container's end to the last item's end,
      with the end inset. */
  function EndConstraint(ctx: Ctx, insets: Insets, last: BoxItem): (c: Constraint)
    requires EndPin(last.layout, ctx.axis).Some?
  {
    var p := Inset(EndPin(last.layout, ctx.axis).value, EndForAxis(ctx.axis, insets), LayoutFactor(ctx.axis, ctx.sca));
    AnchorPin(Anchor(ctx.container, EndAttr(ctx.axis, ctx.sca)), p.relation, p.constant, ItemEndAnchor(last, ctx.axis, ctx.sca).value)
  }

  /** `pinSameEdge(_:to:pin:sca:)`: the same routed edge on both objects,
      with the pin's priority copied when it is not required. */
  function PinSameEdge(obj: Obj, edge: BoxEdge, to: Obj, p: Pin, sca: SemanticContentAttribute): (c: Constraint)
    ensures c.first == Anchor(obj, AnchorForEdge(edge, sca)) && c.second == Some(Anchor(to, AnchorForEdge(edge, sca)))
    ensures c.relation == p.relation && c.constant == p.constant && c.multiplier == 1.0
    ensures c.priority == p.priority
  {
    var c := AnchorPin(Anchor(obj, AnchorForEdge(edge, sca)), p.relation, p.constant, Anchor(to, AnchorForEdge(edge, sca)));
    if p.priority != Required then c.(priority := p.priority) else c
  }

  /** The factor `pinAccross` applies at a position of the cross axis: the
      language factor at the centre, the layout factor at the begin, and the
      negated layout factor at the end. */
  function AcrossFactor(ctx: Ctx, pos: Position): (f: real)
    ensures f == 1.0 || f == -1.0
    ensures pos == Center ==> f == LanguageFactor(Other(ctx.axis), ctx.dir)
    ensures pos == Begin ==> f == LayoutFactor(Other(ctx.axis), ctx.sca)
    ensures pos == End ==> f == -LayoutFactor(Other(ctx.axis), ctx.sca)
  {
    var factor := if pos == Center then LanguageFactor(Other(ctx.axis), ctx.dir) else LayoutFactor(Other(ctx.axis), ctx.sca);
    if pos == End then -factor else factor
  }

  /** Constraint `c` pins the item's cross-axis edge at `pos` to the same
      edge of the container: the pin's constant plus the inset at that
      position, scaled by the factor of that position (so the relation is
      flipped where the factor is -1), at the priority of the pin. */
  predicate PinnedAcross(ctx: Ctx, insets: Insets, item: BoxItem, pos: Position, c: Constraint)
  {
    var other := Other(ctx.axis);
    var edge := AnchorForEdge(EdgeForPosition(other, pos), ctx.sca);
    PinForAxis(item.layout, other, pos).Some? &&
    var p := PinForAxis(item.layout, other, pos).value;
    c.first == Anchor(item.obj, edge) && c.second == Some(Anchor(ctx.container, edge))
    && c.constant == (p.constant + InsetForAxis(other, pos, insets)) * AcrossFactor(ctx, pos)
    && c.relation == (if AcrossFactor(ctx, pos) == 1.0 then p.relation else Flip(p.relation))
    && c.multiplier == 1.0 && c.priority == p.priority
  }

  /** The cross-axis constraint for one position, when the item has a pin
      there. */
  function AcrossAt(ctx: Ctx, insets: Insets, item: BoxItem, pos: Position): (r: seq<Constraint>)
    ensures |r| <= 1
    ensures |r| == 1 <==> PinForAxis(item.layout, Other(ctx.axis), pos).Some?
    ensures |r| == 1 ==> PinnedAcross(ctx, insets, item, pos, r[0])
  {
    var other := Other(ctx.axis);
    match PinForAxis(item.layout, other, pos)
    case None => []
    case Some(p) =>
      var insetPin := Inset(p, InsetForAxis(other, pos, insets), AcrossFactor(ctx, pos));
      [PinSameEdge(item.obj, EdgeForPosition(other, pos), ctx.container, insetPin, ctx.sca)]
  }

  /** The cross-axis constraints for a list of positions, in order. */
  function AcrossFor(ctx: Ctx, insets: Insets, item: BoxItem, ps: seq<Position>): (r: seq<Constraint>)
    decreases |ps|
  {
    if |ps| == 0 then []
    else AcrossFor(ctx, insets, item, ps[..|ps| - 1]) + AcrossAt(ctx, insets, item, ps[|ps| - 1])
  }

  const Positions: seq<Position> := [Begin, Center, End]

  /** What `pinAccross` appends for one item. */
  function Across(ctx: Ctx, insets: Insets, item: BoxItem): (r: seq<Constraint>)
  {
    AcrossFor(ctx, insets, item, Positions)
  }

  /** The number of pins an item has on an axis. */
  function PinCount(l: BoxLayout, a: Axis): (n: nat)
    ensures n <= 3
  {
    (if BeginPin(l, a).Some? then 1 else 0) + (if CenterPin(l, a).Some? then 1 else 0) + (if EndPin(l, a).Some? then 1 else 0)
  }

  /** `pinAccross` adds exactly one constraint per cross-axis pin the item
      has, in begin, centre, end order, each pinning that edge to the
      container's. */
  lemma AcrossOnePerPin(ctx: Ctx, insets: Insets, item: BoxItem)
    ensures Across(ctx, insets, item) == AcrossAt(ctx, insets, item, Begin) + AcrossAt(ctx, insets, item, Center) + AcrossAt(ctx, insets, item, End)
    ensures |Across(ctx, insets, item)| == PinCount(item.layout, Other(ctx.axis))
    ensures forall c :: c in Across(ctx, insets, item) ==> exists pos :: PinnedAcross(ctx, insets, item, pos, c)
  {
    var a0 := AcrossAt(ctx, insets, item, Begin);
    var a1 := AcrossAt(ctx, insets, item, Center);
    var a2 := AcrossAt(ctx, insets, item, End);
    var p1 := [Begin];
    var p2 := [Begin, Center];
    assert p1[..0] == [];
    assert AcrossFor(ctx, insets, item, p1) == a0;
    assert p2[..1] == p1;
    assert AcrossFor(ctx, insets, item, p2) == a0 + a1;
    assert Positions[..2] == p2;
    assert Across(ctx, insets, item) == a0 + a1 + a2;
    forall c | c in Across(ctx, insets, item)
      ensures exists pos :: PinnedAcross(ctx, insets, item, pos, c)
    {
      if c in a0 {
        assert PinnedAcross(ctx, insets, item, Begin, c);
      } else if c in a1 {
        assert PinnedAcross(ctx, insets, item, Center, c);
      } else {
        assert PinnedAcross(ctx, insets, item, End, c);
      }
    }
  }

  /** Where the layout factor of the cross axis is 1, the end pin is
      mirrored: its relation is flipped and its constant, end inset
      included, negated; the begin pin is kept as it is. */
  lemma AcrossEndFlips(ctx: Ctx, insets: Insets, item: BoxItem)
    requires LayoutFactor(Other(ctx.axis), ctx.sca) == 1.0
    ensures PinForAxis(item.layout, Other(ctx.axis), End).Some? ==>
      var p := PinForAxis(item.layout, Other(ctx.axis), End).value;
      var c := AcrossAt(ctx, insets, item, End)[0];
      c.relation == Flip(p.relation) && c.constant == -(p.constant + EndForAxis(Other(ctx.axis), insets))
    ensures PinForAxis(item.layout, Other(ctx.axis), Begin).Some? ==>
      var p := PinForAxis(item.layout, Other(ctx.axis), Begin).value;
      var c := AcrossAt(ctx, insets, item, Begin)[0];
      c.relation == p.relation && c.constant == p.constant + BeginForAxis(Other(ctx.axis), insets)
  {
  }

  /** `pinAccross(boxItem:axis:insets:constraints:)` */
  method PinAccross(ctx: Ctx, insets: Insets, item: BoxItem, constraints: seq<Constraint>) returns (out: seq<Constraint>)
    ensures out == constraints + Across(ctx, insets, item)
  {
    out := constraints;
    var other := Other(ctx.axis);
    for i := 0 to |Positions|
      invariant out == constraints + AcrossFor(ctx, insets, item, Positions[..i])
    {
      var pos := Positions[i];
      assert Positions[..i + 1][..i] == Positions[..i];
      var pin := PinForAxis(item.layout, other, pos);
      if pin.Some? {
        var edge := EdgeForPosition(other, pos);
        var insetPin := Inset(pin.value, InsetForAxis(other, pos, insets), AcrossFactor(ctx, pos));
        out := out + [PinSameEdge(item.obj, edge, ctx.container, insetPin, ctx.sca)];
      }
    }
    assert Positions[..|Positions|] == Positions;
  }

  /** The state of the chain walk after a prefix of the items: the
      constraints so far, the previous item, whether the walk stopped on a
      conflict, and the centre constraints already activated on the way. */
  datatype ChainState = ChainState(cs: seq<Constraint>, prev: Option<BoxItem>, aborted: bool, activated: seq<Constraint>)

  /** The begin part of one item's step: what it appends, or none when the
      link's relations conflict. */
  function BeginPart(ctx: Ctx, insets: Insets, prev: Option<BoxItem>, item: BoxItem): (r: Option<seq<Constraint>>)
    ensures r.None? <==>
      prev.Some? && BeginPin(item.layout, ctx.axis).Some? && EndPin(prev.value.layout, ctx.axis).Some?
      && LinkPin(ctx, prev.value, item).None?
    ensures r.Some? ==> |r.value| <= 1
  {
    if BeginPin(item.layout, ctx.axis).None? then Some([])
    else if prev.None? then Some([FirstConstraint(ctx, insets, item)])
    else if EndPin(prev.value.layout, ctx.axis).None? then Some([])
    else
      match LinkPin(ctx, prev.value, item)
      case None => None
      case Some(p) => Some([LinkConstraint(ctx, prev.value, item, p)])
  }

  /** The main-axis centre constraint of an item, if it has a centre pin. */
  function CenterPart(ctx: Ctx, insets: Insets, item: BoxItem): (r: seq<Constraint>)
  {
    if CenterPin(item.layout, ctx.axis).Some? then [CenterConstraint(ctx, insets, item)] else []
  }

  /** One iteration of the loop of `createChainConstraints`. */
  function Step(ctx: Ctx, insets: Insets, st: ChainState, item: BoxItem): (r: ChainState)
    requires !st.aborted
  {
    match BeginPart(ctx, insets, st.prev, item)
    case None => st.(aborted := true)
    case Some(b) =>
      var centre := CenterPart(ctx, insets, item);
      ChainState(st.cs + b + centre + Across(ctx, insets, item), Some(item), false, st.activated + centre)
  }

  /** The loop of `createChainConstraints` over a prefix of the items. */
  function ChainLoop(ctx: Ctx, insets: Insets, items: seq<BoxItem>): (r: ChainState)
    decreases |items|
  {
    if |items| == 0 then ChainState([], None, false, [])
    else
      var st := ChainLoop(ctx, insets, items[..|items| - 1]);
      if st.aborted then st else Step(ctx, insets, st, items[|items| - 1])
  }

  /** Everything `createChainConstraints` appends: the loop's constraints,
      then the closing constraint unless the walk stopped. */
  function Chain(ctx: Ctx, insets: Insets, items: seq<BoxItem>): (r: seq<Constraint>)
  {
    var st := ChainLoop(ctx, insets, items);
    if !st.aborted && st.prev.Some? && EndPin(st.prev.value.layout, ctx.axis).Some?
    then st.cs + [EndConstraint(ctx, insets, st.prev.value)]
    else st.cs
  }

  /** The body of the loop of `createChainConstraints` for one item: the
      begin constraint (first or link), the activated centre constraint and
      the cross-axis pins; `stop` reports the relation conflict, on which
      nothing is appended. */
  method ChainItem(act: ActiveConstraints, ctx: Ctx, insets: Insets, prev: Option<BoxItem>, item: BoxItem,
                   constraints: seq<Constraint>, ghost st: ChainState, ghost base: seq<Constraint>, ghost baseActive: set<Constraint>)
    returns (out: seq<Constraint>, stop: bool)
    requires !st.aborted && st.prev == prev && constraints == base + st.cs
    requires act.active == baseActive + Elems(st.activated)
    modifies act
    ensures stop <==> Step(ctx, insets, st, item).aborted
    ensures stop ==> out == constraints && act.active == baseActive + Elems(st.activated)
    ensures !stop ==> out == base + Step(ctx, insets, st, item).cs
    ensures !stop ==> act.active == baseActive + Elems(Step(ctx, insets, st, item).activated)
    ensures !stop ==> Step(ctx, insets, st, item).prev == Some(item)
  {
    out := constraints;
    out, stop := ChainBegin(ctx, insets, prev, item, out);
    if stop {
      return;
    }
    ghost var b := BeginPart(ctx, insets, prev, item).value;
    out := ChainCenter(act, ctx, insets, item, out);
    out := PinAccross(ctx, insets, item, out);
    ElemsAppend(st.activated, CenterPart(ctx, insets, item));
    ghost var centre := CenterPart(ctx, insets, item);
    ghost var across := Across(ctx, insets, item);
    assert Step(ctx, insets, st, item).cs == st.cs + b + centre + across;
    assert out == base + st.cs + b + centre + across;
    AppendFour(base, st.cs, b, centre, across);
  }

  /** The begin constraint of one item: the first one to the container, or
      the link to the previous item; `stop` on a relation conflict. */
  method ChainBegin(ctx: Ctx, insets: Insets, prev: Option<BoxItem>, item: BoxItem, constraints: seq<Constraint>)
    returns (out: seq<Constraint>, stop: bool)
    ensures stop <==> BeginPart(ctx, insets, prev, item).None?
    ensures stop ==> out == constraints
    ensures !stop ==> out == constraints + BeginPart(ctx, insets, prev, item).value
  {
    out := constraints;
    stop := false;
    var sca := ctx.sca;
    var factor := LayoutFactor(ctx.axis, sca);
    var itemBeginPin := BeginPin(item.layout, ctx.axis);
    var itemBeginAnchor := ItemBeginAnchor(item, ctx.axis, sca);
    if itemBeginPin.Some? && itemBeginAnchor.Some? {
      if prev.Some? {
        var prevEndAnchor := ItemEndAnchor(prev.value, ctx.axis, sca);
        var prevEndPin := PinForAxis(prev.value.layout, ctx.axis, End);
        if prevEndAnchor.Some? && prevEndPin.Some? {
          var sum := Add(itemBeginPin, prevEndPin);
          if sum.None? {
            // the relation conflict
            stop := true;
            return;
          }
          var sumPin := Inset(sum.value, ctx.spacing, factor);
          out := out + [AnchorPin(itemBeginAnchor.value, sumPin.relation, sumPin.constant, prevEndAnchor.value)];
        }
      } else {
        var firstPin := Inset(itemBeginPin.value, BeginForAxis(ctx.axis, insets), factor);
        out := out + [AnchorPin(itemBeginAnchor.value, firstPin.relation, firstPin.constant, Anchor(ctx.container, BeginAttr(ctx.axis, sca)))];
      }
    }
  }

  /** The main-axis centre constraint of one item, activated at once. */
  method ChainCenter(act: ActiveConstraints, ctx: Ctx, insets: Insets, item: BoxItem, constraints: seq<Constraint>)
    returns (out: seq<Constraint>)
    modifies act
    ensures out == constraints + CenterPart(ctx, insets, item)
    ensures act.active == old(act.active) + Elems(CenterPart(ctx, insets, item))
  {
    out := constraints;
    var itemCenterPin := CenterPin(item.layout, ctx.axis);
    if itemCenterPin.Some? {
      var centerFactor := LanguageFactor(ctx.axis, ctx.dir);
      var insetPin := Inset(itemCenterPin.value, InsetForAxis(ctx.axis, Center, insets), centerFactor);
      var edge := EdgeForPosition(ctx.axis, Center);
      var constr := ConstraintsApi.PinEdge(act, item.obj, edge, None, ctx.container, insetPin, ctx.sca, true);
      out := out + [constr];
      assert Elems([constr]) == {constr};
    } else {
      assert Elems<Constraint>([]) == {};
    }
  }

  /** `createChainConstraints(boxItems:axis:spacing:insets:constraints:)`.
      The centre constraints are activated as they are made. */
  method CreateChainConstraints(act: ActiveConstraints, ctx: Ctx, items: seq<BoxItem>, insetsIn: Option<Insets>,
                                constraints: seq<Constraint>)
    returns (out: seq<Constraint>)
    modifies act
    ensures out == constraints + Chain(ctx, ResolveInsets(insetsIn), items)
    ensures act.active == old(act.active) + Elems(ChainLoop(ctx, ResolveInsets(insetsIn), items).activated)
  {
    var insets := ResolveInsets(insetsIn);
    out := constraints;
    if |items| == 0 {
      assert Elems<Constraint>([]) == {};
      return;
    }
    var prev, stopped;
    out, prev, stopped := WalkItems(act, ctx, insets, items, out);
    if stopped {
      // the relation conflict: what is appended so far stays
      return;
    }
    out := CloseChain(ctx, insets, prev, out);
  }

  /** The loop of `createChainConstraints`: one step per item, leaving the
      loop on the first relation conflict. */
  method WalkItems(act: ActiveConstraints, ctx: Ctx, insets: Insets, items: seq<BoxItem>, constraints: seq<Constraint>)
    returns (out: seq<Constraint>, prev: Option<BoxItem>, stopped: bool)
    modifies act
    ensures stopped == ChainLoop(ctx, insets, items).aborted
    ensures out == constraints + ChainLoop(ctx, insets, items).cs
    ensures prev == ChainLoop(ctx, insets, items).prev
    ensures act.active == old(act.active) + Elems(ChainLoop(ctx, insets, items).activated)
  {
    out := constraints;
    prev := None;
    stopped := false;
    var i := 0;
    ghost var st := ChainLoop(ctx, insets, items[..0]);
    while i < |items|
      invariant 0 <= i <= |items|
      invariant st == ChainLoop(ctx, insets, items[..i])
      invariant !st.aborted && out == constraints + st.cs && prev == st.prev
      invariant act.active == old(act.active) + Elems(st.activated)
    {
      ChainLoopUnfold(ctx, insets, items, i);
      var stop;
      out, stop := ChainItem(act, ctx, insets, prev, items[i], out, st, constraints, old(act.active));
      if stop {
        AbortStable(ctx, insets, items, i + 1);
        stopped := true;
        return;
      }
      st := Step(ctx, insets, st, items[i]);
      prev := Some(items[i]);
      i := i + 1;
    }
    assert items[..|items|] == items;
  }

  /** The tail of `createChainConstraints`: the container's end tied to the
      last item's end, when that item has an end pin. */
  method CloseChain(ctx: Ctx, insets: Insets, prev: Option<BoxItem>, constraints: seq<Constraint>) returns (out: seq<Constraint>)
    ensures prev.Some? && EndPin(prev.value.layout, ctx.axis).Some? ==> out == constraints + [EndConstraint(ctx, insets, prev.value)]
    ensures !(prev.Some? && EndPin(prev.value.layout, ctx.axis).Some?) ==> out == constraints
  {
    out := constraints;
    if prev.Some? {
      var itemEndPin := EndPin(prev.value.layout, ctx.axis);
      var prevEndAnchor := ItemEndAnchor(prev.value, ctx.axis, ctx.sca);
      if itemEndPin.Some? && prevEndAnchor.Some? {
        var lastPin := Inset(itemEndPin.value, EndForAxis(ctx.axis, insets), LayoutFactor(ctx.axis, ctx.sca));
        out := out + [AnchorPin(Anchor(ctx.container, EndAttr(ctx.axis, ctx.sca)), lastPin.relation, lastPin.constant, prevEndAnchor.value)];
      }
    }
  }

  lemma ChainLoopUnfold(ctx: Ctx, insets: Insets, items: seq<BoxItem>, i: nat)
    requires i < |items|
    ensures !ChainLoop(ctx, insets, items[..i]).aborted ==>
      ChainLoop(ctx, insets, items[..i + 1]) == Step(ctx, insets, ChainLoop(ctx, insets, items[..i]), items[i])
    ensures ChainLoop(ctx, insets, items[..i]).aborted ==>
      ChainLoop(ctx, insets, items[..i + 1]) == ChainLoop(ctx, insets, items[..i])
  {
    assert items[..i + 1][..i] == items[..i];
  }

  /** Once the walk has stopped on a prefix, the later items change
      nothing: the state of the whole walk is the state at the stop. */
  lemma {:induction false} AbortStable(ctx: Ctx, insets: Insets, items: seq<BoxItem>, j: nat)
    requires j <= |items|
    requires ChainLoop(ctx, insets, items[..j]).aborted
    ensures ChainLoop(ctx, insets, items) == ChainLoop(ctx, insets, items[..j])
    ensures Chain(ctx, insets, items) == ChainLoop(ctx, insets, items[..j]).cs
    decreases |items| - j
  {
    if j == |items| {
      assert items[..j] == items;
    } else {
      var init := items[..|items| - 1];
      assert init[..j] == items[..j];
      AbortStable(ctx, insets, init, j);
    }
  }

  /** The constraints appended for a prefix stay in place, in order, at the
      head of the constraints for any longer prefix. */
  lemma {:induction false} ChainLoopPrefix(ctx: Ctx, insets: Insets, items: seq<BoxItem>, j: nat)
    requires j <= |items|
    ensures ChainLoop(ctx, insets, items[..j]).cs <= ChainLoop(ctx, insets, items).cs
    ensures ChainLoop(ctx, insets, items[..j]).aborted ==> ChainLoop(ctx, insets, items).aborted
    decreases |items| - j
  {
    if j == |items| {
      assert items[..j] == items;
    } else {
      var init := items[..|items| - 1];
      assert init[..j] == items[..j];
      ChainLoopPrefix(ctx, insets, init, j);
    }
  }

  /** Whether items k-1 and k meet on the main axis with conflicting
      relations. */
  predicate ConflictAt(ctx: Ctx, items: seq<BoxItem>, k: int)
    requires 1 <= k < |items|
  {
    BeginPin(items[k].layout, ctx.axis).Some? && EndPin(items[k - 1].layout, ctx.axis).Some?
    && JoinRelations(BeginPin(items[k].layout, ctx.axis).value.relation, EndPin(items[k - 1].layout, ctx.axis).value.relation).None?
  }

  /** A conflict among all the items is one among all but the last, or one
      between the last two. */
  lemma ConflictSplit(ctx: Ctx, items: seq<BoxItem>, init: seq<BoxItem>)
    requires |items| > 1 && init == items[..|items| - 1]
    ensures (exists k :: 1 <= k < |items| && ConflictAt(ctx, items, k))
      <==> (exists k :: 1 <= k < |init| && ConflictAt(ctx, init, k)) || ConflictAt(ctx, items, |items| - 1)
  {
    if exists k :: 1 <= k < |items| && ConflictAt(ctx, items, k) {
      var k :| 1 <= k < |items| && ConflictAt(ctx, items, k);
      if k < |init| {
        assert init[k] == items[k] && init[k - 1] == items[k - 1];
        assert ConflictAt(ctx, init, k);
      }
    }
    if exists k :: 1 <= k < |init| && ConflictAt(ctx, init, k) {
      var k :| 1 <= k < |init| && ConflictAt(ctx, init, k);
      assert init[k] == items[k] && init[k - 1] == items[k - 1];
      assert ConflictAt(ctx, items, k);
    }
  }

  /** The walk stops exactly when some adjacent pair conflicts, and while it
      runs its previous item is the last one seen. */
  lemma {:induction false} AbortIffConflict(ctx: Ctx, insets: Insets, items: seq<BoxItem>)
    ensures ChainLoop(ctx, insets, items).aborted <==> exists k :: 1 <= k < |items| && ConflictAt(ctx, items, k)
    ensures !ChainLoop(ctx, insets, items).aborted && |items| > 0 ==> ChainLoop(ctx, insets, items).prev == Some(items[|items| - 1])
    ensures |items| == 0 ==> ChainLoop(ctx, insets, items).prev.None?
    decreases |items|
  {
    if |items| > 0 {
      var n := |items|;
      var init := items[..n - 1];
      AbortIffConflict(ctx, insets, init);
      if n > 1 {
        ConflictSplit(ctx, items, init);
      }
      var st := ChainLoop(ctx, insets, init);
      if !st.aborted {
        StepOutcome(ctx, insets, st, items[n - 1]);
        if n > 1 {
          assert init[n - 2] == items[n - 2];
          assert st.prev == Some(items[n - 2]);
          assert BeginPart(ctx, insets, st.prev, items[n - 1]).None? <==> ConflictAt(ctx, items, n - 1);
        }
      }
    }
  }

  /** One step of the walk stops exactly when the begin constraint cannot be
      built, and otherwise remembers its item as the previous one. */
  lemma StepOutcome(ctx: Ctx, insets: Insets, st: ChainState, item: BoxItem)
    requires !st.aborted
    ensures Step(ctx, insets, st, item).aborted <==> BeginPart(ctx, insets, st.prev, item).None?
    ensures !Step(ctx, insets, st, item).aborted ==> Step(ctx, insets, st, item).prev == Some(item)
  {
  }

  /** An empty item list yields no constraints and activates nothing. */
  lemma EmptyChain(ctx: Ctx, insets: Insets)
    ensures Chain(ctx, insets, []) == []
    ensures ChainLoop(ctx, insets, []).activated == []
  {
  }

  /** The first item, when it has a begin pin, is tied to the container's
      begin by the very first constraint, whatever follows. */
  lemma FirstItemFirst(ctx: Ctx, insets: Insets, items: seq<BoxItem>)
    requires |items| > 0 && BeginPin(items[0].layout, ctx.axis).Some?
    ensures |Chain(ctx, insets, items)| > 0
    ensures Chain(ctx, insets, items)[0] == FirstConstraint(ctx, insets, items[0])
    ensures Chain(ctx, insets, items)[0].second == Some(Anchor(ctx.container, BeginAttr(ctx.axis, ctx.sca)))
  {
    assert items[..1] == [items[0]];
    assert [items[0]][..0] == [];
    assert ChainLoop(ctx, insets, items[..1][..0]) == ChainState([], None, false, []);
    assert BeginPart(ctx, insets, None, items[0]) == Some([FirstConstraint(ctx, insets, items[0])]);
    var s1 := ChainLoop(ctx, insets, items[..1]);
    assert s1.cs[0] == FirstConstraint(ctx, insets, items[0]);
    ChainLoopPrefix(ctx, insets, items, 1);
  }

  /** When the walk runs to the end, every adjacent pair whose begin and
      end pins are both present gets its link constraint. */
  lemma LinkEmitted(ctx: Ctx, insets: Insets, items: seq<BoxItem>, k: nat)
    requires 1 <= k < |items|
    requires !ChainLoop(ctx, insets, items).aborted
    requires BeginPin(items[k].layout, ctx.axis).Some? && EndPin(items[k - 1].layout, ctx.axis).Some?
    ensures LinkPin(ctx, items[k - 1], items[k]).Some?
    ensures LinkConstraint(ctx, items[k - 1], items[k], LinkPin(ctx, items[k - 1], items[k]).value) in Chain(ctx, insets, items)
  {
    var pre := items[..k + 1];
    assert pre[..k] == items[..k];
    ChainLoopPrefix(ctx, insets, items, k + 1);
    ChainLoopPrefix(ctx, insets, items, k);
    AbortIffConflict(ctx, insets, items[..k]);
    assert items[..k][k - 1] == items[k - 1];
    var st := ChainLoop(ctx, insets, items[..k]);
    assert st.prev == Some(items[k - 1]);
    var l := LinkConstraint(ctx, items[k - 1], items[k], LinkPin(ctx, items[k - 1], items[k]).value);
    assert l in ChainLoop(ctx, insets, pre).cs;
  }

  /** The walk that runs to the end closes with the container's end tied to
      the last item's end exactly when that item has an end pin. */
  lemma EndClosesChain(ctx: Ctx, insets: Insets, items: seq<BoxItem>)
    requires |items| > 0 && !ChainLoop(ctx, insets, items).aborted
    ensures EndPin(items[|items| - 1].layout, ctx.axis).Some? ==>
      Chain(ctx, insets, items) == ChainLoop(ctx, insets, items).cs + [EndConstraint(ctx, insets, items[|items| - 1])]
    ensures EndPin(items[|items| - 1].layout, ctx.axis).None? ==>
      Chain(ctx, insets, items) == ChainLoop(ctx, insets, items).cs
  {
    AbortIffConflict(ctx, insets, items);
  }

  /** Every centre constraint activated during the walk is also in the list
      the walk builds. */
  lemma {:induction false} ActivatedInLoop(ctx: Ctx, insets: Insets, items: seq<BoxItem>)
    ensures Elems(ChainLoop(ctx, insets, items).activated) <= Elems(ChainLoop(ctx, insets, items).cs)
    decreases |items|
  {
    if |items| > 0 {
      var init := items[..|items| - 1];
      ActivatedInLoop(ctx, insets, init);
      var pre := ChainLoop(ctx, insets, init);
      if !pre.aborted {
        var item := items[|items| - 1];
        match BeginPart(ctx, insets, pre.prev, item)
        case None =>
        case Some(b) =>
          var centre := CenterPart(ctx, insets, item);
          ElemsAppend(pre.activated, centre);
          ElemsAppend(pre.cs + b + centre, Across(ctx, insets, item));
          ElemsAppend(pre.cs + b, centre);
          ElemsAppend(pre.cs, b);
      }
    }
  }

  /** So activating the whole list afterwards covers them. */
  lemma ActivatedAreChained(ctx: Ctx, insets: Insets, items: seq<BoxItem>)
    ensures Elems(ChainLoop(ctx, insets, items).activated) <= Elems(Chain(ctx, insets, items))
  {
    ActivatedInLoop(ctx, insets, items);
    var st := ChainLoop(ctx, insets, items);
    if !st.aborted && st.prev.Some? && EndPin(st.prev.value.layout, ctx.axis).Some? {
      ElemsAppend(st.cs, [EndConstraint(ctx, insets, st.prev.value)]);
    }
  }

  /** The main-axis dimension: height on y, width on x. */
  function Dim(a: Axis): (d: Attribute)
    ensures d == Height <==> a == Y
    ensures d in {Width, Height}
  {
    if a == Y then Height else Width
  }

  /** The first item with a positive flex, once found. */
  datatype FlexFirst = FlexFirst(obj: Obj, flex: real)

  datatype FlexState = FlexState(cs: seq<Constraint>, first: Option<FlexFirst>)

  /** Whether an item takes part in the flex distribution. */
  predicate HasFlex(item: BoxItem)
  {
    item.layout.flex.Some? && item.layout.flex.value > 0.0
  }

  /** The loop of `createFlexDimentions` over a prefix of the items: the first
      flexible item is remembered, each later one is tied to it. */
  function FlexLoop(axis: Axis, items: seq<BoxItem>): (r: FlexState)
    ensures r.first.Some? ==> r.first.value.flex > 0.0
    decreases |items|
  {
    if |items| == 0 then FlexState([], None)
    else
      var st := FlexLoop(axis, items[..|items| - 1]);
      var item := items[|items| - 1];
      if !HasFlex(item) then st
      else if st.first.Some? then
        var f := st.first.value;
        st.(cs := st.cs + [DimensionRatio(Anchor(item.obj, Dim(axis)), Equal, item.layout.flex.value / f.flex, 0.0, Anchor(f.obj, Dim(axis)))])
      else FlexState(st.cs, Some(FlexFirst(item.obj, item.layout.flex.value)))
  }

  /** The number of flexible items. */
  function FlexCount(items: seq<BoxItem>): (n: nat)
    ensures n <= |items|
    decreases |items|
  {
    if |items| == 0 then 0
    else FlexCount(items[..|items| - 1]) + (if HasFlex(items[|items| - 1]) then 1 else 0)
  }

  /** With k flexible items the flex loop yields k-1 constraints, and a
      first flexible item is remembered exactly when k > 0. */
  lemma {:induction false} FlexCountLemma(axis: Axis, items: seq<BoxItem>)
    ensures FlexLoop(axis, items).first.None? <==> FlexCount(items) == 0
    ensures |FlexLoop(axis, items).cs| == if FlexCount(items) == 0 then 0 else FlexCount(items) - 1
    decreases |items|
  {
    if |items| > 0 {
      FlexCountLemma(axis, items[..|items| - 1]);
    }
  }

  /** Each flex constraint equates a later flexible item's main-axis
      dimension with the first flexible item's, times the ratio of their
      flex weights. */
  lemma {:induction false} FlexRatios(axis: Axis, items: seq<BoxItem>)
    ensures forall c :: c in FlexLoop(axis, items).cs ==>
      && FlexLoop(axis, items).first.Some?
      && c.second == Some(Anchor(FlexLoop(axis, items).first.value.obj, Dim(axis)))
      && c.first.attr == Dim(axis) && c.relation == Equal && c.constant == 0.0 && c.multiplier > 0.0
      && FlexTied(c, items, FlexLoop(axis, items).first.value.flex)
    decreases |items|
  {
    if |items| > 0 {
      var init := items[..|items| - 1];
      FlexRatios(axis, init);
      var st := FlexLoop(axis, init);
      var item := items[|items| - 1];
      forall c | c in FlexLoop(axis, items).cs
        ensures FlexTied(c, items, FlexLoop(axis, items).first.value.flex)
      {
        FlexTiedLast(axis, items, init, c);
      }
    }
  }

  /** A flex constraint of all the items either was one of the constraints
      before the last item, and ties the same item, or is the one the last
      item added. */
  lemma FlexTiedLast(axis: Axis, items: seq<BoxItem>, init: seq<BoxItem>, c: Constraint)
    requires |items| > 0 && init == items[..|items| - 1] && c in FlexLoop(axis, items).cs
    requires forall d :: d in FlexLoop(axis, init).cs ==>
      FlexLoop(axis, init).first.Some? && FlexTied(d, init, FlexLoop(axis, init).first.value.flex)
    ensures FlexLoop(axis, items).first.Some? && FlexTied(c, items, FlexLoop(axis, items).first.value.flex)
  {
    var st := FlexLoop(axis, init);
    var item := items[|items| - 1];
    if c in st.cs {
      var i :| 0 <= i < |init| && HasFlex(init[i]) && c.first.obj == init[i].obj
        && c.multiplier == init[i].layout.flex.value / st.first.value.flex;
      assert items[i] == init[i];
      assert FlexLoop(axis, items).first == st.first;
    } else {
      assert HasFlex(item) && st.first.Some?;
    }
  }

  /** Constraint `c` ties some flexible item, with its weight over the first
      weight as the multiplier. */
  predicate FlexTied(c: Constraint, items: seq<BoxItem>, firstFlex: real)
  {
    firstFlex > 0.0 &&
    exists i :: 0 <= i < |items| && HasFlex(items[i]) && c.first.obj == items[i].obj
      && c.multiplier == items[i].layout.flex.value / firstFlex
  }

  /** `createFlexDimentions(boxItems:axis:constraints:)` */
  method CreateFlexDimensions(items: seq<BoxItem>, axis: Axis, constraints: seq<Constraint>) returns (out: seq<Constraint>)
    ensures out == constraints + FlexLoop(axis, items).cs
  {
    out := constraints;
    var firstFlexAnchor: Option<Anchor> := None;
    var firstFlex: real := 0.0;
    for i := 0 to |items|
      invariant out == constraints + FlexLoop(axis, items[..i]).cs
      invariant firstFlexAnchor.None? <==> FlexLoop(axis, items[..i]).first.None?
      invariant firstFlexAnchor.Some? ==>
        firstFlexAnchor.value == Anchor(FlexLoop(axis, items[..i]).first.value.obj, Dim(axis))
        && firstFlex == FlexLoop(axis, items[..i]).first.value.flex
    {
      var item := items[i];
      assert items[..i + 1][..i] == items[..i];
      if item.layout.flex.Some? && item.layout.flex.value > 0.0 {
        var flex := item.layout.flex.value;
        var itemAnchor := Anchor(item.obj, if axis == Y then Height else Width);
        if firstFlexAnchor.Some? {
          out := out + [DimensionRatio(itemAnchor, Equal, flex / firstFlex, 0.0, firstFlexAnchor.value)];
        } else {
          firstFlexAnchor := Some(itemAnchor);
          firstFlex := flex;
        }
      }
    }
    assert items[..|items|] == items;
  }

  /** The relative-size constraints of one item: height, then width, each
      tied to the container's same dimension. */
  function RelativeOf(container: Obj, item: BoxItem): (r: seq<Constraint>)
  {
    (if item.layout.relativeHeight.Some? then [ConstraintsApi.DimensionTo(item.obj, Height, container, item.layout.relativeHeight.value)] else [])
    + (if item.layout.relativeWidth.Some? then [ConstraintsApi.DimensionTo(item.obj, Width, container, item.layout.relativeWidth.value)] else [])
  }

  /** What `createRelativeDimensions` appends for a prefix of the items. */
  function Relative(container: Obj, items: seq<BoxItem>): (r: seq<Constraint>)
    decreases |items|
  {
    if |items| == 0 then []
    else Relative(container, items[..|items| - 1]) + RelativeOf(container, items[|items| - 1])
  }

  /** The number of relative sizes the items carry. */
  function RelativeCount(items: seq<BoxItem>): (n: nat)
    decreases |items|
  {
    if |items| == 0 then 0
    else
      var l := items[|items| - 1].layout;
      RelativeCount(items[..|items| - 1]) + (if l.relativeHeight.Some? then 1 else 0) + (if l.relativeWidth.Some? then 1 else 0)
  }

  /** One constraint per relative size, each tying an item's dimension to
      the container's with the relative pin's multiplier. */
  lemma {:induction false} RelativeOnePerPin(container: Obj, items: seq<BoxItem>)
    ensures |Relative(container, items)| == RelativeCount(items)
    ensures forall c :: c in Relative(container, items) ==>
      c.second.Some? && c.second.value == Anchor(container, c.first.attr) && c.first.attr in {Width, Height}
      && exists item :: item in items && c.first.obj == item.obj
    decreases |items|
  {
    if |items| > 0 {
      var init := items[..|items| - 1];
      RelativeOnePerPin(container, init);
      forall c | c in Relative(container, items)
        ensures exists item :: item in items && c.first.obj == item.obj
      {
        if c in Relative(container, init) {
          var it :| it in init && c.first.obj == it.obj;
          assert it in items;
        } else {
          assert items[|items| - 1] in items;
        }
      }
    }
  }

  /** `createRelativeDimensions(boxItems:constraints:)` */
  method CreateRelativeDimensions(container: Obj, items: seq<BoxItem>, constraints: seq<Constraint>) returns (out: seq<Constraint>)
    ensures out == constraints + Relative(container, items)
  {
    out := constraints;
    for i := 0 to |items|
      invariant out == constraints + Relative(container, items[..i])
    {
      var item := items[i];
      assert items[..i + 1][..i] == items[..i];
      ghost var before := out;
      if item.layout.relativeHeight.Some? {
        out := out + [ConstraintsApi.DimensionTo(item.obj, Height, container, item.layout.relativeHeight.value)];
      }
      if item.layout.relativeWidth.Some? {
        out := out + [ConstraintsApi.DimensionTo(item.obj, Width, container, item.layout.relativeWidth.value)];
      }
      assert out == before + RelativeOf(container, item);
    }
    assert items[..|items|] == items;
  }

  /** The fixed-size constraints of one item: height, then width. */
  function FixedOf(item: BoxItem): (r: seq<Constraint>)
  {
    (if item.layout.height.Some? then [ConstraintsApi.DimensionConstant(item.obj, Height, item.layout.height.value)] else [])
    + (if item.layout.width.Some? then [ConstraintsApi.DimensionConstant(item.obj, Width, item.layout.width.value)] else [])
  }

  /** What `createDimensions` appends for a prefix of the items. */
  function Fixed(items: seq<BoxItem>): (r: seq<Constraint>)
    decreases |items|
  {
    if |items| == 0 then [] else Fixed(items[..|items| - 1]) + FixedOf(items[|items| - 1])
  }

  /** The number of fixed sizes the items carry. */
  function FixedCount(items: seq<BoxItem>): (n: nat)
    decreases |items|
  {
    if |items| == 0 then 0
    else
      var l := items[|items| - 1].layout;
      FixedCount(items[..|items| - 1]) + (if l.height.Some? then 1 else 0) + (if l.width.Some? then 1 else 0)
  }

  /** One constraint per fixed size, each on an item's own dimension with no
      second item. */
  lemma {:induction false} FixedOnePerPin(items: seq<BoxItem>)
    ensures |Fixed(items)| == FixedCount(items)
    ensures forall c :: c in Fixed(items) ==>
      c.second.None? && c.first.attr in {Width, Height} && exists item :: item in items && c.first.obj == item.obj
    decreases |items|
  {
    if |items| > 0 {
      var init := items[..|items| - 1];
      FixedOnePerPin(init);
      forall c | c in Fixed(items)
        ensures exists item :: item in items && c.first.obj == item.obj
      {
        if c in Fixed(init) {
          var it :| it in init && c.first.obj == it.obj;
          assert it in items;
        } else {
          assert items[|items| - 1] in items;
        }
      }
    }
  }

  /** `createDimensions(constraints:)` on an item array. */
  method CreateDimensions(items: seq<BoxItem>, constraints: seq<Constraint>) returns (out: seq<Constraint>)
    ensures out == constraints + Fixed(items)
  {
    out := constraints;
    for i := 0 to |items|
      invariant out == constraints + Fixed(items[..i])
    {
      var item := items[i];
      assert items[..i + 1][..i] == items[..i];
      ghost var before := out;
      if item.layout.height.Some? {
        out := out + [ConstraintsApi.DimensionConstant(item.obj, Height, item.layout.height.value)];
      }
      if item.layout.width.Some? {
        out := out + [ConstraintsApi.DimensionConstant(item.obj, Width, item.layout.width.value)];
      }
      assert out == before + FixedOf(item);
    }
    assert items[..|items|] == items;
  }
}
