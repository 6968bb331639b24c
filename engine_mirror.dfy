/** Right-to-left layout as the mirror image of left-to-right layout in the
    current engine: with the semantic content attribute forced right-to-left
    (and so a right-to-left layout direction), every constraint the chain
    builder makes is the one it makes under a forced left-to-right attribute,
    with left and right swapped, the constant negated and the relation
    flipped on horizontal attributes. */
module EngineMirror {
  import opened Types
  import opened Pin
  import opened Enums
  import opened Anchors
  import opened Directions
  import opened Layout
  import opened Engine
  import ConstraintsApi

  /** The attributes that lie on the horizontal axis and are not direction
      neutral. */
  predicate Horizontal(a: Attribute)
  {
    a == Attribute.Left || a == Attribute.Right || a == Attribute.CenterX
  }

  function SwapSides(a: Attribute): (r: Attribute)
    ensures Horizontal(r) <==> Horizontal(a)
  {
    match a
    case Left => Attribute.Right
    case Right => Attribute.Left
    case _ => a
  }

  function MirrorAnchor(an: Anchor): (r: Anchor)
  {
    an.(attr := SwapSides(an.attr))
  }

  /** The mirror image of one constraint: horizontal constraints swap sides,
      negate their constant and flip their relation; the others stay. */
  function Mirror(c: Constraint): (r: Constraint)
    ensures !Horizontal(c.first.attr) ==> r == c
    ensures Horizontal(c.first.attr) ==> r.constant == -c.constant && RawValue(r.relation) == -RawValue(c.relation)
    ensures r.priority == c.priority && r.multiplier == c.multiplier
  {
    if !Horizontal(c.first.attr) then c
    else
      var second := if c.second.Some? then Some(MirrorAnchor(c.second.value)) else None;
      Constraint(MirrorAnchor(c.first), Flip(c.relation), second, c.multiplier, -c.constant, c.priority)
  }

  function MirrorAll(cs: seq<Constraint>): (r: seq<Constraint>)
    ensures |r| == |cs|
    ensures forall i :: 0 <= i < |cs| ==> r[i] == Mirror(cs[i])
  {
    seq(|cs|, i requires 0 <= i < |cs| => Mirror(cs[i]))
  }

  lemma MirrorAllAppend(a: seq<Constraint>, b: seq<Constraint>)
    ensures MirrorAll(a + b) == MirrorAll(a) + MirrorAll(b)
  {
  }

  /** Mirroring twice gives the constraint back. */
  lemma MirrorInvolution(c: Constraint)
    ensures Mirror(Mirror(c)) == c
  {
    if Horizontal(c.first.attr) {
      assert Flip(Flip(c.relation)) == c.relation;
      assert SwapSides(SwapSides(c.first.attr)) == c.first.attr;
      if c.second.Some? {
        assert SwapSides(SwapSides(c.second.value.attr)) == c.second.value.attr;
      }
    }
  }

  /** The context with the direction turned right-to-left. */
  function ToRightToLeft(ctx: Ctx): (r: Ctx)
    ensures r.sca == ForceRightToLeft && r.dir == RightToLeft
    ensures r.container == ctx.container && r.axis == ctx.axis && r.spacing == ctx.spacing
  {
    ctx.(sca := ForceRightToLeft, dir := RightToLeft)
  }

  predicate LeftToRightCtx(ctx: Ctx)
  {
    ctx.sca == ForceLeftToRight && ctx.dir == LeftToRight
  }

  /** An inset pin under factor -1 is the mirror of the same pin under 1. */
  lemma InsetMirror(p: Pin, i: real)
    ensures Inset(p, i, -1.0) == Pin(-Inset(p, i, 1.0).constant, Flip(Inset(p, i, 1.0).relation), Inset(p, i, 1.0).priority)
  {
    var a := Inset(p, i, -1.0);
    var b := Inset(p, i, 1.0);
    assert a.constant == -b.constant;
    assert a.relation == Flip(b.relation);
  }

  /** A horizontal anchor pin mirrors to the anchor pin between the swapped
      anchors with the mirrored pin. */
  lemma AnchorPinMirror(first: Anchor, p: Pin, second: Anchor, q: Pin)
    requires Horizontal(first.attr)
    requires q == Pin(-p.constant, Flip(p.relation), p.priority)
    ensures AnchorPin(MirrorAnchor(first), q.relation, q.constant, MirrorAnchor(second)) == Mirror(AnchorPin(first, p.relation, p.constant, second))
  {
  }

  lemma BeginPartMirror(ctx: Ctx, insets: Insets, prev: Option<BoxItem>, item: BoxItem)
    requires LeftToRightCtx(ctx)
    ensures BeginPart(ToRightToLeft(ctx), insets, prev, item).None? == BeginPart(ctx, insets, prev, item).None?
    ensures BeginPart(ctx, insets, prev, item).Some? ==>
      BeginPart(ToRightToLeft(ctx), insets, prev, item).value == MirrorAll(BeginPart(ctx, insets, prev, item).value)
  {
    var rctx := ToRightToLeft(ctx);
    if ctx.axis == Y {
      assert BeginPart(rctx, insets, prev, item) == BeginPart(ctx, insets, prev, item);
    } else if BeginPin(item.layout, X).Some? {
      if prev.None? {
        InsetMirror(BeginPin(item.layout, X).value, insets.left);
        var p := Inset(BeginPin(item.layout, X).value, insets.left, 1.0);
        AnchorPinMirror(Anchor(item.obj, Attribute.Left), p, Anchor(ctx.container, Attribute.Left),
                        Inset(BeginPin(item.layout, X).value, insets.left, -1.0));
      } else if EndPin(prev.value.layout, X).Some? {
        var s := PinOperators.Add(BeginPin(item.layout, X), EndPin(prev.value.layout, X));
        if s.Some? {
          InsetMirror(s.value, ctx.spacing);
          var p := Inset(s.value, ctx.spacing, 1.0);
          AnchorPinMirror(Anchor(item.obj, Attribute.Left), p, Anchor(prev.value.obj, Attribute.Right),
                          Inset(s.value, ctx.spacing, -1.0));
        }
      }
    }
  }

  lemma CenterPartMirror(ctx: Ctx, insets: Insets, item: BoxItem)
    requires LeftToRightCtx(ctx)
    ensures CenterPart(ToRightToLeft(ctx), insets, item) == MirrorAll(CenterPart(ctx, insets, item))
  {
    var rctx := ToRightToLeft(ctx);
    if ctx.axis == X && CenterPin(item.layout, X).Some? {
      var off := CenterOffsetForAxis(X, insets);
      InsetMirror(CenterPin(item.layout, X).value, off);
      var p := Inset(CenterPin(item.layout, X).value, off, 1.0);
      AnchorPinMirror(Anchor(item.obj, Attribute.CenterX), p, Anchor(ctx.container, Attribute.CenterX),
                      Inset(CenterPin(item.layout, X).value, off, -1.0));
    }
  }

  lemma AcrossAtMirror(ctx: Ctx, insets: Insets, item: BoxItem, pos: Position)
    requires LeftToRightCtx(ctx)
    ensures AcrossAt(ToRightToLeft(ctx), insets, item, pos) == MirrorAll(AcrossAt(ctx, insets, item, pos))
  {
    if ctx.axis == Y && PinForAxis(item.layout, X, pos).Some? {
      match pos {
        case Begin => AcrossSideMirror(ctx, insets, item, Begin, Attribute.Left);
        case Center => AcrossSideMirror(ctx, insets, item, Center, Attribute.CenterX);
        case End => AcrossEndMirror(ctx, insets, item);
      }
    }
  }

  /** The cross-axis begin and centre pins: inset with factor 1 left to
      right, -1 right to left. */
  lemma AcrossSideMirror(ctx: Ctx, insets: Insets, item: BoxItem, pos: Position, attr: Attribute)
    requires LeftToRightCtx(ctx) && ctx.axis == Y && PinForAxis(item.layout, X, pos).Some?
    requires (pos == Begin && attr == Attribute.Left) || (pos == Center && attr == Attribute.CenterX)
    ensures AcrossAt(ToRightToLeft(ctx), insets, item, pos) == MirrorAll(AcrossAt(ctx, insets, item, pos))
  {
    var pin := PinForAxis(item.layout, X, pos).value;
    var inset := InsetForAxis(X, pos, insets);
    InsetMirror(pin, inset);
    var p := Inset(pin, inset, 1.0);
    AnchorPinMirror(Anchor(item.obj, attr), p, Anchor(ctx.container, attr), Inset(pin, inset, -1.0));
  }

  /** The cross-axis end pin: left to right it is inset with factor -1,
      right to left with factor 1. */
  lemma AcrossEndMirror(ctx: Ctx, insets: Insets, item: BoxItem)
    requires LeftToRightCtx(ctx) && ctx.axis == Y && PinForAxis(item.layout, X, End).Some?
    ensures AcrossAt(ToRightToLeft(ctx), insets, item, End) == MirrorAll(AcrossAt(ctx, insets, item, End))
  {
    var pin := PinForAxis(item.layout, X, End).value;
    var inset := InsetForAxis(X, End, insets);
    InsetMirror(pin, inset);
    var p := Inset(pin, inset, -1.0);
    var q := Inset(pin, inset, 1.0);
    assert Flip(Flip(q.relation)) == q.relation;
    assert q == Pin(-p.constant, Flip(p.relation), p.priority);
    AnchorPinMirror(Anchor(item.obj, Attribute.Right), p, Anchor(ctx.container, Attribute.Right), q);
  }

  lemma AcrossMirror(ctx: Ctx, insets: Insets, item: BoxItem)
    requires LeftToRightCtx(ctx)
    ensures Across(ToRightToLeft(ctx), insets, item) == MirrorAll(Across(ctx, insets, item))
  {
    var rctx := ToRightToLeft(ctx);
    AcrossAtMirror(ctx, insets, item, Begin);
    AcrossAtMirror(ctx, insets, item, Center);
    AcrossAtMirror(ctx, insets, item, End);
    var p1 := [Begin];
    var p2 := [Begin, Center];
    assert p1[..0] == [];
    assert p2[..1] == p1;
    assert Positions[..2] == p2;
    var a0 := AcrossAt(ctx, insets, item, Begin);
    var a1 := AcrossAt(ctx, insets, item, Center);
    var a2 := AcrossAt(ctx, insets, item, End);
    assert Across(ctx, insets, item) == a0 + a1 + a2;
    assert Across(rctx, insets, item) == MirrorAll(a0) + MirrorAll(a1) + MirrorAll(a2);
    MirrorAllAppend(a0, a1);
    MirrorAllAppend(a0 + a1, a2);
  }

  /** The walk under right-to-left stops exactly where the walk under
      left-to-right stops, with the same previous item, and everything it
      has made or activated is the mirror image. */
  lemma {:induction false} ChainLoopMirror(ctx: Ctx, insets: Insets, items: seq<BoxItem>)
    requires LeftToRightCtx(ctx)
    ensures ChainLoop(ToRightToLeft(ctx), insets, items).aborted == ChainLoop(ctx, insets, items).aborted
    ensures ChainLoop(ToRightToLeft(ctx), insets, items).prev == ChainLoop(ctx, insets, items).prev
    ensures ChainLoop(ToRightToLeft(ctx), insets, items).cs == MirrorAll(ChainLoop(ctx, insets, items).cs)
    ensures ChainLoop(ToRightToLeft(ctx), insets, items).activated == MirrorAll(ChainLoop(ctx, insets, items).activated)
    decreases |items|
  {
    if |items| > 0 {
      var rctx := ToRightToLeft(ctx);
      var init := items[..|items| - 1];
      var item := items[|items| - 1];
      ChainLoopMirror(ctx, insets, init);
      var st := ChainLoop(ctx, insets, init);
      var rst := ChainLoop(rctx, insets, init);
      if !st.aborted {
        BeginPartMirror(ctx, insets, st.prev, item);
        var b := BeginPart(ctx, insets, st.prev, item);
        if b.Some? {
          CenterPartMirror(ctx, insets, item);
          AcrossMirror(ctx, insets, item);
          var c := CenterPart(ctx, insets, item);
          var a := Across(ctx, insets, item);
          MirrorAllAppend(st.cs, b.value);
          MirrorAllAppend(st.cs + b.value, c);
          MirrorAllAppend(st.cs + b.value + c, a);
          MirrorAllAppend(st.activated, c);
        }
      }
    }
  }

  /** Right-to-left layout of a chain is the mirror image of its
      left-to-right layout. */
  lemma ChainMirror(ctx: Ctx, insets: Insets, items: seq<BoxItem>)
    requires LeftToRightCtx(ctx)
    ensures Chain(ToRightToLeft(ctx), insets, items) == MirrorAll(Chain(ctx, insets, items))
  {
    var rctx := ToRightToLeft(ctx);
    ChainLoopMirror(ctx, insets, items);
    var st := ChainLoop(ctx, insets, items);
    if !st.aborted && st.prev.Some? && EndPin(st.prev.value.layout, ctx.axis).Some? {
      var last := st.prev.value;
      if ctx.axis == X {
        var ep := EndPin(last.layout, X).value;
        InsetMirror(ep, insets.right);
        var p := Inset(ep, insets.right, 1.0);
        AnchorPinMirror(Anchor(ctx.container, Attribute.Right), p, Anchor(last.obj, Attribute.Right), Inset(ep, insets.right, -1.0));
      }
      MirrorAllAppend(st.cs, [EndConstraint(ctx, insets, last)]);
    }
  }
}
