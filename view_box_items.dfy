/** Making items from views, and laying items out in any view or layout guide
    without a box view: the receiver adds the item views as subviews, switches
    their autoresizing-mask translation off, and builds and activates the
    chain, fixed-size, relative-size and flex constraints in that order. */
module ViewBoxItems {
  import opened Types
  import opened Layout
  import opened Engine
  import opened BoxUtils
  import opened ManagedSets
  import ConstraintsApi

  /** `boxed(layout:)` of a view; `boxed` and `bi` are this with the zero
      layout. */
  function Boxed(v: ViewId, layout: BoxLayout): (r: BoxItem)
    ensures r.obj == Obj.View(v) && r.obj.View? && r.layout == layout
  {
    BoxItem(Obj.View(v), layout)
  }

  /** The array forms `boxed(layout:)`, `boxed` and `bi`: one item per view,
      in the same order. */
  function BoxedAll(views: seq<ViewId>, layout: BoxLayout): (r: seq<BoxItem>)
    ensures |r| == |views|
    ensures forall i :: 0 <= i < |r| ==> r[i] == Boxed(views[i], layout)
    decreases |views|
  {
    if |views| == 0 then []
    else BoxedAll(views[..|views| - 1], layout) + [Boxed(views[|views| - 1], layout)]
  }

  /** The items of boxed views target exactly those views, and no guide. */
  lemma {:induction false} BoxedViews(views: seq<ViewId>, layout: BoxLayout)
    ensures ItemViews(BoxedAll(views, layout)) == views
    ensures ItemGuides(BoxedAll(views, layout)) == []
    decreases |views|
  {
    if |views| > 0 {
      var init := views[..|views| - 1];
      BoxedViews(init, layout);
      assert BoxedAll(views, layout)[..|views| - 1] == BoxedAll(init, layout);
      assert views == init + [views[|views| - 1]];
    }
  }

  /** The constraints `addBoxItems` builds for items laid out in `ctx`. */
  function Generated(ctx: Ctx, insets: Insets, items: seq<BoxItem>, used: seq<BoxItem>): seq<Constraint>
  {
    Chain(ctx, insets, used) + Fixed(items) + Relative(ctx.container, used) + FlexLoop(ctx.axis, used).cs
  }

  /** Each part of the result comes from its own builder: the chain first,
      then fixed sizes, relative sizes and flex ratios, each with exactly one
      constraint per present pin or flex partner. */
  lemma GeneratedParts(ctx: Ctx, insets: Insets, items: seq<BoxItem>, used: seq<BoxItem>)
    ensures var g := Generated(ctx, insets, items, used);
      var a := |Chain(ctx, insets, used)|;
      var b := a + |Fixed(items)|;
      var c := b + |Relative(ctx.container, used)|;
      g[..a] == Chain(ctx, insets, used) && g[a..b] == Fixed(items)
      && g[b..c] == Relative(ctx.container, used) && g[c..] == FlexLoop(ctx.axis, used).cs
    ensures |Fixed(items)| == FixedCount(items)
    ensures |Relative(ctx.container, used)| == RelativeCount(used)
    ensures |FlexLoop(ctx.axis, used).cs| == if FlexCount(used) == 0 then 0 else FlexCount(used) - 1
  {
    SlicesOfFour(Chain(ctx, insets, used), Fixed(items), Relative(ctx.container, used), FlexLoop(ctx.axis, used).cs);
    FixedOnePerPin(items);
    RelativeOnePerPin(ctx.container, used);
    FlexCountLemma(ctx.axis, used);
  }

  /** Every constraint the chain builder activated early is among the
      generated ones. */
  lemma ChainActivatedGenerated(ctx: Ctx, insets: Insets, items: seq<BoxItem>, used: seq<BoxItem>)
    ensures Elems(ChainLoop(ctx, insets, used).activated) <= Elems(Generated(ctx, insets, items, used))
  {
    ActivatedAreChained(ctx, insets, used);
    var g := Generated(ctx, insets, items, used);
    var ch := Chain(ctx, insets, used);
    assert g == ch + (g[|ch|..]);
    ElemsAppend(ch, g[|ch|..]);
  }

  /** One step of the first loop of `addBoxItems`: a view item joins the
      receiver (when `host`, its subview list, is not null) and has its
      autoresizing-mask translation switched off; a guide item is skipped. */
  method AddItemView(masks: ConstraintsApi.AutoresizingMasks, host: Subviews?, item: BoxItem)
    modifies masks, host
    ensures masks.off == old(masks.off) + Elems(ObjView(item.obj))
    ensures host != null ==> Elems(host.order) == Elems(old(host.order)) + Elems(ObjView(item.obj))
  {
    if item.obj.View? {
      var v := item.obj.vid;
      assert Elems(ObjView(item.obj)) == {v};
      if host != null {
        PlacedKeepsOthers(host.order, v, None);
        host.Add(v);
      }
      masks.TurnOff(v);
    } else {
      assert Elems(ObjView(item.obj)) == {};
    }
  }

  /** The first loop of `addBoxItems`, over all items. */
  method AddItemViews(masks: ConstraintsApi.AutoresizingMasks, host: Subviews?, items: seq<BoxItem>)
    modifies masks, host
    ensures masks.off == old(masks.off) + Elems(ItemViews(items))
    ensures host != null ==> Elems(host.order) == Elems(old(host.order)) + Elems(ItemViews(items))
  {
    for i := 0 to |items|
      invariant masks.off == old(masks.off) + Elems(ItemViews(items[..i]))
      invariant host != null ==> Elems(host.order) == Elems(old(host.order)) + Elems(ItemViews(items[..i]))
    {
      assert items[..i + 1][..i] == items[..i];
      ElemsAppend(ItemViews(items[..i]), ObjView(items[i].obj));
      AddItemView(masks, host, items[i]);
    }
    assert items[..|items|] == items;
  }

  /** `addBoxItems(_:axis:spacing:insets:)` on `receiver`; `host` is the
      receiver's own subview list when it is a view, and null when it is a
      layout guide. */
  method AddBoxItems(act: ActiveConstraints, masks: ConstraintsApi.AutoresizingMasks, host: Subviews?,
                     receiver: Obj, sca: SemanticContentAttribute, dir: LayoutDirection,
                     items: seq<BoxItem>, axis: Axis, spacing: real, insets: Option<Insets>)
    returns (constraints: seq<Constraint>)
    requires host != null <==> receiver.View?
    modifies act, masks, host
    ensures constraints == Generated(Ctx(receiver, sca, dir, axis, spacing), ResolveInsets(insets), items, items)
    ensures act.active == old(act.active) + Elems(constraints)
    ensures masks.off == old(masks.off) + Elems(ItemViews(items))
    ensures host != null ==> Elems(host.order) == Elems(old(host.order)) + Elems(ItemViews(items))
  {
    AddItemViews(masks, host, items);
    var ctx := Ctx(receiver, sca, dir, axis, spacing);
    constraints := CreateChainConstraints(act, ctx, items, insets, []);
    assert constraints == Chain(ctx, ResolveInsets(insets), items);
    constraints := CreateDimensions(items, constraints);
    constraints := CreateRelativeDimensions(receiver, items, constraints);
    constraints := CreateFlexDimensions(items, axis, constraints);
    assert constraints == Generated(ctx, ResolveInsets(insets), items, items);
    ChainActivatedGenerated(ctx, ResolveInsets(insets), items, items);
    act.Activate(constraints);
  }

  /** `addBoxItem(_:)`: one item, default axis y, no spacing, zero insets. */
  method AddBoxItem(act: ActiveConstraints, masks: ConstraintsApi.AutoresizingMasks, host: Subviews?,
                    receiver: Obj, sca: SemanticContentAttribute, dir: LayoutDirection, item: BoxItem)
    returns (constraints: seq<Constraint>)
    requires host != null <==> receiver.View?
    modifies act, masks, host
    ensures constraints == Generated(Ctx(receiver, sca, dir, Y, 0.0), ZeroInsets, [item], [item])
    ensures act.active == old(act.active) + Elems(constraints)
    ensures masks.off == old(masks.off) + Elems(ObjView(item.obj))
    ensures host != null ==> Elems(host.order) == Elems(old(host.order)) + Elems(ObjView(item.obj))
  {
    assert ItemViews([item]) == ObjView(item.obj) by {
      assert [item][..0] == [];
    }
    constraints := AddBoxItems(act, masks, host, receiver, sca, dir, [item], Y, 0.0, Some(ZeroInsets));
  }

  /** `addBoxedView(_:)` of a view: the view with the zero layout. */
  method AddBoxedView(act: ActiveConstraints, masks: ConstraintsApi.AutoresizingMasks, host: Subviews,
                      receiver: ViewId, sca: SemanticContentAttribute, dir: LayoutDirection, v: ViewId)
    returns (constraints: seq<Constraint>)
    modifies act, masks, host
    ensures constraints == Generated(Ctx(Obj.View(receiver), sca, dir, Y, 0.0), ZeroInsets,
                                     [Boxed(v, ZeroLayout())], [Boxed(v, ZeroLayout())])
    ensures act.active == old(act.active) + Elems(constraints)
    ensures masks.off == old(masks.off) + {v}
    ensures Elems(host.order) == Elems(old(host.order)) + {v}
  {
    constraints := AddBoxItem(act, masks, host, Obj.View(receiver), sca, dir, Boxed(v, ZeroLayout()));
  }

  /** `addBoxedView(_:to:)` of a layout guide: the view joins `owner` (the
      given superview, else the guide's owning view, null when there is
      neither), and is laid out in the guide. */
  method AddBoxedViewToGuide(act: ActiveConstraints, masks: ConstraintsApi.AutoresizingMasks, owner: Subviews?,
                             guide: GuideId, sca: SemanticContentAttribute, dir: LayoutDirection, v: ViewId)
    returns (constraints: seq<Constraint>)
    modifies act, masks, owner
    ensures constraints == Generated(Ctx(Obj.Guide(guide), sca, dir, Y, 0.0), ZeroInsets,
                                     [Boxed(v, ZeroLayout())], [Boxed(v, ZeroLayout())])
    ensures act.active == old(act.active) + Elems(constraints)
    ensures masks.off == old(masks.off) + {v}
    ensures owner != null ==> Elems(owner.order) == Elems(old(owner.order)) + {v}
  {
    if owner != null {
      PlacedKeepsOthers(owner.order, v, None);
      owner.Add(v);
    }
    constraints := AddBoxItem(act, masks, null, Obj.Guide(guide), sca, dir, Boxed(v, ZeroLayout()));
  }
}
