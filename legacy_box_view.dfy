/** The older `BoxView` container. Every assignment to `items` runs the
    item diff at once, and that diff also raises every kept item view to the
    front. `insertItem` edits the managed views directly and never touches
    the guides. `updateConstraints` always regenerates the constraints, over
    every item. */
module LegacyBoxView {
  import opened Types
  import opened Layout
  import opened Engine
  import opened BoxUtils
  import opened ManagedSets
  import opened ViewBoxItems
  import Current = BoxView

  /** `items.firstIndex(where: { $0.view == view })`: the first item whose
      view is `target`. A nil target matches the first guide item, whose
      view is nil as well. */
  function IndexOfView(items: seq<BoxItem>, target: Option<ViewId>): (r: Option<nat>)
    ensures r.Some? ==> r.value < |items| && ViewOf(items[r.value].obj) == target
    ensures r.Some? ==> forall j :: 0 <= j < r.value ==> ViewOf(items[j].obj) != target
    ensures r.None? ==> forall j :: 0 <= j < |items| ==> ViewOf(items[j].obj) != target
    ensures target.None? && r.Some? ==> items[r.value].obj.Guide?
    decreases |items|
  {
    if |items| == 0 then None
    else if ViewOf(items[0].obj) == target then Some(0)
    else
      var r := IndexOfView(items[1..], target);
      if r.Some? then Some(r.value + 1) else None
  }

  /** `managedViews.firstIndex(where: { $0 == view })`: a nil target
      matches nothing. */
  function FirstIndex(ms: seq<ViewId>, target: Option<ViewId>): (r: Option<nat>)
    ensures target.None? ==> r.None?
    ensures r.Some? ==> r.value < |ms| && ms[r.value] == target.value
    ensures r.Some? ==> forall j :: 0 <= j < r.value ==> ms[j] != target.value
    ensures target.Some? && r.None? ==> target.value !in ms
    decreases |ms|
  {
    if target.None? || |ms| == 0 then None
    else if ms[0] == target.value then Some(0)
    else
      var r := FirstIndex(ms[1..], target);
      if r.Some? then Some(r.value + 1) else None
  }

  /** `insert(_:at:)` */
  function InsertAt<T>(s: seq<T>, i: nat, x: T): (r: seq<T>)
    requires i <= |s|
    ensures |r| == |s| + 1 && r[i] == x
    ensures r[..i] == s[..i] && r[i + 1..] == s[i..]
    ensures multiset(r) == multiset(s) + multiset{x}
  {
    assert s == s[..i] + s[i..];
    s[..i] + [x] + s[i..]
  }

  /** Inserting a value the list already holds leaves a duplicate. */
  lemma InsertedTwice<T>(s: seq<T>, i: nat, x: T)
    requires i <= |s| && x in s
    ensures !Distinct(InsertAt(s, i, x))
  {
    var r := InsertAt(s, i, x);
    var k :| 0 <= k < |s| && s[k] == x;
    if k < i {
      assert r[k] == x && r[i] == x;
    } else {
      assert r[k + 1] == s[k];
    }
  }

  /** The items `insertItem` works on: when the item's view is already
      managed, its first item is taken out first. */
  function Pruned(items: seq<BoxItem>, item: BoxItem, managed: seq<ViewId>): (r: seq<BoxItem>)
    ensures !(item.obj.View? && item.obj.vid in managed) ==> r == items
    ensures item.obj.View? && item.obj.vid in managed ==> r == Current.WithoutFirst(items, item.obj)
  {
    if item.obj.View? && item.obj.vid in managed then Current.WithoutFirst(items, item.obj) else items
  }

  /** Where `insertItem(_:after:)` puts the item: right after the first item
      whose view is `target`, else at the start. */
  function AfterPosition(items: seq<BoxItem>, target: Option<ViewId>): (p: nat)
    ensures p <= |items|
    ensures p > 0 <==> IndexOfView(items, target).Some?
    ensures p > 0 ==> ViewOf(items[p - 1].obj) == target
  {
    match IndexOfView(items, target)
    case Some(i) => i + 1
    case None => 0
  }

  /** Where `insertItem(_:before:)` puts the item: at the first item whose
      view is `target`, else at the end. */
  function BeforePosition(items: seq<BoxItem>, target: Option<ViewId>): (p: nat)
    ensures p <= |items|
    ensures p < |items| <==> IndexOfView(items, target).Some?
    ensures p < |items| ==> ViewOf(items[p].obj) == target
  {
    match IndexOfView(items, target)
    case Some(i) => i
    case None => |items|
  }

  /** The same two placements in the managed views. */
  function ViewAfterPosition(ms: seq<ViewId>, target: Option<ViewId>): (p: nat)
    ensures p <= |ms|
    ensures p > 0 <==> target.Some? && target.value in ms
    ensures p > 0 ==> ms[p - 1] == target.value
  {
    match FirstIndex(ms, target)
    case Some(i) => i + 1
    case None => 0
  }

  function ViewBeforePosition(ms: seq<ViewId>, target: Option<ViewId>): (p: nat)
    ensures p <= |ms|
    ensures p < |ms| <==> target.Some? && target.value in ms
    ensures p < |ms| ==> ms[p] == target.value
  {
    match FirstIndex(ms, target)
    case Some(i) => i
    case None => |ms|
  }

  /** The subview order after the second loop of `updateItems`: every item
      view in turn is added on top when it is not yet managed, or brought to
      the front when it is (a managed view outside the box stays out). */
  function Fronted(order: seq<ViewId>, ms: seq<ViewId>, vs: seq<ViewId>): seq<ViewId>
    decreases |vs|
  {
    if |vs| == 0 then order
    else
      var v := vs[0];
      Fronted(if v !in ms || v in order then OnTop(order, v) else order,
              if v in ms then ms else ms + [v], vs[1..])
  }

  /** The loop adds exactly the item views that were not managed. */
  lemma {:induction false} FrontedElems(order: seq<ViewId>, ms: seq<ViewId>, vs: seq<ViewId>)
    ensures forall x :: x in Fronted(order, ms, vs) <==> x in order || (x in vs && x !in ms)
    ensures Distinct(order) ==> Distinct(Fronted(order, ms, vs))
    decreases |vs|
  {
    if |vs| > 0 {
      var v := vs[0];
      var o := if v !in ms || v in order then OnTop(order, v) else order;
      var m := if v in ms then ms else ms + [v];
      PlacedKeepsOthers(order, v, None);
      FrontedElems(o, m, vs[1..]);
      assert vs == [v] + vs[1..];
    }
  }

  /** When every managed view is in the box, the last item view ends up
      front-most. */
  lemma {:induction false} FrontedLast(order: seq<ViewId>, ms: seq<ViewId>, vs: seq<ViewId>)
    requires |vs| > 0
    requires forall x :: x in ms ==> x in order
    ensures |Fronted(order, ms, vs)| > 0
    ensures Fronted(order, ms, vs)[|Fronted(order, ms, vs)| - 1] == vs[|vs| - 1]
    decreases |vs|
  {
    var v := vs[0];
    var o := OnTop(order, v);
    var m := if v in ms then ms else ms + [v];
    assert v !in ms || v in order;
    assert Fronted(order, ms, vs) == Fronted(o, m, vs[1..]);
    PlacedKeepsOthers(order, v, None);
    assert v in o;
    if |vs| > 1 {
      FrontedLast(o, m, vs[1..]);
    }
  }

  /** The subviews after the item-view loops of `updateItems`: the dropped
      managed views are gone and the new item views have joined. */
  lemma FrontedAfterRemoval(ms0: seq<ViewId>, sub0: seq<ViewId>, sub1: seq<ViewId>, iv: seq<ViewId>)
    requires Elems(sub1) == Elems(sub0) - Gone(ms0, iv)
    ensures Elems(Fronted(sub1, KeepIn(ms0, iv), iv)) == (Elems(sub0) - Gone(ms0, iv)) + (Elems(iv) - Elems(ms0))
  {
    var ms1 := KeepIn(ms0, iv);
    KeepInMeans(ms0, iv);
    FrontedElems(sub1, ms1, iv);
    var r := Fronted(sub1, ms1, iv);
    forall x
      ensures x in Elems(r) <==> x in (Elems(sub0) - Gone(ms0, iv)) + (Elems(iv) - Elems(ms0))
    {
      assert x in Elems(r) <==> x in Elems(sub1) || (x in iv && x !in ms1);
    }
  }

  /** When every managed view was in the box, the last item view is
      front-most after the item-view loops of `updateItems`. */
  lemma FrontedAfterRemovalLast(ms0: seq<ViewId>, sub0: seq<ViewId>, sub1: seq<ViewId>, iv: seq<ViewId>)
    requires Elems(sub1) == Elems(sub0) - Gone(ms0, iv)
    ensures var r := Fronted(sub1, KeepIn(ms0, iv), iv);
      |iv| > 0 && (forall x :: x in ms0 ==> x in sub0) ==> |r| > 0 && r[|r| - 1] == iv[|iv| - 1]
  {
    if |iv| > 0 && forall x :: x in ms0 ==> x in sub0 {
      var ms1 := KeepIn(ms0, iv);
      KeepInMeans(ms0, iv);
      forall x | x in ms1
        ensures x in sub1
      {
        assert x in Elems(sub1);
      }
      FrontedLast(sub1, ms1, iv);
    }
  }

  class BoxView {
    const id: ViewId
    const subviews: Subviews
    var axis: Axis
    var spacing: real
    var insets: Insets
    var sca: SemanticContentAttribute
    var items: seq<BoxItem>
    var managedViews: seq<ViewId>
    var managedGuides: seq<GuideId>
    var managedConstraints: seq<Constraint>
    /** The layout guides added to the box. */
    var layoutGuides: set<GuideId>
    var isUpdatingItems: bool
    var needsUpdateConstraints: bool

    /** The managed views and guides are the items' views and guides. */
    predicate Synced()
      reads this`items, this`managedViews, this`managedGuides
    {
      Elems(managedViews) == Elems(ItemViews(items)) && Elems(managedGuides) == Elems(ItemGuides(items))
    }

    /** The fields only their own setters change. */
    function Settings(): (Axis, real, Insets, SemanticContentAttribute)
      reads this`axis, this`spacing, this`insets, this`sca
    {
      (axis, spacing, insets, sca)
    }

    /** What a run of `updateItems` leaves behind: dropped views and guides
        leave the box, new ones join it, kept and new item views are raised
        in item order. */
    twostate predicate ItemsDiffed()
      reads this`items, this`managedViews, this`managedGuides, this`layoutGuides, subviews`order
    {
      var iv, ig := ItemViews(items), ItemGuides(items);
      managedViews == Diffed(old(managedViews), iv)
      && managedGuides == Diffed(old(managedGuides), ig)
      && Elems(subviews.order) == (Elems(old(subviews.order)) - Gone(old(managedViews), iv)) + (Elems(iv) - Elems(old(managedViews)))
      && layoutGuides == (old(layoutGuides) - Gone(old(managedGuides), ig)) + (Elems(ig) - Elems(old(managedGuides)))
      && (|iv| > 0 && (forall x :: x in old(managedViews) ==> x in old(subviews.order)) ==>
            |subviews.order| > 0 && subviews.order[|subviews.order| - 1] == iv[|iv| - 1])
    }

    /** `init(axis:spacing:insets:)` */
    constructor (id: ViewId, axis: Axis, spacing: real, insets: Insets)
      ensures this.id == id && this.axis == axis && this.spacing == spacing && this.insets == insets
      ensures sca == Unspecified
      ensures items == [] && managedViews == [] && managedGuides == [] && managedConstraints == []
      ensures layoutGuides == {} && !isUpdatingItems && !needsUpdateConstraints
      ensures fresh(subviews) && subviews.order == []
      ensures Synced()
    {
      this.id := id;
      this.axis := axis;
      this.spacing := spacing;
      this.insets := insets;
      sca := Unspecified;
      items := [];
      managedViews := [];
      managedGuides := [];
      managedConstraints := [];
      layoutGuides := {};
      isUpdatingItems := false;
      needsUpdateConstraints := false;
      subviews := new Subviews([]);
    }

    /** One managed view leaves the list and the box. */
    method RemoveManagedViewAt(ind: nat)
      requires ind < |managedViews|
      modifies this, subviews
      ensures managedViews == old(managedViews[..ind] + managedViews[ind + 1..])
      ensures subviews.order == Without(old(subviews.order), old(managedViews[ind]))
      ensures unchanged(this`items, this`managedGuides, this`managedConstraints, this`layoutGuides)
      ensures Settings() == old(Settings()) && isUpdatingItems == old(isUpdatingItems)
      ensures needsUpdateConstraints == old(needsUpdateConstraints)
    {
      var v := managedViews[ind];
      if v in subviews.order {
        subviews.Remove(v);
      } else {
        WithoutAbsent(subviews.order, v);
      }
      managedViews := managedViews[..ind] + managedViews[ind + 1..];
    }

    /** One step of the removal loop, from the last dropped index down. */
    method RemoveDroppedView(ghost ms0: seq<ViewId>, itemViews: seq<ViewId>, r: seq<nat>, k: nat,
                             ghost sub0: seq<ViewId>)
      requires r == Dropped(ms0, itemViews) && 0 < k <= |r|
      requires managedViews == RemovedFrom(ms0, itemViews, k)
      requires Elems(subviews.order) == Elems(sub0) - GoneFrom(ms0, r, k)
      modifies this, subviews
      ensures managedViews == RemovedFrom(ms0, itemViews, k - 1)
      ensures Elems(subviews.order) == Elems(sub0) - GoneFrom(ms0, r, k - 1)
      ensures unchanged(this`items, this`managedGuides, this`managedConstraints, this`layoutGuides)
      ensures Settings() == old(Settings()) && isUpdatingItems == old(isUpdatingItems)
      ensures needsUpdateConstraints == old(needsUpdateConstraints)
    {
      RemovalStep(ms0, itemViews, k);
      GoneFromStep(ms0, r, k);
      var idx := r[k - 1];
      WithoutElems(subviews.order, managedViews[idx]);
      RemoveManagedViewAt(idx);
    }

    /** The first two loops of `updateItems`: every managed view no item
        holds leaves the box, and its index is removed, last index first. */
    method RemoveDroppedViews(itemViews: seq<ViewId>)
      modifies this, subviews
      ensures managedViews == KeepIn(old(managedViews), itemViews)
      ensures Elems(subviews.order) == Elems(old(subviews.order)) - Gone(old(managedViews), itemViews)
      ensures unchanged(this`items, this`managedGuides, this`managedConstraints, this`layoutGuides)
      ensures Settings() == old(Settings()) && isUpdatingItems == old(isUpdatingItems)
      ensures needsUpdateConstraints == old(needsUpdateConstraints)
    {
      ghost var ms0, sub0 := managedViews, subviews.order;
      var r := CollectDropped(managedViews, itemViews);
      var k := |r|;
      RemovalStart(ms0, itemViews);
      GoneFromEnd(ms0, r);
      while k > 0
        invariant 0 <= k <= |r| && r == Dropped(ms0, itemViews)
        invariant managedViews == RemovedFrom(ms0, itemViews, k)
        invariant Elems(subviews.order) == Elems(sub0) - GoneFrom(ms0, r, k)
        invariant unchanged(this`items, this`managedGuides, this`managedConstraints, this`layoutGuides)
        invariant Settings() == old(Settings()) && isUpdatingItems == old(isUpdatingItems)
        invariant needsUpdateConstraints == old(needsUpdateConstraints)
        decreases k
      {
        RemoveDroppedView(ms0, itemViews, r, k, sub0);
        k := k - 1;
      }
      GoneFromStart(ms0, itemViews);
      RemovalDone(ms0, itemViews);
    }

    /** One step of the third loop: a new item view is managed and added on
        top, a managed one is brought to the front. */
    method FrontItemView(ghost ms1: seq<ViewId>, ghost sub1: seq<ViewId>, itemViews: seq<ViewId>, i: nat)
      requires i < |itemViews|
      requires managedViews == AppendMissing(ms1, itemViews[..i])
      requires Fronted(subviews.order, managedViews, itemViews[i..]) == Fronted(sub1, ms1, itemViews)
      modifies this, subviews
      ensures managedViews == AppendMissing(ms1, itemViews[..i + 1])
      ensures Fronted(subviews.order, managedViews, itemViews[i + 1..]) == Fronted(sub1, ms1, itemViews)
      ensures unchanged(this`items, this`managedGuides, this`managedConstraints, this`layoutGuides)
      ensures Settings() == old(Settings()) && isUpdatingItems == old(isUpdatingItems)
      ensures needsUpdateConstraints == old(needsUpdateConstraints)
    {
      var v := itemViews[i];
      assert itemViews[..i + 1][..i] == itemViews[..i];
      assert itemViews[i..][1..] == itemViews[i + 1..];
      if v !in managedViews {
        managedViews := managedViews + [v];
        subviews.Add(v);
      } else {
        subviews.BringToFront(v);
      }
    }

    /** The third loop of `updateItems`, over the item views in order. */
    method FrontItemViews(itemViews: seq<ViewId>)
      modifies this, subviews
      ensures managedViews == AppendMissing(old(managedViews), itemViews)
      ensures subviews.order == Fronted(old(subviews.order), old(managedViews), itemViews)
      ensures unchanged(this`items, this`managedGuides, this`managedConstraints, this`layoutGuides)
      ensures Settings() == old(Settings()) && isUpdatingItems == old(isUpdatingItems)
      ensures needsUpdateConstraints == old(needsUpdateConstraints)
    {
      ghost var ms1, sub1 := managedViews, subviews.order;
      for i := 0 to |itemViews|
        invariant managedViews == AppendMissing(ms1, itemViews[..i])
        invariant Fronted(subviews.order, managedViews, itemViews[i..]) == Fronted(sub1, ms1, itemViews)
        invariant unchanged(this`items, this`managedGuides, this`managedConstraints, this`layoutGuides)
        invariant Settings() == old(Settings()) && isUpdatingItems == old(isUpdatingItems)
        invariant needsUpdateConstraints == old(needsUpdateConstraints)
      {
        FrontItemView(ms1, sub1, itemViews, i);
      }
      assert itemViews[..|itemViews|] == itemViews;
    }

    /** One managed guide leaves the list and the box. */
    method RemoveManagedGuideAt(ind: nat)
      requires ind < |managedGuides|
      modifies this
      ensures managedGuides == old(managedGuides[..ind] + managedGuides[ind + 1..])
      ensures layoutGuides == old(layoutGuides) - {old(managedGuides[ind])}
      ensures unchanged(this`items, this`managedViews, this`managedConstraints)
      ensures Settings() == old(Settings()) && isUpdatingItems == old(isUpdatingItems)
      ensures needsUpdateConstraints == old(needsUpdateConstraints)
    {
      layoutGuides := layoutGuides - {managedGuides[ind]};
      managedGuides := managedGuides[..ind] + managedGuides[ind + 1..];
    }

    method RemoveDroppedGuide(ghost ms0: seq<GuideId>, itemGuides: seq<GuideId>, r: seq<nat>, k: nat,
                              ghost lg0: set<GuideId>)
      requires r == Dropped(ms0, itemGuides) && 0 < k <= |r|
      requires managedGuides == RemovedFrom(ms0, itemGuides, k)
      requires layoutGuides == lg0 - GoneFrom(ms0, r, k)
      modifies this
      ensures managedGuides == RemovedFrom(ms0, itemGuides, k - 1)
      ensures layoutGuides == lg0 - GoneFrom(ms0, r, k - 1)
      ensures unchanged(this`items, this`managedViews, this`managedConstraints)
      ensures Settings() == old(Settings()) && isUpdatingItems == old(isUpdatingItems)
      ensures needsUpdateConstraints == old(needsUpdateConstraints)
    {
      RemovalStep(ms0, itemGuides, k);
      GoneFromStep(ms0, r, k);
      RemoveManagedGuideAt(r[k - 1]);
    }

    /** The guide loops of `updateItems` that drop guides no item holds. */
    method RemoveDroppedGuides(itemGuides: seq<GuideId>)
      modifies this
      ensures managedGuides == KeepIn(old(managedGuides), itemGuides)
      ensures layoutGuides == old(layoutGuides) - Gone(old(managedGuides), itemGuides)
      ensures unchanged(this`items, this`managedViews, this`managedConstraints)
      ensures Settings() == old(Settings()) && isUpdatingItems == old(isUpdatingItems)
      ensures needsUpdateConstraints == old(needsUpdateConstraints)
    {
      ghost var ms0, lg0 := managedGuides, layoutGuides;
      var r := CollectDropped(managedGuides, itemGuides);
      var k := |r|;
      RemovalStart(ms0, itemGuides);
      GoneFromEnd(ms0, r);
      while k > 0
        invariant 0 <= k <= |r| && r == Dropped(ms0, itemGuides)
        invariant managedGuides == RemovedFrom(ms0, itemGuides, k)
        invariant layoutGuides == lg0 - GoneFrom(ms0, r, k)
        invariant unchanged(this`items, this`managedViews, this`managedConstraints)
        invariant Settings() == old(Settings()) && isUpdatingItems == old(isUpdatingItems)
        invariant needsUpdateConstraints == old(needsUpdateConstraints)
        decreases k
      {
        RemoveDroppedGuide(ms0, itemGuides, r, k, lg0);
        k := k - 1;
      }
      GoneFromStart(ms0, itemGuides);
      RemovalDone(ms0, itemGuides);
    }

    /** The last loop of `updateItems`: new item guides are managed and
        added to the box. */
    method AddMissingGuides(itemGuides: seq<GuideId>)
      modifies this
      ensures managedGuides == AppendMissing(old(managedGuides), itemGuides)
      ensures layoutGuides == old(layoutGuides) + (Elems(itemGuides) - Elems(old(managedGuides)))
      ensures unchanged(this`items, this`managedViews, this`managedConstraints)
      ensures Settings() == old(Settings()) && isUpdatingItems == old(isUpdatingItems)
      ensures needsUpdateConstraints == old(needsUpdateConstraints)
    {
      ghost var ms1 := managedGuides;
      for i := 0 to |itemGuides|
        invariant managedGuides == AppendMissing(ms1, itemGuides[..i])
        invariant layoutGuides == old(layoutGuides) + (Elems(itemGuides[..i]) - Elems(ms1))
        invariant unchanged(this`items, this`managedViews, this`managedConstraints)
        invariant Settings() == old(Settings()) && isUpdatingItems == old(isUpdatingItems)
        invariant needsUpdateConstraints == old(needsUpdateConstraints)
      {
        AddMissingGuide(ms1, old(layoutGuides), itemGuides, i);
      }
      assert itemGuides[..|itemGuides|] == itemGuides;
    }

    /** One turn of the adding loop for guides: the `i`-th item guide joins
        when it is not yet managed. */
    method AddMissingGuide(ghost ms1: seq<GuideId>, ghost lg1: set<GuideId>, itemGuides: seq<GuideId>, i: nat)
      requires i < |itemGuides|
      requires managedGuides == AppendMissing(ms1, itemGuides[..i])
      requires layoutGuides == lg1 + (Elems(itemGuides[..i]) - Elems(ms1))
      modifies this
      ensures managedGuides == AppendMissing(ms1, itemGuides[..i + 1])
      ensures layoutGuides == lg1 + (Elems(itemGuides[..i + 1]) - Elems(ms1))
      ensures unchanged(this`items, this`managedViews, this`managedConstraints)
      ensures Settings() == old(Settings()) && isUpdatingItems == old(isUpdatingItems)
      ensures needsUpdateConstraints == old(needsUpdateConstraints)
    {
      var g := itemGuides[i];
      assert itemGuides[..i + 1][..i] == itemGuides[..i];
      ElemsAppend(itemGuides[..i], [g]);
      AppendMissingMeans(ms1, itemGuides[..i]);
      if g !in managedGuides {
        managedGuides := managedGuides + [g];
        layoutGuides := layoutGuides + {g};
      }
    }

    /** The view half of `updateItems`. */
    method SyncViews()
      modifies this, subviews
      ensures var iv := ItemViews(items);
        managedViews == Diffed(old(managedViews), iv)
        && Elems(subviews.order) == (Elems(old(subviews.order)) - Gone(old(managedViews), iv)) + (Elems(iv) - Elems(old(managedViews)))
        && (|iv| > 0 && (forall x :: x in old(managedViews) ==> x in old(subviews.order)) ==>
              |subviews.order| > 0 && subviews.order[|subviews.order| - 1] == iv[|iv| - 1])
      ensures Elems(managedViews) == Elems(ItemViews(items))
      ensures unchanged(this`items, this`managedGuides, this`managedConstraints, this`layoutGuides)
      ensures Settings() == old(Settings()) && isUpdatingItems == old(isUpdatingItems)
      ensures needsUpdateConstraints == old(needsUpdateConstraints)
    {
      var itemViews := ItemViews(items);
      ghost var ms0, sub0 := managedViews, subviews.order;
      RemoveDroppedViews(itemViews);
      ghost var sub1 := subviews.order;
      FrontedAfterRemoval(ms0, sub0, sub1, itemViews);
      FrontedAfterRemovalLast(ms0, sub0, sub1, itemViews);
      FrontItemViews(itemViews);
      assert subviews.order == Fronted(sub1, KeepIn(ms0, itemViews), itemViews);
      assert managedViews == Diffed(ms0, itemViews);
      DiffedExact(ms0, itemViews);
    }

    /** The guide half of `updateItems`. */
    method SyncGuides()
      modifies this
      ensures var ig := ItemGuides(items);
        managedGuides == Diffed(old(managedGuides), ig)
        && layoutGuides == (old(layoutGuides) - Gone(old(managedGuides), ig)) + (Elems(ig) - Elems(old(managedGuides)))
      ensures Elems(managedGuides) == Elems(ItemGuides(items))
      ensures unchanged(this`items, this`managedViews, this`managedConstraints)
      ensures Settings() == old(Settings()) && isUpdatingItems == old(isUpdatingItems)
      ensures needsUpdateConstraints == old(needsUpdateConstraints)
    {
      var itemGuides := ItemGuides(items);
      ghost var ms0 := managedGuides;
      RemoveDroppedGuides(itemGuides);
      KeptMissing(ms0, itemGuides);
      AddMissingGuides(itemGuides);
      assert managedGuides == Diffed(ms0, itemGuides);
      DiffedExact(ms0, itemGuides);
    }

    /** `updateItems()`, run by every assignment to `items`: nothing while
        an item change is in progress; otherwise the managed views and
        guides become those of the items, and the constraints are marked for
        an update. */
    method UpdateItems()
      modifies this, subviews
      ensures old(isUpdatingItems) ==> unchanged(this) && unchanged(subviews)
      ensures !old(isUpdatingItems) ==> ItemsDiffed() && Synced() && needsUpdateConstraints
      ensures isUpdatingItems == old(isUpdatingItems)
      ensures unchanged(this`items, this`managedConstraints) && Settings() == old(Settings())
    {
      if isUpdatingItems {
        return;
      }
      isUpdatingItems := true;
      SyncViews();
      SyncGuides();
      isUpdatingItems := false;
      needsUpdateConstraints := true;
    }

    /** The `items` setter. */
    method SetItems(newItems: seq<BoxItem>)
      modifies this, subviews
      ensures items == newItems
      ensures !old(isUpdatingItems) ==> ItemsDiffed() && Synced() && needsUpdateConstraints
      ensures old(isUpdatingItems) ==> unchanged(this`managedViews, this`managedGuides, this`layoutGuides, this`needsUpdateConstraints)
      ensures isUpdatingItems == old(isUpdatingItems)
      ensures unchanged(this`managedConstraints) && Settings() == old(Settings())
    {
      items := newItems;
      UpdateItems();
    }

    /** The `optItems` setter: the items are the non-nil entries. */
    method SetOptItems(opt: seq<Option<BoxItem>>)
      modifies this, subviews
      ensures items == Current.Compact(opt)
      ensures !old(isUpdatingItems) ==> ItemsDiffed() && Synced() && needsUpdateConstraints
      ensures isUpdatingItems == old(isUpdatingItems)
      ensures unchanged(this`managedConstraints) && Settings() == old(Settings())
    {
      SetItems(Current.Compact(opt));
    }

    /** `addItem(_:)` */
    method AddItem(item: BoxItem)
      modifies this, subviews
      ensures items == old(items) + [item]
      ensures !old(isUpdatingItems) ==> ItemsDiffed() && Synced() && needsUpdateConstraints
      ensures isUpdatingItems == old(isUpdatingItems)
      ensures unchanged(this`managedConstraints) && Settings() == old(Settings())
    {
      SetItems(items + [item]);
    }

    /** `setViews(_:layout:)`: the items are emptied, which runs the diff,
        and each view's item is appended, which runs it again; the box ends
        up managing exactly the views, and no guide. */
    method SetViews(views: seq<ViewId>, layout: BoxLayout)
      modifies this, subviews
      ensures items == BoxedAll(views, layout)
      ensures !old(isUpdatingItems) ==> Synced() && Elems(managedViews) == Elems(views) && managedGuides == []
      ensures isUpdatingItems == old(isUpdatingItems)
      ensures unchanged(this`managedConstraints) && Settings() == old(Settings())
    {
      SetItems([]);
      for i := 0 to |views|
        invariant items == BoxedAll(views[..i], layout)
        invariant !old(isUpdatingItems) ==> Synced()
        invariant isUpdatingItems == old(isUpdatingItems)
        invariant unchanged(this`managedConstraints) && Settings() == old(Settings())
      {
        assert views[..i + 1][..i] == views[..i];
        AddItem(Boxed(views[i], layout));
      }
      assert views[..|views|] == views;
      BoxedViews(views, layout);
      NoElems(managedGuides);
    }

    /** The first step of both `insertItem` forms: an item whose view is
        already managed loses its first item and leaves the box. */
    method PruneManaged(item: BoxItem)
      modifies this, subviews
      ensures items == Pruned(old(items), item, old(managedViews))
      ensures item.obj.View? ==> Without(subviews.order, item.obj.vid) == Without(old(subviews.order), item.obj.vid)
      ensures item.obj.Guide? ==> subviews.order == old(subviews.order)
      ensures unchanged(this`managedViews, this`managedGuides, this`layoutGuides, this`managedConstraints)
      ensures Settings() == old(Settings()) && isUpdatingItems == old(isUpdatingItems)
      ensures needsUpdateConstraints == old(needsUpdateConstraints)
    {
      if item.obj.View? && item.obj.vid in managedViews {
        items := Current.WithoutFirst(items, item.obj);
        subviews.Remove(item.obj.vid);
        WithoutAbsent(subviews.order, item.obj.vid);
      }
    }

    /** The middle step of both `insertItem` forms: the item joins the
        items at `p`; a guide item that is not managed leaves the managed
        guides out of step with the items. */
    method InsertIntoItems(p: nat, item: BoxItem)
      requires p <= |items|
      modifies this
      ensures items == InsertAt(old(items), p, item)
      ensures item.obj.Guide? && item.obj.gid !in managedGuides ==> !Synced()
      ensures unchanged(this`managedViews, this`managedGuides, this`layoutGuides, this`managedConstraints)
      ensures Settings() == old(Settings()) && isUpdatingItems == old(isUpdatingItems)
      ensures needsUpdateConstraints == old(needsUpdateConstraints)
    {
      ghost var rest := items;
      items := InsertAt(items, p, item);
      InsertedItems(rest, p, item, items);
      if item.obj.Guide? {
        assert item.obj.gid in Elems(ObjGuide(item.obj));
        assert item.obj.gid in Elems(ItemGuides(items));
      }
    }

    /** The last step of both `insertItem` forms for a view item: the view
        joins the managed views at `p`, duplicates allowed, and is placed in
        the box at `z`. */
    method ManageInserted(v: ViewId, p: nat, z: ZPosition)
      requires p <= |managedViews|
      modifies this, subviews
      ensures managedViews == InsertAt(old(managedViews), p, v)
      ensures v in old(managedViews) ==> !Distinct(managedViews)
      ensures subviews.order == Placed(old(subviews.order), v, Some(z))
      ensures unchanged(this`items, this`managedGuides, this`layoutGuides, this`managedConstraints)
      ensures Settings() == old(Settings()) && isUpdatingItems == old(isUpdatingItems)
      ensures needsUpdateConstraints == old(needsUpdateConstraints)
    {
      if v in managedViews {
        InsertedTwice(managedViews, p, v);
      }
      managedViews := InsertAt(managedViews, p, v);
      subviews.InsertSubview(v, Some(z));
    }

    /** `insertItem(_:after:z:)`: while the diff is held off, an item whose
        view is already managed loses its old item and leaves the box; the
        item goes right after the first item whose view is `target` (at the
        start when there is none); its view is inserted into the managed
        views after `target` (at the start when `target` is not managed),
        without the old entry being removed, and is placed at `z`, by
        default above `target`. A guide item only joins the items. */
    method InsertItemAfter(item: BoxItem, target: Option<ViewId>, z: Option<ZPosition>)
      modifies this, subviews
      ensures var rest := Pruned(old(items), item, old(managedViews));
        items == InsertAt(rest, AfterPosition(rest, target), item)
      ensures item.obj.View? ==>
        managedViews == InsertAt(old(managedViews), ViewAfterPosition(old(managedViews), target), item.obj.vid)
        && subviews.order == Placed(old(subviews.order), item.obj.vid, Some(if z.Some? then z.value else Above(target)))
      ensures item.obj.View? && item.obj.vid in old(managedViews) ==> !Distinct(managedViews)
      ensures item.obj.Guide? ==> managedViews == old(managedViews) && subviews.order == old(subviews.order)
      ensures item.obj.Guide? && item.obj.gid !in old(managedGuides) ==> !Synced()
      ensures unchanged(this`managedGuides, this`layoutGuides, this`managedConstraints)
      ensures Settings() == old(Settings()) && !isUpdatingItems && needsUpdateConstraints
    {
      ghost var order0 := subviews.order;
      isUpdatingItems := true;
      PruneManaged(item);
      InsertPruned(item, AfterPosition(items, target), ViewAfterPosition(managedViews, target),
                   if z.Some? then z.value else Above(target), order0);
      isUpdatingItems := false;
      needsUpdateConstraints := true;
    }

    /** What both `insertItem` forms do once the item is pruned: it joins
        the items at `p`, and a view item joins the managed views at `vp`
        and is placed in the box at `zv`. */
    method InsertPruned(item: BoxItem, p: nat, vp: nat, zv: ZPosition, ghost order0: seq<ViewId>)
      requires p <= |items| && vp <= |managedViews|
      requires item.obj.View? ==> Without(subviews.order, item.obj.vid) == Without(order0, item.obj.vid)
      modifies this, subviews
      ensures items == InsertAt(old(items), p, item)
      ensures item.obj.View? ==>
        managedViews == InsertAt(old(managedViews), vp, item.obj.vid)
        && subviews.order == Placed(order0, item.obj.vid, Some(zv))
      ensures item.obj.View? && item.obj.vid in old(managedViews) ==> !Distinct(managedViews)
      ensures item.obj.Guide? ==> managedViews == old(managedViews) && subviews.order == old(subviews.order)
      ensures item.obj.Guide? && item.obj.gid !in managedGuides ==> !Synced()
      ensures unchanged(this`managedGuides, this`layoutGuides, this`managedConstraints)
      ensures Settings() == old(Settings()) && isUpdatingItems == old(isUpdatingItems)
      ensures needsUpdateConstraints == old(needsUpdateConstraints)
    {
      InsertIntoItems(p, item);
      if item.obj.View? {
        PlacedByRest(subviews.order, order0, item.obj.vid, Some(zv));
        ManageInserted(item.obj.vid, vp, zv);
      }
    }

    /** `insertItem(_:before:z:)`: as `insertItem(_:after:z:)`, but the item
        goes at the first item whose view is `target` (at the end when there
        is none), its view into the managed views before `target` (at the end
        when `target` is not managed), by default below `target`. */
    method InsertItemBefore(item: BoxItem, target: Option<ViewId>, z: Option<ZPosition>)
      modifies this, subviews
      ensures var rest := Pruned(old(items), item, old(managedViews));
        items == InsertAt(rest, BeforePosition(rest, target), item)
      ensures item.obj.View? ==>
        managedViews == InsertAt(old(managedViews), ViewBeforePosition(old(managedViews), target), item.obj.vid)
        && subviews.order == Placed(old(subviews.order), item.obj.vid, Some(if z.Some? then z.value else Below(target)))
      ensures item.obj.View? && item.obj.vid in old(managedViews) ==> !Distinct(managedViews)
      ensures item.obj.Guide? ==> managedViews == old(managedViews) && subviews.order == old(subviews.order)
      ensures item.obj.Guide? && item.obj.gid !in old(managedGuides) ==> !Synced()
      ensures unchanged(this`managedGuides, this`layoutGuides, this`managedConstraints)
      ensures Settings() == old(Settings()) && !isUpdatingItems && needsUpdateConstraints
    {
      ghost var order0 := subviews.order;
      isUpdatingItems := true;
      PruneManaged(item);
      InsertPruned(item, BeforePosition(items, target), ViewBeforePosition(managedViews, target),
                   if z.Some? then z.value else Below(target), order0);
      isUpdatingItems := false;
      needsUpdateConstraints := true;
    }

    /** `setLayout(_:for:)`: the first item targeting the object gets the
        layout; the assignment runs the diff, and the constraints are marked
        for an update. Nothing happens when no item targets it. */
    method SetLayout(layout: BoxLayout, obj: Option<Obj>)
      modifies this, subviews
      ensures items == Current.WithLayout(old(items), obj, layout)
      ensures Current.IndexOfOpt(old(items), obj).None? ==> unchanged(this) && unchanged(subviews)
      ensures Current.IndexOfOpt(old(items), obj).Some? ==>
        needsUpdateConstraints && (!old(isUpdatingItems) ==> ItemsDiffed())
      ensures old(Synced()) ==> Synced()
      ensures isUpdatingItems == old(isUpdatingItems)
      ensures unchanged(this`managedConstraints) && Settings() == old(Settings())
    {
      if Current.IndexOfOpt(items, obj).Some? {
        Current.LayoutChangeKeepsObjects(items, obj, layout);
        ReplaceItems(Current.WithLayout(items, obj, layout));
      }
    }

    /** The end of `setLayout(_:for:)`: items targeting the same objects are
        assigned, and the constraints are marked for an update. */
    method ReplaceItems(newItems: seq<BoxItem>)
      requires ItemViews(newItems) == ItemViews(items) && ItemGuides(newItems) == ItemGuides(items)
      modifies this, subviews
      ensures items == newItems
      ensures needsUpdateConstraints && (!old(isUpdatingItems) ==> ItemsDiffed())
      ensures old(Synced()) ==> Synced()
      ensures isUpdatingItems == old(isUpdatingItems)
      ensures unchanged(this`managedConstraints) && Settings() == old(Settings())
    {
      SetItems(newItems);
      if isUpdatingItems {
        // otherwise the diff run by the assignment has already set it
        needsUpdateConstraints := true;
      }
    }

    /** `willRemoveSubview(_:)`: unless an item change is in progress, a
        managed view about to leave the box takes its first item with it,
        and the diff runs. */
    method WillRemoveSubview(v: ViewId)
      modifies this, subviews
      ensures !old(isUpdatingItems) && v in old(managedViews) && Current.IndexOfObject(old(items), Obj.View(v)).Some? ==>
        items == Current.WithoutFirst(old(items), Obj.View(v)) && ItemsDiffed() && Synced() && needsUpdateConstraints
      ensures !(!old(isUpdatingItems) && v in old(managedViews) && Current.IndexOfObject(old(items), Obj.View(v)).Some?) ==>
        unchanged(this) && unchanged(subviews)
      ensures isUpdatingItems == old(isUpdatingItems)
      ensures unchanged(this`managedConstraints) && Settings() == old(Settings())
    {
      if !isUpdatingItems && v in managedViews {
        if Current.IndexOfObject(items, Obj.View(v)).Some? {
          SetItems(Current.WithoutFirst(items, Obj.View(v)));
        }
      }
    }

    /** `updateConstraints()`: the old managed constraints are always
        deactivated and dropped, and new ones generated over every item:
        chain, fixed sizes, relative sizes and flex ratios, then all
        activated. `dir` is the layout direction UIKit resolves for the box. */
    method UpdateConstraints(act: ActiveConstraints, dir: LayoutDirection)
      modifies this, act
      ensures managedConstraints == Generated(Ctx(Obj.View(id), sca, dir, axis, spacing), insets, items, items)
      ensures act.active == (old(act.active) - Elems(old(managedConstraints))) + Elems(managedConstraints)
      ensures unchanged(this`items, this`managedViews, this`managedGuides, this`layoutGuides)
      ensures Settings() == old(Settings()) && isUpdatingItems == old(isUpdatingItems)
      ensures needsUpdateConstraints == old(needsUpdateConstraints)
    {
      act.Deactivate(managedConstraints);
      managedConstraints := [];
      var ctx := Ctx(Obj.View(id), sca, dir, axis, spacing);
      managedConstraints := CreateChainConstraints(act, ctx, items, Some(insets), managedConstraints);
      assert managedConstraints == Chain(ctx, insets, items);
      managedConstraints := CreateDimensions(items, managedConstraints);
      managedConstraints := CreateRelativeDimensions(Obj.View(id), items, managedConstraints);
      managedConstraints := CreateFlexDimensions(items, axis, managedConstraints);
      assert managedConstraints == Generated(ctx, insets, items, items);
      ChainActivatedGenerated(ctx, insets, items, items);
      act.Activate(managedConstraints);
    }

    /** The `axis` setter. */
    method SetAxis(value: Axis)
      modifies this
      ensures axis == value && needsUpdateConstraints
      ensures unchanged(this`items, this`managedViews, this`managedGuides, this`managedConstraints, this`layoutGuides)
      ensures unchanged(this`spacing, this`insets, this`sca, this`isUpdatingItems)
    {
      axis := value;
      needsUpdateConstraints := true;
    }

    /** The `spacing` setter. */
    method SetSpacing(value: real)
      modifies this
      ensures spacing == value && needsUpdateConstraints
      ensures unchanged(this`items, this`managedViews, this`managedGuides, this`managedConstraints, this`layoutGuides)
      ensures unchanged(this`axis, this`insets, this`sca, this`isUpdatingItems)
    {
      spacing := value;
      needsUpdateConstraints := true;
    }

    /** The `insets` setter, with the insets kept apart from the layout
        margins. */
    method SetInsets(value: Insets)
      modifies this
      ensures insets == value && needsUpdateConstraints
      ensures unchanged(this`items, this`managedViews, this`managedGuides, this`managedConstraints, this`layoutGuides)
      ensures unchanged(this`axis, this`spacing, this`sca, this`isUpdatingItems)
    {
      insets := value;
      needsUpdateConstraints := true;
    }

    /** The `semanticContentAttribute` setter: every assignment marks the
        constraints for an update. */
    method SetSemanticContentAttribute(value: SemanticContentAttribute)
      modifies this
      ensures sca == value && needsUpdateConstraints
      ensures unchanged(this`items, this`managedViews, this`managedGuides, this`managedConstraints, this`layoutGuides)
      ensures unchanged(this`axis, this`spacing, this`insets, this`isUpdatingItems)
    {
      sca := value;
      needsUpdateConstraints := true;
    }
  }
}
