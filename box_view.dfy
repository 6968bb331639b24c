/** The box view container of the current revision. It holds the items, keeps
    its managed views and guides equal to the items' objects, and regenerates
    its managed constraints from the items. Setting the items, or changing
    one of them, runs the managed-object diff unless a change is already in
    progress; a change to a layout parameter only marks the constraints for
    an update. */
module BoxView {
  import opened Types
  import opened Layout
  import opened Engine
  import opened BoxUtils
  import opened ManagedSets
  import opened ViewBoxItems

  /** `items.firstIndex(where: { $0.alObj === obj })` */
  function IndexOfObject(items: seq<BoxItem>, obj: Obj): (r: Option<nat>)
    ensures r.Some? ==> r.value < |items| && items[r.value].obj == obj
    ensures r.Some? ==> forall j :: 0 <= j < r.value ==> items[j].obj != obj
    ensures r.None? ==> forall j :: 0 <= j < |items| ==> items[j].obj != obj
    decreases |items|
  {
    if |items| == 0 then None
    else if items[0].obj == obj then Some(0)
    else
      match IndexOfObject(items[1..], obj)
      case None => None
      case Some(i) => Some(i + 1)
  }

  /** The same search for an optional object: nil is never found. */
  function IndexOfOpt(items: seq<BoxItem>, obj: Option<Obj>): (r: Option<nat>)
    ensures obj.None? ==> r.None?
    ensures obj.Some? ==> r == IndexOfObject(items, obj.value)
  {
    if obj.None? then None else IndexOfObject(items, obj.value)
  }

  /** `itemForObject(_:)`: the first item targeting the object. */
  function ItemForObject(items: seq<BoxItem>, obj: Obj): (r: Option<BoxItem>)
    ensures r.Some? <==> exists j :: 0 <= j < |items| && items[j].obj == obj
    ensures r.Some? ==> r.value.obj == obj && r.value == items[IndexOfObject(items, obj).value]
  {
    match IndexOfObject(items, obj)
    case None => None
    case Some(i) => Some(items[i])
  }

  /** `object as? UIView` */
  function AsView(target: Option<Obj>): (r: Option<ViewId>)
    ensures r.Some? <==> target.Some? && target.value.View?
    ensures r.Some? ==> target.value == Obj.View(r.value)
  {
    if target.Some? && target.value.View? then Some(target.value.vid) else None
  }

  /** The list without the first item targeting `obj` (unchanged when there
      is none). */
  function WithoutFirst(items: seq<BoxItem>, obj: Obj): (r: seq<BoxItem>)
    ensures IndexOfObject(items, obj).None? ==> r == items
    ensures IndexOfObject(items, obj).Some? ==>
      var i := IndexOfObject(items, obj).value;
      |r| == |items| - 1 && r[..i] == items[..i] && r[i..] == items[i + 1..]
  {
    match IndexOfObject(items, obj)
    case None => items
    case Some(i) => items[..i] + items[i + 1..]
  }

  /** The items of `insertItem(_:after:z:)`: the old item for the same object
      taken out, then the new one right after the first item targeting
      `object`, or first when no item does. */
  function InsertedAfter(items: seq<BoxItem>, item: BoxItem, target: Option<Obj>): (r: seq<BoxItem>)
    ensures var rest := WithoutFirst(items, item.obj);
      |r| == |rest| + 1
      && (IndexOfOpt(rest, target).None? ==> r[0] == item && r[1..] == rest)
      && (IndexOfOpt(rest, target).Some? ==>
            var j := IndexOfOpt(rest, target).value;
            r[j].obj == target.value && r[j + 1] == item && r[..j + 1] == rest[..j + 1] && r[j + 2..] == rest[j + 1..])
  {
    var rest := WithoutFirst(items, item.obj);
    var t := match IndexOfOpt(rest, target) case Some(j) => j + 1 case None => 0;
    rest[..t] + [item] + rest[t..]
  }

  /** The items of `insertItem(_:before:z:)`: the old item for the same
      object taken out, then the new one right before the first item
      targeting `object`, or last when no item does. */
  function InsertedBefore(items: seq<BoxItem>, item: BoxItem, target: Obj): (r: seq<BoxItem>)
    ensures var rest := WithoutFirst(items, item.obj);
      |r| == |rest| + 1
      && (IndexOfObject(rest, target).None? ==> r == rest + [item])
      && (IndexOfObject(rest, target).Some? ==>
            var j := IndexOfObject(rest, target).value;
            r[j] == item && r[j + 1].obj == target && r[..j] == rest[..j] && r[j + 1..] == rest[j..])
  {
    var rest := WithoutFirst(items, item.obj);
    match IndexOfObject(rest, target)
    case Some(j) => rest[..j] + [item] + rest[j..]
    case None => rest + [item]
  }

  /** Taking out the first item for an object, then inserting an item for it
      anywhere, leaves the item views and guides those of the old list plus
      the new item's. */
  lemma ReplacedItemObjects(items: seq<BoxItem>, item: BoxItem, t: nat, r: seq<BoxItem>)
    requires t <= |WithoutFirst(items, item.obj)|
    requires r == WithoutFirst(items, item.obj)[..t] + [item] + WithoutFirst(items, item.obj)[t..]
    ensures Elems(ItemViews(r)) == Elems(ItemViews(items)) + Elems(ObjView(item.obj))
    ensures Elems(ItemGuides(r)) == Elems(ItemGuides(items)) + Elems(ObjGuide(item.obj))
  {
    var rest := WithoutFirst(items, item.obj);
    InsertedItems(rest, t, item, r);
    if IndexOfObject(items, item.obj).Some? {
      var i := IndexOfObject(items, item.obj).value;
      assert rest == items[..i] + items[i + 1..];
      RemovedItem(items, i, rest);
    }
  }

  /** Both insertions add the new item's view or guide to the items' objects
      and leave the rest as it was. */
  lemma InsertedAfterObjects(items: seq<BoxItem>, item: BoxItem, after: Option<Obj>)
    ensures Elems(ItemViews(InsertedAfter(items, item, after))) == Elems(ItemViews(items)) + Elems(ObjView(item.obj))
    ensures Elems(ItemGuides(InsertedAfter(items, item, after))) == Elems(ItemGuides(items)) + Elems(ObjGuide(item.obj))
  {
    var rest := WithoutFirst(items, item.obj);
    var t := match IndexOfOpt(rest, after) case Some(j) => j + 1 case None => 0;
    ReplacedItemObjects(items, item, t, InsertedAfter(items, item, after));
  }

  lemma InsertedBeforeObjects(items: seq<BoxItem>, item: BoxItem, before: Obj)
    ensures Elems(ItemViews(InsertedBefore(items, item, before))) == Elems(ItemViews(items)) + Elems(ObjView(item.obj))
    ensures Elems(ItemGuides(InsertedBefore(items, item, before))) == Elems(ItemGuides(items)) + Elems(ObjGuide(item.obj))
  {
    var rest := WithoutFirst(items, item.obj);
    var t := match IndexOfObject(rest, before) case Some(j) => j case None => |rest|;
    assert rest[..|rest|] == rest && rest[|rest|..] == [];
    ReplacedItemObjects(items, item, t, InsertedBefore(items, item, before));
  }

  /** `items[index] = update(items[index])` at the first item targeting the
      object; nothing when no item does. */
  function Updated(items: seq<BoxItem>, obj: Option<Obj>, update: BoxItem -> BoxItem): (r: seq<BoxItem>)
    ensures |r| == |items|
    ensures IndexOfOpt(items, obj).None? ==> r == items
    ensures IndexOfOpt(items, obj).Some? ==>
      var i := IndexOfOpt(items, obj).value;
      r[i] == update(items[i]) && forall j :: 0 <= j < |r| && j != i ==> r[j] == items[j]
  {
    match IndexOfOpt(items, obj)
    case None => items
    case Some(i) => items[i := update(items[i])]
  }

  /** `setLayout(_:for:)` on the items: the first item targeting the object
      gets the layout, the others stay. */
  function WithLayout(items: seq<BoxItem>, obj: Option<Obj>, layout: BoxLayout): (r: seq<BoxItem>)
    ensures |r| == |items|
    ensures IndexOfOpt(items, obj).None? ==> r == items
    ensures IndexOfOpt(items, obj).Some? ==>
      var i := IndexOfOpt(items, obj).value;
      r[i].obj == items[i].obj && r[i].layout == layout && forall j :: 0 <= j < |r| && j != i ==> r[j] == items[j]
  {
    Updated(items, obj, (it: BoxItem) => it.(layout := layout))
  }

  /** Two lists whose items target the same objects, index by index, have
      the same item views and guides. */
  lemma {:induction false} SameObjects(a: seq<BoxItem>, b: seq<BoxItem>)
    requires |a| == |b| && forall i :: 0 <= i < |a| ==> a[i].obj == b[i].obj
    ensures ItemViews(a) == ItemViews(b) && ItemGuides(a) == ItemGuides(b)
    decreases |a|
  {
    if |a| > 0 {
      SameObjects(a[..|a| - 1], b[..|b| - 1]);
    }
  }

  /** Changing only the layout of an item leaves the item views and guides
      as they were. */
  lemma LayoutChangeKeepsObjects(items: seq<BoxItem>, obj: Option<Obj>, layout: BoxLayout)
    ensures ItemViews(WithLayout(items, obj, layout)) == ItemViews(items)
    ensures ItemGuides(WithLayout(items, obj, layout)) == ItemGuides(items)
  {
    SameObjects(WithLayout(items, obj, layout), items);
  }

  /** `optItems = newValue`: the non-nil entries, in order. */
  function Compact(opt: seq<Option<BoxItem>>): (r: seq<BoxItem>)
    ensures |r| <= |opt|
    ensures forall x :: x in r <==> Some(x) in opt
    decreases |opt|
  {
    if |opt| == 0 then []
    else
      var init := opt[..|opt| - 1];
      var last := opt[|opt| - 1];
      assert forall x :: Some(x) in opt <==> Some(x) in init || last == Some(x);
      Compact(init) + (if last.Some? then [last.value] else [])
  }

  /** A list without nil entries compacts to its values. */
  lemma {:induction false} CompactAllPresent(opt: seq<Option<BoxItem>>)
    requires forall i :: 0 <= i < |opt| ==> opt[i].Some?
    ensures |Compact(opt)| == |opt|
    ensures forall i :: 0 <= i < |opt| ==> Compact(opt)[i] == opt[i].value
    decreases |opt|
  {
    if |opt| > 0 {
      CompactAllPresent(opt[..|opt| - 1]);
    }
  }

  /** Whether an item's view is hidden: `$0.view?.isHidden ?? false`. */
  predicate IsHidden(item: BoxItem, hidden: set<ViewId>)
  {
    item.obj.View? && item.obj.vid in hidden
  }

  /** The items with hidden views dropped, in order; guide items stay. */
  function Visible(items: seq<BoxItem>, hidden: set<ViewId>): (r: seq<BoxItem>)
    ensures |r| <= |items|
    decreases |items|
  {
    if |items| == 0 then []
    else
      var last := items[|items| - 1];
      Visible(items[..|items| - 1], hidden) + (if IsHidden(last, hidden) then [] else [last])
  }

  /** The visible items are exactly the items whose view is not hidden. */
  lemma {:induction false} VisibleMeans(items: seq<BoxItem>, hidden: set<ViewId>)
    ensures forall x :: x in Visible(items, hidden) <==> x in items && !IsHidden(x, hidden)
    decreases |items|
  {
    if |items| > 0 {
      var init := items[..|items| - 1];
      VisibleMeans(init, hidden);
      assert items == init + [items[|items| - 1]];
    }
  }

  /** With no hidden item, nothing is dropped. */
  lemma {:induction false} NothingHidden(items: seq<BoxItem>, hidden: set<ViewId>)
    requires forall i :: 0 <= i < |items| ==> !IsHidden(items[i], hidden)
    ensures Visible(items, hidden) == items
    decreases |items|
  {
    if |items| > 0 {
      NothingHidden(items[..|items| - 1], hidden);
    }
  }

  /** The items `addItemsConstraints` lays out in the chain, relative and
      flex passes. */
  function UsedItems(items: seq<BoxItem>, excludeHiddenViews: bool, hidden: set<ViewId>): (r: seq<BoxItem>)
    ensures !excludeHiddenViews ==> r == items
    ensures forall x :: x in r <==> x in items && !(excludeHiddenViews && IsHidden(x, hidden))
  {
    VisibleMeans(items, hidden);
    if excludeHiddenViews then Visible(items, hidden) else items
  }

  /** The managed list and the item list of a box: the items' views, in the
      order the update keeps them. */
  class BoxView {
    const id: ViewId
    /** The box's own subview list, back to front. */
    const subviews: Subviews
    var axis: Axis
    var spacing: real
    var insets: Insets
    var sca: SemanticContentAttribute
    var excludeHiddenViews: bool
    var items: seq<BoxItem>
    var managedViews: seq<ViewId>
    var managedGuides: seq<GuideId>
    var managedConstraints: seq<Constraint>
    /** The layout guides added to the box. */
    var layoutGuides: set<GuideId>
    /** The views whose `isHidden` is observed (the keys of `observers`). */
    var observers: set<ViewId>
    var isUpdatingItems: bool
    var needsUpdateItems: bool
    /** Set by `setNeedsUpdateConstraints()`. */
    var needsUpdateConstraints: bool

    /** No managed view or guide occurs twice, only managed views are
        observed, and nothing is observed while hidden views count. */
    predicate Valid()
      reads this
    {
      Distinct(managedViews) && Distinct(managedGuides)
      && observers <= Elems(managedViews)
      && (!excludeHiddenViews ==> observers == {})
    }

    /** The managed views and guides are the items' views and guides. */
    predicate Synced()
      reads this
    {
      Elems(managedViews) == Elems(ItemViews(items)) && Elems(managedGuides) == Elems(ItemGuides(items))
    }

    /** The fields only their own setters change. */
    function Settings(): (Axis, real, Insets, SemanticContentAttribute, bool, bool)
      reads this
    {
      (axis, spacing, insets, sca, excludeHiddenViews, needsUpdateItems)
    }

    /** What `updateItemsViews` leaves, from the state before it and the
        observer set `obs0` it started from: the managed lists diffed against
        the items, dropped views out of the box and unobserved, new ones in
        it (and observed while hidden views count), dropped guides removed
        and new ones added. */
    twostate predicate ManagedDiffed(obs0: set<ViewId>)
      reads this, subviews
    {
      var iv, ig := ItemViews(items), ItemGuides(items);
      managedViews == Diffed(old(managedViews), iv)
      && managedGuides == Diffed(old(managedGuides), ig)
      && observers == (if excludeHiddenViews then (obs0 - Gone(old(managedViews), iv)) + (Elems(iv) - Elems(old(managedViews)))
                       else obs0)
      && Elems(subviews.order) == (Elems(old(subviews.order)) - Gone(old(managedViews), iv)) + (Elems(iv) - Elems(old(managedViews)))
      && layoutGuides == (old(layoutGuides) - Gone(old(managedGuides), ig)) + (Elems(ig) - Elems(old(managedGuides)))
    }

    /** What both `insertItem` forms do to the managed objects: a view item
        becomes managed (and observed while hidden views count) unless it
        already is, and is put at `z` in the box; a guide item becomes
        managed unless it already is, and is added to the box. */
    twostate predicate ObjectManaged(item: BoxItem, z: ZPosition)
      reads this, subviews
    {
      managedViews == (if item.obj.View? && item.obj.vid !in old(managedViews) then old(managedViews) + [item.obj.vid] else old(managedViews))
      && managedGuides == (if item.obj.Guide? && item.obj.gid !in old(managedGuides) then old(managedGuides) + [item.obj.gid] else old(managedGuides))
      && observers == (if excludeHiddenViews && item.obj.View? && item.obj.vid !in old(managedViews) then old(observers) + {item.obj.vid} else old(observers))
      && (item.obj.View? ==> subviews.order == Placed(old(subviews.order), item.obj.vid, Some(z)) && layoutGuides == old(layoutGuides))
      && (item.obj.Guide? ==> subviews.order == old(subviews.order) && layoutGuides == old(layoutGuides) + {item.obj.gid})
    }

    /** Nothing the diff touches has changed. */
    twostate predicate ManagedUnchanged()
      reads this, subviews
    {
      managedViews == old(managedViews) && managedGuides == old(managedGuides)
      && observers == old(observers) && subviews.order == old(subviews.order)
      && layoutGuides == old(layoutGuides)
    }

    /** `init(axis:spacing:insets:)` */
    constructor (id: ViewId, axis: Axis, spacing: real, insets: Insets)
      ensures this.id == id && this.axis == axis && this.spacing == spacing && this.insets == insets
      ensures sca == Unspecified && !excludeHiddenViews
      ensures items == [] && managedViews == [] && managedGuides == [] && managedConstraints == []
      ensures layoutGuides == {} && observers == {}
      ensures !isUpdatingItems && needsUpdateItems && !needsUpdateConstraints
      ensures fresh(subviews) && subviews.order == []
      ensures Valid() && Synced()
    {
      this.id := id;
      this.axis := axis;
      this.spacing := spacing;
      this.insets := insets;
      sca := Unspecified;
      excludeHiddenViews := false;
      items := [];
      managedViews := [];
      managedGuides := [];
      managedConstraints := [];
      layoutGuides := {};
      observers := {};
      isUpdatingItems := false;
      needsUpdateItems := true;
      needsUpdateConstraints := false;
      subviews := new Subviews([]);
    }

    /** `configureManagedView(_:)`: the view is observed while hidden views
        count. */
    method ConfigureManagedView(v: ViewId)
      modifies this
      ensures observers == if excludeHiddenViews then old(observers) + {v} else old(observers)
      ensures unchanged(this`items, this`managedViews, this`managedGuides, this`managedConstraints, this`layoutGuides)
      ensures Settings() == old(Settings()) && isUpdatingItems == old(isUpdatingItems)
      ensures needsUpdateConstraints == old(needsUpdateConstraints)
    {
      if excludeHiddenViews {
        observers := observers + {v};
      }
    }

    /** `addManagedView(_:)`: configured, added on top of the box, appended. */
    method AddManagedView(v: ViewId)
      modifies this, subviews
      ensures managedViews == old(managedViews) + [v]
      ensures observers == if excludeHiddenViews then old(observers) + {v} else old(observers)
      ensures subviews.order == OnTop(old(subviews.order), v)
      ensures unchanged(this`items, this`managedGuides, this`managedConstraints, this`layoutGuides)
      ensures Settings() == old(Settings()) && isUpdatingItems == old(isUpdatingItems)
      ensures needsUpdateConstraints == old(needsUpdateConstraints)
    {
      ConfigureManagedView(v);
      subviews.Add(v);
      managedViews := managedViews + [v];
    }

    /** `removeManagedView(at:)`: unobserved while hidden views count, taken
        out of the box when it is still a subview, and out of the list. */
    method RemoveManagedViewAt(ind: nat)
      requires ind < |managedViews|
      modifies this, subviews
      ensures managedViews == old(managedViews[..ind] + managedViews[ind + 1..])
      ensures observers == if excludeHiddenViews then old(observers) - {old(managedViews[ind])} else old(observers)
      ensures subviews.order == Without(old(subviews.order), old(managedViews[ind]))
      ensures unchanged(this`items, this`managedGuides, this`managedConstraints, this`layoutGuides)
      ensures Settings() == old(Settings()) && isUpdatingItems == old(isUpdatingItems)
      ensures needsUpdateConstraints == old(needsUpdateConstraints)
    {
      var v := managedViews[ind];
      if excludeHiddenViews {
        observers := observers - {v};
      }
      if v in subviews.order {
        subviews.Remove(v);
      } else {
        WithoutAbsent(subviews.order, v);
      }
      managedViews := managedViews[..ind] + managedViews[ind + 1..];
    }

    /** `addManagedGuide(_:)` */
    method AddManagedGuide(g: GuideId)
      modifies this
      ensures managedGuides == old(managedGuides) + [g]
      ensures layoutGuides == old(layoutGuides) + {g}
      ensures unchanged(this`items, this`managedViews, this`managedConstraints, this`observers)
      ensures Settings() == old(Settings()) && isUpdatingItems == old(isUpdatingItems)
      ensures needsUpdateConstraints == old(needsUpdateConstraints)
    {
      managedGuides := managedGuides + [g];
      layoutGuides := layoutGuides + {g};
    }

    /** `removeManagedGuide(at:)` */
    method RemoveManagedGuideAt(ind: nat)
      requires ind < |managedGuides|
      modifies this
      ensures managedGuides == old(managedGuides[..ind] + managedGuides[ind + 1..])
      ensures layoutGuides == old(layoutGuides) - {old(managedGuides[ind])}
      ensures unchanged(this`items, this`managedViews, this`managedConstraints, this`observers)
      ensures Settings() == old(Settings()) && isUpdatingItems == old(isUpdatingItems)
      ensures needsUpdateConstraints == old(needsUpdateConstraints)
    {
      layoutGuides := layoutGuides - {managedGuides[ind]};
      managedGuides := managedGuides[..ind] + managedGuides[ind + 1..];
    }

    /** `removeManagedGuide(_:)`: the first entry for the guide goes, and the
        guide leaves the box either way. */
    method RemoveManagedGuide(g: GuideId)
      modifies this
      ensures g in old(managedGuides) ==>
        var i := IndexOf(old(managedGuides), g); managedGuides == old(managedGuides[..i] + managedGuides[i + 1..])
      ensures g !in old(managedGuides) ==> managedGuides == old(managedGuides)
      ensures Distinct(old(managedGuides)) ==> managedGuides == Without(old(managedGuides), g)
      ensures layoutGuides == old(layoutGuides) - {g}
      ensures unchanged(this`items, this`managedViews, this`managedConstraints, this`observers)
      ensures Settings() == old(Settings()) && isUpdatingItems == old(isUpdatingItems)
      ensures needsUpdateConstraints == old(needsUpdateConstraints)
    {
      if g in managedGuides {
        var ind := IndexOf(managedGuides, g);
        FirstRemoved(managedGuides, ind);
        managedGuides := managedGuides[..ind] + managedGuides[ind + 1..];
      } else {
        WithoutAbsent(managedGuides, g);
      }
      layoutGuides := layoutGuides - {g};
    }

    /** The first loop pair of `updateItemsViews` for views: the indices of
        managed views no item holds are collected, then removed from the
        highest down. */
    method RemoveDroppedViews(itemViews: seq<ViewId>)
      modifies this, subviews
      ensures managedViews == KeepIn(old(managedViews), itemViews)
      ensures observers == if excludeHiddenViews then old(observers) - Gone(old(managedViews), itemViews) else old(observers)
      ensures Elems(subviews.order) == Elems(old(subviews.order)) - Gone(old(managedViews), itemViews)
      ensures Gone(old(managedViews), itemViews) == {} ==> subviews.order == old(subviews.order)
      ensures unchanged(this`items, this`managedGuides, this`managedConstraints, this`layoutGuides)
      ensures Settings() == old(Settings()) && isUpdatingItems == old(isUpdatingItems)
      ensures needsUpdateConstraints == old(needsUpdateConstraints)
    {
      ghost var ms0, obs0, sub0 := managedViews, observers, subviews.order;
      var r := CollectDropped(managedViews, itemViews);
      var k := |r|;
      RemovalStart(ms0, itemViews);
      GoneFromEnd(ms0, r);
      while k > 0
        invariant 0 <= k <= |r| && r == Dropped(ms0, itemViews)
        invariant managedViews == RemovedFrom(ms0, itemViews, k)
        invariant observers == if excludeHiddenViews then obs0 - GoneFrom(ms0, r, k) else obs0
        invariant Elems(subviews.order) == Elems(sub0) - GoneFrom(ms0, r, k)
        invariant |r| == 0 ==> subviews.order == sub0
        invariant unchanged(this`items, this`managedGuides, this`managedConstraints, this`layoutGuides)
        invariant Settings() == old(Settings()) && isUpdatingItems == old(isUpdatingItems)
        invariant needsUpdateConstraints == old(needsUpdateConstraints)
        decreases k
      {
        RemoveDroppedView(ms0, itemViews, r, k, obs0, sub0);
        k := k - 1;
      }
      GoneFromStart(ms0, itemViews);
      RemovalDone(ms0, itemViews);
      DroppedNone(ms0, itemViews);
    }

    /** One turn of the removal loop for views: the `k`-th dropped index
        from the end goes. */
    method RemoveDroppedView(ghost ms0: seq<ViewId>, itemViews: seq<ViewId>, r: seq<nat>, k: nat,
                             ghost obs0: set<ViewId>, ghost sub0: seq<ViewId>)
      requires r == Dropped(ms0, itemViews) && 0 < k <= |r|
      requires managedViews == RemovedFrom(ms0, itemViews, k)
      requires observers == if excludeHiddenViews then obs0 - GoneFrom(ms0, r, k) else obs0
      requires Elems(subviews.order) == Elems(sub0) - GoneFrom(ms0, r, k)
      modifies this, subviews
      ensures managedViews == RemovedFrom(ms0, itemViews, k - 1)
      ensures observers == if excludeHiddenViews then obs0 - GoneFrom(ms0, r, k - 1) else obs0
      ensures Elems(subviews.order) == Elems(sub0) - GoneFrom(ms0, r, k - 1)
      ensures unchanged(this`items, this`managedGuides, this`managedConstraints, this`layoutGuides)
      ensures Settings() == old(Settings()) && isUpdatingItems == old(isUpdatingItems)
      ensures needsUpdateConstraints == old(needsUpdateConstraints)
    {
      RemovalStep(ms0, itemViews, k);
      GoneFromStep(ms0, r, k);
      var idx := r[k - 1];
      WithoutElems(subviews.order, managedViews[idx]);
      RemoveManagedViewAt(idx);
    }

    /** The second loop of `updateItemsViews` for views: every item view not
        yet managed is added, in item order. */
    method AddMissingViews(itemViews: seq<ViewId>)
      modifies this, subviews
      ensures managedViews == AppendMissing(old(managedViews), itemViews)
      ensures observers == if excludeHiddenViews then old(observers) + (Elems(itemViews) - Elems(old(managedViews))) else old(observers)
      ensures Elems(subviews.order) == Elems(old(subviews.order)) + (Elems(itemViews) - Elems(old(managedViews)))
      ensures Elems(itemViews) <= Elems(old(managedViews)) ==> subviews.order == old(subviews.order)
      ensures unchanged(this`items, this`managedGuides, this`managedConstraints, this`layoutGuides)
      ensures Settings() == old(Settings()) && isUpdatingItems == old(isUpdatingItems)
      ensures needsUpdateConstraints == old(needsUpdateConstraints)
    {
      ghost var ms1, obs1, sub1 := managedViews, observers, subviews.order;
      for i := 0 to |itemViews|
        invariant managedViews == AppendMissing(ms1, itemViews[..i])
        invariant observers == if excludeHiddenViews then obs1 + (Elems(itemViews[..i]) - Elems(ms1)) else obs1
        invariant Elems(subviews.order) == Elems(sub1) + (Elems(itemViews[..i]) - Elems(ms1))
        invariant |managedViews| == |ms1| ==> subviews.order == sub1
        invariant unchanged(this`items, this`managedGuides, this`managedConstraints, this`layoutGuides)
        invariant Settings() == old(Settings()) && isUpdatingItems == old(isUpdatingItems)
        invariant needsUpdateConstraints == old(needsUpdateConstraints)
      {
        AddMissingView(ms1, itemViews, i, obs1, sub1);
      }
      assert itemViews[..|itemViews|] == itemViews;
      if Elems(itemViews) <= Elems(ms1) {
        assert forall j :: 0 <= j < |itemViews| ==> itemViews[j] in Elems(itemViews);
        AppendNothingMissing(ms1, itemViews);
      }
    }

    /** One turn of the adding loop for views: the `i`-th item view joins
        when it is not yet managed. */
    method AddMissingView(ghost ms1: seq<ViewId>, itemViews: seq<ViewId>, i: nat,
                          ghost obs1: set<ViewId>, ghost sub1: seq<ViewId>)
      requires i < |itemViews|
      requires managedViews == AppendMissing(ms1, itemViews[..i])
      requires observers == if excludeHiddenViews then obs1 + (Elems(itemViews[..i]) - Elems(ms1)) else obs1
      requires Elems(subviews.order) == Elems(sub1) + (Elems(itemViews[..i]) - Elems(ms1))
      requires |managedViews| == |ms1| ==> subviews.order == sub1
      modifies this, subviews
      ensures managedViews == AppendMissing(ms1, itemViews[..i + 1])
      ensures observers == if excludeHiddenViews then obs1 + (Elems(itemViews[..i + 1]) - Elems(ms1)) else obs1
      ensures Elems(subviews.order) == Elems(sub1) + (Elems(itemViews[..i + 1]) - Elems(ms1))
      ensures |managedViews| == |ms1| ==> subviews.order == sub1
      ensures unchanged(this`items, this`managedGuides, this`managedConstraints, this`layoutGuides)
      ensures Settings() == old(Settings()) && isUpdatingItems == old(isUpdatingItems)
      ensures needsUpdateConstraints == old(needsUpdateConstraints)
    {
      var v := itemViews[i];
      assert itemViews[..i + 1][..i] == itemViews[..i];
      ElemsAppend(itemViews[..i], [v]);
      AppendMissingMeans(ms1, itemViews[..i]);
      if v !in managedViews {
        PlacedKeepsOthers(subviews.order, v, None);
        AddManagedView(v);
      }
    }

    /** The loops of `updateItemsViews` that drop guides no item holds. */
    method RemoveDroppedGuides(itemGuides: seq<GuideId>)
      modifies this
      ensures managedGuides == KeepIn(old(managedGuides), itemGuides)
      ensures layoutGuides == old(layoutGuides) - Gone(old(managedGuides), itemGuides)
      ensures unchanged(this`items, this`managedViews, this`managedConstraints, this`observers)
      ensures Settings() == old(Settings()) && isUpdatingItems == old(isUpdatingItems)
      ensures needsUpdateConstraints == old(needsUpdateConstraints)
    {
      ghost var ms0, lg0 := managedGuides, layoutGuides;
      var r := CollectDropped(managedGuides, itemGuides);
      var k := |r|;
      RemovalStart(ms0, itemGuides);
      GoneFromEnd(ms0, r);
      while k > 0
        invariant 0 <= k <= |r| && r == Dropped(ms0, itemGuides)
        invariant managedGuides == RemovedFrom(ms0, itemGuides, k)
        invariant layoutGuides == lg0 - GoneFrom(ms0, r, k)
        invariant unchanged(this`items, this`managedViews, this`managedConstraints, this`observers)
        invariant Settings() == old(Settings()) && isUpdatingItems == old(isUpdatingItems)
        invariant needsUpdateConstraints == old(needsUpdateConstraints)
        decreases k
      {
        RemoveDroppedGuide(ms0, itemGuides, r, k, lg0);
        k := k - 1;
      }
      GoneFromStart(ms0, itemGuides);
      RemovalDone(ms0, itemGuides);
    }

    /** One turn of the removal loop for guides. */
    method RemoveDroppedGuide(ghost ms0: seq<GuideId>, itemGuides: seq<GuideId>, r: seq<nat>, k: nat,
                              ghost lg0: set<GuideId>)
      requires r == Dropped(ms0, itemGuides) && 0 < k <= |r|
      requires managedGuides == RemovedFrom(ms0, itemGuides, k)
      requires layoutGuides == lg0 - GoneFrom(ms0, r, k)
      modifies this
      ensures managedGuides == RemovedFrom(ms0, itemGuides, k - 1)
      ensures layoutGuides == lg0 - GoneFrom(ms0, r, k - 1)
      ensures unchanged(this`items, this`managedViews, this`managedConstraints, this`observers)
      ensures Settings() == old(Settings()) && isUpdatingItems == old(isUpdatingItems)
      ensures needsUpdateConstraints == old(needsUpdateConstraints)
    {
      RemovalStep(ms0, itemGuides, k);
      GoneFromStep(ms0, r, k);
      RemoveManagedGuideAt(r[k - 1]);
    }

    /** The loop of `updateItemsViews` that adds every item guide not yet
        managed, in item order. */
    method AddMissingGuides(itemGuides: seq<GuideId>)
      modifies this
      ensures managedGuides == AppendMissing(old(managedGuides), itemGuides)
      ensures layoutGuides == old(layoutGuides) + (Elems(itemGuides) - Elems(old(managedGuides)))
      ensures unchanged(this`items, this`managedViews, this`managedConstraints, this`observers)
      ensures Settings() == old(Settings()) && isUpdatingItems == old(isUpdatingItems)
      ensures needsUpdateConstraints == old(needsUpdateConstraints)
    {
      ghost var ms1 := managedGuides;
      for i := 0 to |itemGuides|
        invariant managedGuides == AppendMissing(ms1, itemGuides[..i])
        invariant layoutGuides == old(layoutGuides) + (Elems(itemGuides[..i]) - Elems(ms1))
        invariant unchanged(this`items, this`managedViews, this`managedConstraints, this`observers)
        invariant Settings() == old(Settings()) && isUpdatingItems == old(isUpdatingItems)
        invariant needsUpdateConstraints == old(needsUpdateConstraints)
      {
        AddMissingGuide(ms1, old(layoutGuides), itemGuides, i);
      }
      assert itemGuides[..|itemGuides|] == itemGuides;
    }

    /** One turn of the adding loop for guides: the `i`-th item guide joins
        when it is not yet managed. */
    method AddMissingGuide(ghost ms1: seq<GuideId>, ghost lg1: set<GuideId>, itemGuides: seq<GuideId>, i: nat)
      requires i < |itemGuides|
      requires managedGuides == AppendMissing(ms1, itemGuides[..i])
      requires layoutGuides == lg1 + (Elems(itemGuides[..i]) - Elems(ms1))
      modifies this
      ensures managedGuides == AppendMissing(ms1, itemGuides[..i + 1])
      ensures layoutGuides == lg1 + (Elems(itemGuides[..i + 1]) - Elems(ms1))
      ensures unchanged(this`items, this`managedViews, this`managedConstraints, this`observers)
      ensures Settings() == old(Settings()) && isUpdatingItems == old(isUpdatingItems)
      ensures needsUpdateConstraints == old(needsUpdateConstraints)
    {
      var g := itemGuides[i];
      assert itemGuides[..i + 1][..i] == itemGuides[..i];
      ElemsAppend(itemGuides[..i], [g]);
      AppendMissingMeans(ms1, itemGuides[..i]);
      if g !in managedGuides {
        AddManagedGuide(g);
      }
    }

    /** The view half of `updateItemsViews`. */
    method SyncViews()
      requires Valid()
      modifies this, subviews
      ensures var iv := ItemViews(items);
        managedViews == Diffed(old(managedViews), iv)
        && observers == (if excludeHiddenViews then (old(observers) - Gone(old(managedViews), iv)) + (Elems(iv) - Elems(old(managedViews)))
                         else old(observers))
        && Elems(subviews.order) == (Elems(old(subviews.order)) - Gone(old(managedViews), iv)) + (Elems(iv) - Elems(old(managedViews)))
      ensures Elems(old(managedViews)) == Elems(ItemViews(items)) ==>
        managedViews == old(managedViews) && observers == old(observers) && subviews.order == old(subviews.order)
      ensures Valid() && Elems(managedViews) == Elems(ItemViews(items))
      ensures unchanged(this`items, this`managedGuides, this`managedConstraints, this`layoutGuides)
      ensures Settings() == old(Settings()) && isUpdatingItems == old(isUpdatingItems)
      ensures needsUpdateConstraints == old(needsUpdateConstraints)
    {
      var itemViews := ItemViews(items);
      ghost var ms0, obs0, sub0 := managedViews, observers, subviews.order;
      RemoveDroppedViews(itemViews);
      KeptMissing(ms0, itemViews);
      AddMissingViews(itemViews);
      assert managedViews == Diffed(ms0, itemViews);
      DiffedExact(ms0, itemViews);
      KeepInMeans(ms0, itemViews);
      assert Elems(ms0) == Elems(itemViews) ==> managedViews == ms0 && observers == obs0 && subviews.order == sub0 by {
        if Elems(ms0) == Elems(itemViews) {
          DiffedNoChange(ms0, itemViews);
          assert Gone(ms0, itemViews) == {};
        }
      }
    }

    /** The guide half of `updateItemsViews`. */
    method SyncGuides()
      requires Valid()
      modifies this
      ensures var ig := ItemGuides(items);
        managedGuides == Diffed(old(managedGuides), ig)
        && layoutGuides == (old(layoutGuides) - Gone(old(managedGuides), ig)) + (Elems(ig) - Elems(old(managedGuides)))
      ensures Elems(old(managedGuides)) == Elems(ItemGuides(items)) ==>
        managedGuides == old(managedGuides) && layoutGuides == old(layoutGuides)
      ensures Valid() && Elems(managedGuides) == Elems(ItemGuides(items))
      ensures unchanged(this`items, this`managedViews, this`managedConstraints, this`observers)
      ensures Settings() == old(Settings()) && isUpdatingItems == old(isUpdatingItems)
      ensures needsUpdateConstraints == old(needsUpdateConstraints)
    {
      var itemGuides := ItemGuides(items);
      ghost var ms0, lg0 := managedGuides, layoutGuides;
      RemoveDroppedGuides(itemGuides);
      KeptMissing(ms0, itemGuides);
      AddMissingGuides(itemGuides);
      assert managedGuides == Diffed(ms0, itemGuides);
      DiffedExact(ms0, itemGuides);
      assert Elems(ms0) == Elems(itemGuides) ==> managedGuides == ms0 && layoutGuides == lg0 by {
        if Elems(ms0) == Elems(itemGuides) {
          DiffedNoChange(ms0, itemGuides);
          KeepInMeans(ms0, itemGuides);
          assert Gone(ms0, itemGuides) == {};
        }
      }
    }

    /** `updateItemsViews()`: nothing while an item change is in progress;
        otherwise the managed views and guides are diffed against the items
        and the constraints are marked for an update. A box whose managed
        objects already match its items keeps them, and its subviews, as
        they are. */
    method UpdateItemsViews()
      requires Valid()
      modifies this, subviews
      ensures old(isUpdatingItems) ==> unchanged(this) && unchanged(subviews)
      ensures !old(isUpdatingItems) ==> ManagedDiffed(old(observers)) && needsUpdateConstraints
      ensures !isUpdatingItems == !old(isUpdatingItems)
      ensures Valid() && (!old(isUpdatingItems) ==> Synced())
      ensures old(Synced()) ==> ManagedUnchanged()
      ensures unchanged(this`items, this`managedConstraints)
      ensures Settings() == old(Settings())
    {
      if isUpdatingItems {
        return;
      }
      isUpdatingItems := true;
      SyncViews();
      SyncGuides();
      isUpdatingItems := false;
      needsUpdateConstraints := true;
    }

    /** The shared body of both `insertItem` forms, given the new item
        list: with the update flag set (so the two `items` changes on the
        way run no diff), the list is replaced, the item's view or guide
        becomes managed, and the constraints are marked for an update. */
    method InsertItemInto(newItems: seq<BoxItem>, item: BoxItem, z: ZPosition)
      requires Valid()
      requires Elems(ItemViews(newItems)) == Elems(ItemViews(items)) + Elems(ObjView(item.obj))
      requires Elems(ItemGuides(newItems)) == Elems(ItemGuides(items)) + Elems(ObjGuide(item.obj))
      modifies this, subviews
      ensures items == newItems
      ensures ObjectManaged(item, z)
      ensures Valid() && (old(Synced()) ==> Synced())
      ensures !isUpdatingItems && needsUpdateConstraints
      ensures unchanged(this`managedConstraints) && Settings() == old(Settings())
    {
      match item.obj {
        case View(v) =>
          InsertViewItem(newItems, v, z);
        case Guide(g) =>
          InsertGuideItem(newItems, g);
      }
    }

    /** `insertItem` of a view item: the view becomes managed unless it
        already is, and is put at `z` in the box. */
    method InsertViewItem(newItems: seq<BoxItem>, v: ViewId, z: ZPosition)
      requires Valid()
      requires Elems(ItemViews(newItems)) == Elems(ItemViews(items)) + {v}
      requires Elems(ItemGuides(newItems)) == Elems(ItemGuides(items))
      modifies this, subviews
      ensures items == newItems
      ensures managedViews == if v !in old(managedViews) then old(managedViews) + [v] else old(managedViews)
      ensures observers == if excludeHiddenViews && v !in old(managedViews) then old(observers) + {v} else old(observers)
      ensures subviews.order == Placed(old(subviews.order), v, Some(z))
      ensures unchanged(this`managedGuides, this`layoutGuides, this`managedConstraints)
      ensures Valid() && (old(Synced()) ==> Synced())
      ensures !isUpdatingItems && needsUpdateConstraints && Settings() == old(Settings())
    {
      isUpdatingItems := true;
      items := newItems;
      ManageView(v, z);
      isUpdatingItems := false;
      needsUpdateConstraints := true;
    }

    /** `insertItem` of a guide item: the guide becomes managed unless it
        already is, and is added to the box. */
    method InsertGuideItem(newItems: seq<BoxItem>, g: GuideId)
      requires Valid()
      requires Elems(ItemViews(newItems)) == Elems(ItemViews(items))
      requires Elems(ItemGuides(newItems)) == Elems(ItemGuides(items)) + {g}
      modifies this
      ensures items == newItems
      ensures managedGuides == if g !in old(managedGuides) then old(managedGuides) + [g] else old(managedGuides)
      ensures layoutGuides == old(layoutGuides) + {g}
      ensures unchanged(this`managedViews, this`observers, this`managedConstraints)
      ensures Valid() && (old(Synced()) ==> Synced())
      ensures !isUpdatingItems && needsUpdateConstraints && Settings() == old(Settings())
    {
      isUpdatingItems := true;
      items := newItems;
      ManageGuide(g);
      isUpdatingItems := false;
      needsUpdateConstraints := true;
    }

    /** The view branch of `insertItem`. */
    method ManageView(v: ViewId, z: ZPosition)
      requires Valid()
      modifies this, subviews
      ensures managedViews == if v !in old(managedViews) then old(managedViews) + [v] else old(managedViews)
      ensures observers == if excludeHiddenViews && v !in old(managedViews) then old(observers) + {v} else old(observers)
      ensures subviews.order == Placed(old(subviews.order), v, Some(z))
      ensures Elems(managedViews) == Elems(old(managedViews)) + {v}
      ensures Valid()
      ensures unchanged(this`items, this`managedGuides, this`managedConstraints, this`layoutGuides)
      ensures Settings() == old(Settings()) && isUpdatingItems == old(isUpdatingItems)
      ensures needsUpdateConstraints == old(needsUpdateConstraints)
    {
      if v !in managedViews {
        ConfigureManagedView(v);
        ElemsAppend(managedViews, [v]);
        managedViews := managedViews + [v];
      }
      subviews.InsertSubview(v, Some(z));
    }

    /** The guide branch of `insertItem`. */
    method ManageGuide(g: GuideId)
      requires Valid()
      modifies this
      ensures managedGuides == if g !in old(managedGuides) then old(managedGuides) + [g] else old(managedGuides)
      ensures layoutGuides == old(layoutGuides) + {g}
      ensures Elems(managedGuides) == Elems(old(managedGuides)) + {g}
      ensures Valid()
      ensures unchanged(this`items, this`managedViews, this`managedConstraints, this`observers)
      ensures Settings() == old(Settings()) && isUpdatingItems == old(isUpdatingItems)
      ensures needsUpdateConstraints == old(needsUpdateConstraints)
    {
      if g !in managedGuides {
        ElemsAppend(managedGuides, [g]);
        managedGuides := managedGuides + [g];
      }
      layoutGuides := layoutGuides + {g};
    }

    /** `insertItem(_:after:z:)`: the item goes right after the first item
        targeting `target` (first when there is none), replacing an earlier
        item for the same object; its view or guide becomes managed, a view
        at `z` or else just above the target view. */
    method InsertItemAfter(item: BoxItem, target: Option<Obj>, z: Option<ZPosition>)
      requires Valid()
      modifies this, subviews
      ensures items == InsertedAfter(old(items), item, target)
      ensures ObjectManaged(item, if z.Some? then z.value else Above(AsView(target)))
      ensures Valid() && (old(Synced()) ==> Synced())
      ensures !isUpdatingItems && needsUpdateConstraints
      ensures unchanged(this`managedConstraints) && Settings() == old(Settings())
    {
      InsertedAfterObjects(items, item, target);
      InsertItemInto(InsertedAfter(items, item, target), item, if z.Some? then z.value else Above(AsView(target)));
    }

    /** `insertItem(_:before:z:)`: the item goes right before the first item
        targeting `target` (last when there is none), replacing an earlier
        item for the same object; its view or guide becomes managed, a view
        at `z` or else just below the target view. */
    method InsertItemBefore(item: BoxItem, target: Obj, z: Option<ZPosition>)
      requires Valid()
      modifies this, subviews
      ensures items == InsertedBefore(old(items), item, target)
      ensures ObjectManaged(item, if z.Some? then z.value else Below(AsView(Some(target))))
      ensures Valid() && (old(Synced()) ==> Synced())
      ensures !isUpdatingItems && needsUpdateConstraints
      ensures unchanged(this`managedConstraints) && Settings() == old(Settings())
    {
      InsertedBeforeObjects(items, item, target);
      InsertItemInto(InsertedBefore(items, item, target), item, if z.Some? then z.value else Below(AsView(Some(target))));
    }

    /** `setLayout(_:for:)`: the first item targeting the object gets the
        layout, which runs the diff (a no-op on a synced box, since no item
        changes its object) and marks the constraints for an update; no
        change when no item targets it. */
    method SetLayout(layout: BoxLayout, obj: Option<Obj>)
      requires Valid()
      modifies this, subviews
      ensures items == WithLayout(old(items), obj, layout)
      ensures IndexOfOpt(old(items), obj).None? ==> unchanged(this) && unchanged(subviews)
      ensures IndexOfOpt(old(items), obj).Some? ==> needsUpdateConstraints
      ensures IndexOfOpt(old(items), obj).Some? && !old(isUpdatingItems) ==> ManagedDiffed(old(observers))
      ensures old(Synced()) ==> ManagedUnchanged() && Synced()
      ensures Valid() && isUpdatingItems == old(isUpdatingItems)
      ensures unchanged(this`managedConstraints) && Settings() == old(Settings())
    {
      var index := IndexOfOpt(items, obj);
      if index.Some? {
        LayoutChangeKeepsObjects(items, obj, layout);
        items := WithLayout(items, obj, layout);
        UpdateItemsViews();
        needsUpdateConstraints := true;
      }
    }

    /** `updateItemForObject(_:update:)`: the first item targeting the object
        is replaced by `update` of it, which runs the diff; no change when no
        item targets it. */
    method UpdateItemForObject(obj: Obj, update: BoxItem -> BoxItem)
      requires Valid()
      modifies this, subviews
      ensures items == Updated(old(items), Some(obj), update)
      ensures IndexOfObject(old(items), obj).None? ==> unchanged(this) && unchanged(subviews)
      ensures IndexOfObject(old(items), obj).Some? && !old(isUpdatingItems) ==> ManagedDiffed(old(observers)) && Synced() && needsUpdateConstraints
      ensures Valid() && isUpdatingItems == old(isUpdatingItems)
      ensures unchanged(this`managedConstraints) && Settings() == old(Settings())
    {
      var index := IndexOfObject(items, obj);
      if index.Some? {
        items := Updated(items, Some(obj), update);
        UpdateItemsViews();
      }
    }

    /** `willRemoveSubview(_:)` for a subview removed from outside: unless an
        item change is in progress, a managed view is unobserved and the
        first item holding it is dropped, which runs the diff. */
    method WillRemoveSubview(v: ViewId)
      requires Valid()
      modifies this, subviews
      ensures items == if !old(isUpdatingItems) && v in old(managedViews) then WithoutFirst(old(items), Obj.View(v)) else old(items)
      ensures !old(isUpdatingItems) && v in old(managedViews) && IndexOfObject(old(items), Obj.View(v)).Some? ==>
        ManagedDiffed(if excludeHiddenViews then old(observers) - {v} else old(observers)) && Synced() && needsUpdateConstraints
      ensures !old(isUpdatingItems) && v in old(managedViews) && IndexOfObject(old(items), Obj.View(v)).None? ==>
        observers == (if excludeHiddenViews then old(observers) - {v} else old(observers))
        && unchanged(subviews) && unchanged(this`managedViews, this`managedGuides, this`layoutGuides, this`needsUpdateConstraints)
      ensures old(isUpdatingItems) || v !in old(managedViews) ==> unchanged(this) && unchanged(subviews)
      ensures Valid() && isUpdatingItems == old(isUpdatingItems)
      ensures unchanged(this`managedConstraints) && Settings() == old(Settings())
    {
      if !isUpdatingItems && v in managedViews {
        if excludeHiddenViews {
          observers := observers - {v};
        }
        var index := IndexOfObject(items, Obj.View(v));
        if index.Some? {
          items := WithoutFirst(items, Obj.View(v));
          UpdateItemsViews();
        }
      }
    }

    /** `addItemsConstraints()`: the old managed constraints are deactivated
        and dropped; the chain, relative and flex passes run over the items
        in use (without hidden views while they are excluded), the fixed
        sizes over all items; the new list is activated. `dir` is the layout
        direction UIKit resolves for the box, `hidden` the views whose
        `isHidden` is set. */
    method AddItemsConstraints(act: ActiveConstraints, dir: LayoutDirection, hidden: set<ViewId>)
      modifies this, act
      ensures managedConstraints == Generated(Ctx(Obj.View(id), sca, dir, axis, spacing), insets,
                                              items, UsedItems(items, excludeHiddenViews, hidden))
      ensures act.active == (old(act.active) - Elems(old(managedConstraints))) + Elems(managedConstraints)
      ensures unchanged(this`items, this`managedViews, this`managedGuides, this`observers, this`layoutGuides)
      ensures Settings() == old(Settings()) && isUpdatingItems == old(isUpdatingItems)
      ensures needsUpdateConstraints == old(needsUpdateConstraints)
    {
      act.Deactivate(managedConstraints);
      managedConstraints := [];
      var usedItems := UsedItems(items, excludeHiddenViews, hidden);
      var ctx := Ctx(Obj.View(id), sca, dir, axis, spacing);
      managedConstraints := CreateChainConstraints(act, ctx, usedItems, Some(insets), managedConstraints);
      assert managedConstraints == Chain(ctx, insets, usedItems);
      managedConstraints := CreateDimensions(items, managedConstraints);
      managedConstraints := CreateRelativeDimensions(Obj.View(id), usedItems, managedConstraints);
      managedConstraints := CreateFlexDimensions(usedItems, axis, managedConstraints);
      assert managedConstraints == Generated(ctx, insets, items, usedItems);
      ChainActivatedGenerated(ctx, insets, items, usedItems);
      act.Activate(managedConstraints);
    }

    /** `updateConstraints()`: the constraints are regenerated unless an item
        change is in progress. */
    method UpdateConstraints(act: ActiveConstraints, dir: LayoutDirection, hidden: set<ViewId>)
      modifies this, act
      ensures old(isUpdatingItems) ==> unchanged(this) && unchanged(act)
      ensures !old(isUpdatingItems) ==>
        managedConstraints == Generated(Ctx(Obj.View(id), sca, dir, axis, spacing), insets,
                                        items, UsedItems(items, excludeHiddenViews, hidden))
        && act.active == (old(act.active) - Elems(old(managedConstraints))) + Elems(managedConstraints)
      ensures unchanged(this`items, this`managedViews, this`managedGuides, this`observers, this`layoutGuides)
      ensures Settings() == old(Settings()) && isUpdatingItems == old(isUpdatingItems)
      ensures needsUpdateConstraints == old(needsUpdateConstraints)
    {
      if !isUpdatingItems {
        AddItemsConstraints(act, dir, hidden);
      }
    }

    /** `excludeHiddenViews` set: only a real change acts. Switching it on
        observes every managed view, switching it off drops every observer;
        either way the constraints are marked for an update. */
    method SetExcludeHiddenViews(value: bool)
      requires Valid()
      modifies this
      ensures excludeHiddenViews == value
      ensures observers == if !value then {} else if old(excludeHiddenViews) then old(observers) else Elems(managedViews)
      ensures needsUpdateConstraints == (old(needsUpdateConstraints) || value != old(excludeHiddenViews))
      ensures Valid()
      ensures unchanged(this`items, this`managedViews, this`managedGuides, this`managedConstraints, this`layoutGuides)
      ensures unchanged(this`axis, this`spacing, this`insets, this`sca, this`needsUpdateItems, this`isUpdatingItems)
    {
      if value != excludeHiddenViews {
        excludeHiddenViews := value;
        if value {
          observers := ObserveAll(managedViews);
        } else {
          observers := {};
        }
        needsUpdateConstraints := true;
      }
    }

    /** The `items` setter: the list is replaced and the diff runs. */
    method SetItems(newItems: seq<BoxItem>)
      requires Valid()
      modifies this, subviews
      ensures items == newItems
      ensures !old(isUpdatingItems) ==> ManagedDiffed(old(observers)) && Synced() && needsUpdateConstraints
      ensures old(isUpdatingItems) ==> ManagedUnchanged() && needsUpdateConstraints == old(needsUpdateConstraints)
      ensures Valid() && isUpdatingItems == old(isUpdatingItems)
      ensures unchanged(this`managedConstraints) && Settings() == old(Settings())
    {
      items := newItems;
      UpdateItemsViews();
    }

    /** The `optItems` setter: the items are the non-nil entries. */
    method SetOptItems(opt: seq<Option<BoxItem>>)
      requires Valid()
      modifies this, subviews
      ensures items == Compact(opt)
      ensures !old(isUpdatingItems) ==> ManagedDiffed(old(observers)) && Synced() && needsUpdateConstraints
      ensures Valid() && isUpdatingItems == old(isUpdatingItems)
      ensures unchanged(this`managedConstraints) && Settings() == old(Settings())
    {
      SetItems(Compact(opt));
    }

    /** `setViews(_:layout:)`: one item per view, all with the layout; once
        the diff has run the box manages exactly those views and no guide. */
    method SetViews(views: seq<ViewId>, layout: BoxLayout)
      requires Valid()
      modifies this, subviews
      ensures items == BoxedAll(views, layout)
      ensures !old(isUpdatingItems) ==> ManagedDiffed(old(observers)) && Synced() && needsUpdateConstraints
      ensures !old(isUpdatingItems) ==> Elems(managedViews) == Elems(views) && managedGuides == []
      ensures Valid() && isUpdatingItems == old(isUpdatingItems)
      ensures unchanged(this`managedConstraints) && Settings() == old(Settings())
    {
      var newItems := BoxViews(views, layout);
      BoxedViews(views, layout);
      SetItems(newItems);
      if !old(isUpdatingItems) {
        assert Elems(ItemGuides(items)) == {};
        NoElems(managedGuides);
      }
    }

    /** `addItem(_:)`: the item is appended and the diff runs. */
    method AddItem(item: BoxItem)
      requires Valid()
      modifies this, subviews
      ensures items == old(items) + [item]
      ensures !old(isUpdatingItems) ==> ManagedDiffed(old(observers)) && Synced() && needsUpdateConstraints
      ensures Valid() && isUpdatingItems == old(isUpdatingItems)
      ensures unchanged(this`managedConstraints) && Settings() == old(Settings())
    {
      SetItems(items + [item]);
    }

    /** `setNeedsUpdateItems()` */
    method SetNeedsUpdateItems()
      modifies this
      ensures needsUpdateItems
      ensures unchanged(this`items, this`managedViews, this`managedGuides, this`managedConstraints, this`observers, this`layoutGuides)
      ensures unchanged(this`axis, this`spacing, this`insets, this`sca, this`excludeHiddenViews)
      ensures unchanged(this`isUpdatingItems, this`needsUpdateConstraints)
    {
      needsUpdateItems := true;
    }

    /** `layoutSubviews()`: a pending item update runs `updateItems()`, which
        does nothing in the box itself, and clears the flag. */
    method LayoutSubviews()
      modifies this
      ensures !needsUpdateItems
      ensures unchanged(this`items, this`managedViews, this`managedGuides, this`managedConstraints, this`observers, this`layoutGuides)
      ensures unchanged(this`axis, this`spacing, this`insets, this`sca, this`excludeHiddenViews)
      ensures unchanged(this`isUpdatingItems, this`needsUpdateConstraints)
    {
      if needsUpdateItems {
        needsUpdateItems := false;
      }
    }

    /** The `axis` setter: the constraints are marked for an update. */
    method SetAxis(value: Axis)
      modifies this
      ensures axis == value && needsUpdateConstraints
      ensures unchanged(this`items, this`managedViews, this`managedGuides, this`managedConstraints, this`observers, this`layoutGuides)
      ensures unchanged(this`spacing, this`insets, this`sca, this`excludeHiddenViews, this`needsUpdateItems, this`isUpdatingItems)
    {
      axis := value;
      needsUpdateConstraints := true;
    }

    /** The `spacing` setter: the constraints are marked for an update. */
    method SetSpacing(value: real)
      modifies this
      ensures spacing == value && needsUpdateConstraints
      ensures unchanged(this`items, this`managedViews, this`managedGuides, this`managedConstraints, this`observers, this`layoutGuides)
      ensures unchanged(this`axis, this`insets, this`sca, this`excludeHiddenViews, this`needsUpdateItems, this`isUpdatingItems)
    {
      spacing := value;
      needsUpdateConstraints := true;
    }

    /** The `insets` setter (insets kept apart from the layout margins): the
        stored insets change and the constraints are marked for an update. */
    method SetInsets(value: Insets)
      modifies this
      ensures insets == value && needsUpdateConstraints
      ensures unchanged(this`items, this`managedViews, this`managedGuides, this`managedConstraints, this`observers, this`layoutGuides)
      ensures unchanged(this`axis, this`spacing, this`sca, this`excludeHiddenViews, this`needsUpdateItems, this`isUpdatingItems)
    {
      insets := value;
      needsUpdateConstraints := true;
    }

    /** The `semanticContentAttribute` setter: only a real change marks the
        constraints for an update. */
    method SetSemanticContentAttribute(value: SemanticContentAttribute)
      modifies this
      ensures sca == value
      ensures needsUpdateConstraints == (old(needsUpdateConstraints) || value != old(sca))
      ensures unchanged(this`items, this`managedViews, this`managedGuides, this`managedConstraints, this`observers, this`layoutGuides)
      ensures unchanged(this`axis, this`spacing, this`insets, this`excludeHiddenViews, this`needsUpdateItems, this`isUpdatingItems)
    {
      if value != sca {
        sca := value;
        needsUpdateConstraints := true;
      }
    }
  }

  /** Taking out the entry at an index of a list without duplicates takes
      out exactly that value. */
  lemma FirstRemoved(s: seq<GuideId>, i: nat)
    requires i < |s| && forall j :: 0 <= j < i ==> s[j] != s[i]
    ensures Distinct(s) ==> s[..i] + s[i + 1..] == Without(s, s[i])
  {
    if Distinct(s) {
      var v, r := s[i], s[..i] + s[i + 1..];
      assert v !in r by {
        assert forall j :: 0 <= j < |r| ==> r[j] == s[if j < i then j else j + 1];
      }
      assert Splice(r, i, v) == s by {
        assert r[..i] == s[..i] && r[i..] == s[i + 1..];
        assert s == s[..i] + [v] + s[i + 1..];
      }
      SpliceWithout(r, i, v);
    }
  }

  /** When every managed entry is kept, no index is dropped. */
  lemma DroppedNone(ms: seq<int>, keep: seq<int>)
    ensures Gone(ms, keep) == {} ==> Dropped(ms, keep) == []
  {
    if |Dropped(ms, keep)| > 0 {
      DroppedMeans(ms, keep);
      var j := Dropped(ms, keep)[0];
      assert ms[j] in Gone(ms, keep);
    }
  }

  /** The loop of the `excludeHiddenViews` setter that observes every
      managed view. */
  method ObserveAll(views: seq<ViewId>) returns (observed: set<ViewId>)
    ensures observed == Elems(views)
  {
    observed := {};
    for i := 0 to |views|
      invariant observed == Elems(views[..i])
    {
      assert views[..i + 1] == views[..i] + [views[i]];
      ElemsAppend(views[..i], [views[i]]);
      observed := observed + {views[i]};
    }
    assert views[..|views|] == views;
  }

  /** The `map` of `setViews(_:layout:)`: one item per view. */
  method BoxViews(views: seq<ViewId>, layout: BoxLayout) returns (items: seq<BoxItem>)
    ensures items == BoxedAll(views, layout)
  {
    items := [];
    for i := 0 to |views|
      invariant items == BoxedAll(views[..i], layout)
    {
      assert views[..i + 1][..i] == views[..i];
      items := items + [Boxed(views[i], layout)];
    }
    assert views[..|views|] == views;
  }

  /** `inBoxView(axis:spacing:insets:)` of an array of views: a new box whose
      items are the views with the zero layout, in order, and which manages
      exactly those views. */
  method InBoxView(id: ViewId, views: seq<ViewId>, axis: Axis, spacing: real, insets: Insets) returns (b: BoxView)
    ensures fresh(b) && fresh(b.subviews)
    ensures b.id == id && b.axis == axis && b.spacing == spacing && b.insets == insets
    ensures b.items == BoxedAll(views, ZeroLayout())
    ensures Elems(b.managedViews) == Elems(views) && b.managedGuides == []
    ensures b.Valid() && b.Synced() && !b.isUpdatingItems
  {
    b := new BoxView(id, axis, spacing, insets);
    b.SetViews(views, ZeroLayout());
  }

  /** `updateBoxItem(_:)` of a view: forwarded to the superview when it is a
      box; nothing happens otherwise. */
  method UpdateBoxItem(superview: BoxView?, v: ViewId, update: BoxItem -> BoxItem)
    requires superview != null ==> superview.Valid()
    modifies if superview == null then {} else {superview, superview.subviews}
    ensures superview != null ==> superview.items == Updated(old(superview.items), Some(Obj.View(v)), update)
    ensures superview != null ==> superview.Valid()
  {
    if superview != null {
      superview.UpdateItemForObject(Obj.View(v), update);
    }
  }
}
