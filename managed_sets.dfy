/** The list arithmetic of the box view's managed-object bookkeeping: which
    views and guides the items hold, the indices of managed entries no item
    holds any more, what is left after removing them, and the entries
    appended for objects not yet managed. */
module ManagedSets {
  import opened Types
  import opened Layout

  /** `items.compactMap { $0.view }` */
  function ItemViews(items: seq<BoxItem>): (r: seq<ViewId>)
    decreases |items|
  {
    if |items| == 0 then []
    else
      var last := items[|items| - 1];
      ItemViews(items[..|items| - 1]) + ObjView(last.obj)
  }

  /** `items.compactMap { $0.guide }` */
  function ItemGuides(items: seq<BoxItem>): (r: seq<GuideId>)
    decreases |items|
  {
    if |items| == 0 then []
    else
      var last := items[|items| - 1];
      ItemGuides(items[..|items| - 1]) + ObjGuide(last.obj)
  }

  /** A view is among the item views exactly when some item targets it;
      the same for guides. */
  lemma {:induction false} ItemObjects(items: seq<BoxItem>)
    ensures forall v :: v in ItemViews(items) <==> exists i :: 0 <= i < |items| && items[i].obj == Obj.View(v)
    ensures forall g :: g in ItemGuides(items) <==> exists i :: 0 <= i < |items| && items[i].obj == Obj.Guide(g)
    decreases |items|
  {
    if |items| > 0 {
      var init := items[..|items| - 1];
      ItemObjects(init);
      forall v | v in ItemViews(items)
        ensures exists i :: 0 <= i < |items| && items[i].obj == Obj.View(v)
      {
        if v in ItemViews(init) {
          var i :| 0 <= i < |init| && init[i].obj == Obj.View(v);
          assert items[i] == init[i];
        } else {
          assert items[|items| - 1].obj == Obj.View(v);
        }
      }
      forall v, i | 0 <= i < |items| && items[i].obj == Obj.View(v)
        ensures v in ItemViews(items)
      {
        if i < |items| - 1 {
          assert init[i] == items[i];
        }
      }
      forall g | g in ItemGuides(items)
        ensures exists i :: 0 <= i < |items| && items[i].obj == Obj.Guide(g)
      {
        if g in ItemGuides(init) {
          var i :| 0 <= i < |init| && init[i].obj == Obj.Guide(g);
          assert items[i] == init[i];
        } else {
          assert items[|items| - 1].obj == Obj.Guide(g);
        }
      }
      forall g, i | 0 <= i < |items| && items[i].obj == Obj.Guide(g)
        ensures g in ItemGuides(items)
      {
        if i < |items| - 1 {
          assert init[i] == items[i];
        }
      }
    }
  }

  /** The view and guide an item adds to those of a list it is appended to. */
  function ObjView(o: Obj): seq<ViewId>
  {
    if o.View? then [o.vid] else []
  }

  function ObjGuide(o: Obj): seq<GuideId>
  {
    if o.Guide? then [o.gid] else []
  }

  lemma {:induction false} ItemsAppend(a: seq<BoxItem>, b: seq<BoxItem>)
    ensures ItemViews(a + b) == ItemViews(a) + ItemViews(b)
    ensures ItemGuides(a + b) == ItemGuides(a) + ItemGuides(b)
    decreases |b|
  {
    if |b| == 0 {
      assert a + b == a;
    } else {
      var init := b[..|b| - 1];
      assert (a + b)[..|a + b| - 1] == a + init;
      ItemsAppend(a, init);
    }
  }

  /** The managed views and guides of a list with an item put in at some
      index: those of the list plus the item's. */
  lemma InsertedItems(s: seq<BoxItem>, i: nat, item: BoxItem, t: seq<BoxItem>)
    requires i <= |s| && t == s[..i] + [item] + s[i..]
    ensures Elems(ItemViews(t)) == Elems(ItemViews(s)) + Elems(ObjView(item.obj))
    ensures Elems(ItemGuides(t)) == Elems(ItemGuides(s)) + Elems(ObjGuide(item.obj))
  {
    var a, b := s[..i], s[i..];
    assert s == a + b;
    assert ItemViews(t) == ItemViews(a) + ItemViews([item]) + ItemViews(b)
        && ItemGuides(t) == ItemGuides(a) + ItemGuides([item]) + ItemGuides(b) by {
      ItemsAppend(a + [item], b);
      ItemsAppend(a, [item]);
    }
    assert ItemViews(s) == ItemViews(a) + ItemViews(b) && ItemGuides(s) == ItemGuides(a) + ItemGuides(b) by {
      ItemsAppend(a, b);
    }
    assert ItemViews([item]) == ObjView(item.obj) && ItemGuides([item]) == ObjGuide(item.obj) by {
      assert [item][..0] == [];
    }
    InsertedViews(ItemViews(a), ItemViews([item]), ItemViews(b));
    InsertedViews(ItemGuides(a), ItemGuides([item]), ItemGuides(b));
  }

  lemma InsertedViews(a: seq<int>, m: seq<int>, b: seq<int>)
    ensures Elems(a + m + b) == Elems(a + b) + Elems(m)
  {
    assert forall x :: x in a + m + b <==> x in a + b || x in m;
  }

  /** The managed views and guides of a list with the item at an index taken
      out: those of the list, possibly without that item's. */
  lemma RemovedItem(s: seq<BoxItem>, i: nat, rest: seq<BoxItem>)
    requires i < |s| && rest == s[..i] + s[i + 1..]
    ensures Elems(ItemViews(s)) == Elems(ItemViews(rest)) + Elems(ObjView(s[i].obj))
    ensures Elems(ItemGuides(s)) == Elems(ItemGuides(rest)) + Elems(ObjGuide(s[i].obj))
  {
    assert s == rest[..i] + [s[i]] + rest[i..] by {
      assert rest[..i] == s[..i];
      assert rest[i..] == s[i + 1..];
      assert s == s[..i] + [s[i]] + s[i + 1..];
    }
    InsertedItems(rest, i, s[i], s);
  }

  /** The entries of `ms` that `keep` holds, in their order. */
  function KeepIn(ms: seq<int>, keep: seq<int>): (r: seq<int>)
    ensures |r| <= |ms|
    decreases |ms|
  {
    if |ms| == 0 then []
    else
      var last := ms[|ms| - 1];
      KeepIn(ms[..|ms| - 1], keep) + (if last in keep then [last] else [])
  }

  /** The kept entries are those of `ms` that `keep` holds, and no entry
      gets duplicated. */
  lemma {:induction false} KeepInMeans(ms: seq<int>, keep: seq<int>)
    ensures forall x :: x in KeepIn(ms, keep) <==> x in ms && x in keep
    ensures Distinct(ms) ==> Distinct(KeepIn(ms, keep))
    decreases |ms|
  {
    if |ms| > 0 {
      var init := ms[..|ms| - 1];
      KeepInMeans(init, keep);
      assert ms == init + [ms[|ms| - 1]];
      assert Distinct(ms) ==> ms[|ms| - 1] !in init;
    }
  }

  lemma {:induction false} KeepInAppend(a: seq<int>, b: seq<int>, keep: seq<int>)
    ensures KeepIn(a + b, keep) == KeepIn(a, keep) + KeepIn(b, keep)
    decreases |b|
  {
    if |b| == 0 {
      assert a + b == a;
    } else {
      var init := b[..|b| - 1];
      assert (a + b)[..|a + b| - 1] == a + init;
      KeepInAppend(a, init, keep);
    }
  }

  lemma {:induction false} KeepInAllKept(s: seq<int>, keep: seq<int>)
    requires forall j :: 0 <= j < |s| ==> s[j] in keep
    ensures KeepIn(s, keep) == s
    decreases |s|
  {
    if |s| > 0 {
      KeepInAllKept(s[..|s| - 1], keep);
    }
  }

  /** The indices of the entries of `ms` that `keep` does not hold, in
      increasing order (`DroppedMeans`). */
  function Dropped(ms: seq<int>, keep: seq<int>): (r: seq<nat>)
    decreases |ms|
  {
    if |ms| == 0 then []
    else
      var init := Dropped(ms[..|ms| - 1], keep);
      init + (if ms[|ms| - 1] !in keep then [|ms| - 1] else [])
  }

  /** The dropped indices are exactly those of the entries `keep` does not
      hold, each once and in increasing order. */
  lemma {:induction false} DroppedMeans(ms: seq<int>, keep: seq<int>)
    ensures var r := Dropped(ms, keep);
      (forall k :: 0 <= k < |r| ==> r[k] < |ms| && ms[r[k]] !in keep)
      && (forall a, b :: 0 <= a < b < |r| ==> r[a] < r[b])
      && (forall j :: 0 <= j < |ms| && ms[j] !in keep ==> j in r)
    decreases |ms|
  {
    if |ms| > 0 {
      var init := ms[..|ms| - 1];
      DroppedMeans(init, keep);
      var ri := Dropped(init, keep);
      assert forall k :: 0 <= k < |ri| ==> ri[k] < |init| && ms[ri[k]] == init[ri[k]];
    }
  }

  /** The values `keep` does not hold. */
  function Gone(ms: seq<int>, keep: seq<int>): set<int>
  {
    set x | x in ms && x !in keep
  }

  /** The values at the dropped indices from position `k` on. */
  function GoneFrom(ms: seq<int>, r: seq<nat>, k: nat): set<int>
  {
    set j | k <= j < |r| && r[j] < |ms| :: ms[r[j]]
  }

  /** Between the dropped index `r[k - 1]` and the next one (or the end),
      every entry is kept; before the first, too. */
  function NextDropped(ms: seq<int>, r: seq<nat>, k: nat): nat
  {
    if k < |r| then r[k] else |ms|
  }

  lemma GapKept(ms: seq<int>, keep: seq<int>, k: nat)
    requires k <= |Dropped(ms, keep)|
    ensures NextDropped(ms, Dropped(ms, keep), k) <= |ms|
    ensures forall j :: (if k == 0 then 0 else Dropped(ms, keep)[k - 1] + 1) <= j < NextDropped(ms, Dropped(ms, keep), k) ==> ms[j] in keep
  {
    var r := Dropped(ms, keep);
    DroppedMeans(ms, keep);
    var lo := if k == 0 then 0 else r[k - 1] + 1;
    var hi := NextDropped(ms, r, k);
    forall j | lo <= j < hi
      ensures ms[j] in keep
    {

    }
  }

  lemma GoneFromStart(ms: seq<int>, keep: seq<int>)
    ensures GoneFrom(ms, Dropped(ms, keep), 0) == Gone(ms, keep)
  {
    var r := Dropped(ms, keep);
    DroppedMeans(ms, keep);
    forall x | x in Gone(ms, keep)
      ensures x in GoneFrom(ms, r, 0)
    {
      var j :| 0 <= j < |ms| && ms[j] == x;
      var m :| 0 <= m < |r| && r[m] == j;
    }
  }

  lemma GoneFromEnd(ms: seq<int>, r: seq<nat>)
    ensures GoneFrom(ms, r, |r|) == {}
  {
  }

  /** Stepping the reversed loop back over the index `r[k - 1]` adds its
      value to what is gone. */
  lemma GoneFromStep(ms: seq<int>, r: seq<nat>, k: nat)
    requires 0 < k <= |r| && r[k - 1] < |ms|
    ensures GoneFrom(ms, r, k - 1) == GoneFrom(ms, r, k) + {ms[r[k - 1]]}
  {
    var a := GoneFrom(ms, r, k - 1);
    var b := GoneFrom(ms, r, k) + {ms[r[k - 1]]};
    forall x | x in a
      ensures x in b
    {
      var j :| k - 1 <= j < |r| && r[j] < |ms| && ms[r[j]] == x;
      if j >= k {
        assert x in GoneFrom(ms, r, k);
      }
    }
    forall x | x in b
      ensures x in a
    {
      if x in GoneFrom(ms, r, k) {
        var j :| k <= j < |r| && r[j] < |ms| && ms[r[j]] == x;
      }
    }
  }

  /** What the reversed removal loop has left once it has taken out the
      dropped indices from the `k`-th on: the list up to the next dropped
      index, then the kept part of the rest. */
  function RemovedFrom(ms: seq<int>, keep: seq<int>, k: nat): (r: seq<int>)
    requires k <= |Dropped(ms, keep)|
  {
    var t := NextDropped(ms, Dropped(ms, keep), k);
    GapKept(ms, keep, k);
    ms[..t] + KeepIn(ms[t..], keep)
  }

  /** Before the loop nothing has been taken out. */
  lemma RemovalStart(ms: seq<int>, keep: seq<int>)
    ensures RemovedFrom(ms, keep, |Dropped(ms, keep)|) == ms
  {
    assert ms[|ms|..] == [];
    assert ms[..|ms|] == ms;
  }

  /** One step of the reversed removal loop: taking out the entry at the
      dropped index `r[k - 1]`. */
  lemma RemovalStep(ms: seq<int>, keep: seq<int>, k: nat)
    requires 0 < k <= |Dropped(ms, keep)|
    ensures var idx, cur := Dropped(ms, keep)[k - 1], RemovedFrom(ms, keep, k);
      idx < |ms| && idx < |cur| && cur[idx] == ms[idx] && cur[..idx] + cur[idx + 1..] == RemovedFrom(ms, keep, k - 1)
  {
    var r := Dropped(ms, keep);
    var idx := r[k - 1];
    var t := NextDropped(ms, r, k);
    assert idx < t <= |ms| && ms[idx] !in keep && forall j :: idx + 1 <= j < t ==> ms[j] in keep by {
      GapKept(ms, keep, k);
      DroppedMeans(ms, keep);
      if k < |r| {
        assert r[k - 1] < r[k];
      }
    }
    DropAt(ms, keep, idx, t);
    assert NextDropped(ms, r, k - 1) == idx;
  }

  /** Taking out a dropped entry followed by a run of kept ones. */
  lemma DropAt(ms: seq<int>, keep: seq<int>, idx: nat, t: nat)
    requires idx < t <= |ms| && ms[idx] !in keep
    requires forall j :: idx + 1 <= j < t ==> ms[j] in keep
    ensures var cur := ms[..t] + KeepIn(ms[t..], keep);
      idx < |cur| && cur[idx] == ms[idx] && cur[..idx] + cur[idx + 1..] == ms[..idx] + KeepIn(ms[idx..], keep)
  {
    KeptSuffix(ms, keep, idx, t);
    var tail := KeepIn(ms[t..], keep);
    var cur := ms[..t] + tail;
    assert cur == ms[..idx] + [ms[idx]] + ms[idx + 1..t] + tail by {
      assert ms[..t] == ms[..idx] + [ms[idx]] + ms[idx + 1..t];
    }
    assert cur[..idx] + cur[idx + 1..] == ms[..idx] + (ms[idx + 1..t] + tail);
  }

  /** Splitting the kept part of a suffix at a dropped entry followed by a
      run of kept ones. */
  lemma KeptSuffix(ms: seq<int>, keep: seq<int>, idx: nat, t: nat)
    requires idx < t <= |ms| && ms[idx] !in keep
    requires forall j :: idx + 1 <= j < t ==> ms[j] in keep
    ensures KeepIn(ms[idx..], keep) == ms[idx + 1..t] + KeepIn(ms[t..], keep)
  {
    var mid := ms[idx + 1..t];
    var head := [ms[idx]];
    KeepInAllKept(mid, keep);
    assert ms[idx..] == (head + mid) + ms[t..];
    KeepInAppend(head + mid, ms[t..], keep);
    KeepInAppend(head, mid, keep);
    assert head[..0] == [];
    assert KeepIn(head, keep) == [];
  }

  /** After the last step of the reversed removal loop: what remains is the
      kept part of the whole list. */
  lemma RemovalDone(ms: seq<int>, keep: seq<int>)
    ensures RemovedFrom(ms, keep, 0) == KeepIn(ms, keep)
  {
    var t := NextDropped(ms, Dropped(ms, keep), 0);
    GapKept(ms, keep, 0);
    KeptPrefix(ms, keep, t);
  }

  /** A run of kept entries in front stays as it is. */
  lemma KeptPrefix(ms: seq<int>, keep: seq<int>, t: nat)
    requires t <= |ms| && forall j :: 0 <= j < t ==> ms[j] in keep
    ensures ms[..t] + KeepIn(ms[t..], keep) == KeepIn(ms, keep)
  {
    KeepInAllKept(ms[..t], keep);
    KeepInAppend(ms[..t], ms[t..], keep);
    assert ms[..t] + ms[t..] == ms;
  }

  /** `ms` with every entry of `vs` it lacks appended, in the order of `vs`,
      each once. */
  function AppendMissing(ms: seq<int>, vs: seq<int>): (r: seq<int>)
    ensures |ms| <= |r| && r[..|ms|] == ms
    decreases |vs|
  {
    if |vs| == 0 then ms
    else
      var init := AppendMissing(ms, vs[..|vs| - 1]);
      var v := vs[|vs| - 1];
      if v in init then init else init + [v]
  }

  /** The result holds the entries of both lists, and no duplicate when
      `ms` had none. */
  lemma {:induction false} AppendMissingMeans(ms: seq<int>, vs: seq<int>)
    ensures forall x :: x in AppendMissing(ms, vs) <==> x in ms || x in vs
    ensures Distinct(ms) ==> Distinct(AppendMissing(ms, vs))
    decreases |vs|
  {
    if |vs| > 0 {
      var init := vs[..|vs| - 1];
      AppendMissingMeans(ms, init);
      assert vs == init + [vs[|vs| - 1]];
    }
  }

  /** What `updateItemsViews` leaves in a managed list: the entries the items
      still hold, in their order, then the missing ones in item order. */
  function Diffed(ms: seq<int>, vs: seq<int>): seq<int>
  {
    AppendMissing(KeepIn(ms, vs), vs)
  }

  /** Whether an item object is missing is the same before and after the
      entries no item holds are dropped. */
  lemma KeptMissing(ms: seq<int>, vs: seq<int>)
    ensures Elems(vs) - Elems(KeepIn(ms, vs)) == Elems(vs) - Elems(ms)
  {
    KeepInMeans(ms, vs);
    forall x
      ensures x in Elems(vs) - Elems(KeepIn(ms, vs)) <==> x in Elems(vs) - Elems(ms)
    {
      assert x in KeepIn(ms, vs) <==> x in ms && x in vs;
    }
  }

  /** The managed list afterwards holds exactly the items' objects, without
      duplicates when it had none, and starts with the retained entries in
      their old relative order. */
  lemma DiffedExact(ms: seq<int>, vs: seq<int>)
    ensures Elems(Diffed(ms, vs)) == Elems(vs)
    ensures Distinct(ms) ==> Distinct(Diffed(ms, vs))
    ensures Diffed(ms, vs)[..|KeepIn(ms, vs)|] == KeepIn(ms, vs)
  {
    KeepInMeans(ms, vs);
    AppendMissingMeans(KeepIn(ms, vs), vs);
    assert forall x :: x in Elems(Diffed(ms, vs)) <==> x in Elems(vs);
  }

  /** A managed list that already holds exactly the items' objects, without
      duplicates, comes out unchanged. */
  lemma DiffedNoChange(ms: seq<int>, vs: seq<int>)
    requires Distinct(ms) && Elems(ms) == Elems(vs)
    ensures Diffed(ms, vs) == ms
  {
    assert forall j :: 0 <= j < |ms| ==> ms[j] in Elems(ms);
    assert forall j :: 0 <= j < |vs| ==> vs[j] in Elems(vs);
    KeepInAllKept(ms, vs);
    AppendNothingMissing(ms, vs);
  }

  lemma {:induction false} AppendNothingMissing(ms: seq<int>, vs: seq<int>)
    requires forall j :: 0 <= j < |vs| ==> vs[j] in ms
    ensures AppendMissing(ms, vs) == ms
    decreases |vs|
  {
    if |vs| > 0 {
      AppendNothingMissing(ms, vs[..|vs| - 1]);
    }
  }

  /** The `for (index, entry) in managed.enumerated()` loop that collects the
      indices of entries the items no longer hold. */
  method CollectDropped(ms: seq<int>, keep: seq<int>) returns (r: seq<nat>)
    ensures r == Dropped(ms, keep)
  {
    r := [];
    for index := 0 to |ms|
      invariant r == Dropped(ms[..index], keep)
    {
      assert ms[..index + 1][..index] == ms[..index];
      if ms[index] !in keep {
        r := r + [index];
      }
    }
    assert ms[..|ms|] == ms;
  }
}
