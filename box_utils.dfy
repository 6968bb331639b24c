/** The z-position policy of `insertSubview(_:z:)`: where a subview lands in
    its superview's subview list (index 0 is the back, the last index the
    front). The native subview operations it calls become methods of a small
    class holding that list; each of them first takes the subview out of the
    list, as the native ones do when the view is already a subview. */
module BoxUtils {
  import opened Types

  /** `BoxLayout.ZPosition` */
  datatype ZPosition = Back | Front | Below(view: Option<ViewId>) | Above(view: Option<ViewId>)

  /** The list with every occurrence of `v` taken out. */
  function Without(s: seq<ViewId>, v: ViewId): (r: seq<ViewId>)
    ensures v !in r
    ensures forall x :: x in r <==> x in s && x != v
    ensures |r| <= |s|
    ensures Distinct(s) ==> Distinct(r)
    decreases |s|
  {
    if |s| == 0 then []
    else if s[0] == v then Without(s[1..], v)
    else
      var rest := Without(s[1..], v);
      assert Distinct(s) ==> s[0] !in s[1..] && s[0] !in rest;
      [s[0]] + rest
  }

  lemma {:induction false} WithoutAppend(a: seq<ViewId>, b: seq<ViewId>, v: ViewId)
    ensures Without(a + b, v) == Without(a, v) + Without(b, v)
    decreases |a|
  {
    if |a| == 0 {
      assert a + b == b;
    } else {
      assert (a + b)[0] == a[0];
      assert (a + b)[1..] == a[1..] + b;
      WithoutAppend(a[1..], b, v);
    }
  }

  lemma {:induction false} WithoutAbsent(s: seq<ViewId>, v: ViewId)
    requires v !in s
    ensures Without(s, v) == s
    decreases |s|
  {
    if |s| > 0 {
      WithoutAbsent(s[1..], v);
      assert s == [s[0]] + s[1..];
    }
  }

  /** The first index of `w` in `s`. */
  function IndexOf(s: seq<ViewId>, w: ViewId): (i: nat)
    requires w in s
    ensures i < |s| && s[i] == w
    ensures forall j :: 0 <= j < i ==> s[j] != w
    decreases |s|
  {
    if s[0] == w then 0 else 1 + IndexOf(s[1..], w)
  }

  lemma WithoutElems(s: seq<ViewId>, v: ViewId)
    ensures Elems(Without(s, v)) == Elems(s) - {v}
  {
    assert forall x :: x in Without(s, v) <==> x in s && x != v;
  }

  /** `v` put at index `i` of a list that does not hold it. */
  function Splice(r: seq<ViewId>, i: nat, v: ViewId): (s: seq<ViewId>)
    requires i <= |r|
    ensures |s| == |r| + 1 && s[i] == v
    ensures forall j :: 0 <= j < i ==> s[j] == r[j]
    ensures forall j :: i < j < |s| ==> s[j] == r[j - 1]
  {
    r[..i] + [v] + r[i..]
  }

  /** Splicing `v` in changes nothing else: taking it out again gives the
      list back, the elements are the old ones plus `v`, and no element
      becomes duplicated. */
  lemma SpliceKeepsOthers(r: seq<ViewId>, i: nat, v: ViewId)
    requires i <= |r| && v !in r
    ensures Without(Splice(r, i, v), v) == r
    ensures Elems(Splice(r, i, v)) == Elems(r) + {v}
    ensures Distinct(r) ==> Distinct(Splice(r, i, v))
  {
    SpliceWithout(r, i, v);
    var s := Splice(r, i, v);
    assert forall x :: x in s <==> x in r || x == v by {
      assert s == r[..i] + [v] + r[i..];
      assert r == r[..i] + r[i..];
    }
    if Distinct(r) {
      SpliceDistinct(r, i, v);
    }
  }

  lemma SpliceWithout(r: seq<ViewId>, i: nat, v: ViewId)
    requires i <= |r| && v !in r
    ensures Without(Splice(r, i, v), v) == r
  {
    var a, b := r[..i], r[i..];
    assert v !in a && v !in b;
    WithoutAbsent(a, v);
    WithoutAbsent(b, v);
    assert Without([v], v) == [] by {
      assert [v][1..] == [];
    }
    WithoutAppend([v], b, v);
    assert Without([v] + b, v) == b;
    WithoutAppend(a, [v] + b, v);
    assert Splice(r, i, v) == a + ([v] + b);
    assert a + b == r;
  }

  lemma SpliceDistinct(r: seq<ViewId>, i: nat, v: ViewId)
    requires i <= |r| && v !in r && Distinct(r)
    ensures Distinct(Splice(r, i, v))
  {
    var s := Splice(r, i, v);
    forall a, b | 0 <= a < b < |s|
      ensures s[a] != s[b]
    {
      if a == i {
        assert s[b] == r[b - 1];
      } else if b == i {
        assert s[a] == r[a];
      } else {
        var ra := if a < i then a else a - 1;
        var rb := if b < i then b else b - 1;
        assert s[a] == r[ra] && s[b] == r[rb] && ra < rb;
      }
    }
  }

  /** `insertSubview(_:at:)`: out of the list, then in at the index (at the
      top when the index is past the end). */
  function AtIndex(s: seq<ViewId>, v: ViewId, i: nat): (r: seq<ViewId>)
  {
    var rest := Without(s, v);
    Splice(rest, if i <= |rest| then i else |rest|, v)
  }

  /** `addSubview(_:)`: out of the list, then on top. */
  function OnTop(s: seq<ViewId>, v: ViewId): (r: seq<ViewId>)
  {
    var rest := Without(s, v);
    Splice(rest, |rest|, v)
  }

  /** `insertSubview(_:aboveSubview:)`: right above the sibling; on top when
      the sibling is not (or no longer) in the list. */
  function AboveOf(s: seq<ViewId>, v: ViewId, w: ViewId): (r: seq<ViewId>)
  {
    var rest := Without(s, v);
    if w in rest then Splice(rest, IndexOf(rest, w) + 1, v) else Splice(rest, |rest|, v)
  }

  /** `insertSubview(_:belowSubview:)`: right below the sibling; on top when
      the sibling is not in the list. */
  function BelowOf(s: seq<ViewId>, v: ViewId, w: ViewId): (r: seq<ViewId>)
  {
    var rest := Without(s, v);
    if w in rest then Splice(rest, IndexOf(rest, w), v) else Splice(rest, |rest|, v)
  }

  /** Where `insertSubview(_:z:)` puts the subview, case by case. */
  function Placed(s: seq<ViewId>, v: ViewId, z: Option<ZPosition>): (r: seq<ViewId>)
  {
    if z.None? then OnTop(s, v)
    else match z.value
      case Back => AtIndex(s, v, 0)
      case Above(w) => if w.Some? then AboveOf(s, v, w.value) else AtIndex(s, v, 0)
      case Below(w) => if w.Some? then BelowOf(s, v, w.value) else OnTop(s, v)
      case Front => OnTop(s, v)
  }

  /** Where a subview is put depends only on the other subviews: taking it
      out first makes no difference. */
  lemma PlacedByRest(s: seq<ViewId>, t: seq<ViewId>, v: ViewId, z: Option<ZPosition>)
    requires Without(s, v) == Without(t, v)
    ensures Placed(s, v, z) == Placed(t, v, z)
  {
  }

  /** Every placement is a splice of `v` into the list without it. */
  lemma PlacedIsSplice(s: seq<ViewId>, v: ViewId, z: Option<ZPosition>)
    ensures exists i :: 0 <= i <= |Without(s, v)| && Placed(s, v, z) == Splice(Without(s, v), i, v)
  {
    var rest := Without(s, v);
    var r := Placed(s, v, z);
    if z.None? || z.value.Front? || (z.value.Below? && z.value.view.None?) {
      assert r == Splice(rest, |rest|, v);
    } else if z.value.Back? || (z.value.Above? && z.value.view.None?) {
      assert r == Splice(rest, 0, v);
    } else if z.value.Above? {
      var w := z.value.view.value;
      if w in rest {
        assert r == Splice(rest, IndexOf(rest, w) + 1, v);
      } else {
        assert r == Splice(rest, |rest|, v);
      }
    } else {
      var w := z.value.view.value;
      if w in rest {
        assert r == Splice(rest, IndexOf(rest, w), v);
      } else {
        assert r == Splice(rest, |rest|, v);
      }
    }
  }

  /** Whatever the position: the subview ends up in the list exactly once,
      the other subviews keep their relative order, and no duplicate
      appears. */
  lemma PlacedKeepsOthers(s: seq<ViewId>, v: ViewId, z: Option<ZPosition>)
    ensures Without(Placed(s, v, z), v) == Without(s, v)
    ensures Elems(Placed(s, v, z)) == Elems(s) + {v}
    ensures Distinct(s) ==> Distinct(Placed(s, v, z))
    ensures |Placed(s, v, z)| == |Without(s, v)| + 1
  {
    PlacedIsSplice(s, v, z);
    var i :| 0 <= i <= |Without(s, v)| && Placed(s, v, z) == Splice(Without(s, v), i, v);
    SpliceKeepsOthers(Without(s, v), i, v);
  }

  /** `.back`, and `.above(nil)`, put the subview at index 0. */
  lemma BackIsIndexZero(s: seq<ViewId>, v: ViewId, z: ZPosition)
    requires z.Back? || (z.Above? && z.view.None?)
    ensures Placed(s, v, Some(z))[0] == v
    ensures Placed(s, v, Some(z))[1..] == Without(s, v)
  {
  }

  /** `nil`, `.front` and `.below(nil)` put the subview on top. */
  lemma FrontIsOnTop(s: seq<ViewId>, v: ViewId, z: Option<ZPosition>)
    requires z.None? || z.value.Front? || (z.value.Below? && z.value.view.None?)
    ensures Placed(s, v, z) == Without(s, v) + [v]
  {
  }

  /** `.above(w)` with `w` another subview: directly above `w`. */
  lemma AboveIsDirectlyAbove(s: seq<ViewId>, v: ViewId, w: ViewId)
    requires w in s && w != v
    ensures var r := Placed(s, v, Some(Above(Some(w))));
      exists k :: 0 <= k < |r| - 1 && r[k] == w && r[k + 1] == v
  {
    var rest := Without(s, v);
    assert w in rest;
    var k := IndexOf(rest, w);
    var r := Placed(s, v, Some(Above(Some(w))));
    assert r == Splice(rest, k + 1, v);
    assert r[k] == w && r[k + 1] == v;
  }

  /** `.below(w)` with `w` another subview: directly below `w`. */
  lemma BelowIsDirectlyBelow(s: seq<ViewId>, v: ViewId, w: ViewId)
    requires w in s && w != v
    ensures var r := Placed(s, v, Some(Below(Some(w))));
      exists k :: 0 <= k < |r| - 1 && r[k] == v && r[k + 1] == w
  {
    var rest := Without(s, v);
    assert w in rest;
    var k := IndexOf(rest, w);
    var r := Placed(s, v, Some(Below(Some(w))));
    assert r == Splice(rest, k, v);
    assert r[k] == v && r[k + 1] == w;
  }

  /** A view's subview list, back to front, with the native operations that
      reorder it. */
  class Subviews {
    var order: seq<ViewId>

    constructor (initial: seq<ViewId>)
      ensures order == initial
    {
      order := initial;
    }

    method InsertAt(v: ViewId, i: nat)
      modifies this
      ensures order == AtIndex(old(order), v, i)
    {
      order := AtIndex(order, v, i);
    }

    method Add(v: ViewId)
      modifies this
      ensures order == OnTop(old(order), v)
    {
      order := OnTop(order, v);
    }

    method InsertAbove(v: ViewId, w: ViewId)
      modifies this
      ensures order == AboveOf(old(order), v, w)
    {
      order := AboveOf(order, v, w);
    }

    method InsertBelow(v: ViewId, w: ViewId)
      modifies this
      ensures order == BelowOf(old(order), v, w)
    {
      order := BelowOf(order, v, w);
    }

    /** `removeFromSuperview()` of a subview. */
    method Remove(v: ViewId)
      modifies this
      ensures order == Without(old(order), v)
    {
      order := Without(order, v);
    }

    /** `bringSubviewToFront(_:)`: only a subview moves. */
    method BringToFront(v: ViewId)
      modifies this
      ensures v in old(order) ==> order == OnTop(old(order), v)
      ensures v !in old(order) ==> order == old(order)
    {
      if v in order {
        order := OnTop(order, v);
      }
    }

    /** `insertSubview(_:z:)` */
    method InsertSubview(v: ViewId, z: Option<ZPosition>)
      modifies this
      ensures order == Placed(old(order), v, z)
      ensures v in order && Without(order, v) == Without(old(order), v)
      ensures Distinct(old(order)) ==> Distinct(order)
    {
      PlacedKeepsOthers(order, v, z);
      if z.None? {
        Add(v);
        return;
      }
      match z.value
      case Back =>
        InsertAt(v, 0);
      case Above(w) =>
        if w.Some? {
          InsertAbove(v, w.value);
        } else {
          InsertAt(v, 0);
        }
      case Below(w) =>
        if w.Some? {
          InsertBelow(v, w.value);
        } else {
          Add(v);
        }
      case Front =>
        Add(v);
    }
  }
}
