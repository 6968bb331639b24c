/** Value types shared by both revisions of the library: optional values, the
    relation of a layout constraint, axes, edges and attributes, the objects a
    constraint can name, and the abstract constraint record that stands for a
    native layout constraint. */
module Types {

  datatype Option<T> = None | Some(value: T)

  /** A relation of a layout constraint. Its raw values are -1, 0 and 1. */
  datatype Relation = LessThanOrEqual | Equal | GreaterThanOrEqual

  function RawValue(r: Relation): (raw: int)
    ensures -1 <= raw <= 1
  {
    match r
    case LessThanOrEqual => -1
    case Equal => 0
    case GreaterThanOrEqual => 1
  }

  /** The failable initialiser `Relation(rawValue:)`: nil outside -1..1. */
  function RelationOfRaw(raw: int): (r: Option<Relation>)
    ensures r.Some? <==> -1 <= raw <= 1
    ensures r.Some? ==> RawValue(r.value) == raw
  {
    if raw == -1 then Some(LessThanOrEqual)
    else if raw == 0 then Some(Equal)
    else if raw == 1 then Some(GreaterThanOrEqual)
    else None
  }

  /** Swaps >= and <=, keeps ==. */
  function Flip(r: Relation): (f: Relation)
    ensures RawValue(f) == -RawValue(r)
  {
    match r
    case LessThanOrEqual => GreaterThanOrEqual
    case Equal => Equal
    case GreaterThanOrEqual => LessThanOrEqual
  }

  /** `Int(x)` of a CGFloat: truncation toward zero. */
  function Trunc(x: real): (n: int)
    ensures x >= 0.0 ==> n as real <= x < n as real + 1.0
    ensures x < 0.0 ==> n as real - 1.0 < x <= n as real
  {
    if x >= 0.0 then x.Floor else -((-x).Floor)
  }

  datatype Axis = X | Y

  datatype Position = Begin | Center | End

  /** The six edges an item can be pinned by. */
  datatype BoxEdge = Top | Left | Right | Bottom | CenterX | CenterY

  /** The layout attributes of a native constraint that the library touches,
      plus the ones it never produces (baselines, margins, no attribute). */
  datatype Attribute =
    | Left | Right | Top | Bottom | Leading | Trailing
    | Width | Height | CenterX | CenterY
    | LastBaseline | FirstBaseline | LeftMargin | RightMargin
    | TopMargin | BottomMargin | LeadingMargin | TrailingMargin
    | CenterXWithinMargins | CenterYWithinMargins | NotAnAttribute

  /** The semantic content attribute of a view. */
  datatype SemanticContentAttribute =
    Unspecified | Playback | Spatial | ForceLeftToRight | ForceRightToLeft

  /** The layout direction the system resolves for a semantic content attribute. */
  datatype LayoutDirection = LeftToRight | RightToLeft

  datatype Insets = Insets(top: real, left: real, bottom: real, right: real)

  const ZeroInsets := Insets(0.0, 0.0, 0.0, 0.0)

  /** The inset on the side an edge lies on; a centre edge lies on no side. */
  function SideInset(i: Insets, e: BoxEdge): real
  {
    match e
    case Top => i.top
    case Left => i.left
    case Bottom => i.bottom
    case Right => i.right
    case CenterX => 0.0
    case CenterY => 0.0
  }

  type ViewId = int
  type GuideId = int

  /** An opaque layoutable object: a view or a layout guide. */
  datatype Obj = View(vid: ViewId) | Guide(gid: GuideId)

  function ViewOf(o: Obj): (v: Option<ViewId>)
    ensures v.Some? <==> o.View?
  {
    if o.View? then Some(o.vid) else None
  }

  /** An anchor: one attribute of one object. */
  datatype Anchor = Anchor(obj: Obj, attr: Attribute)

  /** The abstract record standing for a native layout constraint:
      first anchor (relation) multiplier * second anchor + constant, at a priority. */
  datatype Constraint = Constraint(
    first: Anchor,
    relation: Relation,
    second: Option<Anchor>,
    multiplier: real,
    constant: real,
    priority: real)

  const Required: real := 1000.0
  const DefaultHigh: real := 750.0
  const DefaultLow: real := 250.0

  /** How many times `x` occurs in `s`. */
  function Count<T(==)>(s: seq<T>, x: T): (n: nat)
    ensures n <= |s|
    ensures n == 0 <==> x !in s
    decreases |s|
  {
    if |s| == 0 then 0
    else
      assert s == s[..|s| - 1] + [s[|s| - 1]];
      Count(s[..|s| - 1], x) + (if s[|s| - 1] == x then 1 else 0)
  }

  /** The elements of a sequence, as a set. */
  function Elems<T>(s: seq<T>): set<T>
  {
    set x | x in s
  }

  /** No element occurs twice. */
  predicate Distinct<T(==)>(s: seq<T>)
  {
    forall i, j :: 0 <= i < j < |s| ==> s[i] != s[j]
  }

  lemma ElemsAppend<T>(a: seq<T>, b: seq<T>)
    ensures Elems(a + b) == Elems(a) + Elems(b)
  {
    assert forall x :: x in a + b <==> x in a || x in b;
  }

  /** Appending four lists one by one is appending their concatenation. */
  lemma AppendFour<T>(a: seq<T>, b: seq<T>, c: seq<T>, d: seq<T>, e: seq<T>)
    ensures a + b + c + d + e == a + (b + c + d + e)
  {
  }

  /** Each part of a four-part concatenation is the slice at its offset. */
  lemma SlicesOfFour<T>(a: seq<T>, b: seq<T>, c: seq<T>, d: seq<T>)
    ensures var g := a + b + c + d;
      g[..|a|] == a && g[|a|..|a| + |b|] == b
      && g[|a| + |b|..|a| + |b| + |c|] == c && g[|a| + |b| + |c|..] == d
  {
  }

  /** A list is empty exactly when it has no elements. */
  lemma NoElems<T>(s: seq<T>)
    ensures Elems(s) == {} <==> s == []
  {
    if s != [] {
      assert s[0] in Elems(s);
    }
  }

  /** The set of constraints the native layout engine currently has active.
      Activating and deactivating become set union and difference. */
  class ActiveConstraints {
    var active: set<Constraint>

    constructor ()
      ensures active == {}
    {
      active := {};
    }

    method Activate(cs: seq<Constraint>)
      modifies this
      ensures active == old(active) + Elems(cs)
    {
      active := active + Elems(cs);
    }

    method Deactivate(cs: seq<Constraint>)
      modifies this
      ensures active == old(active) - Elems(cs)
    {
      active := active - Elems(cs);
    }

    /** `NSLayoutConstraint.activate(Array(set))` */
    method ActivateAll(cs: set<Constraint>)
      modifies this
      ensures active == old(active) + cs
    {
      active := active + cs;
    }

    /** `NSLayoutConstraint.deactivate(Array(set))` */
    method DeactivateAll(cs: set<Constraint>)
      modifies this
      ensures active == old(active) - cs
    {
      active := active - cs;
    }
  }
}
