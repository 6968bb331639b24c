# BoxView, modelled in Dafny

BoxView is a UIKit library that lays out a list of *box items* with Auto
Layout. A box item is a view or a layout guide plus a *box layout*: an
optional pin (constant, relation, priority) for each of the six edges top,
left, bottom, right, centre x and centre y, optional fixed and relative
sizes, and an optional flex weight. A `BoxView` container keeps its items
along one axis: each item is chained to the previous one (or to the
container's begin edge), pinned across the other axis, and the last item is
tied to the container's end edge. Fixed sizes, relative sizes and flex ratios
add dimension constraints. The container manages the subviews and layout
guides of its items: assigning `items` removes the subviews and guides that
are no longer used, adds the missing ones, and rebuilds the constraints on
the next constraint update. Items can be inserted after or before another
item, have their layout replaced, or be hidden (with `excludeHiddenViews`).
`ConstraintSwitch` keeps two sets of constraints and activates one or the
other according to a boolean state.

The repository holds two revisions, and both are modelled:

* `Sources/BoxView` is the current library: pins with priorities, direction
  handling through the semantic content attribute, `BoxView` with managed
  views and guides, z-positions and `excludeHiddenViews`. Modules `Types`,
  `Pin`, `Enums`, `Layout`, `Anchors`, `Directions`, `Engine`,
  `EngineMirror`, `BoxUtils`, `ManagedSets`, `BoxView`, `Switch`.
* `BoxViewLayout` is the earlier revision: priority-free pins, the `X`/`Y`
  and `H`/`V` axis pairs, item builders, and an older `BoxView` and chain
  engine. Modules `LegacyPin`, `LegacyEnums`, `LegacyLayout`, `LegacyXY`,
  `LegacyHV`, `LegacyItem`, `LegacyItemCreate`, `LegacyEngine`,
  `LegacyBoxView`. Some files of this directory call the current API
  (`BoxLayout.Pin+Operators.swift`, `UIView+NSLayoutConstraints.swift`,
  `UIView+BoxItem.swift`, `BoxView.swift`); they are modelled over the
  current types in `PinOperators`, `ConstraintsApi`, `ViewBoxItems` and
  `LegacyBoxView`. The older `BoxView` builds its constraints with the
  current engine's signatures (an `insets:` argument, `createDimensions` on
  the items), which the older `createChainConstraints` does not have, so
  `LegacyBoxView` is specified by `Engine.Generated`.

Native objects are abstract: a view or guide is an identifier, an anchor is
an object and an attribute, and a layout constraint is a record of its two
anchors, relation, multiplier, constant and priority. The native engine is a
class holding the set of active constraints (`Types.ActiveConstraints`); a
view's subview list, back to front, is a class holding a sequence
(`BoxUtils.Subviews`). Sizes and constants are `real`. The constraint
builders of both engines are loops in the source, so they are methods whose
contracts tie their result to a specification function (`Chain`,
`FlexLoop`, `Fixed`, `Relative`), and the properties the library promises
are lemmas about those functions: exactly one constraint per present pin,
the first item chained to the container, the last item closing the chain,
flex ratios tied to the first flexible item, the whole chain aborting
exactly when two neighbouring pins cannot be summed, and forcing right to
left being the mirror image of left to right. `BoxView` is a class whose
methods keep its managed views and guides equal, as sets and without
duplicates, to the views and guides of its items.

## Model

`BoxViewLayout/BoxLayput+HV.swift` declares `H` and `V` member for member
like `X` and `Y` of `BoxViewLayout/BoxLayput+XY.swift`, at the same lines;
`LegacyHV` makes them the same types, so the `LegacyXY` rows below model
both files. `BoxViewLayout/ConstraintSwitch.swift` is
`Sources/BoxView/ConstraintSwitch.swift` without the `public` modifiers,
two lines higher; the `Switch` rows model both.

| member | source | states |
|---|---|---|
| Types.RelationOfRaw | Sources/BoxView/BoxLayout.Pin.swift:109 | the failable `Relation(rawValue:)`: defined exactly for -1, 0 and 1, and the inverse of the raw value |
| Types.Flip | Sources/BoxView/BoxLayout.Pin.swift:109 | multiplying a relation's raw value by -1 swaps `>=` and `<=` and keeps `==` |
| Types.Trunc | Sources/BoxView/BoxLayout.Pin.swift:109 | `Int(factor)` truncates toward zero, for positive and negative factors |
| Types.ActiveConstraints.Activate | Sources/BoxView/ConstraintSwitch.swift:21 | activating adds exactly the given constraints to the active set |
| Types.ActiveConstraints.Deactivate | Sources/BoxView/ConstraintSwitch.swift:20 | deactivating removes exactly the given constraints |
| Types.ActiveConstraints.ActivateAll | Sources/BoxView/ConstraintSwitch.swift:34 | `activate(Array(set))` adds the set |
| Types.ActiveConstraints.DeactivateAll | Sources/BoxView/ConstraintSwitch.swift:37 | `deactivate(Array(set))` removes the set |
| Pin.DefaultPin | Sources/BoxView/BoxLayout.Pin.swift:23-27 | the defaulted initialiser gives a zero, equal, required pin |
| Pin.FromDouble | Sources/BoxView/BoxLayout.Pin.swift:29-31 | a number makes an equal, required pin of that constant |
| Pin.Zero | Sources/BoxView/BoxLayout.Pin.swift:33 | `zero` is the defaulted pin |
| Pin.Factory | Sources/BoxView/BoxLayout.Pin.swift:35-60 | the optional factories: nil exactly for a nil constant, else a required pin of that constant and relation |
| Pin.EqualPin | Sources/BoxView/BoxLayout.Pin.swift:35-42 | `equal(_:)`: nil for nil, else an `==` pin of that constant |
| Pin.GreaterThanOrEqualPin | Sources/BoxView/BoxLayout.Pin.swift:44-51 | `greaterThanOrEqual(_:)`: nil for nil, else a `>=` pin of that constant |
| Pin.LessThanOrEqualPin | Sources/BoxView/BoxLayout.Pin.swift:53-60 | `lessThanOrEqual(_:)`: nil for nil, else a `<=` pin of that constant |
| Pin.WithPriority | Sources/BoxView/BoxLayout.Pin.swift:62-64 | only the priority changes, to the given one |
| Pin.AlmostRequired | Sources/BoxView/BoxLayout.Pin.swift:66-72 | only the priority changes, to 999 |
| Pin.RequiredOffset | Sources/BoxView/BoxLayout.Pin.swift:74-78 | only the priority changes, to 1000 plus the offset |
| Pin.High | Sources/BoxView/BoxLayout.Pin.swift:80-84 | only the priority changes, to 750 plus the offset |
| Pin.Low | Sources/BoxView/BoxLayout.Pin.swift:86-90 | only the priority changes, to 250 plus the offset |
| Pin.Exact | Sources/BoxView/BoxLayout.Pin.swift:92-96 | only the priority changes, to the given value |
| Pin.WithInset | Sources/BoxView/BoxLayout.Pin.swift:106-111 | the constant becomes (constant + inset) * factor, the priority stays, the relation stays for factor 1 and flips for factor -1; the force unwrap is a precondition |
| Pin.InsetFactorDomain | Sources/BoxView/BoxLayout.Pin.swift:106-111 | the factors 1 and -1 never hit the force unwrap; a factor of 2 does for any inequality |
| Pin.WithInsetMirrorTwice | Sources/BoxView/BoxLayout.Pin.swift:106-111 | mirroring a pin twice with no inset gives the pin back |
| Pin.MultiConstantRoundTrip | Sources/BoxView/BoxLayout.Pin.swift:118-121 | the constant read back after a set is the one set, and writing back the constant read changes nothing |
| Pin.MultiRelationRoundTrip | Sources/BoxView/BoxLayout.Pin.swift:123-126 | the relation read back after a set is the one set, and writing back the relation read changes nothing |
| Pin.MultiPriorityRoundTrip | Sources/BoxView/BoxLayout.Pin.swift:128-131 | the priority read back after a set is the one set, and writing back the priority read changes nothing |
| Pin.SetMultiConstant | Sources/BoxView/BoxLayout.Pin.swift:118-121 | setting the constant changes nothing else |
| Pin.SetMultiRelation | Sources/BoxView/BoxLayout.Pin.swift:123-126 | setting the relation changes nothing else |
| Pin.SetMultiPriority | Sources/BoxView/BoxLayout.Pin.swift:128-131 | setting the priority changes nothing else |
| Pin.MultiOf | Sources/BoxView/BoxLayout.Pin.swift:133-135 | wraps the pin with multiplier 1 |
| Pin.MultiOfOptional | Sources/BoxView/BoxLayout.Pin.swift:137-144 | nil exactly for nil, else the wrapped pin |
| Pin.MultiWithPriority | Sources/BoxView/BoxLayout.Pin.swift:146-150 | only the pin's priority changes; the multiplier stays |
| Pin.MultiAlmostRequired | Sources/BoxView/BoxLayout.Pin.swift:152-158 | priority 999, nothing else changes |
| Pin.MultiRequired | Sources/BoxView/BoxLayout.Pin.swift:160-164 | priority 1000 plus the offset, nothing else changes |
| Pin.MultiHigh | Sources/BoxView/BoxLayout.Pin.swift:166-170 | priority 750 plus the offset, nothing else changes |
| Pin.MultiLow | Sources/BoxView/BoxLayout.Pin.swift:172-176 | priority 250 plus the offset, nothing else changes |
| Pin.MultiExact | Sources/BoxView/BoxLayout.Pin.swift:178-182 | the given priority, nothing else changes |
| Pin.MultiWith | Sources/BoxView/BoxLayout.Pin.swift:184-187 | that multiplier around that pin |
| Pin.MultiFromParts | Sources/BoxView/BoxLayout.Pin.swift:189-193 | that multiplier, constant and relation, and required priority |
| Pin.MultiFromDouble | Sources/BoxView/BoxLayout.Pin.swift:195-197 | that multiplier around the zero pin |
| Pin.JoinRelations | Sources/BoxView/BoxLayout.Pin.swift:212-222 | two relations join exactly when they are equal or one is `==`; the result is the one that is not `==` |
| Pin.JoinRelationsCommutes | Sources/BoxView/BoxLayout.Pin.swift:212-222 | joining does not depend on the order of the operands |
| PinOperators.Add | BoxViewLayout/BoxLayout.Pin+Operators.swift:11-15 | the sum is defined exactly when both pins are present and their relations join; constants add, the relation is the joined one, the priority is the lower one |
| PinOperators.AddCommutes | BoxViewLayout/BoxLayout.Pin+Operators.swift:11-15 | pin summation is commutative |
| PinOperators.AddZeroIdentity | BoxViewLayout/BoxLayout.Pin+Operators.swift:11-15 | adding the zero pin keeps a pin, capping its priority at required |
| PinOperators.AddValue | BoxViewLayout/BoxLayout.Pin+Operators.swift:17-19 | adding a value changes only the constant |
| PinOperators.AddValueOptional | BoxViewLayout/BoxLayout.Pin+Operators.swift:21-26 | nil stays nil; a pin gets the value added |
| PinOperators.AddValueTwice | BoxViewLayout/BoxLayout.Pin+Operators.swift:17-19 | adding two values in turn is adding their sum |
| PinOperators.PinAndPriority | BoxViewLayout/BoxLayout.Pin+Operators.swift:28-30 | `pin & priority` changes only the priority |
| PinOperators.PriorityAndPin | BoxViewLayout/BoxLayout.Pin+Operators.swift:32-34 | `priority & pin` is the same as `pin & priority` and as `withPriority` |
| PinOperators.PinTimes | BoxViewLayout/BoxLayout.Pin+Operators.swift:37-40 | nil stays nil; a pin becomes a multi-pin with that multiplier |
| PinOperators.MultiPinTimes | BoxViewLayout/BoxLayout.Pin+Operators.swift:42-45 | nil stays nil; the multiplier is multiplied, the pin kept |
| PinOperators.MultiPinTimesTwice | BoxViewLayout/BoxLayout.Pin+Operators.swift:37-45 | multiplying twice is multiplying by the product |
| PinOperators.MultiPinAndPriority | BoxViewLayout/BoxLayout.Pin+Operators.swift:47-49 | only the pin's priority changes |
| PinOperators.PriorityAndMultiPin | BoxViewLayout/BoxLayout.Pin+Operators.swift:51-53 | the same as the other operand order |
| PinOperators.PrefixTimes | BoxViewLayout/BoxLayout.Pin+Operators.swift:56-63 | prefix `*` makes that multiplier around the zero pin |
| PinOperators.PrefixGreaterThanOrEqual | BoxViewLayout/BoxLayout.Pin+Operators.swift:65-73 | prefix `>=` makes a required `>=` pin |
| PinOperators.PrefixLessThanOrEqual | BoxViewLayout/BoxLayout.Pin+Operators.swift:85-93 | prefix `<=` makes a required `<=` pin |
| PinOperators.PrefixEqual | BoxViewLayout/BoxLayout.Pin+Operators.swift:106-114 | prefix `==` makes a required `==` pin |
| PinOperators.PrefixGreaterThanOrEqualOptional | BoxViewLayout/BoxLayout.Pin+Operators.swift:74-83 | nil for nil, else the `>=` pin |
| PinOperators.PrefixLessThanOrEqualOptional | BoxViewLayout/BoxLayout.Pin+Operators.swift:95-104 | nil for nil, else the `<=` pin |
| PinOperators.PrefixEqualOptional | BoxViewLayout/BoxLayout.Pin+Operators.swift:116-125 | nil for nil, else the `==` pin |
| PinOperators.SumOfPrefixPins | BoxViewLayout/BoxLayout.Pin+Operators.swift:11-15 | `>=a + >=b` and `>=a + ==b` are `>=(a+b)`; `>=a + <=b` has no sum |
| LegacyPin.DefaultPin | BoxViewLayout/BoxLayout+Pin.swift:22-25 | the defaulted initialiser gives a zero, equal pin |
| LegacyPin.FromDouble | BoxViewLayout/BoxLayout+Pin.swift:27-29 | a number makes an equal pin of that constant |
| LegacyPin.Zero | BoxViewLayout/BoxLayout+Pin.swift:31 | `zero` is the defaulted pin |
| LegacyPin.Factory | BoxViewLayout/BoxLayout+Pin.swift:33-58 | the optional factories: nil exactly for a nil constant, else a pin of that constant and relation |
| LegacyPin.EqualPin | BoxViewLayout/BoxLayout+Pin.swift:33-40 | nil for nil, else an `==` pin of that constant |
| LegacyPin.GreaterThanOrEqualPin | BoxViewLayout/BoxLayout+Pin.swift:42-49 | nil for nil, else a `>=` pin of that constant |
| LegacyPin.LessThanOrEqualPin | BoxViewLayout/BoxLayout+Pin.swift:51-58 | nil for nil, else a `<=` pin of that constant |
| LegacyPin.JoinRelations | BoxViewLayout/BoxLayout+Pin.swift:60-70 | two relations join exactly when they are equal or one is `==`; the result is the one that is not `==` |
| LegacyPin.PairZero | BoxViewLayout/BoxLayout+Pin.swift:79 | both ends of `Pair.zero` are the zero pin |
| LegacyPin.Pins | BoxViewLayout/BoxLayout+Pin.swift:81-83 | `Pair.pins` keeps both pins as given |
| LegacyPin.SetMultiConstant | BoxViewLayout/BoxLayout+Pin.swift:94-97 | setting a multi-pin's constant changes nothing else |
| LegacyPin.SetMultiRelation | BoxViewLayout/BoxLayout+Pin.swift:99-102 | setting a multi-pin's relation changes nothing else |
| LegacyPin.MultiOf | BoxViewLayout/BoxLayout+Pin.swift:104-106 | wraps the pin with multiplier 1 |
| LegacyPin.MultiOfOptional | BoxViewLayout/BoxLayout+Pin.swift:108-115 | nil exactly for nil, else the wrapped pin |
| LegacyPin.MultiWith | BoxViewLayout/BoxLayout+Pin.swift:117-120 | that multiplier around that pin |
| LegacyPin.MultiFromParts | BoxViewLayout/BoxLayout+Pin.swift:122-126 | that multiplier, constant and relation |
| LegacyPin.MultiFromDouble | BoxViewLayout/BoxLayout+Pin.swift:128-130 | that multiplier around the zero pin |
| LegacyPin.Add | BoxViewLayout/BoxLayout+Pin.swift:135-139 | the sum is defined exactly when both pins are present and their relations join; the constants add |
| LegacyPin.AddCommutes | BoxViewLayout/BoxLayout+Pin.swift:135-139 | pin summation is commutative |
| LegacyPin.AddAssociative | BoxViewLayout/BoxLayout+Pin.swift:135-139 | pin summation is associative, including where one grouping has no sum |
| LegacyPin.AddValue | BoxViewLayout/BoxLayout+Pin.swift:141-143 | adding a value changes only the constant |
| LegacyPin.AddValueOptional | BoxViewLayout/BoxLayout+Pin.swift:145-150 | nil stays nil; a pin gets the value added |
| LegacyPin.AddValueIsAddEqual | BoxViewLayout/BoxLayout+Pin.swift:141-150 | adding a value is summing with an equal pin of that value |
| LegacyPin.PinTimes | BoxViewLayout/BoxLayout+Pin.swift:154-157 | nil stays nil; a pin becomes a multi-pin with that multiplier |
| LegacyPin.MultiPinTimes | BoxViewLayout/BoxLayout+Pin.swift:159-162 | nil stays nil; the multiplier is multiplied, the pin kept |
| LegacyPin.PrefixTimes | BoxViewLayout/BoxLayout+Pin.swift:164-171 | prefix `*` makes that multiplier around the zero pin |
| LegacyPin.PrefixGreaterThanOrEqual | BoxViewLayout/BoxLayout+Pin.swift:173-181 | prefix `>=` makes a `>=` pin |
| LegacyPin.PrefixLessThanOrEqual | BoxViewLayout/BoxLayout+Pin.swift:193-201 | prefix `<=` makes a `<=` pin |
| LegacyPin.PrefixEqual | BoxViewLayout/BoxLayout+Pin.swift:214-222 | prefix `==` makes an `==` pin |
| LegacyPin.PrefixGreaterThanOrEqualOptional | BoxViewLayout/BoxLayout+Pin.swift:182-191 | nil for nil, else the `>=` pin |
| LegacyPin.PrefixLessThanOrEqualOptional | BoxViewLayout/BoxLayout+Pin.swift:203-212 | nil for nil, else the `<=` pin |
| LegacyPin.PrefixEqualOptional | BoxViewLayout/BoxLayout+Pin.swift:224-233 | nil for nil, else the `==` pin |
| LegacyPin.AlPinConstraint | BoxViewLayout/BoxLayout+Pin.swift:237-245 | `alPin` relates the two attributes of the two views with the pin's relation and constant, multiplier 1, required |
| LegacyPin.AlPin | BoxViewLayout/BoxLayout+Pin.swift:237-248 | `alPin` returns that constraint and activates exactly it |
| Enums.Other | Sources/BoxView/BoxLayout+Enums.swift:20-22 | the other axis differs from the axis |
| Enums.OtherInvolution | Sources/BoxView/BoxLayout+Enums.swift:20-22 | taking the other axis twice gives the axis back |
| Enums.EdgePosition | Sources/BoxView/BoxLayout+Enums.swift:81-90 | centre edges are at the centre, top and left at the begin, bottom and right at the end |
| Enums.EdgeForPosition | Sources/BoxView/BoxLayout+Enums.swift:24-30 | the edge for a position lies on that axis and has that position |
| Enums.OnExactlyOneAxis | Sources/BoxView/BoxLayout+Enums.swift:24-30 | every edge lies on exactly one axis |
| Enums.EdgeForPositionBijective | Sources/BoxView/BoxLayout+Enums.swift:24-30 | `edgeForPosition` is one to one over (axis, position) and reaches every edge |
| Enums.EdgeAttribute | Sources/BoxView/BoxLayout+Enums.swift:70-79 | left and right become leading and trailing exactly when direction-dependent; every other result is the edge's namesake attribute |
| Enums.AttributeEdge | Sources/BoxView/BoxLayout+Enums.swift:96-106 | the six namesake attributes have an edge, every other attribute has none |
| Enums.AttributeEdgeInverse | Sources/BoxView/BoxLayout+Enums.swift:70-106 | `edge` inverts the direction-independent `attribute` both ways; leading and trailing have no edge |
| LegacyEnums.Other | BoxViewLayout/BoxLayout+Enums.swift:63-65 | the other axis differs from the axis |
| LegacyEnums.OtherInvolution | BoxViewLayout/BoxLayout+Enums.swift:63-65 | taking the other axis twice gives the axis back |
| LegacyEnums.EdgeForPosition | BoxViewLayout/BoxLayout+Enums.swift:67-73 | top, centre y, bottom on y and left, centre x, right on x, by position |
| LegacyEnums.EdgeAttribute | BoxViewLayout/BoxLayout+Enums.swift:26-35 | left and right become leading and trailing exactly when semantic-dependent; every other result is the edge's namesake attribute |
| LegacyEnums.AttributeEdge | BoxViewLayout/BoxLayout+Enums.swift:42-55 | the six namesake attributes have an edge, every other attribute has none |
| LegacyEnums.AttributeEdgeInverse | BoxViewLayout/BoxLayout+Enums.swift:26-55 | `edge` inverts the semantic-independent `attribute` both ways |
| LegacyEnums.InsetBegin | BoxViewLayout/BoxLayout+Enums.swift:81-83 | the begin inset is the inset on the side of the axis's begin edge (top on y, left on x) |
| LegacyEnums.InsetEnd | BoxViewLayout/BoxLayout+Enums.swift:85-87 | the end inset is the inset on the side of the axis's end edge (bottom on y, right on x) |
| LegacyEnums.InsetForAxis | BoxViewLayout/BoxLayout+Enums.swift:89-95 | begin and end insets by position; the centre inset is always 0 |
| LegacyEnums.InsetForAxisIsSideInset | BoxViewLayout/BoxLayout+Enums.swift:89-95 | at every position the inset is the inset on the side of that position's edge, none for a centre edge |
| LegacyEnums.InsetForAxisBySide | BoxViewLayout/BoxLayout+Enums.swift:89-95 | each begin or end inset is the inset on that side |
| Anchors.DispatchRelation | BoxViewLayout/BoxItem.swift:19-23 | the relation switch of `pin(_:to:)` builds a constraint of the pin's own relation |
| Anchors.AnchorPin | BoxViewLayout/BoxItem.swift:17-35 | `pin(_:to:)` relates the two anchors with the pin's relation and constant, multiplier 1, at required priority |
| Anchors.DimensionPin | BoxViewLayout/UIView+NSLayoutConstraints.swift:75-101 | a dimension pinned to a constant has no second anchor and carries the pin's relation and constant |
| Anchors.DimensionRatio | BoxViewLayout/UIView+NSLayoutConstraints.swift:31-62 | a dimension pinned to another carries the multiplier, relation and constant |
| Directions.XBeginAttr | Sources/BoxView/UIView+InternalConstraintCreation.swift:15-21 | leading exactly when unspecified, right exactly when forced right to left, left otherwise |
| Directions.XEndAttr | Sources/BoxView/UIView+InternalConstraintCreation.swift:23-29 | trailing exactly when unspecified, left exactly when forced right to left, right otherwise |
| Directions.XBeginEndOpposite | Sources/BoxView/UIView+InternalConstraintCreation.swift:15-29 | begin and end are always opposite sides: leading with trailing, left with right |
| Directions.AnchorForEdge | Sources/BoxView/UIView+InternalConstraintCreation.swift:117-126 | left and right go through the x begin and end anchors, the other edges to their namesakes |
| Directions.AnchorForEdgeAgreesWithEdgeAttribute | Sources/BoxView/UIView+InternalConstraintCreation.swift:117-126 | unspecified routing is the direction-dependent attribute; forced left to right is the plain one |
| Directions.BeginAttr | Sources/BoxView/UIView+InternalConstraintCreation.swift:31-33 | the begin anchor is the anchor of the begin edge of that axis |
| Directions.EndAttr | Sources/BoxView/UIView+InternalConstraintCreation.swift:35-37 | the end anchor is the anchor of the end edge of that axis |
| Directions.CenterAttr | Sources/BoxView/UIView+InternalConstraintCreation.swift:39-41 | the centre anchor is the anchor of the centre edge, whatever the attribute |
| Directions.LayoutFactor | Sources/BoxView/UIView+InternalConstraintCreation.swift:62-66 | -1 exactly on x when forced right to left, else 1 |
| Directions.LanguageFactor | Sources/BoxView/UIView+InternalConstraintCreation.swift:55-60 | -1 exactly on x when the resolved direction is right to left, else 1 |
| Directions.BeginForAxis | Sources/BoxView/UIView+InternalConstraintCreation.swift:43-45 | the inset on the side of the axis's begin edge: top on y, left on x |
| Directions.EndForAxis | Sources/BoxView/UIView+InternalConstraintCreation.swift:47-49 | the inset on the side of the axis's end edge: bottom on y, right on x |
| Directions.CenterOffsetForAxis | Sources/BoxView/UIView+InternalConstraintCreation.swift:51-53 | half of begin minus end; zero for equal insets |
| Directions.InsetForAxis | Sources/BoxView/UIView+InternalConstraintCreation.swift:140-146 | begin, centre offset or end inset, by position |
| Directions.InsetForAxisBySide | Sources/BoxView/UIView+InternalConstraintCreation.swift:140-146 | read by side: the begin and end insets are those of the sides of the axis's edges, the centre offset half their difference |
| Layout.ZeroLayout | BoxViewLayout/BoxLayout.swift:43 | the zero layout has zero pins on the four sides and nothing else |
| LegacyLayout.Empty | BoxViewLayout/BoxLayout.swift:31-32 | `BoxLayout()` has no pin on any edge and no size or flex |
| LegacyLayout.WithPins | BoxViewLayout/BoxLayout.swift:34-41 | the four side pins as given, no centres, nothing else |
| LegacyLayout.Zero | BoxViewLayout/BoxLayout.swift:43 | zero pins on the four sides, no centres |
| LegacyLayout.Pairs | BoxViewLayout/BoxLayout.swift:45-47 | the x pair on left and right, the y pair on top and bottom |
| LegacyLayout.With | BoxViewLayout/BoxLayout.swift:49-58 | `setPin` and `with` set exactly that edge and keep every other edge and extra |
| LegacyLayout.Extensionality | BoxViewLayout/BoxLayout.swift:15-29 | two layouts with the same pins and extras are equal |
| LegacyLayout.WithLastWins | BoxViewLayout/BoxLayout.swift:92-96 | setting an edge twice keeps the second pin |
| LegacyLayout.WithCommutes | BoxViewLayout/BoxLayout.swift:92-96 | setting two different edges commutes |
| LegacyLayout.BoxEdgePinsOverrides | BoxViewLayout/BoxLayout.swift:60-66 | whatever order the dictionary is visited in, every listed edge reads its pin and every other edge keeps the zero layout's |
| LegacyLayout.XAligned | BoxViewLayout/BoxLayout.swift:68-78 | centre x at the offset, `>=padding` on left and right when there is a padding, none otherwise, zero top and bottom |
| LegacyLayout.YAligned | BoxViewLayout/BoxLayout.swift:80-90 | centre y at the offset, `>=padding` on top and bottom when there is a padding, zero left and right |
| LegacyLayout.AlignedMirror | BoxViewLayout/BoxLayout.swift:68-90 | `yAligned` is `xAligned` with the axes exchanged |
| LegacyLayout.BeginPin | BoxViewLayout/BoxLayout.swift:98-100 | top on y, left on x |
| LegacyLayout.EndPin | BoxViewLayout/BoxLayout.swift:102-104 | bottom on y, right on x |
| LegacyLayout.CenterPin | BoxViewLayout/BoxLayout.swift:106-108 | centre y on y, centre x on x |
| LegacyLayout.PinForAxis | BoxViewLayout/BoxLayout.swift:110-116 | the pin of the edge at that position of that axis |
| LegacyLayout.ReadersAgree | BoxViewLayout/BoxLayout.swift:98-116 | `begin`, `center` and `end` agree with `pinForAxis` |
| LegacyLayout.WithFlex | BoxViewLayout/BoxItem+Create.swift:178-185 | `withFlex` sets the flex weight and keeps every pin and size |
| LegacyXY.XZero | BoxViewLayout/BoxLayput+XY.swift:21 | zero left and right, no centre |
| LegacyXY.XAlign | BoxViewLayout/BoxLayput+XY.swift:23-32 | centred at the offset; `>=padding` on both sides exactly when there is a padding |
| LegacyXY.XLeftRight | BoxViewLayout/BoxLayput+XY.swift:34-38 | `==` pins of the given values, nil for nil, no centre |
| LegacyXY.XLeftRightPins | BoxViewLayout/BoxLayput+XY.swift:40-44 | the pins as given, no centre |
| LegacyXY.XLeftRightIsPins | BoxViewLayout/BoxLayput+XY.swift:34-44 | `leftRight` (alias `lr`) is `leftRightPins` of the `==` pins |
| LegacyXY.XAlignAgreesWithLayout | BoxViewLayout/BoxLayput+XY.swift:23-32 | `X.align` puts the same x pins as the layout's `xAligned` |
| LegacyXY.YZero | BoxViewLayout/BoxLayput+XY.swift:56 | zero top and bottom, no centre |
| LegacyXY.YAlign | BoxViewLayout/BoxLayput+XY.swift:58-67 | centred at the offset; `>=padding` on both sides exactly when there is a padding |
| LegacyXY.YTopBottom | BoxViewLayout/BoxLayput+XY.swift:69-71 | `==` pins of the given values, nil for nil, no centre |
| LegacyXY.YTopBottomPins | BoxViewLayout/BoxLayput+XY.swift:73-75 | the pins as given, no centre |
| LegacyXY.YMirrorsX | BoxViewLayout/BoxLayput+XY.swift:48-80 | `Y` is `X` on the other axis, and `tb` is `topBottom` |
| LegacyXY.YAlignAgreesWithLayout | BoxViewLayout/BoxLayput+XY.swift:58-67 | `Y.align` puts the same y pins as the layout's `yAligned` |
| LegacyItem.View | BoxViewLayout/BoxItem.swift:63-66 | the view getter is present exactly for a view item, and is its object |
| LegacyItem.Guide | BoxViewLayout/BoxItem.swift:74-77 | the guide getter is present exactly for a guide item, and is its object |
| LegacyItem.SetView | BoxViewLayout/BoxItem.swift:67-71 | a view replaces the object, nil changes nothing; the layout stays |
| LegacyItem.SetGuide | BoxViewLayout/BoxItem.swift:78-82 | a guide replaces the object, nil changes nothing; the layout stays |
| LegacyItem.SetViewGet | BoxViewLayout/BoxItem.swift:63-72 | reading back a set view gives it; the last set wins |
| LegacyItem.FromView | BoxViewLayout/BoxItem.swift:85-88 | `init(view:layout:)` holds that view and layout |
| LegacyItem.FromObj | BoxViewLayout/BoxItem.swift:90-93 | `init(alObj:layout:)` holds that object and layout |
| LegacyItem.Gated | BoxViewLayout/BoxItem.swift:94-117 | an item anchor exists exactly when its gating pin does, and is the object's anchor |
| LegacyItem.LeftAnchor | BoxViewLayout/BoxItem.swift:94-96 | present exactly with a left pin |
| LegacyItem.LeadingAnchor | BoxViewLayout/BoxItem.swift:97-99 | present exactly with a left pin |
| LegacyItem.RightAnchor | BoxViewLayout/BoxItem.swift:100-102 | present exactly with a right pin |
| LegacyItem.TrailingAnchor | BoxViewLayout/BoxItem.swift:103-105 | present exactly with a left pin, as written |
| LegacyItem.CenterXAnchor | BoxViewLayout/BoxItem.swift:106-108 | present exactly with a centre x pin |
| LegacyItem.TopAnchor | BoxViewLayout/BoxItem.swift:109-111 | present exactly with a top pin |
| LegacyItem.BottomAnchor | BoxViewLayout/BoxItem.swift:112-114 | present exactly with a bottom pin |
| LegacyItem.CenterYAnchor | BoxViewLayout/BoxItem.swift:115-117 | present exactly with a centre y pin |
| LegacyItem.BeginAnchor | BoxViewLayout/BoxItem.swift:119-121 | present exactly with a begin pin; top on y, leading or left on x |
| LegacyItem.EndAnchor | BoxViewLayout/BoxItem.swift:123-125 | bottom on y, trailing or right on x; the direction-dependent x end follows the left pin, not the right one |
| LegacyItem.CenterAnchor | BoxViewLayout/BoxItem.swift:127-129 | present exactly with a centre pin, centre y on y and centre x on x |
| LegacyItem.TrailingFollowsLeftPin | BoxViewLayout/BoxItem.swift:103-105 | an item with only a right pin has no direction-dependent end anchor; one with only a left pin has one |
| LegacyItemCreate.SetEdge | BoxViewLayout/BoxItem+Create.swift:14-111 | the builders change exactly one edge of the layout and nothing else |
| LegacyItemCreate.Left | BoxViewLayout/BoxItem+Create.swift:14-22 | `boxLeft`/`left` with a pin set exactly the left edge |
| LegacyItemCreate.LeftValue | BoxViewLayout/BoxItem+Create.swift:24-32 | with a value, an `==` pin on the left edge |
| LegacyItemCreate.Right | BoxViewLayout/BoxItem+Create.swift:34-47 | `boxRight`/`right` set exactly the right edge |
| LegacyItemCreate.RightValue | BoxViewLayout/BoxItem+Create.swift:39-52 | with a value, an `==` pin on the right edge |
| LegacyItemCreate.Top | BoxViewLayout/BoxItem+Create.swift:64-77 | `boxTop`/`top` set exactly the top edge |
| LegacyItemCreate.TopValue | BoxViewLayout/BoxItem+Create.swift:69-82 | with a value, an `==` pin on the top edge |
| LegacyItemCreate.Bottom | BoxViewLayout/BoxItem+Create.swift:84-97 | `boxBottom`/`bottom` set exactly the bottom edge |
| LegacyItemCreate.BottomValue | BoxViewLayout/BoxItem+Create.swift:89-102 | with a value, an `==` pin on the bottom edge |
| LegacyItemCreate.LeftRight | BoxViewLayout/BoxItem+Create.swift:54-57 | set exactly the left and right edges |
| LegacyItemCreate.LeftRightValues | BoxViewLayout/BoxItem+Create.swift:59-62 | `==` pins on left and right |
| LegacyItemCreate.TopBottom | BoxViewLayout/BoxItem+Create.swift:104-107 | set exactly the top and bottom edges |
| LegacyItemCreate.TopBottomValues | BoxViewLayout/BoxItem+Create.swift:109-111 | `==` pins on top and bottom |
| LegacyItemCreate.CenterX | BoxViewLayout/BoxItem+Create.swift:114-135 | centre x at the offset; `>=padding` on left and right with a padding, left and right kept without one; y pins kept |
| LegacyItemCreate.CenterY | BoxViewLayout/BoxItem+Create.swift:139-160 | centre y at the offset; `>=padding` on top and bottom with a padding, kept without one; x pins kept |
| LegacyItemCreate.BoxIf | BoxViewLayout/BoxItem+Create.swift:162-164 | the item exactly when the condition holds |
| LegacyItemCreate.BoxGuide | BoxViewLayout/BoxItem+Create.swift:166-168 | a new guide with the zero layout |
| LegacyItemCreate.BoxFlexGuide | BoxViewLayout/BoxItem+Create.swift:178-181 | a new guide with the zero pins and that flex |
| LegacyItemCreate.BoxFlex | BoxViewLayout/BoxItem+Create.swift:183-185 | the same object and pins with that flex |
| LegacyItemCreate.SetEdgeLastWins | BoxViewLayout/BoxItem+Create.swift:14-111 | building the same edge twice keeps the second pin |
| LegacyItemCreate.SetEdgeCommutes | BoxViewLayout/BoxItem+Create.swift:14-111 | builders on different edges commute |
| LegacyItemCreate.CenterXIdempotent | BoxViewLayout/BoxItem+Create.swift:114-123 | centring twice with the same arguments is centring once |
| LegacyItemCreate.CenterYIdempotent | BoxViewLayout/BoxItem+Create.swift:139-148 | centring twice with the same arguments is centring once |
| LegacyItemCreate.CenterXOfZeroIsXAligned | BoxViewLayout/BoxItem+Create.swift:114-123 | centring a zero-layout item gives the pins of `xAligned` |
| ConstraintsApi.AutoresizingMasks.TurnOff | BoxViewLayout/UIView+NSLayoutConstraints.swift:166-169 | the view joins the set of views whose mask translation is off |
| ConstraintsApi.Al | BoxViewLayout/UIView+NSLayoutConstraints.swift:166-169 | `al` switches translation off for the view and returns the same view |
| ConstraintsApi.EdgeConstraint | BoxViewLayout/UIView+NSLayoutConstraints.swift:14-23 | the own anchor of the edge against the other object's anchor of the target edge (the same edge when none is given), routed by the content attribute, with the pin's relation and constant |
| ConstraintsApi.PinEdge | BoxViewLayout/UIView+NSLayoutConstraints.swift:14-23 | returns that constraint, and activates exactly it when asked, nothing otherwise |
| ConstraintsApi.PinEdgeOffset | BoxViewLayout/UIView+NSLayoutConstraints.swift:26-28 | the same with an `==` pin of the offset |
| ConstraintsApi.DimensionTo | BoxViewLayout/UIView+NSLayoutConstraints.swift:31-40 | a dimension against the other object's same dimension with the multi-pin's multiplier, relation and constant |
| ConstraintsApi.DimensionConstant | BoxViewLayout/UIView+NSLayoutConstraints.swift:75-84 | a dimension against a constant with the pin's relation |
| ConstraintsApi.ActivateOne | BoxViewLayout/UIView+NSLayoutConstraints.swift:38-39 | the built constraint is activated and returned |
| ConstraintsApi.PinHeightToMulti | BoxViewLayout/UIView+NSLayoutConstraints.swift:31-40 | `pinHeight(to:multiPin:)` activates and returns the height tie |
| ConstraintsApi.PinWidthToMulti | BoxViewLayout/UIView+NSLayoutConstraints.swift:53-62 | `pinWidth(to:multiPin:)` activates and returns the width tie |
| ConstraintsApi.PinHeightToPin | BoxViewLayout/UIView+NSLayoutConstraints.swift:43-45 | multiplier 1 with the pin's relation and constant |
| ConstraintsApi.PinWidthToPin | BoxViewLayout/UIView+NSLayoutConstraints.swift:65-67 | multiplier 1 with the pin's relation and constant |
| ConstraintsApi.PinHeightToOffset | BoxViewLayout/UIView+NSLayoutConstraints.swift:48-50 | an equal height tie with that offset |
| ConstraintsApi.PinWidthToOffset | BoxViewLayout/UIView+NSLayoutConstraints.swift:70-72 | an equal width tie with that offset |
| ConstraintsApi.PinHeight | BoxViewLayout/UIView+NSLayoutConstraints.swift:75-84 | `pinHeight(_ pin:)` activates and returns the constant height |
| ConstraintsApi.PinWidth | BoxViewLayout/UIView+NSLayoutConstraints.swift:92-101 | `pinWidth(_ pin:)` activates and returns the constant width |
| ConstraintsApi.PinHeightValue | BoxViewLayout/UIView+NSLayoutConstraints.swift:87-89 | an equal height of that value |
| ConstraintsApi.PinWidthValue | BoxViewLayout/UIView+NSLayoutConstraints.swift:104-106 | an equal width of that value |
| ConstraintsApi.PinSize | BoxViewLayout/UIView+NSLayoutConstraints.swift:109-111 | exactly two constraints, the width first and the height second, both activated |
| ConstraintsApi.AspectConstraint | BoxViewLayout/UIView+NSLayoutConstraints.swift:116 | height equals width times the aspect |
| ConstraintsApi.PinAspect | BoxViewLayout/UIView+NSLayoutConstraints.swift:114-119 | always returns the aspect constraint, activated |
| ConstraintsApi.AspectFromSize | BoxViewLayout/UIView+NSLayoutConstraints.swift:122-128 | none exactly for a zero width; otherwise the aspect height/width, so multiplier times width is the height |
| ConstraintsApi.PinAspectFromSize | BoxViewLayout/UIView+NSLayoutConstraints.swift:122-128 | activates nothing for a zero width, the aspect constraint otherwise |
| ConstraintsApi.Tie | BoxViewLayout/UIView+NSLayoutConstraints.swift:140 | an equal tie of a dimension of the first element to the same dimension of another |
| ConstraintsApi.SameDimension | BoxViewLayout/UIView+NSLayoutConstraints.swift:137-143 | every constraint is a tie from the first element to an element that differs from it, every such element gets one, and there are as many ties as elements that are not the first (counting repeats) |
| ConstraintsApi.SameDimensionAppend | BoxViewLayout/UIView+NSLayoutConstraints.swift:137-143 | the ties follow the array's order: appending an element appends its tie, unless it is the first element |
| ConstraintsApi.SameDimensionOf | BoxViewLayout/UIView+NSLayoutConstraints.swift:134-161 | nothing for an empty array; otherwise exactly the ties from the first element to the elements that differ from it, one per such element (counting repeats), so fewer than the elements |
| ConstraintsApi.PinSameWidth | BoxViewLayout/UIView+NSLayoutConstraints.swift:134-146 | activates and returns the width ties |
| ConstraintsApi.PinSameHeight | BoxViewLayout/UIView+NSLayoutConstraints.swift:149-161 | activates and returns the height ties |
| ConstraintsApi.OwnedConstraints.RemoveConstraintsForAttribute | BoxViewLayout/UIView+NSLayoutConstraints.swift:171-176 | the view keeps exactly its constraints whose first attribute is another one, in order |
| ConstraintsApi.OwnedConstraints.RemoveConstraintsToView | BoxViewLayout/UIView+NSLayoutConstraints.swift:178-183 | the view keeps exactly its constraints that name the other view as neither item, in order |
| ConstraintsApi.WithoutAttribute | BoxViewLayout/UIView+NSLayoutConstraints.swift:172-174 | the filter keeps exactly the constraints of another first attribute |
| ConstraintsApi.WithoutView | BoxViewLayout/UIView+NSLayoutConstraints.swift:179-181 | the filter keeps exactly the constraints not naming the view |
| ConstraintsApi.WithoutAttributeAppend | BoxViewLayout/UIView+NSLayoutConstraints.swift:172-175 | filtering by attribute distributes over concatenation |
| ConstraintsApi.RemoveForAttributeIdempotent | BoxViewLayout/UIView+NSLayoutConstraints.swift:171-176 | removing an attribute's constraints twice is removing them once |
| ConstraintsApi.RemoveToViewCommutes | BoxViewLayout/UIView+NSLayoutConstraints.swift:178-183 | removing the constraints to two views commutes |
| ConstraintsApi.WithoutViewAppend | BoxViewLayout/UIView+NSLayoutConstraints.swift:179-182 | filtering by view distributes over concatenation |
| ConstraintsApi.BxPinConstraint | BoxViewLayout/UIView+NSLayoutConstraints.swift:195-206 | `bxPin` relates the two attributes of the two views with the pin's relation, constant and priority, multiplier 1 |
| ConstraintsApi.BxPin | BoxViewLayout/UIView+NSLayoutConstraints.swift:195-211 | returns that constraint and activates exactly it when asked |
| Switch.Present | Sources/BoxView/ConstraintSwitch.swift:59-63 | the nil entries of the lists are dropped and nothing else |
| Switch.Switched | Sources/BoxView/ConstraintSwitch.swift:17-29 | after applying a state its set is active, the constraints only in the other set are not, and every other constraint keeps its status |
| Switch.SwitchedTwice | Sources/BoxView/ConstraintSwitch.swift:17-29 | applying the same state twice is applying it once |
| Switch.SwitchedBack | Sources/BoxView/ConstraintSwitch.swift:17-29 | switching off and back on gives the same active constraints as switching on |
| Switch.Applied | Sources/BoxView/ConstraintSwitch.swift:31-51 | an assigned set is active exactly when the switch is in its state; other constraints keep their status |
| Switch.ConstraintSwitch.constructor | Sources/BoxView/ConstraintSwitch.swift:55-57 | `init()`: off, both sets empty, no handler |
| Switch.ConstraintSwitch.WithSets | Sources/BoxView/ConstraintSwitch.swift:59-63 | the state and the non-nil constraints of both lists; nothing is activated in the initialiser |
| Switch.ConstraintSwitch.SetState | Sources/BoxView/ConstraintSwitch.swift:17-29 | the new state is stored, the active constraints follow it, the handler runs once when set, and the sets stay |
| Switch.ConstraintSwitch.SetOnSet | Sources/BoxView/ConstraintSwitch.swift:31-40 | the new on set is active exactly while the state is on |
| Switch.ConstraintSwitch.SetOffSet | Sources/BoxView/ConstraintSwitch.swift:42-51 | the new off set is active exactly while the state is off |
| Switch.ConstraintSwitch.SetHandler | Sources/BoxView/ConstraintSwitch.swift:53 | only the handler changes |
| BoxUtils.Without | Sources/BoxView/UIView+BoxUtils.swift:29-48 | the subview list without a view: no occurrence left, every other view kept, still duplicate-free |
| BoxUtils.WithoutAppend | Sources/BoxView/UIView+BoxUtils.swift:29-48 | removing a view distributes over concatenation |
| BoxUtils.WithoutAbsent | Sources/BoxView/UIView+BoxUtils.swift:29-48 | removing a view that is not there changes nothing |
| BoxUtils.IndexOf | Sources/BoxView/UIView+BoxUtils.swift:32-42 | the first index of a sibling in the subview list |
| BoxUtils.WithoutElems | Sources/BoxView/UIView+BoxUtils.swift:29-48 | the elements after removal are the elements minus the view |
| BoxUtils.Splice | Sources/BoxView/UIView+BoxUtils.swift:29-48 | a view put at an index of a list, the rest shifted |
| BoxUtils.SpliceKeepsOthers | Sources/BoxView/UIView+BoxUtils.swift:29-48 | taking the spliced view out again gives the list back; the elements gain exactly the view |
| BoxUtils.SpliceDistinct | Sources/BoxView/UIView+BoxUtils.swift:29-48 | splicing a new view into a duplicate-free list keeps it duplicate-free |
| BoxUtils.PlacedByRest | Sources/BoxView/UIView+BoxUtils.swift:29-48 | where a subview is placed depends only on the other subviews |
| BoxUtils.PlacedIsSplice | Sources/BoxView/UIView+BoxUtils.swift:29-48 | every placement is a splice of the view into the list without it |
| BoxUtils.PlacedKeepsOthers | Sources/BoxView/UIView+BoxUtils.swift:29-48 | after `insertSubview(_:z:)` the view is present exactly once and the other subviews keep their order |
| BoxUtils.BackIsIndexZero | Sources/BoxView/UIView+BoxUtils.swift:31-38 | `.back` and `.above(nil)` put the view at the back |
| BoxUtils.FrontIsOnTop | Sources/BoxView/UIView+BoxUtils.swift:39-46 | no position, `.front` and `.below(nil)` put the view on top |
| BoxUtils.AboveIsDirectlyAbove | Sources/BoxView/UIView+BoxUtils.swift:32-35 | `.above(w)` puts the view directly above the sibling |
| BoxUtils.BelowIsDirectlyBelow | Sources/BoxView/UIView+BoxUtils.swift:39-42 | `.below(w)` puts the view directly below the sibling |
| BoxUtils.Subviews.InsertSubview | Sources/BoxView/UIView+BoxUtils.swift:29-48 | `insertSubview(_:z:)` places the view as `Placed` says, once, keeping the others in order |
| Engine.ResolveInsets | Sources/BoxView/UIView+InternalConstraintCreation.swift:69 | missing insets are zero insets, given ones are kept |
| Engine.ItemBeginAnchor | Sources/BoxView/UIView+InternalConstraintCreation.swift:76-77 | an item's begin anchor exists exactly when it has a begin pin, and is its anchor of the routed begin edge |
| Engine.ItemEndAnchor | Sources/BoxView/UIView+InternalConstraintCreation.swift:79-80 | an item's end anchor exists exactly when it has an end pin, and is its anchor of the routed end edge |
| Engine.LinkPin | Sources/BoxView/UIView+InternalConstraintCreation.swift:79-81 | the link between neighbours exists exactly when the begin pin and the previous end pin sum; it is the sum inset by the spacing |
| Engine.PinSameEdge | Sources/BoxView/UIView+InternalConstraintCreation.swift:128-137 | the same routed edge on both objects, with the pin's relation, constant and priority |
| Engine.AcrossFactor | Sources/BoxView/UIView+InternalConstraintCreation.swift:155-156 | the language factor at the centre, the layout factor at the begin, its negation at the end |
| Engine.AcrossAt | Sources/BoxView/UIView+InternalConstraintCreation.swift:152-159 | one constraint exactly when the item has a cross-axis pin at that position: the item's routed edge to the container's same edge, the pin's constant plus the position's inset times the position's factor, the relation flipped where that factor is -1, multiplier 1, the pin's priority |
| Engine.PinCount | Sources/BoxView/UIView+InternalConstraintCreation.swift:152-153 | an axis has at most three pins |
| Engine.AcrossOnePerPin | Sources/BoxView/UIView+InternalConstraintCreation.swift:148-161 | `pinAccross` adds the begin, centre and end constraints in that order, exactly one per cross-axis pin, each pinning that edge to the container's |
| Engine.AcrossEndFlips | Sources/BoxView/UIView+InternalConstraintCreation.swift:155-157 | where the cross axis's layout factor is 1, the end constraint has the flipped relation and the negated constant, end inset included, and the begin constraint keeps both |
| Engine.PinAccross | Sources/BoxView/UIView+InternalConstraintCreation.swift:148-161 | the loop appends exactly the cross-axis constraints of the item |
| Engine.BeginPart | Sources/BoxView/UIView+InternalConstraintCreation.swift:76-93 | the step aborts exactly when the item has a begin pin and a predecessor with an end pin whose sum fails; it appends at most one constraint |
| Engine.ChainItem | Sources/BoxView/UIView+InternalConstraintCreation.swift:74-103 | one iteration: stops exactly when the step aborts; otherwise appends the step's constraints and activates its centre constraint, and the item becomes the predecessor |
| Engine.ChainBegin | Sources/BoxView/UIView+InternalConstraintCreation.swift:76-93 | the begin constraint of one item, or the stop when the sum fails |
| Engine.ChainCenter | Sources/BoxView/UIView+InternalConstraintCreation.swift:94-100 | the main-axis centre constraint, appended and activated at once |
| Engine.CreateChainConstraints | Sources/BoxView/UIView+InternalConstraintCreation.swift:68-111 | appends exactly the chain of the items, and activates exactly the centre constraints met before any stop |
| Engine.WalkItems | Sources/BoxView/UIView+InternalConstraintCreation.swift:74-103 | the loop leaves the walk state of the whole list: stopped or not, constraints, predecessor, activated constraints |
| Engine.CloseChain | Sources/BoxView/UIView+InternalConstraintCreation.swift:104-109 | the container's end is tied to the last item exactly when it has an end pin |
| Engine.ChainLoopUnfold | Sources/BoxView/UIView+InternalConstraintCreation.swift:74-103 | the walk over one more item is one more step, unless it has already stopped |
| Engine.AbortStable | Sources/BoxView/UIView+InternalConstraintCreation.swift:81-82 | after a failed sum nothing more is appended, not even the closing constraint |
| Engine.ChainLoopPrefix | Sources/BoxView/UIView+InternalConstraintCreation.swift:74-103 | the constraints of a prefix stay at the front, and a stop stays a stop |
| Engine.AbortIffConflict | Sources/BoxView/UIView+InternalConstraintCreation.swift:81-82 | the chain stops exactly when some neighbouring pair has a begin and end pin with incompatible relations; otherwise the last item is the predecessor |
| Engine.EmptyChain | Sources/BoxView/UIView+InternalConstraintCreation.swift:71 | no items, no constraints, nothing activated |
| Engine.FirstItemFirst | Sources/BoxView/UIView+InternalConstraintCreation.swift:88-92 | the first constraint ties the first item's begin to the container's begin anchor |
| Engine.LinkEmitted | Sources/BoxView/UIView+InternalConstraintCreation.swift:78-86 | every neighbouring pair with both pins gets its link constraint when the walk runs through |
| Engine.EndClosesChain | Sources/BoxView/UIView+InternalConstraintCreation.swift:104-109 | the chain ends with the container's end tied to the last item exactly when it has an end pin |
| Engine.ActivatedInLoop | Sources/BoxView/UIView+InternalConstraintCreation.swift:94-100 | every constraint activated during the walk is in the walk's list |
| Engine.ActivatedAreChained | Sources/BoxView/UIView+InternalConstraintCreation.swift:94-100 | so activating the whole list afterwards covers them |
| Engine.Dim | Sources/BoxView/UIView+InternalConstraintCreation.swift:168 | height on y, width on x |
| Engine.FlexLoop | Sources/BoxView/UIView+InternalConstraintCreation.swift:163-178 | once a first flexible item is found, its flex is positive |
| Engine.FlexCount | Sources/BoxView/UIView+InternalConstraintCreation.swift:167 | at most one flexible item per item |
| Engine.FlexCountLemma | Sources/BoxView/UIView+InternalConstraintCreation.swift:163-178 | no first flexible item exactly when none is flexible; k flexible items give k-1 constraints |
| Engine.FlexRatios | Sources/BoxView/UIView+InternalConstraintCreation.swift:163-178 | every flex constraint ties a flexible item's dimension to the first one's with multiplier flex / first flex |
| Engine.CreateFlexDimensions | Sources/BoxView/UIView+InternalConstraintCreation.swift:163-178 | appends exactly the flex constraints |
| Engine.RelativeOnePerPin | Sources/BoxView/UIView+InternalConstraintCreation.swift:180-191 | one constraint per relative size, each tying an item's dimension to the container's |
| Engine.CreateRelativeDimensions | Sources/BoxView/UIView+InternalConstraintCreation.swift:180-191 | appends exactly the relative-size constraints |
| Engine.FixedOnePerPin | Sources/BoxView/UIView+InternalConstraintCreation.swift:197-206 | one constraint per fixed size, each on an item's own dimension with no second anchor |
| Engine.CreateDimensions | Sources/BoxView/UIView+InternalConstraintCreation.swift:197-206 | appends exactly the fixed-size constraints |
| EngineMirror.SwapSides | Sources/BoxView/UIView+InternalConstraintCreation.swift:15-29 | swapping left and right keeps an attribute horizontal or not |
| EngineMirror.Mirror | Sources/BoxView/UIView+InternalConstraintCreation.swift:62-66 | a horizontal constraint mirrors to the swapped sides with negated constant and flipped relation; others are unchanged |
| EngineMirror.MirrorAll | Sources/BoxView/UIView+InternalConstraintCreation.swift:62-66 | mirrors a list element by element |
| EngineMirror.MirrorAllAppend | Sources/BoxView/UIView+InternalConstraintCreation.swift:62-66 | mirroring distributes over concatenation |
| EngineMirror.MirrorInvolution | Sources/BoxView/UIView+InternalConstraintCreation.swift:62-66 | mirroring twice gives the constraint back |
| EngineMirror.ToRightToLeft | Sources/BoxView/UIView+InternalConstraintCreation.swift:15-29 | the context forced right to left, nothing else changed |
| EngineMirror.InsetMirror | Sources/BoxView/UIView+InternalConstraintCreation.swift:106-111 | insetting with factor -1 mirrors insetting with factor 1 |
| EngineMirror.AnchorPinMirror | Sources/BoxView/UIView+InternalConstraintCreation.swift:117-126 | a horizontal anchor pin mirrors to the pin between the swapped anchors |
| EngineMirror.BeginPartMirror | Sources/BoxView/UIView+InternalConstraintCreation.swift:76-93 | right to left the begin step aborts exactly when left to right does, and appends the mirror image |
| EngineMirror.CenterPartMirror | Sources/BoxView/UIView+InternalConstraintCreation.swift:94-100 | right to left the centre constraint is the mirror image |
| EngineMirror.AcrossAtMirror | Sources/BoxView/UIView+InternalConstraintCreation.swift:152-159 | right to left each cross-axis constraint is the mirror image |
| EngineMirror.AcrossMirror | Sources/BoxView/UIView+InternalConstraintCreation.swift:148-161 | right to left `pinAccross` appends the mirror image |
| EngineMirror.ChainLoopMirror | Sources/BoxView/UIView+InternalConstraintCreation.swift:74-103 | right to left the walk stops at the same place, keeps the same predecessor and builds the mirror image |
| EngineMirror.ChainMirror | Sources/BoxView/UIView+InternalConstraintCreation.swift:68-111 | forcing right to left lays out the chain as the mirror image of left to right |
| LegacyEngine.BeginAttr | BoxViewLayout/UIView+InternalConstraintCreation.swift:18-20 | the container's begin anchor: top on y, leading or left on x |
| LegacyEngine.EndAttr | BoxViewLayout/UIView+InternalConstraintCreation.swift:22-24 | the container's end anchor: bottom on y, trailing or right on x |
| LegacyEngine.CenterAttr | BoxViewLayout/UIView+InternalConstraintCreation.swift:26-28 | centre y on y, centre x on x |
| LegacyEngine.AttributeForEdge | BoxViewLayout/UIView+InternalConstraintCreation.swift:55-64 | the direction-dependent attribute exactly when the content attribute is unspecified; leading and trailing only then |
| LegacyEngine.ItemAnchorsAgree | BoxViewLayout/UIView+InternalConstraintCreation.swift:72-99 | the item anchors the chain uses are the item's anchors of those attributes |
| LegacyEngine.OffsetFactor | BoxViewLayout/UIView+InternalConstraintCreation.swift:42-45 | -1 exactly on x for a right-to-left language with an unspecified attribute |
| LegacyEngine.CenterOffset | BoxViewLayout/UIView+InternalConstraintCreation.swift:38-40 | half of begin minus end margin, times the offset factor on x; zero for equal margins |
| LegacyEngine.MarginForAxis | BoxViewLayout/UIView+InternalConstraintCreation.swift:47-53 | begin margin, centre offset or end margin, by position |
| LegacyEngine.FirstConstraint | BoxViewLayout/UIView+InternalConstraintCreation.swift:84-86 | the first item's begin to the container's begin, the begin pin plus the begin margin |
| LegacyEngine.LinkPin | BoxViewLayout/UIView+InternalConstraintCreation.swift:76-78 | the link exists exactly when the begin pin and the previous end pin sum; the spacing is added |
| LegacyEngine.LinkConstraint | BoxViewLayout/UIView+InternalConstraintCreation.swift:79-80 | the item's begin to the previous item's end with the link pin |
| LegacyEngine.CenterConstraint | BoxViewLayout/UIView+InternalConstraintCreation.swift:89-94 | the item's centre to the container's centre with the centre pin |
| LegacyEngine.EndConstraint | BoxViewLayout/UIView+InternalConstraintCreation.swift:98-103 | the container's end to the last item's end, the end pin plus the end margin |
| LegacyEngine.AcrossConstraint | BoxViewLayout/UIView+InternalConstraintCreation.swift:112-128 | at the end the container is first and the margin is added; at the begin and centre the view is first, and the centre constant is scaled by the offset factor |
| LegacyEngine.AcrossAt | BoxViewLayout/UIView+InternalConstraintCreation.swift:111-130 | one constraint exactly for a view item with a cross-axis pin at that position |
| LegacyEngine.PinCount | BoxViewLayout/UIView+InternalConstraintCreation.swift:111-112 | an axis has at most three pins |
| LegacyEngine.AcrossOnePerPin | BoxViewLayout/UIView+InternalConstraintCreation.swift:107-132 | nothing for a layout guide; one constraint per cross-axis pin of a view, begin, centre, end in order |
| LegacyEngine.PinAccross | BoxViewLayout/UIView+InternalConstraintCreation.swift:107-132 | the loop appends exactly the cross-axis constraints of the item |
| LegacyEngine.BeginPart | BoxViewLayout/UIView+InternalConstraintCreation.swift:71-88 | the step aborts exactly when the link is offered and the sum fails; at most one constraint |
| LegacyEngine.CreateChainConstraints | BoxViewLayout/UIView+InternalConstraintCreation.swift:66-105 | appends exactly the chain of the items |
| LegacyEngine.WalkItems | BoxViewLayout/UIView+InternalConstraintCreation.swift:69-97 | the loop leaves the walk state of the whole list |
| LegacyEngine.ChainItem | BoxViewLayout/UIView+InternalConstraintCreation.swift:69-97 | one iteration: stops exactly when the step aborts, otherwise appends the step's constraints |
| LegacyEngine.ChainBegin | BoxViewLayout/UIView+InternalConstraintCreation.swift:71-88 | the begin constraint of one item, or the stop when the sum fails |
| LegacyEngine.CloseChain | BoxViewLayout/UIView+InternalConstraintCreation.swift:98-103 | the container's end is tied to the last item exactly when it has an end pin and an end anchor |
| LegacyEngine.ChainLoopUnfold | BoxViewLayout/UIView+InternalConstraintCreation.swift:69-97 | the walk over one more item is one more step, unless it has already stopped |
| LegacyEngine.AbortStable | BoxViewLayout/UIView+InternalConstraintCreation.swift:76-78 | after a failed sum nothing more is appended, not even the closing constraint |
| LegacyEngine.ChainLoopPrefix | BoxViewLayout/UIView+InternalConstraintCreation.swift:69-97 | the constraints of a prefix stay at the front, and a stop stays a stop |
| LegacyEngine.AbortIffConflict | BoxViewLayout/UIView+InternalConstraintCreation.swift:76-78 | the chain stops exactly when some neighbouring pair offers a link whose pins cannot be summed |
| LegacyEngine.FirstItemFirst | BoxViewLayout/UIView+InternalConstraintCreation.swift:83-87 | the first constraint ties the first item to the container's begin |
| LegacyEngine.LinkEmitted | BoxViewLayout/UIView+InternalConstraintCreation.swift:73-81 | every neighbouring pair offering a link gets its link constraint when the walk runs through |
| LegacyEngine.EndClosesChain | BoxViewLayout/UIView+InternalConstraintCreation.swift:98-103 | the closing constraint is added exactly when the last item offers its end anchor and pin |
| LegacyEngine.TrailingGateDropsEnd | BoxViewLayout/UIView+InternalConstraintCreation.swift:98-103 | with an unspecified attribute on x, a last item with a right pin but no left pin is not closed, as written |
| LegacyEngine.RightPinClosesWhenForced | BoxViewLayout/UIView+InternalConstraintCreation.swift:98-103 | with a forced attribute the same item is closed |
| LegacyEngine.Dim | BoxViewLayout/UIView+InternalConstraintCreation.swift:139 | height on y, width on x |
| LegacyEngine.FlexLoop | BoxViewLayout/UIView+InternalConstraintCreation.swift:134-149 | once a first flexible item is found, its flex is positive |
| LegacyEngine.FlexCount | BoxViewLayout/UIView+InternalConstraintCreation.swift:138 | at most one flexible item per item |
| LegacyEngine.FlexCountLemma | BoxViewLayout/UIView+InternalConstraintCreation.swift:134-149 | k flexible items give k-1 constraints |
| LegacyEngine.FlexRatios | BoxViewLayout/UIView+InternalConstraintCreation.swift:134-149 | every flex constraint ties a flexible item's dimension to the first one's with multiplier flex / first flex |
| LegacyEngine.CreateFlexDimensions | BoxViewLayout/UIView+InternalConstraintCreation.swift:134-149 | appends exactly the flex constraints |
| LegacyEngine.RelativeConstraint | BoxViewLayout/UIView+InternalConstraintCreation.swift:156-159 | an item's dimension against the container's same dimension with the multi-pin's multiplier, constant and relation |
| LegacyEngine.RelativeOnePerPin | BoxViewLayout/UIView+InternalConstraintCreation.swift:151-162 | one constraint per relative size, each tying an item's dimension to the container's |
| LegacyEngine.CreateRelativeDimensions | BoxViewLayout/UIView+InternalConstraintCreation.swift:151-162 | appends exactly the relative-size constraints |
| LegacyEngine.FixedOnePerPin | BoxViewLayout/UIView+InternalConstraintCreation.swift:165-174 | one constraint per fixed size, on an item's own dimension |
| LegacyEngine.CreateDimensions | BoxViewLayout/UIView+InternalConstraintCreation.swift:165-174 | appends exactly the fixed-size constraints |
| ManagedSets.ItemObjects | Sources/BoxView/BoxView.swift:369-384 | a view is among the item views exactly when some item targets it; the same for guides |
| ManagedSets.ItemsAppend | Sources/BoxView/BoxView.swift:369-384 | the item views and guides of two lists joined are those of each, in order |
| ManagedSets.InsertedItems | Sources/BoxView/BoxView.swift:179 | inserting an item anywhere adds its view or guide to the item objects |
| ManagedSets.RemovedItem | Sources/BoxView/BoxView.swift:172-174 | removing the item at an index takes its view or guide out of the item objects, as a set of the rest plus it |
| ManagedSets.KeepInMeans | Sources/BoxView/BoxView.swift:370-378 | after removing the dropped entries the managed list holds exactly the entries the items still hold, and stays free of duplicates |
| ManagedSets.DroppedMeans | Sources/BoxView/BoxView.swift:370-375 | the collected indices are exactly those of managed entries no item holds, each once, increasing |
| ManagedSets.CollectDropped | Sources/BoxView/BoxView.swift:370-375 | the enumerating loop collects exactly those indices |
| ManagedSets.RemovalStep | Sources/BoxView/BoxView.swift:376-378 | removing the next dropped index from the end keeps the entries before it and the kept part after it |
| ManagedSets.RemovalDone | Sources/BoxView/BoxView.swift:376-378 | once every dropped index is removed from the highest down, the kept entries remain, in order |
| ManagedSets.AppendMissing | Sources/BoxView/BoxView.swift:379-383 | the managed list is kept as a prefix when missing entries are appended |
| ManagedSets.AppendMissingMeans | Sources/BoxView/BoxView.swift:379-383 | afterwards the list holds the old entries and the item objects, without new duplicates |
| ManagedSets.AppendNothingMissing | Sources/BoxView/BoxView.swift:379-383 | nothing is appended when every item object is managed already |
| ManagedSets.KeptMissing | Sources/BoxView/BoxView.swift:370-383 | an item object is missing after the removal loop exactly when it was missing before |
| ManagedSets.DiffedExact | Sources/BoxView/BoxView.swift:366-404 | the diff leaves exactly the item objects, without duplicates, the kept entries first in their old order |
| ManagedSets.DiffedNoChange | Sources/BoxView/BoxView.swift:366-404 | a managed list already holding exactly the item objects, without duplicates, is left as it is |
| BoxView.IndexOfObject | Sources/BoxView/BoxView.swift:243-245 | the first index whose item targets the object, or none when no item does |
| BoxView.IndexOfOpt | Sources/BoxView/BoxView.swift:231 | a nil object is never found |
| BoxView.ItemForObject | Sources/BoxView/BoxView.swift:238-240 | an item exactly when some item targets the object; the first such item |
| BoxView.AsView | Sources/BoxView/BoxView.swift:186 | the target view exactly when the object is a view |
| BoxView.WithoutFirst | Sources/BoxView/BoxView.swift:172-174 | the list without the first item for the object, unchanged when there is none |
| BoxView.InsertedAfter | Sources/BoxView/BoxView.swift:169-179 | the old item for the object is removed, then the item goes right after the target's item, or first when there is none |
| BoxView.InsertedBefore | Sources/BoxView/BoxView.swift:199-211 | the old item for the object is removed, then the item goes right before the target's item, or last when there is none |
| BoxView.ReplacedItemObjects | Sources/BoxView/BoxView.swift:172-179 | replacing the item for an object keeps the item objects, plus the new item's |
| BoxView.InsertedAfterObjects | Sources/BoxView/BoxView.swift:169-196 | after the insertion the item objects are the old ones plus the new item's view or guide |
| BoxView.InsertedBeforeObjects | Sources/BoxView/BoxView.swift:199-227 | the same for the insertion before a target |
| BoxView.Updated | Sources/BoxView/BoxView.swift:248-252 | only the first item for the object is replaced by the update of it; nothing changes when there is none |
| BoxView.WithLayout | Sources/BoxView/BoxView.swift:230-235 | only the first item for the object gets the layout; nothing changes when there is none |
| BoxView.SameObjects | Sources/BoxView/BoxView.swift:230-235 | lists targeting the same objects index by index have the same item views and guides |
| BoxView.LayoutChangeKeepsObjects | Sources/BoxView/BoxView.swift:230-235 | a layout change leaves the item views and guides as they are |
| BoxView.Compact | Sources/BoxView/BoxView.swift:144-147 | an item is kept exactly when it is a non-nil entry |
| BoxView.CompactAllPresent | Sources/BoxView/BoxView.swift:144-147 | a list without nil entries keeps every value in place |
| BoxView.Visible | Sources/BoxView/BoxView.swift:409 | no more items than before |
| BoxView.VisibleMeans | Sources/BoxView/BoxView.swift:409 | the visible items are exactly the items whose view is not hidden; guide items stay |
| BoxView.NothingHidden | Sources/BoxView/BoxView.swift:409 | with no hidden view nothing is dropped |
| BoxView.UsedItems | Sources/BoxView/BoxView.swift:409 | all items while hidden views count, otherwise the items without hidden views |
| BoxView.BoxView.constructor | Sources/BoxView/BoxView.swift:18-25 | the given axis, spacing and insets; no items, managed objects or constraints; items marked for an update |
| BoxView.BoxView.ConfigureManagedView | Sources/BoxView/BoxView.swift:453-461 | the view is observed exactly while hidden views are excluded; nothing else changes |
| BoxView.BoxView.AddManagedView | Sources/BoxView/BoxView.swift:419-423 | the view is configured, put on top of the box and appended to the managed views |
| BoxView.BoxView.RemoveManagedViewAt | Sources/BoxView/BoxView.swift:425-434 | the entry is unobserved, out of the box and out of the list |
| BoxView.BoxView.AddManagedGuide | Sources/BoxView/BoxView.swift:436-439 | the guide is appended and added to the box |
| BoxView.BoxView.RemoveManagedGuideAt | Sources/BoxView/BoxView.swift:441-444 | the guide leaves the box and the list |
| BoxView.BoxView.RemoveManagedGuide | Sources/BoxView/BoxView.swift:446-451 | the first entry for the guide goes, the guide leaves the box either way |
| BoxView.BoxView.RemoveDroppedViews | Sources/BoxView/BoxView.swift:370-378 | the managed views keep exactly the entries the items hold; the dropped ones leave the box and are unobserved |
| BoxView.BoxView.RemoveDroppedView | Sources/BoxView/BoxView.swift:376-378 | one turn of the reversed removal loop keeps the loop's invariant |
| BoxView.BoxView.AddMissingViews | Sources/BoxView/BoxView.swift:379-383 | every item view not yet managed is appended, in item order, added to the box and observed while hidden views are excluded |
| BoxView.BoxView.AddMissingView | Sources/BoxView/BoxView.swift:379-383 | one turn of the adding loop keeps the loop's invariant |
| BoxView.BoxView.RemoveDroppedGuides | Sources/BoxView/BoxView.swift:384-393 | the managed guides keep exactly the entries the items hold; the dropped ones leave the box |
| BoxView.BoxView.RemoveDroppedGuide | Sources/BoxView/BoxView.swift:391-393 | one turn of the reversed removal loop for guides keeps the loop's invariant |
| BoxView.BoxView.AddMissingGuides | Sources/BoxView/BoxView.swift:394-399 | every item guide not yet managed is appended, in item order, and added to the box |
| BoxView.BoxView.AddMissingGuide | Sources/BoxView/BoxView.swift:394-399 | one turn of the adding loop for guides keeps the loop's invariant |
| BoxView.BoxView.SyncViews | Sources/BoxView/BoxView.swift:369-383 | the managed views become the diff against the item views; a box already in sync is left as it is |
| BoxView.BoxView.SyncGuides | Sources/BoxView/BoxView.swift:384-399 | the managed guides become the diff against the item guides; a box already in sync is left as it is |
| BoxView.BoxView.UpdateItemsViews | Sources/BoxView/BoxView.swift:366-404 | nothing during an item change; otherwise the managed objects equal the item objects, without duplicates, and the constraints are marked for an update |
| BoxView.BoxView.InsertItemInto | Sources/BoxView/BoxView.swift:170-195 | the new list is set without a diff, the item's object becomes managed, and the constraints are marked |
| BoxView.BoxView.InsertViewItem | Sources/BoxView/BoxView.swift:181-195 | a view item's view is managed once, observed when hidden views are excluded, and put at the requested place |
| BoxView.BoxView.InsertGuideItem | Sources/BoxView/BoxView.swift:188-195 | a guide item's guide is managed once and added to the box |
| BoxView.BoxView.ManageView | Sources/BoxView/BoxView.swift:181-187 | the view joins the managed views unless it is there, and is put at the requested place among the subviews |
| BoxView.BoxView.ManageGuide | Sources/BoxView/BoxView.swift:188-193 | the guide joins the managed guides unless it is there, and the box |
| BoxView.BoxView.InsertItemAfter | Sources/BoxView/BoxView.swift:169-196 | the items are InsertedAfter; the object is managed, a view placed at z or above the target view; a box in sync stays in sync |
| BoxView.BoxView.InsertItemBefore | Sources/BoxView/BoxView.swift:199-227 | the items are InsertedBefore; a view is placed at z or below the target view; a box in sync stays in sync |
| BoxView.BoxView.SetLayout | Sources/BoxView/BoxView.swift:230-235 | the first item for the object gets the layout and the constraints are marked; the managed objects stay; no change without such an item |
| BoxView.BoxView.UpdateItemForObject | Sources/BoxView/BoxView.swift:248-252 | the first item for the object is updated and the diff runs; no change without such an item |
| BoxView.BoxView.WillRemoveSubview | Sources/BoxView/BoxView.swift:292-304 | outside an item change, a managed view is unobserved and its first item dropped, which runs the diff; otherwise nothing changes |
| BoxView.BoxView.AddItemsConstraints | Sources/BoxView/BoxView.swift:406-415 | the old managed constraints are deactivated; the new list is the chain, fixed, relative and flex constraints of the items in use, and is active |
| BoxView.BoxView.UpdateConstraints | Sources/BoxView/BoxView.swift:284-290 | the constraints are regenerated exactly when no item change is in progress |
| BoxView.BoxView.SetExcludeHiddenViews | Sources/BoxView/BoxView.swift:91-103 | only a change acts: switching on observes every managed view, switching off drops every observer, and the constraints are marked |
| BoxView.BoxView.SetItems | Sources/BoxView/BoxView.swift:137-141 | the items are replaced and, outside an item change, the managed objects follow them |
| BoxView.BoxView.SetOptItems | Sources/BoxView/BoxView.swift:144-147 | the items are the non-nil entries and the managed objects follow them |
| BoxView.BoxView.SetViews | Sources/BoxView/BoxView.swift:155-161 | one item per view with the layout; the box then manages exactly those views and no guide |
| BoxView.BoxView.AddItem | Sources/BoxView/BoxView.swift:164-166 | the item is appended and the managed objects follow |
| BoxView.BoxView.SetNeedsUpdateItems | Sources/BoxView/BoxView.swift:254-257 | the items are marked for an update; nothing else changes |
| BoxView.BoxView.LayoutSubviews | Sources/BoxView/BoxView.swift:358-364 | a pending item update is cleared; nothing else changes |
| BoxView.BoxView.SetAxis | Sources/BoxView/BoxView.swift:45-49 | the axis changes and the constraints are marked |
| BoxView.BoxView.SetSpacing | Sources/BoxView/BoxView.swift:72-76 | the spacing changes and the constraints are marked |
| BoxView.BoxView.SetInsets | Sources/BoxView/BoxView.swift:57-67 | the stored insets change and the constraints are marked |
| BoxView.BoxView.SetSemanticContentAttribute | Sources/BoxView/BoxView.swift:306-315 | the attribute changes; only a real change marks the constraints |
| BoxView.FirstRemoved | Sources/BoxView/BoxView.swift:446-451 | in a list without duplicates, removing the first entry for a guide removes that guide |
| BoxView.DroppedNone | Sources/BoxView/BoxView.swift:370-378 | when every managed entry is kept no index is collected |
| BoxView.ObserveAll | Sources/BoxView/BoxView.swift:95 | every managed view is observed |
| BoxView.BoxViews | Sources/BoxView/BoxView.swift:156-159 | one item per view, in order, with the given layout |
| BoxView.InBoxView | BoxViewLayout/UIView+BoxItem.swift:108-112 | a new box with the views as zero-layout items, managing exactly those views and no guide |
| BoxView.UpdateBoxItem | BoxViewLayout/UIView+BoxItem.swift:34-36 | forwarded to the superview box, whose first item for the view is updated; nothing without one |
| ViewBoxItems.Boxed | BoxViewLayout/UIView+BoxItem.swift:18-29 | an item for the view with the layout |
| ViewBoxItems.BoxedAll | BoxViewLayout/UIView+BoxItem.swift:95-106 | one item per view, in order, each with the layout |
| ViewBoxItems.BoxedViews | BoxViewLayout/UIView+BoxItem.swift:95-106 | the items of boxed views target exactly those views, in order, and no guide |
| ViewBoxItems.GeneratedParts | BoxViewLayout/UIView+BoxItem.swift:83-86 | the result is the chain, then the fixed, relative and flex constraints, each with one constraint per pin or flex partner |
| ViewBoxItems.ChainActivatedGenerated | BoxViewLayout/UIView+BoxItem.swift:83-87 | every constraint activated during the chain is among those returned |
| ViewBoxItems.AddItemView | BoxViewLayout/UIView+BoxItem.swift:78-81 | a view item joins the receiver when it is a view, and its mask translation is off; a guide item changes nothing |
| ViewBoxItems.AddItemViews | BoxViewLayout/UIView+BoxItem.swift:77-82 | every item view joins the receiver view and has its mask translation off |
| ViewBoxItems.AddBoxItems | BoxViewLayout/UIView+BoxItem.swift:75-89 | the returned constraints are the generated ones, all active; the item views are subviews of a receiving view |
| ViewBoxItems.AddBoxItem | BoxViewLayout/UIView+BoxItem.swift:46-48 | the same for a single item along y, with no spacing and zero insets |
| ViewBoxItems.AddBoxedView | BoxViewLayout/UIView+BoxItem.swift:52-54 | the view is added with the zero layout |
| ViewBoxItems.AddBoxedViewToGuide | BoxViewLayout/UIView+BoxItem.swift:61-64 | the view joins the given superview or the guide's owner and is laid out in the guide |
| LegacyBoxView.IndexOfView | BoxViewLayout/BoxView.swift:149 | the first item whose view is the target, or none; a nil target can only be found at a guide item |
| LegacyBoxView.FirstIndex | BoxViewLayout/BoxView.swift:157 | the first managed view equal to the target; a nil target is never found |
| LegacyBoxView.InsertAt | BoxViewLayout/BoxView.swift:150 | the value at the index, the entries before and after kept, one more of the value |
| LegacyBoxView.InsertedTwice | BoxViewLayout/BoxView.swift:157-162 | inserting a view already managed leaves a duplicate |
| LegacyBoxView.Pruned | BoxViewLayout/BoxView.swift:141-148 | the old item for the view is removed only when the view is managed already; a guide item removes nothing |
| LegacyBoxView.AfterPosition | BoxViewLayout/BoxView.swift:149-154 | right after the first item whose view is the target, or at the front when there is none |
| LegacyBoxView.BeforePosition | BoxViewLayout/BoxView.swift:180-185 | at the first item whose view is the target, or at the end when there is none |
| LegacyBoxView.ViewAfterPosition | BoxViewLayout/BoxView.swift:157-162 | right after the target among the managed views, or at the front |
| LegacyBoxView.ViewBeforePosition | BoxViewLayout/BoxView.swift:188-193 | at the target among the managed views, or at the end |
| LegacyBoxView.FrontedElems | BoxViewLayout/BoxView.swift:274-283 | the loop adds exactly the item views that were not managed, without duplicates |
| LegacyBoxView.FrontedLast | BoxViewLayout/BoxView.swift:274-283 | when every managed view is in the box, the last item view ends on top |
| LegacyBoxView.FrontedAfterRemoval | BoxViewLayout/BoxView.swift:263-283 | the subviews after the view loops: dropped views out, new views in |
| LegacyBoxView.FrontedAfterRemovalLast | BoxViewLayout/BoxView.swift:263-283 | the last item view is on top when every managed view was in the box |
| LegacyBoxView.BoxView.constructor | BoxViewLayout/BoxView.swift:18-25 | the given axis, spacing and insets, no items, managed objects or constraints |
| LegacyBoxView.BoxView.RemoveManagedViewAt | BoxViewLayout/BoxView.swift:265-273 | a dropped view leaves the box and the managed list |
| LegacyBoxView.BoxView.RemoveDroppedView | BoxViewLayout/BoxView.swift:271-273 | one turn of the removal loop keeps the loop's invariant |
| LegacyBoxView.BoxView.RemoveDroppedViews | BoxViewLayout/BoxView.swift:263-273 | the managed views keep exactly the entries the items hold; the others leave the box |
| LegacyBoxView.BoxView.FrontItemView | BoxViewLayout/BoxView.swift:274-283 | one turn: a new view is managed and added on top, a managed one raised to the front |
| LegacyBoxView.BoxView.FrontItemViews | BoxViewLayout/BoxView.swift:274-283 | the managed views gain the missing item views; the subviews are the fronted order |
| LegacyBoxView.BoxView.RemoveManagedGuideAt | BoxViewLayout/BoxView.swift:286-294 | a dropped guide leaves the box and the managed list |
| LegacyBoxView.BoxView.RemoveDroppedGuide | BoxViewLayout/BoxView.swift:292-294 | one turn of the guide removal loop keeps the loop's invariant |
| LegacyBoxView.BoxView.RemoveDroppedGuides | BoxViewLayout/BoxView.swift:284-294 | the managed guides keep exactly the entries the items hold; the others leave the box |
| LegacyBoxView.BoxView.AddMissingGuides | BoxViewLayout/BoxView.swift:295-300 | every item guide not yet managed is appended, in item order, and added to the box |
| LegacyBoxView.BoxView.AddMissingGuide | BoxViewLayout/BoxView.swift:295-300 | one turn of the adding loop keeps the loop's invariant |
| LegacyBoxView.BoxView.SyncViews | BoxViewLayout/BoxView.swift:263-283 | the managed views become the diff against the item views |
| LegacyBoxView.BoxView.SyncGuides | BoxViewLayout/BoxView.swift:284-300 | the managed guides become the diff against the item guides |
| LegacyBoxView.BoxView.UpdateItems | BoxViewLayout/BoxView.swift:260-303 | nothing during an item change; otherwise the managed objects equal the item objects, the last item view is on top, and the constraints are marked |
| LegacyBoxView.BoxView.SetItems | BoxViewLayout/BoxView.swift:108-112 | the items are replaced and, outside an item change, the diff runs |
| LegacyBoxView.BoxView.SetOptItems | BoxViewLayout/BoxView.swift:115-118 | the items are the non-nil entries and the diff runs |
| LegacyBoxView.BoxView.AddItem | BoxViewLayout/BoxView.swift:134-136 | the item is appended and the diff runs |
| LegacyBoxView.BoxView.SetViews | BoxViewLayout/BoxView.swift:126-131 | the items become one per view with the layout, and the box manages exactly those views and no guide |
| LegacyBoxView.BoxView.PruneManaged | BoxViewLayout/BoxView.swift:141-148 | a managed item view loses its old item and leaves the box; nothing else changes |
| LegacyBoxView.BoxView.InsertIntoItems | BoxViewLayout/BoxView.swift:149-154 | the item is inserted at the position, without a diff; a new guide leaves the box out of sync |
| LegacyBoxView.BoxView.ManageInserted | BoxViewLayout/BoxView.swift:155-164 | the view is inserted among the managed views, a duplicate when it was there already, and placed among the subviews |
| LegacyBoxView.BoxView.InsertItemAfter | BoxViewLayout/BoxView.swift:139-167 | the item goes after the target's item; a view goes after the target among the managed views, at z or above it; guides are not managed |
| LegacyBoxView.BoxView.InsertPruned | BoxViewLayout/BoxView.swift:149-164 | the shared tail of both insertions |
| LegacyBoxView.BoxView.InsertItemBefore | BoxViewLayout/BoxView.swift:170-199 | the item goes before the target's item, or last; a view goes before the target among the managed views, at z or below it |
| LegacyBoxView.BoxView.SetLayout | BoxViewLayout/BoxView.swift:202-207 | the first item for the object gets the layout and the diff runs; nothing without such an item |
| LegacyBoxView.BoxView.ReplaceItems | BoxViewLayout/BoxView.swift:204-205 | items with the same objects replace the list; the constraints are marked |
| LegacyBoxView.BoxView.WillRemoveSubview | BoxViewLayout/BoxView.swift:240-249 | outside an item change the first item of a managed view is dropped and the diff runs; otherwise nothing changes |
| LegacyBoxView.BoxView.UpdateConstraints | BoxViewLayout/BoxView.swift:233-238 | the old managed constraints are always deactivated; the new ones are generated over every item and active |
| LegacyBoxView.BoxView.SetAxis | BoxViewLayout/BoxView.swift:45-49 | the axis changes and the constraints are marked |
| LegacyBoxView.BoxView.SetSpacing | BoxViewLayout/BoxView.swift:81-85 | the spacing changes and the constraints are marked |
| LegacyBoxView.BoxView.SetInsets | BoxViewLayout/BoxView.swift:57-67 | the stored insets change and the constraints are marked |
| LegacyBoxView.BoxView.SetSemanticContentAttribute | BoxViewLayout/BoxView.swift:87-91 | every assignment marks the constraints |

## Left out

- Drawing, animation (`animateChangesWithDurations`), description strings and `debugDescription`: nothing in them affects the layout.
- UIKit itself: constraints are values, not objects, so constraint identity, solving and the resulting frames are outside the model; `ActiveConstraints` only records which constraints are active.
- Sizes, constants and multipliers are unbounded reals, not `CGFloat` floating point; rounding is not modelled.
- The isHidden state of views and the layout direction UIKit resolves for a view are parameters (`hidden`, `dir`), because they come from UIKit.
- Key-value observation: the observers are a set of observed views; the callback that marks the constraints when `isHidden` changes is not modelled.
- `needsUpdateConstraints` and `needsUpdateItems` are only set by the model; UIKit clears them and calls `updateConstraints` and `layoutSubviews`, which is not modelled.
- `translatesAutoresizingMaskIntoConstraints` in the box views (`configureManagedView`, the initialisers, legacy `insertItem` and `updateItems`): it has no effect on which constraints are built. `ViewBoxItems` and `ConstraintsApi` do record it.
- `insetsAreMargins`, `layoutMargins` and `directionalLayoutMargins`: the model keeps the insets apart from the margins.
- `frontViews`, `backViews`, `forceSubviewsSCA` and `setSCAIfNeed`: these reorder subviews or copy the content attribute to subviews, which does not change the constraints the box builds.
- `allowNotManagedViews`: the flag is stored in the source but never read.
- The forwarding of `willRemoveSubview` to the superview, and UIKit's own removal of the subview afterwards.
- `setup()` and the `init(frame:)` and `init(coder:)` initialisers: they only differ from `init(axis:spacing:insets:)` in their defaults.
- `withItems(_:)` of both box views: it is the `items` setter (`SetItems`) returning the box.
- `updateItems()` of the current box view is empty in the source; `LayoutSubviews` only clears the flag.
- Frame conversion (`insertionFrameBelow`, `insertionFrameOnRight`) and the priority helpers in `UIView+UILayoutPriority.swift` are not part of this model.
- The deprecated `bxPinHeight`, `bxPinWidth`, `bxSetSize`, `bxSetAspect`, `bxSetAspectFromSize`, `bxSameWidth`, `bxSameHeight` and their private helpers (`UIView+NSLayoutConstraints.swift:216-384`): they are older copies of the modelled `pinHeight`, `pinWidth`, `pinSize`, `pinAspect`, `pinAspectFromSize`, `pinSameWidth` and `pinSameHeight`, without priorities; only `bxPin` and the two removal helpers are modelled.
- The `sumPinWarning` assertion in the chain builders (`BoxLayout.Pin.swift:224-226`) is an `assertionFailure`, which stops a debug build; the model follows release builds, where it does nothing and the builder returns early with the constraints gathered so far.
- The static `relativeWidth(_:)` and `relativeHeight(_:)` guide factories of the older revision (`BoxItem+Create.swift:170-176`): they call `BoxLayout.withWidth` and `BoxLayout.withHeight`, which no file of the model's sources declares, so what layout they return is unknown.
- The required priority of the current chain and centre constraints (`Anchors.AnchorPin`) is taken from the older `pin(_:to:)` (`BoxViewLayout/BoxItem.swift:17-35`), because the current anchor helper is not part of this model; the cross-axis constraints copy the pin's own priority (`Engine.PinSameEdge`).
- The `stateChangeHandler` closure of `ConstraintSwitch` is not run; the model counts its runs (`handlerRuns`).
- The current `BoxLayout` and `BoxItem` declarations are not part of this model; `Layout` declares them only as far as the engine reads them. The same holds for the size and flex fields of the legacy `BoxLayout` and for `withFlex`, which are declared in a file that is not part of this model and are modelled from their uses.
- Engine: the centre constraints are activated one by one inside the chain loop in the source; the model records them as activated early (`ChainLoop(...).activated`), and its callers activate the whole list afterwards, which gives the same active set.
- LegacyBoxView.BoxView.RemoveDroppedViews: the source takes each dropped view out of the box inside the enumerating loop and removes the entries in a second, reversed loop; the model does both in the reversed loop, so the intermediate subview order is not the source's. Its contract states the subviews as a set.
- BoxView.BoxView.RemoveDroppedViews: states the subviews left after the loop as a set, not their order, except that nothing changes when no view is dropped.
- BoxView.BoxView.AddMissingViews: states the subviews as a set, not their order, except that nothing changes when no view is missing.
- BoxView.BoxView.SyncViews: states the subviews as a set, not their order, except for a box already in sync.
- BoxView.BoxView.UpdateItemsViews: states the subviews as a set, not their order, except for a box already in sync.
- BoxView.BoxView.WillRemoveSubview: through the diff, states the subviews as a set, not their order.
- LegacyBoxView.BoxView.UpdateItems: states the subviews as a set, plus which item view ends on top, not their whole order.
- ViewBoxItems.AddItemViews: states the receiver's subviews as a set, not their order.
- ViewBoxItems.AddBoxItems: states the receiver's subviews as a set, not their order.
- LegacyItem: the trailing anchor is modelled as written, gated on the left pin (`BoxItem.swift:103-105`); `LegacyEngine.TrailingGateDropsEnd` shows the effect.
- LegacyBoxView.IndexOfView: `insertItem(_:after:)` with a nil target matches the first guide item, whose view is nil, rather than inserting at index 0 as its comment says; the model follows the code.
