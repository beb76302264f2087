# Network types and group hulls of the cluster console

This project models two small pieces of the web console for a container
orchestration platform and proves properties of them in Dafny.

- **`NetworkType`** of the virtual-machine plugin: a closed value enum of
  three network kinds, `multus`, `pod` and `genie`. Each kind carries a
  default network-interface type and a frozen list of allowed interface
  types, with a set copy of that list. A string lookup table is built once,
  by a left fold over the list of all kinds. `fromString`,
  `fromSerialized`, `getAll` and `allowsInterfaceType` answer from that
  table and from those fields. The model is a datatype with functions
  (`network_type.dfy`, `network_interface_type.dfy`).
- **The group hull** of the topology package. The component collects
  points from a group's child nodes. A circular child gives its centre with
  radius `max(width, height) / 2`. Any other child gives its four corners
  with size 0. The component calls the hull routine only for more than two
  points, builds a per-point padding function, and caches the resulting
  path. It recomputes that path only when the group is not a drop target or
  nothing usable is cached. The point collection is a method with a loop
  proved against the function `PointsOf`. The cache is the field `pathRef`
  of a class, and its render method is proved against the function
  `RenderStep` (`group_hull.dfy`).

The hull routine (d3's `polygonHull`), the path builder `hullPath` and
`maxPadding` are not part of this model. They are parameters of the
functions and methods that use them.

## Model

| member | source | states |
|---|---|---|
| `NetworkTypes.New` | frontend/packages/kubevirt-plugin/src/constants/vm/network/network-type.ts:36-54 | the getters return exactly the constructor arguments; the set copy holds exactly the list's members, so `allowsInterfaceType(i)` holds iff `i` is in the list |
| `NetworkTypes.Mapper` | frontend/packages/kubevirt-plugin/src/constants/vm/network/network-type.ts:21-27 | the lookup table's keys are exactly the values of the folded list, and each key maps to a list entry carrying that value |
| `NetworkTypes.MapperFinds` | frontend/packages/kubevirt-plugin/src/constants/vm/network/network-type.ts:21-27 | for any order of a list with distinct values, the table maps each entry's value back to that very entry (no collisions) |
| `NetworkTypes.GetAllContents` | frontend/packages/kubevirt-plugin/src/constants/vm/network/network-type.ts:6-29 | `getAll()` holds exactly the three kinds, their value strings are pairwise distinct, and each is well formed |
| `NetworkTypes.FromStringRoundTrip` | frontend/packages/kubevirt-plugin/src/constants/vm/network/network-type.ts:19-31 | for every kind `t` in `getAll()`, `fromString(t.value)` is `t` |
| `NetworkTypes.FromStringDomain` | frontend/packages/kubevirt-plugin/src/constants/vm/network/network-type.ts:6-31 | `fromString(s)` finds a kind iff `s` is "multus", "pod" or "genie", and what it finds is in `getAll()` and carries value `s`; every other string gives `None` |
| `NetworkTypes.FromSerializedAgrees` | frontend/packages/kubevirt-plugin/src/constants/vm/network/network-type.ts:33-34 | a missing argument gives `None`; otherwise the result is `fromString` of its `value`, so the serialised form of each kind maps back to that kind |
| `NetworkTypes.DefaultIsAllowed` | frontend/packages/kubevirt-plugin/src/constants/vm/network/network-type.ts:6-18 | each kind's default interface type is in its allowed list and is allowed by `allowsInterfaceType` |
| `NetworkTypes.AllowsMatchesList` | frontend/packages/kubevirt-plugin/src/constants/vm/network/network-type.ts:46-54 | for a well-formed kind, `allowsInterfaceType(i)` holds iff `i` occurs in `getAllowedInterfaceTypes()` |
| `NetworkTypes.AllowedInterfaceTypes` | frontend/packages/kubevirt-plugin/src/constants/vm/network/network-type.ts:6-18 | GENIE allows only BRIDGE; MULTUS allows exactly BRIDGE and SRIOV; POD allows MASQUERADE, BRIDGE and SRIOV; POD is the only kind that allows MASQUERADE |
| `NetworkTypes.FromStringAsWrittenInheritsToString` | frontend/packages/kubevirt-plugin/src/constants/vm/network/network-type.ts:21-31 | the lookup as written yields an inherited object member for "toString", where the intended lookup gives `None` |
| `NetworkTypes.FromStringAsWrittenAgrees` | frontend/packages/kubevirt-plugin/src/constants/vm/network/network-type.ts:21-31 | for every string that is not an `Object.prototype` member name, the lookup as written and `FromString` agree |
| `GroupHull.CirclePoint` | frontend/packages/topology/stories/components/GroupHull.tsx:54-58 | a circular child's point is the centre of its bounds, with a radius at least half the width and half the height and equal to one of them |
| `GroupHull.ChildPointsShape` | frontend/packages/topology/stories/components/GroupHull.tsx:54-66 | a circular child contributes exactly one point, the bounds centre with radius `max(w,h)/2`; any other child contributes exactly `(x,y)`, `(x+w,y)`, `(x,y+h)`, `(x+w,y+h)` in that order, each of size 0 |
| `GroupHull.PointCount` | frontend/packages/topology/stories/components/GroupHull.tsx:52-67 | the number of collected points is (number of circular children) + 4 × (number of other children) |
| `GroupHull.PushChildPoints` | frontend/packages/topology/stories/components/GroupHull.tsx:53-66 | the `forEach` callback's one push (circle) or four pushes (other shape) append exactly `ChildPoints(c)` to the points so far |
| `GroupHull.CollectPoints` | frontend/packages/topology/stories/components/GroupHull.tsx:52-67 | the push loop produces exactly `PointsOf(children)` |
| `GroupHull.PointsOfAppend` | frontend/packages/topology/stories/components/GroupHull.tsx:52-67 | the points of two consecutive runs of children are the points of the first run followed by those of the second |
| `GroupHull.ChildPointsInOrder` | frontend/packages/topology/stories/components/GroupHull.tsx:52-67 | the points of child `i` appear as one block right after the points of all earlier children: points are in child order |
| `GroupHull.PointFromChild` | frontend/packages/topology/stories/components/GroupHull.tsx:52-67 | every collected point is one contributed by some child |
| `GroupHull.PassThroughOnlyForFewCircles` | frontend/packages/topology/stories/components/GroupHull.tsx:68-69 | for a non-empty group there are at most two points iff the group has one or two children, all circular; exactly then the points pass through unchanged, and otherwise the hull routine is applied to them |
| `GroupHull.PaddingAtLeastGroupPadding` | frontend/packages/topology/stories/components/GroupHull.tsx:75-76 | a point's padding is its radius (0 if absent) plus the group padding: exactly the group padding for a corner, at least the group padding for every collected point when bounds are non-negative |
| `GroupHull.EmptyGroupDrawsNothing` | frontend/packages/topology/stories/components/GroupHull.tsx:47-51 | when a recompute is due, a group with no child nodes renders nothing (`null`) and leaves the cache unchanged |
| `GroupHull.NoHullDrawsNothing` | frontend/packages/topology/stories/components/GroupHull.tsx:68-72 | when more than two points are collected the hull routine is used, and if it returns null the component renders nothing and the cache is unchanged |
| `GroupHull.DrawnPathIsCached` | frontend/packages/topology/stories/components/GroupHull.tsx:44-86 | a drawn layer shows the cache after the render, which is then not null; rendering nothing leaves the cache as it was |
| `GroupHull.PathKeptWhileDroppable` | frontend/packages/topology/stories/components/GroupHull.tsx:44-79 | after a render that drew a non-empty path, a render while the group is a drop target draws and keeps that same path, whatever the children are by then |
| `GroupHull.GroupHullComponent.Render` | frontend/packages/topology/stories/components/GroupHull.tsx:44-86 | the rendering and the new `pathRef` are those of `RenderStep` on the old `pathRef`: the path is recomputed only when not droppable or nothing (null or empty) is cached, and is otherwise kept unchanged |
| `GroupHull.GroupHullComponent.constructor` | frontend/packages/topology/stories/components/GroupHull.tsx:44 | the ref starts out `null` |

## Findings

| source | as written | input that shows it | evidently intended | confidence | as-written member | corrected member |
|---|---|---|---|---|---|---|
| frontend/packages/kubevirt-plugin/src/constants/vm/network/network-type.ts:21-31 | the lookup table is a plain object literal, so `stringMapper[model]` also finds the members every object inherits from `Object.prototype` | `fromString("toString")` yields the inherited function, not `undefined` | `undefined` for every string other than "multus", "pod" and "genie" | high (standard JavaScript property lookup); not executed | `NetworkTypes.FromStringAsWrittenInheritsToString` | `NetworkTypes.FromStringDomain` |

`FromStringAsWritten` models the lookup as written. `FromString`, which the
rest of the model uses, gives `None` for every string outside the table.

## Left out

- The JSX rendering of the group (the `Layer`, the `path` element, fill and stroke colours, the click handler), the combined drag and drop refs and the mobx `observer` wrapper: user-interface code. `Render` returns only whether a layer is drawn and the path it draws.
- `polygonHull`, `hullPath` and `maxPadding` are not part of this model; they are parameters. No property of the hull itself (convexity, vertex order) is stated.
- `PointPadding`: `point[2] || 0` is modelled for a present or absent size; a `NaN` size (also falsy) cannot occur with exact real coordinates.
- Node shapes other than circles are one constructor, `Rect`, since every non-circular shape takes the four-corner branch.
- `ValueEnum` and its `getAllClassEnumProperties` are not part of this model. `GetAll` lists the three kinds in declaration order; the lookup-table lemmas hold for any order.
- `NetworkInterfaceType` is not part of this model beyond the three members the network types use: BRIDGE, MASQUERADE and SRIOV.
- `FromSerialized`: the argument is either missing or a record with a `value` string; an object without a `value` field (which the source maps to `undefined` as well) is not modelled.
- The topology data transformation, the Prometheus response shaping, the resource-lister proxy handler and the page layouts are not part of this model.
