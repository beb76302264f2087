/**
 * The geometry part of the group-hull component of the topology package:
 * the points collected from a group's child nodes, the choice between the
 * hull routine and passing the points through, the per-point padding, and
 * the cached path that is recomputed only when the group is not a drop
 * target or nothing usable is cached.
 *
 * The hull routine (d3's `polygonHull`), the path builder `hullPath` and
 * `maxPadding` are not part of this model; they are parameters.
 */
module GroupHull {
  import opened Wrappers

  /** Every shape other than `Circle` takes the four-corner branch. */
  datatype NodeShape = Circle | Rect

  /** A node's bounding box. */
  datatype Bounds = Bounds(x: real, y: real, width: real, height: real)

  datatype ChildNode = ChildNode(shape: NodeShape, bounds: Bounds)

  /** A point `[x, y]` or `[x, y, size]`; the size is the radius around the point. */
  datatype Point = Point(x: real, y: real, size: Option<real>)

  /** `Math.max` */
  function Max(a: real, b: real): real {
    if a >= b then a else b
  }

  /** The point a circular child contributes: its bounds centre, with radius `max(width, height) / 2`. */
  function CirclePoint(b: Bounds): (p: Point)
    ensures p.size.Some?
    ensures p.x - b.x == b.x + b.width - p.x && p.y - b.y == b.y + b.height - p.y
    ensures 2.0 * p.size.value >= b.width && 2.0 * p.size.value >= b.height
    ensures 2.0 * p.size.value == b.width || 2.0 * p.size.value == b.height
  {
    Point(b.x + b.width / 2.0, b.y + b.height / 2.0, Some(Max(b.width, b.height) / 2.0))
  }

  /** The four corners of a box, each with size 0, in the order the component pushes them. */
  function CornerPoints(b: Bounds): seq<Point> {
    [Point(b.x, b.y, Some(0.0)),
     Point(b.x + b.width, b.y, Some(0.0)),
     Point(b.x, b.y + b.height, Some(0.0)),
     Point(b.x + b.width, b.y + b.height, Some(0.0))]
  }

  /** The points one child contributes. */
  function ChildPoints(c: ChildNode): seq<Point> {
    if c.shape == Circle then [CirclePoint(c.bounds)] else CornerPoints(c.bounds)
  }

  function CircleCount(children: seq<ChildNode>): (n: nat)
    ensures n <= |children|
  {
    if children == [] then 0
    else CircleCount(children[..|children| - 1]) + (if children[|children| - 1].shape == Circle then 1 else 0)
  }

  /** The points of all children, child by child, in child order. */
  function PointsOf(children: seq<ChildNode>): seq<Point> {
    if children == [] then []
    else PointsOf(children[..|children| - 1]) + ChildPoints(children[|children| - 1])
  }

  /** One point per circular child and four per other child. */
  lemma {:induction false} PointCount(children: seq<ChildNode>)
    ensures |PointsOf(children)| == CircleCount(children) + 4 * (|children| - CircleCount(children))
    decreases |children|
  {
    if children != [] {
      PointCount(children[..|children| - 1]);
    }
  }

  /** The `_.forEach` callback: pushes the points of one child onto `points`. */
  method PushChildPoints(points: seq<Point>, c: ChildNode) returns (pushed: seq<Point>)
    ensures pushed == points + ChildPoints(c)
  {
    pushed := points;
    if c.shape == Circle {
      var width, height := c.bounds.width, c.bounds.height;
      var x, y := c.bounds.x + width / 2.0, c.bounds.y + height / 2.0;
      var radius := Max(width, height) / 2.0;
      pushed := pushed + [Point(x, y, Some(radius))];
    } else {
      // add all 4 corners
      var width, height, x, y := c.bounds.width, c.bounds.height, c.bounds.x, c.bounds.y;
      pushed := pushed + [Point(x, y, Some(0.0))];
      pushed := pushed + [Point(x + width, y, Some(0.0))];
      pushed := pushed + [Point(x, y + height, Some(0.0))];
      pushed := pushed + [Point(x + width, y + height, Some(0.0))];
    }
  }

  /** The loop of the component that fills `points`, child by child. */
  method CollectPoints(children: seq<ChildNode>) returns (points: seq<Point>)
    ensures points == PointsOf(children)
  {
    points := [];
    var i := 0;
    while i < |children|
      invariant 0 <= i <= |children|
      invariant points == PointsOf(children[..i])
    {
      points := PushChildPoints(points, children[i]);
      assert children[..i + 1][..i] == children[..i];
      i := i + 1;
    }
    assert children[..i] == children;
  }

  /** The hull routine is used for more than two points; one or two points pass through as they are. */
  function HullPoints(points: seq<Point>, polygonHull: seq<Point> -> Option<seq<Point>>): Option<seq<Point>> {
    if |points| > 2 then polygonHull(points) else Some(points)
  }

  /** `point[2] || 0` plus the group padding. */
  function PointPadding(p: Point, padding: real): real {
    (if p.size.Some? then p.size.value else 0.0) + padding
  }

  /** The padding function handed to the path builder. */
  function HullPadding(padding: real): Point -> real {
    (p: Point) => PointPadding(p, padding)
  }

  /** The points of a concatenation are the concatenation of the points. */
  lemma {:induction false} PointsOfAppend(a: seq<ChildNode>, b: seq<ChildNode>)
    ensures PointsOf(a + b) == PointsOf(a) + PointsOf(b)
    decreases |b|
  {
    if b == [] {
      assert a + b == a;
    } else {
      var init, last := b[..|b| - 1], b[|b| - 1];
      assert (a + b)[..|a + b| - 1] == a + init;
      assert (a + b)[|a + b| - 1] == last;
      calc {
        PointsOf(a + b);
        PointsOf(a + init) + ChildPoints(last);
        { PointsOfAppend(a, init); }
        (PointsOf(a) + PointsOf(init)) + ChildPoints(last);
        PointsOf(a) + (PointsOf(init) + ChildPoints(last));
        PointsOf(a) + PointsOf(b);
      }
    }
  }

  /** The points of child `i` sit, as one block, right after the points of the children before it. */
  lemma ChildPointsInOrder(children: seq<ChildNode>, i: nat)
    requires i < |children|
    ensures var start := |PointsOf(children[..i])|;
      start + |ChildPoints(children[i])| <= |PointsOf(children)| &&
      PointsOf(children)[start..start + |ChildPoints(children[i])|] == ChildPoints(children[i])
  {
    var before, after := children[..i], children[i + 1..];
    assert children == before + [children[i]] + after;
    PointsOfAppend(before + [children[i]], after);
    PointsOfAppend(before, [children[i]]);
    assert PointsOf([children[i]]) == ChildPoints(children[i]) by {
      assert [children[i]][..0] == [];
    }
  }

  /** A circular child contributes one point, the centre of its bounds, with radius `max(width, height) / 2`;
      any other child contributes its four corners, in the order top-left, top-right, bottom-left, bottom-right, each of size 0. */
  lemma ChildPointsShape(c: ChildNode)
    ensures c.shape == Circle ==>
      |ChildPoints(c)| == 1 &&
      ChildPoints(c)[0] == Point(c.bounds.x + c.bounds.width / 2.0, c.bounds.y + c.bounds.height / 2.0,
                                 Some(Max(c.bounds.width, c.bounds.height) / 2.0))
    ensures c.shape != Circle ==>
      var b := c.bounds;
      ChildPoints(c) == [Point(b.x, b.y, Some(0.0)), Point(b.x + b.width, b.y, Some(0.0)),
                         Point(b.x, b.y + b.height, Some(0.0)), Point(b.x + b.width, b.y + b.height, Some(0.0))]
  {
  }

  /** Every collected point comes from some child. */
  lemma {:induction false} PointFromChild(children: seq<ChildNode>, p: Point)
    requires p in PointsOf(children)
    ensures exists c :: c in children && p in ChildPoints(c)
    decreases |children|
  {
    var init, last := children[..|children| - 1], children[|children| - 1];
    if p in ChildPoints(last) {
      assert last in children;
    } else {
      PointFromChild(init, p);
      var c :| c in init && p in ChildPoints(c);
      assert c in children;
    }
  }

  /** Only circles contribute fewer than four points, so the count equals the child count exactly when all are circles. */
  lemma {:induction false} AllCircles(children: seq<ChildNode>)
    ensures CircleCount(children) == |children| <==> forall c | c in children :: c.shape == Circle
    decreases |children|
  {
    if children != [] {
      var init, last := children[..|children| - 1], children[|children| - 1];
      AllCircles(init);
      assert children == init + [last];
    }
  }

  /** For a non-empty group the hull routine is skipped exactly when the group has one or two children, all circles;
      in every other case the hull routine is applied to all the collected points. */
  lemma PassThroughOnlyForFewCircles(children: seq<ChildNode>, polygonHull: seq<Point> -> Option<seq<Point>>)
    requires children != []
    ensures var points := PointsOf(children);
      (|points| <= 2 <==> |children| <= 2 && forall c | c in children :: c.shape == Circle) &&
      HullPoints(points, polygonHull) ==
        (if |children| <= 2 && forall c | c in children :: c.shape == Circle then Some(points) else polygonHull(points))
  {
    AllCircles(children);
    PointCount(children);
  }

  /** Each point's padding is the group padding plus its radius: exactly the group padding for a corner,
      and at least the group padding for every collected point when the bounds have non-negative sizes. */
  lemma PaddingAtLeastGroupPadding(children: seq<ChildNode>, padding: real, p: Point)
    requires p in PointsOf(children)
    requires forall c | c in children :: c.bounds.width >= 0.0 && c.bounds.height >= 0.0
    ensures HullPadding(padding)(p) >= padding
    ensures p.size == Some(0.0) ==> HullPadding(padding)(p) == padding
  {
    PointFromChild(children, p);
  }

  /** Whether the component recomputes the path: the group is not a drop target, or the cache is `null` or empty (falsy). */
  predicate NeedsRecompute(droppable: bool, cached: Option<string>) {
    !droppable || cached == None || cached == Some("")
  }

  /** What the component renders: nothing (`null`), or the layer whose path is drawn from the cached value. */
  datatype Rendering = Nothing | Layer(d: Option<string>)

  /** The group: its child nodes and the padding of its style, in whatever form `maxPadding` accepts. */
  datatype GroupElement<Padding> = GroupElement(nodes: seq<ChildNode>, stylePadding: Padding)

  /**
   * One render, as a function of the cached path before it: the rendering
   * and the cached path after it.
   */
  function RenderStep<Padding>(cached: Option<string>, element: GroupElement<Padding>, droppable: bool,
                               polygonHull: seq<Point> -> Option<seq<Point>>,
                               hullPath: (seq<Point>, Point -> real) -> string,
                               maxPadding: Padding -> real): (Rendering, Option<string>)
  {
    if !NeedsRecompute(droppable, cached) then (Layer(cached), cached)
    else if element.nodes == [] then (Nothing, cached)
    else match HullPoints(PointsOf(element.nodes), polygonHull)
      case None => (Nothing, cached)
      case Some(hull) =>
        var path := hullPath(hull, HullPadding(maxPadding(element.stylePadding)));
        (Layer(Some(path)), Some(path))
  }

  /** A group without child nodes renders nothing and leaves the cache as it was. */
  lemma EmptyGroupDrawsNothing<Padding>(cached: Option<string>, element: GroupElement<Padding>, droppable: bool,
                                        polygonHull: seq<Point> -> Option<seq<Point>>,
                                        hullPath: (seq<Point>, Point -> real) -> string,
                                        maxPadding: Padding -> real)
    requires element.nodes == []
    requires NeedsRecompute(droppable, cached)
    ensures RenderStep(cached, element, droppable, polygonHull, hullPath, maxPadding) == (Nothing, cached)
  {
  }

  /** When more than two points are collected the hull routine is used; if it finds no hull the component
      renders nothing and the cache keeps its value. */
  lemma NoHullDrawsNothing<Padding>(cached: Option<string>, element: GroupElement<Padding>, droppable: bool,
                                    polygonHull: seq<Point> -> Option<seq<Point>>,
                                    hullPath: (seq<Point>, Point -> real) -> string,
                                    maxPadding: Padding -> real)
    requires NeedsRecompute(droppable, cached)
    requires |PointsOf(element.nodes)| > 2
    requires polygonHull(PointsOf(element.nodes)) == None
    ensures RenderStep(cached, element, droppable, polygonHull, hullPath, maxPadding) == (Nothing, cached)
  {
  }

  /** Whatever is drawn is the cached path after the render, which then is not `null`; rendering nothing leaves the cache as it was. */
  lemma DrawnPathIsCached<Padding>(cached: Option<string>, element: GroupElement<Padding>, droppable: bool,
                                   polygonHull: seq<Point> -> Option<seq<Point>>,
                                   hullPath: (seq<Point>, Point -> real) -> string,
                                   maxPadding: Padding -> real)
    ensures var (out, next) := RenderStep(cached, element, droppable, polygonHull, hullPath, maxPadding);
      (out.Layer? ==> out.d == next && next.Some?) &&
      (out.Nothing? ==> next == cached)
  {
  }

  /**
   * While the group is a drop target, a render after one that drew a
   * non-empty path draws the same path again and keeps it, whatever the
   * children and their bounds are by then: the box changes only when not
   * dragging.
   */
  lemma {:induction false} PathKeptWhileDroppable<Padding>(
    cached: Option<string>, first: GroupElement<Padding>, firstDroppable: bool, second: GroupElement<Padding>,
    polygonHull: seq<Point> -> Option<seq<Point>>,
    hullPath: (seq<Point>, Point -> real) -> string,
    maxPadding: Padding -> real)
    requires RenderStep(cached, first, firstDroppable, polygonHull, hullPath, maxPadding).0.Layer?
    requires RenderStep(cached, first, firstDroppable, polygonHull, hullPath, maxPadding).1 != Some("")
    ensures var (out1, next) := RenderStep(cached, first, firstDroppable, polygonHull, hullPath, maxPadding);
      RenderStep(next, second, true, polygonHull, hullPath, maxPadding) == (out1, next)
  {
    DrawnPathIsCached(cached, first, firstDroppable, polygonHull, hullPath, maxPadding);
  }

  /** The `pathRef` of one mounted component: `None` is `null`. */
  class GroupHullComponent {
    var pathRef: Option<string>

    constructor ()
      ensures pathRef == None
    {
      pathRef := None;
    }

    /** One render of the component body: recompute the path if needed, then return what is drawn. */
    method Render<Padding>(element: GroupElement<Padding>, droppable: bool,
                           polygonHull: seq<Point> -> Option<seq<Point>>,
                           hullPath: (seq<Point>, Point -> real) -> string,
                           maxPadding: Padding -> real) returns (out: Rendering)
      modifies this
      ensures (out, pathRef) == RenderStep(old(pathRef), element, droppable, polygonHull, hullPath, maxPadding)
      ensures !NeedsRecompute(droppable, old(pathRef)) ==> pathRef == old(pathRef)
      ensures out.Nothing? ==> pathRef == old(pathRef)
    {
      if !droppable || pathRef == None || pathRef == Some("") {
        var nodeChildren := element.nodes;
        if |nodeChildren| == 0 {
          return Nothing;
        }
        var points := CollectPoints(nodeChildren);
        var hullPoints := HullPoints(points, polygonHull);
        if hullPoints == None {
          return Nothing;
        }
        var padding := maxPadding(element.stylePadding);
        // change the box only when not dragging
        pathRef := Some(hullPath(hullPoints.value, HullPadding(padding)));
      }
      out := Layer(pathRef);
    }
  }
}
