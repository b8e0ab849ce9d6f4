/** The second layout: a fixed 80x160 element that snaps to the nearest of
    six points (four corners and the two middle positions of the sides) of
    its container. Measured rectangles are parameters. */
module LayoutTwo {
  import opened Geometry

  const RectW: real := 80.0
  const RectH: real := 160.0

  /** The number of snap points. */
  const SlotCount: nat := 6

  /** `getSnapPoints`: the top-left corners of the element resting in each
      slot, in container coordinates. Even indices are in the left column and
      odd ones in the right; indices 0-1 are the top row, 2-3 the bottom row
      and 4-5 the middle row. */
  function SnapPoints(width: real, height: real, rectW: real, rectH: real): (ps: seq<Point>)
    ensures |ps| == SlotCount
    ensures forall i :: 0 <= i < |ps| ==>
      ps[i].x == (if i % 2 == 0 then 0.0 else width - rectW)
    ensures forall i :: 0 <= i < |ps| ==>
      ps[i].y == (if i / 2 == 0 then 0.0 else if i / 2 == 1 then height - rectH else height / 2.0 - rectH / 2.0)
  {
    var right := width - rectW;
    var bottom := height - rectH;
    var middle := height / 2.0 - rectH / 2.0;
    [Point(0.0, 0.0), Point(right, 0.0),
     Point(0.0, bottom), Point(right, bottom),
     Point(0.0, middle), Point(right, middle)]
  }

  /** When the element fits, every snap point keeps it inside the container. */
  lemma SnapPointsInside(width: real, height: real, rectW: real, rectH: real)
    requires rectW <= width && rectH <= height
    ensures forall p :: p in SnapPoints(width, height, rectW, rectH) ==>
      0.0 <= p.x <= width - rectW && 0.0 <= p.y <= height - rectH
  {
    var ps := SnapPoints(width, height, rectW, rectH);
    forall p | p in ps
      ensures 0.0 <= p.x <= width - rectW && 0.0 <= p.y <= height - rectH
    {
      var i :| 0 <= i < |ps| && ps[i] == p;
    }
  }

  /** `k` is the index the strict-`<` scan selects: a candidate at minimum
      distance from `target`, and no earlier candidate is as close. */
  ghost predicate IsFirstNearest(ps: seq<Point>, target: Point, k: int) {
    && 0 <= k < |ps|
    && (forall j :: 0 <= j < |ps| ==> SqDist(ps[k], target) <= SqDist(ps[j], target))
    && (forall j :: 0 <= j < k ==> SqDist(ps[j], target) > SqDist(ps[k], target))
  }

  /** At most one index is the first nearest one: the scan's result is
      determined by its inputs. */
  lemma FirstNearestUnique(ps: seq<Point>, target: Point, k1: int, k2: int)
    requires IsFirstNearest(ps, target, k1) && IsFirstNearest(ps, target, k2)
    ensures k1 == k2
  {
    var d1, d2 := SqDist(ps[k1], target), SqDist(ps[k2], target);
    assert d1 <= d2 && d2 <= d1;
  }

  /** The scan of `snapPosition`: `bestDist` starts at infinity (None). */
  method NearestIndex(ps: seq<Point>, target: Point) returns (bestIndex: nat)
    ensures |ps| > 0 ==> IsFirstNearest(ps, target, bestIndex)
    ensures |ps| == 0 ==> bestIndex == 0
  {
    var bestDist: real := 0.0;
    var seen := false;
    bestIndex := 0;
    var i := 0;
    while i < |ps|
      invariant 0 <= i <= |ps|
      invariant seen <==> i > 0
      invariant i == 0 ==> bestIndex == 0
      invariant seen ==> bestIndex < i && bestDist == SqDist(ps[bestIndex], target)
      invariant forall j :: 0 <= j < i ==> bestDist <= SqDist(ps[j], target)
      invariant forall j :: 0 <= j < bestIndex ==> SqDist(ps[j], target) > bestDist
    {
      var dist := SqDist(ps[i], target);
      if !seen || dist < bestDist {
        bestDist := dist;
        bestIndex := i;
        seen := true;
      }
      i := i + 1;
    }
  }

  /** The component: the slot last snapped to and the element's position. */
  class LayoutTwo {
    var currentSlotIndex: nat
    var dragPosition: Point

    ghost predicate Valid()
      reads this
    {
      currentSlotIndex < SlotCount
    }

    constructor ()
      ensures Valid() && currentSlotIndex == 0 && dragPosition == Point(0.0, 0.0)
    {
      currentSlotIndex := 0;
      dragPosition := Point(0.0, 0.0);
    }

    /** `updatePosition`: place the element on the current slot's snap
        point for the container's present size. */
    method UpdatePosition(parent: Rect)
      requires Valid()
      modifies this
      ensures Valid() && currentSlotIndex == old(currentSlotIndex)
      ensures dragPosition == SnapPoints(parent.width, parent.height, RectW, RectH)[currentSlotIndex]
    {
      var snapPoints := SnapPoints(parent.width, parent.height, RectW, RectH);
      var target := snapPoints[currentSlotIndex];
      dragPosition := Point(target.x, target.y);
    }

    /** `snapPosition`: the drag constraint. Pick the snap point nearest to
        the pointer (in container coordinates), remember its index, and
        return it in page coordinates. */
    method SnapPosition(parent: Rect, point: Point) returns (r: Point)
      modifies this
      ensures Valid() && dragPosition == old(dragPosition)
      ensures IsFirstNearest(SnapPoints(parent.width, parent.height, RectW, RectH),
                             ToLocal(point, parent), currentSlotIndex)
      ensures ToLocal(r, parent) == SnapPoints(parent.width, parent.height, RectW, RectH)[currentSlotIndex]
    {
      var snapPoints := SnapPoints(parent.width, parent.height, RectW, RectH);
      var local := ToLocal(point, parent);
      var bestIndex := NearestIndex(snapPoints, local);
      currentSlotIndex := bestIndex;
      var winner := snapPoints[bestIndex];
      r := Point(winner.x + parent.left, winner.y + parent.top);
    }
  }

  /** The first placement of a new component is the top-left corner. */
  lemma InitialPlacementTopLeft(width: real, height: real)
    ensures SnapPoints(width, height, RectW, RectH)[0] == Point(0.0, 0.0)
  {
  }

  /** In a 400x300 container a pointer at the origin snaps to the top-left
      slot and one at the far corner to the bottom-right slot. */
  lemma SnapExamples()
    ensures IsFirstNearest(SnapPoints(400.0, 300.0, RectW, RectH), Point(0.0, 0.0), 0)
    ensures IsFirstNearest(SnapPoints(400.0, 300.0, RectW, RectH), Point(400.0, 300.0), 3)
  {
    var ps := SnapPoints(400.0, 300.0, RectW, RectH);
    assert ps == [Point(0.0, 0.0), Point(320.0, 0.0), Point(0.0, 140.0),
                  Point(320.0, 140.0), Point(0.0, 70.0), Point(320.0, 70.0)];
    var far := Point(400.0, 300.0);
    assert SqDist(ps[3], far) == 32000.0;
    assert SqDist(ps[0], far) == 250000.0;
    assert SqDist(ps[1], far) == 96400.0;
    assert SqDist(ps[2], far) == 185600.0;
    assert SqDist(ps[4], far) == 212900.0;
    assert SqDist(ps[5], far) == 59300.0;
  }

  /** Equal distances go to the lower index: a pointer exactly halfway
      between the top-left and top-right points picks the top-left one. */
  lemma TieGoesToFirst()
    ensures IsFirstNearest(SnapPoints(400.0, 300.0, RectW, RectH), Point(160.0, 0.0), 0)
  {
    var ps := SnapPoints(400.0, 300.0, RectW, RectH);
    assert ps == [Point(0.0, 0.0), Point(320.0, 0.0), Point(0.0, 140.0),
                  Point(320.0, 140.0), Point(0.0, 70.0), Point(320.0, 70.0)];
    var mid := Point(160.0, 0.0);
    assert SqDist(ps[0], mid) == SqDist(ps[1], mid) == 25600.0;
    assert SqDist(ps[2], mid) == 45200.0;
    assert SqDist(ps[3], mid) == 45200.0;
    assert SqDist(ps[4], mid) == 30500.0;
    assert SqDist(ps[5], mid) == 30500.0;
  }
}
