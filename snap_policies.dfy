/** The two snapping policies side by side. The nearest-point snapper's six
    candidates come in the same order as the named slots, so index `i` is
    the slot `AllSlots[i]`; the band classifier is a different rule and the
    two disagree near band boundaries. */
module SnapPolicies {
  import opened Geometry
  import LayoutTwo
  import LayoutThree

  /** The resting position of an element in a named slot, from the slot's
      row and column alone. */
  function SnapPointFor(slot: LayoutThree.SnapSlot, width: real, height: real, rectW: real, rectH: real): (p: Point)
    ensures LayoutThree.ColumnOf(slot) == LayoutThree.Left ==> p.x == 0.0
    ensures LayoutThree.RowOf(slot) == LayoutThree.Top ==> p.y == 0.0
  {
    var x := match LayoutThree.ColumnOf(slot)
      case Left => 0.0
      case Right => width - rectW;
    var y := match LayoutThree.RowOf(slot)
      case Top => 0.0
      case Bottom => height - rectH
      case Middle => height / 2.0 - rectH / 2.0;
    Point(x, y)
  }

  /** Snap point `i` is the resting position in slot `ALL_SLOTS[i]`. */
  lemma SnapPointsFollowSlotOrder(width: real, height: real, rectW: real, rectH: real)
    ensures forall i :: 0 <= i < LayoutTwo.SlotCount ==>
      LayoutTwo.SnapPoints(width, height, rectW, rectH)[i]
        == SnapPointFor(LayoutThree.AllSlots[i], width, height, rectW, rectH)
  {
    var ps := LayoutTwo.SnapPoints(width, height, rectW, rectH);
    forall i | 0 <= i < LayoutTwo.SlotCount
      ensures ps[i] == SnapPointFor(LayoutThree.AllSlots[i], width, height, rectW, rectH)
    {
      assert i % 2 == 0 <==> i in {0, 2, 4};
      assert i / 2 == 0 <==> i in {0, 1};
      assert i / 2 == 1 <==> i in {2, 3};
    }
  }

  /** A pointer at (0, 215) in a 1000x1000 container, the 80x160 element
      held by its top-left corner: the snap point nearest the pointer is
      middle-left, but the element's centre (40, 295) lies just above the
      middle band, so the band classifier says top-left. */
  lemma PoliciesDisagree()
    ensures LayoutTwo.IsFirstNearest(LayoutTwo.SnapPoints(1000.0, 1000.0, LayoutTwo.RectW, LayoutTwo.RectH),
                                     Point(0.0, 215.0), 4)
    ensures LayoutThree.AllSlots[4] == LayoutThree.MiddleLeft
    ensures LayoutThree.CalculateNearestSlot(0.0 + LayoutTwo.RectW / 2.0, 215.0 + LayoutTwo.RectH / 2.0, 1000.0, 1000.0)
      == LayoutThree.TopLeft
  {
    var ps := LayoutTwo.SnapPoints(1000.0, 1000.0, LayoutTwo.RectW, LayoutTwo.RectH);
    assert ps == [Point(0.0, 0.0), Point(920.0, 0.0), Point(0.0, 840.0),
                  Point(920.0, 840.0), Point(0.0, 420.0), Point(920.0, 420.0)];
    var p := Point(0.0, 215.0);
    assert SqDist(ps[0], p) == 46225.0;
    assert SqDist(ps[1], p) == 892625.0;
    assert SqDist(ps[2], p) == 390625.0;
    assert SqDist(ps[3], p) == 1237025.0;
    assert SqDist(ps[4], p) == 42025.0;
    assert SqDist(ps[5], p) == 888425.0;
  }
}
