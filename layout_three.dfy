/** The third layout: an element snapped by CSS into one of six named
    slots. On drop, the element's centre is classified by horizontal half
    and by a vertical band around the container's midpoint; while dragging,
    every other slot is shown as a drop target. */
module LayoutThree {
  import opened Geometry

  datatype SnapSlot = TopLeft | TopRight | BottomLeft | BottomRight | MiddleLeft | MiddleRight

  datatype Column = Left | Right
  datatype Row = Top | Bottom | Middle

  /** `ALL_SLOTS`, in the source's order. */
  const AllSlots: seq<SnapSlot> := [TopLeft, TopRight, BottomLeft, BottomRight, MiddleLeft, MiddleRight]

  function ColumnOf(s: SnapSlot): Column {
    match s
    case TopLeft | BottomLeft | MiddleLeft => Left
    case TopRight | BottomRight | MiddleRight => Right
  }

  function RowOf(s: SnapSlot): Row {
    match s
    case TopLeft | TopRight => Top
    case BottomLeft | BottomRight => Bottom
    case MiddleLeft | MiddleRight => Middle
  }

  function SlotAt(r: Row, c: Column): (s: SnapSlot)
    ensures RowOf(s) == r && ColumnOf(s) == c
  {
    match (r, c)
    case (Top, Left) => TopLeft
    case (Top, Right) => TopRight
    case (Bottom, Left) => BottomLeft
    case (Bottom, Right) => BottomRight
    case (Middle, Left) => MiddleLeft
    case (Middle, Right) => MiddleRight
  }

  /** A slot is exactly a row and a column. */
  lemma SlotIsRowAndColumn(s: SnapSlot)
    ensures SlotAt(RowOf(s), ColumnOf(s)) == s
  {
  }

  /** `ALL_SLOTS` lists every slot exactly once. */
  lemma AllSlotsEnumerates()
    ensures |AllSlots| == 6
    ensures forall s :: s in AllSlots
    ensures forall i, j :: 0 <= i < j < |AllSlots| ==> AllSlots[i] != AllSlots[j]
  {
    forall s ensures s in AllSlots {
      assert AllSlots[IndexOf(s)] == s;
    }
  }

  /** The vertical band of the middle row: strictly within 20% of the
      container height of its midpoint. */
  predicate InBand(y: real, h: real) {
    var buffer := h * 0.2;
    var midY := h / 2.0;
    y > midY - buffer && y < midY + buffer
  }

  /** `calculateNearestSlot(x, y, w, h)`. */
  function CalculateNearestSlot(x: real, y: real, w: real, h: real): (s: SnapSlot)
    ensures s in AllSlots
    ensures ColumnOf(s) == Left <==> x < w / 2.0
    ensures RowOf(s) == Middle <==> InBand(y, h)
    ensures RowOf(s) == Top <==> !InBand(y, h) && y < h / 2.0
    ensures RowOf(s) == Bottom <==> !InBand(y, h) && y >= h / 2.0
  {
    var isLeft := x < w / 2.0;
    var buffer := h * 0.2;
    var midY := h / 2.0;
    if y > midY - buffer && y < midY + buffer then (if isLeft then MiddleLeft else MiddleRight)
    else if y < midY then (if isLeft then TopLeft else TopRight)
    else (if isLeft then BottomLeft else BottomRight)
  }

  /** On a positive-height container the midpoint, left of centre, is the
      middle-left slot; just outside the band it is top-left or bottom-left,
      and the band's own edges are outside it. */
  lemma BandExamples(w: real, h: real)
    requires w > 0.0 && h > 0.0
    ensures CalculateNearestSlot(0.0, h / 2.0, w, h) == MiddleLeft
    ensures CalculateNearestSlot(0.0, h * 0.3, w, h) == TopLeft
    ensures CalculateNearestSlot(0.0, h * 0.7, w, h) == BottomLeft
    ensures CalculateNearestSlot(w / 2.0, h / 2.0, w, h) == MiddleRight
  {
  }

  /** `filter(s => s !== slot)`, order kept. */
  function Without(xs: seq<SnapSlot>, slot: SnapSlot): (r: seq<SnapSlot>)
    ensures forall s :: s in r <==> s in xs && s != slot
    ensures |r| <= |xs|
  {
    if xs == [] then []
    else if xs[0] == slot then Without(xs[1..], slot)
    else [xs[0]] + Without(xs[1..], slot)
  }

  /** Filtering out an element that occurs once, at position `k`, is
      deleting position `k`. */
  lemma {:induction false} WithoutSingle(xs: seq<SnapSlot>, slot: SnapSlot, k: nat)
    requires k < |xs| && xs[k] == slot
    requires forall i :: 0 <= i < |xs| && i != k ==> xs[i] != slot
    ensures Without(xs, slot) == xs[..k] + xs[k + 1..]
  {
    if k == 0 {
      assert xs[1..] == xs[..0] + xs[1..];
      WithoutAbsent(xs[1..], slot);
    } else {
      WithoutSingle(xs[1..], slot, k - 1);
      assert [xs[0]] + (xs[1..][..k - 1] + xs[1..][k..]) == xs[..k] + xs[k + 1..];
    }
  }

  lemma {:induction false} WithoutAbsent(xs: seq<SnapSlot>, slot: SnapSlot)
    requires forall i :: 0 <= i < |xs| ==> xs[i] != slot
    ensures Without(xs, slot) == xs
  {
    if xs != [] {
      WithoutAbsent(xs[1..], slot);
    }
  }

  /** The position of a slot in `ALL_SLOTS`. */
  function IndexOf(s: SnapSlot): (k: nat)
    ensures k < |AllSlots| && AllSlots[k] == s
  {
    match s
    case TopLeft => 0
    case TopRight => 1
    case BottomLeft => 2
    case BottomRight => 3
    case MiddleLeft => 4
    case MiddleRight => 5
  }

  /** The `dropTargets` computed value. While dragging it is `ALL_SLOTS`
      with the current slot deleted from its place: five slots, in order,
      every slot but the current one. When not dragging there are none. */
  function DropTargets(dragging: bool, current: SnapSlot): (r: seq<SnapSlot>)
    ensures !dragging ==> r == []
    ensures dragging ==> r == AllSlots[..IndexOf(current)] + AllSlots[IndexOf(current) + 1..]
    ensures dragging ==> |r| == 5
    ensures dragging ==> forall s :: s in r <==> s != current
  {
    if dragging then
      AllSlotsEnumerates();
      WithoutSingle(AllSlots, current, IndexOf(current));
      Without(AllSlots, current)
    else []
  }

  datatype Size = Size(width: real, height: real)

  /** The component: the slot the element rests in, the dragging flag and
      the size measured at drag start. */
  class LayoutThree {
    var currentSlot: SnapSlot
    var dragging: bool
    var dragSize: Size

    constructor ()
      ensures currentSlot == MiddleRight && !dragging && dragSize == Size(0.0, 0.0)
    {
      currentSlot := MiddleRight;
      dragging := false;
      dragSize := Size(0.0, 0.0);
    }

    function CurrentDropTargets(): (r: seq<SnapSlot>)
      reads this
      ensures !dragging ==> r == []
      ensures dragging ==> |r| == 5 && currentSlot !in r
      ensures dragging ==> forall s :: s != currentSlot ==> s in r
    {
      DropTargets(dragging, currentSlot)
    }

    /** `onDragStarted`: `offsetWidth` and `offsetHeight` are the dragged
        element's measured size. */
    method OnDragStarted(offsetWidth: real, offsetHeight: real)
      modifies this
      ensures dragging && currentSlot == old(currentSlot)
      ensures dragSize == Size(offsetWidth, offsetHeight)
    {
      dragSize := Size(offsetWidth, offsetHeight);
      dragging := true;
    }

    /** `onDragEnded`: classify the element's centre relative to the
        container and make that slot current. */
    method OnDragEnded(parentRect: Rect, elementRect: Rect)
      modifies this
      ensures !dragging && dragSize == old(dragSize)
      ensures currentSlot == CalculateNearestSlot(
        elementRect.left + elementRect.width / 2.0 - parentRect.left,
        elementRect.top + elementRect.height / 2.0 - parentRect.top,
        parentRect.width, parentRect.height)
    {
      dragging := false;
      var centerX := elementRect.left + elementRect.width / 2.0 - parentRect.left;
      var centerY := elementRect.top + elementRect.height / 2.0 - parentRect.top;
      currentSlot := CalculateNearestSlot(centerX, centerY, parentRect.width, parentRect.height);
    }
  }
}
