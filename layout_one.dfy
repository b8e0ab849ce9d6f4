/** The first layout: a video panel whose width comes from the clamping
    store, chosen either from a size preset (S, M, L, custom) computed from
    the window size, or by dragging its right edge. The window size, the
    pointer position and the panel's left offset are parameters. */
module LayoutOne {
  import opened LayoutOneResize

  /** The preset that means "the width last dragged to". */
  const Custom: string := "*"

  /** The component's state together with its store. `moveOffset` is the
      registered document mousemove handler, given by the left offset it
      captured; `upListener` says whether the mouseup handler is registered. */
  datatype View = View(store: Store, selectedSize: string, moveOffset: Option<real>, upListener: bool)

  /** The largest width for which the side columns and the panel's chrome
      still fit beside and below a 16:9 video. */
  function MaxVideoWidth(innerWidth: real, innerHeight: real): (r: real)
    ensures r <= innerWidth - 600.0
    ensures r <= (innerHeight - 238.0) * 16.0 / 9.0
    ensures r == innerWidth - 600.0 || r == (innerHeight - 238.0) * 16.0 / 9.0
  {
    var spaceForColumns := innerWidth - 600.0;
    var heightConstraint := ((innerHeight - 38.0 - 200.0) * 16.0) / 9.0;
    if spaceForColumns <= heightConstraint then spaceForColumns else heightConstraint
  }

  /** `setVideoSize(size)`: the custom preset restores the saved custom
      width if there is one; S, M and L pick a fraction of the maximum or
      the full window width; any other name picks the maximum. */
  function ApplySize(v: View, size: string, innerWidth: real, innerHeight: real): (r: View)
    ensures r.selectedSize == size
    ensures r.store.custom == v.store.custom
    ensures r.moveOffset == v.moveOffset && r.upListener == v.upListener
    ensures size == Custom && v.store.custom == None ==> r.store == v.store
    ensures size == Custom && v.store.custom.Some? ==> r.store.width == Clamp(v.store.custom.value)
    ensures size == "S" ==> r.store.width == Clamp(MaxVideoWidth(innerWidth, innerHeight) * 0.5)
    ensures size == "M" ==> r.store.width == Clamp(MaxVideoWidth(innerWidth, innerHeight) * 0.75)
    ensures size == "L" ==> r.store.width == Clamp(innerWidth)
    ensures size !in {Custom, "S", "M", "L"} ==> r.store.width == Clamp(MaxVideoWidth(innerWidth, innerHeight))
  {
    var store :=
      if size == Custom then
        (match v.store.custom
         case Some(c) => Update(v.store, c)
         case None => v.store)
      else
        var maxWidth := MaxVideoWidth(innerWidth, innerHeight);
        var preset :=
          if size == "S" then maxWidth * 0.5
          else if size == "M" then maxWidth * 0.75
          else if size == "L" then innerWidth
          else maxWidth;
        Update(v.store, preset);
    v.(store := store, selectedSize := size)
  }

  /** `startResizing`: `videoOffset` is the left edge of the closest `.video`
      ancestor of the event target, None when there is none (nothing happens
      then). Otherwise the custom preset is selected and both document
      handlers are registered. */
  function BeginResize(v: View, videoOffset: Option<real>): (r: View)
    ensures videoOffset == None ==> r == v
    ensures videoOffset.Some? ==>
      r.store == v.store && r.selectedSize == Custom && r.moveOffset == videoOffset && r.upListener
  {
    match videoOffset
    case None => v
    case Some(offsetLeft) => v.(selectedSize := Custom, moveOffset := Some(offsetLeft), upListener := true)
  }

  /** A document mousemove at `clientX`: the registered handler, if any,
      offers the distance from the panel's left edge to the store. */
  function MoveTo(v: View, clientX: real): (r: View)
    ensures v.moveOffset == None ==> r == v
    ensures v.moveOffset.Some? ==> r == v.(store := Update(v.store, clientX - v.moveOffset.value))
  {
    match v.moveOffset
    case None => v
    case Some(offsetLeft) => v.(store := Update(v.store, clientX - offsetLeft))
  }

  /** `stopResizing`: save the width as the custom width and unregister
      both handlers. */
  function EndResize(v: View): (r: View)
    ensures r.store == Save(v.store) && r.selectedSize == v.selectedSize
    ensures r.moveOffset == None && !r.upListener
  {
    View(Save(v.store), v.selectedSize, None, false)
  }

  /** A sequence of mousemove events. */
  function Drag(v: View, xs: seq<real>): View
    decreases |xs|
  {
    if xs == [] then v else Drag(MoveTo(v, xs[0]), xs[1..])
  }

  /** During a drag the width follows the last pointer position, clamped;
      nothing but the width changes. */
  lemma {:induction false} DragFollowsLastMove(v: View, xs: seq<real>)
    requires v.moveOffset.Some? && |xs| > 0
    ensures Drag(v, xs) == v.(store := Update(v.store, xs[|xs| - 1] - v.moveOffset.value))
    decreases |xs|
  {
    var v1 := MoveTo(v, xs[0]);
    if |xs| > 1 {
      DragFollowsLastMove(v1, xs[1..]);
      assert xs[1..][|xs[1..]| - 1] == xs[|xs| - 1];
    } else {
      assert xs[1..] == [];
    }
  }

  /** Without a registered handler mousemove events change nothing. */
  lemma {:induction false} DragWithoutHandler(v: View, xs: seq<real>)
    requires v.moveOffset == None
    ensures Drag(v, xs) == v
    decreases |xs|
  {
    if xs != [] {
      DragWithoutHandler(MoveTo(v, xs[0]), xs[1..]);
    }
  }

  /** A full drag session (press on the panel, at least one move, release)
      followed by choosing the custom preset restores the last dragged width. */
  lemma DragThenCustomRestores(v: View, offsetLeft: real, xs: seq<real>, innerWidth: real, innerHeight: real)
    requires |xs| > 0
    ensures var after := ApplySize(EndResize(Drag(BeginResize(v, Some(offsetLeft)), xs)), Custom, innerWidth, innerHeight);
      after.store.width == Clamp(xs[|xs| - 1] - offsetLeft) && after.selectedSize == Custom
      && after.store.custom == Some(after.store.width)
  {
    DragFollowsLastMove(BeginResize(v, Some(offsetLeft)), xs);
  }

  /** Every step keeps the store's invariant. */
  lemma {:induction false} DragPreservesValid(v: View, xs: seq<real>)
    requires Valid(v.store)
    ensures Valid(Drag(v, xs).store)
    decreases |xs|
  {
    if xs != [] {
      DragPreservesValid(MoveTo(v, xs[0]), xs[1..]);
    }
  }

  lemma StepsPreserveValid(v: View, size: string, innerWidth: real, innerHeight: real, videoOffset: Option<real>, clientX: real)
    requires Valid(v.store)
    ensures Valid(ApplySize(v, size, innerWidth, innerHeight).store)
    ensures Valid(BeginResize(v, videoOffset).store)
    ensures Valid(MoveTo(v, clientX).store)
    ensures Valid(EndResize(v).store)
  {
  }

  /** The component, holding the injected store. */
  class LayoutOne {
    const resizeService: ResizeService
    var selectedSize: string
    var mouseMoveListener: Option<real>
    var mouseUpListener: bool

    function State(): View
      reads this, resizeService
    {
      View(resizeService.State(), selectedSize, mouseMoveListener, mouseUpListener)
    }

    constructor (service: ResizeService)
      ensures resizeService == service
      ensures selectedSize == "" && mouseMoveListener == None && !mouseUpListener
    {
      resizeService := service;
      selectedSize := "";
      mouseMoveListener := None;
      mouseUpListener := false;
    }

    method SetVideoSize(size: string, innerWidth: real, innerHeight: real)
      modifies this, resizeService
      ensures State() == ApplySize(old(State()), size, innerWidth, innerHeight)
    {
      if size == Custom {
        var custom := resizeService.customWidth;
        if custom.Some? {
          resizeService.UpdateWidth(custom.value);
        }
      } else {
        var maxWidth := MaxVideoWidth(innerWidth, innerHeight);
        var preset :=
          if size == "S" then maxWidth * 0.5
          else if size == "M" then maxWidth * 0.75
          else if size == "L" then innerWidth
          else maxWidth;
        resizeService.UpdateWidth(preset);
      }
      selectedSize := size;
    }

    method StartResizing(videoOffset: Option<real>)
      modifies this
      ensures State() == BeginResize(old(State()), videoOffset)
    {
      if videoOffset == None {
        return;
      }
      selectedSize := Custom;
      mouseMoveListener := videoOffset;
      mouseUpListener := true;
    }

    /** Delivery of a document mousemove event to the registered handler. */
    method OnMouseMove(clientX: real)
      modifies resizeService
      ensures State() == MoveTo(old(State()), clientX)
    {
      if mouseMoveListener.Some? {
        resizeService.UpdateWidth(clientX - mouseMoveListener.value);
      }
    }

    /** Delivery of a document mouseup event to the registered handler. */
    method OnMouseUp()
      modifies this, resizeService
      ensures State() == if old(mouseUpListener) then EndResize(old(State())) else old(State())
    {
      if mouseUpListener {
        StopResizing();
      }
    }

    method StopResizing()
      modifies this, resizeService
      ensures State() == EndResize(old(State()))
    {
      resizeService.SaveCustomWidth();
      mouseMoveListener := None;
      mouseUpListener := false;
    }
  }
}
