/** The width store used by the first layout: a single video width with a
    floor of 200 pixels, a height derived at 16:9, and a "custom width" slot
    that remembers a width the user dragged to. */
module LayoutOneResize {

  datatype Option<T> = None | Some(value: T)

  /** The smallest width the store ever holds. */
  const Floor: real := 200.0

  /** The store's state: the current width (the value of the observable
      subject) and the saved custom width, None standing for `null`. */
  datatype Store = Store(width: real, custom: Option<real>)

  /** State on construction: width 960, no custom width. */
  const Initial: Store := Store(960.0, None)

  /** Every reachable state keeps the width, and a saved custom width, at or
      above the floor. */
  predicate Valid(s: Store) {
    s.width >= Floor && (s.custom.Some? ==> s.custom.value >= Floor)
  }

  /** `Math.max(200, w)`: the width the store accepts for a candidate `w`. */
  function Clamp(w: real): (r: real)
    ensures r >= Floor
    ensures w >= Floor ==> r == w
    ensures w < Floor ==> r == Floor
  {
    if w < Floor then Floor else w
  }

  /** The height shown for a width: 16:9 aspect ratio. */
  function Height(width: real): (h: real)
    ensures h * 16.0 == width * 9.0
  {
    width * 9.0 / 16.0
  }

  /** `updateWidth(w)`: store the clamped candidate; the custom width stays. */
  function Update(s: Store, w: real): (r: Store)
    ensures r.width == Clamp(w) && r.custom == s.custom
  {
    s.(width := Clamp(w))
  }

  /** `saveCustomWidth()`: remember the current width; the width stays. */
  function Save(s: Store): (r: Store)
    ensures r.width == s.width && r.custom == Some(s.width)
  {
    s.(custom := Some(s.width))
  }

  lemma InitialValid()
    ensures Valid(Initial)
    ensures Initial.width == 960.0 && Initial.custom == None
  {
  }

  /** Both mutators keep the invariant. */
  lemma UpdatePreservesValid(s: Store, w: real)
    requires Valid(s)
    ensures Valid(Update(s, w))
  {
  }

  lemma SavePreservesValid(s: Store)
    requires Valid(s)
    ensures Valid(Save(s))
  {
  }

  /** Updating twice with the same candidate is the same as updating once. */
  lemma UpdateIdempotent(s: Store, w: real)
    ensures Update(Update(s, w), w) == Update(s, w)
  {
  }

  /** Only the last update counts (the subject holds the most recent value). */
  lemma UpdateOverwrites(s: Store, v: real, w: real)
    ensures Update(Update(s, v), w) == Update(s, w)
  {
  }

  /** The store as an object: the BehaviorSubject's current value and the
      private custom-width field. Observers are not modelled. */
  class ResizeService {
    var videoWidth: real
    var customWidth: Option<real>

    function State(): Store
      reads this
    {
      Store(videoWidth, customWidth)
    }

    ghost predicate Inv()
      reads this
    {
      Valid(State())
    }

    constructor ()
      ensures State() == Initial && Inv()
    {
      videoWidth := 960.0;
      customWidth := None;
    }

    /** The `videoHeight` getter: always derived from the current width. */
    function VideoHeight(): (h: real)
      reads this
      ensures h * 16.0 == videoWidth * 9.0
    {
      Height(videoWidth)
    }

    method UpdateWidth(newWidth: real)
      modifies this
      ensures State() == Update(old(State()), newWidth)
      ensures old(Inv()) ==> Inv()
    {
      videoWidth := Clamp(newWidth);
    }

    method SaveCustomWidth()
      modifies this
      ensures State() == Save(old(State()))
      ensures old(Inv()) ==> Inv()
    {
      customWidth := Some(videoWidth);
    }
  }
}
