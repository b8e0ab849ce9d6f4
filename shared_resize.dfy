/** The application-wide width store: a width signal starting at 640 whose
    setter rejects candidates at or below 200 and keeps the old width. */
module SharedResize {

  /** Candidates must be strictly above this to be accepted. */
  const Threshold: real := 200.0

  const InitialWidth: real := 640.0

  /** `calculateHeight(width)`: the 16:9 height for a width. */
  function CalculateHeight(width: real): (h: real)
    ensures h * 16.0 == width * 9.0
  {
    width * 9.0 / 16.0
  }

  /** The width after `updateWidth(newWidth)` from width `current`. */
  function Accept(current: real, newWidth: real): (r: real)
    ensures newWidth > Threshold ==> r == newWidth
    ensures newWidth <= Threshold ==> r == current
  {
    if newWidth > Threshold then newWidth else current
  }

  lemma CalculateHeightMonotone(a: real, b: real)
    requires a <= b
    ensures CalculateHeight(a) <= CalculateHeight(b)
  {
  }

  lemma CalculateHeightExample()
    ensures CalculateHeight(960.0) == 540.0
  {
  }

  /** A width above the threshold stays above it whatever is offered. */
  lemma AcceptPreservesInvariant(current: real, newWidth: real)
    requires current > Threshold
    ensures Accept(current, newWidth) > Threshold
  {
  }

  /** The threshold itself is rejected: the test is strict. */
  lemma ThresholdRejected(current: real)
    ensures Accept(current, Threshold) == current
  {
  }

  lemma AcceptIdempotent(current: real, newWidth: real)
    ensures Accept(Accept(current, newWidth), newWidth) == Accept(current, newWidth)
  {
  }

  /** The store as an object holding the width signal's value. */
  class ResizeService {
    var videoWidth: real

    ghost predicate Valid()
      reads this
    {
      videoWidth > Threshold
    }

    constructor ()
      ensures videoWidth == InitialWidth && Valid()
    {
      videoWidth := InitialWidth;
    }

    method UpdateWidth(newWidth: real)
      modifies this
      ensures videoWidth == Accept(old(videoWidth), newWidth)
      ensures old(Valid()) ==> Valid()
    {
      if newWidth > Threshold {
        videoWidth := newWidth;
      }
    }
  }
}
