/** The two width stores side by side: the first layout's store clamps a
    small candidate up to 200, the shared store rejects it and keeps its
    width. They agree exactly on candidates above 200. */
module StorePolicies {
  import LayoutOneResize
  import SharedResize

  /** Above the floor both stores take the candidate as it is. */
  lemma PoliciesAgreeAboveFloor(s: LayoutOneResize.Store, current: real, w: real)
    requires w > 200.0
    ensures LayoutOneResize.Update(s, w).width == w == SharedResize.Accept(current, w)
  {
  }

  /** At or below the floor they always disagree: the clamping store holds
      exactly 200 and the rejecting store keeps its width, which its
      invariant keeps above 200. */
  lemma PoliciesDisagreeAtOrBelowFloor(s: LayoutOneResize.Store, current: real, w: real)
    requires w <= 200.0 && current > SharedResize.Threshold
    ensures LayoutOneResize.Update(s, w).width == 200.0
    ensures SharedResize.Accept(current, w) == current
    ensures LayoutOneResize.Update(s, w).width != SharedResize.Accept(current, w)
  {
  }

  /** Both stores derive the same 16:9 height from a width. */
  lemma SameAspectRatio(w: real)
    ensures LayoutOneResize.Height(w) == SharedResize.CalculateHeight(w)
  {
  }
}
