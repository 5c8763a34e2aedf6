/** Facts that tie the reviews and details services together. */
module CrossService {
  import Reviews
  import Details

  /** Both services propagate the same header names, in the same order. */
  lemma SameAllowlist()
    ensures Details.IncomingHeaders == Reviews.HeadersToPropagate
    ensures |Reviews.HeadersToPropagate| == 20
  {
  }
}
