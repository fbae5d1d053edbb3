/** The three lines of a price channel (Bollinger bands, envelope), as the
    Go kernels return them: upper, middle, lower, each newest-first. */
module Channel {

  datatype Bands = Bands(upper: seq<real>, middle: seq<real>, lower: seq<real>)
  {
    /** All three lines have `n` entries. */
    predicate HasLength(n: nat) { |upper| == n && |middle| == n && |lower| == n }

    /** The middle line is equidistant from the outer two at every index. */
    predicate Symmetric()
      requires HasLength(|middle|)
    {
      forall i :: 0 <= i < |middle| ==> upper[i] - middle[i] == middle[i] - lower[i]
    }

    /** lower ≤ middle ≤ upper at every index. */
    predicate Ordered()
      requires HasLength(|middle|)
    {
      forall i :: 0 <= i < |middle| ==> lower[i] <= middle[i] <= upper[i]
    }
  }
}
