/** The index convention shared by the back end and the browser. The
    exchange delivers klines oldest first; the Go services lay every series
    out newest first (index 0 is the latest bar); the browser reverses each
    series again so that the chart runs oldest to newest from left to
    right, and maps a display index d back to the source index len − 1 − d. */
module IndexModel {

  /** `slice().reverse()`: a reversed copy. */
  function Reverse<T>(s: seq<T>): (r: seq<T>)
    ensures |r| == |s|
  {
    if s == [] then [] else [s[|s| - 1]] + Reverse(s[..|s| - 1])
  }

  /** The display position of source index i, and the source index of
      display position d: the same map, len − 1 − i. */
  function Mirror(len: int, i: int): int { len - 1 - i }

  lemma {:induction false} ReverseAt<T>(s: seq<T>)
    ensures forall d :: 0 <= d < |s| ==> Reverse(s)[d] == s[Mirror(|s|, d)]
  {
    if s != [] {
      ReverseAt(s[..|s| - 1]);
    }
  }

  /** Reversing twice gives the series back: the Go reversal and the
      browser reversal cancel. */
  lemma ReverseReverse<T>(s: seq<T>)
    ensures Reverse(Reverse(s)) == s
  {
    ReverseAt(s);
    ReverseAt(Reverse(s));
  }

  /** Mirroring is its own inverse and keeps indices in range. */
  lemma MirrorInvolution(len: int, d: int)
    requires 0 <= d < len
    ensures 0 <= Mirror(len, d) < len && Mirror(len, Mirror(len, d)) == d
  {
  }

  /** Two series of equal length stay aligned under reversal: display
      position d shows, in both, the entries of one and the same source
      index. */
  lemma ReverseAligned<T, U>(s: seq<T>, t: seq<U>, d: int)
    requires |s| == |t| && 0 <= d < |s|
    ensures Reverse(s)[d] == s[Mirror(|s|, d)] && Reverse(t)[d] == t[Mirror(|s|, d)]
  {
    ReverseAt(s);
    ReverseAt(t);
  }
}
