/** Python's list slicing with negative and open bounds. */
module Slices {

  /**
   * Python's `xs[-m:]`: the last `m` elements for m > 0, all of them for
   * m == 0, and all but the first `-m` for m < 0.
   */
  function PyTail<T>(xs: seq<T>, m: int): (r: seq<T>)
    ensures |r| <= |xs| && r == xs[|xs| - |r|..]
    ensures m > 0 ==> |r| == if m < |xs| then m else |xs|
    ensures m == 0 ==> r == xs
    ensures m < 0 ==> |r| == if -m < |xs| then |xs| + m else 0
  {
    var start := if m > 0 then (if |xs| - m > 0 then |xs| - m else 0)
                 else if -m < |xs| then -m else |xs|;
    xs[start..]
  }

  /** Python's `xs[:n]` for n >= 0. */
  function Take<T>(xs: seq<T>, n: nat): (r: seq<T>)
    ensures |r| <= n && |r| <= |xs| && r == xs[..|r|]
    ensures |r| == if n < |xs| then n else |xs|
  {
    if |xs| <= n then xs else xs[..n]
  }

  /** Python's `xs[:n]`: the first n elements for n >= 0, all but the last -n for n < 0. */
  function PyHead<T>(xs: seq<T>, n: int): (r: seq<T>)
    ensures |r| <= |xs| && r == xs[..|r|]
    ensures n >= 0 ==> |r| == if n < |xs| then n else |xs|
    ensures n < 0 ==> |r| == if |xs| + n > 0 then |xs| + n else 0
  {
    var end := if n >= 0 then (if n < |xs| then n else |xs|)
               else if |xs| + n > 0 then |xs| + n else 0;
    xs[..end]
  }
}
