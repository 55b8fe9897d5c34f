/** Scalar node parameters that the anatomical template workflow derives from
    its arguments instead of taking them as fixed literals. */
module Params {

  /** A Python bool used in arithmetic (`2 * sloppy`) counts as 0 or 1. */
  function BoolToInt(b: bool): (r: int)
    ensures 0 <= r <= 1
    ensures r == 1 <==> b
  {
    if b then 1 else 0
  }

  /** Python's list repetition `[x] * n`: n copies of x, and the empty list
      when n is zero or negative. */
  function Repeat(x: int, n: int): (r: seq<int>)
    ensures |r| == if n <= 0 then 0 else n
    ensures forall i :: 0 <= i < |r| ==> r[i] == x
    decreases n
  {
    if n <= 0 then [] else [x] + Repeat(x, n - 1)
  }

  /** Number of N4 fitting levels, `5 - 2 * sloppy`: sloppy mode drops two. */
  function IterationDepth(sloppy: bool): (r: int)
    ensures r == if sloppy then 3 else 5
  {
    5 - 2 * BoolToInt(sloppy)
  }

  /** `n_iterations` of the bias-field correction: 50 iterations at each of
      IterationDepth(sloppy) levels. */
  function N4Iterations(sloppy: bool): (r: seq<int>)
    ensures |r| == if sloppy then 3 else 5
    ensures forall i :: 0 <= i < |r| ==> r[i] == 50
  {
    Repeat(50, IterationDepth(sloppy))
  }

  /** The nested `_set_threads(in_list, maximum)`: `min(len(in_list), maximum)`,
      the thread budget of the merge step computed from the conformed list. */
  function SetThreads<T>(inList: seq<T>, maximum: int): (r: int)
    ensures r <= maximum && r <= |inList|
    ensures r == |inList| || r == maximum
  {
    if maximum < |inList| then maximum else |inList|
  }
}
