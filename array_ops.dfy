/**
 * The JavaScript array operations the purse relies on: `reduce` with an
 * addition callback (a left fold), and `find` / `findIndex` with a predicate.
 * Each is defined the way the runtime evaluates it and related to an
 * independent specification.
 */
module ArrayOps {
  import opened Wrappers

  /** Reference sum, peeling the last element. */
  function Sum(xs: seq<int>): int
  {
    if xs == [] then 0 else Sum(xs[..|xs| - 1]) + xs[|xs| - 1]
  }

  /** `xs.reduce((total, current) => total + current, acc)`: left to right. */
  function Reduce(xs: seq<int>, acc: int): int
  {
    if xs == [] then acc else Reduce(xs[1..], acc + xs[0])
  }

  /** Appending one element adds it to the sum. */
  lemma SumSnoc(xs: seq<int>, x: int)
    ensures Sum(xs + [x]) == Sum(xs) + x
  {
  }

  /** Prepending one element adds it to the sum. */
  lemma {:induction false} SumCons(x: int, xs: seq<int>)
    ensures Sum([x] + xs) == x + Sum(xs)
    decreases |xs|
  {
    if xs != [] {
      var init := xs[..|xs| - 1];
      assert ([x] + xs)[..|xs|] == [x] + init;
      SumCons(x, init);
    }
  }

  /** The left fold the source uses computes the reference sum. */
  lemma {:induction false} ReduceIsSum(xs: seq<int>, acc: int)
    ensures Reduce(xs, acc) == acc + Sum(xs)
    decreases |xs|
  {
    if xs != [] {
      ReduceIsSum(xs[1..], acc + xs[0]);
      assert xs == [xs[0]] + xs[1..];
      SumCons(xs[0], xs[1..]);
    }
  }

  /** `k` is where a left-to-right search stops: the first element of `s` satisfying `p`. */
  predicate IsFirstMatch<T>(s: seq<T>, p: T -> bool, k: int)
  {
    0 <= k < |s| && p(s[k]) && forall j :: 0 <= j < k ==> !p(s[j])
  }

  /** `s.findIndex(p)`: the index of the first element satisfying `p`, or `None` for `-1`. */
  function FindIndex<T>(s: seq<T>, p: T -> bool): (r: Option<nat>)
    ensures r.Some? ==> IsFirstMatch(s, p, r.value)
    ensures r.None? <==> forall j :: 0 <= j < |s| ==> !p(s[j])
    decreases |s|
  {
    if s == [] then None
    else if p(s[0]) then Some(0)
    else match FindIndex(s[1..], p)
      case None => None
      case Some(i) => Some(i + 1)
  }

  /** `s.find(p)`: the first element satisfying `p`, or `None` for `undefined`. */
  function Find<T>(s: seq<T>, p: T -> bool): (r: Option<T>)
    decreases |s|
  {
    if s == [] then None
    else if p(s[0]) then Some(s[0])
    else Find(s[1..], p)
  }

  /**
   * `find` and `findIndex` with the same predicate agree: the element `find`
   * returns sits at the index `findIndex` returns, and both miss together.
   */
  lemma {:induction false} FindAtFindIndex<T>(s: seq<T>, p: T -> bool)
    ensures Find(s, p).None? <==> FindIndex(s, p).None?
    ensures FindIndex(s, p).Some? ==> Find(s, p) == Some(s[FindIndex(s, p).value])
    decreases |s|
  {
    if s != [] && !p(s[0]) {
      FindAtFindIndex(s[1..], p);
    }
  }
}
