/** Small facts about sequences shared by the scanners, the strategies and the retry loops. */
module Seqs {

  /** The index of the first element at or after `from` that satisfies `p`,
      or `|xs|` when there is none: the shape of bs4's `find`, of a
      `for ... return` loop, and of "the first attempt that succeeds". */
  function FirstFrom<T>(xs: seq<T>, p: T -> bool, from: nat): (r: nat)
    requires from <= |xs|
    ensures from <= r <= |xs|
    ensures r < |xs| ==> p(xs[r])
    ensures forall j :: from <= j < r ==> !p(xs[j])
    decreases |xs| - from
  {
    if from == |xs| then |xs|
    else if p(xs[from]) then from
    else FirstFrom(xs, p, from + 1)
  }

  /** Concatenation regroups: used to move one attempt's effects from what is
      still to come to what has been done. */
  lemma Regroup<T>(a: seq<T>, b: seq<T>, c: seq<T>)
    ensures a + b + c == a + (b + c)
  {
  }
}
