/** `random.shuffle` as the loop CPython runs, with the random draws as an input:
    `rnd(i) % (i + 1)` is the index `randbelow(i + 1)` drawn for position `i`. */
module Shuffling {

  /** `x[i], x[j] = x[j], x[i]`. */
  function Swap<T>(xs: seq<T>, i: nat, j: nat): (r: seq<T>)
    requires i < |xs| && j < |xs|
    ensures |r| == |xs|
  {
    xs[i := xs[j]][j := xs[i]]
  }

  lemma SwapPermutes<T>(xs: seq<T>, i: nat, j: nat)
    requires i < |xs| && j < |xs|
    ensures multiset(Swap(xs, i, j)) == multiset(xs)
  {
  }

  /** The index `randbelow(i + 1)` the shuffle draws for position `i`. */
  function Pick(rnd: nat -> nat, i: nat): (j: nat)
    ensures j <= i
  {
    rnd(i) % (i + 1)
  }

  /** The iterations of the shuffle loop for the positions `i`, `i - 1`, ..., `1`. */
  function Swaps<T>(xs: seq<T>, rnd: nat -> nat, i: nat): (r: seq<T>)
    requires i < |xs|
    ensures |r| == |xs|
    decreases i
  {
    if i == 0 then xs else Swaps(Swap(xs, i, Pick(rnd, i)), rnd, i - 1)
  }

  /** `random.shuffle(xs)` with the draws `rnd`: a permutation of `xs`. */
  function Shuffle<T>(xs: seq<T>, rnd: nat -> nat): (r: seq<T>)
    ensures |r| == |xs|
  {
    if |xs| == 0 then xs else Swaps(xs, rnd, |xs| - 1)
  }

  lemma {:induction false} SwapsPermute<T>(xs: seq<T>, rnd: nat -> nat, i: nat)
    requires i < |xs|
    ensures multiset(Swaps(xs, rnd, i)) == multiset(xs)
    decreases i
  {
    if i > 0 {
      SwapPermutes(xs, i, Pick(rnd, i));
      SwapsPermute(Swap(xs, i, Pick(rnd, i)), rnd, i - 1);
    }
  }

  /** The shuffle only reorders: the result is a permutation of its input. */
  lemma ShufflePermutes<T>(xs: seq<T>, rnd: nat -> nat)
    ensures multiset(Shuffle(xs, rnd)) == multiset(xs)
  {
    if xs != [] {
      SwapsPermute(xs, rnd, |xs| - 1);
    }
  }

  /** One iteration of the shuffle loop: swap position `i` with its drawn index. */
  lemma SwapsStep<T>(xs: seq<T>, ys: seq<T>, rnd: nat -> nat, i: nat)
    requires 0 < i < |xs| && ys == Swap(xs, i, Pick(rnd, i))
    ensures Swaps(xs, rnd, i) == Swaps(ys, rnd, i - 1)
  {
  }

  /** A new array holding `xs`. */
  method ArrayOf<T>(xs: seq<T>) returns (a: array<T>)
    ensures fresh(a) && a[..] == xs
  {
    a := new T[|xs|](i requires 0 <= i < |xs| => xs[i]);
  }

  /** `a[i], a[j] = a[j], a[i]`. */
  method SwapAt<T>(a: array<T>, i: nat, j: nat)
    requires i < a.Length && j < a.Length
    modifies a
    ensures a[..] == Swap(old(a[..]), i, j)
  {
    a[i], a[j] := a[j], a[i];
  }

  /** `random.shuffle(a)`: `for i in reversed(range(1, len(a)))`, swap `a[i]` with the entry at
      the drawn index `j <= i`. */
  method ShuffleInPlace<T>(a: array<T>, rnd: nat -> nat)
    modifies a
    ensures a[..] == Shuffle(old(a[..]), rnd)
  {
    if a.Length == 0 {
      return;
    }
    ghost var s0 := a[..];
    var i := a.Length - 1;
    assert Swaps(a[..], rnd, i) == Shuffle(s0, rnd) by {
      assert a[..] == s0;
    }
    while i > 0
      invariant 0 <= i < a.Length
      invariant Swaps(a[..], rnd, i) == Shuffle(s0, rnd)
    {
      ghost var before := a[..];
      SwapAt(a, i, Pick(rnd, i));
      SwapsStep(before, a[..], rnd, i);
      i := i - 1;
    }
  }
}
