/** Sequences built by concatenating a contribution per element, as a loop
    that pushes zero or more values per visited element builds them. */
module Seqs {
  /** `f(xs[0]) + f(xs[1]) + ...`, in order */
  function Collect<T, U>(f: T -> seq<U>, xs: seq<T>): seq<U>
    decreases |xs|
  {
    if |xs| == 0 then [] else f(xs[0]) + Collect(f, xs[1..])
  }

  /** Collecting over two consecutive runs gives each run's values, in order */
  lemma {:induction false} CollectAppend<T, U>(f: T -> seq<U>, a: seq<T>, b: seq<T>)
    ensures Collect(f, a + b) == Collect(f, a) + Collect(f, b)
    decreases |a|
  {
    if |a| == 0 {
      assert a + b == b;
    } else {
      assert (a + b)[0] == a[0];
      assert (a + b)[1..] == a[1..] + b;
      CollectAppend(f, a[1..], b);
    }
  }

  /** Contributions of at most `k` values each give at most `k` values per element */
  lemma {:induction false} CollectBound<T, U>(f: T -> seq<U>, xs: seq<T>, k: nat)
    requires forall x :: |f(x)| <= k
    ensures |Collect(f, xs)| <= k * |xs|
    decreases |xs|
  {
    if |xs| > 0 {
      CollectBound(f, xs[1..], k);
      assert k * |xs| == k + k * (|xs| - 1);
    }
  }

  /** A left-to-right loop that appends each element's contribution to `acc` */
  function Fold<T, U>(f: T -> seq<U>, acc: seq<U>, xs: seq<T>): seq<U>
    decreases |xs|
  {
    if |xs| == 0 then acc else Fold(f, acc + f(xs[0]), xs[1..])
  }

  /** The loop only appends: it leaves `acc` followed by every element's
      contribution, in order */
  lemma {:induction false} FoldIsCollect<T, U>(f: T -> seq<U>, acc: seq<U>, xs: seq<T>)
    ensures Fold(f, acc, xs) == acc + Collect(f, xs)
    decreases |xs|
  {
    if |xs| > 0 {
      FoldIsCollect(f, acc + f(xs[0]), xs[1..]);
      assert acc + f(xs[0]) + Collect(f, xs[1..]) == acc + (f(xs[0]) + Collect(f, xs[1..]));
    }
  }

  lemma CollectOne<T, U>(f: T -> seq<U>, x: T)
    ensures Collect(f, [x]) == f(x)
  {
    assert [x][1..] == [];
  }

  /** Elements that each contribute exactly one value contribute those values, in order */
  lemma {:induction false} CollectSingletons<T, U>(f: T -> seq<U>, xs: seq<T>, us: seq<U>)
    requires |xs| == |us|
    requires forall i :: 0 <= i < |xs| ==> f(xs[i]) == [us[i]]
    ensures Collect(f, xs) == us
    decreases |xs|
  {
    if |xs| > 0 {
      CollectSingletons(f, xs[1..], us[1..]);
    }
  }
}
