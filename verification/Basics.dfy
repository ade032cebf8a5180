/** Small vocabulary shared by the models. */
module Basics {
  datatype Option<+T> = None | Some(value: T)

  /** What a completion reports to its callback. */
  datatype Err = Ok | Canceled | TimedOut | NotConnected | Failed(code: nat)

  predicate Increasing(s: seq<nat>) {
    forall i, j | 0 <= i < j < |s| :: s[i] < s[j]
  }

  predicate Distinct(s: seq<nat>) {
    forall i, j | 0 <= i < j < |s| :: s[i] != s[j]
  }

  /** All of `xs` comes up in `ys`, in the same order. */
  predicate Within<T(==)>(xs: seq<T>, ys: seq<T>) {
    xs == [] || (ys != [] && Within(if xs[0] == ys[0] then xs[1..] else xs, ys[1..]))
  }

  lemma {:induction false} WithinTail<T>(xs: seq<T>, ys: seq<T>)
    requires xs != [] && Within(xs, ys)
    ensures Within(xs[1..], ys)
  {
    if xs[0] == ys[0] {
      if |xs| > 1 && xs[1] == ys[0] {
        WithinTail(xs[1..], ys[1..]);
      }
    } else {
      WithinTail(xs, ys[1..]);
      if |xs| > 1 && xs[1] == ys[0] {
        WithinTail(xs[1..], ys[1..]);
      }
    }
  }

  lemma {:induction false} WithinLater<T>(xs: seq<T>, ys: seq<T>, zs: seq<T>)
    requires Within(xs, zs)
    ensures Within(xs, ys + zs)
  {
    if ys == [] {
      assert ys + zs == zs;
    } else if xs != [] {
      assert (ys + zs)[1..] == ys[1..] + zs;
      if xs[0] == ys[0] {
        WithinTail(xs, zs);
        WithinLater(xs[1..], ys[1..], zs);
      } else {
        WithinLater(xs, ys[1..], zs);
      }
    }
  }

  lemma {:induction false} WithinLonger<T>(xs: seq<T>, ys: seq<T>, zs: seq<T>)
    requires Within(xs, ys)
    ensures Within(xs, ys + zs)
    decreases |ys|
  {
    if xs != [] {
      assert (ys + zs)[1..] == ys[1..] + zs;
      WithinLonger(if xs[0] == ys[0] then xs[1..] else xs, ys[1..], zs);
    }
  }

  lemma {:induction false} WithinItself<T>(xs: seq<T>)
    ensures Within(xs, xs)
  {
    if xs != [] {
      WithinItself(xs[1..]);
    }
  }
}
