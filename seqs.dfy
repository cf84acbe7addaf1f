/** `Array.prototype.map` on sequences, and sequences tabulated from a function. */
module Seqs {
  /** `xs.map(f)`. */
  function Map<A, B>(f: A -> B, xs: seq<A>): (ys: seq<B>)
    ensures |ys| == |xs|
  {
    seq(|xs|, k requires 0 <= k < |xs| => f(xs[k]))
  }

  /** Mapping a sequence with one more element at the end adds that element's image at the end. */
  lemma MapAppend<A, B>(f: A -> B, xs: seq<A>, x: A)
    ensures Map(f, xs + [x]) == Map(f, xs) + [f(x)]
  {
    var lhs, rhs := Map(f, xs + [x]), Map(f, xs) + [f(x)];
    forall k | 0 <= k < |lhs|
      ensures lhs[k] == rhs[k]
    {
      if k < |xs| {
        assert (xs + [x])[k] == xs[k];
      }
    }
  }

  /** `[f(t), f(t + 1), ..., f(t + n - 1)]`, built by appending at the end. */
  function Tabulate<T>(f: nat -> T, t: nat, n: nat): (r: seq<T>)
    ensures |r| == n
  {
    if n == 0 then [] else Tabulate(f, t, n - 1) + [f(t + n - 1)]
  }

  lemma {:induction false} TabulateAt<T>(f: nat -> T, t: nat, n: nat, i: nat)
    requires i < n
    ensures Tabulate(f, t, n)[i] == f(t + i)
  {
    if i < n - 1 {
      TabulateAt(f, t, n - 1, i);
    }
  }

  lemma TabulateFirst<T>(f: nat -> T, t: nat, n: nat)
    requires 0 < n
    ensures Tabulate(f, t, n)[0] == f(t)
  {
    TabulateAt(f, t, n, 0);
  }

  /** One more element of a tabulated sequence is the image of the next argument, `x`. */
  lemma TabulateNext<T>(f: nat -> T, t: nat, n: nat, x: nat)
    requires x == t + n
    ensures Tabulate(f, t, n + 1) == Tabulate(f, t, n) + [f(x)]
  {
  }
}
