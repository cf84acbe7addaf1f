/**
 * The seeded generator behind the daily trip report (mulberry32): a 32-bit word
 * advanced with xor, logical right shift and wrapping 32-bit multiplication
 * (`Math.imul`), each draw being the mixed word k read as k / 2^32.
 */
module Prng {
  import opened Wrappers

  /** The constant added to the seed before the first draw. */
  const Increment: int := 0x6D2B79F5

  const TwoTo32: int := 0x1_0000_0000

  /**
   * The word the generator starts from: `seed + 0x6D2B79F5` as the bitwise
   * operators read it (modulo 2^32); a NaN seed reads as 0.
   */
  function InitialState(seed: Option<int>): (t: bv32)
    ensures seed.None? ==> t == 0
  {
    match seed
    case None => 0
    case Some(n) => ((n + Increment) % TwoTo32) as bv32
  }

  /** One state update: the two `Math.imul` rounds of a call. */
  function Scramble(t: bv32): bv32 {
    var a := (t ^ (t >> 15)) * (t | 1);
    a ^ (a + (a ^ (a >> 7)) * (a | 61))
  }

  /** The word a call hands out (before division), computed from the updated state. */
  function Output(t: bv32): bv32 {
    t ^ (t >> 14)
  }

  /** `k / 4294967296` for the unsigned 32-bit word k. */
  function Unit(k: bv32): (r: real)
    ensures 0.0 <= r < 1.0
  {
    (k as int) as real / 4294967296.0
  }

  /** The `k`-th value (counting from 0) that a generator in state `t` hands out. */
  function DrawAt(t: bv32, k: nat): (r: real)
    ensures 0.0 <= r < 1.0
    decreases k
  {
    var next := Scramble(t);
    if k == 0 then Unit(Output(next)) else DrawAt(next, k - 1)
  }

  /** The first `n` values that a generator in state `t` hands out, in order. */
  function Draws(t: bv32, n: nat): (rs: seq<real>)
    ensures |rs| == n
    ensures forall i :: 0 <= i < n ==> 0.0 <= rs[i] < 1.0
  {
    seq(n, i requires 0 <= i < n => DrawAt(t, i))
  }

  /**
   * The generator returned by `seededRandom(seed)`: its closure variable `t` is
   * the field `state`. The ghost field `pending` lists values it will hand out
   * next, as far ahead as a caller chose to look.
   */
  class SeededRandom {
    var state: bv32
    ghost var pending: seq<real>

    ghost predicate Valid()
      reads this
    {
      forall k {:trigger DrawAt(state, k)} :: 0 <= k < |pending| ==> pending[k] == DrawAt(state, k)
    }

    /** `seededRandom(seed)`, looking `horizon` values ahead. */
    constructor (seed: Option<int>, ghost horizon: nat)
      ensures Valid()
      ensures state == InitialState(seed)
      ensures pending == Draws(InitialState(seed), horizon)
    {
      state := InitialState(seed);
      pending := Draws(InitialState(seed), horizon);
    }

    /** One call of the generator: the first pending value, after which the rest are pending. */
    method Next() returns (r: real)
      requires Valid()
      modifies this
      ensures Valid()
      ensures state == Scramble(old(state))
      ensures r == Unit(Output(state)) && 0.0 <= r < 1.0
      ensures |old(pending)| > 0 ==> r == old(pending)[0]
      ensures pending == if |old(pending)| > 0 then old(pending)[1..] else []
    {
      ghost var before := state;
      state := Scramble(state);
      r := Unit(Output(state));
      assert DrawAt(before, 0) == r;
      pending := if |pending| > 0 then pending[1..] else [];
      forall k | 0 <= k < |pending|
        ensures pending[k] == DrawAt(state, k)
      {
        assert DrawAt(before, k + 1) == DrawAt(state, k);
      }
    }
  }

  /** The call at position `p` of the values `rs` a generator was found to hand out from some point on. */
  method NextOf(g: SeededRandom, ghost rs: seq<real>, ghost p: nat) returns (r: real)
    requires g.Valid() && p < |rs| && g.pending == rs[p..]
    modifies g
    ensures g.Valid() && g.pending == rs[p + 1..]
    ensures r == rs[p]
  {
    r := g.Next();
  }

  /** Two generators built from the same seed hand out the same values. */
  method SameSeedSameValues(seed: Option<int>, n: nat) returns (xs: seq<real>, ys: seq<real>)
    ensures xs == ys == Draws(InitialState(seed), n)
  {
    var g := new SeededRandom(seed, n);
    var h := new SeededRandom(seed, n);
    ghost var all := g.pending;
    xs, ys := [], [];
    var i := 0;
    while i < n
      invariant 0 <= i <= n
      invariant g.Valid() && h.Valid()
      invariant g.pending == h.pending == all[i..]
      invariant xs == ys == all[..i]
    {
      var x := g.Next();
      var y := h.Next();
      xs, ys := xs + [x], ys + [y];
      i := i + 1;
    }
  }
}
