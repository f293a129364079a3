/**
 * The seeded generator `seededRandom` (mulberry32) of src/hooks/useActivities.ts,
 * duplicated in scripts/generate-daily.ts.
 *
 * JavaScript keeps the seed as a double and reduces it to 32 bits at every integer
 * operation (`Math.imul`, `^`, `|`, `>>>`), so the generator's state is the seed modulo
 * 2^32 and the arithmetic is that of `bv32`. A call returns a 32-bit numerator `u`; the
 * source divides it by 2^32 to get a number in [0, 1).
 */
module Prng {

  const INCREMENT: bv32 := 0x6D2B79F5
  const TWO_32: int := 0x1_0000_0000

  /** The state a JavaScript number seed denotes: its value modulo 2^32. */
  function SeedState(seed: int): bv32 {
    (seed % TWO_32) as bv32
  }

  /**
   * The output mixing of one call after its first `k` steps: `t = Math.imul(t ^ t >>> 15, t | 1)`,
   * `t ^= t + Math.imul(t ^ t >>> 7, t | 61)` and `t ^ t >>> 14`.
   */
  function MixSteps(t: bv32, k: nat): bv32
    requires k <= 3
  {
    if k == 0 then t
    else
      var p := MixSteps(t, k - 1);
      if k == 1 then (p ^ (p >> 15)) * (p | 1)
      else if k == 2 then p ^ (p + (p ^ (p >> 7)) * (p | 61))
      else p ^ (p >> 14)
  }

  /** The number one call returns, computed from the already advanced state. */
  function Mix(t: bv32): bv32 {
    MixSteps(t, 3)
  }

  /** The state after `n` calls. */
  function Advance(s: bv32, n: nat): bv32 {
    if n == 0 then s else Advance(s, n - 1) + INCREMENT
  }

  /** Calls can be split: `a + b` calls from `s` end where `b` calls from the state after `a` end. */
  lemma {:induction false} AdvanceAdd(s: bv32, a: nat, b: nat)
    ensures Advance(s, a + b) == Advance(Advance(s, a), b)
  {
    if b > 0 {
      AdvanceAdd(s, a, b - 1);
    }
  }

  /** The numerators returned by the first `n` calls of a generator in state `s`. */
  function Outputs(s: bv32, n: nat): (r: seq<bv32>)
    ensures |r| == n
  {
    if n == 0 then [] else Outputs(s, n - 1) + [Mix(Advance(s, n))]
  }

  /** The number the source returns, `u / 2^32`, always lies in [0, 1). */
  function Fraction(u: bv32): (r: real)
    ensures 0.0 <= r < 1.0
  {
    u as real / TWO_32 as real
  }

  /**
   * `Math.floor(random() * (i + 1))` with `random() == u / 2^32`: the swap partner
   * chosen at index `i` of the shuffle; it never exceeds `i`.
   */
  function SwapIndex(u: bv32, i: nat): (j: nat)
    ensures j <= i
  {
    var x: nat := u as int;
    ScaledBelow(x, i);
    (x * (i + 1)) / TWO_32
  }

  lemma ScaledBelow(x: nat, i: nat)
    requires x < TWO_32
    ensures (x * (i + 1)) / TWO_32 <= i
  {
    assert x * (i + 1) < TWO_32 * (i + 1);
  }

  /** The closure returned by `seededRandom(seed)`, with its captured `seed`. */
  class Generator {
    var state: bv32
    ghost const seed: bv32
    ghost var draws: nat
    ghost var outputs: seq<bv32>

    ghost predicate Valid()
      reads this
    {
      state == Advance(seed, draws) && outputs == Outputs(seed, draws)
    }

    constructor (initialSeed: int)
      ensures Valid()
      ensures seed == SeedState(initialSeed) && state == seed
      ensures draws == 0 && outputs == []
    {
      state := SeedState(initialSeed);
      seed := SeedState(initialSeed);
      draws := 0;
      outputs := [];
    }

    /**
     * One call: the state advances by 0x6D2B79F5 modulo 2^32 and the call's number is
     * appended to `outputs` (by `Valid`, it is `Mix` of the new state; see `NextIsMix`).
     */
    method Next() returns (u: bv32)
      requires Valid()
      modifies this
      ensures Valid()
      ensures state == old(state) + INCREMENT
      ensures draws == old(draws) + 1 && outputs == old(outputs) + [u]
    {
      var next := state + INCREMENT;
      u := Mix(next);
      state, draws, outputs := next, draws + 1, outputs + [u];
    }
  }

  /** The number a call returns is the mix of the state that call advanced to. */
  lemma NextIsMix(g: Generator)
    requires g.Valid() && g.draws > 0
    ensures g.outputs[g.draws - 1] == Mix(g.state)
  {
  }

  /** A run of `a + b` calls is a run of `a` calls followed by a run of `b` calls from where it stopped. */
  lemma {:induction false} OutputsSplit(s: bv32, a: nat, b: nat)
    ensures Outputs(s, a + b) == Outputs(s, a) + Outputs(Advance(s, a), b)
    decreases b
  {
    if b > 0 {
      OutputsSplit(s, a, b - 1);
      AdvanceAdd(s, a, b);
      var last := Mix(Advance(s, a + b));
      assert Outputs(s, a + b) == Outputs(s, a + b - 1) + [last];
      assert Outputs(Advance(s, a), b) == Outputs(Advance(s, a), b - 1) + [last];
    }
  }

  /**
   * After `calls` more calls from the state `st0` reached at `d0` draws, the numbers
   * returned since are the first `calls` numbers of a generator started in `st0`.
   */
  lemma CallsSince(g: Generator, d0: nat, st0: bv32, calls: nat)
    requires g.Valid() && st0 == Advance(g.seed, d0) && g.draws == d0 + calls
    ensures g.outputs[d0..] == Outputs(st0, calls)
    ensures g.state == Advance(st0, calls)
  {
    OutputsSplit(g.seed, d0, calls);
    AdvanceAdd(g.seed, d0, calls);
  }

  /** Two generators built from the same seed return the same numbers, call for call. */
  lemma SameSeedSameOutputs(g1: Generator, g2: Generator)
    requires g1.Valid() && g2.Valid()
    requires g1.seed == g2.seed && g1.draws == g2.draws
    ensures g1.outputs == g2.outputs && g1.state == g2.state
  {
  }
}
