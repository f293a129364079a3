/**
 * `shuffle` and `sample` of src/hooks/useActivities.ts (duplicated verbatim in
 * scripts/generate-daily.ts).
 *
 * `Shuffled` and `Sampled` are the specification: the result of the source's loop as a
 * function of the input and of the generator state before the call. The methods
 * `Shuffle` and `Sample` are the source's procedures, proved to compute them.
 */
module Sampling {
  import opened Prng

  function Min(a: int, b: int): int {
    if a <= b then a else b
  }

  /** `[s[i], s[j]] = [s[j], s[i]]` */
  function Swap<T>(s: seq<T>, i: nat, j: nat): seq<T>
    requires i < |s| && j < |s|
  {
    s[i := s[j]][j := s[i]]
  }

  lemma AppendAssoc<T>(a: seq<T>, b: seq<T>, c: seq<T>)
    ensures a + (b + c) == a + b + c
  {
  }

  lemma SwapPermutes<T>(s: seq<T>, i: nat, j: nat)
    requires i < |s| && j < |s|
    ensures |Swap(s, i, j)| == |s|
    ensures multiset(Swap(s, i, j)) == multiset(s)
  {
  }

  /**
   * The array after the first `|us|` iterations of the Fisher-Yates loop, where `us` are
   * the numbers the generator returned to them, in order: the k-th iteration (counting
   * from 1) works at index `|s| - k` and swaps it with `SwapIndex(us[k - 1], |s| - k)`.
   */
  function ShuffleSteps<T>(s: seq<T>, us: seq<bv32>): (r: seq<T>)
    requires us == [] || |us| < |s|
    ensures |r| == |s|
  {
    if us == [] then s
    else
      var i := |s| - |us|;
      var prev := ShuffleSteps(s, us[..|us| - 1]);
      Swap(prev, i, SwapIndex(us[|us| - 1], i))
  }

  /** The array `shuffle(s, random)` returns when the generator is in state `st`. */
  function Shuffled<T>(s: seq<T>, st: bv32): seq<T> {
    ShuffleSteps(s, Outputs(st, ShuffleCalls(|s|)))
  }

  /** The number of generator calls a shuffle of `n` items makes: one per index from n-1 down to 1. */
  function ShuffleCalls(n: nat): nat {
    if n == 0 then 0 else n - 1
  }

  /** The prefix of a shuffle that `sample(s, n, random)` returns. */
  function Sampled<T>(s: seq<T>, n: nat, st: bv32): seq<T> {
    var r := Shuffled(s, st);
    ShuffledPermutes(s, st);
    r[..Min(n, |s|)]
  }

  /** One more iteration: the next number decides the swap at the next index down. */
  lemma ShuffleStepsSnoc<T>(s: seq<T>, us: seq<bv32>, u: bv32)
    requires |us| + 1 < |s|
    ensures ShuffleSteps(s, us + [u])
         == Swap(ShuffleSteps(s, us), |s| - 1 - |us|, SwapIndex(u, |s| - 1 - |us|))
  {
    var us' := us + [u];
    var i := |s| - |us'|;
    assert us'[..|us'| - 1] == us && us'[|us'| - 1] == u;
    calc {
      ShuffleSteps(s, us');
      Swap(ShuffleSteps(s, us'[..|us'| - 1]), i, SwapIndex(us'[|us'| - 1], i));
      Swap(ShuffleSteps(s, us), i, SwapIndex(u, i));
    }
  }

  lemma {:induction false} ShuffleStepsPermutes<T>(s: seq<T>, us: seq<bv32>)
    requires us == [] || |us| < |s|
    ensures multiset(ShuffleSteps(s, us)) == multiset(s)
  {
    if us != [] {
      var i := |s| - |us|;
      var prev := ShuffleSteps(s, us[..|us| - 1]);
      ShuffleStepsPermutes(s, us[..|us| - 1]);
      SwapPermutes(prev, i, SwapIndex(us[|us| - 1], i));
    }
  }

  /** A shuffle is a permutation of its input: same length, same multiset. */
  lemma ShuffledPermutes<T>(s: seq<T>, st: bv32)
    ensures |Shuffled(s, st)| == |s|
    ensures multiset(Shuffled(s, st)) == multiset(s)
  {
    ShuffleStepsPermutes(s, Outputs(st, ShuffleCalls(|s|)));
  }

  /** A sample holds exactly min(n, |s|) items, taken from distinct positions of `s`. */
  lemma SampledBounds<T>(s: seq<T>, n: nat, st: bv32)
    ensures |Sampled(s, n, st)| == Min(n, |s|)
    ensures multiset(Sampled(s, n, st)) <= multiset(s)
  {
    var r := Shuffled(s, st);
    ShuffledPermutes(s, st);
    var k := Min(n, |s|);
    assert r == r[..k] + r[k..];
    assert multiset(r) == multiset(r[..k]) + multiset(r[k..]);
  }

  /** A sample of the whole pool (or more) is a permutation of it. */
  lemma SampledAll<T>(s: seq<T>, n: nat, st: bv32)
    requires n >= |s|
    ensures multiset(Sampled(s, n, st)) == multiset(s)
  {
    ShuffledPermutes(s, st);
    assert Shuffled(s, st)[..|s|] == Shuffled(s, st);
  }

  /** One iteration of the loop: `j = Math.floor(random() * (i + 1))`, then swap `a[i]` and `a[j]`. */
  method SwapStep<T>(a: array<T>, i: nat, g: Generator) returns (u: bv32)
    requires 0 < i < a.Length && g.Valid()
    modifies a, g
    ensures g.Valid() && g.draws == old(g.draws) + 1 && g.outputs == old(g.outputs) + [u]
    ensures a[..] == Swap(old(a[..]), i, SwapIndex(u, i))
  {
    u := g.Next();
    var j := SwapIndex(u, i);
    a[i], a[j] := a[j], a[i];
  }

  /**
   * The loop of `shuffle(array, random)`: swaps in place from the last index down to 1,
   * asking the generator for one number per swap.
   */
  method ShuffleInPlace<T>(a: array<T>, g: Generator)
    requires g.Valid()
    modifies a, g
    ensures g.Valid()
    ensures g.draws == old(g.draws) + ShuffleCalls(a.Length)
    ensures a[..] == ShuffleSteps(old(a[..]), g.outputs[old(g.draws)..])
  {
    ghost var a0, o0 := a[..], g.outputs;
    ghost var done: seq<bv32> := [];
    var i := a.Length - 1;
    while i > 0
      invariant -1 <= i < a.Length
      invariant a.Length > 0 ==> i >= 0
      invariant g.Valid() && g.outputs == o0 + done
      invariant |done| == a.Length - 1 - i
      invariant a[..] == ShuffleSteps(a0, done)
    {
      var u := SwapStep(a, i, g);
      ShuffleStepsSnoc(a0, done, u);
      AppendAssoc(o0, done, [u]);
      done := done + [u];
      i := i - 1;
    }
    assert g.outputs[|o0|..] == done;
  }

  /** `shuffle(array, random)`: shuffles a copy of the input. */
  method Shuffle<T>(input: seq<T>, g: Generator) returns (result: seq<T>)
    requires g.Valid()
    modifies g
    ensures g.Valid()
    ensures result == Shuffled(input, old(g.state))
    ensures g.state == Advance(old(g.state), ShuffleCalls(|input|))
    ensures g.draws == old(g.draws) + ShuffleCalls(|input|)
  {
    var a := new T[|input|](k requires 0 <= k < |input| => input[k]);
    assert a[..] == input;
    ghost var d0, st0 := g.draws, g.state;
    ShuffleInPlace(a, g);
    result := a[..];
    CallsSince(g, d0, st0, ShuffleCalls(|input|));
  }

  /** `sample(array, n, random)`: the first min(n, length) items of a shuffled copy. */
  method Sample<T>(input: seq<T>, n: nat, g: Generator) returns (result: seq<T>)
    requires g.Valid()
    modifies g
    ensures g.Valid()
    ensures result == Sampled(input, n, old(g.state))
    ensures g.state == Advance(old(g.state), ShuffleCalls(|input|))
    ensures g.draws == old(g.draws) + ShuffleCalls(|input|)
  {
    var shuffled := Shuffle(input, g);
    ShuffledPermutes(input, old(g.state));
    result := shuffled[..Min(n, |input|)];
  }
}
