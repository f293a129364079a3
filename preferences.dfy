/**
 * The preference table of src/hooks/usePreferences.ts: per-source and per-type weight
 * adjustments in [-3, 3], saved to local storage after each change, and the sampling
 * multiplier 2^(source weight + type weight).
 */
module Preferences {
  import opened Wrappers

  const MAX_WEIGHT: int := 3
  const MIN_WEIGHT: int := -3

  datatype Prefs = Prefs(sourceWeights: map<string, int>, typeWeights: map<string, int>)

  const DEFAULT_PREFERENCES: Prefs := Prefs(map[], map[])

  /** `table[key] || 0`: a missing key (or a stored 0) reads as 0. */
  function Lookup(table: map<string, int>, key: string): int {
    if key in table then table[key] else 0
  }

  /** `Math.max(-3, Math.min(3, w))` */
  function Clamp(w: int): (r: int)
    ensures MIN_WEIGHT <= r <= MAX_WEIGHT
    ensures MIN_WEIGHT <= w <= MAX_WEIGHT ==> r == w
    ensures w > MAX_WEIGHT ==> r == MAX_WEIGHT
    ensures w < MIN_WEIGHT ==> r == MIN_WEIGHT
  {
    if w > MAX_WEIGHT then MAX_WEIGHT else if w < MIN_WEIGHT then MIN_WEIGHT else w
  }

  /**
   * The weight table after adjusting `key` by `delta`: the clamped sum is stored, except
   * that a zero weight is removed; no other key changes.
   */
  function Adjusted(table: map<string, int>, key: string, delta: int): (r: map<string, int>)
    ensures Lookup(r, key) == Clamp(Lookup(table, key) + delta)
    ensures key in r <==> Lookup(r, key) != 0
    ensures forall k :: k != key ==> (k in r <==> k in table) && (k in r ==> r[k] == table[k])
  {
    var w := Clamp(Lookup(table, key) + delta);
    if w == 0 then table - {key} else table[key := w]
  }

  /** Every stored weight is a non-zero value within [-3, 3]. */
  predicate Normalized(table: map<string, int>) {
    forall k :: k in table ==> table[k] != 0 && MIN_WEIGHT <= table[k] <= MAX_WEIGHT
  }

  /** Adjustments keep a normalized table normalized; the empty table is normalized. */
  lemma AdjustedNormalized(table: map<string, int>, key: string, delta: int)
    requires Normalized(table)
    ensures Normalized(Adjusted(table, key, delta))
  {
  }

  /** `n` likes (adjustments by +1) in a row. */
  function Likes(table: map<string, int>, key: string, n: nat): map<string, int> {
    if n == 0 then table else Adjusted(Likes(table, key, n - 1), key, 1)
  }

  lemma {:induction false} LikesFromEmpty(key: string, n: nat)
    ensures Lookup(Likes(map[], key, n), key) == if n <= MAX_WEIGHT then n else MAX_WEIGHT
  {
    if n > 0 {
      LikesFromEmpty(key, n - 1);
    }
  }

  /** Ten likes from an empty table leave the source at the cap, 3. */
  lemma TenLikes(key: string)
    ensures key in Likes(map[], key, 10) && Likes(map[], key, 10)[key] == 3
  {
    LikesFromEmpty(key, 10);
    assert Likes(map[], key, 10) == Adjusted(Likes(map[], key, 9), key, 1);
  }

  /** Below the cap, a dislike undoes a like exactly (the table, not only the weight). */
  lemma LikeThenDislike(table: map<string, int>, key: string)
    requires Normalized(table) && Lookup(table, key) < MAX_WEIGHT
    ensures Adjusted(Adjusted(table, key, 1), key, -1) == table
  {
    var r := Adjusted(Adjusted(table, key, 1), key, -1);
    assert Lookup(r, key) == Lookup(table, key);
    assert forall k :: k in r <==> k in table;
  }

  /** 2^e for any integer exponent. */
  function Pow2(e: int): (r: real)
    ensures r > 0.0
    decreases if e < 0 then -e else e
  {
    if e == 0 then 1.0
    else if e > 0 then 2.0 * Pow2(e - 1)
    else Pow2(e + 1) / 2.0
  }

  lemma {:induction false} Pow2Succ(e: int)
    ensures Pow2(e + 1) == 2.0 * Pow2(e)
    decreases if e < 0 then -e else e
  {
    if e < -1 {
      Pow2Succ(e + 1);
    }
  }

  /** `getWeight(source, type)`: 2 to the sum of the two stored weights. */
  function GetWeight(p: Prefs, source: string, kind: string): real {
    Pow2(Lookup(p.sourceWeights, source) + Lookup(p.typeWeights, kind))
  }

  /** The multiplier is always positive, 1 for unknown preferences, and doubles with every like of the source or of the type below the cap. */
  lemma GetWeightFacts(p: Prefs, source: string, kind: string)
    ensures GetWeight(p, source, kind) > 0.0
    ensures source !in p.sourceWeights && kind !in p.typeWeights ==> GetWeight(p, source, kind) == 1.0
    ensures MIN_WEIGHT <= Lookup(p.sourceWeights, source) < MAX_WEIGHT ==>
      GetWeight(p.(sourceWeights := Adjusted(p.sourceWeights, source, 1)), source, kind)
        == 2.0 * GetWeight(p, source, kind)
    ensures MIN_WEIGHT <= Lookup(p.typeWeights, kind) < MAX_WEIGHT ==>
      GetWeight(p.(typeWeights := Adjusted(p.typeWeights, kind, 1)), source, kind)
        == 2.0 * GetWeight(p, source, kind)
  {
    Pow2Succ(Lookup(p.sourceWeights, source) + Lookup(p.typeWeights, kind));
    if MIN_WEIGHT <= Lookup(p.sourceWeights, source) < MAX_WEIGHT {
      var q := p.(sourceWeights := Adjusted(p.sourceWeights, source, 1));
      assert Lookup(q.sourceWeights, source) == Lookup(p.sourceWeights, source) + 1;
    }
    if MIN_WEIGHT <= Lookup(p.typeWeights, kind) < MAX_WEIGHT {
      var q := p.(typeWeights := Adjusted(p.typeWeights, kind, 1));
      assert Lookup(q.typeWeights, kind) == Lookup(p.typeWeights, kind) + 1;
    }
  }

  /** The hook's state together with what it last saved to local storage. */
  class PreferenceStore {
    var preferences: Prefs
    var saved: Option<Prefs>

    /** The first render: the defaults, then whatever was saved, if it parsed. */
    constructor (stored: Option<Prefs>)
      ensures preferences == stored.GetOr(DEFAULT_PREFERENCES) && saved == stored
    {
      saved := stored;
      match stored
      case None => preferences := DEFAULT_PREFERENCES;
      case Some(p) => preferences := p;
    }

    /** `adjustSourceWeight(source, delta)`: the type weights are untouched; the result is saved. */
    method AdjustSourceWeight(source: string, delta: int)
      modifies this
      ensures preferences.sourceWeights == Adjusted(old(preferences.sourceWeights), source, delta)
      ensures preferences.typeWeights == old(preferences.typeWeights)
      ensures saved == Some(preferences)
    {
      var current := Lookup(preferences.sourceWeights, source);
      var newWeight := Clamp(current + delta);
      var sourceWeights := preferences.sourceWeights[source := newWeight];
      if newWeight == 0 {
        sourceWeights := sourceWeights - {source};
      }
      preferences := preferences.(sourceWeights := sourceWeights);
      saved := Some(preferences);
    }

    /** `adjustTypeWeight(type, delta)`: the source weights are untouched; the result is saved. */
    method AdjustTypeWeight(kind: string, delta: int)
      modifies this
      ensures preferences.typeWeights == Adjusted(old(preferences.typeWeights), kind, delta)
      ensures preferences.sourceWeights == old(preferences.sourceWeights)
      ensures saved == Some(preferences)
    {
      var current := Lookup(preferences.typeWeights, kind);
      var newWeight := Clamp(current + delta);
      var typeWeights := preferences.typeWeights[kind := newWeight];
      if newWeight == 0 {
        typeWeights := typeWeights - {kind};
      }
      preferences := preferences.(typeWeights := typeWeights);
      saved := Some(preferences);
    }

    method LikeSource(source: string)
      modifies this
      ensures preferences.sourceWeights == Adjusted(old(preferences.sourceWeights), source, 1)
      ensures preferences.typeWeights == old(preferences.typeWeights) && saved == Some(preferences)
    {
      AdjustSourceWeight(source, 1);
    }

    method DislikeSource(source: string)
      modifies this
      ensures preferences.sourceWeights == Adjusted(old(preferences.sourceWeights), source, -1)
      ensures preferences.typeWeights == old(preferences.typeWeights) && saved == Some(preferences)
    {
      AdjustSourceWeight(source, -1);
    }

    method LikeType(kind: string)
      modifies this
      ensures preferences.typeWeights == Adjusted(old(preferences.typeWeights), kind, 1)
      ensures preferences.sourceWeights == old(preferences.sourceWeights) && saved == Some(preferences)
    {
      AdjustTypeWeight(kind, 1);
    }

    method DislikeType(kind: string)
      modifies this
      ensures preferences.typeWeights == Adjusted(old(preferences.typeWeights), kind, -1)
      ensures preferences.sourceWeights == old(preferences.sourceWeights) && saved == Some(preferences)
    {
      AdjustTypeWeight(kind, -1);
    }

    /** `clearPreferences()`: both tables emptied and the saved copy removed. */
    method ClearPreferences()
      modifies this
      ensures preferences == DEFAULT_PREFERENCES && saved == None
    {
      preferences := DEFAULT_PREFERENCES;
      saved := None;
    }

    function Weight(source: string, kind: string): (w: real)
      reads this
      ensures w > 0.0
    {
      GetWeight(preferences, source, kind)
    }
  }
}
