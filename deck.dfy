/**
 * The deck built by `loadActivities` in src/hooks/useActivities.ts: the activities are
 * grouped by type, a quota of articles, Tidal videos and videos is sampled, every game,
 * app link and Tidal track is added, and the whole is shuffled once more, all with one
 * seeded generator.
 */
module Deck {
  import opened Activities
  import opened Prng
  import opened Sampling

  const TARGET_TOTAL: nat := 40
  const ARTICLE_SHARE: real := 0.45
  const TIDAL_VIDEO_SHARE: real := 0.40
  const VIDEO_SHARE: real := 0.15

  /** The kinds that are never sampled, in the order they are appended. */
  const ALWAYS_INCLUDE: seq<ActivityType> := [Game, AppLink, Tidal]

  predicate AlwaysIncluded(k: ActivityType) {
    k == Game || k == AppLink || k == Tidal
  }

  /** `Math.round(TARGET_TOTAL * share)`: the nearest integer, halves rounded up. */
  function Quota(share: real): (n: nat)
    requires 0.0 <= share
    ensures n as real <= TARGET_TOTAL as real * share + 0.5 < n as real + 1.0
  {
    (TARGET_TOTAL as real * share + 0.5).Floor
  }

  lemma QuotaValues()
    ensures Quota(ARTICLE_SHARE) == 18
    ensures Quota(TIDAL_VIDEO_SHARE) == 16
    ensures Quota(VIDEO_SHARE) == 6
  {
  }

  /** The generator state after the sample of kind `k` has been drawn from state `st`. */
  function After(data: seq<Activity>, k: ActivityType, st: bv32): bv32 {
    Advance(st, ShuffleCalls(|OfKind(data, k)|))
  }

  /** The states in which the article, Tidal-video and video samples are drawn, and the final shuffle. */
  function ArticleState(st: bv32): bv32 { st }
  function TidalVideoState(data: seq<Activity>, st: bv32): bv32 { After(data, Article, st) }
  function VideoState(data: seq<Activity>, st: bv32): bv32 { After(data, TidalVideo, TidalVideoState(data, st)) }
  function FinalState(data: seq<Activity>, st: bv32): bv32 { After(data, Video, VideoState(data, st)) }

  /** What the kind `k` puts into the deck before the final shuffle. */
  function KindPart(data: seq<Activity>, st: bv32, k: ActivityType): seq<Activity> {
    match k
    case Article => Sampled(OfKind(data, Article), Quota(ARTICLE_SHARE), ArticleState(st))
    case TidalVideo => Sampled(OfKind(data, TidalVideo), Quota(TIDAL_VIDEO_SHARE), TidalVideoState(data, st))
    case Video => Sampled(OfKind(data, Video), Quota(VIDEO_SHARE), VideoState(data, st))
    case Game => OfKind(data, Game)
    case AppLink => OfKind(data, AppLink)
    case Tidal => OfKind(data, Tidal)
    case OtherKind(_) => []
  }

  /** The items of each kind of `kinds`, kind after kind. */
  function AllOf(data: seq<Activity>, kinds: seq<ActivityType>): seq<Activity> {
    if kinds == [] then [] else AllOf(data, kinds[..|kinds| - 1]) + OfKind(data, kinds[|kinds| - 1])
  }

  /** The `sampled` array before the final shuffle. */
  function Picked(data: seq<Activity>, st: bv32): seq<Activity> {
    KindPart(data, st, Article) + KindPart(data, st, TidalVideo) + KindPart(data, st, Video)
    + AllOf(data, ALWAYS_INCLUDE)
  }

  /** The deck `loadActivities` stores, for the items `data` and the generator state `st`. */
  function Deck(data: seq<Activity>, st: bv32): seq<Activity> {
    Shuffled(Picked(data, st), FinalState(data, st))
  }

  /** How many items of kind `k` the deck holds. */
  function Contribution(data: seq<Activity>, k: ActivityType): nat {
    match k
    case Article => Min(Quota(ARTICLE_SHARE), |OfKind(data, Article)|)
    case TidalVideo => Min(Quota(TIDAL_VIDEO_SHARE), |OfKind(data, TidalVideo)|)
    case Video => Min(Quota(VIDEO_SHARE), |OfKind(data, Video)|)
    case Game => |OfKind(data, Game)|
    case AppLink => |OfKind(data, AppLink)|
    case Tidal => |OfKind(data, Tidal)|
    case OtherKind(_) => 0
  }

  lemma AllOfSnoc(data: seq<Activity>, kinds: seq<ActivityType>, t: nat)
    requires t < |kinds|
    ensures AllOf(data, kinds[..t + 1]) == AllOf(data, kinds[..t]) + OfKind(data, kinds[t])
  {
    assert kinds[..t + 1][..t] == kinds[..t];
  }

  lemma AllOfAlways(data: seq<Activity>)
    ensures AllOf(data, ALWAYS_INCLUDE) == OfKind(data, Game) + OfKind(data, AppLink) + OfKind(data, Tidal)
  {
    var ks := ALWAYS_INCLUDE;
    assert ks[..2][..1][..0] == [];
    assert AllOf(data, ks[..2][..1]) == OfKind(data, Game);
    assert AllOf(data, ks[..2]) == OfKind(data, Game) + OfKind(data, AppLink);
  }

  /** A sample drawn from the bucket of kind `k` holds only items of kind `k`, from that bucket. */
  lemma SampleOfKind(data: seq<Activity>, k: ActivityType, n: nat, st: bv32)
    ensures AllOfKind(Sampled(OfKind(data, k), n, st), k)
    ensures multiset(Sampled(OfKind(data, k), n, st)) <= multiset(OfKind(data, k))
    ensures |Sampled(OfKind(data, k), n, st)| == Min(n, |OfKind(data, k)|)
  {
    SampledBounds(OfKind(data, k), n, st);
    SubMultisetOfKind(Sampled(OfKind(data, k), n, st), OfKind(data, k), k);
  }

  /** Each part holds only its own kind, as many as `Contribution` says, from the bucket of that kind. */
  lemma KindPartFacts(data: seq<Activity>, st: bv32, k: ActivityType)
    ensures AllOfKind(KindPart(data, st, k), k)
    ensures |KindPart(data, st, k)| == Contribution(data, k)
    ensures multiset(KindPart(data, st, k)) <= multiset(OfKind(data, k))
  {
    match k
    case Article => SampleOfKind(data, Article, Quota(ARTICLE_SHARE), ArticleState(st));
    case TidalVideo => SampleOfKind(data, TidalVideo, Quota(TIDAL_VIDEO_SHARE), TidalVideoState(data, st));
    case Video => SampleOfKind(data, Video, Quota(VIDEO_SHARE), VideoState(data, st));
    case Game =>
    case AppLink =>
    case Tidal =>
    case OtherKind(_) =>
  }

  /** Selecting kind `k'` from the part of kind `k` gives the whole part when the kinds agree, nothing otherwise. */
  lemma OfKindPart(data: seq<Activity>, st: bv32, k: ActivityType, k': ActivityType)
    ensures OfKind(KindPart(data, st, k), k') == if k' == k then KindPart(data, st, k) else []
  {
    KindPartFacts(data, st, k);
    OfKindUniform(KindPart(data, st, k), k, k');
  }

  /** Selecting one kind from six single-kind parts, one per kind of the deck, gives the part of that kind. */
  lemma SixPartsOfKind(a: seq<Activity>, t: seq<Activity>, v: seq<Activity>,
                       ga: seq<Activity>, ap: seq<Activity>, ti: seq<Activity>, k: ActivityType)
    requires AllOfKind(a, Article) && AllOfKind(t, TidalVideo) && AllOfKind(v, Video)
    requires AllOfKind(ga, Game) && AllOfKind(ap, AppLink) && AllOfKind(ti, Tidal)
    ensures OfKind(a + t + v + ga + ap + ti, k)
         == match k
            case Article => a
            case TidalVideo => t
            case Video => v
            case Game => ga
            case AppLink => ap
            case Tidal => ti
            case OtherKind(_) => []
  {
    OfKindUniform(a, Article, k);
    OfKindAppendUniform(a, t, TidalVideo, k);
    OfKindAppendUniform(a + t, v, Video, k);
    OfKindAppendUniform(a + t + v, ga, Game, k);
    OfKindAppendUniform(a + t + v + ga, ap, AppLink, k);
    OfKindAppendUniform(a + t + v + ga + ap, ti, Tidal, k);
  }

  /** Before the final shuffle, the items of kind `k` are exactly the part of kind `k`. */
  lemma PickedOfKind(data: seq<Activity>, st: bv32, k: ActivityType)
    ensures OfKind(Picked(data, st), k) == KindPart(data, st, k)
  {
    var a, t, v := KindPart(data, st, Article), KindPart(data, st, TidalVideo), KindPart(data, st, Video);
    var ga, ap, ti := OfKind(data, Game), OfKind(data, AppLink), OfKind(data, Tidal);
    KindPartFacts(data, st, Article);
    KindPartFacts(data, st, TidalVideo);
    KindPartFacts(data, st, Video);
    AllOfAlways(data);
    assert Picked(data, st) == a + t + v + ga + ap + ti;
    SixPartsOfKind(a, t, v, ga, ap, ti, k);
  }

  /** The final shuffle is a permutation of the picked items. */
  lemma DeckPermutesPicked(data: seq<Activity>, st: bv32)
    ensures multiset(Deck(data, st)) == multiset(Picked(data, st))
    ensures |Deck(data, st)| == |Picked(data, st)|
  {
    ShuffledPermutes(Picked(data, st), FinalState(data, st));
  }

  /**
   * The deck holds min(18, #articles) articles, min(16, #tidal videos) Tidal videos,
   * min(6, #videos) videos, every game, app link and Tidal track, and nothing of any other kind.
   */
  lemma DeckKindCount(data: seq<Activity>, st: bv32, k: ActivityType)
    ensures |OfKind(Deck(data, st), k)| == Contribution(data, k)
  {
    DeckPermutesPicked(data, st);
    OfKindPermutation(Deck(data, st), Picked(data, st), k);
    PickedOfKind(data, st, k);
    KindPartFacts(data, st, k);
  }

  /** An item occurs in the deck at most as often as in the input, and only through the part of its kind. */
  lemma DeckMultiplicity(data: seq<Activity>, st: bv32, x: Activity)
    ensures multiset(Deck(data, st))[x] == multiset(KindPart(data, st, x.kind))[x]
    ensures multiset(Deck(data, st))[x] <= multiset(data)[x]
  {
    DeckPermutesPicked(data, st);
    OfKindMultiplicity(Picked(data, st), x.kind, x);
    PickedOfKind(data, st, x.kind);
    KindPartFacts(data, st, x.kind);
    OfKindMultiplicity(data, x.kind, x);
  }

  /** The deck is a sub-multiset of the input: no item is invented or duplicated. */
  lemma DeckSubMultiset(data: seq<Activity>, st: bv32)
    ensures multiset(Deck(data, st)) <= multiset(data)
  {
    forall x ensures multiset(Deck(data, st))[x] <= multiset(data)[x] {
      DeckMultiplicity(data, st, x);
    }
  }

  /** Every game, app link and Tidal track of the input is in the deck, as often as in the input. */
  lemma DeckAlwaysIncludes(data: seq<Activity>, st: bv32, x: Activity)
    requires AlwaysIncluded(x.kind)
    ensures multiset(Deck(data, st))[x] == multiset(data)[x]
  {
    DeckMultiplicity(data, st, x);
    OfKindMultiplicity(data, x.kind, x);
  }

  /** The deck's length is the sum of the six per-kind contributions. */
  lemma DeckLength(data: seq<Activity>, st: bv32)
    ensures |Deck(data, st)|
         == Contribution(data, Article) + Contribution(data, TidalVideo) + Contribution(data, Video)
          + Contribution(data, Game) + Contribution(data, AppLink) + Contribution(data, Tidal)
  {
    DeckPermutesPicked(data, st);
    AllOfAlways(data);
    KindPartFacts(data, st, Article);
    KindPartFacts(data, st, TidalVideo);
    KindPartFacts(data, st, Video);
  }

  /** Pushing one more item onto its type's bucket (creating the bucket if needed) keeps the grouping exact. */
  lemma GroupPush(byType: map<ActivityType, seq<Activity>>, data: seq<Activity>, item: Activity)
    requires GroupedBy(byType, data)
    ensures GroupedBy(byType[item.kind := (if item.kind in byType then byType[item.kind] else []) + [item]], data + [item])
  {
    forall k ensures OfKind(data + [item], k) == OfKind(data, k) + (if k == item.kind then [item] else []) {
      OfKindAppendUniform(data, [item], item.kind, k);
    }
  }

  /** The grouping loop: one bucket per type present, holding that type's items in input order. */
  method GroupByType(data: seq<Activity>) returns (byType: map<ActivityType, seq<Activity>>)
    ensures GroupedBy(byType, data)
  {
    byType := map[];
    for i := 0 to |data|
      invariant GroupedBy(byType, data[..i])
    {
      var item := data[i];
      var kind := item.kind;
      GroupPush(byType, data[..i], item);
      if kind !in byType {
        byType := byType[kind := []];
      }
      byType := byType[kind := byType[kind] + [item]];
      assert data[..i + 1] == data[..i] + [item];
    }
    assert data[..|data|] == data;
  }

  /** One quota sample: `sample(byType[k], n, random)` when the bucket exists, nothing otherwise. */
  method SampleKind(data: seq<Activity>, byType: map<ActivityType, seq<Activity>>, k: ActivityType, n: nat, g: Generator)
    returns (part: seq<Activity>)
    requires GroupedBy(byType, data) && g.Valid()
    modifies g
    ensures g.Valid() && g.state == After(data, k, old(g.state))
    ensures part == Sampled(OfKind(data, k), n, old(g.state))
  {
    if k in byType {
      part := Sample(byType[k], n, g);
    } else {
      part := [];
      assert OfKind(data, k) == [];
      ShuffledPermutes(OfKind(data, k), g.state);
    }
  }

  /** What `GroupByType` promises about its map. */
  ghost predicate GroupedBy(byType: map<ActivityType, seq<Activity>>, data: seq<Activity>) {
    (forall k :: k in byType <==> OfKind(data, k) != [])
    && (forall k :: k in byType ==> byType[k] == OfKind(data, k))
  }

  /** The three quota samples, drawn in the order articles, Tidal videos, videos. */
  method SampleQuotas(data: seq<Activity>, byType: map<ActivityType, seq<Activity>>, g: Generator)
    returns (sampled: seq<Activity>)
    requires GroupedBy(byType, data) && g.Valid()
    modifies g
    ensures g.Valid() && g.state == FinalState(data, old(g.state))
    ensures sampled == KindPart(data, old(g.state), Article) + KindPart(data, old(g.state), TidalVideo)
                     + KindPart(data, old(g.state), Video)
  {
    var articles := SampleKind(data, byType, Article, Quota(ARTICLE_SHARE), g);
    var tidalVideos := SampleKind(data, byType, TidalVideo, Quota(TIDAL_VIDEO_SHARE), g);
    var videos := SampleKind(data, byType, Video, Quota(VIDEO_SHARE), g);
    sampled := articles + tidalVideos + videos;
  }

  /** `byType[k]`, or nothing when the bucket does not exist. */
  function Bucket(byType: map<ActivityType, seq<Activity>>, k: ActivityType): seq<Activity> {
    if k in byType then byType[k] else []
  }

  /** The buckets of `kinds`, kind after kind. */
  function Buckets(byType: map<ActivityType, seq<Activity>>, kinds: seq<ActivityType>): seq<Activity> {
    if kinds == [] then [] else Buckets(byType, kinds[..|kinds| - 1]) + Bucket(byType, kinds[|kinds| - 1])
  }

  /** Over an exact grouping, the buckets of some kinds are the items of those kinds. */
  lemma {:induction false} BucketsOfGrouping(byType: map<ActivityType, seq<Activity>>, data: seq<Activity>, kinds: seq<ActivityType>)
    requires GroupedBy(byType, data)
    ensures Buckets(byType, kinds) == AllOf(data, kinds)
  {
    if kinds != [] {
      BucketsOfGrouping(byType, data, kinds[..|kinds| - 1]);
      var k := kinds[|kinds| - 1];
      assert Bucket(byType, k) == OfKind(data, k);
    }
  }

  /** The loop over `alwaysInclude`: appends the bucket of each kind of `kinds` that has one. */
  method AppendBuckets(byType: map<ActivityType, seq<Activity>>, sampled: seq<Activity>, kinds: seq<ActivityType>)
    returns (r: seq<Activity>)
    ensures r == sampled + Buckets(byType, kinds)
  {
    r := sampled;
    for t := 0 to |kinds|
      invariant r == sampled + Buckets(byType, kinds[..t])
    {
      var kind := kinds[t];
      ghost var before := Buckets(byType, kinds[..t]);
      assert kinds[..t + 1][..t] == kinds[..t];
      if kind in byType {
        r := r + byType[kind];
      }
      assert r == sampled + (before + Bucket(byType, kind));
    }
    assert kinds[..|kinds|] == kinds;
  }

  /**
   * `loadActivities` after the fetch: the generator is seeded by the caller (the source
   * uses `Date.now()`), and the deck is what `Deck` specifies for its state.
   */
  method LoadDeck(data: seq<Activity>, g: Generator) returns (deck: seq<Activity>)
    requires g.Valid()
    modifies g
    ensures g.Valid()
    ensures deck == Deck(data, old(g.state))
    ensures g.state == Advance(FinalState(data, old(g.state)), ShuffleCalls(|Picked(data, old(g.state))|))
  {
    ghost var st := g.state;
    var byType := GroupByType(data);
    var sampled := SampleQuotas(data, byType, g);
    sampled := AppendBuckets(byType, sampled, ALWAYS_INCLUDE);
    BucketsOfGrouping(byType, data, ALWAYS_INCLUDE);
    assert sampled == Picked(data, st);
    deck := Shuffle(sampled, g);
  }
}
