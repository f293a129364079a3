/**
 * scripts/generate-daily.ts: the daily feed. The date string is hashed into a seed, the
 * pools are read from their JSON files (a missing file or field is an empty pool), three
 * quota samples are drawn with one generator, and the samples are concatenated with all
 * games and all evergreen videos, in that order and without a final shuffle.
 */
module DailyFeed {
  import opened Wrappers
  import opened Activities
  import opened Prng
  import opened Sampling
  import opened Deck

  const TWO_31: int := 0x8000_0000

  /** JavaScript's ToInt32 on an integer: the value modulo 2^32, read as a signed 32-bit number. */
  function ToInt32(n: int): (r: int)
    ensures -TWO_31 <= r < TWO_31
    ensures (r - n) % TWO_32 == 0
  {
    var m := n % TWO_32;
    if m >= TWO_31 then m - TWO_32 else m
  }

  /** `acc << 5`: shifts the 32-bit two's complement form of `acc`, the result read as signed. */
  function ShiftLeft5(acc: int): int {
    ToInt32(acc * 32)
  }

  /** One step of the `reduce`: `((acc << 5) - acc) + char.charCodeAt(0)`. */
  function HashStep(acc: int, c: char): int {
    ShiftLeft5(acc) - acc + c as int
  }

  /** The `reduce` over the characters of `s`, from the left, starting at `acc`. */
  function HashFrom(acc: int, s: string): int
    decreases |s|
  {
    if s == [] then acc else HashFrom(HashStep(acc, s[0]), s[1..])
  }

  /** `dateToSeed(dateStr)`. */
  function DateToSeed(date: string): int {
    HashFrom(0, date)
  }

  /** The textbook string hash `acc * 31 + code`, without any truncation. */
  function Hash31From(acc: int, s: string): int
    decreases |s|
  {
    if s == [] then acc else Hash31From(acc * 31 + s[0] as int, s[1..])
  }

  lemma DateToSeedEmpty()
    ensures DateToSeed("") == 0
  {
  }

  /** `x` and `y` leave the same remainder modulo 2^32. */
  predicate Congruent(x: int, y: int) {
    (x - y) % TWO_32 == 0
  }

  lemma CongruentMultiple(x: int, y: int, k: int)
    requires x - y == k * TWO_32
    ensures Congruent(x, y)
  {
  }

  /** A step of `dateToSeed` agrees modulo 2^32 with a step of the textbook hash. */
  lemma HashStepCongruent(a: int, b: int, c: char)
    requires Congruent(a, b)
    ensures Congruent(HashStep(a, c), b * 31 + c as int)
  {
    var k := (a - b) / TWO_32;
    assert a - b == k * TWO_32;
    var s := ShiftLeft5(a);
    var j := (s - a * 32) / TWO_32;
    assert s - a * 32 == j * TWO_32;
    assert HashStep(a, c) - (b * 31 + c as int) == (j + 31 * k) * TWO_32;
    CongruentMultiple(HashStep(a, c), b * 31 + c as int, j + 31 * k);
  }

  lemma {:induction false} HashFromCongruent(a: int, b: int, s: string)
    requires Congruent(a, b)
    ensures Congruent(HashFrom(a, s), Hash31From(b, s))
    decreases |s|
  {
    if s != [] {
      HashStepCongruent(a, b, s[0]);
      HashFromCongruent(HashStep(a, s[0]), b * 31 + s[0] as int, s[1..]);
    }
  }

  /**
   * Only the seed modulo 2^32 matters to the generator, and there `dateToSeed` is the
   * textbook hash `h = 31 h + code` over the characters.
   */
  lemma DateToSeedMod(date: string)
    ensures DateToSeed(date) % TWO_32 == Hash31From(0, date) % TWO_32
    ensures SeedState(DateToSeed(date)) == SeedState(Hash31From(0, date))
  {
    HashFromCongruent(0, 0, date);
    var x, y := DateToSeed(date), Hash31From(0, date);
    var k := (x - y) / TWO_32;
    assert x - y == k * TWO_32;
    assert x == y + k * TWO_32;
    assert x % TWO_32 == y % TWO_32;
  }

  /** The parsed contents of one pool file; a field the file does not have is `None`. */
  datatype PoolFile = PoolFile(
    articles: Option<seq<Activity>>,
    videos: Option<seq<Activity>>,
    games: Option<seq<Activity>>)

  /** The five pools `main` loads. */
  datatype Pools = Pools(
    articles: seq<Activity>,
    nebulaVideos: seq<Activity>,
    tidalVideos: seq<Activity>,
    games: seq<Activity>,
    evergreenVideos: seq<Activity>)

  /** The three array fields a pool file may carry. */
  datatype FieldName = ArticlesField | VideosField | GamesField

  function Get(data: PoolFile, name: FieldName): Option<seq<Activity>> {
    match name
    case ArticlesField => data.articles
    case VideosField => data.videos
    case GamesField => data.games
  }

  /** `data.field || []` for a file that may not exist. */
  function Field(file: Option<PoolFile>, name: FieldName): (r: seq<Activity>)
    ensures file.None? ==> r == []
    ensures file.Some? && Get(file.value, name).Some? ==> r == Get(file.value, name).value
    ensures file.Some? && Get(file.value, name).None? ==> r == []
  {
    match file
    case None => []
    case Some(data) => Get(data, name).GetOr([])
  }

  /**
   * The pool loading of `main` from articles.json, tidal-videos.json, games.json and
   * evergreen-videos.json (`None` when a file does not exist).
   */
  function LoadPools(articlesFile: Option<PoolFile>, tidalFile: Option<PoolFile>,
                     gamesFile: Option<PoolFile>, evergreenFile: Option<PoolFile>): Pools
  {
    Pools(Field(articlesFile, ArticlesField), Field(articlesFile, VideosField),
          Field(tidalFile, VideosField), Field(gamesFile, GamesField),
          Field(evergreenFile, VideosField))
  }

  /** Missing files give empty pools, never an error. */
  lemma MissingFilesEmpty()
    ensures LoadPools(None, None, None, None) == Pools([], [], [], [], [])
  {
  }

  /** The three samples, drawn in order from the generator state `st`. */
  function SampledArticles(p: Pools, st: bv32): seq<Activity> {
    Sampled(p.articles, Quota(ARTICLE_SHARE), st)
  }

  function SampledTidal(p: Pools, st: bv32): seq<Activity> {
    Sampled(p.tidalVideos, Quota(TIDAL_VIDEO_SHARE), Advance(st, ShuffleCalls(|p.articles|)))
  }

  function SampledNebula(p: Pools, st: bv32): seq<Activity> {
    Sampled(p.nebulaVideos, Quota(VIDEO_SHARE),
            Advance(Advance(st, ShuffleCalls(|p.articles|)), ShuffleCalls(|p.tidalVideos|)))
  }

  /** The list `main` writes, for the pools `p` and the generator state `st`. */
  function Daily(p: Pools, st: bv32): seq<Activity> {
    SampledArticles(p, st) + SampledTidal(p, st) + SampledNebula(p, st) + p.games + p.evergreenVideos
  }

  /** The feed holds 18, 16 and 6 samples (fewer when a pool is smaller), all games and all evergreen videos. */
  lemma DailyLength(p: Pools, st: bv32)
    ensures |Daily(p, st)|
         == Min(18, |p.articles|) + Min(16, |p.tidalVideos|) + Min(6, |p.nebulaVideos|)
          + |p.games| + |p.evergreenVideos|
  {
    QuotaValues();
    SampledBounds(p.articles, Quota(ARTICLE_SHARE), st);
    SampledBounds(p.tidalVideos, Quota(TIDAL_VIDEO_SHARE), Advance(st, ShuffleCalls(|p.articles|)));
    SampledBounds(p.nebulaVideos, Quota(VIDEO_SHARE),
                  Advance(Advance(st, ShuffleCalls(|p.articles|)), ShuffleCalls(|p.tidalVideos|)));
  }

  /** Every item of the feed comes from the pools, no more often than it occurs there. */
  lemma DailySubMultiset(p: Pools, st: bv32)
    ensures multiset(Daily(p, st))
         <= multiset(p.articles + p.tidalVideos + p.nebulaVideos + p.games + p.evergreenVideos)
  {
    SampledBounds(p.articles, Quota(ARTICLE_SHARE), st);
    SampledBounds(p.tidalVideos, Quota(TIDAL_VIDEO_SHARE), Advance(st, ShuffleCalls(|p.articles|)));
    SampledBounds(p.nebulaVideos, Quota(VIDEO_SHARE),
                  Advance(Advance(st, ShuffleCalls(|p.articles|)), ShuffleCalls(|p.tidalVideos|)));
  }

  /** The feed starts with the sampled articles and ends with the evergreen videos, in pool order. */
  lemma DailyOrder(p: Pools, st: bv32)
    ensures Daily(p, st)[..|SampledArticles(p, st)|] == SampledArticles(p, st)
    ensures Daily(p, st)[|Daily(p, st)| - |p.evergreenVideos|..] == p.evergreenVideos
  {
  }

  /**
   * `main` without its console output and file write: seeds a generator with the date,
   * draws the three samples and concatenates. Its result depends on the date and the
   * pool files only.
   */
  method GenerateDaily(today: string, articlesFile: Option<PoolFile>, tidalFile: Option<PoolFile>,
                       gamesFile: Option<PoolFile>, evergreenFile: Option<PoolFile>)
    returns (feed: seq<Activity>)
    ensures feed == Daily(LoadPools(articlesFile, tidalFile, gamesFile, evergreenFile),
                          SeedState(Hash31From(0, today)))
  {
    var seed := DateToSeed(today);
    var random := new Generator(seed);
    DateToSeedMod(today);
    var pools := LoadPools(articlesFile, tidalFile, gamesFile, evergreenFile);
    var sampledArticles := Sample(pools.articles, Quota(ARTICLE_SHARE), random);
    var sampledTidalVideos := Sample(pools.tidalVideos, Quota(TIDAL_VIDEO_SHARE), random);
    var sampledNebula := Sample(pools.nebulaVideos, Quota(VIDEO_SHARE), random);
    feed := sampledArticles + sampledTidalVideos + sampledNebula + pools.games + pools.evergreenVideos;
  }
}
