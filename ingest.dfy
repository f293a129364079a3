/**
 * The feed ingester, scripts/ingest.ts: maps the first ten items of each feed to
 * activities, drops those whose url is already known, merges them with the existing
 * list (keeping the manual entries) and sorts the result by `addedAt`, newest first.
 */
module Ingest {
  import opened Wrappers
  import opened Text
  import opened Activities
  import opened ScrapeRss

  const MAX_INGEST_ITEMS: nat := 10
  const MAX_SNIPPET: nat := 150

  /** One entry of `RSS_FEEDS`; `kind` is the optional `type`. */
  datatype IngestConfig = IngestConfig(
    url: string, source: string, tags: seq<string>, kind: Option<ActivityType>, platform: Option<Platform>)

  predicate IsDoubleQuote(c: char) { c == '"' }

  /** The activity built from one item; `id` is the fresh random id, `now` the clock. */
  function ToIngestActivity(config: IngestConfig, item: FeedItem, id: string, now: int): (a: Activity)
    ensures a.kind == config.kind.GetOr(Article)
    ensures a.description.Some? <==> item.contentSnippet.Some?
    ensures a.description.Some? ==>
      |a.description.value| <= MAX_SNIPPET && |a.description.value| <= |item.contentSnippet.value|
      && a.description.value == item.contentSnippet.value[..|a.description.value|]
    ensures a.url == item.link && a.source == config.source && a.tags == Some(config.tags)
    ensures a.description.Some? && MAX_SNIPPET < |item.contentSnippet.value| ==> |a.description.value| == MAX_SNIPPET
    ensures a.description.Some? && |item.contentSnippet.value| <= MAX_SNIPPET ==> a.description == item.contentSnippet
    ensures a.title == OrElse(item.title, "Untitled") && a.platform == config.platform
    ensures a.imageUrl == Either(item.enclosureUrl, ExtractImage(Some(OrElse(item.content, "")), IsDoubleQuote))
    ensures a.addedAt == (if item.pubDate.Some? then item.pubDate.value else now)
    ensures a.id == id && a.tidalUrl.None? && a.embedId.None?
  {
    Activity(
      id, config.kind.GetOr(Article), OrElse(item.title, "Untitled"),
      if item.contentSnippet.Some? then Some(Prefix(item.contentSnippet.value, MAX_SNIPPET)) else None,
      Either(item.enclosureUrl, ExtractImage(Some(OrElse(item.content, "")), IsDoubleQuote)),
      config.source, Some(config.tags),
      if item.pubDate.Some? then item.pubDate.value else now,
      item.link, None, config.platform, None)
  }

  /**
   * `fetchFeed(feedConfig)` given what the parser returned (`None` when fetching or
   * parsing failed): the first ten items, mapped; `ids(k)` is the id of the k-th.
   */
  function FetchIngestFeed(config: IngestConfig, parsed: Option<seq<FeedItem>>, ids: nat -> string, now: int): (r: seq<Activity>)
    ensures parsed.None? ==> r == []
    ensures parsed.Some? ==> |r| == if |parsed.value| <= MAX_INGEST_ITEMS then |parsed.value| else MAX_INGEST_ITEMS
    ensures forall k :: 0 <= k < |r| ==> r[k] == ToIngestActivity(config, parsed.value[k], ids(k), now)
  {
    match parsed
    case None => []
    case Some(items) =>
      var first := if |items| <= MAX_INGEST_ITEMS then items else items[..MAX_INGEST_ITEMS];
      seq(|first|, k requires 0 <= k < |first| => ToIngestActivity(config, first[k], ids(k), now))
  }

  /** `a.url || a.tidalUrl` */
  function LinkOf(a: Activity): Option<string> {
    Either(a.url, a.tidalUrl)
  }

  /** `existingUrls`: the non-empty `url || tidalUrl` of the existing entries. */
  function ExistingUrls(existing: seq<Activity>): set<Option<string>> {
    set a | a in existing && Truthy(LinkOf(a)) :: LinkOf(a)
  }

  /** `activities.filter(a => !existingUrls.has(a.url))` */
  function KeepNew(s: seq<Activity>, urls: set<Option<string>>): (r: seq<Activity>)
    ensures forall a :: a in r <==> a in s && a.url !in urls
    ensures multiset(r) <= multiset(s)
  {
    if s == [] then []
    else
      assert s == [s[0]] + s[1..];
      (if s[0].url !in urls then [s[0]] else []) + KeepNew(s[1..], urls)
  }

  /** The specification of the collecting loop: the new items of every feed, feed by feed. */
  function NewItems(fetched: seq<seq<Activity>>, urls: set<Option<string>>): (r: seq<Activity>)
    ensures forall a :: a in r ==> a.url !in urls
  {
    if fetched == [] then []
    else NewItems(fetched[..|fetched| - 1], urls) + KeepNew(fetched[|fetched| - 1], urls)
  }

  /** The `for` loop of `main` that pushes each feed's new items onto `allNewActivities`. */
  method CollectNew(fetched: seq<seq<Activity>>, urls: set<Option<string>>) returns (allNew: seq<Activity>)
    ensures allNew == NewItems(fetched, urls)
  {
    allNew := [];
    for i := 0 to |fetched|
      invariant allNew == NewItems(fetched[..i], urls)
    {
      assert fetched[..i + 1][..i] == fetched[..i];
      var newActivities := KeepNew(fetched[i], urls);
      allNew := allNew + newActivities;
    }
    assert fetched[..|fetched|] == fetched;
  }

  /** A manual entry: tidal or app-link, or a url that is missing or has no dot. */
  predicate IsManual(a: Activity) {
    a.kind == Tidal || a.kind == AppLink || a.url.None? || !Contains(a.url.value, ".")
  }

  function ManualEntries(s: seq<Activity>): (r: seq<Activity>)
    ensures forall a :: a in r <==> a in s && IsManual(a)
  {
    if s == [] then []
    else
      assert s == [s[0]] + s[1..];
      (if IsManual(s[0]) then [s[0]] else []) + ManualEntries(s[1..])
  }

  /** `!allNewActivities.some(n => n.url === a.url)` */
  predicate Replaced(a: Activity, incoming: seq<Activity>) {
    exists n :: n in incoming && n.url == a.url
  }

  /** The existing entries that are neither manual nor replaced by a fetched item with the same url. */
  function KeptEntries(s: seq<Activity>, incoming: seq<Activity>): seq<Activity> {
    if s == [] then []
    else (if !IsManual(s[0]) && !Replaced(s[0], incoming) then [s[0]] else []) + KeptEntries(s[1..], incoming)
  }

  function NonManual(s: seq<Activity>): seq<Activity> {
    if s == [] then [] else (if !IsManual(s[0]) then [s[0]] else []) + NonManual(s[1..])
  }

  /** `merged.activities` before the sort. */
  function Merge(existing: seq<Activity>, incoming: seq<Activity>): seq<Activity> {
    ManualEntries(existing) + incoming + KeptEntries(existing, incoming)
  }

  /** A non-manual entry's url is among the existing urls. */
  lemma NonManualKnown(existing: seq<Activity>, a: Activity)
    requires a in existing && !IsManual(a)
    ensures a.url in ExistingUrls(existing)
  {
    assert a.url.value != [];
    assert LinkOf(a) == a.url;
  }

  /**
   * No fetched item that passed the url filter can replace a non-manual existing entry,
   * so the third part of the merge is every non-manual existing entry.
   */
  lemma {:induction false} KeptAllNonManual(s: seq<Activity>, existing: seq<Activity>, incoming: seq<Activity>)
    requires forall a :: a in s ==> a in existing
    requires forall n :: n in incoming ==> n.url !in ExistingUrls(existing)
    ensures KeptEntries(s, incoming) == NonManual(s)
  {
    if s != [] {
      if !IsManual(s[0]) {
        NonManualKnown(existing, s[0]);
      }
      KeptAllNonManual(s[1..], existing, incoming);
    }
  }

  lemma {:induction false} ManualSplit(s: seq<Activity>)
    ensures multiset(ManualEntries(s)) + multiset(NonManual(s)) == multiset(s)
  {
    if s != [] {
      ManualSplit(s[1..]);
      assert s == [s[0]] + s[1..];
    }
  }

  /**
   * No existing entry is lost: with fetched items that passed the url filter, the merge
   * holds exactly the existing entries and the fetched ones.
   */
  lemma MergeKeepsAll(existing: seq<Activity>, incoming: seq<Activity>)
    requires forall n :: n in incoming ==> n.url !in ExistingUrls(existing)
    ensures multiset(Merge(existing, incoming)) == multiset(existing) + multiset(incoming)
    ensures |Merge(existing, incoming)| == |existing| + |incoming|
  {
    KeptAllNonManual(existing, existing, incoming);
    ManualSplit(existing);
    assert |multiset(Merge(existing, incoming))| == |Merge(existing, incoming)|;
  }

  /** The items in `[lo, hi)` are ordered newest first. */
  predicate SortedBetween(s: seq<Activity>, lo: int, hi: int) {
    forall i, j :: 0 <= lo <= i < j < hi <= |s| ==> s[i].addedAt >= s[j].addedAt
  }

  predicate SortedDesc(s: seq<Activity>) {
    SortedBetween(s, 0, |s|)
  }

  /** `s` with its items at `j - 1` and `j` exchanged. */
  function SwapAdjacent(s: seq<Activity>, j: nat): seq<Activity>
    requires 0 < j < |s|
  {
    s[j - 1 := s[j]][j := s[j - 1]]
  }

  /**
   * While `a[i]` moves down to index `j`: both `[0, j)` and `[j, i]` are sorted, and
   * everything before `j` is at least as new as everything after it.
   */
  predicate SinkInv(s: seq<Activity>, j: int, i: int) {
    0 <= j <= i < |s| && SortedBetween(s, 0, j) && SortedBetween(s, j, i + 1)
    && forall k, m :: 0 <= k < j < m <= i ==> s[k].addedAt >= s[m].addedAt
  }

  lemma SinkStart(s: seq<Activity>, i: nat)
    requires i < |s| && SortedBetween(s, 0, i)
    ensures SinkInv(s, i, i)
  {
  }

  lemma SinkStep(s: seq<Activity>, j: nat, i: nat)
    requires SinkInv(s, j, i) && j > 0 && s[j - 1].addedAt < s[j].addedAt
    ensures SinkInv(SwapAdjacent(s, j), j - 1, i)
    ensures multiset(SwapAdjacent(s, j)) == multiset(s)
  {
    var t := SwapAdjacent(s, j);
    forall k, m | 0 <= j - 1 <= k < m < i + 1 <= |t| ensures t[k].addedAt >= t[m].addedAt {
      if k == j - 1 {
        assert t[k] == s[j];
        if m > j {
          assert s[j].addedAt >= s[m].addedAt;
        }
      }
    }
  }

  lemma SinkDone(s: seq<Activity>, j: nat, i: nat)
    requires SinkInv(s, j, i) && (j == 0 || s[j - 1].addedAt >= s[j].addedAt)
    ensures SortedBetween(s, 0, i + 1)
  {
    forall k, m | 0 <= k < m < i + 1 ensures s[k].addedAt >= s[m].addedAt {
      if k < j && m == j {
        assert s[k].addedAt >= s[j - 1].addedAt;
      }
    }
  }

  /** One pass of the insertion: moves `a[i]` down past the older items of the sorted prefix. */
  method InsertAt(a: array<Activity>, i: nat)
    requires i < a.Length && SortedBetween(a[..], 0, i)
    modifies a
    ensures SortedBetween(a[..], 0, i + 1)
    ensures multiset(a[..]) == multiset(old(a[..]))
    ensures forall k :: i < k < a.Length ==> a[k] == old(a[k])
  {
    SinkStart(a[..], i);
    var j := i;
    while j > 0 && a[j - 1].addedAt < a[j].addedAt
      invariant SinkInv(a[..], j, i)
      invariant multiset(a[..]) == multiset(old(a[..]))
      invariant forall k :: i < k < a.Length ==> a[k] == old(a[k])
    {
      ghost var s := a[..];
      SinkStep(s, j, i);
      a[j - 1], a[j] := a[j], a[j - 1];
      assert a[..] == SwapAdjacent(s, j);
      j := j - 1;
    }
    SinkDone(a[..], j, i);
  }

  /**
   * `merged.activities.sort((a, b) => b.addedAt - a.addedAt)`: newest first, nothing added
   * or lost. Items are only moved past strictly older ones, as the stable sort does.
   */
  method SortByAddedAt(a: array<Activity>)
    modifies a
    ensures SortedDesc(a[..])
    ensures multiset(a[..]) == multiset(old(a[..]))
  {
    for i := 0 to a.Length
      invariant SortedBetween(a[..], 0, i)
      invariant multiset(a[..]) == multiset(old(a[..]))
    {
      InsertAt(a, i);
    }
  }

  /**
   * `main` without the file I/O: `existingFile` is the `activities` list of the parsed
   * activities.json (`None` when the file is missing or does not parse; a file of another
   * shape is not modelled) and `fetched` the result of each feed. The written list
   * is sorted newest first and holds every existing entry and every new item.
   */
  method IngestMain(existingFile: Option<seq<Activity>>, fetched: seq<seq<Activity>>) returns (merged: seq<Activity>)
    ensures SortedDesc(merged)
    ensures multiset(merged)
         == multiset(existingFile.GetOr([])) + multiset(NewItems(fetched, ExistingUrls(existingFile.GetOr([]))))
  {
    var existing := existingFile.GetOr([]);
    var existingUrls := ExistingUrls(existing);
    var allNew := CollectNew(fetched, existingUrls);
    MergeKeepsAll(existing, allNew);
    var m := Merge(existing, allNew);
    var a := new Activity[|m|](k requires 0 <= k < |m| => m[k]);
    assert a[..] == m;
    SortByAddedAt(a);
    merged := a[..];
  }
}
