/**
 * The RSS scraper, scripts/scrape-rss.ts: the description cleaner and image extractor
 * (regular expressions written out as scans), the per-feed item mapping, the url
 * de-duplication and the split of the pool into articles and videos.
 */
module ScrapeRss {
  import opened Wrappers
  import opened Text
  import opened Activities

  const MAX_DESCRIPTION: nat := 200
  const MAX_FEED_ITEMS: nat := 50

  predicate IsGt(c: char) { c == '>' }
  predicate IsQuote(c: char) { c == '"' || c == '\'' }
  predicate NotSpace(c: char) { !IsSpace(c) }

  // ---------------------------------------------------------------------------
  // `text.replace(/<[^>]+>/g, '')`

  /** The regular expression `<[^>]+>` matches at `i`: a `<`, at least one other character, up to the next `>`. */
  predicate TagAt(s: string, i: nat) {
    i < |s| && s[i] == '<' && var e := RunEnd(s, i + 1, IsGt); i + 1 < e < |s|
  }

  /** Removes every tag, scanning left to right and resuming after each removed tag. */
  function StripTags(s: string): string
    decreases |s|
  {
    if s == [] then []
    else if TagAt(s, 0) then StripTags(s[RunEnd(s, 1, IsGt) + 1..])
    else [s[0]] + StripTags(s[1..])
  }

  /**
   * No tag in the sense of `<[^>]+>`: a `<` followed later by a `>` is immediately
   * followed by one.
   */
  predicate TagFree(s: string) {
    forall i, j :: 0 <= i < j < |s| && s[i] == '<' && s[j] == '>' ==> s[i + 1] == '>'
  }

  lemma TagFreeCons(c: char, t: string)
    ensures TagFree([c] + t) <==> TagFree(t) && (c == '<' && '>' in t ==> t[0] == '>')
  {
    if TagFree([c] + t) {
      TagFreeConsElim(c, t);
    }
    if TagFree(t) && (c == '<' && '>' in t ==> t[0] == '>') {
      TagFreeConsIntro(c, t);
    }
  }

  lemma TagFreeConsElim(c: char, t: string)
    requires TagFree([c] + t)
    ensures TagFree(t) && (c == '<' && '>' in t ==> t[0] == '>')
  {
    var s := [c] + t;
    forall i, j | 0 <= i < j < |t| && t[i] == '<' && t[j] == '>' ensures t[i + 1] == '>' {
      assert s[i + 1] == '<' && s[j + 1] == '>';
      assert s[i + 2] == t[i + 1];
    }
    if c == '<' && '>' in t {
      var j :| 0 <= j < |t| && t[j] == '>';
      assert s[0] == '<' && s[j + 1] == '>';
      assert s[1] == t[0];
    }
  }

  lemma TagFreeConsIntro(c: char, t: string)
    requires TagFree(t) && (c == '<' && '>' in t ==> t[0] == '>')
    ensures TagFree([c] + t)
  {
    var s := [c] + t;
    forall i, j | 0 <= i < j < |s| && s[i] == '<' && s[j] == '>' ensures s[i + 1] == '>' {
      if i == 0 {
        assert t[j - 1] == '>' && t[j - 1] in t;
        assert s[1] == t[0];
      } else {
        assert t[i - 1] == '<' && t[j - 1] == '>';
        assert s[i + 1] == t[i];
      }
    }
  }

  lemma TagFreeSlice(s: string, a: nat, b: nat)
    requires TagFree(s) && a <= b <= |s|
    ensures TagFree(s[a..b])
  {
    var t := s[a..b];
    forall i, j | 0 <= i < j < |t| && t[i] == '<' && t[j] == '>' ensures t[i + 1] == '>' {
      assert s[a + i] == '<' && s[a + j] == '>';
    }
  }

  lemma {:induction false} StripTagsNoGt(s: string)
    requires '>' !in s
    ensures '>' !in StripTags(s)
    decreases |s|
  {
    if s != [] {
      assert !TagAt(s, 0);
      StripTagsNoGt(s[1..]);
    }
  }

  /** Whatever `StripTags` leaves is tag-free. */
  lemma {:induction false} StripTagsTagFree(s: string)
    ensures TagFree(StripTags(s))
    decreases |s|
  {
    if s == [] {
    } else if TagAt(s, 0) {
      StripTagsTagFree(s[RunEnd(s, 1, IsGt) + 1..]);
    } else {
      var t := s[1..];
      StripTagsTagFree(t);
      if s[0] == '<' && '>' in StripTags(t) {
        var e := RunEnd(s, 1, IsGt);
        if e == 1 {
          assert t[0] == '>';
          assert !TagAt(t, 0);
        } else {
          assert '>' !in t by {
            forall k | 0 <= k < |t| ensures t[k] != '>' {
              assert s[k + 1] == t[k];
            }
          }
          StripTagsNoGt(t);
        }
      }
      TagFreeCons(s[0], StripTags(t));
    }
  }

  // ---------------------------------------------------------------------------
  // `.replace(/\s+/g, ' ')`

  /** Every maximal run of white space becomes a single space. */
  function Collapse(s: string): string
    decreases |s|
  {
    if s == [] then []
    else if IsSpace(s[0]) then [' '] + Collapse(s[RunEnd(s, 0, NotSpace)..])
    else [s[0]] + Collapse(s[1..])
  }

  /** No two white-space characters in a row. */
  predicate SingleSpaced(s: string) {
    forall i :: 0 <= i < |s| - 1 ==> !(IsSpace(s[i]) && IsSpace(s[i + 1]))
  }

  lemma SingleSpacedCons(c: char, t: string)
    requires SingleSpaced(t) && !(IsSpace(c) && t != [] && IsSpace(t[0]))
    ensures SingleSpaced([c] + t)
  {
    var s := [c] + t;
    forall i | 0 <= i < |s| - 1 ensures !(IsSpace(s[i]) && IsSpace(s[i + 1])) {
      if i > 0 {
        assert s[i] == t[i - 1] && s[i + 1] == t[i];
      }
    }
  }

  lemma SingleSpacedSlice(s: string, a: nat, b: nat)
    requires SingleSpaced(s) && a <= b <= |s|
    ensures SingleSpaced(s[a..b])
  {
    var t := s[a..b];
    forall i | 0 <= i < |t| - 1 ensures !(IsSpace(t[i]) && IsSpace(t[i + 1])) {
      assert t[i] == s[a + i] && t[i + 1] == s[a + i + 1];
    }
  }

  lemma {:induction false} CollapseNoGt(s: string)
    requires '>' !in s
    ensures '>' !in Collapse(s)
    decreases |s|
  {
    if s != [] {
      if IsSpace(s[0]) {
        CollapseNoGt(s[RunEnd(s, 0, NotSpace)..]);
      } else {
        CollapseNoGt(s[1..]);
      }
    }
  }

  /** The result starts with a space exactly when the input does, and otherwise with the same character. */
  lemma CollapseHead(s: string)
    requires s != []
    ensures Collapse(s) != []
    ensures IsSpace(s[0]) ==> Collapse(s)[0] == ' '
    ensures !IsSpace(s[0]) ==> Collapse(s)[0] == s[0]
  {
  }

  /** Collapsing leaves single spaces only, and keeps a tag-free text tag-free. */
  lemma {:induction false} CollapseFacts(s: string)
    ensures SingleSpaced(Collapse(s))
    ensures TagFree(s) ==> TagFree(Collapse(s))
    decreases |s|
  {
    if s != [] {
      if IsSpace(s[0]) {
        var e := RunEnd(s, 0, NotSpace);
        var t := s[e..];
        CollapseFacts(t);
        if t != [] {
          CollapseHead(t);
        }
        SingleSpacedCons(' ', Collapse(t));
        if TagFree(s) {
          TagFreeSlice(s, e, |s|);
        }
        TagFreeCons(' ', Collapse(t));
      } else {
        var t := s[1..];
        CollapseFacts(t);
        if t != [] {
          CollapseHead(t);
        }
        SingleSpacedCons(s[0], Collapse(t));
        if TagFree(s) {
          assert s == [s[0]] + t;
          TagFreeCons(s[0], t);
          if s[0] == '<' && '>' in Collapse(t) {
            if '>' !in t {
              CollapseNoGt(t);
            }
            assert t[0] == '>';
          }
          TagFreeCons(s[0], Collapse(t));
        }
      }
    }
  }

  // ---------------------------------------------------------------------------
  // `.trim()` and `.substring(0, 200)`

  function TrimStart(s: string): (r: string)
    ensures |r| <= |s| && r == s[|s| - |r|..]
    ensures r != [] ==> !IsSpace(r[0])
  {
    s[RunEnd(s, 0, NotSpace)..]
  }

  function TrimEnd(s: string): (r: string)
    decreases |s|
    ensures |r| <= |s| && r == s[..|r|]
    ensures r != [] ==> !IsSpace(r[|r| - 1])
    ensures s != [] && !IsSpace(s[0]) ==> r != [] && r[0] == s[0]
  {
    if s != [] && IsSpace(s[|s| - 1]) then TrimEnd(s[..|s| - 1]) else s
  }

  /** `String.prototype.trim`: no white space left at either end. */
  function Trim(s: string): (r: string)
    ensures r != [] ==> !IsSpace(r[0]) && !IsSpace(r[|r| - 1])
  {
    TrimEnd(TrimStart(s))
  }

  /** `s.substring(0, n)` */
  function Prefix(s: string, n: nat): (r: string)
    ensures |r| <= n && |r| <= |s| && r == s[..|r|]
    ensures |s| <= n ==> r == s
    ensures n < |s| ==> |r| == n
  {
    if |s| <= n then s else s[..n]
  }

  /**
   * `cleanDescription(text)`: nothing for a missing or empty text; otherwise the text
   * without tags, with single spaces, trimmed and cut to 200 characters. The result is at
   * most 200 long, does not start with white space, never has two white-space characters
   * in a row and holds no tag.
   */
  function CleanDescription(text: Option<string>): (r: Option<string>)
    ensures r.None? <==> !Truthy(text)
    ensures r.Some? ==> |r.value| <= MAX_DESCRIPTION
    ensures r.Some? && r.value != [] ==> !IsSpace(r.value[0])
    ensures r.Some? ==> SingleSpaced(r.value) && TagFree(r.value)
    ensures r.Some? ==> r.value == Prefix(Trim(Collapse(StripTags(text.value))), MAX_DESCRIPTION)
  {
    if !Truthy(text) then None
    else
      var stripped := StripTags(text.value);
      var collapsed := Collapse(stripped);
      var trimmed := Trim(collapsed);
      var cut := Prefix(trimmed, MAX_DESCRIPTION);
      StripTagsTagFree(text.value);
      CollapseFacts(stripped);
      var start := TrimStart(collapsed);
      TagFreeSlice(collapsed, |collapsed| - |start|, |collapsed|);
      SingleSpacedSlice(collapsed, |collapsed| - |start|, |collapsed|);
      TagFreeSlice(start, 0, |trimmed|);
      SingleSpacedSlice(start, 0, |trimmed|);
      TagFreeSlice(trimmed, 0, |cut|);
      SingleSpacedSlice(trimmed, 0, |cut|);
      Some(cut)
  }

  /** A tag-free text comes out of `StripTags` unchanged. */
  lemma {:induction false} StripTagsKeepsTagFree(s: string)
    requires TagFree(s)
    ensures StripTags(s) == s
    decreases |s|
  {
    if s != [] {
      assert !TagAt(s, 0);
      TagFreeSlice(s, 1, |s|);
      StripTagsKeepsTagFree(s[1..]);
    }
  }

  /** Single spaces only: every white-space character is a space, and no two are adjacent. */
  predicate PlainSpaced(s: string) {
    SingleSpaced(s) && forall i :: 0 <= i < |s| && IsSpace(s[i]) ==> s[i] == ' '
  }

  /** A plainly spaced text comes out of `Collapse` unchanged. */
  lemma {:induction false} CollapseKeepsPlain(s: string)
    requires PlainSpaced(s)
    ensures Collapse(s) == s
    decreases |s|
  {
    if s != [] {
      SingleSpacedSlice(s, 1, |s|);
      assert PlainSpaced(s[1..]) by {
        forall i | 0 <= i < |s| - 1 && IsSpace(s[1..][i]) ensures s[1..][i] == ' ' {
          assert s[1..][i] == s[i + 1];
        }
      }
      CollapseKeepsPlain(s[1..]);
      if IsSpace(s[0]) {
        assert RunEnd(s, 0, NotSpace) == 1 by {
          assert |s| > 1 ==> !IsSpace(s[1]);
        }
      }
      assert s == [s[0]] + s[1..];
    }
  }

  /** A description that is already clean, and short enough, is kept as it is. */
  lemma CleanKeepsCleanText(s: string)
    requires s != [] && |s| <= MAX_DESCRIPTION
    requires TagFree(s) && PlainSpaced(s)
    requires !IsSpace(s[0]) && !IsSpace(s[|s| - 1])
    ensures CleanDescription(Some(s)) == Some(s)
  {
    StripTagsKeepsTagFree(s);
    CollapseKeepsPlain(s);
    assert RunEnd(s, 0, NotSpace) == 0;
    assert TrimStart(s) == s;
    assert Trim(s) == s;
  }

  // ---------------------------------------------------------------------------
  // `content.match(/<img[^>]+src=["']([^"']+)["']/)?.[1]`, and with `quote` the double
  // quote alone, `/<img[^>]+src="([^"]+)"/` of scripts/ingest.ts

  /** `src=`, a quote, a non-empty run of non-quotes and a quote at `k`: the run. */
  function SrcAt(s: string, k: nat, quote: char -> bool): (r: Option<string>)
    ensures r.Some? ==> StartsAt(s, "src=", k) && k + 5 < |s| && quote(s[k + 4])
    ensures r.Some? ==> k + 5 + |r.value| < |s| && quote(s[k + 5 + |r.value|])
    ensures r.Some? ==> r.value != [] && r.value == s[k + 5..k + 5 + |r.value|]
    ensures r.Some? ==> forall c :: c in r.value ==> !quote(c)
  {
    if StartsAt(s, "src=", k) && k + 4 < |s| && quote(s[k + 4]) then
      var g := RunEnd(s, k + 5, quote);
      if k + 5 < g < |s| then Some(s[k + 5..g]) else None
    else None
  }

  /**
   * The match starting at `i`: `<img`, then the greedy `[^>]+`, which backtracks to the
   * right-most `src=` before the next `>` that completes the pattern.
   */
  function ImgAt(s: string, i: nat, quote: char -> bool): (r: Option<string>)
    ensures r.Some? ==> StartsAt(s, "<img", i)
    ensures r.Some? ==> exists k :: i + 5 <= k && SrcAt(s, k, quote) == r
  {
    if StartsAt(s, "<img", i) then
      var e := RunEnd(s, i + 4, IsGt);
      var k := Rightmost(k => SrcAt(s, k, quote), i + 5, e + 1);
      if k == -1 then None else SrcAt(s, k, quote)
    else None
  }

  /** The left-most index at which the pattern matches, or -1. */
  function ImageStart(s: string, quote: char -> bool): (i: int)
    ensures i == -1 || (0 <= i <= |s| && ImgAt(s, i, quote).Some?)
    ensures forall j :: 0 <= j <= |s| && (i == -1 || j < i) ==> ImgAt(s, j, quote).None?
  {
    var f: nat -> Option<string> := (j: nat) => ImgAt(s, j, quote);
    var i := Leftmost(f, 0, |s|);
    assert forall j :: 0 <= j <= |s| && (i == -1 || j < i) ==> f(j) == ImgAt(s, j, quote) && f(j).None?;
    i
  }

  /**
   * `extractImageFromContent(content)`: nothing for missing or empty content; otherwise
   * the quoted `src` of the left-most `<img` tag that has one, which is non-empty and holds
   * no quote, or nothing when no tag matches.
   */
  function ExtractImage(content: Option<string>, quote: char -> bool): (r: Option<string>)
    ensures !Truthy(content) ==> r.None?
    ensures r.Some? ==> r.value != [] && forall c :: c in r.value ==> !quote(c)
    ensures r.Some? ==> ImageStart(content.value, quote) >= 0 && r == ImgAt(content.value, ImageStart(content.value, quote), quote)
    ensures r.None? && Truthy(content) ==> forall j :: 0 <= j <= |content.value| ==> ImgAt(content.value, j, quote).None?
  {
    if !Truthy(content) then None
    else
      var i := ImageStart(content.value, quote);
      if i == -1 then None else ImgAt(content.value, i, quote)
  }

  // ---------------------------------------------------------------------------
  // `fetchFeed` and `main`

  datatype FeedConfig = FeedConfig(
    url: string, source: string, kind: ActivityType, platform: Option<Platform>, tags: Option<seq<string>>)

  /** The fields of a parsed RSS item that the mapping reads; `pubDate` already converted to milliseconds. */
  datatype FeedItem = FeedItem(
    title: Option<string>, contentSnippet: Option<string>, content: Option<string>,
    link: Option<string>, pubDate: Option<int>, enclosureUrl: Option<string>)

  /** `a || b` on two optional strings. */
  function Either(a: Option<string>, b: Option<string>): Option<string> {
    if Truthy(a) then a else b
  }

  /** The activity built from one item; `id` is the fresh random id, `now` the clock. */
  function ToActivity(config: FeedConfig, item: FeedItem, id: string, now: int): (a: Activity)
    ensures a.kind == config.kind && a.source == config.source && a.tags == config.tags
    ensures a.url == Some(OrElse(item.link, ""))
    ensures a.platform == config.platform
    ensures a.description == CleanDescription(Either(item.contentSnippet, item.content))
    ensures a.title == OrElse(item.title, "Untitled")
    ensures a.imageUrl == Either(item.enclosureUrl, ExtractImage(item.content, IsQuote))
    ensures a.addedAt == (if item.pubDate.Some? then item.pubDate.value else now)
    ensures a.id == id && a.tidalUrl.None? && a.embedId.None?
  {
    Activity(
      id, config.kind, OrElse(item.title, "Untitled"),
      CleanDescription(Either(item.contentSnippet, item.content)),
      Either(item.enclosureUrl, ExtractImage(item.content, IsQuote)),
      config.source, config.tags,
      if item.pubDate.Some? then item.pubDate.value else now,
      Some(OrElse(item.link, "")), None, config.platform, None)
  }

  /** `items.map(...)`, where `ids(k)` is the id generated for the k-th item. */
  function MapItems(config: FeedConfig, items: seq<FeedItem>, ids: nat -> string, now: int): (r: seq<Activity>)
    ensures |r| == |items|
    ensures forall k :: 0 <= k < |items| ==> r[k] == ToActivity(config, items[k], ids(k), now)
  {
    seq(|items|, k requires 0 <= k < |items| => ToActivity(config, items[k], ids(k), now))
  }

  predicate HasUrl(a: Activity) {
    Truthy(a.url)
  }

  /** `.filter(a => a.url)`: the items with a non-empty url, in order. */
  function KeepWithUrl(s: seq<Activity>): (r: seq<Activity>)
    ensures |r| <= |s|
    ensures forall a :: a in r ==> a in s && HasUrl(a)
    ensures forall a :: a in s && HasUrl(a) ==> a in r
  {
    if s == [] then []
    else (if HasUrl(s[0]) then [s[0]] else []) + KeepWithUrl(s[1..])
  }

  /** The filter keeps every item with a url exactly as often as it occurs, and no other. */
  lemma {:induction false} KeepWithUrlMultiplicity(s: seq<Activity>)
    ensures forall a :: multiset(KeepWithUrl(s))[a] == if HasUrl(a) then multiset(s)[a] else 0
    decreases |s|
  {
    if s != [] {
      assert s == [s[0]] + s[1..];
      KeepWithUrlMultiplicity(s[1..]);
    }
  }

  /** The filter keeps the order: filtering a concatenation concatenates the filtered parts. */
  lemma {:induction false} KeepWithUrlAppend(s: seq<Activity>, t: seq<Activity>)
    ensures KeepWithUrl(s + t) == KeepWithUrl(s) + KeepWithUrl(t)
    decreases |s|
  {
    if s == [] {
      assert s + t == t;
    } else {
      var head := if HasUrl(s[0]) then [s[0]] else [];
      assert (s + t)[0] == s[0] && (s + t)[1..] == s[1..] + t;
      assert KeepWithUrl(s + t) == head + KeepWithUrl(s[1..] + t);
      KeepWithUrlAppend(s[1..], t);
      assert KeepWithUrl(s) == head + KeepWithUrl(s[1..]);
    }
  }

  /**
   * `fetchFeed(config)` given what the parser returned (`None` when fetching or parsing
   * failed): at most the first 50 items, mapped, those without a link dropped.
   */
  function FetchFeed(config: FeedConfig, parsed: Option<seq<FeedItem>>, ids: nat -> string, now: int): (r: seq<Activity>)
    ensures parsed.None? ==> r == []
    ensures |r| <= MAX_FEED_ITEMS
    ensures forall a :: a in r ==> HasUrl(a) && a.kind == config.kind && a.source == config.source
    ensures parsed.Some? ==>
      forall a :: a in r <==> exists k :: 0 <= k < |parsed.value| && k < MAX_FEED_ITEMS
                                          && a == ToActivity(config, parsed.value[k], ids(k), now) && HasUrl(a)
  {
    match parsed
    case None => []
    case Some(items) =>
      var first := if |items| <= MAX_FEED_ITEMS then items else items[..MAX_FEED_ITEMS];
      KeepWithUrl(MapItems(config, first, ids, now))
  }

  function Urls(s: seq<Activity>): set<Option<string>> {
    set a | a in s :: a.url
  }

  /** The specification of `dedupeByUrl`: an item is kept when no earlier item has its url. */
  function Dedupe(s: seq<Activity>): (r: seq<Activity>)
    decreases |s|
  {
    if s == [] then []
    else
      var init := s[..|s| - 1];
      var last := s[|s| - 1];
      if last.url in Urls(init) then Dedupe(init) else Dedupe(init) + [last]
  }

  predicate DistinctUrls(s: seq<Activity>) {
    forall i, j :: 0 <= i < j < |s| ==> s[i].url != s[j].url
  }

  lemma UrlsSnoc(s: seq<Activity>, a: Activity)
    ensures Urls(s + [a]) == Urls(s) + {a.url}
  {
    assert forall x :: x in s + [a] <==> x in s || x == a;
  }

  /** The result keeps exactly the urls of the input, each once, taking items from the input. */
  lemma {:induction false} DedupeFacts(s: seq<Activity>)
    ensures Urls(Dedupe(s)) == Urls(s)
    ensures DistinctUrls(Dedupe(s))
    ensures multiset(Dedupe(s)) <= multiset(s)
    decreases |s|
  {
    if s != [] {
      var init := s[..|s| - 1];
      var last := s[|s| - 1];
      assert s == init + [last];
      DedupeFacts(init);
      UrlsSnoc(init, last);
      if last.url !in Urls(init) {
        UrlsSnoc(Dedupe(init), last);
        var d := Dedupe(init) + [last];
        forall i, j | 0 <= i < j < |d| ensures d[i].url != d[j].url {
          if j == |d| - 1 {
            assert d[i] in Dedupe(init);
          }
        }
      }
    }
  }

  /** On a list whose urls are already distinct nothing is removed. */
  lemma {:induction false} DedupeDistinct(s: seq<Activity>)
    requires DistinctUrls(s)
    ensures Dedupe(s) == s
    decreases |s|
  {
    if s != [] {
      var init := s[..|s| - 1];
      var last := s[|s| - 1];
      assert s == init + [last];
      DedupeDistinct(init);
      assert last.url !in Urls(init);
    }
  }

  /** `dedupeByUrl` is idempotent. */
  lemma DedupeIdempotent(s: seq<Activity>)
    ensures Dedupe(Dedupe(s)) == Dedupe(s)
  {
    DedupeFacts(s);
    DedupeDistinct(Dedupe(s));
  }

  /** `dedupeByUrl(activities)`: the filter with its `seen` set. */
  method DedupeByUrl(activities: seq<Activity>) returns (r: seq<Activity>)
    ensures r == Dedupe(activities)
  {
    var seen: set<Option<string>> := {};
    r := [];
    var i := 0;
    while i < |activities|
      invariant 0 <= i <= |activities|
      invariant seen == Urls(activities[..i])
      invariant r == Dedupe(activities[..i])
    {
      var a := activities[i];
      assert activities[..i + 1] == activities[..i] + [a];
      assert activities[..i + 1][..i] == activities[..i];
      UrlsSnoc(activities[..i], a);
      if a.url !in seen {
        seen := seen + {a.url};
        r := r + [a];
      }
      i := i + 1;
    }
    assert activities[..i] == activities;
  }

  /** The concatenation of the per-feed results (`results.flat()`). */
  function Flatten(results: seq<seq<Activity>>): (r: seq<Activity>)
    ensures forall k :: 0 <= k < |results| ==> multiset(results[k]) <= multiset(r)
  {
    if results == [] then []
    else
      var r := Flatten(results[..|results| - 1]) + results[|results| - 1];
      assert forall k :: 0 <= k < |results| - 1 ==> results[..|results| - 1][k] == results[k];
      r
  }

  /** `main` without the file write: the de-duplicated pool, split into articles and videos. */
  function Scrape(results: seq<seq<Activity>>): (pools: (seq<Activity>, seq<Activity>)) {
    var deduped := Dedupe(Flatten(results));
    (OfKind(deduped, Article), OfKind(deduped, Video))
  }

  /**
   * When every feed is an article or a video feed, the two lists partition the
   * de-duplicated pool: together they hold each of its items exactly once.
   */
  lemma ScrapePartition(results: seq<seq<Activity>>)
    requires forall a :: a in Flatten(results) ==> a.kind == Article || a.kind == Video
    ensures multiset(Scrape(results).0 + Scrape(results).1) == multiset(Dedupe(Flatten(results)))
  {
    var d := Dedupe(Flatten(results));
    DedupeFacts(Flatten(results));
    forall x ensures multiset(OfKind(d, Article) + OfKind(d, Video))[x] == multiset(d)[x] {
      OfKindMultiplicity(d, Article, x);
      OfKindMultiplicity(d, Video, x);
      if x in multiset(d) {
        assert x in Flatten(results);
      }
    }
  }
}
