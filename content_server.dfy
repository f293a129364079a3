/**
 * The content server, scripts/content-server.ts: link classification, YouTube id
 * extraction, the activity built by `POST /api/add` and the list edits of the add and
 * delete routes. The URL parser's hostname and the page title fetch are parameters.
 */
module ContentServer {
  import opened Wrappers
  import opened Text
  import opened Activities
  import ScrapeRss

  /** What `detectLinkType` returns. */
  datatype Detected = Detected(kind: ActivityType, source: string, platform: Option<Platform>, embedId: Option<string>)

  const WATCH_PREFIX: string := "youtube.com/watch?v="
  const SHORT_PREFIX: string := "youtu.be/"
  const EMBED_PREFIX: string := "youtube.com/embed/"

  predicate StopsWatchId(c: char) { c == '&' || IsSpace(c) }
  predicate StopsEmbedId(c: char) { c == '?' || IsSpace(c) }

  /** The non-empty run after `j` up to the first `stop` character, if there is one. */
  function IdRun(s: string, j: nat, stop: char -> bool): (r: Option<string>)
    requires j <= |s|
    ensures r.Some? ==> r.value != [] && j + |r.value| <= |s| && r.value == s[j..j + |r.value|]
    ensures r.Some? ==> forall c :: c in r.value ==> !stop(c)
    ensures r.None? <==> j == |s| || stop(s[j])
  {
    var e := RunEnd(s, j, stop);
    if e > j then Some(s[j..e]) else None
  }

  /** `(?:youtube\.com\/watch\?v=|youtu\.be\/)([^&\s]+)` at index `i`. */
  function WatchIdAt(s: string, i: nat): Option<string> {
    if StartsAt(s, WATCH_PREFIX, i) then IdRun(s, i + |WATCH_PREFIX|, StopsWatchId)
    else if StartsAt(s, SHORT_PREFIX, i) then IdRun(s, i + |SHORT_PREFIX|, StopsWatchId)
    else None
  }

  /** `youtube\.com\/embed\/([^?\s]+)` at index `i`. */
  function EmbedIdAt(s: string, i: nat): Option<string> {
    if StartsAt(s, EMBED_PREFIX, i) then IdRun(s, i + |EMBED_PREFIX|, StopsEmbedId) else None
  }

  /**
   * The index at which `String.prototype.match` finds `at` in `s`: the least index that
   * matches, or -1 when none does.
   */
  function MatchStart(s: string, at: (string, nat) -> Option<string>): (i: int)
    ensures i == -1 || (0 <= i <= |s| && at(s, i).Some?)
    ensures forall j :: 0 <= j <= |s| && (i == -1 || j < i) ==> at(s, j).None?
  {
    var f: nat -> Option<string> := (k: nat) => at(s, k);
    var i := Leftmost(f, 0, |s|);
    assert forall j :: 0 <= j <= |s| && (i == -1 || j < i) ==> f(j) == at(s, j) && f(j).None?;
    i
  }

  /** The capture of the left-most match of `at` in `s`. */
  function FirstMatch(s: string, at: (string, nat) -> Option<string>): (r: Option<string>)
    ensures var i := MatchStart(s, at); r == if i == -1 then None else at(s, i)
  {
    var i := MatchStart(s, at);
    if i == -1 then None else at(s, i)
  }

  /**
   * `extractYouTubeId(url)`: the id after the left-most `watch?v=` or `youtu.be/` that is
   * followed by an id (up to `&` or white space), failing that the id after the left-most
   * such `embed/` (up to `?` or white space). Case-sensitive.
   */
  function ExtractYouTubeId(url: string): (r: Option<string>)
    ensures var w := MatchStart(url, WatchIdAt);
      w >= 0 ==> r == WatchIdAt(url, w)
    ensures var w, e := MatchStart(url, WatchIdAt), MatchStart(url, EmbedIdAt);
      w == -1 ==> r == if e == -1 then None else EmbedIdAt(url, e)
    ensures r.Some? ==> r.value != [] && forall c :: c in r.value ==> !IsSpace(c)
    ensures (exists i :: 0 <= i <= |url| && WatchIdAt(url, i).Some?) ==>
      r.Some? && forall c :: c in r.value ==> c != '&'
    ensures r.None? <==>
      (forall i :: 0 <= i <= |url| ==> WatchIdAt(url, i).None?)
      && (forall i :: 0 <= i <= |url| ==> EmbedIdAt(url, i).None?)
  {
    var watch := FirstMatch(url, WatchIdAt);
    if watch.Some? then watch else FirstMatch(url, EmbedIdAt)
  }

  /** The id is read from the url itself: for a watch link, the run after the prefix. */
  lemma WatchIdIsRun(url: string)
    requires var w := MatchStart(url, WatchIdAt); w >= 0 && StartsAt(url, WATCH_PREFIX, w)
    ensures var w := MatchStart(url, WatchIdAt); var r := ExtractYouTubeId(url);
      r.Some? && r.value == url[w + |WATCH_PREFIX|..w + |WATCH_PREFIX| + |r.value|]
      && (w + |WATCH_PREFIX| + |r.value| == |url| || StopsWatchId(url[w + |WATCH_PREFIX| + |r.value|]))
  {
    var w := MatchStart(url, WatchIdAt);
    var j := w + |WATCH_PREFIX|;
    var r := IdRun(url, j, StopsWatchId);
    assert WatchIdAt(url, w) == r;
    assert r.value == url[j..RunEnd(url, j, StopsWatchId)];
  }

  /** A short link's id stops at the first `&`. */
  lemma ShortLinkExample()
    ensures ExtractYouTubeId("youtu.be/ab&c") == Some("ab")
  {
    var s := "youtu.be/ab&c";
    assert !StartsAt(s, WATCH_PREFIX, 0) && StartsAt(s, SHORT_PREFIX, 0);
    assert RunEnd(s, 11, StopsWatchId) == 11;
    assert RunEnd(s, 9, StopsWatchId) == 11;
    assert s[9..11] == "ab";
    assert IdRun(s, 9, StopsWatchId) == Some("ab");
    assert WatchIdAt(s, 0) == Some("ab");
  }

  /** The article sites listed by name, in rule order. */
  const ARTICLE_SITES: seq<(string, string)> := [
    ("theparisreview.org", "Paris Review"), ("nybooks.com", "NYRB"), ("thecity.nyc", "THE CITY"),
    ("404media.co", "404 Media"), ("aftermath.site", "Aftermath"), ("hellgatenyc.com", "Hell Gate")]

  /** The first listed article site the lower-cased url mentions, from rule `k` on. */
  function ArticleSite(lower: string, k: nat): (r: Option<string>)
    decreases |ARTICLE_SITES| - k
    ensures r.Some? ==> exists m :: k <= m < |ARTICLE_SITES| && Contains(lower, ARTICLE_SITES[m].0)
                                  && r.value == ARTICLE_SITES[m].1
                                  && forall m' :: k <= m' < m ==> !Contains(lower, ARTICLE_SITES[m'].0)
    ensures r.None? <==> forall m :: k <= m < |ARTICLE_SITES| ==> !Contains(lower, ARTICLE_SITES[m].0)
  {
    if k >= |ARTICLE_SITES| then None
    else if Contains(lower, ARTICLE_SITES[k].0) then Some(ARTICLE_SITES[k].1)
    else ArticleSite(lower, k + 1)
  }

  /** A url that mentions two listed sites gets the source of the earlier rule. */
  lemma FirstSiteWins()
    ensures ArticleSite("theparisreview.org/nybooks.com", 0) == Some("Paris Review")
  {
    assert StartsAt("theparisreview.org/nybooks.com", "theparisreview.org", 0);
  }

  predicate IsTidalLink(lower: string) { Contains(lower, "tidal.com") }
  predicate IsNebulaLink(lower: string) { Contains(lower, "nebula.tv") || Contains(lower, "watchnebula.com") }
  predicate IsYouTubeLink(lower: string) { Contains(lower, "youtube.com") || Contains(lower, "youtu.be") }

  /**
   * `detectLinkType(url)`. `hostname` is `new URL(url).hostname`, `None` when the
   * constructor throws. Rules apply in order: Tidal, Nebula, YouTube, the listed article
   * sites, then the host name without its first `www.`.
   */
  function DetectLinkType(url: string, hostname: Option<string>): (d: Detected)
    ensures d.kind == Tidal <==> IsTidalLink(Lower(url))
    ensures d.kind == Video <==> !IsTidalLink(Lower(url)) && (IsNebulaLink(Lower(url)) || IsYouTubeLink(Lower(url)))
    ensures d.kind == Tidal || d.kind == Video || d.kind == Article
    ensures d.platform == Some(YouTube) <==>
      !IsTidalLink(Lower(url)) && !IsNebulaLink(Lower(url)) && IsYouTubeLink(Lower(url))
    ensures d.platform == Some(YouTube) ==> d.source == "YouTube" && d.embedId == ExtractYouTubeId(url)
    ensures d.platform != Some(YouTube) ==> d.embedId.None?
    ensures d.kind == Tidal ==> d.source == "Tidal" && d.platform.None?
    ensures d.platform == Some(Nebula) <==> !IsTidalLink(Lower(url)) && IsNebulaLink(Lower(url))
    ensures d.platform == Some(Nebula) ==> d.source == "Nebula"
    ensures d.kind == Article ==> d.platform.None?
    ensures d.kind == Article && ArticleSite(Lower(url), 0).Some? ==> d.source == ArticleSite(Lower(url), 0).value
    ensures d.kind == Article && ArticleSite(Lower(url), 0).None? ==>
      d.source == if hostname.Some? then ReplaceFirst(hostname.value, "www.", "") else "Unknown"
  {
    var lower := Lower(url);
    if IsTidalLink(lower) then Detected(Tidal, "Tidal", None, None)
    else if IsNebulaLink(lower) then Detected(Video, "Nebula", Some(Nebula), None)
    else if IsYouTubeLink(lower) then Detected(Video, "YouTube", Some(YouTube), ExtractYouTubeId(url))
    else match ArticleSite(lower, 0)
      case Some(source) => Detected(Article, source, None, None)
      case None =>
        match hostname
        case Some(host) => Detected(Article, ReplaceFirst(host, "www.", ""), None, None)
        case None => Detected(Article, "Unknown", None, None)
  }

  /** Classification ignores letter case, except for the YouTube id, which is read from the url as given. */
  lemma DetectIgnoresCase(u: string, v: string, hostname: Option<string>)
    requires Lower(u) == Lower(v)
    ensures DetectLinkType(u, hostname).kind == DetectLinkType(v, hostname).kind
    ensures DetectLinkType(u, hostname).source == DetectLinkType(v, hostname).source
    ensures DetectLinkType(u, hostname).platform == DetectLinkType(v, hostname).platform
  {
  }

  /** The form fields of `POST /api/add`. */
  datatype AddRequest = AddRequest(url: Option<string>, title: Option<string>, description: Option<string>, tags: Option<seq<string>>)

  /**
   * The activity the add route builds, `None` for a missing url. `pageTitle` is what
   * `fetchPageTitle` returned, `id` the generated id and `now` the clock.
   */
  function BuildActivity(req: AddRequest, hostname: Option<string>, pageTitle: Option<string>, id: string, now: int): (r: Option<Activity>)
    ensures r.None? <==> !Truthy(req.url)
    ensures r.Some? ==> r.value.kind == DetectLinkType(req.url.value, hostname).kind
    ensures r.Some? ==> r.value.source == DetectLinkType(req.url.value, hostname).source
    ensures r.Some? ==> r.value.id == id && r.value.addedAt == now && r.value.imageUrl.None?
    ensures r.Some? ==> r.value.platform == if r.value.kind == Video then DetectLinkType(req.url.value, hostname).platform else None
    ensures r.Some? ==> r.value.embedId == (if r.value.kind == Video && Truthy(DetectLinkType(req.url.value, hostname).embedId)
                                            then DetectLinkType(req.url.value, hostname).embedId else None)
    ensures r.Some? ==> r.value.title == OrElse(ScrapeRss.Either(req.title, pageTitle), "Untitled")
    ensures r.Some? && r.value.kind == Tidal ==> r.value.tidalUrl == req.url && r.value.url.None?
    ensures r.Some? && r.value.kind != Tidal ==> r.value.url == req.url && r.value.tidalUrl.None?
    ensures r.Some? ==> (r.value.description.Some? <==> Truthy(req.description))
    ensures r.Some? && r.value.description.Some? ==> r.value.description == req.description
    ensures r.Some? ==> (r.value.tags.Some? <==> req.tags.Some? && req.tags.value != [])
    ensures r.Some? && r.value.tags.Some? ==> r.value.tags == req.tags
  {
    if !Truthy(req.url) then None
    else
      var url := req.url.value;
      var detected := DetectLinkType(url, hostname);
      var base := Basic(id, detected.kind, OrElse(ScrapeRss.Either(req.title, pageTitle), "Untitled"), detected.source, now);
      var described := if Truthy(req.description) then base.(description := req.description) else base;
      var tagged := if req.tags.Some? && req.tags.value != [] then described.(tags := req.tags) else described;
      Some(
        if detected.kind == Tidal then tagged.(tidalUrl := Some(url))
        else if detected.kind == Video then
          var withUrl := tagged.(url := Some(url), platform := detected.platform);
          if Truthy(detected.embedId) then withUrl.(embedId := detected.embedId) else withUrl
        else tagged.(url := Some(url)))
  }

  /** `findIndex(a => a.id === id)`: the first index holding that id, or -1. */
  function FindIndex(s: seq<Activity>, id: string): (r: int)
    ensures -1 <= r < |s|
    ensures r >= 0 ==> s[r].id == id
    ensures forall k :: 0 <= k < |s| && (r == -1 || k < r) ==> s[k].id != id
  {
    if s == [] then -1
    else if s[0].id == id then 0
    else
      var r := FindIndex(s[1..], id);
      if r == -1 then -1 else r + 1
  }

  /** The number of entries with the given id. */
  function CountId(s: seq<Activity>, id: string): nat {
    if s == [] then 0 else (if s[0].id == id then 1 else 0) + CountId(s[1..], id)
  }

  lemma {:induction false} CountIdAppend(a: seq<Activity>, b: seq<Activity>, id: string)
    ensures CountId(a + b, id) == CountId(a, id) + CountId(b, id)
  {
    if a == [] {
      assert a + b == b;
    } else {
      assert (a + b)[1..] == a[1..] + b;
      CountIdAppend(a[1..], b, id);
    }
  }

  /** `splice(idx, 1)` */
  function RemoveAt(s: seq<Activity>, idx: nat): seq<Activity>
    requires idx < |s|
  {
    s[..idx] + s[idx + 1..]
  }

  /**
   * Deleting removes exactly one entry with the id, the first, keeps the rest in order
   * and leaves every other id's count as it was.
   */
  lemma RemoveFirstId(s: seq<Activity>, id: string)
    requires FindIndex(s, id) >= 0
    ensures CountId(RemoveAt(s, FindIndex(s, id)), id) + 1 == CountId(s, id)
    ensures forall other :: other != id ==> CountId(RemoveAt(s, FindIndex(s, id)), other) == CountId(s, other)
    ensures multiset(RemoveAt(s, FindIndex(s, id))) + multiset{s[FindIndex(s, id)]} == multiset(s)
  {
    var idx := FindIndex(s, id);
    assert s == s[..idx] + [s[idx]] + s[idx + 1..];
    CountIdAppend(s[..idx], s[idx + 1..], id);
    CountIdAppend(s[..idx] + [s[idx]], s[idx + 1..], id);
    CountIdAppend(s[..idx], [s[idx]], id);
    forall other | other != id
      ensures CountId(RemoveAt(s, idx), other) == CountId(s, other)
    {
      CountIdAppend(s[..idx], s[idx + 1..], other);
      CountIdAppend(s[..idx] + [s[idx]], s[idx + 1..], other);
      CountIdAppend(s[..idx], [s[idx]], other);
    }
  }

  /** The activities file the routes load, edit and save. */
  class ActivityFile {
    var activities: seq<Activity>

    /** `loadActivities()`: a missing or unreadable file is an empty list. */
    constructor (parsed: Option<seq<Activity>>)
      ensures activities == parsed.GetOr([])
    {
      activities := parsed.GetOr([]);
    }

    /** `POST /api/add`: without a url nothing changes; otherwise the new activity goes first. */
    method Add(req: AddRequest, hostname: Option<string>, pageTitle: Option<string>, id: string, now: int)
      returns (added: Option<Activity>)
      modifies this
      ensures added == BuildActivity(req, hostname, pageTitle, id, now)
      ensures added.None? ==> activities == old(activities)
      ensures added.Some? ==> activities == [added.value] + old(activities)
    {
      added := BuildActivity(req, hostname, pageTitle, id, now);
      if added.Some? {
        activities := [added.value] + activities;
      }
    }

    /** `DELETE /api/activities/:id`: removes the first entry with the id; an unknown id changes nothing. */
    method Delete(id: string) returns (success: bool)
      modifies this
      ensures success <==> FindIndex(old(activities), id) >= 0
      ensures success ==> activities == RemoveAt(old(activities), FindIndex(old(activities), id))
      ensures !success ==> activities == old(activities)
    {
      var idx := FindIndex(activities, id);
      if idx == -1 {
        return false;
      }
      activities := activities[..idx] + activities[idx + 1..];
      success := true;
    }
  }
}
