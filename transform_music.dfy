/**
 * scripts/transform-music.ts: the music library's favorited tracks flattened into Tidal
 * activities, and the per-artist track counts with the top five artists.
 */
module TransformMusic {
  import opened Wrappers
  import opened Decimal
  import opened Activities

  /** A favorited track; `addedAt` is `new Date(track.added).getTime()`, parsed outside the model. */
  datatype FavoritedTrack = FavoritedTrack(title: string, trackId: nat, addedAt: int)

  datatype Release = Release(
    id: string, title: string, artist: string, coverUrl: string, releaseType: string,
    favoritedTracks: Option<seq<FavoritedTrack>>, popularity: int, explicit: bool)

  datatype TidalActivity = TidalActivity(
    id: string, kind: ActivityType, title: string, artist: string, albumTitle: string,
    tidalUrl: string, albumArt: string, source: string, addedAt: int, popularity: int, explicit: bool)

  const ID_PREFIX: string := "tidal-"
  const TRACK_URL: string := "https://tidal.com/browse/track/"

  /** The activity pushed for one track of one release. */
  function ToTrackActivity(r: Release, t: FavoritedTrack): TidalActivity {
    TidalActivity(
      ID_PREFIX + NatToString(t.trackId), Tidal, t.title, r.artist, r.title,
      TRACK_URL + NatToString(t.trackId), r.coverUrl, "Tidal", t.addedAt, r.popularity, r.explicit)
  }

  /** The favorited tracks of a release; a missing list is empty. */
  function Tracks(r: Release): seq<FavoritedTrack> {
    r.favoritedTracks.GetOr([])
  }

  /** The activities of one release, in track order. */
  function ReleaseActivities(r: Release): (s: seq<TidalActivity>)
    ensures |s| == |Tracks(r)|
    ensures forall k :: 0 <= k < |s| ==> s[k] == ToTrackActivity(r, Tracks(r)[k])
  {
    seq(|Tracks(r)|, k requires 0 <= k < |Tracks(r)| => ToTrackActivity(r, Tracks(r)[k]))
  }

  /** Release order, then track order within a release. */
  function Flattened(rs: seq<Release>): seq<TidalActivity>
    decreases |rs|
  {
    if rs == [] then [] else Flattened(rs[..|rs| - 1]) + ReleaseActivities(rs[|rs| - 1])
  }

  /** The number of favorited tracks in the library. */
  function TrackCount(rs: seq<Release>): nat
    decreases |rs|
  {
    if rs == [] then 0 else TrackCount(rs[..|rs| - 1]) + |Tracks(rs[|rs| - 1])|
  }

  /** One activity per favorited track; a release without tracks contributes nothing. */
  lemma {:induction false} FlattenedLength(rs: seq<Release>)
    ensures |Flattened(rs)| == TrackCount(rs)
    decreases |rs|
  {
    if rs != [] {
      FlattenedLength(rs[..|rs| - 1]);
    }
  }

  /** Flattening distributes over concatenation: the library's order is kept. */
  lemma {:induction false} FlattenedAppend(a: seq<Release>, b: seq<Release>)
    ensures Flattened(a + b) == Flattened(a) + Flattened(b)
    decreases |b|
  {
    if b == [] {
      assert a + b == a;
    } else {
      var init, last := b[..|b| - 1], b[|b| - 1];
      var ab := a + b;
      assert ab[..|ab| - 1] == a + init && ab[|ab| - 1] == last;
      FlattenedAppend(a, init);
      calc {
        Flattened(ab);
        Flattened(a + init) + ReleaseActivities(last);
        Flattened(a) + Flattened(init) + ReleaseActivities(last);
        Flattened(a) + (Flattened(init) + ReleaseActivities(last));
      }
    }
  }

  /** Every activity is the Tidal activity of one favorited track of one release. */
  lemma {:induction false} FlattenedOrigin(rs: seq<Release>)
    ensures forall x :: x in Flattened(rs) ==>
      x.kind == Tidal && x.source == "Tidal" &&
      exists i, k :: 0 <= i < |rs| && 0 <= k < |Tracks(rs[i])| && x == ToTrackActivity(rs[i], Tracks(rs[i])[k])
    decreases |rs|
  {
    if rs != [] {
      var init := rs[..|rs| - 1];
      FlattenedOrigin(init);
      forall x | x in Flattened(rs)
        ensures exists i, k :: 0 <= i < |rs| && 0 <= k < |Tracks(rs[i])| && x == ToTrackActivity(rs[i], Tracks(rs[i])[k])
      {
        if x in Flattened(init) {
          var i, k :| 0 <= i < |init| && 0 <= k < |Tracks(init[i])| && x == ToTrackActivity(init[i], Tracks(init[i])[k]);
          assert rs[i] == init[i];
        } else {
          var s := ReleaseActivities(rs[|rs| - 1]);
          var k :| 0 <= k < |s| && s[k] == x;
          assert x == ToTrackActivity(rs[|rs| - 1], Tracks(rs[|rs| - 1])[k]);
        }
      }
    }
  }

  /** The id names the track: it reads back as the track id, so two activities share an id only if they share a track id. */
  lemma TrackIdentity(r1: Release, t1: FavoritedTrack, r2: Release, t2: FavoritedTrack)
    ensures ParseNat(ToTrackActivity(r1, t1).id[|ID_PREFIX|..]) == Some(t1.trackId)
    ensures ParseNat(ToTrackActivity(r1, t1).tidalUrl[|TRACK_URL|..]) == Some(t1.trackId)
    ensures ToTrackActivity(r1, t1).id == ToTrackActivity(r2, t2).id <==> t1.trackId == t2.trackId
  {
    var a := ToTrackActivity(r1, t1);
    assert a.id[|ID_PREFIX|..] == NatToString(t1.trackId);
    assert a.tidalUrl[|TRACK_URL|..] == NatToString(t1.trackId);
    ParseNatToString(t1.trackId);
    if a.id == ToTrackActivity(r2, t2).id {
      PrefixedInjective(ID_PREFIX, t1.trackId, t2.trackId);
    }
  }

  /** `transformMusic(library)`: nested loops pushing one activity per favorited track. */
  method Transform(releases: seq<Release>) returns (activities: seq<TidalActivity>)
    ensures activities == Flattened(releases)
  {
    activities := [];
    for i := 0 to |releases|
      invariant activities == Flattened(releases[..i])
    {
      var release := releases[i];
      assert releases[..i + 1][..i] == releases[..i];
      if release.favoritedTracks.None? || |release.favoritedTracks.value| == 0 {
        assert ReleaseActivities(release) == [];
        continue;
      }
      var tracks := release.favoritedTracks.value;
      ghost var before := activities;
      for j := 0 to |tracks|
        invariant activities == before + ReleaseActivities(release)[..j]
      {
        assert ReleaseActivities(release)[..j + 1] == ReleaseActivities(release)[..j] + [ToTrackActivity(release, tracks[j])];
        activities := activities + [ToTrackActivity(release, tracks[j])];
      }
      assert ReleaseActivities(release)[..|tracks|] == ReleaseActivities(release);
    }
    assert releases[..|releases|] == releases;
  }

  /** `Object.entries(byArtist)`: artist and count, in first-insertion order. */
  type Entries = seq<(string, nat)>

  /** `acc[artist] = (acc[artist] || 0) + 1` */
  function Bump(e: Entries, artist: string): Entries
    decreases |e|
  {
    if e == [] then [(artist, 1)]
    else if e[0].0 == artist then [(artist, e[0].1 + 1)] + e[1..]
    else [e[0]] + Bump(e[1..], artist)
  }

  /** The count stored for an artist; a missing key reads as 0. */
  function CountOf(e: Entries, artist: string): nat
    decreases |e|
  {
    if e == [] then 0 else if e[0].0 == artist then e[0].1 else CountOf(e[1..], artist)
  }

  function SumCounts(e: Entries): nat
    decreases |e|
  {
    if e == [] then 0 else e[0].1 + SumCounts(e[1..])
  }

  /** The artists that have an entry. */
  function KeySet(e: Entries): set<string>
    decreases |e|
  {
    if e == [] then {} else {e[0].0} + KeySet(e[1..])
  }

  /** No artist has two entries. */
  predicate DistinctKeys(e: Entries)
    decreases |e|
  {
    e == [] || (e[0].0 !in KeySet(e[1..]) && DistinctKeys(e[1..]))
  }

  /** The `reduce` over the activities. */
  function Tally(acts: seq<TidalActivity>): Entries
    decreases |acts|
  {
    if acts == [] then [] else Bump(Tally(acts[..|acts| - 1]), acts[|acts| - 1].artist)
  }

  /** The number of activities by an artist. */
  function ArtistTracks(acts: seq<TidalActivity>, artist: string): nat
    decreases |acts|
  {
    if acts == [] then 0
    else ArtistTracks(acts[..|acts| - 1], artist) + (if acts[|acts| - 1].artist == artist then 1 else 0)
  }

  /** The artists of the activities. */
  function Artists(acts: seq<TidalActivity>): set<string>
    decreases |acts|
  {
    if acts == [] then {} else Artists(acts[..|acts| - 1]) + {acts[|acts| - 1].artist}
  }

  lemma {:induction false} BumpFacts(e: Entries, artist: string)
    requires DistinctKeys(e)
    ensures DistinctKeys(Bump(e, artist))
    ensures KeySet(Bump(e, artist)) == KeySet(e) + {artist}
    ensures SumCounts(Bump(e, artist)) == SumCounts(e) + 1
    ensures forall k :: CountOf(Bump(e, artist), k) == CountOf(e, k) + (if k == artist then 1 else 0)
    decreases |e|
  {
    if e != [] && e[0].0 != artist {
      BumpFacts(e[1..], artist);
      assert Bump(e, artist)[1..] == Bump(e[1..], artist);
    } else if e != [] {
      assert Bump(e, artist)[1..] == e[1..];
    }
  }

  /**
   * The per-artist counts: one entry per artist, each count the artist's number of
   * activities, so the counts sum to the number of activities.
   */
  lemma {:induction false} TallyFacts(acts: seq<TidalActivity>)
    ensures DistinctKeys(Tally(acts))
    ensures KeySet(Tally(acts)) == Artists(acts)
    ensures SumCounts(Tally(acts)) == |acts|
    ensures forall k :: CountOf(Tally(acts), k) == ArtistTracks(acts, k)
    decreases |acts|
  {
    if acts != [] {
      TallyFacts(acts[..|acts| - 1]);
      BumpFacts(Tally(acts[..|acts| - 1]), acts[|acts| - 1].artist);
    }
  }

  /** The `reduce` as the loop it is: one bump per activity. */
  method TallyByArtist(acts: seq<TidalActivity>) returns (byArtist: Entries)
    ensures byArtist == Tally(acts)
  {
    byArtist := [];
    for i := 0 to |acts|
      invariant byArtist == Tally(acts[..i])
    {
      assert acts[..i + 1][..i] == acts[..i];
      byArtist := Bump(byArtist, acts[i].artist);
    }
    assert acts[..|acts|] == acts;
  }

  /** Non-increasing counts. */
  predicate SortedByCount(e: Entries)
    decreases |e|
  {
    |e| <= 1 || (e[0].1 >= e[1].1 && SortedByCount(e[1..]))
  }

  lemma {:induction false} SortedPairwise(e: Entries)
    requires SortedByCount(e)
    ensures forall i, j :: 0 <= i < j < |e| ==> e[i].1 >= e[j].1
    decreases |e|
  {
    if |e| > 1 {
      SortedPairwise(e[1..]);
      forall i, j | 0 <= i < j < |e| ensures e[i].1 >= e[j].1
      {
        if i > 0 {
          assert e[i] == e[1..][i - 1] && e[j] == e[1..][j - 1];
        } else if j > 1 {
          assert e[1] == e[1..][0] && e[j] == e[1..][j - 1];
        }
      }
    }
  }

  /** Places `x` after every entry whose count is at least its own. */
  function Insert(x: (string, nat), s: Entries): (r: Entries)
    ensures |r| == |s| + 1
    ensures r[0] == if s != [] && s[0].1 >= x.1 then s[0] else x
    decreases |s|
  {
    if s == [] then [x] else if s[0].1 >= x.1 then [s[0]] + Insert(x, s[1..]) else [x] + s
  }

  /** `.sort((a, b) => b[1] - a[1])`, a stable sort by descending count. */
  function SortByCount(e: Entries): Entries
    decreases |e|
  {
    if e == [] then [] else Insert(e[|e| - 1], SortByCount(e[..|e| - 1]))
  }

  lemma {:induction false} InsertFacts(x: (string, nat), s: Entries)
    requires SortedByCount(s)
    ensures SortedByCount(Insert(x, s))
    ensures multiset(Insert(x, s)) == multiset(s) + multiset{x}
    decreases |s|
  {
    if s != [] && s[0].1 >= x.1 {
      InsertFacts(x, s[1..]);
      assert s == [s[0]] + s[1..];
      assert Insert(x, s)[1..] == Insert(x, s[1..]);
    } else if s != [] {
      assert Insert(x, s)[1..] == s;
    }
  }

  /** The sort orders by count and only reorders. */
  lemma {:induction false} SortByCountFacts(e: Entries)
    ensures SortedByCount(SortByCount(e))
    ensures multiset(SortByCount(e)) == multiset(e)
    decreases |e|
  {
    if e != [] {
      var init, last := e[..|e| - 1], e[|e| - 1];
      assert e == init + [last];
      assert multiset(e) == multiset(init) + multiset{last};
      SortByCountFacts(init);
      InsertFacts(last, SortByCount(init));
    }
  }

  /** `.slice(0, 5)` of the sorted entries. */
  function TopArtists(e: Entries): Entries {
    var sorted := SortByCount(e);
    if |sorted| <= 5 then sorted else sorted[..5]
  }

  /** The sorted entries the top list leaves out. */
  function LeftOut(e: Entries): Entries {
    var sorted := SortByCount(e);
    if |sorted| <= 5 then [] else sorted[5..]
  }

  /**
   * At most five entries, in non-increasing count order; together with the ones left
   * out they are the tally, and no artist left out has more tracks than any listed.
   */
  lemma TopArtistsFacts(e: Entries)
    ensures |TopArtists(e)| == if |e| <= 5 then |e| else 5
    ensures SortedByCount(TopArtists(e))
    ensures multiset(TopArtists(e)) + multiset(LeftOut(e)) == multiset(e)
    ensures forall i, j :: 0 <= i < |TopArtists(e)| && 0 <= j < |LeftOut(e)| ==> TopArtists(e)[i].1 >= LeftOut(e)[j].1
  {
    var sorted := SortByCount(e);
    SortByCountFacts(e);
    assert |sorted| == |e| by {
      assert |multiset(sorted)| == |multiset(e)|;
    }
    if |sorted| > 5 {
      SortedPairwise(sorted);
      SortedPrefix(sorted, 5);
      assert sorted == sorted[..5] + sorted[5..];
    }
  }

  lemma {:induction false} SortedPrefix(e: Entries, n: nat)
    requires SortedByCount(e) && n <= |e|
    ensures SortedByCount(e[..n])
    decreases n
  {
    if n > 1 {
      SortedPrefix(e[1..], n - 1);
      assert e[..n][1..] == e[1..][..n - 1];
    }
  }
}
