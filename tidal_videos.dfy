/**
 * scripts/fetch-tidal-videos.py: the favorited tracks and distinct artists read from
 * the music library, the artist filter on track searches, the choice of artist on
 * artist searches, and the collection of videos without repeated ids. What the Tidal
 * service returns for each search is an input.
 */
module TidalVideos {
  import opened Wrappers
  import opened Text
  import opened Decimal

  /** A favorited track as stored in the library; absent keys are `None`. */
  datatype LibraryTrack = LibraryTrack(title: Option<string>, trackId: Option<int>)

  /** A release; `artist` is `None` when the key is absent. */
  datatype LibraryRelease = LibraryRelease(artist: Option<string>, favoritedTracks: Option<seq<LibraryTrack>>)

  /** One entry of `get_favorited_tracks`. */
  datatype TrackEntry = TrackEntry(title: Option<string>, artist: string, trackId: Option<int>)

  /** `release.get("artist", "Unknown")` */
  function ArtistOrUnknown(r: LibraryRelease): string {
    r.artist.GetOr("Unknown")
  }

  function EntriesOf(r: LibraryRelease): (s: seq<TrackEntry>)
    ensures |s| == |r.favoritedTracks.GetOr([])|
    ensures forall k :: 0 <= k < |s| ==>
      s[k] == TrackEntry(r.favoritedTracks.value[k].title, ArtistOrUnknown(r), r.favoritedTracks.value[k].trackId)
  {
    var tracks := r.favoritedTracks.GetOr([]);
    seq(|tracks|, k requires 0 <= k < |tracks| => TrackEntry(tracks[k].title, ArtistOrUnknown(r), tracks[k].trackId))
  }

  /** All favorited tracks: release order, then track order. */
  function FavoritedTracks(rs: seq<LibraryRelease>): seq<TrackEntry>
    decreases |rs|
  {
    if rs == [] then [] else FavoritedTracks(rs[..|rs| - 1]) + EntriesOf(rs[|rs| - 1])
  }

  function TrackTotal(rs: seq<LibraryRelease>): nat
    decreases |rs|
  {
    if rs == [] then 0 else TrackTotal(rs[..|rs| - 1]) + |rs[|rs| - 1].favoritedTracks.GetOr([])|
  }

  /** One entry per favorited track, each carrying its release's artist or "Unknown". */
  lemma {:induction false} FavoritedTracksFacts(rs: seq<LibraryRelease>)
    ensures |FavoritedTracks(rs)| == TrackTotal(rs)
    ensures forall e :: e in FavoritedTracks(rs) ==> exists i :: 0 <= i < |rs| && e.artist == ArtistOrUnknown(rs[i])
    decreases |rs|
  {
    if rs != [] {
      var init := rs[..|rs| - 1];
      FavoritedTracksFacts(init);
      forall e | e in FavoritedTracks(rs) ensures exists i :: 0 <= i < |rs| && e.artist == ArtistOrUnknown(rs[i])
      {
        if e in FavoritedTracks(init) {
          var i :| 0 <= i < |init| && e.artist == ArtistOrUnknown(init[i]);
          assert rs[i] == init[i];
        } else {
          assert e in EntriesOf(rs[|rs| - 1]);
        }
      }
    }
  }

  /** `get_favorited_tracks(music_data)`: nested loops appending one entry per track. */
  method GetFavoritedTracks(releases: Option<seq<LibraryRelease>>) returns (tracks: seq<TrackEntry>)
    ensures tracks == FavoritedTracks(releases.GetOr([]))
  {
    var rs := releases.GetOr([]);
    tracks := [];
    for i := 0 to |rs|
      invariant tracks == FavoritedTracks(rs[..i])
    {
      assert rs[..i + 1][..i] == rs[..i];
      var artistName := ArtistOrUnknown(rs[i]);
      var favorites := rs[i].favoritedTracks.GetOr([]);
      ghost var before := tracks;
      for j := 0 to |favorites|
        invariant tracks == before + EntriesOf(rs[i])[..j]
      {
        assert EntriesOf(rs[i])[..j + 1] == EntriesOf(rs[i])[..j] + [TrackEntry(favorites[j].title, artistName, favorites[j].trackId)];
        tracks := tracks + [TrackEntry(favorites[j].title, artistName, favorites[j].trackId)];
      }
      assert EntriesOf(rs[i])[..|favorites|] == EntriesOf(rs[i]);
    }
    assert rs[..|rs|] == rs;
  }

  /** The truthy artist names of the releases. */
  function Named(rs: seq<LibraryRelease>): set<string>
    decreases |rs|
  {
    if rs == [] then {}
    else Named(rs[..|rs| - 1]) + (if Truthy(rs[|rs| - 1].artist) then {rs[|rs| - 1].artist.value} else {})
  }

  /** The keys of the `artists` dict, in insertion order. */
  function UniqueArtists(rs: seq<LibraryRelease>): seq<string>
    decreases |rs|
  {
    if rs == [] then []
    else
      var acc := UniqueArtists(rs[..|rs| - 1]);
      var name := rs[|rs| - 1].artist;
      if Truthy(name) && name.value !in acc then acc + [name.value] else acc
  }

  predicate Distinct<T(==)>(s: seq<T>) {
    forall i, j :: 0 <= i < j < |s| ==> s[i] != s[j]
  }

  /**
   * Each truthy artist name once, and the names of any prefix of the releases come first:
   * the list is in order of first appearance.
   */
  lemma {:induction false} UniqueArtistsFacts(rs: seq<LibraryRelease>)
    ensures Distinct(UniqueArtists(rs))
    ensures forall a :: a in UniqueArtists(rs) <==> a in Named(rs)
    ensures forall a :: a in UniqueArtists(rs) ==> a != ""
    ensures forall q :: 0 <= q <= |rs| ==> UniqueArtists(rs[..q]) <= UniqueArtists(rs)
    decreases |rs|
  {
    if rs != [] {
      var init := rs[..|rs| - 1];
      UniqueArtistsFacts(init);
      forall q | 0 <= q <= |rs| ensures UniqueArtists(rs[..q]) <= UniqueArtists(rs)
      {
        if q < |rs| {
          assert rs[..q] == init[..q];
        } else {
          assert rs[..q] == rs;
        }
      }
    }
  }

  /** `get_unique_artists(music_data)`: a dict used as an ordered set. */
  method GetUniqueArtists(releases: Option<seq<LibraryRelease>>) returns (artists: seq<string>)
    ensures artists == UniqueArtists(releases.GetOr([]))
  {
    var rs := releases.GetOr([]);
    artists := [];
    for i := 0 to |rs|
      invariant artists == UniqueArtists(rs[..i])
    {
      assert rs[..i + 1][..i] == rs[..i];
      var artistName := rs[i].artist;
      if Truthy(artistName) && artistName.value !in artists {
        artists := artists + [artistName.value];
      }
    }
    assert rs[..|rs|] == rs;
  }

  datatype VideoArtist = VideoArtist(name: string, id: int)

  /**
   * A video as the service returns it. `image640` and `image320` are what `video.image(640)`
   * and `video.image(320)` give, `None` where the call fails.
   */
  datatype Video = Video(
    id: nat, name: Option<string>, title: Option<string>, artist: Option<VideoArtist>,
    duration: int, explicit: bool, popularity: int, image640: Option<string>, image320: Option<string>)

  /** The lower-cased artist name of a video; "" without an artist. */
  function VideoArtistName(v: Video): string {
    if v.artist.Some? then Lower(v.artist.value.name) else ""
  }

  /** Either lower-cased name contains the other. */
  predicate MatchesArtist(v: Video, artist: string) {
    Contains(VideoArtistName(v), Lower(artist)) || Contains(Lower(artist), VideoArtistName(v))
  }

  function Matching(videos: seq<Video>, artist: string): (r: seq<Video>)
    ensures |r| <= |videos|
    ensures forall v :: v in r <==> v in videos && MatchesArtist(v, artist)
    decreases |videos|
  {
    if videos == [] then []
    else
      var init := Matching(videos[..|videos| - 1], artist);
      var v := videos[|videos| - 1];
      assert videos == videos[..|videos| - 1] + [v];
      if MatchesArtist(v, artist) then init + [v] else init
  }

  /** The empty string occurs in every string. */
  lemma ContainsEmpty(s: string)
    ensures Contains(s, "")
  {
    assert StartsAt(s, "", 0);
  }

  /** A video without an artist matches every query artist. */
  lemma NoArtistMatches(v: Video, artist: string)
    requires v.artist.None?
    ensures MatchesArtist(v, artist)
  {
    ContainsEmpty(Lower(artist));
  }

  /**
   * `search_video_for_track`: `results` is the service's video list, `None` when the
   * search raised. The videos that match the artist, or else at most the first result.
   */
  method SearchVideoForTrack(results: Option<seq<Video>>, artist: string) returns (found: seq<Video>)
    ensures results.None? ==> found == []
    ensures results.Some? && Matching(results.value, artist) != [] ==> found == Matching(results.value, artist)
    ensures results.Some? && Matching(results.value, artist) == [] ==>
      found == if results.value == [] then [] else [results.value[0]]
  {
    if results.None? {
      return [];
    }
    var videos := results.value;
    var matching := [];
    var lowerArtist := Lower(artist);
    for i := 0 to |videos|
      invariant matching == Matching(videos[..i], artist)
    {
      assert videos[..i + 1][..i] == videos[..i];
      var videoArtist := VideoArtistName(videos[i]);
      if Contains(videoArtist, lowerArtist) || Contains(lowerArtist, videoArtist) {
        matching := matching + [videos[i]];
      }
    }
    assert videos[..|videos|] == videos;
    found := if matching != [] then matching else if |videos| >= 1 then videos[..1] else [];
  }

  /** What a track search keeps: every result is a returned video, and all of them match unless the fallback applied. */
  lemma SearchFacts(videos: seq<Video>, artist: string)
    ensures forall v :: v in Matching(videos, artist) ==> v in videos && MatchesArtist(v, artist)
    ensures Matching(videos, artist) == [] && videos != [] ==> !MatchesArtist(videos[0], artist)
    ensures (exists v :: v in videos && v.artist.None?) ==> Matching(videos, artist) != []
  {
    if exists v :: v in videos && v.artist.None? {
      var v :| v in videos && v.artist.None?;
      NoArtistMatches(v, artist);
    }
  }

  /** An artist found by name search, with what `get_videos(limit=30)` returns for it. */
  datatype ArtistHit = ArtistHit(name: string, videos: seq<Video>)

  /** The first hit whose name equals the query ignoring case, or -1. */
  function ExactMatch(hits: seq<ArtistHit>, name: string): (r: int)
    ensures -1 <= r < |hits|
    ensures r >= 0 ==> Lower(hits[r].name) == Lower(name)
    ensures forall k :: 0 <= k < |hits| && (r == -1 || k < r) ==> Lower(hits[k].name) != Lower(name)
    decreases |hits|
  {
    if hits == [] then -1
    else if Lower(hits[0].name) == Lower(name) then 0
    else
      var r := ExactMatch(hits[1..], name);
      if r == -1 then -1 else r + 1
  }

  /**
   * `fetch_artist_videos`: the videos of the first exact (case-insensitive) name match,
   * else of the first hit; nothing when there are no hits or the search raised.
   */
  method FetchArtistVideos(results: Option<seq<ArtistHit>>, artistName: string) returns (videos: seq<Video>)
    ensures results.None? || results.value == [] ==> videos == []
    ensures results.Some? && results.value != [] ==>
      var k := ExactMatch(results.value, artistName);
      videos == results.value[if k == -1 then 0 else k].videos
  {
    if results.None? || results.value == [] {
      return [];
    }
    var hits := results.value;
    var i := 0;
    while i < |hits| && Lower(hits[i].name) != Lower(artistName)
      invariant 0 <= i <= |hits|
      invariant forall k :: 0 <= k < i ==> Lower(hits[k].name) != Lower(artistName)
    {
      i := i + 1;
    }
    var artist := if i < |hits| then hits[i] else hits[0];
    videos := artist.videos;
  }

  /** The dict `video_to_dict` builds. */
  datatype VideoDict = VideoDict(
    id: string, videoId: nat, kind: string, title: Option<string>, artist: string, artistId: Option<int>,
    duration: int, tidalUrl: string, imageUrl: Option<string>, explicit: bool, popularity: int, source: string)

  const VIDEO_ID_PREFIX: string := "tidal-video-"
  const VIDEO_URL: string := "https://tidal.com/browse/video/"

  function VideoToDict(v: Video): VideoDict {
    VideoDict(
      VIDEO_ID_PREFIX + NatToString(v.id), v.id, "tidal-video",
      if Truthy(v.name) then v.name else v.title,
      if v.artist.Some? then v.artist.value.name else "Unknown",
      if v.artist.Some? then Some(v.artist.value.id) else None,
      v.duration, VIDEO_URL + NatToString(v.id),
      if v.image640.Some? then v.image640 else v.image320,
      v.explicit, v.popularity, "Tidal Video")
  }

  /** The dict's id and url both read back as the video id; two dicts share an id only for the same video id. */
  lemma VideoDictIdentity(v: Video, w: Video)
    ensures ParseNat(VideoToDict(v).id[|VIDEO_ID_PREFIX|..]) == Some(v.id)
    ensures ParseNat(VideoToDict(v).tidalUrl[|VIDEO_URL|..]) == Some(v.id)
    ensures VideoToDict(v).id == VideoToDict(w).id <==> v.id == w.id
  {
    assert VideoToDict(v).id[|VIDEO_ID_PREFIX|..] == NatToString(v.id);
    assert VideoToDict(v).tidalUrl[|VIDEO_URL|..] == NatToString(v.id);
    ParseNatToString(v.id);
    if VideoToDict(v).id == VideoToDict(w).id {
      PrefixedInjective(VIDEO_ID_PREFIX, v.id, w.id);
    }
  }

  function IdsOf(vs: seq<Video>): set<nat> {
    set v | v in vs :: v.id
  }

  /** Appends `v` unless a video with its id was kept already. */
  function Keep(kept: seq<Video>, v: Video): seq<Video> {
    if v.id in IdsOf(kept) then kept else kept + [v]
  }

  /** Working through `vs` with the `seen_ids` test, starting from `kept`. */
  function KeepNew(kept: seq<Video>, vs: seq<Video>): seq<Video>
    decreases |vs|
  {
    if vs == [] then kept else KeepNew(Keep(kept, vs[0]), vs[1..])
  }

  lemma {:induction false} KeepNewAppend(kept: seq<Video>, a: seq<Video>, b: seq<Video>)
    ensures KeepNew(kept, a + b) == KeepNew(KeepNew(kept, a), b)
    decreases |a|
  {
    if a != [] {
      assert (a + b)[1..] == a[1..] + b;
      KeepNewAppend(Keep(kept, a[0]), a[1..], b);
    } else {
      assert a + b == b;
    }
  }

  predicate DistinctIds(vs: seq<Video>) {
    forall i, j :: 0 <= i < j < |vs| ==> vs[i].id != vs[j].id
  }

  /**
   * The kept videos have pairwise distinct ids, every id met is kept, the earlier kept
   * videos stay first, and nothing is kept that was not met.
   */
  lemma {:induction false} KeepNewFacts(kept: seq<Video>, vs: seq<Video>)
    requires DistinctIds(kept)
    ensures DistinctIds(KeepNew(kept, vs))
    ensures IdsOf(KeepNew(kept, vs)) == IdsOf(kept) + IdsOf(vs)
    ensures kept <= KeepNew(kept, vs)
    ensures forall v :: v in KeepNew(kept, vs) ==> v in kept || v in vs
    decreases |vs|
  {
    if vs != [] {
      var next := Keep(kept, vs[0]);
      if vs[0].id !in IdsOf(kept) {
        forall i | 0 <= i < |kept| ensures kept[i].id != vs[0].id
        {
          assert kept[i] in kept;
        }
      }
      KeepNewFacts(next, vs[1..]);
      assert vs == [vs[0]] + vs[1..];
      assert IdsOf(vs) == {vs[0].id} + IdsOf(vs[1..]);
      assert forall v :: v in vs[1..] ==> v in vs;
    }
  }

  function Concat(results: seq<seq<Video>>): seq<Video>
    decreases |results|
  {
    if results == [] then [] else Concat(results[..|results| - 1]) + results[|results| - 1]
  }

  function Dicts(vs: seq<Video>): (r: seq<VideoDict>)
    ensures |r| == |vs| && forall k :: 0 <= k < |vs| ==> r[k] == VideoToDict(vs[k])
  {
    seq(|vs|, k requires 0 <= k < |vs| => VideoToDict(vs[k]))
  }

  /** What the script saves. */
  datatype Output = Output(trackCount: nat, artistCount: nat, videoCount: nat, videos: seq<VideoDict>)

  /** The inner loop of both phases: each unseen video is recorded and converted. */
  method AddUnseen(videos: seq<Video>, seen: set<nat>, all: seq<VideoDict>, ghost kept: seq<Video>)
    returns (seen': set<nat>, all': seq<VideoDict>, ghost kept': seq<Video>)
    requires seen == IdsOf(kept) && all == Dicts(kept)
    ensures kept' == KeepNew(kept, videos)
    ensures seen' == IdsOf(kept') && all' == Dicts(kept')
  {
    seen', all', kept' := seen, all, kept;
    for j := 0 to |videos|
      invariant kept' == KeepNew(kept, videos[..j])
      invariant seen' == IdsOf(kept') && all' == Dicts(kept')
    {
      KeepStep(kept, videos, j);
      var video := videos[j];
      if video.id !in seen' {
        seen' := seen' + {video.id};
        all' := all' + [VideoToDict(video)];
        kept' := kept' + [video];
      }
    }
    assert videos[..|videos|] == videos;
  }

  /** One more video met: the kept list, its ids and its dicts grow together or not at all. */
  lemma KeepStep(kept: seq<Video>, videos: seq<Video>, j: nat)
    requires j < |videos|
    ensures var before := KeepNew(kept, videos[..j]);
      KeepNew(kept, videos[..j + 1]) == Keep(before, videos[j])
      && IdsOf(before + [videos[j]]) == IdsOf(before) + {videos[j].id}
      && Dicts(before + [videos[j]]) == Dicts(before) + [VideoToDict(videos[j])]
  {
    KeepNewAppend(kept, videos[..j], [videos[j]]);
    assert videos[..j + 1] == videos[..j] + [videos[j]];
  }

  /**
   * `main` after the searches: `trackResults[i]` is what the search for track `i` kept,
   * `artistResults[i]` what the artist `i` fetch returned. Phase 1 then phase 2, each
   * video id once.
   */
  method CollectVideos(tracks: seq<TrackEntry>, artists: seq<string>,
                       trackResults: seq<seq<Video>>, artistResults: seq<seq<Video>>)
    returns (out: Output)
    requires |trackResults| == |tracks| && |artistResults| == |artists|
    ensures out.videos == Dicts(KeepNew([], Concat(trackResults) + Concat(artistResults)))
    ensures out.videoCount == |out.videos|
    ensures out.trackCount == |tracks| && out.artistCount == |artists|
  {
    var all: seq<VideoDict> := [];
    var seen: set<nat> := {};
    ghost var kept: seq<Video> := [];
    for i := 0 to |trackResults|
      invariant kept == KeepNew([], Concat(trackResults[..i]))
      invariant seen == IdsOf(kept) && all == Dicts(kept)
    {
      assert trackResults[..i + 1][..i] == trackResults[..i];
      KeepNewAppend([], Concat(trackResults[..i]), trackResults[i]);
      seen, all, kept := AddUnseen(trackResults[i], seen, all, kept);
    }
    assert trackResults[..|trackResults|] == trackResults;
    ghost var afterTracks := kept;
    for i := 0 to |artistResults|
      invariant kept == KeepNew(afterTracks, Concat(artistResults[..i]))
      invariant seen == IdsOf(kept) && all == Dicts(kept)
    {
      assert artistResults[..i + 1][..i] == artistResults[..i];
      KeepNewAppend(afterTracks, Concat(artistResults[..i]), artistResults[i]);
      seen, all, kept := AddUnseen(artistResults[i], seen, all, kept);
    }
    assert artistResults[..|artistResults|] == artistResults;
    KeepNewAppend([], Concat(trackResults), Concat(artistResults));
    out := Output(|tracks|, |artists|, |all|, all);
  }

  /** The saved videos carry pairwise distinct ids, one per distinct video id met in either phase. */
  lemma OutputIdsDistinct(trackResults: seq<seq<Video>>, artistResults: seq<seq<Video>>)
    ensures var kept := KeepNew([], Concat(trackResults) + Concat(artistResults));
      (forall i, j :: 0 <= i < j < |kept| ==> Dicts(kept)[i].id != Dicts(kept)[j].id)
      && IdsOf(kept) == IdsOf(Concat(trackResults) + Concat(artistResults))
  {
    var kept := KeepNew([], Concat(trackResults) + Concat(artistResults));
    KeepNewFacts([], Concat(trackResults) + Concat(artistResults));
    forall i, j | 0 <= i < j < |kept| ensures Dicts(kept)[i].id != Dicts(kept)[j].id
    {
      VideoDictIdentity(kept[i], kept[j]);
    }
  }
}
