# lottoscroll core, modelled in Dafny

lottoscroll is a personal "infinite scroll" feed. The front end shows a deck of
full-screen cards: articles, Tidal tracks, Tidal music videos, YouTube and Nebula videos,
games and app links. It reads them from `activities.json`.

**Deck construction**
- `useActivities` groups the pool by type.
- It draws a fixed quota of articles, music videos and videos with a seeded Mulberry32
  generator and keeps every game, app link and Tidal track.
- It then shuffles the whole deck once more.
- `generate-daily.ts` does the same for the daily file, seeded by a hash of the date.

**Cards and preferences**
- `useAutoOpen` runs each card's countdown. It pauses, resets on a new card or when
  scrolling starts, and opens the card once.
- `useScrollState` debounces the "is scrolling" flag.
- `usePreferences` keeps like/dislike scores per source and per type, clamped to [-3, 3].
  It exposes the weight `2^(source score + type score)`.
- The badge of a Tidal video card shows its duration as `m:ss`.

**Feed scripts**
- `scrape-rss.ts` and `ingest.ts` turn RSS items into activities. `scrape-rss.ts`
  de-duplicates them by link. `ingest.ts` drops the items whose link is already in the file,
  but does not de-duplicate the new items among themselves. It also keeps manual entries and
  sorts newest first.
- `content-server.ts` classifies a submitted link by its site and adds or deletes entries.
- `transform-music.ts` flattens a Tidal library into track activities and tallies the top
  artists.
- `fetch-tidal-videos.py` finds music videos for favourited tracks and artists and keeps
  the first video of each id.

**How the model is built**
- Pure code becomes datatypes, functions and lemmas.
- Code that updates state becomes classes and methods:
  - the random generator, `Generator`;
  - the in-place Fisher–Yates shuffle over an `array`;
  - the countdown hook, `AutoOpenTimer`;
  - the scroll watcher, `ScrollWatcher`;
  - the preference store, `PreferenceStore`;
  - the activities file of the content server, `ActivityFile`.
- The loops of the scripts are methods with invariants. Each is proved equal to a
  specification function, and lemmas prove what those functions promise.

**Behaviour of the code worth knowing**
- `sample` is the prefix of a seeded uniform shuffle, with no weights. `getWeight` has no
  caller in these files, so `Preferences.GetWeightFacts` stands on its own.
- The quotas are `Math.round(40 * MIX[type])`, which gives 18, 16 and 6. A type that runs
  short is not topped up from other types, so the deck can be shorter than 40
  (`Deck.DeckLength`).
- A reset after the card has opened clears `hasOpened`. It does not restart the interval,
  because the countdown effect does not depend on `hasOpened`. The model keeps that
  behaviour (`AutoOpen.RerenderResets`, `AutoOpen.TickOpens`).

## Model

| member | source | states |
|---|---|---|
| Prng.Generator.constructor | src/hooks/useActivities.ts:5-6 | the generator's state starts at the seed taken modulo 2^32, with nothing drawn |
| Prng.Generator.Next | src/hooks/useActivities.ts:6-10 | each call advances the state by 0x6D2B79F5 modulo 2^32 and records exactly one more output |
| Prng.NextIsMix | src/hooks/useActivities.ts:7-10 | the latest output is the Mulberry32 mix of the advanced state |
| Prng.AdvanceAdd | src/hooks/useActivities.ts:7 | advancing a+b times is advancing a times and then b times |
| Prng.OutputsSplit | src/hooks/useActivities.ts:5-12 | the outputs of a+b draws are the outputs of the first a followed by those of the next b from the advanced state |
| Prng.CallsSince | src/hooks/useActivities.ts:5-12 | the numbers drawn since a known point are the stream function's outputs from that state |
| Prng.SameSeedSameOutputs | scripts/generate-daily.ts:10-17 | two generators with the same seed and the same number of draws have produced the same numbers and are in the same state |
| Prng.Fraction | src/hooks/useActivities.ts:10 | the returned number divided by 2^32 lies in [0, 1) |
| Prng.SwapIndex | src/hooks/useActivities.ts:18 | the index `floor(random() * (i + 1))` never exceeds i |
| Sampling.SwapPermutes | src/hooks/useActivities.ts:19 | swapping two entries keeps the length and the multiset |
| Sampling.ShuffleStepsPermutes | src/hooks/useActivities.ts:17-20 | any run of Fisher–Yates swaps permutes the array |
| Sampling.ShuffledPermutes | src/hooks/useActivities.ts:15-22 | `shuffle` returns a permutation of its input |
| Sampling.SampledBounds | src/hooks/useActivities.ts:25-28 | `sample(arr, n)` has min(n, length) items, each taken from the input no more often than it occurs there |
| Sampling.SampledAll | src/hooks/useActivities.ts:25-28 | when n is at least the length, the sample is a permutation of the whole input |
| Sampling.SwapStep | src/hooks/useActivities.ts:18-19 | one loop step draws one number and swaps a[i] with a[floor(u * (i + 1))] |
| Sampling.ShuffleInPlace | src/hooks/useActivities.ts:17-20 | the in-place loop draws exactly max(n-1, 0) numbers and leaves the array equal to the swap sequence over them |
| Sampling.Shuffle | src/hooks/useActivities.ts:15-22 | the copy-and-shuffle returns the shuffle function of the generator's state and advances the generator by max(n-1, 0) draws |
| Sampling.Sample | src/hooks/useActivities.ts:25-28 | the sample is the shuffle's prefix of length n, at the same cost in draws |
| Activities.ParseKind | src/types/activity.ts:1 | the `type` string is one of the six kinds exactly when it is one of their names, otherwise it is kept as is; its name reads back |
| Activities.ParseTypeName | src/types/activity.ts:1 | reading back the string of a well-formed kind gives that kind |
| Activities.ParseKindInjective | src/types/activity.ts:1 | two strings parse to the same kind iff they are equal, as the source compares them |
| Activities.OfKindAppend | src/hooks/useActivities.ts:57-62 | grouping by type distributes over concatenation |
| Activities.OfKindMultiplicity | src/hooks/useActivities.ts:57-62 | a type's bucket holds each item of that type as often as the pool does, and nothing of another type |
| Activities.OfKindPermutation | src/hooks/useActivities.ts:93-94 | permuting a list permutes each of its type buckets |
| Activities.SubMultisetOfKind | src/hooks/useActivities.ts:64-83 | a sub-multiset of a type's bucket holds only items of that type |
| Deck.Quota | src/hooks/useActivities.ts:69 | the quota is `Math.round(40 * share)`, within half an item of the exact product |
| Deck.QuotaValues | src/hooks/useActivities.ts:31-36 | the article, music-video and video quotas are 18, 16 and 6 |
| Deck.KindPartFacts | src/hooks/useActivities.ts:64-91 | each type's part holds only that type, has that type's contribution as length, and is drawn from that type's bucket |
| Deck.DeckPermutesPicked | src/hooks/useActivities.ts:93-94 | the deck is a permutation of the concatenated picks |
| Deck.DeckKindCount | src/hooks/useActivities.ts:57-94 | the deck holds min(quota, available) items of each sampled type, every item of game, app-link and Tidal type, and none of any other type |
| Deck.DeckMultiplicity | src/hooks/useActivities.ts:57-94 | an item occurs in the deck as often as in its type's part, and never more often than in the pool |
| Deck.DeckSubMultiset | src/hooks/useActivities.ts:57-94 | the deck never invents or duplicates an item of the pool |
| Deck.DeckAlwaysIncludes | src/hooks/useActivities.ts:85-91 | every game, app link and Tidal track of the pool is in the deck |
| Deck.DeckLength | src/hooks/useActivities.ts:57-94 | the deck's length is the sum of the per-type contributions, so 40 only when every kind has enough items |
| Deck.GroupByType | src/hooks/useActivities.ts:57-62 | the grouping loop builds a map whose bucket for each type is that type's items in pool order (type names of `Object.prototype` members are left out) |
| Deck.SampleQuotas | src/hooks/useActivities.ts:64-83 | the three quota samples are drawn in order from the shared generator and equal the sampling function at each state |
| Deck.BucketsOfGrouping | src/hooks/useActivities.ts:85-91 | for any list of types, the concatenated buckets of the grouping map are the pool's items of those types, type by type |
| Deck.AppendBuckets | src/hooks/useActivities.ts:85-91 | the append loop adds the buckets of the always-included types in order |
| Deck.LoadDeck | src/hooks/useActivities.ts:53-96 | the deck built from the loaded pool is the deck function of the pool and the generator's state (type names of `Object.prototype` members are left out) |
| DailyFeed.ToInt32 | scripts/generate-daily.ts:22 | the 32-bit wrap of `acc << 5` gives a signed 32-bit value congruent to its input modulo 2^32 |
| DailyFeed.DateToSeedEmpty | scripts/generate-daily.ts:20-24 | the empty string hashes to 0 |
| DailyFeed.HashStepCongruent | scripts/generate-daily.ts:22 | wrapping at each step or only at the end gives congruent hashes |
| DailyFeed.HashFromCongruent | scripts/generate-daily.ts:20-24 | the date hash is congruent modulo 2^32 to the unbounded polynomial hash |
| DailyFeed.DateToSeedMod | scripts/generate-daily.ts:20-24 | the seed passed to `seededRandom` is congruent modulo 2^32 to the base-31 polynomial hash of the date, so both give the generator the same state |
| DailyFeed.Field | scripts/generate-daily.ts:67-102 | a missing file or a missing field contributes an empty pool, otherwise the field's list |
| DailyFeed.MissingFilesEmpty | scripts/generate-daily.ts:67-102 | with no input files the daily feed is empty |
| DailyFeed.DailyLength | scripts/generate-daily.ts:106-127 | the daily feed has min(18, articles) + min(16, music videos) + min(6, Nebula videos) items plus every game and evergreen video |
| DailyFeed.DailySubMultiset | scripts/generate-daily.ts:113-127 | every item of the daily feed comes from the pools |
| DailyFeed.DailyOrder | scripts/generate-daily.ts:120-127 | the feed starts with the sampled articles and ends with the evergreen videos in file order |
| DailyFeed.GenerateDaily | scripts/generate-daily.ts:55-127 | the generated file is the daily-feed function of the date's seed and the loaded pools |
| AutoOpen.Reset | src/hooks/useAutoOpen.ts:28-31 | a reset restores the full duration and clears `hasOpened`, touching nothing else |
| AutoOpen.CountdownEffect | src/hooks/useAutoOpen.ts:46-53 | the interval runs iff not paused and not yet opened |
| AutoOpen.SecondsLeft | src/hooks/useAutoOpen.ts:83 | the seconds shown are the milliseconds left rounded up |
| AutoOpen.ResetShowsFive | src/hooks/useAutoOpen.ts:83 | right after a reset to 5000 ms the card shows 5 |
| AutoOpen.MountInv | src/hooks/useAutoOpen.ts:24-26 | on mount the full duration is left, nothing has opened, and the interval runs iff not paused |
| AutoOpen.TickInv | src/hooks/useAutoOpen.ts:55-72 | a tick keeps the hook's invariant |
| AutoOpen.RerenderInv | src/hooks/useAutoOpen.ts:33-80 | a re-render with new props keeps the invariant |
| AutoOpen.ResetInv | src/hooks/useAutoOpen.ts:28-31 | a reset keeps the invariant |
| AutoOpen.TickOpens | src/hooks/useAutoOpen.ts:56-67 | a tick opens the card at most once, and exactly when running, not yet opened and at most 100 ms are left |
| AutoOpen.RerenderResets | src/hooks/useAutoOpen.ts:33-43 | a new resetKey or the start of scrolling resets the countdown |
| AutoOpen.PauseKeepsTime | src/hooks/useAutoOpen.ts:46-53 | pausing or resuming keeps the time left and the opened state |
| AutoOpen.PausedTicksIdle | src/hooks/useAutoOpen.ts:47-53 | while paused a tick changes nothing |
| AutoOpen.RunOpensAtMostOnce | src/hooks/useAutoOpen.ts:33-80 | between resets, any sequence of ticks and renders that reset nothing (pause, resume, a new `onOpen`, scrolling ending) schedules `onOpen` at most once, and not at all once it was |
| AutoOpen.KeepsCountdownRerender | src/hooks/useAutoOpen.ts:33-80 | a render that resets nothing keeps the time left, the opened flag and the open count |
| AutoOpen.TicksBefore | src/hooks/useAutoOpen.ts:56-70 | before the deadline each tick takes 100 ms off |
| AutoOpen.OpensOnTick | src/hooks/useAutoOpen.ts:56-67 | with m·100 ms left the card opens on the m-th tick and not before |
| AutoOpen.AutoOpenTimer.constructor | src/hooks/useAutoOpen.ts:24-26 | the hook starts in the mount state |
| AutoOpen.AutoOpenTimer.CallReset | src/hooks/useAutoOpen.ts:28-31 | `reset()` moves the hook to the reset state |
| AutoOpen.AutoOpenTimer.OnInterval | src/hooks/useAutoOpen.ts:55-72 | the interval callback performs one tick |
| AutoOpen.AutoOpenTimer.Render | src/hooks/useAutoOpen.ts:33-80 | a render with new props runs the reset effects and the countdown effect in order |
| AutoOpen.AutoOpenTimer.RunResetEffects | src/hooks/useAutoOpen.ts:33-43 | the two reset effects fire on a changed resetKey or on scrolling starting |
| AutoOpen.AutoOpenTimer.Seconds | src/hooks/useAutoOpen.ts:82-83 | the displayed seconds round the time left up |
| Preferences.Clamp | src/hooks/usePreferences.ts:36 | a score is kept within [-3, 3] and unchanged inside it |
| Preferences.Adjusted | src/hooks/usePreferences.ts:33-47 | the key's score becomes the clamped sum, a zero score removes the key, and no other key changes |
| Preferences.AdjustedNormalized | src/hooks/usePreferences.ts:36-47 | adjusting keeps every stored score non-zero and within [-3, 3] |
| Preferences.LikesFromEmpty | src/hooks/usePreferences.ts:76-78 | n likes of a new key give min(n, 3) |
| Preferences.TenLikes | src/hooks/usePreferences.ts:36 | ten likes saturate at 3 |
| Preferences.LikeThenDislike | src/hooks/usePreferences.ts:76-82 | a like followed by a dislike restores the table, below the maximum |
| Preferences.Pow2Succ | src/hooks/usePreferences.ts:105 | one more point doubles the weight |
| Preferences.GetWeightFacts | src/hooks/usePreferences.ts:100-106 | the weight is positive, 1 for unknown keys, and doubles with each like of the source or of the type below the cap |
| Preferences.PreferenceStore.constructor | src/hooks/usePreferences.ts:18-30 | the store starts from the saved preferences, or the defaults when there are none |
| Preferences.PreferenceStore.AdjustSourceWeight | src/hooks/usePreferences.ts:33-53 | the source table is adjusted, the type table is kept, and the new state is saved |
| Preferences.PreferenceStore.AdjustTypeWeight | src/hooks/usePreferences.ts:55-74 | the type table is adjusted, the source table is kept, and the new state is saved |
| Preferences.PreferenceStore.LikeSource | src/hooks/usePreferences.ts:76-78 | likeSource adds 1 to the source's score |
| Preferences.PreferenceStore.DislikeSource | src/hooks/usePreferences.ts:80-82 | dislikeSource subtracts 1 from the source's score |
| Preferences.PreferenceStore.LikeType | src/hooks/usePreferences.ts:84-86 | likeType adds 1 to the type's score |
| Preferences.PreferenceStore.DislikeType | src/hooks/usePreferences.ts:88-90 | dislikeType subtracts 1 from the type's score |
| Preferences.PreferenceStore.ClearPreferences | src/hooks/usePreferences.ts:92-97 | clearing restores the defaults and removes the stored copy |
| Preferences.PreferenceStore.Weight | src/hooks/usePreferences.ts:100-106 | the store's weight is positive |
| ScrollState.Delay | src/hooks/useScrollState.ts:23-26 | a non-negative debounce delays by exactly that many milliseconds |
| ScrollState.MountInv | src/hooks/useScrollState.ts:8-14 | the watcher starts consistent and not scrolling |
| ScrollState.OnScrollInv | src/hooks/useScrollState.ts:16-27 | a scroll event sets the flag and re-arms the one pending timer for now + debounce |
| ScrollState.ElapseInv | src/hooks/useScrollState.ts:23-26 | time passing keeps the watcher consistent |
| ScrollState.ElapseDropsFlag | src/hooks/useScrollState.ts:23-26 | the flag drops exactly when the debounce has passed since the last scroll |
| ScrollState.TeardownQuiet | src/hooks/useScrollState.ts:31-36 | after cleanup no timer is pending and scroll events and time change nothing |
| ScrollState.ScrollWatcher.constructor | src/hooks/useScrollState.ts:6-14 | the watcher starts in the mount state |
| ScrollState.ScrollWatcher.HandleScroll | src/hooks/useScrollState.ts:16-27 | the scroll handler performs the scroll transition |
| ScrollState.ScrollWatcher.Wait | src/hooks/useScrollState.ts:23-26 | waiting performs the timer transition |
| ScrollState.ScrollWatcher.Cleanup | src/hooks/useScrollState.ts:31-36 | unmount removes the listener and clears the timer |
| ScrapeRss.StripTagsTagFree | scripts/scrape-rss.ts:116 | removing `<...>` runs leaves no tag and no `>` |
| ScrapeRss.CollapseFacts | scripts/scrape-rss.ts:117 | collapsing white space leaves no two spaces in a row and no other white space, and keeps text tag-free |
| ScrapeRss.CleanDescription | scripts/scrape-rss.ts:112-120 | no description iff the input is empty; otherwise the input with its tags removed, white space collapsed, trimmed and cut to 200 characters, which is tag-free, single-spaced and does not start with a space |
| ScrapeRss.StripTagsKeepsTagFree | scripts/scrape-rss.ts:116 | removing tags leaves a text without tags unchanged |
| ScrapeRss.CollapseKeepsPlain | scripts/scrape-rss.ts:117 | collapsing white space leaves a text of single plain spaces unchanged |
| ScrapeRss.CleanKeepsCleanText | scripts/scrape-rss.ts:112-120 | a non-empty description of at most 200 characters, tag-free, single-spaced and trimmed, is kept as it is |
| ScrapeRss.ExtractImage | scripts/scrape-rss.ts:106-110 | the image is the src of the first `<img>` with a quoted src, non-empty and free of the closing quote |
| ScrapeRss.ToActivity | scripts/scrape-rss.ts:128-144 | an item becomes an activity of the feed's type, source, tags and platform, titled by its title or `Untitled`, with its link (or the empty string) as url, the cleaned snippet or content as description, the enclosure or the first content image as image, and its date or the clock as addedAt |
| ScrapeRss.KeepWithUrl | scripts/scrape-rss.ts:145 | exactly the items with a non-empty url remain |
| ScrapeRss.KeepWithUrlMultiplicity | scripts/scrape-rss.ts:145 | each item with a url is kept as often as it occurs, and no other item is kept |
| ScrapeRss.KeepWithUrlAppend | scripts/scrape-rss.ts:145 | the filter keeps the order: filtering a concatenation concatenates the filtered parts |
| ScrapeRss.FetchFeed | scripts/scrape-rss.ts:122-153 | a feed yields at most 50 activities, each with a url and the feed's type and source; they are exactly the activities built from the first 50 items that have a url, and none when the fetch fails |
| ScrapeRss.DedupeFacts | scripts/scrape-rss.ts:155-162 | de-duplication keeps every url of the input, leaves each url once, and only drops items |
| ScrapeRss.DedupeDistinct | scripts/scrape-rss.ts:155-162 | the de-duplicated list has distinct urls |
| ScrapeRss.DedupeIdempotent | scripts/scrape-rss.ts:155-162 | de-duplicating twice is de-duplicating once |
| ScrapeRss.DedupeByUrl | scripts/scrape-rss.ts:155-162 | the set-and-loop implementation equals the de-duplication function |
| ScrapeRss.ScrapePartition | scripts/scrape-rss.ts:173-182 | when every feed item is an article or a video, the two output lists together are exactly the de-duplicated items of all feeds |
| Ingest.ToIngestActivity | scripts/ingest.ts:69-86 | an item becomes an activity of the feed's type (article by default), source and tags, titled by its title or `Untitled`, with its link as url, its date or the clock as addedAt, the enclosure or the first image of its content as image, and a description iff it has a snippet: the snippet itself when at most 150 characters long, else its first 150 characters |
| Ingest.FetchIngestFeed | scripts/ingest.ts:64-92 | a feed yields min(items, 10) activities, the k-th built from the k-th item, and none when the fetch fails |
| Ingest.NonManualKnown | scripts/ingest.ts:107-111 | the url of every non-manual existing entry is in the set of known links |
| Ingest.CollectNew | scripts/ingest.ts:114-121 | the collection loop produces the new-items function, which keeps only fetched items whose link is not yet known |
| Ingest.KeptAllNonManual | scripts/ingest.ts:128-135 | since new items never repeat a known url, every non-manual entry is kept |
| Ingest.ManualSplit | scripts/ingest.ts:124-126 | the entries split into manual and non-manual ones as a multiset |
| Ingest.MergeKeepsAll | scripts/ingest.ts:124-137 | the merge holds every existing entry and every new item, nothing more |
| Ingest.SinkStep | scripts/ingest.ts:140 | one adjacent swap of the insertion step keeps the list a permutation and extends the sorted part |
| Ingest.InsertAt | scripts/ingest.ts:140 | inserting the next element keeps the prefix sorted newest first and the multiset unchanged |
| Ingest.SortByAddedAt | scripts/ingest.ts:140 | the sort returns a permutation of its input sorted by addedAt descending |
| Ingest.IngestMain | scripts/ingest.ts:94-140 | the written file is sorted newest first and is the existing entries plus the new items |
| ContentServer.ExtractYouTubeId | scripts/content-server.ts:67-71 | the id is the run after the left-most `youtube.com/watch?v=` or `youtu.be/` that has one, up to `&` or white space; failing that the run after the left-most such `youtube.com/embed/`, up to `?` or white space; none iff neither matches |
| ContentServer.MatchStart | scripts/content-server.ts:68-69 | `match` finds the least index at which the pattern matches, or none |
| ContentServer.WatchIdIsRun | scripts/content-server.ts:68 | a watch-link id is the text right after `watch?v=`, ending at the end of the url, `&` or white space |
| ContentServer.ShortLinkExample | scripts/content-server.ts:68 | `youtu.be/ab&c` gives the id `ab` |
| ContentServer.ArticleSite | scripts/content-server.ts:53-58 | the source is that of the first listed site, in rule order, whose domain the lower-cased url contains |
| ContentServer.FirstSiteWins | scripts/content-server.ts:53-54 | a url mentioning both theparisreview.org and nybooks.com gets `Paris Review` |
| ContentServer.DetectLinkType | scripts/content-server.ts:40-65 | a tidal.com link is a Tidal track with source `Tidal`; otherwise a Nebula link is a Nebula video with source `Nebula`, and a YouTube link a YouTube video with its embed id; otherwise an article whose source is the first listed site, else the hostname without `www.`, else `Unknown`; never an app link |
| ContentServer.DetectIgnoresCase | scripts/content-server.ts:41 | urls equal up to case get the same type, source and platform |
| ContentServer.BuildActivity | scripts/content-server.ts:201-228 | no activity without a url; otherwise the detected type and source, the given title, then the page title, then `Untitled`; the link in tidalUrl for Tidal and in url otherwise; the platform for videos and the embed id when one was found; the description iff given and the tags iff non-empty |
| ContentServer.FindIndex | scripts/content-server.ts:238 | the index is the first position with that id, or -1 when none has it |
| ContentServer.CountIdAppend | scripts/content-server.ts:238-240 | counting an id distributes over concatenation |
| ContentServer.RemoveFirstId | scripts/content-server.ts:238-240 | removing the first match takes out one entry with that id and keeps every other entry |
| ContentServer.ActivityFile.constructor | scripts/content-server.ts:90-96 | the file starts from the parsed activities, or none when reading fails |
| ContentServer.ActivityFile.Add | scripts/content-server.ts:201-234 | a request with a url puts the built activity at the front, and one without changes nothing |
| ContentServer.ActivityFile.Delete | scripts/content-server.ts:236-243 | delete succeeds iff the id occurs and then removes its first occurrence, otherwise nothing changes |
| TransformMusic.ReleaseActivities | scripts/transform-music.ts:52-66 | a release gives one activity per favourited track, in order |
| TransformMusic.FlattenedLength | scripts/transform-music.ts:47-66 | the output has one activity per favourited track of all releases |
| TransformMusic.FlattenedAppend | scripts/transform-music.ts:47-53 | flattening distributes over concatenating release lists |
| TransformMusic.FlattenedOrigin | scripts/transform-music.ts:53-65 | every activity is built from a favourited track of some release |
| TransformMusic.TrackIdentity | scripts/transform-music.ts:54-59 | the id and the url both end in the track number, and two ids are equal iff the track numbers are |
| TransformMusic.Transform | scripts/transform-music.ts:44-70 | the nested loops produce the flattening function |
| TransformMusic.BumpFacts | scripts/transform-music.ts:106-107 | a bump adds 1 to one artist's count and keeps the keys distinct |
| TransformMusic.TallyFacts | scripts/transform-music.ts:105-108 | the tally has one entry per artist with that artist's track count, the counts adding up to the number of tracks |
| TransformMusic.TallyByArtist | scripts/transform-music.ts:105-108 | the counting loop produces the tally function |
| TransformMusic.InsertFacts | scripts/transform-music.ts:112 | inserting keeps the list sorted by count and a permutation |
| TransformMusic.SortByCountFacts | scripts/transform-music.ts:111-112 | the sort is a permutation sorted by count descending |
| TransformMusic.TopArtistsFacts | scripts/transform-music.ts:110-114 | the top list has min(n, 5) entries, sorted, and no left-out artist counts more than any listed one |
| TidalVideos.FavoritedTracksFacts | scripts/fetch-tidal-videos.py:92-105 | one entry per favourited track of every release, each with some release's artist or `Unknown` |
| TidalVideos.GetFavoritedTracks | scripts/fetch-tidal-videos.py:92-105 | the loops build the favourited-track list |
| TidalVideos.UniqueArtistsFacts | scripts/fetch-tidal-videos.py:108-117 | the artists are distinct and non-empty, exactly the names releases give, and earlier releases' artists come first |
| TidalVideos.GetUniqueArtists | scripts/fetch-tidal-videos.py:108-117 | the set-and-list loop builds the unique-artist list |
| TidalVideos.NoArtistMatches | scripts/fetch-tidal-videos.py:131-132 | a result without an artist matches every query, since the empty name is contained in any name |
| TidalVideos.SearchVideoForTrack | scripts/fetch-tidal-videos.py:120-137 | no results give none; otherwise the videos whose artist contains the name, or the first result alone |
| TidalVideos.SearchFacts | scripts/fetch-tidal-videos.py:129-135 | the matches are the results whose artist matches; with no match the first result does not match; a result without an artist always yields a match |
| TidalVideos.FetchArtistVideos | scripts/fetch-tidal-videos.py:140-162 | no results give no videos; otherwise the videos of the first hit whose name equals the query ignoring case |
| TidalVideos.VideoDictIdentity | scripts/fetch-tidal-videos.py:178-191 | the dict's id and url end in the video number, and dict ids are equal iff video ids are |
| TidalVideos.KeepNewFacts | scripts/fetch-tidal-videos.py:230-234 | the kept videos have distinct ids, extend the earlier ones, come from the input and cover every input id |
| TidalVideos.AddUnseen | scripts/fetch-tidal-videos.py:230-234 | one search's results are added when their id is unseen, keeping the seen set and the dict list in step |
| TidalVideos.CollectVideos | scripts/fetch-tidal-videos.py:216-267 | given one search result per track and one fetch result per artist, the output holds the dicts of the first video of each id, track results before artist results, with the counts |
| TidalVideos.OutputIdsDistinct | scripts/fetch-tidal-videos.py:261-267 | the written videos have distinct ids, one per id found |
| Duration.PadStart2 | src/components/cards/TidalVideoCard.tsx:12 | padding yields at least two characters |
| Duration.TwoDigits | src/components/cards/TidalVideoCard.tsx:12 | seconds below 60 render as exactly two digits that read back |
| Duration.FormatDurationFacts | src/components/cards/TidalVideoCard.tsx:9-13 | minutes and two-digit seconds add back to the input and the text parses back to it |
| Duration.Badge | src/components/cards/TidalVideoCard.tsx:50-54 | as intended: the badge shows iff the image is shown and the duration is non-zero, then reads `formatDuration`, and nothing is rendered otherwise |
| Duration.BadgeSlotAsWritten | src/components/cards/TidalVideoCard.tsx:50-54 | as written: with the image shown, a missing duration renders nothing, a zero duration the text "0", and any other the badge |
| Duration.ZeroDurationShowsZero | src/components/cards/TidalVideoCard.tsx:50 | a zero duration under a shown cover renders a stray "0" |
| Duration.BadgeMatchesWrittenExceptZero | src/components/cards/TidalVideoCard.tsx:50-54 | the written slot and the intended badge agree on every input except a shown cover with duration 0 |
| Decimal.ParseNatToString | scripts/transform-music.ts:54 | a number's decimal text parses back to it |
| Decimal.PrefixedInjective | scripts/fetch-tidal-videos.py:179 | a fixed prefix followed by a number's text determines the number |
| Text.LowerIdempotent | scripts/content-server.ts:41 | lower-casing twice is lower-casing once |

## Findings

| source | as written | input that shows it | evidently intended | confidence | as-written member | corrected member |
|---|---|---|---|---|---|---|
| src/components/cards/TidalVideoCard.tsx:50 | `{activity.duration && (<div>…</div>)}` evaluates to the number 0 for a zero duration, and React renders it as the text "0" | a Tidal video with `duration: 0` and a cover image that loads | no badge and no text for a zero duration | medium, not executed | Duration.BadgeSlotAsWritten (Duration.ZeroDurationShowsZero) | Duration.Badge |

## Left out

- File, network and `localStorage` I/O and JSON parsing: a loaded file or a stored value is
  an `Option` parameter, and a write is the new state of a field.
- The RSS parser, `fetchPageTitle`, `new URL(url).hostname` and the tidalapi calls are
  inputs (their results, or `None` where they fail).
- `Date.now()`, `Math.random()` ids and `new Date()` are parameters. An invalid date is not
  modelled.
- The generator's numbers are modelled exactly. Doubles would lose the `random() * (i + 1)` index only
  for arrays beyond 2^21 items and the seed only beyond 2^53.
- Lower-casing is ASCII only. Strings are sequences of characters, not UTF-16 code
  units.
- React timing is not modelled: StrictMode double effects, render batching, and the
  `setTimeout(onOpen, 0)` deferral. The hook's open counter stands for the callback.
- Deck.GroupByType and Deck.LoadDeck: `byType` is a plain object, so an item whose type is
  the name of an `Object.prototype` member (`constructor`, `toString`, `__proto__`) finds a
  truthy value there. No bucket is created, `byType[type].push` throws, and the load ends
  in the error state with no deck. The model files such an item under `OtherKind` and
  builds the deck.
- Preferences.Adjusted, Preferences.GetWeight and TransformMusic.Tally (with its helpers
  TransformMusic.Bump and TransformMusic.CountOf): a plain object read as `obj[key] || 0`
  also sees the members of `Object.prototype`. Keys such as `constructor` or `toString`
  read a function there, which turns the weight into NaN and the count into a string. The
  model reads every key that was not stored as 0.
- Ingest.IngestMain and ContentServer.ActivityFile.constructor: they read `activities.json`
  as an object holding `activities`, and `generate-daily.ts` writes it as a bare array.
  After a daily run, `existingData.activities.map` in ingest.ts throws and nothing is
  written, and the add and delete routes of the content server throw. The model takes the
  parsed list as given and does not model the file's two shapes.
- `Object.entries` visits integer-like keys first. The model visits keys in insertion order.
- Ingest.SortByAddedAt: stability of `Array.prototype.sort` is not stated, only order and
  permutation.
- Ingest.IsManual: `manualEntries.includes(a)` compares objects by identity. It is modelled
  by the manual test itself, which selects the same objects.
- Track and video ids are natural numbers. Negative or fractional ids do not occur in the
  library.
- Duration.FormatDurationFacts: stated for non-negative whole seconds. Fractional durations
  are not modelled.
- TidalVideos.ArtistOrUnknown, TidalVideos.EntriesOf, TidalVideos.GetFavoritedTracks and
  TidalVideos.SearchVideoForTrack: a JSON `null` and a missing key are the same `None`.
  In the script, `release.get("artist", "Unknown")` gives `None` for a `null` artist,
  where the model gives "Unknown". A `null` `favorited_tracks` raises a `TypeError`,
  where the model reads it as no tracks.
- `image(640)` raising versus returning nothing are not distinguished.
- Printed statistics and console output (the match counters of the Python script, the log
  lines of the scripts) are not modelled.
- Express routing, the HTML form page, CORS and card rendering other than the duration
  badge are not modelled.
