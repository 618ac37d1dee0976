# rythmiq in Dafny

This project models the core of rythmiq, a Next.js music-streaming app, and proves properties of that model:

- **The player store** (`usePlayer`): the active song, the playing flag, the queue and the queue drawer flag. Its actions include the mood-grouping "smart play" and the wrap-around next and previous steps.
- **The views that drive the store:**
  - the player bar: volume, mute, seek, media-session handlers and the end-of-track step;
  - the queue drawer: drag-and-drop reordering, removal and the "current" highlight;
  - the settings page's "clear queue".
- **Song display:**
  - the comma-splitting artist list;
  - `formatDuration`;
  - the LRC lyrics parser and the choice between synced and plain lyrics.
- **The search page's staged filter.**
- **The artists endpoint's aggregation pipeline** (unwind, split, trim, sort by date, group, project, sort by name), and the artists page's in-place sort by track count.
- **Song creation:**
  - the song upload endpoint;
  - the song schema's defaults and checks;
  - the upload form's status, its gating and its simulated progress timer.

Layout:

- **Pure code** is modelled with datatypes, functions and lemmas. This covers the store's transitions (`Playback`), string helpers (`Strings`), sequence filtering (`Seqs`), `ArtistList`, `Utils`, the aggregation (`ArtistsRoute`), the schema (`SongSchema`) and the endpoint (`SongsRoute`).
- **Code that updates state in place** is modelled with classes whose methods are proved against those functions:
  - the store (`Store.PlayerStore`);
  - the player bar's controls (`PlayerView.PlayerControls`);
  - the search page (`Search.SearchPage`);
  - the upload form (`Upload.UploadForm`).
- **Loops** are modelled as methods with invariants:
  - the LRC parser's line loop (`Lyrics.ParseLrc`);
  - the artists page's array sort (`ArtistsPage.SortArtists`);
  - the progress timer's firings (`Upload.UploadForm.RunTimer`).

Modelling conventions:

- JavaScript truthiness of an optional string (`!name`, `mood || "Chill"`) is `Strings.Present`: the string is present and not empty.
- A song's optional mood is an `Option<string>`, compared with `===`, so two missing moods are equal.
- Durations are whole seconds.
- The player's volume and time are `real`s.
- Lyric times are whole hundredths of a second, so they stay exact.

Two behaviours of the code are modelled as written:

- A three-digit LRC fraction is divided by 100, like a two-digit one, so `[00:01.500]` is read as 6 seconds (`Lyrics.ThreeDigitFraction`).
- A text `artist` field in the upload request keeps its empty pieces (`"A,"` is stored as `["A", ""]`, `SongsRoute.TrailingCommaKeepsEmptyPiece`). The artist list and the aggregation drop or group those pieces later.

## Model

| member | source | states |
|---|---|---|
| Strings.Trim | src/components/ArtistList.tsx:15 | the result is the piece of the input left after its leading and trailing whitespace, and it has no whitespace at either end |
| Strings.TrimUnique | src/components/ArtistList.tsx:15 | any piece of the input with only whitespace around it and none at its own ends is the trim, so the trim is determined |
| Strings.TrimIdempotent | src/components/ArtistList.tsx:15 | trimming twice is trimming once |
| Strings.Split | src/components/ArtistList.tsx:14 | there is at least one piece and no piece contains the separator |
| Strings.SplitJoin | src/components/ArtistList.tsx:14 | joining the pieces with the separator gives back the string |
| Strings.ContainsIffOccurs | src/app/search/page.tsx:75-76 | `includes` holds exactly when the query occurs at some position |
| Strings.LessTransitive | src/app/api/artists/route.ts:53 | the name order used for sorting is transitive (and, with LessIrreflexive, LessTotal and LessAsymmetric, a strict total order) |
| Strings.Compare | src/app/artists/page.tsx:32 | `localeCompare` is negative, zero or positive exactly when the first name sorts before, equals, or sorts after the second |
| Seqs.Filter | src/lib/store.ts:46 | `filter` keeps exactly the elements satisfying the predicate, and no more of them than there were |
| Seqs.FilterIsSubsequence | src/lib/store.ts:46 | a filtered list is an order-preserving selection from the original |
| Seqs.FilterPartition | src/lib/store.ts:67-68 | filtering by a predicate and by its negation splits the list's multiset in two |
| Playback.SmartQueue | src/lib/store.ts:63-71 | the smart queue starts with the clicked song |
| Playback.PlaySmart | src/lib/store.ts:54-78 | the clicked song becomes active and plays; an empty queue stays empty, any other starts with the clicked song; the drawer flag is unchanged |
| Playback.SmartQueueGroups | src/lib/store.ts:63-71 | after the clicked song come the songs of its mood, then the songs of other moods; neither group holds the clicked id and each is a subsequence of the old queue |
| Playback.SmartQueueMoodOrder | src/lib/store.ts:67-71 | no different-mood song comes before a same-mood song |
| Playback.SmartQueueContents | src/lib/store.ts:64-71 | the songs after the first are the old queue minus the clicked id, as a multiset; the length is the old length minus that id's occurrences plus one |
| Playback.SmartQueueOfNewSong | src/lib/store.ts:64-71 | a song not in the queue is added: the multiset grows by exactly that song |
| Playback.FindIndex | src/lib/store.ts:86 | `findIndex` returns the first position holding the id, or -1 when none does |
| Playback.NextIndex | src/lib/store.ts:86-89 | next index is one on, wrapping to 0 after the last, and 0 when the active id is absent |
| Playback.PrevIndex | src/lib/store.ts:98-103 | previous index is one back, wrapping to the last from 0, and the last when the active id is absent |
| Playback.PlayNext | src/lib/store.ts:82-92 | without an active song or a queue nothing changes; otherwise the song at the next index plays and the queue and drawer flag are unchanged |
| Playback.PlayPrevious | src/lib/store.ts:94-106 | without an active song or a queue nothing changes; otherwise the song at the previous index plays and the queue and drawer flag are unchanged |
| Playback.StepsStayInQueue | src/lib/store.ts:82-106 | with an active song and a queue, both steps play a song of the queue; an absent active id falls back to the first and the last song |
| Playback.NextThenPrevious | src/lib/store.ts:82-106 | with unique ids and the active song queued, next then previous returns to the same song id |
| Playback.PreviousThenNext | src/lib/store.ts:82-106 | with unique ids and the active song queued, previous then next returns to the same song id |
| Playback.SingleSongQueue | src/lib/store.ts:82-106 | on a one-song queue holding the active id, both steps keep that song |
| Playback.SetActiveSong | src/lib/store.ts:37 | the given song becomes active and playing starts; queue and drawer flag are unchanged |
| Playback.SetQueue | src/lib/store.ts:39 | only the queue changes, to exactly the given list |
| Playback.SetIsPlaying | src/lib/store.ts:41 | only the playing flag changes |
| Playback.ToggleQueue | src/lib/store.ts:43 | only the drawer flag changes, to its negation |
| Playback.ToggleQueueTwice | src/lib/store.ts:43 | toggling twice restores the state |
| Playback.ReorderQueue | src/lib/store.ts:49 | only the queue changes, to exactly the given list |
| Playback.RemoveFromQueue | src/lib/store.ts:45-47 | no song with the id remains, every other song remains, and the active song and flags are unchanged even when the active song was removed |
| Playback.RemoveFromQueueOrder | src/lib/store.ts:45-47 | the remaining songs keep their order and exactly the occurrences of the id are dropped |
| Playback.RemoveActiveThenNext | src/lib/store.ts:45-47 | after removing the active song, next plays the first remaining song, or does nothing on an emptied queue |
| Store.PlayerStore.constructor | src/lib/store.ts:31-35 | the store starts with no active song, not playing, an empty queue and a closed drawer |
| Store.PlayerStore.SetActiveSong | src/lib/store.ts:37 | the fields become `Playback.SetActiveSong` of the old fields |
| Store.PlayerStore.SetQueue | src/lib/store.ts:39 | the fields become `Playback.SetQueue` of the old fields |
| Store.PlayerStore.SetIsPlaying | src/lib/store.ts:41 | the fields become `Playback.SetIsPlaying` of the old fields |
| Store.PlayerStore.ToggleQueue | src/lib/store.ts:43 | the fields become `Playback.ToggleQueue` of the old fields |
| Store.PlayerStore.RemoveFromQueue | src/lib/store.ts:45-47 | the fields become `Playback.RemoveFromQueue` of the old fields |
| Store.PlayerStore.ReorderQueue | src/lib/store.ts:49 | the fields become `Playback.ReorderQueue` of the old fields |
| Store.PlayerStore.PlaySmart | src/lib/store.ts:54-78 | the in-place filters and assignments leave the fields equal to `Playback.PlaySmart` of the old fields |
| Store.PlayerStore.PlayNext | src/lib/store.ts:82-92 | the modular step leaves the fields equal to `Playback.PlayNext` of the old fields |
| Store.PlayerStore.PlayPrevious | src/lib/store.ts:94-106 | the decrement with wrap-around leaves the fields equal to `Playback.PlayPrevious` of the old fields |
| QueueDrawer.Move | src/components/QueueDrawer.tsx:26-28 | the two splices keep the length and put the picked-up song at the destination |
| QueueDrawer.MoveKeepsOthersInOrder | src/components/QueueDrawer.tsx:26-28 | apart from the moved song, the queue keeps its old order |
| QueueDrawer.MoveIsPermutation | src/components/QueueDrawer.tsx:26-28 | the reordered queue has the same songs as before |
| QueueDrawer.MoveToSameIndex | src/components/QueueDrawer.tsx:26-28 | dropping a song where it was picked up changes nothing |
| QueueDrawer.MoveBack | src/components/QueueDrawer.tsx:26-28 | dragging the song back undoes the move |
| QueueDrawer.HandleOnDragEnd | src/components/QueueDrawer.tsx:23-31 | a drop outside the list changes nothing; otherwise the queue becomes the moved queue through `reorderQueue` |
| QueueDrawer.IsCurrent | src/components/QueueDrawer.tsx:33 | a row is current exactly when there is an active song with the row's id |
| QueueDrawer.OnRowClick | src/components/QueueDrawer.tsx:86 | a row click makes its song active and playing without touching the queue |
| QueueDrawer.OnRemoveClick | src/components/QueueDrawer.tsx:115 | the remove button applies `removeFromQueue` with the row's id |
| PlayerView.EffectiveVolume | src/components/player/Player.tsx:130-135 | the audio element is silent while muted and plays at the stored volume otherwise, within [0, 1] |
| PlayerView.MutedIconIffSilent | src/components/player/Player.tsx:376 | the crossed-out speaker shows exactly when the effective volume is zero |
| PlayerView.PlayerControls.constructor | src/components/player/Player.tsx:45-48 | the player starts at full volume, unmuted, at time 0 |
| PlayerView.PlayerControls.SliderValue | src/components/player/Player.tsx:385 | the slider shows 0 while muted and the stored volume otherwise, which is the audio element's volume |
| PlayerView.PlayerControls.ApplyVolume | src/components/player/Player.tsx:130-135 | the volume effect writes the effective volume into the audio element and changes nothing else |
| PlayerView.PlayerControls.HandleVolumeChange | src/components/player/Player.tsx:147-151 | the slider value is stored; a positive one unmutes, zero keeps the mute flag |
| PlayerView.PlayerControls.ToggleMute | src/components/player/Player.tsx:153 | only the mute flag flips; the stored volume is kept |
| PlayerView.PlayerControls.HandleSeek | src/components/player/Player.tsx:142-145 | both the audio element's time and the shown time become the requested time |
| PlayerView.PlayerControls.OnTimeUpdate | src/components/player/Player.tsx:140 | the shown time takes the audio element's time |
| PlayerView.MuteThenUnmute | src/components/player/Player.tsx:153 | muting then unmuting restores the flags and the audible volume |
| PlayerView.HandleMediaAction | src/components/player/Player.tsx:95-98 | play and pause set the flag; previous and next apply the store's steps |
| PlayerView.OnEnded | src/components/player/Player.tsx:167 | a finished track steps to the next one |
| PlayerView.OnPlayPauseClick | src/components/player/Player.tsx:274 | the button flips the playing flag |
| PlayerView.OnUpNextClick | src/components/player/Player.tsx:230 | a row of the up-next list plays its song with `playSmart` |
| ArtistList.DisplayArtists | src/components/ArtistList.tsx:13-16 | every displayed name is non-empty, comma-free and trimmed |
| ArtistList.DisplayOneEntry | src/components/ArtistList.tsx:13-16 | one entry shows its comma-separated pieces, trimmed, in order, with the empty ones dropped |
| ArtistList.DisplayAppend | src/components/ArtistList.tsx:13-16 | the names of several entries are the entries' names one after another |
| ArtistList.DisplayIdempotent | src/components/ArtistList.tsx:13-16 | normalising already displayed names changes nothing |
| ArtistList.Separator | src/components/ArtistList.tsx:29 | ", " follows every name except the last |
| ArtistList.RenderIsJoin | src/components/ArtistList.tsx:20-29 | the rendered text is the names joined with ", " |
| Utils.TwoDigits | src/lib/utils.ts:14 | the seconds field is always two digits whose value is the seconds |
| Utils.FormatDuration | src/lib/utils.ts:10-15 | zero seconds read "0:00" |
| Utils.FormatDurationShape | src/lib/utils.ts:10-15 | the text is the whole minutes, ':' and a two-digit seconds field below 60 |
| Utils.FormatDurationRoundTrip | src/lib/utils.ts:10-15 | reading the text back as minutes * 60 + seconds gives the input |
| Utils.FormatExample | src/lib/utils.ts:9 | 125 seconds read "2:05" |
| Utils.FormatNoHours | src/lib/utils.ts:12-14 | an hour reads "60:00": there is no hours field |
| Lyrics.UpToTerminator | src/components/LyricsPanel.tsx:24 | the captured text is the longest prefix without a line terminator |
| Lyrics.Contribution | src/components/LyricsPanel.tsx:27-34 | a line adds at most one entry |
| Lyrics.ParseLrc | src/components/LyricsPanel.tsx:21-37 | the loop's result is the entries of the matching lines, in line order |
| Lyrics.ParsedAtMostLines | src/components/LyricsPanel.tsx:21-37 | there are never more entries than lines |
| Lyrics.ParsedAppend | src/components/LyricsPanel.tsx:26-35 | the entries of two blocks of lines are the first block's followed by the second's |
| Lyrics.ParsedSingle | src/components/LyricsPanel.tsx:27-34 | a single line yields its match or nothing |
| Lyrics.UnstampedLineSkipped | src/components/LyricsPanel.tsx:24 | a line not starting with '[' does not match |
| Lyrics.StampedLineParses | src/components/LyricsPanel.tsx:24-33 | "[mm:ss.cc]text" gives time mm*60 + ss + cc/100 seconds and the trimmed text, seconds unchecked |
| Lyrics.ThreeDigitFraction | src/components/LyricsPanel.tsx:24-32 | "[mm:ss.fff]" matches, and its three fraction digits count as that many hundredths: the fraction is divided by 100 as for two digits |
| Lyrics.ChooseLyrics | src/components/LyricsPanel.tsx:79-85 | synced lyrics are parsed when present, else plain lyrics become one line at 0, else the "Lyrics not available." message |
| Search.AnyArtistContainsIff | src/app/search/page.tsx:76 | `some` holds exactly when one lowercased artist contains the query |
| Search.TextStageIff | src/app/search/page.tsx:72-78 | with a query, a song passes exactly when its lowercased name or some lowercased artist contains the lowercased query |
| Search.MoodStageIff | src/app/search/page.tsx:81-83 | a selected mood keeps exactly the songs of that mood |
| Search.ExactlyOneBucket | src/app/search/page.tsx:88-90 | every duration is in exactly one of short, medium and long |
| Search.ResultsAreSubsequence | src/app/search/page.tsx:68-96 | the results keep the fetched order and are no more than the fetched songs |
| Search.ShownIffPassesAll | src/app/search/page.tsx:68-96 | a fetched song is listed exactly when it passes every active stage |
| Search.NoFiltersShowAll | src/app/search/page.tsx:99-103 | with no query, no mood and "all", every song is listed |
| Search.ToggleMood | src/app/search/page.tsx:144 | clicking the selected mood clears it and any other selects it |
| Search.ToggleMoodTwice | src/app/search/page.tsx:144 | two clicks on a pill return to no selection |
| Search.IsCurrentSong | src/app/search/page.tsx:46 | a row is marked exactly when its id is the active song's and it is playing |
| Search.PausedMarksNoRow | src/app/search/page.tsx:46 | a paused player marks no row |
| Search.SearchPage.constructor | src/app/search/page.tsx:37-42 | the page starts with no query, no mood, "all", and no songs |
| Search.SearchPage.RunFilter | src/app/search/page.tsx:68-96 | after the three staged narrowings the listed songs are exactly the fetched songs passing every stage |
| Search.SearchPage.LoadSongs | src/app/search/page.tsx:49-65 | the fetched songs are stored and the listed songs are in sync with the filters |
| Search.SearchPage.SetQuery | src/app/search/page.tsx:120 | the query is stored and the listed songs are in sync |
| Search.SearchPage.SelectMood | src/app/search/page.tsx:144 | the mood toggles and the listed songs are in sync |
| Search.SearchPage.SetDuration | src/app/search/page.tsx:164 | the bucket is stored and the listed songs are in sync |
| Search.SearchPage.ClearFilters | src/app/search/page.tsx:99-103 | the filters reset and every fetched song is listed |
| ArtistsRoute.SongRows | src/app/api/artists/route.ts:15-28 | one row per cleaned name of the song, in order |
| ArtistsRoute.UnwoundMembers | src/app/api/artists/route.ts:11-28 | the rows are exactly the pairs of a song and one of its split-and-trimmed names |
| ArtistsRoute.SortNewest | src/app/api/artists/route.ts:31 | the date sort keeps the same rows |
| ArtistsRoute.SortNewestIsSorted | src/app/api/artists/route.ts:31 | the rows come newest first |
| ArtistsRoute.FirstWith | src/app/api/artists/route.ts:38 | `$first` sees the first row with the name, or none exists |
| ArtistsRoute.BucketIndex | src/app/api/artists/route.ts:34-40 | the group lookup finds a bucket with the name, or none exists |
| ArtistsRoute.AddRowGroups | src/app/api/artists/route.ts:34-40 | adding a row keeps each bucket the id set and first cover of its name |
| ArtistsRoute.GroupIsGrouping | src/app/api/artists/route.ts:34-40 | `$group` gives one bucket per name, holding that name's song ids and the cover of its first row |
| ArtistsRoute.Project | src/app/api/artists/route.ts:43-50 | each artist has the bucket's name, the size of its id set and its cover |
| ArtistsRoute.SortByName | src/app/api/artists/route.ts:53 | the name sort keeps the same artists |
| ArtistsRoute.SortByNameAscending | src/app/api/artists/route.ts:53 | with distinct names, the output is strictly ascending by name |
| ArtistsRoute.AggregateSorted | src/app/api/artists/route.ts:9-54 | the response is strictly ascending by name |
| ArtistsRoute.AggregateNames | src/app/api/artists/route.ts:9-54 | the response names are exactly the cleaned artist names of the songs |
| ArtistsRoute.AggregateCounts | src/app/api/artists/route.ts:37-47 | each count is the number of distinct songs carrying the name, at least 1 |
| ArtistsRoute.AggregateCover | src/app/api/artists/route.ts:31-38 | each cover is the cover of a newest song carrying the name |
| ArtistsPage.CompareArtists | src/app/artists/page.tsx:26-33 | higher counts come first; equal counts go by name; zero exactly for equal count and name |
| ArtistsPage.CompareAntisymmetric | src/app/artists/page.tsx:26-33 | swapping the arguments flips the comparator's sign |
| ArtistsPage.InOrderTransitive | src/app/artists/page.tsx:26-33 | the comparator's order is transitive |
| ArtistsPage.InOrderTotal | src/app/artists/page.tsx:26-33 | any two artists are ordered one way or the other |
| ArtistsPage.NeighboursSorted | src/app/artists/page.tsx:26-33 | ordered neighbours give a sorted list |
| ArtistsPage.HigherCountFirst | src/app/artists/page.tsx:28-29 | in the sorted list counts never increase |
| ArtistsPage.EqualCountsByName | src/app/artists/page.tsx:31-32 | equal counts stand in name order |
| ArtistsPage.SortArtists | src/app/artists/page.tsx:26-33 | the in-place sort leaves the array ordered by the comparator with the same records |
| ArtistsPage.TrackLabel | src/app/artists/page.tsx:95 | "track" exactly for a count of 1, "tracks" otherwise |
| SongSchema.ParseMood | src/models/Song.ts:39-44 | an accepted mood string is the name of the mood it gives |
| SongSchema.MoodNameRoundTrip | src/models/Song.ts:42 | every mood's name is accepted as that mood |
| SongSchema.ParseMoodIff | src/models/Song.ts:42 | the enum accepts exactly the seven names |
| SongSchema.Validate | src/models/Song.ts:14-47 | a saved song's name is the trimmed given name, not empty |
| SongSchema.ValidateIff | src/models/Song.ts:14-47 | a song is saved exactly when the name trims to non-empty, both URLs are non-empty, duration is present and >= 0, and the mood (default Chill) is in the enum; the artist array never blocks saving |
| SongSchema.ValidateFields | src/models/Song.ts:14-47 | a saved song keeps the given fields, with "" and "Chill" for absent optional ones and [] for an absent artist |
| SongSchema.AbsentArtistIsEmptyList | src/models/Song.ts:21-24 | an absent artist array is checked and saved exactly as the empty array |
| SongSchema.MoodDefaultsToChill | src/models/Song.ts:43 | without a mood the song is saved as Chill |
| SongSchema.NegativeDurationRefused | src/models/Song.ts:36 | a negative duration is refused |
| SongSchema.BlankNameRefused | src/models/Song.ts:16-20 | a whitespace-only name is refused as missing |
| SongsRoute.ArtistArray | src/app/api/songs/route.ts:30-32 | an array is passed through; a string is split on commas and each piece trimmed, so no piece holds a comma |
| SongsRoute.DurationSeconds | src/app/api/songs/route.ts:40 | a number is kept; a missing or non-numeric duration becomes 0 |
| SongsRoute.MoodOrChill | src/app/api/songs/route.ts:42 | a missing or empty mood becomes "Chill" |
| SongsRoute.Post | src/app/api/songs/route.ts:13-53 | the response is 400 "Missing fields" exactly when name, artist, fileUrl or coverUrl is falsy |
| SongsRoute.PostCreatedIff | src/app/api/songs/route.ts:15-43 | a song is created exactly when the fields are present and the schema accepts the normalised song |
| SongsRoute.PostCreatedFields | src/app/api/songs/route.ts:35-43 | the created song holds the trimmed name, the artist array, the URLs, the duration, the placeholder or "" and the mood |
| SongsRoute.PlaceholderFailureStillCreates | src/app/api/songs/route.ts:19-28 | a failed placeholder still creates the song, with an empty placeholder |
| SongsRoute.TrailingCommaKeepsEmptyPiece | src/app/api/songs/route.ts:32 | "A," is stored as ["A", ""] |
| SongsRoute.NegativeDurationIsServerError | src/app/api/songs/route.ts:35-53 | a negative duration passes the field check and ends in 500 |
| Upload.EmptyForm | src/app/upload/page.tsx:15-21 | the empty form has empty text fields and mood "Chill" |
| Upload.ProgressTick | src/app/upload/page.tsx:60-66 | progress settles at 90 from 90 or more and otherwise rises by 10 |
| Upload.TicksClimbToNinety | src/app/upload/page.tsx:57-69 | from a multiple of ten up to 90, n firings give min(90, start + 10n) |
| Upload.UploadForm.constructor | src/app/upload/page.tsx:10-21 | the form starts empty, idle, not loading, with no duration or progress |
| Upload.UploadForm.SubmitEnabled | src/app/upload/page.tsx:259 | the button is enabled exactly when not loading and the URL is ready |
| Upload.UploadForm.HandleFileUrlChange | src/app/upload/page.tsx:26-34 | the URL is stored; empty makes the form idle, anything else starts validating |
| Upload.UploadForm.OnLoadedMetadata | src/app/upload/page.tsx:38-47 | an infinite or NaN duration makes the form idle; a finite one is stored and the form is ready |
| Upload.UploadForm.OnAudioError | src/app/upload/page.tsx:49-54 | a load error makes the form idle |
| Upload.UploadForm.TimerTick | src/app/upload/page.tsx:59-67 | one firing applies the updater and clears the timer at 90 |
| Upload.UploadForm.RunTimer | src/app/upload/page.tsx:57-69 | after n firings the progress is the updater applied n times, never above 90, and the interval is still set exactly when the start plus 10 per firing stays at or below 90 |
| Upload.UploadForm.HandleSubmit | src/app/upload/page.tsx:71-79 | the request is sent exactly when the URL is ready; loading and the timer then start at 10 |
| Upload.UploadForm.OnUploadSucceeded | src/app/upload/page.tsx:91-93 | success clears the timer and shows 100 |
| Upload.UploadForm.ResetAfterSuccess | src/app/upload/page.tsx:96-109 | the delayed reset empties the form, makes it idle, and zeroes duration and progress |
| Upload.UploadForm.OnUploadFailed | src/app/upload/page.tsx:114-120 | a failure clears the timer, drops progress to 0 and stops loading |
| Upload.SubmitWhenNotReady | src/app/upload/page.tsx:73-76 | submitting an unready form changes nothing |
| Upload.UploadSucceeds | src/app/upload/page.tsx:71-109 | a successful upload with any number of firings ends with an empty, idle, reset form |
| Settings.ClearedState | src/app/settings/page.tsx:20-24 | clearing leaves an empty queue, no active song, not playing, and the drawer as it was |
| Settings.ClearedStepsAreNoOps | src/app/settings/page.tsx:20-24 | after clearing, next and previous change nothing |
| Settings.FinalWriteStopsPlayback | src/app/settings/page.tsx:21-23 | `setActiveSong` sets playing, so only the final `setIsPlaying(false)` stops playback |
| Settings.HandleClearQueue | src/app/settings/page.tsx:20-24 | the three store writes leave the cleared state |

## Left out

- Network and database I/O are parameters or absent:
  - the lrclib fetches and their 404 fallback search;
  - `fetch("/api/songs")` and `fetch("/api/artists")`;
  - `dbConnect`;
  - fetching and encoding the cover placeholder, which `SongsRoute.Post` takes as an optional parameter.
- Toasts, `router.refresh`, console logging and the audio element's `play()`/`pause()` promises are side effects with no state the model keeps.
- The upload page's `url.length > 10` toast on audio errors is one of these side effects and is not modelled.
- Timers are modelled as counts of firings, not real time. This covers the 300 ms progress interval and the 1 s reset delay.
- Durations are whole seconds (`nat`/`int`):
  - `Math.floor` of fractional seconds in `formatDuration` is not modelled;
  - the song endpoint's `Number(duration)` on fractional or infinite values is not modelled, only NaN, absent and integers.
- `Utils.FormatDuration`: it applies to natural numbers only, because negative or NaN durations are outside the whole-second model.
- The player's volume and time are exact reals, not floating point.
- Strings are sequences of code points:
  - `trim` strips ASCII whitespace only, so NBSP, the BOM and other Unicode spaces are kept;
  - `toLowerCase` lowers ASCII letters only;
  - `localeCompare` and MongoDB's name sort are modelled as code-point order, with no locale collation;
  - MongoDB's `$trim` is modelled like JavaScript's `trim`.
- `ArtistsRoute.Aggregate`:
  - MongoDB's `$sort` on equal `createdAt` values is modelled as a stable insertion sort;
  - the input is a list of song records, not a collection;
  - the route's 500 response on a database error is not modelled.
- `SongsRoute.Post`:
  - request fields are strings, string arrays or numbers;
  - other JSON types (objects, booleans) are not modelled;
  - the GET handler of the same file is not modelled.
- `SongSchema.Validate` reports the first failing check in field order. Mongoose collects every failing path; only whether the song is saved is relied on.
- The Web Audio graph (AudioVisualizer.tsx), the stream and cover proxy routes, the global search box and the search API route are not part of this model.
- `getAudioDuration` and `cn` in utils.ts are not part of this model.
- The settings page's cache-clearing simulation is a toast on a timer and is not modelled.
- The player's own `onLoadedMetadata` (storing the element's duration for the seek bar) only copies a value and is not modelled.
- The artists page's fetch, loading flag and card markup are not modelled beyond the sort and the label.
