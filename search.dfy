/**
 * The search page (src/app/search/page.tsx): the fetched songs are narrowed
 * by a text query, a mood and a duration bucket, each applied only when it
 * is set, and the filter state is changed by the page's handlers.
 */
module Search {
  import opened Wrappers
  import opened Strings
  import opened Seqs
  import opened Playback

  /** `artist.some(a => a.toLowerCase().includes(lowerQuery))`. */
  predicate AnyArtistContains(artists: seq<string>, lowerQuery: string)
    decreases |artists|
  {
    artists != [] && (Contains(ToLower(artists[0]), lowerQuery) || AnyArtistContains(artists[1..], lowerQuery))
  }

  /** `some` holds exactly when one of the artists, lowercased, contains the query. */
  lemma {:induction false} AnyArtistContainsIff(artists: seq<string>, lowerQuery: string)
    ensures AnyArtistContains(artists, lowerQuery)
        <==> exists i :: 0 <= i < |artists| && Contains(ToLower(artists[i]), lowerQuery)
    decreases |artists|
  {
    if artists != [] {
      AnyArtistContainsIff(artists[1..], lowerQuery);
      if exists i :: 0 <= i < |artists| && Contains(ToLower(artists[i]), lowerQuery) {
        var i :| 0 <= i < |artists| && Contains(ToLower(artists[i]), lowerQuery);
        if i > 0 {
          assert artists[1..][i - 1] == artists[i];
        }
      }
      if AnyArtistContains(artists[1..], lowerQuery) {
        var i :| 0 <= i < |artists[1..]| && Contains(ToLower(artists[1..][i]), lowerQuery);
        assert artists[i + 1] == artists[1..][i];
      }
    }
  }

  /** The text test of the first stage: the name or one of the artists contains the lowercased query. */
  predicate MatchesText(song: Song, lowerQuery: string) {
    Contains(ToLower(song.name), lowerQuery) || AnyArtistContains(song.artist, lowerQuery)
  }

  /** The duration test of the third stage; a choice other than the three buckets keeps every song. */
  predicate FitsDuration(choice: string, duration: int) {
    if choice == "short" then duration < 180
    else if choice == "medium" then 180 <= duration <= 300
    else if choice == "long" then duration > 300
    else true
  }

  /** A song passes the first stage: no query, or a text match. */
  predicate PassesText(query: string, song: Song) {
    query == "" || MatchesText(song, ToLower(query))
  }

  /** A song passes the second stage: no mood selected (null or ""), or exactly that mood. */
  predicate PassesMood(mood: Option<string>, song: Song) {
    !Present(mood) || song.mood == mood
  }

  /** A song passes the third stage: "all", or the bucket holds its duration. */
  predicate PassesDuration(choice: string, song: Song) {
    choice == "all" || FitsDuration(choice, song.duration)
  }

  /** A song is shown when it passes every stage. */
  predicate PassesAll(query: string, mood: Option<string>, choice: string, song: Song) {
    PassesText(query, song) && PassesMood(mood, song) && PassesDuration(choice, song)
  }

  function TextMatch(lowerQuery: string): Song -> bool {
    (song: Song) => MatchesText(song, lowerQuery)
  }

  function MoodIs(mood: string): Song -> bool {
    (song: Song) => song.mood == Some(mood)
  }

  function DurationIn(choice: string): Song -> bool {
    (song: Song) => FitsDuration(choice, song.duration)
  }

  function TextStage(query: string): Song -> bool {
    (song: Song) => PassesText(query, song)
  }

  function TextAndMood(query: string, mood: Option<string>): Song -> bool {
    (song: Song) => PassesText(query, song) && PassesMood(mood, song)
  }

  function Shown(query: string, mood: Option<string>, choice: string): Song -> bool {
    (song: Song) => PassesAll(query, mood, choice, song)
  }

  /** The songs the page lists for the given filter state. */
  function SearchResults(songs: seq<Song>, query: string, mood: Option<string>, choice: string): seq<Song> {
    Filter(songs, Shown(query, mood, choice))
  }

  /** The results keep the songs' order: they are a subsequence of the fetched list. */
  lemma ResultsAreSubsequence(songs: seq<Song>, query: string, mood: Option<string>, choice: string)
    ensures IsSubsequence(SearchResults(songs, query, mood, choice), songs)
    ensures |SearchResults(songs, query, mood, choice)| <= |songs|
  {
    FilterIsSubsequence(songs, Shown(query, mood, choice));
  }

  /** A fetched song is listed exactly when it passes every active filter. */
  lemma ShownIffPassesAll(songs: seq<Song>, query: string, mood: Option<string>, choice: string, i: nat)
    requires i < |songs|
    ensures songs[i] in SearchResults(songs, query, mood, choice) <==> PassesAll(query, mood, choice, songs[i])
  {
    var r := SearchResults(songs, query, mood, choice);
    if songs[i] in r {
      var j :| 0 <= j < |r| && r[j] == songs[i];
    }
  }

  /** With a non-empty query, a song passes the text stage exactly when its lowercased name or some lowercased artist contains the lowercased query. */
  lemma TextStageIff(query: string, song: Song)
    requires query != ""
    ensures PassesText(query, song)
        <==> Contains(ToLower(song.name), ToLower(query))
             || exists i :: 0 <= i < |song.artist| && Contains(ToLower(song.artist[i]), ToLower(query))
  {
    AnyArtistContainsIff(song.artist, ToLower(query));
  }

  /** A selected mood keeps exactly the songs of that mood. */
  lemma MoodStageIff(mood: string, song: Song)
    requires mood != ""
    ensures PassesMood(Some(mood), song) <==> song.mood == Some(mood)
  {
  }

  /** Every duration lies in exactly one of the three buckets. */
  lemma ExactlyOneBucket(duration: int)
    ensures FitsDuration("short", duration) || FitsDuration("medium", duration) || FitsDuration("long", duration)
    ensures !(FitsDuration("short", duration) && FitsDuration("medium", duration))
    ensures !(FitsDuration("short", duration) && FitsDuration("long", duration))
    ensures !(FitsDuration("medium", duration) && FitsDuration("long", duration))
  {
  }

  /** With no query, no mood and "all", every fetched song is listed, in order. */
  lemma NoFiltersShowAll(songs: seq<Song>)
    ensures SearchResults(songs, "", None, "all") == songs
  {
    FilterAll(songs, Shown("", None, "all"));
  }

  /** The mood pill's click: clicking the selected mood clears it, any other selects it. */
  function ToggleMood(selected: Option<string>, mood: string): (r: Option<string>)
    ensures selected == Some(mood) ==> r == None
    ensures selected != Some(mood) ==> r == Some(mood)
  {
    if selected == Some(mood) then None else Some(mood)
  }

  /** Clicking the same pill twice from no selection comes back to no selection. */
  lemma ToggleMoodTwice(mood: string)
    ensures ToggleMood(ToggleMood(None, mood), mood) == None
    ensures ToggleMood(None, mood) == Some(mood)
  {
  }

  /** isCurrentSong: a result row shows the playing indicator only for the active song while it plays. */
  function IsCurrentSong(activeSong: Option<Song>, isPlaying: bool, id: string): (r: bool)
    ensures r <==> activeSong.Some? && activeSong.value.id == id && isPlaying
  {
    match activeSong
    case None => false
    case Some(song) => song.id == id && isPlaying
  }

  /** A paused player marks no row, even the active song's. */
  lemma PausedMarksNoRow(activeSong: Option<Song>, id: string)
    ensures !IsCurrentSong(activeSong, false, id)
  {
  }

  /** The page's state: the filter inputs, the fetched songs and the listed songs. */
  class SearchPage {
    var query: string
    var selectedMood: Option<string>
    var selectedDuration: string
    var songs: seq<Song>
    var filteredSongs: seq<Song>

    /** The filter effect has run for the current inputs. */
    predicate Synced()
      reads this
    {
      filteredSongs == SearchResults(songs, query, selectedMood, selectedDuration)
    }

    /** Before the fetch: no filters and no songs. */
    constructor ()
      ensures query == "" && selectedMood == None && selectedDuration == "all"
      ensures songs == [] && filteredSongs == []
      ensures Synced()
    {
      query, selectedMood, selectedDuration := "", None, "all";
      songs, filteredSongs := [], [];
    }

    /**
     * The filter effect: `result` starts as all songs and each active stage
     * narrows it; the final list is the songs that pass every stage.
     */
    method RunFilter()
      modifies this
      ensures Synced()
      ensures query == old(query) && selectedMood == old(selectedMood)
      ensures selectedDuration == old(selectedDuration) && songs == old(songs)
    {
      var result := songs;
      if query != "" {
        var lowerQuery := ToLower(query);
        result := Filter(result, TextMatch(lowerQuery));
        FilterExt(songs, TextMatch(lowerQuery), TextStage(query));
      } else {
        FilterAll(songs, TextStage(query));
      }
      assert result == Filter(songs, TextStage(query));
      if Present(selectedMood) {
        FilterFilter(songs, TextStage(query), MoodIs(selectedMood.value), TextAndMood(query, selectedMood));
        result := Filter(result, MoodIs(selectedMood.value));
      } else {
        FilterExt(songs, TextStage(query), TextAndMood(query, selectedMood));
      }
      assert result == Filter(songs, TextAndMood(query, selectedMood));
      if selectedDuration != "all" {
        FilterFilter(songs, TextAndMood(query, selectedMood), DurationIn(selectedDuration),
                     Shown(query, selectedMood, selectedDuration));
        result := Filter(result, DurationIn(selectedDuration));
      } else {
        FilterExt(songs, TextAndMood(query, selectedMood), Shown(query, selectedMood, selectedDuration));
      }
      filteredSongs := result;
    }

    /** The fetch's success: both lists take the fetched songs, then the effect runs. */
    method LoadSongs(fetched: seq<Song>)
      modifies this
      ensures songs == fetched && Synced()
      ensures query == old(query) && selectedMood == old(selectedMood)
      ensures selectedDuration == old(selectedDuration)
    {
      songs := fetched;
      filteredSongs := fetched;
      RunFilter();
    }

    /** Typing in the search box, then the effect. */
    method SetQuery(text: string)
      modifies this
      ensures query == text && Synced()
      ensures selectedMood == old(selectedMood) && selectedDuration == old(selectedDuration)
      ensures songs == old(songs)
    {
      query := text;
      RunFilter();
    }

    /** A mood pill's click, then the effect. */
    method SelectMood(mood: string)
      modifies this
      ensures selectedMood == ToggleMood(old(selectedMood), mood) && Synced()
      ensures query == old(query) && selectedDuration == old(selectedDuration)
      ensures songs == old(songs)
    {
      selectedMood := if selectedMood == Some(mood) then None else Some(mood);
      RunFilter();
    }

    /** Choosing a duration in the select box, then the effect. */
    method SetDuration(choice: string)
      modifies this
      ensures selectedDuration == choice && Synced()
      ensures query == old(query) && selectedMood == old(selectedMood)
      ensures songs == old(songs)
    {
      selectedDuration := choice;
      RunFilter();
    }

    /** clearFilters, then the effect: every fetched song is listed again. */
    method ClearFilters()
      modifies this
      ensures query == "" && selectedMood == None && selectedDuration == "all"
      ensures songs == old(songs) && filteredSongs == songs
    {
      query := "";
      selectedMood := None;
      selectedDuration := "all";
      RunFilter();
      NoFiltersShowAll(songs);
    }
  }
}
