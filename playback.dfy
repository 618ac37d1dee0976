/**
 * The player store's state and its actions as pure transitions
 * (src/lib/store.ts). The class `Store.PlayerStore` performs these
 * transitions in place; this module states and proves what they do.
 */
module Playback {
  import opened Wrappers
  import opened Seqs

  /**
   * A track as the client holds it. Identity is `id` (the database `_id`);
   * `mood` is optional and compared with `===`, so two missing moods are equal.
   */
  datatype Song = Song(
    id: string,
    name: string,
    artist: seq<string>,
    coverUrl: string,
    fileUrl: string,
    duration: int,
    mood: Option<string>)

  /** The four fields of the store. */
  datatype PlayerState = PlayerState(
    activeSong: Option<Song>,
    isPlaying: bool,
    queue: seq<Song>,
    isQueueOpen: bool)

  /** The ids in `queue` are pairwise different. */
  predicate UniqueIds(queue: seq<Song>) {
    forall i, j :: 0 <= i < j < |queue| ==> queue[i].id != queue[j].id
  }

  // ---------------------------------------------------------------------
  // The predicates playSmart and removeFromQueue filter with

  function OtherThan(id: string): Song -> bool {
    (s: Song) => s.id != id
  }

  function WithId(id: string): Song -> bool {
    (s: Song) => s.id == id
  }

  function SameMood(mood: Option<string>): Song -> bool {
    (s: Song) => s.mood == mood
  }

  function OtherMood(mood: Option<string>): Song -> bool {
    (s: Song) => s.mood != mood
  }

  function OtherThanWithMood(id: string, mood: Option<string>): Song -> bool {
    (s: Song) => s.id != id && s.mood == mood
  }

  function OtherThanWithoutMood(id: string, mood: Option<string>): Song -> bool {
    (s: Song) => s.id != id && s.mood != mood
  }

  // ---------------------------------------------------------------------
  // playSmart

  /** The other songs of the queue: every song whose id differs from the clicked one. */
  function Others(queue: seq<Song>, clicked: Song): seq<Song> {
    Filter(queue, OtherThan(clicked.id))
  }

  /** The same-mood group of the smart queue. */
  function SameMoodGroup(queue: seq<Song>, clicked: Song): seq<Song> {
    Filter(Others(queue, clicked), SameMood(clicked.mood))
  }

  /** The different-mood group of the smart queue. */
  function OtherMoodGroup(queue: seq<Song>, clicked: Song): seq<Song> {
    Filter(Others(queue, clicked), OtherMood(clicked.mood))
  }

  /** The queue playSmart builds on a non-empty queue: the clicked song, its mood, the rest. */
  function SmartQueue(queue: seq<Song>, clicked: Song): (r: seq<Song>)
    ensures |r| >= 1 && r[0] == clicked
  {
    [clicked] + SameMoodGroup(queue, clicked) + OtherMoodGroup(queue, clicked)
  }

  /** playSmart: reorder a non-empty queue by mood, then play the clicked song. */
  function PlaySmart(s: PlayerState, clicked: Song): (r: PlayerState)
    ensures r.activeSong == Some(clicked) && r.isPlaying
    ensures r.isQueueOpen == s.isQueueOpen
    ensures |s.queue| == 0 ==> r.queue == []
    ensures |s.queue| > 0 ==> |r.queue| >= 1 && r.queue[0] == clicked
  {
    if |s.queue| == 0 then s.(activeSong := Some(clicked), isPlaying := true)
    else s.(queue := SmartQueue(s.queue, clicked), activeSong := Some(clicked), isPlaying := true)
  }

  /** The same-mood group holds only songs of the clicked mood other than the clicked id, in queue order. */
  lemma SameMoodGroupFacts(queue: seq<Song>, clicked: Song)
    ensures var g := SameMoodGroup(queue, clicked);
            && (forall i :: 0 <= i < |g| ==> g[i].mood == clicked.mood && g[i].id != clicked.id)
            && IsSubsequence(g, queue)
  {
    FilterFilter(queue, OtherThan(clicked.id), SameMood(clicked.mood), OtherThanWithMood(clicked.id, clicked.mood));
    FilterIsSubsequence(queue, OtherThanWithMood(clicked.id, clicked.mood));
  }

  /** The different-mood group holds only songs of another mood other than the clicked id, in queue order. */
  lemma OtherMoodGroupFacts(queue: seq<Song>, clicked: Song)
    ensures var g := OtherMoodGroup(queue, clicked);
            && (forall i :: 0 <= i < |g| ==> g[i].mood != clicked.mood && g[i].id != clicked.id)
            && IsSubsequence(g, queue)
  {
    FilterFilter(queue, OtherThan(clicked.id), OtherMood(clicked.mood), OtherThanWithoutMood(clicked.id, clicked.mood));
    FilterIsSubsequence(queue, OtherThanWithoutMood(clicked.id, clicked.mood));
  }

  /**
   * After the clicked song come first the songs of its mood, then the others;
   * each group is an order-preserving selection from the old queue, and no
   * song there carries the clicked id.
   */
  lemma SmartQueueGroups(queue: seq<Song>, clicked: Song)
    ensures var r := SmartQueue(queue, clicked);
            var k := 1 + |SameMoodGroup(queue, clicked)|;
            && k <= |r|
            && (forall i :: 1 <= i < k ==> r[i].mood == clicked.mood && r[i].id != clicked.id)
            && (forall i :: k <= i < |r| ==> r[i].mood != clicked.mood && r[i].id != clicked.id)
            && IsSubsequence(r[1..k], queue)
            && IsSubsequence(r[k..], queue)
  {
    var r := SmartQueue(queue, clicked);
    var same, diff := SameMoodGroup(queue, clicked), OtherMoodGroup(queue, clicked);
    var k := 1 + |same|;
    assert r[1..k] == same && r[k..] == diff;
    SameMoodGroupFacts(queue, clicked);
    OtherMoodGroupFacts(queue, clicked);
    forall i | 1 <= i < k
      ensures r[i].mood == clicked.mood && r[i].id != clicked.id
    {
      assert r[i] == same[i - 1];
    }
    forall i | k <= i < |r|
      ensures r[i].mood != clicked.mood && r[i].id != clicked.id
    {
      assert r[i] == diff[i - k];
    }
  }

  /** Every same-mood song comes before every different-mood song after position 0. */
  lemma SmartQueueMoodOrder(queue: seq<Song>, clicked: Song)
    ensures var r := SmartQueue(queue, clicked);
            forall i, j :: 1 <= i < j < |r| && r[j].mood == clicked.mood ==> r[i].mood == clicked.mood
  {
    SmartQueueGroups(queue, clicked);
  }

  /**
   * Positions 1.. are the old queue without the clicked id, as a multiset;
   * the length is the old length, less the occurrences of that id, plus one.
   */
  lemma SmartQueueContents(queue: seq<Song>, clicked: Song)
    ensures var r := SmartQueue(queue, clicked);
            && multiset(r[1..]) == multiset(Filter(queue, OtherThan(clicked.id)))
            && |r| == |queue| - Count(queue, WithId(clicked.id)) + 1
  {
    var r := SmartQueue(queue, clicked);
    var others := Others(queue, clicked);
    assert r[1..] == SameMoodGroup(queue, clicked) + OtherMoodGroup(queue, clicked);
    FilterPartition(others, SameMood(clicked.mood), OtherMood(clicked.mood));
    FilterPartition(queue, WithId(clicked.id), OtherThan(clicked.id));
    FilterLength(queue, WithId(clicked.id));
    assert |multiset(queue)| == |queue|;
  }

  /** A clicked song whose id is not in the queue makes the queue one longer. */
  lemma SmartQueueOfNewSong(queue: seq<Song>, clicked: Song)
    requires forall i :: 0 <= i < |queue| ==> queue[i].id != clicked.id
    ensures |SmartQueue(queue, clicked)| == |queue| + 1
    ensures multiset(SmartQueue(queue, clicked)) == multiset(queue) + multiset{clicked}
  {
    FilterAll(queue, OtherThan(clicked.id));
    CountNone(queue, WithId(clicked.id));
    SmartQueueContents(queue, clicked);
    var r := SmartQueue(queue, clicked);
    assert r == [clicked] + r[1..];
  }

  /** No element satisfies `p`, so none is counted. */
  lemma {:induction false} CountNone(s: seq<Song>, p: Song -> bool)
    requires forall i :: 0 <= i < |s| ==> !p(s[i])
    ensures Count(s, p) == 0
    decreases |s|
  {
    if s != [] {
      CountNone(s[1..], p);
    }
  }

  // ---------------------------------------------------------------------
  // playNext / playPrevious

  /** Array.prototype.findIndex on the id: the first position holding `id`, or -1. */
  function FindIndex(queue: seq<Song>, id: string): (i: int)
    ensures -1 <= i < |queue|
    ensures 0 <= i ==> queue[i].id == id && forall j :: 0 <= j < i ==> queue[j].id != id
    ensures i == -1 ==> forall j :: 0 <= j < |queue| ==> queue[j].id != id
    decreases |queue|
  {
    if queue == [] then -1
    else if queue[0].id == id then 0
    else
      var k := FindIndex(queue[1..], id);
      if k == -1 then -1 else k + 1
  }

  /** With unique ids, the position of a song's id is that song's position. */
  lemma FindIndexUnique(queue: seq<Song>, k: nat)
    requires UniqueIds(queue) && k < |queue|
    ensures FindIndex(queue, queue[k].id) == k
  {
  }

  /** The index playNext moves to: one on, wrapping round; 0 when `id` is absent. */
  function NextIndex(queue: seq<Song>, id: string): (k: nat)
    requires |queue| > 0
    ensures k < |queue|
    ensures FindIndex(queue, id) == -1 ==> k == 0
    ensures 0 <= FindIndex(queue, id) < |queue| - 1 ==> k == FindIndex(queue, id) + 1
    ensures FindIndex(queue, id) == |queue| - 1 ==> k == 0
  {
    var i := FindIndex(queue, id) + 1;
    assert i < |queue| ==> i % |queue| == i;
    assert i == |queue| ==> i % |queue| == 0;
    i % |queue|
  }

  /** The index playPrevious moves to: one back, wrapping round; the last when `id` is absent. */
  function PrevIndex(queue: seq<Song>, id: string): (k: nat)
    requires |queue| > 0
    ensures k < |queue|
    ensures FindIndex(queue, id) == -1 ==> k == |queue| - 1
    ensures FindIndex(queue, id) == 0 ==> k == |queue| - 1
    ensures 0 < FindIndex(queue, id) ==> k == FindIndex(queue, id) - 1
  {
    var prev := FindIndex(queue, id) - 1;
    if prev < 0 then |queue| - 1 else prev
  }

  /** playNext: the next song of the queue; nothing happens without an active song or a queue. */
  function PlayNext(s: PlayerState): (r: PlayerState)
    ensures s.activeSong == None || |s.queue| == 0 ==> r == s
    ensures s.activeSong != None && |s.queue| > 0 ==>
              && r.queue == s.queue && r.isQueueOpen == s.isQueueOpen && r.isPlaying
              && r.activeSong == Some(s.queue[NextIndex(s.queue, s.activeSong.value.id)])
  {
    if s.activeSong == None || |s.queue| == 0 then s
    else s.(activeSong := Some(s.queue[NextIndex(s.queue, s.activeSong.value.id)]), isPlaying := true)
  }

  /** playPrevious: the previous song of the queue; nothing happens without an active song or a queue. */
  function PlayPrevious(s: PlayerState): (r: PlayerState)
    ensures s.activeSong == None || |s.queue| == 0 ==> r == s
    ensures s.activeSong != None && |s.queue| > 0 ==>
              && r.queue == s.queue && r.isQueueOpen == s.isQueueOpen && r.isPlaying
              && r.activeSong == Some(s.queue[PrevIndex(s.queue, s.activeSong.value.id)])
  {
    if s.activeSong == None || |s.queue| == 0 then s
    else s.(activeSong := Some(s.queue[PrevIndex(s.queue, s.activeSong.value.id)]), isPlaying := true)
  }

  /**
   * With an active song and a queue, playNext and playPrevious play a song of
   * the queue; when the active id is not in the queue they fall back to the
   * first and the last song.
   */
  lemma StepsStayInQueue(s: PlayerState)
    requires s.activeSong != None && |s.queue| > 0
    ensures PlayNext(s).activeSong.Some? && PlayNext(s).activeSong.value in s.queue
    ensures PlayPrevious(s).activeSong.Some? && PlayPrevious(s).activeSong.value in s.queue
    ensures FindIndex(s.queue, s.activeSong.value.id) == -1 ==>
              PlayNext(s).activeSong == Some(s.queue[0]) &&
              PlayPrevious(s).activeSong == Some(s.queue[|s.queue| - 1])
  {
  }

  /** With unique ids and the active song in the queue, next then previous restores the active id. */
  lemma NextThenPrevious(s: PlayerState)
    requires UniqueIds(s.queue)
    requires s.activeSong != None && FindIndex(s.queue, s.activeSong.value.id) >= 0
    ensures PlayPrevious(PlayNext(s)).activeSong.Some?
    ensures PlayPrevious(PlayNext(s)).activeSong.value.id == s.activeSong.value.id
  {
    var q, id := s.queue, s.activeSong.value.id;
    var i, n := FindIndex(q, id), NextIndex(q, id);
    FindIndexUnique(q, n);
    assert PlayNext(s).activeSong.value.id == q[n].id;
  }

  /** With unique ids and the active song in the queue, previous then next restores the active id. */
  lemma PreviousThenNext(s: PlayerState)
    requires UniqueIds(s.queue)
    requires s.activeSong != None && FindIndex(s.queue, s.activeSong.value.id) >= 0
    ensures PlayNext(PlayPrevious(s)).activeSong.Some?
    ensures PlayNext(PlayPrevious(s)).activeSong.value.id == s.activeSong.value.id
  {
    var q, id := s.queue, s.activeSong.value.id;
    var p := PrevIndex(q, id);
    FindIndexUnique(q, p);
    assert PlayPrevious(s).activeSong.value.id == q[p].id;
  }

  /** On a one-song queue holding the active id, playNext and playPrevious keep that id. */
  lemma SingleSongQueue(s: PlayerState)
    requires |s.queue| == 1 && s.activeSong != None && s.queue[0].id == s.activeSong.value.id
    ensures PlayNext(s).activeSong.value.id == s.activeSong.value.id
    ensures PlayPrevious(s).activeSong.value.id == s.activeSong.value.id
  {
    assert FindIndex(s.queue, s.activeSong.value.id) == 0;
  }

  // ---------------------------------------------------------------------
  // The plain field replacements

  /** setActiveSong: the given song (null in the settings page) starts playing. */
  function SetActiveSong(s: PlayerState, song: Option<Song>): (r: PlayerState)
    ensures r.activeSong == song && r.isPlaying
    ensures r.queue == s.queue && r.isQueueOpen == s.isQueueOpen
  {
    s.(activeSong := song, isPlaying := true)
  }

  /** setQueue: the queue is replaced verbatim. */
  function SetQueue(s: PlayerState, songs: seq<Song>): (r: PlayerState)
    ensures r.queue == songs
    ensures r.activeSong == s.activeSong && r.isPlaying == s.isPlaying && r.isQueueOpen == s.isQueueOpen
  {
    s.(queue := songs)
  }

  /**
   * reorderQueue: the same update as setQueue under another name; the queue
   * is replaced verbatim and nothing checks that it is a permutation.
   */
  function ReorderQueue(s: PlayerState, newQueue: seq<Song>): (r: PlayerState)
    ensures r.queue == newQueue
    ensures r.activeSong == s.activeSong && r.isPlaying == s.isPlaying && r.isQueueOpen == s.isQueueOpen
  {
    SetQueue(s, newQueue)
  }

  /** setIsPlaying: only the playing flag changes. */
  function SetIsPlaying(s: PlayerState, playing: bool): (r: PlayerState)
    ensures r.isPlaying == playing
    ensures r.activeSong == s.activeSong && r.queue == s.queue && r.isQueueOpen == s.isQueueOpen
  {
    s.(isPlaying := playing)
  }

  /** toggleQueue: only the drawer flag flips. */
  function ToggleQueue(s: PlayerState): (r: PlayerState)
    ensures r.isQueueOpen == !s.isQueueOpen
    ensures r.activeSong == s.activeSong && r.isPlaying == s.isPlaying && r.queue == s.queue
  {
    s.(isQueueOpen := !s.isQueueOpen)
  }

  /** Toggling the drawer twice leaves the state as it was. */
  lemma ToggleQueueTwice(s: PlayerState)
    ensures ToggleQueue(ToggleQueue(s)) == s
  {
  }

  /**
   * removeFromQueue: every song with the id goes, the rest keep their order;
   * the active song and the playing flag stay, even when the active song was removed.
   */
  function RemoveFromQueue(s: PlayerState, id: string): (r: PlayerState)
    ensures forall i :: 0 <= i < |r.queue| ==> r.queue[i].id != id
    ensures forall i :: 0 <= i < |s.queue| && s.queue[i].id != id ==> s.queue[i] in r.queue
    ensures r.activeSong == s.activeSong && r.isPlaying == s.isPlaying && r.isQueueOpen == s.isQueueOpen
  {
    s.(queue := Filter(s.queue, OtherThan(id)))
  }

  /** Removal keeps the remaining songs in their order and drops exactly the occurrences of the id. */
  lemma RemoveFromQueueOrder(s: PlayerState, id: string)
    ensures IsSubsequence(RemoveFromQueue(s, id).queue, s.queue)
    ensures |RemoveFromQueue(s, id).queue| == |s.queue| - Count(s.queue, WithId(id))
  {
    FilterIsSubsequence(s.queue, OtherThan(id));
    FilterPartition(s.queue, WithId(id), OtherThan(id));
    FilterLength(s.queue, WithId(id));
    assert |multiset(s.queue)| == |s.queue|;
  }

  /**
   * After the active song is removed, playNext still picks a song of the
   * queue (the first one) or, on an emptied queue, does nothing.
   */
  lemma RemoveActiveThenNext(s: PlayerState)
    requires s.activeSong != None
    ensures var t := RemoveFromQueue(s, s.activeSong.value.id);
            && (|t.queue| == 0 ==> PlayNext(t) == t)
            && (|t.queue| > 0 ==> PlayNext(t).activeSong == Some(t.queue[0]))
  {
  }
}
