/**
 * The `usePlayer` store (src/lib/store.ts): one object with four fields and
 * the actions that write them. Each action is one transition of
 * `Playback`, performed in place.
 */
module Store {
  import opened Wrappers
  import opened Playback

  class PlayerStore {
    var activeSong: Option<Song>
    var isPlaying: bool
    var queue: seq<Song>
    var isQueueOpen: bool

    /** The store's fields as one value. */
    function State(): PlayerState
      reads this
    {
      PlayerState(activeSong, isPlaying, queue, isQueueOpen)
    }

    /** The store starts with nothing active, nothing playing, an empty and closed queue. */
    constructor ()
      ensures activeSong == None && !isPlaying && queue == [] && !isQueueOpen
    {
      activeSong := None;
      isPlaying := false;
      queue := [];
      isQueueOpen := false;
    }

    method SetActiveSong(song: Option<Song>)
      modifies this
      ensures State() == Playback.SetActiveSong(old(State()), song)
    {
      activeSong, isPlaying := song, true;
    }

    method SetQueue(songs: seq<Song>)
      modifies this
      ensures State() == Playback.SetQueue(old(State()), songs)
    {
      queue := songs;
    }

    method SetIsPlaying(playing: bool)
      modifies this
      ensures State() == Playback.SetIsPlaying(old(State()), playing)
    {
      isPlaying := playing;
    }

    method ToggleQueue()
      modifies this
      ensures State() == Playback.ToggleQueue(old(State()))
    {
      isQueueOpen := !isQueueOpen;
    }

    method RemoveFromQueue(id: string)
      modifies this
      ensures State() == Playback.RemoveFromQueue(old(State()), id)
    {
      queue := Seqs.Filter(queue, OtherThan(id));
    }

    method ReorderQueue(newQueue: seq<Song>)
      modifies this
      ensures State() == Playback.ReorderQueue(old(State()), newQueue)
    {
      queue := newQueue;
    }

    method PlaySmart(clicked: Song)
      modifies this
      ensures State() == Playback.PlaySmart(old(State()), clicked)
    {
      if |queue| == 0 {
        activeSong, isPlaying := Some(clicked), true;
        return;
      }
      var others := Seqs.Filter(queue, OtherThan(clicked.id));
      var sameMood := Seqs.Filter(others, SameMood(clicked.mood));
      var diffMood := Seqs.Filter(others, OtherMood(clicked.mood));
      queue, activeSong, isPlaying := [clicked] + sameMood + diffMood, Some(clicked), true;
    }

    method PlayNext()
      modifies this
      ensures State() == Playback.PlayNext(old(State()))
    {
      if activeSong == None || |queue| == 0 {
        return;
      }
      var currentIndex := FindIndex(queue, activeSong.value.id);
      var nextIndex := (currentIndex + 1) % |queue|;
      activeSong, isPlaying := Some(queue[nextIndex]), true;
    }

    method PlayPrevious()
      modifies this
      ensures State() == Playback.PlayPrevious(old(State()))
    {
      if activeSong == None || |queue| == 0 {
        return;
      }
      var currentIndex := FindIndex(queue, activeSong.value.id);
      var prevIndex := currentIndex - 1;
      if prevIndex < 0 {
        prevIndex := |queue| - 1;
      }
      activeSong, isPlaying := Some(queue[prevIndex]), true;
    }
  }
}
