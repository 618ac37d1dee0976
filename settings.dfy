/**
 * The settings page's "clear queue" action (src/app/settings/page.tsx): three
 * store writes in a row, whose final state depends on their order.
 */
module Settings {
  import opened Wrappers
  import opened Playback
  import Store

  /** The state after `setQueue([])`, `setActiveSong(null)` and `setIsPlaying(false)`, in that order. */
  function ClearedState(s: PlayerState): (r: PlayerState)
    ensures r.queue == [] && r.activeSong == None && !r.isPlaying
    ensures r.isQueueOpen == s.isQueueOpen
  {
    SetIsPlaying(SetActiveSong(SetQueue(s, []), None), false)
  }

  /** Once cleared, stepping forward or back changes nothing. */
  lemma ClearedStepsAreNoOps(s: PlayerState)
    ensures PlayNext(ClearedState(s)) == ClearedState(s)
    ensures PlayPrevious(ClearedState(s)) == ClearedState(s)
  {
  }

  /** `setActiveSong` sets the playing flag, so only the final `setIsPlaying(false)` stops playback. */
  lemma FinalWriteStopsPlayback(s: PlayerState)
    ensures SetActiveSong(SetQueue(s, []), None).isPlaying
    ensures SetActiveSong(SetIsPlaying(SetQueue(s, []), false), None).isPlaying
  {
  }

  /** handleClearQueue. */
  method HandleClearQueue(store: Store.PlayerStore)
    modifies store
    ensures store.State() == ClearedState(old(store.State()))
    ensures store.queue == [] && store.activeSong == None && !store.isPlaying
    ensures store.isQueueOpen == old(store.isQueueOpen)
  {
    store.SetQueue([]);
    store.SetActiveSong(None);
    store.SetIsPlaying(false);
  }
}
