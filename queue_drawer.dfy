/**
 * The queue drawer (src/components/QueueDrawer.tsx): drag-and-drop reordering
 * of the queue, the "current song" highlight and clicks on a row.
 */
module QueueDrawer {
  import opened Wrappers
  import opened Playback
  import Store

  /** What the drag-and-drop library reports when a drag ends; no destination when dropped outside the list. */
  datatype DropResult = DropResult(sourceIndex: nat, destination: Option<nat>)

  /** `s` without its element at `i`. */
  function Without(s: seq<Song>, i: nat): (r: seq<Song>)
    requires i < |s|
    ensures |r| == |s| - 1
  {
    s[..i] + s[i + 1..]
  }

  /** The list move: take the song at `src` out, then insert it at `dst`. */
  function Move(q: seq<Song>, src: nat, dst: nat): (r: seq<Song>)
    requires src < |q| && dst < |q|
    ensures |r| == |q|
    ensures r[dst] == q[src]
  {
    var rest := Without(q, src);
    rest[..dst] + [q[src]] + rest[dst..]
  }

  /** Taking the moved song back out of its destination leaves the other songs in their old order. */
  lemma MoveKeepsOthersInOrder(q: seq<Song>, src: nat, dst: nat)
    requires src < |q| && dst < |q|
    ensures Without(Move(q, src, dst), dst) == Without(q, src)
  {
    var rest := Without(q, src);
    var r := Move(q, src, dst);
    assert r[..dst] == rest[..dst];
    assert r[dst + 1..] == rest[dst..];
    assert rest == rest[..dst] + rest[dst..];
  }

  /** The moved queue is a permutation of the old one. */
  lemma MoveIsPermutation(q: seq<Song>, src: nat, dst: nat)
    requires src < |q| && dst < |q|
    ensures multiset(Move(q, src, dst)) == multiset(q)
  {
    var rest := Without(q, src);
    assert q == q[..src] + [q[src]] + q[src + 1..];
    assert rest == rest[..dst] + rest[dst..];
    calc {
      multiset(Move(q, src, dst));
      multiset(rest[..dst]) + multiset{q[src]} + multiset(rest[dst..]);
      multiset(rest) + multiset{q[src]};
      multiset(q[..src]) + multiset(q[src + 1..]) + multiset{q[src]};
      multiset(q);
    }
  }

  /** Dropping a song where it was picked up changes nothing. */
  lemma MoveToSameIndex(q: seq<Song>, i: nat)
    requires i < |q|
    ensures Move(q, i, i) == q
  {
    assert Without(q, i)[..i] == q[..i];
    assert Without(q, i)[i..] == q[i + 1..];
    assert q == q[..i] + [q[i]] + q[i + 1..];
  }

  /** Dragging the song back from `dst` to `src` undoes the move. */
  lemma MoveBack(q: seq<Song>, src: nat, dst: nat)
    requires src < |q| && dst < |q|
    ensures Move(Move(q, src, dst), dst, src) == q
  {
    var r := Move(q, src, dst);
    MoveKeepsOthersInOrder(q, src, dst);
    var rest := Without(q, src);
    assert Without(r, dst) == rest;
    assert rest[..src] == q[..src];
    assert rest[src..] == q[src + 1..];
    assert q == q[..src] + [q[src]] + q[src + 1..];
  }

  /** handleOnDragEnd: a drop outside the list does nothing; otherwise the moved list replaces the queue. */
  method HandleOnDragEnd(store: Store.PlayerStore, result: DropResult)
    requires result.sourceIndex < |store.queue|
    requires result.destination != None ==> result.destination.value < |store.queue|
    modifies store
    ensures result.destination == None ==> store.State() == old(store.State())
    ensures result.destination != None ==>
              store.State() == ReorderQueue(old(store.State()), Move(old(store.queue), result.sourceIndex, result.destination.value))
  {
    if result.destination == None {
      return;
    }
    var items := store.queue;
    var reorderedItem := items[result.sourceIndex];
    items := items[..result.sourceIndex] + items[result.sourceIndex + 1..];
    items := items[..result.destination.value] + [reorderedItem] + items[result.destination.value..];
    store.ReorderQueue(items);
  }

  /** isCurrent: a row is highlighted when its id is the active song's. */
  function IsCurrent(activeSong: Option<Song>, id: string): (r: bool)
    ensures r <==> activeSong != None && activeSong.value.id == id
  {
    match activeSong
    case None => false
    case Some(song) => song.id == id
  }

  /** Clicking a row plays that song without reordering the queue (setActiveSong, not playSmart). */
  method OnRowClick(store: Store.PlayerStore, song: Song)
    modifies store
    ensures store.queue == old(store.queue) && store.isQueueOpen == old(store.isQueueOpen)
    ensures store.activeSong == Some(song) && store.isPlaying
    ensures IsCurrent(store.activeSong, song.id)
  {
    store.SetActiveSong(Some(song));
  }

  /** The remove button drops every song with the row's id. */
  method OnRemoveClick(store: Store.PlayerStore, song: Song)
    modifies store
    ensures store.State() == RemoveFromQueue(old(store.State()), song.id)
  {
    store.RemoveFromQueue(song.id);
  }
}
