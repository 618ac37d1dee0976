/**
 * The artists page (src/app/artists/page.tsx): the fetched artists are sorted
 * in place, most tracks first and by name for equal counts, and each card
 * labels its count "track" or "tracks".
 */
module ArtistsPage {
  import opened Strings
  import opened ArtistsRoute

  /**
   * The sort comparator: `b.songCount - a.songCount` when the counts differ,
   * otherwise `a.name.localeCompare(b.name)`. Negative means `a` goes first.
   */
  function CompareArtists(a: Artist, b: Artist): (r: int)
    ensures a.songCount != b.songCount ==> (r < 0 <==> a.songCount > b.songCount)
    ensures a.songCount == b.songCount ==> (r < 0 <==> Less(a.name, b.name))
    ensures r == 0 <==> a.songCount == b.songCount && a.name == b.name
  {
    if b.songCount != a.songCount then b.songCount - a.songCount
    else Compare(a.name, b.name)
  }

  /** `a` may stand before `b`: the comparator does not put `b` first. */
  predicate InOrder(a: Artist, b: Artist) {
    CompareArtists(a, b) <= 0
  }

  /** The comparator is antisymmetric: swapping the arguments flips the sign. */
  lemma CompareAntisymmetric(a: Artist, b: Artist)
    ensures CompareArtists(a, b) < 0 <==> CompareArtists(b, a) > 0
    ensures CompareArtists(a, b) == 0 <==> CompareArtists(b, a) == 0
  {
    if a.songCount == b.songCount {
      LessIrreflexive(a.name);
      LessTotal(a.name, b.name);
      if Less(a.name, b.name) {
        LessAsymmetric(a.name, b.name);
      }
    }
  }

  /** The comparator is transitive, so the order it induces is a total preorder. */
  lemma InOrderTransitive(a: Artist, b: Artist, c: Artist)
    requires InOrder(a, b) && InOrder(b, c)
    ensures InOrder(a, c)
  {
    if a.songCount == b.songCount == c.songCount && a.name != c.name {
      if a.name == b.name || b.name == c.name {
      } else {
        LessTransitive(a.name, b.name, c.name);
      }
    }
  }

  /** Any two artists are ordered one way or the other. */
  lemma InOrderTotal(a: Artist, b: Artist)
    ensures InOrder(a, b) || InOrder(b, a)
  {
    CompareAntisymmetric(a, b);
  }

  /** Every artist may stand before every later one. */
  predicate SortedArtists(s: seq<Artist>) {
    forall i, j :: 0 <= i < j < |s| ==> InOrder(s[i], s[j])
  }

  /** Every artist may stand before its right neighbour. */
  predicate NeighboursInOrder(s: seq<Artist>) {
    forall i :: 0 < i < |s| ==> InOrder(s[i - 1], s[i])
  }

  /** Ordered neighbours make a sorted list, by transitivity. */
  lemma {:induction false} NeighboursSorted(s: seq<Artist>)
    requires NeighboursInOrder(s)
    ensures SortedArtists(s)
    decreases |s|
  {
    if |s| > 1 {
      var init := s[..|s| - 1];
      NeighboursSorted(init);
      forall i | 0 <= i < |s| - 1
        ensures InOrder(s[i], s[|s| - 1])
      {
        if i < |s| - 2 {
          assert InOrder(init[i], init[|s| - 2]);
          InOrderTransitive(s[i], s[|s| - 2], s[|s| - 1]);
        }
      }
    }
  }

  /** In a sorted list a higher track count never comes after a lower one. */
  lemma HigherCountFirst(s: seq<Artist>, i: nat, j: nat)
    requires SortedArtists(s) && i < j < |s|
    ensures s[i].songCount >= s[j].songCount
  {
    assert InOrder(s[i], s[j]);
  }

  /** In a sorted list artists with equal counts stand in name order. */
  lemma EqualCountsByName(s: seq<Artist>, i: nat, j: nat)
    requires SortedArtists(s) && i < j < |s|
    requires s[i].songCount == s[j].songCount
    ensures s[i].name == s[j].name || Less(s[i].name, s[j].name)
  {
    assert InOrder(s[i], s[j]);
  }

  /** Neighbours up to position `i` are in order, except possibly the pair ending at `j`. */
  predicate InOrderExcept(s: seq<Artist>, i: nat, j: nat)
    requires i < |s|
  {
    forall k :: 0 < k <= i && k != j ==> InOrder(s[k - 1], s[k])
  }

  /** The records on either side of position `j` are in order, as if `s[j]` were not there. */
  predicate Bridged(s: seq<Artist>, i: nat, j: nat)
    requires i < |s|
  {
    0 < j < i ==> InOrder(s[j - 1], s[j + 1])
  }

  /** Swapping the out-of-order pair at `j` moves the gap one place to the left. */
  lemma SinkStep(s: seq<Artist>, i: nat, j: nat)
    requires 0 < j <= i < |s|
    requires InOrderExcept(s, i, j) && Bridged(s, i, j)
    requires !InOrder(s[j - 1], s[j])
    ensures InOrderExcept(s[j - 1 := s[j]][j := s[j - 1]], i, j - 1)
    ensures Bridged(s[j - 1 := s[j]][j := s[j - 1]], i, j - 1)
  {
    InOrderTotal(s[j - 1], s[j]);
    var t := s[j - 1 := s[j]][j := s[j - 1]];
    forall k | 0 < k <= i && k != j - 1
      ensures InOrder(t[k - 1], t[k])
    {
      if k == j + 1 {
        assert t[k - 1] == s[j - 1] && t[k] == s[j + 1];
      } else if k != j {
        assert k - 1 != j - 1 && k != j && k != j - 1;
        assert t[k - 1] == s[k - 1] && t[k] == s[k];
      }
    }
    if 1 < j {
      assert t[j - 2] == s[j - 2] && t[j] == s[j - 1];
      assert InOrder(s[j - 2], s[j - 1]);
    }
  }

  /** Swaps two entries of the array. */
  method Swap(a: array<Artist>, i: nat, j: nat)
    requires i < a.Length && j < a.Length
    modifies a
    ensures a[..] == old(a[..])[i := old(a[j])][j := old(a[i])]
    ensures multiset(a[..]) == multiset(old(a[..]))
  {
    a[i], a[j] := a[j], a[i];
  }

  /**
   * `artists.sort(comparator)`: sorts the fetched array in place; the
   * result is ordered by the comparator and holds the same records.
   */
  method SortArtists(a: array<Artist>)
    modifies a
    ensures SortedArtists(a[..])
    ensures multiset(a[..]) == multiset(old(a[..]))
  {
    var i := 0;
    while i < a.Length
      invariant 0 <= i <= a.Length
      invariant NeighboursInOrder(a[..i])
      invariant multiset(a[..]) == multiset(old(a[..]))
    {
      var j := i;
      assert InOrderExcept(a[..], i, j) by {
        forall k | 0 < k <= i && k != j ensures InOrder(a[k - 1], a[k]) {
          assert a[..i][k - 1] == a[k - 1] && a[..i][k] == a[k];
        }
      }
      while j > 0 && !InOrder(a[j - 1], a[j])
        invariant 0 <= j <= i
        invariant InOrderExcept(a[..], i, j) && Bridged(a[..], i, j)
        invariant multiset(a[..]) == multiset(old(a[..]))
      {
        SinkStep(a[..], i, j);
        Swap(a, j - 1, j);
        j := j - 1;
      }
      var prefix := a[..i + 1];
      forall k | 0 < k < |prefix| ensures InOrder(prefix[k - 1], prefix[k]) {
        assert prefix[k - 1] == a[k - 1] && prefix[k] == a[k];
      }
      i := i + 1;
    }
    assert a[..a.Length] == a[..];
    NeighboursSorted(a[..]);
  }

  /** The label after a card's count. */
  function TrackLabel(songCount: nat): (word: string)
    ensures word == "track" <==> songCount == 1
    ensures word == "tracks" <==> songCount != 1
  {
    if songCount == 1 then "track" else "tracks"
  }
}
