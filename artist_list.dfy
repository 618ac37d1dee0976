/**
 * The artist list (src/components/ArtistList.tsx): stored artist entries may
 * hold several comma-separated names; they are split, trimmed, emptied ones
 * dropped, and rendered with ", " between consecutive names.
 */
module ArtistList {
  import opened Strings
  import opened Seqs

  /** `filter(a => a.length > 0)`. */
  function NonEmpty(): string -> bool {
    (s: string) => |s| > 0
  }

  /** A name as it may be displayed: not empty, no comma, no surrounding whitespace. */
  predicate IsDisplayName(name: string) {
    name != [] && ',' !in name && IsTrimmed(name)
  }

  /** `displayArtists`: the names shown for a song's artist entries. */
  function DisplayArtists(artists: seq<string>): (r: seq<string>)
    ensures forall i :: 0 <= i < |r| ==> IsDisplayName(r[i])
  {
    var pieces := SplitEntries(artists, ',');
    assert forall i :: 0 <= i < |pieces| ==> ',' !in pieces[i] by {
      NoCommaInPieces(artists);
    }
    Filter(TrimEach(pieces), NonEmpty())
  }

  lemma {:induction false} NoCommaInPieces(artists: seq<string>)
    ensures forall i :: 0 <= i < |SplitEntries(artists, ',')| ==> ',' !in SplitEntries(artists, ',')[i]
    decreases |artists|
  {
    if artists != [] {
      NoCommaInPieces(artists[1..]);
    }
  }

  /** The names of one entry are its comma-separated pieces, trimmed, in order, empty ones left out. */
  lemma DisplayOneEntry(entry: string)
    ensures DisplayArtists([entry]) == Filter(TrimEach(Split(entry, ',')), NonEmpty())
  {
    var one := [entry];
    assert one[1..] == [];
    assert SplitEntries(one, ',') == Split(entry, ',') + SplitEntries(one[1..], ',');
    assert SplitEntries(one, ',') == Split(entry, ',');
  }

  /** Names appear entry after entry: the names of a concatenation are the concatenated names. */
  lemma {:induction false} DisplayAppend(a: seq<string>, b: seq<string>)
    ensures DisplayArtists(a + b) == DisplayArtists(a) + DisplayArtists(b)
  {
    SplitEntriesAppend(a, b);
    var pa, pb := SplitEntries(a, ','), SplitEntries(b, ',');
    assert TrimEach(pa + pb) == TrimEach(pa) + TrimEach(pb);
    FilterAppend(TrimEach(pa), TrimEach(pb), NonEmpty());
  }

  lemma {:induction false} SplitEntriesAppend(a: seq<string>, b: seq<string>)
    ensures SplitEntries(a + b, ',') == SplitEntries(a, ',') + SplitEntries(b, ',')
    decreases |a|
  {
    if a == [] {
      assert a + b == b;
    } else {
      assert (a + b)[1..] == a[1..] + b;
      SplitEntriesAppend(a[1..], b);
    }
  }

  /** Entries that are already single display names are split into themselves. */
  lemma {:induction false} SplitEntriesOfNames(names: seq<string>)
    requires forall i :: 0 <= i < |names| ==> IsDisplayName(names[i])
    ensures SplitEntries(names, ',') == names
    decreases |names|
  {
    if names != [] {
      SplitWithoutSeparator(names[0], ',');
      SplitEntriesOfNames(names[1..]);
    }
  }

  /** Normalising names that are already normalised changes nothing. */
  lemma DisplayIdempotent(artists: seq<string>)
    ensures DisplayArtists(DisplayArtists(artists)) == DisplayArtists(artists)
  {
    var names := DisplayArtists(artists);
    SplitEntriesOfNames(names);
    forall i | 0 <= i < |names|
      ensures Trim(names[i]) == names[i]
    {
      TrimOfTrimmed(names[i]);
    }
    assert TrimEach(names) == names;
    FilterAll(names, NonEmpty());
  }

  /** What follows the name at `index` of `count`: ", " except after the last one. */
  function Separator(index: nat, count: nat): (sep: string)
    ensures index + 1 < count ==> sep == ", "
    ensures index + 1 >= count ==> sep == ""
  {
    if index < count - 1 then ", " else ""
  }

  /** The rendered text from the name at `index` on: each name followed by its separator. */
  function RenderFrom(names: seq<string>, index: nat): string
    requires index <= |names|
    decreases |names| - index
  {
    if index == |names| then "" else names[index] + Separator(index, |names|) + RenderFrom(names, index + 1)
  }

  /** The rendered list is the names joined with ", ": a separator between neighbours, none after the last. */
  lemma {:induction false} RenderIsJoin(names: seq<string>, index: nat)
    requires index <= |names|
    ensures RenderFrom(names, index) == Join(names[index..], ", ")
    decreases |names| - index
  {
    if index < |names| {
      RenderIsJoin(names, index + 1);
      var rest := names[index..];
      assert rest[1..] == names[index + 1..];
      if index == |names| - 1 {
        assert rest == [names[index]];
      }
    }
  }
}
