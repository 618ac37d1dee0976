/**
 * The artists endpoint (src/app/api/artists/route.ts): an aggregation over
 * the stored songs that unwinds each song's artist entries, splits them on
 * commas, trims the pieces, groups by piece, counts distinct songs, takes the
 * cover of the newest song and sorts by name. It is modelled as a function
 * over the list of stored song records.
 */
module ArtistsRoute {
  import opened Strings

  /** The fields of a stored song the pipeline reads; `createdAt` is a timestamp. */
  datatype SongDoc = SongDoc(id: string, createdAt: int, artist: seq<string>, coverUrl: string)

  /** One document after the second unwind: a song paired with one cleaned artist name. */
  datatype Row = Row(id: string, createdAt: int, coverUrl: string, name: string)

  /** A group being built by `$group`: the key, the `$addToSet` of ids and the `$first` cover. */
  datatype Bucket = Bucket(name: string, ids: set<string>, coverUrl: string)

  /** One record of the response: exactly a name, a song count and a cover URL. */
  datatype Artist = Artist(name: string, songCount: nat, coverUrl: string)

  // ---------------------------------------------------------------------
  // Stages 1 to 3: unwind, split and trim, unwind again.
  // ---------------------------------------------------------------------

  /** The row pairing song `d` with `name`. */
  function RowOf(d: SongDoc, name: string): Row {
    Row(d.id, d.createdAt, d.coverUrl, name)
  }

  /** The cleaned names of one song: each entry split on ',' and every piece trimmed, empty pieces included. */
  function CleanNames(d: SongDoc): seq<string> {
    TrimEach(SplitEntries(d.artist, ','))
  }

  /** One row per cleaned name of `d`, in order. */
  function SongRows(d: SongDoc): (r: seq<Row>)
    ensures |r| == |CleanNames(d)|
    ensures forall k :: 0 <= k < |r| ==> r[k] == RowOf(d, CleanNames(d)[k])
  {
    var names := CleanNames(d);
    seq(|names|, k requires 0 <= k < |names| => RowOf(d, names[k]))
  }

  /** All rows, song after song; a song with no artist entries gives none, as `$unwind` drops it. */
  function Unwound(docs: seq<SongDoc>): seq<Row>
    decreases |docs|
  {
    if docs == [] then [] else SongRows(docs[0]) + Unwound(docs[1..])
  }

  /** `r` pairs song `d` with one of its cleaned names. */
  predicate RowOfSong(d: SongDoc, r: Row) {
    r.name in CleanNames(d) && r == RowOf(d, r.name)
  }

  /** The rows of one song are the pairs of that song and one of its cleaned names. */
  lemma SongRowsMembers(d: SongDoc, r: Row)
    ensures r in SongRows(d) <==> RowOfSong(d, r)
  {
    var here := SongRows(d);
    if r in here {
      var k :| 0 <= k < |here| && here[k] == r;
    }
    if RowOfSong(d, r) {
      var k :| 0 <= k < |CleanNames(d)| && CleanNames(d)[k] == r.name;
      assert here[k] == r;
    }
  }

  /** A song of the list is its first song or a song of its tail. */
  lemma SongOfTail(docs: seq<SongDoc>, r: Row)
    requires docs != []
    ensures (exists i :: 0 <= i < |docs| && RowOfSong(docs[i], r))
        <==> RowOfSong(docs[0], r) || exists i :: 0 <= i < |docs[1..]| && RowOfSong(docs[1..][i], r)
  {
    var tail := docs[1..];
    if exists i :: 0 <= i < |docs| && RowOfSong(docs[i], r) {
      var i :| 0 <= i < |docs| && RowOfSong(docs[i], r);
      if i > 0 {
        assert tail[i - 1] == docs[i];
      }
    }
    if exists i :: 0 <= i < |tail| && RowOfSong(tail[i], r) {
      var i :| 0 <= i < |tail| && RowOfSong(tail[i], r);
      assert docs[i + 1] == tail[i];
    }
  }

  /** The rows are exactly the pairs of a song and one of its cleaned names. */
  lemma {:induction false} UnwoundMembers(docs: seq<SongDoc>, r: Row)
    ensures r in Unwound(docs) <==> exists i :: 0 <= i < |docs| && RowOfSong(docs[i], r)
    decreases |docs|
  {
    if docs != [] {
      UnwoundMembers(docs[1..], r);
      SongRowsMembers(docs[0], r);
      SongOfTail(docs, r);
    }
  }

  // ---------------------------------------------------------------------
  // Stage 4: `$sort: { createdAt: -1 }`, newest first.
  // ---------------------------------------------------------------------

  /** Newest first: no row is older than a row after it. */
  predicate NewestFirst(rows: seq<Row>) {
    forall i, j :: 0 <= i < j < |rows| ==> rows[i].createdAt >= rows[j].createdAt
  }

  /** Puts `r` before the first row that is not newer than it. */
  function InsertNewest(r: Row, rows: seq<Row>): (t: seq<Row>)
    ensures multiset(t) == multiset(rows) + multiset{r}
    decreases |rows|
  {
    if rows == [] || rows[0].createdAt <= r.createdAt then [r] + rows
    else
      assert rows == [rows[0]] + rows[1..];
      [rows[0]] + InsertNewest(r, rows[1..])
  }

  /** The rows sorted newest first; rows with the same timestamp keep their order. */
  function SortNewest(rows: seq<Row>): (t: seq<Row>)
    ensures multiset(t) == multiset(rows)
    decreases |rows|
  {
    if rows == [] then []
    else
      assert rows == [rows[0]] + rows[1..];
      InsertNewest(rows[0], SortNewest(rows[1..]))
  }

  /** The inserted list holds the new row and the old rows, nothing else. */
  lemma InsertNewestMembers(r: Row, rows: seq<Row>)
    ensures forall x :: x in InsertNewest(r, rows) ==> x == r || x in rows
  {
    var t := InsertNewest(r, rows);
    forall x | x in t ensures x == r || x in rows {
      assert x in multiset(t);
    }
  }

  /** A row no older than every row of a newest-first list can go in front. */
  lemma ConsNewest(first: Row, rest: seq<Row>)
    requires NewestFirst(rest)
    requires forall x :: x in rest ==> x.createdAt <= first.createdAt
    ensures NewestFirst([first] + rest)
  {
    var t := [first] + rest;
    forall i, j | 0 <= i < j < |t| ensures t[i].createdAt >= t[j].createdAt {
      assert t[j] == rest[j - 1];
      if i > 0 {
        assert t[i] == rest[i - 1];
      } else {
        assert rest[j - 1] in rest;
      }
    }
  }

  lemma {:induction false} InsertNewestKeepsOrder(r: Row, rows: seq<Row>)
    requires NewestFirst(rows)
    ensures NewestFirst(InsertNewest(r, rows))
    decreases |rows|
  {
    if rows == [] || rows[0].createdAt <= r.createdAt {
      forall x | x in rows ensures x.createdAt <= r.createdAt {
        var j :| 0 <= j < |rows| && rows[j] == x;
      }
      ConsNewest(r, rows);
    } else {
      InsertNewestKeepsOrder(r, rows[1..]);
      var rest := InsertNewest(r, rows[1..]);
      InsertNewestMembers(r, rows[1..]);
      forall x | x in rest
        ensures x.createdAt <= rows[0].createdAt
      {
        if x != r {
          var j :| 0 <= j < |rows[1..]| && rows[1..][j] == x;
          assert rows[j + 1] == x;
        }
      }
      ConsNewest(rows[0], rest);
    }
  }

  /** The sort stage leaves the rows newest first. */
  lemma {:induction false} SortNewestIsSorted(rows: seq<Row>)
    ensures NewestFirst(SortNewest(rows))
    decreases |rows|
  {
    if rows != [] {
      SortNewestIsSorted(rows[1..]);
      InsertNewestKeepsOrder(rows[0], SortNewest(rows[1..]));
    }
  }

  // ---------------------------------------------------------------------
  // Stage 5: `$group` by name, collecting the set of ids and the first cover.
  // ---------------------------------------------------------------------

  /** The ids of the rows carrying `name`. */
  function IdsWith(rows: seq<Row>, name: string): set<string> {
    set r | r in rows && r.name == name :: r.id
  }

  /** The names the rows carry. */
  function NamesIn(rows: seq<Row>): set<string> {
    set r | r in rows :: r.name
  }

  /** The names of the buckets. */
  function BucketNames(groups: seq<Bucket>): set<string> {
    set b | b in groups :: b.name
  }

  /** The position of the first row carrying `name`, or -1. */
  function FirstWith(rows: seq<Row>, name: string): (k: int)
    ensures -1 <= k < |rows|
    ensures k >= 0 ==> rows[k].name == name && forall j :: 0 <= j < k ==> rows[j].name != name
    ensures k < 0 ==> forall j :: 0 <= j < |rows| ==> rows[j].name != name
    decreases |rows|
  {
    if rows == [] then -1
    else if rows[0].name == name then 0
    else
      var k := FirstWith(rows[1..], name);
      if k < 0 then -1 else k + 1
  }

  /** The position of the bucket for `name`, or -1. */
  function BucketIndex(groups: seq<Bucket>, name: string): (k: int)
    ensures -1 <= k < |groups|
    ensures k >= 0 ==> groups[k].name == name
    ensures k < 0 ==> forall j :: 0 <= j < |groups| ==> groups[j].name != name
    decreases |groups|
  {
    if groups == [] then -1
    else if groups[0].name == name then 0
    else
      var k := BucketIndex(groups[1..], name);
      if k < 0 then -1 else k + 1
  }

  /** One row into the groups: a new bucket with its id and cover, or its id added to its bucket. */
  function AddRow(groups: seq<Bucket>, r: Row): seq<Bucket> {
    var k := BucketIndex(groups, r.name);
    if k < 0 then groups + [Bucket(r.name, {r.id}, r.coverUrl)]
    else groups[k := Bucket(r.name, groups[k].ids + {r.id}, groups[k].coverUrl)]
  }

  /** The groups of the rows, taken in order. */
  function Group(rows: seq<Row>): seq<Bucket>
    decreases |rows|
  {
    if rows == [] then [] else AddRow(Group(rows[..|rows| - 1]), rows[|rows| - 1])
  }

  /** Bucket `b` holds the ids of the rows carrying its name and the cover of the first such row. */
  predicate BucketOk(rows: seq<Row>, b: Bucket) {
    && b.ids == IdsWith(rows, b.name)
    && 0 <= FirstWith(rows, b.name)
    && b.coverUrl == rows[FirstWith(rows, b.name)].coverUrl
  }

  /**
   * `groups` are the groups of `rows`: one bucket per name the rows carry,
   * each holding the ids of the rows with that name and the cover of the
   * first such row.
   */
  predicate GroupedFrom(rows: seq<Row>, groups: seq<Bucket>) {
    && (forall i, j :: 0 <= i < j < |groups| ==> groups[i].name != groups[j].name)
    && (forall i :: 0 <= i < |groups| ==> BucketOk(rows, groups[i]))
    && BucketNames(groups) == NamesIn(rows)
  }

  lemma IdsWithSnoc(rows: seq<Row>, r: Row, name: string)
    ensures IdsWith(rows + [r], name) == IdsWith(rows, name) + (if r.name == name then {r.id} else {})
  {
    var a, b := IdsWith(rows + [r], name), IdsWith(rows, name) + (if r.name == name then {r.id} else {});
    forall x | x in a ensures x in b {
      var y :| y in rows + [r] && y.name == name && y.id == x;
    }
    forall x | x in b ensures x in a {
      if x in IdsWith(rows, name) {
        var y :| y in rows && y.name == name && y.id == x;
        assert y in rows + [r];
      } else {
        assert r in rows + [r];
      }
    }
  }

  lemma NamesInSnoc(rows: seq<Row>, r: Row)
    ensures NamesIn(rows + [r]) == NamesIn(rows) + {r.name}
  {
    var a, b := NamesIn(rows + [r]), NamesIn(rows) + {r.name};
    forall x | x in a ensures x in b {
      var y :| y in rows + [r] && y.name == x;
    }
    forall x | x in b ensures x in a {
      if x in NamesIn(rows) {
        var y :| y in rows && y.name == x;
        assert y in rows + [r];
      } else {
        assert r in rows + [r];
      }
    }
  }

  lemma FirstWithSnoc(rows: seq<Row>, r: Row, name: string)
    ensures FirstWith(rows + [r], name) ==
      (if FirstWith(rows, name) >= 0 then FirstWith(rows, name) else if r.name == name then |rows| else -1)
  {
    var t := rows + [r];
    var k := FirstWith(rows, name);
    assert forall j :: 0 <= j < |rows| ==> t[j] == rows[j];
    if k >= 0 {
      assert t[k].name == name;
    } else if r.name == name {
      assert t[|rows|].name == name;
    }
  }

  /** A bucket of another name is unaffected by the new row. */
  lemma BucketOkOther(rows: seq<Row>, r: Row, b: Bucket)
    requires BucketOk(rows, b) && b.name != r.name
    ensures BucketOk(rows + [r], b)
  {
    IdsWithSnoc(rows, r, b.name);
    FirstWithSnoc(rows, r, b.name);
    assert (rows + [r])[FirstWith(rows, b.name)] == rows[FirstWith(rows, b.name)];
  }

  /** The bucket of the row's name gains the row's id and keeps its first cover. */
  lemma BucketOkSame(rows: seq<Row>, r: Row, b: Bucket)
    requires BucketOk(rows, b) && b.name == r.name
    ensures BucketOk(rows + [r], Bucket(b.name, b.ids + {r.id}, b.coverUrl))
  {
    IdsWithSnoc(rows, r, b.name);
    FirstWithSnoc(rows, r, b.name);
    assert (rows + [r])[FirstWith(rows, b.name)] == rows[FirstWith(rows, b.name)];
  }

  /** A name seen for the first time opens a bucket with the row's id and cover. */
  lemma BucketOkNew(rows: seq<Row>, r: Row)
    requires r.name !in NamesIn(rows)
    ensures BucketOk(rows + [r], Bucket(r.name, {r.id}, r.coverUrl))
  {
    IdsWithSnoc(rows, r, r.name);
    FirstWithSnoc(rows, r, r.name);
    forall y | y in rows ensures y.name != r.name {
      assert y.name in NamesIn(rows);
    }
    assert forall j :: 0 <= j < |rows| ==> rows[j] in rows;
  }

  lemma BucketNamesAppend(groups: seq<Bucket>, b: Bucket)
    ensures BucketNames(groups + [b]) == BucketNames(groups) + {b.name}
  {
    var g := groups + [b];
    forall x | x in BucketNames(g) ensures x in BucketNames(groups) + {b.name} {
      var c :| c in g && c.name == x;
    }
    forall x | x in BucketNames(groups) + {b.name} ensures x in BucketNames(g) {
      if x == b.name {
        assert g[|groups|] in g;
      } else {
        var c :| c in groups && c.name == x;
        assert c in g;
      }
    }
  }

  lemma BucketNamesUpdate(groups: seq<Bucket>, k: nat, b: Bucket)
    requires k < |groups| && b.name == groups[k].name
    ensures BucketNames(groups[k := b]) == BucketNames(groups)
  {
    var g := groups[k := b];
    forall x | x in BucketNames(g) ensures x in BucketNames(groups) {
      var c :| c in g && c.name == x;
      var j :| 0 <= j < |g| && g[j] == c;
      assert groups[j] in groups;
    }
    forall x | x in BucketNames(groups) ensures x in BucketNames(g) {
      var c :| c in groups && c.name == x;
      var j :| 0 <= j < |groups| && groups[j] == c;
      assert g[j] in g;
    }
  }

  /** A row with a name not seen yet opens a new bucket at the end. */
  lemma AddRowNewName(rows: seq<Row>, groups: seq<Bucket>, r: Row)
    requires GroupedFrom(rows, groups)
    requires BucketIndex(groups, r.name) < 0
    ensures GroupedFrom(rows + [r], AddRow(groups, r))
  {
    var t, g := rows + [r], AddRow(groups, r);
    var nb := Bucket(r.name, {r.id}, r.coverUrl);
    assert g == groups + [nb];
    NamesInSnoc(rows, r);
    BucketNamesAppend(groups, nb);
    forall b | b in groups ensures b.name != r.name {
      var j :| 0 <= j < |groups| && groups[j] == b;
    }
    assert r.name !in BucketNames(groups);
    BucketOkNew(rows, r);
    forall i | 0 <= i < |groups| ensures BucketOk(t, g[i]) {
      BucketOkOther(rows, r, groups[i]);
    }
  }

  /** A row with a known name adds its id to that name's bucket. */
  lemma AddRowKnownName(rows: seq<Row>, groups: seq<Bucket>, r: Row)
    requires GroupedFrom(rows, groups)
    requires BucketIndex(groups, r.name) >= 0
    ensures GroupedFrom(rows + [r], AddRow(groups, r))
  {
    var t, g := rows + [r], AddRow(groups, r);
    var k := BucketIndex(groups, r.name);
    NamesInSnoc(rows, r);
    BucketNamesUpdate(groups, k, g[k]);
    BucketOkSame(rows, r, groups[k]);
    forall i | 0 <= i < |g| ensures BucketOk(t, g[i]) {
      if i != k {
        BucketOkOther(rows, r, groups[i]);
      }
    }
    assert r.name in BucketNames(groups) by {
      assert groups[k] in groups;
    }
  }

  /** Adding one row keeps the groups the groups of the longer list. */
  lemma AddRowGroups(rows: seq<Row>, groups: seq<Bucket>, r: Row)
    requires GroupedFrom(rows, groups)
    ensures GroupedFrom(rows + [r], AddRow(groups, r))
  {
    if BucketIndex(groups, r.name) < 0 {
      AddRowNewName(rows, groups, r);
    } else {
      AddRowKnownName(rows, groups, r);
    }
  }

  /** The group stage yields exactly the groups of its input rows. */
  lemma {:induction false} GroupIsGrouping(rows: seq<Row>)
    ensures GroupedFrom(rows, Group(rows))
    decreases |rows|
  {
    if rows == [] {
      assert BucketNames([]) == {};
      assert NamesIn([]) == {};
    } else {
      var init := rows[..|rows| - 1];
      GroupIsGrouping(init);
      AddRowGroups(init, Group(init), rows[|rows| - 1]);
      assert init + [rows[|rows| - 1]] == rows;
    }
  }

  // ---------------------------------------------------------------------
  // Stage 6: `$project` to name, count of ids and cover.
  // ---------------------------------------------------------------------

  function Project(groups: seq<Bucket>): (out: seq<Artist>)
    ensures |out| == |groups|
    ensures forall i :: 0 <= i < |out| ==> out[i] == Artist(groups[i].name, |groups[i].ids|, groups[i].coverUrl)
  {
    seq(|groups|, i requires 0 <= i < |groups| => Artist(groups[i].name, |groups[i].ids|, groups[i].coverUrl))
  }

  // ---------------------------------------------------------------------
  // Stage 7: `$sort: { name: 1 }`.
  // ---------------------------------------------------------------------

  /** Names strictly ascending, hence also all different. */
  predicate NamesAscending(artists: seq<Artist>) {
    forall i, j :: 0 <= i < j < |artists| ==> Less(artists[i].name, artists[j].name)
  }

  /** Puts `a` before the first record whose name does not sort before it. */
  function InsertByName(a: Artist, artists: seq<Artist>): (t: seq<Artist>)
    ensures multiset(t) == multiset(artists) + multiset{a}
    decreases |artists|
  {
    if artists == [] || !Less(artists[0].name, a.name) then [a] + artists
    else
      assert artists == [artists[0]] + artists[1..];
      [artists[0]] + InsertByName(a, artists[1..])
  }

  function SortByName(artists: seq<Artist>): (t: seq<Artist>)
    ensures multiset(t) == multiset(artists)
    decreases |artists|
  {
    if artists == [] then []
    else
      assert artists == [artists[0]] + artists[1..];
      InsertByName(artists[0], SortByName(artists[1..]))
  }

  /** The inserted list holds the new record and the old records, nothing else. */
  lemma InsertByNameMembers(a: Artist, artists: seq<Artist>)
    ensures forall x :: x in InsertByName(a, artists) ==> x == a || x in artists
  {
    var t := InsertByName(a, artists);
    forall x | x in t ensures x == a || x in artists {
      assert x in multiset(t);
    }
  }

  /** A record whose name sorts before every name of an ascending list can go in front. */
  lemma ConsAscending(first: Artist, rest: seq<Artist>)
    requires NamesAscending(rest)
    requires forall x :: x in rest ==> Less(first.name, x.name)
    ensures NamesAscending([first] + rest)
  {
    var t := [first] + rest;
    forall i, j | 0 <= i < j < |t| ensures Less(t[i].name, t[j].name) {
      assert t[j] == rest[j - 1];
      if i > 0 {
        assert t[i] == rest[i - 1];
      } else {
        assert rest[j - 1] in rest;
      }
    }
  }

  lemma {:induction false} InsertByNameAscending(a: Artist, artists: seq<Artist>)
    requires NamesAscending(artists)
    requires forall x :: x in artists ==> x.name != a.name
    ensures NamesAscending(InsertByName(a, artists))
    decreases |artists|
  {
    if artists == [] {
      ConsAscending(a, artists);
    } else if !Less(artists[0].name, a.name) {
      var first := artists[0];
      LessTotal(a.name, first.name);
      forall x | x in artists
        ensures Less(a.name, x.name)
      {
        var j :| 0 <= j < |artists| && artists[j] == x;
        if j > 0 {
          LessTransitive(a.name, first.name, x.name);
        }
      }
      ConsAscending(a, artists);
    } else {
      var first := artists[0];
      assert forall x :: x in artists[1..] ==> x in artists;
      InsertByNameAscending(a, artists[1..]);
      var rest := InsertByName(a, artists[1..]);
      InsertByNameMembers(a, artists[1..]);
      forall x | x in rest
        ensures Less(first.name, x.name)
      {
        if x != a {
          var j :| 0 <= j < |artists[1..]| && artists[1..][j] == x;
          assert artists[j + 1] == x;
        }
      }
      ConsAscending(first, rest);
    }
  }

  /** Records with different names come out strictly ascending by name. */
  lemma {:induction false} SortByNameAscending(artists: seq<Artist>)
    requires forall i, j :: 0 <= i < j < |artists| ==> artists[i].name != artists[j].name
    ensures NamesAscending(SortByName(artists))
    decreases |artists|
  {
    if artists != [] {
      SortByNameAscending(artists[1..]);
      var rest := SortByName(artists[1..]);
      forall x | x in rest
        ensures x.name != artists[0].name
      {
        assert x in multiset(rest);
        var j :| 0 <= j < |artists[1..]| && artists[1..][j] == x;
        assert artists[j + 1] == x;
      }
      InsertByNameAscending(artists[0], rest);
    }
  }

  // ---------------------------------------------------------------------
  // The whole pipeline and what it promises.
  // ---------------------------------------------------------------------

  /** GET /api/artists: the aggregation's result for the stored songs. */
  function Aggregate(docs: seq<SongDoc>): seq<Artist> {
    SortByName(Project(Group(SortNewest(Unwound(docs)))))
  }

  /** Every output record is the projection of one of the groups of the sorted rows. */
  lemma FromGroup(docs: seq<SongDoc>, a: Artist) returns (b: Bucket)
    requires a in Aggregate(docs)
    ensures b in Group(SortNewest(Unwound(docs)))
    ensures a == Artist(b.name, |b.ids|, b.coverUrl)
  {
    var groups := Group(SortNewest(Unwound(docs)));
    assert a in multiset(Project(groups));
    var i :| 0 <= i < |Project(groups)| && Project(groups)[i] == a;
    b := groups[i];
  }

  /** Sorting by date keeps the same rows. */
  lemma SortedRowsSame(rows: seq<Row>, name: string)
    ensures forall r :: r in SortNewest(rows) <==> r in rows
    ensures IdsWith(SortNewest(rows), name) == IdsWith(rows, name)
    ensures NamesIn(SortNewest(rows)) == NamesIn(rows)
  {
    var sorted := SortNewest(rows);
    assert forall r :: r in sorted <==> r in multiset(sorted);
    assert forall r :: r in rows <==> r in multiset(rows);
  }

  /** The output names are unique and in ascending order. */
  lemma AggregateSorted(docs: seq<SongDoc>)
    ensures NamesAscending(Aggregate(docs))
  {
    var groups := Group(SortNewest(Unwound(docs)));
    GroupIsGrouping(SortNewest(Unwound(docs)));
    SortByNameAscending(Project(groups));
  }

  /** Every output record is the projection of a correct bucket of the sorted rows. */
  lemma AggregateBucket(docs: seq<SongDoc>, a: Artist) returns (b: Bucket)
    requires a in Aggregate(docs)
    ensures BucketOk(SortNewest(Unwound(docs)), b)
    ensures a == Artist(b.name, |b.ids|, b.coverUrl)
  {
    var sorted := SortNewest(Unwound(docs));
    GroupIsGrouping(sorted);
    b := FromGroup(docs, a);
    var i :| 0 <= i < |Group(sorted)| && Group(sorted)[i] == b;
  }

  /** Every output name is carried by some row. */
  lemma OutputNameIsRowName(docs: seq<SongDoc>, a: Artist)
    requires a in Aggregate(docs)
    ensures a.name in NamesIn(Unwound(docs))
  {
    var rows := Unwound(docs);
    var sorted := SortNewest(rows);
    var b := AggregateBucket(docs, a);
    var f := FirstWith(sorted, b.name);
    assert sorted[f] in sorted;
    assert a.name in NamesIn(sorted);
    SortedRowsSame(rows, "");
  }

  /** Every name some row carries has an output record. */
  lemma RowNameIsOutputName(docs: seq<SongDoc>, n: string)
    requires n in NamesIn(Unwound(docs))
    ensures exists a :: a in Aggregate(docs) && a.name == n
  {
    var rows := Unwound(docs);
    var sorted := SortNewest(rows);
    var groups := Group(sorted);
    GroupIsGrouping(sorted);
    SortedRowsSame(rows, "");
    assert n in BucketNames(groups);
    var b :| b in groups && b.name == n;
    var i :| 0 <= i < |groups| && groups[i] == b;
    var a := Project(groups)[i];
    assert a in multiset(Aggregate(docs));
  }

  /** The output names are exactly the cleaned names of the stored songs, empty ones included. */
  lemma AggregateNames(docs: seq<SongDoc>)
    ensures (set a | a in Aggregate(docs) :: a.name) == NamesIn(Unwound(docs))
  {
    var out := Aggregate(docs);
    forall n | n in (set a | a in out :: a.name) ensures n in NamesIn(Unwound(docs)) {
      var a :| a in out && a.name == n;
      OutputNameIsRowName(docs, a);
    }
    forall n | n in NamesIn(Unwound(docs)) ensures n in (set a | a in out :: a.name) {
      RowNameIsOutputName(docs, n);
      var a :| a in out && a.name == n;
    }
  }

  /** Each song count is the number of different songs carrying the name: at least one, a song naming the artist twice counting once. */
  lemma AggregateCounts(docs: seq<SongDoc>, a: Artist)
    requires a in Aggregate(docs)
    ensures a.songCount == |IdsWith(Unwound(docs), a.name)|
    ensures a.songCount >= 1
  {
    var rows := Unwound(docs);
    var sorted := SortNewest(rows);
    SortedRowsSame(rows, a.name);
    var b := AggregateBucket(docs, a);
    var f := FirstWith(sorted, b.name);
    assert sorted[f].id in IdsWith(sorted, b.name);
  }

  /** In a newest-first list the first row carrying a name is no older than any other row carrying it. */
  lemma FirstIsNewest(rows: seq<Row>, name: string)
    requires NewestFirst(rows) && 0 <= FirstWith(rows, name)
    ensures forall q :: q in rows && q.name == name ==> q.createdAt <= rows[FirstWith(rows, name)].createdAt
  {
    var f := FirstWith(rows, name);
    forall q | q in rows && q.name == name
      ensures q.createdAt <= rows[f].createdAt
    {
      var j :| 0 <= j < |rows| && rows[j] == q;
      assert f <= j;
    }
  }

  /** Each cover URL is the cover of a newest song carrying the name. */
  lemma AggregateCover(docs: seq<SongDoc>, a: Artist)
    requires a in Aggregate(docs)
    ensures exists r :: r in Unwound(docs) && r.name == a.name && r.coverUrl == a.coverUrl
                        && forall q :: q in Unwound(docs) && q.name == a.name ==> q.createdAt <= r.createdAt
  {
    var rows := Unwound(docs);
    var sorted := SortNewest(rows);
    SortNewestIsSorted(rows);
    SortedRowsSame(rows, a.name);
    var b := AggregateBucket(docs, a);
    FirstIsNewest(sorted, a.name);
    var newest := sorted[FirstWith(sorted, a.name)];
    assert newest in sorted;
    assert newest in rows && newest.name == a.name && newest.coverUrl == a.coverUrl;
  }
}
