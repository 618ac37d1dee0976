/**
 * The song schema (src/models/Song.ts): the fields a stored song has, the
 * defaults filled in for absent ones, and the checks a new song must pass
 * before it is saved.
 */
module SongSchema {
  import opened Wrappers
  import opened Strings

  /** The closed set of moods. */
  datatype Mood = Happy | Sad | Chill | Party | Focus | Workout | Romantic

  /** The stored string for each mood. */
  function MoodName(m: Mood): string {
    match m
    case Happy => "Happy"
    case Sad => "Sad"
    case Chill => "Chill"
    case Party => "Party"
    case Focus => "Focus"
    case Workout => "Workout"
    case Romantic => "Romantic"
  }

  /** The enum check: the mood a string names, if any. */
  function ParseMood(s: string): (m: Option<Mood>)
    ensures m.Some? ==> MoodName(m.value) == s
  {
    if s == "Happy" then Some(Happy)
    else if s == "Sad" then Some(Sad)
    else if s == "Chill" then Some(Chill)
    else if s == "Party" then Some(Party)
    else if s == "Focus" then Some(Focus)
    else if s == "Workout" then Some(Workout)
    else if s == "Romantic" then Some(Romantic)
    else None
  }

  /** Every mood's name passes the enum check and reads back as that mood. */
  lemma MoodNameRoundTrip(m: Mood)
    ensures ParseMood(MoodName(m)) == Some(m)
  {
  }

  /** The enum check accepts exactly the seven names. */
  lemma ParseMoodIff(s: string)
    ensures ParseMood(s).Some? <==> s in ["Happy", "Sad", "Chill", "Party", "Focus", "Workout", "Romantic"]
  {
  }

  /** The fields handed to `Song.create`; `None` is a field that is absent. */
  datatype SongInput = SongInput(
    name: Option<string>,
    artist: Option<seq<string>>,
    coverUrl: Option<string>,
    fileUrl: Option<string>,
    duration: Option<int>,
    blurDataUrl: Option<string>,
    mood: Option<string>)

  /** A saved song: every field present, the mood one of the enum. */
  datatype StoredSong = StoredSong(
    name: string,
    artist: seq<string>,
    coverUrl: string,
    fileUrl: string,
    duration: nat,
    blurDataUrl: string,
    mood: Mood)

  /** The first field whose check fails. */
  datatype ValidationError = Required(field: string) | BelowMinimum(field: string) | NotInEnum(field: string)

  /** `required` on a string: present and not empty. */
  predicate HasText(s: Option<string>) {
    s.Some? && s.value != ""
  }

  /** `name` after the schema's `trim`. */
  function TrimmedName(input: SongInput): Option<string> {
    if input.name.Some? then Some(Trim(input.name.value)) else None
  }

  /** `mood` with its "Chill" default. */
  function MoodOrDefault(input: SongInput): string {
    if input.mood.Some? then input.mood.value else "Chill"
  }

  /**
   * The first failing check, in field order, once absent `blurDataUrl` and
   * `mood` have their defaults ("" and "Chill") and `name` is trimmed. A
   * string field is required to be non-empty. An absent `artist` takes the
   * implicit `[]` every array path has, and `required` on the array only
   * asks that it is not null, so the artist never fails. `duration` must be
   * present and at least 0; `mood` must name one of the seven moods.
   */
  function FirstFailure(input: SongInput): Option<ValidationError> {
    var mood := MoodOrDefault(input);
    if !HasText(TrimmedName(input)) then Some(Required("name"))
    else if !HasText(input.coverUrl) then Some(Required("coverUrl"))
    else if !HasText(input.fileUrl) then Some(Required("fileUrl"))
    else if input.duration.None? then Some(Required("duration"))
    else if input.duration.value < 0 then Some(BelowMinimum("duration"))
    else if mood == "" then Some(Required("mood"))
    else if ParseMood(mood).None? then Some(NotInEnum("mood"))
    else None
  }

  /** The record saved for an input that passes every check. */
  function Stored(input: SongInput): (song: StoredSong)
    requires FirstFailure(input).None?
    ensures MoodName(song.mood) == MoodOrDefault(input)
  {
    var artist := if input.artist.Some? then input.artist.value else [];
    var blur := if input.blurDataUrl.Some? then input.blurDataUrl.value else "";
    StoredSong(TrimmedName(input).value, artist, input.coverUrl.value, input.fileUrl.value,
               input.duration.value, blur, ParseMood(MoodOrDefault(input)).value)
  }

  /** Creating a song: the first failing check's error, or the saved record. */
  function Validate(input: SongInput): (r: Result<StoredSong, ValidationError>)
    ensures r.Ok? ==> input.name.Some? && r.value.name == Trim(input.name.value) && r.value.name != ""
    ensures r.Ok? ==> IsTrimmed(r.value.name)
  {
    match FirstFailure(input)
    case Some(e) => Err(e)
    case None => Ok(Stored(input))
  }

  /** A song is saved exactly when every check passes. */
  lemma ValidateIff(input: SongInput)
    ensures Validate(input).Ok? <==>
      && input.name.Some? && Trim(input.name.value) != ""
      && HasText(input.coverUrl) && HasText(input.fileUrl)
      && input.duration.Some? && input.duration.value >= 0
      && ParseMood(if input.mood.Some? then input.mood.value else "Chill").Some?
  {
  }

  /** A saved song keeps the given fields, with the defaults for the absent optional ones. */
  lemma ValidateFields(input: SongInput)
    requires Validate(input).Ok?
    ensures var song := Validate(input).value;
      && song.artist == (if input.artist.Some? then input.artist.value else [])
      && song.coverUrl == input.coverUrl.value && song.fileUrl == input.fileUrl.value
      && song.duration == input.duration.value
      && song.blurDataUrl == (if input.blurDataUrl.Some? then input.blurDataUrl.value else "")
      && MoodName(song.mood) == (if input.mood.Some? then input.mood.value else "Chill")
  {
    assert Validate(input).value == Stored(input);
  }

  /** An absent artist list is checked and saved as the empty list. */
  lemma AbsentArtistIsEmptyList(input: SongInput)
    requires input.artist.None?
    ensures Validate(input).Ok? <==> Validate(input.(artist := Some([]))).Ok?
    ensures Validate(input).Ok? ==> Validate(input).value.artist == []
  {
    ValidateIff(input);
    ValidateIff(input.(artist := Some([])));
    if Validate(input).Ok? {
      ValidateFields(input);
    }
  }

  /** Without a mood the song is saved as Chill. */
  lemma MoodDefaultsToChill(input: SongInput)
    requires Validate(input).Ok? && input.mood.None?
    ensures Validate(input).value.mood == Chill
  {
    assert FirstFailure(input).None?;
    assert Validate(input).value == Stored(input);
    assert MoodOrDefault(input) == "Chill";
  }

  /** A negative duration is refused. */
  lemma NegativeDurationRefused(input: SongInput)
    requires input.duration.Some? && input.duration.value < 0
    ensures Validate(input).Err?
  {
  }

  /** A name of only whitespace trims to "" and is refused as missing. */
  lemma BlankNameRefused(input: SongInput)
    requires input.name.Some? && forall i :: 0 <= i < |input.name.value| ==> IsSpace(input.name.value[i])
    ensures Validate(input) == Err(Required("name"))
  {
    var n := input.name.value;
    var t := Trim(n);
    forall c | c in t ensures IsSpace(c) {
      assert c in n;
      var i :| 0 <= i < |n| && n[i] == c;
    }
  }
}
