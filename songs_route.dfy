/**
 * The song upload endpoint (POST in src/app/api/songs/route.ts): checks the
 * required fields, normalises `artist`, `duration` and `mood`, attaches a
 * blur placeholder when one can be made, and creates the song through the
 * schema of src/models/Song.ts.
 */
module SongsRoute {
  import opened Wrappers
  import opened Strings
  import opened SongSchema

  /** The `artist` field of the request body: absent, a string, or an array of strings. */
  datatype ArtistField = NoArtist | ArtistText(text: string) | ArtistList(names: seq<string>)

  /** The `duration` field: absent, something `Number` turns into NaN, or a number (whole seconds). */
  datatype DurationField = NoDuration | NotNumeric | Numeric(value: int)

  /** The fields of the request body the handler reads; `None` is an absent or null field. */
  datatype UploadRequest = UploadRequest(
    name: Option<string>,
    artist: ArtistField,
    coverUrl: Option<string>,
    fileUrl: Option<string>,
    duration: DurationField,
    mood: Option<string>)

  /** The responses: 201 with the created song, 400 "Missing fields", or 500 "Server Error". */
  datatype Response = Created(song: StoredSong) | MissingFields | ServerError

  function Status(r: Response): int {
    match r
    case Created(_) => 201
    case MissingFields => 400
    case ServerError => 500
  }

  /** `!artist` is false for every array, even an empty one, and for every non-empty string. */
  predicate ArtistPresent(artist: ArtistField) {
    match artist
    case NoArtist => false
    case ArtistText(text) => text != ""
    case ArtistList(_) => true
  }

  /** `Array.isArray(artist) ? artist : artist.split(',').map(a => a.trim())`. */
  function ArtistArray(artist: ArtistField): (names: seq<string>)
    requires ArtistPresent(artist)
    ensures artist.ArtistList? ==> names == artist.names
    ensures artist.ArtistText? ==> names == TrimEach(Split(artist.text, ','))
    ensures artist.ArtistText? ==> |names| >= 1 && forall i :: 0 <= i < |names| ==> ',' !in names[i]
  {
    match artist
    case ArtistText(text) =>
      var pieces := Split(text, ',');
      var names := TrimEach(pieces);
      assert forall i :: 0 <= i < |names| ==> ',' !in names[i] by {
        forall i | 0 <= i < |names| ensures ',' !in names[i] {
          assert forall c :: c in Trim(pieces[i]) ==> c in pieces[i];
        }
      }
      names
    case ArtistList(names) => names
  }

  /** `Number(duration) || 0`: NaN, 0 and an absent field become 0; any other number is kept. */
  function DurationSeconds(duration: DurationField): (seconds: int)
    ensures duration.Numeric? ==> seconds == duration.value
    ensures !duration.Numeric? ==> seconds == 0
  {
    match duration
    case Numeric(value) => if value != 0 then value else 0
    case _ => 0
  }

  /** `mood || "Chill"`: an absent or empty mood becomes "Chill". */
  function MoodOrChill(mood: Option<string>): (m: string)
    ensures Present(mood) ==> m == mood.value
    ensures !Present(mood) ==> m == "Chill"
  {
    if Present(mood) then mood.value else "Chill"
  }

  /** The document handed to the schema, for a request that passed the field check. */
  function CreateInput(req: UploadRequest, blurDataUrl: string): SongInput
    requires ArtistPresent(req.artist)
  {
    SongInput(req.name, Some(ArtistArray(req.artist)), req.coverUrl, req.fileUrl,
              Some(DurationSeconds(req.duration)), Some(blurDataUrl), Some(MoodOrChill(req.mood)))
  }

  /**
   * POST /api/songs. `placeholder` is the blur placeholder produced from the
   * cover, or `None` when fetching or encoding it failed.
   */
  function Post(req: UploadRequest, placeholder: Option<string>): (r: Response)
    ensures r == MissingFields <==>
      !Present(req.name) || !ArtistPresent(req.artist) || !Present(req.fileUrl) || !Present(req.coverUrl)
  {
    if !Present(req.name) || !ArtistPresent(req.artist) || !Present(req.fileUrl) || !Present(req.coverUrl) then
      MissingFields
    else
      var blurDataUrl := if placeholder.Some? then placeholder.value else "";
      match Validate(CreateInput(req, blurDataUrl))
      case Ok(song) => Created(song)
      case Err(_) => ServerError
  }

  /** The request is accepted exactly when the fields are present and the schema accepts the normalised song. */
  lemma PostCreatedIff(req: UploadRequest, placeholder: Option<string>)
    ensures Post(req, placeholder).Created? <==>
      && Present(req.name) && ArtistPresent(req.artist) && Present(req.fileUrl) && Present(req.coverUrl)
      && Trim(req.name.value) != ""
      && DurationSeconds(req.duration) >= 0
      && ParseMood(MoodOrChill(req.mood)).Some?
  {
    if Present(req.name) && ArtistPresent(req.artist) && Present(req.fileUrl) && Present(req.coverUrl) {
      ValidateIff(CreateInput(req, if placeholder.Some? then placeholder.value else ""));
    }
  }

  /** A created song holds the normalised fields: the split or passed-through artists, the duration, the mood, the placeholder or "". */
  lemma PostCreatedFields(req: UploadRequest, placeholder: Option<string>)
    requires Post(req, placeholder).Created?
    ensures var song := Post(req, placeholder).song;
      && song.name == Trim(req.name.value)
      && song.artist == ArtistArray(req.artist)
      && song.coverUrl == req.coverUrl.value && song.fileUrl == req.fileUrl.value
      && song.duration == DurationSeconds(req.duration)
      && song.blurDataUrl == (if placeholder.Some? then placeholder.value else "")
      && MoodName(song.mood) == MoodOrChill(req.mood)
  {
    ValidateFields(CreateInput(req, if placeholder.Some? then placeholder.value else ""));
  }

  /** A failed placeholder leaves "" and does not stop the song from being created. */
  lemma PlaceholderFailureStillCreates(req: UploadRequest, blur: string)
    requires Post(req, Some(blur)).Created?
    ensures Post(req, None).Created?
    ensures Post(req, None).song == Post(req, Some(blur)).song.(blurDataUrl := "")
  {
    PostCreatedIff(req, Some(blur));
    PostCreatedIff(req, None);
    PostCreatedFields(req, Some(blur));
    PostCreatedFields(req, None);
  }

  /** "A," splits into "A" and a trailing empty piece. */
  lemma SplitTrailingComma()
    ensures Split("A,", ',') == ["A", ""]
  {
    var text: string := "A,";
    assert text[1..] == "," && text[1..][1..] == "";
    var tail := Split(",", ',');
    assert tail == [[], []];
    assert Split(text, ',') == [['A'] + tail[0]] + tail[1..];
    assert ['A'] + tail[0] == "A" && tail[1..] == [""];
  }

  /** Trimming leaves "A" and "" as they are. */
  lemma TrimEachTrimmed()
    ensures TrimEach(["A", ""]) == ["A", ""]
  {
    TrimOfTrimmed("A");
    TrimOfTrimmed("");
  }

  /** A text artist keeps its empty pieces: "A," is stored as ["A", ""]. */
  lemma TrailingCommaKeepsEmptyPiece()
    ensures ArtistArray(ArtistText("A,")) == ["A", ""]
  {
    SplitTrailingComma();
    TrimEachTrimmed();
  }

  /** A song with a negative duration passes the field check and is refused by the schema with 500. */
  lemma NegativeDurationIsServerError(req: UploadRequest, placeholder: Option<string>)
    requires Present(req.name) && ArtistPresent(req.artist) && Present(req.fileUrl) && Present(req.coverUrl)
    requires req.duration.Numeric? && req.duration.value < 0
    ensures Status(Post(req, placeholder)) == 500
  {
    PostCreatedIff(req, placeholder);
  }
}
