/**
 The entities shared by the API code: JSON values as a request body parses into, the
 `songs` table row, the abstract store, and HTTP responses.
 */
module Catalog {
  import opened Wrappers

  /** A parsed JSON value. Numbers are exact reals: JSON has no NaN or infinity, and
      the rounding of doubles is not modelled. */
  datatype Json =
    | JNull
    | JBool(b: bool)
    | JNum(n: real)
    | JStr(s: string)
    | JArr(items: seq<Json>)
    | JObj(fields: map<string, Json>)

  /** The value under `key` of a JSON object; `None` is a missing key (`undefined`). */
  function Lookup(fields: map<string, Json>, key: string): Option<Json> {
    if key in fields then Some(fields[key]) else None
  }

  /** The thirteen mutable columns of a song. Every column but `title` may be NULL. */
  datatype Fields = Fields(
    title: string,
    artist: Option<string>,
    youtube_link: Option<string>,
    audio_link: Option<string>,
    lyrics: Option<string>,
    composer: Option<string>,
    language: Option<string>,
    region: Option<string>,
    category: Option<string>,
    tags: Option<string>,
    duration: Option<real>,
    is_featured: Option<bool>,
    status: Option<string>)

  /** One row of the `songs` table: the server-assigned id and the mutable columns. */
  datatype Song = Song(id: string, fields: Fields)

  /** The `songs` table, keyed by id. */
  type Store = map<string, Song>

  /** Every row is stored under its own id. */
  predicate WellKeyed(store: Store) {
    forall id :: id in store ==> store[id].id == id
  }

  /** The fields a request body is checked against, plus `Root` for a body that is not
      a JSON object at all. */
  datatype Field =
    | Root | Title | Artist | YoutubeLink | AudioLink | Lyrics | Composer | Language
    | Region | Category | Tags | Duration | IsFeatured | Status

  /** The JSON member name (and column name) of a field. */
  function Key(f: Field): string {
    match f
    case Root => ""
    case Title => "title"
    case Artist => "artist"
    case YoutubeLink => "youtube_link"
    case AudioLink => "audio_link"
    case Lyrics => "lyrics"
    case Composer => "composer"
    case Language => "language"
    case Region => "region"
    case Category => "category"
    case Tags => "tags"
    case Duration => "duration"
    case IsFeatured => "is_featured"
    case Status => "status"
  }

  /** Distinct fields have distinct member names. */
  lemma KeyInjective(f: Field, g: Field)
    requires f != g
    ensures Key(f) != Key(g)
  {
  }

  /** A column of a row as a JSON value, `None` when it is NULL; `Root` names no column. */
  function Value(fs: Fields, f: Field): Option<Json> {
    match f
    case Root => None
    case Title => Some(JStr(fs.title))
    case Artist => TextValue(fs.artist)
    case YoutubeLink => TextValue(fs.youtube_link)
    case AudioLink => TextValue(fs.audio_link)
    case Lyrics => TextValue(fs.lyrics)
    case Composer => TextValue(fs.composer)
    case Language => TextValue(fs.language)
    case Region => TextValue(fs.region)
    case Category => TextValue(fs.category)
    case Tags => TextValue(fs.tags)
    case Duration => if fs.duration.Some? then Some(JNum(fs.duration.value)) else None
    case IsFeatured => if fs.is_featured.Some? then Some(JBool(fs.is_featured.value)) else None
    case Status => TextValue(fs.status)
  }

  function TextValue(v: Option<string>): Option<Json> {
    if v.Some? then Some(JStr(v.value)) else None
  }

  /** Two rows that agree on every column are equal. */
  lemma ValuesDetermineFields(a: Fields, b: Fields)
    requires forall f :: Value(a, f) == Value(b, f)
    ensures a == b
  {
    assert Value(a, Title) == Value(b, Title);
    TextColumns(a, b);
    assert Value(a, Duration) == Value(b, Duration);
    assert Value(a, IsFeatured) == Value(b, IsFeatured);
  }

  /** Rows that agree on every column agree on each nullable text column. */
  lemma TextColumns(a: Fields, b: Fields)
    requires forall f :: Value(a, f) == Value(b, f)
    ensures a.artist == b.artist && a.youtube_link == b.youtube_link && a.audio_link == b.audio_link
    ensures a.lyrics == b.lyrics && a.composer == b.composer && a.language == b.language
    ensures a.region == b.region && a.category == b.category && a.tags == b.tags
    ensures a.status == b.status
  {
    assert Value(a, Artist) == Value(b, Artist);
    TextValueInjective(a.artist, b.artist);
    assert Value(a, YoutubeLink) == Value(b, YoutubeLink);
    TextValueInjective(a.youtube_link, b.youtube_link);
    assert Value(a, AudioLink) == Value(b, AudioLink);
    TextValueInjective(a.audio_link, b.audio_link);
    assert Value(a, Lyrics) == Value(b, Lyrics);
    TextValueInjective(a.lyrics, b.lyrics);
    assert Value(a, Composer) == Value(b, Composer);
    TextValueInjective(a.composer, b.composer);
    assert Value(a, Language) == Value(b, Language);
    TextValueInjective(a.language, b.language);
    assert Value(a, Region) == Value(b, Region);
    TextValueInjective(a.region, b.region);
    assert Value(a, Category) == Value(b, Category);
    TextValueInjective(a.category, b.category);
    assert Value(a, Tags) == Value(b, Tags);
    TextValueInjective(a.tags, b.tags);
    assert Value(a, Status) == Value(b, Status);
    TextValueInjective(a.status, b.status);
  }

  /** A nullable text column is determined by its JSON value. */
  lemma TextValueInjective(u: Option<string>, v: Option<string>)
    requires TextValue(u) == TextValue(v)
    ensures u == v
  {
  }

  /** Why a field was rejected. */
  datatype Problem = WrongType | Blank | NotUrl | NotInteger | NotPositive

  /** One field-level validation error. */
  datatype Issue = Issue(field: Field, problem: Problem)

  /** The optional `details` member of a JSON error body. */
  datatype Details = Issues(issues: seq<Issue>) | Reason(message: string)

  /** The body of an HTTP response. */
  datatype Body =
    | SongJson(song: Song)                          // one row as a JSON object
    | SongsJson(songs: seq<Song>)                   // an array of rows
    | SummariesJson(rows: seq<Summary>)             // an array of projected rows
    | ErrorJson(error: string, details: Option<Details>)  // {error, details?}
    | MessageJson(message: string)                  // {message}
    | SuccessJson(note: Option<string>)          // {success: true, result} or {success: true, message}
    | FailureJson(error: string)                    // {success: false, error}
    | Text(text: string)                            // a plain-text body

  /** The columns `id, title, artist, youtube_link, lyrics` of a row. */
  datatype Summary = Summary(
    id: string,
    title: string,
    artist: Option<string>,
    youtube_link: Option<string>,
    lyrics: Option<string>)

  function Summarize(s: Song): Summary {
    Summary(s.id, s.fields.title, s.fields.artist, s.fields.youtube_link, s.fields.lyrics)
  }

  datatype Response = Response(status: int, body: Body)

  /** A handler's answer together with the store it leaves behind. */
  datatype Outcome = Outcome(response: Response, store: Store)
}
