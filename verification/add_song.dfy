/**
 The add / edit song form (`frontend/src/pages/AddSong.tsx`): loading a song into the
 form for editing, the client-side checks, the JSON body it sends, and the choice of
 method, path and credentials; plus how that body fares against the API schema.
 */
module AddSong {
  import opened Wrappers
  import opened Strings
  import opened Catalog
  import Validation
  import SongRoutes
  import ApiRoutes
  import Worker
  import opened Tags
  import opened LinkPattern

  /** The duration input: empty, a number, or something `Number` turns into `NaN`. */
  datatype DurationInput = Empty | Number(n: real) | NotANumber

  /** The form's state. */
  datatype Form = Form(
    title: string,
    artist: string,
    youtubeLink: string,
    lyrics: string,
    composer: string,
    language: string,
    region: string,
    category: string,
    tags: string,
    duration: DurationInput,
    isFeatured: bool,
    status: string)

  /** The initial state, also restored after a song is added. */
  const EmptyForm := Form("", "", "", "", "", "swahili", "", "praise", "", Empty, false, "active")

  // ---------------------------------------------------------------- loading for editing

  /** `value || fallback` for a column that may be NULL. */
  function OrElse(v: Option<string>, fallback: string): (r: string)
    ensures v.Some? && v.value != "" ==> r == v.value
    ensures v.None? || v.value == "" ==> r == fallback
  {
    if v.Some? && v.value != "" then v.value else fallback
  }

  /** What loading a song left: the form, and the error notice if loading failed. */
  datatype Loaded = Loaded(form: Form, notice: Option<string>)

  const LoadFailed := "Failed to load song for editing."

  /** The columns set before the tags: title to category. */
  function Leading(data: Fields): (form: Form)
    ensures form.title == data.title && form.artist == OrElse(data.artist, "")
    ensures form.youtubeLink == OrElse(data.youtube_link, "") && form.lyrics == OrElse(data.lyrics, "")
    ensures form.composer == OrElse(data.composer, "") && form.region == OrElse(data.region, "")
    ensures form.language == OrElse(data.language, "swahili") && form.category == OrElse(data.category, "praise")
    ensures form.tags == EmptyForm.tags && form.duration == EmptyForm.duration
    ensures form.isFeatured == EmptyForm.isFeatured && form.status == EmptyForm.status
  {
    EmptyForm.(
      title := data.title,
      artist := OrElse(data.artist, ""),
      youtubeLink := OrElse(data.youtube_link, ""),
      lyrics := OrElse(data.lyrics, ""),
      composer := OrElse(data.composer, ""),
      language := OrElse(data.language, "swahili"),
      region := OrElse(data.region, ""),
      category := OrElse(data.category, "praise"))
  }

  /** `data.duration || ''` */
  function DurationOf(d: Option<real>): (input: DurationInput)
    ensures input.Empty? <==> d.None? || d.value == 0.0
    ensures input.Number? ==> input.n == d.value
  {
    if d.Some? && d.value != 0.0 then Number(d.value) else Empty
  }

  /** The columns set after the tags. */
  function Trailing(form: Form, data: Fields): Form {
    form.(
      duration := DurationOf(data.duration),
      isFeatured := data.is_featured.GetOr(false),
      status := OrElse(data.status, "active"))
  }

  /** Loading as written: the stored `tags` column is a string, and calling `join` on
      a non-empty string throws, so the load stops after the category with the error
      notice, and the tags, duration, flag and status keep their initial values. */
  function LoadAsWritten(data: Fields): (l: Loaded)
    ensures l.notice.Some? <==> data.tags.Some? && data.tags.value != ""
    ensures l.notice.Some? ==> l.form == Leading(data) && l.notice.value == LoadFailed
    ensures l.notice.None? ==> l.form.tags == ""
  {
    if data.tags.Some? && data.tags.value != "" then Loaded(Leading(data), Some(LoadFailed))
    else Loaded(Trailing(Leading(data), data), None)
  }

  /** `tags.split(',').join(', ')`: the stored tags as the edit form shows them. */
  function ShownTags(tags: Option<string>): (shown: string)
    ensures tags.None? || tags.value == "" ==> shown == ""
    ensures tags.Some? && tags.value != "" ==> Split(shown, ", ") == Split(tags.value, [Comma])
  {
    if tags.Some? && tags.value != "" then
      var parts := Split(tags.value, [Comma]);
      SplitBack(parts);
      Join(parts, ", ")
    else ""
  }

  /** Splitting pieces without `,` joined by `", "` at `", "` gives them back. */
  lemma SplitBack(parts: seq<string>)
    requires |parts| >= 1 && forall i :: 0 <= i < |parts| ==> Free(parts[i], [Comma])
    ensures Split(Join(parts, ", "), ", ") == parts
  {
    forall i | 0 <= i < |parts| ensures Comma !in parts[i] {
      FreeHasNoChar(parts[i], Comma);
    }
    CommaSpaceSplitJoin(parts);
  }

  /** `Split` undoes `Join` at `", "` when no piece holds a comma. */
  lemma {:induction false} CommaSpaceSplitJoin(parts: seq<string>)
    requires |parts| >= 1 && forall i :: 0 <= i < |parts| ==> Comma !in parts[i]
    ensures Split(Join(parts, ", "), ", ") == parts
    decreases |parts|
  {
    var a := parts[0];
    if |parts| == 1 {
      NoCommaNoSeparator(a);
      assert IndexOf(a, ", ").None?;
    } else {
      var rest := Join(parts[1..], ", ");
      var s := a + ", " + rest;
      assert Join(parts, ", ") == s;
      NoCommaNoSeparator(a);
      assert OccursAt(s, ", ", |a|) by {
        assert s[|a|..|a| + 2] == ", ";
      }
      forall k | 0 <= k < |a| ensures !OccursAt(s, ", ", k) {
        assert s[k] == a[k];
        assert s[k..k + 2][0] == s[k];
      }
      FirstOccurrence(s, ", ", |a|);
      assert s[..|a|] == a;
      assert s[|a| + 2..] == rest;
      CommaSpaceSplitJoin(parts[1..]);
    }
  }

  /** A string without `,` holds no `", "`. */
  lemma NoCommaNoSeparator(a: string)
    requires Comma !in a
    ensures Free(a, ", ")
  {
    forall k | 0 <= k <= |a| ensures !OccursAt(a, ", ", k) {
      if k + 2 <= |a| {
        assert a[k..k + 2][0] == a[k];
      }
    }
  }

  /** The leftmost occurrence is found by `IndexOf`. */
  lemma FirstOccurrence(s: string, p: string, k: nat)
    requires |p| > 0 && OccursAt(s, p, k)
    requires forall j :: 0 <= j < k ==> !OccursAt(s, p, j)
    ensures IndexOf(s, p) == Some(k)
  {
  }

  /** Loading as evidently intended: the tags are shown joined with `", "`, and the
      rest of the form is filled in. */
  function Load(data: Fields): (l: Loaded)
    ensures l.notice.None?
    ensures l.form.title == data.title && l.form.artist == OrElse(data.artist, "")
    ensures l.form.youtubeLink == OrElse(data.youtube_link, "") && l.form.lyrics == OrElse(data.lyrics, "")
    ensures l.form.composer == OrElse(data.composer, "") && l.form.region == OrElse(data.region, "")
    ensures l.form.language == OrElse(data.language, "swahili") && l.form.category == OrElse(data.category, "praise")
    ensures data.tags.None? || data.tags.value == "" ==> l.form.tags == ""
    ensures data.tags.Some? && data.tags.value != "" ==>
      Split(l.form.tags, ", ") == Split(data.tags.value, [Comma])
    ensures l.form.duration == DurationOf(data.duration)
    ensures l.form.isFeatured == data.is_featured.GetOr(false)
    ensures l.form.status == OrElse(data.status, "active")
  {
    Loaded(Trailing(Leading(data), data).(tags := ShownTags(data.tags)), None)
  }

  /** As written, a tagged song loads with an error and an empty tag field, so saving
      the form then sends `tags: null` (see `FailedLoadSaveRefused`). */
  lemma TaggedSongLosesTags(data: Fields)
    requires data.tags.Some? && data.tags.value != ""
    ensures LoadAsWritten(data).notice == Some(LoadFailed)
    ensures NormalizeTags(LoadAsWritten(data).form.tags).None?
    ensures NormalizeTags(LoadAsWritten(data).form.tags) != data.tags
  {
    BlankTagsNull(LoadAsWritten(data).form.tags);
  }

  /** The form a failed load leaves sends `tags: null`, which the schema refuses: the
      stored tags stay, but the song cannot be saved until tags are typed in again. */
  lemma FailedLoadSaveRefused(data: Fields, o: map<string, Json>, isUrl: string -> bool)
    requires data.tags.Some? && data.tags.value != ""
    requires SendsTags(o, LoadAsWritten(data).form)
    ensures Validation.ValidateSong(JObj(o), isUrl).Failure?
    ensures Validation.Flagged(Validation.ValidateSong(JObj(o), isUrl).error, Tags)
  {
    var form := LoadAsWritten(data).form;
    assert form.tags == "";
    BlankTagsRejected(form, o, isUrl);
  }

  /** With the intended load, saving an unchanged form sends back the stored tags,
      whenever they are what the form would have sent. */
  lemma LoadKeepsTags(data: Fields)
    requires data.tags.None? || NormalizeTags(data.tags.value) == data.tags
    ensures NormalizeTags(Load(data).form.tags) == data.tags
  {
    var shown := Load(data).form.tags;
    if data.tags.None? {
      BlankTagsNull(shown);
    } else {
      var t := data.tags.value;
      var ts := Tokens(t);
      NormalizeSplits(t);
      assert Split(t, [Comma]) == ts;
      assert t == Join(ts, [Comma]);
      assert shown == Join(ts, ", ");
      EditedTagsRoundTrip(ts);
    }
  }

  // ---------------------------------------------------------------- validation

  const TitleRequired := "Title is required."
  const InvalidLink := "Please enter a valid YouTube link."
  const InvalidDuration := "Duration must be a positive number."

  /** The three error slots of the form. */
  datatype FormErrors = FormErrors(title: Option<string>, youtubeLink: Option<string>, duration: Option<string>)

  const NoErrors := FormErrors(None, None, None)

  /** `validateForm`: a blank title, a non-empty link outside the pattern, and a
      duration that is not a positive number are each reported. */
  function ValidateForm(form: Form): (e: FormErrors)
    ensures e.title.Some? <==> AllWhitespace(form.title)
    ensures e.youtubeLink.Some? <==> form.youtubeLink != "" && !MatchesLinkPattern(form.youtubeLink)
    ensures e.duration.Some? <==> form.duration.NotANumber? || (form.duration.Number? && form.duration.n <= 0.0)
    ensures e.title.Some? ==> e.title.value == TitleRequired
    ensures e.youtubeLink.Some? ==> e.youtubeLink.value == InvalidLink
    ensures e.duration.Some? ==> e.duration.value == InvalidDuration
  {
    FormErrors(
      if Trim(form.title) == "" then Some(TitleRequired) else None,
      if form.youtubeLink != "" && !MatchesLinkPattern(form.youtubeLink) then Some(InvalidLink) else None,
      match form.duration
      case Empty => None
      case NotANumber => Some(InvalidDuration)
      case Number(n) => if n <= 0.0 then Some(InvalidDuration) else None)
  }

  predicate FormValid(form: Form) {
    ValidateForm(form) == NoErrors
  }

  // ---------------------------------------------------------------- the request body

  /** The duration as sent: the number, or `null` when the input holds none. */
  function DurationMember(d: DurationInput): Json {
    if d.Number? then JNum(d.n) else JNull
  }

  /** `songData`, as the JSON object it is sent as. */
  datatype Payload = Payload(
    title: Json, artist: Json, youtube_link: Json, lyrics: Json, composer: Json,
    language: Json, region: Json, category: Json, tags: Json, duration: Json,
    is_featured: Json, status: Json)

  /** The member of the sent object under a field's key; there is no `audio_link`. */
  function Member(p: Payload, f: Field): Option<Json> {
    match f
    case Root => None
    case AudioLink => None
    case Title => Some(p.title)
    case Artist => Some(p.artist)
    case YoutubeLink => Some(p.youtube_link)
    case Lyrics => Some(p.lyrics)
    case Composer => Some(p.composer)
    case Language => Some(p.language)
    case Region => Some(p.region)
    case Category => Some(p.category)
    case Tags => Some(p.tags)
    case Duration => Some(p.duration)
    case IsFeatured => Some(p.is_featured)
    case Status => Some(p.status)
  }

  /** The fields sent as `value || null`. */
  predicate NullWhenEmpty(f: Field) {
    f.Title? || f.Artist? || f.Lyrics? || f.Composer? || f.Language? || f.Region? || f.Category? || f.Status?
  }

  /** The form text behind a field sent as `value || null`. */
  function FormText(form: Form, f: Field): string
    requires NullWhenEmpty(f)
  {
    match f
    case Title => form.title
    case Artist => form.artist
    case Lyrics => form.lyrics
    case Composer => form.composer
    case Language => form.language
    case Region => form.region
    case Category => form.category
    case Status => form.status
  }

  /** `value || null` for a string. */
  function OrNull(s: string): (j: Json)
    ensures j == JNull <==> s == ""
    ensures s != "" ==> j == JStr(s)
  {
    if s == "" then JNull else JStr(s)
  }

  /** The `tags` member: the normalised tags, `null` when only commas and blanks were
      typed. */
  function TagsMember(tags: string): (j: Json)
    ensures j == JNull <==> OnlyBlanks(tags)
    ensures j != JNull ==> j.JStr? && j.s != ""
  {
    BlankTagsNull(tags);
    var t := NormalizeTags(tags);
    if t.Some? then JStr(t.value) else JNull
  }

  /** The body sent: empty text becomes `null`, except the link, which stays `''`; an
      empty or unparsable duration becomes `null` (`JSON.stringify` writes `NaN` as
      `null`). */
  function SongData(form: Form): (p: Payload)
    ensures p.youtube_link == JStr(form.youtubeLink)
    ensures p.tags == TagsMember(form.tags)
    ensures p.duration == JNull <==> !form.duration.Number?
    ensures form.duration.Number? ==> p.duration == JNum(form.duration.n)
    ensures p.is_featured == JBool(form.isFeatured)
  {
    Payload(
      OrNull(form.title), OrNull(form.artist), JStr(form.youtubeLink), OrNull(form.lyrics),
      OrNull(form.composer), OrNull(form.language), OrNull(form.region), OrNull(form.category),
      TagsMember(form.tags),
      DurationMember(form.duration),
      JBool(form.isFeatured),
      OrNull(form.status))
  }

  /** Every text field but the link is sent as `null` when empty and as typed otherwise. */
  lemma SongDataMembers(form: Form, f: Field)
    requires NullWhenEmpty(f)
    ensures FormText(form, f) == "" ==> Member(SongData(form), f) == Some(JNull)
    ensures FormText(form, f) != "" ==> Member(SongData(form), f) == Some(JStr(FormText(form, f)))
  {
    var p := SongData(form);
    assert TextSent(p, form);
    TextMember(p, form, f);
  }

  /** Each `value || null` member of `p` is that of the form's text. */
  predicate TextSent(p: Payload, form: Form) {
    && p.title == OrNull(form.title) && p.artist == OrNull(form.artist)
    && p.lyrics == OrNull(form.lyrics) && p.composer == OrNull(form.composer)
    && p.language == OrNull(form.language) && p.region == OrNull(form.region)
    && p.category == OrNull(form.category) && p.status == OrNull(form.status)
  }

  /** The member under a `value || null` field is `value || null` of its text. */
  lemma TextMember(p: Payload, form: Form, f: Field)
    requires NullWhenEmpty(f) && TextSent(p, form)
    ensures Member(p, f) == Some(OrNull(FormText(form, f)))
  {
  }

  /** `o` is the object the server parses from the sent body. */
  predicate Encodes(o: map<string, Json>, p: Payload) {
    forall f :: Lookup(o, Key(f)) == Member(p, f)
  }

  /** The member of `o` for a text field is the one the form sends, whatever the
      other members are. */
  predicate SendsText(o: map<string, Json>, form: Form, f: Field)
    requires NullWhenEmpty(f)
  {
    Lookup(o, Key(f)) == Some(OrNull(FormText(form, f)))
  }

  /** The tags member of `o` is the one the form sends. */
  predicate SendsTags(o: map<string, Json>, form: Form) {
    Lookup(o, Key(Tags)) == Some(TagsMember(form.tags))
  }

  /** The duration member of `o` is the one the form sends. */
  predicate SendsDuration(o: map<string, Json>, form: Form) {
    Lookup(o, Key(Duration)) == Some(DurationMember(form.duration))
  }

  /** The body the form sends carries each of those members. */
  lemma EncodedSendsText(o: map<string, Json>, form: Form, f: Field)
    requires Encodes(o, SongData(form)) && NullWhenEmpty(f)
    ensures SendsText(o, form, f)
  {
    assert Lookup(o, Key(f)) == Member(SongData(form), f);
    SongDataMembers(form, f);
  }

  lemma EncodedSendsTags(o: map<string, Json>, form: Form)
    requires Encodes(o, SongData(form))
    ensures SendsTags(o, form)
  {
    assert Lookup(o, Key(Tags)) == Member(SongData(form), Tags);
    SongDataTags(form);
  }

  lemma EncodedSendsDuration(o: map<string, Json>, form: Form)
    requires Encodes(o, SongData(form))
    ensures SendsDuration(o, form)
  {
    assert Lookup(o, Key(Duration)) == Member(SongData(form), Duration);
    SongDataDuration(form);
  }

  /** The tags member is the normalised tags, or `null`. */
  lemma SongDataTags(form: Form)
    ensures Member(SongData(form), Tags) == Some(TagsMember(form.tags))
  {
    var p := SongData(form);
    assert p.tags == TagsMember(form.tags);
    assert Member(p, Tags) == Some(p.tags);
  }

  /** The duration member is the number typed, or `null`. */
  lemma SongDataDuration(form: Form)
    ensures Member(SongData(form), Duration) == Some(DurationMember(form.duration))
  {
    var p := SongData(form);
    assert p.duration == DurationMember(form.duration);
    assert Member(p, Duration) == Some(p.duration);
  }

  /** Any field left empty, other than the link, is sent as `null`, which the schema
      rejects: the server refuses the form and names that field. */
  lemma BlankFieldRejected(form: Form, f: Field, o: map<string, Json>, isUrl: string -> bool)
    requires NullWhenEmpty(f) && FormText(form, f) == ""
    requires SendsText(o, form, f)
    ensures Validation.ValidateSong(JObj(o), isUrl).Failure?
    ensures Validation.Flagged(Validation.ValidateSong(JObj(o), isUrl).error, f)
  {
    assert Lookup(o, Key(f)) == Some(JNull);
    Validation.NullTextRejected(o, f, isUrl);
  }

  /** Tags of commas and blanks alone are sent as `null` and rejected likewise. */
  lemma BlankTagsRejected(form: Form, o: map<string, Json>, isUrl: string -> bool)
    requires OnlyBlanks(form.tags) && SendsTags(o, form)
    ensures Validation.ValidateSong(JObj(o), isUrl).Failure?
    ensures Validation.Flagged(Validation.ValidateSong(JObj(o), isUrl).error, Tags)
  {
    assert Lookup(o, Key(Tags)) == Some(JNull);
    Validation.NullTextRejected(o, Tags, isUrl);
  }

  /** The initial form with only a title typed passes the form's own checks, yet the
      server refuses it, since the artist goes out as `null`. */
  lemma DefaultFormRejected(title: string, o: map<string, Json>, isUrl: string -> bool)
    requires !AllWhitespace(title)
    requires SendsText(o, EmptyForm.(title := title), Artist)
    ensures FormValid(EmptyForm.(title := title))
    ensures Validation.ValidateSong(JObj(o), isUrl).Failure?
  {
    var form := EmptyForm.(title := title);
    assert ValidateForm(form) == NoErrors;
    BlankFieldRejected(form, Artist, o, isUrl);
  }

  /** An empty duration is sent as `null`, which the schema rejects. */
  lemma BlankDurationRejected(form: Form, o: map<string, Json>, isUrl: string -> bool)
    requires form.duration.Empty? && SendsDuration(o, form)
    ensures Validation.ValidateSong(JObj(o), isUrl).Failure?
    ensures Validation.Flagged(Validation.ValidateSong(JObj(o), isUrl).error, Duration)
  {
    Validation.DurationRejected(o, DurationMember(form.duration), isUrl);
  }

  /** A fractional duration passes the form but not the schema, which wants an integer. */
  lemma FractionalDurationRejected(form: Form, o: map<string, Json>, isUrl: string -> bool)
    requires form.duration.Number? && form.duration.n > 0.0 && !Validation.IsInteger(form.duration.n)
    requires SendsDuration(o, form)
    ensures ValidateForm(form).duration.None?
    ensures Validation.ValidateSong(JObj(o), isUrl).Failure?
    ensures Validation.Flagged(Validation.ValidateSong(JObj(o), isUrl).error, Duration)
  {
    Validation.DurationRejected(o, DurationMember(form.duration), isUrl);
  }

  /** Every text field, the tags and the duration filled in, the duration whole, and
      the link empty or one the schema takes as a URL. */
  predicate Filled(form: Form, isUrl: string -> bool) {
    && (forall f :: NullWhenEmpty(f) ==> FormText(form, f) != "")
    && !OnlyBlanks(form.tags)
    && form.duration.Number? && Validation.IsInteger(form.duration.n)
    && (form.youtubeLink == "" || isUrl(Trim(form.youtubeLink)))
  }

  /** A form that passes its own checks and is filled in is accepted by the server,
      which stores the trimmed title. */
  lemma FilledFormAccepted(form: Form, o: map<string, Json>, isUrl: string -> bool)
    requires FormValid(form) && Filled(form, isUrl)
    requires Encodes(o, SongData(form))
    ensures Validation.ValidateSong(JObj(o), isUrl).Success?
    ensures Validation.ValidateSong(JObj(o), isUrl).value.title == Trim(form.title)
  {
    forall f ensures Validation.Accepts(o, f, isUrl) {
      FieldAccepted(form, o, isUrl, f);
    }
    assert Lookup(o, Key(Title)) == Member(SongData(form), Title);
    SongDataMembers(form, Title);
    Validation.AcceptedTitleTrimmed(o, isUrl, form.title);
  }

  /** One field of a filled-in valid form, as the schema sees it. */
  lemma FieldAccepted(form: Form, o: map<string, Json>, isUrl: string -> bool, f: Field)
    requires FormValid(form) && Filled(form, isUrl)
    requires Encodes(o, SongData(form))
    ensures Validation.Accepts(o, f, isUrl)
  {
    var p := SongData(form);
    var v := Lookup(o, Key(f));
    assert v == Member(p, f);
    if NullWhenEmpty(f) {
      SongDataMembers(form, f);
      assert v == Some(JStr(FormText(form, f)));
      if f.Title? {
        assert !AllWhitespace(form.title);
      }
    } else if f.Tags? {
      assert v.value.JStr?;
    } else if f.Duration? {
      assert v == Some(JNum(form.duration.n));
    } else if f.IsFeatured? {
      assert v == Some(JBool(form.isFeatured));
    } else if f.YoutubeLink? {
      assert v == Some(JStr(form.youtubeLink));
    } else {
      assert v.None?;
    }
  }

  // ---------------------------------------------------------------- submitting

  /** What pressing the submit button leads to. */
  datatype Submission =
    | Rejected(errors: FormErrors)
    | ToLogin
    | Send(verb: string, url: string, authorization: string, payload: Payload)

  /** `id` from the route is truthy: the form edits an existing song. */
  predicate Editing(id: Option<string>) {
    id.Some? && id.value != ""
  }

  /** `handleSubmit` up to the request: an invalid form sends nothing; a missing secret
      sends nothing and leads to the login page; otherwise the body goes with the
      stored secret as a bearer token, by PUT to the song's path when editing and by
      POST to the collection when adding. */
  function Submit(form: Form, id: Option<string>, secret: Option<string>): (s: Submission)
    ensures s.Rejected? <==> !FormValid(form)
    ensures s.Rejected? ==> s.errors == ValidateForm(form)
    ensures s.ToLogin? <==> FormValid(form) && (secret.None? || secret.value == "")
    ensures s.Send? ==> secret.Some? && s.authorization == "Bearer " + secret.value
    ensures s.Send? ==> s.payload == SongData(form)
    ensures s.Send? && Editing(id) ==> s.verb == "PUT" && s.url == ApiRoutes.Song(id.value)
    ensures s.Send? && !Editing(id) ==> s.verb == "POST" && s.url == ApiRoutes.Songs
  {
    var errors := ValidateForm(form);
    if errors != NoErrors then Rejected(errors)
    else if secret.None? || secret.value == "" then ToLogin
    else if Editing(id) then Send("PUT", ApiRoutes.Song(id.value), "Bearer " + secret.value, SongData(form))
    else Send("POST", ApiRoutes.Songs, "Bearer " + secret.value, SongData(form))
  }

  /** The initial form cannot be submitted as it is: its title is empty. */
  lemma EmptyFormRejected(id: Option<string>, secret: Option<string>)
    ensures Submit(EmptyForm, id, secret) == Rejected(FormErrors(Some(TitleRequired), None, None))
  {
  }

  /** The API admits the request exactly when the stored secret is the server's. */
  lemma SubmitAuthorized(form: Form, id: Option<string>, secret: Option<string>, serverSecret: Option<string>)
    requires Submit(form, id, secret).Send?
    ensures SongRoutes.Authorize(Some(Submit(form, id, secret).authorization), serverSecret)
      <==> serverSecret == secret
  {
    var header := Submit(form, id, secret).authorization;
    if serverSecret.Some? && header == "Bearer " + serverSecret.value {
      assert serverSecret.value == header[7..] == secret.value;
    }
  }

  /** An edit of a song whose id is one path segment reaches the API's update route for
      that id; the raw worker does not route it. */
  lemma EditReachesUpdateRoute(form: Form, id: string, secret: Option<string>)
    requires id != "" && '/' !in id
    requires Submit(form, Some(id), secret).Send?
    ensures var s := Submit(form, Some(id), secret);
      s.verb == "PUT" && SongRoutes.SongIdParam(s.url[|ApiRoutes.ApiBase|..]) == Some(id)
    ensures Worker.Dispatch("PUT", Submit(form, Some(id), secret).url) == Worker.Hello
  {
    ApiRoutes.SongMatchesMountedRoute(id);
    ApiRoutes.WorkerMissesSongPath("PUT", id);
  }

  /** An addition reaches the collection route of both servers. */
  lemma AddReachesCreateRoute(form: Form, secret: Option<string>)
    requires Submit(form, None, secret).Send?
    ensures var s := Submit(form, None, secret);
      s.verb == "POST" && s.url[|ApiRoutes.ApiBase|..] == "/songs"
    ensures Worker.Dispatch("POST", Submit(form, None, secret).url) == Worker.Create
  {
    var s := Submit(form, None, secret);
    assert s.url == ApiRoutes.Songs;
    ApiRoutes.SongsMatchesMountedRoute();
  }

  // ---------------------------------------------------------------- the answer

  /** The notice shown above the form. */
  datatype Notice = Notice(ok: bool, text: string)

  /** The page after the answer: the form, the notice, and where it navigates. */
  datatype Settled = Settled(form: Form, notice: Notice, navigateTo: Option<string>)

  /** How the request ended for `handleSubmit`: a response whose body parsed as JSON,
      with `response.ok` and the text `result.error || response.statusText`; or an
      exception (a failed fetch, or a body `response.json()` cannot parse), with its
      message when it is an `Error`. */
  datatype Answer = Answered(ok: bool, reason: string) | Threw(message: Option<string>)

  const Unexpected := "An unexpected error occurred."

  /** The `error` member of a JSON error body, `""` for any other body. */
  function ErrorText(b: Body): string {
    match b
    case ErrorJson(e, _) => e
    case FailureJson(e) => e
    case _ => ""
  }

  /** What a server response amounts to: a plain-text body makes `response.json()`
      throw `parseError`; otherwise `ok` is a 2xx status, and the reason is the body's
      `error` member, or the status text when that is missing or empty. */
  function AnswerOf(resp: Response, statusText: string, parseError: string): (a: Answer)
    ensures a.Threw? <==> resp.body.Text?
    ensures a.Threw? ==> a.message == Some(parseError)
    ensures a.Answered? ==> (a.ok <==> 200 <= resp.status <= 299)
    ensures a.Answered? && ErrorText(resp.body) != "" ==> a.reason == ErrorText(resp.body)
    ensures a.Answered? && ErrorText(resp.body) == "" ==> a.reason == statusText
  {
    if resp.body.Text? then Threw(Some(parseError))
    else
      var e := ErrorText(resp.body);
      Answered(200 <= resp.status <= 299, if e != "" then e else statusText)
  }

  /** The answer to a sent request: on success a notice, a reset form when adding, and
      a move to the home page; on failure a notice with the server's reason; on an
      exception a notice with its message. Only success changes the form or the page. */
  function Settle(form: Form, id: Option<string>, answer: Answer): (r: Settled)
    ensures r.notice.ok <==> answer.Answered? && answer.ok
    ensures r.notice.ok ==> r.navigateTo == Some("/")
    ensures r.notice.ok && !Editing(id) ==> r.form == EmptyForm && r.notice.text == "Song added successfully!"
    ensures r.notice.ok && Editing(id) ==> r.form == form && r.notice.text == "Song updated successfully!"
    ensures !r.notice.ok ==> r.form == form && r.navigateTo.None?
    ensures answer.Answered? && !answer.ok && Editing(id) ==>
      r.notice.text == "Failed to update song: " + answer.reason
    ensures answer.Answered? && !answer.ok && !Editing(id) ==>
      r.notice.text == "Failed to add song: " + answer.reason
    ensures answer.Threw? && answer.message.Some? ==> r.notice.text == "Error: " + answer.message.value
    ensures answer.Threw? && answer.message.None? ==> r.notice.text == "Error: " + Unexpected
  {
    match answer
    case Threw(message) => Settled(form, Notice(false, "Error: " + message.GetOr(Unexpected)), None)
    case Answered(ok, reason) =>
      if ok && Editing(id) then Settled(form, Notice(true, "Song updated successfully!"), Some("/"))
      else if ok then Settled(EmptyForm, Notice(true, "Song added successfully!"), Some("/"))
      else if Editing(id) then Settled(form, Notice(false, "Failed to update song: " + reason), None)
      else Settled(form, Notice(false, "Failed to add song: " + reason), None)
  }

  /** An edit sent to the raw worker gets its plain-text greeting, which `response.json()`
      cannot parse: the page shows the parse error, keeps the form and stays, and the
      table is untouched. */
  lemma EditOnWorkerThrows(form: Form, id: string, secret: Option<string>, store: Store,
                           body: Result<Fields, string>, freshId: string, scan: seq<Song>,
                           statusText: string, parseError: string)
    requires id != "" && '/' !in id
    requires Submit(form, Some(id), secret).Send?
    ensures Worker.Dispatch("PUT", Submit(form, Some(id), secret).url) == Worker.Hello
    ensures var o := Worker.Fetch(store, Worker.Request("PUT", Submit(form, Some(id), secret).url, body), freshId, scan);
      && o.store == store
      && AnswerOf(o.response, statusText, parseError) == Threw(Some(parseError))
      && Settle(form, Some(id), AnswerOf(o.response, statusText, parseError))
        == Settled(form, Notice(false, "Error: " + parseError), None)
  {
    EditReachesUpdateRoute(form, id, secret);
  }

  /** After an addition the form is back at its initial state, which cannot be sent
      again without a title. */
  lemma AddedFormCleared(form: Form, reason: string, secret: Option<string>)
    ensures Settle(form, None, Answered(true, reason)).form == EmptyForm
    ensures Submit(Settle(form, None, Answered(true, reason)).form, None, secret).Rejected?
  {
    var cleared := Settle(form, None, Answered(true, reason)).form;
    assert cleared.title == "";
    UntitledRejected(cleared, None, secret);
  }

  /** A form without a title is never sent, whatever else it holds. */
  lemma UntitledRejected(form: Form, id: Option<string>, secret: Option<string>)
    requires form.title == ""
    ensures Submit(form, id, secret).Rejected?
  {
    assert ValidateForm(form).title.Some?;
  }
}
