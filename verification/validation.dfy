/**
 The song schema of the API: every string field is trimmed, `title` must be non-blank,
 the two link fields take a URL or the empty string, `duration` a positive integer and
 `is_featured` a boolean. Unknown members are dropped; a missing member stays missing,
 while an explicit `null` is a type error like any other non-string value.

 Whether a string is a URL is decided by the schema library; it is the parameter
 `isUrl` here.
 */
module Validation {
  import opened Wrappers
  import opened Strings
  import opened Catalog

  type Check<T> = Result<T, seq<Issue>>

  /** A JSON number with no fractional part. */
  predicate IsInteger(n: real) {
    n == n.Floor as real
  }

  /** `z.string().trim().min(1)` */
  function CheckTitle(v: Option<Json>): Check<Option<Json>> {
    match v
    case Some(JStr(s)) => if Trim(s) == "" then Failure([Issue(Title, Blank)]) else Success(Some(JStr(Trim(s))))
    case _ => Failure([Issue(Title, WrongType)])
  }

  /** `z.string().trim().optional()` */
  function CheckText(f: Field, v: Option<Json>): Check<Option<Json>> {
    match v
    case None => Success(None)
    case Some(JStr(s)) => Success(Some(JStr(Trim(s))))
    case Some(_) => Failure([Issue(f, WrongType)])
  }

  /** `z.string().trim().url().optional().or(z.literal(''))`: the trimmed value when it
      is a URL, otherwise the empty string itself. The URL check runs on the trimmed
      value, but the literal alternative sees the untrimmed one, so blanks are refused. */
  function CheckLink(f: Field, v: Option<Json>, isUrl: string -> bool): Check<Option<Json>> {
    match v
    case None => Success(None)
    case Some(JStr(s)) =>
      if isUrl(Trim(s)) then Success(Some(JStr(Trim(s))))
      else if s == "" then Success(Some(JStr("")))
      else Failure([Issue(f, NotUrl)])
    case Some(_) => Failure([Issue(f, WrongType)])
  }

  /** `z.number().int().positive().optional()`: both refinements are checked, so a
      negative fraction yields two issues. */
  function CheckDuration(v: Option<Json>): Check<Option<Json>> {
    match v
    case None => Success(None)
    case Some(JNum(n)) =>
      var issues := (if IsInteger(n) then [] else [Issue(Duration, NotInteger)])
        + (if n > 0.0 then [] else [Issue(Duration, NotPositive)]);
      if issues == [] then Success(v) else Failure(issues)
    case Some(_) => Failure([Issue(Duration, WrongType)])
  }

  /** `z.boolean().optional()` */
  function CheckFlag(v: Option<Json>): Check<Option<Json>> {
    match v
    case None => Success(None)
    case Some(JBool(b)) => Success(v)
    case Some(_) => Failure([Issue(IsFeatured, WrongType)])
  }

  /** What the schema accepts for field `f` of the object `o`. */
  predicate Accepts(o: map<string, Json>, f: Field, isUrl: string -> bool) {
    AcceptsValue(f, Lookup(o, Key(f)), isUrl)
  }

  /** What the schema accepts as the value `v` of field `f`, stated per field. */
  predicate AcceptsValue(f: Field, v: Option<Json>, isUrl: string -> bool) {
    match f
    case Root => true
    case Title => v.Some? && v.value.JStr? && !AllWhitespace(v.value.s)
    case YoutubeLink => v.None? || (v.value.JStr? && (v.value.s == "" || isUrl(Trim(v.value.s))))
    case AudioLink => v.None? || (v.value.JStr? && (v.value.s == "" || isUrl(Trim(v.value.s))))
    case Duration => v.None? || (v.value.JNum? && IsInteger(v.value.n) && v.value.n > 0.0)
    case IsFeatured => v.None? || v.value.JBool?
    case _ => v.None? || v.value.JStr?
  }

  /** A present string comes out trimmed; every other value comes out as it went in. */
  function Cleaned(v: Option<Json>): Option<Json> {
    match v
    case Some(JStr(s)) => Some(JStr(Trim(s)))
    case _ => v
  }

  /** The schema entry for one field, applied to that member of `o`: it passes exactly
      when the field is acceptable, then yields the cleaned member; its issues all name
      the field. */
  function CheckField(o: map<string, Json>, f: Field, isUrl: string -> bool): (r: Check<Option<Json>>)
    ensures r.Success? <==> Accepts(o, f, isUrl)
    ensures r.Success? && f != Root ==> r.value == Cleaned(Lookup(o, Key(f)))
    ensures r.Failure? ==> |r.error| > 0 && forall i :: 0 <= i < |r.error| ==> r.error[i].field == f
  {
    var v := Lookup(o, Key(f));
    match f
    case Root => Success(None)
    case Title => CheckTitle(v)
    case YoutubeLink => CheckLink(f, v, isUrl)
    case AudioLink => CheckLink(f, v, isUrl)
    case Duration => CheckDuration(v)
    case IsFeatured => CheckFlag(v)
    case _ => CheckText(f, v)
  }

  /** The fields of the schema, in declaration order. */
  const SchemaOrder: seq<Field> := [Title, Artist, YoutubeLink, AudioLink, Lyrics, Composer,
    Language, Region, Category, Tags, Duration, IsFeatured, Status]

  /** Some issue of `issues` is about field `f`. */
  predicate Flagged(issues: seq<Issue>, f: Field) {
    exists i :: 0 <= i < |issues| && issues[i].field == f
  }

  /** The fields flagged in two lists of issues together. */
  lemma FlaggedAppend(head: seq<Issue>, rest: seq<Issue>)
    ensures forall f :: Flagged(head + rest, f) <==> Flagged(head, f) || Flagged(rest, f)
  {
    forall f ensures Flagged(head + rest, f) <==> Flagged(head, f) || Flagged(rest, f) {
      if Flagged(head + rest, f) {
        var i :| 0 <= i < |head + rest| && (head + rest)[i].field == f;
        if i >= |head| {
          assert rest[i - |head|].field == f;
        }
      }
      if Flagged(rest, f) {
        var i :| 0 <= i < |rest| && rest[i].field == f;
        assert (head + rest)[|head| + i].field == f;
      }
      if Flagged(head, f) {
        var i :| 0 <= i < |head| && head[i].field == f;
        assert (head + rest)[i].field == f;
      }
    }
  }

  /** The issues one schema entry reports flag that field alone, exactly when it fails. */
  lemma FlaggedHead(o: map<string, Json>, g: Field, isUrl: string -> bool, head: seq<Issue>)
    requires var c := CheckField(o, g, isUrl); head == if c.Failure? then c.error else []
    ensures forall f :: Flagged(head, f) <==> f == g && !Accepts(o, f, isUrl)
  {
    forall f ensures Flagged(head, f) <==> f == g && !Accepts(o, f, isUrl) {
      if f == g && !Accepts(o, f, isUrl) {
        assert head[0].field == f;
      }
    }
  }

  /** The issues of the fields `fs`, in order. A field is flagged exactly when it is one
      of `fs` and is not acceptable. */
  function IssuesOf(o: map<string, Json>, fs: seq<Field>, isUrl: string -> bool): (r: seq<Issue>)
    ensures forall f :: Flagged(r, f) <==> f in fs && !Accepts(o, f, isUrl)
    decreases |fs|
  {
    if |fs| == 0 then []
    else
      var c := CheckField(o, fs[0], isUrl);
      var head := if c.Failure? then c.error else [];
      var rest := IssuesOf(o, fs[1..], isUrl);
      FlaggedAppend(head, rest);
      FlaggedHead(o, fs[0], isUrl, head);
      assert forall f :: f in fs <==> f == fs[0] || f in fs[1..];
      head + rest
  }

  /** The row a successful parse yields: every member cleaned, absent ones NULL. */
  function Assemble(o: map<string, Json>): Fields {
    var title := Cleaned(Lookup(o, Key(Title)));
    var duration := Lookup(o, Key(Duration));
    var featured := Lookup(o, Key(IsFeatured));
    Fields(
      if title.Some? && title.value.JStr? then title.value.s else "",
      TextOf(o, Artist), TextOf(o, YoutubeLink), TextOf(o, AudioLink), TextOf(o, Lyrics),
      TextOf(o, Composer), TextOf(o, Language), TextOf(o, Region), TextOf(o, Category),
      TextOf(o, Tags),
      if duration.Some? && duration.value.JNum? then Some(duration.value.n) else None,
      if featured.Some? && featured.value.JBool? then Some(featured.value.b) else None,
      TextOf(o, Status))
  }

  /** The trimmed string under field `f`, if there is one. */
  function TextOf(o: map<string, Json>, f: Field): Option<string> {
    var v := Lookup(o, Key(f));
    if v.Some? && v.value.JStr? then Some(Trim(v.value.s)) else None
  }

  /** On an acceptable object, every column of `Assemble` is the cleaned member. */
  lemma AssembleValues(o: map<string, Json>, isUrl: string -> bool)
    requires forall f :: Accepts(o, f, isUrl)
    ensures forall f :: f != Root ==> Value(Assemble(o), f) == Cleaned(Lookup(o, Key(f)))
  {
    forall f | f != Root
      ensures Value(Assemble(o), f) == Cleaned(Lookup(o, Key(f)))
    {
      AssembleValue(o, f, isUrl);
    }
  }

  /** One field of the assembled record, for an acceptable member. */
  lemma AssembleValue(o: map<string, Json>, f: Field, isUrl: string -> bool)
    requires f != Root && Accepts(o, f, isUrl)
    ensures Value(Assemble(o), f) == Cleaned(Lookup(o, Key(f)))
  {
    var v := Lookup(o, Key(f));
    if f.Title? || f.Duration? || f.IsFeatured? {
    } else {
      AssembleText(o, f);
      assert v.None? || v.value.JStr?;
    }
  }

  /** A text field of the assembled record is the member's trimmed string, if any. */
  lemma AssembleText(o: map<string, Json>, f: Field)
    requires !f.Root? && !f.Title? && !f.Duration? && !f.IsFeatured?
    ensures Value(Assemble(o), f) == TextValue(TextOf(o, f))
  {
    match f
    case Artist =>
    case YoutubeLink =>
    case AudioLink =>
    case Lyrics =>
    case Composer =>
    case Language =>
    case Region =>
    case Category =>
    case Tags =>
    case Status =>
  }

  /** `songSchema.safeParse(body)`. It succeeds exactly when every field is acceptable;
      a success holds every field cleaned (so absent fields stay absent); a failure
      flags exactly the unacceptable fields. */
  function ValidateSong(body: Json, isUrl: string -> bool): (r: Check<Fields>)
    ensures r.Success? <==> body.JObj? && forall f :: Accepts(body.fields, f, isUrl)
    ensures r.Success? ==> forall f :: f != Root ==> Value(r.value, f) == Cleaned(Lookup(body.fields, Key(f)))
    ensures r.Failure? ==> |r.error| > 0
    ensures !body.JObj? ==> r == Failure([Issue(Root, WrongType)])
    ensures r.Failure? && body.JObj? ==>
      forall f :: f != Root ==> (Flagged(r.error, f) <==> !Accepts(body.fields, f, isUrl))
  {
    if !body.JObj? then Failure([Issue(Root, WrongType)])
    else
      var o := body.fields;
      var issues := IssuesOf(o, SchemaOrder, isUrl);
      SchemaCoversFields();
      NoIssuesIffAccepted(o, isUrl);
      if issues == [] then
        AssembleValues(o, isUrl);
        Success(Assemble(o))
      else Failure(issues)
  }

  /** Every field but `Root` is in the schema. */
  lemma SchemaCoversFields()
    ensures forall f :: f != Root ==> f in SchemaOrder
  {
    forall f | f != Root ensures f in SchemaOrder {
      match f
      case Title => assert SchemaOrder[0] == f;
      case Artist => assert SchemaOrder[1] == f;
      case YoutubeLink => assert SchemaOrder[2] == f;
      case AudioLink => assert SchemaOrder[3] == f;
      case Lyrics => assert SchemaOrder[4] == f;
      case Composer => assert SchemaOrder[5] == f;
      case Language => assert SchemaOrder[6] == f;
      case Region => assert SchemaOrder[7] == f;
      case Category => assert SchemaOrder[8] == f;
      case Tags => assert SchemaOrder[9] == f;
      case Duration => assert SchemaOrder[10] == f;
      case IsFeatured => assert SchemaOrder[11] == f;
      case Status => assert SchemaOrder[12] == f;
    }
  }

  /** The schema reports no issue exactly when every field is acceptable. */
  lemma NoIssuesIffAccepted(o: map<string, Json>, isUrl: string -> bool)
    ensures IssuesOf(o, SchemaOrder, isUrl) == [] <==> forall f :: Accepts(o, f, isUrl)
  {
    var issues := IssuesOf(o, SchemaOrder, isUrl);
    SchemaCoversFields();
    if issues != [] {
      assert Flagged(issues, issues[0].field);
    } else {
      forall f ensures Accepts(o, f, isUrl) {
        assert !Flagged(issues, f);
      }
    }
  }

  /** The JSON object of a row's non-NULL columns, as a client re-sending a fetched
      record would build it. */
  function ToJson(fs: Fields): (j: Json)
    ensures j.JObj?
    ensures forall f :: f != Root ==> Lookup(j.fields, Key(f)) == Value(fs, f)
  {
    KeysInjective();
    var m := map f | f in SchemaOrder && Value(fs, f).Some? :: Key(f) := Value(fs, f).value;
    SchemaCoversFields();
    assert forall f :: f != Root ==> Lookup(m, Key(f)) == Value(fs, f) by {
      forall f | f != Root ensures Lookup(m, Key(f)) == Value(fs, f) {
        if Key(f) in m {
          var g :| g in SchemaOrder && Value(fs, g).Some? && Key(g) == Key(f);
          assert g == f;
        }
      }
    }
    JObj(m)
  }

  lemma KeysInjective()
    ensures forall f, g :: Key(f) == Key(g) ==> f == g
  {
    forall f, g | f != g ensures Key(f) != Key(g) {
      KeyInjective(f, g);
    }
  }

  /** Cleaning is idempotent, since trimming is. */
  lemma CleanedIdempotent(v: Option<Json>)
    ensures Cleaned(Cleaned(v)) == Cleaned(v)
  {
    if v.Some? && v.value.JStr? {
      TrimIdempotent(v.value.s);
    }
  }

  /** Validation is idempotent: re-validating what a successful validation produced
      succeeds and yields the same record. */
  lemma ValidateIdempotent(body: Json, isUrl: string -> bool)
    requires ValidateSong(body, isUrl).Success?
    ensures ValidateSong(ToJson(ValidateSong(body, isUrl).value), isUrl) == ValidateSong(body, isUrl)
  {
    var fs := ValidateSong(body, isUrl).value;
    var o := body.fields;
    var j := ToJson(fs);
    forall f ensures Accepts(j.fields, f, isUrl) {
      if f != Root {
        assert Accepts(o, f, isUrl);
        assert Lookup(j.fields, Key(f)) == Cleaned(Lookup(o, Key(f)));
        CleanedAccepted(f, Lookup(o, Key(f)), isUrl);
      }
    }
    var r := ValidateSong(j, isUrl);
    forall f ensures Value(r.value, f) == Value(fs, f) {
      if f != Root {
        CleanedIdempotent(Lookup(o, Key(f)));
      }
    }
    ValuesDetermineFields(r.value, fs);
  }

  /** A body whose every field passes is stored with its title trimmed. */
  lemma AcceptedTitleTrimmed(o: map<string, Json>, isUrl: string -> bool, title: string)
    requires forall f :: Accepts(o, f, isUrl)
    requires Lookup(o, Key(Title)) == Some(JStr(title))
    ensures ValidateSong(JObj(o), isUrl).Success?
    ensures ValidateSong(JObj(o), isUrl).value.title == Trim(title)
  {
    AcceptedSucceeds(o, isUrl);
    StoredTitle(JObj(o), isUrl, title);
  }

  lemma AcceptedSucceeds(o: map<string, Json>, isUrl: string -> bool)
    requires forall f :: Accepts(o, f, isUrl)
    ensures ValidateSong(JObj(o), isUrl).Success?
  {
  }

  /** The stored title is the body's title, trimmed. */
  lemma StoredTitle(body: Json, isUrl: string -> bool, title: string)
    requires ValidateSong(body, isUrl).Success?
    requires Lookup(body.fields, Key(Title)) == Some(JStr(title))
    ensures ValidateSong(body, isUrl).value.title == Trim(title)
  {
    var fs := ValidateSong(body, isUrl).value;
    assert Value(fs, Title) == Cleaned(Lookup(body.fields, Key(Title)));
  }

  /** A cleaned acceptable value is still acceptable. */
  lemma CleanedAccepted(f: Field, v: Option<Json>, isUrl: string -> bool)
    requires AcceptsValue(f, v, isUrl)
    ensures AcceptsValue(f, Cleaned(v), isUrl)
  {
    if v.Some? && v.value.JStr? {
      var t := Trim(v.value.s);
      TrimIdempotent(v.value.s);
      assert Cleaned(v) == Some(JStr(t));
      assert !AllWhitespace(t) <==> t != "";
    }
  }

  /** A body with one field the schema refuses is rejected, and that field is flagged. */
  lemma FieldRejected(o: map<string, Json>, f: Field, isUrl: string -> bool)
    requires f != Root && !Accepts(o, f, isUrl)
    ensures ValidateSong(JObj(o), isUrl).Failure?
    ensures Flagged(ValidateSong(JObj(o), isUrl).error, f)
  {
    var body := JObj(o);
    assert body.fields == o;
    var r := ValidateSong(body, isUrl);
    assert !Accepts(body.fields, f, isUrl);
    assert r.Failure?;
  }

  /** A blank or whitespace-only title is always rejected, and the title is flagged. */
  lemma BlankTitleRejected(o: map<string, Json>, s: string, isUrl: string -> bool)
    requires Lookup(o, Key(Title)) == Some(JStr(s)) && AllWhitespace(s)
    ensures ValidateSong(JObj(o), isUrl).Failure?
    ensures Flagged(ValidateSong(JObj(o), isUrl).error, Title)
  {
    assert !Accepts(o, Title, isUrl);
    FieldRejected(o, Title, isUrl);
  }

  /** An explicit `null` is not an absent member: a `null` artist is rejected. */
  lemma NullArtistRejected(o: map<string, Json>, isUrl: string -> bool)
    requires Lookup(o, Key(Artist)) == Some(JNull)
    ensures ValidateSong(JObj(o), isUrl).Failure?
    ensures Flagged(ValidateSong(JObj(o), isUrl).error, Artist)
  {
    assert !Accepts(o, Artist, isUrl);
    FieldRejected(o, Artist, isUrl);
  }

  /** A duration of zero, or any non-positive duration, is rejected. */
  lemma NonPositiveDurationRejected(o: map<string, Json>, n: real, isUrl: string -> bool)
    requires Lookup(o, Key(Duration)) == Some(JNum(n)) && n <= 0.0
    ensures ValidateSong(JObj(o), isUrl).Failure?
    ensures Flagged(ValidateSong(JObj(o), isUrl).error, Duration)
  {
    assert !Accepts(o, Duration, isUrl);
    FieldRejected(o, Duration, isUrl);
  }

  /** An explicit `null` for a text field is rejected, and the field is flagged. */
  lemma NullTextRejected(o: map<string, Json>, f: Field, isUrl: string -> bool)
    requires !f.Root? && !f.Duration? && !f.IsFeatured?
    requires Lookup(o, Key(f)) == Some(JNull)
    ensures ValidateSong(JObj(o), isUrl).Failure?
    ensures Flagged(ValidateSong(JObj(o), isUrl).error, f)
  {
    assert !Accepts(o, f, isUrl);
    FieldRejected(o, f, isUrl);
  }

  /** A duration that is present must be a positive whole number: `null`, a fraction
      or any non-number is rejected. */
  lemma DurationRejected(o: map<string, Json>, v: Json, isUrl: string -> bool)
    requires Lookup(o, Key(Duration)) == Some(v)
    requires !v.JNum? || !IsInteger(v.n) || v.n <= 0.0
    ensures ValidateSong(JObj(o), isUrl).Failure?
    ensures Flagged(ValidateSong(JObj(o), isUrl).error, Duration)
  {
    assert !Accepts(o, Duration, isUrl);
    FieldRejected(o, Duration, isUrl);
  }

  /** Every string a successful validation keeps is trimmed, the title is non-empty,
      and a duration is a positive integer. */
  lemma ValidatedIsClean(body: Json, isUrl: string -> bool)
    requires ValidateSong(body, isUrl).Success?
    ensures var fs := ValidateSong(body, isUrl).value;
      && fs.title != "" && IsTrimmed(fs.title)
      && (forall f :: Value(fs, f).Some? && Value(fs, f).value.JStr? ==> IsTrimmed(Value(fs, f).value.s))
      && (fs.duration.Some? ==> IsInteger(fs.duration.value) && fs.duration.value > 0.0)
  {
    var fs := ValidateSong(body, isUrl).value;
    var o := body.fields;
    var t := Lookup(o, Key(Title));
    assert AcceptsValue(Title, t, isUrl);
    assert Value(fs, Title) == Cleaned(t);
    assert fs.title == Trim(t.value.s);
    assert AcceptsValue(Duration, Lookup(o, Key(Duration)), isUrl);
    assert Value(fs, Duration) == Cleaned(Lookup(o, Key(Duration)));
    forall f ensures Value(fs, f).Some? && Value(fs, f).value.JStr? ==> IsTrimmed(Value(fs, f).value.s) {
      if f != Root {
        var v := Lookup(o, Key(f));
        assert Value(fs, f) == Cleaned(v);
        CleanedIsTrimmed(v);
      }
    }
  }

  lemma CleanedIsTrimmed(v: Option<Json>)
    ensures Cleaned(v).Some? && Cleaned(v).value.JStr? ==> IsTrimmed(Cleaned(v).value.s)
  {
  }
}
