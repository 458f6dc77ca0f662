/**
 * The score metadata form: defaulting of the loaded metadata, the length
 * limits checked before saving, and the update request's fields, trimmed and
 * with blanks sent as null.
 */
module ScoreEdit {
  import opened JsValues

  const MaxTitle: nat := 200
  const MaxAuthor: nat := 200
  const MaxStyle: nat := 100

  const TitleTooLong: string := "Title must be <= 200 chars"
  const AuthorTooLong: string := "Author must be <= 200 chars"
  const StyleTooLong: string := "Style must be <= 100 chars"
  const LoadFailed: string := "Failed to load score metadata"

  // ---------------------------------------------------------------------------
  // Loading

  /** The score record as the server returns it; each field may be absent. */
  datatype ScoreData = ScoreData(
    title: Option<string>, author: Option<string>,
    musicStyle: Option<string>, musicalStyle: Option<string>)

  /** The outcome of fetching a score's metadata: a response (whose body may be empty) or a failure. */
  datatype Fetch = Response(data: Option<ScoreData>) | Failure

  /** The form's fields and its error message (`None` is no error). */
  datatype Form = Form(title: string, author: string, musicStyle: string, error: Option<string>)

  /** The form before anything is loaded. */
  const EmptyForm: Form := Form("", "", "", None)

  /** `data.title || ""` for a string field: an absent (or empty) value becomes "". */
  function OrEmpty(v: Option<string>): (s: string)
    ensures v.Some? ==> s == v.value
    ensures v.None? ==> s == ""
  {
    if v.Some? then v.value else ""
  }

  /**
   * The style the form shows: `musicStyle` when the record has one (even an
   * empty one), else the older `musicalStyle`, else "".
   */
  function StyleOf(d: ScoreData): (s: string)
    ensures d.musicStyle.Some? ==> s == d.musicStyle.value
    ensures d.musicStyle.None? && d.musicalStyle.Some? ==> s == d.musicalStyle.value
    ensures d.musicStyle.None? && d.musicalStyle.None? ==> s == ""
  {
    match d.musicStyle
    case Some(v) => v
    case None => OrEmpty(d.musicalStyle)
  }

  /**
   * The form after the metadata request for a score settles, starting from
   * the form `prev` it had (the empty form on first mount, the previous
   * score's form when the id changes). A response sets the three fields (an
   * empty body gives three empty fields) and leaves the error alone; a failure
   * leaves the fields alone and sets the load error. A request that settles
   * after the form was unmounted, or after the score id changed, is stale
   * (`current` is false) and changes nothing.
   */
  function Loaded(prev: Form, f: Fetch, current: bool): (form: Form)
    ensures !current ==> form == prev
    ensures current && f.Failure? ==> form == prev.(error := Some(LoadFailed))
    ensures current && f.Response? ==> form.error == prev.error
    ensures current && f.Response? && f.data.None? ==> form == prev.(title := "", author := "", musicStyle := "")
    ensures current && f.Response? && f.data.Some? ==>
      form.title == OrEmpty(f.data.value.title) && form.author == OrEmpty(f.data.value.author) &&
      form.musicStyle == StyleOf(f.data.value)
  {
    if !current then prev
    else match f
    case Failure => prev.(error := Some(LoadFailed))
    case Response(data) =>
      var d := if data.Some? then data.value else ScoreData(None, None, None, None);
      prev.(title := OrEmpty(d.title), author := OrEmpty(d.author), musicStyle := StyleOf(d))
  }

  /**
   * On first mount the form shows an error exactly when the request failed,
   * and a failed load leaves all three fields empty.
   */
  lemma FirstLoadError(f: Fetch)
    ensures Loaded(EmptyForm, f, true).error.Some? <==> f.Failure?
    ensures f.Failure? ==> Loaded(EmptyForm, f, true) == Form("", "", "", Some(LoadFailed))
  {
  }

  /**
   * Whatever the form held before, a successful load shows only the fetched
   * record: two forms that differ in their fields agree after the same
   * response, except for the error each carried.
   */
  lemma ResponseOverwritesFields(prev1: Form, prev2: Form, f: Fetch)
    requires f.Response? && prev1.error == prev2.error
    ensures Loaded(prev1, f, true) == Loaded(prev2, f, true)
  {
  }

  // ---------------------------------------------------------------------------
  // Validation

  /**
   * `validate`: the first limit exceeded, in the order title, author, style,
   * measured in UTF-16 code units on the untrimmed text; `None` when all
   * three fit.
   */
  function Validate(title: string, author: string, musicStyle: string): (err: Option<string>)
    ensures err.None? <==>
      Utf16Length(title) <= MaxTitle && Utf16Length(author) <= MaxAuthor && Utf16Length(musicStyle) <= MaxStyle
    ensures Utf16Length(title) > MaxTitle ==> err == Some(TitleTooLong)
    ensures Utf16Length(title) <= MaxTitle && Utf16Length(author) > MaxAuthor ==> err == Some(AuthorTooLong)
    ensures Utf16Length(title) <= MaxTitle && Utf16Length(author) <= MaxAuthor && Utf16Length(musicStyle) > MaxStyle ==>
      err == Some(StyleTooLong)
  {
    if title != "" && Utf16Length(title) > MaxTitle then Some(TitleTooLong)
    else if author != "" && Utf16Length(author) > MaxAuthor then Some(AuthorTooLong)
    else if musicStyle != "" && Utf16Length(musicStyle) > MaxStyle then Some(StyleTooLong)
    else None
  }

  /** The limits are inclusive: a title of exactly 200 code units passes and one more unit fails. */
  lemma TitleLimitInclusive(t: string, c: char)
    requires Utf16Length(t) == MaxTitle && c as int < 0x10000
    ensures Validate(t, "", "") == None
    ensures Validate(t + [c], "", "") == Some(TitleTooLong)
  {
  }

  /** An over-long title is reported even when the other fields are over-long too. */
  lemma TitleReportedFirst(title: string, author: string, musicStyle: string)
    requires Utf16Length(title) > MaxTitle
    ensures Validate(title, author, musicStyle) == Some(TitleTooLong)
  {
  }

  // ---------------------------------------------------------------------------
  // Saving

  /** A payload field: the trimmed text, or null when nothing is left after trimming. */
  function TrimToNull(s: string): (r: Option<string>)
    ensures r.None? <==> forall k :: 0 <= k < |s| ==> IsWhitespace(s[k])
    ensures r.Some? ==> r.value == Trim(s)
    ensures r.Some? ==> r.value != [] && !IsWhitespace(r.value[0]) && !IsWhitespace(r.value[|r.value| - 1])
  {
    var t := Trim(s);
    if t == "" then None else Some(t)
  }

  /** A field already sent is sent again unchanged: trimming to null is idempotent. */
  lemma TrimToNullIdempotent(s: string)
    requires TrimToNull(s).Some?
    ensures TrimToNull(TrimToNull(s).value) == TrimToNull(s)
  {
    TrimIdempotent(s);
  }

  /** The body of the update request. */
  datatype Payload = Payload(title: Option<string>, author: Option<string>, musicStyle: Option<string>)

  /** What submitting the form does: report a validation error, or send one update. */
  datatype Submit = Invalid(error: string) | Update(payload: Payload)

  /**
   * `handleSubmit`: a validation error is shown and nothing is sent; otherwise
   * one update carrying the three fields, each trimmed or null, is sent.
   */
  function HandleSubmit(title: string, author: string, musicStyle: string): (s: Submit)
    ensures s.Invalid? <==> Validate(title, author, musicStyle).Some?
    ensures s.Invalid? ==> s.error == Validate(title, author, musicStyle).value
    ensures s.Update? ==>
      s.payload == Payload(TrimToNull(title), TrimToNull(author), TrimToNull(musicStyle))
  {
    match Validate(title, author, musicStyle)
    case Some(e) => Invalid(e)
    case None => Update(Payload(TrimToNull(title), TrimToNull(author), TrimToNull(musicStyle)))
  }

  /** A field of a sent payload is null or non-blank text without surrounding whitespace. */
  predicate Clean(v: Option<string>)
  {
    v.Some? ==> v.value != [] && !IsWhitespace(v.value[0]) && !IsWhitespace(v.value[|v.value| - 1])
  }

  /** Every sent payload is clean, and a field is null exactly when its text was blank. */
  lemma SentPayloadIsClean(title: string, author: string, musicStyle: string)
    requires HandleSubmit(title, author, musicStyle).Update?
    ensures var p := HandleSubmit(title, author, musicStyle).payload;
      Clean(p.title) && Clean(p.author) && Clean(p.musicStyle) &&
      (p.title.None? <==> Trim(title) == "") &&
      (p.author.None? <==> Trim(author) == "") &&
      (p.musicStyle.None? <==> Trim(musicStyle) == "")
  {
    var p := HandleSubmit(title, author, musicStyle).payload;
    assert p == Payload(TrimToNull(title), TrimToNull(author), TrimToNull(musicStyle));
  }
}
