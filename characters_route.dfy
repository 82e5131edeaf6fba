/**
 * `POST /api/characters`: a character submission. The route checks, in this
 * order, the name, its length, the image's PNG data-URL prefix and its size;
 * then counts the submitter's submissions of the last 24 hours, refuses a
 * submitter at the daily limit, uploads the image, inserts the character and
 * its rating row, records the submission, and answers with the character and
 * the submissions left.
 *
 * Storage is an input: the count query's result and the error, if any, of
 * each write. The new character's id (`randomUUID`) and the public URL of the
 * uploaded file are inputs too.
 */
module CharactersRoute {
  import opened Wrappers
  import opened JsString
  import Json
  import ClientIp
  import Api

  /** `SUBMISSION_LIMIT_PER_24H` of this route. */
  const Limit := 500

  const MaxNameLength := 40

  const PngPrefix := "data:image/png;base64,"

  /** `1.5 * 1024 * 1024` bytes. */
  const MaxBytes: real := 1.5 * 1024.0 * 1024.0

  const NameRequired := "Name is required"
  const NameTooLong := "Name too long (max 40)"
  const InvalidImage := "Invalid image format (must be PNG data URL)"
  const ImageTooLarge := "Image too large (max ~1.5MB)"
  const LimitReached := "Daily submission limit reached!"

  /** The JSON body's two fields, whatever their JSON type, and the request's address headers. */
  datatype SubmitRequest = SubmitRequest(name: Json.Value, imageDataUrl: Json.Value, headers: ClientIp.Headers)

  /**
   * What storage does: the 24-hour count (`null` possible) or its error, and
   * the errors of the upload, the character insert and the rating insert. The
   * submission insert's error is never looked at.
   */
  datatype Storage = Storage(
    count: Result<Option<nat>, Api.StorageError>,
    uploadError: Option<Api.StorageError>,
    publicUrl: string,
    insertError: Option<Api.StorageError>,
    ratingError: Option<Api.StorageError>)

  /** The storage operations the route issues, in order. */
  datatype Effect =
    | CountSubmissions(ip: string)
    | Upload(filePath: string, base64: string)
    | InsertCharacter(id: string, name: string, imageUrl: string)
    | InsertRating(characterId: string)
    | InsertSubmission(ip: string, characterId: string)

  /** 201 with the inserted character and the submissions left, or an error status and message. */
  datatype Reply = Created(id: string, name: string, imageUrl: string, remaining: int) | Failed(status: int, error: string)

  datatype Outcome = Outcome(effects: seq<Effect>, reply: Reply)

  /** `err?.message || "Server error"`: an empty message falls back too. */
  function ErrorText(err: Api.StorageError): (text: string)
    ensures text != ""
    ensures err.message.Some? && err.message.value != "" ==> text == err.message.value
    ensures err.message.None? || err.message.value == "" ==> text == "Server error"
  {
    if err.message.Some? && err.message.value != "" then err.message.value else "Server error"
  }

  /** `approxBytes > MAX_BYTES` with `approxBytes = base64.length * 3 / 4`. */
  predicate TooLarge(base64: string)
  {
    (Utf16Length(base64) as real * 3.0) / 4.0 > MaxBytes
  }

  /** `imageDataUrl.split(",")[1]`, which exists once the prefix (ending in a comma) is there. */
  function Base64Of(image: string): (base64: string)
    requires StartsWith(image, PngPrefix)
    ensures base64 == Split(image[|PngPrefix|..], ',')[0]
  {
    PrefixSplits(image);
    Split(image, ',')[1]
  }

  lemma PrefixSplits(image: string)
    requires StartsWith(image, PngPrefix)
    ensures |Split(image, ',')| >= 2 && Split(image, ',')[1] == Split(image[|PngPrefix|..], ',')[0]
  {
    assert image[..|PngPrefix|] == PngPrefix;
    assert image[..21] == PngPrefix[..21];
    assert image[21] == ',';
    SplitFirst(image, ',', 21);
  }

  /**
   * The four checks made before storage is touched, in order: the name is a
   * non-blank string, its trimmed form has at most 40 code units, the image is
   * a string with the PNG data-URL prefix, and its base64 part is small enough.
   * On success: the trimmed name and the base64 part.
   */
  function Validate(name: Json.Value, image: Json.Value): Result<(string, string), (int, string)>
  {
    if !Json.IsString(name) || Trim(name.s) == [] then Err((400, NameRequired))
    else if Utf16Length(Trim(name.s)) > MaxNameLength then Err((400, NameTooLong))
    else if !Json.IsString(image) || !StartsWith(image.s, PngPrefix) then Err((400, InvalidImage))
    else if TooLarge(Base64Of(image.s)) then Err((413, ImageTooLarge))
    else Ok((Trim(name.s), Base64Of(image.s)))
  }

  /** The whole route, given the new id and what storage does. */
  function Respond(req: SubmitRequest, id: string, st: Storage): Outcome
  {
    match Validate(req.name, req.imageDataUrl)
    case Err((status, message)) => Outcome([], Failed(status, message))
    case Ok((safeName, base64)) => Submit(safeName, base64, ClientIp.ClientIp(req.headers), id, st)
  }

  /** Everything after validation: the count, the quota check and the writes, each failure ending the route. */
  function Submit(safeName: string, base64: string, ip: string, id: string, st: Storage): (out: Outcome)
    ensures out.reply.Failed? ==> out.reply.status == 429 || out.reply.status == 500
    ensures out.effects != [] && out.effects[0] == CountSubmissions(ip)
  {
    var counted := [CountSubmissions(ip)];
    match st.count
    case Err(err) => Outcome(counted, Failed(500, ErrorText(err)))
    case Ok(count) =>
      var used := count.GetOr(0);
      if used >= Limit then Outcome(counted, Failed(429, LimitReached))
      else
        var remainingBefore := Api.Max(0, Limit - used);
        var filePath := id + ".png";
        var uploaded := counted + [Upload(filePath, base64)];
        if st.uploadError.Some? then Outcome(uploaded, Failed(500, ErrorText(st.uploadError.value)))
        else
          var inserted := uploaded + [InsertCharacter(id, safeName, st.publicUrl)];
          if st.insertError.Some? then Outcome(inserted, Failed(500, ErrorText(st.insertError.value)))
          else
            var rated := inserted + [InsertRating(id)];
            if st.ratingError.Some? then Outcome(rated, Failed(500, ErrorText(st.ratingError.value)))
            else
              Outcome(rated + [InsertSubmission(ip, id)],
                      Created(id, safeName, st.publicUrl, Api.Max(0, remainingBefore - 1)))
  }

  // ----- What the route promises -----

  /** The size cap in whole code units: at most 2097152 base64 characters pass. */
  lemma TooLargeIff(base64: string)
    ensures TooLarge(base64) <==> Utf16Length(base64) > 2097152
  {
    var n := Utf16Length(base64) as real;
    assert MaxBytes == 1572864.0;
    assert (n * 3.0) / 4.0 > 1572864.0 <==> n > 2097152.0;
  }

  /** The name is refused first, when it is not a string or is blank, whatever the image. */
  lemma NameRequiredFirst(req: SubmitRequest, id: string, st: Storage)
    ensures Respond(req, id, st) == Outcome([], Failed(400, NameRequired))
            <==> !req.name.Str? || IsBlank(req.name.s)
  {
    if req.name.Str? {
      TrimEmptyIffBlank(req.name.s);
    }
    if Validate(req.name, req.imageDataUrl).Err? {
      assert Validate(req.name, req.imageDataUrl) == Err((400, NameRequired))
             <==> !req.name.Str? || Trim(req.name.s) == [];
    }
  }

  /** A usable name whose trimmed form is over 40 code units is refused next, whatever the image. */
  lemma NameTooLongSecond(req: SubmitRequest, id: string, st: Storage)
    requires req.name.Str? && !IsBlank(req.name.s) && Utf16Length(Trim(req.name.s)) > MaxNameLength
    ensures Respond(req, id, st) == Outcome([], Failed(400, NameTooLong))
  {
    TrimEmptyIffBlank(req.name.s);
  }

  /** With a usable name, an image that is not a PNG data URL is refused third. */
  lemma InvalidImageThird(req: SubmitRequest, id: string, st: Storage)
    requires req.name.Str? && !IsBlank(req.name.s) && Utf16Length(Trim(req.name.s)) <= MaxNameLength
    requires !req.imageDataUrl.Str? || !StartsWith(req.imageDataUrl.s, PngPrefix)
    ensures Respond(req, id, st) == Outcome([], Failed(400, InvalidImage))
  {
    TrimEmptyIffBlank(req.name.s);
  }

  /** With a usable name and a PNG data URL, 413 comes exactly when the base64 part is over 2097152 code units. */
  lemma TooLargeFourth(req: SubmitRequest, id: string, st: Storage)
    requires req.name.Str? && !IsBlank(req.name.s) && Utf16Length(Trim(req.name.s)) <= MaxNameLength
    requires req.imageDataUrl.Str? && StartsWith(req.imageDataUrl.s, PngPrefix)
    ensures Respond(req, id, st) == Outcome([], Failed(413, ImageTooLarge))
            <==> Utf16Length(Base64Of(req.imageDataUrl.s)) > 2097152
  {
    TrimEmptyIffBlank(req.name.s);
    TooLargeIff(Base64Of(req.imageDataUrl.s));
  }

  /** Every refusal of the validation is a 400 or a 413 and issues no storage operation at all. */
  lemma ValidationTouchesNoStorage(req: SubmitRequest, id: string, st: Storage)
    requires Validate(req.name, req.imageDataUrl).Err?
    ensures Respond(req, id, st).effects == []
    ensures Respond(req, id, st).reply.Failed? && Respond(req, id, st).reply.status in {400, 413}
  {
  }

  /** A submitter at or over the daily limit gets 429 after the count, and nothing is written. */
  lemma DailyLimit(safeName: string, base64: string, ip: string, id: string, st: Storage)
    requires st.count.Ok? && st.count.value.GetOr(0) >= Limit
    ensures Submit(safeName, base64, ip, id, st) == Outcome([CountSubmissions(ip)], Failed(429, LimitReached))
  {
  }

  /**
   * An accepted submission: the stored and answered name is the trimmed,
   * non-blank name of at most 40 code units; the file is `<id>.png`; the
   * count and the submission record use the same client address; and the
   * answer's `remaining` is `499 - count`, in [0, 499].
   */
  lemma Accepted(req: SubmitRequest, id: string, st: Storage)
    requires Respond(req, id, st).reply.Created?
    ensures var out := Respond(req, id, st);
            var ip := ClientIp.ClientIp(req.headers);
            var used := st.count.value.GetOr(0);
            && req.name.Str? && out.reply.name == Trim(req.name.s) && !IsBlank(out.reply.name)
            && Utf16Length(out.reply.name) <= MaxNameLength
            && out.reply.id == id && out.reply.imageUrl == st.publicUrl
            && out.effects == [CountSubmissions(ip), Upload(id + ".png", Base64Of(req.imageDataUrl.s)),
                               InsertCharacter(id, out.reply.name, st.publicUrl), InsertRating(id),
                               InsertSubmission(ip, id)]
            && used < Limit
            && out.reply.remaining == Limit - 1 - used
            && 0 <= out.reply.remaining < Limit
  {
    ValidatedBeforeCreated(req, id, st);
    TrimEmptyIffBlank(req.name.s);
    SubmitCreated(Trim(req.name.s), Base64Of(req.imageDataUrl.s), ClientIp.ClientIp(req.headers), id, st);
  }

  /** A 201 answer passed every validation step, and the rest of the route ran on the trimmed name and the base64 part. */
  lemma ValidatedBeforeCreated(req: SubmitRequest, id: string, st: Storage)
    requires Respond(req, id, st).reply.Created?
    ensures req.name.Str? && Trim(req.name.s) != [] && Utf16Length(Trim(req.name.s)) <= MaxNameLength
    ensures req.imageDataUrl.Str? && StartsWith(req.imageDataUrl.s, PngPrefix)
    ensures Respond(req, id, st)
            == Submit(Trim(req.name.s), Base64Of(req.imageDataUrl.s), ClientIp.ClientIp(req.headers), id, st)
  {
    var v := Validate(req.name, req.imageDataUrl);
    assert v.Ok?;
  }

  /** After validation, an answer of 201 means the count was under the limit and every write was issued. */
  lemma SubmitCreated(safeName: string, base64: string, ip: string, id: string, st: Storage)
    requires Submit(safeName, base64, ip, id, st).reply.Created?
    ensures var out := Submit(safeName, base64, ip, id, st);
            && st.count.Ok? && st.count.value.GetOr(0) < Limit
            && out.reply == Created(id, safeName, st.publicUrl, out.reply.remaining)
            && out.effects == [CountSubmissions(ip), Upload(id + ".png", base64),
                               InsertCharacter(id, safeName, st.publicUrl), InsertRating(id),
                               InsertSubmission(ip, id)]
            && out.reply.remaining == Limit - 1 - st.count.value.GetOr(0)
            && 0 <= out.reply.remaining < Limit
  {
  }

  /** A failed upload is answered with 500 and its message (or "Server error"), and no later write is issued. */
  lemma UploadFailureStops(safeName: string, base64: string, ip: string, id: string, st: Storage)
    requires st.count.Ok? && st.count.value.GetOr(0) < Limit && st.uploadError.Some?
    ensures var out := Submit(safeName, base64, ip, id, st);
            && out.reply == Failed(500, ErrorText(st.uploadError.value))
            && out.effects == [CountSubmissions(ip), Upload(id + ".png", base64)]
  {
  }

  /** A first submission from a new address (a null count) leaves 499. */
  lemma FirstSubmissionExample(safeName: string, base64: string, ip: string, id: string, st: Storage)
    requires st.count == Ok(None) && st.uploadError.None? && st.insertError.None? && st.ratingError.None?
    ensures Submit(safeName, base64, ip, id, st).reply == Created(id, safeName, st.publicUrl, 499)
  {
  }
}
