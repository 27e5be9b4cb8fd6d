/**
 * The `POST /api/upload` handler (backend/src/index.js, lines 67-276): a
 * fail-fast sequence of stages, storage, Gemini extraction and validation,
 * metadata, Firestore, Google Sheets, with every external call's result an input.
 *
 * The handler as written reads `url` at lines 194 and 229, outside the block
 * (lines 89-98) that declares it, so every request that passes extraction throws
 * a ReferenceError there. `UploadAsWritten` models that; `UploadSpec` and
 * `HandleUpload` model the evident intent, with `imageUrl` set to the URL the
 * storage stage signed.
 */
module Upload {
  import opened JsValues
  import opened JsStrings
  import opened JsErrors
  import opened Http
  import opened Effects

  // ------------------------------------------------------------ inputs

  /** What multer puts in `req.file`; the bytes pass through to the services unexamined. */
  datatype UploadedFile = UploadedFile(originalName: string, mimeType: string)

  /**
   * What `await result.response` gave: MissingText when the response, or its
   * `text` method, is falsy; otherwise the outcome of calling `response.text()`.
   */
  datatype GeminiResponse = MissingText | Text(text: Outcome<string>)

  /**
   * The result of each collaborator call of one request, in stage order. `parse`
   * is the result of JSON.parse on the text Gemini returned.
   */
  datatype Collaborators = Collaborators(
    bucketReady: bool,
    save: Outcome<()>,
    signedUrl: Outcome<string>,
    generate: Outcome<GeminiResponse>,
    parse: Outcome<Json>,
    docSet: Outcome<()>,
    addRow: Outcome<()>)  // the Sheets stage as a whole: authentication, loading, appending

  // ------------------------------------------------------------ constants

  const RequiredFields: seq<string> := ["Program", "Program Date", "Name", "Room No"]
  const ProgramExperience := "Program Experience"
  const AshramExperience := "Overall Ashram Experience"

  const NoFileMessage := "No image file provided"
  const BucketNotReadyMessage := "Storage bucket not initialized"
  const StoragePrefix := "Firebase Storage error: "
  const InvalidResponseMessage := "Invalid response from Gemini API"
  const MissingPrefix := "Missing required fields: "
  const ParsePrefix := "Failed to parse Gemini API response: "
  const GeminiPrefix := "Gemini API error: "
  const FirestorePrefix := "Firestore error: "
  const SheetsPrefix := "Google Sheets error: "
  const UploadFailedMessage := "Failed to process upload"
  const StorageUnavailableMessage := "Storage service not available"
  const StorageUnavailableHint := "Please ensure Firebase Storage is enabled and bucket is created"

  /** The ReferenceError that reading the out-of-scope `url` throws. */
  const UrlNotDefined := JsError("url is not defined", None)

  /** The metadata names, the groups and the required fields are all different names. */
  lemma NamesAreDistinct()
    ensures ProgramExperience != AshramExperience
    ensures ProgramExperience !in RequiredFields && AshramExperience !in RequiredFields
    ensures "uid" !in RequiredFields && "imageUrl" !in RequiredFields && "uploadedAt" !in RequiredFields
    ensures "uid" != ProgramExperience && "imageUrl" != ProgramExperience && "uploadedAt" != ProgramExperience
    ensures "uid" != AshramExperience && "imageUrl" != AshramExperience && "uploadedAt" != AshramExperience
  {
  }

  // ------------------------------------------------------------ stage logic

  /** The object name of the uploaded image (line 85). */
  function StorageKey(uid: string, originalName: string): string {
    "forms/" + uid + "-" + originalName
  }

  /** `a` is `b` with some elements left out, the rest in their order. */
  predicate IsSubsequence(a: seq<string>, b: seq<string>) {
    a == [] || (b != [] && ((a[0] == b[0] && IsSubsequence(a[1..], b[1..])) || IsSubsequence(a, b[1..])))
  }

  /** `fields.filter(field => !obj[field])` (lines 162-163). */
  function MissingFields(ps: Props, fields: seq<string>): (missing: seq<string>)
    ensures forall f :: f in missing <==> f in fields && Falsy(Lookup(ps, f))
    ensures missing == [] <==> forall f :: f in fields ==> !Falsy(Lookup(ps, f))
    ensures IsSubsequence(missing, fields)
  {
    if fields == [] then []
    else
      var rest := MissingFields(ps, fields[1..]);
      assert forall f :: f in fields <==> f == fields[0] || f in fields[1..];
      if Falsy(Lookup(ps, fields[0])) then
        var r := [fields[0]] + rest;
        assert r[1..] == rest;
        r
      else rest
  }

  /** The message of the validation error (line 167). */
  function MissingFieldsMessage(missing: seq<string>): string {
    MissingPrefix + Join(missing, ", ")
  }

  /** `if (!obj[g]) obj[g] = {}` (lines 171-176). */
  function BackfillGroup(ps: Props, g: string): (r: Props)
    ensures Lookup(r, g) == if Falsy(Lookup(ps, g)) then Some(Obj([])) else Lookup(ps, g)
    ensures forall k :: k != g ==> Lookup(r, k) == Lookup(ps, k)
  {
    if Falsy(Lookup(ps, g)) then
      SetPropLookup(ps, g, Obj([]));
      SetProp(ps, g, Obj([]))
    else ps
  }

  /**
   * Both nested groups backfilled: a falsy group becomes `{}`, a truthy one, even
   * `{}`, stays; nothing else changes, and new groups come after the existing keys.
   */
  function Backfill(ps: Props): (r: Props)
    ensures Lookup(r, ProgramExperience) ==
              if Falsy(Lookup(ps, ProgramExperience)) then Some(Obj([])) else Lookup(ps, ProgramExperience)
    ensures Lookup(r, AshramExperience) ==
              if Falsy(Lookup(ps, AshramExperience)) then Some(Obj([])) else Lookup(ps, AshramExperience)
    ensures forall k :: k != ProgramExperience && k != AshramExperience ==> Lookup(r, k) == Lookup(ps, k)
  {
    var once := BackfillGroup(ps, ProgramExperience);
    assert ProgramExperience != AshramExperience by {
      assert ProgramExperience[0] != AshramExperience[0];
    }
    BackfillGroup(once, AshramExperience)
  }

  /** A backfilled group that was absent is appended after the existing properties. */
  lemma BackfillGroupKeys(ps: Props, g: string)
    requires !IsArrayIndex(g)
    ensures Keys(BackfillGroup(ps, g)) == Keys(ps) + (if g in Keys(ps) then [] else [g])
  {
    if Falsy(Lookup(ps, g)) {
      SetPropKeys(ps, g, Obj([]));
    }
  }

  /** The backfilled groups come after the properties Gemini returned, Program Experience first. */
  lemma BackfillKeys(ps: Props)
    ensures Keys(Backfill(ps)) == Keys(ps) + (if ProgramExperience in Keys(ps) then [] else [ProgramExperience])
                                           + (if AshramExperience in Keys(ps) then [] else [AshramExperience])
  {
    var once := BackfillGroup(ps, ProgramExperience);
    NonDigitStartIsNoIndex(ProgramExperience);
    NonDigitStartIsNoIndex(AshramExperience);
    BackfillGroupKeys(ps, ProgramExperience);
    BackfillGroupKeys(once, AshramExperience);
    assert ProgramExperience != AshramExperience by {
      assert ProgramExperience[0] != AshramExperience[0];
    }
    assert AshramExperience in Keys(once) <==> AshramExperience in Keys(ps);
  }

  /**
   * The body of the inner parse `try` once JSON.parse produced `parsed` (lines
   * 161-176): the required-field check, then the backfill. Reading a property of
   * null throws at the first field; any other non-object has no own properties.
   */
  function CheckParsed(parsed: Json): Outcome<Props> {
    if parsed == Null then Err(NullPropertyRead(RequiredFields[0]))
    else
      var ps := OwnProps(parsed);
      var missing := MissingFields(ps, RequiredFields);
      if |missing| > 0 then Err(NewError(MissingFieldsMessage(missing)))
      else Ok(Backfill(ps))
  }

  /**
   * The Gemini stage (lines 109-190): an invalid response and a failing text()
   * are wrapped once, a parse or validation failure twice.
   */
  function ExtractFields(generate: Outcome<GeminiResponse>, parse: Outcome<Json>): Outcome<Props> {
    var attempt: Outcome<Props> :=
      match generate
      case Err(e) => Err(e)
      case Ok(MissingText) => Err(NewError(InvalidResponseMessage))
      case Ok(Text(Err(e))) => Err(e)
      case Ok(Text(Ok(_))) =>
        var checked: Outcome<Props> := match parse
          case Err(e) => Err(e)
          case Ok(j) => CheckParsed(j);
        Rewrap(checked, ParsePrefix);
    Rewrap(attempt, GeminiPrefix)
  }

  /** The metadata of lines 193-195, with `imageUrl` the signed URL of the storage stage. */
  function Stamp(ps: Props, uid: string, url: string, now: string): Props {
    SetProp(SetProp(SetProp(ps, "uid", Str(uid)), "imageUrl", Str(url)), "uploadedAt", Str(now))
  }

  /** The row appended to the first worksheet (lines 223-231). */
  function SheetRow(uid: string, record: Props, url: string): Row {
    [("UID", Some(Str(uid))),
     ("Program", Lookup(record, "Program")),
     ("Program Date", Lookup(record, "Program Date")),
     ("Name", Lookup(record, "Name")),
     ("Room No", Lookup(record, "Room No")),
     ("Image URL", Some(Str(url)))]
  }

  // ------------------------------------------------------------ responses

  const NoFileResponse := Response(400, Obj([("error", Str(NoFileMessage))]))

  /** The outer catch (lines 263-274); an undefined code is left out of the body. */
  function ServerError(e: JsError): Response {
    Response(500, Obj(WithOptional([("error", Str(UploadFailedMessage)), ("details", Str(e.message))],
                                   "code", e.code)))
  }

  /** The inner catch (lines 245-262): 503 for a 404 code, otherwise rethrown to the outer catch. */
  function UploadFailure(e: JsError): Response {
    if e.code == Some(Num(404.0)) then
      Response(503, Obj([("error", Str(StorageUnavailableMessage)),
                         ("message", Str(StorageUnavailableHint)),
                         ("details", Str(e.message))]))
    else ServerError(e)
  }

  function SuccessResponse(record: Props): Response {
    Response(200, Obj([("success", Bool(true)), ("data", Obj(record))]))
  }

  // ------------------------------------------------------------ the pipeline

  /** Where a request stands after extraction: answered already, or holding the URL and the fields. */
  datatype Progress =
    | Halted(run: Run)
    | Extracted(url: string, data: Props, calls: seq<Call>)

  /**
   * Lines 68-190, common to the handler as written and as intended, with
   * `extracted` the outcome of the Gemini stage once it is reached.
   */
  function StoreThen(file: Option<UploadedFile>, uid: string, c: Collaborators, extracted: Outcome<Props>): Progress {
    match file
    case None => Halted(Run(NoFileResponse, []))
    case Some(f) =>
      if !c.bucketReady then Halted(Run(ServerError(NewError(BucketNotReadyMessage)), []))
      else
        var key := StorageKey(uid, f.originalName);
        if c.save.Err? then
          Halted(Run(UploadFailure(NewError(StoragePrefix + c.save.error.message)), [SaveObject(key)]))
        else if c.signedUrl.Err? then
          Halted(Run(UploadFailure(NewError(StoragePrefix + c.signedUrl.error.message)),
                     [SaveObject(key), SignReadUrl(key)]))
        else
          var calls := [SaveObject(key), SignReadUrl(key), GenerateContent(f.mimeType)];
          match extracted
          case Err(e) => Halted(Run(UploadFailure(e), calls))
          case Ok(data) => Extracted(c.signedUrl.value, data, calls)
  }

  /** Lines 68-190 with the Gemini stage of `ExtractFields`. */
  function StoreAndExtract(file: Option<UploadedFile>, uid: string, c: Collaborators): Progress {
    StoreThen(file, uid, c, ExtractFields(c.generate, c.parse))
  }

  /** Lines 192-244 as intended: stamp, write to Firestore, append to the sheet, answer. */
  function Commit(uid: string, url: string, now: string, data: Props, calls: seq<Call>, c: Collaborators): Run {
    var record := Stamp(data, uid, url, now);
    var written := calls + [SetDoc(FeedbackCollection, uid, record)];
    if c.docSet.Err? then Run(UploadFailure(NewError(FirestorePrefix + c.docSet.error.message)), written)
    else
      var mirrored := written + [AddSheetRow(SheetRow(uid, record, url))];
      if c.addRow.Err? then Run(UploadFailure(NewError(SheetsPrefix + c.addRow.error.message)), mirrored)
      else Run(SuccessResponse(record), mirrored)
  }

  /** The stages as intended around a given Gemini outcome. */
  function Pipeline(file: Option<UploadedFile>, uid: string, now: string, c: Collaborators,
                    extracted: Outcome<Props>): Run {
    match StoreThen(file, uid, c, extracted)
    case Halted(run) => run
    case Extracted(url, data, calls) => Commit(uid, url, now, data, calls, c)
  }

  /**
   * The stages as written around a given Gemini outcome: after extraction,
   * line 194 reads `url`, which is not in scope; the ReferenceError reaches the
   * catch at line 245 and, having no code, the outer catch.
   */
  function PipelineAsWritten(file: Option<UploadedFile>, uid: string, c: Collaborators,
                             extracted: Outcome<Props>): Run {
    match StoreThen(file, uid, c, extracted)
    case Halted(run) => run
    case Extracted(_, _, calls) => Run(UploadFailure(UrlNotDefined), calls)
  }

  /** The upload handler as intended; uid and the ISO timestamp `now` are inputs. */
  function UploadSpec(file: Option<UploadedFile>, uid: string, now: string, c: Collaborators): Run {
    Pipeline(file, uid, now, c, ExtractFields(c.generate, c.parse))
  }

  /** The upload handler as written. */
  function UploadAsWritten(file: Option<UploadedFile>, uid: string, now: string, c: Collaborators): Run {
    PipelineAsWritten(file, uid, c, ExtractFields(c.generate, c.parse))
  }

  /**
   * The inner parse `try` (lines 161-176) step by step: the required-field check,
   * then the backfill of `parsedData` in place.
   */
  method ValidateParsed(parsed: Json) returns (parsedData: Props, error: Option<JsError>)
    ensures CheckParsed(parsed) == if error.Some? then Err(error.value) else Ok(parsedData)
  {
    parsedData := [];
    error := None;
    if parsed == Null {
      error := Some(NullPropertyRead(RequiredFields[0]));
      return;
    }
    parsedData := OwnProps(parsed);
    var missingFields := MissingFields(parsedData, RequiredFields);
    if |missingFields| > 0 {
      error := Some(NewError(MissingFieldsMessage(missingFields)));
      return;
    }
    if Falsy(Lookup(parsedData, ProgramExperience)) {
      parsedData := SetProp(parsedData, ProgramExperience, Obj([]));
    }
    if Falsy(Lookup(parsedData, AshramExperience)) {
      parsedData := SetProp(parsedData, AshramExperience, Obj([]));
    }
  }

  /**
   * Lines 68-190 step by step: the guards, the storage stage and the Gemini
   * stage, each returning early on failure.
   */
  method StoreAndExtractSteps(file: Option<UploadedFile>, uid: string, c: Collaborators)
    returns (progress: Progress)
    ensures progress == StoreAndExtract(file, uid, c)
  {
    var calls: seq<Call> := [];
    if file.None? {
      return Halted(Run(NoFileResponse, calls));
    }
    var f := file.value;
    if !c.bucketReady {
      return Halted(Run(ServerError(NewError(BucketNotReadyMessage)), calls));
    }
    var fileName := StorageKey(uid, f.originalName);

    // Firebase Storage
    calls := calls + [SaveObject(fileName)];
    if c.save.Err? {
      return Halted(Run(UploadFailure(NewError(StoragePrefix + c.save.error.message)), calls));
    }
    calls := calls + [SignReadUrl(fileName)];
    if c.signedUrl.Err? {
      return Halted(Run(UploadFailure(NewError(StoragePrefix + c.signedUrl.error.message)), calls));
    }
    var url := c.signedUrl.value;

    // Gemini
    calls := calls + [GenerateContent(f.mimeType)];
    assert calls == [SaveObject(fileName), SignReadUrl(fileName), GenerateContent(f.mimeType)];
    match c.generate {
      case Err(e) =>
        return Halted(Run(UploadFailure(NewError(GeminiPrefix + e.message)), calls));
      case Ok(MissingText) =>
        return Halted(Run(UploadFailure(NewError(GeminiPrefix + InvalidResponseMessage)), calls));
      case Ok(Text(Err(e))) =>
        return Halted(Run(UploadFailure(NewError(GeminiPrefix + e.message)), calls));
      case Ok(Text(Ok(_))) =>
    }
    var parsedData: Props := [];
    var parseError: Option<JsError> := None;
    match c.parse {
      case Err(e) =>
        parseError := Some(e);
      case Ok(parsed) =>
        parsedData, parseError := ValidateParsed(parsed);
    }
    if parseError.Some? {
      var wrapped := NewError(GeminiPrefix + (ParsePrefix + parseError.value.message));
      assert ExtractFields(c.generate, c.parse) == Err(wrapped);
      return Halted(Run(UploadFailure(wrapped), calls));
    }
    assert ExtractFields(c.generate, c.parse) == Ok(parsedData);
    progress := Extracted(url, parsedData, calls);
  }

  /**
   * Lines 192-244 step by step: `parsedData` stamped in place, then Firestore,
   * then Google Sheets, each returning early on failure; `url` is the one the
   * storage stage signed.
   */
  method CommitSteps(uid: string, url: string, now: string, data: Props, calls0: seq<Call>, c: Collaborators)
    returns (response: Response, calls: seq<Call>)
    ensures Run(response, calls) == Commit(uid, url, now, data, calls0, c)
  {
    calls := calls0;
    var parsedData := data;
    parsedData := SetProp(parsedData, "uid", Str(uid));
    parsedData := SetProp(parsedData, "imageUrl", Str(url));
    parsedData := SetProp(parsedData, "uploadedAt", Str(now));

    // Firestore
    calls := calls + [SetDoc(FeedbackCollection, uid, parsedData)];
    if c.docSet.Err? {
      return UploadFailure(NewError(FirestorePrefix + c.docSet.error.message)), calls;
    }

    // Google Sheets
    calls := calls + [AddSheetRow(SheetRow(uid, parsedData, url))];
    if c.addRow.Err? {
      return UploadFailure(NewError(SheetsPrefix + c.addRow.error.message)), calls;
    }
    response := SuccessResponse(parsedData);
  }

  /** The handler as intended: the steps up to extraction, then the commit steps. */
  method HandleUpload(file: Option<UploadedFile>, uid: string, now: string, c: Collaborators)
    returns (response: Response, calls: seq<Call>)
    ensures Run(response, calls) == UploadSpec(file, uid, now, c)
  {
    var progress := StoreAndExtractSteps(file, uid, c);
    match progress {
      case Halted(run) =>
        return run.response, run.calls;
      case Extracted(url, data, callsSoFar) =>
        response, calls := CommitSteps(uid, url, now, data, callsSoFar, c);
    }
  }
}
