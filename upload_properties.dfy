/**
 * What the upload handler guarantees: the missing-file guard, the order and
 * fail-fast behaviour of the stages, where the uid goes, the validated record,
 * the exact error messages and the status mapping; and the consequence of the
 * out-of-scope `url` in the handler as written.
 *
 * The end-to-end lemmas are put together from one lemma per stage
 * (`StoreStage`, `CommitCalls`, `CommitStatus`), so that no proof has to unfold the whole
 * pipeline at once.
 */
module UploadProperties {
  import opened JsValues
  import opened JsStrings
  import opened JsErrors
  import opened Http
  import opened Effects
  import opened Upload

  /** The position of each upload call in the stage order. */
  function StageIndex(call: Call): int {
    match call
    case SaveObject(_) => 0
    case SignReadUrl(_) => 1
    case GenerateContent(_) => 2
    case SetDoc(_, _, _) => 3
    case AddSheetRow(_) => 4
    case ListCollections => -1
    case QueryOrdered(_, _, _) => -1
  }

  /** Calls that are the first stages, in order. */
  predicate InStageOrder(calls: seq<Call>) {
    forall i :: 0 <= i < |calls| ==> StageIndex(calls[i]) == i
  }

  /** Appending the next stage's call keeps the stage order. */
  lemma InStageOrderExtend(calls: seq<Call>, call: Call)
    requires InStageOrder(calls) && StageIndex(call) == |calls|
    ensures InStageOrder(calls + [call])
  {
    var ext := calls + [call];
    forall i | 0 <= i < |ext| ensures StageIndex(ext[i]) == i {
      if i < |calls| {
        assert ext[i] == calls[i];
      }
    }
  }

  /** Neither Firestore nor the sheet is called. */
  predicate NoCommitCalls(calls: seq<Call>) {
    forall i :: 0 <= i < |calls| ==> !calls[i].SetDoc? && !calls[i].AddSheetRow?
  }

  /** The storage and Gemini calls of a request that gets as far as Gemini. */
  function ExtractionCalls(f: UploadedFile, uid: string): seq<Call> {
    var key := StorageKey(uid, f.originalName);
    [SaveObject(key), SignReadUrl(key), GenerateContent(f.mimeType)]
  }

  /** The calls made so far. */
  function ProgressCalls(p: Progress): seq<Call> {
    if p.Halted? then p.run.calls else p.calls
  }

  /** Every stage of the request succeeds. */
  predicate AllStagesSucceed(file: Option<UploadedFile>, c: Collaborators) {
    && file.Some? && c.bucketReady && c.save.Ok? && c.signedUrl.Ok?
    && ExtractFields(c.generate, c.parse).Ok? && c.docSet.Ok? && c.addRow.Ok?
  }

  /** The fields the Gemini stage lets through: the required ones truthy and both groups present. */
  predicate IsCompleteRecord(data: Props) {
    && (forall f :: f in RequiredFields ==> !Falsy(Lookup(data, f)))
    && !Falsy(Lookup(data, ProgramExperience))
    && !Falsy(Lookup(data, AshramExperience))
  }

  /** A record as stored: validated, backfilled and stamped. */
  predicate IsStoredRecord(data: Props, uid: string, url: string, now: string) {
    && IsCompleteRecord(data)
    && Lookup(data, "uid") == Some(Str(uid))
    && Lookup(data, "imageUrl") == Some(Str(url))
    && Lookup(data, "uploadedAt") == Some(Str(now))
  }

  /** A 500 body of the outer catch for an error without a code. */
  function FailedWith(details: string): Response {
    Response(500, Obj([("error", Str(UploadFailedMessage)), ("details", Str(details))]))
  }

  // ------------------------------------------------------------ the guard

  /** No file: 400 with the fixed message, and no external call at all (lines 69-71). */
  lemma NoFileRejectedBeforeAnyStage(uid: string, now: string, c: Collaborators)
    ensures UploadSpec(None, uid, now, c) ==
            Run(Response(400, Obj([("error", Str("No image file provided"))])), [])
    ensures UploadAsWritten(None, uid, now, c) == UploadSpec(None, uid, now, c)
  {
  }

  // ------------------------------------------------------------ status mapping

  /** The inner catch answers 503 exactly for code 404; otherwise 500 with message and code (lines 245-274). */
  lemma UploadFailureMapping(e: JsError)
    ensures UploadFailure(e).status == 503 <==> e.code == Some(Num(404.0))
    ensures UploadFailure(e).status != 503 ==> UploadFailure(e).status == 500
    ensures Member(UploadFailure(e).body, "details") == Some(Str(e.message))
    ensures UploadFailure(e).status == 500 ==> Member(UploadFailure(e).body, "code") == e.code
    ensures e.code == None ==> UploadFailure(e) == FailedWith(e.message)
  {
    var ps := UploadFailure(e).body.props;
    if e.code == Some(Num(404.0)) {
      LookupFirst(ps, 2, "details");
    } else {
      LookupFirst(ps, 1, "details");
      if e.code.Some? {
        LookupFirst(ps, 2, "code");
      } else {
        assert "code" !in Keys(ps);
      }
    }
  }

  // ------------------------------------------------------------ messages

  /**
   * Lines 149-152 and 178-189: one prefix for a bad response or a failing
   * `text()`, two for a parse or validation failure.
   */
  lemma ExtractionMessages(generate: Outcome<GeminiResponse>, parse: Outcome<Json>)
    ensures generate.Err? ==>
              ExtractFields(generate, parse) == Err(NewError(GeminiPrefix + generate.error.message))
    ensures generate == Ok(MissingText) ==>
              ExtractFields(generate, parse) == Err(NewError(GeminiPrefix + InvalidResponseMessage))
    ensures generate.Ok? && generate.value.Text? && generate.value.text.Err? ==>
              ExtractFields(generate, parse) == Err(NewError(GeminiPrefix + generate.value.text.error.message))
    ensures generate.Ok? && generate.value.Text? && generate.value.text.Ok? && parse.Err? ==>
              ExtractFields(generate, parse) == Err(NewError(GeminiPrefix + (ParsePrefix + parse.error.message)))
    ensures generate.Ok? && generate.value.Text? && generate.value.text.Ok? && parse == Ok(Null) ==>
              ExtractFields(generate, parse) ==
              Err(NewError(GeminiPrefix + (ParsePrefix + NullPropertyRead("Program").message)))
    ensures generate.Ok? && generate.value.Text? && generate.value.text.Ok? && parse.Ok? && parse.value != Null
            && |MissingFields(OwnProps(parse.value), RequiredFields)| > 0 ==>
              ExtractFields(generate, parse) ==
              Err(NewError(GeminiPrefix + (ParsePrefix + (MissingPrefix
                             + Join(MissingFields(OwnProps(parse.value), RequiredFields), ", ")))))
  {
  }

  /** No error out of the Gemini stage has a code. */
  lemma ExtractionErrorsHaveNoCode(generate: Outcome<GeminiResponse>, parse: Outcome<Json>)
    ensures ExtractFields(generate, parse).Err? ==> ExtractFields(generate, parse).error.code == None
  {
  }

  /**
   * The validation accepts exactly the parsed values that are objects whose
   * four required fields are all truthy, and yields their backfilled properties.
   */
  lemma ValidationAcceptsExactlyCompleteObjects(parsed: Json)
    ensures CheckParsed(parsed).Ok? <==>
              parsed.Obj? && forall f :: f in RequiredFields ==> !Falsy(Lookup(parsed.props, f))
    ensures CheckParsed(parsed).Ok? ==> CheckParsed(parsed).value == Backfill(parsed.props)
  {
    if !parsed.Obj? && parsed != Null {
      assert "Program" in MissingFields(OwnProps(parsed), RequiredFields);
    }
  }

  // ------------------------------------------------------------ one lemma per stage

  /**
   * Lines 68-190: the request gets past Gemini exactly when there is a file, the
   * bucket is ready, storage succeeds and the fields are extracted, holding the
   * signed URL and the extracted fields; otherwise it is answered 400 (no file)
   * or, when the Gemini error has no code, 500, after a prefix of the storage
   * and Gemini calls.
   */
  lemma StoreStage(file: Option<UploadedFile>, uid: string, c: Collaborators,
                                      extracted: Outcome<Props>)
    ensures var p := StoreThen(file, uid, c, extracted);
            p.Extracted? <==> file.Some? && c.bucketReady && c.save.Ok? && c.signedUrl.Ok? && extracted.Ok?
    ensures var p := StoreThen(file, uid, c, extracted);
            p.Extracted? ==>
              && p.url == c.signedUrl.value
              && p.data == extracted.value
              && p.calls == ExtractionCalls(file.value, uid)
    ensures var p := StoreThen(file, uid, c, extracted);
            p.Halted? && (extracted.Err? ==> extracted.error.code == None) ==>
              p.run.response.status in {400, 500} && (p.run.response.status == 400 <==> file.None?)
    ensures var p := StoreThen(file, uid, c, extracted);
            file.None? || !c.bucketReady ==> p.Halted? && p.run.calls == []
    ensures var p := StoreThen(file, uid, c, extracted);
            file.Some? ==> ProgressCalls(p) <= ExtractionCalls(file.value, uid)
    ensures InStageOrder(ProgressCalls(StoreThen(file, uid, c, extracted)))
    ensures NoCommitCalls(ProgressCalls(StoreThen(file, uid, c, extracted)))
    ensures var p := StoreThen(file, uid, c, extracted);
            file.Some? && c.bucketReady ==>
              |ProgressCalls(p)| == if c.save.Err? then 1 else if c.signedUrl.Err? then 2 else 3
  {
    var p := StoreThen(file, uid, c, extracted);
    if file.Some? {
      var ec := ExtractionCalls(file.value, uid);
      assert InStageOrder(ec);
      forall i | 0 <= i < |ProgressCalls(p)|
        ensures StageIndex(ProgressCalls(p)[i]) == i
        ensures !ProgressCalls(p)[i].SetDoc? && !ProgressCalls(p)[i].AddSheetRow?
      {
        assert ProgressCalls(p)[i] == ec[i];
      }
    }
  }

  /**
   * Lines 192-231: the stamped record goes to `feedback/<uid>`, and the sheet
   * row follows only if Firestore succeeded.
   */
  lemma CommitCalls(uid: string, url: string, now: string, data: Props, calls: seq<Call>,
                                       c: Collaborators)
    ensures var record := Stamp(data, uid, url, now);
            Commit(uid, url, now, data, calls, c).calls ==
              calls + [SetDoc(FeedbackCollection, uid, record)]
                    + (if c.docSet.Ok? then [AddSheetRow(SheetRow(uid, record, url))] else [])
    ensures InStageOrder(calls) && |calls| == 3 ==> InStageOrder(Commit(uid, url, now, data, calls, c).calls)
  {
    if InStageOrder(calls) && |calls| == 3 {
      var record := Stamp(data, uid, url, now);
      var written := calls + [SetDoc(FeedbackCollection, uid, record)];
      InStageOrderExtend(calls, SetDoc(FeedbackCollection, uid, record));
      if c.docSet.Ok? {
        InStageOrderExtend(written, AddSheetRow(SheetRow(uid, record, url)));
      }
    }
  }

  /**
   * Lines 204-244: the answer is 200 with the stored record exactly when
   * Firestore and the sheet both succeeded, 500 otherwise.
   */
  lemma CommitStatus(uid: string, url: string, now: string, data: Props, calls: seq<Call>,
                                        c: Collaborators)
    ensures var r := Commit(uid, url, now, data, calls, c);
            r.response.status in {200, 500} && (r.response.status == 200 <==> c.docSet.Ok? && c.addRow.Ok?)
    ensures var r := Commit(uid, url, now, data, calls, c);
            r.response.status == 200 ==> r.response == SuccessResponse(Stamp(data, uid, url, now))
  {
    var r := Commit(uid, url, now, data, calls, c);
    if c.docSet.Err? {
      assert r.response == UploadFailure(NewError(FirestorePrefix + c.docSet.error.message));
    } else if c.addRow.Err? {
      assert r.response == UploadFailure(NewError(SheetsPrefix + c.addRow.error.message));
    }
  }

  // ------------------------------------------------------------ the whole request

  /**
   * Every error that reaches the inner catch was thrown by `new Error(...)` and
   * has no code, so the upload handler never answers 503: 400 for a missing
   * file, 200 on success, 500 otherwise.
   */
  lemma UploadNeverAnswers503(file: Option<UploadedFile>, uid: string, now: string, c: Collaborators)
    ensures UploadSpec(file, uid, now, c).response.status in {200, 400, 500}
    ensures UploadAsWritten(file, uid, now, c).response.status in {400, 500}
  {
    var ex := ExtractFields(c.generate, c.parse);
    ExtractionErrorsHaveNoCode(c.generate, c.parse);
    StoreStage(file, uid, c, ex);
    var p := StoreThen(file, uid, c, ex);
    if p.Extracted? {
      CommitCalls(uid, p.url, now, p.data, p.calls, c);
      CommitStatus(uid, p.url, now, p.data, p.calls, c);
      UploadFailureMapping(UrlNotDefined);
    }
  }

  /**
   * In order: the calls made are a prefix of storage save, URL signing,
   * Gemini, Firestore, Sheets.
   */
  lemma StagesRunInOrder(file: Option<UploadedFile>, uid: string, now: string, c: Collaborators)
    ensures InStageOrder(UploadSpec(file, uid, now, c).calls)
  {
    var ex := ExtractFields(c.generate, c.parse);
    StoreStage(file, uid, c, ex);
    var p := StoreThen(file, uid, c, ex);
    if p.Extracted? {
      CommitCalls(uid, p.url, now, p.data, p.calls, c);
    }
  }

  /** The success response is sent exactly when every stage succeeds. */
  lemma SuccessExactlyWhenAllStagesSucceed(file: Option<UploadedFile>, uid: string, now: string,
                                                              c: Collaborators)
    ensures UploadSpec(file, uid, now, c).response.status == 200 <==> AllStagesSucceed(file, c)
  {
    var ex := ExtractFields(c.generate, c.parse);
    ExtractionErrorsHaveNoCode(c.generate, c.parse);
    StoreStage(file, uid, c, ex);
    var p := StoreThen(file, uid, c, ex);
    if p.Extracted? {
      CommitStatus(uid, p.url, now, p.data, p.calls, c);
    }
  }

  /** Fail-fast: a failing stage is the last one called, and a request that succeeds makes all five calls. */
  lemma FailingStageIsLastCalled(file: Option<UploadedFile>, uid: string, now: string,
                                                    c: Collaborators)
    ensures |UploadSpec(file, uid, now, c).calls| ==
              if file.None? || !c.bucketReady then 0
              else if c.save.Err? then 1
              else if c.signedUrl.Err? then 2
              else if ExtractFields(c.generate, c.parse).Err? then 3
              else if c.docSet.Err? then 4
              else 5
  {
    var ex := ExtractFields(c.generate, c.parse);
    StoreStage(file, uid, c, ex);
    var p := StoreThen(file, uid, c, ex);
    if p.Extracted? {
      CommitCalls(uid, p.url, now, p.data, p.calls, c);
      assert |p.calls| == 3;
    }
  }

  /**
   * The call belongs to this request: the storage calls name the object
   * `forms/<uid>-<originalname>`, the Firestore document is `feedback/<uid>`
   * and holds `uid`, the sheet row's UID column is uid; the Gemini call, which
   * carries no uid, sends the uploaded file's MIME type.
   */
  predicate BelongsToRequest(call: Call, f: UploadedFile, uid: string) {
    match call
    case SaveObject(key) => key == "forms/" + uid + "-" + f.originalName
    case SignReadUrl(key) => key == "forms/" + uid + "-" + f.originalName
    case GenerateContent(mimeType) => mimeType == f.mimeType
    case SetDoc(collection, docId, data) =>
      collection == "feedback" && docId == uid && Lookup(data, "uid") == Some(Str(uid))
    case AddSheetRow(row) => |row| == 6 && row[0] == ("UID", Some(Str(uid)))
    case ListCollections => false
    case QueryOrdered(_, _, _) => false
  }

  /** Every call in `calls` belongs to the request. */
  predicate AllBelongToRequest(calls: seq<Call>, f: UploadedFile, uid: string) {
    forall i :: 0 <= i < |calls| ==> BelongsToRequest(calls[i], f, uid)
  }

  /** The storage calls carry the uid and the Gemini call the file's MIME type. */
  lemma EarlyCallsBelongToRequest(f: UploadedFile, uid: string, c: Collaborators, extracted: Outcome<Props>)
    ensures AllBelongToRequest(ProgressCalls(StoreThen(Some(f), uid, c, extracted)), f, uid)
  {
    StoreStage(Some(f), uid, c, extracted);
    var calls := ProgressCalls(StoreThen(Some(f), uid, c, extracted));
    var ec := ExtractionCalls(f, uid);
    forall i | 0 <= i < |calls| ensures BelongsToRequest(calls[i], f, uid) {
      assert calls[i] == ec[i];
    }
  }

  /** The Firestore and Sheets calls carry the uid too. */
  lemma CommitCallsCarryUid(f: UploadedFile, uid: string, url: string, now: string, data: Props,
                                               calls: seq<Call>, c: Collaborators)
    requires AllBelongToRequest(calls, f, uid)
    ensures AllBelongToRequest(Commit(uid, url, now, data, calls, c).calls, f, uid)
  {
    CommitCalls(uid, url, now, data, calls, c);
    StampedMetadata(data, uid, url, now);
    var record := Stamp(data, uid, url, now);
    var out := Commit(uid, url, now, data, calls, c).calls;
    forall i | 0 <= i < |out| ensures BelongsToRequest(out[i], f, uid) {
      if i < |calls| {
        assert out[i] == calls[i];
      } else if i == |calls| {
        assert out[i] == SetDoc(FeedbackCollection, uid, record);
      } else {
        assert out[i] == AddSheetRow(SheetRow(uid, record, url));
      }
    }
  }

  /**
   * One request throughout: the storage, Firestore and Sheets calls carry the
   * uid, and the Gemini call the file's MIME type.
   */
  lemma EveryCallBelongsToRequest(f: UploadedFile, uid: string, now: string, c: Collaborators)
    ensures AllBelongToRequest(UploadSpec(Some(f), uid, now, c).calls, f, uid)
  {
    var ex := ExtractFields(c.generate, c.parse);
    EarlyCallsBelongToRequest(f, uid, c, ex);
    var p := StoreThen(Some(f), uid, c, ex);
    if p.Extracted? {
      CommitCallsCarryUid(f, uid, p.url, now, p.data, p.calls, c);
    }
  }

  /** The Gemini stage succeeds only with a parsed value, and then yields what the validation yields. */
  lemma ExtractionSucceedsByValidation(generate: Outcome<GeminiResponse>, parse: Outcome<Json>)
    ensures ExtractFields(generate, parse).Ok? ==>
              && generate.Ok? && generate.value.Text? && generate.value.text.Ok? && parse.Ok?
              && ExtractFields(generate, parse) == CheckParsed(parse.value)
  {
  }

  /** A response with text whose parse passes validation gets through the Gemini stage with the validated fields. */
  lemma ValidatedExtractionSucceeds(text: string, parsed: Json)
    requires CheckParsed(parsed).Ok?
    ensures ExtractFields(Ok(Text(Ok(text))), Ok(parsed)) == CheckParsed(parsed)
  {
  }

  /** What the validation lets through is complete: required fields truthy, both groups present. */
  lemma ValidatedFieldsAreComplete(parsed: Json)
    ensures CheckParsed(parsed).Ok? ==> IsCompleteRecord(CheckParsed(parsed).value)
  {
    if CheckParsed(parsed).Ok? {
      ValidationAcceptsExactlyCompleteObjects(parsed);
      NamesAreDistinct();
      var r := Backfill(parsed.props);
      forall f | f in RequiredFields ensures !Falsy(Lookup(r, f)) {
        assert Lookup(r, f) == Lookup(parsed.props, f);
      }
    }
  }

  /** Whatever the Gemini stage lets through is complete. */
  lemma ExtractedFieldsAreComplete(generate: Outcome<GeminiResponse>, parse: Outcome<Json>)
    ensures ExtractFields(generate, parse).Ok? ==> IsCompleteRecord(ExtractFields(generate, parse).value)
  {
    ExtractionSucceedsByValidation(generate, parse);
    if ExtractFields(generate, parse).Ok? {
      ValidatedFieldsAreComplete(parse.value);
    }
  }

  /** Setting a property that is neither a required field nor a group keeps a record complete. */
  lemma SetPropKeepsComplete(ps: Props, k: string, v: Json)
    requires IsCompleteRecord(ps)
    requires k !in RequiredFields && k != ProgramExperience && k != AshramExperience
    ensures IsCompleteRecord(SetProp(ps, k, v))
  {
    SetPropLookup(ps, k, v);
  }

  /** Stamping a complete record gives a record as stored. */
  lemma StampedRecordIsStored(data: Props, uid: string, url: string, now: string)
    requires IsCompleteRecord(data)
    ensures IsStoredRecord(Stamp(data, uid, url, now), uid, url, now)
  {
    StampedMetadata(data, uid, url, now);
    var once := SetProp(data, "uid", Str(uid));
    var twice := SetProp(once, "imageUrl", Str(url));
    NamesAreDistinct();
    SetPropKeepsComplete(data, "uid", Str(uid));
    SetPropKeepsComplete(once, "imageUrl", Str(url));
    SetPropKeepsComplete(twice, "uploadedAt", Str(now));
  }

  /**
   * What the commit stage writes: the stamped record in the Firestore call and
   * the row built from it and the signed URL in the Sheets call.
   */
  lemma CommitWritesRecord(uid: string, url: string, now: string, data: Props, calls: seq<Call>,
                                              c: Collaborators)
    requires NoCommitCalls(calls)
    ensures var out := Commit(uid, url, now, data, calls, c).calls;
            forall i :: 0 <= i < |out| && out[i].SetDoc? ==> out[i].data == Stamp(data, uid, url, now)
    ensures var out := Commit(uid, url, now, data, calls, c).calls;
            forall i :: 0 <= i < |out| && out[i].AddSheetRow? ==>
              out[i].row == SheetRow(uid, Stamp(data, uid, url, now), url)
  {
    CommitCalls(uid, url, now, data, calls, c);
    var out := Commit(uid, url, now, data, calls, c).calls;
    forall i | 0 <= i < |out| && i < |calls| ensures out[i] == calls[i] {
    }
  }

  /**
   * Only validated records are written: the Firestore document holds truthy
   * required fields, both nested groups, uid, the signed URL and the timestamp.
   */
  lemma OnlyValidatedRecordsAreStored(f: UploadedFile, uid: string, now: string, c: Collaborators)
    ensures var calls := UploadSpec(Some(f), uid, now, c).calls;
            forall i :: 0 <= i < |calls| && calls[i].SetDoc? ==>
              c.signedUrl.Ok? && IsStoredRecord(calls[i].data, uid, c.signedUrl.value, now)
  {
    var ex := ExtractFields(c.generate, c.parse);
    StoreStage(Some(f), uid, c, ex);
    var p := StoreThen(Some(f), uid, c, ex);
    if p.Extracted? {
      CommitWritesRecord(uid, p.url, now, p.data, p.calls, c);
      ExtractedFieldsAreComplete(c.generate, c.parse);
      StampedRecordIsStored(p.data, uid, p.url, now);
    }
  }

  /** The sheet row's Image URL is the URL the storage stage signed (lines 223-231). */
  lemma SheetRowCarriesSignedUrl(f: UploadedFile, uid: string, now: string, c: Collaborators)
    ensures var calls := UploadSpec(Some(f), uid, now, c).calls;
            forall i :: 0 <= i < |calls| && calls[i].AddSheetRow? ==>
              c.signedUrl.Ok? && |calls[i].row| == 6 && calls[i].row[5] == ("Image URL", Some(Str(c.signedUrl.value)))
  {
    var ex := ExtractFields(c.generate, c.parse);
    StoreStage(Some(f), uid, c, ex);
    var p := StoreThen(Some(f), uid, c, ex);
    if p.Extracted? {
      CommitWritesRecord(uid, p.url, now, p.data, p.calls, c);
    }
  }

  /** The success response returns the record written to Firestore, after all five calls. */
  lemma SuccessReturnsStoredRecord(f: UploadedFile, uid: string, now: string, c: Collaborators)
    ensures var run := UploadSpec(Some(f), uid, now, c);
            run.response.status == 200 ==>
              |run.calls| == 5 && run.calls[3].SetDoc? && run.response == SuccessResponse(run.calls[3].data)
  {
    SuccessExactlyWhenAllStagesSucceed(Some(f), uid, now, c);
    if AllStagesSucceed(Some(f), c) {
      IntendedUploadCommits(f, uid, now, c);
    }
  }

  /** The metadata of lines 193-195: uid, imageUrl and uploadedAt read back as set. */
  lemma StampedMetadata(ps: Props, uid: string, url: string, now: string)
    ensures Lookup(Stamp(ps, uid, url, now), "uid") == Some(Str(uid))
    ensures Lookup(Stamp(ps, uid, url, now), "imageUrl") == Some(Str(url))
    ensures Lookup(Stamp(ps, uid, url, now), "uploadedAt") == Some(Str(now))
  {
    var once := SetProp(ps, "uid", Str(uid));
    var twice := SetProp(once, "imageUrl", Str(url));
    SetPropLookup(ps, "uid", Str(uid));
    SetPropLookup(once, "imageUrl", Str(url));
    SetPropLookup(twice, "uploadedAt", Str(now));
  }

  /** The metadata leaves every other property as Gemini returned it. */
  lemma StampKeepsOtherProperties(ps: Props, uid: string, url: string, now: string)
    ensures forall k :: k != "uid" && k != "imageUrl" && k != "uploadedAt" ==>
              Lookup(Stamp(ps, uid, url, now), k) == Lookup(ps, k)
  {
    var once := SetProp(ps, "uid", Str(uid));
    var twice := SetProp(once, "imageUrl", Str(url));
    SetPropLookup(ps, "uid", Str(uid));
    SetPropLookup(once, "imageUrl", Str(url));
    SetPropLookup(twice, "uploadedAt", Str(now));
  }

  /** As intended, a request whose every stage succeeds is stored, mirrored and answered 200. */
  lemma IntendedUploadCommits(f: UploadedFile, uid: string, now: string, c: Collaborators)
    requires AllStagesSucceed(Some(f), c)
    ensures var run := UploadSpec(Some(f), uid, now, c);
            var record := Stamp(ExtractFields(c.generate, c.parse).value, uid, c.signedUrl.value, now);
            && run.response == SuccessResponse(record)
            && run.calls == ExtractionCalls(f, uid) + [SetDoc("feedback", uid, record),
                                                      AddSheetRow(SheetRow(uid, record, c.signedUrl.value))]
  {
    var ex := ExtractFields(c.generate, c.parse);
    ExtractionErrorsHaveNoCode(c.generate, c.parse);
    StoreStage(Some(f), uid, c, ex);
    var p := StoreThen(Some(f), uid, c, ex);
    CommitCalls(uid, p.url, now, p.data, p.calls, c);
    CommitStatus(uid, p.url, now, p.data, p.calls, c);
  }

  // ------------------------------------------------------------ the `url` finding

  /**
   * As written, every request that gets through extraction fails with the
   * ReferenceError: 500 "url is not defined" after the three storage and Gemini
   * calls, and neither Firestore nor the sheet is ever called; a request that
   * stops earlier is answered as intended.
   */
  lemma UrlOutOfScopeFailsEveryExtractedUpload(file: Option<UploadedFile>, uid: string,
                                                                   now: string, c: Collaborators)
    ensures StoreAndExtract(file, uid, c).Extracted? ==>
              UploadAsWritten(file, uid, now, c) == Run(FailedWith("url is not defined"), ExtractionCalls(file.value, uid))
    ensures StoreAndExtract(file, uid, c).Halted? ==> UploadAsWritten(file, uid, now, c) == UploadSpec(file, uid, now, c)
    ensures NoCommitCalls(UploadAsWritten(file, uid, now, c).calls)
  {
    var ex := ExtractFields(c.generate, c.parse);
    ExtractionErrorsHaveNoCode(c.generate, c.parse);
    StoreStage(file, uid, c, ex);
    UploadFailureMapping(UrlNotDefined);
  }

  /** A form photo whose text Gemini read as the four required fields. */
  const WitnessFile := UploadedFile("form1.jpg", "image/jpeg")
  const WitnessParsed := Obj([("Program", Str("Happiness")), ("Program Date", Str("2024-01-05")),
                              ("Name", Str("Asha")), ("Room No", Str("12"))])
  const WitnessServices := Collaborators(true, Ok(()), Ok("https://storage.example/forms/u1-form1.jpg"),
                                         Ok(Text(Ok("{...}"))), Ok(WitnessParsed), Ok(()), Ok(()))

  /** An object whose every property is truthy gives a truthy value for each of its names. */
  lemma TruthyPropertiesRead(ps: Props, fields: seq<string>)
    requires forall i :: 0 <= i < |ps| ==> !Falsy(Some(ps[i].1))
    requires forall f :: f in fields ==> f in Keys(ps)
    ensures forall f :: f in fields ==> !Falsy(Lookup(ps, f))
  {
    forall f | f in fields ensures !Falsy(Lookup(ps, f)) {
      var r := Lookup(ps, f);
      var i :| 0 <= i < |ps| && ps[i] == (f, r.value);
    }
  }

  /** The witness carries every required field, each truthy. */
  lemma WitnessHasRequiredFields()
    ensures forall f :: f in RequiredFields ==> !Falsy(Lookup(WitnessParsed.props, f))
  {
    var ps := WitnessParsed.props;
    var ks := Keys(ps);
    assert ks == RequiredFields;
    TruthyPropertiesRead(ps, RequiredFields);
  }

  /** Every stage succeeds on the witness. */
  lemma WitnessPassesEveryStage()
    ensures AllStagesSucceed(Some(WitnessFile), WitnessServices)
  {
    WitnessHasRequiredFields();
    ValidationAcceptsExactlyCompleteObjects(WitnessParsed);
    ValidatedExtractionSucceeds("{...}", WitnessParsed);
  }

  /** One upload that the intended handler stores and the handler as written rejects. */
  lemma UrlFindingWitness()
    ensures UploadSpec(Some(WitnessFile), "u1", "2024-01-05T10:00:00.000Z", WitnessServices).response.status == 200
    ensures UploadAsWritten(Some(WitnessFile), "u1", "2024-01-05T10:00:00.000Z", WitnessServices).response
            == FailedWith("url is not defined")
  {
    WitnessPassesEveryStage();
    SuccessExactlyWhenAllStagesSucceed(Some(WitnessFile), "u1", "2024-01-05T10:00:00.000Z", WitnessServices);
    StoreStage(Some(WitnessFile), "u1", WitnessServices,
               ExtractFields(WitnessServices.generate, WitnessServices.parse));
    UrlOutOfScopeFailsEveryExtractedUpload(Some(WitnessFile), "u1", "2024-01-05T10:00:00.000Z", WitnessServices);
  }
}
