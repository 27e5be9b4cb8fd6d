# myOCRaol feedback-form OCR: a verified model of the decision logic

myOCRaol takes a photo of a paper feedback form, stores it in Firebase
Storage, has Gemini read the fields, validates them, stores the record in
Firestore and appends a row to a Google Sheet. A React table lists the records.
This project models the deterministic part of that flow in Dafny and proves
what it promises:

- **`POST /api/upload`** (`backend/src/index.js`, lines 67-276) is a fail-fast
  sequence of stages: the missing-file guard, the storage key, the Gemini
  response and `JSON.parse`, the required-field validation, the backfill of the
  two nested groups, the metadata, the Firestore write and the sheet row. The
  model also covers the error-message wrapping and the 400/500/503 mapping.
  Every external call's result is an input (`Upload.Collaborators`), and the
  model records the calls made, in order (`Effects.Call`). The Google Sheets
  stage (lines 214-231: authentication, `loadInfo` and `addRow`) is one
  recorded call, `AddSheetRow`, whichever of its three steps fails. `Upload.UploadSpec`
  is the handler as intended. `Upload.HandleUpload` is the imperative handler,
  proved equal to it. `Upload.UploadAsWritten` is the handler as written; see
  "Findings".
- **`GET /api/feedback`** (lines 279-343) lists the collections and creates a
  missing `feedback` collection with an `init` document. Otherwise it returns
  the documents of the ordered query, each as `{ id, ...data }`, and maps
  Firestore failures to 503 or 500. `Listing.ListingSpec` is the handler as a
  function. `Listing.HandleFeedbackList` and its loop `Listing.CollectFeedback`
  are the imperative form.
- **The feedback table** (`frontend/src/components/FeedbackTable.tsx`) covers
  `getNestedValue`, the page slice, the pagination count and what each cell
  shows. The page state holding `page` and `rowsPerPage` is the class
  `FeedbackTable.TablePager`, and its two handlers are methods.

Behind these sit the JavaScript semantics the code relies on:

- JSON values and plain objects, whose properties are kept in insertion order
  (`JsValues`). JavaScript lists array-index names such as `"0"` or `"42"`
  first, in numeric order. The model does not, so every lemma about the order
  of names assumes that the names it adds are not array indices
  (`JsValues.IsArrayIndex`).
- Truthiness (`JsValues.Falsy`).
- Property assignment, which keeps an existing name's place and appends a new
  name (`JsValues.SetProp`).
- `split`, `join` and `parseInt` (`JsStrings`).
- Thrown errors with their `message` and `code` (`JsErrors`).
- `JSON.stringify` leaving out undefined properties (`Http.WithOptional`).

Reading a property of `null` throws, with V8's TypeError message. Reading one
of a string, number, boolean or array gives `undefined`.

Two observations about the upload handler follow from the proofs.

- Its 503 branch (lines 253-259) cannot be taken. Every error that reaches that
  catch was thrown as a fresh `new Error(...)` at lines 104, 189, 210 or 238,
  or is the ReferenceError described under "Findings", and none of these has a
  `code` (`UploadProperties.UploadNeverAnswers503`).
- The guard at line 69 rejects only a missing `req.file`. An empty file passes
  it and goes on to storage. The model follows the code.

Inputs instead of the services:

- The uid (`uuidv4()`) and the ISO timestamp are parameters.
- The listing's `new Date()` value is the parameter `now`.
- Each Storage, Gemini, `JSON.parse`, Firestore and Sheets result is an
  `Outcome` given with the request.

## Model

| member | source | states |
|---|---|---|
| JsValues.LookupFirst | backend/src/index.js:163 | reading a property gives the value of the property with that name |
| JsValues.SetPropLookup | backend/src/index.js:193-195 | after `obj[k] = v`, reading k gives v and every other name reads as before |
| JsValues.Falsy | backend/src/index.js:163 | the values ToBoolean makes false: undefined, null, false, 0 and the empty string |
| JsValues.Lookup | backend/src/index.js:163 | reading a property gives a value exactly when the object has that name, and the value is that property's |
| JsValues.SetProp | backend/src/index.js:172 | `obj[k] = v` as a function; its contract is stated by `SetPropLookup` and `SetPropKeys` |
| JsValues.SetPropKeys | backend/src/index.js:193-195 | after assignment the names are the old names and k; an existing name keeps its place; a new name that is not an array index is appended after all the others |
| JsValues.Member | frontend/src/components/FeedbackTable.tsx:91 | the property read `j[k]` on a value that is not null: an object's own property, undefined on any other value; stated by `SingleSegmentPath`, `SatisfactionResolves` and `ImageCellLinksToImageUrl` |
| JsStrings.Join | backend/src/index.js:167 | `parts.join(sep)`. At line 167 the separator is `", "`, and Join is the reference `ExtractionMessages` states the message with; `JoinSplit` and `SplitJoin` relate Join to Split for a one-character separator only |
| JsStrings.Split | frontend/src/components/FeedbackTable.tsx:91 | `s.split(d)`: always at least one piece, and no piece contains d |
| JsStrings.JoinSplit | frontend/src/components/FeedbackTable.tsx:91 | joining the pieces of `split(d)` with d gives the string back |
| JsStrings.SplitJoin | frontend/src/components/FeedbackTable.tsx:91 | splitting a join of separator-free pieces gives the pieces back |
| JsStrings.SplitAtFirstSeparator | frontend/src/components/FeedbackTable.tsx:91 | the first piece of `split` ends at the first separator and the rest is the split of what follows |
| JsStrings.ParseInt | frontend/src/components/FeedbackTable.tsx:61 | `parseInt(s, 10)`: skip leading white space, take an optional sign and the longest run of digits; NaN without a digit. Its contract is stated by `ParseIntOfDigits` and `ParseIntOfDecimal` |
| JsStrings.ParseIntOfDigits | frontend/src/components/FeedbackTable.tsx:61 | the model's parseInt reads a string of digits as its decimal value; JavaScript's double result agrees below 2^53 |
| JsStrings.ParseIntOfDecimal | frontend/src/components/FeedbackTable.tsx:61 | `parseInt(String(n), 10)` is n for every natural n below 2^53 |
| JsErrors.Rewrap | backend/src/index.js:177-190 | the catch-and-rethrow `new Error(prefix + e.message)` of lines 104, 181 and 189: a success passes through, an error gets the prefix and loses its code; stated by `ExtractionMessages` and `ExtractionErrorsHaveNoCode` |
| JsErrors.NullPropertyRead | backend/src/index.js:163 | V8's TypeError when line 163 reads `Program` of a null parse result; stated by `ExtractionMessages` |
| Http.WithOptional | backend/src/index.js:270-274 | `JSON.stringify` leaving out `code: undefined` (also lines 337-341); stated by `WithOptionalLookup`, `UploadFailureMapping` and `ListingFailureMapping` |
| Http.WithOptionalLookup | backend/src/index.js:270-274 | in the body as sent, the optional property reads its value, undefined when left out, and every other property reads as in the literal |
| Upload.StorageKey | backend/src/index.js:85 | the object name `forms/<uid>-<originalname>`; stated by `EarlyCallsBelongToRequest` |
| Upload.MissingFields | backend/src/index.js:162-163 | the missing list holds exactly the required fields whose value is falsy, in their order (a subsequence), and is empty exactly when all are truthy |
| Upload.MissingFieldsMessage | backend/src/index.js:167 | `Missing required fields: ` and the names joined with `, `; stated by `ExtractionMessages` |
| Upload.Backfill | backend/src/index.js:170-176 | a falsy group becomes `{}`; a truthy group, even `{}`, is kept; every other property reads as before |
| Upload.BackfillGroup | backend/src/index.js:171-176 | one group: set to `{}` exactly when it reads falsy, every other name unchanged; its order is stated by `BackfillGroupKeys` |
| Upload.BackfillKeys | backend/src/index.js:170-176 | an absent group is appended after the properties Gemini returned, Program Experience before Overall Ashram Experience; a present one keeps its place |
| Upload.CheckParsed | backend/src/index.js:157-181 | the parse, validation and backfill stage; stated by `ValidationAcceptsExactlyCompleteObjects` and `ValidatedFieldsAreComplete` |
| Upload.ExtractFields | backend/src/index.js:107-190 | the Gemini stage with its two wrappings; stated by `ExtractionMessages`, `ExtractionSucceedsByValidation` and `ExtractedFieldsAreComplete` |
| Upload.Stamp | backend/src/index.js:192-195 | the metadata assignments; stated by `StampedMetadata` and `StampKeepsOtherProperties` |
| Upload.SheetRow | backend/src/index.js:223-231 | the row appended to the sheet; stated by `SheetRowCarriesSignedUrl` |
| Upload.UploadFailure | backend/src/index.js:245-262 | the inner catch; stated by `UploadFailureMapping` |
| Upload.ServerError | backend/src/index.js:263-274 | the outer catch; stated by `UploadFailureMapping` |
| Upload.SuccessResponse | backend/src/index.js:241-244 | the body `{success: true, data: record}`; stated by `CommitStatus` and `SuccessReturnsStoredRecord` |
| Upload.StoreThen | backend/src/index.js:68-190 | the guard, storage and Gemini stages around a given Gemini outcome; stated by `StoreStage` and `EarlyCallsBelongToRequest` |
| Upload.StoreAndExtract | backend/src/index.js:68-190 | `StoreThen` with the Gemini stage of `ExtractFields`; stated by `StoreStage`, `ExtractionMessages` and `StoreAndExtractSteps` |
| Upload.Commit | backend/src/index.js:192-244 | the metadata, Firestore, Sheets and answer stages; stated by `CommitCalls`, `CommitStatus`, `CommitWritesRecord` and `CommitSteps` |
| Upload.Pipeline | backend/src/index.js:87-274 | the stage chain as intended around a given Gemini outcome; stated by `StagesRunInOrder`, `SuccessExactlyWhenAllStagesSucceed`, `FailingStageIsLastCalled` and `IntendedUploadCommits` |
| Upload.PipelineAsWritten | backend/src/index.js:194 | the stage chain as written, where the read of `url` after extraction throws; stated by `UrlOutOfScopeFailsEveryExtractedUpload` |
| Upload.UploadSpec | backend/src/index.js:67-276 | the upload handler as intended; stated by the `UploadProperties` lemmas |
| Upload.UploadAsWritten | backend/src/index.js:67-276 | the upload handler as written, `url` out of scope; stated by `UrlOutOfScopeFailsEveryExtractedUpload` |
| Upload.ValidateParsed | backend/src/index.js:157-176 | the validation and the in-place backfill, done step by step, give the error or the fields of `CheckParsed` |
| Upload.StoreAndExtractSteps | backend/src/index.js:68-190 | the guard, storage and Gemini steps, with early returns and wrapped errors, produce exactly `StoreAndExtract` |
| Upload.CommitSteps | backend/src/index.js:192-244 | the metadata, Firestore, Sheets and answer steps produce exactly `Commit` |
| Upload.HandleUpload | backend/src/index.js:67-276 | the upload handler step by step answers and calls exactly as `UploadSpec` |
| UploadProperties.NoFileRejectedBeforeAnyStage | backend/src/index.js:69-71 | without a file the answer is 400 `{"error":"No image file provided"}` and no service is called |
| UploadProperties.UploadFailureMapping | backend/src/index.js:245-274 | the catch answers 503 exactly for code 404, otherwise 500; `details` is the message; a 500 carries the error's code, left out when undefined |
| UploadProperties.ExtractionMessages | backend/src/index.js:145-190 | a Gemini error and an invalid response get one prefix; a parse failure, a null parse and missing fields get two, ending in `Missing required fields: ` and the names joined with `, ` |
| UploadProperties.ExtractionErrorsHaveNoCode | backend/src/index.js:178-189 | no error out of the Gemini stage has a code |
| UploadProperties.ValidationAcceptsExactlyCompleteObjects | backend/src/index.js:161-176 | validation passes exactly for an object whose four required fields are truthy, and then yields its backfill |
| UploadProperties.StoreStage | backend/src/index.js:68-190 | the request gets past Gemini exactly when there is a file, the bucket is ready and storage and extraction succeed; it then holds the signed URL, the fields and the three calls keyed by `forms/uid-name`; otherwise the answer is 400 (no file) or 500 after a prefix of those calls |
| UploadProperties.CommitCalls | backend/src/index.js:192-239 | the commit writes the stamped record under the uid, then adds the sheet row only when the write succeeded |
| UploadProperties.CommitStatus | backend/src/index.js:199-244 | the commit answers 200 with `{success: true, data: record}` exactly when Firestore and Sheets succeed, otherwise 500 |
| UploadProperties.UploadNeverAnswers503 | backend/src/index.js:253-259 | as intended the answer is 200, 400 or 500; as written it is 400 or 500; 503 never happens |
| UploadProperties.StagesRunInOrder | backend/src/index.js:87-244 | the calls made are a prefix of storage save, signed URL, Gemini, Firestore, Sheets |
| UploadProperties.SuccessExactlyWhenAllStagesSucceed | backend/src/index.js:87-244 | the success response is sent exactly when every stage succeeds |
| UploadProperties.FailingStageIsLastCalled | backend/src/index.js:87-244 | fail-fast: the number of calls made is fixed by the first failing stage, and no later stage runs |
| UploadProperties.EarlyCallsBelongToRequest | backend/src/index.js:83-146 | the storage calls use the key `forms/` + uid + `-` + original name, and the Gemini call sends the file's MIME type |
| UploadProperties.CommitCallsCarryUid | backend/src/index.js:193-231 | the Firestore document id and the sheet row's `UID` are the uid |
| UploadProperties.EveryCallBelongsToRequest | backend/src/index.js:83-231 | one request throughout: the storage, Firestore and Sheets calls carry the uid, and the Gemini call sends the file's MIME type |
| UploadProperties.ExtractionSucceedsByValidation | backend/src/index.js:145-190 | the Gemini stage succeeds only with text and a parsed value, and yields what validation yields |
| UploadProperties.ValidatedFieldsAreComplete | backend/src/index.js:161-176 | what validation lets through has the four required fields truthy and both groups present |
| UploadProperties.ExtractedFieldsAreComplete | backend/src/index.js:145-190 | whatever the Gemini stage lets through is complete in the same sense |
| UploadProperties.SetPropKeepsComplete | backend/src/index.js:193-195 | setting a metadata property keeps a complete record complete |
| UploadProperties.StampedRecordIsStored | backend/src/index.js:192-195 | stamping a complete record gives one that is complete and carries uid, imageUrl and uploadedAt |
| UploadProperties.CommitWritesRecord | backend/src/index.js:199-231 | the document written is the stamped record and the sheet row is built from it |
| UploadProperties.OnlyValidatedRecordsAreStored | backend/src/index.js:157-202 | every Firestore write of an upload holds a validated, stamped record |
| UploadProperties.SheetRowCarriesSignedUrl | backend/src/index.js:223-231 | the sheet row has six columns and its Image URL is the URL the storage stage signed |
| UploadProperties.SuccessReturnsStoredRecord | backend/src/index.js:241-244 | a 200 answer returns exactly the record written to Firestore, after all five calls |
| UploadProperties.StampedMetadata | backend/src/index.js:192-195 | uid, imageUrl and uploadedAt read back as set |
| UploadProperties.StampKeepsOtherProperties | backend/src/index.js:192-195 | the metadata leaves every other property as Gemini returned it |
| UploadProperties.IntendedUploadCommits | backend/src/index.js:87-244 | as intended, a request whose every stage succeeds is stored, mirrored to the sheet and answered 200, with the five calls in order |
| UploadProperties.UrlOutOfScopeFailsEveryExtractedUpload | backend/src/index.js:194 | as written, every request that passes extraction is answered 500 `url is not defined` with no Firestore or Sheets call; every other request is answered as intended |
| UploadProperties.UrlFindingWitness | backend/src/index.js:194 | one concrete upload that the intended handler stores (200) and the handler as written rejects |
| Listing.Spread | backend/src/index.js:305 | `{...target, ...source}`; stated by `SpreadLookup`, `SpreadKeys` and `SpreadFreshKeys` |
| Listing.WithId | backend/src/index.js:305 | `{ id: doc.id, ...doc.data() }`; stated by `EntryFields` and `EntryKeysWithoutIdField` |
| Listing.SpreadLookup | backend/src/index.js:305 | after `{...target, ...source}`, a name of source reads source's value and any other name reads target's value |
| Listing.SpreadKeys | backend/src/index.js:305 | the result has exactly the names of both objects; without array-index names in the source, the target's names keep their places at the front |
| Listing.SpreadFreshKeys | backend/src/index.js:305 | spreading names the target lacks, none an array index, appends them in order |
| Listing.EntryFields | backend/src/index.js:305 | `id` reads the document id unless the data has an `id` field, which wins; data fields read as stored, and nothing else is present; without array-index names in the data, `id` comes first |
| Listing.EntryKeysWithoutIdField | backend/src/index.js:305 | without an `id` field or an array-index name in the data, an entry's names are `id` followed by the data's names in order |
| Listing.FeedbackEntries | backend/src/index.js:303-306 | the entries of the response, one per document in query order; stated by `ExistingCollectionIsListed`, `ListedEntryFields` and `CollectFeedback` |
| Listing.InitCall | backend/src/index.js:295 | the write of `feedback/init` with `{timestamp: now}`; stated by `MissingCollectionIsCreated` and `ListingOnlyWritesInit` |
| Listing.ServerError | backend/src/index.js:328-342 | the outer catch; stated by `ListingFailureMapping` |
| Listing.ListingFailure | backend/src/index.js:310-327 | the inner catch; stated by `ListingFailureMapping` |
| Listing.ListingSpec | backend/src/index.js:279-343 | the listing handler; stated by the `ListingProperties` lemmas |
| Listing.CollectFeedback | backend/src/index.js:303-306 | the loop yields one entry per document, in query order, each the document merged with its id |
| Listing.HandleFeedbackList | backend/src/index.js:281-342 | the listing handler step by step answers and calls exactly as `ListingSpec` |
| ListingProperties.ListingFailureMapping | backend/src/index.js:310-341 | a Firestore error answers 503 `Firestore service not available` exactly for code 5, otherwise 500 `Failed to fetch feedback` with its code; `details` is the message |
| ListingProperties.NotInitializedAnswers500 | backend/src/index.js:284-286 | without a database the answer is 500 with details `Firestore not initialized` and nothing is called |
| ListingProperties.MissingCollectionIsCreated | backend/src/index.js:289-297 | a missing collection is created with an `init` document and the answer is `[]`; the query is never made |
| ListingProperties.ExistingCollectionIsListed | backend/src/index.js:299-309 | an existing collection is listed in query order, one entry per document, each `{id, ...data}`; nothing is written |
| ListingProperties.ListingStatus | backend/src/index.js:283-342 | the answer is 200 exactly when the database is there and every call made succeeds, 503 exactly when the failing call reports code 5, and 500 otherwise |
| ListingProperties.ListingOnlyWritesInit | backend/src/index.js:289-301 | the only document written is `init`; listing the collections comes first; at most two calls |
| ListingProperties.ListedEntryFields | backend/src/index.js:303-306 | each listed entry reads `id` and every data field as stored, with a data `id` winning; without array-index names in the data, `id` is listed first |
| FeedbackTable.Step | frontend/src/components/FeedbackTable.tsx:91 | one step of the reduce, `acc && acc[part]`; stated by `FoldStopsAtFalsy` and `NestedPath` |
| FeedbackTable.GetNestedValue | frontend/src/components/FeedbackTable.tsx:90-92 | `getNestedValue(obj, path)`; stated by `SingleSegmentPath`, `NestedPath` and `SatisfactionResolves` |
| FeedbackTable.FoldPath | frontend/src/components/FeedbackTable.tsx:91 | the `reduce` of the steps over the path's parts, left to right; stated by `FoldStopsAtFalsy`, `SingleSegmentPathFrom` and `NestedPath` |
| FeedbackTable.FoldStopsAtFalsy | frontend/src/components/FeedbackTable.tsx:91 | the reduce stops at the first falsy intermediate value and returns it |
| FeedbackTable.SingleSegmentPathFrom | frontend/src/components/FeedbackTable.tsx:91 | a dot-free path takes one step of the reduce |
| FeedbackTable.SingleSegmentPath | frontend/src/components/FeedbackTable.tsx:90-92 | a path without a dot reads `obj[path]` |
| FeedbackTable.NestedPath | frontend/src/components/FeedbackTable.tsx:90-92 | `a.b` reads a, then b inside its value, unless that value is falsy, which is then the result |
| FeedbackTable.SatisfactionResolves | frontend/src/components/FeedbackTable.tsx:86-92 | the satisfaction column reads `How satisfied are you?` inside `Program Experience`, or the group itself when it is falsy |
| FeedbackTable.SliceIndex | frontend/src/components/FeedbackTable.tsx:116 | a slice index within the array is used as is, and every index is clamped to the array |
| FeedbackTable.Slice | frontend/src/components/FeedbackTable.tsx:116 | `slice(start, end)`: never longer than the array; stated by `PageSlice` |
| FeedbackTable.VisibleRows | frontend/src/components/FeedbackTable.tsx:115-116 | the rows of the current page; stated by `PageSlice`, `RowOnItsPage`, `PageShownIffBeforeCount` and `PagesCoverRows` |
| FeedbackTable.PageSlice | frontend/src/components/FeedbackTable.tsx:115-116 | for a page p >= 0 and size n > 0 the rows shown are the contiguous run from p*n up to (p+1)*n or the end, in order, at most n of them |
| FeedbackTable.RowOnItsPage | frontend/src/components/FeedbackTable.tsx:115-116 | every row i is shown on page i / n at position i % n |
| FeedbackTable.NaNPageSizeShowsNothing | frontend/src/components/FeedbackTable.tsx:115-116 | a NaN page size shows no rows |
| FeedbackTable.PaginationCount | frontend/src/components/FeedbackTable.tsx:138 | `data?.length \|\| 0`; stated by `PageShownIffBeforeCount` and `PagesCoverRows` |
| FeedbackTable.PageShownIffBeforeCount | frontend/src/components/FeedbackTable.tsx:115-138 | with size n > 0, page p >= 0 shows rows exactly when p * n is below the count given to the pagination control |
| FeedbackTable.FirstPagesArePrefix | frontend/src/components/FeedbackTable.tsx:115-116 | pages 0 to k - 1 shown one after the other are the first k * n rows, or all of them |
| FeedbackTable.PagesCoverRows | frontend/src/components/FeedbackTable.tsx:115-138 | the ceil(count / n) pages the control offers show every row once, in order |
| FeedbackTable.CellFor | frontend/src/components/FeedbackTable.tsx:121-127 | what one cell shows; stated by `CellShowsValueOrNotAvailable` and `ImageCellLinksToImageUrl` |
| FeedbackTable.CellShowsValueOrNotAvailable | frontend/src/components/FeedbackTable.tsx:125-127 | a text cell is handed a truthy value: the resolved value exactly when that is truthy, and `N/A` otherwise |
| FeedbackTable.RenderRow | frontend/src/components/FeedbackTable.tsx:119-129 | a row has one cell per column |
| FeedbackTable.ImageCellLinksToImageUrl | frontend/src/components/FeedbackTable.tsx:121-124 | the image column always renders a link to `row.imageUrl`, whatever its value |
| FeedbackTable.TablePager.constructor | frontend/src/components/FeedbackTable.tsx:45-46 | the table starts on page 0 with 10 rows per page |
| FeedbackTable.TablePager.Shown | frontend/src/components/FeedbackTable.tsx:115-116 | the rows shown for the pager's current page and size; stated by `HandleChangeRowsPerPage` |
| FeedbackTable.TablePager.HandleChangePage | frontend/src/components/FeedbackTable.tsx:56-58 | the page becomes the new page and the page size is unchanged |
| FeedbackTable.TablePager.HandleChangeRowsPerPage | frontend/src/components/FeedbackTable.tsx:60-63 | the page size becomes `parseInt(value, 10)` and the page 0, so a positive size shows the first rows up to that size |

## Left out

- The Firebase, Gemini, Google Sheets and uuid SDKs are foreign calls. Each call's result is an input `Outcome`.
- How the image bytes reach the services is not modelled. Only the original name and MIME type are examined.
- Firestore's `orderBy('uploadedAt', 'desc')` is external behaviour, including how it treats the `init` document. The documents arrive already in query order.
- Environment and configuration loading, the private-key rewrite and `process.exit` at start-up are process I/O. `bucket` and `db` appear as the flags `bucketReady` and `ready`.
- Express routing, multer, CORS, the root route and `app.listen` are HTTP plumbing.
- All console logging is left out. It has no effect on responses.
- The Gemini prompt text is a constant sent to a foreign call.
- Real JSON text parsing is not modelled. `JSON.parse` is an input `Outcome<Json>`.
- JSON numbers are reals, so number precision is not modelled. A `code` compares by value.
- JsStrings.ParseInt: returns an unbounded integer. JavaScript's parseInt returns a double, so a digit string above 2^53 is rounded and one of 309 or more digits is Infinity.
- JsStrings.ParseIntOfDecimal: holds only below 2^53. Above that the double is rounded, and from 10^21 `String(n)` writes exponent notation.
- FeedbackTable.VisibleRows: page and size are unbounded integers, so the double products of the page expression are not modelled. An Infinity page size, which makes `0 * Infinity` NaN and shows no rows, is not a value the model has.
- JsValues.SetProp: places a new array-index name last. JavaScript lists such names first, in numeric order, so objects with such names have a different order in the model.
- JsValues.SetPropKeys: states the appended position only for a name that is not an array index.
- Listing.SpreadKeys: states that the target's names stay in front only for a source without array-index names.
- Listing.SpreadFreshKeys: requires a source without array-index names.
- Listing.EntryFields: states that `id` comes first only for data without array-index names.
- Listing.EntryKeysWithoutIdField: requires data without array-index names.
- ListingProperties.ListedEntryFields: states that `id` is listed first only for data without array-index names.
- FeedbackTable.CellShowsValueOrNotAvailable: states the value handed to React. How React renders it is not modelled: `true` and an empty array show nothing, and a plain object makes React throw.
- Effects.Call: AddSheetRow stands for the whole Sheets stage (backend/src/index.js, lines 214-231). The three steps, authentication, `loadInfo` and `addRow`, are not told apart. A failure in any of them is one `addRow` error.
- Prototype and built-in properties are left out, for example `length`, an array's or a string's indices, and `toString`. A property read on a non-object non-null value gives undefined.
- JsStrings.ParseInt: skips only ASCII space, tab, CR and LF. It does not skip the other Unicode white space that JavaScript's parseInt skips.
- FeedbackTable.TablePager.HandleChangePage: `newPage` is an integer, as the pagination control supplies.
- The loading and error views, MUI components, react-query fetching and the refresh key are rendering and network code.
- frontend/src/App.tsx (theme and refresh counter) is not part of this model: it is UI.
- frontend/src/components/ImageUpload.tsx (drop zone, axios POST, toasts) is not part of this model: it is network and UI.
- A Firestore document's data is assumed to have distinct property names (`DistinctNames`) wherever the merge lemmas need it, as every JavaScript object does.

## Findings

| source | as written | input that shows it | evidently intended | confidence | as-written member | corrected member |
|---|---|---|---|---|---|---|
| backend/src/index.js:194 | `url` is declared with `const` inside the storage `try` block (lines 89-98, line 96). It is read outside that block at lines 194 and 229. Every request that passes extraction throws the ReferenceError `url is not defined`, which has no code, so the outer catch answers 500 and nothing is stored | the `form1.jpg` upload of `UrlFindingWitness`, with every service succeeding and Gemini returning the four required fields | `imageUrl` and the sheet's `Image URL` are the signed URL the storage stage obtained; the record is stored, mirrored and answered 200 | not executed | UploadProperties.UrlOutOfScopeFailsEveryExtractedUpload | UploadProperties.IntendedUploadCommits |
