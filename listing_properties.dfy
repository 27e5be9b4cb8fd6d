/**
 * What the listing handler promises: the 503/500 mapping of Firestore errors,
 * the creation of a missing collection, and the documents returned in query
 * order, each merged with its id.
 */
module ListingProperties {
  import opened JsValues
  import opened JsErrors
  import opened Http
  import opened Effects
  import opened Listing

  /** The call failed with the given error code. */
  predicate FailsWithCode<T>(o: Outcome<T>, code: Json) {
    o.Err? && o.error.code == Some(code)
  }

  /** The Firestore call that decides the answer once the collections are listed. */
  function DecidingCall(fs: Firestore): Outcome<()>
    requires fs.collections.Ok?
  {
    if FeedbackCollection in fs.collections.value then
      (if fs.query.Err? then Err(fs.query.error) else Ok(()))
    else fs.initSet
  }

  /** The inner catch answers 503 exactly for code 5; otherwise 500 with message and code (lines 310-341). */
  lemma ListingFailureMapping(e: JsError)
    ensures ListingFailure(e).status == 503 <==> e.code == Some(NotFoundCode)
    ensures ListingFailure(e).status != 503 ==> ListingFailure(e).status == 500
    ensures ListingFailure(e).status == 503 ==>
              Member(ListingFailure(e).body, "error") == Some(Str(UnavailableMessage)) &&
              Member(ListingFailure(e).body, "message") == Some(Str(UnavailableHint))
    ensures ListingFailure(e).status == 500 ==>
              Member(ListingFailure(e).body, "error") == Some(Str(FetchFailedMessage)) &&
              Member(ListingFailure(e).body, "code") == e.code
    ensures Member(ListingFailure(e).body, "details") == Some(Str(e.message))
  {
    var ps := ListingFailure(e).body.props;
    LookupFirst(ps, 0, "error");
    if e.code == Some(NotFoundCode) {
      LookupFirst(ps, 1, "message");
      LookupFirst(ps, 2, "details");
    } else {
      LookupFirst(ps, 1, "details");
      if e.code.Some? {
        LookupFirst(ps, 2, "code");
      } else {
        assert "code" !in Keys(ps);
      }
    }
  }

  /** Without a database the handler answers 500 and calls nothing (lines 284-286, 325-341). */
  lemma NotInitializedAnswers500(fs: Firestore, now: Json)
    requires !fs.ready
    ensures ListingSpec(fs, now).calls == []
    ensures ListingSpec(fs, now).response ==
              Response(500, Obj([("error", Str(FetchFailedMessage)), ("details", Str(NotInitializedMessage))]))
  {
  }

  /**
   * A missing `feedback` collection is created with an `init` document and the
   * answer is an empty list; the query is never made (lines 289-297).
   */
  lemma MissingCollectionIsCreated(fs: Firestore, now: Json)
    requires fs.ready && fs.collections.Ok? && FeedbackCollection !in fs.collections.value
    ensures ListingSpec(fs, now).calls == [ListCollections, InitCall(now)]
    ensures FeedbackQuery !in ListingSpec(fs, now).calls
    ensures fs.initSet.Ok? ==> ListingSpec(fs, now).response == Response(200, Arr([]))
  {
    assert InitCall(now) != FeedbackQuery;
  }

  /**
   * An existing collection is listed: one entry per document, in the order the
   * query returned them, each the document's id merged with its data; nothing
   * is written (lines 299-309).
   */
  lemma ExistingCollectionIsListed(fs: Firestore, now: Json)
    requires fs.ready && fs.collections.Ok? && FeedbackCollection in fs.collections.value
    requires fs.query.Ok?
    ensures ListingSpec(fs, now).calls == [ListCollections, FeedbackQuery]
    ensures ListingSpec(fs, now).response.status == 200
    ensures ListingSpec(fs, now).response.body.Arr?
    ensures |ListingSpec(fs, now).response.body.elems| == |fs.query.value|
    ensures forall i :: 0 <= i < |fs.query.value| ==>
              ListingSpec(fs, now).response.body.elems[i] == Obj(WithId(fs.query.value[i]))
  {
    var entries := FeedbackEntries(fs.query.value);
    assert ListingSpec(fs, now).response.body == Arr(entries);
  }

  /**
   * The answer is 200 exactly when the database is there and every Firestore
   * call made succeeds, 503 exactly when the failing call reports code 5, and
   * 500 otherwise.
   */
  lemma ListingStatus(fs: Firestore, now: Json)
    ensures ListingSpec(fs, now).response.status in {200, 500, 503}
    ensures ListingSpec(fs, now).response.status == 200 <==>
              fs.ready && fs.collections.Ok? && DecidingCall(fs).Ok?
    ensures ListingSpec(fs, now).response.status == 503 <==>
              fs.ready && (FailsWithCode(fs.collections, NotFoundCode) ||
                           (fs.collections.Ok? && FailsWithCode(DecidingCall(fs), NotFoundCode)))
  {
    var r := ListingSpec(fs, now).response;
    if !fs.ready {
      assert r == ServerError(NewError(NotInitializedMessage));
    } else if fs.collections.Err? {
      ListingFailureMapping(fs.collections.error);
    } else if FeedbackCollection !in fs.collections.value {
      if fs.initSet.Err? {
        ListingFailureMapping(fs.initSet.error);
      }
    } else if fs.query.Err? {
      ListingFailureMapping(fs.query.error);
    }
  }

  /** The only document the listing handler writes is the `init` document, and it lists first. */
  lemma ListingOnlyWritesInit(fs: Firestore, now: Json)
    ensures forall call :: call in ListingSpec(fs, now).calls && call.SetDoc? ==> call == InitCall(now)
    ensures fs.ready ==> ListingSpec(fs, now).calls[0] == ListCollections
    ensures |ListingSpec(fs, now).calls| <= 2
  {
  }

  /**
   * Each listed entry reads `id` as the document id, unless its data has an
   * `id` field, whose value wins; every data field reads as stored. Without
   * array-index names in the data, `id` is listed first.
   */
  lemma ListedEntryFields(docs: seq<Doc>, i: int, k: string)
    requires 0 <= i < |docs| && DistinctNames(docs[i].data)
    ensures FeedbackEntries(docs)[i].Obj?
    ensures NoArrayIndexNames(docs[i].data) ==> ["id"] <= Keys(FeedbackEntries(docs)[i].props)
    ensures Lookup(FeedbackEntries(docs)[i].props, k) ==
              if k in Keys(docs[i].data) then Lookup(docs[i].data, k)
              else if k == "id" then Some(Str(docs[i].id))
              else None
  {
    EntryFields(docs[i], k);
  }
}
