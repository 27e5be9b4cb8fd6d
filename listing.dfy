/**
 * The `GET /api/feedback` handler (backend/src/index.js, lines 279-343): list
 * the Firestore collections, create the `feedback` collection with an `init`
 * document when it is missing, otherwise return the query's documents, each
 * as `{ id: doc.id, ...doc.data() }`. Firestore's answers are inputs; the
 * ordering by `uploadedAt` is Firestore's and the documents come already in
 * the order the query returned them.
 */
module Listing {
  import opened JsValues
  import opened JsErrors
  import opened Http
  import opened Effects

  /** A document of the query snapshot. */
  datatype Doc = Doc(id: string, data: Props)

  /**
   * Firestore's part in one request: whether `db` was initialised at start-up,
   * the ids `listCollections` returned, the result of writing the `init`
   * document and the documents of the ordered query, in query order.
   */
  datatype Firestore = Firestore(
    ready: bool,
    collections: Outcome<seq<string>>,
    initSet: Outcome<()>,
    query: Outcome<seq<Doc>>)

  const NotInitializedMessage := "Firestore not initialized"
  const FetchFailedMessage := "Failed to fetch feedback"
  const UnavailableMessage := "Firestore service not available"
  const UnavailableHint := "Please ensure Firestore API is enabled and database is created"
  const InitDocId := "init"

  /** gRPC status 5, NOT_FOUND: what Firestore reports when the database does not exist. */
  const NotFoundCode := Num(5.0)

  // ------------------------------------------------------------ the merge

  /** `{ ...target, ...source }`: each property of source assigned in turn. */
  function Spread(target: Props, source: Props): Props
    decreases |source|
  {
    if source == [] then target
    else Spread(SetProp(target, source[0].0, source[0].1), source[1..])
  }

  /** `{ id: doc.id, ...doc.data() }` (line 305). */
  function WithId(d: Doc): Props {
    Spread([("id", Str(d.id))], d.data)
  }

  /** The entries of the response, one per document, in query order. */
  function FeedbackEntries(docs: seq<Doc>): seq<Json> {
    seq(|docs|, i requires 0 <= i < |docs| => Obj(WithId(docs[i])))
  }

  /**
   * After a spread of an object with distinct names, a name of the source reads
   * the source's value and any other name what it read in the target.
   */
  lemma {:induction false} SpreadLookup(target: Props, source: Props, k: string)
    requires DistinctNames(source)
    ensures Lookup(Spread(target, source), k) == if k in Keys(source) then Lookup(source, k) else Lookup(target, k)
    decreases |source|
  {
    if source != [] {
      var (k0, v0) := source[0];
      var rest := source[1..];
      assert Keys(source) == [k0] + Keys(rest);
      SpreadLookup(SetProp(target, k0, v0), rest, k);
      SetPropLookup(target, k0, v0);
    }
  }

  /**
   * The result has exactly the names of the two objects; when the source has no
   * array-index name, the target's names keep their places at the front.
   */
  lemma {:induction false} SpreadKeys(target: Props, source: Props)
    ensures NoArrayIndexNames(source) ==> Keys(target) <= Keys(Spread(target, source))
    ensures forall k :: k in Keys(Spread(target, source)) <==> k in Keys(target) || k in Keys(source)
    decreases |source|
  {
    if source != [] {
      var (k0, v0) := source[0];
      var t := SetProp(target, k0, v0);
      SetPropKeys(target, k0, v0);
      SpreadKeys(t, source[1..]);
      assert Keys(source) == [k0] + Keys(source[1..]);
    }
  }

  /** No property of ps has one of the names. */
  predicate NamesOutside(ps: Props, names: seq<string>) {
    ps == [] || (ps[0].0 !in names && NamesOutside(ps[1..], names))
  }

  /** The names an object does not have, one name more that it does not have either. */
  lemma {:induction false} NamesOutsideExtend(ps: Props, names: seq<string>, k: string)
    requires NamesOutside(ps, names) && k !in Keys(ps)
    ensures NamesOutside(ps, names + [k])
    decreases |ps|
  {
    if ps != [] {
      assert Keys(ps) == [ps[0].0] + Keys(ps[1..]);
      NamesOutsideExtend(ps[1..], names, k);
    }
  }

  /** A spread of names the target does not have, none an array index, appends them in order. */
  lemma {:induction false} SpreadFreshKeys(target: Props, source: Props)
    requires NamesOutside(source, Keys(target))
    requires DistinctNames(source) && NoArrayIndexNames(source)
    ensures Keys(Spread(target, source)) == Keys(target) + Keys(source)
    decreases |source|
  {
    if source != [] {
      var (k0, v0) := source[0];
      var rest := source[1..];
      var t := SetProp(target, k0, v0);
      assert !IsArrayIndex(k0) && NoArrayIndexNames(rest);
      assert k0 !in Keys(target);
      SetPropKeys(target, k0, v0);
      assert Keys(t) == Keys(target) + [k0];
      NamesOutsideExtend(rest, Keys(target), k0);
      SpreadFreshKeys(t, rest);
      assert Keys(source) == [k0] + Keys(rest);
    }
  }

  /** A name the object does not have is outside its names. */
  lemma {:induction false} NamesOutsideSingle(ps: Props, k: string)
    requires k !in Keys(ps)
    ensures NamesOutside(ps, [k])
    decreases |ps|
  {
    if ps != [] {
      assert Keys(ps) == [ps[0].0] + Keys(ps[1..]);
      NamesOutsideSingle(ps[1..], k);
    }
  }

  /**
   * An entry of the listing: `id` reads the document id unless the data has a
   * field named `id`, which overrides the value; every data field reads its
   * value, and nothing else is present. Without array-index names in the data,
   * `id` comes first.
   */
  lemma EntryFields(d: Doc, k: string)
    requires DistinctNames(d.data)
    ensures NoArrayIndexNames(d.data) ==> ["id"] <= Keys(WithId(d))
    ensures Lookup(WithId(d), k) ==
              if k in Keys(d.data) then Lookup(d.data, k)
              else if k == "id" then Some(Str(d.id))
              else None
  {
    SpreadKeys([("id", Str(d.id))], d.data);
    SpreadLookup([("id", Str(d.id))], d.data, k);
  }

  /**
   * Without an `id` field or an array-index name in the data, an entry's names
   * are `id` followed by the data's, in order.
   */
  lemma EntryKeysWithoutIdField(d: Doc)
    requires DistinctNames(d.data) && NoArrayIndexNames(d.data)
    requires "id" !in Keys(d.data)
    ensures Keys(WithId(d)) == ["id"] + Keys(d.data)
  {
    NamesOutsideSingle(d.data, "id");
    assert Keys([("id", Str(d.id))]) == ["id"];
    SpreadFreshKeys([("id", Str(d.id))], d.data);
  }

  // ------------------------------------------------------------ responses

  /** The outer catch (lines 328-342); an undefined code is left out of the body. */
  function ServerError(e: JsError): Response {
    Response(500, Obj(WithOptional([("error", Str(FetchFailedMessage)), ("details", Str(e.message))],
                                   "code", e.code)))
  }

  /** The inner catch (lines 310-327): 503 for code 5, otherwise rethrown to the outer catch. */
  function ListingFailure(e: JsError): Response {
    if e.code == Some(NotFoundCode) then
      Response(503, Obj([("error", Str(UnavailableMessage)),
                         ("message", Str(UnavailableHint)),
                         ("details", Str(e.message))]))
    else ServerError(e)
  }

  /** The document that creates the collection (line 295). */
  function InitCall(now: Json): Call {
    SetDoc(FeedbackCollection, InitDocId, [("timestamp", now)])
  }

  const FeedbackQuery := QueryOrdered(FeedbackCollection, "uploadedAt", "desc")

  /** The listing handler; `now` is the `new Date()` value stored in the `init` document. */
  function ListingSpec(fs: Firestore, now: Json): Run {
    if !fs.ready then Run(ServerError(NewError(NotInitializedMessage)), [])
    else
      match fs.collections
      case Err(e) => Run(ListingFailure(e), [ListCollections])
      case Ok(ids) =>
        if FeedbackCollection !in ids then
          var calls := [ListCollections, InitCall(now)];
          match fs.initSet
          case Err(e) => Run(ListingFailure(e), calls)
          case Ok(_) => Run(Response(200, Arr([])), calls)
        else
          var calls := [ListCollections, FeedbackQuery];
          match fs.query
          case Err(e) => Run(ListingFailure(e), calls)
          case Ok(docs) => Run(Response(200, Arr(FeedbackEntries(docs))), calls)
  }

  // ------------------------------------------------------------ the handler

  /** `snapshot.forEach(doc => feedback.push({ id: doc.id, ...doc.data() }))` (lines 303-306). */
  method CollectFeedback(docs: seq<Doc>) returns (feedback: seq<Json>)
    ensures |feedback| == |docs|
    ensures forall i :: 0 <= i < |docs| ==> feedback[i] == Obj(WithId(docs[i]))
  {
    feedback := [];
    var i := 0;
    while i < |docs|
      invariant 0 <= i <= |docs|
      invariant |feedback| == i
      invariant forall j :: 0 <= j < i ==> feedback[j] == Obj(WithId(docs[j]))
    {
      feedback := feedback + [Obj(WithId(docs[i]))];
      i := i + 1;
    }
  }

  /** The handler step by step, recording each Firestore call as it is made. */
  method HandleFeedbackList(fs: Firestore, now: Json) returns (response: Response, calls: seq<Call>)
    ensures Run(response, calls) == ListingSpec(fs, now)
  {
    calls := [];
    if !fs.ready {
      return ServerError(NewError(NotInitializedMessage)), calls;
    }
    calls := calls + [ListCollections];
    if fs.collections.Err? {
      return ListingFailure(fs.collections.error), calls;
    }
    var collectionExists := FeedbackCollection in fs.collections.value;
    if !collectionExists {
      calls := calls + [InitCall(now)];
      if fs.initSet.Err? {
        return ListingFailure(fs.initSet.error), calls;
      }
      return Response(200, Arr([])), calls;
    }
    calls := calls + [FeedbackQuery];
    if fs.query.Err? {
      return ListingFailure(fs.query.error), calls;
    }
    var feedback := CollectFeedback(fs.query.value);
    assert feedback == FeedbackEntries(fs.query.value);
    response := Response(200, Arr(feedback));
  }
}
