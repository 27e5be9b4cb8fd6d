/**
 * The calls the handlers make to external services, in the order made. The
 * services themselves are not modelled; each call's result is an input.
 */
module Effects {
  import opened JsValues
  import opened Http

  /** The Firestore collection both handlers use. */
  const FeedbackCollection := "feedback"

  /** A sheet row: each column's value, None where the value is undefined. */
  type Row = seq<(string, Option<Json>)>

  /**
   * One external call. AddSheetRow stands for the whole Google Sheets stage:
   * authentication, loading the spreadsheet and appending the row; it is
   * recorded whichever of the three fails.
   */
  datatype Call =
    | SaveObject(key: string)                                   // bucket.file(key).save(buffer)
    | SignReadUrl(key: string)                                  // file.getSignedUrl({action: 'read', ...})
    | GenerateContent(mimeType: string)                         // model.generateContent([prompt, image])
    | SetDoc(collection: string, docId: string, data: Props)    // db.collection(c).doc(id).set(data)
    | AddSheetRow(row: Row)                                     // the Sheets stage, ending in sheetsByIndex[0].addRow(row)
    | ListCollections                                           // db.listCollections()
    | QueryOrdered(collection: string, field: string, direction: string) // collection(c).orderBy(f, d).get()

  /** What a handler did for one request: the response sent and the external calls made, in order. */
  datatype Run = Run(response: Response, calls: seq<Call>)
}
