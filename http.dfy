/** HTTP responses as the handlers send them with `res.status(..).json(..)`. */
module Http {
  import opened JsValues

  datatype Response = Response(status: int, body: Json)

  /**
   * An object literal's last property as `res.json` sends it: JSON.stringify
   * leaves out a property whose value is undefined (None).
   */
  function WithOptional(ps: Props, k: string, v: Option<Json>): Props {
    if v.Some? then ps + [(k, v.value)] else ps
  }

  /**
   * In the body as sent, the optional property reads its value, undefined when
   * left out, and every other property reads as in the literal.
   */
  lemma WithOptionalLookup(ps: Props, k: string, v: Option<Json>)
    requires k !in Keys(ps)
    ensures Lookup(WithOptional(ps, k, v), k) == v
    ensures forall k' :: k' != k ==> Lookup(WithOptional(ps, k, v), k') == Lookup(ps, k')
  {
    if v.Some? {
      LookupAppend(ps, k, v.value);
    }
  }
}
