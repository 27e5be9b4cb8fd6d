/**
 * JavaScript values as the backend and the feedback table handle them:
 * JSON values, plain objects with their properties in insertion order,
 * `undefined` on a property read, and JavaScript truthiness.
 */
module JsValues {

  datatype Option<+T> = None | Some(value: T)

  /** A JSON value: what JSON.parse yields, what Firestore stores and what an HTTP body carries. */
  datatype Json =
    | Null
    | Bool(b: bool)
    | Num(n: real)
    | Str(s: string)
    | Arr(elems: seq<Json>)
    | Obj(props: seq<(string, Json)>)

  /** The own properties of a plain object, in insertion order. */
  type Props = seq<(string, Json)>

  /**
   * A value that is falsy for JavaScript's ToBoolean: undefined (None), null,
   * false, 0 and the empty string. NaN, the remaining falsy number, is not a JSON value.
   */
  predicate Falsy(v: Option<Json>) {
    match v
    case None => true
    case Some(j) => j == Null || j == Bool(false) || j == Num(0.0) || j == Str("")
  }

  /** The property names of an object, in order. */
  function Keys(ps: Props): (ks: seq<string>)
    ensures |ks| == |ps|
    ensures forall i :: 0 <= i < |ps| ==> ks[i] == ps[i].0
  {
    if ps == [] then [] else [ps[0].0] + Keys(ps[1..])
  }

  // ------------------------------------------------------------ array-index names

  predicate IsDigit(c: char) {
    '0' as int <= c as int <= '9' as int
  }

  /** The value of a string of decimal digits, most significant first. */
  function DigitsValue(ds: string): nat
    requires forall i :: 0 <= i < |ds| ==> IsDigit(ds[i])
  {
    if ds == [] then 0
    else
      assert IsDigit(ds[|ds| - 1]);
      DigitsValue(ds[..|ds| - 1]) * 10 + (ds[|ds| - 1] as int - '0' as int)
  }

  /**
   * A name that is an array index: the canonical decimal spelling of an integer
   * below 2^32 - 1. JavaScript lists such names first, in numeric order, before
   * the other names of an object; the model keeps every name in insertion order,
   * which is JavaScript's order for objects without array-index names.
   */
  predicate IsArrayIndex(k: string) {
    && k != []
    && (forall i :: 0 <= i < |k| ==> IsDigit(k[i]))
    && (k[0] != '0' || |k| == 1)
    && DigitsValue(k) < 0xFFFF_FFFF
  }

  /** A name that begins with something other than a digit is not an array index. */
  lemma NonDigitStartIsNoIndex(k: string)
    requires k != [] && !IsDigit(k[0])
    ensures !IsArrayIndex(k)
  {
  }

  /** No property of ps has an array-index name. */
  predicate NoArrayIndexNames(ps: Props) {
    ps == [] || (!IsArrayIndex(ps[0].0) && NoArrayIndexNames(ps[1..]))
  }

  // ------------------------------------------------------------ objects

  /** No two properties share a name, as in every object JavaScript builds. */
  predicate DistinctNames(ps: Props) {
    ps == [] || (ps[0].0 !in Keys(ps[1..]) && DistinctNames(ps[1..]))
  }

  /** `obj[k]` on a plain object: the value of the property named k, or undefined. */
  function Lookup(ps: Props, k: string): (r: Option<Json>)
    ensures r.Some? <==> k in Keys(ps)
    ensures r.Some? ==> (k, r.value) in ps
  {
    if ps == [] then None
    else if ps[0].0 == k then Some(ps[0].1)
    else Lookup(ps[1..], k)
  }

  /** The value read is that of the first property with the name. */
  lemma {:induction false} LookupFirst(ps: Props, i: int, k: string)
    requires 0 <= i < |ps| && ps[i].0 == k
    requires forall j :: 0 <= j < i ==> ps[j].0 != k
    ensures Lookup(ps, k) == Some(ps[i].1)
    decreases i
  {
    if i > 0 {
      LookupFirst(ps[1..], i - 1, k);
    }
  }

  /** A property added at the end is read under its name when the name is new; other names read as before. */
  lemma {:induction false} LookupAppend(ps: Props, k: string, v: Json)
    ensures k !in Keys(ps) ==> Lookup(ps + [(k, v)], k) == Some(v)
    ensures forall k' :: k' != k ==> Lookup(ps + [(k, v)], k') == Lookup(ps, k')
    decreases |ps|
  {
    if ps != [] {
      LookupAppend(ps[1..], k, v);
      assert (ps + [(k, v)])[1..] == ps[1..] + [(k, v)];
      assert Keys(ps) == [ps[0].0] + Keys(ps[1..]);
    }
  }

  /**
   * `obj[k] = v`: an existing property keeps its place and takes the new value,
   * a new property is appended after all the others.
   */
  function SetProp(ps: Props, k: string, v: Json): Props {
    if ps == [] then [(k, v)]
    else if ps[0].0 == k then [(k, v)] + ps[1..]
    else [ps[0]] + SetProp(ps[1..], k, v)
  }

  /** After `obj[k] = v`, reading k gives v and reading any other name gives what it gave before. */
  lemma {:induction false} SetPropLookup(ps: Props, k: string, v: Json)
    ensures Lookup(SetProp(ps, k, v), k) == Some(v)
    ensures forall k' :: k' != k ==> Lookup(SetProp(ps, k, v), k') == Lookup(ps, k')
    decreases |ps|
  {
    var r := SetProp(ps, k, v);
    if ps != [] {
      if ps[0].0 == k {
        assert r[1..] == ps[1..];
      } else {
        SetPropLookup(ps[1..], k, v);
        assert r[1..] == SetProp(ps[1..], k, v);
      }
    }
  }

  /**
   * After `obj[k] = v` the names are the old ones and k; an existing property
   * keeps its place, and a new one whose name is not an array index is appended
   * after all the others.
   */
  lemma {:induction false} SetPropKeys(ps: Props, k: string, v: Json)
    ensures forall k' :: k' in Keys(SetProp(ps, k, v)) <==> k' in Keys(ps) || k' == k
    ensures k in Keys(ps) ==> Keys(SetProp(ps, k, v)) == Keys(ps)
    ensures !IsArrayIndex(k) && k !in Keys(ps) ==> Keys(SetProp(ps, k, v)) == Keys(ps) + [k]
    decreases |ps|
  {
    if ps != [] {
      if ps[0].0 == k {
        assert k in Keys(ps) by { assert Keys(ps)[0] == k; }
      } else {
        SetPropKeys(ps[1..], k, v);
        assert Keys(ps) == [ps[0].0] + Keys(ps[1..]);
        assert k in Keys(ps) <==> k in Keys(ps[1..]);
      }
    }
  }

  /**
   * The own properties a property read can see on a value that is neither null
   * nor undefined: an object's properties; none on a string, number, boolean or array.
   */
  function OwnProps(j: Json): Props {
    if j.Obj? then j.props else []
  }

  /** `j[k]` where j is not null: the own property k, or undefined. */
  function Member(j: Json, k: string): Option<Json> {
    Lookup(OwnProps(j), k)
  }
}
