/**
 * The field decoder that the models use to read a JSON document: a required
 * field, an optional field, and the decoding of every element of a list in
 * order (the list comprehensions of the models' from_json). The helper module
 * that implements parse_required_field and parse_optional_field is not part of
 * this model; these functions state the contract the callers rely on.
 */
module Fields {
  import opened Wrappers
  import opened JsonValues

  /** Shape checks for the primitive types the models ask for. */
  function AsList(j: Json): (r: Option<seq<Json>>)
    ensures r.Some? <==> j.JArray?
    ensures r.Some? ==> j == JArray(r.value)
  {
    if j.JArray? then Some(j.items) else None
  }

  function AsBool(j: Json): (r: Option<bool>)
    ensures r.Some? <==> j.JBool?
    ensures r.Some? ==> j == JBool(r.value)
  {
    if j.JBool? then Some(j.b) else None
  }

  function AsInt(j: Json): (r: Option<int>)
    ensures r.Some? <==> j.JInt?
    ensures r.Some? ==> j == JInt(r.value)
  {
    if j.JInt? then Some(j.n) else None
  }

  /** A key counts as absent for an optional field when it is missing or holds null. */
  predicate Absent(doc: map<string, Json>, key: string) {
    key !in doc || doc[key].JNull?
  }

  /** parse_required_field: a missing key or a value of the wrong shape is an error, never a placeholder. */
  function Required<T>(doc: map<string, Json>, key: string, shape: Json -> Option<T>): (r: Result<T, DecodeError>)
    ensures key !in doc ==> r == Failure(MissingField(key))
    ensures key in doc && shape(doc[key]).None? ==> r == Failure(TypeMismatch(key))
    ensures r.Success? <==> key in doc && shape(doc[key]).Some?
    ensures r.Success? ==> shape(doc[key]) == Some(r.value)
  {
    if key !in doc then Failure(MissingField(key))
    else match shape(doc[key])
      case None => Failure(TypeMismatch(key))
      case Some(v) => Success(v)
  }

  /** parse_optional_field: an absent key gives None rather than a default; a present value must still fit the shape. */
  function Optional<T>(doc: map<string, Json>, key: string, shape: Json -> Option<T>): (r: Result<Option<T>, DecodeError>)
    ensures Absent(doc, key) ==> r == Success(None)
    ensures !Absent(doc, key) && shape(doc[key]).None? ==> r == Failure(TypeMismatch(key))
    ensures r.Success? <==> Absent(doc, key) || shape(doc[key]).Some?
    ensures r.Success? && !Absent(doc, key) ==> r.value == shape(doc[key]) && r.value.Some?
  {
    if Absent(doc, key) then Success(None)
    else match shape(doc[key])
      case None => Failure(TypeMismatch(key))
      case Some(v) => Success(Some(v))
  }

  /**
   * `[decode(x) for x in items]`: every element is decoded in order; the first
   * element that fails makes the whole list fail with that element's error.
   */
  function DecodeEach<T>(items: seq<Json>, decode: Json -> Result<T, DecodeError>): (r: Result<seq<T>, DecodeError>)
    ensures r.Success? <==> forall i :: 0 <= i < |items| ==> decode(items[i]).Success?
    ensures r.Success? ==> |r.value| == |items|
    ensures r.Success? ==> forall i :: 0 <= i < |items| ==> decode(items[i]) == Success(r.value[i])
    ensures r.Failure? ==>
      exists i :: 0 <= i < |items| && decode(items[i]) == Failure(r.error)
        && forall k :: 0 <= k < i ==> decode(items[k]).Success?
  {
    if items == [] then Success([])
    else match decode(items[0])
      case Failure(e) => Failure(e)
      case Success(x) =>
        match DecodeEach(items[1..], decode)
        case Failure(e) =>
          ghost var i :| 0 <= i < |items[1..]| && decode(items[1..][i]) == Failure(e)
            && forall k :: 0 <= k < i ==> decode(items[1..][k]).Success?;
          assert decode(items[i + 1]) == Failure(e);
          Failure(e)
        case Success(xs) => Success([x] + xs)
  }

  /** `[encode(x) for x in xs]`. */
  function EncodeEach<T>(xs: seq<T>, encode: T -> Json): (r: seq<Json>)
    ensures |r| == |xs|
    ensures forall i :: 0 <= i < |xs| ==> r[i] == encode(xs[i])
  {
    seq(|xs|, i requires 0 <= i < |xs| => encode(xs[i]))
  }

  /** Decoding a list whose elements are all encodings that decode back gives those values back. */
  lemma {:induction false} DecodeEachOfEncodings<T>(xs: seq<T>, encode: T -> Json, decode: Json -> Result<T, DecodeError>)
    requires forall i :: 0 <= i < |xs| ==> decode(encode(xs[i])) == Success(xs[i])
    ensures DecodeEach(EncodeEach(xs, encode), decode) == Success(xs)
  {
    var items := EncodeEach(xs, encode);
    var r := DecodeEach(items, decode);
    assert forall i :: 0 <= i < |items| ==> decode(items[i]).Success?;
    assert r.Success?;
    assert forall i :: 0 <= i < |xs| ==> r.value[i] == xs[i];
    assert r.value == xs;
  }
}
