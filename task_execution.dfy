/**
 * AiTaskExecution: the decoded response of running a task. A call stack of
 * task-call frames (root first), and three independently optional fields: the
 * final result, a success flag and a completion timestamp.
 *
 * The frame type C and the data-object type D belong to AiTaskCall and
 * AiTaskDataObject, which are not part of this model: their decoders and
 * encoder are parameters, so every property below holds for any of them.
 */
module TaskExecution {
  import opened Wrappers
  import opened JsonValues
  import opened Fields

  datatype Execution<C, D> = Execution(
    callstack: seq<C>,
    result: Option<D>,
    success: Option<bool>,
    completionTimestamp: Option<int>)

  /** The constructor called with only a call stack: the three optional fields default to None. */
  function WithCallStack<C, D>(callstack: seq<C>): (e: Execution<C, D>)
    ensures e.callstack == callstack
    ensures e.result.None? && e.success.None? && e.completionTimestamp.None?
  {
    Execution(callstack, None, None, None)
  }

  const CallStackKey := "callStack"
  const ResultKey := "result"
  const SuccessKey := "success"
  const TimestampKey := "completionTimestamp"

  /** The optional key holds a value that fits its shape, or is absent. */
  predicate Fits<T>(doc: map<string, Json>, key: string, shape: Json -> Option<T>) {
    Absent(doc, key) || shape(doc[key]).Some?
  }

  /** from_json: the call stack is required and decoded frame by frame; the other three fields are optional. */
  function FromJson<C, D>(j: Json, decodeCall: Json -> Result<C, DecodeError>, decodeData: Json -> Option<D>)
    : (r: Result<Execution<C, D>, DecodeError>)
    // a missing or non-list callStack fails the whole decode
    ensures j.JObject? && CallStackKey !in j.fields ==> r == Failure(MissingField(CallStackKey))
    ensures j.JObject? && CallStackKey in j.fields && !j.fields[CallStackKey].JArray?
      ==> r == Failure(TypeMismatch(CallStackKey))
    // exactly when it succeeds
    ensures r.Success? <==>
      && j.JObject?
      && CallStackKey in j.fields && j.fields[CallStackKey].JArray?
      && (forall i :: 0 <= i < |j.fields[CallStackKey].items| ==> decodeCall(j.fields[CallStackKey].items[i]).Success?)
      && Fits(j.fields, ResultKey, decodeData)
      && Fits(j.fields, SuccessKey, AsBool)
      && Fits(j.fields, TimestampKey, AsInt)
    // frame i of the call stack is decoded from element i of the input list
    ensures r.Success? ==>
      && |r.value.callstack| == |j.fields[CallStackKey].items|
      && forall i :: 0 <= i < |r.value.callstack| ==>
           decodeCall(j.fields[CallStackKey].items[i]) == Success(r.value.callstack[i])
    // each optional field is None exactly when its own key is absent or null
    ensures r.Success? ==> (r.value.result.None? <==> Absent(j.fields, ResultKey))
    ensures r.Success? && r.value.result.Some? ==> decodeData(j.fields[ResultKey]) == r.value.result
    ensures r.Success? ==> (r.value.success.None? <==> Absent(j.fields, SuccessKey))
    ensures r.Success? && r.value.success.Some? ==> j.fields[SuccessKey] == JBool(r.value.success.value)
    ensures r.Success? ==> (r.value.completionTimestamp.None? <==> Absent(j.fields, TimestampKey))
    ensures r.Success? && r.value.completionTimestamp.Some? ==>
      j.fields[TimestampKey] == JInt(r.value.completionTimestamp.value)
  {
    if !j.JObject? then Failure(NotAnObject)
    else
      var doc := j.fields;
      var items :- Required(doc, CallStackKey, AsList);
      var callstack :- DecodeEach(items, decodeCall);
      var result :- Optional(doc, ResultKey, decodeData);
      var success :- Optional(doc, SuccessKey, AsBool);
      var completionTimestamp :- Optional(doc, TimestampKey, AsInt);
      Success(Execution(callstack, result, success, completionTimestamp))
  }

  /** One entry of the dictionary to_json builds: a JSON value, or a data object placed in it as is. */
  datatype Slot<D> = Plain(json: Json) | Raw(obj: D)

  /** to_json: always the same four keys; unset fields are emitted as null, the result object is not encoded. */
  function ToJson<C, D>(e: Execution<C, D>, encodeCall: C -> Json): (doc: map<string, Slot<D>>)
    ensures doc.Keys == {CallStackKey, ResultKey, SuccessKey, TimestampKey}
    ensures doc[CallStackKey].Plain? && doc[CallStackKey].json.JArray?
    ensures |doc[CallStackKey].json.items| == |e.callstack|
    ensures forall i :: 0 <= i < |e.callstack| ==> doc[CallStackKey].json.items[i] == encodeCall(e.callstack[i])
    ensures doc[ResultKey] == if e.result.Some? then Raw(e.result.value) else Plain(JNull)
    ensures doc[SuccessKey] == Plain(if e.success.Some? then JBool(e.success.value) else JNull)
    ensures doc[TimestampKey] == Plain(if e.completionTimestamp.Some? then JInt(e.completionTimestamp.value) else JNull)
  {
    map[
      CallStackKey := Plain(JArray(EncodeEach(e.callstack, encodeCall))),
      ResultKey := if e.result.Some? then Raw(e.result.value) else Plain(JNull),
      SuccessKey := Plain(if e.success.Some? then JBool(e.success.value) else JNull),
      TimestampKey := Plain(if e.completionTimestamp.Some? then JInt(e.completionTimestamp.value) else JNull)
    ]
  }

  /**
   * to_json after from_json gives back the input's success and completionTimestamp
   * values (null where they were absent) and a call stack of the same length.
   */
  lemma ToJsonAfterFromJson<C, D>(j: Json, decodeCall: Json -> Result<C, DecodeError>,
                                  decodeData: Json -> Option<D>, encodeCall: C -> Json)
    requires FromJson(j, decodeCall, decodeData).Success?
    ensures var doc := ToJson(FromJson(j, decodeCall, decodeData).value, encodeCall);
      && doc[SuccessKey] == Plain(if SuccessKey in j.fields then j.fields[SuccessKey] else JNull)
      && doc[TimestampKey] == Plain(if TimestampKey in j.fields then j.fields[TimestampKey] else JNull)
      && |doc[CallStackKey].json.items| == |j.fields[CallStackKey].items|
  {
  }

  /**
   * Each optional field is decoded on its own: removing its key from a document
   * that decodes changes that field to None and nothing else.
   */
  lemma DroppingOptionalKey<C, D>(j: Json, key: string, decodeCall: Json -> Result<C, DecodeError>,
                                  decodeData: Json -> Option<D>)
    requires key in {ResultKey, SuccessKey, TimestampKey}
    requires FromJson(j, decodeCall, decodeData).Success?
    ensures var e := FromJson(j, decodeCall, decodeData).value;
      FromJson(JObject(j.fields - {key}), decodeCall, decodeData) ==
        Success(if key == ResultKey then e.(result := None)
                else if key == SuccessKey then e.(success := None)
                else e.(completionTimestamp := None))
  {
  }

  /** A document with an empty call stack and success true, and no other key. */
  lemma PartialOptionalDecode<C, D>(decodeCall: Json -> Result<C, DecodeError>, decodeData: Json -> Option<D>)
    ensures FromJson(JObject(map[CallStackKey := JArray([]), SuccessKey := JBool(true)]), decodeCall, decodeData)
      == Success(Execution([], None, Some(true), None))
  {
  }

  /** A document without a call stack fails naming callStack, whatever else it holds. */
  lemma MissingCallStack<C, D>(decodeCall: Json -> Result<C, DecodeError>, decodeData: Json -> Option<D>)
    ensures FromJson(JObject(map[ResultKey := JObject(map[])]), decodeCall, decodeData)
      == Failure(MissingField(CallStackKey))
  {
  }

  /** One frame that does not decode makes the whole decode fail with that frame's error. */
  lemma OneBadFrameFailsAll<C, D>(j: Json, i: nat, decodeCall: Json -> Result<C, DecodeError>,
                                  decodeData: Json -> Option<D>)
    requires j.JObject? && CallStackKey in j.fields && j.fields[CallStackKey].JArray?
    requires i < |j.fields[CallStackKey].items| && decodeCall(j.fields[CallStackKey].items[i]).Failure?
    requires forall k :: 0 <= k < i ==> decodeCall(j.fields[CallStackKey].items[k]).Success?
    ensures FromJson(j, decodeCall, decodeData) == Failure(decodeCall(j.fields[CallStackKey].items[i]).error)
  {
  }

  /** Serialises the to_json dictionary once the raw result object is given an encoding. */
  ghost function Flatten<D>(doc: map<string, Slot<D>>, encodeData: D -> Json): Json {
    JObject(map k | k in doc :: if doc[k].Plain? then doc[k].json else encodeData(doc[k].obj))
  }

  /**
   * A full round trip holds only under conditions on the parts this model does
   * not see: every frame must decode back from its encoding, and the result
   * object must be encoded by the caller, to something other than null, that
   * decodes back to it.
   */
  lemma RoundTripWithEncodedResult<C, D>(e: Execution<C, D>, encodeCall: C -> Json,
                                         decodeCall: Json -> Result<C, DecodeError>,
                                         encodeData: D -> Json, decodeData: Json -> Option<D>)
    requires forall i :: 0 <= i < |e.callstack| ==> decodeCall(encodeCall(e.callstack[i])) == Success(e.callstack[i])
    requires e.result.Some? ==> encodeData(e.result.value) != JNull && decodeData(encodeData(e.result.value)) == e.result
    ensures FromJson(Flatten(ToJson(e, encodeCall), encodeData), decodeCall, decodeData) == Success(e)
  {
    var j := Flatten(ToJson(e, encodeCall), encodeData);
    var calls := EncodeEach(e.callstack, encodeCall);
    var doc := j.fields;
    assert doc[CallStackKey] == JArray(calls);
    assert Required(doc, CallStackKey, AsList) == Success(calls);
    DecodeEachOfEncodings(e.callstack, encodeCall, decodeCall);
    assert Optional(doc, ResultKey, decodeData) == Success(e.result);
    assert Optional(doc, SuccessKey, AsBool) == Success(e.success);
    assert Optional(doc, TimestampKey, AsInt) == Success(e.completionTimestamp);
  }
}
