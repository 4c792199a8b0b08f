/**
 * Task lifecycle operations (create, update, get, delete, list, run) and the
 * process-wide task cache that maps a caller-chosen task_ref to the last task
 * object seen for it.
 *
 * Each operation is given twice: a pure function `...Outcome` over the old cache
 * that says what the call returns, what the cache becomes and which requests it
 * sends, and a method of class TaskCache that performs the call step by step on
 * the cache field and is proved to agree with that function. The transport
 * (send_request) is the parameter `send`; AiTask's own JSON encoding and
 * decoding is the parameter `codec`.
 */
module Tasks {
  import opened Wrappers
  import opened JsonValues
  import opened Fields
  import TaskExecution

  const TaskRoute := "/task"

  /** The handle of the service: base address and key. */
  datatype Api = Api(authority: string, apiKey: string)

  /**
   * A task. The definition fields are opaque here; boundApi is the handle that
   * bind_api attached to this object, if any.
   */
  datatype Task = Task(
    taskId: Option<string>,
    tenantId: Option<string>,
    taskRef: string,
    definition: Json,
    boundApi: Option<Api>)

  /** AiTask.to_json and AiTask.from_json. */
  datatype TaskCodec = TaskCodec(
    toJson: Task -> map<string, Json>,
    fromJson: Json -> Result<Task, DecodeError>)

  /** What send_request is given (every call is a POST; the description text is left out). */
  datatype Request = Request(url: string, apiKey: string, body: map<string, Json>)

  /** What send_request does: return a parsed response or raise. */
  datatype Reply = Responded(response: Json) | Raised(reason: string)

  datatype Operation = Creating | Updating | Getting | Listing | Running

  datatype Error =
    | AlreadyHasId                 // create on a task that has an id
    | MissingId                    // update on a task without an id
    | MissingTenantId              // update on a task without a tenant id
    | MissingTaskRef               // the task's JSON has no taskRef to rename
    | TransportError(reason: string)
    | ParseFailed(op: Operation)   // the response did not decode

  /** What one call returns, the cache after it, and the requests it sent (none or one). */
  datatype Outcome<T> = Outcome(result: Result<T, Error>, cache: map<string, Task>, sent: seq<Request>)

  /** Python truthiness of an optional string: present and not empty. */
  predicate Truthy(s: Option<string>) {
    s.Some? && s.value != ""
  }

  function Bind(t: Task, api: Api): Task {
    t.(boundApi := Some(api))
  }

  function BindIf(t: Task, api: Api, autoBind: bool): Task {
    if autoBind then Bind(t, api) else t
  }

  /** Every cache entry is stored under its own task_ref. */
  ghost predicate KeyedByRef(cache: map<string, Task>) {
    forall r | r in cache :: cache[r].taskRef == r
  }

  /** `body['ref'] = body.pop('taskRef')`; the pop fails when there is no taskRef. */
  function RenameRef(body: map<string, Json>): (r: Option<map<string, Json>>)
    ensures r.Some? <==> "taskRef" in body
    ensures r.Some? ==> r.value.Keys == body.Keys - {"taskRef"} + {"ref"}
    ensures r.Some? ==> r.value["ref"] == body["taskRef"]
    ensures r.Some? ==> forall k | k in body && k != "taskRef" && k != "ref" :: r.value[k] == body[k]
  {
    if "taskRef" in body then Some((body - {"taskRef"})["ref" := body["taskRef"]]) else None
  }

  /** The body of get and delete. */
  function RefBody(ref: string): (b: map<string, Json>)
    ensures b.Keys == {"Ref"} && b["Ref"] == JStr(ref)
  {
    map["Ref" := JStr(ref)]
  }

  /** The body of run: omitted inputs are sent as an empty mapping. */
  function RunBody(ref: string, inputs: Option<map<string, Json>>): (b: map<string, Json>)
    ensures b.Keys == {"Ref", "Inputs"} && b["Ref"] == JStr(ref)
    ensures inputs.None? ==> b["Inputs"] == JObject(map[])
    ensures inputs.Some? ==> b["Inputs"] == JObject(inputs.value)
  {
    map["Ref" := JStr(ref), "Inputs" := JObject(inputs.GetOr(map[]))]
  }

  /**
   * The part that create and update share once their guard has passed: send the
   * task's JSON with taskRef renamed to ref, decode the reply, bind, cache.
   */
  function SubmitOutcome(cache: map<string, Task>, api: Api, send: Request -> Reply, codec: TaskCodec,
                         task: Task, path: string, op: Operation, autoBind: bool, doCache: bool)
    : (o: Outcome<Task>)
    ensures |o.sent| <= 1
    ensures o.sent == [] <==> "taskRef" !in codec.toJson(task)
    ensures o.sent == [] ==> o == Outcome(Failure(MissingTaskRef), cache, [])
    ensures o.sent != [] ==>
      o.sent[0] == Request(api.authority + path, api.apiKey, RenameRef(codec.toJson(task)).value)
    ensures o.sent != [] && send(o.sent[0]).Raised? ==>
      o.result == Failure(TransportError(send(o.sent[0]).reason))
    ensures o.sent != [] && send(o.sent[0]).Responded? && codec.fromJson(send(o.sent[0]).response).Failure? ==>
      o.result == Failure(ParseFailed(op))
    ensures o.sent != [] && send(o.sent[0]).Responded? && codec.fromJson(send(o.sent[0]).response).Success? ==>
      o.result == Success(BindIf(codec.fromJson(send(o.sent[0]).response).value, api, autoBind))
    ensures o.result.Success? ==>
      && o.sent != [] && send(o.sent[0]).Responded?
      && codec.fromJson(send(o.sent[0]).response).Success?
      && o.result.value == BindIf(codec.fromJson(send(o.sent[0]).response).value, api, autoBind)
    ensures o.cache == if o.result.Success? && doCache then cache[o.result.value.taskRef := o.result.value] else cache
    ensures KeyedByRef(cache) ==> KeyedByRef(o.cache)
  {
    match RenameRef(codec.toJson(task))
    case None => Outcome(Failure(MissingTaskRef), cache, [])
    case Some(body) =>
      var req := Request(api.authority + path, api.apiKey, body);
      match send(req)
      case Raised(reason) => Outcome(Failure(TransportError(reason)), cache, [req])
      case Responded(response) =>
        match codec.fromJson(response)
        case Failure(_) => Outcome(Failure(ParseFailed(op)), cache, [req])
        case Success(decoded) =>
          var t := BindIf(decoded, api, autoBind);
          Outcome(Success(t), if doCache then cache[t.taskRef := t] else cache, [req])
  }

  /** create_task. */
  function CreateOutcome(cache: map<string, Task>, api: Api, send: Request -> Reply, codec: TaskCodec,
                         task: Task, autoBind: bool, doCache: bool): (o: Outcome<Task>)
    ensures Truthy(task.taskId) ==> o == Outcome(Failure(AlreadyHasId), cache, [])
    ensures !Truthy(task.taskId) ==>
      o == SubmitOutcome(cache, api, send, codec, task, TaskRoute + "/create", Creating, autoBind, doCache)
    ensures o.sent != [] ==> o.sent[0].url == api.authority + TaskRoute + "/create"
    ensures o.cache == if o.result.Success? && doCache then cache[o.result.value.taskRef := o.result.value] else cache
  {
    if Truthy(task.taskId) then Outcome(Failure(AlreadyHasId), cache, [])
    else SubmitOutcome(cache, api, send, codec, task, TaskRoute + "/create", Creating, autoBind, doCache)
  }

  /** update_task: the id is checked before the tenant id. */
  function UpdateOutcome(cache: map<string, Task>, api: Api, send: Request -> Reply, codec: TaskCodec,
                         task: Task, autoBind: bool, doCache: bool): (o: Outcome<Task>)
    ensures !Truthy(task.taskId) ==> o == Outcome(Failure(MissingId), cache, [])
    ensures Truthy(task.taskId) && !Truthy(task.tenantId) ==> o == Outcome(Failure(MissingTenantId), cache, [])
    ensures Truthy(task.taskId) && Truthy(task.tenantId) ==>
      o == SubmitOutcome(cache, api, send, codec, task, TaskRoute + "/update", Updating, autoBind, doCache)
    ensures o.sent != [] ==> o.sent[0].url == api.authority + TaskRoute + "/update"
    ensures o.cache == if o.result.Success? && doCache then cache[o.result.value.taskRef := o.result.value] else cache
  {
    if !Truthy(task.taskId) then Outcome(Failure(MissingId), cache, [])
    else if !Truthy(task.tenantId) then Outcome(Failure(MissingTenantId), cache, [])
    else SubmitOutcome(cache, api, send, codec, task, TaskRoute + "/update", Updating, autoBind, doCache)
  }

  /**
   * get_task. On a permitted cache hit there is no request; binding the handle
   * rebinds the very object the cache holds. Otherwise the request is sent and
   * the decoded task is returned without being cached.
   */
  function GetOutcome(cache: map<string, Task>, api: Api, send: Request -> Reply, codec: TaskCodec,
                      ref: string, autoBind: bool, allowCache: bool): (o: Outcome<Task>)
    ensures allowCache && ref in cache ==>
      && o.sent == []
      && o.result == Success(BindIf(cache[ref], api, autoBind))
      && o.cache == cache[ref := o.result.value]
    ensures !(allowCache && ref in cache) ==>
      && o.sent == [Request(api.authority + TaskRoute, api.apiKey, RefBody(ref))]
      && o.cache == cache
      && (send(o.sent[0]).Raised? ==> o.result == Failure(TransportError(send(o.sent[0]).reason)))
      && (send(o.sent[0]).Responded? ==>
            o.result == match codec.fromJson(send(o.sent[0]).response)
                        case Failure(_) => Failure(ParseFailed(Getting))
                        case Success(t) => Success(BindIf(t, api, autoBind)))
    ensures o.cache.Keys == cache.Keys
    ensures forall r | r in cache && r != ref :: o.cache[r] == cache[r]
    ensures KeyedByRef(cache) ==> KeyedByRef(o.cache)
  {
    if allowCache && ref in cache then
      var t := BindIf(cache[ref], api, autoBind);
      Outcome(Success(t), cache[ref := t], [])
    else
      var req := Request(api.authority + TaskRoute, api.apiKey, RefBody(ref));
      match send(req)
      case Raised(reason) => Outcome(Failure(TransportError(reason)), cache, [req])
      case Responded(response) =>
        match codec.fromJson(response)
        case Failure(_) => Outcome(Failure(ParseFailed(Getting)), cache, [req])
        case Success(t) => Outcome(Success(BindIf(t, api, autoBind)), cache, [req])
  }

  /** delete_task: the request always goes out; only after it returns is the ref evicted, if asked and present. */
  function DeleteOutcome(cache: map<string, Task>, api: Api, send: Request -> Reply,
                         ref: string, removeFromCache: bool): (o: Outcome<()>)
    ensures o.sent == [Request(api.authority + TaskRoute, api.apiKey, RefBody(ref))]
    ensures send(o.sent[0]).Raised? ==>
      o.result == Failure(TransportError(send(o.sent[0]).reason)) && o.cache == cache
    ensures send(o.sent[0]).Responded? ==>
      o.result == Success(()) && o.cache == if removeFromCache then cache - {ref} else cache
    ensures ref !in cache ==> o.cache == cache
    ensures forall r | r in cache && r != ref :: r in o.cache && o.cache[r] == cache[r]
    ensures o.cache.Keys <= cache.Keys
    ensures KeyedByRef(cache) ==> KeyedByRef(o.cache)
  {
    var req := Request(api.authority + TaskRoute, api.apiKey, RefBody(ref));
    match send(req)
    case Raised(reason) => Outcome(Failure(TransportError(reason)), cache, [req])
    case Responded(_) =>
      Outcome(Success(()), if removeFromCache && ref in cache then cache - {ref} else cache, [req])
  }

  /** `for task in tasks: task.bind_api(api)`. */
  function BindAll(ts: seq<Task>, api: Api): (r: seq<Task>)
    ensures |r| == |ts|
    ensures forall i :: 0 <= i < |ts| ==> r[i] == Bind(ts[i], api)
  {
    seq(|ts|, i requires 0 <= i < |ts| => Bind(ts[i], api))
  }

  /** `for task in tasks: task_cache[task.task_ref] = task`, in list order. */
  function CacheAll(cache: map<string, Task>, ts: seq<Task>): (r: map<string, Task>)
    ensures r.Keys == cache.Keys + set t | t in ts :: t.taskRef
    ensures KeyedByRef(cache) ==> KeyedByRef(r)
    decreases |ts|
  {
    if ts == [] then cache
    else
      var last := ts[|ts| - 1];
      var r := CacheAll(cache, ts[..|ts| - 1]);
      assert ts == ts[..|ts| - 1] + [last];
      r[last.taskRef := last]
  }

  /** A listed ref ends up holding the task of its last occurrence in the list. */
  lemma {:induction false} CacheAllLastWins(cache: map<string, Task>, ts: seq<Task>, i: nat)
    requires i < |ts|
    requires forall j :: i < j < |ts| ==> ts[j].taskRef != ts[i].taskRef
    ensures ts[i].taskRef in CacheAll(cache, ts) && CacheAll(cache, ts)[ts[i].taskRef] == ts[i]
  {
    if i < |ts| - 1 {
      CacheAllLastWins(cache, ts[..|ts| - 1], i);
    }
  }

  /** A ref that is not listed keeps its old entry, or stays absent: listing never evicts. */
  lemma {:induction false} CacheAllKeepsUnlisted(cache: map<string, Task>, ts: seq<Task>, k: string)
    requires forall j :: 0 <= j < |ts| ==> ts[j].taskRef != k
    ensures k in CacheAll(cache, ts) <==> k in cache
    ensures k in cache ==> CacheAll(cache, ts)[k] == cache[k]
  {
    if ts != [] {
      CacheAllKeepsUnlisted(cache, ts[..|ts| - 1], k);
    }
  }

  /**
   * list_tasks: the cache is never consulted; a reply that is not a list, or any
   * element that does not decode, fails the call and caches nothing; otherwise
   * every element is bound and, if asked, cached.
   */
  function ListOutcome(cache: map<string, Task>, api: Api, send: Request -> Reply, codec: TaskCodec,
                       doCache: bool): (o: Outcome<seq<Task>>)
    ensures o.sent == [Request(api.authority + TaskRoute + "/list", api.apiKey, map[])]
    ensures o.result.Failure? ==> o.cache == cache
    ensures send(o.sent[0]).Raised? ==> o.result == Failure(TransportError(send(o.sent[0]).reason))
    ensures send(o.sent[0]).Responded? ==>
      var response := send(o.sent[0]).response;
      (o.result.Failure? <==> !response.JArray? || DecodeEach(response.items, codec.fromJson).Failure?)
      && (o.result.Failure? ==> o.result == Failure(ParseFailed(Listing)))
    ensures o.result.Success? ==>
      var response := send(o.sent[0]).response;
      && response.JArray?
      && DecodeEach(response.items, codec.fromJson).Success?
      && o.result.value == BindAll(DecodeEach(response.items, codec.fromJson).value, api)
      && o.cache == if doCache then CacheAll(cache, o.result.value) else cache
    ensures KeyedByRef(cache) ==> KeyedByRef(o.cache)
  {
    var req := Request(api.authority + TaskRoute + "/list", api.apiKey, map[]);
    match send(req)
    case Raised(reason) => Outcome(Failure(TransportError(reason)), cache, [req])
    case Responded(response) =>
      if !response.JArray? then Outcome(Failure(ParseFailed(Listing)), cache, [req])
      else match DecodeEach(response.items, codec.fromJson)
        case Failure(_) => Outcome(Failure(ParseFailed(Listing)), cache, [req])
        case Success(ts) =>
          var bound := BindAll(ts, api);
          Outcome(Success(bound), if doCache then CacheAll(cache, bound) else cache, [req])
  }

  /** run_task: decodes an execution and never touches the cache. */
  function RunOutcome<C, D>(cache: map<string, Task>, api: Api, send: Request -> Reply,
                            decodeCall: Json -> Result<C, DecodeError>, decodeData: Json -> Option<D>,
                            ref: string, inputs: Option<map<string, Json>>)
    : (o: Outcome<TaskExecution.Execution<C, D>>)
    ensures o.sent == [Request(api.authority + TaskRoute + "/run", api.apiKey, RunBody(ref, inputs))]
    ensures o.cache == cache
    ensures send(o.sent[0]).Raised? ==> o.result == Failure(TransportError(send(o.sent[0]).reason))
    ensures send(o.sent[0]).Responded? ==>
      o.result == match TaskExecution.FromJson(send(o.sent[0]).response, decodeCall, decodeData)
                  case Failure(_) => Failure(ParseFailed(Running))
                  case Success(e) => Success(e)
  {
    var req := Request(api.authority + TaskRoute + "/run", api.apiKey, RunBody(ref, inputs));
    match send(req)
    case Raised(reason) => Outcome(Failure(TransportError(reason)), cache, [req])
    case Responded(response) =>
      match TaskExecution.FromJson(response, decodeCall, decodeData)
      case Failure(_) => Outcome(Failure(ParseFailed(Running)), cache, [req])
      case Success(e) => Outcome(Success(e), cache, [req])
  }

  /**
   * Write-through: after a create that succeeded with caching, a get of the
   * returned ref that allows the cache answers from it, with no request.
   */
  lemma CreateThenGetHits(cache: map<string, Task>, api: Api, send: Request -> Reply, codec: TaskCodec,
                          task: Task, autoBind: bool, api': Api, send': Request -> Reply, autoBind': bool)
    requires CreateOutcome(cache, api, send, codec, task, autoBind, true).result.Success?
    ensures var o := CreateOutcome(cache, api, send, codec, task, autoBind, true);
      var t := o.result.value;
      var g := GetOutcome(o.cache, api', send', codec, t.taskRef, autoBind', true);
      g.sent == [] && g.result == Success(BindIf(t, api', autoBind'))
  {
  }

  /** The same for update. */
  lemma UpdateThenGetHits(cache: map<string, Task>, api: Api, send: Request -> Reply, codec: TaskCodec,
                          task: Task, autoBind: bool, api': Api, send': Request -> Reply, autoBind': bool)
    requires UpdateOutcome(cache, api, send, codec, task, autoBind, true).result.Success?
    ensures var o := UpdateOutcome(cache, api, send, codec, task, autoBind, true);
      var t := o.result.value;
      var g := GetOutcome(o.cache, api', send', codec, t.taskRef, autoBind', true);
      g.sent == [] && g.result == Success(BindIf(t, api', autoBind'))
  {
  }

  /** delete_task posts to the same address, with the same body, as a get that bypasses the cache. */
  lemma DeleteSendsGetRequest(cache: map<string, Task>, api: Api, send: Request -> Reply, codec: TaskCodec,
                              ref: string, removeFromCache: bool, autoBind: bool)
    ensures DeleteOutcome(cache, api, send, ref, removeFromCache).sent
         == GetOutcome(cache, api, send, codec, ref, autoBind, false).sent
  {
  }

  /** run_task neither reads nor writes the cache: two caches give the same reply and the same requests. */
  lemma RunIgnoresCache<C, D>(c1: map<string, Task>, c2: map<string, Task>, api: Api, send: Request -> Reply,
                              decodeCall: Json -> Result<C, DecodeError>, decodeData: Json -> Option<D>,
                              ref: string, inputs: Option<map<string, Json>>)
    ensures RunOutcome(c1, api, send, decodeCall, decodeData, ref, inputs).result
         == RunOutcome(c2, api, send, decodeCall, decodeData, ref, inputs).result
    ensures RunOutcome(c1, api, send, decodeCall, decodeData, ref, inputs).sent
         == RunOutcome(c2, api, send, decodeCall, decodeData, ref, inputs).sent
  {
  }

  /** A list that returns a new version of one cached task replaces that entry and keeps the other one. */
  lemma ListDoesNotEvict(api: Api, send: Request -> Reply, codec: TaskCodec, t1: Task, t2: Task, j: Json)
    requires t1.taskRef == "r1" && t2.taskRef == "r2"
    requires send(Request(api.authority + TaskRoute + "/list", api.apiKey, map[])) == Responded(JArray([j]))
    requires codec.fromJson(j).Success? && codec.fromJson(j).value.taskRef == "r2"
    ensures ListOutcome(map["r1" := t1, "r2" := t2], api, send, codec, true).cache
         == map["r1" := t1, "r2" := Bind(codec.fromJson(j).value, api)]
  {
    var ts := [codec.fromJson(j).value];
    var d := DecodeEach([j], codec.fromJson);
    assert [j][0] == j;
    assert d.Success? && |d.value| == 1 && d.value[0] == ts[0];
    assert d.value == ts;
    assert CacheAll(map["r1" := t1, "r2" := t2], BindAll(ts, api)) == map["r1" := t1, "r2" := Bind(ts[0], api)] by {
      var bound := BindAll(ts, api);
      assert bound[..0] == [];
    }
  }

  /** The module-level task_cache dictionary, with a record of the requests sent so far. */
  class TaskCache {
    var entries: map<string, Task>
    ghost var sent: seq<Request>

    ghost predicate Valid()
      reads this
    {
      KeyedByRef(entries)
    }

    constructor ()
      ensures Valid() && entries == map[] && sent == []
    {
      entries := map[];
      sent := [];
    }

    /** One call of send_request. */
    method Transmit(send: Request -> Reply, req: Request) returns (reply: Reply)
      modifies this`sent
      ensures reply == send(req) && sent == old(sent) + [req]
    {
      sent := sent + [req];
      reply := send(req);
    }

    method Submit(api: Api, send: Request -> Reply, codec: TaskCodec, task: Task, path: string,
                  op: Operation, autoBind: bool, doCache: bool) returns (r: Result<Task, Error>)
      requires Valid()
      modifies this
      ensures Valid()
      ensures var o := SubmitOutcome(old(entries), api, send, codec, task, path, op, autoBind, doCache);
        r == o.result && entries == o.cache && sent == old(sent) + o.sent
    {
      var renamed := RenameRef(codec.toJson(task));
      if renamed.None? {
        return Failure(MissingTaskRef);
      }
      var reply := Transmit(send, Request(api.authority + path, api.apiKey, renamed.value));
      if reply.Raised? {
        return Failure(TransportError(reply.reason));
      }
      var decoded := codec.fromJson(reply.response);
      if decoded.Failure? {
        return Failure(ParseFailed(op));
      }
      var t := decoded.value;
      if autoBind {
        t := Bind(t, api);
      }
      if doCache {
        entries := entries[t.taskRef := t];
      }
      return Success(t);
    }

    method Create(api: Api, send: Request -> Reply, codec: TaskCodec, task: Task,
                  autoBind: bool, doCache: bool) returns (r: Result<Task, Error>)
      requires Valid()
      modifies this
      ensures Valid()
      ensures var o := CreateOutcome(old(entries), api, send, codec, task, autoBind, doCache);
        r == o.result && entries == o.cache && sent == old(sent) + o.sent
    {
      if Truthy(task.taskId) {
        return Failure(AlreadyHasId);
      }
      r := Submit(api, send, codec, task, TaskRoute + "/create", Creating, autoBind, doCache);
    }

    method Update(api: Api, send: Request -> Reply, codec: TaskCodec, task: Task,
                  autoBind: bool, doCache: bool) returns (r: Result<Task, Error>)
      requires Valid()
      modifies this
      ensures Valid()
      ensures var o := UpdateOutcome(old(entries), api, send, codec, task, autoBind, doCache);
        r == o.result && entries == o.cache && sent == old(sent) + o.sent
    {
      if !Truthy(task.taskId) {
        return Failure(MissingId);
      }
      if !Truthy(task.tenantId) {
        return Failure(MissingTenantId);
      }
      r := Submit(api, send, codec, task, TaskRoute + "/update", Updating, autoBind, doCache);
    }

    method Get(api: Api, send: Request -> Reply, codec: TaskCodec, ref: string,
               autoBind: bool, allowCache: bool) returns (r: Result<Task, Error>)
      requires Valid()
      modifies this
      ensures Valid()
      ensures var o := GetOutcome(old(entries), api, send, codec, ref, autoBind, allowCache);
        r == o.result && entries == o.cache && sent == old(sent) + o.sent
      ensures allowCache && ref in old(entries) && r.Success? ==> r.value.taskRef == ref
    {
      if allowCache && ref in entries {
        var t := entries[ref];
        if autoBind {
          // bind_api changes the object the cache holds
          t := Bind(t, api);
          entries := entries[ref := t];
        }
        return Success(t);
      }
      var reply := Transmit(send, Request(api.authority + TaskRoute, api.apiKey, RefBody(ref)));
      if reply.Raised? {
        return Failure(TransportError(reply.reason));
      }
      var decoded := codec.fromJson(reply.response);
      if decoded.Failure? {
        return Failure(ParseFailed(Getting));
      }
      var t := decoded.value;
      if autoBind {
        t := Bind(t, api);
      }
      return Success(t);
    }

    method Delete(api: Api, send: Request -> Reply, ref: string, removeFromCache: bool)
      returns (r: Result<(), Error>)
      requires Valid()
      modifies this
      ensures Valid()
      ensures var o := DeleteOutcome(old(entries), api, send, ref, removeFromCache);
        r == o.result && entries == o.cache && sent == old(sent) + o.sent
    {
      var reply := Transmit(send, Request(api.authority + TaskRoute, api.apiKey, RefBody(ref)));
      if reply.Raised? {
        return Failure(TransportError(reply.reason));
      }
      if removeFromCache && ref in entries {
        entries := entries - {ref};
      }
      return Success(());
    }

    method List(api: Api, send: Request -> Reply, codec: TaskCodec, doCache: bool)
      returns (r: Result<seq<Task>, Error>)
      requires Valid()
      modifies this
      ensures Valid()
      ensures var o := ListOutcome(old(entries), api, send, codec, doCache);
        r == o.result && entries == o.cache && sent == old(sent) + o.sent
    {
      var reply := Transmit(send, Request(api.authority + TaskRoute + "/list", api.apiKey, map[]));
      if reply.Raised? {
        return Failure(TransportError(reply.reason));
      }
      if !reply.response.JArray? {
        return Failure(ParseFailed(Listing));
      }
      var decoded := DecodeEach(reply.response.items, codec.fromJson);
      if decoded.Failure? {
        return Failure(ParseFailed(Listing));
      }
      var tasks := BindEach(decoded.value, api);
      if doCache {
        CacheEach(tasks);
      }
      return Success(tasks);
    }

    /** `for task in tasks: task.bind_api(api)`, one element at a time. */
    static method BindEach(ts: seq<Task>, api: Api) returns (tasks: seq<Task>)
      ensures tasks == BindAll(ts, api)
    {
      tasks := ts;
      var i := 0;
      while i < |tasks|
        invariant 0 <= i <= |tasks| == |ts|
        invariant forall k :: 0 <= k < i ==> tasks[k] == Bind(ts[k], api)
        invariant forall k :: i <= k < |tasks| ==> tasks[k] == ts[k]
      {
        tasks := tasks[i := Bind(tasks[i], api)];
        i := i + 1;
      }
    }

    /** `for task in tasks: task_cache[task.task_ref] = task`. */
    method CacheEach(tasks: seq<Task>)
      modifies this`entries
      ensures entries == CacheAll(old(entries), tasks)
    {
      var j := 0;
      while j < |tasks|
        invariant 0 <= j <= |tasks|
        invariant entries == CacheAll(old(entries), tasks[..j])
      {
        assert tasks[..j + 1][..j] == tasks[..j];
        entries := entries[tasks[j].taskRef := tasks[j]];
        j := j + 1;
      }
      assert tasks[..|tasks|] == tasks;
    }

    method Run<C, D>(api: Api, send: Request -> Reply, decodeCall: Json -> Result<C, DecodeError>,
                     decodeData: Json -> Option<D>, ref: string, inputs: Option<map<string, Json>>)
      returns (r: Result<TaskExecution.Execution<C, D>, Error>)
      modifies this`sent
      ensures var o := RunOutcome(old(entries), api, send, decodeCall, decodeData, ref, inputs);
        r == o.result && entries == o.cache && sent == old(sent) + o.sent
    {
      var reply := Transmit(send, Request(api.authority + TaskRoute + "/run", api.apiKey, RunBody(ref, inputs)));
      if reply.Raised? {
        return Failure(TransportError(reply.reason));
      }
      var decoded := TaskExecution.FromJson(reply.response, decodeCall, decodeData);
      if decoded.Failure? {
        return Failure(ParseFailed(Running));
      }
      return Success(decoded.value);
    }
  }
}
