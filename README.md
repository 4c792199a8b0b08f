# Task lifecycle, task cache and execution decoding of the AI Workflows SDK, in Dafny

This project models two parts of the Python AI Workflows SDK.

1. **The task lifecycle operations and the task cache** (`src/aiworkflows/api/tasks.py`).
   - `create_task` and `update_task` check the task's identity before anything is sent.
   - Past those checks, all six operations (`create_task`, `update_task`, `get_task`, `delete_task`, `list_tasks`, `run_task`) call the transport. The exceptions are `get_task` on a permitted cache hit, and create or update when the task's JSON has no `taskRef`.
   - Create, update, get, list and run decode the reply; delete ignores it.
   - Create, update, list and delete can change the module-level `task_cache` dictionary, which maps a task_ref to the last task seen for it. Get only rebinds a cached entry on a hit, and run never touches the cache.
   - The model is the class `Tasks.TaskCache`. Its `entries: map<string, Task>` field is that dictionary. Each operation is a method on the class.
   - Each method is proved equal to a pure function `...Outcome` of the old cache. That function gives the value returned, the new cache and the requests sent.
   - The ghost field `sent` records every request passed to the transport.
   - The invariant `Valid()` says that every entry is stored under its own task_ref. Every operation preserves it.

2. **The task execution decoder** (`build/lib/aiworkflows/models/ai_task_execution.py`).
   - `Execution` is a record with a call stack and three independently optional fields: `result`, `success` and `completionTimestamp`.
   - `FromJson` requires a `callStack` list and decodes it frame by frame, in order.
   - `ToJson` always emits the same four keys.

Some collaborators are not part of this model. Each is a parameter, so every property holds whatever it does:
- the transport `send_request` is `send: Request -> Reply`, which returns a parsed response or raises;
- `AiTask.to_json` and `AiTask.from_json` form a `TaskCodec`;
- `AiTaskCall.from_json` is `decodeCall`, and `AiTaskCall.to_json` is `encodeCall`;
- `AiTaskDataObject`'s decoder is `decodeData`.

The helpers `parse_required_field` and `parse_optional_field` are also not part of this model. Module `Fields` states the contract their callers rely on.

Modelling decisions worth knowing:
- **Identity guards use Python truthiness.** An id of `Some("")` counts as no id, the same as `None` (`Tasks.Truthy`).
- **`parse_optional_field` is not modelled; reading JSON null as unset is an assumption.** A key holding null gives `None`, the same as a missing key. This is consistent with `to_json` writing null for unset fields.
- **`bind_api` sets the task's `boundApi` field.**
  - `get_task` on a cache hit binds the very object the cache holds.
  - So with `auto_bind_api` the cache entry for that ref changes, but only in its bound handle. The set of keys and every other entry stay the same.
- **`to_json` puts the result object into the dictionary as is, without encoding it.** Its output is therefore a `map<string, Slot<D>>`, where a slot holds either JSON or a raw object.
  - No full round trip is claimed.
  - `RoundTripWithEncodedResult` states the conditions under which one would hold. The result must be encoded by the caller, to something other than null.

Facts about the code that the model keeps:
- `get_task` never writes the cache, even on a miss (`src/aiworkflows/api/tasks.py:98-111`).
- `to_json` puts the result object in raw, without encoding it (`build/lib/aiworkflows/models/ai_task_execution.py:38`), so an execution does not in general round-trip.
- `delete_task` posts to the same address (`/task`) with the same body (`{"Ref": ref}`) as `get_task`. `Tasks.DeleteSendsGetRequest` states this. Only the request description text differs, and that text is not modelled.

## Model

| member | source | states |
|---|---|---|
| Fields.Required | build/lib/aiworkflows/models/ai_task_execution.py:20 | a missing key fails with MissingField, a value of the wrong shape fails with TypeMismatch; it succeeds exactly when the key is present and fits, and then gives the value read from it |
| Fields.Optional | build/lib/aiworkflows/models/ai_task_execution.py:23-25 | an absent or null key gives None and not a default; a present value that does not fit fails with TypeMismatch; it succeeds exactly when the key is absent or fits |
| Fields.DecodeEach | build/lib/aiworkflows/models/ai_task_execution.py:21 | decoding a list succeeds exactly when every element decodes; then the output has the same length and element i comes from input element i; otherwise it fails with the error of the first element that fails |
| Fields.DecodeEachOfEncodings | build/lib/aiworkflows/models/ai_task_execution.py:21-34 | decoding the list of encodings of xs gives xs back when every element round-trips |
| TaskExecution.WithCallStack | build/lib/aiworkflows/models/ai_task_execution.py:7-16 | the constructor given only a call stack stores it and leaves result, success and completion timestamp None |
| TaskExecution.FromJson | build/lib/aiworkflows/models/ai_task_execution.py:18-30 | a missing callStack fails with MissingField and a non-list one with TypeMismatch; decoding succeeds exactly when callStack is a list whose frames all decode and each optional field fits; the call stack keeps length and order; each optional field is None exactly when its own key is absent or null, and otherwise holds the value read from it |
| TaskExecution.ToJson | build/lib/aiworkflows/models/ai_task_execution.py:32-41 | the output has exactly the keys callStack, result, success and completionTimestamp; frames are encoded in order; unset fields are null; the result object is placed raw |
| TaskExecution.ToJsonAfterFromJson | build/lib/aiworkflows/models/ai_task_execution.py:20-41 | to_json after a successful from_json emits the input's success and completionTimestamp values (null where they were absent) and a call stack of the input's length |
| TaskExecution.DroppingOptionalKey | build/lib/aiworkflows/models/ai_task_execution.py:23-30 | removing result, success or completionTimestamp from a document that decodes sets that one field to None and leaves the rest of the decoded execution the same |
| TaskExecution.PartialOptionalDecode | build/lib/aiworkflows/models/ai_task_execution.py:23-30 | `{"callStack": [], "success": true}` decodes to an empty call stack, success true, with result and timestamp None |
| TaskExecution.MissingCallStack | build/lib/aiworkflows/models/ai_task_execution.py:20 | `{"result": {}}` fails with MissingField naming callStack |
| TaskExecution.OneBadFrameFailsAll | build/lib/aiworkflows/models/ai_task_execution.py:21 | if the first frame that fails to decode is frame i, the whole decode fails with frame i's error |
| TaskExecution.RoundTripWithEncodedResult | build/lib/aiworkflows/models/ai_task_execution.py:20-41 | if frames round-trip and the result is encoded by the caller to a value that is not null and decodes back, then from_json of to_json gives the execution back |
| Tasks.RenameRef | src/aiworkflows/api/tasks.py:27-28 | renaming succeeds exactly when taskRef is present; the body then has ref holding taskRef's value, no taskRef, and every other key unchanged |
| Tasks.RefBody | src/aiworkflows/api/tasks.py:100-102 | the get and delete body is exactly `{"Ref": ref}` |
| Tasks.RunBody | src/aiworkflows/api/tasks.py:177-183 | the run body has exactly the keys Ref and Inputs; omitted inputs are sent as an empty mapping and given inputs unchanged |
| Tasks.SubmitOutcome | src/aiworkflows/api/tasks.py:26-40 | no taskRef fails before any request; otherwise exactly one request is sent to the given route with the renamed body; a transport failure is passed through unchanged; a decode failure becomes ParseFailed for this operation; a reply that decodes gives the decoded task (bound if asked), and a success is always such a task; the cache gains or overwrites only that task's ref, and only when caching is on; keys stay equal to refs |
| Tasks.CreateOutcome | src/aiworkflows/api/tasks.py:10-40 | a task with a truthy id fails with AlreadyHasId, sends nothing and leaves the cache unchanged; any other task is submitted to /task/create exactly as SubmitOutcome describes, so a bad reply fails with ParseFailed(Creating) and a reply that decodes gives the decoded task (bound if asked); the cache changes only by the returned task under its ref, after success with caching on |
| Tasks.UpdateOutcome | src/aiworkflows/api/tasks.py:43-76 | no truthy id fails with MissingId, otherwise no truthy tenant id fails with MissingTenantId, in both cases with no request and the cache unchanged; a task with both ids truthy is submitted to /task/update exactly as SubmitOutcome describes, so a bad reply fails with ParseFailed(Updating) and a reply that decodes gives the decoded task (bound if asked); the cache changes as for create |
| Tasks.GetOutcome | src/aiworkflows/api/tasks.py:79-111 | a permitted cache hit returns the cached task (bound if asked), sends nothing and changes at most that entry's binding; a miss or a bypass sends exactly the `{"Ref": ref}` request and never changes the cache; the transport and decode failures are as for create; cache keys never change |
| Tasks.DeleteOutcome | src/aiworkflows/api/tasks.py:114-133 | the request is always sent; a transport failure leaves the cache unchanged; after a reply the ref is removed if asked, and nothing else changes; deleting an absent ref is not an error and changes nothing |
| Tasks.CacheAll | src/aiworkflows/api/tasks.py:155-157 | caching a list of tasks gives exactly the old keys plus the listed refs, and keeps every key equal to its entry's ref |
| Tasks.CacheAllLastWins | src/aiworkflows/api/tasks.py:155-157 | a listed ref ends up holding the task of its last occurrence in the list |
| Tasks.CacheAllKeepsUnlisted | src/aiworkflows/api/tasks.py:155-157 | a ref that is not listed keeps its old entry, or stays absent (no eviction) |
| Tasks.ListOutcome | src/aiworkflows/api/tasks.py:136-161 | exactly one request is sent to /task/list with an empty body; the call fails with ParseFailed exactly when the reply is not a list or an element does not decode, and then caches nothing; on success every decoded task is bound, returned in order and, with caching on, written to the cache in list order |
| Tasks.RunOutcome | src/aiworkflows/api/tasks.py:164-191 | exactly one request is sent to /task/run with the run body; the cache is unchanged; a transport failure passes through; a reply that does not decode as an execution becomes ParseFailed(Running), and otherwise the decoded execution is returned |
| Tasks.RunIgnoresCache | src/aiworkflows/api/tasks.py:164-191 | run gives the same result and sends the same request whatever the cache holds |
| Tasks.CreateThenGetHits | src/aiworkflows/api/tasks.py:92-96 | after a create that succeeded with caching, a get of the returned ref that allows the cache sends nothing and returns that task (rebound if asked) |
| Tasks.UpdateThenGetHits | src/aiworkflows/api/tasks.py:72-73 | the same for update |
| Tasks.DeleteSendsGetRequest | src/aiworkflows/api/tasks.py:125-130 | delete sends the same request as a get that bypasses the cache |
| Tasks.ListDoesNotEvict | src/aiworkflows/api/tasks.py:155-157 | with r1 and r2 cached, a list returning only a new r2 replaces r2 and keeps r1 |
| Tasks.TaskCache.constructor | src/aiworkflows/api/tasks.py:7 | the cache starts empty, with no request sent |
| Tasks.TaskCache.Transmit | src/aiworkflows/api/tasks.py:30 | one call of the transport: its reply is returned and the request is recorded |
| Tasks.TaskCache.Submit | src/aiworkflows/api/tasks.py:26-40 | returns, caches and sends what SubmitOutcome says, and keeps keys equal to refs |
| Tasks.TaskCache.Create | src/aiworkflows/api/tasks.py:10-40 | returns, caches and sends what CreateOutcome says, and keeps keys equal to refs |
| Tasks.TaskCache.Update | src/aiworkflows/api/tasks.py:43-76 | returns, caches and sends what UpdateOutcome says, and keeps keys equal to refs |
| Tasks.TaskCache.Get | src/aiworkflows/api/tasks.py:79-111 | returns, caches and sends what GetOutcome says, and keeps keys equal to refs; a permitted cache hit returns a task whose ref is the one asked for |
| Tasks.TaskCache.Delete | src/aiworkflows/api/tasks.py:114-133 | returns, caches and sends what DeleteOutcome says, and keeps keys equal to refs |
| Tasks.TaskCache.List | src/aiworkflows/api/tasks.py:136-161 | returns, caches and sends what ListOutcome says, and keeps keys equal to refs |
| Tasks.TaskCache.BindEach | src/aiworkflows/api/tasks.py:152-153 | the binding loop gives each task of the list, in order, bound to the handle |
| Tasks.TaskCache.CacheEach | src/aiworkflows/api/tasks.py:155-157 | the caching loop leaves the cache equal to CacheAll of the old cache and the list |
| Tasks.TaskCache.Run | src/aiworkflows/api/tasks.py:164-191 | returns and sends what RunOutcome says and does not change the cache |

## Left out

- The transport (`send_request`, HTTP, the POST method and the request's description text) is the parameter `send`. Only the URL, the API key and the body of each request are modelled.
- The internals of `AiTask.to_json`/`from_json`, `AiTaskCall`, `AiTaskDataObject`, `parse_required_field` and `parse_optional_field` are not part of this model. They are parameters or stated contracts. The shape of a single call frame and its nested sub-calls is therefore not modelled.
- `bind_api` is reduced to recording the handle in `boundApi`. Any other effect of binding is not modelled.
- Python object identity is not modelled beyond the cache. `create_task` returns the object it caches, so a caller who later mutates the returned task would change the cache entry too; in the model these are independent values.
- Fields.AsInt: does not model Python's `bool` being a subclass of `int`, so `true` is not accepted as a timestamp. JSON numbers are integers only; floats are not modelled.
- Tasks.ListOutcome: any reply that is not a JSON list is a decode failure. Python would iterate a dictionary's keys or a string's characters, so an empty dictionary reply would give an empty list there.
- Exceptions raised by `task.to_json()` or by `bind_api` are not modelled. A `taskRef` missing from the task's JSON is modelled: it fails before any request, as `body.pop('taskRef')` does.
- The Python keyword defaults (`auto_bind_api=True`, `cache=True`, `allow_cache=True`, `remove_from_cache=True`) are not modelled as defaults. Each is an explicit flag (`autoBind`, `doCache`, `allowCache`, `removeFromCache`) of the `...Outcome` functions and the `TaskCache` methods, and a call that relies on the default is the case where that flag is `true`.
- Exact error messages, `__repr__` and `__str__` are presentation only.
- Thread safety of the module-level cache is not modelled. Use is assumed single-threaded.
- `src/aiworkflows/cli.py` is not modelled: argument parsing and file-system checks that hand off to a compiler class.
