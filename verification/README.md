# Laravel–Temporal adapter: invocation cache and payload converter

This project models the two parts of the Laravel adapter for the Temporal SDK that hold real logic.

- **The activity invocation cache** (`ActivityInvocationCache`, file `invocation_cache.dfy`). Tests use it to record workflow starts and to plant mock workflows and canned activity results. The worker consults it before running an activity. It is a key-value store with three key families: `workflow_dispatch::<name>` holds the ordered list of argument tuples, `workflow::<name>` holds a mock handler, and `activity::<name>` holds a result or failure record. Class `Cache` holds the store as a `map<string, Entry>` field. Each source operation is a method that reads or writes that map. Each method is proved against a function of the store (`DispatchLog`, `Recorded`, `WorkflowMock`, `Handles`, `ExecuteIn`), and the lemmas state the properties of those functions: the append order of the log, last write wins, the frame of every write, the exact `canHandle` gate, and the outcome `execute` maps each record to.
- **The payload converter** (`PayloadConverter`, file `payload_converter.dfy`). `ToPayload` picks an encoding by a fixed capability order, and `FromPayload` decodes to a requested type. Both are pure functions, with exceptions modelled as `Result` values. The code the converter calls but does not define is passed in as the `Collaborators` value, so every lemma holds whatever that code does. This covers `json_encode`, `json_decode`, the parent `JsonConverter` and the classes reflection can load. The capability order and the order of reconstruction strategies are each checked against an independent definition, `FirstMatch` over a priority list.

`runtime.dfy` holds `Option`, `Result` and `Throwable`, which both components share.

Modelling choices:
- The cache's constructor takes the storage's current contents. The real store is an external service that may already hold data, including values some other client wrote; the `Foreign` entry stands for those.
- `getWorkflowDispatches` throws in PHP (its `: array` return type) when the value under a dispatch key is not an array. `recordWorkflowDispatch` appends with `$dispatches[] = $args`: PHP turns a stored `null` or `false` into a new array holding just `$args` (entry `NullOrFalse`, function `AppendBase`), and throws for any other scalar or object. Both failures are modelled as `Err(NotAnArray(key))`, and the store is left unchanged. `WellFormed` describes a store written only through this cache. It is preserved by every operation, and under it this error cannot happen and `execute` never reaches its "Invalid cache value" branch for a request `canHandle` accepts.
- `execute` reads `options['name']` without a default. PHP then yields `null` (with a warning), which formats as the empty string, so the key looked up is `activity::`. That is the same key `canHandle` uses with its `''` default. Both are modelled by `ActivityName`.

## Model

| member | source | states |
|---|---|---|
| `ActivityInvocationCache.Cache.constructor` | src/Testing/Internal/RoadRunnerActivityInvocationCache.php:27-31 | the cache starts out holding the selected storage's contents |
| `ActivityInvocationCache.Cache.Clear` | src/Testing/Internal/RoadRunnerActivityInvocationCache.php:33-36 | the store is empty afterwards (so a second clear changes nothing) and is well formed |
| `ActivityInvocationCache.Cache.RecordWorkflowDispatch` | src/Testing/Internal/RoadRunnerActivityInvocationCache.php:43-53 | the log under `workflow_dispatch::name` becomes the old list (empty if absent, null or false) with `args` appended, nothing else changes; on any other non-array value it fails with exactly that key's error and changes nothing; on a well-formed store it cannot fail and keeps it well formed |
| `ActivityInvocationCache.Cache.GetWorkflowDispatches` | src/Testing/Internal/RoadRunnerActivityInvocationCache.php:55-58 | returns the recorded log, the empty list when nothing is recorded, an error for a non-array value |
| `ActivityInvocationCache.Cache.SaveWorkflowMock` | src/Testing/Internal/RoadRunnerActivityInvocationCache.php:60-63 | only `workflow::name` changes, to a closure entry for the handler; well-formedness is kept |
| `ActivityInvocationCache.Cache.GetWorkflowMock` | src/Testing/Internal/RoadRunnerActivityInvocationCache.php:65-74 | returns the stored handler, or None when the value is absent or not a closure |
| `ActivityInvocationCache.Cache.SaveCompletion` | src/Testing/Internal/RoadRunnerActivityInvocationCache.php:76-79 | only `activity::name` changes, to a result record; well-formedness is kept |
| `ActivityInvocationCache.Cache.SaveFailure` | src/Testing/Internal/RoadRunnerActivityInvocationCache.php:81-84 | only `activity::name` changes, to a failure record of the throwable; well-formedness is kept |
| `ActivityInvocationCache.Cache.CanHandle` | src/Testing/Internal/RoadRunnerActivityInvocationCache.php:86-95 | returns exactly the gate `Handles` on the current store |
| `ActivityInvocationCache.Cache.Execute` | src/Testing/Internal/RoadRunnerActivityInvocationCache.php:97-111 | returns exactly the outcome `ExecuteIn` of the current store |
| `ActivityInvocationCache.PrefixedKeys` | src/Testing/Internal/RoadRunnerActivityInvocationCache.php:45-45 | each key built for a name starts with its family's prefix |
| `ActivityInvocationCache.PrefixesExclusive` | src/Testing/Internal/RoadRunnerActivityInvocationCache.php:45-45 | no key carries two of the three prefixes (index 8 tells the workflow families apart, index 0 the activity family) |
| `ActivityInvocationCache.KeyFamiliesDisjoint` | src/Testing/Internal/RoadRunnerActivityInvocationCache.php:62-62 | for all names, dispatch, mock and activity keys never coincide |
| `ActivityInvocationCache.KeysInjective` | src/Testing/Internal/RoadRunnerActivityInvocationCache.php:78-78 | within a family, equal keys mean equal names |
| `ActivityInvocationCache.OwnEntriesFit` | src/Testing/Internal/RoadRunnerActivityInvocationCache.php:83-83 | each write puts under its key the entry kind that key's family calls for |
| `ActivityInvocationCache.RecordAppends` | src/Testing/Internal/RoadRunnerActivityInvocationCache.php:48-52 | one recording appends `args` at the end of the list it started from, which is the log whenever the log is readable; a value that cannot be appended to leaves the store as it was |
| `ActivityInvocationCache.RecordOnNullOrFalse` | src/Testing/Internal/RoadRunnerActivityInvocationCache.php:48-52 | a stored null or false is not a readable log, but recording onto it yields the log `[args]` |
| `ActivityInvocationCache.RecordAllAppendsInOrder` | src/Testing/Internal/RoadRunnerActivityInvocationCache.php:43-53 | recording a sequence of dispatches yields the old log followed by them in call order (recording `[1]` then `[2]` gives `[[1],[2]]`) |
| `ActivityInvocationCache.RecordFrame` | src/Testing/Internal/RoadRunnerActivityInvocationCache.php:45-52 | recording under `n` changes no mock, no activity entry, no `canHandle` or `execute` answer, and no other name's log |
| `ActivityInvocationCache.WellFormedRecordSucceeds` | src/Testing/Internal/RoadRunnerActivityInvocationCache.php:48-50 | in a store written only by this cache neither the log read nor the append can fail |
| `ActivityInvocationCache.RecordPreservesWellFormed` | src/Testing/Internal/RoadRunnerActivityInvocationCache.php:52-52 | recording keeps the store well formed |
| `ActivityInvocationCache.MockLastWriteWins` | src/Testing/Internal/RoadRunnerActivityInvocationCache.php:60-74 | a saved mock is what the next lookup returns, and of two saves the later one wins |
| `ActivityInvocationCache.MockOnlyFromClosure` | src/Testing/Internal/RoadRunnerActivityInvocationCache.php:67-73 | a mock is found exactly when a closure entry is stored under its key, and it is that closure's handler |
| `ActivityInvocationCache.SaveMockFrame` | src/Testing/Internal/RoadRunnerActivityInvocationCache.php:62-62 | saving a mock changes no dispatch log, no activity entry, no `canHandle` or `execute` answer, and no other name's mock |
| `ActivityInvocationCache.SaveActivityFrame` | src/Testing/Internal/RoadRunnerActivityInvocationCache.php:76-84 | saving a completion or failure changes no dispatch log, no mock and no other activity's entry |
| `ActivityInvocationCache.ActivityLastWriteWins` | src/Testing/Internal/RoadRunnerActivityInvocationCache.php:78-83 | completion and failure share one key: a failure saved after a completion makes `execute` reject, a completion saved after a failure makes it resolve |
| `ActivityInvocationCache.FailureOutcomeKeepsError` | src/Testing/Internal/RoadRunnerActivityInvocationCache.php:102-104 | a saved failure makes `execute` reject with a throwable of the original class and message |
| `ActivityInvocationCache.HandlesExactly` | src/Testing/Internal/RoadRunnerActivityInvocationCache.php:88-94 | false for every command but `InvokeActivity`; otherwise true exactly when `activity::<name>` is present; a missing name means `activity::` |
| `ActivityInvocationCache.SavedActivityIsHandled` | src/Testing/Internal/RoadRunnerActivityInvocationCache.php:86-95 | once anything is saved under the activity's key, an `InvokeActivity` request for it is handled |
| `ActivityInvocationCache.HandledRequestUsesRecord` | src/Testing/Internal/RoadRunnerActivityInvocationCache.php:97-111 | in a well-formed store a handled request finds a result or failure record and `execute` resolves or rejects from it |
| `ActivityInvocationCache.OtherEntriesRejected` | src/Testing/Internal/RoadRunnerActivityInvocationCache.php:110-110 | an absent entry or any entry other than a record rejects with "Invalid cache value" |
| `ActivityInvocationCache.ClearedStoreIsEmpty` | src/Testing/Internal/RoadRunnerActivityInvocationCache.php:33-36 | after clear, no request is handled, every log is empty, no mock is registered and `execute` rejects |
| `PayloadConverter.FirstMatch` | src/DataConverter/LaravelPayloadConverter.php:19-42 | the index of the first element of a priority list that matches: every earlier one fails and the one found matches |
| `PayloadConverter.ToPayload` | src/DataConverter/LaravelPayloadConverter.php:19-42 | `toPayload` uses the value's first capability in the order TemporalSerializable, BackedEnum, Jsonable, JsonSerializable, Arrayable, found by `FirstMatch`, and hands a value with none of them to the parent |
| `PayloadConverter.TemporalHookWins` | src/DataConverter/LaravelPayloadConverter.php:21-23 | a TemporalSerializable value is encoded from `toTemporalPayload()`, whatever else it offers |
| `PayloadConverter.BackedEnumEncodesScalar` | src/DataConverter/LaravelPayloadConverter.php:25-27 | a backed enum is encoded as the JSON of its backing scalar |
| `PayloadConverter.JsonableTextUsedAsIs` | src/DataConverter/LaravelPayloadConverter.php:29-31 | a Jsonable value's `toJson()` text becomes the payload as it is, with no `json_encode` |
| `PayloadConverter.OwnEncodingOutcome` | src/DataConverter/LaravelPayloadConverter.php:19-42 | a value with none of the capabilities gets the parent's result; otherwise the payload is JSON-encoded and any error is one `json_encode` raised |
| `PayloadConverter.JsonPayloadOutcome` | src/DataConverter/LaravelPayloadConverter.php:22-22 | when `json_encode(x)` succeeds the result is the JSON payload whose data is exactly the encoder's text; when it fails the result is exactly the encoder's error |
| `PayloadConverter.NonClassGoesToParent` | src/DataConverter/LaravelPayloadConverter.php:46-48 | for a non-class type the result is the parent's and does not depend on JSON decoding or reflection |
| `PayloadConverter.DecodeErrorIsRaised` | src/DataConverter/LaravelPayloadConverter.php:50-54 | a decode failure for a class type raises DataConverterException with the same message and code, carrying the original |
| `PayloadConverter.Reconstruct` | src/DataConverter/LaravelPayloadConverter.php:56-75 | an unknown class throws a reflection error; otherwise reconstruction uses the first of fromTemporalPayload, enum `from`, BaseData `from`, newInstance that the class admits, found by `FirstMatch` (one always applies) |
| `PayloadConverter.ReconstructionOrFallback` | src/DataConverter/LaravelPayloadConverter.php:56-79 | a successful reconstruction is the result; a throwing one, or an unknown class, gives the parent's result instead |
| `PayloadConverter.FromPayload` | src/DataConverter/LaravelPayloadConverter.php:44-80 | every error `fromPayload` raises is, for a class type, the decode error wrapped in DataConverterException, or else the parent converter's own result |
| `PayloadConverter.TemporalRoundTrip` | src/DataConverter/LaravelPayloadConverter.php:19-80 | when the JSON codec and `fromTemporalPayload` invert the encoding, decoding an encoded TemporalSerializable value gives it back |
| `PayloadConverter.BackedEnumRoundTrip` | src/DataConverter/LaravelPayloadConverter.php:19-80 | when the JSON codec inverts the encoding and `from` maps the scalar back, decoding an encoded enum case gives it back |
| `PayloadConverter.JsonableDataRoundTrip` | src/DataConverter/LaravelPayloadConverter.php:19-80 | a data object (Jsonable and BaseData) is encoded as its `toJson()` text, and when that text decodes to what the class's `from` maps back, decoding gives the object back |
| `PayloadConverter.JsonSerializableRoundTrip` | src/DataConverter/LaravelPayloadConverter.php:19-80 | a JsonSerializable object of a plain class is encoded from `jsonSerialize()`, and when the codec inverts it and the constructor rebuilds the object from that data, decoding gives it back |
| `PayloadConverter.ArrayableRoundTrip` | src/DataConverter/LaravelPayloadConverter.php:19-80 | an Arrayable object of a plain class is encoded from `toArray()`, and when the codec inverts it and the constructor rebuilds the object from that data, decoding gives it back |
| `PayloadConverter.ParentRoundTrip` | src/DataConverter/LaravelPayloadConverter.php:19-80 | a value with none of the capabilities is encoded by the parent, and requested as a non-class type it comes back if and only if the parent's decoding gives it back |
| `PayloadConverter.ObjectParentRoundTrip` | src/DataConverter/LaravelPayloadConverter.php:19-80 | an object with none of the capabilities is encoded by the parent, but requested as its own class it is decoded by the constructor from the decoded JSON, and the parent's decoding is used only when the constructor throws |

## Left out

- The RoadRunner RPC connection, the key-value factory and the default host and cache name (`create`): network I/O. The store is an in-memory map.
- ActivityInvocationCache.Cache.RecordWorkflowDispatch: an object implementing ArrayAccess stored under a dispatch key is treated like any other non-array (`Foreign`), so the model fails where PHP's `$dispatches[] = $args` would call the object's `offsetSet` and store the object back; the store is also taken to return a stored `null` as it is rather than the `[]` default. A PHP array under a dispatch key that is not a list of argument tuples (say `[1, 2]`, written by another client) is also `Foreign`: PHP would append to it here and return it from `getWorkflowDispatches`, while the model fails on both.
- Concurrent workers: the read-append-write in `recordWorkflowDispatch` is not atomic against other processes; the model runs operations one at a time.
- Closure serialization: a mock is an opaque `Handler` token, and its invocation is not modelled.
- ActivityInvocationResult and ActivityInvocationFailure are not part of this model. A result record keeps the value; resolving with its values re-encoded through the cache's data converter is `Resolved(value)`. A failure record keeps the throwable's class and message, and the rebuilt throwable has code 0 and no previous throwable.
- The cache's injected data converter: it is used only inside the record classes above.
- React promises: `execute` returns an `Outcome` value.
- JSON text encoding and parsing, `JSON_FLAGS`, the parent `JsonConverter` and PHP reflection: they are parameters (`Collaborators`, `ClassInfo`), and nothing is assumed of them. Exceptions thrown by a value's own `toTemporalPayload`, `toJson`, `jsonSerialize` or `toArray` are not modelled; their results are given in `Capabilities`.
- Reflection's case-insensitive class lookup: classes are found by exact name.
- `toPayload`'s nullable return: the parent converter is modelled as always returning a payload or throwing.
- Route discovery by directory scanning, the faked workflow client and the process-global test worker: framework glue outside both components.
