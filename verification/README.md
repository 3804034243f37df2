# Jetway core, modelled in Dafny

Jetway is a small Swift networking library. It has five parts:

- a single-assignment `Promise` with callbacks delivered on execution contexts and a global
  fallback hook for rejections nobody handled;
- a passthrough `DataEncoder`/`DataDecoder` pair that turns one single-value-encoded value
  into raw `Data` and back;
- `Endpoint`, which joins an API's base URL with a path;
- the `call` pipeline, which builds and configures a `URLRequest`, sends it, and resolves a
  promise from the response, with `ServerError` for HTTP failures;
- `RequestCredentialsStore`, a registry of credentials provider blocks keyed by the name of
  the credentials type they vend.

The model has six modules, one per part plus shared wrappers:

- `wrappers.dfy` (`Wrappers`): `Option`, `Result`, and `ClientError`, an error thrown by
  client code, known by its identity.
- `promise.dfy` (`Promises`): promise states, callback records, `InvalidatableQueue`, the
  `Promise` class with its drain, and the outcomes of the combinators.
- `data_coding.dfy` (`DataCoding`): byte layouts, UTF-8, the encoder class and its
  containers, the decoder.
- `endpoint.dfy` (`Endpoints`): slash trimming and the endpoint URL.
- `credentials.dfy` (`Credentials`): the provider store and the two kinds of provider.
- `endpoint_call.dfy` (`EndpointCalls`): `ServerError`, request setup, `call`, and the
  completion handler.

How the model stands in for the runtime:

- The promise's private lock queue is modelled as sequential, immediate steps.
- A dispatch queue is the FIFO log of the jobs posted to it. A job names the handler that
  would run and the value or error it would receive; the model never runs it.
- A closure supplied by the caller is known by a number.
- What a combinator's child promise ends up holding is stated by pure "outcome" functions
  over the parent's state.
- Foundation services the code calls become parameters:
  - `parses`, for `URL(string:)`;
  - `reasonIn`, for the JSON parse of an error body;
  - `configureRequest` and `configureTyped`, for client configuration closures;
  - `describe`, for string interpolation of a status code.
  - `Complete` takes the transport's completion inputs as a `Completion` value.

### Where the model follows the code rather than the documented intent

- **The fallback hook can fire more than once.**
  - The hook is meant to report an unhandled rejection at most once.
  - In the code, every drain of a rejected promise reports when none of the records it drains
    is a catch, and every `then` on a resolved promise triggers a drain.
  - `Promises.RejectionReportedOnEveryDrain` shows two reports for two handler-less `then`s
    on one rejected promise.
- **A setup failure is reported before a catch can be attached.**
  - When the URL is malformed or the request configuration or credentials throw, `call`
    rejects the promise before returning it.
  - So the drain runs with no records, and the hook reports the rejection even if the caller
    goes on to attach a `catch`.
  - `EndpointCalls.Call` states this.
- **`additionalRequestConfiguring` runs only for calls with a request value.** `call(with:)`
  applies it as the last step of its request configuration (`configure(_:with:)`). The
  `call()` overloads skip it. In the model it is part of whatever `configureRequest` does.
- **Store lookups use the type's bare name.**
  - `RequestCredentialsStore` keys providers by `String(describing:)` of the type.
  - So two types with the same name share a registration, and a lookup can then fail with
    `unacceptableValue`.
  - `Credentials.UnacceptableOnlyOnNameClash` states that this is the only way it fails.
- **`valueNotFound` names the request type.** When the response has no body, the
  `DecodingError.valueNotFound` the promise is rejected with carries `RequestType.self`, where
  the response type is evidently meant. The model keeps only the error's description
  (`ValueNotFound` in `EndpointCalls.Decide`), so the type it names plays no part.
- **The two coding error enums are merged.** `DataEncoder.Error` and `DataDecoder.Error` have
  the same two cases and are one datatype, `CodingError`.

## Model

| member | source | states |
|---|---|---|
| Promises.State.Value | Jetway/Promise.swift:102-107 | present exactly when fulfilled, and then it is the fulfilled value |
| Promises.State.Error | Jetway/Promise.swift:109-114 | present exactly when rejected, and then it is the rejection error |
| Promises.ExactlyOneStateTest | Jetway/Promise.swift:78-100 | pending iff neither fulfilled nor rejected; never both fulfilled and rejected |
| Promises.Settle | Jetway/Promise.swift:270-276 | a resolved state never moves; a pending one takes the attempted state |
| Promises.SettleAll | Jetway/Promise.swift:270-276 | after a run of fulfill/reject attempts the state is the initial one or one of the attempts |
| Promises.ResolvedStateIsFinal | Jetway/Promise.swift:270-276 | a resolved state stays the same through any sequence of fulfill/reject attempts |
| Promises.FirstResolutionWins | Jetway/Promise.swift:270-276 | starting from pending, the first resolution is the final state whatever follows |
| Promises.DispatchQueue.Execute | Jetway/Promise.swift:17-21 | the work is appended to the queue's FIFO log |
| Promises.InvalidatableQueue.constructor | Jetway/Promise.swift:29-31 | a new wrapper is valid and wraps the given queue |
| Promises.InvalidatableQueue.Invalidate | Jetway/Promise.swift:33-35 | the wrapper becomes invalid |
| Promises.InvalidatableQueue.Execute | Jetway/Promise.swift:37-40 | work reaches the wrapped queue exactly when the wrapper is valid |
| Promises.Forwarded | Jetway/Promise.swift:23-42 | what a wrapper forwards for a run of calls: at most one job per call, each of them a submitted one |
| Promises.InvalidatedForwardsNothing | Jetway/Promise.swift:23-42 | an invalidated wrapper forwards nothing, whatever is submitted |
| Promises.InvalidationIsPermanent | Jetway/Promise.swift:33-40 | calls after an invalidate add nothing to what was forwarded before it |
| Promises.ValidForwardsInOrder | Jetway/Promise.swift:37-40 | while valid, every submitted job is forwarded once, in submission order |
| Promises.Execute | Jetway/Promise.swift:13-21 | the target queue's log grows by the work exactly when the context accepts it |
| Promises.JobState | Jetway/Promise.swift:50-60 | the resolved state a job carries; fulfilled exactly for a fulfil job |
| Promises.Callback.JobFor | Jetway/Promise.swift:50-60 | a fulfilled state runs the fulfill handler with the value; a rejected state runs the reject handler with the error; the job carries the state back |
| Promises.MakeCallback | Jetway/Promise.swift:278-287 | missing handlers become no-ops; the record is a catch exactly when a rejection handler was given |
| Promises.Deliveries | Jetway/Promise.swift:296-306 | the jobs a drain posts to one queue, in order (the specification Deliver meets; its properties are the lemmas below) |
| Promises.DeliveriesAtMostOnceWithState | Jetway/Promise.swift:296-306 | a drain posts at most one job per record, and every job carries the resolved value or error |
| Promises.DeliveriesOfOne | Jetway/Promise.swift:278-291 | draining one record posts its job to its own queue if the context accepts it, and nothing to any other queue |
| Promises.DeliveredOnceInOrder | Jetway/Promise.swift:297-307 | with one plain queue, the drain posts exactly one job per record, in registration order, carrying the value or error |
| Promises.InvalidatedContextsReceiveNothing | Jetway/Promise.swift:297-307 | records whose invalidatable context was invalidated post nothing |
| Promises.Deliver | Jetway/Promise.swift:297-307 | every target queue's log grows by exactly the jobs of the records that target it and accept work, in order |
| Promises.FallbackReport | Jetway/Promise.swift:309-313 | a report exists iff the state is rejected and no drained record is a catch; it carries the purpose and the error |
| Promises.CatchSilencesFallback | Jetway/Promise.swift:309-313 | a drained record registered with a rejection handler silences the hook |
| Promises.FallbackCatchBlock.Call | Jetway/Promise.swift:130-136 | the hook records the report when installed, and nothing otherwise |
| Promises.Promise.constructor | Jetway/Promise.swift:145-148 | a new promise is pending, with no callbacks and the given purpose |
| Promises.Promise.WithValue | Jetway/Promise.swift:150-153 | the promise starts fulfilled, with purpose "Fulfilled Promise (value)" |
| Promises.Promise.WithError | Jetway/Promise.swift:155-158 | the promise starts rejected, with purpose "Rejected Promise (error)" |
| Promises.Promise.Value | Jetway/Promise.swift:258-262 | present exactly when the promise is fulfilled, and then it is its value |
| Promises.Promise.Error | Jetway/Promise.swift:264-268 | present exactly when the promise is rejected, and then it is its error |
| Promises.Promise.IsFulfilled | Jetway/Promise.swift:250-252 | true exactly when the state is fulfilled |
| Promises.Promise.IsRejected | Jetway/Promise.swift:254-256 | true exactly when the state is rejected |
| Promises.Promise.IsPending | Jetway/Promise.swift:246-248 | derived from the two accessors, it is true exactly when the state is pending |
| Promises.Promise.FireCallbacksIfCompleted | Jetway/Promise.swift:293-317 | pending: nothing changes; resolved: every stored record is delivered to its context in order, the hook gets the fallback report, and the list is emptied |
| Promises.Promise.UpdateState | Jetway/Promise.swift:270-276 | only a pending promise moves, to the new state, and then drains; a resolved promise keeps its state, records and hook calls |
| Promises.Promise.Fulfill | Jetway/Promise.swift:242-244 | the first resolution wins; a fulfilment drains the records and never reports to the hook |
| Promises.Promise.Reject | Jetway/Promise.swift:238-240 | the first resolution wins; a rejection drains the records and reports to the hook unless a catch was drained |
| Promises.Promise.AddCallbacks | Jetway/Promise.swift:278-291 | pending: the record is appended and nothing is posted; resolved: the record's job is posted at once, the hook reports unless it is a catch, and the list stays empty |
| Promises.Promise.Then | Jetway/Promise.swift:201-205 | registers both optional client handlers as in AddCallbacks and returns the same promise; while pending nothing is posted to any queue |
| Promises.Promise.Catch | Jetway/Promise.swift:207-210 | registers a catch record with a no-op fulfil handler; the hook is never called; while pending nothing is posted to any queue |
| Promises.Promise.FlatMap | Jetway/Promise.swift:171-187 | returns a fresh pending child named "Child of purpose"; registers a catch record that forwards both outcomes; never reports; while pending nothing is posted to any queue |
| Promises.Promise.Map | Jetway/Promise.swift:189-199 | the same registration and child as FlatMap, with nothing posted while pending |
| Promises.Promise.And | Jetway/Promise.swift:212-223 | returns a fresh pending "Child (and) of purpose" promise; registers the forwarding record; never reports; while pending nothing is posted to the parent's queues |
| Promises.Promise.Transform | Jetway/Promise.swift:225-236 | returns a fresh pending "Child (transform) of purpose" promise; registers the forwarding record; never reports; while pending nothing is posted to the parent's queues |
| Promises.RejectionReportedOnEveryDrain | Jetway/Promise.swift:278-317 | two handler-less thens on a rejected promise give two identical fallback reports |
| Promises.ClientHandler | Jetway/Promise.swift:201-205 | a handler is stored exactly when the client gave a closure |
| Promises.ForwardingCallback | Jetway/Promise.swift:171-187 | the record a combinator registers is a catch on the given context, both of whose handlers forward to the child |
| Promises.ForwardingJobCarriesState | Jetway/Promise.swift:175-185 | the job a combinator's record posts for a resolved parent is a forwarding job carrying the parent's state |
| Promises.FlatMapOutcome | Jetway/Promise.swift:171-187 | the child: rejected with the parent's error, or with the closure's thrown error, or ends as the returned promise ends; pending while the parent is pending |
| Promises.MapOutcome | Jetway/Promise.swift:189-199 | the child is fulfilled with the mapped value, or rejected with the parent's or the closure's error |
| Promises.MapComposes | Jetway/Promise.swift:189-199 | mapping with f then g is mapping once with g after f |
| Promises.FlatMapForwardsNestedRejection | Jetway/Promise.swift:177-179 | a rejected nested promise rejects the child with the same error |
| Promises.CaughtRejection | Jetway/Promise.swift:216-220 | the catch forwards exactly the intermediate promise's rejection and its error |
| Promises.AndOutcome | Jetway/Promise.swift:212-223 | fulfilled with the pair (value, addition), or rejected with the parent's error |
| Promises.TransformOutcome | Jetway/Promise.swift:225-236 | fulfilled with the fixed result, or rejected with the parent's error |
| Promises.ResolveChild | Jetway/Promise.swift:174-186 | running a forwarding job settles the child with the outcome for the parent's state carried by the job; a resolved child, or a still-pending outcome, changes nothing; otherwise the child's records are drained to their queues in order, the hook gets the child's fallback report, and the list is emptied |
| Promises.RunFlatMapJob | Jetway/Promise.swift:177-184 | running the "flatMap" job settles the child to FlatMapOutcome of the parent's state, with the child's drain and fallback report as in ResolveChild |
| Promises.RunMapJob | Jetway/Promise.swift:192-197 | running the "map" job settles the child to MapOutcome of the parent's state, with the child's drain and fallback report as in ResolveChild |
| Promises.RunAndJob | Jetway/Promise.swift:216-220 | running the jobs of `and` settles the combined promise to AndOutcome of the parent's state, with its drain and fallback report as in ResolveChild |
| Promises.RunTransformJob | Jetway/Promise.swift:229-233 | running the jobs of `transform(to:)` settles its promise to TransformOutcome of the parent's state, with its drain and fallback report as in ResolveChild |
| DataCoding.LittleEndian | Jetway/DataEncoder.swift:96-99 | the in-memory bytes of a number have exactly the type's size |
| DataCoding.FromLittleEndian | Jetway/DataEncoder.swift:390-392 | the number read from n bytes is below 256^n |
| DataCoding.LittleEndianRoundTrip | Jetway/DataEncoder.swift:390-428 | reading back the bytes written for a number gives the number |
| DataCoding.TwosComplement | Jetway/DataEncoder.swift:96-143 | the bit pattern of an in-range integer fits the type's width |
| DataCoding.FromTwosComplement | Jetway/DataEncoder.swift:390-428 | the value read from a bit pattern is in range, and its bit pattern is that pattern |
| DataCoding.IntRoundTrip | Jetway/DataEncoder.swift:390-428 | reading back an integer's bit pattern gives the integer |
| DataCoding.Utf8Encode | Jetway/DataEncoder.swift:82-84 | `Data(value.utf8)`, scalar by scalar (its meaning is stated by Utf8RoundTrip and Utf8DecodeIsExact) |
| DataCoding.Utf8Decode | Jetway/DataEncoder.swift:375 | `String(data:encoding: .utf8)`: a decoded string has no more characters than the buffer has bytes |
| DataCoding.EncodeScalar | Jetway/DataEncoder.swift:82-84 | a scalar takes one to four UTF-8 bytes |
| DataCoding.DecodeFirst | Jetway/DataEncoder.swift:374-380 | a well-formed start has a length between one and the buffer's length |
| DataCoding.ScalarRoundTrip | Jetway/DataEncoder.swift:374-380 | decoding the bytes of a scalar, followed by anything, gives the scalar and its byte length |
| DataCoding.ScalarOfDecoded | Jetway/DataEncoder.swift:374-380 | a decoded first scalar re-encodes to exactly the bytes it was read from |
| DataCoding.Utf8RoundTrip | Jetway/DataEncoder.swift:82-84 | decoding the UTF-8 bytes of a string gives the string back |
| DataCoding.Utf8DecodeIsExact | Jetway/DataEncoder.swift:374-380 | a buffer that decodes to a string is exactly that string's UTF-8 bytes |
| DataCoding.Utf8DecodeSucceedsIffValid | Jetway/DataEncoder.swift:375-379 | decoding succeeds iff the buffer is the UTF-8 encoding of some string |
| DataCoding.SingleValueEncoding | Jetway/DataEncoder.swift:65-143 | Data is stored as is; Bool takes 1 byte; fixed-width numbers take their size; any other type fails with unsupportedValue |
| DataCoding.Step | Jetway/DataEncoder.swift:53-63 | a call succeeds iff it is on the single-value container with a supported value; generic unkeyed encodes throw unsupportedValue, other container calls throw unsupportedContainerType |
| DataCoding.Run | Jetway/DataEncoder.swift:27-31 | a run of encoder calls succeeds iff every call is a single-value call with a supported value |
| DataCoding.EncodeSpec | Jetway/DataEncoder.swift:27-31 | `encode(_:)` throws iff some call does; no calls give empty Data |
| DataCoding.RunAppend | Jetway/DataEncoder.swift:27-31 | a run of two call sequences is the first run, then the second from its slot, stopping at the first error |
| DataCoding.LastWriteWins | Jetway/DataEncoder.swift:47-49 | after any successful calls, a final single-value encode of v makes the result v's encoding |
| DataCoding.NilClearsSlot | Jetway/DataEncoder.swift:73-75 | a final encodeNil makes the encoder return empty Data |
| DataCoding.ContainerCallFails | Jetway/DataEncoder.swift:147-315 | any call on a keyed or unkeyed container makes the whole encode throw |
| DataCoding.EncoderImplementation.constructor | Jetway/DataEncoder.swift:49 | a new encoder has an empty slot |
| DataCoding.EncoderImplementation.EncodeNil | Jetway/DataEncoder.swift:73-75 | the slot is emptied |
| DataCoding.EncoderImplementation.Encode | Jetway/DataEncoder.swift:65-143 | a supported value overwrites the slot with its encoding; an unsupported one throws unsupportedValue and leaves the slot as it was |
| DataCoding.EncoderImplementation.Perform | Jetway/DataEncoder.swift:53-63 | the slot moves as Step says, or the call throws Step's error and the slot is unchanged |
| DataCoding.Encode | Jetway/DataEncoder.swift:27-31 | the result is the slot after the calls, empty Data if nothing is left in it, or the first error thrown |
| DataCoding.DecoderImplementation.DecodeNil | Jetway/DataEncoder.swift:366-368 | the buffer never decodes as nil |
| DataCoding.DecoderImplementation.Decode | Jetway/DataEncoder.swift:370-436 | also `DataDecoder.decode(_:from:)` (lines 330-332) for a one-value type: Data comes back whole; Bool is true iff its byte is 1; a number is read from the first bytes of its width; String succeeds iff the buffer is UTF-8 and then gives its string; every failure is unsupportedValue |
| DataCoding.DecodeIn | Jetway/DataEncoder.swift:354-364 | the keyed and unkeyed decoding containers throw unsupportedContainerType; the single-value container never holds nil |
| DataCoding.KeyedContains | Jetway/DataEncoder.swift:544-546 | no key is contained, consistent with the empty allKeys |
| DataCoding.DecodeAfterEncode | Jetway/DataEncoder.swift:330-332 | every supported value, encoded and then decoded as its own type, comes back unchanged |
| DataCoding.DecodeStringIffUtf8 | Jetway/DataEncoder.swift:374-380 | a String decodes iff the buffer is valid UTF-8; otherwise the error is unsupportedValue |
| DataCoding.DataRoundTrip | JetwayTests/DataEncoderTests.swift:15-23 | Data encodes to itself and decodes back unchanged |
| Endpoints.HttpMethod.RawValue | Jetway/HTTPMethod.swift:11-41 | every method's raw value is non-empty |
| Endpoints.HttpMethodOf | Jetway/HTTPMethod.swift:11-41 | `init(rawValue:)`: a method is found only under its own raw value |
| Endpoints.RawValueRoundTrip | Jetway/HTTPMethod.swift:11-41 | every method is recovered from its raw value, so raw values are distinct |
| Endpoints.SkipSlashes | Jetway/Endpoint.swift:64-67 | the index after the leading run of slashes, with everything before it a slash |
| Endpoints.SkipSlashesBack | Jetway/Endpoint.swift:64-67 | the index before the trailing run of slashes, with everything after it a slash |
| Endpoints.Trim | Jetway/Endpoint.swift:64-67 | the result has no slash at either end, and it is the input between a leading and a trailing run of slashes |
| Endpoints.TrimBetweenSlashes | Jetway/Endpoint.swift:64-67 | trimming a clean string wrapped in runs of slashes gives the clean string |
| Endpoints.TrimOfClean | Jetway/Endpoint.swift:64-67 | a string with no slash at either end is unchanged |
| Endpoints.TrimIdempotent | Jetway/Endpoint.swift:64-67 | trimming twice is trimming once |
| Endpoints.TrimIgnoresEdgeSlashes | Jetway/Endpoint.swift:64-67 | extra slashes at either end do not change the trimmed string |
| Endpoints.FullUrlPath | Jetway/Endpoint.swift:64-69 | the trimmed base, exactly one slash, the trimmed path, with no slash doubled at the join |
| Endpoints.FullUrlPathIgnoresEdgeSlashes | Jetway/Endpoint.swift:64-69 | a trailing slash on the base or a leading slash on the path changes nothing |
| Endpoints.DocumentedExample | Jetway/API.swift:16-18 | base "https://api.jetway.io/" with path "/endpoint" gives "https://api.jetway.io/endpoint" |
| Endpoints.Url | Jetway/Endpoint.swift:63-74 | succeeds iff the joined string parses; otherwise malformedUrl carries that string |
| Credentials.Lookup | Jetway/CredentialsProvider.swift:74-88 | notCongfigured iff nothing is registered under the name; success only with credentials of the requested type; a provider's error passes through; unacceptableValue otherwise |
| Credentials.RegisterThenLookup | Jetway/CredentialsProvider.swift:67-88 | a block registered for a type answers its lookups with its credentials or its error |
| Credentials.RegisterLeavesOthers | Jetway/CredentialsProvider.swift:67-71 | registering under one name leaves lookups under every other name unchanged |
| Credentials.RequestCredentialsStore.constructor | Jetway/CredentialsProvider.swift:59-63 | the store starts empty |
| Credentials.RequestCredentialsStore.RegisterCredentialsProvider | Jetway/CredentialsProvider.swift:67-71 | the block replaces whatever was registered under its type's name; keys match their blocks' types |
| Credentials.RequestCredentialsStore.CredentialsOf | Jetway/CredentialsProvider.swift:74-88 | the lookup in the current registry |
| Credentials.UnacceptableOnlyOnNameClash | Jetway/CredentialsProvider.swift:83-85 | in a consistent store, unacceptableValue means a different type of the same name registered the block |
| Credentials.ProvidedCredentials | Jetway/CredentialsProvider.swift:34-47 | no authentication gives NoCredentials; a Requires provider looks its type up in the global store |
| Credentials.Configure | Jetway/CredentialsProvider.swift:29-31 | NoCredentials leaves the request unchanged; typed credentials apply their own configuration |
| EndpointCalls.ErrorReason | Jetway/Endpoint+Call.swift:158-168 | the body's reason string when there is one, else "No reason provided." |
| EndpointCalls.StatusCodeOf | Jetway/Endpoint+Call.swift:129-137 | the status each case stands for: every case but cannotConnect has one; unknown carries its own |
| EndpointCalls.From | Jetway/Endpoint+Call.swift:157-178 | the error stands for the given status; unknown iff the status is not one of 204/401/404/406/409; notFound names the path; the reason-carrying cases carry the body's reason |
| EndpointCalls.Closing | Jetway/Endpoint+Call.swift:146-153 | a description closed by the reason in parentheses ends with "reason)" |
| EndpointCalls.ErrorDescription | Jetway/Endpoint+Call.swift:138-155 | every error has a description; a reason, when present, closes it in parentheses |
| EndpointCalls.StoreRejection | Jetway/Endpoint+Call.swift:79-82 | a provider block's own error reaches the promise unchanged; store errors reach it as themselves |
| EndpointCalls.UrlString | Jetway/Endpoint+Call.swift:68 | the endpoint's URL when it parses, otherwise "Malformed URL" |
| EndpointCalls.Purpose | Jetway/Endpoint+Call.swift:69 | the method's raw value, a space, then the URL string |
| EndpointCalls.Setup | Jetway/Endpoint+Call.swift:75-83 | fails in order: malformed URL, then the request configuration's error, then the credentials provider's failure (a store error, or the provider block's own error unchanged), then the credentials' configuration error; otherwise the configured request; no authentication adds nothing |
| EndpointCalls.Call | Jetway/Endpoint+Call.swift:63-120 | fresh promise named by Purpose; a failed setup rejects it with that error, reports it to the hook at once and sends nothing; a successful one sends the set-up request and leaves the promise pending |
| EndpointCalls.Decide | Jetway/Endpoint+Call.swift:86-116 | no HTTP response gives cannotConnect; non-200 gives ServerError.from even with a transport error; then the transport error; then valueNotFound; success iff 200, no error, data present and the handler succeeds |
| EndpointCalls.Resolution | Jetway/Endpoint+Call.swift:112-116 | a decided outcome is a resolved state, fulfilled iff the outcome succeeded |
| EndpointCalls.Complete | Jetway/Endpoint+Call.swift:86-117 | the completion resolves the promise exactly once, first resolution winning, with the outcome decided for the call's own URL string (line 68); a pending one drains its records to their queues in order, gives the hook its fallback report and empties the list; an already-resolved one keeps its records and hook calls |

## Left out

- Threading. The promise's lock queue, `DispatchQueue.async`, and the locking behind
  `value`/`error` are modelled as sequential steps. Interleavings between threads are not
  modelled.
- Promises.FirstResolutionWins: holds for the sequential model only. `updateState` tests
  `isPending` before it moves onto the lock queue (Jetway/Promise.swift:271). So two
  concurrent `fulfill`/`reject` calls can both pass the test and both write the state, and
  both drain.
- Running a client's delivered handlers. A drain records which handler would run with which
  argument. Only a combinator's forwarding job is run in the model, by the Run*Job methods,
  which resolve the child promise.
- The convenience `init(purpose:_:)` is not modelled. It launches its block asynchronously and
  passes it `fulfill`/`reject`. `Promise.Fulfill` and `Promise.Reject` model what the block
  can do.
- Promises.Promise.FlatMap: in the source the child is built with the convenience
  initializer, which posts the registration on the parent to the global concurrent queue
  (`DispatchQueue.global(qos: .userInitiated)`). In the model the registration happens before
  the method returns. So two combinators called one after the other register in call order in
  the model, while the source may register them in either order.
- Promises.Promise.Map: the same deferred registration as FlatMap, since `map` is built on it.
- Promises.Promise.FlatMap, Map, And and Transform: the handler they register is a label
  (`ForwardToChild`); which child it resolves, and to what, is stated by the Run*Job methods
  and the outcome functions.
- Promises.RunAndJob: takes the two hops of `and` (the map job on the parent, then the catch
  on the intermediate promise) as one step. The same holds for RunTransformJob.
- Promises.Promise.And: does not state what is posted to the intermediate promise's context,
  which may be the same queue as the parent's. Its registration on the parent is deferred as
  for FlatMap.
- Promises.Promise.Transform: the same as `And`; does not state what is posted to the
  intermediate promise's context, and its registration is deferred as for FlatMap.
- Promises.ExecutionContext: the source's `ExecutionContext` is an open protocol. The model
  has only its two implementations in the library, a dispatch queue and an
  `InvalidatableQueue`. A client context that runs work inline or drops it is not modelled.
- Promises.FallbackCatchBlock: `RejectedPromise.fallbackCatchBlock` is a static variable that
  can be set or cleared at any time. The model fixes, per hook object, whether it is
  installed.
- DataCoding.Run: a value's `encode(to:)` is a sequence of container calls that stops at the
  first call that throws, so the error reaches `encode(_:)`. A client that swallows a
  container's error (`try?`, `do`/`catch`) and goes on is not modelled.
- DataCoding.Utf8Decode: a leading byte-order mark (EF BB BF) decodes to U+FEFF and is kept.
  Whether Foundation's `String(data:encoding: .utf8)` drops it is not modelled.
- Floating-point values are carried as IEEE 754 bit patterns. No conversion between a
  `Double`/`Float` and its bits is modelled.
- `Int` and `UInt` are taken as 64-bit, and every layout as little-endian.
- DataCoding.DecoderImplementation.Decode: requires a buffer long enough for a fixed-width
  type and a `Bool` byte of 0 or 1. The source reads such buffers through an unchecked
  pointer, and what it does on shorter ones is undefined.
- `URLSession`, `URL(string:)`, `JSONSerialization` and the client closures are parameters:
  `parses`, `reasonIn`, `configureRequest`, `configureTyped`, `handler`, and the
  `Completion` value.
- The contents of interpolated descriptions (`\(value)`, `\(error)`, `\(statusCode)`) are
  string parameters.
- `HTTP.StatusCode` is taken to use the standard numeric codes. The file defining it is not
  part of this model.
- EndpointCalls.ErrorDescription: states the reason suffix and that a description exists;
  the full text of each case is the constants it is built from.
- The codec wrappers (JSON and Data codecs of `Endpoint` requests and responses), `BaseURL`,
  percent-encoding of strings, and the `API` type's configuration are not part of this model.
- Credentials values of client types are known by a token. Their `configure(_:)` is the
  `configureTyped` parameter. A provider block is represented by its fixed outcome.
