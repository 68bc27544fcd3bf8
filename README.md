# Commandable gRPC services of pip-services3-grpc-java, modelled in Dafny

This project models the core of the gRPC layer of the Pip.Services Java toolkit.

- **`GrpcService`** is the base of every gRPC service. It owns the service's lifecycle: `setReferences`, `unsetReferences`, `open`, `close` and `isOpen`. It either adopts a shared `GrpcEndpoint` or creates and owns a local one. It also attaches the registration callback to the endpoint and adds wire methods and interceptors.
- **`CommandableGrpcService`** exposes a controller's command set through one wire method, `invoke`. `register` stores each command under `<name>.<command>`, wrapped so that a thrown exception is returned as a result and timed. `invokeCommand` turns a request into exactly one reply:
  - `METHOD_NOT_FOUND` for an unknown name;
  - `METHOD_FAILED` when the arguments do not decode, when the result cannot be serialized, or when a table entry throws (an entry stored directly with `registerCommadableMethod`; commands installed by `register` never throw, because their exceptions come back as results);
  - otherwise `result_empty` and no payload for a `null` result, else the result as JSON text, with the error field set as well when the result is an exception.
- **`CommandableGrpcClient`** is the caller's side. `callCommand` builds the request, sends it and reads the reply: an error is raised as an application exception, an empty reply is `null`, and anything else is decoded.

The model is split into modules that follow these classes:

| file | module | models |
|---|---|---|
| `wrappers.dfy` | `Wrappers` | `Option` (a Java `null`) |
| `json.dfy` | `Json` | the JSON text in `args_json` / `result_json`, with an encoder and a parser |
| `errors.dfy` | `Errors` | exceptions (as their `ErrorDescription`) and the wire `ErrorDescription` |
| `instrumentation.dfy` | `Instrumentation` | the timing object returned by `instrument` |
| `endpoint.dfy` | `Endpoint` | the parts of `GrpcEndpoint` a service changes |
| `grpc_service.dfy` | `GrpcServices` | `GrpcService` as a class, plus lifecycle scenarios |
| `commandable_protocol.dfy` | `CommandableProtocol` | the messages, the command table and the reply `invokeCommand` sends |
| `commandable_service.dfy` | `CommandableServices` | `CommandableGrpcService` as a class, registration and the per-command wrapper |
| `commandable_client.dfy` | `CommandableClient` | request building, reply reading and `callCommand` |
| `end_to_end.dfy` | `EndToEnd` | the client composed with the server: what a caller receives for each thing a handler does |

Java inheritance (`CommandableGrpcService extends GrpcService`) is modelled by composition. The commandable service holds its `GrpcService` state in `base`.

A Java `throw` becomes a returned value:
- `Close` returns `Option<ErrorDescription>`;
- an action's outcome is `ActionResult` (`Returned`, `ReturnedException`, `Unwritable` or `Threw`);
- the client's outcome is `CallResult`.

The transport between client and server is a parameter of `CallCommand`.

Behaviour of the code that the proofs make explicit:
- **A returned exception sets both fields.** When a handler *returns* an exception object, the reply carries both a `result_json` and an `error` (`KnownMethodReply`).
- **Empty object reads as `null`.** A handler result that is the empty object reaches the caller as `null`, because the client treats `"{}"` as an empty reply (`ReturnedValueArrives`).
- **Empty-message exceptions are invisible.** A returned exception whose message is `null` or empty does not raise at the caller, because the client tests only the error message. The caller receives the exception's JSON form as an ordinary value (`ReturnedExceptionArrives`).
- **A JSON `null` result reads as `null`.** A handler result of JSON `null` also reaches the caller as `null`, because the parser turns the text `null` into a Java `null` (`ReturnedValueArrives`).
- **A throwing command raises its own error.** A command installed by `register` that throws does not produce METHOD_FAILED. The wrapper returns the exception. When the exception has a non-empty message, the caller raises it with its own category and code. Otherwise the caller receives the exception's JSON form as a value (`ThrowingCommandRaisesItsOwnError`).
- **`open` without references stays attached.** `open` without `setReferences` attaches the service object itself to the endpoint it creates, while `unsetReferences` detaches only the registration callback. The service therefore stays attached to that endpoint (`OpenWithoutReferencesStaysAttached`). That attachment never delivers the service's definition: the service object's own `register` only fills the builder, and only the registration callback (`registerService`) hands the built definition to the endpoint.
- **Commandable services on one endpoint are ambiguous.** Every commandable service builds the same definition, `commandable.Commandable` with the single method `invoke`. The model does not say which service's `invoke` answers when several share one endpoint: `RoutingStaysWithinService` calls each service's table directly, not through an endpoint.
- **`NO_ENDPOINT` needs an open service.** `close` raises `NO_ENDPOINT` only for a service that was opened and then lost its endpoint through `unsetReferences`. The service then stays open (`CloseWithoutEndpointFails`).

## Model

| member | source | states |
|---|---|---|
| Json.ParseEncode | src/org/pipservices3/grpc/services/CommandableGrpcService.java:143 | the parser reads back exactly the value that was encoded, whatever text follows it |
| Json.DecodeEncode | src/org/pipservices3/grpc/clients/CommandableGrpcClient.java:126 | decoding a payload written by the encoder yields the encoded value |
| Json.EncodeInjective | src/org/pipservices3/grpc/clients/CommandableGrpcClient.java:111 | two values have the same JSON text exactly when they are equal |
| Json.EncodeNonEmpty | src/org/pipservices3/grpc/clients/CommandableGrpcClient.java:110-111 | an encoded value is never the empty text, so a set payload is never read as an unset one |
| Json.EncodeIsEmptyObject | src/org/pipservices3/grpc/clients/CommandableGrpcClient.java:121 | the text `{}` encodes the empty object and no other value |
| CommandableProtocol.QualifiedName | src/org/pipservices3/grpc/services/CommandableGrpcService.java:204 | the routed name `<service>.<command>`; what it determines is stated by QualifiedNameSameService and QualifiedNameInjective |
| CommandableProtocol.QualifiedNameSameService | src/org/pipservices3/grpc/services/CommandableGrpcService.java:204 | within one service, two commands get the same table key exactly when their names are equal |
| CommandableProtocol.QualifiedNameInjective | src/org/pipservices3/grpc/clients/CommandableGrpcClient.java:99 | for service names without a dot, a routed name determines both the service and the command |
| CommandableProtocol.CreateErrorResponse | src/org/pipservices3/grpc/services/CommandableGrpcService.java:161-182 | the wire error keeps the status, and it counts as an error exactly when the exception's message is non-null and non-empty |
| CommandableProtocol.DecodeArgs | src/org/pipservices3/grpc/services/CommandableGrpcService.java:123-127 | the bag is always a map: empty when `args_empty` is set or the payload is empty, otherwise the decoded payload when it is a JSON object; a payload that does not parse or is not an object makes the parser raise |
| CommandableProtocol.ErrorReply | src/org/pipservices3/grpc/services/CommandableGrpcService.java:115 | a reply that carries only an error has no result, and its error is visible exactly when the description has a non-empty message |
| CommandableProtocol.MethodNotFound | src/org/pipservices3/grpc/services/CommandableGrpcService.java:112-113 | the `InvocationException` for an unknown method; its fields as they reach the wire are stated by UnknownMethodReply |
| CommandableProtocol.MethodFailed | src/org/pipservices3/grpc/services/CommandableGrpcService.java:152-153 | the `InvocationException` wrapping a failure; its fields as they reach the wire are stated by MalformedArgumentsReply and KnownMethodReply |
| CommandableProtocol.ResultReply | src/org/pipservices3/grpc/services/CommandableGrpcService.java:140-146 | `result_empty` is set exactly for a `null` result; a value's payload decodes to it with no error; a returned exception's payload decodes to its JSON form and its error is set |
| CommandableProtocol.ActionReply | src/org/pipservices3/grpc/services/CommandableGrpcService.java:137-157 | the reply once the action has run; each outcome is stated by KnownMethodReply |
| CommandableProtocol.InvokeReplyFor | src/org/pipservices3/grpc/services/CommandableGrpcService.java:105-159 | an unknown method gets an error and no result; `result_empty` comes with no payload and no error; any payload sent decodes |
| CommandableProtocol.UnknownMethodReply | src/org/pipservices3/grpc/services/CommandableGrpcService.java:110-118 | an unknown method gets METHOD_NOT_FOUND naming the method, with the request's correlation id and no result |
| CommandableProtocol.MalformedArgumentsReply | src/org/pipservices3/grpc/services/CommandableGrpcService.java:150-157 | a payload that does not parse gets METHOD_FAILED naming the method, with the parser's failure as cause and no result |
| CommandableProtocol.KnownMethodReply | src/org/pipservices3/grpc/services/CommandableGrpcService.java:137-157 | `null` sets `result_empty`; a value travels as JSON that decodes to it; a returned exception sets both payload and error; an unwritable result or a thrown exception becomes METHOD_FAILED with no result |
| CommandableServices.Instrumented | src/org/pipservices3/grpc/services/CommandableGrpcService.java:206-216 | a wrapped command never throws; it returns what the command returns, or the thrown exception as its result |
| CommandableServices.RunInstrumented | src/org/pipservices3/grpc/services/CommandableGrpcService.java:206-216 | one wrapped call with its timing: `endFailure` then `endTiming` when the command throws, only `endTiming` otherwise |
| CommandableServices.Registered | src/org/pipservices3/grpc/services/CommandableGrpcService.java:203-217 | the table after the registration loop; the `Register` loop is proved equal to it, and RegisteredKeys, RegisteredLastWins, RegisteredKeepsOthers and RegisteredEntriesNeverThrow state what it holds |
| CommandableServices.RegisteredKeys | src/org/pipservices3/grpc/services/CommandableGrpcService.java:203-217 | registration adds the key `<name>.<command>` for each command and removes no key |
| CommandableServices.RegisteredLastWins | src/org/pipservices3/grpc/services/CommandableGrpcService.java:203-217 | a command's key holds its wrapped action unless a later command of the same name replaced it |
| CommandableServices.RegisteredKeepsOthers | src/org/pipservices3/grpc/services/CommandableGrpcService.java:203-217 | a key no command produces keeps its earlier entry, or stays absent |
| CommandableServices.RegisteredEntriesNeverThrow | src/org/pipservices3/grpc/services/CommandableGrpcService.java:206-216 | an entry that registration added never throws, whatever the command does |
| CommandableServices.ResponseObserver.OnNextReply | src/org/pipservices3/grpc/services/CommandableGrpcService.java:148 | the reply is appended to what the observer received |
| CommandableServices.ResponseObserver.Completed | src/org/pipservices3/grpc/services/CommandableGrpcService.java:149 | completion is appended to what the observer received |
| CommandableServices.CommandableGrpcService.constructor | src/org/pipservices3/grpc/services/CommandableGrpcService.java:88-93 | a `null` name falls back to the descriptor name `commandable.Commandable`; the service starts closed, with no endpoint and an empty table |
| CommandableServices.CommandableGrpcService.RegisterCommandableMethod | src/org/pipservices3/grpc/services/CommandableGrpcService.java:101-103 | the action is stored under the name, replacing an earlier entry, and nothing else changes |
| CommandableServices.CommandableGrpcService.Register | src/org/pipservices3/grpc/services/CommandableGrpcService.java:189-218 | `invoke` is added to the wire methods, and the table becomes the ordered registration of every wrapped command under `<name>.<command>` |
| CommandableServices.CommandableGrpcService.RegisterService | src/org/pipservices3/grpc/services/GrpcService.java:293-300 | the routes are registered, then the built definition is handed to the endpoint if there is one |
| CommandableServices.CommandableGrpcService.InvokeCommand | src/org/pipservices3/grpc/services/CommandableGrpcService.java:105-159 | exactly one reply, the one the table dictates, followed by completion |
| CommandableServices.RoutingStaysWithinService | src/org/pipservices3/grpc/services/CommandableGrpcService.java:204-209 | two services with a command of the same name each answer from their own handler, and neither table holds the other's key |
| GrpcServices.GrpcService.constructor | src/org/pipservices3/grpc/services/GrpcService.java:153-158 | a new service is closed, has no endpoint, an empty builder and an empty command table |
| GrpcServices.GrpcService.IsOpen | src/org/pipservices3/grpc/services/GrpcService.java:244-246 | reports the open flag; its value after `open` and `close` is stated by CloseWithoutEndpointFails and LocalEndpointFollowsService |
| GrpcServices.GrpcService.SetReferences | src/org/pipservices3/grpc/services/GrpcService.java:177-196 | a shared endpoint is adopted and not owned; without one a fresh closed endpoint is created and owned; the callback is attached either way |
| GrpcServices.GrpcService.UnsetReferences | src/org/pipservices3/grpc/services/GrpcService.java:201-207 | the callback is detached from the endpoint, and the endpoint is forgotten |
| GrpcServices.GrpcService.Open | src/org/pipservices3/grpc/services/GrpcService.java:253-268 | idempotent; without an endpoint, one is created, the service is registered on it, the service owns it and it is opened; a shared endpoint is left as it was |
| GrpcServices.GrpcService.Close | src/org/pipservices3/grpc/services/GrpcService.java:275-291 | a closed service is left alone; an open one without an endpoint raises NO_ENDPOINT and stays open; otherwise the service closes, and so does its endpoint only if it owns it |
| GrpcServices.GrpcService.RegisterInterceptor | src/org/pipservices3/grpc/services/GrpcService.java:307-310 | the interceptor is appended to the endpoint's chain; with no endpoint, nothing changes |
| GrpcServices.GrpcService.RegisterMethod | src/org/pipservices3/grpc/services/GrpcService.java:319-350 | the method is appended to the service definition being built |
| GrpcServices.GrpcService.Definition | src/org/pipservices3/grpc/services/GrpcService.java:297 | the built definition: the service's name and its wire methods in registration order; RegisterService hands it to the endpoint |
| GrpcServices.NoEndpointError | src/org/pipservices3/grpc/services/GrpcService.java:280-284 | the `InvalidStateException` with code NO_ENDPOINT; CloseWithoutEndpointFails states that `close` raises it |
| GrpcServices.CloseWithoutEndpointFails | src/org/pipservices3/grpc/services/GrpcService.java:275-291 | open, then unset references, then close raises NO_ENDPOINT and leaves the service open |
| GrpcServices.OpenWithoutReferencesStaysAttached | src/org/pipservices3/grpc/services/GrpcService.java:253-268 | after `open` without references and then `unsetReferences`, the service object is still attached to the endpoint it created and the callback never was; the service has forgotten the endpoint |
| GrpcServices.LocalEndpointFollowsService | src/org/pipservices3/grpc/services/GrpcService.java:253-291 | an owned endpoint serves after `open` (twice) and stops after `close`, which also clears the open flag |
| GrpcServices.SharedEndpointIsNotOwned | src/org/pipservices3/grpc/services/GrpcService.java:177-196 | two services attach to one shared endpoint without opening or closing it, and detaching one leaves the other attached |
| GrpcServices.InterceptorsKeepOrder | src/org/pipservices3/grpc/services/GrpcService.java:307-310 | an interceptor registered before there is an endpoint is dropped; later ones keep registration order |
| Endpoint.GrpcEndpoint.constructor | src/org/pipservices3/grpc/services/GrpcService.java:209-218 | a created endpoint is closed and has no registrations, interceptors or services |
| Endpoint.GrpcEndpoint.Open | src/org/pipservices3/grpc/services/GrpcService.java:264 | the endpoint serves |
| Endpoint.GrpcEndpoint.Close | src/org/pipservices3/grpc/services/GrpcService.java:288 | the endpoint stops serving |
| Endpoint.GrpcEndpoint.Register | src/org/pipservices3/grpc/services/GrpcService.java:195 | the registration is added to the endpoint's set |
| Endpoint.GrpcEndpoint.Unregister | src/org/pipservices3/grpc/services/GrpcService.java:204 | the registration is removed from the endpoint's set |
| Endpoint.GrpcEndpoint.RegisterService | src/org/pipservices3/grpc/services/GrpcService.java:298 | the definition is appended to the endpoint's services |
| Instrumentation.InstrumentTiming.constructor | src/org/pipservices3/grpc/services/GrpcService.java:229-237 | a timing carries the correlation id and method name, and has recorded nothing yet |
| Instrumentation.InstrumentTiming.EndTiming | src/org/pipservices3/grpc/services/CommandableGrpcService.java:214 | `endTiming` is recorded after earlier events |
| Instrumentation.InstrumentTiming.EndSuccess | src/org/pipservices3/grpc/clients/CommandableGrpcClient.java:131 | `endSuccess` is recorded after earlier events |
| Instrumentation.InstrumentTiming.EndFailure | src/org/pipservices3/grpc/services/CommandableGrpcService.java:211 | `endFailure` is recorded after earlier events |
| CommandableClient.BuildRequest | src/org/pipservices3/grpc/clients/CommandableGrpcClient.java:103-111 | `args_empty` is set exactly for no parameters or parameters that serialize to `{}` (the code's empty map); a payload is present exactly when there are parameters, and it decodes back to them |
| CommandableClient.ConvertErrorDescription | src/org/pipservices3/grpc/clients/CommandableGrpcClient.java:135-147 | every field (category, code, message, correlation id, cause, stack trace) arrives non-null, and converting back to the wire gives the original wire error |
| CommandableClient.InterpretReply | src/org/pipservices3/grpc/clients/CommandableGrpcClient.java:115-126 | raises exactly when the error message is non-empty, and then raises the converted wire error; `null` exactly for no error with an empty flag, a payload of `""` or `{}`, or a payload that parses to `null`; a value exactly when an error-free payload parses to something else, and then it is that value; not decodable exactly when the payload does not parse |
| CommandableClient.CallOutcome | src/org/pipservices3/grpc/clients/CommandableGrpcClient.java:113-129 | a transport failure is raised with its message, and exactly then; a delivered reply gives what InterpretReply reads from it |
| CommandableClient.ErrorDescriptionRoundTrip | src/org/pipservices3/grpc/clients/CommandableGrpcClient.java:135-147 | server-to-client transfer keeps the status and every non-null field, and turns a `null` field into `""` |
| CommandableClient.ErrorDescriptionRoundTripExact | src/org/pipservices3/grpc/services/CommandableGrpcService.java:161-182 | the transfer returns the original description exactly when none of its fields is `null` |
| CommandableClient.CommandableGrpcClient.constructor | src/org/pipservices3/grpc/clients/CommandableGrpcClient.java:82-85 | the client keeps the service name it was given |
| CommandableClient.CommandableGrpcClient.CallCommand | src/org/pipservices3/grpc/clients/CommandableGrpcClient.java:98-133 | calls `<name>.<command>` with the built request, returns what the reply means, and records `endFailure` on failure and `endSuccess` on every path |
| EndToEnd.Request | src/org/pipservices3/grpc/clients/CommandableGrpcClient.java:99-111 | the request `callCommand` sends for `<service>.<command>`; stated by BuildRequest and ArgumentsArrive |
| EndToEnd.Call | src/org/pipservices3/grpc/clients/CommandableGrpcClient.java:98-126 | what `callCommand` returns when the service answers; stated case by case by the lemmas below |
| EndToEnd.HandlerOutcome | src/org/pipservices3/grpc/services/CommandableGrpcService.java:137 | what the handler does with the arguments that arrive |
| EndToEnd.ArgumentsArrive | src/org/pipservices3/grpc/services/CommandableGrpcService.java:123-127 | map-shaped parameters reach the handler unchanged, no parameters arrive as the empty bag, and parameters that are not a map never become a bag |
| EndToEnd.MapParams | src/org/pipservices3/grpc/services/CommandableGrpcService.java:209 | parameters the server can read as its `Parameters` map: none, or a JSON object; the lemmas below about a handler's outcome are stated for these, and NonMapParamsRaiseMethodFailed for the others |
| EndToEnd.NonMapParamsRaiseMethodFailed | src/org/pipservices3/grpc/services/CommandableGrpcService.java:125-126 | parameters that are not a map make the caller raise METHOD_FAILED naming the method, with the parser's failure as cause; the handler never runs |
| EndToEnd.UnknownCommandRaisesNotFound | src/org/pipservices3/grpc/services/CommandableGrpcService.java:111-118 | calling a command the service lacks raises METHOD_NOT_FOUND at the caller, naming the method and carrying the correlation id |
| EndToEnd.ReturnedValueArrives | src/org/pipservices3/grpc/clients/CommandableGrpcClient.java:121-126 | a handler's `null` arrives as `null`; the empty object and JSON `null` arrive as `null`; any other value arrives unchanged |
| EndToEnd.ThrownFailureRaisesMethodFailed | src/org/pipservices3/grpc/services/CommandableGrpcService.java:150-157 | a table entry that throws (one stored directly, not by `register`) makes the caller raise METHOD_FAILED naming the method, with the thrown message as cause |
| EndToEnd.UnwritableResultRaisesMethodFailed | src/org/pipservices3/grpc/services/CommandableGrpcService.java:143-157 | a result the serializer cannot write makes the caller raise METHOD_FAILED naming the method, with the serializer's message as cause |
| EndToEnd.ThrowingCommandRaisesItsOwnError | src/org/pipservices3/grpc/services/CommandableGrpcService.java:206-216 | a command installed by `register` that throws makes the caller raise the command's own failure when it has a message, and otherwise delivers its JSON form |
| EndToEnd.ReturnedExceptionArrives | src/org/pipservices3/grpc/services/CommandableGrpcService.java:140-146 | a returned exception with a message raises at the caller with its fields; one without a message arrives as its JSON form |
| EndToEnd.RaisedFailureKeepsIdentity | src/org/pipservices3/grpc/clients/CommandableGrpcClient.java:116-117 | a raised remote failure has the category, code, message and correlation id the handler's exception had |

## Left out

- JSON: the serializer and parser of the commons library are replaced by a concrete subset without numbers or white space. As a result, `ExceptionJson` (an exception serialized as a result) holds only the text fields, not the status.
- The exception factories of the commons library are not part of this model. The categories `FailedInvocation` and `InvalidState` and status 500 are written in as constants.
- `ApplicationException.wrap` is reduced to copying the thrown message into `cause`. When the wrapped exception already is an application exception, the library may return it unchanged, and that case is not modelled.
- Stack traces are not modelled: errors the core creates have none. The `details` map (`withDetails("method", ...)`) is not modelled, because the wire message has no field for it.
- `CommandableClient.BuildRequest`: parameters are a JSON value, so the model cannot tell an empty `Map` from another object that serializes to `{}`. The model sets `args_empty` for both, while the code sets it only for a `Map`. The handler receives the empty bag either way, because the payload `{}` decodes to it.
- `CommandableProtocol.ResultReply`: the JSON form of a returned exception is assumed writable. Only a plain result can be `Unwritable`.
- `CommandableProtocol.DecodeArgs`: `Parameters.fromJson` of the commons library is not part of this model. A payload that is JSON but not an object is taken to make it raise, because the handler's bag is always a map (the cast at CommandableGrpcService.java line 209).
- `CommandableProtocol.MalformedArgumentsReply`: the parser's own exception message is unknown. A fixed text stands in for it as the cause.
- `register` gets the controller's commands as a parameter. The dependency resolver, and the `RuntimeException` raised when no controller is found, are left out.
- `GrpcEndpoint` internals are left out: server start-up, address, TLS, `configure`, the running of interceptors on calls, and how a call is routed when several services with the same definition share the endpoint. The lazy invocation of registration callbacks when the server starts is left out as well. The model keeps only the open flag, the attached registrations, the interceptor chain and the handed-over service definitions.
- `GrpcServices.GrpcService.RegisterMethod`: the marshaller lookup in the service descriptor, and the `RuntimeException` when the name is not in it, are left out. The handler is not stored. The builder records only the method name.
- `GrpcServices.GrpcService.SetReferences`: a callback attached to a previous endpoint is not detached (the code does not do this either). `configure`, the logger, counters and tracer are left out.
- `Instrumentation.InstrumentTiming`: logging, counters and traces are left out. The timing records only which closing operation was called, in order.
- `CommandableClient.CommandableGrpcClient.CallCommand`: the transport's channel, timeouts and the generic `returnType` conversion are left out. A reply payload is decoded to a JSON value, not to a Java class. A failure is returned rather than thrown as a wrapping `RuntimeException`.
- Concurrency is not modelled. Calls on the gRPC executor threads are treated as one after another.
