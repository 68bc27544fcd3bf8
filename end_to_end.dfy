/**
 * The client's encoder and reply reader composed with the server's
 * `invokeCommand`, over a transport that delivers the request unchanged: what
 * the caller of `callCommand` gets back for each thing the handler can do.
 */
module EndToEnd {
  import opened Wrappers
  import opened Json
  import opened Errors
  import opened CommandableProtocol
  import opened CommandableClient
  import opened CommandableServices

  /** The request `callCommand` sends for `command` of `service`. */
  function Request(service: string, command: string, correlationId: Option<string>, params: Option<Value>): InvokeRequest
  {
    BuildRequest(QualifiedName(service, command), correlationId, params)
  }

  /** What `callCommand` returns when the service with table `table` answers. */
  function Call(table: CommandTable, service: string, command: string, correlationId: Option<string>, params: Option<Value>): CallResult
  {
    InterpretReply(InvokeReplyFor(table, Request(service, command, correlationId, params)))
  }

  /** Parameters the server can read as its `Parameters` map: none, or a JSON object. */
  predicate MapParams(params: Option<Value>)
  {
    params == None || params.value.JObj?
  }

  /**
   * The handler receives the caller's parameters, or the empty bag when there
   * were none; parameters that are not a map cannot become the bag.
   */
  lemma ArgumentsArrive(methodName: string, correlationId: Option<string>, params: Option<Value>)
    ensures MapParams(params) ==>
      DecodeArgs(BuildRequest(methodName, correlationId, params)) == Some(params.GetOr(EmptyObject))
    ensures !MapParams(params) ==> DecodeArgs(BuildRequest(methodName, correlationId, params)) == None
  {
  }

  /**
   * Parameters that are not a map (a string, a list, a boolean) make the
   * server's parser raise: the caller raises METHOD_FAILED and the handler
   * never runs.
   */
  lemma NonMapParamsRaiseMethodFailed(table: CommandTable, service: string, command: string,
                                      correlationId: Option<string>, params: Option<Value>)
    requires QualifiedName(service, command) in table
    requires !MapParams(params)
    ensures var result := Call(table, service, command, correlationId, params);
      && result.Failed? && result.failure.RemoteError?
      && result.failure.description.code == Some("METHOD_FAILED")
      && result.failure.description.message == Some("Method " + QualifiedName(service, command) + " failed")
      && result.failure.description.cause == Some(MalformedPayload)
  {
    var request := Request(service, command, correlationId, params);
    ArgumentsArrive(request.methodName, correlationId, params);
    MalformedArgumentsReply(table, request);
  }

  /** The handler's outcome for a call. */
  function HandlerOutcome(table: CommandTable, service: string, command: string, correlationId: Option<string>, params: Option<Value>): ActionResult
    requires QualifiedName(service, command) in table
  {
    table[QualifiedName(service, command)](correlationId.GetOr(""), params.GetOr(EmptyObject))
  }

  /** A command the service does not have raises METHOD_NOT_FOUND at the caller. */
  lemma UnknownCommandRaisesNotFound(table: CommandTable, service: string, command: string,
                                     correlationId: Option<string>, params: Option<Value>)
    requires QualifiedName(service, command) !in table
    ensures var result := Call(table, service, command, correlationId, params);
      && result.Failed? && result.failure.RemoteError?
      && result.failure.description.code == Some("METHOD_NOT_FOUND")
      && result.failure.description.message == Some("Method " + QualifiedName(service, command) + " was not found")
      && result.failure.description.correlationId == Some(correlationId.GetOr(""))
  {
    UnknownMethodReply(table, Request(service, command, correlationId, params));
  }

  /**
   * A handler's value reaches the caller unchanged, except the empty object
   * and the JSON `null`, which the caller cannot tell from a Java `null`; a
   * Java `null` arrives as `null`.
   */
  lemma ReturnedValueArrives(table: CommandTable, service: string, command: string,
                             correlationId: Option<string>, params: Option<Value>)
    requires QualifiedName(service, command) in table && MapParams(params)
    requires HandlerOutcome(table, service, command, correlationId, params).Returned?
    ensures var value := HandlerOutcome(table, service, command, correlationId, params).result;
      var result := Call(table, service, command, correlationId, params);
      && (value == None ==> result == NullResult)
      && (value.Some? && value.value != EmptyObject && value.value != JNull ==> result == ValueResult(value.value))
      && (value == Some(EmptyObject) || value == Some(JNull) ==> result == NullResult)
  {
    var request := Request(service, command, correlationId, params);
    ArgumentsArrive(request.methodName, correlationId, params);
    KnownMethodReply(table, request);
    var value := HandlerOutcome(table, service, command, correlationId, params).result;
    if value.Some? {
      EncodeIsEmptyObject(value.value);
      EncodeNonEmpty(value.value);
      DecodeEncode(value.value);
    }
  }

  /**
   * A table entry that throws raises METHOD_FAILED at the caller, carrying the
   * thrown message as cause. Entries added by `register` never throw (see
   * `RegisteredEntriesNeverThrow`); this is the path of an action stored
   * directly with `registerCommadableMethod`.
   */
  lemma ThrownFailureRaisesMethodFailed(table: CommandTable, service: string, command: string,
                                        correlationId: Option<string>, params: Option<Value>)
    requires QualifiedName(service, command) in table && MapParams(params)
    requires HandlerOutcome(table, service, command, correlationId, params).Threw?
    ensures var thrown := HandlerOutcome(table, service, command, correlationId, params).exception;
      var result := Call(table, service, command, correlationId, params);
      && result.Failed? && result.failure.RemoteError?
      && result.failure.description.code == Some("METHOD_FAILED")
      && result.failure.description.message == Some("Method " + QualifiedName(service, command) + " failed")
      && result.failure.description.cause == Some(thrown.message.GetOr(""))
  {
    var request := Request(service, command, correlationId, params);
    ArgumentsArrive(request.methodName, correlationId, params);
    KnownMethodReply(table, request);
  }

  /**
   * An exception a handler returns raises at the caller with its fields, when
   * its message is not empty; with an empty or `null` message the caller sees
   * no error and gets the exception's JSON form as the result instead.
   */
  lemma ReturnedExceptionArrives(table: CommandTable, service: string, command: string,
                                 correlationId: Option<string>, params: Option<Value>)
    requires QualifiedName(service, command) in table && MapParams(params)
    requires HandlerOutcome(table, service, command, correlationId, params).ReturnedException?
    ensures var e := HandlerOutcome(table, service, command, correlationId, params).exception;
      var result := Call(table, service, command, correlationId, params);
      && (e.message.Some? && e.message.value != "" ==>
            result == Failed(RemoteError(ConvertErrorDescription(CreateErrorResponse(e)))))
      && (e.message.None? || e.message == Some("") ==>
            result == (if ExceptionJson(e) == EmptyObject then NullResult else ValueResult(ExceptionJson(e))))
  {
    var request := Request(service, command, correlationId, params);
    ArgumentsArrive(request.methodName, correlationId, params);
    KnownMethodReply(table, request);
    var e := HandlerOutcome(table, service, command, correlationId, params).exception;
    EncodeIsEmptyObject(ExceptionJson(e));
    EncodeNonEmpty(ExceptionJson(e));
  }

  /** A remote failure keeps the category, code and correlation id the server put on it. */
  lemma RaisedFailureKeepsIdentity(table: CommandTable, service: string, command: string,
                                   correlationId: Option<string>, params: Option<Value>)
    requires QualifiedName(service, command) in table && MapParams(params)
    requires HandlerOutcome(table, service, command, correlationId, params).ReturnedException?
    requires var e := HandlerOutcome(table, service, command, correlationId, params).exception;
      e.message.Some? && e.message.value != "" && e.category.Some? && e.code.Some? && e.correlationId.Some?
    ensures var e := HandlerOutcome(table, service, command, correlationId, params).exception;
      var result := Call(table, service, command, correlationId, params);
      && result.Failed? && result.failure.RemoteError?
      && result.failure.description.category == e.category
      && result.failure.description.code == e.code
      && result.failure.description.correlationId == e.correlationId
      && result.failure.description.message == e.message
  {
    ReturnedExceptionArrives(table, service, command, correlationId, params);
    ErrorDescriptionRoundTrip(HandlerOutcome(table, service, command, correlationId, params).exception);
  }

  /**
   * A handler whose result the serializer cannot write raises METHOD_FAILED at
   * the caller, with the serializer's message as cause.
   */
  lemma UnwritableResultRaisesMethodFailed(table: CommandTable, service: string, command: string,
                                           correlationId: Option<string>, params: Option<Value>)
    requires QualifiedName(service, command) in table && MapParams(params)
    requires HandlerOutcome(table, service, command, correlationId, params).Unwritable?
    ensures var failure := HandlerOutcome(table, service, command, correlationId, params).failure;
      var result := Call(table, service, command, correlationId, params);
      && result.Failed? && result.failure.RemoteError?
      && result.failure.description.code == Some("METHOD_FAILED")
      && result.failure.description.message == Some("Method " + QualifiedName(service, command) + " failed")
      && result.failure.description.cause == Some(failure)
  {
    var request := Request(service, command, correlationId, params);
    ArgumentsArrive(request.methodName, correlationId, params);
    KnownMethodReply(table, request);
  }

  /**
   * A command installed by `register` that throws: the wrapper returns the
   * exception, so the caller raises the command's own failure (not
   * METHOD_FAILED) when it has a message, and otherwise receives its JSON form.
   */
  lemma ThrowingCommandRaisesItsOwnError(table: CommandTable, service: string, commands: seq<Command>, i: nat,
                                         correlationId: Option<string>, params: Option<Value>)
    requires i < |commands| && MapParams(params)
    requires forall j :: i < j < |commands| ==> commands[j].name != commands[i].name
    requires commands[i].execute(correlationId.GetOr(""), params.GetOr(EmptyObject)).Threw?
    ensures var e := commands[i].execute(correlationId.GetOr(""), params.GetOr(EmptyObject)).exception;
      var result := Call(Registered(table, service, commands), service, commands[i].name, correlationId, params);
      && (e.message.Some? && e.message.value != "" ==>
            result == Failed(RemoteError(ConvertErrorDescription(CreateErrorResponse(e)))))
      && (e.message.None? || e.message == Some("") ==>
            result == (if ExceptionJson(e) == EmptyObject then NullResult else ValueResult(ExceptionJson(e))))
  {
    var registered := Registered(table, service, commands);
    RegisteredLastWins(table, service, commands, i);
    var e := commands[i].execute(correlationId.GetOr(""), params.GetOr(EmptyObject)).exception;
    assert HandlerOutcome(registered, service, commands[i].name, correlationId, params) == ReturnedException(e);
    ReturnedExceptionArrives(registered, service, commands[i].name, correlationId, params);
  }
}
