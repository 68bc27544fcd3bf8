/**
 * The commandable wire protocol and the server side of its single `invoke`
 * method: the request and reply messages, the name-to-handler table of a
 * service, and the reply that `invokeCommand` produces for a request.
 */
module CommandableProtocol {
  import opened Wrappers
  import opened Json
  import opened Errors

  /** The `InvokeRequest` message; proto3 strings default to "" and booleans to false. */
  datatype InvokeRequest = InvokeRequest(methodName: string, correlationId: string, argsEmpty: bool, argsJson: string)

  /** The `InvokeReply` message; an unset `error` is `NoWireError`. */
  datatype InvokeReply = InvokeReply(resultEmpty: bool, resultJson: string, error: WireError)

  /**
   * What a table entry does when applied: it returns a value (`None` for a
   * Java `null`), returns an exception object as its result, returns an
   * object the serializer cannot write (`failure` is the serializer's
   * message), or throws.
   */
  datatype ActionResult =
    | Returned(result: Option<Value>)
    | ReturnedException(exception: ErrorDescription)
    | Unwritable(failure: string)
    | Threw(exception: ErrorDescription)

  /** A `CommandFunction`: correlation id and argument bag to an outcome. */
  type CommandFunction = (string, Value) -> ActionResult

  /** The `_commandableMethods` table. */
  type CommandTable = map<string, CommandFunction>

  /** The single wire method every commandable service exposes. */
  const InvokeMethodName := "invoke"

  /** The routed name of a command: `<service>.<command>`. */
  function QualifiedName(service: string, command: string): string
  {
    service + "." + command
  }

  /** Within one service, routed names differ exactly when command names differ. */
  lemma QualifiedNameSameService(service: string, c1: string, c2: string)
    ensures QualifiedName(service, c1) == QualifiedName(service, c2) <==> c1 == c2
  {
    var n := |service| + 1;
    if QualifiedName(service, c1) == QualifiedName(service, c2) {
      assert c1 == QualifiedName(service, c1)[n..];
      assert c2 == QualifiedName(service, c2)[n..];
    }
  }

  /**
   * Across services whose names contain no dot, a routed name determines both
   * the service and the command, so two such services never share a table key.
   */
  lemma QualifiedNameInjective(s1: string, c1: string, s2: string, c2: string)
    requires '.' !in s1 && '.' !in s2
    ensures QualifiedName(s1, c1) == QualifiedName(s2, c2) <==> s1 == s2 && c1 == c2
  {
    var q1, q2 := QualifiedName(s1, c1), QualifiedName(s2, c2);
    if q1 == q2 {
      assert q1[|s1|] == '.' && q2[|s2|] == '.';
      assert |s1| == |s2|;
      assert s1 == q1[..|s1|] && s2 == q2[..|s2|];
      QualifiedNameSameService(s1, c1, c2);
    }
  }

  // ---------------------------------------------------------------------------
  // Error replies

  /** `createErrorResponse`: the description copied onto the wire message, `null` fields left at "". */
  function CreateErrorResponse(d: ErrorDescription): (w: WireError)
    ensures w.status == d.status
    ensures IsError(w) <==> d.message.Some? && d.message.value != ""
  {
    WireError(
      d.category.GetOr(""),
      d.status,
      d.code.GetOr(""),
      d.message.GetOr(""),
      d.correlationId.GetOr(""),
      d.cause.GetOr(""),
      d.stackTrace.GetOr(""))
  }

  /** A reply that carries only an error (`InvokeReply.newBuilder().setError(...)`). */
  function ErrorReply(d: ErrorDescription): (reply: InvokeReply)
    ensures reply.resultJson == "" && !reply.resultEmpty
    ensures IsError(reply.error) <==> d.message.Some? && d.message.value != ""
  {
    InvokeReply(false, "", CreateErrorResponse(d))
  }

  function MethodNotFound(request: InvokeRequest): ErrorDescription
  {
    InvocationError(request.correlationId, "METHOD_NOT_FOUND", "Method " + request.methodName + " was not found", None)
  }

  /** The failure reported when decoding the arguments or running the action raised `cause`. */
  function MethodFailed(request: InvokeRequest, cause: Option<string>): ErrorDescription
  {
    InvocationError(request.correlationId, "METHOD_FAILED", "Method " + request.methodName + " failed", cause)
  }

  /** The message of the exception the JSON parser raises on a malformed payload. */
  const MalformedPayload := "malformed JSON payload"

  /**
   * The serializer's rendering of an exception object that an action returned
   * as its result: an object holding the exception's non-null text fields.
   */
  function ExceptionJson(e: ErrorDescription): Value
  {
    JObj(TextField("category", e.category) + TextField("code", e.code) + TextField("message", e.message)
      + TextField("correlation_id", e.correlationId) + TextField("cause", e.cause)
      + TextField("stack_trace", e.stackTrace))
  }

  function TextField(key: string, text: Option<string>): seq<Member>
  {
    if text.Some? then [Member(key, JStr(text.value))] else []
  }

  // ---------------------------------------------------------------------------
  // invokeCommand

  /**
   * The argument bag (`Parameters`, a map): empty when the flag says so or the
   * payload is "", else the decoded payload. A payload that is not JSON, or is
   * JSON but not an object, cannot become a map: the parser raises (`None`).
   */
  function DecodeArgs(request: InvokeRequest): (args: Option<Value>)
    ensures args.Some? ==> args.value.JObj?
    ensures request.argsEmpty || request.argsJson == "" ==> args == Some(EmptyObject)
    ensures !request.argsEmpty && request.argsJson != "" ==>
      && (args.Some? <==> Decode(request.argsJson).Some? && Decode(request.argsJson).value.JObj?)
      && (args.Some? ==> args == Decode(request.argsJson))
  {
    if request.argsEmpty || request.argsJson == "" then Some(EmptyObject)
    else
      match Decode(request.argsJson)
      case Some(JObj(members)) => Some(JObj(members))
      case _ => None
  }

  /** The reply built from a result the serializer could write. */
  function ResultReply(result: ActionResult): (reply: InvokeReply)
    requires result.Returned? || result.ReturnedException?
    ensures reply.resultEmpty <==> result == Returned(None)
    ensures result == Returned(None) ==> reply.resultJson == "" && reply.error == NoWireError
    ensures result.Returned? && result.result.Some? ==>
      Decode(reply.resultJson) == result.result && reply.error == NoWireError
    ensures result.ReturnedException? ==>
      && Decode(reply.resultJson) == Some(ExceptionJson(result.exception))
      && reply.error == CreateErrorResponse(result.exception)
  {
    match result
    case Returned(None) => InvokeReply(true, "", NoWireError)
    case Returned(Some(v)) =>
      DecodeEncode(v);
      InvokeReply(false, Encode(v), NoWireError)
    case ReturnedException(e) =>
      DecodeEncode(ExceptionJson(e));
      InvokeReply(false, Encode(ExceptionJson(e)), CreateErrorResponse(e))
  }

  /** The one reply `invokeCommand` sends for `request`, given the service's table. */
  function InvokeReplyFor(table: CommandTable, request: InvokeRequest): (reply: InvokeReply)
    ensures request.methodName !in table ==> IsError(reply.error) && reply.resultJson == "" && !reply.resultEmpty
    ensures reply.resultEmpty ==> reply.resultJson == "" && reply.error == NoWireError
    ensures reply.resultJson != "" ==> Decode(reply.resultJson).Some?
  {
    if request.methodName !in table then
      ErrorReply(MethodNotFound(request))
    else
      match DecodeArgs(request)
      case None => ErrorReply(MethodFailed(request, Some(MalformedPayload)))
      case Some(args) =>
        ActionReply(request, table[request.methodName](request.correlationId, args))
  }

  /** The reply to `request` once its action has run with outcome `result`. */
  function ActionReply(request: InvokeRequest, result: ActionResult): InvokeReply
  {
    if result.Threw? then ErrorReply(MethodFailed(request, result.exception.message))
    else if result.Unwritable? then ErrorReply(MethodFailed(request, Some(result.failure)))
    else ResultReply(result)
  }

  // ---------------------------------------------------------------------------
  // The replies, case by case

  /** An unknown method gets a METHOD_NOT_FOUND error naming it, and no result. */
  lemma UnknownMethodReply(table: CommandTable, request: InvokeRequest)
    requires request.methodName !in table
    ensures var reply := InvokeReplyFor(table, request);
      && reply.error.code == "METHOD_NOT_FOUND"
      && reply.error.message == "Method " + request.methodName + " was not found"
      && reply.error.correlationId == request.correlationId
      && reply.resultJson == "" && !reply.resultEmpty
  {
  }

  /** A payload that does not decode gets a METHOD_FAILED error, and no result. */
  lemma MalformedArgumentsReply(table: CommandTable, request: InvokeRequest)
    requires request.methodName in table && DecodeArgs(request) == None
    ensures var reply := InvokeReplyFor(table, request);
      && reply.error.code == "METHOD_FAILED"
      && reply.error.message == "Method " + request.methodName + " failed"
      && reply.error.cause == MalformedPayload
      && reply.resultJson == "" && !reply.resultEmpty
  {
  }

  /**
   * For a known method whose arguments decode, the reply reflects what the
   * action did: `null` sets `result_empty`; a value is carried as its JSON
   * text; a returned exception is carried both as JSON text and as the error;
   * a result the serializer cannot write and a thrown exception become a
   * METHOD_FAILED error with no result.
   */
  lemma KnownMethodReply(table: CommandTable, request: InvokeRequest)
    requires request.methodName in table && DecodeArgs(request).Some?
    ensures var result := table[request.methodName](request.correlationId, DecodeArgs(request).value);
      var reply := InvokeReplyFor(table, request);
      && (result == Returned(None) ==>
            reply.resultEmpty && reply.resultJson == "" && !IsError(reply.error))
      && (result.Returned? && result.result.Some? ==>
            && !reply.resultEmpty && Decode(reply.resultJson) == result.result
            && reply.error == NoWireError)
      && (result.ReturnedException? ==>
            && !reply.resultEmpty && Decode(reply.resultJson) == Some(ExceptionJson(result.exception))
            && reply.error == CreateErrorResponse(result.exception))
      && (result.Unwritable? ==>
            && reply.error == CreateErrorResponse(MethodFailed(request, Some(result.failure)))
            && reply.error.code == "METHOD_FAILED" && IsError(reply.error)
            && reply.resultJson == "" && !reply.resultEmpty)
      && (result.Threw? ==>
            && reply.error == CreateErrorResponse(MethodFailed(request, result.exception.message))
            && reply.error.code == "METHOD_FAILED" && IsError(reply.error)
            && reply.resultJson == "" && !reply.resultEmpty)
  {
  }
}
