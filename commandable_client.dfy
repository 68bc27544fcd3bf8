/**
 * `CommandableGrpcClient`: the caller's side of the commandable protocol. A
 * call names `<service>.<command>`, ships its parameters as one JSON payload
 * through the `invoke` wire method and turns the reply back into a value, a
 * `null`, or a raised failure.
 */
module CommandableClient {
  import opened Wrappers
  import opened Json
  import opened Errors
  import opened CommandableProtocol
  import opened Instrumentation

  /** What the transport's `call("invoke", ...)` does: deliver a reply or raise. */
  datatype Delivery = Delivered(reply: InvokeReply) | TransportFailed(message: string)

  datatype ClientFailure =
    | RemoteError(description: ErrorDescription)   // rebuilt from the reply's error
    | ResultNotDecodable                           // the JSON parser raised on `result_json`
    | TransportError(message: string)

  /** How `callCommand` ends: a `null`, a value, or a raised (wrapped) failure. */
  datatype CallResult = NullResult | ValueResult(value: Value) | Failed(failure: ClientFailure)

  /** The wire request for a call; a `null` correlation id or parameter object stays unset. */
  function BuildRequest(methodName: string, correlationId: Option<string>, params: Option<Value>): (request: InvokeRequest)
    ensures request.methodName == methodName
    ensures request.correlationId == correlationId.GetOr("")
    ensures request.argsEmpty <==> params == None || params == Some(EmptyObject)
    ensures request.argsJson != "" <==> params.Some?
    ensures params.Some? ==> Decode(request.argsJson) == params
  {
    var request := InvokeRequest(
      methodName,
      correlationId.GetOr(""),
      params == None || params == Some(EmptyObject),
      if params.Some? then Encode(params.value) else "");
    assert params.Some? ==> request.argsJson != "" && Decode(request.argsJson) == params by {
      if params.Some? {
        EncodeNonEmpty(params.value);
        DecodeEncode(params.value);
      }
    }
    request
  }

  /** `convertErrorDescription`: every wire field copied back; unset ones arrive as "". */
  function ConvertErrorDescription(w: WireError): (d: ErrorDescription)
    ensures d.message.Some? && d.code.Some? && d.category.Some?
    ensures d.correlationId.Some? && d.cause.Some? && d.stackTrace.Some?
    ensures CreateErrorResponse(d) == w
  {
    ErrorDescription(Some(w.category), w.status, Some(w.code), Some(w.message), Some(w.correlationId),
      Some(w.cause), Some(w.stackTrace))
  }

  /**
   * Reading a reply: error first, then the empty cases, then the payload. The
   * parser turns the payload `null` into a Java `null`.
   */
  function InterpretReply(reply: InvokeReply): (result: CallResult)
    ensures result.Failed? && result.failure.RemoteError? <==> IsError(reply.error)
    ensures IsError(reply.error) ==> result == Failed(RemoteError(ConvertErrorDescription(reply.error)))
    ensures result == NullResult <==>
      && !IsError(reply.error)
      && (reply.resultEmpty || reply.resultJson in {"", "{}"} || Decode(reply.resultJson) == Some(JNull))
    ensures result.ValueResult? <==>
      && !IsError(reply.error) && !reply.resultEmpty && reply.resultJson !in {"", "{}"}
      && Decode(reply.resultJson).Some? && Decode(reply.resultJson) != Some(JNull)
    ensures result.ValueResult? ==> Decode(reply.resultJson) == Some(result.value)
    ensures result == Failed(ResultNotDecodable) <==>
      && !IsError(reply.error) && !reply.resultEmpty && reply.resultJson !in {"", "{}"}
      && Decode(reply.resultJson) == None
  {
    if IsError(reply.error) then Failed(RemoteError(ConvertErrorDescription(reply.error)))
    else if reply.resultEmpty || reply.resultJson == "" || reply.resultJson == "{}" then NullResult
    else
      match Decode(reply.resultJson)
      case None => Failed(ResultNotDecodable)
      case Some(JNull) => NullResult
      case Some(v) => ValueResult(v)
  }

  /** What `callCommand` ends with: a transport failure is raised as is, a delivered reply is read. */
  function CallOutcome(delivery: Delivery): (result: CallResult)
    ensures result.Failed? && result.failure.TransportError? <==> delivery.TransportFailed?
    ensures delivery.TransportFailed? ==> result.failure.message == delivery.message
    ensures delivery.Delivered? ==> result == InterpretReply(delivery.reply)
  {
    match delivery
    case TransportFailed(message) => Failed(TransportError(message))
    case Delivered(reply) => InterpretReply(reply)
  }

  /** The round trip of an error description through the wire keeps every non-null field. */
  lemma ErrorDescriptionRoundTrip(d: ErrorDescription)
    ensures var back := ConvertErrorDescription(CreateErrorResponse(d));
      && back.status == d.status
      && back.category == Some(d.category.GetOr(""))
      && back.code == Some(d.code.GetOr(""))
      && back.message == Some(d.message.GetOr(""))
      && back.correlationId == Some(d.correlationId.GetOr(""))
      && back.cause == Some(d.cause.GetOr(""))
      && back.stackTrace == Some(d.stackTrace.GetOr(""))
  {
  }

  /** The round trip is the identity exactly for descriptions without `null` fields. */
  lemma ErrorDescriptionRoundTripExact(d: ErrorDescription)
    ensures ConvertErrorDescription(CreateErrorResponse(d)) == d <==>
      && d.category.Some? && d.code.Some? && d.message.Some? && d.correlationId.Some?
      && d.cause.Some? && d.stackTrace.Some?
  {
    ErrorDescriptionRoundTrip(d);
  }

  class CommandableGrpcClient {
    const name: string

    constructor (name: string)
      ensures this.name == name
    {
      this.name := name;
    }

    /**
     * `callCommand`: one `invoke` call through `transport`. Its timing records
     * `endFailure` on a failure and `endSuccess` on every path (the `finally`).
     */
    method CallCommand(command: string, correlationId: Option<string>, params: Option<Value>,
                       transport: InvokeRequest -> Delivery)
      returns (result: CallResult, timing: InstrumentTiming)
      ensures fresh(timing) && timing.name == QualifiedName(name, command) && timing.correlationId == correlationId
      ensures result == CallOutcome(transport(BuildRequest(QualifiedName(name, command), correlationId, params)))
      ensures timing.events == (if result.Failed? then [FailureEnded, SuccessEnded] else [SuccessEnded])
    {
      var methodName := QualifiedName(name, command);
      timing := new InstrumentTiming(correlationId, methodName);
      var request := BuildRequest(methodName, correlationId, params);
      var delivery := transport(request);
      result := CallOutcome(delivery);
      if result.Failed? {
        timing.EndFailure();
      }
      timing.EndSuccess();
    }
  }
}
