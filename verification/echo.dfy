/** The example echo worker, the other end of the round trip: it consumes
    the "echo" queue and answers each request on its reply queue with the
    request's `params.message`. */
module Echo {
  import opened Wrappers
  import opened Values
  import opened Objects
  import opened Messages

  const EchoQueue := "echo"

  /** Start-up calls of the worker. */
  datatype SetupEffect = SetupDeclareExchange(exchange: string) | SetupDeclareQueue(queue: string) | SetupConsume(queue: string)

  /** Start-up: the exchange is declared only when configured non-empty;
      the queue declared and consumed is always "echo". */
  function EchoSetup(exchange: string): (es: seq<SetupEffect>)
    ensures |es| >= 2 && es[|es| - 2] == SetupDeclareQueue(EchoQueue) && es[|es| - 1] == SetupConsume(EchoQueue)
    ensures es[0].SetupDeclareExchange? <==> exchange != ""
    ensures es[0].SetupDeclareExchange? ==> es[0].exchange == exchange && |es| == 3
    ensures !es[0].SetupDeclareExchange? ==> |es| == 2
  {
    if exchange != "" then
      [SetupDeclareExchange(exchange), SetupDeclareQueue(EchoQueue), SetupConsume(EchoQueue)]
    else
      [SetupDeclareQueue(EchoQueue), SetupConsume(EchoQueue)]
  }

  /** A parsed request as far as the handler reads it: a request envelope,
      or a value whose `params` cannot be read (`null`, or an object whose
      `params` is missing or `null`), so that reading `params.message`
      throws. */
  datatype EchoRequest = Envelope(envelope: RequestEnvelope) | ParamsUnreadable

  /** One delivery: its tag, the `replyTo` property, and the request as
      decoded from its JSON text (or the parse error). */
  datatype Delivery = Delivery(deliveryTag: nat, replyTo: Option<string>, decoded: Result<EchoRequest, Thrown>)

  /** Whether the broker calls of the handler succeed. */
  datatype EchoBroker = EchoBroker(ackSucceeds: bool, declareSucceeds: bool)

  datatype EchoEffect =
    | Ack(deliveryTag: nat)
    | DeclareReplyQueue(queue: string)
    | PublishReply(routingKey: string, props: PublishProps, message: ResponseMessage)

  /** `params.message`, `undefined` when absent. */
  function ParamMessage(params: map<string, Value>): Value {
    if "message" in params then params["message"] else Undefined
  }

  /** The reply to a request, as it reads once serialised: an undefined
      `message` is dropped from the payload. */
  function EchoReply(req: RequestEnvelope): (m: ResponseMessage)
    ensures m.requestUid == req.requestUid
    ensures m.payload.Some? && m.payload.value.Obj?
    ensures "message" in req.params && req.params["message"] != Undefined ==>
      m.payload.value.fields == map["message" := req.params["message"]]
    ensures "message" !in req.params || req.params["message"] == Undefined ==>
      m.payload.value.fields == map[]
    ensures m.error.None? && m.headers.None?
  {
    ResponseMessage(req.requestUid, None, Some(Obj(DefinedProps(map["message" := ParamMessage(req.params)]))), None)
  }

  /** `onIncomingMessage`: acknowledge first, then parse; a parse error or a
      missing `replyTo` ends the handling; otherwise declare the reply queue
      and publish the reply to it as JSON. A failing broker call, or a
      request whose `params` cannot be read when the reply is built, ends
      the handling too (the error is logged). */
  function OnIncomingMessage(d: Delivery, broker: EchoBroker): (es: seq<EchoEffect>)
    ensures |es| >= 1 && es[0] == Ack(d.deliveryTag)
    ensures d.decoded.Failure? ==> es == [Ack(d.deliveryTag)]
    ensures d.replyTo.None? || d.replyTo == Some("") ==> es == [Ack(d.deliveryTag)]
    ensures forall i :: 0 <= i < |es| && es[i].PublishReply? ==>
      i == 2 && es[1] == DeclareReplyQueue(d.replyTo.value)
      && d.decoded.Success? && d.decoded.value.Envelope?
      && es[i] == PublishReply(d.replyTo.value, PublishProps(JsonContentType, None, None), EchoReply(d.decoded.value.envelope))
    ensures |es| == 3 <==> broker.ackSucceeds && broker.declareSucceeds && d.decoded.Success?
                            && d.decoded.value.Envelope? && d.replyTo.Some? && d.replyTo.value != ""
    ensures broker.ackSucceeds && d.decoded == Success(ParamsUnreadable) && d.replyTo.Some? && d.replyTo.value != "" ==>
      es == [Ack(d.deliveryTag), DeclareReplyQueue(d.replyTo.value)]
  {
    if !broker.ackSucceeds then [Ack(d.deliveryTag)]
    else if d.decoded.Failure? then [Ack(d.deliveryTag)]
    else if d.replyTo.None? || d.replyTo.value == "" then [Ack(d.deliveryTag)]
    else
      var replyTo := d.replyTo.value;
      if !broker.declareSucceeds || d.decoded.value.ParamsUnreadable? then [Ack(d.deliveryTag), DeclareReplyQueue(replyTo)]
      else [Ack(d.deliveryTag), DeclareReplyQueue(replyTo),
            PublishReply(replyTo, PublishProps(JsonContentType, None, None), EchoReply(d.decoded.value.envelope))]
  }
}
