/** The full round trip: the gateway publishes a request, the echo worker
    answers it on the reply queue, and the gateway's reply handler commits
    the answer. Messages cross the broker as the values they decode to. */
module RoundTrip {
  import opened Wrappers
  import opened Values
  import opened Messages
  import opened AmqpProxy
  import opened Echo

  /** Whether the gateway's publish reaches the worker's queue. Only the
      default exchange (the empty name) routes a message to the queue its
      routing key names; a named exchange would need a binding to "echo",
      and neither program makes one. */
  predicate ReachesEcho(q: Request) {
    q.route.exchange == "" && q.route.queue == EchoQueue
  }

  /** What the echo worker does with the message the gateway published. */
  function EchoHandles(q: Request, tag: nat): seq<EchoEffect> {
    var pub := PublishOf(q);
    OnIncomingMessage(Delivery(tag, pub.props.replyTo, Success(Envelope(pub.message))), EchoBroker(true, true))
  }

  /** On the default exchange, with a non-empty reply queue and no recorded
      error, a setup that goes well, the echo worker's reply and its
      delivery commit status 200 with the echoed message, carrying the
      request's id; the relay returns and leaves the channel open. */
  lemma EchoRoundTrip(q: Request, tag: nat)
    requires ReachesEcho(q)
    requires q.route.replyToQueue != ""
    requires !ErrorSet(q.lastError)
    ensures |EchoHandles(q, tag)| == 3
    ensures EchoHandles(q, tag)[2] ==
      PublishReply(q.route.replyToQueue, PublishProps(JsonContentType, None, None), EchoReply(q.envelope))
    ensures var final := Step(q, Run(q, Initial, SetupEvents(q)), ReplyArrives(Success(EchoReply(q.envelope))));
      && final.response == Response(StatusOK, Message(EchoReply(q.envelope)))
      && final.response.body.msg.requestUid == q.envelope.requestUid
      && final.phase.Returned?
      && CloseChannel !in final.effects
  {
    SetupTrace(q);
    var b := Run(q, Initial, SetupEvents(q));
    InvInitial(q);
    InvRun(q, Initial, SetupEvents(q));
    ReplyRule(q, b, Success(EchoReply(q.envelope)));
    var final := Step(q, b, ReplyArrives(Success(EchoReply(q.envelope))));
    assert final.effects == b.effects + (if b.timerIdHeld then [ClearTimer] else []);
  }

  /** The worker and a gateway route for the "echo" queue on the same
      exchange: both declare the exchange exactly when it is non-empty, and
      the worker answers on the reply queue the gateway consumes. On the
      default exchange the queue the worker consumes is the one the
      gateway's routing key names. */
  lemma EchoSetupMeetsGateway(q: Request, tag: nat)
    requires q.route.queue == EchoQueue
    requires q.route.replyToQueue != ""
    ensures var es, gw := EchoSetup(q.route.exchange), Run(q, Initial, SetupEvents(q)).effects;
      && (ReachesEcho(q) ==> es[|es| - 1] == SetupConsume(PublishOf(q).routingKey))
      && (es[0].SetupDeclareExchange? <==> DeclareExchange(q.route.exchange) in gw)
      && Consume(q.route.replyToQueue) in gw
      && EchoHandles(q, tag)[1] == DeclareReplyQueue(q.route.replyToQueue)
  {
    SetupTrace(q);
    var gw := Run(q, Initial, SetupEvents(q)).effects;
    if q.route.exchange != "" {
      assert gw[2] == DeclareExchange(q.route.exchange);
    } else {
      assert forall i :: 0 <= i < |gw| ==> !gw[i].DeclareExchange?;
    }
    assert gw[|gw| - 2] == Consume(q.route.replyToQueue);
  }

  /** The example request, on the default exchange: a request whose
      `message` parameter is "hi" comes back as status 200 with payload
      `{message: "hi"}` and the same request id. */
  lemma HiRoundTrip(q: Request)
    requires ReachesEcho(q)
    requires q.route.replyToQueue != ""
    requires !ErrorSet(q.lastError)
    requires "message" in q.envelope.params && q.envelope.params["message"] == Str("hi")
    ensures var final := Step(q, Run(q, Initial, SetupEvents(q)), ReplyArrives(Success(EchoReply(q.envelope))));
      && final.response.status == StatusOK
      && final.response.body.Message?
      && final.response.body.msg.requestUid == q.envelope.requestUid
      && final.response.body.msg.payload == Some(Obj(map["message" := Str("hi")]))
  {
    EchoRoundTrip(q, 0);
  }

  /** When the timeout fires before the echo's reply arrives, the reply is
      discarded and the response stays a 504. */
  lemma TimeoutBeatsEcho(q: Request)
    requires TimeoutArmed(q.route)
    ensures var b := Run(q, Initial, SetupEvents(q));
      var final := Step(q, Step(q, b, TimerFires), ReplyArrives(Success(EchoReply(q.envelope))));
      && final.response.status == StatusGatewayTimeout
      && final.response.body.Message?
      && final.response.body.msg.error == Some(TimeoutMessage(q.route.timeout.value))
      && final.phase.Returned?
  {
    SetupTrace(q);
    var b := Run(q, Initial, SetupEvents(q));
    InvInitial(q);
    InvRun(q, Initial, SetupEvents(q));
    LateReplyDiscarded(q, b, Success(EchoReply(q.envelope)));
  }
}
