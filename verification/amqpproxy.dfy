/** The AMQP proxy middleware: one request relayed to a queue and the
    reply, timeout or broker error written back to the HTTP response.

    The asynchronous relay is modelled as a state machine driven by a
    sequence of events. A broker step succeeds or throws; a reply delivery
    arrives (its JSON either decodes or not); the timeout callback runs.
    Settling the relay's promise and running the code after its `await` form
    one step, as the continuation runs before the next timer or I/O callback.
    Broker calls appear as effects in a trace. */
module AmqpProxy {
  import opened Wrappers
  import opened Values
  import opened Decimal
  import opened Objects
  import opened Messages
  import opened Config
  import opened ErrorHandler

  /** What `createAmqpProxy` fixes for one route. */
  datatype ProxyRoute = ProxyRoute(
    httpMethod: HttpMethod,
    exchange: string,
    queue: string,
    replyToQueue: string,
    timeout: Option<int>)

  /** `createAmqpProxy`: the service's exchange and queue win over the
      broker-wide ones whenever they are given (`??`). */
  function CreateProxy(mq: MqConfig, svc: ServiceConfig): (p: ProxyRoute)
    ensures svc.exchangeName.Some? ==> p.exchange == svc.exchangeName.value
    ensures svc.exchangeName.None? ==> p.exchange == mq.exchangeName
    ensures svc.queueName.Some? ==> p.queue == svc.queueName.value
    ensures svc.queueName.None? ==> p.queue == mq.queueName
    ensures p.replyToQueue == mq.replyToQueue && p.timeout == mq.timeout && p.httpMethod == svc.httpMethod
  {
    ProxyRoute(svc.httpMethod, svc.exchangeName.GetOr(mq.exchangeName), svc.queueName.GetOr(mq.queueName),
               mq.replyToQueue, mq.timeout)
  }

  /** Queue durability and the header allow-list play no part in the route. */
  lemma ProxyIgnoresDurabilityAndHeaders(mq: MqConfig, svc: ServiceConfig, durable: Option<bool>, headers: Option<seq<string>>)
    ensures CreateProxy(mq, svc.(isDurableQueue := durable, allowedHeaders := headers)) == CreateProxy(mq, svc)
  {
  }

  /** `params`: the body's entries merged first (when the body is truthy),
      then the path parameters; path parameters win, and no undefined value
      is ever copied. */
  function AssembleParams(body: Value, pathParams: map<string, Value>): (p: map<string, Value>)
    ensures forall k :: k in p ==> p[k] != Undefined
    ensures forall k :: k in pathParams && pathParams[k] != Undefined ==> k in p && p[k] == pathParams[k]
    ensures forall k :: (k !in pathParams || pathParams[k] == Undefined) ==>
      (k in p <==> Truthy(body) && k in Entries(body) && Entries(body)[k] != Undefined)
    ensures forall k :: k in p && (k !in pathParams || pathParams[k] == Undefined) ==> Truthy(body) && p[k] == Entries(body)[k]
  {
    var fromBody := if Truthy(body) then Merge(map[], Entries(body)) else map[];
    Merge(fromBody, pathParams)
  }

  /** The random part of a request id: `Math.floor(Math.random() * 1000000)`. */
  function RandomPart(random: real): (x: nat)
    requires 0.0 <= random < 1.0
    ensures x < 1000000
  {
    (random * 1000000.0).Floor
  }

  /** `${t}_${x}`. */
  function UidText(t: nat, x: nat): string {
    NatToDecimal(t) + "_" + NatToDecimal(x)
  }

  /** `generateRequestUid`, with the clock reading (milliseconds) and the
      random number passed in. */
  function GenerateRequestUid(now: nat, random: real): (uid: string)
    requires 0.0 <= random < 1.0
    ensures var t := NatToDecimal(now);
      && |uid| > |t| + 1 && uid[..|t|] == t && uid[|t|] == '_'
      && AllDigits(uid[|t| + 1..]) && ParseDecimal(uid[|t| + 1..]) < 1000000
  {
    var x := RandomPart(random);
    UidTextShape(now, x);
    ParseOfDecimal(x);
    UidText(now, x)
  }

  /** An id is the clock digits, an underscore, then the random digits. */
  lemma UidTextShape(t: nat, x: nat)
    ensures var u, d := UidText(t, x), NatToDecimal(t);
      && |u| > |d| + 1 && u[..|d|] == d && u[|d|] == '_' && u[|d| + 1..] == NatToDecimal(x)
  {
    var d, e := NatToDecimal(t), NatToDecimal(x);
    assert UidText(t, x) == d + ("_" + e);
  }

  /** A request id determines the clock reading and the random part it was
      made from. */
  lemma UidTextInjective(t1: nat, x1: nat, t2: nat, x2: nat)
    requires UidText(t1, x1) == UidText(t2, x2)
    ensures t1 == t2 && x1 == x2
  {
    var a, b := NatToDecimal(t1), NatToDecimal(t2);
    var u := UidText(t1, x1);
    assert u[|a|] == '_';
    assert UidText(t2, x2)[|b|] == '_';
    assert |a| == |b|;
    assert a == u[..|a|] == b;
    DecimalInjective(t1, t2);
    assert NatToDecimal(x1) == u[|a| + 1..] == NatToDecimal(x2);
    DecimalInjective(x1, x2);
  }

  /** The request a route builds from an incoming call: the awaited body
      (reading it may throw, which ends the middleware before any broker
      work), the path parameters, the URL path, and the clock and random
      readings for the id. `lastError` is `ctx.state.lastError`, which the
      proxy only reads. */
  datatype Request = Request(route: ProxyRoute, envelope: RequestEnvelope, lastError: Option<Thrown>)

  function NewRequest(route: ProxyRoute, body: Result<Value, Thrown>, pathParams: map<string, Value>,
                      pathname: string, now: nat, random: real, lastError: Option<Thrown>): (r: Result<Request, Thrown>)
    requires 0.0 <= random < 1.0
    ensures body.Failure? ==> r == Failure(body.error)
    ensures r.Success? ==> r.value.envelope.httpMethod == route.httpMethod && r.value.envelope.endpoint == pathname
    ensures r.Success? ==> r.value.envelope.requestUid == UidText(now, RandomPart(random))
    ensures r.Success? ==> r.value.envelope.params == AssembleParams(body.value, pathParams)
  {
    var b :- body;
    var uid := GenerateRequestUid(now, random);
    Success(Request(route, RequestEnvelope(route.httpMethod, pathname, uid, AssembleParams(b, pathParams)), lastError))
  }

  /** Where the relay is. */
  datatype Phase =
    | Connecting
    | OpeningChannel
    | DeclaringExchange
    | DeclaringQueue
    | Subscribing     // consume requested, not yet confirmed
    | AwaitingReply   // consumer registered, request published
    | Returned        // the relay has returned to the middleware

  /** Broker and timer calls the relay makes, in order. */
  datatype Effect =
    | Connect
    | OpenChannel
    | DeclareExchange(exchange: string)
    | DeclareQueue(queue: string)
    | ArmTimer(msecs: int)
    | ClearTimer
    | Consume(replyQueue: string)
    | Publish(exchange: string, routingKey: string, props: PublishProps, message: RequestEnvelope)
    | CancelConsumer
    | CloseChannel

  datatype Event =
    | BrokerOk                                          // the pending broker step completes
    | BrokerFails(err: Thrown)                          // the pending broker step throws
    | ReplyArrives(decoded: Result<ResponseMessage, Thrown>)  // a delivery on the reply queue
    | TimerFires                                        // the request timeout callback runs

  datatype Bridge = Bridge(
    phase: Phase,
    response: Response,
    channelOpened: bool,      // `channel` has been assigned
    consumerRegistered: bool, // `replyConsumeResult` has been assigned
    consumerActive: bool,     // deliveries still reach the reply handler
    timerIdHeld: bool,            // `reqTimerId` holds an id
    timerPending: bool,       // that timeout has neither fired nor been cleared
    effects: seq<Effect>)

  /** The state when the relay starts: Oak's initial 404 and no body. */
  const Initial := Bridge(Connecting, Response(StatusNotFound, NoBody), false, false, false, false, false, [])

  /** A timeout is armed only when the configured value is truthy. */
  predicate TimeoutArmed(route: ProxyRoute) {
    route.timeout.Some? && route.timeout.value != 0
  }

  function TimeoutMessage(msecs: int): string {
    "Request timed out after: " + IntToDecimal(msecs) + " msecs"
  }

  /** The error text `sendGatewayError` reports: a string as it is, else
      the error's message, else its string conversion. */
  function GatewayErrorText(t: Thrown): string {
    match t
    case ThrownString(s) => s
    case ThrownError(m) => m
    case ThrownOther(d) => d
  }

  /** `sendGatewayError`: the given status, or 502 when it is absent or 0,
      and an error body carrying the request id. */
  function SendGatewayError(uid: string, err: Thrown, status: Option<int>): (r: Response)
    ensures status.Some? && status.value != 0 ==> r.status == status.value
    ensures status.None? || status.value == 0 ==> r.status == StatusBadGateway
    ensures r.body.Message? && r.body.msg.requestUid == uid
    ensures r.body.msg.payload.None? && r.body.msg.headers.None?
    ensures err.ThrownString? ==> r.body.msg.error == Some(err.text)
    ensures err.ThrownError? ==> r.body.msg.error == Some(err.message)
    ensures err.ThrownOther? ==> r.body.msg.error == Some(err.display)
  {
    var code := if status.Some? && status.value != 0 then status.value else StatusBadGateway;
    Response(code, Message(ResponseMessage(uid, None, None, Some(GatewayErrorText(err)))))
  }

  /** `createProxyErrorFormatter`: an error-shaped reply with an empty id
      and the error's message (absent when the thrown value has none). */
  function ProxyErrorFormatter(t: Thrown): (b: Body)
    ensures b.Message? && b.msg.requestUid == "" && b.msg.payload.None? && b.msg.headers.None?
    ensures b.msg.error.Some? <==> t.ThrownError?
    ensures t.ThrownError? ==> b.msg.error == Some(t.message)
  {
    Message(ResponseMessage("", None, None, MessageOf(t)))
  }

  /** The formatter inside the error-handling middleware: a recorded error
      keeps the status and answers with the error-shaped reply. For an
      `Error` that reply carries the same text the gateway-error writer
      puts in its body for an empty request id. */
  lemma ProxyErrorReply(resp: Response, t: Thrown)
    ensures ErrorSet(Some(t)) ==>
      AfterNext(resp, Some(t), Some(ProxyErrorFormatter)) ==
      Response(resp.status, Message(ResponseMessage("", None, None, MessageOf(t))))
    ensures !ErrorSet(Some(t)) ==> AfterNext(resp, Some(t), Some(ProxyErrorFormatter)) == resp
    ensures t.ThrownError? ==> ProxyErrorFormatter(t) == SendGatewayError("", t, None).body
  {
  }

  /** The request as published: to the route's exchange with the queue as
      routing key, JSON content, the request id as correlation id and the
      configured reply queue. */
  function PublishOf(q: Request): Effect {
    Publish(q.route.exchange, q.route.queue,
            PublishProps(JsonContentType, Some(q.envelope.requestUid), Some(q.route.replyToQueue)),
            q.envelope)
  }

  /** The `catch` of the relay: clear the timeout, write 502, then cancel the
      consumer if consuming had succeeded and close the channel if it had
      been opened. Cleanup errors are logged and swallowed. */
  function ErrorPath(q: Request, b: Bridge, err: Thrown): Bridge {
    var clear := if b.timerIdHeld then [ClearTimer] else [];
    var cancel := if b.channelOpened && b.consumerRegistered then [CancelConsumer] else [];
    var close := if b.channelOpened then [CloseChannel] else [];
    b.(phase := Returned,
       response := SendGatewayError(q.envelope.requestUid, err, None),
       consumerActive := false, timerIdHeld := false, timerPending := false,
       effects := b.effects + clear + cancel + close)
  }

  /** The reply handler's acceptance test: the status is still 404 (Oak's
      initial value) or below 300, and no error has been recorded. */
  predicate ReplyAccepted(status: int, lastError: Option<Thrown>) {
    (status == StatusNotFound || status < 300) && !ErrorSet(lastError)
  }

  /** Resolving the relay's promise: the relay returns, unless it already has. */
  function Resolve(b: Bridge): Bridge {
    if b.phase == AwaitingReply then b.(phase := Returned) else b
  }

  /** Rejecting it: the relay's `catch` runs, unless it already returned. */
  function Reject(q: Request, b: Bridge, err: Thrown): Bridge {
    if b.phase == AwaitingReply then ErrorPath(q, b, err) else b
  }

  /** `onReplyMessage`: disarm the timeout first; then discard the reply if
      the response already ended or an error is recorded; otherwise decode
      it and commit it with status 200. A decoding failure rejects. The
      reply's request id is not compared with the request's. */
  function OnReply(q: Request, b: Bridge, decoded: Result<ResponseMessage, Thrown>): Bridge {
    var cleared := b.(timerIdHeld := false, timerPending := false,
                      effects := b.effects + (if b.timerIdHeld then [ClearTimer] else []));
    if !ReplyAccepted(b.response.status, q.lastError) then Resolve(cleared)
    else match decoded
      case Failure(err) => Reject(q, cleared, err)
      case Success(msg) => Resolve(cleared.(response := Response(StatusOK, Message(msg))))
  }

  predicate InSetup(p: Phase) {
    p.Connecting? || p.OpeningChannel? || p.DeclaringExchange? || p.DeclaringQueue? || p.Subscribing?
  }

  /** A broker step completing: the relay moves on to the next step. After
      `declareQueue` the timeout is armed when configured and the consumer
      requested; once consuming is confirmed the request is published. */
  function BrokerStepDone(q: Request, b: Bridge): Bridge {
    match b.phase
    case Connecting => b.(phase := OpeningChannel, effects := b.effects + [Connect])
    case OpeningChannel =>
      b.(phase := if q.route.exchange != "" then DeclaringExchange else DeclaringQueue,
         channelOpened := true, effects := b.effects + [OpenChannel])
    case DeclaringExchange =>
      b.(phase := DeclaringQueue, effects := b.effects + [DeclareExchange(q.route.exchange)])
    case DeclaringQueue =>
      var armed := TimeoutArmed(q.route);
      b.(phase := Subscribing, timerIdHeld := armed, timerPending := armed,
         effects := b.effects + [DeclareQueue(q.route.queue)]
                    + (if armed then [ArmTimer(q.route.timeout.value)] else [])
                    + [Consume(q.route.replyToQueue)])
    case Subscribing =>
      b.(phase := AwaitingReply, consumerRegistered := true, consumerActive := true,
         effects := b.effects + [PublishOf(q)])
    case _ => b
  }

  /** The timeout callback: `sendGatewayError` with 504 and the timeout
      message. It neither settles the relay nor touches the broker. */
  function TimeoutFired(q: Request, b: Bridge): Bridge {
    var msecs := q.route.timeout.GetOr(0);
    b.(timerPending := false,
       response := SendGatewayError(q.envelope.requestUid, ThrownError(TimeoutMessage(msecs)), Some(StatusGatewayTimeout)))
  }

  /** One event. A broker failure matters only while a broker step is
      pending, a delivery only while the consumer is active, and the
      timeout only while it is pending. */
  function Step(q: Request, b: Bridge, e: Event): Bridge {
    match e
    case BrokerOk => BrokerStepDone(q, b)
    case BrokerFails(err) => if InSetup(b.phase) then ErrorPath(q, b, err) else b
    case ReplyArrives(decoded) => if b.consumerActive then OnReply(q, b, decoded) else b
    case TimerFires => if b.timerPending then TimeoutFired(q, b) else b
  }

  function Run(q: Request, b: Bridge, es: seq<Event>): Bridge
    decreases |es|
  {
    if |es| == 0 then b else Run(q, Step(q, b, es[0]), es[1..])
  }

  /** Every broker call in the trace is addressed as the route says: the
      exchange is declared only when non-empty, the declared queue is the
      route's, the consumer listens on the reply queue, the timer carries the
      configured timeout, and the only message published is the request. */
  predicate EffectAddressed(q: Request, e: Effect) {
    match e
    case DeclareExchange(x) => x == q.route.exchange && x != ""
    case DeclareQueue(x) => x == q.route.queue
    case Consume(x) => x == q.route.replyToQueue
    case ArmTimer(ms) => TimeoutArmed(q.route) && ms == q.route.timeout.value
    case Publish(_, _, _, _) => e == PublishOf(q)
    case _ => true
  }

  /** What holds of every state the relay can reach. */
  ghost predicate Inv(q: Request, b: Bridge) {
    && (b.consumerActive ==> b.consumerRegistered)
    && (b.consumerRegistered ==> b.channelOpened)
    && (b.timerPending ==> b.timerIdHeld)
    && (b.timerIdHeld ==> TimeoutArmed(q.route))
    && (b.phase.Connecting? || b.phase.OpeningChannel? ==> !b.channelOpened)
    && (b.phase.DeclaringExchange? || b.phase.DeclaringQueue? || b.phase.Subscribing? || b.phase.AwaitingReply? ==> b.channelOpened)
    && (b.phase.Connecting? || b.phase.OpeningChannel? || b.phase.DeclaringExchange? || b.phase.DeclaringQueue? ==> !b.timerIdHeld)
    && (InSetup(b.phase) ==> !b.consumerRegistered)
    && (b.phase.AwaitingReply? ==> b.consumerActive)
    && (b.phase.DeclaringExchange? ==> q.route.exchange != "")
    && (b.phase.Returned? ==> !b.timerPending)
    && (CloseChannel in b.effects ==> b.phase.Returned? && !b.consumerActive && b.response.status == StatusBadGateway)
    && (forall e :: e in b.effects ==> EffectAddressed(q, e))
  }

  lemma InvInitial(q: Request)
    ensures Inv(q, Initial)
  {
  }

  lemma InvStep(q: Request, b: Bridge, e: Event)
    requires Inv(q, b)
    ensures Inv(q, Step(q, b, e))
  {
    match e
    case BrokerOk => InvBrokerStepDone(q, b);
    case BrokerFails(err) => if InSetup(b.phase) { InvErrorPath(q, b, err); }
    case ReplyArrives(d) => if b.consumerActive { InvOnReply(q, b, d); }
    case TimerFires =>
  }

  lemma InvBrokerStepDone(q: Request, b: Bridge)
    requires Inv(q, b)
    ensures Inv(q, BrokerStepDone(q, b))
  {
    var b' := BrokerStepDone(q, b);
    forall x | x in b'.effects
      ensures EffectAddressed(q, x)
    {
    }
  }

  /** The error path keeps every invariant whenever a failure can reach it:
      during setup, or while awaiting a reply. */
  lemma InvErrorPath(q: Request, b: Bridge, err: Thrown)
    requires Inv(q, b)
    requires InSetup(b.phase) || b.phase.AwaitingReply?
    ensures Inv(q, ErrorPath(q, b, err))
  {
    var b' := ErrorPath(q, b, err);
    forall x | x in b'.effects
      ensures EffectAddressed(q, x)
    {
    }
  }

  lemma InvOnReply(q: Request, b: Bridge, d: Result<ResponseMessage, Thrown>)
    requires Inv(q, b) && b.consumerActive
    ensures Inv(q, OnReply(q, b, d))
  {
    var cleared := b.(timerIdHeld := false, timerPending := false,
                      effects := b.effects + (if b.timerIdHeld then [ClearTimer] else []));
    assert Inv(q, cleared) by {
      forall x | x in cleared.effects
        ensures EffectAddressed(q, x)
      {
      }
    }
    if ReplyAccepted(b.response.status, q.lastError) && d.Failure? && b.phase.AwaitingReply? {
      InvErrorPath(q, cleared, d.error);
    }
  }

  lemma {:induction false} InvRun(q: Request, b: Bridge, es: seq<Event>)
    requires Inv(q, b)
    ensures Inv(q, Run(q, b, es))
    decreases |es|
  {
    if |es| > 0 {
      InvStep(q, b, es[0]);
      InvRun(q, Step(q, b, es[0]), es[1..]);
    }
  }

  /** The reply rule. A reply that fails the acceptance test changes neither
      status nor body; an accepted reply that decodes is committed with
      status 200; an accepted reply that does not decode takes the error
      path while the relay is still waiting, and is ignored once it has
      returned. In every case the timeout is disarmed. */
  lemma ReplyRule(q: Request, b: Bridge, decoded: Result<ResponseMessage, Thrown>)
    requires Inv(q, b) && b.consumerActive
    ensures var b' := Step(q, b, ReplyArrives(decoded));
      && !b'.timerPending
      && b'.phase.Returned?
      && (!ReplyAccepted(b.response.status, q.lastError) ==> b'.response == b.response)
      && (ReplyAccepted(b.response.status, q.lastError) && decoded.Success? ==>
            b'.response == Response(StatusOK, Message(decoded.value)))
      && (ReplyAccepted(b.response.status, q.lastError) && decoded.Failure? && b.phase.AwaitingReply? ==>
            b'.response == SendGatewayError(q.envelope.requestUid, decoded.error, None))
      && (ReplyAccepted(b.response.status, q.lastError) && decoded.Failure? && b.phase.Returned? ==>
            b'.response == b.response)
  {
  }

  /** A reply that does not decode never yields a 200: while the relay
      waits it ends in 502 with the decoding error, and the consumer is
      cancelled and the channel closed. */
  lemma UndecodableReplyIsBadGateway(q: Request, b: Bridge, err: Thrown)
    requires Inv(q, b) && b.phase.AwaitingReply?
    requires ReplyAccepted(b.response.status, q.lastError)
    ensures var b' := Step(q, b, ReplyArrives(Failure(err)));
      && b'.response.status == StatusBadGateway
      && b'.response.body.msg.error == Some(GatewayErrorText(err))
      && b'.effects[|b'.effects| - 2..] == [CancelConsumer, CloseChannel]
      && !b'.consumerActive
  {
  }

  /** The timeout writes 504 and its message whatever the response held,
      and does not settle the relay: the phase and the broker trace are
      untouched. */
  lemma TimeoutWrites504(q: Request, b: Bridge)
    requires Inv(q, b) && b.timerPending
    ensures var b' := Step(q, b, TimerFires);
      && b'.response.status == StatusGatewayTimeout
      && b'.response.body == Message(ResponseMessage(q.envelope.requestUid, None, None,
                                                     Some(TimeoutMessage(q.route.timeout.value))))
      && b'.phase == b.phase
      && b'.effects == b.effects
      && !b'.timerPending
  {
  }

  /** A broker failure while setting up: the timeout is cleared if one was
      set, 502 is written with the failure's text and the request id, the
      channel is closed exactly when it had been opened, no consumer exists
      yet to cancel, and the relay returns without throwing. */
  lemma BrokerFailureRule(q: Request, b: Bridge, err: Thrown)
    requires Inv(q, b) && InSetup(b.phase)
    ensures var b' := Step(q, b, BrokerFails(err));
      && b'.phase.Returned?
      && b'.response == Response(StatusBadGateway, Message(ResponseMessage(q.envelope.requestUid, None, None, Some(GatewayErrorText(err)))))
      && !b'.timerPending && !b'.consumerActive
      && b'.effects == b.effects + (if b.timerIdHeld then [ClearTimer] else []) + (if b.channelOpened then [CloseChannel] else [])
      && CancelConsumer !in b'.effects[|b.effects|..]
  {
  }

  /** Once the relay has returned, no event writes a timeout or an error
      again: the response keeps what it had, or a later accepted reply
      overwrites it with status 200. */
  lemma {:induction false} NothingFailsAfterReturn(q: Request, b: Bridge, es: seq<Event>)
    requires Inv(q, b) && b.phase.Returned?
    ensures Run(q, b, es).phase.Returned?
    ensures Run(q, b, es).response == b.response || Run(q, b, es).response.status == StatusOK
    ensures Run(q, b, es).response.status == StatusGatewayTimeout ==> b.response.status == StatusGatewayTimeout
    decreases |es|
  {
    if |es| > 0 {
      var b1 := Step(q, b, es[0]);
      InvStep(q, b, es[0]);
      assert b1.response == b.response || b1.response.status == StatusOK;
      NothingFailsAfterReturn(q, b1, es[1..]);
    }
  }

  /** Handling a reply disarms the timeout for good: whatever follows, a
      504 can only be there if it was written before the reply. */
  lemma NoTimeoutAfterReply(q: Request, b: Bridge, d: Result<ResponseMessage, Thrown>, es: seq<Event>)
    requires Inv(q, b) && b.consumerActive
    ensures Run(q, Step(q, b, ReplyArrives(d)), es).response.status == StatusGatewayTimeout ==>
      b.response.status == StatusGatewayTimeout
  {
    var b1 := Step(q, b, ReplyArrives(d));
    InvStep(q, b, ReplyArrives(d));
    NothingFailsAfterReturn(q, b1, es);
  }

  /** The timeout does not end the relay: without a reply the relay keeps
      waiting whatever else happens, and its channel is never closed. */
  lemma {:induction false} TimeoutDoesNotSettle(q: Request, b: Bridge, es: seq<Event>)
    requires Inv(q, b) && b.phase.AwaitingReply?
    requires forall i :: 0 <= i < |es| ==> !es[i].ReplyArrives?
    ensures Run(q, b, es).phase.AwaitingReply?
    ensures Run(q, b, es).effects == b.effects
    decreases |es|
  {
    if |es| > 0 {
      InvStep(q, b, es[0]);
      TimeoutDoesNotSettle(q, Step(q, b, es[0]), es[1..]);
    }
  }

  /** A reply that arrives after the timeout has written 504 is discarded:
      the 504 stays, the relay returns and nothing is cleaned up. */
  lemma LateReplyDiscarded(q: Request, b: Bridge, d: Result<ResponseMessage, Thrown>)
    requires Inv(q, b) && b.phase.AwaitingReply? && b.timerPending
    ensures var b1 := Step(q, b, TimerFires);
      var b2 := Step(q, b1, ReplyArrives(d));
      && b2.response == b1.response
      && b2.response.status == StatusGatewayTimeout
      && b2.phase.Returned?
      && CloseChannel !in b2.effects
  {
  }

  /** The channel is closed only on the error path: in every run, a closed
      channel means the response is a 502, so a committed reply (200) or a
      timeout (504) never closes it. */
  lemma ChannelClosedOnlyOnError(q: Request, es: seq<Event>)
    ensures CloseChannel in Run(q, Initial, es).effects ==> Run(q, Initial, es).response.status == StatusBadGateway
    ensures Run(q, Initial, es).response.status == StatusOK ==> CloseChannel !in Run(q, Initial, es).effects
  {
    InvRun(q, Initial, es);
  }

  /** Every broker call of every run is addressed as the route says; in
      particular an exchange is declared only when it is non-empty, and
      what is published is the request envelope to the route's queue, with
      the request id as correlation id and the configured reply queue. */
  lemma RunAddressing(q: Request, es: seq<Event>, x: Effect)
    requires x in Run(q, Initial, es).effects
    ensures x.DeclareExchange? ==> x.exchange == q.route.exchange && q.route.exchange != ""
    ensures x.Publish? ==> x.exchange == q.route.exchange && x.routingKey == q.route.queue
    ensures x.Publish? ==> x.props == PublishProps(JsonContentType, Some(q.envelope.requestUid), Some(q.route.replyToQueue))
    ensures x.Publish? ==> x.message == q.envelope
    ensures x.Consume? ==> x.replyQueue == q.route.replyToQueue
  {
    InvRun(q, Initial, es);
  }

  /** The broker steps of a setup that goes well. */
  function SetupEvents(q: Request): seq<Event> {
    if q.route.exchange != "" then [BrokerOk, BrokerOk, BrokerOk, BrokerOk, BrokerOk]
    else [BrokerOk, BrokerOk, BrokerOk, BrokerOk]
  }

  /** A 504 is not final: when the timeout fires while `consume` is still
      pending and `consume` then throws, the error path overwrites the 504
      with a 502. */
  lemma TimeoutOverwrittenBySetupFailure(q: Request, b: Bridge, err: Thrown)
    requires b.phase.Subscribing? && b.timerPending
    ensures Step(q, b, TimerFires).response.status == StatusGatewayTimeout
    ensures Run(q, b, [TimerFires, BrokerFails(err)]).response.status == StatusBadGateway
    ensures Run(q, b, [TimerFires, BrokerFails(err)]).phase.Returned?
  {
    var b1 := Step(q, b, TimerFires);
    assert Run(q, b, [TimerFires, BrokerFails(err)]) == Run(q, b1, [BrokerFails(err)]);
    var b2 := Step(q, b1, BrokerFails(err));
    assert Run(q, b1, [BrokerFails(err)]) == Run(q, b2, []) == b2;
  }

  /** The trace of a setup that goes well: connect, open a channel, declare
      the exchange when there is one, declare the queue, arm the timeout when
      configured, consume from the reply queue and publish the request. */
  lemma SetupTrace(q: Request)
    ensures var b := Run(q, Initial, SetupEvents(q));
      && b.phase.AwaitingReply?
      && b.response == Initial.response
      && b.timerPending == TimeoutArmed(q.route)
      && b.effects == [Connect, OpenChannel]
                      + (if q.route.exchange != "" then [DeclareExchange(q.route.exchange)] else [])
                      + [DeclareQueue(q.route.queue)]
                      + (if TimeoutArmed(q.route) then [ArmTimer(q.route.timeout.value)] else [])
                      + [Consume(q.route.replyToQueue), PublishOf(q)]
  {
    var ok := [BrokerOk];
    var b1 := Run(q, Initial, ok);
    var b2 := Run(q, b1, ok);
    var b3 := Run(q, b2, ok);
    var b4 := Run(q, b3, ok);
    RunSplit(q, Initial, ok, ok);
    RunSplit(q, Initial, ok + ok, ok);
    RunSplit(q, Initial, ok + ok + ok, ok);
    if q.route.exchange != "" {
      var b5 := Run(q, b4, ok);
      RunSplit(q, Initial, ok + ok + ok + ok, ok);
      assert SetupEvents(q) == ok + ok + ok + ok + ok;
    } else {
      assert SetupEvents(q) == ok + ok + ok + ok;
    }
  }

  /** Running two event sequences one after the other. */
  lemma {:induction false} RunSplit(q: Request, b: Bridge, es1: seq<Event>, es2: seq<Event>)
    ensures Run(q, b, es1 + es2) == Run(q, Run(q, b, es1), es2)
    decreases |es1|
  {
    if |es1| > 0 {
      assert (es1 + es2)[1..] == es1[1..] + es2;
      RunSplit(q, Step(q, b, es1[0]), es1[1..], es2);
    } else {
      assert es1 + es2 == es2;
    }
  }
}
