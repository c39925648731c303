/** The server's route table and start-up result. Each configured service
    becomes one proxy route on the router verb matching its HTTP method; an
    unsupported method aborts the build, and `start` reports 0 or -1. */
module Server {
  import opened Wrappers
  import opened Values
  import opened Objects
  import opened Messages
  import opened Config
  import opened AmqpProxy
  import opened ErrorHandler

  datatype RouterVerb = RouterGet | RouterPost | RouterPut | RouterDelete

  /** One registration `router.<verb>(svc.path, proxy)`. */
  datatype RouteEntry = RouteEntry(verb: RouterVerb, path: string, proxy: ProxyRoute)

  function UnsupportedMethodMessage(text: string): string {
    "Unknown/unsupported HTTP Method: " + text
  }

  predicate Supported(m: HttpMethod) {
    !m.OtherMethod?
  }

  /** The `switch` on the service's method. */
  function VerbOf(m: HttpMethod): (r: Result<RouterVerb, string>)
    ensures r.Success? <==> Supported(m)
    ensures r.Failure? ==> r.error == UnsupportedMethodMessage(m.text)
  {
    match m
    case Get => Success(RouterGet)
    case Post => Success(RouterPost)
    case Put => Success(RouterPut)
    case Delete => Success(RouterDelete)
    case OtherMethod(t) => Failure(UnsupportedMethodMessage(t))
  }

  /** The index of the first service whose method is unsupported, or the
      length of the list when there is none. */
  function FirstUnsupported(services: seq<ServiceConfig>): (i: nat)
    ensures i <= |services|
    ensures forall j :: 0 <= j < i ==> Supported(services[j].httpMethod)
    ensures i < |services| ==> !Supported(services[i].httpMethod)
  {
    if |services| == 0 then 0
    else if !Supported(services[0].httpMethod) then 0
    else 1 + FirstUnsupported(services[1..])
  }

  /** The registration loop of `buildOakApp`, in list order: one route per
      service with no deduplication, or the error of the first unsupported
      method. */
  function BuildRoutes(mq: MqConfig, services: seq<ServiceConfig>): (r: Result<seq<RouteEntry>, string>)
    ensures r.Success? <==> FirstUnsupported(services) == |services|
    ensures r.Success? ==> |r.value| == |services|
    ensures r.Success? ==> forall i :: 0 <= i < |services| ==>
      r.value[i].path == services[i].path && r.value[i].proxy == CreateProxy(mq, services[i])
      && Success(r.value[i].verb) == VerbOf(services[i].httpMethod)
    ensures r.Failure? ==> r.error == UnsupportedMethodMessage(services[FirstUnsupported(services)].httpMethod.text)
  {
    if |services| == 0 then Success([])
    else
      var svc := services[0];
      var verb :- VerbOf(svc.httpMethod);
      var rest :- BuildRoutes(mq, services[1..]);
      Success([RouteEntry(verb, svc.path, CreateProxy(mq, svc))] + rest)
  }

  /** Services answering the same method and path are each registered. */
  lemma NoDeduplication(mq: MqConfig, svc: ServiceConfig)
    requires Supported(svc.httpMethod)
    ensures BuildRoutes(mq, [svc, svc]).Success?
    ensures |BuildRoutes(mq, [svc, svc]).value| == 2
  {
  }

  /** The formatter of the proxy router's error handler:
      `JSON.stringify({errorMessage: err.message})`, where an undefined
      message leaves the object empty. */
  function ProxyRouterFormatter(t: Thrown): (b: Body)
    ensures t.ThrownError? ==> b == JsonText(Obj(map["errorMessage" := Str(t.message)]))
    ensures !t.ThrownError? ==> b == JsonText(Obj(map[]))
  {
    var message := if MessageOf(t).Some? then Str(MessageOf(t).value) else Undefined;
    var fields := DefinedProps(map["errorMessage" := message]);
    assert !t.ThrownError? ==> fields == map[] by {
      if !t.ThrownError? {
        assert "errorMessage" !in fields;
      }
    }
    assert t.ThrownError? ==> fields == map["errorMessage" := Str(t.message)] by {
      if t.ThrownError? {
        assert fields.Keys == {"errorMessage"};
      }
    }
    JsonText(Obj(fields))
  }

  /** How `start` went: its return code and whether it got to listen. */
  datatype StartReport = StartReport(code: int, listened: bool)

  /** `start`: load the service list (its outcome is a parameter), build the
      routes, listen (whether listening throws is a parameter); 0 when all
      three succeed, -1 as soon as one throws. */
  function Start(mq: MqConfig, loaded: Result<seq<ServiceConfig>, Thrown>, listenThrows: Option<Thrown>): (r: StartReport)
    ensures r.code == 0 || r.code == -1
    ensures r.listened <==> loaded.Success? && FirstUnsupported(loaded.value) == |loaded.value|
    ensures r.code == 0 <==> r.listened && listenThrows.None?
  {
    if loaded.Failure? then StartReport(-1, false)
    else if BuildRoutes(mq, loaded.value).Failure? then StartReport(-1, false)
    else if listenThrows.Some? then StartReport(-1, true)
    else StartReport(0, true)
  }

  /** A service with an unsupported method anywhere in the list stops the
      start-up before listening, with code -1. */
  lemma UnsupportedMethodFailsStart(mq: MqConfig, services: seq<ServiceConfig>, i: nat, listenThrows: Option<Thrown>)
    requires i < |services| && !Supported(services[i].httpMethod)
    ensures Start(mq, Success(services), listenThrows) == StartReport(-1, false)
  {
  }

  /** The proxy router's error handler, when an `Error` is recorded, keeps
      the status and answers with the JSON `{errorMessage}` object. */
  lemma ProxyRouterErrorBody(resp: Response, message: string)
    ensures AfterNext(resp, Some(ThrownError(message)), Some(ProxyRouterFormatter)) ==
      Response(resp.status, JsonText(Obj(map["errorMessage" := Str(message)])))
  {
  }
}
