/** The wire shapes and the response the gateway writes: the service route
    record, the request envelope the proxy actually publishes
    (`{method, endpoint, requestUid, params}`), the reply envelope, and the
    HTTP response's status and body. */
module Messages {
  import opened Wrappers
  import opened Values

  /** The service's HTTP method. The gateway's method enumeration is not
      part of this model: the four verbs it routes are named here, and any
      other method keeps the text it was configured with. `OtherMethod`
      never holds the text of one of the four routed verbs: a configured
      method equal to a routed verb is always that verb's named case. */
  datatype HttpMethod = Get | Post | Put | Delete | OtherMethod(text: string)

  /** One entry of the service list. Absent (or `null`) optional fields are
      `None`. */
  datatype ServiceConfig = ServiceConfig(
    httpMethod: HttpMethod,
    path: string,
    allowedHeaders: Option<seq<string>>,
    exchangeName: Option<string>,
    queueName: Option<string>,
    isDurableQueue: Option<bool>)

  /** The request envelope as published. */
  datatype RequestEnvelope = RequestEnvelope(
    httpMethod: HttpMethod,
    endpoint: string,
    requestUid: string,
    params: map<string, Value>)

  /** The reply envelope (`RestResponseMessage`). */
  datatype ResponseMessage = ResponseMessage(
    requestUid: string,
    headers: Option<map<string, string>>,
    payload: Option<Value>,
    error: Option<string>)

  /** A response body: none yet, a reply-shaped object, plain text, or the
      JSON text of a value. */
  datatype Body = NoBody | Message(msg: ResponseMessage) | Text(text: string) | JsonText(value: Value)

  datatype Response = Response(status: int, body: Body)

  /** The AMQP basic properties the gateway and the echo worker set. */
  datatype PublishProps = PublishProps(contentType: string, correlationId: Option<string>, replyTo: Option<string>)

  const JsonContentType := "application/json"

  /** HTTP status codes used by the gateway. */
  const StatusOK := 200
  const StatusNotFound := 404
  const StatusBadGateway := 502
  const StatusGatewayTimeout := 504
}
