# deno-rest2amqp — a Dafny model of the REST→AMQP request/reply bridge

The gateway turns each HTTP request on a configured route into an AMQP
message. It publishes the message to the service's queue with a reply-to
address. The first reply that comes back becomes the HTTP response. A
timeout or a broker error writes an error status instead.

This project models that bridge and the small helpers around it, as pure
functions and event-driven state machines:

- **The proxy middleware** (`AmqpProxy`). It builds the request envelope
  `{method, endpoint, requestUid, params}`. It resolves the exchange and
  queue, with the service's values taking precedence over the broker-wide
  ones. The relay is a state machine over the events *broker step succeeds*,
  *broker step throws*, *reply delivered (decodes or not)* and *timeout
  fires*. The machine keeps the response (status and body), whether the
  channel was opened, whether the consumer was registered and is active,
  whether a timeout id is held and still pending, and a trace of broker and
  timer calls. When the relay's promise settles, the code after its `await`
  runs in the same step.
- **The `Timer` class** (`Timers`): the `start` guards, the timeout callback,
  success and failure of the raced operation, `stop`, and `isTimedOut`.
- **The object helpers** (`Objects`): `definedProps`, `merge` and
  `setProperty`, with objects as finite maps and dotted paths split on `.`.
- **Configuration** (`Config`): the defaults of `AppConfig` and `MqConfig`,
  their merging constructors, and `fromEnv` over an environment map.
- **The error-handling middleware** (`ErrorHandler`), **the route table and
  `start` code** (`Server`), and **the echo worker's message handler**
  (`Echo`), which is the other end of the round trip (`RoundTrip`).

Shared modules: `Wrappers` (`Option`, `Result`), `Decimal` (how `${n}`
prints an integer), `Values` (JavaScript values, truthiness, thrown values,
`Object.entries`) and `Messages` (wire shapes and the HTTP response).

The model follows the code, not an idealised bridge:

- The success path never cancels the consumer and never closes the channel.
  No path closes the connection.
- A timeout writes 504 but does not settle the relay. Without a reply the
  relay keeps waiting (`TimeoutDoesNotSettle`).
- A reply's request id is never compared with the request's.
- `isDurableQueue` and `allowedHeaders` play no part
  (`ProxyIgnoresDurabilityAndHeaders`).
- Only the body and the path parameters go into `params`. Query parameters
  are not merged, and no headers are forwarded.
- A late reply is discarded only when the status is 300 or more (other than
  404) or when `lastError` is set. After a 200 has been committed, another
  accepted reply overwrites it.

The code filters no headers and merges no query parameters. It can
overwrite one outcome with another: a 504 written while `consume` is
pending becomes a 502 if `consume` then fails
(`TimeoutOverwrittenBySetupFailure`). It cleans up only on the error path.

## Model

| member | source | states |
|---|---|---|
| Values.Entries | src/utils/utils.ts:9 | `Object.entries` of an object is its own properties. Of a string it is its characters (Unicode scalar values) keyed by decimal index. Of a number or boolean it is empty. It is defined for every value except `undefined` and `null`, on which `Object.entries` throws and which every caller guards against. |
| Objects.DefinedProps | src/utils/utils.ts:7-11 | Keeps exactly the entries whose value is not `undefined`, with their values unchanged. |
| Objects.DefinedPropsKeepsNull | src/utils/utils.ts:9 | A `null` value is kept; only `undefined` is dropped. |
| Objects.Merge | src/utils/utils.ts:3-5 | Every source key with a defined value overwrites the target. Undefined source values and keys missing from the source leave the target's key as it was, present or absent. |
| Objects.MergeIdempotent | src/utils/utils.ts:3-5 | Merging the same source twice equals merging it once. |
| Objects.MergeUndefinedOnly | src/utils/utils.ts:3-5 | A source whose values are all undefined leaves the target unchanged. |
| Objects.MergeTwice | src/utils/utils.ts:3-5 | After two merges, the later source's defined value wins, then the earlier source's, then the target's. |
| Objects.Split | src/utils/utils.ts:18 | `split(".")` yields at least one piece, and no piece contains the separator. |
| Objects.JoinSplit | src/utils/utils.ts:18 | Joining the pieces with the separator gives back the path, so splitting loses nothing. |
| Objects.SplitSingle | src/utils/utils.ts:18-22 | A path splits into the single piece `[path]` exactly when it has no dot. |
| Objects.SetProperty | src/utils/utils.ts:13-16 | Fails with "Invalid Target" exactly when the target is `undefined` or `null`. On success the target was an object and so is the result. |
| Objects.SetPathThenGet | src/utils/utils.ts:19-30 | After a successful write, reading the same segments yields the value written. |
| Objects.SetPropertyThenGet | src/utils/utils.ts:13-33 | After `setProperty(t, path, v)` succeeds, reading the dotted path of the returned target yields `v`. |
| Objects.SetPathOnFresh | src/utils/utils.ts:26-29 | Writing a path into a fresh empty object always succeeds. |
| Objects.SetPathOtherKeys | src/utils/utils.ts:19-30 | Only the first segment's property of the target changes. Every other key keeps its presence and value. |
| Objects.SetPathReusesObject | src/utils/utils.ts:24-25 | An existing intermediate object is reused, and its other properties are untouched. |
| Objects.SetPathCreatesObject | src/utils/utils.ts:26-29 | A missing or `null` intermediate becomes a fresh object that holds only the next segment. |
| Objects.SetPathThroughPrimitive | src/utils/utils.ts:20-25 | A primitive value in the way of the walk makes the write fail, as a strict-mode write to a primitive does. |
| Objects.SetPropertyPlainKey | src/utils/utils.ts:18-22 | A path without a dot sets `target[path]` and changes no other key. |
| Timers.Start | src/utils/timer.ts:16-21 | `start` while a timeout is pending fails with "timer is already running". Otherwise, after the timer has fired, it fails with "timer has already timed out". It succeeds, arming the timer, exactly when neither holds. |
| Timers.Stop | src/utils/timer.ts:47-50 | `stop` clears the pending id and never changes `timedOut`. |
| Timers.StopIdempotent | src/utils/timer.ts:47-50 | `stop` twice equals `stop` once, and `isTimedOut` is unaffected. |
| Timers.Begin | src/utils/timer.ts:11-24 | A race begins exactly when `start`'s guards pass, with the timer armed and nothing settled. Otherwise it fails with `start`'s error. |
| Timers.FireRejects | src/utils/timer.ts:25-32 | Firing clears the id, sets `timedOut` and calls `onTimeout` once. An unsettled race rejects with "timeout", or with what `onTimeout` threw. |
| Timers.OutcomeStable | src/utils/timer.ts:23-40 | The first settlement of the race is final; no later event changes it. |
| Timers.TimedOutSticky | src/utils/timer.ts:28 | Once `timedOut` is true it stays true whatever events follow. |
| Timers.OnTimeoutAtMostOnce | src/utils/timer.ts:25-34 | `onTimeout` runs at most once per race, and never while the id is still pending. |
| Timers.OpSuccessFirst | src/utils/timer.ts:36-39 | If the operation succeeds first, the race fulfils with its result. The timer is stopped, and the instance never times out or calls `onTimeout` afterwards. |
| Timers.RestartAfterSuccess | src/utils/timer.ts:36-39 | After a successful operation the same instance can be started again. |
| Timers.OpFailureLeavesTimerRunning | src/utils/timer.ts:36-39 | A failed operation rejects the race but does not stop the timer. A new `start` fails with "already running", and the timeout later still fires and sets `timedOut`. |
| Timers.NoStartAfterTimeout | src/utils/timer.ts:19-21 | After the timer has fired, every later `start` fails. |
| Config.NewMqConfig | src/app-config.ts:52-54 | Without attributes the broker configuration is exactly the defaults: localhost:5672, empty exchange and queue, reply queue "amq.rabbitmq.reply-to", no TLS, timeout 30000, no debug. |
| Config.MqConstructorIsMerge | src/app-config.ts:39-54 | The constructed object equals `merge` of the attributes over the defaults. Undefined attributes keep the default and defined ones override it. |
| Config.NumberIfSet | src/app-config.ts:57 | A number is produced exactly when the variable is set and non-empty, and it is that variable parsed. |
| Config.FlagPatternMatches | src/app-config.ts:70-71 | True exactly when the whole string equals one of 1, t, true, y, yes, ignoring the case of ASCII letters. |
| Config.FlagIfSet | src/app-config.ts:58-59 | An unset variable gives false; otherwise the flag is the pattern test. |
| Config.FlagPatternExamples | src/app-config.ts:70-71 | "TRUE", "Yes" and "1" match. "", "truex", " yes", "no" and "0" do not. |
| Config.MqFromEnvFields | src/app-config.ts:56-76 | Each broker field is read from the prefix plus its fixed suffix. Set strings override even when empty. An unset or empty PORT/TIMEOUT keeps 5672/30000. The flags follow the pattern. The reply queue is never read from the environment. |
| Config.NewAppConfig | src/app-config.ts:6-19 | Without attributes the application configuration is exactly the field initialisers: "deno-rest2amqp", "1.0.0", "*", "0.0.0.0", 9080, "conf/services.json", "conf/services", and the default broker configuration. With attributes, see `Config.AppConstructorIsMerge`. |
| Config.AppConstructorIsMerge | src/app-config.ts:6-19 | The constructed application configuration, property by property, equals `merge` of the attributes over the field initialisers. Undefined attributes keep the default, and a given broker configuration replaces the default one whole. |
| Config.AppFromEnvFields | src/app-config.ts:21-36 | `servicesFile` and `extServicesDir` always keep "conf/services.json" and "conf/services". The port is 9080 unless APP_PORT is set and non-empty. A set name variable overrides even when empty. The broker part is read under "MQ_". |
| ErrorHandler.MessageBody | src/middlewares/error-handler.ts:23 | The body is the error's message for an `Error`, and `undefined` for other thrown values. |
| ErrorHandler.AfterNext | src/middlewares/error-handler.ts:12-25 | The status is never changed. Without a (truthy) `lastError` the response is left exactly as produced. With one, the body becomes the formatter's result, or the message when there is no formatter. |
| ErrorHandler.AfterNextIdempotent | src/middlewares/error-handler.ts:12-25 | Running the handler twice gives the same response as running it once. |
| AmqpProxy.CreateProxy | src/middlewares/amqp-proxy.ts:20-23 | The service's exchange and queue are used whenever given, even when empty; otherwise the broker-wide ones. Reply queue, timeout and method come from the configuration. |
| AmqpProxy.ProxyIgnoresDurabilityAndHeaders | src/middlewares/amqp-proxy.ts:69-73 | Changing `isDurableQueue` or `allowedHeaders` changes nothing in the route. |
| AmqpProxy.AssembleParams | src/middlewares/amqp-proxy.ts:29-32 | A path parameter with a defined value always wins. A key absent from the path parameters comes from the body's entries, and only when the body is truthy. No undefined value is ever present. |
| AmqpProxy.RandomPart | src/middlewares/amqp-proxy.ts:167 | The random part of the id is below 1000000. |
| AmqpProxy.GenerateRequestUid | src/middlewares/amqp-proxy.ts:165-170 | The id is the decimal clock reading, an underscore, then a decimal number below 1000000. |
| AmqpProxy.UidTextInjective | src/middlewares/amqp-proxy.ts:169 | An id determines the clock reading and random part it was made from. |
| AmqpProxy.NewRequest | src/middlewares/amqp-proxy.ts:29-41 | A failing body read fails the middleware before any broker work. Otherwise the envelope carries the route's method, the URL path, the generated id and the assembled params. |
| AmqpProxy.SendGatewayError | src/middlewares/amqp-proxy.ts:172-188 | Sets the given status, or 502 when it is absent or 0. The body carries the same request id and no payload. A string error is used verbatim, else the error's message, else its string conversion. |
| AmqpProxy.ProxyErrorFormatter | src/middlewares/amqp-proxy.ts:156-163 | An error-shaped reply with an empty request id and the error's message, absent when the thrown value has none. |
| AmqpProxy.ProxyErrorReply | src/middlewares/amqp-proxy.ts:156-163 | Used as the error handler's formatter, it keeps the status and answers `{requestUid: "", error: message}` when an error is recorded, and leaves the response alone otherwise. For an `Error` its reply equals the gateway-error body for an empty request id. |
| AmqpProxy.InvRun | src/middlewares/amqp-proxy.ts:53-148 | The relay's invariants hold in every reachable state. A pending timeout was configured and armed. An active consumer implies an opened channel. The trace addresses every broker call as configured. A closed channel means the response is a 502. |
| AmqpProxy.ReplyRule | src/middlewares/amqp-proxy.ts:84-111 | A reply always disarms the timeout and ends the relay. If the status is neither 404 nor below 300, or `lastError` is set, status and body stay unchanged. Otherwise a decoded reply commits status 200 with that body. A reply that fails to decode writes 502 while the relay waits, and is ignored after it has returned. |
| AmqpProxy.UndecodableReplyIsBadGateway | src/middlewares/amqp-proxy.ts:103-148 | A reply that fails to decode never yields 200. It takes the error path: 502 with the decoding error, consumer cancelled, then channel closed. |
| AmqpProxy.TimeoutWrites504 | src/middlewares/amqp-proxy.ts:75-81 | The timeout unconditionally writes 504 with `{requestUid, error: "Request timed out after: N msecs"}`. It leaves the phase and the broker trace unchanged. |
| AmqpProxy.TimeoutDoesNotSettle | src/middlewares/amqp-proxy.ts:77-83 | Without a reply, the waiting relay stays waiting whatever else happens. Nothing is cleaned up. |
| AmqpProxy.LateReplyDiscarded | src/middlewares/amqp-proxy.ts:93-98 | A reply after the timeout's 504 is discarded: the 504 stays, the relay returns and the channel is not closed. |
| AmqpProxy.BrokerFailureRule | src/middlewares/amqp-proxy.ts:135-148 | A broker step that throws clears the timeout if one is held and writes 502 with the error. It closes the channel exactly when it was opened, and cancels no consumer during setup. The relay returns without throwing. |
| AmqpProxy.NothingFailsAfterReturn | src/middlewares/amqp-proxy.ts:84-107 | After the relay has returned, no event writes 504 or 502. The response stays, or a later accepted reply overwrites it with 200. |
| AmqpProxy.NoTimeoutAfterReply | src/middlewares/amqp-proxy.ts:84-87 | Once a reply has been handled, a 504 can only be present if it was written before that reply. |
| AmqpProxy.ChannelClosedOnlyOnError | src/middlewares/amqp-proxy.ts:135-148 | In every run a closed channel means a 502 response, so a committed 200 never comes with a closed channel. |
| AmqpProxy.RunAddressing | src/middlewares/amqp-proxy.ts:69-131 | In every run the exchange is declared only when non-empty and the consumer is on the reply queue. The only publish is the envelope to the resolved exchange, with routing key = queue, JSON content type, correlation id = request id and reply-to = configured queue. |
| AmqpProxy.TimeoutOverwrittenBySetupFailure | src/middlewares/amqp-proxy.ts:75-148 | A 504 written by the timeout while `consume` is pending is overwritten by 502 when `consume` then throws, and the relay returns. |
| AmqpProxy.SetupTrace | src/middlewares/amqp-proxy.ts:66-131 | A setup that goes well connects, opens a channel and declares the exchange when there is one. It declares the queue, arms the timeout exactly when it is truthy, consumes the reply queue and publishes, leaving the response untouched. |
| Server.VerbOf | src/server.ts:85-104 | The four supported methods map to router verbs. Any other fails with "Unknown/unsupported HTTP Method: <m>". |
| Server.BuildRoutes | src/server.ts:80-106 | Succeeds exactly when no method is unsupported. Then it yields one route per service in list order, with the matching verb, `svc.path` and the service's proxy. Otherwise it fails with the first unsupported method's error. |
| Server.NoDeduplication | src/server.ts:81-106 | The same service listed twice is registered twice. |
| Server.ProxyRouterFormatter | src/server.ts:107-111 | The proxy router's formatter yields the JSON `{errorMessage: message}`, or `{}` when the thrown value has no message. |
| Server.ProxyRouterErrorBody | src/server.ts:107-111 | With a recorded `Error`, the proxy router's error handler keeps the status and answers `{errorMessage}`. |
| Server.Start | src/server.ts:27-47 | Returns 0 exactly when loading, building and listening all succeed, and -1 otherwise. It listens exactly when loading and building succeeded. |
| Server.UnsupportedMethodFailsStart | src/server.ts:31-43 | An unsupported method anywhere in the list makes `start` return -1 without listening. |
| Echo.EchoSetup | backends/mq-echo/main.ts:20-37 | The exchange is declared exactly when it is non-empty. The consumed queue is always "echo". |
| Echo.EchoReply | backends/mq-echo/main.ts:58-63 | The reply's request id is the request's. Its payload is `{message}` holding the request's `params.message`, or `{}` when that is absent or undefined, as JSON serialisation leaves it. |
| Echo.OnIncomingMessage | backends/mq-echo/main.ts:39-75 | The message is always acked first. A malformed message, or one without `replyTo`, gets nothing more. A request whose `params` cannot be read gets the reply queue declared but no publish. A reply is published only after declaring the reply queue, with routing key = `replyTo` and JSON content type. |
| RoundTrip.EchoSetupMeetsGateway | backends/mq-echo/main.ts:20-37 | For a gateway route on the "echo" queue and the same exchange, both declare the exchange exactly when it is non-empty. The worker declares, as its reply queue, the queue the gateway consumes. Only on the default exchange does the worker consume the queue the gateway's routing key names. Neither program binds "echo" to a named exchange. |
| RoundTrip.EchoRoundTrip | backends/mq-echo/main.ts:46-71 | On the default exchange with queue "echo", the published request, answered by the echo worker and delivered to the gateway, commits 200 with the echoed reply and the same request id. The channel is left open. |
| RoundTrip.HiRoundTrip | backends/mq-echo/main.ts:58-63 | On the default exchange, a request whose `message` is "hi" comes back as 200 with payload `{message: "hi"}` and the request's id. |
| RoundTrip.TimeoutBeatsEcho | src/middlewares/amqp-proxy.ts:76-98 | If the timeout fires before the echo's reply, the response stays 504 with the timeout message. |

## Left out

- Real AMQP and HTTP I/O. Connect, declare, consume, publish, ack, cancel and close are events and trace entries. The Oak framework is not modelled, and the response is treated as always writable, even after Oak would have sent it.
- Promise scheduling and `setTimeout` timing. Event order is explicit, and the delay value is recorded but not simulated.
- The un-awaited `channel.publish` and `channel.cancel` promises. A later rejection of either escapes the relay's `catch`.
- Failure of `channel.close()` in the cleanup. It is caught and only logged, so the model has one cleanup outcome.
- JSON and UTF-8 encoding. Messages cross the broker as the values they decode to. A reply that decodes to something other than the reply shape, and arrays and non-integral numbers among values, are not modelled.
- `Number()` parsing of environment strings. It is a parameter `toNumber`, so NaN and fractional results are not modelled.
- `Date` and `Math.random`. They are parameters, and the clock reading is taken to be non-negative.
- Logging: `src/utils/logging.ts`, `src/middlewares/access-logger.ts`, the `logging` field of `AppConfig`, and the error handler's `console.error` for statuses of 500 and above.
- `src/utils/amqp-helper.ts` (a field copy into the client's option type), `cli.ts`, `mod.ts`, `src/test.ts`, the `/ping` route and CORS.
- Reading and parsing the service list file. Its outcome is a parameter of `Server.Start`.
- The HTTP method enumeration (`HttpMethod.ts`) is not part of this model. The four routed verbs are named cases, and any other method carries its configured text.
- Objects.SetProperty: JavaScript mutates the target in place and shares nested objects by reference. The model returns the updated target as a value. Prototype-chain properties (`toString`, `__proto__`) are not modelled.
- Objects.Merge: a source key `__proto__` is copied as an own property. JavaScript's `Object.assign` instead calls the prototype setter, so the target gets no such own key and `JSON.stringify` leaves it out. The same holds for a `__proto__` key of the request body in `AmqpProxy.AssembleParams`.
- Timers.Begin: each race holds its own copy of the timer state, while one `Timer` instance is shared. When races overlap on one instance, an earlier race's `stop()` clears a later race's timeout. That interaction is not modelled.
- Echo.OnIncomingMessage: a parsed request is either an envelope or one whose `params` cannot be read. A request id that is not a string, and `params` that is a primitive, are not modelled.
- RoundTrip.EchoRoundTrip: delivery is proved only on the default exchange, where the routing key names the queue. A named exchange needs a binding to "echo" that neither program makes. The broker is also taken to pass `replyTo` through unchanged, although RabbitMQ rewrites the direct reply-to name "amq.rabbitmq.reply-to" to a generated one. HiRoundTrip inherits both assumptions.
- Values.Entries: a string is indexed by Unicode scalar value, not by UTF-16 code unit. A character outside the Basic Multilingual Plane is one entry here, but two lone-surrogate entries in JavaScript. The same holds for a string request body in `AmqpProxy.AssembleParams`.
- Echo.EchoSetup: start-up failures of the worker, which exit the process.
