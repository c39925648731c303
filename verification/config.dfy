/** Application and broker configuration: class defaults, the constructor
    that merges defined attributes over them, and reading from the process
    environment, modelled as a map from variable names to values. Numeric
    parsing (`Number(...)`) is a parameter. */
module Config {
  import opened Wrappers
  import opened Values
  import opened Objects

  datatype MqConfig = MqConfig(
    host: string,
    port: int,
    user: Option<string>,
    password: Option<string>,
    vhost: Option<string>,
    exchangeName: string,
    queueName: string,
    replyToQueue: string,
    useTls: bool,
    timeout: Option<int>,
    debug: bool)

  const DefaultReplyToQueue := "amq.rabbitmq.reply-to"

  /** The field initialisers of `MqConfig`. */
  const MqDefaults := MqConfig("localhost", 5672, None, None, None, "", "", DefaultReplyToQueue, false, Some(30000), false)

  /** `Partial<MqConfig>`: `None` is an undefined attribute. */
  datatype MqAttrs = MqAttrs(
    host: Option<string>,
    port: Option<int>,
    user: Option<string>,
    password: Option<string>,
    vhost: Option<string>,
    exchangeName: Option<string>,
    queueName: Option<string>,
    replyToQueue: Option<string>,
    useTls: Option<bool>,
    timeout: Option<int>,
    debug: Option<bool>)

  const NoMqAttrs := MqAttrs(None, None, None, None, None, None, None, None, None, None, None)

  function Override<T>(current: Option<T>, attr: Option<T>): Option<T> {
    if attr.Some? then attr else current
  }

  /** `new MqConfig(attrs)`: defaults, then `merge(this, attrs)` when
      attributes are given. */
  function NewMqConfig(attrs: Option<MqAttrs>): (c: MqConfig)
    ensures attrs.None? ==> c == MqDefaults
  {
    var a := attrs.GetOr(NoMqAttrs);
    var d := MqDefaults;
    MqConfig(
      a.host.GetOr(d.host), a.port.GetOr(d.port),
      Override(d.user, a.user), Override(d.password, a.password), Override(d.vhost, a.vhost),
      a.exchangeName.GetOr(d.exchangeName), a.queueName.GetOr(d.queueName),
      a.replyToQueue.GetOr(d.replyToQueue), a.useTls.GetOr(d.useTls),
      Override(d.timeout, a.timeout), a.debug.GetOr(d.debug))
  }

  function StrOr(o: Option<string>): Value {
    if o.Some? then Str(o.value) else Undefined
  }

  function NumOr(o: Option<int>): Value {
    if o.Some? then Num(o.value) else Undefined
  }

  function BoolOr(o: Option<bool>): Value {
    if o.Some? then Bool(o.value) else Undefined
  }

  /** The property names of `MqConfig`. */
  datatype MqField = Host | Port | User | Password | Vhost | ExchangeName | QueueName | ReplyToQueue | UseTls | Timeout | Debug

  /** The value of property `f` of an `MqConfig` instance. */
  function MqValue(c: MqConfig, f: MqField): Value {
    match f
    case Host => Str(c.host)
    case Port => Num(c.port)
    case User => StrOr(c.user)
    case Password => StrOr(c.password)
    case Vhost => StrOr(c.vhost)
    case ExchangeName => Str(c.exchangeName)
    case QueueName => Str(c.queueName)
    case ReplyToQueue => Str(c.replyToQueue)
    case UseTls => Bool(c.useTls)
    case Timeout => NumOr(c.timeout)
    case Debug => Bool(c.debug)
  }

  /** The value of property `f` of a `Partial<MqConfig>`. */
  function MqAttrValue(a: MqAttrs, f: MqField): Value {
    match f
    case Host => StrOr(a.host)
    case Port => NumOr(a.port)
    case User => StrOr(a.user)
    case Password => StrOr(a.password)
    case Vhost => StrOr(a.vhost)
    case ExchangeName => StrOr(a.exchangeName)
    case QueueName => StrOr(a.queueName)
    case ReplyToQueue => StrOr(a.replyToQueue)
    case UseTls => BoolOr(a.useTls)
    case Timeout => NumOr(a.timeout)
    case Debug => BoolOr(a.debug)
  }

  /** An `MqConfig` instance seen as a JavaScript object. */
  function MqObject(c: MqConfig): map<MqField, Value> {
    map f: MqField :: MqValue(c, f)
  }

  /** A `Partial<MqConfig>` seen as a JavaScript object. */
  function MqAttrsObject(a: MqAttrs): map<MqField, Value> {
    map f: MqField :: MqAttrValue(a, f)
  }

  /** Property by property, the constructed value is the attribute when it
      is defined and the default otherwise. */
  lemma MqFieldOverride(a: MqAttrs, f: MqField)
    ensures MqValue(NewMqConfig(Some(a)), f) ==
      (if MqAttrValue(a, f) != Undefined then MqAttrValue(a, f) else MqValue(MqDefaults, f))
  {
    match f
    case Host =>
    case Port =>
    case User =>
    case Password =>
    case Vhost =>
    case ExchangeName =>
    case QueueName =>
    case ReplyToQueue =>
    case UseTls =>
    case Timeout =>
    case Debug =>
  }

  /** The constructor is exactly `merge` of the attributes over the
      defaults: undefined attributes keep the default, defined ones win. */
  lemma MqConstructorIsMerge(a: MqAttrs)
    ensures MqObject(NewMqConfig(Some(a))) == Merge(MqObject(MqDefaults), MqAttrsObject(a))
  {
    var lhs := MqObject(NewMqConfig(Some(a)));
    var rhs := Merge(MqObject(MqDefaults), MqAttrsObject(a));
    forall f: MqField
      ensures f in lhs && f in rhs && lhs[f] == rhs[f]
    {
      MqFieldOverride(a, f);
    }
    assert lhs.Keys == rhs.Keys;
  }

  /** The environment lookup `Deno.env.get(name)`. */
  function EnvGet(env: map<string, string>, name: string): Option<string> {
    if name in env then Some(env[name]) else None
  }

  /** A template literal `${prefix}` of an absent prefix reads "undefined". */
  function PrefixText(prefix: Option<string>): string {
    prefix.GetOr("undefined")
  }

  /** `(s) ? Number(s) : undefined`: an unset or empty variable gives
      nothing. */
  function NumberIfSet(s: Option<string>, toNumber: string -> int): (n: Option<int>)
    ensures n.Some? <==> s.Some? && s.value != ""
    ensures n.Some? ==> n.value == toNumber(s.value)
  {
    if s.Some? && s.value != "" then Some(toNumber(s.value)) else None
  }

  function LowerAscii(c: char): char {
    if 'A' <= c <= 'Z' then (c as int + 32) as char else c
  }

  function LowerAsciiString(s: string): (r: string)
    ensures |r| == |s|
    ensures forall i :: 0 <= i < |s| ==> r[i] == LowerAscii(s[i])
  {
    if |s| == 0 then "" else [LowerAscii(s[0])] + LowerAsciiString(s[1..])
  }

  /** The alternatives of `/^(1|t|true|y|yes)$/i`. */
  const FlagWords: seq<string> := ["1", "t", "true", "y", "yes"]

  /** Two strings are equal up to the case of ASCII letters (the `i` flag
      folds only ASCII letters onto ASCII letters). */
  predicate EqualIgnoringCase(s: string, w: string) {
    |s| == |w| && forall i :: 0 <= i < |s| ==> LowerAscii(s[i]) == LowerAscii(w[i])
  }

  /** `/^(1|t|true|y|yes)$/i.test(s)`: the whole string is one of the words,
      in any letter case. */
  function FlagPatternMatches(s: string): (b: bool)
    ensures b <==> exists i :: 0 <= i < |FlagWords| && EqualIgnoringCase(s, FlagWords[i])
  {
    var lower := LowerAsciiString(s);
    assert forall i :: 0 <= i < |FlagWords| ==> LowerAsciiString(FlagWords[i]) == FlagWords[i];
    assert forall i :: 0 <= i < |FlagWords| ==> (EqualIgnoringCase(s, FlagWords[i]) <==> lower == FlagWords[i]);
    lower in FlagWords
  }

  /** `(s) ? /^(1|t|true|y|yes)$/i.test(s) : false`. */
  function FlagIfSet(s: Option<string>): (b: bool)
    ensures b <==> s.Some? && FlagPatternMatches(s.value)
  {
    s.Some? && s.value != "" && FlagPatternMatches(s.value)
  }

  /** `MqConfig.fromEnv(prefix)`. The reply queue is not read from the
      environment. */
  function MqFromEnv(env: map<string, string>, prefix: Option<string>, toNumber: string -> int): MqConfig {
    var p := PrefixText(prefix);
    NewMqConfig(Some(MqAttrs(
      EnvGet(env, p + "HOST"),
      NumberIfSet(EnvGet(env, p + "PORT"), toNumber),
      EnvGet(env, p + "USER"),
      EnvGet(env, p + "PASSWORD"),
      EnvGet(env, p + "VHOST"),
      EnvGet(env, p + "EXCHANGE"),
      EnvGet(env, p + "QUEUE"),
      None,
      Some(FlagIfSet(EnvGet(env, p + "USE_TLS"))),
      NumberIfSet(EnvGet(env, p + "TIMEOUT"), toNumber),
      Some(FlagIfSet(EnvGet(env, p + "DEBUG"))))))
  }

  /** What reading the broker configuration from the environment yields,
      field by field: set string variables win even when empty, unset ones
      keep the default, numbers need a non-empty value, flags follow the
      pattern, and the reply queue stays the default. */
  lemma MqFromEnvFields(env: map<string, string>, prefix: Option<string>, toNumber: string -> int)
    ensures var c := MqFromEnv(env, prefix, toNumber); var p := PrefixText(prefix);
      && c.host == (if p + "HOST" in env then env[p + "HOST"] else "localhost")
      && c.port == (if p + "PORT" in env && env[p + "PORT"] != "" then toNumber(env[p + "PORT"]) else 5672)
      && c.user == EnvGet(env, p + "USER")
      && c.password == EnvGet(env, p + "PASSWORD")
      && c.vhost == EnvGet(env, p + "VHOST")
      && c.exchangeName == (if p + "EXCHANGE" in env then env[p + "EXCHANGE"] else "")
      && c.queueName == (if p + "QUEUE" in env then env[p + "QUEUE"] else "")
      && c.replyToQueue == DefaultReplyToQueue
      && (c.useTls <==> p + "USE_TLS" in env && FlagPatternMatches(env[p + "USE_TLS"]))
      && (c.debug <==> p + "DEBUG" in env && FlagPatternMatches(env[p + "DEBUG"]))
      && c.timeout == (if p + "TIMEOUT" in env && env[p + "TIMEOUT"] != "" then Some(toNumber(env[p + "TIMEOUT"])) else Some(30000))
  {
  }

  /** A few readings of the flag pattern. */
  lemma FlagPatternExamples()
    ensures FlagPatternMatches("TRUE") && FlagPatternMatches("Yes") && FlagPatternMatches("1")
    ensures !FlagPatternMatches("") && !FlagPatternMatches("truex") && !FlagPatternMatches(" yes")
    ensures !FlagPatternMatches("no") && !FlagPatternMatches("0")
  {
    assert LowerAsciiString("TRUE") == "true";
    assert LowerAsciiString("Yes") == "yes";
    assert LowerAsciiString("1") == "1";
    assert |LowerAsciiString("truex")| == 5;
    assert LowerAsciiString(" yes")[0] == ' ';
    assert LowerAsciiString("no") == "no";
    assert LowerAsciiString("0") == "0";
  }

  datatype AppConfig = AppConfig(
    appName: string,
    appVersion: string,
    appFrontOrigin: string,
    host: string,
    port: int,
    servicesFile: string,
    extServicesDir: Option<string>,
    mq: MqConfig)

  /** The field initialisers of `AppConfig`; its logging configuration is
      not part of this model. */
  const AppDefaults := AppConfig("deno-rest2amqp", "1.0.0", "*", "0.0.0.0", 9080, "conf/services.json", Some("conf/services"), MqDefaults)

  datatype AppAttrs = AppAttrs(
    appName: Option<string>,
    appVersion: Option<string>,
    appFrontOrigin: Option<string>,
    host: Option<string>,
    port: Option<int>,
    servicesFile: Option<string>,
    extServicesDir: Option<string>,
    mq: Option<MqConfig>)

  /** `new AppConfig(attrs)`: defaults, then defined attributes merged over
      them. */
  function NewAppConfig(attrs: Option<AppAttrs>): (c: AppConfig)
    ensures attrs.None? ==> c == AppDefaults
  {
    if attrs.None? then AppDefaults
    else
      var a := attrs.value;
      var d := AppDefaults;
      AppConfig(
        a.appName.GetOr(d.appName), a.appVersion.GetOr(d.appVersion),
        a.appFrontOrigin.GetOr(d.appFrontOrigin), a.host.GetOr(d.host),
        a.port.GetOr(d.port), a.servicesFile.GetOr(d.servicesFile),
        Override(d.extServicesDir, a.extServicesDir), a.mq.GetOr(d.mq))
  }

  /** The property names of `AppConfig` (its logging configuration aside). */
  datatype AppField = AppName | AppVersion | AppFrontOrigin | AppHost | AppPort | ServicesFile | ExtServicesDir | Mq

  /** An `MqConfig` instance as a property value of `AppConfig`: an object
      holding the broker properties under their names. */
  function MqConfigValue(m: MqConfig): (v: Value)
    ensures v.Obj?
  {
    Obj(map[
      "host" := MqValue(m, Host), "port" := MqValue(m, Port), "user" := MqValue(m, User),
      "password" := MqValue(m, Password), "vhost" := MqValue(m, Vhost),
      "exchangeName" := MqValue(m, ExchangeName), "queueName" := MqValue(m, QueueName),
      "replyToQueue" := MqValue(m, ReplyToQueue), "useTls" := MqValue(m, UseTls),
      "timeout" := MqValue(m, Timeout), "debug" := MqValue(m, Debug)])
  }

  /** The value of property `f` of an `AppConfig` instance. */
  function AppValue(c: AppConfig, f: AppField): Value {
    match f
    case AppName => Str(c.appName)
    case AppVersion => Str(c.appVersion)
    case AppFrontOrigin => Str(c.appFrontOrigin)
    case AppHost => Str(c.host)
    case AppPort => Num(c.port)
    case ServicesFile => Str(c.servicesFile)
    case ExtServicesDir => StrOr(c.extServicesDir)
    case Mq => MqConfigValue(c.mq)
  }

  /** The value of property `f` of a `Partial<AppConfig>`. */
  function AppAttrValue(a: AppAttrs, f: AppField): Value {
    match f
    case AppName => StrOr(a.appName)
    case AppVersion => StrOr(a.appVersion)
    case AppFrontOrigin => StrOr(a.appFrontOrigin)
    case AppHost => StrOr(a.host)
    case AppPort => NumOr(a.port)
    case ServicesFile => StrOr(a.servicesFile)
    case ExtServicesDir => StrOr(a.extServicesDir)
    case Mq => if a.mq.Some? then MqConfigValue(a.mq.value) else Undefined
  }

  /** An `AppConfig` instance seen as a JavaScript object. */
  function AppObject(c: AppConfig): map<AppField, Value> {
    map f: AppField :: AppValue(c, f)
  }

  /** A `Partial<AppConfig>` seen as a JavaScript object. */
  function AppAttrsObject(a: AppAttrs): map<AppField, Value> {
    map f: AppField :: AppAttrValue(a, f)
  }

  /** Property by property, the constructed application configuration is
      the attribute when it is defined and the default otherwise; a given
      broker configuration replaces the default one as a whole. */
  lemma AppFieldOverride(a: AppAttrs, f: AppField)
    ensures AppValue(NewAppConfig(Some(a)), f) ==
      (if AppAttrValue(a, f) != Undefined then AppAttrValue(a, f) else AppValue(AppDefaults, f))
  {
    match f
    case AppName =>
    case AppVersion =>
    case AppFrontOrigin =>
    case AppHost =>
    case AppPort =>
    case ServicesFile =>
    case ExtServicesDir =>
    case Mq =>
  }

  /** The constructor is exactly `merge` of the attributes over the
      defaults: undefined attributes keep the default, defined ones win. */
  lemma AppConstructorIsMerge(a: AppAttrs)
    ensures AppObject(NewAppConfig(Some(a))) == Merge(AppObject(AppDefaults), AppAttrsObject(a))
  {
    var lhs := AppObject(NewAppConfig(Some(a)));
    var rhs := Merge(AppObject(AppDefaults), AppAttrsObject(a));
    forall f: AppField
      ensures f in lhs && f in rhs && lhs[f] == rhs[f]
    {
      AppFieldOverride(a, f);
    }
    assert lhs.Keys == rhs.Keys;
  }

  /** `AppConfig.fromEnv()`: the broker part is read under the "MQ_" prefix. */
  function AppFromEnv(env: map<string, string>, toNumber: string -> int): AppConfig {
    NewAppConfig(Some(AppAttrs(
      EnvGet(env, "APP_NAME"),
      EnvGet(env, "APP_VERSION"),
      EnvGet(env, "APP_FRONT_ORIGIN"),
      EnvGet(env, "APP_HOST"),
      NumberIfSet(EnvGet(env, "APP_PORT"), toNumber),
      None,
      None,
      Some(MqFromEnv(env, Some("MQ_"), toNumber)))))
  }

  /** What reading the application configuration from the environment
      yields: the service-list locations always keep their defaults, the
      port is 9080 unless APP_PORT is set and non-empty, and a set but empty
      name variable does replace its default. */
  lemma AppFromEnvFields(env: map<string, string>, toNumber: string -> int)
    ensures var c := AppFromEnv(env, toNumber);
      && c.servicesFile == "conf/services.json"
      && c.extServicesDir == Some("conf/services")
      && c.port == (if "APP_PORT" in env && env["APP_PORT"] != "" then toNumber(env["APP_PORT"]) else 9080)
      && c.appName == (if "APP_NAME" in env then env["APP_NAME"] else "deno-rest2amqp")
      && c.appVersion == (if "APP_VERSION" in env then env["APP_VERSION"] else "1.0.0")
      && c.appFrontOrigin == (if "APP_FRONT_ORIGIN" in env then env["APP_FRONT_ORIGIN"] else "*")
      && c.host == (if "APP_HOST" in env then env["APP_HOST"] else "0.0.0.0")
      && c.mq == MqFromEnv(env, Some("MQ_"), toNumber)
  {
  }
}
