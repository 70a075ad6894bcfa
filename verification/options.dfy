/**
 Options the binding derives from the `mqtt` section of the configuration:
 the connection options built once in `start`, and the publish options built
 for every configuration push and every command.
 */
module Options {
  import opened Wrappers
  import opened JsValues

  /** The `mqtt` configuration section; a field that is not set reads as `Undefined`. */
  datatype MqttConfig = MqttConfig(
    protocol: JsValue,
    host: JsValue,
    port: JsValue,
    key: JsValue,
    cert: JsValue,
    rejectUnauthorized: JsValue,
    username: JsValue,
    password: JsValue,
    qos: JsValue,
    retain: JsValue)

  /** Options handed to the MQTT client's `connect`. */
  datatype ConnectionOptions = ConnectionOptions(
    protocol: JsValue,
    host: JsValue,
    port: JsValue,
    key: JsValue,
    cert: JsValue,
    rejectUnauthorized: JsValue,
    username: JsValue,
    password: JsValue,
    keepalive: int,
    connectTimeout: int)

  /** Options handed to `publish`: each key is either set or left out of the object. */
  datatype PublishOptions = PublishOptions(qos: Option<JsValue>, retain: Option<JsValue>)

  const DefaultProtocol: JsValue := Str("mqtt")
  const DefaultHost: JsValue := Str("localhost")
  const DefaultPort: JsValue := Num(1883)
  const DefaultRejectUnauthorized: JsValue := Bool(true)
  /** Keep-alive pings are disabled. */
  const Keepalive: int := 0
  /** One hour, in milliseconds. */
  const ConnectTimeout: int := 60 * 60 * 1000

  /** `value != null ? value : fallback` */
  function OrDefault(value: JsValue, fallback: JsValue): JsValue {
    if !IsNullish(value) then value else fallback
  }

  /** A connection option taken from the configuration when set, from its default otherwise. */
  predicate Resolved(configured: JsValue, fallback: JsValue, chosen: JsValue) {
    (!IsNullish(configured) ==> chosen == configured) && (IsNullish(configured) ==> chosen == fallback)
  }

  function ConnectionOptionsOf(cfg: MqttConfig): (r: ConnectionOptions)
    ensures Resolved(cfg.protocol, DefaultProtocol, r.protocol)
    ensures Resolved(cfg.host, DefaultHost, r.host)
    ensures Resolved(cfg.port, DefaultPort, r.port)
    ensures Resolved(cfg.key, Null, r.key)
    ensures Resolved(cfg.cert, Null, r.cert)
    ensures Resolved(cfg.rejectUnauthorized, DefaultRejectUnauthorized, r.rejectUnauthorized)
    ensures Resolved(cfg.username, Null, r.username)
    ensures Resolved(cfg.password, Null, r.password)
    ensures r.keepalive == 0 && r.connectTimeout == 3600000
  {
    ConnectionOptions(
      protocol := OrDefault(cfg.protocol, DefaultProtocol),
      host := OrDefault(cfg.host, DefaultHost),
      port := OrDefault(cfg.port, DefaultPort),
      key := OrDefault(cfg.key, Null),
      cert := OrDefault(cfg.cert, Null),
      rejectUnauthorized := OrDefault(cfg.rejectUnauthorized, DefaultRejectUnauthorized),
      username := OrDefault(cfg.username, Null),
      password := OrDefault(cfg.password, Null),
      keepalive := Keepalive,
      connectTimeout := ConnectTimeout)
  }

  /** A configuration that sets nothing. */
  const EmptyConfig: MqttConfig := MqttConfig(
    Undefined, Undefined, Undefined, Undefined, Undefined,
    Undefined, Undefined, Undefined, Undefined, Undefined)

  /** With nothing configured the client connects in clear text to the local broker on the standard port. */
  lemma EmptyConfigConnectionOptions()
    ensures ConnectionOptionsOf(EmptyConfig)
            == ConnectionOptions(Str("mqtt"), Str("localhost"), Num(1883), Null, Null,
                                 Bool(true), Null, Null, 0, 3600000)
  {
  }

  /**
   The default only replaces `null` and `undefined`: a configured `false`,
   `0` or `""` is passed through, so `rejectUnauthorized: false` really
   disables certificate checking.
   */
  lemma FalsyConnectionSettingsKept(cfg: MqttConfig)
    requires cfg.rejectUnauthorized == Bool(false)
    requires cfg.port == Num(0)
    requires cfg.username == Str("")
    ensures ConnectionOptionsOf(cfg).rejectUnauthorized == Bool(false)
    ensures ConnectionOptionsOf(cfg).port == Num(0)
    ensures ConnectionOptionsOf(cfg).username == Str("")
  {
  }

  /** The sample deployment configuration sets only host and port. */
  lemma SampleConfigConnectionOptions()
    ensures ConnectionOptionsOf(EmptyConfig.(host := Str("localhost"), port := Num(1883)))
            == ConnectionOptionsOf(EmptyConfig)
  {
  }

  /** `qos` is copied when truthy and left out otherwise, for both kinds of publish. */
  function QosOption(cfg: MqttConfig): (r: Option<JsValue>)
    ensures r.Some? <==> Truthy(cfg.qos)
    ensures r.Some? ==> r.value == cfg.qos
  {
    if Truthy(cfg.qos) then Some(cfg.qos) else None
  }

  /** Publish options of a configuration push: `retain` is set only when configured as exactly `true`. */
  function ConfigPublishOptions(cfg: MqttConfig): (r: PublishOptions)
    ensures r.qos.Some? <==> Truthy(cfg.qos)
    ensures r.qos.Some? ==> r.qos.value == cfg.qos
    ensures r.retain.Some? <==> cfg.retain == Bool(true)
    ensures r.retain.Some? ==> r.retain.value == Bool(true)
  {
    PublishOptions(
      qos := QosOption(cfg),
      retain := if cfg.retain == Bool(true) then Some(cfg.retain) else None)
  }

  /** Publish options of a command: `retain` is set whenever the configured value is truthy. */
  function CommandPublishOptions(cfg: MqttConfig): (r: PublishOptions)
    ensures r.qos.Some? <==> Truthy(cfg.qos)
    ensures r.qos.Some? ==> r.qos.value == cfg.qos
    ensures r.retain.Some? <==> Truthy(cfg.retain)
    ensures r.retain.Some? ==> r.retain.value == cfg.retain
  {
    PublishOptions(
      qos := QosOption(cfg),
      retain := if Truthy(cfg.retain) then Some(cfg.retain) else None)
  }

  /**
   The two publish paths agree on `qos`, and disagree on `retain` exactly
   when the configured value is truthy without being the boolean `true`
   (say `1` or `"true"`): commands are then retained, configuration pushes
   are not.
   */
  lemma RetainAsymmetry(cfg: MqttConfig)
    ensures ConfigPublishOptions(cfg).qos == CommandPublishOptions(cfg).qos
    ensures ConfigPublishOptions(cfg).retain != CommandPublishOptions(cfg).retain
            <==> Truthy(cfg.retain) && cfg.retain != Bool(true)
    ensures ConfigPublishOptions(cfg).retain.Some? ==> CommandPublishOptions(cfg).retain.Some?
  {
  }

  /** A configured `0` or nothing at all leaves the keys out instead of writing a default. */
  lemma UnsetPublishOptionsOmitted(cfg: MqttConfig)
    requires cfg.qos in {Undefined, Null, Num(0)}
    requires cfg.retain in {Undefined, Null, Bool(false)}
    ensures ConfigPublishOptions(cfg) == PublishOptions(None, None)
    ensures CommandPublishOptions(cfg) == PublishOptions(None, None)
  {
  }
}
