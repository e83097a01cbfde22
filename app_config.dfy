/** The application's configuration: defaults, validation and loading
    (internal/config/config.go). The YAML decoder is outside the model:
    `Load` receives what it produced. */
module AppConfig {
  import opened Wrappers
  import Text
  import Epever
  import RemoteWriteConfig

  datatype Mqtt = Mqtt(enabled: bool, host: string, username: string, password: string,
                       topicPrefix: string, publishPeriod: int)

  /** Solace settings; `topicPrefix` is the field the defaults fill in. */
  datatype Solace = Solace(enabled: bool, host: string, username: string, password: string,
                           vpnName: string, topicPrefix: string)

  datatype FileSink = FileSink(enabled: bool, filename: string, maxSizeMB: int, maxBackups: int, compress: bool)

  /** `SolarControllerConfiguration`. */
  datatype Settings = Settings(
    httpPort: int,
    debug: bool,
    deviceId: string,
    mqtt: Mqtt,
    solace: Solace,
    file: FileSink,
    remoteWrite: RemoteWriteConfig.Configuration,
    epever: Epever.Settings)

  const DefaultDeviceId: string := "controller-1"
  const DefaultTopicPrefix: string := "solar"

  /** The settings with every optional field that is empty given its default. */
  function WithDefaults(s: Settings): (d: Settings)
    ensures d.deviceId == (if s.deviceId == [] then DefaultDeviceId else s.deviceId)
    ensures d.mqtt.topicPrefix == (if s.mqtt.topicPrefix == [] then DefaultTopicPrefix else s.mqtt.topicPrefix)
    ensures d.solace.topicPrefix == (if s.solace.topicPrefix == [] then DefaultTopicPrefix else s.solace.topicPrefix)
    ensures d.remoteWrite.topicPrefix ==
      (if s.remoteWrite.topicPrefix == [] then DefaultTopicPrefix else s.remoteWrite.topicPrefix)
    ensures d.httpPort == s.httpPort && d.debug == s.debug && d.file == s.file && d.epever == s.epever
    ensures d.mqtt.(topicPrefix := []) == s.mqtt.(topicPrefix := [])
    ensures d.solace.(topicPrefix := []) == s.solace.(topicPrefix := [])
    ensures d.remoteWrite.(topicPrefix := []) == s.remoteWrite.(topicPrefix := [])
  {
    s.(deviceId := if s.deviceId == [] then DefaultDeviceId else s.deviceId,
       mqtt := s.mqtt.(topicPrefix := if s.mqtt.topicPrefix == [] then DefaultTopicPrefix else s.mqtt.topicPrefix),
       solace := s.solace.(topicPrefix := if s.solace.topicPrefix == [] then DefaultTopicPrefix else s.solace.topicPrefix),
       remoteWrite := s.remoteWrite.(topicPrefix :=
         if s.remoteWrite.topicPrefix == [] then DefaultTopicPrefix else s.remoteWrite.topicPrefix))
  }

  /** `Config`, whose `applyDefaults` fills its fields in place. */
  class Config {
    var solarController: Settings

    constructor (s: Settings)
      ensures solarController == s
    {
      solarController := s;
    }

    method ApplyDefaults()
      modifies this
      ensures solarController == WithDefaults(old(solarController))
    {
      if solarController.deviceId == [] {
        solarController := solarController.(deviceId := DefaultDeviceId);
      }
      if solarController.mqtt.topicPrefix == [] {
        solarController := solarController.(mqtt := solarController.mqtt.(topicPrefix := DefaultTopicPrefix));
      }
      if solarController.solace.topicPrefix == [] {
        solarController := solarController.(solace := solarController.solace.(topicPrefix := DefaultTopicPrefix));
      }
      if solarController.remoteWrite.topicPrefix == [] {
        solarController := solarController.(remoteWrite := solarController.remoteWrite.(topicPrefix := DefaultTopicPrefix));
      }
    }
  }

  /** Defaults once applied stay as they are. */
  lemma DefaultsIdempotent(s: Settings)
    ensures WithDefaults(WithDefaults(s)) == WithDefaults(s)
  {
  }

  /** Defaults leave every given value alone. */
  lemma DefaultsKeepGiven(s: Settings)
    requires s.deviceId != [] && s.mqtt.topicPrefix != [] && s.solace.topicPrefix != [] && s.remoteWrite.topicPrefix != []
    ensures WithDefaults(s) == s
  {
  }

  /** The port text of the error: `%d` of a possibly negative integer. */
  function PortText(port: int): string
  {
    if port < 0 then "-" + Text.Decimal(-port) else Text.Decimal(port)
  }

  /** What a valid configuration is, section by section. */
  predicate Acceptable(s: Settings, scheme: string -> Result<string>, duration: string -> Result<int>)
  {
    1 <= s.httpPort <= 65535 &&
    (s.mqtt.enabled ==> s.mqtt.host != []) &&
    (s.solace.enabled ==> s.solace.host != [] && s.solace.vpnName != []) &&
    (s.file.enabled ==> s.file.filename != []) &&
    (s.remoteWrite.enabled ==> RemoteWriteConfig.Acceptable(s.remoteWrite, scheme, duration)) &&
    (s.epever.enabled ==> s.epever.serialPort != [] && s.epever.publishPeriod > 0)
  }

  /** The sections before remote write are in order. */
  predicate PublishersAcceptable(s: Settings)
  {
    1 <= s.httpPort <= 65535 &&
    (s.mqtt.enabled ==> s.mqtt.host != []) &&
    (s.solace.enabled ==> s.solace.host != [] && s.solace.vpnName != []) &&
    (s.file.enabled ==> s.file.filename != [])
  }

  /** `Validate`: the port first, then each enabled section in turn; the
      remote-write section's own error is passed on unchanged. */
  function Validate(s: Settings, scheme: string -> Result<string>, duration: string -> Result<int>): (r: Outcome<string>)
    ensures r.Pass? ==> PublishersAcceptable(s) && (s.epever.enabled ==> s.epever.serialPort != [] && s.epever.publishPeriod > 0)
    ensures r.Pass? && s.remoteWrite.enabled ==> RemoteWriteConfig.Validate(s.remoteWrite, scheme, duration).Pass?
    ensures r.Fail? && PublishersAcceptable(s) &&
            (s.remoteWrite.enabled ==> RemoteWriteConfig.Validate(s.remoteWrite, scheme, duration).Pass?) ==>
      s.epever.enabled && (s.epever.serialPort == [] || s.epever.publishPeriod <= 0)
  {
    if s.httpPort <= 0 || s.httpPort > 65535 then
      Fail("invalid HTTP port: " + PortText(s.httpPort) + " (must be 1-65535)")
    else if s.mqtt.enabled && s.mqtt.host == [] then
      Fail("MQTT host is required when MQTT is enabled")
    else if s.solace.enabled && s.solace.host == [] then
      Fail("solace host is required when Solace is enabled")
    else if s.solace.enabled && s.solace.vpnName == [] then
      Fail("solace VPN name is required when Solace is enabled")
    else if s.file.enabled && s.file.filename == [] then
      Fail("file filename is required when File publisher is enabled")
    else if s.remoteWrite.enabled && RemoteWriteConfig.Validate(s.remoteWrite, scheme, duration).Fail? then
      RemoteWriteConfig.Validate(s.remoteWrite, scheme, duration)
    else if s.epever.enabled && s.epever.serialPort == [] then
      Fail("epever serial port is required when epever is enabled")
    else if s.epever.enabled && s.epever.publishPeriod <= 0 then
      Fail("epever publish period must be positive")
    else Pass
  }

  /** The port is checked first, then each enabled section in turn, and the
      remote-write section's own error is passed on unchanged. */
  lemma ValidateOrder(s: Settings, scheme: string -> Result<string>, duration: string -> Result<int>)
    ensures !(1 <= s.httpPort <= 65535) ==>
      Validate(s, scheme, duration) == Fail("invalid HTTP port: " + PortText(s.httpPort) + " (must be 1-65535)")
    ensures 1 <= s.httpPort <= 65535 && s.mqtt.enabled && s.mqtt.host == [] ==>
      Validate(s, scheme, duration) == Fail("MQTT host is required when MQTT is enabled")
    ensures PublishersAcceptable(s) && s.remoteWrite.enabled &&
            RemoteWriteConfig.Validate(s.remoteWrite, scheme, duration).Fail? ==>
      Validate(s, scheme, duration) == RemoteWriteConfig.Validate(s.remoteWrite, scheme, duration)
    ensures PublishersAcceptable(s) && (s.remoteWrite.enabled ==> RemoteWriteConfig.Validate(s.remoteWrite, scheme, duration).Pass?) &&
            s.epever.enabled ==>
      (s.epever.serialPort == [] ==> Validate(s, scheme, duration) == Fail("epever serial port is required when epever is enabled")) &&
      (s.epever.serialPort != [] && s.epever.publishPeriod <= 0 ==> Validate(s, scheme, duration) == Fail("epever publish period must be positive"))
  {
  }

  /** A configuration passes exactly when it keeps every rule. */
  lemma ValidateAccepts(s: Settings, scheme: string -> Result<string>, duration: string -> Result<int>)
    ensures Validate(s, scheme, duration).Pass? <==> Acceptable(s, scheme, duration)
  {
    RemoteWriteConfig.ValidateAccepts(s.remoteWrite, scheme, duration);
  }

  /** Validation looks at no field the defaults fill in. */
  lemma DefaultsDoNotAffectValidity(s: Settings, scheme: string -> Result<string>, duration: string -> Result<int>)
    ensures Validate(WithDefaults(s), scheme, duration) == Validate(s, scheme, duration)
  {
    var d := WithDefaults(s);
    assert d.remoteWrite == s.remoteWrite.(topicPrefix := d.remoteWrite.topicPrefix);
    RemoteWriteConfig.ValidateIgnoresPrefix(s.remoteWrite, d.remoteWrite.topicPrefix, scheme, duration);
    assert PublishersAcceptable(d) == PublishersAcceptable(s);
  }

  /** `Load`: the decoded settings with defaults applied, if they then
      validate; otherwise the parse or validation error. */
  method Load(parsed: Result<Settings>, scheme: string -> Result<string>, duration: string -> Result<int>)
    returns (r: Result<Settings>)
    ensures parsed.Err? ==> r == Err("failed to parse YAML: " + parsed.error)
    ensures parsed.Ok? && Acceptable(parsed.value, scheme, duration) ==> r == Ok(WithDefaults(parsed.value))
    ensures parsed.Ok? && !Acceptable(parsed.value, scheme, duration) ==>
      r == Err("invalid configuration: " + Validate(parsed.value, scheme, duration).error)
    ensures r.Ok? ==> Acceptable(r.value, scheme, duration) && WithDefaults(r.value) == r.value
  {
    if parsed.Err? {
      return Err("failed to parse YAML: " + parsed.error);
    }
    var config := new Config(parsed.value);
    config.ApplyDefaults();
    var outcome := Validate(config.solarController, scheme, duration);
    DefaultsDoNotAffectValidity(parsed.value, scheme, duration);
    ValidateAccepts(parsed.value, scheme, duration);
    ValidateAccepts(config.solarController, scheme, duration);
    DefaultsIdempotent(parsed.value);
    if outcome.Fail? {
      return Err("invalid configuration: " + outcome.error);
    }
    return Ok(config.solarController);
  }
}
