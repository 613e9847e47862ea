/**
 * The strings the example derives from its options with `String.format`: the
 * broker address, the device's uplink topic, the two downlink topics it
 * subscribes to, and the `aud` claim of its JWT (section 4.1.3 of RFC 7519).
 * Each derivation is paired with a reader that takes the string apart again.
 */
module Topics {
  import opened Wrappers
  import opened Decimal

  const ServerScheme := "ssl://"
  const UplinkPrefix := "/up/device/id/"
  const DownlinkPrefix := "/down/device/id/"
  const CommandsSuffix := "/commands"
  const ConfigSuffix := "/config"
  const AudienceScheme := "https://"
  const AudienceDevices := "/devices/"

  /**
   * `ssl://{host}:{port}`, the port written as Java writes an `int`. The port
   * follows the last ':', so the address splits back into its host and port even
   * when the host itself holds colons.
   */
  function ServerAddress(host: string, port: int): (uri: string)
    ensures ParseServerAddress(uri) == Some((host, port))
  {
    var digits := IntToDecimal(port);
    var uri := ServerScheme + host + ":" + digits;
    var rest := uri[|ServerScheme|..];
    assert uri[..|ServerScheme|] == ServerScheme;
    assert rest == host + ":" + digits;
    assert rest[|host|] == ':';
    assert forall j :: |host| < j < |rest| ==> rest[j] == digits[j - |host| - 1];
    assert LastIndexOf(rest, ':') == Some(|host|);
    assert rest[|host| + 1..] == digits;
    assert rest[..|host|] == host;
    IntToDecimalRoundTrip(port);
    uri
  }

  /** `/up/device/id/{id}`: where the device publishes its telemetry; the id is read back from it. */
  function UplinkTopic(deviceId: string): (topic: string)
    ensures DeviceOfUplinkTopic(topic) == Some(deviceId)
  {
    BetweenRoundTrip(UplinkPrefix, deviceId, "");
    assert UplinkPrefix + deviceId + "" == UplinkPrefix + deviceId;
    UplinkPrefix + deviceId
  }

  /** `/down/device/id/{id}/commands`; the id is read back from it. */
  function CommandsTopic(deviceId: string): (topic: string)
    ensures DeviceOfCommandsTopic(topic) == Some(deviceId)
  {
    BetweenRoundTrip(DownlinkPrefix, deviceId, CommandsSuffix);
    DownlinkPrefix + deviceId + CommandsSuffix
  }

  /** `/down/device/id/{id}/config`; the id is read back from it. */
  function ConfigTopic(deviceId: string): (topic: string)
    ensures DeviceOfConfigTopic(topic) == Some(deviceId)
  {
    BetweenRoundTrip(DownlinkPrefix, deviceId, ConfigSuffix);
    DownlinkPrefix + deviceId + ConfigSuffix
  }

  /**
   * `https://{audience}/devices/{id}`: the audience claim of the device's token.
   * Given the audience it was made with, the device id is read back from it.
   */
  function Audience(audience: string, deviceId: string): (aud: string)
    ensures Between(aud, AudienceScheme + audience + AudienceDevices, "") == Some(deviceId)
  {
    BetweenRoundTrip(AudienceScheme + audience + AudienceDevices, deviceId, "");
    assert AudienceScheme + audience + AudienceDevices + deviceId + ""
        == AudienceScheme + audience + AudienceDevices + deviceId;
    AudienceScheme + audience + AudienceDevices + deviceId
  }

  /** The position of the last `c` in `s`, if any. */
  function LastIndexOf(s: string, c: char): (r: Option<nat>)
    ensures r.Some? ==> r.value < |s| && s[r.value] == c
    ensures r.Some? ==> forall j :: r.value < j < |s| ==> s[j] != c
    ensures r.None? ==> forall j :: 0 <= j < |s| ==> s[j] != c
  {
    if s == [] then None
    else if s[|s| - 1] == c then Some(|s| - 1)
    else LastIndexOf(s[..|s| - 1], c)
  }

  /** Splits `ssl://{host}:{port}` at its last ':'. */
  function ParseServerAddress(uri: string): Option<(string, int)> {
    if |uri| < |ServerScheme| || uri[..|ServerScheme|] != ServerScheme then None
    else
      var rest := uri[|ServerScheme|..];
      match LastIndexOf(rest, ':')
      case None => None
      case Some(k) =>
        match ParseInt(rest[k + 1..])
        case None => None
        case Some(port) => Some((rest[..k], port))
  }

  /** `s` starts with `prefix` and ends with `suffix`, and they do not overlap. */
  predicate Frames(s: string, prefix: string, suffix: string) {
    |prefix| + |suffix| <= |s| && s[..|prefix|] == prefix && s[|s| - |suffix|..] == suffix
  }

  /** The text between `prefix` and `suffix`, when `s` has them. */
  function Between(s: string, prefix: string, suffix: string): Option<string> {
    if Frames(s, prefix, suffix) then Some(s[|prefix|..|s| - |suffix|]) else None
  }

  function DeviceOfUplinkTopic(topic: string): Option<string> {
    Between(topic, UplinkPrefix, "")
  }

  function DeviceOfCommandsTopic(topic: string): Option<string> {
    Between(topic, DownlinkPrefix, CommandsSuffix)
  }

  function DeviceOfConfigTopic(topic: string): Option<string> {
    Between(topic, DownlinkPrefix, ConfigSuffix)
  }

  lemma BetweenRoundTrip(prefix: string, middle: string, suffix: string)
    ensures Between(prefix + middle + suffix, prefix, suffix) == Some(middle)
  {
    var s := prefix + middle + suffix;
    assert s[..|prefix|] == prefix;
    assert s[|s| - |suffix|..] == suffix;
    assert s[|prefix|..|s| - |suffix|] == middle;
  }

  /** An address that parses is exactly the address of the host and port it parses to. */
  lemma ParseServerAddressOnlyCanonical(uri: string, host: string, port: int)
    requires ParseServerAddress(uri) == Some((host, port))
    ensures uri == ServerAddress(host, port)
  {
    var rest := uri[|ServerScheme|..];
    var found := LastIndexOf(rest, ':');
    var k := found.value;
    var digits := rest[k + 1..];
    assert rest[..k] == host && ParseInt(digits) == Some(port);
    ParseIntOnlyCanonical(digits, port);
    assert rest == host + ":" + digits;
    assert uri == ServerScheme + rest;
    assert ServerAddress(host, port) == ServerScheme + host + ":" + digits;
  }

  /** Different devices never share an uplink topic. */
  lemma UplinkTopicInjective(a: string, b: string)
    requires UplinkTopic(a) == UplinkTopic(b)
    ensures a == b
  {
  }

  /** Different devices never share a commands topic or a config topic. */
  lemma DownlinkTopicsInjective(a: string, b: string)
    ensures CommandsTopic(a) == CommandsTopic(b) ==> a == b
    ensures ConfigTopic(a) == ConfigTopic(b) ==> a == b
  {
  }

  /**
   * No uplink topic is a downlink topic and no commands topic is a config topic,
   * whatever the two device ids: the uplink and downlink prefixes differ in their
   * second character, the two suffixes in their last.
   */
  lemma TopicsDistinct(a: string, b: string)
    ensures UplinkTopic(a) != CommandsTopic(b)
    ensures UplinkTopic(a) != ConfigTopic(b)
    ensures CommandsTopic(a) != ConfigTopic(b)
  {
    assert UplinkTopic(a)[1] == 'u' && CommandsTopic(b)[1] == 'd' && ConfigTopic(b)[1] == 'd';
    var c, g := CommandsTopic(a), ConfigTopic(b);
    assert c[|c| - 1] == 's' && g[|g| - 1] == 'g';
  }

  /** Given the device id instead, the audience is read back from the claim. */
  lemma AudienceOfClaim(audience: string, deviceId: string)
    ensures Between(Audience(audience, deviceId), AudienceScheme, AudienceDevices + deviceId) == Some(audience)
  {
    assert Audience(audience, deviceId) == AudienceScheme + audience + (AudienceDevices + deviceId);
    BetweenRoundTrip(AudienceScheme, audience, AudienceDevices + deviceId);
  }

  /**
   * The claim alone does not fix the pair: when the audience or the device id
   * holds `/devices/` itself, two different pairs give the same claim.
   */
  lemma AudienceAmbiguous(audience: string, middle: string, deviceId: string)
    ensures Audience(audience + AudienceDevices + middle, deviceId)
         == Audience(audience, middle + AudienceDevices + deviceId)
    ensures (audience + AudienceDevices + middle, deviceId) != (audience, middle + AudienceDevices + deviceId)
  {
    assert |audience + AudienceDevices + middle| > |audience|;
  }

  /**
   * A topic name as section 4.7 of the MQTT 3.1.1 standard allows in a PUBLISH:
   * at least one character, no wildcard ('#', '+') and no U+0000.
   */
  predicate ValidTopicName(topic: string) {
    |topic| >= 1 && NoReservedChars(topic)
  }

  predicate NoReservedChars(s: string) {
    forall i :: 0 <= i < |s| ==> s[i] != '#' && s[i] != '+' && s[i] != '\0'
  }

  lemma NoReservedCharsConcat(s: string, t: string)
    ensures NoReservedChars(s + t) <==> NoReservedChars(s) && NoReservedChars(t)
  {
    if NoReservedChars(s) && NoReservedChars(t) {
      forall i | 0 <= i < |s + t| ensures (s + t)[i] != '#' && (s + t)[i] != '+' && (s + t)[i] != '\0' {
        if i >= |s| { assert (s + t)[i] == t[i - |s|]; }
      }
    }
    if NoReservedChars(s + t) {
      forall i | 0 <= i < |s| ensures s[i] != '#' && s[i] != '+' && s[i] != '\0' {
        assert (s + t)[i] == s[i];
      }
      forall i | 0 <= i < |t| ensures t[i] != '#' && t[i] != '+' && t[i] != '\0' {
        assert (s + t)[|s| + i] == t[i];
      }
    }
  }

  /**
   * The uplink topic is a valid topic name exactly when the device id holds no
   * wildcard and no U+0000. The code does not check this, so a device id with
   * '#' or '+' yields a topic the protocol forbids in a PUBLISH.
   */
  lemma UplinkTopicValidIff(deviceId: string)
    ensures ValidTopicName(UplinkTopic(deviceId)) <==> NoReservedChars(deviceId)
  {
    NoReservedCharsConcat(UplinkPrefix, deviceId);
  }

  /** The same holds of both downlink topics. */
  lemma DownlinkTopicsValidIff(deviceId: string)
    ensures ValidTopicName(CommandsTopic(deviceId)) <==> NoReservedChars(deviceId)
    ensures ValidTopicName(ConfigTopic(deviceId)) <==> NoReservedChars(deviceId)
  {
    NoReservedCharsConcat(DownlinkPrefix, deviceId);
    NoReservedCharsConcat(DownlinkPrefix + deviceId, CommandsSuffix);
    NoReservedCharsConcat(DownlinkPrefix + deviceId, ConfigSuffix);
  }
}
