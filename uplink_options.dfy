/**
 * MqttUplinkOptions: the command-line options of the example, their defaults,
 * and what `fromFlags` does once commons-cli has tokenised the arguments.
 *
 * The command line is given as a map from each flag that is present to its
 * argument. For a numeric flag the argument also carries what commons-cli's
 * `getParsedOptionValue` makes of it, with `None` where that call throws a
 * `ParseException`. A missing required flag makes `parse` throw. Either
 * exception makes `fromFlags` return `null`.
 */
module UplinkOptions {
  import opened Wrappers
  import opened JavaNumbers

  /** The flags `fromFlags` registers, by their long option names. */
  datatype Flag =
    | DeviceIdFlag
    | PrivateKeyFileFlag
    | AlgorithmFlag
    | NumMessagesFlag
    | MqttHostnameFlag
    | MqttPortFlag
    | TokenExpMinutesFlag
    | WaitTimeSecondsFlag
  {
    /** The name after `--` on the command line. */
    function LongOpt(): string {
      match this
      case DeviceIdFlag => "device_id"
      case PrivateKeyFileFlag => "private_key_file"
      case AlgorithmFlag => "algorithm"
      case NumMessagesFlag => "num_messages"
      case MqttHostnameFlag => "mqtt_hostname"
      case MqttPortFlag => "mqtt_port"
      case TokenExpMinutesFlag => "token_exp_minutes"
      case WaitTimeSecondsFlag => "wait_time_seconds"
    }

    /** Registered with `.required()`. */
    predicate IsRequired() {
      this == DeviceIdFlag || this == PrivateKeyFileFlag || this == AlgorithmFlag
    }
  }

  /** Every registered option has its own long name, so a name on the command line picks one flag. */
  lemma LongOptInjective(f: Flag, g: Flag)
    requires f.LongOpt() == g.LongOpt()
    ensures f == g
  {
  }

  /** The required options are exactly `device_id`, `private_key_file` and `algorithm`. */
  lemma RequiredOptions(f: Flag)
    ensures f.IsRequired() <==> f.LongOpt() in {"device_id", "private_key_file", "algorithm"}
  {
  }

  const DefaultNumMessages: Int32 := 100
  const DefaultTokenExpMinutes: Int32 := 60
  const DefaultMqttHostname := "mqtt.akenza.io"
  const DefaultMqttPort: Int32 := 8883
  const DefaultWaitTimeSeconds: Int32 := 60 * 5

  /**
   * A parsed numeric argument. commons-cli makes a `Long` of text without a '.'
   * and a `Double` of text with one; the double is kept as its value rounded
   * toward zero, which is all that `intValue` and `shortValue` look at.
   */
  datatype ParsedNumber = LongValue(n: Int64) | DoubleValue(truncated: int) {

    /** `Number.intValue()`: a long keeps its low 32 bits, a double saturates. */
    function IntValue(): Int32 {
      match this
      case LongValue(n) => Wrap32(n)
      case DoubleValue(t) => Saturate32(t)
    }

    /** `Number.shortValue()`: a long keeps its low 16 bits, a double goes through `int` first. */
    function ShortValue(): Int16 {
      match this
      case LongValue(n) => Wrap16(n)
      case DoubleValue(t) => Wrap16(Saturate32(t))
    }
  }

  /** The argument of one flag: its text and, if it is read as a number, the parsed value. */
  datatype Arg = Arg(text: string, number: Option<ParsedNumber>)

  type CommandLine = map<Flag, Arg>

  /** The fields of an MqttUplinkOptions that `fromFlags` returns. */
  datatype Settings = Settings(
    deviceId: string,
    privateKeyFile: string,
    algorithm: string,
    numMessages: Int32,
    tokenExpMinutes: Int32,
    mqttHostname: string,
    mqttPort: Int32,
    waitTimeSeconds: Int32)

  /** Every required option is on the command line; otherwise `parse` throws MissingOptionException. */
  predicate HasRequired(flags: CommandLine) {
    DeviceIdFlag in flags && PrivateKeyFileFlag in flags && AlgorithmFlag in flags
  }

  lemma HasRequiredIff(flags: CommandLine)
    ensures HasRequired(flags) <==> forall f: Flag :: f.IsRequired() ==> f in flags
  {
  }

  /** A numeric flag that is absent, or present with an argument that parses. */
  predicate ParsesIfPresent(flags: CommandLine, flag: Flag) {
    flag in flags ==> flags[flag].number.Some?
  }

  predicate NumbersParse(flags: CommandLine) {
    && ParsesIfPresent(flags, NumMessagesFlag)
    && ParsesIfPresent(flags, TokenExpMinutesFlag)
    && ParsesIfPresent(flags, WaitTimeSecondsFlag)
    && ParsesIfPresent(flags, MqttPortFlag)
  }

  function IntOr(flags: CommandLine, flag: Flag, default: Int32): Int32 {
    if flag in flags && flags[flag].number.Some? then flags[flag].number.value.IntValue() else default
  }

  function TextOr(flags: CommandLine, flag: Flag, default: string): string {
    if flag in flags then flags[flag].text else default
  }

  function ShortOr(flags: CommandLine, flag: Flag, default: Int32): Int32 {
    if flag in flags && flags[flag].number.Some? then flags[flag].number.value.ShortValue() else default
  }

  /**
   * The options `fromFlags` yields: nothing when a required flag is missing or a
   * numeric flag that is present does not parse; otherwise the required values
   * verbatim and every optional field either its default or its flag's value.
   */
  function Resolve(flags: CommandLine): (r: Option<Settings>)
    ensures r.Some? <==> HasRequired(flags) && NumbersParse(flags)
  {
    if !HasRequired(flags) || !NumbersParse(flags) then None
    else Some(Settings(
      flags[DeviceIdFlag].text,
      flags[PrivateKeyFileFlag].text,
      flags[AlgorithmFlag].text,
      IntOr(flags, NumMessagesFlag, DefaultNumMessages),
      IntOr(flags, TokenExpMinutesFlag, DefaultTokenExpMinutes),
      TextOr(flags, MqttHostnameFlag, DefaultMqttHostname),
      ShortOr(flags, MqttPortFlag, DefaultMqttPort),
      IntOr(flags, WaitTimeSecondsFlag, DefaultWaitTimeSeconds)))
  }

  /** Once every required flag is present and every numeric one parses, `Resolve` is the record of its field rules. */
  lemma ResolveSome(flags: CommandLine)
    requires HasRequired(flags) && NumbersParse(flags)
    ensures Resolve(flags) == Some(Settings(
      flags[DeviceIdFlag].text, flags[PrivateKeyFileFlag].text, flags[AlgorithmFlag].text,
      IntOr(flags, NumMessagesFlag, DefaultNumMessages),
      IntOr(flags, TokenExpMinutesFlag, DefaultTokenExpMinutes),
      TextOr(flags, MqttHostnameFlag, DefaultMqttHostname),
      ShortOr(flags, MqttPortFlag, DefaultMqttPort),
      IntOr(flags, WaitTimeSecondsFlag, DefaultWaitTimeSeconds)))
  {
  }

  class MqttUplinkOptions {
    // `None` stands for Java's null, the value of a String field never assigned.
    var deviceId: Option<string>
    var privateKeyFile: Option<string>
    var algorithm: Option<string>
    var numMessages: Int32
    var tokenExpMinutes: Int32
    var mqttHostname: string
    var mqttPort: Int32
    var waitTimeSeconds: Int32

    /** The field initialisers. */
    constructor ()
      ensures deviceId == None && privateKeyFile == None && algorithm == None
      ensures numMessages == DefaultNumMessages && tokenExpMinutes == DefaultTokenExpMinutes
      ensures mqttHostname == DefaultMqttHostname && mqttPort == DefaultMqttPort
      ensures waitTimeSeconds == DefaultWaitTimeSeconds
    {
      deviceId, privateKeyFile, algorithm := None, None, None;
      numMessages := DefaultNumMessages;
      tokenExpMinutes := DefaultTokenExpMinutes;
      mqttHostname := DefaultMqttHostname;
      mqttPort := DefaultMqttPort;
      waitTimeSeconds := DefaultWaitTimeSeconds;
    }

    /** The object's fields as a value, once the three required ones are set. */
    function Snapshot(): Option<Settings>
      reads this
    {
      if deviceId.Some? && privateKeyFile.Some? && algorithm.Some? then
        Some(Settings(deviceId.value, privateKeyFile.value, algorithm.value, numMessages,
                      tokenExpMinutes, mqttHostname, mqttPort, waitTimeSeconds))
      else None
    }

    /**
     * `fromFlags`: `null` exactly when `Resolve` gives nothing, otherwise a new
     * object whose fields are what `Resolve` gives.
     */
    static method FromFlags(flags: CommandLine) returns (result: MqttUplinkOptions?)
      ensures result == null <==> Resolve(flags) == None
      ensures result != null ==> fresh(result) && result.Snapshot() == Resolve(flags)
    {
      if !HasRequired(flags) {
        // parser.parse throws MissingOptionException
        return null;
      }
      result := new MqttUplinkOptions();
      result.deviceId := Some(flags[DeviceIdFlag].text);
      result.privateKeyFile := Some(flags[PrivateKeyFileFlag].text);
      result.algorithm := Some(flags[AlgorithmFlag].text);

      var ok: bool, numMessages: Int32, tokenExpMinutes: Int32, waitTimeSeconds: Int32, mqttPort: Int32;
      ok, numMessages := ReadInt(flags, NumMessagesFlag, DefaultNumMessages);
      if !ok { assert !NumbersParse(flags); return null; }
      result.numMessages := numMessages;
      ok, tokenExpMinutes := ReadInt(flags, TokenExpMinutesFlag, DefaultTokenExpMinutes);
      if !ok { assert !NumbersParse(flags); return null; }
      result.tokenExpMinutes := tokenExpMinutes;
      ok, waitTimeSeconds := ReadInt(flags, WaitTimeSecondsFlag, DefaultWaitTimeSeconds);
      if !ok { assert !NumbersParse(flags); return null; }
      result.waitTimeSeconds := waitTimeSeconds;
      if MqttHostnameFlag in flags {
        result.mqttHostname := flags[MqttHostnameFlag].text;
      }
      ok, mqttPort := ReadShort(flags, MqttPortFlag, DefaultMqttPort);
      if !ok { assert !NumbersParse(flags); return null; }
      result.mqttPort := mqttPort;
      ResolveSome(flags);
      assert result.Snapshot() == Some(Settings(flags[DeviceIdFlag].text, flags[PrivateKeyFileFlag].text,
        flags[AlgorithmFlag].text, numMessages, tokenExpMinutes,
        TextOr(flags, MqttHostnameFlag, DefaultMqttHostname), mqttPort, waitTimeSeconds));
    }
  }

  /**
   * One optional numeric field: kept when its flag is absent, the parsed number's
   * `intValue` when present; `ok` is false where parsing throws.
   */
  method ReadInt(flags: CommandLine, flag: Flag, current: Int32) returns (ok: bool, value: Int32)
    ensures ok == ParsesIfPresent(flags, flag)
    ensures ok ==> value == IntOr(flags, flag, current)
  {
    ok, value := true, current;
    if flag in flags {
      var parsed := flags[flag].number;
      // getParsedOptionValue throws ParseException: fromFlags returns null
      if parsed.None? { return false, current; }
      value := parsed.value.IntValue();
    }
  }

  /** The same with `shortValue`, for the port. */
  method ReadShort(flags: CommandLine, flag: Flag, current: Int32) returns (ok: bool, value: Int32)
    ensures ok == ParsesIfPresent(flags, flag)
    ensures ok ==> value == ShortOr(flags, flag, current)
  {
    ok, value := true, current;
    if flag in flags {
      var parsed := flags[flag].number;
      // getParsedOptionValue throws ParseException: fromFlags returns null
      if parsed.None? { return false, current; }
      value := parsed.value.ShortValue();
    }
  }

  /** With only the required flags given, every optional field has its default. */
  lemma ResolveDefaults(flags: CommandLine)
    requires flags.Keys == {DeviceIdFlag, PrivateKeyFileFlag, AlgorithmFlag}
    ensures Resolve(flags) == Some(Settings(
      flags[DeviceIdFlag].text, flags[PrivateKeyFileFlag].text, flags[AlgorithmFlag].text,
      100, 60, "mqtt.akenza.io", 8883, 300))
  {
  }

  /** An optional flag that is absent leaves its field at the default, whatever other flags are given. */
  lemma ResolveAbsentDefaults(flags: CommandLine)
    requires Resolve(flags).Some?
    ensures NumMessagesFlag !in flags ==> Resolve(flags).value.numMessages == DefaultNumMessages
    ensures TokenExpMinutesFlag !in flags ==> Resolve(flags).value.tokenExpMinutes == DefaultTokenExpMinutes
    ensures WaitTimeSecondsFlag !in flags ==> Resolve(flags).value.waitTimeSeconds == DefaultWaitTimeSeconds
    ensures MqttHostnameFlag !in flags ==> Resolve(flags).value.mqttHostname == DefaultMqttHostname
    ensures MqttPortFlag !in flags ==> Resolve(flags).value.mqttPort == DefaultMqttPort
  {
  }

  /** The required values are copied verbatim; the algorithm in particular is not checked here. */
  lemma ResolveRequired(flags: CommandLine)
    requires Resolve(flags).Some?
    ensures Resolve(flags).value.deviceId == flags[DeviceIdFlag].text
    ensures Resolve(flags).value.privateKeyFile == flags[PrivateKeyFileFlag].text
    ensures Resolve(flags).value.algorithm == flags[AlgorithmFlag].text
  {
  }

  predicate IsOptionalFlag(flag: Flag) {
    flag == NumMessagesFlag || flag == TokenExpMinutesFlag || flag == WaitTimeSecondsFlag
    || flag == MqttHostnameFlag || flag == MqttPortFlag
  }

  /** `s` with the field that `flag` sets replaced by a fixed placeholder. */
  function Without(s: Settings, flag: Flag): Settings {
    if flag == NumMessagesFlag then s.(numMessages := 0)
    else if flag == TokenExpMinutesFlag then s.(tokenExpMinutes := 0)
    else if flag == WaitTimeSecondsFlag then s.(waitTimeSeconds := 0)
    else if flag == MqttHostnameFlag then s.(mqttHostname := "")
    else if flag == MqttPortFlag then s.(mqttPort := 0)
    else s
  }

  /**
   * Giving or changing one optional flag changes only the field that flag sets:
   * every other field is the same as without it.
   */
  lemma ResolveOptionalIsLocal(flags: CommandLine, flag: Flag, arg: Arg)
    requires IsOptionalFlag(flag)
    requires Resolve(flags).Some? && Resolve(flags[flag := arg]).Some?
    ensures Without(Resolve(flags[flag := arg]).value, flag) == Without(Resolve(flags).value, flag)
  {
    var g := flags[flag := arg];
    assert g[DeviceIdFlag] == flags[DeviceIdFlag];
    assert g[PrivateKeyFileFlag] == flags[PrivateKeyFileFlag];
    assert g[AlgorithmFlag] == flags[AlgorithmFlag];
  }

  /**
   * The numeric flags take the parsed number's `intValue`, so a long in the
   * `int` range is kept exactly, and the hostname takes the text as given.
   */
  lemma ResolveOptionalValues(flags: CommandLine, n: Int32)
    requires Resolve(flags).Some?
    ensures (NumMessagesFlag in flags && flags[NumMessagesFlag].number == Some(LongValue(n)))
              ==> Resolve(flags).value.numMessages == n
    ensures (TokenExpMinutesFlag in flags && flags[TokenExpMinutesFlag].number == Some(LongValue(n)))
              ==> Resolve(flags).value.tokenExpMinutes == n
    ensures (WaitTimeSecondsFlag in flags && flags[WaitTimeSecondsFlag].number == Some(LongValue(n)))
              ==> Resolve(flags).value.waitTimeSeconds == n
    ensures MqttHostnameFlag in flags ==> Resolve(flags).value.mqttHostname == flags[MqttHostnameFlag].text
  {
  }

  /**
   * The port goes through `shortValue()`: a long port up to 32767 is kept, one
   * from 32768 to 65535 is stored as the negative number 65536 below it, and the
   * stored port is always a 16-bit signed value.
   */
  lemma ResolvePortNarrowing(flags: CommandLine, p: Int64)
    requires Resolve(flags).Some?
    requires MqttPortFlag in flags && flags[MqttPortFlag].number == Some(LongValue(p))
    ensures MinShort <= Resolve(flags).value.mqttPort <= MaxShort
    ensures 0 <= p <= 0x7FFF ==> Resolve(flags).value.mqttPort == p
    ensures 0x8000 <= p <= 0xFFFF ==> Resolve(flags).value.mqttPort == p - 0x1_0000 < 0
  {
  }
}
