# akenza MQTT example, modelled in Dafny

The akenza MQTT example is a Java command-line device client. It reads its options
from the command line and builds a signed JWT as its MQTT password. It connects to
the broker over TLS, retrying with exponential backoff under a time budget. It then
subscribes to the device's two downlink topics, publishes a fixed number of
temperature messages on the device's uplink topic (one per second), waits for
downlinks and disconnects.

This project models the core of that program:

- `uplink_options.dfy` covers `MqttUplinkOptions`. It has the field defaults and
  what `fromFlags` does with an already tokenised command line. Required flags
  are checked. Each numeric flag that is present is parsed and narrowed with
  `intValue`/`shortValue`. A missing required flag or an unparseable number
  turns the result into `null`. The class keeps its mutable fields.
  `FromFlags` is proved to build exactly the object that the pure function
  `Resolve` describes, and the lemmas about `Resolve` state the defaults, the
  error cases and the narrowing.
- `qos.dfy` covers the `MqttQos` enum and its levels.
- `topics.dfy` covers the strings `MqttExample` formats: the `ssl://host:port`
  broker address, the uplink topic, the commands and config topics, and the
  token's `aud` claim. Each comes with a reader that takes the string apart
  again. The module also states when these strings are valid MQTT topic names
  (section 4.7 of the MQTT 3.1.1 standard).
- `backoff.dfy` covers the retry policy of `connect`. The interval starts at
  500 ms and is multiplied by 1.5, capped at 6000 ms. The total slept has a
  900000 ms budget. Only reason codes 32109 (connection lost) and 32103 (server
  connect error) are retried. `Describes` says declaratively where the loop
  ends for a given sequence of broker answers. `LoopEndOf` computes that end
  step by step, and the two are proved to agree.
- `example.dfy` covers the algorithm switch, the claims of the token, the
  `connect` method with its `while` loop, `subscribe`, and `main`'s publish and
  wait loops. Each loop is a method proved against the specification functions
  above.
- `java_numbers.dfy` holds Java's `int`/`short`/`long` narrowing and `double`
  to `int` saturation. `decimal.dfy` holds the decimal text of an `int`.
  `wrappers.dfy` holds `Option` and `Result`.

The broker is an input. It is a function from the attempt number to the answer
the broker gives that attempt: `Accepted`, or `Rejected` with a Paho reason code.
Sleeping is recorded as durations. The calls made on the MQTT client (subscribe,
set callback, publish, disconnect) are returned as values.

`main` reads its options through `MqttCommandLineOptions`, a class that is not
part of this model. The model takes the values of `MqttUplinkOptions` plus an
`audience` string as the options `main` works with (`Example.DeviceOptions`).

Three behaviours of the code that are easy to miss:

- **Exhausted retry budget.** The loop stops once the total slept reaches
  900000 ms and raises nothing. `connect` then calls `subscribe` on a client that
  never connected. The model takes the client's refusal of that call (Paho's
  reason code 32104, client not connected) as the error `connect` throws. This
  happens after 155 retryable failures and 904079 ms of sleep
  (`Backoff.LoopBounds`, `Example.Connect`).
- **Unknown algorithm.** `main`'s catch clause (MqttExample.java:76) does not
  name `IllegalArgumentException`, so the exception thrown for an unknown
  algorithm escapes `main` instead of reaching `System.exit(-1)`
  (`Example.RunExample`).
- **Port.** The port is stored through `shortValue()`, so ports from 32768 to
  65535 become negative (`UplinkOptions.ResolvePortNarrowing`).

## Model

| member | source | states |
|---|---|---|
| JavaNumbers.Wrap32 | src/main/java/io/akenza/examples/mqtt/MqttUplinkOptions.java:94-102 | the `int` a long narrows to is congruent to it modulo 2^32, in the `int` range, and equal to it when it already fits |
| JavaNumbers.Wrap16 | src/main/java/io/akenza/examples/mqtt/MqttUplinkOptions.java:106-108 | `shortValue` keeps the value modulo 2^16 in the `short` range, unchanged when it fits |
| JavaNumbers.Saturate32 | src/main/java/io/akenza/examples/mqtt/MqttUplinkOptions.java:94-102 | a parsed double's `intValue` clamps to Integer.MIN_VALUE / MAX_VALUE and is exact in between |
| Decimal.NatToDecimal | src/main/java/io/akenza/examples/mqtt/MqttExample.java:141 | the text of a non-negative port is a non-empty digit string without a leading zero |
| Decimal.IntToDecimal | src/main/java/io/akenza/examples/mqtt/MqttExample.java:141 | the text of an `int` starts with '-' exactly when it is negative, and is digits otherwise, with no leading zero and no "-0" |
| Decimal.NatToDecimalValue | src/main/java/io/akenza/examples/mqtt/MqttExample.java:141 | reading the digits back gives the number written |
| Decimal.IntToDecimalRoundTrip | src/main/java/io/akenza/examples/mqtt/MqttExample.java:141 | parsing the port text in the broker address gives back the port, negative ones included |
| Decimal.IntToDecimalInjective | src/main/java/io/akenza/examples/mqtt/MqttExample.java:141 | two different ports never give the same text |
| Decimal.ParseIntOnlyCanonical | src/main/java/io/akenza/examples/mqtt/MqttExample.java:141 | the reader accepts only the text `Integer.toString` writes, so no leading zero and no "-0" |
| Qos.MqttQos.GetQos | src/main/java/io/akenza/examples/mqtt/MqttQos.java:29-38 | every QoS level is 0, 1 or 2 |
| Qos.GetQosRoundTrip | src/main/java/io/akenza/examples/mqtt/MqttQos.java:11-38 | the level of a constant leads back to that constant, and exactly the levels 0 to 2 name a constant |
| Qos.GetQosInjective | src/main/java/io/akenza/examples/mqtt/MqttQos.java:11-27 | two constants with the same level are the same constant |
| Qos.GetQosLevels | src/main/java/io/akenza/examples/mqtt/MqttQos.java:11-27 | QOS_0, QOS_1 and QOS_2 carry 0, 1 and 2 |
| UplinkOptions.MqttUplinkOptions.constructor | src/main/java/io/akenza/examples/mqtt/MqttUplinkOptions.java:10-17 | a new object has no device id, key file or algorithm, 100 messages, 60 token minutes, host mqtt.akenza.io, port 8883 and a 300 s wait |
| UplinkOptions.LongOptInjective | src/main/java/io/akenza/examples/mqtt/MqttUplinkOptions.java:21-82 | the eight registered options have eight different long names |
| UplinkOptions.RequiredOptions | src/main/java/io/akenza/examples/mqtt/MqttUplinkOptions.java:21-44 | the options registered as required are exactly `device_id`, `private_key_file` and `algorithm` |
| UplinkOptions.HasRequiredIff | src/main/java/io/akenza/examples/mqtt/MqttUplinkOptions.java:86-87 | `parse` accepts the command line only when every required option is on it |
| UplinkOptions.Resolve | src/main/java/io/akenza/examples/mqtt/MqttUplinkOptions.java:86-113 | the result is null iff a required flag is missing or a present numeric flag does not parse, whatever else is given |
| UplinkOptions.MqttUplinkOptions.FromFlags | src/main/java/io/akenza/examples/mqtt/MqttUplinkOptions.java:84-113 | returns null exactly when a required flag is missing or a present numeric flag does not parse; otherwise a new object whose fields are the required texts and, per optional flag, its default or its narrowed value |
| UplinkOptions.ReadInt | src/main/java/io/akenza/examples/mqtt/MqttUplinkOptions.java:94-102 | one `int` option: fails exactly when its flag is present and unparseable, keeps the field when the flag is absent, takes `intValue` otherwise |
| UplinkOptions.ReadShort | src/main/java/io/akenza/examples/mqtt/MqttUplinkOptions.java:106-108 | the port: the same, with `shortValue` |
| UplinkOptions.ResolveRequired | src/main/java/io/akenza/examples/mqtt/MqttUplinkOptions.java:90-92 | the required values are copied verbatim, and the algorithm is not checked |
| UplinkOptions.ResolveDefaults | src/main/java/io/akenza/examples/mqtt/MqttUplinkOptions.java:13-17 | with only the three required flags, every optional field has its default |
| UplinkOptions.ResolveAbsentDefaults | src/main/java/io/akenza/examples/mqtt/MqttUplinkOptions.java:94-108 | each optional flag that is absent leaves its field at the default, whatever other flags are given |
| UplinkOptions.ResolveOptionalIsLocal | src/main/java/io/akenza/examples/mqtt/MqttUplinkOptions.java:94-108 | giving or changing one optional flag changes only the field that flag sets |
| UplinkOptions.ResolveOptionalValues | src/main/java/io/akenza/examples/mqtt/MqttUplinkOptions.java:94-105 | a numeric flag whose value fits an `int` is stored exactly; the hostname is stored as given |
| UplinkOptions.ResolvePortNarrowing | src/main/java/io/akenza/examples/mqtt/MqttUplinkOptions.java:106-108 | the stored port is a 16-bit signed value: ports up to 32767 kept, 32768..65535 stored as negative numbers |
| Topics.ServerAddress | src/main/java/io/akenza/examples/mqtt/MqttExample.java:141 | splitting `ssl://host:port` at its last ':' gives back the host and the port, for any host |
| Topics.ParseServerAddressOnlyCanonical | src/main/java/io/akenza/examples/mqtt/MqttExample.java:141 | an address that parses to a host and port is exactly `ssl://{host}:{port}` for them |
| Topics.UplinkTopic | src/main/java/io/akenza/examples/mqtt/MqttExample.java:45 | the device id is read back from `/up/device/id/{id}` |
| Topics.CommandsTopic | src/main/java/io/akenza/examples/mqtt/MqttExample.java:232 | the device id is read back from `/down/device/id/{id}/commands` |
| Topics.ConfigTopic | src/main/java/io/akenza/examples/mqtt/MqttExample.java:235 | the device id is read back from `/down/device/id/{id}/config` |
| Topics.UplinkTopicInjective | src/main/java/io/akenza/examples/mqtt/MqttExample.java:45 | different devices never share an uplink topic |
| Topics.DownlinkTopicsInjective | src/main/java/io/akenza/examples/mqtt/MqttExample.java:232-235 | different devices never share a commands topic or a config topic |
| Topics.Audience | src/main/java/io/akenza/examples/mqtt/MqttExample.java:92 | given the audience, the device id is read back from the claim `https://{audience}/devices/{id}` |
| Topics.AudienceOfClaim | src/main/java/io/akenza/examples/mqtt/MqttExample.java:120 | given the device id, the audience is read back from the claim |
| Topics.AudienceAmbiguous | src/main/java/io/akenza/examples/mqtt/MqttExample.java:92 | the claim alone does not fix the pair: moving a `/devices/` segment between audience and device id gives the same claim |
| Topics.TopicsDistinct | src/main/java/io/akenza/examples/mqtt/MqttExample.java:232-235 | for any two devices, the uplink, commands and config topics are three different strings |
| Topics.UplinkTopicValidIff | src/main/java/io/akenza/examples/mqtt/MqttExample.java:45 | the uplink topic is a valid MQTT topic name exactly when the device id has no '#', '+' or NUL |
| Topics.DownlinkTopicsValidIff | src/main/java/io/akenza/examples/mqtt/MqttExample.java:232-235 | the commands and config topics are valid topic names, so the two filters hold no wildcard, exactly when the device id has no '#', '+' or NUL |
| Backoff.IntervalBounds | src/main/java/io/akenza/examples/mqtt/MqttExample.java:187-190 | the retry interval always stays between 500 and 6000 ms |
| Backoff.NextInterval | src/main/java/io/akenza/examples/mqtt/MqttExample.java:187-190 | the next interval never exceeds 6000 ms; while 1.5 times the current one stays below the cap it is exactly the floor of that product, and from 4000 ms on it is the cap |
| Backoff.IntervalValues | src/main/java/io/akenza/examples/mqtt/MqttExample.java:164-190 | the intervals slept are 500, 750, 1125, 1687, 2530, 3795, 5692 ms, then 6000 ms for good |
| Backoff.SleptBeforeIsSum | src/main/java/io/akenza/examples/mqtt/MqttExample.java:185-186 | the running total is the sum of the intervals slept so far |
| Backoff.SleptBeforeValues | src/main/java/io/akenza/examples/mqtt/MqttExample.java:185-190 | after k >= 7 retryable failures the total is 16079 + 6000 * (k - 7) ms |
| Backoff.BudgetLeftIff | src/main/java/io/akenza/examples/mqtt/MqttExample.java:173 | the loop guard's budget admits another attempt exactly after at most 154 retryable failures |
| Backoff.LoopEndFrom | src/main/java/io/akenza/examples/mqtt/MqttExample.java:173-195 | from attempt k on, the loop absorbs only retryable rejections and ends after at most 155 failures |
| Backoff.LoopEndFromDescribes | src/main/java/io/akenza/examples/mqtt/MqttExample.java:173-195 | the step-by-step loop ends where the declarative description says, from any point of the run |
| Backoff.DescribesUnique | src/main/java/io/akenza/examples/mqtt/MqttExample.java:173-195 | for one broker, at most one loop end fits the description |
| Backoff.LoopEndOfIsTheEnd | src/main/java/io/akenza/examples/mqtt/MqttExample.java:173-195 | an end fits the description of the loop exactly when it is the computed one |
| Backoff.LoopBounds | src/main/java/io/akenza/examples/mqtt/MqttExample.java:164-195 | at most 155 failures absorbed and 155 connects tried; interval in [500, 6000]; total below 906000; an exhausted budget means exactly 155 failures and 904079 ms slept |
| Backoff.FatalFirstAttempt | src/main/java/io/akenza/examples/mqtt/MqttExample.java:191-193 | a reason code other than 32109/32103 is rethrown at once, with nothing slept |
| Backoff.TwoRetriesThenConnect | src/main/java/io/akenza/examples/mqtt/MqttExample.java:182-190 | two retryable rejections then an accept: connected after sleeping 500 and 750 ms |
| Backoff.AlwaysRetryable | src/main/java/io/akenza/examples/mqtt/MqttExample.java:173-195 | a broker that always answers with a retryable rejection exhausts the budget after 155 sleeps totalling 904079 ms |
| Example.SelectSigner | src/main/java/io/akenza/examples/mqtt/MqttExample.java:151-158 | exactly "RS256" and "ES256" select a signer, whose header names the algorithm asked for |
| Example.InvalidAlgorithmMessage | src/main/java/io/akenza/examples/mqtt/MqttExample.java:156-157 | the IllegalArgumentException message of a refused algorithm gives the name back |
| Example.CreateJwt | src/main/java/io/akenza/examples/mqtt/MqttExample.java:151-158 | a token is made exactly for the two algorithms, with that algorithm in its header and subject = device id; otherwise the switch's message is the error |
| Example.CreateJwtAudience | src/main/java/io/akenza/examples/mqtt/MqttExample.java:90-95 | both signers put the audience claim `https://{audience}/devices/{id}` in the token, and the device id is read back from it |
| Example.SubscribeSteps | src/main/java/io/akenza/examples/mqtt/MqttExample.java:238-240 | `subscribe` subscribes to the device's config topic, then to its commands topic, two different topics, both at QoS 1, and installs the callback last |
| Example.RetryConnect | src/main/java/io/akenza/examples/mqtt/MqttExample.java:169-195 | the loop ends where the description fixes for the broker; it slept the first intervals in order, its total is their sum, and it holds the next interval |
| Example.Connect | src/main/java/io/akenza/examples/mqtt/MqttExample.java:140-199 | unknown algorithm: fails with no connect call; otherwise one connect call per absorbed failure plus the last attempt unless the budget ran out; a rethrown reason is passed on; an exhausted budget ends in the subscribe refusal; success exactly when an attempt was accepted, with the address, client id, token, total and subscriptions fixed by the options |
| Example.PublishAll | src/main/java/io/akenza/examples/mqtt/MqttExample.java:48-62 | message k is number k + 1 on the uplink topic with temperature 12 * (k + 1) at QoS 1, as many as numMessages (none if it is not positive), one second of sleep each |
| Example.WaitForDownlinks | src/main/java/io/akenza/examples/mqtt/MqttExample.java:64-68 | sleeps one second per second of waitTimeSeconds, nothing when it is not positive |
| Example.RunExample | src/main/java/io/akenza/examples/mqtt/MqttExample.java:37-79 | no options or an MqttException from connect: exit -1 with nothing published; unknown algorithm: the exception escapes; otherwise `main` returns after the publish schedule, the wait and the disconnect |
| Example.ThreeMessageSchedule | src/main/java/io/akenza/examples/mqtt/MqttExample.java:45-58 | three messages for device dev1 are temperatures 12, 24 and 36 on `/up/device/id/dev1` at QoS 1 |
| Example.Temperature | src/main/java/io/akenza/examples/mqtt/MqttExample.java:49 | the payload temperature is `12 * i` modulo 2^32 in the `int` range, exact while it fits |
| Example.TemperatureRange | src/main/java/io/akenza/examples/mqtt/MqttExample.java:49 | the temperature is 12 * i up to message 178956970; the next one overflows the `int` and is negative |
| Example.CounterWrapsAtMaxInt | src/main/java/io/akenza/examples/mqtt/MqttExample.java:48 | with `numMessages == Integer.MAX_VALUE` the guard `i <= numMessages` holds after every `++i`: the counter reaches MAX_VALUE, then wraps to MIN_VALUE, where the temperature is 0 |

## Left out

- JWT signing: reading the key file, PEM parsing, RSA/ECDSA signatures and the compact serialisation. A token is its algorithm, subject and audience (`Example.Jwt`).
- The `iat` and `exp` claims and `tokenExpMinutes`. They depend on the clock.
- `MqttConnectOptions` settings (MQTT version 3.1.1, TLSv1.2, user name "unused") and the `MemoryPersistence` store. They are configuration handed to the Paho library and do not change control flow in the source.
- Failures of `publish` and `disconnect`, and losing the connection after `connect`. The MQTT client is not modelled beyond connect answers and the subscribe refusal on an unconnected client.
- The close of the client by try-with-resources.
- `Thread.sleep` is recorded only as durations. An `InterruptedException` is not modelled.
- JSON encoding of the payload. A message carries its temperature value.
- The downlink callback (`messageArrived`, which only prints). It runs concurrently on Paho's threads.
- commons-cli itself: tokenising, unknown or repeated flags, usage text, and how it turns text into numbers. A parsed number is part of the input. Doubles are given already truncated, so NaN and the infinities are not represented.
- Console output and `System.err` messages.
- `toString` and other members of the classes that the core does not use.
- The 65535-byte length limit of MQTT topic names. Topic validity covers only the reserved characters.
- `MqttCommandLineOptions` is not part of this model.

## Findings

| source | as written | input that shows it | evidently intended | confidence | as-written member | corrected member |
|---|---|---|---|---|---|---|
| src/main/java/io/akenza/examples/mqtt/MqttExample.java:48 | `for (int i = 1; i <= options.numMessages; ++i)` with an `int` counter | `--num_messages 2147483647`: after message 2147483647 the counter wraps to -2147483648, the guard still holds, and publishing never stops | exactly numMessages messages, then the wait | low: not executed | Example.CounterWrapsAtMaxInt | Example.PublishAll |
| src/main/java/io/akenza/examples/mqtt/MqttExample.java:65 | `for (int i = 1; i <= options.waitTimeSeconds; ++i)` with an `int` counter | `--wait_time_seconds 2147483647`: the counter wraps the same way and the wait never ends | exactly waitTimeSeconds one-second sleeps | low: not executed | Example.CounterWrapsAtMaxInt | Example.WaitForDownlinks |
