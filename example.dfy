/**
 * MqttExample: the algorithm switch that picks the token signer, the connect
 * routine with its retry loop and its two subscriptions, and `main`'s publish
 * and wait loops. The Paho client is not modelled as an object: the broker's
 * answers to connect attempts are an input, `isConnected` is the flag an
 * accepted attempt sets, and the calls the program makes on the client are
 * returned as values.
 */
module Example {
  import opened Wrappers
  import opened JavaNumbers
  import opened Qos
  import opened UplinkOptions
  import opened Topics
  import opened Backoff

  /** The options `main` works with: those of MqttUplinkOptions plus the token audience. */
  datatype DeviceOptions = DeviceOptions(settings: Settings, audience: string)

  /** The two signers the switch can pick. */
  datatype Signer = RsaSigner | EcSigner {
    /** The JWS algorithm name the signer's header carries. */
    function AlgorithmName(): string {
      match this
      case RsaSigner => "RS256"
      case EcSigner => "ES256"
    }
  }

  const InvalidAlgorithmPrefix := "Invalid algorithm: "
  const InvalidAlgorithmSuffix := ". Should be one of 'RS256' or 'ES256'."

  /**
   * The `switch (options.algorithm)`: exactly "RS256" and "ES256" select a
   * signer, whose header then names the algorithm asked for; any other name
   * gives an IllegalArgumentException message.
   */
  function SelectSigner(algorithm: string): (r: Result<Signer, string>)
    ensures r.Success? <==> algorithm == "RS256" || algorithm == "ES256"
    ensures r.Success? ==> r.value.AlgorithmName() == algorithm
  {
    if algorithm == "RS256" then Success(RsaSigner)
    else if algorithm == "ES256" then Success(EcSigner)
    else Failure(InvalidAlgorithmPrefix + algorithm + InvalidAlgorithmSuffix)
  }

  /** The message of a refused algorithm names it: the name is read back from the message. */
  lemma InvalidAlgorithmMessage(algorithm: string)
    requires SelectSigner(algorithm).Failure?
    ensures Between(SelectSigner(algorithm).error, InvalidAlgorithmPrefix, InvalidAlgorithmSuffix) == Some(algorithm)
  {
    BetweenRoundTrip(InvalidAlgorithmPrefix, algorithm, InvalidAlgorithmSuffix);
  }

  /** A token's header algorithm and its `sub` and `aud` claims; signing is not modelled. */
  datatype Jwt = Jwt(algorithm: string, subject: string, audience: string)

  /**
   * The password `connect` builds: `createJwtRS` or `createJwtES`, as the switch
   * decides. A token is made exactly for the two algorithms, its header names the
   * algorithm asked for and its subject is the device id; otherwise the switch's
   * message is the error.
   */
  function CreateJwt(options: DeviceOptions): (r: Result<Jwt, string>)
    ensures r.Success? <==> options.settings.algorithm == "RS256" || options.settings.algorithm == "ES256"
    ensures r.Success? ==> r.value.algorithm == options.settings.algorithm
    ensures r.Success? ==> r.value.subject == options.settings.deviceId
    ensures r.Failure? ==> r.error == SelectSigner(options.settings.algorithm).error
  {
    match SelectSigner(options.settings.algorithm)
    case Failure(message) => Failure(message)
    case Success(signer) =>
      Success(Jwt(signer.AlgorithmName(), options.settings.deviceId,
                  Audience(options.audience, options.settings.deviceId)))
  }

  /**
   * Both signers put the same audience claim in the token, `https://{audience}/devices/{id}`,
   * from which the device id is read back.
   */
  lemma CreateJwtAudience(options: DeviceOptions)
    requires CreateJwt(options).Success?
    ensures CreateJwt(options).value.audience == Audience(options.audience, options.settings.deviceId)
    ensures Between(CreateJwt(options).value.audience,
                    AudienceScheme + options.audience + AudienceDevices, "") == Some(options.settings.deviceId)
  {
  }

  /** What `subscribe` does on the client, in order. */
  datatype SubscribeStep = Subscribe(topicFilter: string, qos: int) | SetCallback

  /**
   * `subscribe` subscribes to the device's config topic and then to its commands
   * topic, two different topics, both at QoS 1, and installs the callback last.
   */
  function SubscribeSteps(deviceId: string): (steps: seq<SubscribeStep>)
    ensures |steps| == 3 && steps[2] == SetCallback
    ensures forall k :: 0 <= k < 2 ==> steps[k].Subscribe? && steps[k].qos == QOS_1.GetQos()
    ensures DeviceOfConfigTopic(steps[0].topicFilter) == Some(deviceId)
    ensures DeviceOfCommandsTopic(steps[1].topicFilter) == Some(deviceId)
    ensures steps[0].topicFilter != steps[1].topicFilter
  {
    TopicsDistinct(deviceId, deviceId);
    [Subscribe(ConfigTopic(deviceId), 1), Subscribe(CommandsTopic(deviceId), 1), SetCallback]
  }

  /**
   * The `while` loop of `connect`. It ends where `Describes` says; it slept the
   * first `end.failures` intervals in order, its total is their sum, and the
   * interval it holds is the next one.
   */
  method RetryConnect(broker: Broker) returns (end: LoopEnd, retryIntervalMs: int, totalRetryTimeMs: int, sleeps: seq<int>)
    ensures Describes(broker, end)
    ensures sleeps == Intervals(end.failures) && totalRetryTimeMs == Sum(sleeps)
    ensures totalRetryTimeMs == SleptBefore(end.failures)
    ensures retryIntervalMs == Interval(end.failures)
  {
    retryIntervalMs := InitialConnectIntervalMillis;
    totalRetryTimeMs := 0;
    sleeps := [];
    var connected := false;
    var failures: nat := 0;
    while totalRetryTimeMs < MaxConnectRetryTimeElapsedMillis && !connected
      invariant sleeps == Intervals(failures) && totalRetryTimeMs == SleptBefore(failures)
      invariant retryIntervalMs == Interval(failures)
      invariant forall j :: 0 <= j < failures ==> RetryableRejection(broker(j))
      invariant failures > 0 ==> BudgetLeft(failures - 1)
      invariant connected ==> BudgetLeft(failures) && broker(failures) == Accepted
      decreases MaxConnectRetryTimeElapsedMillis - totalRetryTimeMs, !connected
    {
      match broker(failures) {
        case Accepted =>
          connected := true;
        case Rejected(reason) =>
          if Retryable(reason) {
            IntervalBounds(failures);
            sleeps := sleeps + [retryIntervalMs];
            totalRetryTimeMs := totalRetryTimeMs + retryIntervalMs;
            retryIntervalMs := retryIntervalMs * 3 / 2;
            if retryIntervalMs > MaxConnectIntervalMillis {
              retryIntervalMs := MaxConnectIntervalMillis;
            }
            failures := failures + 1;
          } else {
            end := Rethrown(reason, failures);
            SleptBeforeIsSum(failures);
            return;
          }
      }
    }
    end := if connected then Connected(failures) else Exhausted(failures);
    SleptBeforeIsSum(failures);
  }

  /**
   * Paho's `MqttException.REASON_CODE_CLIENT_NOT_CONNECTED`: what `subscribe`
   * throws on a client that is not connected.
   */
  const ReasonClientNotConnected := 32104

  /** The client `connect` returns, with what was done to it. */
  datatype Connection = Connection(
    serverUri: string,
    clientId: string,
    password: Jwt,
    end: LoopEnd,
    totalRetryTimeMs: int,
    subscribeSteps: seq<SubscribeStep>)
  {
    /** `client.isConnected()`: set by an accepted attempt. */
    predicate IsConnected() {
      end.Connected?
    }
  }

  /** Why `connect` throws, with the intervals slept before it did. */
  datatype ConnectError =
    | InvalidAlgorithm(message: string)
    | Refused(reasonCode: int, sleeps: seq<int>)
    | SubscribeRefused(reasonCode: int, sleeps: seq<int>)

  /**
   * `connect`: an unknown algorithm fails before any connect attempt; otherwise
   * the retry loop runs and a reason that is not retried is rethrown. When the
   * budget runs out the loop just ends and `subscribe` is called on a client
   * that never connected, which the client refuses. So `connect` returns a
   * client exactly when an attempt was accepted, and that client is subscribed.
   */
  method Connect(options: DeviceOptions, broker: Broker) returns (r: Result<Connection, ConnectError>, connectCalls: nat)
    ensures CreateJwt(options).Failure? ==>
      r == Failure(InvalidAlgorithm(CreateJwt(options).error)) && connectCalls == 0
    ensures CreateJwt(options).Success? ==> connectCalls == ConnectCalls(LoopEndOf(broker))
    ensures r.Success? <==> CreateJwt(options).Success? && LoopEndOf(broker).Connected?
    ensures r.Failure? ==> (r.error.InvalidAlgorithm? <==> CreateJwt(options).Failure?)
    ensures r.Failure? && r.error.Refused? ==>
      && LoopEndOf(broker) == Rethrown(r.error.reasonCode, |r.error.sleeps|)
      && r.error.sleeps == Intervals(|r.error.sleeps|)
    ensures r.Failure? && r.error.SubscribeRefused? ==>
      && LoopEndOf(broker) == Exhausted(|r.error.sleeps|)
      && r.error.reasonCode == ReasonClientNotConnected
      && r.error.sleeps == Intervals(|r.error.sleeps|)
    ensures r.Success? ==>
      && r.value.serverUri == ServerAddress(options.settings.mqttHostname, options.settings.mqttPort)
      && r.value.clientId == options.settings.deviceId
      && CreateJwt(options) == Success(r.value.password)
      && r.value.end == LoopEndOf(broker)
      && r.value.IsConnected()
      && r.value.totalRetryTimeMs == SleptBefore(r.value.end.failures)
      && r.value.subscribeSteps == SubscribeSteps(options.settings.deviceId)
  {
    var serverUri := ServerAddress(options.settings.mqttHostname, options.settings.mqttPort);
    var password := CreateJwt(options);
    if password.Failure? {
      return Failure(InvalidAlgorithm(password.error)), 0;
    }
    var end, retryIntervalMs, totalRetryTimeMs, sleeps := RetryConnect(broker);
    LoopEndOfIsTheEnd(broker, end);
    IntervalsShape(end.failures);
    connectCalls := ConnectCalls(end);
    if end.Rethrown? {
      return Failure(Refused(end.reasonCode, sleeps)), connectCalls;
    }
    var connection := Connection(serverUri, options.settings.deviceId, password.value, end,
                                 totalRetryTimeMs, SubscribeSteps(options.settings.deviceId));
    // the first `client.subscribe` of `subscribe`
    if !connection.IsConnected() {
      return Failure(SubscribeRefused(ReasonClientNotConnected, sleeps)), connectCalls;
    }
    r := Success(connection);
  }

  /** `12 * i` in Java `int` arithmetic: congruent to it modulo 2^32, and exact while it fits. */
  function Temperature(i: int): (t: Int32)
    ensures (t - 12 * i) % 0x1_0000_0000 == 0
    ensures MinInt <= 12 * i <= MaxInt ==> t == 12 * i
  {
    Wrap32(12 * i)
  }

  /** One published message: its topic, its `temperature` payload field and its QoS. */
  datatype Message = Message(topic: string, temperature: Int32, qos: int)

  /** How many times `for (i = 1; i <= n; ++i)` runs when the counter does not wrap. */
  function Count(n: int): nat {
    if n < 0 then 0 else n
  }

  /** Message `k` (from 0) is number `k + 1`: temperature 12 * (k + 1), QoS 1, on `topic`. */
  predicate IsPublishSchedule(topic: string, numMessages: int, published: seq<Message>) {
    && |published| == Count(numMessages)
    && forall k :: 0 <= k < |published| ==>
         published[k] == Message(topic, Temperature(k + 1), QOS_1.GetQos())
  }

  /** The publish loop of `main`, one second of sleep after each message. */
  method PublishAll(topic: string, numMessages: Int32) returns (published: seq<Message>, sleptMs: nat)
    ensures IsPublishSchedule(topic, numMessages, published)
    ensures sleptMs == 1000 * |published|
  {
    published := [];
    sleptMs := 0;
    var i := 1;
    while i <= numMessages
      invariant 1 <= i <= Count(numMessages) + 1
      invariant |published| == i - 1
      invariant forall k :: 0 <= k < |published| ==>
        published[k] == Message(topic, Temperature(k + 1), QOS_1.GetQos())
      invariant sleptMs == 1000 * |published|
    {
      published := published + [Message(topic, Temperature(i), QOS_1.GetQos())];
      sleptMs := sleptMs + 1000;
      i := i + 1;
    }
  }

  /** The wait loop of `main`: one second per iteration, none when the count is not positive. */
  method WaitForDownlinks(waitTimeSeconds: Int32) returns (sleptMs: nat)
    ensures sleptMs == 1000 * Count(waitTimeSeconds)
  {
    sleptMs := 0;
    var i := 1;
    while i <= waitTimeSeconds
      invariant 1 <= i <= Count(waitTimeSeconds) + 1
      invariant sleptMs == 1000 * (i - 1)
    {
      sleptMs := sleptMs + 1000;
      i := i + 1;
    }
  }

  /** How `main` ends: it returns, it calls `System.exit`, or an exception escapes it. */
  datatype Termination = Returned | Exited(status: int) | Uncaught(message: string)

  /**
   * `main`, given the parsed options (`None` where parsing failed): exit status -1
   * when there are no options or `connect` throws an MqttException; the
   * IllegalArgumentException of an unknown algorithm is not among the exceptions
   * `main` catches, so it escapes; otherwise the publish schedule on the uplink
   * topic, the wait, and the disconnect of the connected client. Nothing is
   * published unless `main` returns.
   */
  method RunExample(options: Option<DeviceOptions>, broker: Broker)
    returns (termination: Termination, published: seq<Message>, waitedMs: nat, disconnected: bool)
    ensures termination.Returned? <==>
      options.Some? && CreateJwt(options.value).Success? && LoopEndOf(broker).Connected?
    ensures termination.Uncaught? <==> options.Some? && CreateJwt(options.value).Failure?
    ensures termination.Uncaught? ==> termination.message == CreateJwt(options.value).error
    ensures termination.Exited? ==> termination.status == -1
    ensures !termination.Returned? ==> published == [] && waitedMs == 0 && !disconnected
    ensures termination.Returned? ==>
      && IsPublishSchedule(UplinkTopic(options.value.settings.deviceId), options.value.settings.numMessages, published)
      && waitedMs == 1000 * Count(options.value.settings.waitTimeSeconds)
      && disconnected
  {
    if options.None? {
      return Exited(-1), [], 0, false;
    }
    var settings := options.value.settings;
    var connection, connectCalls := Connect(options.value, broker);
    if connection.Failure? {
      match connection.error
      case InvalidAlgorithm(message) =>
        return Uncaught(message), [], 0, false;
      case Refused(_, _) =>
        return Exited(-1), [], 0, false;
      case SubscribeRefused(_, _) =>
        return Exited(-1), [], 0, false;
    }
    var topic := UplinkTopic(settings.deviceId);
    var sleptMs;
    published, sleptMs := PublishAll(topic, settings.numMessages);
    waitedMs := WaitForDownlinks(settings.waitTimeSeconds);
    disconnected := connection.value.IsConnected();
    termination := Returned;
  }

  /** The run of `--device_id dev1 ... --num_messages 3`: temperatures 12, 24 and 36 on `/up/device/id/dev1`. */
  lemma ThreeMessageSchedule(published: seq<Message>)
    requires IsPublishSchedule(UplinkTopic("dev1"), 3, published)
    ensures published == [
      Message("/up/device/id/dev1", 12, 1),
      Message("/up/device/id/dev1", 24, 1),
      Message("/up/device/id/dev1", 36, 1)]
  {
    assert UplinkTopic("dev1") == "/up/device/id/dev1";
    assert Temperature(1) == 12 && Temperature(2) == 24 && Temperature(3) == 36;
    assert published[0] == Message(UplinkTopic("dev1"), Temperature(1), 1);
    assert published[1] == Message(UplinkTopic("dev1"), Temperature(2), 1);
    assert published[2] == Message(UplinkTopic("dev1"), Temperature(3), 1);
  }

  /**
   * The temperature is exactly 12 * i up to message 178956970; from the next
   * message on, `12 * i` overflows the Java `int` and the value wraps negative.
   */
  lemma TemperatureRange(i: int)
    ensures 0 <= i <= 178956970 ==> Temperature(i) == 12 * i
    ensures Temperature(178956971) == 12 * 178956971 - 0x1_0000_0000 < 0
  {
  }

  /** The publish loop's counter as Java advances it: `++i` on an `int` wraps around. */
  function CounterAfter(steps: nat): Int32 {
    Wrap32(1 + steps)
  }

  /**
   * With the loop bound at `Integer.MAX_VALUE` the guard `i <= bound` holds for
   * every counter value, so the loop as written never stops: after iteration
   * 2147483647 the counter wraps to -2147483648 and the guard still holds. The
   * publish loop (bound `numMessages`) then publishes message -2147483648 with
   * temperature 0; the wait loop has the same counter and guard with
   * `waitTimeSeconds` as its bound, and sleeps on for ever.
   */
  lemma CounterWrapsAtMaxInt(bound: Int32, steps: nat)
    requires bound == MaxInt
    ensures CounterAfter(steps) <= bound
    ensures CounterAfter(MaxInt - 1) == bound
    ensures CounterAfter(MaxInt) == MinInt && Temperature(CounterAfter(MaxInt)) == 0
  {
  }
}
