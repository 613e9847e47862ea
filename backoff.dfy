/**
 * The retry policy of `MqttExample.connect`: a retry interval that starts at
 * 500 ms and grows by 1.5 up to 6000 ms, a running total of the time slept,
 * and a 900000 ms budget on that total. The broker's answers to successive
 * connect attempts are an input; `Describes` says declaratively where the loop
 * ends for them, and `LoopEndOf` computes the same end step by step.
 */
module Backoff {
  const InitialConnectIntervalMillis := 500
  const MaxConnectIntervalMillis := 6000
  const MaxConnectRetryTimeElapsedMillis := 900000

  /** Paho's `MqttException.REASON_CODE_CONNECTION_LOST`. */
  const ReasonConnectionLost := 32109
  /** Paho's `MqttException.REASON_CODE_SERVER_CONNECT_ERROR`. */
  const ReasonServerConnectError := 32103

  /** What one `client.connect` does: connect, or throw an MqttException with a reason code. */
  datatype Attempt = Accepted | Rejected(reasonCode: int)

  /** The broker's answer to each attempt, counted from 0. */
  type Broker = nat -> Attempt

  predicate Retryable(reasonCode: int) {
    reasonCode == ReasonConnectionLost || reasonCode == ReasonServerConnectError
  }

  predicate RetryableRejection(a: Attempt) {
    a.Rejected? && Retryable(a.reasonCode)
  }

  /**
   * `retryIntervalMs *= 1.5f` followed by the cap. The float product is exact
   * for every interval the loop can hold (at most 6000), and the compound
   * assignment truncates it back to a long, so it is the floor of x * 3 / 2:
   * never above the cap, and below it the largest whole number not above 1.5 x.
   */
  function NextInterval(ms: int): (next: int)
    ensures next <= MaxConnectIntervalMillis
    ensures 3 * ms < 2 * MaxConnectIntervalMillis ==> 2 * next <= 3 * ms < 2 * next + 2
    ensures 2 * MaxConnectIntervalMillis <= 3 * ms ==> next == MaxConnectIntervalMillis
  {
    var grown := ms * 3 / 2;
    if grown > MaxConnectIntervalMillis then MaxConnectIntervalMillis else grown
  }

  /** The interval slept after the `k`-th retryable failure (from 0). */
  function Interval(k: nat): int {
    if k == 0 then InitialConnectIntervalMillis else NextInterval(Interval(k - 1))
  }

  /** The first `k` intervals, in the order they are slept. */
  function Intervals(k: nat): seq<int> {
    if k == 0 then [] else Intervals(k - 1) + [Interval(k - 1)]
  }

  function Sum(s: seq<int>): int {
    if s == [] then 0 else Sum(s[..|s| - 1]) + s[|s| - 1]
  }

  /** `totalRetryTimeMs` after `k` retryable failures. */
  function SleptBefore(k: nat): int {
    if k == 0 then 0 else SleptBefore(k - 1) + Interval(k - 1)
  }

  /** The loop guard's budget test: another attempt may follow `k` retryable failures. */
  predicate BudgetLeft(k: nat) {
    SleptBefore(k) < MaxConnectRetryTimeElapsedMillis
  }

  lemma {:induction false} IntervalBounds(k: nat)
    ensures InitialConnectIntervalMillis <= Interval(k) <= MaxConnectIntervalMillis
  {
    if k > 0 {
      IntervalBounds(k - 1);
    }
  }

  /** The intervals are 500, 750, 1125, 1687, 2530, 3795, 5692 and 6000 from then on. */
  lemma {:induction false} IntervalValues(k: nat)
    ensures Interval(0) == 500 && Interval(1) == 750 && Interval(2) == 1125 && Interval(3) == 1687
    ensures Interval(4) == 2530 && Interval(5) == 3795 && Interval(6) == 5692
    ensures k >= 7 ==> Interval(k) == 6000
  {
    if k > 7 {
      IntervalValues(k - 1);
    }
  }

  lemma IntervalsShape(k: nat)
    ensures |Intervals(k)| == k
    ensures forall j :: 0 <= j < k ==> Intervals(k)[j] == Interval(j)
  {
    if k > 0 {
      IntervalsShape(k - 1);
    }
  }

  /** The total is the sum of the intervals slept so far. */
  lemma {:induction false} SleptBeforeIsSum(k: nat)
    ensures SleptBefore(k) == Sum(Intervals(k))
  {
    if k > 0 {
      SleptBeforeIsSum(k - 1);
      IntervalsShape(k - 1);
      assert Intervals(k)[..k - 1] == Intervals(k - 1);
    }
  }

  /** The total after `k` failures: 16079 ms for the first seven, then 6000 ms per failure. */
  lemma {:induction false} SleptBeforeValues(k: nat)
    ensures SleptBefore(0) == 0 && SleptBefore(1) == 500 && SleptBefore(2) == 1250
    ensures SleptBefore(3) == 2375 && SleptBefore(4) == 4062 && SleptBefore(5) == 6592
    ensures SleptBefore(6) == 10387 && SleptBefore(7) == 16079
    ensures k >= 7 ==> SleptBefore(k) == 16079 + 6000 * (k - 7)
  {
    IntervalValues(k);
    if k > 7 {
      SleptBeforeValues(k - 1);
      IntervalValues(k - 1);
    }
  }

  /** The budget allows an attempt after at most 154 retryable failures. */
  lemma BudgetLeftIff(k: nat)
    ensures BudgetLeft(k) <==> k <= 154
  {
    SleptBeforeValues(k);
  }

  /** How the loop ends, with the number of retryable failures it absorbed (one sleep each). */
  datatype LoopEnd =
    | Connected(failures: nat)
    | Rethrown(reasonCode: int, failures: nat)
    | Exhausted(failures: nat)

  /**
   * `end` is where the loop ends for `broker`: the first `end.failures` attempts
   * were retryable rejections; then either the next attempt, made with budget
   * left, connected or threw a reason that is not retried, or the budget had
   * just run out. (The budget test is monotone, so every earlier attempt was
   * made with budget left too: `BudgetLeftIff`.)
   */
  predicate Describes(broker: Broker, end: LoopEnd) {
    && (forall j :: 0 <= j < end.failures ==> RetryableRejection(broker(j)))
    && match end
       case Connected(n) => BudgetLeft(n) && broker(n) == Accepted
       case Rethrown(r, n) => BudgetLeft(n) && broker(n) == Rejected(r) && !Retryable(r)
       case Exhausted(n) => !BudgetLeft(n) && (n == 0 || BudgetLeft(n - 1))
  }

  /** The number of `client.connect` calls the loop makes before it ends at `end`. */
  function ConnectCalls(end: LoopEnd): nat {
    if end.Exhausted? then end.failures else end.failures + 1
  }

  /**
   * The loop as a function: attempt `k` follows `k` retryable failures. From
   * there the loop absorbs only retryable rejections, and never more than the
   * budget allows.
   */
  function LoopEndFrom(broker: Broker, k: nat): (end: LoopEnd)
    ensures k <= end.failures <= 155 || (k > 155 && end == Exhausted(k))
    ensures forall j :: k <= j < end.failures ==> RetryableRejection(broker(j))
    decreases 155 - k
  {
    if !BudgetLeft(k) then Exhausted(k)
    else
      BudgetLeftIff(k);
      match broker(k)
      case Accepted => Connected(k)
      case Rejected(r) => if Retryable(r) then LoopEndFrom(broker, k + 1) else Rethrown(r, k)
  }

  function LoopEndOf(broker: Broker): LoopEnd {
    LoopEndFrom(broker, 0)
  }

  lemma {:induction false} LoopEndFromDescribes(broker: Broker, k: nat)
    requires forall j :: 0 <= j < k ==> RetryableRejection(broker(j))
    requires k == 0 || BudgetLeft(k - 1)
    ensures Describes(broker, LoopEndFrom(broker, k))
    decreases 155 - k
  {
    if BudgetLeft(k) {
      BudgetLeftIff(k);
      match broker(k)
      case Accepted =>
        assert LoopEndFrom(broker, k) == Connected(k);
      case Rejected(r) =>
        if Retryable(r) {
          assert LoopEndFrom(broker, k) == LoopEndFrom(broker, k + 1);
          LoopEndFromDescribes(broker, k + 1);
        } else {
          assert LoopEndFrom(broker, k) == Rethrown(r, k);
        }
    }
  }

  /** At most one end fits a broker. */
  lemma DescribesUnique(broker: Broker, e1: LoopEnd, e2: LoopEnd)
    requires Describes(broker, e1) && Describes(broker, e2)
    ensures e1 == e2
  {
    BudgetLeftIff(e1.failures);
    BudgetLeftIff(e2.failures);
    if e1.failures > 0 { BudgetLeftIff(e1.failures - 1); }
    if e2.failures > 0 { BudgetLeftIff(e2.failures - 1); }
  }

  /** The end `LoopEndOf` computes is the one `Describes` fixes, and no other end fits. */
  lemma LoopEndOfIsTheEnd(broker: Broker, end: LoopEnd)
    ensures Describes(broker, LoopEndOf(broker))
    ensures Describes(broker, end) <==> end == LoopEndOf(broker)
  {
    LoopEndFromDescribes(broker, 0);
    if Describes(broker, end) {
      DescribesUnique(broker, end, LoopEndOf(broker));
    }
  }

  /**
   * Every run absorbs at most 155 retryable failures and makes at most 155
   * attempts; the interval stays within [500, 6000] and the total stays below
   * 900000 + 6000. When the budget runs out it has absorbed exactly 155 and
   * slept 904079 ms; the loop itself raises no error then.
   */
  lemma LoopBounds(broker: Broker, end: LoopEnd)
    requires Describes(broker, end)
    ensures end.failures <= 155 && ConnectCalls(end) <= 155
    ensures InitialConnectIntervalMillis <= Interval(end.failures) <= MaxConnectIntervalMillis
    ensures SleptBefore(end.failures) < MaxConnectRetryTimeElapsedMillis + MaxConnectIntervalMillis
    ensures end.Exhausted? ==> end.failures == 155 && SleptBefore(end.failures) == 904079
  {
    IntervalBounds(end.failures);
    SleptBeforeValues(end.failures);
    if end.failures > 0 {
      BudgetLeftIff(end.failures - 1);
    }
    BudgetLeftIff(end.failures);
  }

  /** A reason that is not retried ends the loop at once, with nothing slept. */
  lemma FatalFirstAttempt(broker: Broker, reasonCode: int)
    requires broker(0) == Rejected(reasonCode) && !Retryable(reasonCode)
    ensures LoopEndOf(broker) == Rethrown(reasonCode, 0)
    ensures Intervals(LoopEndOf(broker).failures) == []
  {
    BudgetLeftIff(0);
  }

  /** Two retryable rejections and then a connect: connected after sleeping 500 and 750 ms. */
  lemma TwoRetriesThenConnect(broker: Broker)
    requires RetryableRejection(broker(0)) && RetryableRejection(broker(1)) && broker(2) == Accepted
    ensures LoopEndOf(broker) == Connected(2)
    ensures Intervals(2) == [500, 750] && SleptBefore(2) == 1250
  {
    BudgetLeftIff(0);
    BudgetLeftIff(1);
    BudgetLeftIff(2);
    IntervalValues(0);
    SleptBeforeValues(2);
  }

  /** A broker that only ever answers with retryable rejections exhausts the budget after 155 sleeps. */
  lemma AlwaysRetryable(broker: Broker)
    requires forall j :: RetryableRejection(broker(j))
    ensures LoopEndOf(broker) == Exhausted(155)
    ensures SleptBefore(155) == 904079
  {
    var end := LoopEndOf(broker);
    LoopEndOfIsTheEnd(broker, end);
    LoopBounds(broker, end);
  }
}
