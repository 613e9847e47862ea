/**
 * The MqttQos enum: the three MQTT quality-of-service levels of section 4.3 of
 * the MQTT Version 3.1.1 OASIS Standard, each carrying the level number the
 * protocol puts on the wire (0 at most once, 1 at least once, 2 exactly once).
 */
module Qos {
  import opened Wrappers

  datatype MqttQos = QOS_0 | QOS_1 | QOS_2 {

    /** The number each constant was constructed with; `getQos` returns it unchanged. */
    function GetQos(): (level: nat)
      ensures level <= 2
    {
      match this
      case QOS_0 => 0
      case QOS_1 => 1
      case QOS_2 => 2
    }
  }

  /** The constant whose level is `level`, if there is one: the inverse of `GetQos`. */
  function QosOfLevel(level: int): Option<MqttQos> {
    if level == 0 then Some(QOS_0)
    else if level == 1 then Some(QOS_1)
    else if level == 2 then Some(QOS_2)
    else None
  }

  /** Every constant is found again from its level, and exactly the levels 0..2 name a constant. */
  lemma GetQosRoundTrip(q: MqttQos, level: int)
    ensures QosOfLevel(q.GetQos()) == Some(q)
    ensures QosOfLevel(level).Some? <==> 0 <= level <= 2
    ensures QosOfLevel(level).Some? ==> QosOfLevel(level).value.GetQos() == level
  {
  }

  /** No two constants share a level. */
  lemma GetQosInjective(p: MqttQos, q: MqttQos)
    requires p.GetQos() == q.GetQos()
    ensures p == q
  {
    GetQosRoundTrip(p, 0);
    GetQosRoundTrip(q, 0);
  }

  /** The three levels the enum declares. */
  lemma GetQosLevels()
    ensures QOS_0.GetQos() == 0 && QOS_1.GetQos() == 1 && QOS_2.GetQos() == 2
  {
  }
}
