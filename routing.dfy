/** The topic map of `send_message_with_tracing`: message type to Kafka topic. */
module Routing {
  import opened Messages

  const StatusPointsTopic := "iccp-status-points"
  const AnalogValuesTopic := "iccp-analog-values"
  const ProtectionEventsTopic := "iccp-protection-events"
  const EnergyAccountingTopic := "iccp-energy-accounting"

  function TopicMap(): map<string, string>
  {
    map[
      StatusPoint := StatusPointsTopic,
      AnalogValue := AnalogValuesTopic,
      ProtectionEvent := ProtectionEventsTopic,
      EnergyAccounting := EnergyAccountingTopic
    ]
  }

  /**
    The topic a message of the given type is produced to; any type outside
    the map goes to the status-points topic. Total: defined for every string.
   */
  function TopicFor(messageType: string): (topic: string)
    ensures topic in {StatusPointsTopic, AnalogValuesTopic, ProtectionEventsTopic, EnergyAccountingTopic}
    ensures messageType !in MessageTypes ==> topic == StatusPointsTopic
  {
    if messageType in TopicMap() then TopicMap()[messageType] else StatusPointsTopic
  }

  /**
    Each of the four message types has its own fixed topic, and the four
    topics are distinct, so routing loses no type information for them.
   */
  lemma RoutingTable()
    ensures TopicFor(StatusPoint) == "iccp-status-points"
    ensures TopicFor(AnalogValue) == "iccp-analog-values"
    ensures TopicFor(ProtectionEvent) == "iccp-protection-events"
    ensures TopicFor(EnergyAccounting) == "iccp-energy-accounting"
    ensures forall a, b :: a in MessageTypes && b in MessageTypes && a != b ==> TopicFor(a) != TopicFor(b)
  {
  }

  /** A type is routed to the status-points topic exactly when it is `STATUS_POINT` or unknown. */
  lemma StatusPointsIsDefault(messageType: string)
    ensures TopicFor(messageType) == StatusPointsTopic <==>
      messageType == StatusPoint || messageType !in MessageTypes
  {
  }
}
