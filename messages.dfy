/**
  The three telemetry message variants the simulator generates
  (`generate_status_point_message`, `generate_analog_value_message`,
  `generate_protection_event_message`) and the dispatch between them
  (`generate_and_send_message`). Each random draw of the source is an
  argument here, constrained to the range the source draws it from.
 */
module Messages {
  import opened Strings
  import opened Sites

  const StatusPoint := "STATUS_POINT"
  const AnalogValue := "ANALOG_VALUE"
  const ProtectionEvent := "PROTECTION_EVENT"
  const EnergyAccounting := "ENERGY_ACCOUNTING"

  /** The buckets of the weighted message-type draw, in the source's order. */
  const MessageTypes := [StatusPoint, AnalogValue, ProtectionEvent, EnergyAccounting]

  const ProtocolVersion := "IEC60870-6-503"

  const Voltages := ["330", "220", "110"]
  const VoltageLabels := ["330kV", "220kV", "110kV"]
  const BreakerValues := [0, 1]
  const Qualities := ["GOOD", "UNCERTAIN", "INVALID"]
  const AnalogKinds := ["GEN", "LOAD", "FLOW"]
  const AnalogLabels := ["Generation", "Load", "Power Flow"]
  const EventTypes := ["OVERCURRENT", "UNDERVOLTAGE", "FREQUENCY_DEVIATION", "LINE_FAULT"]
  const Severities := ["LOW", "MEDIUM", "HIGH", "CRITICAL"]

  /** The variant-specific `data` block of a message. */
  datatype Data =
    | StatusPointData(pointId: string, pointName: string, value: int, quality: string,
                      timestamp: string, changeCounter: int)
    | AnalogValueData(pointId: string, pointName: string, measurement: real, quality: string,
                      timestamp: string, units: string)
    | ProtectionEventData(eventId: string, eventType: string, severity: string, cleared: bool,
                          timestamp: string, equipmentAffected: string)

  datatype Location = Location(lat: real, lon: real, region: string)

  datatype Metadata = Metadata(
    protocolVersion: string,
    messageSize: int,
    associationActive: bool,
    roundtripTimeMs: int,
    messageNumber: nat)

  /** One generated message record, field for field as the source builds its dictionary. */
  datatype Message = Message(
    timestamp: string,
    siteId: string,
    siteName: string,
    customerId: string,
    messageType: string,
    iccpAssociation: string,
    data: Data,
    location: Location,
    metadata: Metadata)

  /**
    The draws of `generate_status_point_message`, in the order the source makes
    them; a list choice is the element drawn, a clock reading the ISO
    timestamp the clock returned.
   */
  datatype StatusDraws = StatusDraws(
    timestamp: string,
    voltage: string, line: nat, voltageLabel: string, lineLabel: nat,
    value: int, quality: string, dataTimestamp: string, changeCounter: int,
    messageSize: int, associationActive: bool, roundtripMs: int)

  /** Each draw lies in the list or the range the source draws it from. */
  predicate ValidStatusDraws(d: StatusDraws)
  {
    && d.voltage in Voltages && 1 <= d.line <= 4
    && d.voltageLabel in VoltageLabels && 1 <= d.lineLabel <= 4
    && d.value in BreakerValues && d.quality in Qualities
    && 1000 <= d.changeCounter <= 9999
    && 128 <= d.messageSize <= 512
    && 5 <= d.roundtripMs <= 25
  }

  /** The draws of `generate_analog_value_message`. */
  datatype AnalogDraws = AnalogDraws(
    timestamp: string,
    kind: string, line: nat, kindLabel: string, lineLabel: nat,
    measurement: real, quality: string, dataTimestamp: string,
    messageSize: int, roundtripMs: int)

  predicate ValidAnalogDraws(d: AnalogDraws)
  {
    && d.kind in AnalogKinds && 1 <= d.line <= 4
    && d.kindLabel in AnalogLabels && 1 <= d.lineLabel <= 4
    && 50.0 <= d.measurement <= 500.0 && d.quality in Qualities
    && 128 <= d.messageSize <= 512 && 5 <= d.roundtripMs <= 25
  }

  /** The draws of `generate_protection_event_message`. */
  datatype ProtectionDraws = ProtectionDraws(
    timestamp: string,
    eventNumber: nat, eventType: string, severity: string, cleared: bool,
    dataTimestamp: string, line: nat,
    messageSize: int, roundtripMs: int)

  predicate ValidProtectionDraws(d: ProtectionDraws)
  {
    && 10000 <= d.eventNumber <= 99999 && d.eventType in EventTypes
    && d.severity in Severities
    && 1 <= d.line <= 4
    && 200 <= d.messageSize <= 600 && 8 <= d.roundtripMs <= 30
  }

  /** `{site_id}-{customer}-01` */
  function Association(siteId: string, customer: string): string
  {
    siteId + "-" + customer + "-01"
  }

  /** The location block: the site's coordinates and the site id's text before its first `_`. */
  function SiteLocation(site: SiteConfig): Location
  {
    Location(site.lat, site.lon, FirstField(site.siteId, '_'))
  }

  function StatusPointMessage(site: SiteConfig, customer: string, d: StatusDraws, number: nat): Message
  {
    Message(
      d.timestamp, site.siteId, site.displayName, customer, StatusPoint,
      Association(site.siteId, customer),
      StatusPointData(
        "CB_" + d.voltage + "_L" + NatToDecimal(d.line) + "_STATUS",
        "Circuit Breaker " + d.voltageLabel + " Line " + NatToDecimal(d.lineLabel),
        d.value, d.quality, d.dataTimestamp, d.changeCounter),
      SiteLocation(site),
      Metadata(ProtocolVersion, d.messageSize, d.associationActive, d.roundtripMs, number))
  }

  function AnalogValueMessage(site: SiteConfig, customer: string, d: AnalogDraws, number: nat): Message
  {
    Message(
      d.timestamp, site.siteId, site.displayName, customer, AnalogValue,
      Association(site.siteId, customer),
      AnalogValueData(
        "MW_" + d.kind + "_L" + NatToDecimal(d.line),
        d.kindLabel + " MW Line " + NatToDecimal(d.lineLabel),
        d.measurement, d.quality, d.dataTimestamp, "MW"),
      SiteLocation(site),
      Metadata(ProtocolVersion, d.messageSize, true, d.roundtripMs, number))
  }

  function ProtectionEventMessage(site: SiteConfig, customer: string, d: ProtectionDraws, number: nat): Message
  {
    Message(
      d.timestamp, site.siteId, site.displayName, customer, ProtectionEvent,
      Association(site.siteId, customer),
      ProtectionEventData(
        "PROT_EVT_" + NatToDecimal(d.eventNumber),
        d.eventType, d.severity, d.cleared,
        d.dataTimestamp, "Line " + NatToDecimal(d.line)),
      SiteLocation(site),
      Metadata(ProtocolVersion, d.messageSize, true, d.roundtripMs, number))
  }

  /**
    The draws of one `generate_and_send_message` call: the customer, the
    message-type bucket, and the draws of whichever generator the bucket
    selects (the other two are not consulted).
   */
  datatype DispatchDraws = DispatchDraws(
    customer: string, messageType: string,
    status: StatusDraws, analog: AnalogDraws, protection: ProtectionDraws)

  predicate ValidDispatchDraws(site: SiteConfig, d: DispatchDraws)
  {
    && d.customer in site.customers && d.messageType in MessageTypes
    && ValidStatusDraws(d.status) && ValidAnalogDraws(d.analog) && ValidProtectionDraws(d.protection)
  }

  /** A single decimal digit from 1 to 4. */
  predicate IsLineDigit(s: string)
  {
    |s| == 1 && '1' <= s[0] <= '4'
  }

  /**
    What every generated message is, stated independently of how the
    generators assemble it: it names the site, its association and region are
    derived from the site id, it carries one of the three generated types with
    the matching payload, and every drawn field lies in its range.
   */
  predicate WellFormed(site: SiteConfig, m: Message)
  {
    && m.siteId == site.siteId
    && m.siteName == site.displayName
    && m.iccpAssociation == site.siteId + "-" + m.customerId + "-01"
    && m.location.lat == site.lat && m.location.lon == site.lon
    && m.location.region <= site.siteId && '_' !in m.location.region
    && (|m.location.region| == |site.siteId| || site.siteId[|m.location.region|] == '_')
    && m.metadata.protocolVersion == ProtocolVersion
    && match m.data
       case StatusPointData(pointId, _, value, quality, _, changeCounter) =>
         && m.messageType == StatusPoint
         && |pointId| == 16 && pointId[..3] == "CB_" && pointId[3..6] in Voltages
         && pointId[6..8] == "_L" && IsLineDigit(pointId[8..9]) && pointId[9..] == "_STATUS"
         && (value == 0 || value == 1) && quality in Qualities
         && 1000 <= changeCounter <= 9999
         && 128 <= m.metadata.messageSize <= 512 && 5 <= m.metadata.roundtripTimeMs <= 25
       case AnalogValueData(pointId, _, measurement, quality, _, units) =>
         && m.messageType == AnalogValue
         && |pointId| >= 9 && pointId[..3] == "MW_" && pointId[3..|pointId| - 3] in AnalogKinds
         && pointId[|pointId| - 3..|pointId| - 1] == "_L" && IsLineDigit(pointId[|pointId| - 1..])
         && 50.0 <= measurement <= 500.0 && quality in Qualities && units == "MW"
         && m.metadata.associationActive
         && 128 <= m.metadata.messageSize <= 512 && 5 <= m.metadata.roundtripTimeMs <= 25
       case ProtectionEventData(eventId, eventType, severity, _, _, equipment) =>
         && m.messageType == ProtectionEvent
         && |eventId| == 14 && eventId[..9] == "PROT_EVT_" && IsDigits(eventId[9..])
         && 10000 <= DecimalValue(eventId[9..]) <= 99999
         && eventType in EventTypes && severity in Severities
         && |equipment| == 6 && equipment[..5] == "Line " && IsLineDigit(equipment[5..])
         && m.metadata.associationActive
         && 200 <= m.metadata.messageSize <= 600 && 8 <= m.metadata.roundtripTimeMs <= 30
  }

  /**
    What dispatch promises of every message it produces from draws in the
    source's ranges: it is well formed, addressed to one of the site's
    customers, and never of type `ENERGY_ACCOUNTING`.
   */
  predicate Generated(site: SiteConfig, m: Message)
  {
    WellFormed(site, m) && m.customerId in site.customers && m.messageType != EnergyAccounting
  }

  lemma LineDigit(n: nat)
    requires 1 <= n <= 4
    ensures IsLineDigit(NatToDecimal(n))
  {
  }

  lemma LocationWellFormed(site: SiteConfig)
    ensures var r := SiteLocation(site).region;
      r <= site.siteId && '_' !in r && (|r| == |site.siteId| || site.siteId[|r|] == '_')
  {
    FirstFieldIsPrefix(site.siteId, '_');
  }

  /** A status-point message is well formed and carries the number it was given. */
  lemma StatusPointWellFormed(site: SiteConfig, customer: string, d: StatusDraws, number: nat)
    requires ValidStatusDraws(d)
    ensures WellFormed(site, StatusPointMessage(site, customer, d, number))
    ensures StatusPointMessage(site, customer, d, number).metadata.messageNumber == number
    ensures StatusPointMessage(site, customer, d, number).customerId == customer
  {
    LocationWellFormed(site);
    LineDigit(d.line);
    var id := "CB_" + d.voltage + "_L" + NatToDecimal(d.line) + "_STATUS";
    assert |d.voltage| == 3;
    assert |id| == 16;
    assert id[3..6] == d.voltage;
    assert id[8..9] == NatToDecimal(d.line);
  }

  /** An analog-value message is well formed and carries the number it was given. */
  lemma AnalogValueWellFormed(site: SiteConfig, customer: string, d: AnalogDraws, number: nat)
    requires ValidAnalogDraws(d)
    ensures WellFormed(site, AnalogValueMessage(site, customer, d, number))
    ensures AnalogValueMessage(site, customer, d, number).metadata.messageNumber == number
    ensures AnalogValueMessage(site, customer, d, number).customerId == customer
  {
    LocationWellFormed(site);
    LineDigit(d.line);
    var id := "MW_" + d.kind + "_L" + NatToDecimal(d.line);
    assert 3 <= |d.kind| <= 4;
    assert |id| == |d.kind| + 6;
    assert id[3..|id| - 3] == d.kind;
    assert id[|id| - 3..|id| - 1] == "_L";
    assert id[|id| - 1..] == NatToDecimal(d.line);
  }

  /** A protection-event message is well formed and carries the number it was given. */
  lemma ProtectionEventWellFormed(site: SiteConfig, customer: string, d: ProtectionDraws, number: nat)
    requires ValidProtectionDraws(d)
    ensures WellFormed(site, ProtectionEventMessage(site, customer, d, number))
    ensures ProtectionEventMessage(site, customer, d, number).metadata.messageNumber == number
    ensures ProtectionEventMessage(site, customer, d, number).customerId == customer
  {
    LocationWellFormed(site);
    LineDigit(d.line);
    var digits := NatToDecimal(d.eventNumber);
    DecimalLength(d.eventNumber, 4);
    DecimalRoundTrip(d.eventNumber);
    var id := "PROT_EVT_" + digits;
    assert id[9..] == digits;
    var equipment := "Line " + NatToDecimal(d.line);
    assert equipment[5..] == NatToDecimal(d.line);
  }

  /**
    `generate_and_send_message`'s choice of generator: the customer is the
    drawn entry of the site's list, and the fourth bucket (`ENERGY_ACCOUNTING`)
    falls through to the status-point generator.
   */
  function DispatchedMessage(site: SiteConfig, d: DispatchDraws, number: nat): Message
  {
    if d.messageType == StatusPoint then StatusPointMessage(site, d.customer, d.status, number)
    else if d.messageType == AnalogValue then AnalogValueMessage(site, d.customer, d.analog, number)
    else if d.messageType == ProtectionEvent then ProtectionEventMessage(site, d.customer, d.protection, number)
    else StatusPointMessage(site, d.customer, d.status, number)
  }

  /**
    Dispatch yields a well-formed message for one of the site's customers,
    stamped with the given number, never of type `ENERGY_ACCOUNTING`; the
    drawn type is kept for the three generated types and the fourth bucket
    yields a status point.
   */
  lemma DispatchWellFormed(site: SiteConfig, d: DispatchDraws, number: nat)
    requires ValidDispatchDraws(site, d)
    ensures var m := DispatchedMessage(site, d, number);
      && WellFormed(site, m)
      && m.customerId in site.customers
      && m.metadata.messageNumber == number
      && m.messageType != EnergyAccounting
      && m.messageType == (if d.messageType == EnergyAccounting then StatusPoint else d.messageType)
  {
    if d.messageType == AnalogValue {
      AnalogValueWellFormed(site, d.customer, d.analog, number);
    } else if d.messageType == ProtectionEvent {
      ProtectionEventWellFormed(site, d.customer, d.protection, number);
    } else {
      StatusPointWellFormed(site, d.customer, d.status, number);
    }
  }
}
