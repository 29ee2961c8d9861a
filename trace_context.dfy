/**
  The W3C Trace Context `traceparent` header the simulator builds by hand
  (section 3.2 of the W3C Trace Context Recommendation): version `00`, the
  trace id, the parent (transaction) id and the flags `01` (sampled).
 */
module TraceContext {
  import opened Common

  /** One Kafka record header: a name and its value. */
  datatype Header = Header(key: string, value: string)

  predicate IsLowerHex(s: string)
  {
    forall i :: 0 <= i < |s| ==> '0' <= s[i] <= '9' || 'a' <= s[i] <= 'f'
  }

  predicate AllZero(s: string)
  {
    forall i :: 0 <= i < |s| ==> s[i] == '0'
  }

  /** A trace-id field: 32 lower-case hex digits, not all zero (section 3.2.2.3). */
  predicate ValidTraceId(s: string)
  {
    |s| == 32 && IsLowerHex(s) && !AllZero(s)
  }

  /** A parent-id field: 16 lower-case hex digits, not all zero (section 3.2.2.4). */
  predicate ValidParentId(s: string)
  {
    |s| == 16 && IsLowerHex(s) && !AllZero(s)
  }

  /** A version-00 `traceparent` value with the sampled flag: `00-<32 hex>-<16 hex>-01`. */
  predicate IsSampledTraceparent(v: string)
  {
    && |v| == 55
    && v[..3] == "00-"
    && ValidTraceId(v[3..35])
    && v[35] == '-'
    && ValidParentId(v[36..52])
    && v[52..] == "-01"
  }

  /** The header value `00-{trace_id}-{parent_id}-01`. */
  function Traceparent(traceId: string, parentId: string): string
  {
    "00-" + traceId + "-" + parentId + "-01"
  }

  /** Reads the two ids back out of a sampled version-00 header value. */
  function ParseTraceparent(v: string): (ids: Option<(string, string)>)
    ensures ids.Some? <==> IsSampledTraceparent(v)
  {
    if IsSampledTraceparent(v) then Some((v[3..35], v[36..52])) else None
  }

  /** Python truthiness of an id the APM agent returns: neither `None` nor empty. */
  predicate Present(id: Option<string>)
  {
    id.Some? && id.value != ""
  }

  /**
    The header list of one send: empty unless both the trace id and the
    transaction id are present, and otherwise exactly one `traceparent`
    header built from them.
   */
  function TraceHeaders(traceId: Option<string>, transactionId: Option<string>): (headers: seq<Header>)
    ensures |headers| <= 1
    ensures headers == [] <==> !(Present(traceId) && Present(transactionId))
    ensures headers != [] ==>
      headers == [Header("traceparent", Traceparent(traceId.value, transactionId.value))]
  {
    if Present(traceId) && Present(transactionId) then
      [Header("traceparent", Traceparent(traceId.value, transactionId.value))]
    else
      []
  }

  /**
    For ids of the shape the W3C format asks for, the header value is 55
    characters long, is a valid sampled version-00 value, and parses back
    to the same two ids.
   */
  lemma TraceparentRoundTrip(traceId: string, parentId: string)
    requires ValidTraceId(traceId) && ValidParentId(parentId)
    ensures |Traceparent(traceId, parentId)| == 55
    ensures IsSampledTraceparent(Traceparent(traceId, parentId))
    ensures ParseTraceparent(Traceparent(traceId, parentId)) == Some((traceId, parentId))
  {
    var v := Traceparent(traceId, parentId);
    assert v[..3] == "00-";
    assert v[3..35] == traceId;
    assert v[36..52] == parentId;
    assert v[52..] == "-01";
  }

  /** Every value that parses is the rendering of the ids it parses to. */
  lemma ParseTraceparentInverse(v: string)
    requires ParseTraceparent(v).Some?
    ensures Traceparent(ParseTraceparent(v).value.0, ParseTraceparent(v).value.1) == v
  {
    var ids := ParseTraceparent(v).value;
    assert v == v[..3] + v[3..35] + [v[35]] + v[36..52] + v[52..];
  }

  /**
    With both ids present and well shaped, a send carries exactly one header,
    `traceparent`, whose value is a valid W3C value naming those ids.
   */
  lemma HeadersCarryContext(traceId: string, transactionId: string)
    requires ValidTraceId(traceId) && ValidParentId(transactionId)
    ensures |TraceHeaders(Some(traceId), Some(transactionId))| == 1
    ensures TraceHeaders(Some(traceId), Some(transactionId))[0].key == "traceparent"
    ensures ParseTraceparent(TraceHeaders(Some(traceId), Some(transactionId))[0].value)
      == Some((traceId, transactionId))
  {
    TraceparentRoundTrip(traceId, transactionId);
  }
}
