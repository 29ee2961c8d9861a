/**
  The calls `send_message_with_tracing` makes on the Elastic APM agent, as a
  sequence of events: begin the transaction, name and label it, open and
  close the send span, set result and outcome, capture the exception on
  failure, and end the transaction in the `finally` block.
 */
module Tracing {
  import opened Strings
  import opened Messages
  import opened Routing
  import opened Transport

  datatype ApmEvent =
    | BeginTransaction(transactionType: string)
    | SetTransactionName(name: string)
    | Label(siteId: string, siteName: string, customer: string, messageType: string,
            topic: string, pod: string)
    | BeginSpan(name: string, spanType: string, spanSubtype: string, spanAction: string,
                topicLabel: string, messageTypeLabel: string, messageNumberLabel: string)
    | EndSpan
    | SetTransactionResult(result: string)
    | SetTransactionOutcome(outcome: string)
    | CaptureException
    | EndTransaction(name: string, result: string)

  /** `produce {topic}`: the name the transaction is given and ended with. */
  function TransactionName(topic: string): string
  {
    "produce " + topic
  }

  /** The events of one send, up to but not including the success or failure branch. */
  function SendPrologue(pod: string, m: Message, topic: string): seq<ApmEvent>
  {
    [ BeginTransaction("messaging"),
      SetTransactionName(TransactionName(topic)),
      Label(m.siteId, m.siteName, m.customerId, m.messageType, topic, pod),
      BeginSpan("send to " + topic, "messaging", "kafka", "send",
                topic, m.messageType, NatToDecimal(m.metadata.messageNumber)),
      EndSpan ]
  }

  /** The events of the `try` body's tail, or of the `except` block. */
  function SendVerdict(ack: Ack): seq<ApmEvent>
  {
    match ack
    case Acked(_, _) => [SetTransactionResult("success"), SetTransactionOutcome("success")]
    case SendFailed(_) =>
      [SetTransactionResult("error"), SetTransactionOutcome("failure"), CaptureException]
  }

  /** All APM events of one `send_message_with_tracing` call. */
  function SendTrace(pod: string, m: Message, ack: Ack): seq<ApmEvent>
  {
    var topic := TopicFor(m.messageType);
    SendPrologue(pod, m, topic) + SendVerdict(ack)
      + [EndTransaction(TransactionName(topic), "success")]
  }

  /**
    What a send hands back to its caller: nothing when it returns normally
    (the source only logs the record position), or the error it re-raises.
   */
  function SendResult(m: Message, ack: Ack): Common.Result<(), string>
  {
    match ack
    case Acked(_, _) => Common.Success(())
    case SendFailed(reason) => Common.Failure(reason)
  }

  predicate IsBegin(e: ApmEvent) { e.BeginTransaction? }
  predicate IsEnd(e: ApmEvent) { e.EndTransaction? }
  predicate IsCapture(e: ApmEvent) { e.CaptureException? }

  function CountBegins(t: seq<ApmEvent>): nat
  {
    if t == [] then 0 else (if IsBegin(t[0]) then 1 else 0) + CountBegins(t[1..])
  }

  function CountEnds(t: seq<ApmEvent>): nat
  {
    if t == [] then 0 else (if IsEnd(t[0]) then 1 else 0) + CountEnds(t[1..])
  }

  function CountCaptures(t: seq<ApmEvent>): nat
  {
    if t == [] then 0 else (if IsCapture(t[0]) then 1 else 0) + CountCaptures(t[1..])
  }

  lemma {:induction false} CountsOfConcat(a: seq<ApmEvent>, b: seq<ApmEvent>)
    ensures CountBegins(a + b) == CountBegins(a) + CountBegins(b)
    ensures CountEnds(a + b) == CountEnds(a) + CountEnds(b)
    ensures CountCaptures(a + b) == CountCaptures(a) + CountCaptures(b)
    decreases |a|
  {
    if a != [] {
      assert (a + b)[1..] == a[1..] + b;
      CountsOfConcat(a[1..], b);
    } else {
      assert a + b == b;
    }
  }

  lemma CountsOfSingleton(e: ApmEvent)
    ensures CountBegins([e]) == (if IsBegin(e) then 1 else 0)
    ensures CountEnds([e]) == (if IsEnd(e) then 1 else 0)
    ensures CountCaptures([e]) == (if IsCapture(e) then 1 else 0)
  {
    assert [e][1..] == [];
  }

  /**
    The transaction lifecycle of one send: it begins exactly once (first)
    and ends exactly once (last) under the name `produce {topic}`. On an
    acknowledged send, result and outcome are `success`, nothing is
    captured, and the send returns normally. On a failed send, result
    is `error`, outcome is `failure`, the exception is captured once and the
    error is passed on to the caller.
   */
  lemma {:induction false} SendLifecycle(pod: string, m: Message, ack: Ack)
    ensures var t := SendTrace(pod, m, ack);
      var topic := TopicFor(m.messageType);
      && CountBegins(t) == 1 && t[0] == BeginTransaction("messaging")
      && CountEnds(t) == 1 && t[|t| - 1] == EndTransaction("produce " + topic, "success")
      && (ack.Acked? ==>
            && SetTransactionResult("success") in t && SetTransactionOutcome("success") in t
            && SetTransactionResult("error") !in t && CountCaptures(t) == 0
            && SendResult(m, ack) == Common.Success(()))
      && (ack.SendFailed? ==>
            && SetTransactionResult("error") in t && SetTransactionOutcome("failure") in t
            && SetTransactionResult("success") !in t && CountCaptures(t) == 1
            && SendResult(m, ack) == Common.Failure(ack.reason))
  {
    var topic := TopicFor(m.messageType);
    var p := SendPrologue(pod, m, topic);
    var v := SendVerdict(ack);
    var e := [EndTransaction(TransactionName(topic), "success")];
    PrologueCounts(pod, m, topic);
    VerdictCounts(ack);
    CountsOfConcat(p, v);
    CountsOfConcat(p + v, e);
    CountsOfSingleton(e[0]);
  }

  lemma CountsOfCons(e: ApmEvent, t: seq<ApmEvent>)
    ensures CountBegins([e] + t) == (if IsBegin(e) then 1 else 0) + CountBegins(t)
    ensures CountEnds([e] + t) == (if IsEnd(e) then 1 else 0) + CountEnds(t)
    ensures CountCaptures([e] + t) == (if IsCapture(e) then 1 else 0) + CountCaptures(t)
  {
    assert ([e] + t)[1..] == t;
  }

  lemma PrologueCounts(pod: string, m: Message, topic: string)
    ensures var p := SendPrologue(pod, m, topic);
      CountBegins(p) == 1 && CountEnds(p) == 0 && CountCaptures(p) == 0
  {
    var p := SendPrologue(pod, m, topic);
    CountsOfCons(p[4], []);
    CountsOfCons(p[3], [p[4]]);
    CountsOfCons(p[2], [p[3], p[4]]);
    CountsOfCons(p[1], [p[2], p[3], p[4]]);
    CountsOfCons(p[0], [p[1], p[2], p[3], p[4]]);
    assert p == [p[0]] + [p[1], p[2], p[3], p[4]];
    assert [p[1], p[2], p[3], p[4]] == [p[1]] + [p[2], p[3], p[4]];
    assert [p[2], p[3], p[4]] == [p[2]] + [p[3], p[4]];
    assert [p[3], p[4]] == [p[3]] + [p[4]];
    assert [p[4]] == [p[4]] + [];
  }

  lemma VerdictCounts(ack: Ack)
    ensures var v := SendVerdict(ack);
      CountBegins(v) == 0 && CountEnds(v) == 0 && CountCaptures(v) == (if ack.Acked? then 0 else 1)
  {
    var v := SendVerdict(ack);
    if ack.Acked? {
      CountsOfCons(v[1], []);
      CountsOfCons(v[0], [v[1]]);
      assert v == [v[0]] + [v[1]];
      assert [v[1]] == [v[1]] + [];
    } else {
      CountsOfCons(v[2], []);
      CountsOfCons(v[1], [v[2]]);
      CountsOfCons(v[0], [v[1], v[2]]);
      assert v == [v[0]] + [v[1], v[2]];
      assert [v[1], v[2]] == [v[1]] + [v[2]];
      assert [v[2]] == [v[2]] + [];
    }
  }
}
