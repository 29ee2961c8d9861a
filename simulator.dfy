/**
  The `ICCPSimulator` object: its configuration, read once from the
  environment, and the state its methods change, namely the message counter
  and the calls made so far on the APM agent and on the Kafka producer.
 */
module Simulator {
  import opened Common
  import opened Sites
  import opened Messages
  import opened Routing
  import opened TraceContext
  import opened Transport
  import opened Tracing
  import opened Simulation

  /** The environment variables the simulator reads; `None` is an unset variable. */
  datatype Environment = Environment(
    kafkaBrokers: Option<string>,
    siteName: Option<string>,
    podName: Option<string>,
    compressionType: Option<string>)

  /** `os.environ.get(name, default)`: a variable that is set, even to the empty string, wins. */
  function EnvOr(v: Option<string>, default: string): string
  {
    match v
    case Some(value) => value
    case None => default
  }

  const DefaultBrokers := "localhost:9092"
  const DefaultPod := "unknown"

  class ICCPSimulator {
    const kafkaBrokers: string
    const siteName: string
    const podName: string
    const siteConfig: SiteConfig
    const producerConfig: ProducerConfig

    /** The number of messages generated so far; each generator increments it first. */
    var messageCounter: nat
    /** The calls made on the APM agent, oldest first. */
    var apmEvents: seq<ApmEvent>
    /** The calls made on the Kafka producer, oldest first. */
    var producerCalls: seq<ProducerCall>

    constructor(env: Environment)
      ensures kafkaBrokers == EnvOr(env.kafkaBrokers, DefaultBrokers)
      ensures siteName == EnvOr(env.siteName, DefaultSiteName)
      ensures podName == EnvOr(env.podName, DefaultPod)
      ensures siteConfig == LoadSiteConfig(siteName) && UsableSite(siteConfig)
      ensures producerConfig ==
        KafkaProducerConfig(kafkaBrokers, EnvOr(env.compressionType, DefaultCompression))
      ensures messageCounter == 0 && apmEvents == [] && producerCalls == []
    {
      kafkaBrokers := EnvOr(env.kafkaBrokers, DefaultBrokers);
      siteName := EnvOr(env.siteName, DefaultSiteName);
      podName := EnvOr(env.podName, DefaultPod);
      siteConfig := LoadSiteConfig(EnvOr(env.siteName, DefaultSiteName));
      messageCounter := 0;
      producerConfig :=
        KafkaProducerConfig(EnvOr(env.kafkaBrokers, DefaultBrokers), EnvOr(env.compressionType, DefaultCompression));
      apmEvents := [];
      producerCalls := [];
    }

    method GenerateStatusPointMessage(customer: string, d: StatusDraws) returns (m: Message)
      modifies this
      ensures messageCounter == old(messageCounter) + 1
      ensures m == StatusPointMessage(siteConfig, customer, d, messageCounter)
      ensures apmEvents == old(apmEvents) && producerCalls == old(producerCalls)
    {
      messageCounter := messageCounter + 1;
      m := StatusPointMessage(siteConfig, customer, d, messageCounter);
    }

    method GenerateAnalogValueMessage(customer: string, d: AnalogDraws) returns (m: Message)
      modifies this
      ensures messageCounter == old(messageCounter) + 1
      ensures m == AnalogValueMessage(siteConfig, customer, d, messageCounter)
      ensures apmEvents == old(apmEvents) && producerCalls == old(producerCalls)
    {
      messageCounter := messageCounter + 1;
      m := AnalogValueMessage(siteConfig, customer, d, messageCounter);
    }

    method GenerateProtectionEventMessage(customer: string, d: ProtectionDraws) returns (m: Message)
      modifies this
      ensures messageCounter == old(messageCounter) + 1
      ensures m == ProtectionEventMessage(siteConfig, customer, d, messageCounter)
      ensures apmEvents == old(apmEvents) && producerCalls == old(producerCalls)
    {
      messageCounter := messageCounter + 1;
      m := ProtectionEventMessage(siteConfig, customer, d, messageCounter);
    }

    /**
      `send_message_with_tracing`: the APM calls in the order the source makes
      them, the one send on the producer with the trace context as its header,
      and the outcome handed back to the caller: a normal return (the source
      logs the record position and returns `None`), or the error it re-raises.
     */
    method SendMessageWithTracing(m: Message, traceId: Option<string>, transactionId: Option<string>, ack: Ack)
      returns (r: Result<(), string>)
      modifies this
      ensures apmEvents == old(apmEvents) + SendTrace(podName, m, ack)
      ensures producerCalls ==
        old(producerCalls) + [Send(TopicFor(m.messageType), m, TraceHeaders(traceId, transactionId))]
      ensures messageCounter == old(messageCounter)
      ensures r == SendResult(m, ack)
    {
      var topic := TopicFor(m.messageType);
      var events := [BeginTransaction("messaging"), SetTransactionName(TransactionName(topic))];
      events := events + [Label(m.siteId, m.siteName, m.customerId, m.messageType, topic, podName)];
      var headers := TraceHeaders(traceId, transactionId);
      events := events + [BeginSpan("send to " + topic, "messaging", "kafka", "send",
                                    topic, m.messageType, Strings.NatToDecimal(m.metadata.messageNumber))];
      producerCalls := producerCalls + [Send(topic, m, headers)];
      events := events + [EndSpan];
      assert events == SendPrologue(podName, m, topic);
      match ack {
        case Acked(_, _) =>
          events := events + [SetTransactionResult("success"), SetTransactionOutcome("success")];
          r := Success(());
        case SendFailed(reason) =>
          events := events + [SetTransactionResult("error"), SetTransactionOutcome("failure")];
          events := events + [CaptureException];
          r := Failure(reason);
      }
      events := events + [EndTransaction(TransactionName(topic), "success")];
      apmEvents := apmEvents + events;
    }

    /**
      `generate_and_send_message`: generate the message of the drawn type for
      the drawn customer (the fourth bucket falls through to a status point)
      and send it.
     */
    method GenerateAndSendMessage(d: DispatchDraws, traceId: Option<string>, transactionId: Option<string>, ack: Ack)
      returns (r: Result<(), string>)
      modifies this
      ensures messageCounter == old(messageCounter) + 1
      ensures var m := DispatchedMessage(siteConfig, d, messageCounter);
        && apmEvents == old(apmEvents) + SendTrace(podName, m, ack)
        && producerCalls == old(producerCalls) + [Send(TopicFor(m.messageType), m, TraceHeaders(traceId, transactionId))]
        && r == SendResult(m, ack)
    {
      var m;
      if d.messageType == StatusPoint {
        m := GenerateStatusPointMessage(d.customer, d.status);
      } else if d.messageType == AnalogValue {
        m := GenerateAnalogValueMessage(d.customer, d.analog);
      } else if d.messageType == ProtectionEvent {
        m := GenerateProtectionEventMessage(d.customer, d.protection);
      } else {
        m := GenerateStatusPointMessage(d.customer, d.status);
      }
      r := SendMessageWithTracing(m, traceId, transactionId, ack);
    }

    /**
      One pass of the loop's `try` body, or of its `except Exception`
      handler when the send fails: generate and send, then count, report
      every hundredth success and sleep with jitter; or capture the error
      once more and cool down. The new state is one `Step` of the loop model.
     */
    method LoopIteration(a: Attempt, count: nat, events: seq<LoopEvent>) returns (count': nat, events': seq<LoopEvent>)
      modifies this
      ensures LoopState(messageCounter, count', apmEvents, producerCalls, events', false) ==
        Step(siteConfig, podName,
             LoopState(old(messageCounter), count, old(apmEvents), old(producerCalls), events, false), a)
    {
      ghost var before := LoopState(messageCounter, count, apmEvents, producerCalls, events, false);
      StepFields(siteConfig, podName, before, a);
      ghost var after := Step(siteConfig, podName, before, a);
      var r := GenerateAndSendMessage(a.draws, a.traceId, a.transactionId, a.ack);
      count', events' := count, events;
      if r.Success? {
        count' := count' + 1;
        if count' % ReportEvery == 0 {
          events' := events' + [Report(count')];
        }
        events' := events' + [Sleep(SuccessSleep(siteConfig.messageFrequency, a.jitter))];
      } else {
        apmEvents := apmEvents + [CaptureException];
        events' := events' + [Sleep(FailureCooldown)];
      }
      assert messageCounter == after.messageCounter && count' == after.messageCount;
      assert apmEvents == after.apm && producerCalls == after.producer && events' == after.timeline;
    }

    /**
      `run_simulation` over the given ticks: it does what `Run` describes, so
      every property proved of `Run` holds of it. It returns the loop's own
      success count, what it logged and slept, and whether it stopped.
     */
    method RunSimulation(ticks: seq<Tick>) returns (messageCount: nat, timeline: seq<LoopEvent>, stopped: bool)
      modifies this
      ensures var f := Run(siteConfig, podName,
                           LoopState(old(messageCounter), 0, old(apmEvents), old(producerCalls), [], false), ticks);
        && messageCounter == f.messageCounter && messageCount == f.messageCount
        && apmEvents == f.apm && producerCalls == f.producer
        && timeline == f.timeline && stopped == f.stopped
    {
      messageCount := 0;
      timeline := [];
      stopped := false;
      ghost var final := Run(siteConfig, podName, LoopState(messageCounter, 0, apmEvents, producerCalls, [], false), ticks);
      var i := 0;
      while i < |ticks|
        invariant 0 <= i <= |ticks|
        invariant Run(siteConfig, podName, LoopState(messageCounter, messageCount, apmEvents, producerCalls, timeline, false), ticks[i..]) == final
      {
        if ticks[i].Interrupt? {
          stopped := true;
          break;
        }
        ghost var before := LoopState(messageCounter, messageCount, apmEvents, producerCalls, timeline, false);
        RunUnfold(siteConfig, podName, before, ticks[i..]);
        messageCount, timeline := LoopIteration(ticks[i].attempt, messageCount, timeline);
        assert ticks[i..][1..] == ticks[i + 1..];
        i := i + 1;
      }
      if stopped {
        producerCalls := producerCalls + [Flush];
        producerCalls := producerCalls + [Close];
      }
    }
  }
}
