/**
  The simulation loop of `run_simulation` as a state machine over a sequence
  of per-iteration inputs. An iteration either proceeds (generate, send,
  then sleep) or is interrupted, which ends the loop with a flush and a
  close of the producer. A failed send is caught by the loop, reported to
  APM and followed by a fixed cooldown; the loop then carries on.
 */
module Simulation {
  import opened Common
  import opened Sites
  import opened Messages
  import opened Routing
  import opened TraceContext
  import opened Transport
  import opened Tracing

  /** A throughput report is logged each time the count reaches a multiple of this. */
  const ReportEvery := 100
  /** The floor of the sleep after a successful send, in seconds. */
  const MinSleep := 0.5
  /** The half-width of the jitter window around the site's cadence, in seconds. */
  const MaxJitter := 0.3
  /** The sleep after a failed iteration, in seconds. */
  const FailureCooldown := 5.0

  /**
    Everything one proceeding iteration receives from outside: the random
    draws of dispatch, the ids the APM agent reports, the producer's answer
    and the jitter drawn for the sleep.
   */
  datatype Attempt = Attempt(
    draws: DispatchDraws,
    traceId: Option<string>,
    transactionId: Option<string>,
    ack: Ack,
    jitter: real)

  /** One turn of the loop: an iteration, or a keyboard interrupt that stops it. */
  datatype Tick = Proceed(attempt: Attempt) | Interrupt

  /** What the loop logs or waits for, apart from the calls it makes on APM and Kafka. */
  datatype LoopEvent = Report(count: nat) | Sleep(seconds: real)

  predicate ValidAttempt(site: SiteConfig, a: Attempt)
  {
    ValidDispatchDraws(site, a.draws) && -MaxJitter <= a.jitter <= MaxJitter
  }

  predicate ValidTicks(site: SiteConfig, ticks: seq<Tick>)
  {
    forall i :: 0 <= i < |ticks| && ticks[i].Proceed? ==> ValidAttempt(site, ticks[i].attempt)
  }

  lemma ValidTicksTail(site: SiteConfig, ticks: seq<Tick>)
    requires ticks != [] && ValidTicks(site, ticks)
    ensures ValidTicks(site, ticks[1..])
    ensures ticks[0].Proceed? ==> ValidAttempt(site, ticks[0].attempt)
  {
    forall i | 0 <= i < |ticks[1..]| && ticks[1..][i].Proceed?
      ensures ValidAttempt(site, ticks[1..][i].attempt)
    {
      assert ticks[1..][i] == ticks[i + 1];
    }
  }

  /** Python's `max(0.5, frequency + jitter)`. */
  function SuccessSleep(frequency: real, jitter: real): (d: real)
    ensures d >= MinSleep && d >= frequency + jitter
    ensures d == MinSleep || d == frequency + jitter
  {
    if frequency + jitter > MinSleep then frequency + jitter else MinSleep
  }

  /**
    The state the loop works on: the simulator's message counter, the loop's
    own success count, the APM and producer call logs, the loop's event log
    and whether it has stopped.
   */
  datatype LoopState = LoopState(
    messageCounter: nat,
    messageCount: nat,
    apm: seq<ApmEvent>,
    producer: seq<ProducerCall>,
    timeline: seq<LoopEvent>,
    stopped: bool)

  /**
    The send of message `m` on its type's topic, with the trace context of
    attempt `a`: no header when the agent lacks either id, and with two
    well-shaped ids one `traceparent` header from which a consumer recovers
    exactly those ids.
   */
  function SendCall(a: Attempt, m: Message): (call: ProducerCall)
    ensures call.Send? && call.message == m && call.topic == TopicFor(m.messageType)
    ensures call.headers == [] <==> !(Present(a.traceId) && Present(a.transactionId))
    ensures (a.traceId.Some? && a.transactionId.Some?
             && ValidTraceId(a.traceId.value) && ValidParentId(a.transactionId.value)) ==>
      && |call.headers| == 1 && call.headers[0].key == "traceparent"
      && ParseTraceparent(call.headers[0].value) == Some((a.traceId.value, a.transactionId.value))
  {
    if a.traceId.Some? && a.transactionId.Some?
      && ValidTraceId(a.traceId.value) && ValidParentId(a.transactionId.value)
    then
      HeadersCarryContext(a.traceId.value, a.transactionId.value);
      Send(TopicFor(m.messageType), m, TraceHeaders(a.traceId, a.transactionId))
    else
      Send(TopicFor(m.messageType), m, TraceHeaders(a.traceId, a.transactionId))
  }

  /**
    The effect of one proceeding iteration once it has generated message `m`:
    send it, then count, report and sleep on success, or capture the error
    and cool down on failure.
   */
  function Iterate(site: SiteConfig, pod: string, s: LoopState, a: Attempt, m: Message): LoopState
  {
    var call := SendCall(a, m);
    var apm := s.apm + SendTrace(pod, m, a.ack);
    if a.ack.Acked? then
      var count := s.messageCount + 1;
      var report := if count % ReportEvery == 0 then [Report(count)] else [];
      s.(messageCounter := s.messageCounter + 1, messageCount := count, apm := apm,
         producer := s.producer + [call],
         timeline := s.timeline + report + [Sleep(SuccessSleep(site.messageFrequency, a.jitter))])
    else
      s.(messageCounter := s.messageCounter + 1, apm := apm + [CaptureException],
         producer := s.producer + [call],
         timeline := s.timeline + [Sleep(FailureCooldown)])
  }

  /** One proceeding iteration: generate the next message, then send it and act on the outcome. */
  function Step(site: SiteConfig, pod: string, s: LoopState, a: Attempt): LoopState
  {
    Iterate(site, pod, s, a, DispatchedMessage(site, a.draws, s.messageCounter + 1))
  }

  /** The loop run over a sequence of ticks, up to and including the first interrupt. */
  function Run(site: SiteConfig, pod: string, s: LoopState, ticks: seq<Tick>): LoopState
    decreases |ticks|
  {
    if ticks == [] then s
    else
      match ticks[0]
      case Interrupt => s.(producer := s.producer + [Flush, Close], stopped := true)
      case Proceed(a) => Run(site, pod, Step(site, pod, s, a), ticks[1..])
  }

  /** The state after one iteration, field by field. */
  lemma StepFields(site: SiteConfig, pod: string, s: LoopState, a: Attempt)
    ensures var m := DispatchedMessage(site, a.draws, s.messageCounter + 1);
      var t := Step(site, pod, s, a);
      && t.messageCounter == s.messageCounter + 1
      && t.producer == s.producer + [SendCall(a, m)]
      && t.stopped == s.stopped
      && (a.ack.Acked? ==>
            && t.messageCount == s.messageCount + 1
            && t.apm == s.apm + SendTrace(pod, m, a.ack)
            && t.timeline == s.timeline
                 + (if t.messageCount % ReportEvery == 0 then [Report(t.messageCount)] else [])
                 + [Sleep(SuccessSleep(site.messageFrequency, a.jitter))])
      && (!a.ack.Acked? ==>
            && t.messageCount == s.messageCount
            && t.apm == s.apm + SendTrace(pod, m, a.ack) + [CaptureException]
            && t.timeline == s.timeline + [Sleep(FailureCooldown)])
  {
  }

  /** One turn of the loop at the head of the ticks. */
  lemma RunUnfold(site: SiteConfig, pod: string, s: LoopState, ticks: seq<Tick>)
    requires ticks != []
    ensures ticks[0].Proceed? ==>
      Run(site, pod, s, ticks) == Run(site, pod, Step(site, pod, s, ticks[0].attempt), ticks[1..])
    ensures ticks[0].Interrupt? ==>
      Run(site, pod, s, ticks) == s.(producer := s.producer + [Flush, Close], stopped := true)
  {
  }

  // ---------------------------------------------------------------------------
  // Observations about a run: which iterations it made, and what its logs hold.

  /** The iterations a run performs: the attempts before the first interrupt. */
  function Processed(ticks: seq<Tick>): seq<Attempt>
    decreases |ticks|
  {
    if ticks == [] then []
    else match ticks[0]
      case Interrupt => []
      case Proceed(a) => [a] + Processed(ticks[1..])
  }

  function Successes(attempts: seq<Attempt>): nat
  {
    if attempts == [] then 0 else (if attempts[0].ack.Acked? then 1 else 0) + Successes(attempts[1..])
  }

  function Failures(attempts: seq<Attempt>): nat
  {
    if attempts == [] then 0 else (if attempts[0].ack.Acked? then 0 else 1) + Failures(attempts[1..])
  }

  /** The sleep each attempt is followed by: the jittered cadence on success, the cooldown on failure. */
  function PlannedSleeps(site: SiteConfig, attempts: seq<Attempt>): seq<real>
  {
    if attempts == [] then []
    else
      [if attempts[0].ack.Acked? then SuccessSleep(site.messageFrequency, attempts[0].jitter)
       else FailureCooldown]
      + PlannedSleeps(site, attempts[1..])
  }

  /** The multiples of 100 in the range (lo, hi], ascending. */
  function ReportPoints(lo: nat, hi: nat): seq<nat>
    decreases hi - lo
  {
    if hi <= lo then []
    else (if (lo + 1) % ReportEvery == 0 then [lo + 1] else []) + ReportPoints(lo + 1, hi)
  }

  function Sleeps(timeline: seq<LoopEvent>): seq<real>
  {
    if timeline == [] then []
    else (if timeline[0].Sleep? then [timeline[0].seconds] else []) + Sleeps(timeline[1..])
  }

  function Reports(timeline: seq<LoopEvent>): seq<nat>
  {
    if timeline == [] then []
    else (if timeline[0].Report? then [timeline[0].count] else []) + Reports(timeline[1..])
  }

  lemma {:induction false} SleepsOfConcat(a: seq<LoopEvent>, b: seq<LoopEvent>)
    ensures Sleeps(a + b) == Sleeps(a) + Sleeps(b)
    decreases |a|
  {
    if a == [] {
      assert a + b == b;
    } else {
      var ab := a + b;
      assert ab[0] == a[0] && ab[1..] == a[1..] + b;
      SleepsOfConcat(a[1..], b);
      var h := if a[0].Sleep? then [a[0].seconds] else [];
      assert Sleeps(ab) == h + Sleeps(ab[1..]);
      assert Sleeps(a) == h + Sleeps(a[1..]);
    }
  }

  lemma {:induction false} ReportsOfConcat(a: seq<LoopEvent>, b: seq<LoopEvent>)
    ensures Reports(a + b) == Reports(a) + Reports(b)
    decreases |a|
  {
    if a == [] {
      assert a + b == b;
    } else {
      var ab := a + b;
      assert ab[0] == a[0] && ab[1..] == a[1..] + b;
      ReportsOfConcat(a[1..], b);
      var h := if a[0].Report? then [a[0].count] else [];
      assert Reports(ab) == h + Reports(ab[1..]);
      assert Reports(a) == h + Reports(a[1..]);
    }
  }

  lemma {:induction false} TimelineOfConcat(a: seq<LoopEvent>, b: seq<LoopEvent>)
    ensures Sleeps(a + b) == Sleeps(a) + Sleeps(b)
    ensures Reports(a + b) == Reports(a) + Reports(b)
  {
    SleepsOfConcat(a, b);
    ReportsOfConcat(a, b);
  }

  lemma IterateTimeline(site: SiteConfig, pod: string, s: LoopState, a: Attempt, m: Message)
    ensures var t := Iterate(site, pod, s, a, m);
      && t.messageCounter == s.messageCounter + 1
      && t.messageCount == s.messageCount + (if a.ack.Acked? then 1 else 0)
      && t.stopped == s.stopped
      && Sleeps(t.timeline) == Sleeps(s.timeline) +
           [if a.ack.Acked? then SuccessSleep(site.messageFrequency, a.jitter) else FailureCooldown]
      && Reports(t.timeline) == Reports(s.timeline) +
           (if a.ack.Acked? && t.messageCount % ReportEvery == 0 then [t.messageCount] else [])
  {
    var t := Iterate(site, pod, s, a, m);
    if a.ack.Acked? {
      var report := if t.messageCount % ReportEvery == 0 then [Report(t.messageCount)] else [];
      var sleep := [Sleep(SuccessSleep(site.messageFrequency, a.jitter))];
      TimelineOfConcat(s.timeline + report, sleep);
      TimelineOfConcat(s.timeline, report);
      assert report != [] ==> report[1..] == [];
      assert sleep[1..] == [];
    } else {
      var sleep := [Sleep(FailureCooldown)];
      TimelineOfConcat(s.timeline, sleep);
      assert sleep[1..] == [];
    }
  }

  lemma IterateProducer(site: SiteConfig, pod: string, s: LoopState, a: Attempt, m: Message)
    ensures var t := Iterate(site, pod, s, a, m);
      t.producer == s.producer + [SendCall(a, m)]
  {
  }

  /** The APM calls of one iteration, counted: one transaction, and on failure a second capture. */
  lemma IterateApm(pod: string, before: seq<ApmEvent>, m: Message, ack: Ack)
    ensures var apm := before + SendTrace(pod, m, ack) + (if ack.Acked? then [] else [CaptureException]);
      && CountBegins(apm) == CountBegins(before) + 1
      && CountEnds(apm) == CountEnds(before) + 1
      && CountCaptures(apm) == CountCaptures(before) + (if ack.Acked? then 0 else 2)
  {
    SendLifecycle(pod, m, ack);
    CountsOfConcat(before, SendTrace(pod, m, ack));
    if ack.Acked? {
      assert before + SendTrace(pod, m, ack) + [] == before + SendTrace(pod, m, ack);
    } else {
      CountsOfConcat(before + SendTrace(pod, m, ack), [CaptureException]);
      CountsOfCons(CaptureException, []);
      assert [CaptureException] + [] == [CaptureException];
    }
  }

  /** What one iteration does to the counters and the timeline. */
  lemma StepTimeline(site: SiteConfig, pod: string, s: LoopState, a: Attempt)
    ensures var t := Step(site, pod, s, a);
      && t.messageCounter == s.messageCounter + 1
      && t.messageCount == s.messageCount + (if a.ack.Acked? then 1 else 0)
      && t.stopped == s.stopped
      && Sleeps(t.timeline) == Sleeps(s.timeline) +
           [if a.ack.Acked? then SuccessSleep(site.messageFrequency, a.jitter) else FailureCooldown]
      && Reports(t.timeline) == Reports(s.timeline) +
           (if a.ack.Acked? && t.messageCount % ReportEvery == 0 then [t.messageCount] else [])
  {
    IterateTimeline(site, pod, s, a, DispatchedMessage(site, a.draws, s.messageCounter + 1));
  }

  /** What one iteration does to the APM log. */
  lemma StepApm(site: SiteConfig, pod: string, s: LoopState, a: Attempt)
    ensures var t := Step(site, pod, s, a);
      && CountBegins(t.apm) == CountBegins(s.apm) + 1
      && CountEnds(t.apm) == CountEnds(s.apm) + 1
      && CountCaptures(t.apm) == CountCaptures(s.apm) + (if a.ack.Acked? then 0 else 2)
  {
    var m := DispatchedMessage(site, a.draws, s.messageCounter + 1);
    var extra := if a.ack.Acked? then [] else [CaptureException];
    assert Step(site, pod, s, a).apm == s.apm + SendTrace(pod, m, a.ack) + extra;
    IterateApm(pod, s.apm, m, a.ack);
  }

  // ---------------------------------------------------------------------------
  // What a run promises.

  /**
    Every iteration a run performs generates one message, so the simulator's
    counter grows by the number of iterations; the loop's count grows by the
    number of acknowledged sends only. Each iteration begins and ends one APM
    transaction; a failed one captures its exception twice (once in the send,
    once in the loop). The loop stops exactly when it meets an interrupt.
   */
  lemma {:induction false} RunCounts(site: SiteConfig, pod: string, s: LoopState, ticks: seq<Tick>)
    ensures var f := Run(site, pod, s, ticks);
      var done := Processed(ticks);
      && f.messageCounter == s.messageCounter + |done|
      && f.messageCount == s.messageCount + Successes(done)
      && f.stopped == (s.stopped || Interrupt in ticks)
      && CountBegins(f.apm) == CountBegins(s.apm) + |done|
      && CountEnds(f.apm) == CountEnds(s.apm) + |done|
      && CountCaptures(f.apm) == CountCaptures(s.apm) + 2 * Failures(done)
    decreases |ticks|
  {
    if ticks != [] {
      assert ticks == [ticks[0]] + ticks[1..];
      match ticks[0]
      case Interrupt =>
      case Proceed(a) =>
        StepTimeline(site, pod, s, a);
        StepApm(site, pod, s, a);
        RunCounts(site, pod, Step(site, pod, s, a), ticks[1..]);
    }
  }

  /**
    The i-th sleep of a run follows the i-th iteration: the site's cadence
    plus the drawn jitter, but never below 0.5 seconds, after an
    acknowledged send, and exactly 5 seconds after a failed one.
   */
  lemma {:induction false} RunSleeps(site: SiteConfig, pod: string, s: LoopState, ticks: seq<Tick>)
    ensures Sleeps(Run(site, pod, s, ticks).timeline) == Sleeps(s.timeline) + PlannedSleeps(site, Processed(ticks))
    decreases |ticks|
  {
    if ticks != [] {
      match ticks[0]
      case Interrupt =>
        assert Sleeps(s.timeline) + [] == Sleeps(s.timeline);
      case Proceed(a) =>
        StepTimeline(site, pod, s, a);
        RunSleeps(site, pod, Step(site, pod, s, a), ticks[1..]);
        var done := Processed(ticks);
        assert done == [a] + Processed(ticks[1..]);
        assert done[1..] == Processed(ticks[1..]);
    } else {
      assert Sleeps(s.timeline) + [] == Sleeps(s.timeline);
    }
  }

  /** Every planned sleep is at least the 0.5-second floor. */
  lemma {:induction false} PlannedSleepsAtLeastFloor(site: SiteConfig, attempts: seq<Attempt>)
    ensures forall i :: 0 <= i < |PlannedSleeps(site, attempts)| ==> PlannedSleeps(site, attempts)[i] >= MinSleep
    ensures |PlannedSleeps(site, attempts)| == |attempts|
    decreases |attempts|
  {
    if attempts != [] {
      PlannedSleepsAtLeastFloor(site, attempts[1..]);
    }
  }

  /** Unfolds the first step of `ReportPoints`. */
  lemma ReportPointsStep(lo: nat, hi: nat)
    requires lo < hi
    ensures ReportPoints(lo, hi) ==
      (if (lo + 1) % ReportEvery == 0 then [lo + 1] else []) + ReportPoints(lo + 1, hi)
  {
  }

  /** A count is reported exactly when it is a multiple of 100 inside the range. */
  lemma {:induction false} ReportPointsMembers(lo: nat, hi: nat, x: nat)
    ensures x in ReportPoints(lo, hi) <==> lo < x <= hi && x % ReportEvery == 0
    decreases hi - lo
  {
    if lo < hi {
      ReportPointsMembers(lo + 1, hi, x);
    }
  }

  /**
    A run logs a throughput report exactly at each multiple of 100 that its
    success count passes through, in increasing order.
   */
  lemma {:induction false} RunReports(site: SiteConfig, pod: string, s: LoopState, ticks: seq<Tick>)
    ensures var f := Run(site, pod, s, ticks);
      Reports(f.timeline) == Reports(s.timeline) + ReportPoints(s.messageCount, f.messageCount)
    decreases |ticks|
  {
    if ticks == [] || ticks[0].Interrupt? {
      assert Reports(s.timeline) + [] == Reports(s.timeline);
    } else {
      var a := ticks[0].attempt;
      var t := Step(site, pod, s, a);
      var f := Run(site, pod, t, ticks[1..]);
      assert Run(site, pod, s, ticks) == f;
      StepTimeline(site, pod, s, a);
      RunReports(site, pod, t, ticks[1..]);
      RunCounts(site, pod, t, ticks[1..]);
      ReportsCombine(Reports(s.timeline), Reports(t.timeline), Reports(f.timeline),
                     s.messageCount, t.messageCount, f.messageCount, a.ack.Acked?);
    }
  }

  lemma ReportsCombine(r0: seq<nat>, rt: seq<nat>, rf: seq<nat>, c0: nat, ct: nat, cf: nat, acked: bool)
    requires ct == c0 + (if acked then 1 else 0) && ct <= cf
    requires rt == r0 + (if acked && ct % ReportEvery == 0 then [ct] else [])
    requires rf == rt + ReportPoints(ct, cf)
    ensures rf == r0 + ReportPoints(c0, cf)
  {
    if acked {
      ReportPointsStep(c0, cf);
    }
  }

  /**
    The sends that the iterations of a run make, up to its first interrupt,
    starting from message counter `counter`.
   */
  function Sends(site: SiteConfig, counter: nat, ticks: seq<Tick>): seq<ProducerCall>
    decreases |ticks|
  {
    if ticks == [] then []
    else
      match ticks[0]
      case Interrupt => []
      case Proceed(a) => [NextSend(site, counter, a)] + Sends(site, counter + 1, ticks[1..])
  }

  /** The send an iteration makes when the message counter stands at `counter`. */
  function NextSend(site: SiteConfig, counter: nat, a: Attempt): ProducerCall
  {
    SendCall(a, DispatchedMessage(site, a.draws, counter + 1))
  }

  /**
    The producer calls of a run: one send per iteration, then, when it was
    interrupted, one flush and one close, and nothing else.
   */
  lemma {:induction false} RunProducer(site: SiteConfig, pod: string, s: LoopState, ticks: seq<Tick>)
    ensures Run(site, pod, s, ticks).producer ==
      s.producer + Sends(site, s.messageCounter, ticks) + (if Interrupt in ticks then [Flush, Close] else [])
    decreases |ticks|
  {
    if ticks == [] {
      assert s.producer + [] + [] == s.producer;
    } else if ticks[0].Interrupt? {
      assert Interrupt in ticks;
      assert s.producer + [] == s.producer;
    } else {
      var a := ticks[0].attempt;
      var m := DispatchedMessage(site, a.draws, s.messageCounter + 1);
      var t := Step(site, pod, s, a);
      IterateProducer(site, pod, s, a, m);
      assert t.messageCounter == s.messageCounter + 1;
      RunProducer(site, pod, t, ticks[1..]);
      assert ticks == [ticks[0]] + ticks[1..];
      var tail := if Interrupt in ticks then [Flush, Close] else [];
      assert tail == if Interrupt in ticks[1..] then [Flush, Close] else [];
      assert Run(site, pod, s, ticks) == Run(site, pod, t, ticks[1..]);
      assert Sends(site, s.messageCounter, ticks) == [NextSend(site, s.messageCounter, a)] + Sends(site, t.messageCounter, ticks[1..]);
      LogCons(s.producer, SendCall(a, m), Sends(site, t.messageCounter, ticks[1..]), tail);
    }
  }

  lemma LogCons<T>(before: seq<T>, x: T, rest: seq<T>, tail: seq<T>)
    ensures (before + [x]) + rest + tail == before + ([x] + rest) + tail
  {
  }

  /**
    A run sends one message per iteration, the i-th carrying message number
    `counter + 1 + i` and routed to its type's topic.
   */
  lemma {:induction false} SendsNumbered(site: SiteConfig, counter: nat, ticks: seq<Tick>)
    ensures |Sends(site, counter, ticks)| == |Processed(ticks)|
    ensures forall i :: 0 <= i < |Sends(site, counter, ticks)| ==>
      var call := Sends(site, counter, ticks)[i];
      && call.Send?
      && call.message.metadata.messageNumber == counter + 1 + i
      && call.topic == TopicFor(call.message.messageType)
    decreases |ticks|
  {
    if ticks != [] && ticks[0].Proceed? {
      var a := ticks[0].attempt;
      SendsNumbered(site, counter + 1, ticks[1..]);
      var rest := Sends(site, counter + 1, ticks[1..]);
      var calls := Sends(site, counter, ticks);
      assert calls == [NextSend(site, counter, a)] + rest;
      forall i | 0 <= i < |calls|
        ensures calls[i].Send? && calls[i].message.metadata.messageNumber == counter + 1 + i
        ensures calls[i].topic == TopicFor(calls[i].message.messageType)
      {
        if i > 0 {
          assert calls[i] == rest[i - 1];
        }
      }
    }
  }

  /** The send of an iteration with draws in the source's ranges carries a well-formed message. */
  lemma NextSendWellFormed(site: SiteConfig, counter: nat, a: Attempt)
    requires ValidAttempt(site, a)
    ensures var call := NextSend(site, counter, a);
      call.Send? && Generated(site, call.message)
  {
    DispatchWellFormed(site, a.draws, counter + 1);
  }

  /**
    Every message a run sends from draws in the source's ranges is well
    formed, addressed to one of the site's customers, and never of type
    `ENERGY_ACCOUNTING`.
   */
  lemma {:induction false} SendsWellFormed(site: SiteConfig, counter: nat, ticks: seq<Tick>)
    requires ValidTicks(site, ticks)
    ensures forall i :: 0 <= i < |Sends(site, counter, ticks)| ==>
      Sends(site, counter, ticks)[i].Send? && Generated(site, Sends(site, counter, ticks)[i].message)
    decreases |ticks|
  {
    if ticks != [] && ticks[0].Proceed? {
      var a := ticks[0].attempt;
      ValidTicksTail(site, ticks);
      SendsWellFormed(site, counter + 1, ticks[1..]);
      NextSendWellFormed(site, counter, a);
      var rest := Sends(site, counter + 1, ticks[1..]);
      var calls := Sends(site, counter, ticks);
      assert calls == [NextSend(site, counter, a)] + rest;
      forall i | 0 <= i < |calls|
        ensures calls[i].Send? && Generated(site, calls[i].message)
      {
        if i > 0 {
          assert calls[i] == rest[i - 1];
        }
      }
    }
  }

  /**
    The messages a run sends carry the numbers that follow the counter's
    starting value, one per iteration and in order, so they strictly increase
    and none repeats. After the sends, an interrupted run makes exactly one
    flush and then one close of the producer and nothing else; a run that
    was not interrupted makes neither.
   */
  lemma RunProducerCalls(site: SiteConfig, pod: string, s: LoopState, ticks: seq<Tick>)
    ensures ProducerLog(s.producer, s.messageCounter, Run(site, pod, s, ticks).producer,
                        |Processed(ticks)|, Interrupt in ticks)
  {
    RunProducer(site, pod, s, ticks);
    SendsNumbered(site, s.messageCounter, ticks);
    ProducerLogOf(s.producer, s.messageCounter, Sends(site, s.messageCounter, ticks), Interrupt in ticks);
  }

  /**
    For the five known sites the clamp is never active: their cadence is at
    least 0.8 seconds, so cadence plus a jitter of at most 0.3 seconds either
    way never falls below the 0.5-second floor.
   */
  lemma JitterStaysAboveFloor(siteName: string, jitter: real)
    requires -MaxJitter <= jitter <= MaxJitter
    ensures var f := LoadSiteConfig(siteName).messageFrequency;
      SuccessSleep(f, jitter) == f + jitter
  {
  }
}
