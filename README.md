# ICCP simulator model

A Dafny model of the `ICCPSimulator` class in `iccp_simulator.py`. The
simulator stands in for a substation of the New Zealand national grid. It
generates ICCP (IEC 60870-6-503) SCADA telemetry messages for the site it is
configured for and publishes each one to a Kafka topic chosen by message type.
Every send runs inside an Elastic APM transaction, and the send's trace context
goes to the consumer in a W3C Trace Context `traceparent` Kafka header
(section 3.2 of the W3C Trace Context Recommendation).

The model covers:

- the site registry with its fallback to `auckland-penrose` (`Sites`);
- the topic router (`Routing`);
- the construction and parsing of the `traceparent` header (`TraceContext`);
- the producer settings and the compression-codec choice (`Transport`);
- the three message generators and the weighted dispatch between them (`Messages`);
- the APM lifecycle of one send (`Tracing`);
- the main loop as a state machine over a sequence of ticks (`Simulation`).

The class `Simulator.ICCPSimulator` ties these together. Its fields are the
values read from the environment, the message counter, and two append-only
logs: the calls made on the APM client and the calls made on the Kafka
producer. Its constructor and its generate, send and run methods are the
source's methods of the same names; `LoopIteration` is the body of the
`run_simulation` loop, split out as a method of its own. Each method changes
the counter and the logs exactly as the matching function of the pure model
says.
So everything proved about the pure model (`Run`, `Step`, `SendTrace`) holds
of the class.

What the model takes as inputs:

- Every random draw of the source (the customer, the message-type bucket, the
  point ids, the values and qualities, the jitter) is an argument. A `Valid*`
  predicate states the range or the list the code draws it from.
- The ids the APM agent returns are `Option<string>` arguments.
- The producer's answer to a send is an `Ack`: an acknowledgement with
  partition and offset, or a failure with its reason.
- A keyboard interrupt is a `Tick`.
- The environment variables are an `Environment` record of optional strings.

The main loop is interrupted only at the start of an iteration. A tick sequence
with no `Interrupt` in it describes a loop that is still running: it has not
flushed or closed the producer.

The topics are the `iccp-*` names the code uses (`iccp-status-points`,
`iccp-analog-values`, `iccp-protection-events`, `iccp-energy-accounting`).

The `finally` clause ends every transaction with the result `success`, even
after a failed send. The failure shows in the result and outcome set before
that. The model keeps this literally.

## Model

| member | source | states |
|---|---|---|
| Sites.LoadSiteConfig | iccp_simulator.py:85-129 | The looked-up configuration is one of the five table entries. It is the named entry when the name is a key and the `auckland-penrose` entry otherwise. It always has at least one customer and a cadence of at least 0.8 seconds. |
| Sites.KnownSites | iccp_simulator.py:87-128 | The registry has exactly the five keys `auckland-penrose`, `wellington-central`, `christchurch-addington`, `huntly-power` and `manapouri-power`. Distinct keys have distinct site ids. |
| Sites.UnknownSiteFallsBack | iccp_simulator.py:129 | A name outside the table yields the same configuration as `auckland-penrose`, with site id `AKL_PENROSE`. |
| Sites.WellingtonScenario | iccp_simulator.py:96-103 | `wellington-central` yields display name `Wellington Central 220kV`, cadence 2.0 and site id `WLG_CENTRAL`. |
| Sites.AucklandRegion | iccp_simulator.py:170 | The region derived from `AKL_PENROSE` is `AKL`. |
| Routing.TopicFor | iccp_simulator.py:253-259 | Routing is total. Every type lands on one of the four `iccp-*` topics, and any string outside the four known types lands on `iccp-status-points`. |
| Routing.RoutingTable | iccp_simulator.py:253-258 | Each of the four known types maps to its fixed topic, and no two known types share a topic. |
| Routing.StatusPointsIsDefault | iccp_simulator.py:259 | A type is routed to `iccp-status-points` exactly when it is `STATUS_POINT` or not one of the four known types. |
| TraceContext.TraceHeaders | iccp_simulator.py:294-299 | The header list has at most one entry. It is empty exactly when the trace id or the transaction id is missing or empty; otherwise it is the single `traceparent` header built from the two ids. |
| TraceContext.ParseTraceparent | iccp_simulator.py:298 | Parsing a header value succeeds exactly when the value is a sampled version-00 `traceparent` with lowercase-hex, not-all-zero ids. |
| TraceContext.TraceparentRoundTrip | iccp_simulator.py:298 | For a trace id of 32 and a parent id of 16 lowercase hex digits, neither all zeros, the built value is 55 characters long, is a valid sampled `traceparent`, and parses back to the same two ids. |
| TraceContext.ParseTraceparentInverse | iccp_simulator.py:298 | Any value that parses is exactly the value rebuilt from its two parsed ids. |
| TraceContext.HeadersCarryContext | iccp_simulator.py:295-299 | With both ids well formed, the send carries exactly one header. Its key is `traceparent` and its value parses back to the two ids. |
| Transport.CompressionCodec | iccp_simulator.py:133-134 | No codec exactly when the setting is empty or `none` in any letter case. Any other setting is passed through unchanged. |
| Transport.CompressionSettings | iccp_simulator.py:133-134 | The default setting gives `gzip`. `None`, `NONE` and the empty string give no codec, and `snappy` is passed through. |
| Transport.ProducerLogOf | iccp_simulator.py:321-325 | A log made of numbered sends, followed by the shutdown calls when interrupted, has the shape `ProducerLog` describes. |
| Strings.Split | iccp_simulator.py:170 | `str.split` on one character gives at least one part. No part contains the separator, and joining the parts with it rebuilds the string. |
| Strings.FirstFieldIsPrefix | iccp_simulator.py:170 | The first field is a prefix of the string without the separator, and it ends at the end of the string or at a separator. |
| Strings.FirstFieldUnique | iccp_simulator.py:170 | Any prefix with those properties is the first field. |
| Strings.NatToDecimal | iccp_simulator.py:226 | `str` of a natural number is a non-empty string of decimal digits without a leading zero. It is one character long exactly when the number is below 10. |
| Strings.DecimalRoundTrip | iccp_simulator.py:226 | Reading back the decimal text of a number gives the number. |
| Strings.DecimalLength | iccp_simulator.py:226 | A number in [10^k, 10^(k+1)) has k+1 decimal digits, so a five-digit event number gives a 14-character event id. |
| Messages.LocationWellFormed | iccp_simulator.py:167-171 | The region is the prefix of the site id before its first `_`: it contains no `_` and ends at the end of the id or at a `_`. |
| Messages.StatusPointWellFormed | iccp_simulator.py:148-179 | A status point built from in-range draws is well formed (site fields, association `site_id-customer-01`, region, `CB_<kV>_L<n>_STATUS` point id, value 0 or 1, change counter in [1000, 9999], size in [128, 512], roundtrip in [5, 25]). It carries the given customer and message number. |
| Messages.AnalogValueWellFormed | iccp_simulator.py:181-212 | An analog value built from in-range draws is well formed (`MW_<GEN/LOAD/FLOW>_L<n>` point id, value in [50, 500], units `MW`, association active, size in [128, 512], roundtrip in [5, 25]). It carries the given customer and message number. |
| Messages.ProtectionEventWellFormed | iccp_simulator.py:214-245 | A protection event built from in-range draws is well formed (`PROT_EVT_` plus five digits in [10000, 99999], event type and severity from their lists, `Line <n>`, size in [200, 600], roundtrip in [8, 30]). It carries the given customer and message number. |
| Messages.DispatchWellFormed | iccp_simulator.py:361-376 | Dispatch with in-range draws yields a well-formed message for one of the site's customers, stamped with the given number and never of type `ENERGY_ACCOUNTING`. The drawn type is kept for the three generated types; the `ENERGY_ACCOUNTING` bucket yields a status point. |
| Tracing.SendLifecycle | iccp_simulator.py:265-359 | A send begins exactly one `messaging` transaction first and ends exactly one last, named `produce <topic>` with result `success`. On acknowledgement, result and outcome are `success`, no exception is captured, and the send returns normally with no value (the partition and offset are only logged). On failure, result is `error`, outcome is `failure`, one exception is captured, and the send re-raises the failure. |
| Simulation.SendCall | iccp_simulator.py:291-325 | A send carries no header exactly when the agent lacks the trace id or the transaction id. With two well-shaped ids it carries exactly one header, keyed `traceparent`, whose value parses back to those two ids. |
| Simulation.SuccessSleep | iccp_simulator.py:402-403 | The sleep after a success is `max(0.5, cadence + jitter)`: at least 0.5, at least cadence plus jitter, and equal to one of the two. |
| Simulation.RunCounts | iccp_simulator.py:387-414 | Over a run, the message counter grows by the number of iterations and the loop's count by the number of acknowledged sends. The APM log gains one begin and one end per iteration and two captures per failed iteration. The loop stops exactly when it meets an interrupt. |
| Simulation.RunSleeps | iccp_simulator.py:401-414 | The sleeps of a run are, in order, one per iteration: the clamped jittered cadence after a success and 5 seconds after a failure. |
| Simulation.PlannedSleepsAtLeastFloor | iccp_simulator.py:403 | Every planned sleep is at least 0.5 seconds, and there is one per iteration. |
| Simulation.ReportPointsMembers | iccp_simulator.py:396 | A count is among the reports of a range exactly when it is a multiple of 100 inside that range. |
| Simulation.RunReports | iccp_simulator.py:395-399 | The throughput reports of a run are the multiples of 100 that the success count passes through, in increasing order. |
| Simulation.RunProducer | iccp_simulator.py:390-418 | The producer log of a run is the old log, then one send per iteration up to the first interrupt, then a flush and a close when there was an interrupt. |
| Simulation.SendsNumbered | iccp_simulator.py:150 | A run makes one send per iteration. The i-th carries message number `counter + 1 + i` and goes to its type's topic, so numbers strictly increase and none repeats. |
| Simulation.SendsWellFormed | iccp_simulator.py:363-376 | Every message a run sends from in-range draws is well formed, addressed to one of the site's customers, and not of type `ENERGY_ACCOUNTING`. |
| Simulation.RunProducerCalls | iccp_simulator.py:387-418 | A run's producer log extends the old one by exactly one consecutively numbered send per iteration, then by one flush and one close when interrupted, and by nothing else. |
| Simulation.JitterStaysAboveFloor | iccp_simulator.py:402-403 | For every site the registry can return, cadence plus a jitter within ±0.3 never falls below the 0.5-second floor, so the clamp never applies. |
| Simulator.ICCPSimulator.constructor | iccp_simulator.py:65-72 | The brokers, site name and pod name come from the environment with the defaults `localhost:9092`, `auckland-penrose` and `unknown`. The site configuration is the looked-up one, the producer is configured from the brokers and the compression setting (default `gzip`) with `acks` `all`, 5 retries 1000 ms apart, a 10 ms linger and a 16384-byte batch, the counter starts at 0, and both logs start empty. |
| Simulator.ICCPSimulator.GenerateStatusPointMessage | iccp_simulator.py:148-179 | The counter grows by exactly 1 and the returned status point carries the new value as its number. Nothing else on the instance changes. |
| Simulator.ICCPSimulator.GenerateAnalogValueMessage | iccp_simulator.py:181-212 | The counter grows by exactly 1 and the returned analog value carries the new value as its number. Nothing else on the instance changes. |
| Simulator.ICCPSimulator.GenerateProtectionEventMessage | iccp_simulator.py:214-245 | The counter grows by exactly 1 and the returned protection event carries the new value as its number. Nothing else on the instance changes. |
| Simulator.ICCPSimulator.SendMessageWithTracing | iccp_simulator.py:247-359 | The APM log gains exactly the send's lifecycle, and the producer log gains exactly one send of the message, on its type's topic, with the trace headers. The counter is unchanged. The send returns normally with no value when acknowledged and re-raises the failure otherwise. |
| Simulator.ICCPSimulator.GenerateAndSendMessage | iccp_simulator.py:361-379 | The counter grows by 1, and the dispatched message with that number is sent with its lifecycle and trace headers. |
| Simulator.ICCPSimulator.LoopIteration | iccp_simulator.py:391-414 | One pass of the loop body, or of its failure handler, leaves the instance, the loop's count and its event log exactly as one `Step` of the loop model does. |
| Simulator.ICCPSimulator.RunSimulation | iccp_simulator.py:381-418 | The loop over a tick sequence leaves the counter and both logs, and returns the count, event log and stop flag, exactly as `Run` describes. |

## Left out

- Logging (`logger.info`, `logger.warning`, `logger.error`) and the startup banner are not modelled, because they produce no state the model observes.
- Timestamps (`datetime.now`) are not part of the model. Each message's timestamps are drawn arguments.
- Floating point is not modelled. The analog value is a `real` in [50, 500], without the rounding to two decimals. Latitude and longitude are `real` constants. The msg/sec rate computations are left out.
- The weights of the random draws (50/30/15/5, 92/6/2 and the others) are not modelled. Draws are arguments, and only their ranges are stated.
- The JSON serialisation of the message and the UTF-8 encoding of the header value are not modelled. Headers hold the `traceparent` text.
- The Kafka producer is a network client. A send and its wait for confirmation (with the 10-second timeout) are modelled as a `Send` entry in the producer log and an `Ack` input. `flush` and `close` are log entries.
- The APM client and the `elasticapm` calls are modelled as entries in the APM log. The labels and the span are recorded as events, and what the agent does with them is not modelled. A failure inside the APM calls themselves is not modelled; the loop's guarded `capture_exception` is modelled as always succeeding.
- Simulator.ICCPSimulator.SendMessageWithTracing: the APM events of one send are appended to the log once the send has finished rather than one by one. Their order within the log is the source's, but their interleaving with the producer call is not captured.
- Simulator.ICCPSimulator.RunSimulation: a `KeyboardInterrupt` is observed only at the start of an iteration, not in the middle of a send or a sleep. A finite tick sequence without an interrupt describes a loop that is still running.
- Simulation.RunProducer, Simulation.RunProducerCalls: the flush and close after an interrupt are promised only for an interrupt that the `try` body's `except KeyboardInterrupt` catches (iccp_simulator.py:405-407). In the source, an interrupt raised inside the `except Exception` handler, during `logger.error` or the 5-second `time.sleep` (iccp_simulator.py:409, 414), is caught by nothing in `run_simulation` or `main`: it leaves the process without the flush and close of iccp_simulator.py:417-418. One raised during the guarded `capture_exception` (iccp_simulator.py:411-413) is swallowed by the bare `except:`, and the loop carries on. Neither case is a tick of this model.
- `time.sleep` does not wait. Each sleep is recorded in the loop's event log with its duration in seconds.
- APM and logging setup at module level, `main()` and its fatal-error handler, and `health_check.py` are not part of this model: they are environment plumbing with no logic of their own.
- The shutdown statistics after the loop (elapsed time and average rate) are not modelled, because they depend on the clock.
