/**
  The Kafka producer as the simulator uses it: the settings it is built with
  (`create_kafka_producer`) and the calls the simulator makes on it. The
  network client itself is not modelled; a send's outcome is an input.
 */
module Transport {
  import opened Common
  import opened Strings
  import opened Messages
  import opened TraceContext

  /**
    The `compression_type` handed to the producer: no codec for an empty
    setting or for `none` in any letter case, otherwise the setting itself.
   */
  function CompressionCodec(setting: string): (codec: Option<string>)
    ensures codec.Some? ==> codec.value == setting
    ensures codec.None? <==>
      (setting == [] ||
       (|setting| == 4 && forall i :: 0 <= i < 4 ==> setting[i] == "none"[i] || setting[i] == "NONE"[i]))
  {
    var lower := Lower(setting);
    assert |setting| == 4 ==>
      (lower == "none" <==> forall i :: 0 <= i < 4 ==> lower[i] == "none"[i]);
    if lower == "none" || setting == [] then None else Some(setting)
  }

  /** The settings the producer is constructed with. */
  datatype ProducerConfig = ProducerConfig(
    bootstrapServers: string,
    retryBackoffMs: nat,
    retries: nat,
    acks: string,
    compressionType: Option<string>,
    lingerMs: nat,
    batchSize: nat)

  /**
    `create_kafka_producer`: the producer reaches the given brokers, waits for
    every in-sync replica (`acks='all'`), retries a failed send five times one
    second apart, batches up to 16384 bytes for 10 ms, and compresses with the
    codec the setting names.
   */
  function KafkaProducerConfig(brokers: string, compression: string): ProducerConfig
  {
    ProducerConfig(brokers, 1000, 5, "all", CompressionCodec(compression), 10, 16384)
  }

  /** The environment default when `KAFKA_COMPRESSION_TYPE` is unset. */
  const DefaultCompression := "gzip"

  /**
    Unset, the setting compresses with gzip; `none` in any letter case and
    the empty setting turn compression off; any other codec name is passed on.
   */
  lemma CompressionSettings(brokers: string)
    ensures KafkaProducerConfig(brokers, DefaultCompression).compressionType == Some("gzip")
    ensures CompressionCodec("None") == None && CompressionCodec("NONE") == None
    ensures CompressionCodec("") == None
    ensures CompressionCodec("snappy") == Some("snappy")
  {
    assert |"None"| == 4 && "None"[0] == "NONE"[0] && "None"[1] == "none"[1];
  }

  /**
    The outcome of `producer.send(...)` followed by `future.get(timeout=10)`:
    the acknowledged position (which the source only logs), or the error
    raised by the send or by a wait that exceeded the 10-second bound.
   */
  datatype Ack =
    | Acked(partition: int, offset: int)
    | SendFailed(reason: string)

  /** One call the simulator makes on the producer, in the order it makes them. */
  datatype ProducerCall =
    | Send(topic: string, message: Message, headers: seq<Header>)
    | Flush
    | Close

  /**
    `after` extends `before` with `n` sends whose messages are numbered
    `counter + 1`, `counter + 2`, ... in order, followed by one flush and one
    close when `interrupted`, and by nothing else.
   */
  predicate ProducerLog(before: seq<ProducerCall>, counter: nat, after: seq<ProducerCall>,
                        n: nat, interrupted: bool)
  {
    var k := |before|;
    && |after| == k + n + (if interrupted then 2 else 0)
    && after[..k] == before
    && (forall i :: k <= i < k + n ==>
          after[i].Send? && after[i].message.metadata.messageNumber == counter + 1 + (i - k))
    && (interrupted ==> after[k + n] == Flush && after[k + n + 1] == Close)
  }

  /** A log made of the numbered sends and then the shutdown calls has that shape. */
  lemma ProducerLogOf(before: seq<ProducerCall>, counter: nat, sends: seq<ProducerCall>, interrupted: bool)
    requires forall i :: 0 <= i < |sends| ==>
      sends[i].Send? && sends[i].message.metadata.messageNumber == counter + 1 + i
    ensures ProducerLog(before, counter, before + sends + (if interrupted then [Flush, Close] else []),
                        |sends|, interrupted)
  {
    var after := before + sends + (if interrupted then [Flush, Close] else []);
    var k := |before|;
    assert after[..k] == before;
    forall i | k <= i < k + |sends|
      ensures after[i] == sends[i - k]
    {
    }
  }
}
