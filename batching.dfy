/**
 * What the three batch consumers share: the configuration defaults, the
 * request a flush hands to the transport, the batch body
 * `'[' + buffer.join(',') + ']'`, and the record history that says no
 * buffered record is lost or reordered.
 *
 * Records reach a consumer already serialized by `JSON.stringify`, so they
 * are opaque strings here. The transport (HTTP, gzip, the response check) is
 * not modelled: a flush returns the request it would send.
 */
module Batching {
  import opened Wrappers
  import opened Decimal
  import opened Strings
  import opened JsValues

  const DefaultBatchSize: int := 20
  const DefaultInterval: int := 3000

  /** `consumerConfig.key`: a missing key, or a config that is not an object, reads as `undefined`. */
  function ConfigField(config: Value, key: string): Value {
    if config.Obj? then Get(config.fields, key) else Undefined
  }

  /** A configured `batchSize` that is set is a number (the comparison with the buffer length is numeric). */
  predicate NumericBatchSize(config: Value) {
    var v := ConfigField(config, "batchSize");
    !Truthy(v) || v.Num?
  }

  /** `consumerConfig.batchSize || DEFAULT_BATCH_SIZE`. */
  function BatchSizeOf(config: Value): int
    requires NumericBatchSize(config)
  {
    var v := ConfigField(config, "batchSize");
    if Truthy(v) then v.n else DefaultBatchSize
  }

  /** `consumerConfig.compress !== false`. */
  predicate CompressOf(config: Value) {
    ConfigField(config, "compress") != Bool(false)
  }

  /** The batch size is the configured number unless that is missing or falsy, and it is never 0. */
  lemma BatchSizeDefault(config: Value)
    requires NumericBatchSize(config)
    ensures BatchSizeOf(config) != 0
    ensures var v := ConfigField(config, "batchSize");
      (BatchSizeOf(config) == DefaultBatchSize <==> !Truthy(v) || v == Num(DefaultBatchSize))
  {
  }

  /** Compression is on unless the config says exactly `false`: `0`, `null` or `"false"` leave it on. */
  lemma CompressDefault(config: Value)
    ensures !CompressOf(config) <==> config.Obj? && "compress" in config.fields && config.fields["compress"] == Bool(false)
    ensures !config.Obj? ==> CompressOf(config)
  {
  }

  /** The body of a batch: the serialized records in buffer order, comma-separated, in brackets. */
  function BatchBody(records: seq<string>): string {
    "[" + Join(records, ",") + "]"
  }

  /** `callback || function () {}`: a falsy callback is replaced by a no-op, written None. */
  function Handler(callback: Value): Option<Value> {
    if Truthy(callback) then Some(callback) else None
  }

  /**
   * What a flush hands to the transport: the body, the `TA-Integration-Count`
   * header when the variant sends one, the compression flag, and the callback
   * the transport outcome is reported to.
   */
  datatype Request = Request(body: string, count: Option<string>, compress: bool, callback: Option<Value>)

  /** The records of a sequence of batches, in the order they were sent. */
  function Flatten(batches: seq<seq<string>>): seq<string> {
    if batches == [] then [] else Flatten(batches[..|batches| - 1]) + batches[|batches| - 1]
  }

  /** Sending one more batch appends its records to what was sent before. */
  lemma FlattenAppend(batches: seq<seq<string>>, batch: seq<string>)
    ensures Flatten(batches + [batch]) == Flatten(batches) + batch
  {
    assert (batches + [batch])[..|batches|] == batches;
  }

  /**
   * The history every consumer keeps: the records sent so far, followed by the
   * records still buffered, are exactly the records added, in the order added.
   */
  predicate NothingLost(added: seq<string>, sent: seq<seq<string>>, buffer: seq<string>) {
    Flatten(sent) + buffer == added
  }

  /** Buffering one more record keeps the history. */
  lemma BufferKeepsHistory(added: seq<string>, sent: seq<seq<string>>, buffer: seq<string>, msg: string)
    requires NothingLost(added, sent, buffer)
    ensures NothingLost(added + [msg], sent, buffer + [msg])
  {
  }

  /** Sending the whole buffer as one batch and emptying it keeps the history. */
  lemma SendKeepsHistory(added: seq<string>, sent: seq<seq<string>>, buffer: seq<string>)
    requires NothingLost(added, sent, buffer)
    ensures NothingLost(added, sent + [buffer], [])
  {
    FlattenAppend(sent, buffer);
  }

  /** An empty batch is the body "[]"; one record is wrapped in brackets as it is. */
  lemma SmallBodies(msg: string)
    ensures BatchBody([]) == "[]"
    ensures BatchBody([msg]) == "[" + msg + "]"
  {
  }

  /** Two records are joined by one comma. */
  lemma PairBody(a: string, b: string)
    ensures BatchBody([a, b]) == "[" + a + "," + b + "]"
  {
    assert [a, b][1..] == [b];
    assert Join([a, b], ",") == a + "," + b;
    assert "[" + (a + "," + b) + "]" == "[" + a + "," + b + "]";
  }

  /** The body of the two records `{"n":1}` and `{"n":2}`. */
  lemma TwoRecordBody()
    ensures BatchBody(["{\"n\":1}", "{\"n\":2}"]) == "[{\"n\":1},{\"n\":2}]"
  {
    PairBody("{\"n\":1}", "{\"n\":2}");
  }

  /** Adding a record to a non-empty batch inserts "," and the record before the closing bracket. */
  lemma BodyAppend(records: seq<string>, msg: string)
    requires records != []
    ensures BatchBody(records + [msg]) == "[" + Join(records, ",") + "," + msg + "]"
  {
    JoinAppend(records, msg, ",");
  }

  /** The body is the records' characters, one comma between neighbours, and the two brackets. */
  lemma BodyLength(records: seq<string>)
    ensures |BatchBody(records)| == TotalLength(records) + (if records == [] then 0 else |records| - 1) + 2
  {
    if records != [] {
      JoinLength(records, ",");
    }
  }

  /** The count header, `buffer.length.toString()`. */
  function CountHeader(n: nat): string {
    NatToString(n)
  }

  /** The count header of a two-record batch. */
  lemma CountHeaderTwo()
    ensures CountHeader(2) == "2"
  {
    assert DigitChar(2) == '2';
  }

  /** The count header is a decimal numeral that reads back as the number of records in the batch. */
  lemma CountReadsBack(records: seq<string>)
    ensures var c := CountHeader(|records|);
      c != [] && AllDigits(c) && ParseDigits(c) == |records|
  {
    NatToStringRoundTrip(|records|);
  }
}
