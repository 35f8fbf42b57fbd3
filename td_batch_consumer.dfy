/**
 * `TDBatchConsumer` (lib/tdBatchConsumer.js): serialized records are buffered
 * and sent in batches of `batchSize`; a flush of an empty buffer sends
 * nothing, and every batch carries its record count in a header.
 */
module TDBatchConsumers {
  import opened Wrappers
  import opened JsValues
  import opened Batching

  class TDBatchConsumer {
    /** The serialized records waiting to be sent, oldest first. */
    var buffer: seq<string>
    const batchSize: int
    const compress: bool

    /** Every record handed to `add`, and every batch handed to the transport. */
    ghost var added: seq<string>
    ghost var sent: seq<seq<string>>

    /** Nothing is lost or reordered: sent batches, then the buffer, are the records added. */
    ghost predicate History()
      reads this
    {
      NothingLost(added, sent, buffer)
    }

    /** The history holds, and between calls the buffer never holds a full batch. */
    ghost predicate Valid()
      reads this
    {
      History() && (buffer == [] || |buffer| < batchSize)
    }

    /** `new TDBatchConsumer(appId, serverConfig, consumerConfig = {})`; a `null` config throws, so it is excluded. */
    constructor(config: Value)
      requires !config.Null? && NumericBatchSize(config)
      ensures Valid()
      ensures buffer == [] && added == [] && sent == []
      ensures batchSize == BatchSizeOf(config) && compress == CompressOf(config)
    {
      buffer := [];
      batchSize := BatchSizeOf(config);
      compress := CompressOf(config);
      added := [];
      sent := [];
    }

    /** `flush(callback)`: nothing on an empty buffer; otherwise the whole buffer as one counted batch, and the buffer is emptied before the send. */
    method Flush(callback: Value) returns (request: Option<Request>)
      requires History()
      modifies this
      ensures Valid()
      ensures buffer == [] && added == old(added)
      ensures old(buffer) == [] ==> request == None && sent == old(sent)
      ensures old(buffer) != [] ==>
        request == Some(Request(BatchBody(old(buffer)), Some(CountHeader(|old(buffer)|)), compress, Handler(callback)))
        && sent == old(sent) + [old(buffer)]
    {
      if |buffer| == 0 {
        return None;
      }
      var count := CountHeader(|buffer|);
      var body := BatchBody(buffer);
      SendKeepsHistory(added, sent, buffer);
      sent := sent + [buffer];
      buffer := [];
      request := Some(Request(body, Some(count), compress, Handler(callback)));
    }

    /** `add(msg, callback)`: buffer the record; once the buffer reaches `batchSize`, flush it with this callback. */
    method Add(msg: string, callback: Value) returns (request: Option<Request>)
      requires Valid()
      modifies this
      ensures Valid()
      ensures added == old(added) + [msg]
      ensures buffer == [] || |buffer| < batchSize
      ensures |old(buffer)| + 1 >= batchSize ==>
        request == Some(Request(BatchBody(old(buffer) + [msg]), Some(CountHeader(|old(buffer)| + 1)), compress, Handler(callback)))
        && buffer == [] && sent == old(sent) + [old(buffer) + [msg]]
      ensures |old(buffer)| + 1 < batchSize ==>
        request == None && buffer == old(buffer) + [msg] && sent == old(sent)
    {
      BufferKeepsHistory(added, sent, buffer, msg);
      added := added + [msg];
      buffer := buffer + [msg];
      if |buffer| >= batchSize {
        request := Flush(callback);
      } else {
        request := None;
      }
    }

    /** `close()`: one flush without a callback. */
    method Close() returns (request: Option<Request>)
      requires Valid()
      modifies this
      ensures Valid()
      ensures buffer == [] && added == old(added)
      ensures old(buffer) == [] ==> request == None && sent == old(sent)
      ensures old(buffer) != [] ==>
        request == Some(Request(BatchBody(old(buffer)), Some(CountHeader(|old(buffer)|)), compress, None))
        && sent == old(sent) + [old(buffer)]
    {
      request := Flush(Undefined);
    }
  }

  /** With `batchSize: 2`, the first record waits and the second sends both, in order, counted. */
  method TwoRecordBatch() returns (first: Option<Request>, second: Option<Request>)
    ensures first == None
    ensures second == Some(Request("[{\"n\":1},{\"n\":2}]", Some("2"), true, None))
  {
    var r1, r2 := "{\"n\":1}", "{\"n\":2}";
    var config := Obj(map["batchSize" := Num(2)]);
    assert ConfigField(config, "batchSize") == Num(2) && ConfigField(config, "compress") == Undefined;
    var consumer := new TDBatchConsumer(config);
    assert consumer.batchSize == 2 && consumer.compress;
    first := consumer.Add(r1, Undefined);
    assert consumer.buffer == [r1] by {
      assert [] + [r1] == [r1];
    }
    second := consumer.Add(r2, Undefined);
    assert [r1] + [r2] == [r1, r2];
    assert second == Some(Request(BatchBody([r1, r2]), Some(CountHeader(2)), true, None));
    TwoRecordBody();
    CountHeaderTwo();
  }
}
