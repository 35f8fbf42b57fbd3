/**
 * `BatchConsumer` (lib/BatchConsumer.js): serialized records are buffered and
 * sent in batches of `batchSize`. Unlike `TDBatchConsumer`, a flush always
 * sends, even an empty buffer (the body "[]"), and sends no count header.
 */
module BatchConsumers {
  import opened Wrappers
  import opened JsValues
  import opened Batching

  class BatchConsumer {
    /** The serialized records waiting to be sent, oldest first. */
    var buffer: seq<string>
    const batchSize: int
    const compress: bool

    /** Every record handed to `add`, and every batch handed to the transport. */
    ghost var added: seq<string>
    ghost var sent: seq<seq<string>>

    /** Nothing is lost or reordered: sent batches, then the buffer, are the records added. */
    ghost predicate History()
      reads this
    {
      NothingLost(added, sent, buffer)
    }

    /** The history holds, and between calls the buffer never holds a full batch. */
    ghost predicate Valid()
      reads this
    {
      History() && (buffer == [] || |buffer| < batchSize)
    }

    /** `new BatchConsumer(appId, serverConfig, consumerConfig)`; a falsy config stands for `{}`. */
    constructor(config: Value)
      requires NumericBatchSize(config)
      ensures Valid()
      ensures buffer == [] && added == [] && sent == []
      ensures batchSize == BatchSizeOf(config) && compress == CompressOf(config)
    {
      buffer := [];
      batchSize := BatchSizeOf(config);
      compress := CompressOf(config);
      added := [];
      sent := [];
    }

    /** `flush(callback)`: the whole buffer as one batch, even when it is empty; the buffer is emptied before the send. */
    method Flush(callback: Value) returns (request: Request)
      requires History()
      modifies this
      ensures Valid()
      ensures buffer == [] && added == old(added)
      ensures request == Request(BatchBody(old(buffer)), None, compress, Handler(callback))
      ensures sent == old(sent) + [old(buffer)]
    {
      var body := BatchBody(buffer);
      SendKeepsHistory(added, sent, buffer);
      sent := sent + [buffer];
      buffer := [];
      request := Request(body, None, compress, Handler(callback));
    }

    /** `add(msg, callback)`: buffer the record; once the buffer reaches `batchSize`, flush it with this callback. */
    method Add(msg: string, callback: Value) returns (request: Option<Request>)
      requires Valid()
      modifies this
      ensures Valid()
      ensures added == old(added) + [msg]
      ensures buffer == [] || |buffer| < batchSize
      ensures |old(buffer)| + 1 >= batchSize ==>
        request == Some(Request(BatchBody(old(buffer) + [msg]), None, compress, Handler(callback)))
        && buffer == [] && sent == old(sent) + [old(buffer) + [msg]]
      ensures |old(buffer)| + 1 < batchSize ==>
        request == None && buffer == old(buffer) + [msg] && sent == old(sent)
    {
      BufferKeepsHistory(added, sent, buffer, msg);
      added := added + [msg];
      buffer := buffer + [msg];
      if |buffer| >= batchSize {
        var sentNow := Flush(callback);
        request := Some(sentNow);
      } else {
        request := None;
      }
    }

    /** `close()`: one flush without a callback, so an empty buffer still sends "[]". */
    method Close() returns (request: Request)
      requires Valid()
      modifies this
      ensures Valid()
      ensures buffer == [] && added == old(added)
      ensures request == Request(BatchBody(old(buffer)), None, compress, None)
      ensures sent == old(sent) + [old(buffer)]
    {
      request := Flush(Undefined);
    }
  }

  /** Closing a consumer that holds nothing still sends an empty batch. */
  method CloseEmpty() returns (request: Request)
    ensures request == Request("[]", None, true, None)
  {
    var consumer := new BatchConsumer(Undefined);
    request := consumer.Close();
    SmallBodies("");
  }

  /** With `batchSize: 2`, the first record waits and the second sends both, in order. */
  method TwoRecordBatch() returns (first: Option<Request>, second: Option<Request>)
    ensures first == None
    ensures second == Some(Request("[{\"n\":1},{\"n\":2}]", None, true, None))
  {
    var r1, r2 := "{\"n\":1}", "{\"n\":2}";
    var consumer := new BatchConsumer(Obj(map["batchSize" := Num(2)]));
    first := consumer.Add(r1, Undefined);
    second := consumer.Add(r2, Undefined);
    assert [] + [r1] == [r1];
    assert [r1] + [r2] == [r1, r2];
    TwoRecordBody();
  }
}
