/**
 * `AsyncBatchConsumer` (lib/AsyncBatchConsumer.js): the buffering of
 * `TDBatchConsumer`, plus a run loop that flushes every `interval`
 * milliseconds.
 *
 * Timers are explicit. A timeout that fires is a call of `Tick`, and the
 * handles `setTimeout` returns are parameters. The source keeps the first
 * timeout's handle in one variable of the whole module (`timerId`). That
 * variable is the `TimerSlot` object every consumer shares. Each re-armed
 * timeout goes to a variable local to the run loop, so `close` can cancel
 * only the first timeout. Once the loop has fired, `close` leaves it running.
 */
module AsyncBatchConsumers {
  import opened Wrappers
  import opened JsValues
  import opened Batching

  /** The value `setTimeout` returns, naming one scheduled timeout. */
  type TimerHandle = nat

  /**
   * The module-level `timerId`, every handle `setTimeout` has returned so far,
   * and the timeouts `clearTimeout` has cancelled.
   */
  class TimerSlot {
    var timerId: Option<TimerHandle>
    var issued: set<TimerHandle>
    var cleared: set<TimerHandle>

    /** Only issued timeouts are stored or cancelled. */
    ghost predicate Valid()
      reads this
    {
      (timerId.Some? ==> timerId.value in issued) && cleared <= issued
    }

    constructor()
      ensures Valid()
      ensures timerId == None && issued == {} && cleared == {}
    {
      timerId := None;
      issued := {};
      cleared := {};
    }
  }

  class AsyncBatchConsumer {
    var buffer: seq<string>
    const batchSize: int
    /** `consumerConfig.interval || DEFAULT_INTERVAL`, the delay handed to `setTimeout`. */
    const interval: Value
    const compress: bool
    /** The module-level slot the constructor stores its first timeout in. */
    const slot: TimerSlot
    /** The timeout of this consumer's run loop that is scheduled next. */
    var scheduled: Option<TimerHandle>

    ghost var added: seq<string>
    ghost var sent: seq<seq<string>>

    /** Nothing is lost or reordered: sent batches, then the buffer, are the records added. */
    ghost predicate History()
      reads this
    {
      NothingLost(added, sent, buffer)
    }

    /** The history holds, and between calls the buffer never holds a full batch. */
    ghost predicate Valid()
      reads this
    {
      History() && (buffer == [] || |buffer| < batchSize)
    }

    /** The run loop will fire again: a timeout is scheduled and has not been cancelled. */
    predicate TimerPending()
      reads this, slot
    {
      scheduled.Some? && scheduled.value !in slot.cleared
    }

    /**
     * `new AsyncBatchConsumer(appId, serverConfig, consumerConfig = {})`: the
     * defaults, and the first timeout, whose handle `first` overwrites the
     * shared `timerId`. A `null` config throws, so it is excluded.
     */
    constructor(config: Value, slot: TimerSlot, first: TimerHandle)
      requires !config.Null? && NumericBatchSize(config)
      requires slot.Valid() && first !in slot.issued
      modifies slot
      ensures Valid() && TimerPending() && slot.Valid()
      ensures slot.issued == old(slot.issued) + {first}
      ensures buffer == [] && added == [] && sent == []
      ensures batchSize == BatchSizeOf(config) && compress == CompressOf(config)
      ensures interval == if Truthy(ConfigField(config, "interval")) then ConfigField(config, "interval") else Num(DefaultInterval)
      ensures this.slot == slot && scheduled == Some(first)
      ensures slot.timerId == Some(first) && slot.cleared == old(slot.cleared)
    {
      buffer := [];
      batchSize := BatchSizeOf(config);
      var configured := ConfigField(config, "interval");
      interval := if Truthy(configured) then configured else Num(DefaultInterval);
      compress := CompressOf(config);
      this.slot := slot;
      scheduled := Some(first);
      added := [];
      sent := [];
      new;
      slot.timerId := Some(first);
      slot.issued := slot.issued + {first};
    }

    /** `flush(callback)`: nothing on an empty buffer; otherwise the whole buffer as one counted batch, and the buffer is emptied before the send. */
    method Flush(callback: Value) returns (request: Option<Request>)
      requires History()
      modifies this
      ensures Valid()
      ensures buffer == [] && added == old(added) && scheduled == old(scheduled)
      ensures old(buffer) == [] ==> request == None && sent == old(sent)
      ensures old(buffer) != [] ==>
        request == Some(Request(BatchBody(old(buffer)), Some(CountHeader(|old(buffer)|)), compress, Handler(callback)))
        && sent == old(sent) + [old(buffer)]
    {
      if |buffer| == 0 {
        return None;
      }
      var count := CountHeader(|buffer|);
      var body := BatchBody(buffer);
      SendKeepsHistory(added, sent, buffer);
      sent := sent + [buffer];
      buffer := [];
      request := Some(Request(body, Some(count), compress, Handler(callback)));
    }

    /** `add(msg, callback)`: buffer the record; once the buffer reaches `batchSize`, flush it with this callback. */
    method Add(msg: string, callback: Value) returns (request: Option<Request>)
      requires Valid()
      modifies this
      ensures Valid()
      ensures added == old(added) + [msg] && scheduled == old(scheduled)
      ensures buffer == [] || |buffer| < batchSize
      ensures |old(buffer)| + 1 >= batchSize ==>
        request == Some(Request(BatchBody(old(buffer) + [msg]), Some(CountHeader(|old(buffer)| + 1)), compress, Handler(callback)))
        && buffer == [] && sent == old(sent) + [old(buffer) + [msg]]
      ensures |old(buffer)| + 1 < batchSize ==>
        request == None && buffer == old(buffer) + [msg] && sent == old(sent)
    {
      BufferKeepsHistory(added, sent, buffer, msg);
      added := added + [msg];
      buffer := buffer + [msg];
      if |buffer| >= batchSize {
        request := Flush(callback);
      } else {
        request := None;
      }
    }

    /**
     * The scheduled timeout fires: `run` flushes without a callback and
     * schedules the next timeout, `next`, a fresh handle, in its own local
     * variable; the shared `timerId` is left as it is.
     */
    method Tick(next: TimerHandle) returns (request: Option<Request>)
      requires Valid() && TimerPending() && slot.Valid() && next !in slot.issued
      modifies this, slot
      ensures Valid() && TimerPending() && slot.Valid()
      ensures slot.timerId == old(slot.timerId) && slot.cleared == old(slot.cleared)
      ensures slot.issued == old(slot.issued) + {next}
      ensures buffer == [] && added == old(added) && scheduled == Some(next)
      ensures old(buffer) == [] ==> request == None && sent == old(sent)
      ensures old(buffer) != [] ==>
        request == Some(Request(BatchBody(old(buffer)), Some(CountHeader(|old(buffer)|)), compress, None))
        && sent == old(sent) + [old(buffer)]
    {
      request := Flush(Undefined);
      scheduled := Some(next);
      slot.issued := slot.issued + {next};
    }

    /**
     * `close()`: `clearTimeout(timerId)` cancels the timeout named in the
     * shared slot, whichever consumer scheduled it, then one flush without a
     * callback. This consumer's loop stops only if its scheduled timeout is
     * the one in the slot, that is, only if it has not fired yet.
     */
    method Close() returns (request: Option<Request>)
      requires Valid() && slot.Valid()
      modifies this, slot
      ensures Valid() && slot.Valid()
      ensures buffer == [] && added == old(added) && scheduled == old(scheduled)
      ensures slot.timerId == old(slot.timerId) && slot.issued == old(slot.issued)
      ensures slot.cleared == old(slot.cleared) + (if old(slot.timerId).Some? then {old(slot.timerId).value} else {})
      ensures TimerPending() <==> old(TimerPending()) && scheduled != slot.timerId
      ensures old(buffer) == [] ==> request == None && sent == old(sent)
      ensures old(buffer) != [] ==>
        request == Some(Request(BatchBody(old(buffer)), Some(CountHeader(|old(buffer)|)), compress, None))
        && sent == old(sent) + [old(buffer)]
    {
      if slot.timerId.Some? {
        slot.cleared := slot.cleared + {slot.timerId.value};
      }
      request := Flush(Undefined);
    }
  }

  /** A consumer closed before its first timeout fires stops its run loop. */
  method CloseBeforeFirstTick() returns (loopRunning: bool)
    ensures !loopRunning
  {
    var slot := new TimerSlot();
    var consumer := new AsyncBatchConsumer(Undefined, slot, 1);
    var _ := consumer.Close();
    loopRunning := consumer.TimerPending();
  }

  /**
   * Once the run loop has fired, `close` cancels only the spent first timeout:
   * the re-armed one stays scheduled and the loop keeps flushing.
   */
  method CloseAfterTick() returns (loopRunning: bool)
    ensures loopRunning
  {
    var slot := new TimerSlot();
    var consumer := new AsyncBatchConsumer(Undefined, slot, 1);
    var _ := consumer.Tick(2);
    var _ := consumer.Close();
    loopRunning := consumer.TimerPending();
  }

  /** A second consumer overwrites the shared slot, so closing the first cancels the second's first timeout instead of its own. */
  method SharedSlot() returns (firstRunning: bool, secondRunning: bool)
    ensures firstRunning && !secondRunning
  {
    var slot := new TimerSlot();
    var a := new AsyncBatchConsumer(Undefined, slot, 1);
    var b := new AsyncBatchConsumer(Undefined, slot, 2);
    var _ := a.Close();
    firstRunning := a.TimerPending();
    secondRunning := b.TimerPending();
  }
}
