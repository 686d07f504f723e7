/**
 The batch accumulator and retry coordinator of the Firehose output plugin as an
 explicit state machine. The client call, the record encoder and the timestamp
 formatter are inputs: every step is a pure function of the state and what those
 collaborators answered.
 */
module Batcher {

  import opened Wrappers
  import opened Records
  import opened Responses

  /** The plugin's return codes FLB_OK, FLB_RETRY and FLB_ERROR. */
  datatype Status = Ok | Retry | Error

  /** The error a send returns beside its status (the callers only log it). */
  datatype SendError =
    | CallFailed(overloaded: bool)
    | NoRecordsAccepted

  /**
   The buffered batch: the records not yet confirmed delivered, in order, the byte
   count kept beside them, and whether the failure timer is running.
   */
  datatype State = State(records: seq<Bytes>, dataLength: nat, timerStarted: bool)

  /** The two settings the accumulator consults: a time key is set, simple aggregation is on. */
  datatype Config = Config(timeKeySet: bool, simpleAggregation: bool)

  /** What the record encoder produced for one log event (before the newline is added). */
  datatype Encoding = Encoded(payload: Bytes) | EncodeFailed

  datatype SendOutcome = SendOutcome(status: Status, err: Option<SendError>, state: State)

  datatype AddOutcome = AddOutcome(status: Status, state: State)

  /** The state a freshly built plugin starts in. */
  const Initial: State := State([], 0, false)

  /** The kept byte count is the sum of the held records' lengths. */
  predicate Accounted(st: State) {
    st.dataLength == TotalLength(st.records)
  }

  /** A failure count that is neither full success nor no progress: the outcomes are walked. */
  predicate PartialFailure(failedPutCount: int, n: nat) {
    0 < failedPutCount && failedPutCount != n
  }

  /**
   Where the outcomes of the client's answer to a non-empty batch of n records are
   walked, they can be correlated with that batch.
   */
  predicate Fits(put: PutResult, n: nat) {
    put.Response? && n > 0 && PartialFailure(put.failedPutCount, n) ==> Indexable(put.entries, n)
  }

  /** The client's answer reports a failure count that matches its own outcomes. */
  predicate Truthful(put: PutResult) {
    put.Response? ==> Consistent(put.entries, put.failedPutCount)
  }

  /**
   processAPIResponse: classify the response as full success, no progress, or
   partial failure, and update the batch and the timer accordingly.
   */
  function ProcessApiResponse(st: State, failedPutCount: int, entries: seq<Entry>): (r: SendOutcome)
    requires PartialFailure(failedPutCount, |st.records|) ==> Indexable(entries, |st.records|)
    // full success: the batch is emptied and the timer cleared
    ensures failedPutCount <= 0 ==> r == SendOutcome(Ok, None, Initial)
    // no record accepted: resend the same batch later, timer running
    ensures 0 < failedPutCount == |st.records| ==>
              r == SendOutcome(Retry, Some(NoRecordsAccepted), st.(timerStarted := true))
    // an error is returned exactly when no record was accepted
    ensures r.err.Some? <==> 0 < failedPutCount == |st.records|
    // overload seen during the walk: the whole batch is kept, accepted records included
    ensures PartialFailure(failedPutCount, |st.records|) && SomeOverloaded(entries, |entries|) ==>
              r == SendOutcome(Retry, None, st)
    // partial failure: keep exactly the failed records, in order, and recount their bytes
    ensures PartialFailure(failedPutCount, |st.records|) && !SomeOverloaded(entries, |entries|) ==>
              && r.status == Ok
              && IsFailedSubsequence(st.records, entries, |entries|, r.state.records)
              && Accounted(r.state)
              && r.state.timerStarted == st.timerStarted
  {
    if failedPutCount > 0 then
      if failedPutCount == |st.records| then
        SendOutcome(Retry, Some(NoRecordsAccepted), st.(timerStarted := true))
      else
        match CollectFailed(st.records, entries, |entries|)
        case None => SendOutcome(Retry, None, st)
        case Some(failed) =>
          SendOutcome(Ok, None, st.(records := failed, dataLength := TotalLength(failed)))
    else
      SendOutcome(Ok, None, st.(records := [], dataLength := 0, timerStarted := false))
  }

  /**
   sendCurrentBatch: an empty batch is a success that never reaches the client;
   otherwise the client is called with the whole batch and its answer is processed.
   */
  function SendCurrentBatch(st: State, put: PutResult): (r: SendOutcome)
    requires Fits(put, |st.records|)
    ensures |st.records| == 0 ==> r == SendOutcome(Ok, None, st)
    ensures |st.records| > 0 && put.TransportError? ==>
              r == SendOutcome(Retry, Some(CallFailed(put.overloaded)), st.(timerStarted := true))
    // a response to a non-empty batch is classified by processAPIResponse
    ensures |st.records| > 0 && put.Response? ==> r == ProcessApiResponse(st, put.failedPutCount, put.entries)
    ensures r.status != Error
    // a retry leaves the batch exactly as it was sent
    ensures r.status == Retry ==> r.state.records == st.records && r.state.dataLength == st.dataLength
    // every record still held was held before
    ensures forall x :: x in r.state.records ==> x in st.records
    ensures Accounted(st) ==> Accounted(r.state)
    ensures AllWithinRecordSize(st.records) ==> AllWithinRecordSize(r.state.records)
  {
    if |st.records| == 0 then
      SendOutcome(Ok, None, st)
    else
      match put
      case TransportError(overloaded) =>
        SendOutcome(Retry, Some(CallFailed(overloaded)), st.(timerStarted := true))
      case Response(failedPutCount, entries) =>
        ProcessApiResponse(st, failedPutCount, entries)
  }

  /** Flush: send whatever is buffered; the error beside the status is only logged. */
  function Flush(st: State, put: PutResult): (r: AddOutcome)
    requires Fits(put, |st.records|)
    ensures r.status == Ok || r.status == Retry
    ensures r.status == Retry ==> r.state.records == st.records && r.state.dataLength == st.dataLength
    ensures st.records == [] ==> r == AddOutcome(Ok, st)
    ensures Accounted(st) ==> Accounted(r.state)
    // Flush returns exactly what sending the current batch returns
    ensures r == AddOutcome(SendCurrentBatch(st, put).status, SendCurrentBatch(st, put).state)
  {
    var s := SendCurrentBatch(st, put);
    AddOutcome(s.status, s.state)
  }

  /** Simple aggregation merges a record of the given size into the last held one. */
  predicate Coalesces(aggregate: bool, records: seq<Bytes>, size: nat) {
    aggregate && |records| > 0 && |records[|records| - 1]| + size <= MaxRecordSize
  }

  /**
   The append at the end of AddRecord: coalesce onto the last record when simple
   aggregation allows it, otherwise add a new entry; the byte count grows by the size
   of the new data either way.
   */
  function Append(aggregate: bool, st: State, data: Bytes): (r: State)
    ensures r.dataLength == st.dataLength + |data|
    ensures r.timerStarted == st.timerStarted
    ensures Flatten(r.records) == Flatten(st.records) + data
    ensures TotalLength(r.records) == TotalLength(st.records) + |data|
    ensures Coalesces(aggregate, st.records, |data|) ==>
              |r.records| == |st.records| && r.records[..|r.records| - 1] == st.records[..|st.records| - 1]
    ensures !Coalesces(aggregate, st.records, |data|) ==> r.records == st.records + [data]
    ensures AllWithinRecordSize(st.records) && |data| <= MaxRecordSize ==> AllWithinRecordSize(r.records)
  {
    var n := |st.records|;
    if Coalesces(aggregate, st.records, |data|) then
      var front := st.records[..n - 1];
      var merged := front + [st.records[n - 1] + data];
      assert st.records == front + [st.records[n - 1]];
      assert merged[..n - 1] == front;
      State(merged, st.dataLength + |data|, st.timerStarted)
    else
      assert (st.records + [data])[..n] == st.records;
      State(st.records + [data], st.dataLength + |data|, st.timerStarted)
  }

  /** The batch must be sent before a record of the given size may join it. */
  predicate NeedsFlush(st: State, size: nat) {
    |st.records| == MaxRecordsPerPut || st.dataLength + size > MaxPutRecordBatchSize
  }

  /** The timestamp step lets the record through: no time key, or the timestamp formatted. */
  predicate Stamped(cfg: Config, timestampOk: bool) {
    !cfg.timeKeySet || timestampOk
  }

  /**
   AddRecord: finish the encoded record, flush first when the batch is full or the
   record would push it past the batch size, then append. put is the client's answer
   to that flush and is consulted only when the flush happens.
   */
  function AddRecord(cfg: Config, st: State, timestampOk: bool, enc: Encoding, put: PutResult): (r: AddOutcome)
    requires Fits(put, |st.records|)
    ensures !Stamped(cfg, timestampOk) ==> r == AddOutcome(Error, st)
    // a record the encoder rejects is dropped and the batch goes on untouched
    ensures Stamped(cfg, timestampOk) && enc.EncodeFailed? ==> r == AddOutcome(Ok, st)
    // no flush needed: the finished record joins the batch
    ensures Stamped(cfg, timestampOk) && enc.Encoded? && !NeedsFlush(st, |FinishRecord(enc.payload)|) ==>
              r == AddOutcome(Ok, Append(cfg.simpleAggregation, st, FinishRecord(enc.payload)))
    // flush needed: the record joins what the send left, unless the send did not succeed
    ensures Stamped(cfg, timestampOk) && enc.Encoded? && NeedsFlush(st, |FinishRecord(enc.payload)|) ==>
              var s := SendCurrentBatch(st, put);
              r == (if s.status == Ok then AddOutcome(Ok, Append(cfg.simpleAggregation, s.state, FinishRecord(enc.payload)))
                    else AddOutcome(s.status, s.state))
    // anything but Ok: the new record is discarded and the batch is as it was
    ensures r.status != Ok ==> r.state.records == st.records && r.state.dataLength == st.dataLength
    ensures Accounted(st) ==> Accounted(r.state)
    ensures AllWithinRecordSize(st.records) ==> AllWithinRecordSize(r.state.records)
  {
    if !Stamped(cfg, timestampOk) then
      AddOutcome(Error, st)
    else
      match enc
      case EncodeFailed => AddOutcome(Ok, st)
      case Encoded(payload) =>
        var data := FinishRecord(payload);
        var flushed := if NeedsFlush(st, |data|) then SendCurrentBatch(st, put) else SendOutcome(Ok, None, st);
        if flushed.status != Ok then
          AddOutcome(flushed.status, flushed.state)
        else
          AddOutcome(Ok, Append(cfg.simpleAggregation, flushed.state, data))
  }
}
