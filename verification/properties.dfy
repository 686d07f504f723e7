/**
 Properties of the accumulator that relate several steps: the 500-record bound,
 why it needs a truthful response, and why no 4 MiB bound survives a partial failure.
 */
module Properties {

  import opened Records
  import opened Responses
  import opened Batcher

  /**
   A send never grows the batch, and a send the client answered truthfully that
   returns Ok leaves strictly fewer records than it was handed.
   */
  lemma SendShrinksBatch(st: State, put: PutResult)
    requires Fits(put, |st.records|)
    ensures |SendCurrentBatch(st, put).state.records| <= |st.records|
    ensures Truthful(put) && |st.records| > 0 && SendCurrentBatch(st, put).status == Ok ==>
              |SendCurrentBatch(st, put).state.records| < |st.records|
  {
    if |st.records| > 0 && put.Response? && PartialFailure(put.failedPutCount, |st.records|) {
      ErroredAtMostBatch(put.entries, |st.records|);
    }
  }

  /**
   The count bound: starting from at most 500 records, AddRecord leaves at most 500,
   provided the flush it may issue gets a truthful response.
   */
  lemma AddRecordCountBound(cfg: Config, st: State, timestampOk: bool, enc: Encoding, put: PutResult)
    requires Fits(put, |st.records|)
    requires Truthful(put)
    requires |st.records| <= MaxRecordsPerPut
    ensures |AddRecord(cfg, st, timestampOk, enc, put).state.records| <= MaxRecordsPerPut
  {
    if Stamped(cfg, timestampOk) && enc.Encoded? {
      var data := FinishRecord(enc.payload);
      if NeedsFlush(st, |data|) {
        SendShrinksBatch(st, put);
      }
    }
  }

  /** A run of appends with no flush in between, in arrival order. */
  function AppendAll(aggregate: bool, st: State, arrivals: seq<Bytes>): State
    decreases |arrivals|
  {
    if |arrivals| == 0 then st
    else AppendAll(aggregate, Append(aggregate, st, arrivals[0]), arrivals[1..])
  }

  /**
   Appends keep arrival order: whatever merging aggregation does, the batch carries
   the old bytes followed by every arrival's bytes in order, and the byte count grows
   by their total, so the accounting invariant survives.
   */
  lemma {:induction false} AppendAllKeepsArrivalOrder(aggregate: bool, st: State, arrivals: seq<Bytes>)
    ensures Flatten(AppendAll(aggregate, st, arrivals).records) == Flatten(st.records) + Flatten(arrivals)
    ensures AppendAll(aggregate, st, arrivals).dataLength == st.dataLength + TotalLength(arrivals)
    ensures Accounted(st) ==> Accounted(AppendAll(aggregate, st, arrivals))
    decreases |arrivals|
  {
    if |arrivals| == 0 {
      TotalLengthIsFlattenLength(arrivals);
    } else {
      var first := arrivals[0];
      var rest := arrivals[1..];
      assert arrivals == [first] + rest;
      AppendAllKeepsArrivalOrder(aggregate, Append(aggregate, st, first), rest);
      FlattenSplit([first], rest);
      TotalLengthSplit([first], rest);
      assert [first][..0] == [];
      assert Flatten([first]) == first;
      assert TotalLength([first]) == |first|;
    }
  }

  /** Every one of the first k outcomes carries an error message: all k positions are collected. */
  lemma {:induction false} AllErrored(entries: seq<Entry>, k: nat)
    requires k <= |entries|
    requires forall i :: 0 <= i < k ==> entries[i].hasErrorMessage
    ensures |ErroredIndices(entries, k)| == k
  {
    if k > 0 {
      AllErrored(entries, k - 1);
    }
  }

  /** n copies of one record weigh n times its length. */
  lemma {:induction false} TotalLengthUniform(n: nat, x: Bytes)
    ensures TotalLength(seq(n, _ => x)) == n * |x|
  {
    if n > 0 {
      assert seq(n, _ => x)[..n - 1] == seq(n - 1, _ => x);
      TotalLengthUniform(n - 1, x);
    }
  }

  function Zeros(n: nat): (z: Bytes)
    ensures |z| == n
  {
    seq(n, _ => 0)
  }

  /** A full batch of 500 one-byte records. */
  function FullBatch(): State {
    State(seq(MaxRecordsPerPut, _ => Zeros(1)), MaxRecordsPerPut, false)
  }

  /** An answer reporting 1 failure although all 500 of its outcomes carry an error message. */
  function UntruthfulAnswer(): PutResult {
    Response(1, seq(MaxRecordsPerPut, _ => Entry(true, "")))
  }

  /** The untruthful answer is taken as a partial failure that keeps the whole batch. */
  lemma UntruthfulAnswerKeepsAll()
    ensures Fits(UntruthfulAnswer(), |FullBatch().records|)
    ensures !Truthful(UntruthfulAnswer())
    ensures var s := SendCurrentBatch(FullBatch(), UntruthfulAnswer());
            s.status == Ok && |s.state.records| == MaxRecordsPerPut
  {
    var entries := UntruthfulAnswer().entries;
    AllErrored(entries, |entries|);
    assert !SomeOverloaded(entries, |entries|) by {
      forall i | 0 <= i < |entries|
        ensures !Overloaded(entries[i])
      {
        assert |entries[i].errorCode| < |ServiceUnavailable|;
      }
    }
    var s := SendCurrentBatch(FullBatch(), UntruthfulAnswer());
    assert IsFailedSubsequence(FullBatch().records, entries, |entries|, s.state.records);
  }

  /**
   The count bound needs a truthful response: the full batch, flushed with the
   untruthful answer, is kept whole, and the new record makes it 501.
   */
  lemma CountBoundNeedsTruthfulResponse()
    ensures Fits(UntruthfulAnswer(), |FullBatch().records|) && !Truthful(UntruthfulAnswer())
    ensures var r := AddRecord(Config(false, false), FullBatch(), true, Encoded([]), UntruthfulAnswer());
            r.status == Ok && |r.state.records| == MaxRecordsPerPut + 1
  {
    UntruthfulAnswerKeepsAll();
  }

  /**
   A batch of exactly 4 MiB: four full records and one of 98,304 bytes, and a truthful
   answer in which the four full records fail and the small one is accepted.
   */
  function FullRecords(): seq<Bytes> {
    seq(4, _ => Zeros(MaxRecordSize))
  }

  function SizeExampleBatch(): State {
    State(FullRecords() + [Zeros(98304)], MaxPutRecordBatchSize, false)
  }

  function SizeExampleAnswer(): PutResult {
    var failed := Entry(true, "InternalFailure");
    Response(4, [failed, failed, failed, failed, Entry(false, "")])
  }

  lemma SizeExampleIsWellFormed()
    ensures Accounted(SizeExampleBatch())
    ensures AllWithinRecordSize(SizeExampleBatch().records)
    ensures |SizeExampleBatch().records| <= MaxRecordsPerPut
    ensures Fits(SizeExampleAnswer(), |SizeExampleBatch().records|)
    ensures Truthful(SizeExampleAnswer())
  {
    var recs := SizeExampleBatch().records;
    assert recs[..4] == FullRecords();
    TotalLengthUniform(4, Zeros(MaxRecordSize));
    AllErrored(SizeExampleAnswer().entries, 4);
  }

  /** The flush of the example keeps exactly the four full records: 4,096,000 bytes. */
  lemma SizeExampleFlush()
    ensures Fits(SizeExampleAnswer(), |SizeExampleBatch().records|)
    ensures var s := SendCurrentBatch(SizeExampleBatch(), SizeExampleAnswer());
            s.status == Ok && s.state.records == FullRecords() && s.state.dataLength == 4 * MaxRecordSize
  {
    SizeExampleIsWellFormed();
    var st := SizeExampleBatch();
    var entries := SizeExampleAnswer().entries;
    var s := SendCurrentBatch(st, SizeExampleAnswer());
    assert s == ProcessApiResponse(st, 4, entries);
    assert IsFailedSubsequence(st.records, entries, 5, s.state.records);
    assert s.state.records == st.records[..4];
    assert st.records[..4] == FullRecords();
    TotalLengthUniform(4, Zeros(MaxRecordSize));
  }

  /**
   No 4 MiB bound after AddRecord: the example batch is flushed for a new full record,
   the partial failure keeps the four full records, and the append brings the batch
   to 5,120,000 bytes, although the starting state is accounted, within every limit,
   and the answer is truthful.
   */
  lemma SizeBoundNotKeptAfterPartialFailure()
    ensures Accounted(SizeExampleBatch()) && Truthful(SizeExampleAnswer())
    ensures Fits(SizeExampleAnswer(), |SizeExampleBatch().records|)
    ensures var r := AddRecord(Config(false, false), SizeExampleBatch(), true, Encoded(Zeros(MaxRecordSize - 1)), SizeExampleAnswer());
            && r.status == Ok
            && Accounted(r.state)
            && r.state.dataLength == 5120000
            && r.state.dataLength > MaxPutRecordBatchSize
  {
    SizeExampleIsWellFormed();
    SizeExampleFlush();
    assert |FinishRecord(Zeros(MaxRecordSize - 1))| == MaxRecordSize;
  }

  /** Five outcomes of which those at positions 1 and 3 failed, none with the overload code. */
  function ScenarioEntries(): seq<Entry> {
    var ok := Entry(false, "");
    var failed := Entry(true, "InternalFailure");
    [ok, failed, ok, failed, ok]
  }

  /** In the scenario answer, positions 1 and 3 failed and no outcome has the overload code. */
  lemma ScenarioOutcomes()
    ensures ErroredIndices(ScenarioEntries(), 5) == [1, 3]
    ensures !SomeOverloaded(ScenarioEntries(), 5)
  {
  }

  lemma {:induction false} TotalLengthPair(b: Bytes, d: Bytes)
    ensures TotalLength([b, d]) == |b| + |d|
  {
    assert [b, d][..1] == [b];
    assert [b][..0] == [];
    assert TotalLength([b]) == TotalLength([]) + |b|;
  }

  /**
   A response reporting 2 of 5 records failed, at positions 1 and 3 and with no
   overload code, leaves exactly those two records, in order, with their byte count.
   */
  lemma PartialFailureKeepsFailedInOrder(a: Bytes, b: Bytes, c: Bytes, d: Bytes, e: Bytes, timer: bool)
    ensures var st := State([a, b, c, d, e], |a| + |b| + |c| + |d| + |e|, timer);
            var r := ProcessApiResponse(st, 2, ScenarioEntries());
            r.status == Ok && r.state == State([b, d], |b| + |d|, timer)
  {
    ScenarioOutcomes();
    var st := State([a, b, c, d, e], |a| + |b| + |c| + |d| + |e|, timer);
    assert PartialFailure(2, |st.records|);
    var r := ProcessApiResponse(st, 2, ScenarioEntries());
    assert r.status == Ok && Accounted(r.state) && r.state.timerStarted == timer;
    assert IsFailedSubsequence(st.records, ScenarioEntries(), 5, r.state.records);
    assert r.state.records == [b, d];
    TotalLengthPair(b, d);
  }
}
