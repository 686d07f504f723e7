/**
 Encoded records: byte payloads, the Firehose API limits that bound them, and the
 finishing step every encoded log event goes through (newline and truncation).
 */
module Records {

  type Bytes = seq<bv8>

  /** Firehose API limits on one PutRecordBatch call and on one record. */
  const MaxRecordsPerPut: nat := 500
  const MaxPutRecordBatchSize: nat := 4194304
  const MaxRecordSize: nat := 1024000

  /** The ASCII bytes of "\n" and of the marker put at the end of a cut record, "[Truncated...]". */
  const Newline: Bytes := [0x0A]
  const TruncatedSuffix: Bytes :=
    [0x5B, 0x54, 0x72, 0x75, 0x6E, 0x63, 0x61, 0x74, 0x65, 0x64, 0x2E, 0x2E, 0x2E, 0x5D]

  /** Number of leading payload bytes a truncated record keeps. */
  const KeptOnTruncation: nat := MaxRecordSize - |TruncatedSuffix|

  predicate EndsWith(s: Bytes, suffix: Bytes) {
    |suffix| <= |s| && s[|s| - |suffix|..] == suffix
  }

  /**
   The tail of processRecord: terminate the encoded payload with a newline and, if
   the result is over the record limit, cut it so that the kept prefix plus the
   marker fill the limit exactly.
   */
  function FinishRecord(encoded: Bytes): (r: Bytes)
    ensures |r| <= MaxRecordSize
    ensures |encoded| + 1 <= MaxRecordSize ==>
              |r| == |encoded| + 1 && r[..|encoded|] == encoded && EndsWith(r, Newline)
    ensures |encoded| + 1 > MaxRecordSize ==>
              && |r| == MaxRecordSize
              && r[..KeptOnTruncation] == encoded[..KeptOnTruncation]
              && EndsWith(r, TruncatedSuffix)
  {
    var data := encoded + Newline;
    if |data| > MaxRecordSize then
      data[..KeptOnTruncation] + TruncatedSuffix
    else
      data
  }

  /** Sum of the byte lengths of a sequence of records. */
  function TotalLength(records: seq<Bytes>): nat
  {
    if |records| == 0 then 0
    else TotalLength(records[..|records| - 1]) + |records[|records| - 1]|
  }

  /** The byte stream a sequence of records carries, in order. */
  function Flatten(records: seq<Bytes>): Bytes
  {
    if |records| == 0 then []
    else Flatten(records[..|records| - 1]) + records[|records| - 1]
  }

  /** Every held record respects the per-record limit. */
  predicate AllWithinRecordSize(records: seq<Bytes>) {
    forall i :: 0 <= i < |records| ==> |records[i]| <= MaxRecordSize
  }

  /** The byte accounting and the byte stream agree. */
  lemma {:induction false} TotalLengthIsFlattenLength(records: seq<Bytes>)
    ensures TotalLength(records) == |Flatten(records)|
    decreases |records|
  {
    if |records| > 0 {
      TotalLengthIsFlattenLength(records[..|records| - 1]);
    }
  }

  /** The total of a sequence is the total of any prefix plus the total of the rest. */
  lemma {:induction false} TotalLengthSplit(a: seq<Bytes>, b: seq<Bytes>)
    ensures TotalLength(a + b) == TotalLength(a) + TotalLength(b)
    decreases |b|
  {
    if |b| == 0 {
      assert a + b == a;
    } else {
      var b' := b[..|b| - 1];
      assert (a + b)[..|a + b| - 1] == a + b';
      assert (a + b)[|a + b| - 1] == b[|b| - 1];
      TotalLengthSplit(a, b');
    }
  }

  /** The stream of a concatenation is the concatenation of the streams. */
  lemma {:induction false} FlattenSplit(a: seq<Bytes>, b: seq<Bytes>)
    ensures Flatten(a + b) == Flatten(a) + Flatten(b)
    decreases |b|
  {
    if |b| == 0 {
      assert a + b == a;
    } else {
      var b' := b[..|b| - 1];
      assert (a + b)[..|a + b| - 1] == a + b';
      assert (a + b)[|a + b| - 1] == b[|b| - 1];
      FlattenSplit(a, b');
    }
  }
}
