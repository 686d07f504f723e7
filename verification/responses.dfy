/**
 The answer of a PutRecordBatch call and the walk over its per-record outcomes that
 picks out the records to resend.
 */
module Responses {

  import opened Wrappers
  import opened Records

  /** The Firehose error code for a delivery stream that is over its throughput limits. */
  const ServiceUnavailable: string := "ServiceUnavailableException"

  /**
   One per-record outcome of a response, in request order: whether it carries an
   error message, and its error code ("" when the response has none).
   */
  datatype Entry = Entry(hasErrorMessage: bool, errorCode: string)

  /**
   What the client returns for the batch it is handed: an error from the call itself
   (flagged when its code is the overload code), or a response with the reported
   failure count and the per-record outcomes.
   */
  datatype PutResult =
    | TransportError(overloaded: bool)
    | Response(failedPutCount: int, entries: seq<Entry>)

  predicate Overloaded(e: Entry) {
    e.errorCode == ServiceUnavailable
  }

  /** Some outcome among the first k has the overload code. */
  predicate SomeOverloaded(entries: seq<Entry>, k: nat)
    requires k <= |entries|
  {
    exists i :: 0 <= i < k && Overloaded(entries[i])
  }

  /**
   The walk indexes the sent records with the position of every outcome that carries
   an error message, so no such outcome may sit past the end of the batch of size n.
   */
  predicate Indexable(entries: seq<Entry>, n: nat) {
    forall i :: n <= i < |entries| ==> !entries[i].hasErrorMessage
  }

  /**
   The positions, among the first k outcomes, that carry an error message: the
   unique strictly increasing sequence holding exactly those positions.
   */
  function ErroredIndices(entries: seq<Entry>, k: nat): (idx: seq<nat>)
    requires k <= |entries|
    ensures forall a, b :: 0 <= a < b < |idx| ==> idx[a] < idx[b]
    ensures forall j :: 0 <= j < |idx| ==> idx[j] < k && entries[idx[j]].hasErrorMessage
    ensures forall i: nat {:trigger i in idx} :: i in idx <==> i < k && entries[i].hasErrorMessage
  {
    if k == 0 then []
    else ErroredIndices(entries, k - 1) + (if entries[k - 1].hasErrorMessage then [k - 1] else [])
  }

  /** The outcome list agrees with itself: the reported failure count is the number of
      outcomes that carry an error message. */
  predicate Consistent(entries: seq<Entry>, failedPutCount: int) {
    failedPutCount == |ErroredIndices(entries, |entries|)|
  }

  /**
   out holds, in their original order, exactly the records whose outcome among the
   first k carries an error message.
   */
  predicate IsFailedSubsequence(records: seq<Bytes>, entries: seq<Entry>, k: nat, out: seq<Bytes>)
    requires k <= |entries|
    requires Indexable(entries, |records|)
  {
    var idx := ErroredIndices(entries, k);
    && |out| == |idx|
    && forall j :: 0 <= j < |idx| ==> out[j] == records[idx[j]]
  }

  /**
   The walk of processAPIResponse over the first k outcomes: collect the record of
   every outcome with an error message, in order, and give up (None) on the first
   outcome whose code says the stream is overloaded.
   */
  function CollectFailed(records: seq<Bytes>, entries: seq<Entry>, k: nat): (r: Option<seq<Bytes>>)
    requires k <= |entries|
    requires Indexable(entries, |records|)
    ensures r.None? <==> SomeOverloaded(entries, k)
    ensures r.Some? ==> IsFailedSubsequence(records, entries, k, r.value)
  {
    if k == 0 then Some([])
    else
      match CollectFailed(records, entries, k - 1)
      case None => None
      case Some(acc) =>
        var e := entries[k - 1];
        var acc' := if e.hasErrorMessage then acc + [records[k - 1]] else acc;
        if Overloaded(e) then None else Some(acc')
  }

  /** A strictly increasing sequence of naturals below n has at most n elements. */
  lemma {:induction false} IncreasingBelowBound(idx: seq<nat>, n: nat)
    requires forall a, b :: 0 <= a < b < |idx| ==> idx[a] < idx[b]
    requires forall j :: 0 <= j < |idx| ==> idx[j] < n
    ensures |idx| <= n
    decreases |idx|
  {
    if |idx| > 0 {
      var last := idx[|idx| - 1];
      IncreasingBelowBound(idx[..|idx| - 1], last);
    }
  }

  /** A response that fits a batch of n records reports at most n outcomes with an error message. */
  lemma ErroredAtMostBatch(entries: seq<Entry>, n: nat)
    requires Indexable(entries, n)
    ensures |ErroredIndices(entries, |entries|)| <= n
  {
    var idx := ErroredIndices(entries, |entries|);
    forall j | 0 <= j < |idx|
      ensures idx[j] < n
    {
      assert idx[j] in idx;
    }
    IncreasingBelowBound(idx, n);
  }
}
