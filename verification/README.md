# Firehose output plugin: batch accumulator and retry coordinator

This project models, in Dafny, the part of the Fluent Bit output plugin for Amazon
Kinesis Data Firehose that buffers encoded log records and delivers them with
`PutRecordBatch` (`OutputPlugin` in `firehose/firehose.go`).

The plugin's mutable fields become an immutable `State`:

- `records`: the not-yet-confirmed records, each a `seq<bv8>`, in arrival order;
- `dataLength`: the byte count kept beside them;
- `timerStarted`: a flag standing in for the failure timer.

Every operation is a pure function of the state and of what its collaborators
answered:

- whether the timestamp formatted;
- the encoder's bytes or its error;
- the client's `PutRecordBatch` result, either a call error or a response with a
  failure count and per-record outcomes.

Modules:

- `Wrappers` (wrappers.dfy): the `Option` type the response walk returns.
- `Records` (records.dfy): the API limits (500 records, 4,194,304 bytes per call,
  1,024,000 bytes per record), the newline/truncation step, and byte totals.
- `Responses` (responses.dfy): the client's answer and the walk that picks the
  failed records out of a partial failure.
- `Batcher` (batcher.dfy): `State`, `AddRecord`, `Flush`, `SendCurrentBatch` and
  `ProcessApiResponse`.
- `Properties` (properties.dfy): multi-step properties. These are arrival order
  across a run of appends, the batch never growing on a send, the 500-record bound,
  two concrete counterexamples, and a partial-failure scenario.
- `KeyRewrite` (key_rewrite.dfy): `replaceDots` over a tree of ordered key-value maps.

Where the code and its own comments disagree, or where its behaviour differs from
what one might expect, the model follows the code:

- The 4 MiB check at firehose/firehose.go:202 runs once, before the flush. It is not
  repeated after a partial failure. So after `AddRecord`, the retained records plus the
  new one can pass 4,194,304 bytes. `SizeBoundNotKeptAfterPartialFailure` exhibits this
  from a state that satisfies every other invariant.
- `Flush` is documented as returning FLB_ERROR among others, but it never does.
  `Flush` states `Ok` or `Retry` only.
- `AddRecord` is documented as returning only FLB_OK or FLB_RETRY. It also returns
  FLB_ERROR when the timestamp cannot be formatted.
- If an overload code is met during the partial-failure walk, the whole batch is
  kept. This includes records the service already accepted, which will be sent again.
  This path also neither starts nor resets the failure timer
  (firehose/firehose.go:344-346). So a stream throttled record by record never arms
  the timer. `ProcessApiResponse` states this as it is.

## Model

| member | source | states |
|---|---|---|
| Records.FinishRecord | firehose/firehose.go:287-296 | the finished record never exceeds 1,024,000 bytes; a payload that fits with its newline keeps all its bytes and ends in "\n"; a longer one becomes exactly 1,024,000 bytes, keeps its first 1,023,986 bytes and ends with "[Truncated...]" |
| Records.TotalLengthIsFlattenLength | firehose/firehose.go:353-355 | the byte total the plugin recomputes equals the length of the byte stream the records carry |
| Records.TotalLengthSplit | firehose/firehose.go:219 | the byte total is additive over concatenation of record sequences (used to add up a run of appends) |
| Records.FlattenSplit | firehose/firehose.go:212-218 | the byte stream of a concatenation of record sequences is the concatenation of their streams (used to follow a run of appends) |
| Responses.ErroredIndices | firehose/firehose.go:339-343 | the positions whose outcome carries an error message form the unique strictly increasing sequence holding exactly those positions |
| Responses.CollectFailed | firehose/firehose.go:337-348 | the walk gives up exactly when some visited outcome has the ServiceUnavailableException code; otherwise it returns exactly the records whose outcome carries an error message, in request order |
| Responses.IncreasingBelowBound | firehose/firehose.go:337-343 | a strictly increasing sequence of positions below n has at most n elements (the failed subset cannot outgrow the batch) |
| Responses.ErroredAtMostBatch | firehose/firehose.go:339-343 | a response that fits a batch of n records reports at most n failed outcomes |
| Batcher.ProcessApiResponse | firehose/firehose.go:328-365 | failure count 0: batch emptied, `dataLength` 0, timer cleared, Ok; failure count equal to the batch size: Retry with the no-progress error, timer started, batch untouched; an error is returned exactly in that case; overload during the walk: Retry, whole batch untouched; otherwise Ok with exactly the failed records in order, their byte total, timer unchanged |
| Batcher.SendCurrentBatch | firehose/firehose.go:299-324 | an empty batch is an Ok no-op that ignores the client; a call error is Retry with the batch untouched and the timer started; a response to a non-empty batch is classified by `ProcessApiResponse`; a Retry never changes the batch; no record is invented; accounting and the per-record limit are preserved; ERROR is never returned |
| Batcher.Flush | firehose/firehose.go:225-231 | returns exactly the status and state of sending the current batch; so it returns only Ok or Retry; Retry leaves the batch as it was; an empty batch stays untouched; accounting is preserved |
| Batcher.Append | firehose/firehose.go:212-219 | `dataLength` grows by exactly the new size; the byte stream of the batch is the old stream followed by the new data; with aggregation, a non-empty batch and room in the last record, the count is unchanged and only the last record changes; otherwise exactly one entry is appended; the per-record limit is kept |
| Batcher.AddRecord | firehose/firehose.go:183-221 | timestamp failure: ERROR with the state unchanged; encode failure: Ok with the state unchanged; a send happens before the append exactly when the batch holds 500 records or the new size would pass 4,194,304 bytes, and if that send is not Ok its status is returned without the record; any non-Ok result leaves the batch as it was; accounting and the per-record limit are preserved |
| Properties.AppendAllKeepsArrivalOrder | firehose/firehose.go:212-219 | a run of appends with no flush, with or without aggregation, leaves the old bytes followed by every arrival's bytes in arrival order; `dataLength` grows by their total, and accounting is preserved |
| Properties.SendShrinksBatch | firehose/firehose.go:329-364 | a send never grows the batch; with a truthful response, an Ok send of a non-empty batch leaves strictly fewer records |
| Properties.AddRecordCountBound | firehose/firehose.go:202-218 | starting from at most 500 records, AddRecord leaves at most 500 when the flush's response is truthful |
| Properties.UntruthfulAnswerKeepsAll | firehose/firehose.go:329-351 | a flush of 500 records answered with a failure count of 1 while all 500 outcomes carry an error message is an Ok partial failure that keeps all 500 records |
| Properties.CountBoundNeedsTruthfulResponse | firehose/firehose.go:329-351 | a response reporting 1 failure while all 500 outcomes carry error messages keeps all 500 records, and the append makes 501 |
| Properties.SizeExampleIsWellFormed | firehose/firehose.go:37-43 | the 4 MiB example batch is accounted, within every limit, and its answer is truthful |
| Properties.SizeExampleFlush | firehose/firehose.go:336-355 | the example flush is Ok and keeps exactly the four full records, 4,096,000 bytes |
| Properties.SizeBoundNotKeptAfterPartialFailure | firehose/firehose.go:202-219 | from that well-formed state, AddRecord returns Ok with an accounted batch of 5,120,000 bytes, above 4,194,304 |
| Properties.PartialFailureKeepsFailedInOrder | firehose/firehose.go:336-355 | 2 failures of 5 at positions 1 and 3 with no overload code leave exactly those two records, in order, with their combined length, timer unchanged |
| KeyRewrite.ReplaceAll | firehose/firehose.go:238 | a lone "." becomes the whole replacement and any other single character stays; with a replacement free of the replaced character, none is left; a string without it is unchanged; a one-character replacement keeps the length |
| KeyRewrite.ReplaceAllConcat | firehose/firehose.go:238 | the replacement works piecewise over concatenation; with the one-character cases this fixes the result on every string |
| KeyRewrite.RewriteKeys | firehose/firehose.go:233-250 | the rewrite that `KeyRewrite.ReplaceDots` (replaceDots) applies with "." as the replaced character: maps stay maps with the same number of fields, in the same order; each string key becomes the key with every "." replaced by the whole replacement, every other key is kept, and each value is rewritten the same way; any value that is not a map is returned unchanged |
| KeyRewrite.ReplaceAllRoundTrip | firehose/firehose.go:238 | replacing a character by a fresh one and back restores the string |
| KeyRewrite.ReplaceDotsClearsDots | firehose/firehose.go:233-250 | with a replacement free of dots, no string key of any nested map keeps a dot |
| KeyRewrite.ReplaceDotsKeepsDotFree | firehose/firehose.go:233-250 | a record in which no string key reachable through maps has a dot is returned unchanged: keys of other types and dot-free string keys are put back as they were |
| KeyRewrite.ReplaceDotsRoundTrip | firehose/firehose.go:233-250 | with a one-character replacement no key contains, rewriting it back to "." restores the record |

## Left out

- Client construction, sessions, credentials, endpoint resolution and the process exit
  callback (firehose/firehose.go:73-178). These are SDK and environment calls.
- Timestamp formatting (firehose/firehose.go:184-192) is an input boolean. Its failure
  yields ERROR. Injecting the formatted time into the record is part of encoding.
- Record encoding before the newline (firehose/firehose.go:252-285) is an input: the
  encoded bytes or an error. This covers data keys, `DecodeMap`, log-key extraction
  and JSON marshalling. Their code is library code or not part of this model.
- The failure timer is a started/cleared flag. Its threshold check (`timer.Check()`,
  firehose/firehose.go:305) and the fatal exit it may trigger are not modelled. The
  timer's code is not part of this model.
- Logging throughout, and the error message texts. The kind of error a send returns is kept.
- The delivery stream name passed to the client.
- Properties.AddRecordCountBound: the count bound assumes a truthful response. This means a failure
  count equal to the number of outcomes that carry an error message.
  `CountBoundNeedsTruthfulResponse` shows the bound fails without it.
- Batcher.ProcessApiResponse: the requirement that no outcome with an error message lies past
  the end of the batch stands in for the Go index panic. It applies only on the
  partial-failure path, where the walk runs. It is slightly stronger than needed
  when an overload code ends the walk before such an outcome is reached.
- KeyRewrite.RewriteKeys: two keys that become equal after rewriting both stay in the ordered
  field list. In Go the map keeps one of them, depending on the unspecified iteration
  order, and also mutates the map while ranging over it.
- `fluent-bit-firehose.go`: the plugin registration glue. It is host integration, and
  it calls functions that are not part of this model.
