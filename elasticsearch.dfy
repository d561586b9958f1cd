/** The Elasticsearch output (internal/outputs/elasticsearch.go): the bulk-API output with its own limits,
    5,000,000 bytes of entry JSON and 500 entries per batch. */
module Elasticsearch {
  import opened Types
  import opened Json
  import opened Batching
  import opened Bulk
  import opened Http

  const EsMaxBatchSize: nat := 5_000_000
  const EsMaxEvents: nat := 500

  /** `SendLogs` with this output's limits, one bulk request per submitted
      batch. */
  method SendLogs(b: BulkOutput, enc: Marshal, fmt: TimeFormat, urlOk: UrlCheck, answers: nat -> Outcome, events: seq<Event>)
    returns (consumed: nat, batches: seq<seq<LogEntry>>, attempts: seq<Attempt<BulkRequest>>)
    ensures consumed <= |events|
    ensures forall k :: 0 <= k < consumed - 1 ==> !Ends(events[k])
    ensures consumed < |events| ==> consumed > 0 && Ends(events[consumed - 1])
    ensures batches == Run(BulkLimits(enc, EsMaxBatchSize, EsMaxEvents), Keep(), Initial(), events[..consumed]).sent
    ensures forall j :: 0 <= j < |batches| ==>
              1 <= |batches[j]| <= EsMaxEvents
              && (|batches[j]| >= 2 ==> Size(EntrySize(enc), batches[j]) <= EsMaxBatchSize)
    ensures consumed > 0 && Ends(events[consumed - 1]) ==>
              Flatten(batches) == Kept(Keep(), events[..consumed])
    ensures |attempts| == |batches|
    ensures forall j :: 0 <= j < |attempts| ==>
              SentAs(b, enc, fmt, urlOk, batches[j],
                     FlushedByCancel(BulkLimits(enc, EsMaxBatchSize, EsMaxEvents), Keep(), events[..consumed], j),
                     answers(j), attempts[j])
    ensures forall j :: 0 <= j < |batches|
                        && FlushedByCancel(BulkLimits(enc, EsMaxBatchSize, EsMaxEvents), Keep(), events[..consumed], j) ==>
              j == |batches| - 1
  {
    consumed, batches, attempts := Bulk.SendLogs(b, enc, fmt, urlOk, answers, EsMaxBatchSize, EsMaxEvents, events);
  }
}
