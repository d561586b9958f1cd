/** The Kinesis Data Firehose output (internal/outputs/firehose.go). Each entry
    becomes a record holding its JSON followed by a newline; batches of at most
    500 records and 4,000,000 bytes go out in one `PutRecordBatch` each, in
    input order, and the outcome is only logged. */
module Firehose {
  import opened Wrappers
  import opened Types
  import opened Json
  import opened Batching

  const MaxRecords: nat := 500
  const MaxBatchSize: nat := 4_000_000

  datatype Record = Record(data: Bytes)

  datatype Firehose = Firehose(streamName: string)

  datatype PutRecordBatchInput = PutRecordBatchInput(deliveryStreamName: string, records: seq<Record>)

  /** What the call returned: an error, or the number of records it refused. */
  datatype PutOutcome = PutError(msg: string) | PutDone(failedPutCount: nat)

  /** What `send` logs about an outcome. */
  datatype Report = Quiet | PutFailed(msg: string) | PartialFailure(failed: nat, total: nat)

  /** The entry case before the cut: the JSON of the data plus '\n', or nothing
      when marshalling fails. */
  function ToRecord(enc: Marshal, e: LogEntry): (r: Option<Record>)
    ensures r.Some? <==> enc(StrMap(e.data)).Some?
    ensures r.Some? ==> |r.value.data| > 0 && r.value.data[|r.value.data| - 1] == Newline
    ensures r.Some? ==> r.value.data[..|r.value.data| - 1] == enc(StrMap(e.data)).value
  {
    match enc(StrMap(e.data))
    case None => None
    case Some(data) => Some(Record(data + [Newline]))
  }

  /** The size a record is charged: its data, newline included. */
  function RecordSize(r: Record): nat {
    |r.data|
  }

  function FhLimits(): Limits<Record> {
    Limits(MaxBatchSize, MaxRecords, RecordSize)
  }

  function Convert(enc: Marshal): LogEntry -> Option<Record> {
    e => ToRecord(enc, e)
  }

  /** The charged size of a batch is exactly the number of bytes it carries. */
  lemma {:induction false} SizeIsPayload(batch: seq<Record>)
    ensures Size(RecordSize, batch) == |Payload(batch)|
  {
    if batch != [] {
      SizeIsPayload(batch[..|batch| - 1]);
    }
  }

  /** The bytes a batch carries, records in order. */
  function Payload(batch: seq<Record>): Bytes {
    if batch == [] then [] else Payload(batch[..|batch| - 1]) + batch[|batch| - 1].data
  }

  /** `send`'s handling of the outcome: an error is reported, a positive
      refused count is reported with the batch's length, and nothing is
      retried either way. */
  function SendReport(records: seq<Record>, outcome: PutOutcome): (r: Report)
    ensures r.PutFailed? <==> outcome.PutError?
    ensures r.PartialFailure? <==> outcome.PutDone? && outcome.failedPutCount > 0
    ensures r.PartialFailure? ==> r.total == |records| && r.failed == outcome.failedPutCount
  {
    match outcome
    case PutError(msg) => PutFailed(msg)
    case PutDone(n) => if n > 0 then PartialFailure(n, |records|) else Quiet
  }

  /** `SendLogs` over a trace: one request per submitted batch, carrying it
      unchanged and unsorted. */
  method SendLogs(f: Firehose, enc: Marshal, events: seq<Event>)
    returns (consumed: nat, batches: seq<seq<Record>>, requests: seq<PutRecordBatchInput>)
    ensures consumed <= |events|
    ensures forall k :: 0 <= k < consumed - 1 ==> !Ends(events[k])
    ensures consumed < |events| ==> consumed > 0 && Ends(events[consumed - 1])
    ensures batches == Run(FhLimits(), Convert(enc), Initial(), events[..consumed]).sent
    ensures forall j :: 0 <= j < |batches| ==>
              1 <= |batches[j]| <= MaxRecords
              && (|batches[j]| >= 2 ==> |Payload(batches[j])| <= MaxBatchSize)
    ensures consumed > 0 && Ends(events[consumed - 1]) ==>
              Flatten(batches) == Kept(Convert(enc), events[..consumed])
    ensures |requests| == |batches|
    ensures forall j :: 0 <= j < |requests| ==> requests[j] == PutRecordBatchInput(f.streamName, batches[j])
  {
    var b := new Batcher(FhLimits(), Convert(enc));
    var before;
    consumed, before := b.SendLogs(events);
    batches := b.sent;
    forall j | 0 <= j < |batches| {
      SizeIsPayload(batches[j]);
    }
    if consumed > 0 && Ends(events[consumed - 1]) {
      RunDelivers(FhLimits(), Convert(enc), events[..consumed]);
    }
    requests := seq(|batches|, j requires 0 <= j < |batches| => PutRecordBatchInput(f.streamName, batches[j]));
  }
}
