# aws-lb-log-forwarder, modelled in Dafny

aws-lb-log-forwarder reads the gzip-compressed access logs that AWS load
balancers write to S3. It turns every space-separated record into a log entry
(field name to value, plus the record's timestamp) and forwards the entries
to one or more sinks. An object arrives either from an S3 event notification
(the Lambda entry point) or from listing an `s3://bucket/prefix` URL (the
command-line entry point).

The repository holds three generations of the same pipeline. The model covers
all three:

- **Oldest layout** (`internal/processor`, `internal/targets`):
  - a fixed list of 30 ALB fields, with records of exactly that length;
  - the objects of an event or prefix are collected first, then processed, and
    the failures are counted;
  - the sinks are "cloudwatch" and "stdout".
- **Middle layout** (`internal/destinations`): only the destination
  selection, with "cloudwatch", "splunk", "opensearch" and "stdout".
- **Current layout** (`internal/logprocessor`, `internal/outputs`):
  - a field filter for ALB (33 fields, time at index 1) or NLB (24 fields,
    time at index 2);
  - records must be at least as long as the schema, and extra trailing fields
    are ignored with one warning per object;
  - every entry fans out to every output;
  - five outputs, each batching by bytes, count and a ticker: CloudWatch
    Logs, Kinesis Data Firehose, the Splunk HTTP Event Collector,
    Elasticsearch and OpenSearch.

The modules follow this structure:

- `Text`: Go's `strings.Split`, `TrimSpace`, `Index` and `HasPrefix`.
- `Schema`: the shared projection of a record onto an include set.
- `Fields` and `FieldFilter`: the two field selections.
- `Records`: the shared `parseRecords` loop over a record stream.
- `S3`: URL parsing, the object store as an oracle, and `ListObjectsV2`
  pagination.
- `Processor` and `Handlers`: the oldest pipeline.
- `LogProcessor`: the current pipeline.
- `Batching`: the `SendLogs` select loop, as a `Batcher` class driven by a
  trace of events.
- `CloudWatch`, `Firehose`, `Splunk`, `Bulk`, `Elasticsearch` and
  `OpenSearch`: the sinks' framing and requests.
- `Http`: what the HTTP outputs see of `net/http`.
- `Selection`, `Outputs`, `Destinations` and `Targets`: the three `New`
  constructors.

Nothing external is called. Answers from outside the model are parameters:
- the store's `GetObject` answer;
- the `ListObjectsV2` pages;
- whether `http.NewRequestWithContext` accepts an output's URL, and what the server answers each post (module `Http`);
- whether a sink constructor succeeds;
- `time.Parse`, `json.Marshal` and RFC 3339 formatting.

### Where the code and its stated behaviour disagree

The model follows the code in each of these places:

- **Short records.** The `logprocessor_test.go` cases at lines 202-266 expect
  a short record to be accepted: a 10-field record succeeds, and "record too
  short" is the error text for a record that lacks the time field. The code instead rejects
  every record with fewer fields than `TotalFields()`, with "expected at least
  %d fields, got %d" (`internal/logprocessor/logprocessor.go` lines 253-256).
  `LogProcessor.EntryFor` states the code's rule.
  - As a consequence, the 30-field ALB samples in `logprocessor_test.go` and
    `e2e_test.go` are rejected under the 33-field schema.
- **ALB field count.** `fieldfilter_test.go` line 122 expects 30 ALB fields.
  The list has 33 (`FieldFilter.SchemaShape`).

## Model

| member | source | states |
|---|---|---|
| Types.UnixMilli | internal/outputs/cloudwatch.go:102-105 | the millisecond timestamp is the instant's nanoseconds rounded down to whole milliseconds |
| Types.UnixSeconds | internal/outputs/splunk.go:100-106 | the event time is the instant rounded down to whole seconds |
| Text.TrimLeft | internal/logprocessor/fieldfilter.go:120 | the result is a suffix of the input, all that was removed is white space, and the result does not start with white space |
| Text.TrimRight | internal/logprocessor/fieldfilter.go:120 | the result is a prefix of the input, all that was removed is white space, and the result does not end with white space |
| Text.TrimSpace | internal/logprocessor/fieldfilter.go:120 | the trimmed name neither starts nor ends with white space |
| Text.TrimSpaceInfix | internal/logprocessor/fieldfilter.go:120 | the trimmed name is an infix of the input with only white space cut on each side |
| Text.TrimSpaceKeeps | internal/processor/fields.go:64 | a name with no white space at its ends is unchanged by trimming |
| Text.IndexOf | internal/logprocessor/logprocessor.go:286 | -1 iff the character is absent, otherwise the first position holding it |
| Text.Split | internal/logprocessor/fieldfilter.go:119 | at least one piece, and no piece contains the separator |
| Text.JoinSplit | internal/logprocessor/fieldfilter.go:119 | joining the pieces with the separator gives back the input |
| Text.SplitConcat | internal/outputs/outputs.go:22 | splitting `a + sep + b` gives the pieces of `a` followed by those of `b` |
| Schema.ProjectKeys | internal/logprocessor/logprocessor.go:269-275 | the entry's keys are exactly the names of the included indices of the record |
| Schema.ProjectValue | internal/logprocessor/logprocessor.go:269-275 | with distinct names, each included index maps its name to its own value |
| Schema.ProjectAll | internal/logprocessor/fieldfilter.go:114-117 | including every schema name over a record that covers the schema gives one key per schema field |
| Schema.Trimmed | internal/logprocessor/fieldfilter.go:119-120 | one trimmed name per piece, in order |
| Schema.ListTokens | internal/logprocessor/fieldfilter.go:119-120 | one token per comma-separated piece |
| Schema.FirstUnknown | internal/logprocessor/fieldfilter.go:121-123 | none iff every name is known, otherwise the first listed name that is not known: every name before it is known |
| Schema.ListTokensAppend | internal/logprocessor/fieldfilter.go:119-120 | appending ",name" adds exactly the trimmed name as a last token |
| Schema.FirstUnknownConcat | internal/logprocessor/fieldfilter.go:119-123 | the first unknown name of a concatenation lies in its first part when there is one there |
| Schema.CollectNames | internal/logprocessor/fieldfilter.go:119-125 | the loop fails with the first unknown trimmed name, else returns the set of trimmed names |
| Schema.KnownNames | internal/logprocessor/fieldfilter.go:109-112 | the known set is exactly the names of the schema |
| FieldFilter.SchemaFor | internal/logprocessor/fieldfilter.go:93-101 | a schema exists exactly for "alb" and "nlb" |
| FieldFilter.SchemaShape | internal/logprocessor/fieldfilter.go:18-81 | ALB has 33 fields with "time" at index 1 and NLB has 24 with "time" at index 2 |
| FieldFilter.AlbFieldsDistinct | internal/logprocessor/fieldfilter.go:18-52 | no ALB field name occurs twice |
| FieldFilter.NlbFieldsDistinct | internal/logprocessor/fieldfilter.go:56-81 | no NLB field name occurs twice |
| FieldFilter.NoEmptyFieldName | internal/logprocessor/fieldfilter.go:18-81 | no schema has an empty field name |
| FieldFilter.FilterOver | internal/logprocessor/fieldfilter.go:103-127 | success iff the list is empty or every trimmed name is in the schema; the include set is the whole schema or the listed names; a failure names the first listed name outside the schema |
| FieldFilter.FilterFor | internal/logprocessor/fieldfilter.go:92-101 | the invalid-type error comes back exactly for a type without a schema |
| FieldFilter.NewFieldFilter | internal/logprocessor/fieldfilter.go:92-128 | the constructor returns the filter or error that FilterFor defines |
| FieldFilter.BuildFilter | internal/logprocessor/fieldfilter.go:103-127 | once the schema is chosen, the constructor's body returns what FilterOver defines |
| FieldFilter.Name | internal/logprocessor/fieldfilter.go:131-136 | the name at an in-range index with true, and ("", false) exactly when out of range |
| FieldFilter.Includes | internal/logprocessor/fieldfilter.go:139-144 | true iff the index is in range and its field name is in the include set |
| FieldFilter.TotalFields | internal/logprocessor/fieldfilter.go:147-149 | the schema's length, whatever is included: 33 for a built ALB filter, 24 for NLB |
| FieldFilter.LBTypeOf | internal/logprocessor/fieldfilter.go:152-154 | the type the filter was built for, "alb" or "nlb", whose schema is the filter's field list |
| FieldFilter.FilterForWellFormed | internal/logprocessor/fieldfilter.go:92-128 | a built filter carries the schema of its own type, whose names are distinct |
| FieldFilter.UnknownTypeRejected | internal/logprocessor/fieldfilter.go:99-100 | any type other than "alb" or "nlb" is refused, whatever the field list |
| FieldFilter.EmptyConfigIncludesAll | internal/logprocessor/fieldfilter.go:114-117 | an empty list includes every index of the schema |
| FieldFilter.IncludesIffListed | internal/logprocessor/fieldfilter.go:139-144 | with a list, an index is included iff it is in range and its name is one of the trimmed listed names |
| FieldFilter.IncludesOutOfRange | internal/logprocessor/fieldfilter.go:140-142 | no out-of-range index is included |
| FieldFilter.RepeatedNameIdempotent | internal/logprocessor/fieldfilter.go:119-125 | listing an already listed name again builds the same filter, or fails the same way |
| FieldFilter.TrailingCommaRejected | internal/logprocessor/fieldfilter.go:119-123 | a trailing comma leaves an empty name, which every schema refuses |
| FieldFilter.AlbOnlyNameRejectedForNlb | internal/logprocessor/fieldfilter.go:121-123 | an ALB-only field listed for NLB is refused, with that name |
| FieldFilter.UnlistedNameRejected | internal/logprocessor/fieldfilter.go:121-123 | a single name outside the schema is refused, with that name |
| FieldFilter.TotalFieldsByType | internal/logprocessor/fieldfilter.go:147-149 | a built filter has 33 fields for ALB and 24 for NLB |
| FieldFilter.NameInRange | internal/logprocessor/fieldfilter.go:131-136 | Name answers for exactly the indices below TotalFields, with the field at that index |
| Fields.FieldCountIs30 | internal/processor/fields.go:10-41 | the old list has 30 fields with "time" at index 1 |
| Fields.FieldNamesDistinct | internal/processor/fields.go:10-41 | no old field name occurs twice |
| Fields.FieldsFor | internal/processor/fields.go:50-72 | success iff the list is empty or every trimmed name is one of the 30; the include set is all of them or the listed names; a failure names the first listed unknown name |
| Fields.NewFields | internal/processor/fields.go:50-72 | the constructor returns what FieldsFor defines |
| Fields.FieldName | internal/processor/fields.go:75-80 | the name at an in-range index with true, and ("", false) exactly when out of range |
| Fields.Include | internal/processor/fields.go:83-88 | true iff the index is below 30 and its name is in the include set |
| Fields.FieldCount | internal/processor/fields.go:91-93 | the fixed list has 30 names |
| Fields.EmptyConfigIncludesAll | internal/processor/fields.go:58-61 | an empty list keeps every index |
| Fields.IncludeIffListed | internal/processor/fields.go:83-88 | with a list, an index is kept iff it is in range and its name is listed |
| Fields.IncludeOutOfRange | internal/processor/fields.go:84-86 | no out-of-range index is kept |
| Fields.UnknownNameRejected | internal/processor/fields.go:63-67 | a name outside the 30 is refused with that name |
| Records.Parsed | internal/logprocessor/logprocessor.go:229-249 | no more entries than items, and a nil error exactly when every item was read and converted |
| Records.ParsedPrefix | internal/logprocessor/logprocessor.go:229-249 | the loop sends the conversions of the longest prefix that reads and converts, in order; nil iff the stream ended; otherwise the error of the first item that did not |
| Records.ParsedConcat | internal/logprocessor/logprocessor.go:229-249 | after a clean stream, reading on extends the entries already sent |
| Records.ParsedResume | internal/processor/processor.go:108-122 | one more iteration: an error ends the parse with the entries so far, a converted record extends them |
| S3.ParseS3URL | internal/logprocessor/logprocessor.go:280-292 | the missing-scheme error exactly without "s3://"; the missing-separator error exactly when no '/' follows it; otherwise a bucket without '/' that rebuilds the URL with the prefix |
| S3.ParseS3URLOfParts | internal/processor/handlers.go:104-116 | a URL built from a bucket without '/' and any prefix parses back into exactly those parts |
| S3.InBucket | internal/logprocessor/logprocessor.go:124-128 | one object per listed key, in order, each in the requested bucket |
| S3.ObjectsPrefix | internal/logprocessor/logprocessor.go:114-138 | the objects of the first n pages do not depend on later pages |
| S3.ObjectsInBucket | internal/logprocessor/logprocessor.go:124-132 | an object is listed iff it is in the requested bucket and its key is on one of the pages read |
| S3.Requests | internal/logprocessor/logprocessor.go:115-119 | one listing call per page read |
| S3.RequestsAt | internal/logprocessor/logprocessor.go:113-137 | each call asks for the bucket and prefix with the token the page before it left, none for the first |
| S3.ListRunUnique | internal/logprocessor/logprocessor.go:134-136 | the calls the loop makes are determined by the pages: it stops at the first final page |
| S3.ListObjects | internal/logprocessor/logprocessor.go:113-138 | one call per page up to the first final one, each with the right token; the listing error iff that page is one; the objects of the pages read, in order |
| S3.AppendPage | internal/processor/handlers.go:50-55 | the page's objects are appended after those already collected |
| Processor.EntryFor | internal/processor/processor.go:125-144 | wrong length is refused with the expected and actual counts; otherwise success iff field 1 parses, with that timestamp |
| Processor.EntryData | internal/processor/processor.go:135-141 | the entry's keys are the included names among the 30, each with the value at its index |
| Processor.RecordToEntry | internal/processor/processor.go:125-144 | the map-building loop returns what EntryFor defines |
| Processor.CsvRead | internal/processor/processor.go:106 | the configured reader only yields records of exactly FieldCount fields |
| Processor.ReaderView | internal/processor/processor.go:104-109 | the stream the reader delivers applies the length check to each item |
| Processor.FieldCountCheckUnreachable | internal/processor/processor.go:126-128 | behind the configured reader, a conversion error is always a bad timestamp, never a wrong length |
| Processor.ParseRecords | internal/processor/processor.go:103-123 | the entries sent and the error returned are those of the longest readable, convertible prefix of the reader's stream |
| Processor.ProcessLogs | internal/processor/processor.go:54-101 | an error iff GetObject fails; otherwise the parsed entries are sent in order and a parse error is only logged |
| Handlers.FailedObjectsExactly | internal/processor/handlers.go:92-96 | an object is counted as failed iff it was listed and its processing fails |
| Handlers.ProcessObjects | internal/processor/handlers.go:66-102 | the failed objects are collected, and the call fails with their number iff there is one |
| Handlers.HandleLambdaEvent | internal/processor/handlers.go:19-28 | one object per event record, in order; the result is processObjects' |
| Handlers.HandleS3URL | internal/processor/handlers.go:31-63 | a bad URL is refused first; otherwise the listing loop's calls, a listing error before any processing, or the failure count of the listed objects |
| Handlers.ListThenProcess | internal/processor/handlers.go:37-63 | after parsing: the listing calls, a listing error with nothing processed, or all listed objects processed and their failures counted |
| LogProcessor.TimeIndexInSchema | internal/logprocessor/logprocessor.go:258-262 | a filter built by NewFieldFilter has its time index inside the schema, and the field there is "time" |
| LogProcessor.EntryFor | internal/logprocessor/logprocessor.go:252-278 | a record shorter than the schema is refused with both counts; otherwise success iff the time field parses, with that timestamp |
| LogProcessor.EntryData | internal/logprocessor/logprocessor.go:269-275 | the keys are names of included indices of the record, so no extra field appears; each has its own value |
| LogProcessor.EntryAllFields | internal/logprocessor/logprocessor.go:269-275 | with an empty field list an entry has one key per schema field |
| LogProcessor.RecordToEntry | internal/logprocessor/logprocessor.go:252-278 | the length check, the time index choice and the map loop return what EntryFor defines |
| LogProcessor.ExtraBeforeIff | internal/logprocessor/logprocessor.go:238-242 | an extra-field record came before position n iff some record there is longer than the schema |
| LogProcessor.ParseRecords | internal/logprocessor/logprocessor.go:221-250 | the entries and error are those of the longest readable, convertible prefix, and one warning is logged iff a record read had more fields than the schema |
| LogProcessor.ProcessLogs | internal/logprocessor/logprocessor.go:153-219 | an error iff GetObject fails; otherwise every destination receives all parsed entries, in order, and the logged count is their number |
| LogProcessor.ProcessAll | internal/logprocessor/logprocessor.go:143-150 | no error iff every object can be fetched; an error is that of a listed object the store refused |
| LogProcessor.HandleLambdaEvent | internal/logprocessor/logprocessor.go:86-101 | one object per event record, in order; success iff every one can be fetched, else the error of one that cannot |
| LogProcessor.HandleS3URL | internal/logprocessor/logprocessor.go:104-141 | a bad URL is refused; otherwise the listing calls, every listed key scheduled, a listing error returned as such, or the fetch outcome of the scheduled objects |
| LogProcessor.ListAndProcess | internal/logprocessor/logprocessor.go:110-140 | after parsing: the listing run and its objects, a listing error, or success iff every scheduled object can be fetched |
| Batching.Cut | internal/outputs/cloudwatch.go:109-111 | a batch is cut before an item exactly when it is non-empty and the item would take it past the byte or count limit |
| Batching.Flush | internal/outputs/cloudwatch.go:75-82 | the pending batch becomes empty; it is submitted after the earlier batches exactly when it was non-empty |
| Batching.Next | internal/outputs/cloudwatch.go:84-119 | one select turn never takes back a submitted batch, and a close or a cancel flushes and returns |
| Batching.Run | internal/outputs/cloudwatch.go:84-119 | over a trace the submitted batches only grow, and the loop has returned iff some event is a close or a cancel |
| Batching.SizeAppend | internal/outputs/cloudwatch.go:113-114 | the running size grows by exactly the appended item's size |
| Batching.FlushGood | internal/outputs/cloudwatch.go:75-82 | a flush empties the pending batch and keeps every submitted batch within the limits |
| Batching.FlushFlatten | internal/outputs/cloudwatch.go:75-82 | a flush moves the pending items, in order, behind those submitted |
| Batching.AppendGood | internal/outputs/cloudwatch.go:109-114 | the cut rule keeps every batch within the limits, so only a lone item may pass the byte limit |
| Batching.NextFlatten | internal/outputs/cloudwatch.go:84-119 | one turn of the select adds exactly the event's item, if any, to the items submitted and pending |
| Batching.NextGood | internal/outputs/cloudwatch.go:84-119 | one turn keeps the limits, and ends the loop iff the event is a close or a cancel |
| Batching.RunGood | internal/outputs/cloudwatch.go:84-119 | over a trace, every submitted batch is non-empty and within the limits, and the loop has returned iff the last event ends it |
| Batching.RunFlatten | internal/outputs/cloudwatch.go:84-119 | the submitted then pending items are the kept items of the trace, in order |
| Batching.RunDelivers | internal/outputs/cloudwatch.go:86-94 | after a close or a cancel, the submitted batches hold exactly the kept items, in order, with nothing lost or duplicated |
| Batching.AppendForced | internal/outputs/cloudwatch.go:109-111 | each cut is forced by the item that follows it |
| Batching.RunGreedy | internal/outputs/cloudwatch.go:107-114 | without ticks or ends, every cut was forced: the next item would have broken a limit |
| Batching.Batcher.constructor | internal/outputs/cloudwatch.go:69-70 | an empty batch of size 0 and nothing submitted |
| Batching.Batcher.DoFlush | internal/outputs/cloudwatch.go:75-82 | the state becomes Flush of the old state, with the running size kept equal to the batch size |
| Batching.Batcher.Receive | internal/outputs/cloudwatch.go:107-114 | the state becomes Append of the old state, cutting by the running size |
| Batching.Batcher.Step | internal/outputs/cloudwatch.go:85-118 | the state becomes Next of the old state and the event |
| Batching.Batcher.SendLogs | internal/outputs/cloudwatch.go:68-120 | events are taken up to and including the first close or cancel, the state becomes Run over them, and it reports how many batches were submitted before the last event |
| Batching.CancelFlushesLast | internal/outputs/cloudwatch.go:86-88 | a final cancellation flushes at most one batch, the last submitted, and does so exactly when a batch was pending |
| CloudWatch.ToEvent | internal/outputs/cloudwatch.go:96-105 | an event iff the data marshals, carrying that JSON and the instant in milliseconds |
| CloudWatch.SortByTimestamp | internal/outputs/cloudwatch.go:123-125 | the events end up ordered by timestamp and are a permutation of the batch |
| CloudWatch.SinkInto | internal/outputs/cloudwatch.go:123-125 | one insertion step extends the sorted prefix by one, as a permutation |
| CloudWatch.Send | internal/outputs/cloudwatch.go:122-135 | one put to the configured group and stream, holding the batch sorted by timestamp |
| CloudWatch.SendLogs | internal/outputs/cloudwatch.go:17-21 | batches of 1 to 10,000 events, over 1,048,576 bytes only when alone; all converted entries delivered in order after an end; one sorted put per batch |
| CloudWatch.SendAll | internal/outputs/cloudwatch.go:79 | one put per flushed batch, in order |
| CloudWatch.OversizeEventSentAlone | internal/outputs/cloudwatch.go:109-114 | an event over the byte limit by itself is still put, in a batch of its own |
| CloudWatch.CutsAreForced | internal/outputs/cloudwatch.go:107-111 | without ticks, every batch was cut only because the next event would have broken a limit |
| CloudWatch.Contains | internal/outputs/cloudwatch.go:145-149 | true iff the name is among the described names |
| CloudWatch.EnsureLogGroup | internal/outputs/cloudwatch.go:137-156 | a describe error is returned with no create; no create when an exact match exists; otherwise exactly one create, whose error is returned |
| CloudWatch.EnsureLogStream | internal/outputs/cloudwatch.go:158-179 | the same decision for the stream within its group |
| Firehose.ToRecord | internal/outputs/firehose.go:74-82 | a record iff the data marshals, holding that JSON followed by one '\n' |
| Firehose.SizeIsPayload | internal/outputs/firehose.go:82-89 | a batch's charged size is exactly its byte count |
| Firehose.SendReport | internal/outputs/firehose.go:97-110 | an error is reported, a positive refused count is reported with the batch length, and nothing is retried |
| Firehose.SendLogs | internal/outputs/firehose.go:15-19 | batches of 1 to 500 records, over 4,000,000 bytes only when alone; all marshalled entries delivered in order after an end; one request per batch to the stream |
| Splunk.OmitEmpty | internal/outputs/splunk.go:33-35 | an omitempty member is present iff its value is non-empty |
| Splunk.Envelope | internal/outputs/splunk.go:31-37 | the JSON has "time" first and "event" last, with source, sourcetype and index only when non-empty |
| Splunk.ToEvent | internal/outputs/splunk.go:100-106 | the event time in whole seconds, the entry's data, and the configured source, sourcetype and index |
| Splunk.BodySize | internal/outputs/splunk.go:109-116 | a batch's charged size is exactly the length of the body it is posted as |
| Splunk.WriteBody | internal/outputs/splunk.go:125-129 | the body is the envelopes' JSON concatenated in batch order, with no separator |
| Splunk.Send | internal/outputs/splunk.go:124-150 | nothing is posted iff the endpoint does not parse; otherwise a POST to the endpoint with the token and JSON headers and the batch's body, answered as `client.Do` answers on its context, so a cancelled context fails it |
| Splunk.CancelledSendFails | internal/outputs/splunk.go:131-144 | a batch sent on a cancelled context is posted and fails, and the failure is logged |
| Splunk.SendReport | internal/outputs/splunk.go:140-149 | a transport error is logged; a response is silent exactly when its status is 200 and otherwise logged with its status |
| Splunk.SendLogs | internal/outputs/splunk.go:72-122 | batches of 1 to 100 events, with a body of at most 1,000,000 bytes unless alone; after an end every kept event is handed to `send`; one `send` per batch, posting nothing iff the endpoint does not parse; only the last batch, when a cancel flushed it, is sent on the cancelled context |
| Splunk.SendFlushes | internal/outputs/splunk.go:76-91 | one `send` per flushed batch, and exactly the batches from the final cancel's flush on go out on the cancelled context, at most the last one |
| Splunk.SendAll | internal/outputs/splunk.go:83 | one `send` per flushed batch, in order, posting a POST with the Splunk token and JSON headers and the batch's body iff the endpoint parses; the batches from a given index on are sent on a cancelled context |
| Splunk.KeptAll | internal/outputs/splunk.go:94-116 | no entry is dropped: one event per entry, in order |
| Bulk.CopyDocument | internal/outputs/elasticsearch.go:122-126 | the document has the data's keys plus "@timestamp", set to the formatted instant, overriding a data key of that name |
| Bulk.LinesShape | internal/outputs/elasticsearch.go:110-131 | two lines per entry, in order: the index action, then the entry's document |
| Bulk.LinesEndInNewline | internal/outputs/elasticsearch.go:119-130 | every line of the body ends in '\n' |
| Bulk.WriteBody | internal/outputs/elasticsearch.go:109-131 | the body is the lines concatenated |
| Bulk.Auth | internal/outputs/elasticsearch.go:142-144 | basic auth is set iff both the username and the password are non-empty |
| Bulk.Send | internal/outputs/elasticsearch.go:107-156 | nothing is posted iff endpoint + "/_bulk" does not parse; otherwise a POST there with the NDJSON content type, the auth rule and the bulk body, answered as `client.Do` answers on its context |
| Bulk.CancelledSendFails | internal/outputs/elasticsearch.go:134-150 | a batch sent on a cancelled context is posted and fails, and the failure is logged |
| Bulk.SendReport | internal/outputs/elasticsearch.go:146-155 | a transport error is logged; a response is silent exactly when its status is below 400 and otherwise logged with its status |
| Bulk.SendLogs | internal/outputs/elasticsearch.go:63-105 | batches within the given limits; after an end all entries are handed to `send`, in order; one `send` per batch, posting nothing iff the URL does not parse; only the last batch, when a cancel flushed it, is sent on the cancelled context |
| Bulk.Batch | internal/outputs/elasticsearch.go:63-105 | the select loop's batches within the limits, all entries submitted in order after an end, and the count submitted before the last event |
| Bulk.SendFlushes | internal/outputs/elasticsearch.go:67-82 | one `send` per flushed batch, and exactly the batches from the final cancel's flush on go out on the cancelled context, at most the last one |
| Bulk.SendAll | internal/outputs/elasticsearch.go:74 | one `send` per flushed batch, in order, each a complete bulk request iff the URL parses; the batches from a given index on are sent on a cancelled context |
| Elasticsearch.SendLogs | internal/outputs/elasticsearch.go:17-20 | batches of 1 to 500 entries, over 5,000,000 bytes only when alone; Bulk.SendLogs' promises on what `send` posts and on the cancel flush |
| OpenSearch.SendLogs | internal/outputs/opensearch.go:17-20 | batches of 1 to 500 entries, over 5,000,000 bytes only when alone; Bulk.SendLogs' promises on what `send` posts and on the cancel flush |
| Selection.SelectedConcat | internal/outputs/outputs.go:22-53 | earlier names give earlier sinks, and a repeated name a repeated sink |
| Selection.SelectedMembers | internal/outputs/outputs.go:22-53 | a sink is built iff some name is non-empty, known, and its constructor succeeds |
| Selection.New | internal/outputs/outputs.go:19-60 | one outcome per piece; the built sinks in order, or the "none configured" error iff there are none |
| Selection.Build | internal/outputs/outputs.go:22-53 | the loop classifies each trimmed piece and keeps the built sinks in order |
| Selection.Decide | internal/outputs/outputs.go:23-50 | an empty name is skipped, an unknown one warned about, a failed constructor warned about, and only the rest built |
| Selection.ClassifyBuilt | internal/outputs/outputs.go:24-52 | a name is built iff it is non-empty, recognised, and its constructor succeeds, and then it is the recognised kind |
| Selection.NothingListed | internal/outputs/outputs.go:55-57 | a configuration of separators and white space only builds nothing |
| Outputs.Recognise | internal/outputs/outputs.go:31-45 | exactly six names are known, and "elasticsearch" and "opensearch" select the same constructor |
| Outputs.New | internal/outputs/outputs.go:19-60 | the outputs built, in configuration order, or "no valid outputs configured" iff none |
| Outputs.StdoutSucceeds | internal/outputs/outputs.go:40-41 | a configuration naming "stdout" always builds at least that output |
| Destinations.Recognise | internal/destinations/destinations.go:31-43 | exactly cloudwatch, splunk, opensearch and stdout are known |
| Destinations.New | internal/destinations/destinations.go:19-58 | the destinations built, in configuration order, or "no valid destinations configured" iff none |
| Destinations.UnknownSelectNothing | internal/destinations/destinations.go:40-42 | names this layout does not know, such as firehose and elasticsearch, select nothing |
| Targets.Recognise | internal/targets/targets.go:31-39 | exactly cloudwatch and stdout are known |
| Targets.New | internal/targets/targets.go:19-54 | the targets built, in configuration order, or "no valid targets configured" iff none |
| Targets.TargetsFromKnownNames | internal/targets/targets.go:31-46 | every target built comes from a "cloudwatch" or "stdout" token |

## Left out

- Gzip decompression, `io.Pipe` and the CSV tokenizer: an object's content is given as the stream of items the reader yields, records or read errors, and the end of the sequence is `io.EOF`.
- `time.Parse`, `Time.Format(time.RFC3339Nano)` and `json.Marshal`: these are parameters. JSON escaping and the members' byte layout are not modelled; a value is marshalled by the given function.
- Goroutines, channels, `select`, the ticker, `errgroup` and the semaphore: each `SendLogs` runs over a trace of events (entry, tick, close, cancel), and the fan-out and object processing are sequential.
- Remote calls (`GetObject`, `ListObjectsV2`, `PutLogEvents`, `PutRecordBatch`, HTTP requests) are not made. Their answers are parameters, and the requests are returned for inspection.
- Sends happen after the trace is batched. A send's outcome never feeds back into the batching, as in the code.
- The sink constructors and `internal/outputs/env.go` read the environment. Whether a constructor succeeds is a parameter. `main.go` and the stdout sinks are not part of this model.
- Logging (`slog`) is not modelled, except the extra-field warning, which is counted.
- Splunk.SendLogs: the response is only logged (`Splunk.SendReport`), and a failed post is neither retried nor returned.
- Bulk.SendLogs: the response is only logged (`Bulk.SendReport`), and a failed post is neither retried nor returned.
- `Http.Do` states one fact about `net/http` rather than modelling it: `client.Do` on a request whose context is already cancelled fails without sending. The model relies on this for the cancel flush, where Splunk and the bulk outputs pass the cancelled context to `send` (`splunk.go` line 83, `elasticsearch.go` and `opensearch.go` line 74). Their last batch is then lost. CloudWatch and Firehose do not pass the context to their calls, so their cancel flush is a real attempt. This was read from the code, not executed.
- Strings are sequences of characters, so a length in bytes is modelled as a length in characters where the code measures a Go `string`. Payloads that the code measures in bytes (`json.Marshal` output) are byte sequences.
- LogProcessor.HandleS3URL: requires that some listed page is final (an error or not truncated), because without one the Go loop never ends. Handlers.HandleS3URL has the same requirement.
- LogProcessor.ProcessAll: objects are processed one after another, so the model does not capture the cancellation across objects. The first failing object cancels the group's context (`logprocessor.go` lines 87, 110 and 144), and every in-flight object's outputs return on it (`logprocessor.go` line 189, `cloudwatch.go` line 86). After that nothing drains their channels, so the fan-out at `logprocessor.go` line 207 may block once a buffer fills, and `g.Wait` never returns. The model returns the error instead.
- LogProcessor.ProcessLogs: promises that every destination receives every parsed entry. In the code, a cancellation from another object's failure stops the destinations early, and the fan-out can then block, as described for ProcessAll.
- LogProcessor.HandleLambdaEvent: inherits ProcessAll's gap when one object fails while others are in flight: the cancellation and the possible block are not modelled.
- LogProcessor.ListAndProcess: inherits ProcessAll's gap when one object fails while others are in flight: the cancellation and the possible block are not modelled.
- LogProcessor.HandleS3URL: inherits ProcessAll's gap through ListAndProcess.
- LogProcessor.ProcessAll: `errgroup.Wait` returns the first error to happen, which depends on scheduling. The model promises only that the error is that of some scheduled object the store refused.
- Handlers.ProcessObjects: the errors arrive on a channel in completion order. Only their number is returned, so the model keeps the failed objects in list order.
- CloudWatch.SortByTimestamp: `sort.Slice` is not stable. The model promises order by timestamp and a permutation, not the relative order of equal timestamps.
- `internal/destinations/stdout.go` and the standard-output sinks of the other layouts only print. They are not part of this model beyond the rule that their constructor cannot fail.
- The `New` constructors of `internal/logprocessor/logprocessor.go` (lines 45-83) read `LB_TYPE` and `BUFFER_SIZE` from the environment. They are not part of this model. The field filter they build is taken as a parameter.
- The shared entry channel of the oldest layout (`internal/processor/processor.go` lines 82-91): every target reads from one channel, so which target receives which entry depends on scheduling. Processor.ProcessLogs returns the sequence put on the channel, not the share each target receives.
