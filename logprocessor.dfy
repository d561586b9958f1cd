/** The per-object pipeline of the current layout (internal/logprocessor/
    logprocessor.go), made sequential: records become entries through the
    field filter, the entries of one object fan out to every destination, and
    the command-line mode lists a prefix page by page. `time.Parse` with the
    RFC 3339 layout is a parameter from the text of a field to nanoseconds. */
module LogProcessor {
  import opened Wrappers
  import opened Types
  import opened Schema
  import opened FieldFilter
  import opened S3
  import opened Records

  type TimeParser = string -> Option<int>

  datatype EntryError =
    | TooShort(expected: nat, got: nat)  // "expected at least %d fields, got %d"
    | BadTimestamp(value: string)        // "parse timestamp: ..."

  /** Where the time field sits: index 2 for NLB, index 1 otherwise. */
  function TimeIndex(f: Filter): nat {
    if LBTypeOf(f) == NLB then 2 else 1
  }

  /** A filter whose schema reaches past its time index, so that a record of
      `TotalFields` values has a time field. */
  type TimedFilter = f: Filter | TimeIndex(f) < TotalFields(f) witness Filter(ALB, AlbFields, {})

  /** A filter built by NewFieldFilter is one, and its time field is "time". */
  lemma TimeIndexInSchema(f: Filter)
    requires WellFormed(f)
    ensures TimeIndex(f) < TotalFields(f) && f.fields[TimeIndex(f)] == "time"
  {
    SchemaShape();
  }

  /** What `recordToEntry` returns for a record. */
  function EntryFor(f: TimedFilter, parse: TimeParser, record: seq<string>): (r: Result<LogEntry, EntryError>)
    ensures |record| < TotalFields(f) ==> r == Failure(TooShort(TotalFields(f), |record|))
    ensures |record| >= TotalFields(f) ==>
              && (r.Success? <==> parse(record[TimeIndex(f)]).Some?)
              && (r.Failure? ==> r == Failure(BadTimestamp(record[TimeIndex(f)])))
              && (r.Success? ==> r.value.timestamp == parse(record[TimeIndex(f)]).value)
  {
    if |record| < TotalFields(f) then Failure(TooShort(TotalFields(f), |record|))
    else
      match parse(record[TimeIndex(f)])
      case None => Failure(BadTimestamp(record[TimeIndex(f)]))
      case Some(ts) => Success(LogEntry(Project(f.fields, f.included, record, |record|), ts))
  }

  /** The keys of an entry are the names of the included indices of the
      record, so no trailing extra field ever appears; with distinct names
      every included index carries its own value. */
  lemma EntryData(f: TimedFilter, parse: TimeParser, record: seq<string>)
    requires EntryFor(f, parse, record).Success?
    ensures var data := EntryFor(f, parse, record).value.data;
            data.Keys == set i | 0 <= i < |record| && Includes(f, i) :: f.fields[i]
    ensures var data := EntryFor(f, parse, record).value.data;
            Distinct(f.fields) ==>
              forall i :: 0 <= i < |record| && Includes(f, i) ==> f.fields[i] in data && data[f.fields[i]] == record[i]
  {
    ProjectKeys(f.fields, f.included, record, |record|);
    if Distinct(f.fields) {
      forall i | 0 <= i < |record| && Includes(f, i)
        ensures f.fields[i] in Project(f.fields, f.included, record, |record|)
        ensures Project(f.fields, f.included, record, |record|)[f.fields[i]] == record[i]
      {
        ProjectValue(f.fields, f.included, record, |record|, i);
      }
    }
  }

  /** With an empty field list an entry has one key per schema field. */
  lemma EntryAllFields(lbType: string, parse: TimeParser, record: seq<string>)
    requires FilterFor(lbType, "").Success?
    requires TimeIndex(FilterFor(lbType, "").value) < TotalFields(FilterFor(lbType, "").value)
    requires EntryFor(FilterFor(lbType, "").value, parse, record).Success?
    ensures |EntryFor(FilterFor(lbType, "").value, parse, record).value.data| == TotalFields(FilterFor(lbType, "").value)
  {
    var f := FilterFor(lbType, "").value;
    FilterForWellFormed(lbType, "");
    ProjectAll(f.fields, record);
  }

  /** `recordToEntry`: check the length, parse the time field, then copy the
      included values into the map one index at a time. */
  method RecordToEntry(f: TimedFilter, parse: TimeParser, record: seq<string>) returns (r: Result<LogEntry, EntryError>)
    ensures r == EntryFor(f, parse, record)
  {
    var minFields := TotalFields(f);
    if |record| < minFields {
      return Failure(TooShort(minFields, |record|));
    }
    var timeIdx := 1;
    if LBTypeOf(f) == NLB {
      timeIdx := 2;
    }
    var ts := parse(record[timeIdx]);
    if ts.None? {
      return Failure(BadTimestamp(record[timeIdx]));
    }
    var data: map<string, string> := map[];
    for i := 0 to |record|
      invariant data == Project(f.fields, f.included, record, i)
    {
      if Includes(f, i) {
        var (name, _) := Name(f, i);
        data := data[name := record[i]];
      }
    }
    return Success(LogEntry(data, ts.value));
  }

  /** The conversion `parseRecords` applies to each record. */
  function Convert(f: TimedFilter, parse: TimeParser): Records.Convert<EntryError> {
    record => EntryFor(f, parse, record)
  }

  /** Some record among the first `n` items has more fields than the schema. */
  ghost predicate ExtraBefore(f: Filter, items: seq<ReadItem>, n: nat)
    requires n <= |items|
  {
    n > 0 && (ExtraBefore(f, items, n - 1) || (items[n - 1].Record? && |items[n - 1].fields| > TotalFields(f)))
  }

  lemma {:induction false} ExtraBeforeIff(f: Filter, items: seq<ReadItem>, n: nat)
    requires n <= |items|
    ensures ExtraBefore(f, items, n) <==> exists k :: 0 <= k < n && items[k].Record? && |items[k].fields| > TotalFields(f)
  {
    if n > 0 {
      ExtraBeforeIff(f, items, n - 1);
    }
  }

  /** `parseRecords` over the record stream. `warnings` counts the warnings
      about extra fields: one if any record read had more fields than the
      schema, none otherwise. */
  method ParseRecords(f: TimedFilter, parse: TimeParser, items: seq<ReadItem>)
    returns (entries: seq<LogEntry>, err: Option<Stop<EntryError>>, ghost warnings: nat)
    ensures Parse(entries, err) == Parsed(Convert(f, parse), items)
    ensures Consumed(Parse(entries, err)) <= |items|
    ensures warnings == if ExtraBefore(f, items, Consumed(Parse(entries, err))) then 1 else 0
  {
    var expectedFields := TotalFields(f);
    var extraFieldsLogged := false;
    ghost var convert := Convert(f, parse);
    entries, err, warnings := [], None, 0;
    var i := 0;
    while i < |items|
      invariant 0 <= i <= |items| && |entries| == i
      invariant Parsed(convert, items)
                == Parse(entries + Parsed(convert, items[i..]).entries, Parsed(convert, items[i..]).err)
      invariant extraFieldsLogged == ExtraBefore(f, items, i)
      invariant warnings == if extraFieldsLogged then 1 else 0
    {
      ParsedResume(convert, items, i, entries);
      match items[i]
      case ReadError(msg) => {
        err := Some(ReadFailed(msg));
        assert ExtraBefore(f, items, i + 1) == ExtraBefore(f, items, i);
        return;
      }
      case Record(record) => {
        if !extraFieldsLogged && |record| > expectedFields {
          warnings := warnings + 1;
          extraFieldsLogged := true;
        }
        assert extraFieldsLogged == ExtraBefore(f, items, i + 1);
        var r := RecordToEntry(f, parse, record);
        assert r == convert(record);
        if r.Failure? {
          err := Some(Rejected(r.error));
          return;
        }
        entries := entries + [r.value];
      }
      i := i + 1;
    }
    assert items[i..] == [];
  }

  /** `ProcessLogs` for one object and `destinations` destinations. The response
      is the `GetObject` answer, its body already decompressed into records.
      Only a failed `GetObject` is an error: a parse error is logged and the
      entries before it are still delivered, each of them to every
      destination in parse order. `count` is the logged entry count. */
  method ProcessLogs(f: TimedFilter, parse: TimeParser, destinations: nat, response: Result<seq<ReadItem>, string>)
    returns (err: Option<string>, delivered: seq<seq<LogEntry>>, count: nat)
    ensures err.Some? <==> response.Failure?
    ensures response.Failure? ==> err == Some(response.error)
    ensures |delivered| == destinations
    ensures response.Failure? ==> count == 0 && forall c :: 0 <= c < destinations ==> delivered[c] == []
    ensures response.Success? ==>
              && count == |Parsed(Convert(f, parse), response.value).entries|
              && forall c :: 0 <= c < destinations ==> delivered[c] == Parsed(Convert(f, parse), response.value).entries
  {
    delivered := seq(destinations, _ => []);
    count := 0;
    if response.Failure? {
      return Some(response.error), delivered, count;
    }
    var entries, parseErr, _ := ParseRecords(f, parse, response.value);
    for j := 0 to |entries|
      invariant count == j && |delivered| == destinations
      invariant forall c :: 0 <= c < destinations ==> delivered[c] == entries[..j]
    {
      count := count + 1;
      for c := 0 to destinations
        invariant |delivered| == destinations
        invariant forall d :: 0 <= d < c ==> delivered[d] == entries[..j + 1]
        invariant forall d :: c <= d < destinations ==> delivered[d] == entries[..j]
      {
        delivered := delivered[c := delivered[c] + [entries[j]]];
      }
    }
    assert entries[..|entries|] == entries;
    return None, delivered, count;
  }

  datatype HandleError =
    | BadUrl(url: UrlError)                      // "parse S3 URL: ..."
    | ListError(msg: string)                     // "list objects: ..."
    | ObjectError(obj: S3ObjectInfo, msg: string)  // "s3://%s/%s: get object: ..."

  /** Every object of `objects` can be fetched from the store. */
  predicate Fetched(store: Store, objects: seq<S3ObjectInfo>) {
    forall o :: o in objects ==> store(o).Success?
  }

  /** `e` is the error of an object of `objects` that the store refused. */
  predicate FailedOn(store: Store, objects: seq<S3ObjectInfo>, e: HandleError) {
    e.ObjectError? && e.obj in objects && store(e.obj) == Failure(e.msg)
  }

  /** `processObject` for each scheduled object and `g.Wait`: nil iff every
      object was processed without error, else the error of a failed one. The
      group returns whichever error it saw first, so only membership is stated. */
  method ProcessAll(f: TimedFilter, parse: TimeParser, destinations: nat, store: Store, objects: seq<S3ObjectInfo>)
    returns (failed: Option<HandleError>)
    ensures failed.None? <==> Fetched(store, objects)
    ensures failed.Some? ==> FailedOn(store, objects, failed.value)
  {
    failed := None;
    for i := 0 to |objects|
      invariant failed.None? <==> forall k :: 0 <= k < i ==> store(objects[k]).Success?
      invariant failed.Some? ==>
                  && failed.value.ObjectError? && (exists k :: 0 <= k < i && failed.value.obj == objects[k])
                  && store(failed.value.obj) == Failure(failed.value.msg)
    {
      var err, _, _ := ProcessLogs(f, parse, destinations, store(objects[i]));
      if err.Some? && failed.None? {
        failed := Some(ObjectError(objects[i], err.value));
      }
    }
  }

  /** `HandleLambdaEvent`: schedule one object per event record, in order,
      then wait for them all. */
  method HandleLambdaEvent(f: TimedFilter, parse: TimeParser, destinations: nat, store: Store, records: seq<EventRecord>)
    returns (r: Result<(), HandleError>, scheduled: seq<S3ObjectInfo>)
    ensures |scheduled| == |records|
    ensures forall i :: 0 <= i < |records| ==> scheduled[i] == ObjectOf(records[i])
    ensures r.Success? <==> Fetched(store, scheduled)
    ensures r.Failure? ==> FailedOn(store, scheduled, r.error)
  {
    scheduled := [];
    for i := 0 to |records|
      invariant |scheduled| == i
      invariant forall k :: 0 <= k < i ==> scheduled[k] == ObjectOf(records[k])
    {
      scheduled := scheduled + [ObjectOf(records[i])];
    }
    var failed := ProcessAll(f, parse, destinations, store, scheduled);
    if failed.Some? {
      return Failure(failed.value), scheduled;
    }
    return Success(()), scheduled;
  }

  /** What `HandleS3URL` promises once the URL is parsed: the listing calls
      form a run ending at the first final page, every listed key in the
      bucket is scheduled, a listing error is returned as such, and
      otherwise the call succeeds iff every scheduled object can be fetched,
      failing with the error of one that cannot. */
  predicate Handled(store: Store, bucket: string, prefix: string, pages: seq<ListResponse>,
                    r: Result<(), HandleError>, requests: seq<ListRequest>, scheduled: seq<S3ObjectInfo>) {
    && ListRun(bucket, prefix, pages, requests)
    && scheduled == Objects(bucket, pages, |requests|)
    && (pages[|requests| - 1].ListFailed? ==> r == Failure(ListError(pages[|requests| - 1].msg)))
    && (pages[|requests| - 1].Listed? ==>
          && (r.Success? <==> Fetched(store, scheduled))
          && (r.Failure? ==> FailedOn(store, scheduled, r.error)))
  }

  /** `HandleS3URL`: parse the URL, list the prefix page by page scheduling
      every listed key in the bucket, then wait for the objects. A listing
      error is returned at once; the objects scheduled before it are still
      processed but their outcome is not reported. The `i`-th listing call
      receives `pages[i]`. */
  method HandleS3URL(f: TimedFilter, parse: TimeParser, destinations: nat, store: Store, url: string, pages: seq<ListResponse>)
    returns (r: Result<(), HandleError>, requests: seq<ListRequest>, scheduled: seq<S3ObjectInfo>)
    requires ParseS3URL(url).Success? ==> exists k :: 0 <= k < |pages| && Final(pages[k])
    ensures ParseS3URL(url).Failure? ==>
              r == Failure(BadUrl(ParseS3URL(url).error)) && requests == [] && scheduled == []
    ensures ParseS3URL(url).Success? ==>
              Handled(store, ParseS3URL(url).value.0, ParseS3URL(url).value.1, pages, r, requests, scheduled)
  {
    var parsed := ParseS3URL(url);
    if parsed.Failure? {
      return Failure(BadUrl(parsed.error)), [], [];
    }
    r, requests, scheduled := ListAndProcess(f, parse, destinations, store, parsed.value.0, parsed.value.1, pages);
  }

  /** The part of `HandleS3URL` after the URL is parsed. */
  method ListAndProcess(f: TimedFilter, parse: TimeParser, destinations: nat, store: Store,
                        bucket: string, prefix: string, pages: seq<ListResponse>)
    returns (r: Result<(), HandleError>, requests: seq<ListRequest>, scheduled: seq<S3ObjectInfo>)
    requires exists k :: 0 <= k < |pages| && Final(pages[k])
    ensures Handled(store, bucket, prefix, pages, r, requests, scheduled)
  {
    var listErr;
    scheduled, requests, listErr := ListObjects(bucket, prefix, pages);
    var failed := ProcessAll(f, parse, destinations, store, scheduled);
    if listErr.Some? {
      return Failure(ListError(listErr.value)), requests, scheduled;
    }
    if failed.Some? {
      return Failure(failed.value), requests, scheduled;
    }
    return Success(()), requests, scheduled;
  }
}
