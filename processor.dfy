/** The per-object pipeline of the oldest layout (internal/processor/
    processor.go): application load balancer records of exactly 30 fields,
    converted and put on the single entry channel all targets share. The
    CSV reader is configured with `FieldsPerRecord = FieldCount()`, so it
    reports a record of any other length as a read error itself. */
module Processor {
  import opened Wrappers
  import opened Types
  import opened Schema
  import opened Fields
  import opened S3
  import opened Records

  type TimeParser = string -> Option<int>

  datatype EntryError =
    | WrongFieldCount(expected: nat, got: nat)  // "expected %d fields, got %d"
    | BadTimestamp(value: string)               // "parse timestamp: ..."

  /** What `recordToEntry` returns for a record. */
  function EntryFor(f: Fields, parse: TimeParser, record: seq<string>): (r: Result<LogEntry, EntryError>)
    ensures |record| != FieldCount() ==> r == Failure(WrongFieldCount(FieldCount(), |record|))
    ensures |record| == FieldCount() ==>
              && (r.Success? <==> parse(record[1]).Some?)
              && (r.Failure? ==> r == Failure(BadTimestamp(record[1])))
              && (r.Success? ==> r.value.timestamp == parse(record[1]).value)
  {
    if |record| != FieldCount() then Failure(WrongFieldCount(FieldCount(), |record|))
    else
      match parse(record[1])
      case None => Failure(BadTimestamp(record[1]))
      case Some(ts) => Success(LogEntry(Project(FieldNames, f.included, record, |record|), ts))
  }

  /** The keys of an entry are exactly the included names among the 30, and
      each carries the value at its own index. */
  lemma EntryData(f: Fields, parse: TimeParser, record: seq<string>)
    requires EntryFor(f, parse, record).Success?
    ensures EntryFor(f, parse, record).value.data.Keys == f.included * Names(FieldNames)
    ensures forall i :: 0 <= i < FieldCount() && Include(f, i) ==>
              EntryFor(f, parse, record).value.data[FieldNames[i]] == record[i]
  {
    var data := EntryFor(f, parse, record).value.data;
    ProjectKeys(FieldNames, f.included, record, |record|);
    assert data.Keys == f.included * Names(FieldNames) by {
      forall x | x in f.included * Names(FieldNames) ensures x in data.Keys {
        var i :| 0 <= i < |FieldNames| && FieldNames[i] == x;
        assert Included(FieldNames, f.included, i);
      }
    }
    FieldNamesDistinct();
    forall i | 0 <= i < FieldCount() && Include(f, i)
      ensures data[FieldNames[i]] == record[i]
    {
      ProjectValue(FieldNames, f.included, record, |record|, i);
    }
  }

  /** `recordToEntry`: check the length, parse field 1, copy the included
      values into the map one index at a time. */
  method RecordToEntry(f: Fields, parse: TimeParser, record: seq<string>) returns (r: Result<LogEntry, EntryError>)
    ensures r == EntryFor(f, parse, record)
  {
    if |record| != FieldCount() {
      return Failure(WrongFieldCount(FieldCount(), |record|));
    }
    var ts := parse(record[1]);
    if ts.None? {
      return Failure(BadTimestamp(record[1]));
    }
    var data: map<string, string> := map[];
    for i := 0 to |record|
      invariant data == Project(FieldNames, f.included, record, i)
    {
      if Include(f, i) {
        var (name, _) := FieldName(f, i);
        data := data[name := record[i]];
      }
    }
    return Success(LogEntry(data, ts.value));
  }

  function Convert(f: Fields, parse: TimeParser): Records.Convert<EntryError> {
    record => EntryFor(f, parse, record)
  }

  /** `csv.ErrFieldCount`, which the reader returns for a record of the wrong length. */
  const WrongNumberOfFields := "wrong number of fields"

  /** One read of the CSV reader with `FieldsPerRecord` set. */
  function CsvRead(item: ReadItem): (r: ReadItem)
    ensures r.Record? ==> |r.fields| == FieldCount()
  {
    if item.Record? && |item.fields| != FieldCount() then ReadError(WrongNumberOfFields) else item
  }

  /** The stream as the configured reader delivers it. */
  function ReaderView(items: seq<ReadItem>): (r: seq<ReadItem>)
    ensures |r| == |items|
    ensures forall k :: 0 <= k < |items| ==> r[k] == CsvRead(items[k])
  {
    seq(|items|, k requires 0 <= k < |items| => CsvRead(items[k]))
  }

  /** Because the reader already enforces the length, the length check of
      recordToEntry never fires inside parseRecords: the loop only ever stops
      at a read error or a bad timestamp. */
  lemma FieldCountCheckUnreachable(f: Fields, parse: TimeParser, items: seq<ReadItem>)
    ensures var p := Parsed(Convert(f, parse), ReaderView(items));
            p.err.Some? && p.err.value.Rejected? ==> p.err.value.error.BadTimestamp?
  {
    var view := ReaderView(items);
    var p := Parsed(Convert(f, parse), view);
    ParsedPrefix(Convert(f, parse), view);
    if p.err.Some? && p.err.value.Rejected? {
      var item := view[|p.entries|];
      assert |item.fields| == FieldCount();
    }
  }

  /** `parseRecords`: read, convert and send each record in order; stop at the
      first read or conversion error; nil at the end of the stream. */
  method ParseRecords(f: Fields, parse: TimeParser, items: seq<ReadItem>)
    returns (entries: seq<LogEntry>, err: Option<Stop<EntryError>>)
    ensures Parse(entries, err) == Parsed(Convert(f, parse), ReaderView(items))
  {
    ghost var convert := Convert(f, parse);
    ghost var view := ReaderView(items);
    entries, err := [], None;
    var i := 0;
    while i < |items|
      invariant 0 <= i <= |items| && |entries| == i
      invariant Parsed(convert, view)
                == Parse(entries + Parsed(convert, view[i..]).entries, Parsed(convert, view[i..]).err)
    {
      ParsedResume(convert, view, i, entries);
      var item := CsvRead(items[i]);
      assert item == view[i];
      match item
      case ReadError(msg) => {
        err := Some(ReadFailed(msg));
        return;
      }
      case Record(record) => {
        var r := RecordToEntry(f, parse, record);
        assert r == convert(record);
        if r.Failure? {
          err := Some(Rejected(r.error));
          return;
        }
        entries := entries + [r.value];
      }
      i := i + 1;
    }
    assert view[i..] == [];
  }

  /** `ProcessLogs`: only a failed `GetObject` is an error. Otherwise the
      parsed entries go on the shared channel in order, a parse error is
      logged, and nil is returned. */
  method ProcessLogs(f: Fields, parse: TimeParser, response: Result<seq<ReadItem>, string>)
    returns (err: Option<string>, sent: seq<LogEntry>)
    ensures err.Some? <==> response.Failure?
    ensures response.Failure? ==> err == Some(response.error) && sent == []
    ensures response.Success? ==> sent == Parsed(Convert(f, parse), ReaderView(response.value)).entries
  {
    if response.Failure? {
      return Some(response.error), [];
    }
    var parseErr;
    sent, parseErr := ParseRecords(f, parse, response.value);
    return None, sent;
  }
}
