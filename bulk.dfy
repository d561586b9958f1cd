/** The bulk-API output shared, line for line, by
    internal/outputs/elasticsearch.go and internal/outputs/opensearch.go: the
    batch holds the entries themselves, charged the length of their data's
    JSON, and `send` posts an NDJSON body of an action line and a document
    line per entry to `endpoint + "/_bulk"`. The two files differ only in
    names and in the environment they read; their limits are passed in. */
module Bulk {
  import opened Wrappers
  import opened Types
  import opened Json
  import opened Batching
  import opened Http

  /** An output's configuration. */
  datatype BulkOutput = BulkOutput(endpoint: string, index: string, username: string, password: string)

  datatype BulkRequest = BulkRequest(
    verb: string, url: string, contentType: string, basicAuth: Option<(string, string)>, body: Bytes)

  /** `Time.Format(time.RFC3339Nano)`, not modelled. */
  type TimeFormat = int -> string

  const TimestampKey := "@timestamp"

  /** The action object `{"index": {"_index": index}}`. */
  function Action(index: string): Value {
    Obj([Member("index", Obj([Member("_index", Str(index))]))])
  }

  /** The document: the data with `@timestamp` set, overriding a data key of
      that name. */
  function Document(e: LogEntry, fmt: TimeFormat): map<string, string> {
    e.data[TimestampKey := fmt(e.timestamp)]
  }

  /** The copy loop of `send`, then the timestamp. */
  method CopyDocument(e: LogEntry, fmt: TimeFormat) returns (doc: map<string, string>)
    ensures doc.Keys == e.data.Keys + {TimestampKey}
    ensures doc[TimestampKey] == fmt(e.timestamp)
    ensures forall k :: k in e.data && k != TimestampKey ==> doc[k] == e.data[k]
    ensures doc == Document(e, fmt)
  {
    doc := map[];
    var rest := e.data.Keys;
    while rest != {}
      invariant rest <= e.data.Keys
      invariant doc.Keys == e.data.Keys - rest
      invariant forall k :: k in doc ==> doc[k] == e.data[k]
      decreases rest
    {
      var k :| k in rest;
      doc := doc[k := e.data[k]];
      rest := rest - {k};
    }
    doc := doc[TimestampKey := fmt(e.timestamp)];
  }

  function ActionLine(enc: Marshal, index: string): Bytes {
    MarshalOrNil(enc, Action(index)) + [Newline]
  }

  function DocumentLine(enc: Marshal, fmt: TimeFormat, e: LogEntry): Bytes {
    MarshalOrNil(enc, StrMap(Document(e, fmt))) + [Newline]
  }

  /** The body's lines, in batch order. */
  function Lines(enc: Marshal, fmt: TimeFormat, index: string, batch: seq<LogEntry>): seq<Bytes> {
    if batch == [] then []
    else Lines(enc, fmt, index, batch[..|batch| - 1])
         + [ActionLine(enc, index), DocumentLine(enc, fmt, batch[|batch| - 1])]
  }

  function Concat(lines: seq<Bytes>): Bytes {
    if lines == [] then [] else Concat(lines[..|lines| - 1]) + lines[|lines| - 1]
  }

  lemma ConcatAppendPair(lines: seq<Bytes>, a: Bytes, d: Bytes)
    ensures Concat(lines + [a, d]) == Concat(lines) + a + d
  {
    assert (lines + [a, d])[..|lines| + 1] == lines + [a];
    assert (lines + [a])[..|lines|] == lines;
  }

  /** Two lines per entry, in batch order: the action, then the entry's
      document. */
  lemma {:induction false} LinesShape(enc: Marshal, fmt: TimeFormat, index: string, batch: seq<LogEntry>)
    ensures |Lines(enc, fmt, index, batch)| == 2 * |batch|
    ensures forall i :: 0 <= i < |batch| ==>
              && Lines(enc, fmt, index, batch)[2 * i] == ActionLine(enc, index)
              && Lines(enc, fmt, index, batch)[2 * i + 1] == DocumentLine(enc, fmt, batch[i])
  {
    if batch != [] {
      var init := batch[..|batch| - 1];
      LinesShape(enc, fmt, index, init);
      var prev := Lines(enc, fmt, index, init);
      var ls := Lines(enc, fmt, index, batch);
      assert ls == prev + [ActionLine(enc, index), DocumentLine(enc, fmt, batch[|batch| - 1])];
      forall i | 0 <= i < |batch|
        ensures ls[2 * i] == ActionLine(enc, index) && ls[2 * i + 1] == DocumentLine(enc, fmt, batch[i])
      {
        if i < |init| {
          assert batch[i] == init[i];
          assert ls[2 * i] == prev[2 * i] && ls[2 * i + 1] == prev[2 * i + 1];
        }
      }
    }
  }

  /** Every line of the body ends in '\n'. */
  lemma {:induction false} LinesEndInNewline(enc: Marshal, fmt: TimeFormat, index: string, batch: seq<LogEntry>)
    ensures forall l :: l in Lines(enc, fmt, index, batch) ==> |l| > 0 && l[|l| - 1] == Newline
  {
    if batch != [] {
      LinesEndInNewline(enc, fmt, index, batch[..|batch| - 1]);
      var prev := Lines(enc, fmt, index, batch[..|batch| - 1]);
      var a, d := ActionLine(enc, index), DocumentLine(enc, fmt, batch[|batch| - 1]);
      assert Lines(enc, fmt, index, batch) == prev + [a, d];
      assert forall l :: l in prev + [a, d] ==> l in prev || l == a || l == d;
    }
  }

  /** The body loop of `send`. */
  method WriteBody(enc: Marshal, fmt: TimeFormat, index: string, batch: seq<LogEntry>) returns (buf: Bytes)
    ensures buf == Concat(Lines(enc, fmt, index, batch))
  {
    buf := [];
    for i := 0 to |batch|
      invariant buf == Concat(Lines(enc, fmt, index, batch[..i]))
    {
      assert batch[..i + 1][..i] == batch[..i];
      var actionData := MarshalOrNil(enc, Action(index));
      buf := buf + actionData + [Newline];
      var doc := CopyDocument(batch[i], fmt);
      var docData := MarshalOrNil(enc, StrMap(doc));
      buf := buf + docData + [Newline];
      ConcatAppendPair(Lines(enc, fmt, index, batch[..i]), ActionLine(enc, index), DocumentLine(enc, fmt, batch[i]));
    }
    assert batch[..|batch|] == batch;
  }

  /** The credentials `send` sets, if any. */
  function Auth(b: BulkOutput): (r: Option<(string, string)>)
    ensures r.Some? <==> b.username != "" && b.password != ""
    ensures r.Some? ==> r.value == (b.username, b.password)
  {
    if b.username != "" && b.password != "" then Some((b.username, b.password)) else None
  }

  /** `send`: build the request to the bulk endpoint, which fails on a URL
      that does not parse and then posts nothing; otherwise post the NDJSON
      body on the given context. */
  method Send(b: BulkOutput, enc: Marshal, fmt: TimeFormat, urlOk: UrlCheck, batch: seq<LogEntry>, ctxDone: bool,
              answer: Outcome)
    returns (a: Attempt<BulkRequest>)
    ensures a.NotBuilt? <==> !urlOk(b.endpoint + "/_bulk")
    ensures a.Posted? ==> a.req.verb == "POST" && a.req.url == b.endpoint + "/_bulk"
    ensures a.Posted? ==> a.req.contentType == "application/x-ndjson" && a.req.basicAuth == Auth(b)
    ensures a.Posted? ==> a.req.body == Concat(Lines(enc, fmt, b.index, batch))
    ensures a.Posted? ==> a.outcome == Do(ctxDone, answer)
  {
    var body := WriteBody(enc, fmt, b.index, batch);
    var url := b.endpoint + "/_bulk";
    if !urlOk(url) {
      return NotBuilt;
    }
    var auth: Option<(string, string)> := None;
    if b.username != "" && b.password != "" {
      auth := Some((b.username, b.password));
    }
    var req := BulkRequest("POST", url, "application/x-ndjson", auth, body);
    a := Posted(req, Do(ctxDone, answer));
  }

  /** The response handling of `send`: a transport error is logged, and so is
      a status of 400 or more; any status below 400 passes silently. */
  function SendReport(outcome: Outcome): (r: Report)
    ensures r.SendFailed? <==> outcome.CallError?
    ensures r.SendFailed? ==> r.msg == outcome.msg
    ensures r.Quiet? <==> outcome.Response? && outcome.status < 400
    ensures r.StatusError? ==> outcome.Response? && r.status == outcome.status
  {
    match outcome
    case CallError(msg) => SendFailed(msg)
    case Response(status) => if status >= 400 then StatusError(status) else Quiet
  }

  /** What `send` did with one batch, sent on a context that was or was not
      cancelled, when the server would have answered `answer`. */
  predicate SentAs(b: BulkOutput, enc: Marshal, fmt: TimeFormat, urlOk: UrlCheck, batch: seq<LogEntry>, ctxDone: bool,
                   answer: Outcome, a: Attempt<BulkRequest>) {
    && (a.NotBuilt? <==> !urlOk(b.endpoint + "/_bulk"))
    && (a.Posted? ==>
          && a.req.verb == "POST" && a.req.url == b.endpoint + "/_bulk"
          && a.req.contentType == "application/x-ndjson" && a.req.basicAuth == Auth(b)
          && a.req.body == Concat(Lines(enc, fmt, b.index, batch))
          && a.outcome == Do(ctxDone, answer))
  }

  /** A batch flushed by a cancellation is posted on the cancelled context:
      `client.Do` fails, the failure is logged, and the batch is lost. */
  lemma CancelledSendFails(b: BulkOutput, enc: Marshal, fmt: TimeFormat, urlOk: UrlCheck, batch: seq<LogEntry>,
                           answer: Outcome, a: Attempt<BulkRequest>)
    requires SentAs(b, enc, fmt, urlOk, batch, true, answer, a) && urlOk(b.endpoint + "/_bulk")
    ensures a.Posted? && SendReport(a.outcome) == SendFailed(ContextCanceled)
  {
  }

  /** The size an entry is charged: its data's JSON only, not the lines it
      becomes. */
  function EntrySize(enc: Marshal): LogEntry -> nat {
    (e: LogEntry) => |MarshalOrNil(enc, StrMap(e.data))|
  }

  function BulkLimits(enc: Marshal, maxBytes: nat, maxCount: nat): Limits<LogEntry> {
    Limits(maxBytes, maxCount, EntrySize(enc))
  }

  /** Entries are batched as they are: none is dropped. */
  function Keep(): LogEntry -> Option<LogEntry> {
    (e: LogEntry) => Some(e)
  }

  /** `SendLogs` over a trace with the given limits: one call of `send` per
      submitted batch. `answers(j)` is what the server would answer the
      `j`-th post. */
  method SendLogs(b: BulkOutput, enc: Marshal, fmt: TimeFormat, urlOk: UrlCheck, answers: nat -> Outcome,
                  maxBytes: nat, maxCount: nat, events: seq<Event>)
    returns (consumed: nat, batches: seq<seq<LogEntry>>, attempts: seq<Attempt<BulkRequest>>)
    ensures consumed <= |events|
    ensures forall k :: 0 <= k < consumed - 1 ==> !Ends(events[k])
    ensures consumed < |events| ==> consumed > 0 && Ends(events[consumed - 1])
    ensures batches == Run(BulkLimits(enc, maxBytes, maxCount), Keep(), Initial(), events[..consumed]).sent
    ensures forall j :: 0 <= j < |batches| ==>
              1 <= |batches[j]|
              && (|batches[j]| >= 2 ==> |batches[j]| <= maxCount && Size(EntrySize(enc), batches[j]) <= maxBytes)
    ensures consumed > 0 && Ends(events[consumed - 1]) ==>
              Flatten(batches) == Kept(Keep(), events[..consumed])
    ensures |attempts| == |batches|
    ensures forall j :: 0 <= j < |attempts| ==>
              SentAs(b, enc, fmt, urlOk, batches[j],
                     FlushedByCancel(BulkLimits(enc, maxBytes, maxCount), Keep(), events[..consumed], j),
                     answers(j), attempts[j])
    ensures forall j :: 0 <= j < |batches| && FlushedByCancel(BulkLimits(enc, maxBytes, maxCount), Keep(), events[..consumed], j) ==>
              j == |batches| - 1
  {
    var before;
    consumed, batches, before := Batch(enc, maxBytes, maxCount, events);
    attempts := SendFlushes(b, enc, fmt, urlOk, answers, BulkLimits(enc, maxBytes, maxCount), events[..consumed],
                            batches, before);
  }

  /** The select loop of `SendLogs` over a trace, returning the batches it
      submits and how many of them came before its last event. */
  method Batch(enc: Marshal, maxBytes: nat, maxCount: nat, events: seq<Event>)
    returns (consumed: nat, batches: seq<seq<LogEntry>>, before: nat)
    ensures consumed <= |events|
    ensures forall k :: 0 <= k < consumed - 1 ==> !Ends(events[k])
    ensures consumed < |events| ==> consumed > 0 && Ends(events[consumed - 1])
    ensures batches == Run(BulkLimits(enc, maxBytes, maxCount), Keep(), Initial(), events[..consumed]).sent
    ensures forall j :: 0 <= j < |batches| ==>
              1 <= |batches[j]|
              && (|batches[j]| >= 2 ==> |batches[j]| <= maxCount && Size(EntrySize(enc), batches[j]) <= maxBytes)
    ensures consumed > 0 && Ends(events[consumed - 1]) ==>
              Flatten(batches) == Kept(Keep(), events[..consumed])
    ensures events[..consumed] != [] ==>
              before == |Run(BulkLimits(enc, maxBytes, maxCount), Keep(), Initial(), events[..consumed][..consumed - 1]).sent|
  {
    var batcher := new Batcher(BulkLimits(enc, maxBytes, maxCount), Keep());
    consumed, before := batcher.SendLogs(events);
    batches := batcher.sent;
    forall j | 0 <= j < |batches|
      ensures 1 <= |batches[j]|
              && (|batches[j]| >= 2 ==> |batches[j]| <= maxCount && Size(EntrySize(enc), batches[j]) <= maxBytes)
    {
      assert WithinLimits(BulkLimits(enc, maxBytes, maxCount), batches[j]);
    }
    if consumed > 0 && Ends(events[consumed - 1]) {
      RunDelivers(BulkLimits(enc, maxBytes, maxCount), Keep(), events[..consumed]);
    }
    if consumed > 0 {
      assert events[..consumed][..consumed - 1] == events[..consumed - 1];
    }
  }

  /** The sends of a trace's flushes: when the trace ends in a cancellation,
      the batches from the last event's flush on are sent on the cancelled
      context. */
  method SendFlushes(b: BulkOutput, enc: Marshal, fmt: TimeFormat, urlOk: UrlCheck, answers: nat -> Outcome,
                     lim: Limits<LogEntry>, events: seq<Event>, batches: seq<seq<LogEntry>>, before: nat)
    returns (attempts: seq<Attempt<BulkRequest>>)
    requires batches == Run(lim, Keep(), Initial(), events).sent
    requires events != [] ==> before == |Run(lim, Keep(), Initial(), events[..|events| - 1]).sent|
    ensures |attempts| == |batches|
    ensures forall j :: 0 <= j < |attempts| ==>
              SentAs(b, enc, fmt, urlOk, batches[j], FlushedByCancel(lim, Keep(), events, j), answers(j), attempts[j])
    ensures forall j :: 0 <= j < |batches| && FlushedByCancel(lim, Keep(), events, j) ==> j == |batches| - 1
  {
    var dead := |batches|;
    if events != [] && events[|events| - 1].Cancelled? {
      CancelFlushesLast(lim, Keep(), events);
      dead := before;
    }
    attempts := SendAll(b, enc, fmt, urlOk, answers, batches, dead);
  }

  /** The flushes of one trace, each handing its batch to `send`; those from
      index `dead` on are sent once the context is cancelled. */
  method SendAll(b: BulkOutput, enc: Marshal, fmt: TimeFormat, urlOk: UrlCheck, answers: nat -> Outcome,
                 batches: seq<seq<LogEntry>>, dead: nat)
    returns (attempts: seq<Attempt<BulkRequest>>)
    ensures |attempts| == |batches|
    ensures forall j :: 0 <= j < |attempts| ==>
              SentAs(b, enc, fmt, urlOk, batches[j], j >= dead, answers(j), attempts[j])
  {
    attempts := [];
    for j := 0 to |batches|
      invariant |attempts| == j
      invariant forall k :: 0 <= k < j ==> SentAs(b, enc, fmt, urlOk, batches[k], k >= dead, answers(k), attempts[k])
    {
      var a := Send(b, enc, fmt, urlOk, batches[j], j >= dead, answers(j));
      attempts := attempts + [a];
    }
  }
}
