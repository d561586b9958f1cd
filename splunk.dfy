/** The Splunk HTTP Event Collector output (internal/outputs/splunk.go). Each
    entry becomes an event envelope; batches of at most 100 envelopes and
    1,000,000 bytes of JSON are posted as the envelopes' JSON concatenated with
    no separator. A non-200 status is only logged. */
module Splunk {
  import opened Wrappers
  import opened Types
  import opened Json
  import opened Batching
  import opened Http

  const MaxBatchSize: nat := 1_000_000
  const MaxEvents: nat := 100

  /** The output's configuration. */
  datatype Splunk = Splunk(endpoint: string, token: string, source: string, sourcetype: string, index: string)

  /** `splunkEvent`. */
  datatype SplunkEvent = SplunkEvent(time: int, source: string, sourcetype: string, index: string, event: map<string, string>)

  datatype HttpRequest = HttpRequest(verb: string, url: string, headers: seq<(string, string)>, body: Bytes)

  /** A `string` member tagged `omitempty`: present only when non-empty. */
  function OmitEmpty(key: string, value: string): (r: seq<Member>)
    ensures r == [] <==> value == ""
  {
    if value == "" then [] else [Member(key, Str(value))]
  }

  /** The JSON object `json.Marshal` builds from a `splunkEvent`: members in
      declaration order, the three optional strings left out when empty. */
  function Envelope(e: SplunkEvent): (v: Value)
    ensures v.Obj? && |v.members| >= 2
    ensures v.members[0] == Member("time", Int(e.time))
    ensures v.members[|v.members| - 1] == Member("event", StrMap(e.event))
    ensures Keys(v.members) ==
              ["time"] + (if e.source == "" then [] else ["source"])
              + (if e.sourcetype == "" then [] else ["sourcetype"])
              + (if e.index == "" then [] else ["index"]) + ["event"]
  {
    Obj([Member("time", Int(e.time))]
        + OmitEmpty("source", e.source) + OmitEmpty("sourcetype", e.sourcetype) + OmitEmpty("index", e.index)
        + [Member("event", StrMap(e.event))])
  }

  /** The entry case: the event time in whole seconds and the configured
      source, sourcetype and index. No entry is dropped. */
  function ToEvent(s: Splunk, e: LogEntry): (r: SplunkEvent)
    ensures r.time * 1_000_000_000 <= e.timestamp < (r.time + 1) * 1_000_000_000
    ensures r.event == e.data
    ensures r.source == s.source && r.sourcetype == s.sourcetype && r.index == s.index
  {
    SplunkEvent(UnixSeconds(e.timestamp), s.source, s.sourcetype, s.index, e.data)
  }

  /** `data, _ := json.Marshal(event)`. */
  function EventJson(enc: Marshal, e: SplunkEvent): Bytes {
    MarshalOrNil(enc, Envelope(e))
  }

  function EventSize(enc: Marshal): SplunkEvent -> nat {
    e => |EventJson(enc, e)|
  }

  function SpLimits(enc: Marshal): Limits<SplunkEvent> {
    Limits(MaxBatchSize, MaxEvents, EventSize(enc))
  }

  function Convert(s: Splunk): LogEntry -> Option<SplunkEvent> {
    e => Some(ToEvent(s, e))
  }

  /** The request body of a batch: the envelopes' JSON in batch order. */
  function Body(enc: Marshal, batch: seq<SplunkEvent>): Bytes {
    if batch == [] then [] else Body(enc, batch[..|batch| - 1]) + EventJson(enc, batch[|batch| - 1])
  }

  /** The charged size of a batch is exactly the length of the body it is
      posted as. */
  lemma {:induction false} BodySize(enc: Marshal, batch: seq<SplunkEvent>)
    ensures |Body(enc, batch)| == Size(EventSize(enc), batch)
  {
    if batch != [] {
      BodySize(enc, batch[..|batch| - 1]);
    }
  }

  /** The body loop of `send`, writing into a buffer. */
  method WriteBody(enc: Marshal, batch: seq<SplunkEvent>) returns (buf: Bytes)
    ensures buf == Body(enc, batch)
  {
    buf := [];
    for i := 0 to |batch|
      invariant buf == Body(enc, batch[..i])
    {
      assert batch[..i + 1][..i] == batch[..i];
      buf := buf + EventJson(enc, batch[i]);
    }
    assert batch[..|batch|] == batch;
  }

  /** `send`: build the request, which fails on a URL that does not parse and
      then posts nothing; otherwise post it on the given context. */
  method Send(s: Splunk, enc: Marshal, urlOk: UrlCheck, batch: seq<SplunkEvent>, ctxDone: bool, answer: Outcome)
    returns (a: Attempt<HttpRequest>)
    ensures a.NotBuilt? <==> !urlOk(s.endpoint)
    ensures a.Posted? ==> a.req.verb == "POST" && a.req.url == s.endpoint
    ensures a.Posted? ==>
              a.req.headers == [("Authorization", "Splunk " + s.token), ("Content-Type", "application/json")]
    ensures a.Posted? ==> a.req.body == Body(enc, batch) && |a.req.body| == Size(EventSize(enc), batch)
    ensures a.Posted? ==> a.outcome == Do(ctxDone, answer)
  {
    var body := WriteBody(enc, batch);
    BodySize(enc, batch);
    if !urlOk(s.endpoint) {
      return NotBuilt;
    }
    var req := HttpRequest("POST", s.endpoint, [("Authorization", "Splunk " + s.token), ("Content-Type", "application/json")], body);
    a := Posted(req, Do(ctxDone, answer));
  }

  /** The response handling of `send`: a transport error is logged, and so is
      any status other than 200 OK. */
  function SendReport(outcome: Outcome): (r: Report)
    ensures r.SendFailed? <==> outcome.CallError?
    ensures r.SendFailed? ==> r.msg == outcome.msg
    ensures r.Quiet? <==> outcome == Response(200)
    ensures r.StatusError? ==> outcome.Response? && r.status == outcome.status
  {
    match outcome
    case CallError(msg) => SendFailed(msg)
    case Response(status) => if status != 200 then StatusError(status) else Quiet
  }

  /** What `send` did with one batch, sent on a context that was or was not
      cancelled, when the server would have answered `answer`. */
  predicate SentAs(s: Splunk, enc: Marshal, urlOk: UrlCheck, batch: seq<SplunkEvent>, ctxDone: bool, answer: Outcome,
                   a: Attempt<HttpRequest>) {
    && (a.NotBuilt? <==> !urlOk(s.endpoint))
    && (a.Posted? ==>
          && a.req.verb == "POST" && a.req.url == s.endpoint
          && a.req.headers == [("Authorization", "Splunk " + s.token), ("Content-Type", "application/json")]
          && a.req.body == Body(enc, batch)
          && a.outcome == Do(ctxDone, answer))
  }

  /** A batch flushed by a cancellation is posted on the cancelled context:
      `client.Do` fails, the failure is logged, and the batch is lost. */
  lemma CancelledSendFails(s: Splunk, enc: Marshal, urlOk: UrlCheck, batch: seq<SplunkEvent>, answer: Outcome,
                           a: Attempt<HttpRequest>)
    requires SentAs(s, enc, urlOk, batch, true, answer, a) && urlOk(s.endpoint)
    ensures a.Posted? && SendReport(a.outcome) == SendFailed(ContextCanceled)
  {
  }

  /** `SendLogs` over a trace: one call of `send` per submitted batch, every
      body of at most 100 envelopes and, with two or more, at most 1,000,000
      bytes. `answers(j)` is what the server would answer the `j`-th post. */
  method SendLogs(s: Splunk, enc: Marshal, urlOk: UrlCheck, answers: nat -> Outcome, events: seq<Event>)
    returns (consumed: nat, batches: seq<seq<SplunkEvent>>, attempts: seq<Attempt<HttpRequest>>)
    ensures consumed <= |events|
    ensures forall k :: 0 <= k < consumed - 1 ==> !Ends(events[k])
    ensures consumed < |events| ==> consumed > 0 && Ends(events[consumed - 1])
    ensures batches == Run(SpLimits(enc), Convert(s), Initial(), events[..consumed]).sent
    ensures forall j :: 0 <= j < |batches| ==> 1 <= |batches[j]| <= MaxEvents
    ensures forall j :: 0 <= j < |batches| ==> |batches[j]| >= 2 ==> |Body(enc, batches[j])| <= MaxBatchSize
    ensures consumed > 0 && Ends(events[consumed - 1]) ==>
              Flatten(batches) == Kept(Convert(s), events[..consumed])
    ensures |attempts| == |batches|
    ensures forall j :: 0 <= j < |attempts| ==>
              SentAs(s, enc, urlOk, batches[j], FlushedByCancel(SpLimits(enc), Convert(s), events[..consumed], j),
                     answers(j), attempts[j])
    ensures forall j :: 0 <= j < |batches| && FlushedByCancel(SpLimits(enc), Convert(s), events[..consumed], j) ==>
              j == |batches| - 1
  {
    var b := new Batcher(SpLimits(enc), Convert(s));
    var before;
    consumed, before := b.SendLogs(events);
    batches := b.sent;
    if consumed > 0 && Ends(events[consumed - 1]) {
      RunDelivers(SpLimits(enc), Convert(s), events[..consumed]);
    }
    forall j | 0 <= j < |batches|
      ensures |batches[j]| >= 2 ==> |Body(enc, batches[j])| <= MaxBatchSize
    {
      assert WithinLimits(SpLimits(enc), batches[j]);
      BodySize(enc, batches[j]);
    }
    if consumed > 0 {
      assert events[..consumed][..consumed - 1] == events[..consumed - 1];
    }
    attempts := SendFlushes(s, enc, urlOk, answers, events[..consumed], batches, before);
  }

  /** The sends of a trace's flushes: when the trace ends in a cancellation,
      the batches from the last event's flush on are sent on the cancelled
      context. */
  method SendFlushes(s: Splunk, enc: Marshal, urlOk: UrlCheck, answers: nat -> Outcome, events: seq<Event>,
                     batches: seq<seq<SplunkEvent>>, before: nat)
    returns (attempts: seq<Attempt<HttpRequest>>)
    requires batches == Run(SpLimits(enc), Convert(s), Initial(), events).sent
    requires events != [] ==> before == |Run(SpLimits(enc), Convert(s), Initial(), events[..|events| - 1]).sent|
    ensures |attempts| == |batches|
    ensures forall j :: 0 <= j < |attempts| ==>
              SentAs(s, enc, urlOk, batches[j], FlushedByCancel(SpLimits(enc), Convert(s), events, j),
                     answers(j), attempts[j])
    ensures forall j :: 0 <= j < |batches| && FlushedByCancel(SpLimits(enc), Convert(s), events, j) ==>
              j == |batches| - 1
  {
    var dead := |batches|;
    if events != [] && events[|events| - 1].Cancelled? {
      CancelFlushesLast(SpLimits(enc), Convert(s), events);
      dead := before;
    }
    attempts := SendAll(s, enc, urlOk, answers, batches, dead);
  }

  /** The flushes of one trace, each handing its batch to `send`; those from
      index `dead` on are sent once the context is cancelled. */
  method SendAll(s: Splunk, enc: Marshal, urlOk: UrlCheck, answers: nat -> Outcome, batches: seq<seq<SplunkEvent>>, dead: nat)
    returns (attempts: seq<Attempt<HttpRequest>>)
    ensures |attempts| == |batches|
    ensures forall j :: 0 <= j < |attempts| ==> SentAs(s, enc, urlOk, batches[j], j >= dead, answers(j), attempts[j])
  {
    attempts := [];
    for j := 0 to |batches|
      invariant |attempts| == j
      invariant forall k :: 0 <= k < j ==> SentAs(s, enc, urlOk, batches[k], k >= dead, answers(k), attempts[k])
    {
      var a := Send(s, enc, urlOk, batches[j], j >= dead, answers(j));
      attempts := attempts + [a];
    }
  }

  /** Every entry is kept: the submitted envelopes are the trace's entries'
      events, one for one, in order. */
  lemma {:induction false} KeptAll(s: Splunk, events: seq<Event>)
    ensures |Kept(Convert(s), events)| == |Entries(events)|
    ensures forall i :: 0 <= i < |Entries(events)| ==> Kept(Convert(s), events)[i] == ToEvent(s, Entries(events)[i])
  {
    if events != [] {
      KeptAll(s, events[..|events| - 1]);
    }
  }

  /** The entries of a trace, in order. */
  function Entries(events: seq<Event>): seq<LogEntry> {
    if events == [] then []
    else Entries(events[..|events| - 1]) + if events[|events| - 1].Entry? then [events[|events| - 1].entry] else []
  }
}
