/** The CloudWatch Logs output (internal/outputs/cloudwatch.go). Entries become
    log events charged their message length plus 26 bytes; batches of at most
    10,000 events and 1,048,576 charged bytes are sorted by timestamp and put
    to the configured group and stream. Log group and stream are created at
    start-up when an exact match is not among the described names. */
module CloudWatch {
  import opened Wrappers
  import opened Types
  import opened Json
  import opened Batching

  const MaxBatchSize: nat := 1_048_576
  const MaxBatchCount: nat := 10_000
  /** Overhead CloudWatch charges per event. */
  const EventOverhead: nat := 26

  datatype InputLogEvent = InputLogEvent(message: Bytes, timestamp: int)

  /** The output's configuration. */
  datatype CloudWatch = CloudWatch(logGroup: string, logStream: string)

  datatype PutLogEventsInput = PutLogEventsInput(logEvents: seq<InputLogEvent>, logGroupName: string, logStreamName: string)

  /** The entry case of the loop before the cut: the JSON of the data, or
      nothing when marshalling fails. */
  function ToEvent(enc: Marshal, e: LogEntry): (r: Option<InputLogEvent>)
    ensures r.Some? <==> enc(StrMap(e.data)).Some?
    ensures r.Some? ==> r.value.message == enc(StrMap(e.data)).value
    ensures r.Some? ==> r.value.timestamp * 1_000_000 <= e.timestamp < (r.value.timestamp + 1) * 1_000_000
  {
    match enc(StrMap(e.data))
    case None => None
    case Some(data) => Some(InputLogEvent(data, UnixMilli(e.timestamp)))
  }

  function EventSize(ev: InputLogEvent): nat {
    |ev.message| + EventOverhead
  }

  function CwLimits(): Limits<InputLogEvent> {
    Limits(MaxBatchSize, MaxBatchCount, EventSize)
  }

  function Convert(enc: Marshal): LogEntry -> Option<InputLogEvent> {
    e => ToEvent(enc, e)
  }

  predicate SortedByTime(s: seq<InputLogEvent>) {
    forall p, q :: 0 <= p < q < |s| ==> s[p].timestamp <= s[q].timestamp
  }

  /** `sort.Slice` by timestamp, in place. Only the order of timestamps is
      promised, not the relative order of equal ones. */
  method SortByTimestamp(a: array<InputLogEvent>)
    modifies a
    ensures SortedByTime(a[..])
    ensures multiset(a[..]) == multiset(old(a[..]))
  {
    var i := 0;
    while i < a.Length
      invariant 0 <= i <= a.Length
      invariant forall p, q :: 0 <= p < q < i ==> a[p].timestamp <= a[q].timestamp
      invariant multiset(a[..]) == multiset(old(a[..]))
    {
      SinkInto(a, i);
      i := i + 1;
    }
  }

  /** Move `a[i]` left past every later timestamp, so the prefix `a[..i + 1]`
      becomes sorted. */
  method SinkInto(a: array<InputLogEvent>, i: nat)
    requires i < a.Length
    requires forall p, q :: 0 <= p < q < i ==> a[p].timestamp <= a[q].timestamp
    modifies a
    ensures forall p, q :: 0 <= p < q <= i ==> a[p].timestamp <= a[q].timestamp
    ensures multiset(a[..]) == multiset(old(a[..]))
  {
    var j := i;
    while j > 0 && a[j - 1].timestamp > a[j].timestamp
      invariant 0 <= j <= i
      invariant forall p, q :: 0 <= p < q <= i && p != j && q != j ==> a[p].timestamp <= a[q].timestamp
      invariant forall q :: j < q <= i ==> a[j].timestamp <= a[q].timestamp
      invariant multiset(a[..]) == multiset(old(a[..]))
    {
      Swap(a, j - 1, j);
      j := j - 1;
    }
  }

  method Swap(a: array<InputLogEvent>, i: nat, j: nat)
    requires i < j < a.Length
    modifies a
    ensures a[i] == old(a[j]) && a[j] == old(a[i])
    ensures forall k :: 0 <= k < a.Length && k != i && k != j ==> a[k] == old(a[k])
    ensures multiset(a[..]) == multiset(old(a[..]))
  {
    a[i], a[j] := a[j], a[i];
  }

  /** `send`: sort the batch by timestamp and put it to the group and stream.
      The call's error is only logged. */
  method Send(c: CloudWatch, batch: seq<InputLogEvent>) returns (input: PutLogEventsInput)
    ensures input.logGroupName == c.logGroup && input.logStreamName == c.logStream
    ensures SortedByTime(input.logEvents)
    ensures multiset(input.logEvents) == multiset(batch)
  {
    var a := new InputLogEvent[|batch|](k requires 0 <= k < |batch| => batch[k]);
    assert a[..] == batch;
    SortByTimestamp(a);
    input := PutLogEventsInput(a[..], c.logGroup, c.logStream);
  }

  /** `SendLogs` over a trace of events. The puts are listed in the order the
      flushes happened; a put's outcome does not influence the batching. */
  method SendLogs(c: CloudWatch, enc: Marshal, events: seq<Event>)
    returns (consumed: nat, batches: seq<seq<InputLogEvent>>, puts: seq<PutLogEventsInput>)
    ensures consumed <= |events|
    ensures forall k :: 0 <= k < consumed - 1 ==> !Ends(events[k])
    ensures consumed < |events| ==> consumed > 0 && Ends(events[consumed - 1])
    ensures batches == Run(CwLimits(), Convert(enc), Initial(), events[..consumed]).sent
    ensures forall j :: 0 <= j < |batches| ==>
              1 <= |batches[j]| <= MaxBatchCount
              && (|batches[j]| >= 2 ==> Size(EventSize, batches[j]) <= MaxBatchSize)
    ensures consumed > 0 && Ends(events[consumed - 1]) ==>
              Flatten(batches) == Kept(Convert(enc), events[..consumed])
    ensures |puts| == |batches|
    ensures forall j :: 0 <= j < |puts| ==>
              && puts[j].logGroupName == c.logGroup && puts[j].logStreamName == c.logStream
              && SortedByTime(puts[j].logEvents)
              && multiset(puts[j].logEvents) == multiset(batches[j])
  {
    var b := new Batcher(CwLimits(), Convert(enc));
    var before;
    consumed, before := b.SendLogs(events);
    batches := b.sent;
    if consumed > 0 && Ends(events[consumed - 1]) {
      RunDelivers(CwLimits(), Convert(enc), events[..consumed]);
    }
    puts := SendAll(c, batches);
  }

  /** The flushes of one trace, each handing its batch to `send`. */
  method SendAll(c: CloudWatch, batches: seq<seq<InputLogEvent>>) returns (puts: seq<PutLogEventsInput>)
    ensures |puts| == |batches|
    ensures forall j :: 0 <= j < |puts| ==>
              && puts[j].logGroupName == c.logGroup && puts[j].logStreamName == c.logStream
              && SortedByTime(puts[j].logEvents)
              && multiset(puts[j].logEvents) == multiset(batches[j])
  {
    puts := [];
    for j := 0 to |batches|
      invariant |puts| == j
      invariant forall k :: 0 <= k < j ==>
                  && puts[k].logGroupName == c.logGroup && puts[k].logStreamName == c.logStream
                  && SortedByTime(puts[k].logEvents)
                  && multiset(puts[k].logEvents) == multiset(batches[k])
    {
      var put := Send(c, batches[j]);
      puts := puts + [put];
    }
  }

  /** An event whose charged size alone passes the byte limit is not refused:
      it is submitted, in a batch of its own. */
  lemma OversizeEventSentAlone(enc: Marshal, e: LogEntry, ev: InputLogEvent)
    requires ToEvent(enc, e) == Some(ev) && EventSize(ev) > MaxBatchSize
    ensures Run(CwLimits(), Convert(enc), Initial(), [Entry(e), Closed]).sent == [[ev]]
  {
    var s0 := Initial<InputLogEvent>();
    assert [Entry(e), Closed][..1] == [Entry(e)];
    assert [Entry(e)][..0] == [];
    RunLast(CwLimits(), Convert(enc), s0, [Entry(e)]);
    assert Convert(enc)(e) == Some(ev);
    var s1 := Run(CwLimits(), Convert(enc), s0, [Entry(e)]);
    assert s1 == Append(CwLimits(), s0, ev);
    assert !Cut(CwLimits(), s0.batch, ev);
    assert s1 == State([], [ev], false);
    RunLast(CwLimits(), Convert(enc), s0, [Entry(e), Closed]);
    assert Run(CwLimits(), Convert(enc), s0, [Entry(e), Closed]) == Next(CwLimits(), Convert(enc), s1, Closed);
  }

  /** A cut is forced: the first event after a submitted batch would have
      pushed it past one of the limits. */
  lemma CutsAreForced(enc: Marshal, events: seq<Event>)
    requires forall k :: 0 <= k < |events| ==> events[k].Entry?
    ensures var r := Run(CwLimits(), Convert(enc), Initial(), events);
            NonEmpty(r) && Forced(CwLimits(), r)
  {
    RunGreedy(CwLimits(), Convert(enc), events);
  }

  /** The calls the start-up checks make. */
  datatype Call =
    | DescribeLogGroups(logGroupNamePrefix: string)
    | CreateLogGroup(logGroupName: string)
    | DescribeLogStreams(logGroupName: string, logStreamNamePrefix: string)
    | CreateLogStream(logGroupName: string, logStreamName: string)

  /** The loop over the described names: whether one equals `name` exactly. */
  method Contains(names: seq<string>, name: string) returns (found: bool)
    ensures found <==> name in names
  {
    for i := 0 to |names|
      invariant name !in names[..i]
    {
      if names[i] == name {
        return true;
      }
    }
    assert names[..|names|] == names;
    return false;
  }

  /** `ensureLogGroup`: describe by prefix; create only when no described name
      is an exact match; a describe error is returned without creating. The
      describe and create outcomes are parameters. */
  method EnsureLogGroup(name: string, described: Result<seq<string>, string>, created: Option<string>)
    returns (calls: seq<Call>, err: Option<string>)
    ensures described.Failure? ==> calls == [DescribeLogGroups(name)] && err == Some(described.error)
    ensures described.Success? && name in described.value ==> calls == [DescribeLogGroups(name)] && err == None
    ensures described.Success? && name !in described.value ==>
              calls == [DescribeLogGroups(name), CreateLogGroup(name)] && err == created
  {
    calls := [DescribeLogGroups(name)];
    if described.Failure? {
      return calls, Some(described.error);
    }
    var found := Contains(described.value, name);
    if found {
      return calls, None;
    }
    calls := calls + [CreateLogGroup(name)];
    err := created;
  }

  /** `ensureLogStream`: the same decision for a stream within its group. */
  method EnsureLogStream(group: string, stream: string, described: Result<seq<string>, string>, created: Option<string>)
    returns (calls: seq<Call>, err: Option<string>)
    ensures described.Failure? ==> calls == [DescribeLogStreams(group, stream)] && err == Some(described.error)
    ensures described.Success? && stream in described.value ==> calls == [DescribeLogStreams(group, stream)] && err == None
    ensures described.Success? && stream !in described.value ==>
              calls == [DescribeLogStreams(group, stream), CreateLogStream(group, stream)] && err == created
  {
    calls := [DescribeLogStreams(group, stream)];
    if described.Failure? {
      return calls, Some(described.error);
    }
    var found := Contains(described.value, stream);
    if found {
      return calls, None;
    }
    calls := calls + [CreateLogStream(group, stream)];
    err := created;
  }
}
