/** The batching loop every output of the current layout runs in `SendLogs`
    (internal/outputs/cloudwatch.go, firehose.go, splunk.go, elasticsearch.go
    and opensearch.go). Each converts an entry into its own item, charges the
    item a size, and keeps a pending batch with its running size: before an
    item is appended the batch is flushed when it is non-empty and either the
    size would pass the byte limit or the batch already holds the count
    limit. A tick flushes; input close and cancellation flush and return. A
    flush of an empty batch sends nothing. The select over channel, ticker and
    context becomes a trace of events. */
module Batching {
  import opened Wrappers
  import opened Types
  import opened Seqs

  datatype Event =
    | Entry(entry: LogEntry)  // an entry received on the channel
    | Tick                    // the flush ticker fired
    | Closed                  // the channel was closed
    | Cancelled               // the context was cancelled

  predicate Ends(ev: Event) {
    ev.Closed? || ev.Cancelled?
  }

  /** A sink's limits and the size it charges an item. */
  datatype Limits<!T> = Limits(maxBytes: nat, maxCount: nat, sizeOf: T -> nat)

  /** The charged size of a batch: the sum over its items. */
  function Size<T>(sizeOf: T -> nat, b: seq<T>): nat {
    if b == [] then 0 else Size(sizeOf, b[..|b| - 1]) + sizeOf(b[|b| - 1])
  }

  lemma SizeAppend<T>(sizeOf: T -> nat, b: seq<T>, x: T)
    ensures Size(sizeOf, b + [x]) == Size(sizeOf, b) + sizeOf(x)
  {
    assert (b + [x])[..|b|] == b;
  }

  /** A batch within the limits: at most one item, or at most `maxCount` items
      whose charged size is at most `maxBytes`. A single item is never
      refused, whatever its size. */
  predicate Fits<T>(lim: Limits<T>, b: seq<T>) {
    |b| <= 1 || (|b| <= lim.maxCount && Size(lim.sizeOf, b) <= lim.maxBytes)
  }

  /** The cut rule, checked before an item is appended: the batch is cut
      exactly when it is non-empty and the item would take it past a limit. */
  function Cut<T>(lim: Limits<T>, batch: seq<T>, x: T): (r: bool)
    ensures r <==> batch != [] && !Fits(lim, batch + [x])
  {
    SizeAppend(lim.sizeOf, batch, x);
    |batch| > 0 && (Size(lim.sizeOf, batch) + lim.sizeOf(x) > lim.maxBytes || |batch| >= lim.maxCount)
  }

  /** What a submitted batch satisfies: non-empty and within the limits. */
  predicate WithinLimits<T>(lim: Limits<T>, b: seq<T>) {
    |b| >= 1 && Fits(lim, b)
  }

  /** The loop's state: the batches submitted so far, the pending batch, and
      whether `SendLogs` has returned. */
  datatype State<T> = State(sent: seq<seq<T>>, batch: seq<T>, done: bool)

  function Initial<T>(): State<T> {
    State([], [], false)
  }

  predicate Good<T>(lim: Limits<T>, s: State<T>) {
    && Fits(lim, s.batch)
    && (forall j :: 0 <= j < |s.sent| ==> WithinLimits(lim, s.sent[j]))
    && (s.done ==> s.batch == [])
  }

  /** `flush`: submit the pending batch unless it is empty, then start afresh.
      What was submitted stays submitted, and no empty batch is added. */
  function Flush<T>(s: State<T>): (r: State<T>)
    ensures r.batch == [] && r.done == s.done
    ensures s.sent <= r.sent && |r.sent| <= |s.sent| + 1
    ensures |r.sent| == |s.sent| + 1 <==> s.batch != []
    ensures |r.sent| == |s.sent| + 1 ==> r.sent[|s.sent|] == s.batch
  {
    if s.batch == [] then s else State(s.sent + [s.batch], [], s.done)
  }

  /** Receiving an item: cut if the rule says so, then append. */
  function Append<T>(lim: Limits<T>, s: State<T>, x: T): State<T> {
    var s1 := if Cut(lim, s.batch, x) then Flush(s) else s;
    s1.(batch := s1.batch + [x])
  }

  /** One turn of the select loop. An entry whose conversion fails is skipped.
      Nothing submitted is taken back, and an end flushes and returns. */
  function Next<T>(lim: Limits<T>, convert: LogEntry -> Option<T>, s: State<T>, ev: Event): (r: State<T>)
    ensures s.sent <= r.sent
    ensures r.done <==> s.done || Ends(ev)
    ensures Ends(ev) ==> r.batch == []
  {
    match ev
    case Entry(e) => if convert(e).Some? then Append(lim, s, convert(e).value) else s
    case Tick => Flush(s)
    case Closed => Flush(s).(done := true)
    case Cancelled => Flush(s).(done := true)
  }

  /** The state after a trace of events: the submitted batches only grow, and
      the loop has returned iff it had or some event ends it. */
  function Run<T>(lim: Limits<T>, convert: LogEntry -> Option<T>, s: State<T>, events: seq<Event>): (r: State<T>)
    ensures s.sent <= r.sent
    ensures r.done <==> s.done || exists k :: 0 <= k < |events| && Ends(events[k])
  {
    if events == [] then s
    else Next(lim, convert, Run(lim, convert, s, events[..|events| - 1]), events[|events| - 1])
  }

  /** The number of batches submitted before the last event of a trace. */
  function SentBefore<T>(lim: Limits<T>, convert: LogEntry -> Option<T>, events: seq<Event>): nat {
    if events == [] then 0 else |Run(lim, convert, Initial(), events[..|events| - 1]).sent|
  }

  /** Whether the `j`-th submitted batch of a trace was flushed by a final
      cancellation, and so handed to `send` with a cancelled context. */
  predicate FlushedByCancel<T>(lim: Limits<T>, convert: LogEntry -> Option<T>, events: seq<Event>, j: nat) {
    events != [] && events[|events| - 1].Cancelled? && j >= SentBefore(lim, convert, events)
  }

  function Flatten<T>(bs: seq<seq<T>>): seq<T> {
    if bs == [] then [] else Flatten(bs[..|bs| - 1]) + bs[|bs| - 1]
  }

  /** The items of the entries of a trace whose conversion succeeds, in order. */
  function Kept<T>(convert: LogEntry -> Option<T>, events: seq<Event>): seq<T> {
    if events == [] then []
    else
      var last := events[|events| - 1];
      Kept(convert, events[..|events| - 1])
        + if last.Entry? && convert(last.entry).Some? then [convert(last.entry).value] else []
  }

  lemma FlattenAppend<T>(bs: seq<seq<T>>, b: seq<T>)
    ensures Flatten(bs + [b]) == Flatten(bs) + b
  {
    assert (bs + [b])[..|bs|] == bs;
  }

  /** A flush empties the pending batch, submits it when it is not empty, and
      keeps the limits. */
  lemma FlushGood<T>(lim: Limits<T>, s: State<T>)
    requires Good(lim, s)
    ensures Good(lim, Flush(s)) && Flush(s).batch == []
  {
    if s.batch != [] {
      assert WithinLimits(lim, s.batch);
    }
  }

  /** A flush moves the pending items, in order, behind the submitted ones. */
  lemma FlushFlatten<T>(s: State<T>)
    ensures Flatten(Flush(s).sent) + Flush(s).batch == Flatten(s.sent) + s.batch
  {
    if s.batch != [] {
      FlattenAppend(s.sent, s.batch);
    }
  }

  /** Appending keeps every batch within the limits: either the rule cut the
      old batch, which fitted, and the new one holds one item; or the batch
      was empty; or it was below the count limit with room for the item. */
  lemma AppendGood<T>(lim: Limits<T>, s: State<T>, x: T)
    requires Good(lim, s) && !s.done
    ensures Good(lim, Append(lim, s, x))
  {
    SizeAppend(lim.sizeOf, s.batch, x);
    if Cut(lim, s.batch, x) {
      FlushGood(lim, s);
    }
  }

  /** `Append` as the entry case computes it: flush on the cut rule, then
      append to what is pending. */
  lemma AppendSplit<T>(lim: Limits<T>, s: State<T>, x: T, cut: bool)
    requires Good(lim, s) && !s.done
    requires cut == Cut(lim, s.batch, x)
    ensures var s1 := if cut then Flush(s) else s;
            && Append(lim, s, x) == State(s1.sent, s1.batch + [x], s1.done)
            && Good(lim, Append(lim, s, x))
  {
    AppendGood(lim, s, x);
  }

  /** One turn of the loop, in any state: the submitted items followed by
      the pending ones grow by exactly the item of the event, if any. */
  lemma NextFlatten<T>(lim: Limits<T>, convert: LogEntry -> Option<T>, s: State<T>, ev: Event)
    ensures Flatten(Next(lim, convert, s, ev).sent) + Next(lim, convert, s, ev).batch
            == Flatten(s.sent) + s.batch + Kept(convert, [ev])
  {
    assert [ev][..0] == [];
    FlushFlatten(s);
    if ev.Entry? && convert(ev.entry).Some? {
      var x := convert(ev.entry).value;
      var s1 := if Cut(lim, s.batch, x) then Flush(s) else s;
      assert Flatten(s1.sent) + s1.batch == Flatten(s.sent) + s.batch;
      assert Kept(convert, [ev]) == [x];
      Regroup(Flatten(s1.sent) + (s1.batch + [x]), s1.batch + [x], Flatten(s1.sent) + s1.batch,
              Flatten(s1.sent), s1.batch, [x]);
    } else {
      assert Kept(convert, [ev]) == [];
    }
  }

  /** A final cancellation flushes at most one batch, the last one submitted,
      and does so exactly when a batch was pending. */
  lemma CancelFlushesLast<T>(lim: Limits<T>, convert: LogEntry -> Option<T>, events: seq<Event>)
    requires events != [] && events[|events| - 1].Cancelled?
    ensures var n := |Run(lim, convert, Initial(), events).sent|;
            SentBefore(lim, convert, events) <= n <= SentBefore(lim, convert, events) + 1
    ensures |Run(lim, convert, Initial(), events).sent| == SentBefore(lim, convert, events) + 1
            <==> Run(lim, convert, Initial(), events[..|events| - 1]).batch != []
  {
  }

  /** One turn keeps the limits, and ends the loop iff the event is an end. */
  lemma NextGood<T>(lim: Limits<T>, convert: LogEntry -> Option<T>, s: State<T>, ev: Event)
    requires Good(lim, s) && !s.done
    ensures Good(lim, Next(lim, convert, s, ev))
    ensures Next(lim, convert, s, ev).done <==> Ends(ev)
  {
    match ev
    case Entry(e) =>
      if convert(e).Some? {
        AppendGood(lim, s, convert(e).value);
      }
    case _ =>
      FlushGood(lim, s);
  }

  /** The last turn of a trace. */
  lemma RunLast<T>(lim: Limits<T>, convert: LogEntry -> Option<T>, s: State<T>, events: seq<Event>)
    requires events != []
    ensures Run(lim, convert, s, events)
            == Next(lim, convert, Run(lim, convert, s, events[..|events| - 1]), events[|events| - 1])
  {
  }

  /** Over a trace that ends at most at its last event, every submitted batch
      is non-empty and within the limits, the pending one fits, and the loop
      has returned iff the last event ends it. */
  lemma {:induction false} RunGood<T>(lim: Limits<T>, convert: LogEntry -> Option<T>, s: State<T>, events: seq<Event>)
    requires Good(lim, s) && !s.done
    requires forall k :: 0 <= k < |events| - 1 ==> !Ends(events[k])
    ensures Good(lim, Run(lim, convert, s, events))
    ensures Run(lim, convert, s, events).done <==> |events| > 0 && Ends(events[|events| - 1])
  {
    if events != [] {
      var init := events[..|events| - 1];
      assert forall k :: 0 <= k < |init| - 1 ==> init[k] == events[k];
      RunGood(lim, convert, s, init);
      var r := Run(lim, convert, s, init);
      assert !r.done by {
        if |init| > 0 {
          assert init[|init| - 1] == events[|events| - 2];
        }
      }
      NextGood(lim, convert, r, events[|events| - 1]);
      RunLast(lim, convert, s, events);
    }
  }

  /** The submitted items followed by the pending ones are the kept items of
      the trace, in order. */
  lemma {:induction false} RunFlatten<T>(lim: Limits<T>, convert: LogEntry -> Option<T>, s: State<T>, events: seq<Event>)
    ensures Flatten(Run(lim, convert, s, events).sent) + Run(lim, convert, s, events).batch
            == Flatten(s.sent) + s.batch + Kept(convert, events)
  {
    if events != [] {
      var init := events[..|events| - 1];
      var ev := events[|events| - 1];
      RunFlatten(lim, convert, s, init);
      var r := Run(lim, convert, s, init);
      NextFlatten(lim, convert, r, ev);
      assert events == init + [ev];
      KeptSplit(convert, init, ev);
      var n := Next(lim, convert, r, ev);
      RegroupRight(Flatten(n.sent) + n.batch, Kept(convert, events), Flatten(r.sent) + r.batch,
                   Flatten(s.sent) + s.batch, Kept(convert, init), Kept(convert, [ev]));
    }
  }

  lemma KeptSplit<T>(convert: LogEntry -> Option<T>, init: seq<Event>, ev: Event)
    ensures Kept(convert, init + [ev]) == Kept(convert, init) + Kept(convert, [ev])
  {
    assert (init + [ev])[..|init|] == init;
    assert [ev][..0] == [];
  }

  /** Once the input is closed or the context cancelled, nothing is pending:
      the submitted batches hold exactly the kept items, in order. */
  lemma RunDelivers<T>(lim: Limits<T>, convert: LogEntry -> Option<T>, events: seq<Event>)
    requires forall k :: 0 <= k < |events| - 1 ==> !Ends(events[k])
    requires |events| > 0 && Ends(events[|events| - 1])
    ensures Flatten(Run(lim, convert, Initial(), events).sent) == Kept(convert, events)
  {
    RunGood(lim, convert, Initial(), events);
    RunFlatten(lim, convert, Initial(), events);
    var r := Run(lim, convert, Initial(), events);
    assert Flatten(Initial<T>().sent) + Initial<T>().batch == [];
    assert r.batch == [];
    assert Flatten(r.sent) + r.batch == Flatten(r.sent);
  }

  /** Without ticks or an end, every cut was forced: the first item after each
      submitted batch would have broken its limits. */
  predicate NonEmpty<T>(r: State<T>) {
    forall j :: 0 <= j < |r.sent| ==> r.sent[j] != []
  }

  predicate Forced<T>(lim: Limits<T>, r: State<T>)
    requires NonEmpty(r)
  {
    && (|r.sent| > 0 ==> r.batch != [])
    && forall j :: 0 <= j < |r.sent| ==>
         Cut(lim, r.sent[j], if j + 1 < |r.sent| then r.sent[j + 1][0] else r.batch[0])
  }

  /** Appending an item keeps every earlier cut forced, and a cut it makes is
      forced by the item itself. */
  lemma AppendForced<T>(lim: Limits<T>, r: State<T>, x: T)
    requires NonEmpty(r) && Forced(lim, r)
    ensures NonEmpty(Append(lim, r, x)) && Forced(lim, Append(lim, r, x))
  {
    var r' := Append(lim, r, x);
    if Cut(lim, r.batch, x) {
      assert r'.sent == r.sent + [r.batch] && r'.batch == [x];
      forall j | 0 <= j < |r'.sent|
        ensures Cut(lim, r'.sent[j], if j + 1 < |r'.sent| then r'.sent[j + 1][0] else r'.batch[0])
      {
        if j < |r.sent| {
          assert r'.sent[j] == r.sent[j];
          assert Cut(lim, r.sent[j], if j + 1 < |r.sent| then r.sent[j + 1][0] else r.batch[0]);
          if j + 1 < |r.sent| {
            assert r'.sent[j + 1] == r.sent[j + 1];
          } else {
            assert r'.sent[j + 1] == r.batch;
          }
        } else {
          assert r'.sent[j] == r.batch && r'.batch[0] == x;
        }
      }
    } else {
      assert r'.sent == r.sent && r'.batch == r.batch + [x];
      forall j | 0 <= j < |r'.sent|
        ensures Cut(lim, r'.sent[j], if j + 1 < |r'.sent| then r'.sent[j + 1][0] else r'.batch[0])
      {
        assert Cut(lim, r.sent[j], if j + 1 < |r.sent| then r.sent[j + 1][0] else r.batch[0]);
        if j + 1 == |r.sent| {
          assert r'.batch[0] == r.batch[0];
        } else {
          assert r'.sent[j + 1] == r.sent[j + 1];
        }
      }
      assert |r'.sent| > 0 ==> r'.batch != [];
      assert NonEmpty(r');
      assert Forced(lim, r');
    }
  }

  /** The greedy rule over a trace of entries from the initial state. */
  lemma {:induction false} RunGreedy<T>(lim: Limits<T>, convert: LogEntry -> Option<T>, events: seq<Event>)
    requires forall k :: 0 <= k < |events| ==> events[k].Entry?
    ensures Good(lim, Run(lim, convert, Initial(), events)) && !Run(lim, convert, Initial(), events).done
    ensures Forced(lim, Run(lim, convert, Initial(), events))
  {
    if events != [] {
      var init := events[..|events| - 1];
      var e := events[|events| - 1].entry;
      assert forall k :: 0 <= k < |init| ==> init[k] == events[k];
      RunGreedy(lim, convert, init);
      var r := Run(lim, convert, Initial(), init);
      RunLast(lim, convert, Initial(), events);
      if convert(e).Some? {
        AppendGood(lim, r, convert(e).value);
        AppendForced(lim, r, convert(e).value);
      }
    }
  }

  /** The loop of one `SendLogs`, with the mutable `batch` and `batchSize` of
      the closure and the batches handed to `send`. */
  class Batcher<T> {
    const limits: Limits<T>
    const convert: LogEntry -> Option<T>
    var batch: seq<T>
    var batchSize: nat
    var sent: seq<seq<T>>
    var done: bool

    ghost function Snapshot(): State<T>
      reads this
    {
      State(sent, batch, done)
    }

    ghost predicate Valid()
      reads this
    {
      batchSize == Size(limits.sizeOf, batch) && Good(limits, Snapshot())
    }

    constructor(limits: Limits<T>, convert: LogEntry -> Option<T>)
      ensures Valid() && Snapshot() == Initial()
      ensures this.limits == limits && this.convert == convert
    {
      this.limits := limits;
      this.convert := convert;
      batch, batchSize, sent, done := [], 0, [], false;
    }

    /** `flush`. */
    method DoFlush()
      requires Valid()
      modifies this
      ensures Valid() && Snapshot() == Flush(old(Snapshot()))
    {
      FlushGood(limits, Snapshot());
      if |batch| == 0 {
        return;
      }
      sent := sent + [batch];
      batch := [];
      batchSize := 0;
    }

    /** The entry case of the select once the item is built. */
    method Receive(x: T)
      requires Valid() && !done
      modifies this
      ensures Valid() && Snapshot() == Append(limits, old(Snapshot()), x)
    {
      ghost var s0 := Snapshot();
      var itemSize := limits.sizeOf(x);
      var cut := |batch| > 0 && (batchSize + itemSize > limits.maxBytes || |batch| >= limits.maxCount);
      AppendSplit(limits, s0, x, cut);
      if cut {
        DoFlush();
      }
      ghost var s1 := Snapshot();
      SizeAppend(limits.sizeOf, batch, x);
      batch := batch + [x];
      batchSize := batchSize + itemSize;
      assert Snapshot() == State(s1.sent, s1.batch + [x], s1.done);
    }

    /** One turn of the select loop. */
    method Step(ev: Event)
      requires Valid() && !done
      modifies this
      ensures Valid() && Snapshot() == Next(limits, convert, old(Snapshot()), ev)
    {
      match ev
      case Entry(e) => {
        var item := convert(e);
        if item.Some? {
          Receive(item.value);
        }
      }
      case Tick => {
        DoFlush();
      }
      case Closed => {
        DoFlush();
        done := true;
      }
      case Cancelled => {
        DoFlush();
        done := true;
      }
    }

    /** `SendLogs` over a trace: take events until one ends the loop or the
      trace runs out. */
    method SendLogs(events: seq<Event>) returns (consumed: nat, before: nat)
      requires Valid() && !done
      modifies this
      ensures Valid() && consumed <= |events|
      ensures consumed == 0 ==> before == |old(sent)|
      ensures consumed > 0 ==> before == |Run(limits, convert, old(Snapshot()), events[..consumed - 1]).sent|
      ensures Snapshot() == Run(limits, convert, old(Snapshot()), events[..consumed])
      ensures forall k :: 0 <= k < consumed - 1 ==> !Ends(events[k])
      ensures done <==> consumed > 0 && Ends(events[consumed - 1])
      ensures !done ==> consumed == |events|
    {
      consumed, before := 0, |sent|;
      while consumed < |events| && !done
        invariant Valid() && consumed <= |events|
        invariant consumed == 0 ==> before == |old(sent)|
        invariant consumed > 0 ==> before == |Run(limits, convert, old(Snapshot()), events[..consumed - 1]).sent|
        invariant Snapshot() == Run(limits, convert, old(Snapshot()), events[..consumed])
        invariant forall k :: 0 <= k < consumed ==> !Ends(events[k]) || k == consumed - 1
        invariant done <==> consumed > 0 && Ends(events[consumed - 1])
        decreases |events| - consumed
      {
        NextGood(limits, convert, Snapshot(), events[consumed]);
        before := |sent|;
        Step(events[consumed]);
        assert events[..consumed + 1][..consumed] == events[..consumed];
        consumed := consumed + 1;
      }
    }
  }
}
