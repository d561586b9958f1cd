/** The loop both generations of `parseRecords` run over an object's record
    stream: convert each record in turn, send the entry on, and stop at the
    first item that fails to read or to convert. */
module Records {
  import opened Wrappers
  import opened Types
  import opened S3

  /** Why the loop stopped before the end of the stream. */
  datatype Stop<+E> =
    | ReadFailed(msg: string)  // "read record: ..."
    | Rejected(error: E)       // the conversion's own error, returned as is

  /** The entries sent, and the error returned (`None` is a nil error at EOF). */
  datatype Parse<+E> = Parse(entries: seq<LogEntry>, err: Option<Stop<E>>)

  type Convert<!E> = seq<string> -> Result<LogEntry, E>

  /** The error an item stops the loop with, if any. */
  function ItemError<E>(convert: Convert<E>, item: ReadItem): Option<Stop<E>> {
    match item
    case ReadError(msg) => Some(ReadFailed(msg))
    case Record(record) => if convert(record).Failure? then Some(Rejected(convert(record).error)) else None
  }

  /** What the loop sends and returns over a stream: every entry comes from an
      item read, and the error is nil exactly when every item was read. */
  function Parsed<E>(convert: Convert<E>, items: seq<ReadItem>): (r: Parse<E>)
    ensures |r.entries| <= |items|
    ensures r.err.None? <==> |r.entries| == |items|
  {
    if items == [] then Parse([], None)
    else if ItemError(convert, items[0]).Some? then Parse([], ItemError(convert, items[0]))
    else
      var rest := Parsed(convert, items[1..]);
      Parse([convert(items[0].fields).value] + rest.entries, rest.err)
  }

  /** One turn of the loop at position `i`. */
  lemma ParsedStep<E>(convert: Convert<E>, items: seq<ReadItem>, i: nat)
    requires i < |items|
    ensures Parsed(convert, items[i..])
            == if ItemError(convert, items[i]).Some? then Parse([], ItemError(convert, items[i]))
               else Parse([convert(items[i].fields).value] + Parsed(convert, items[i + 1..]).entries,
                          Parsed(convert, items[i + 1..]).err)
  {
    assert items[i..][0] == items[i] && items[i..][1..] == items[i + 1..];
  }

  /** The loop invariant after one more item: an error ends the parse with
      the entries so far, a converted record extends them. */
  lemma ParsedResume<E>(convert: Convert<E>, items: seq<ReadItem>, i: nat, entries: seq<LogEntry>)
    requires i < |items|
    ensures ItemError(convert, items[i]).Some? ==>
              Parse(entries + Parsed(convert, items[i..]).entries, Parsed(convert, items[i..]).err)
              == Parse(entries, ItemError(convert, items[i]))
    ensures ItemError(convert, items[i]).None? ==>
              && items[i].Record? && convert(items[i].fields).Success?
              && Parse(entries + Parsed(convert, items[i..]).entries, Parsed(convert, items[i..]).err)
                 == Parse((entries + [convert(items[i].fields).value]) + Parsed(convert, items[i + 1..]).entries,
                          Parsed(convert, items[i + 1..]).err)
  {
    ParsedStep(convert, items, i);
    if ItemError(convert, items[i]).Some? {
      assert entries + [] == entries;
    } else {
      var v := convert(items[i].fields).value;
      var rest := Parsed(convert, items[i + 1..]).entries;
      assert entries + ([v] + rest) == (entries + [v]) + rest;
    }
  }

  /** The loop sends the conversions of the longest prefix that reads and
      converts, in order; it returns nil only when the stream ended, and
      otherwise the error of the first item that did not. */
  lemma {:induction false} ParsedPrefix<E>(convert: Convert<E>, items: seq<ReadItem>)
    ensures var p := Parsed(convert, items);
            && |p.entries| <= |items|
            && (forall k :: 0 <= k < |p.entries| ==>
                  items[k].Record? && convert(items[k].fields) == Success(p.entries[k]))
            && (p.err.None? <==> |p.entries| == |items|)
            && (p.err.Some? ==> p.err == ItemError(convert, items[|p.entries|]))
  {
    if items != [] && ItemError(convert, items[0]).None? {
      ParsedPrefix(convert, items[1..]);
      var rest := Parsed(convert, items[1..]);
      var p := Parsed(convert, items);
      assert p.entries == [convert(items[0].fields).value] + rest.entries;
      forall k | 0 < k < |p.entries|
        ensures items[k].Record? && convert(items[k].fields) == Success(p.entries[k])
      {
        assert items[k] == items[1..][k - 1] && p.entries[k] == rest.entries[k - 1];
      }
      if p.err.Some? {
        assert items[|p.entries|] == items[1..][|rest.entries|];
      }
    }
  }

  /** Reading on after a clean stream: the entries of a concatenation extend
      those of its first part. */
  lemma {:induction false} ParsedConcat<E>(convert: Convert<E>, a: seq<ReadItem>, b: seq<ReadItem>)
    requires Parsed(convert, a).err.None?
    ensures Parsed(convert, a + b)
            == Parse(Parsed(convert, a).entries + Parsed(convert, b).entries, Parsed(convert, b).err)
  {
    if a == [] {
      assert a + b == b;
    } else {
      assert (a + b)[0] == a[0] && (a + b)[1..] == a[1..] + b;
      ParsedConcat(convert, a[1..], b);
    }
  }

  /** How many items the loop read: up to and including the one that stopped it. */
  function Consumed<E>(p: Parse<E>): nat {
    if p.err.Some? then |p.entries| + 1 else |p.entries|
  }
}
