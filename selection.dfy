/** The `New` loop the three generations share (internal/outputs/outputs.go,
    internal/destinations/destinations.go, internal/targets/targets.go): split
    the configuration on ',', trim each name, skip empty ones silently, skip
    unknown ones with a warning, skip those whose constructor fails, and keep
    the rest in order. With nothing kept, `New` fails. Each layout supplies
    which names it knows and which constructors succeed; the constructors
    read the environment and call remote services, so their outcome is a
    parameter. */
module Selection {
  import opened Wrappers
  import opened Text
  import opened Schema

  /** What `New` does with one trimmed name. */
  datatype Outcome<+K> =
    | Skipped             // empty name
    | Unknown(name: string)      // "unknown ...", a warning
    | InitFailed(name: string)   // "... init failed", a warning
    | Built(kind: K)

  function Classify<K>(recognise: string -> Option<K>, builds: K -> bool, name: string): Outcome<K> {
    if name == "" then Skipped
    else match recognise(name)
      case None => Unknown(name)
      case Some(k) => if builds(k) then Built(k) else InitFailed(name)
  }

  /** The sinks built for a list of trimmed names, in order. */
  function Selected<K>(recognise: string -> Option<K>, builds: K -> bool, names: seq<string>): seq<K> {
    if names == [] then []
    else
      var o := Classify(recognise, builds, names[|names| - 1]);
      Selected(recognise, builds, names[..|names| - 1]) + if o.Built? then [o.kind] else []
  }

  /** Selection distributes over concatenation: earlier names give earlier
      sinks, and a repeated name gives a repeated sink. */
  lemma {:induction false} SelectedConcat<K>(recognise: string -> Option<K>, builds: K -> bool, a: seq<string>, b: seq<string>)
    ensures Selected(recognise, builds, a + b) == Selected(recognise, builds, a) + Selected(recognise, builds, b)
  {
    if b == [] {
      assert a + b == a;
    } else {
      var b' := b[..|b| - 1];
      SelectedConcat(recognise, builds, a, b');
      assert (a + b)[..|a + b| - 1] == a + b' && (a + b)[|a + b| - 1] == b[|b| - 1];
    }
  }

  /** A sink is built for a name iff the name is non-empty, known, and its
      constructor succeeds; every sink comes from some name. */
  lemma {:induction false} SelectedMembers<K>(recognise: string -> Option<K>, builds: K -> bool, names: seq<string>, k: K)
    ensures k in Selected(recognise, builds, names) <==>
              exists i :: 0 <= i < |names| && Classify(recognise, builds, names[i]) == Built(k)
    ensures |Selected(recognise, builds, names)| <= |names|
  {
    if names != [] {
      var init := names[..|names| - 1];
      SelectedMembers(recognise, builds, init, k);
      if k in Selected(recognise, builds, init) {
        var i :| 0 <= i < |init| && Classify(recognise, builds, init[i]) == Built(k);
        assert names[i] == init[i];
      }
      if exists i :: 0 <= i < |names| && Classify(recognise, builds, names[i]) == Built(k) {
        var i :| 0 <= i < |names| && Classify(recognise, builds, names[i]) == Built(k);
        if i < |init| {
          assert init[i] == names[i];
        }
      }
    }
  }

  /** `New`: one outcome per piece of the configuration, and the built sinks
      or `noneMsg` when there are none. */
  method New<K>(config: string, recognise: string -> Option<K>, builds: K -> bool, noneMsg: string)
    returns (r: Result<seq<K>, string>, outcomes: seq<Outcome<K>>)
    ensures |outcomes| == |Split(config, ',')|
    ensures forall i :: 0 <= i < |outcomes| ==>
              outcomes[i] == Classify(recognise, builds, ListTokens(config)[i])
    ensures var built := Selected(recognise, builds, ListTokens(config));
            r == if built == [] then Failure(noneMsg) else Success(built)
  {
    var result;
    result, outcomes := Build(Split(config, ','), recognise, builds);
    if |result| == 0 {
      return Failure(noneMsg), outcomes;
    }
    return Success(result), outcomes;
  }

  /** The loop of `New` over the pieces of the configuration. */
  method Build<K>(parts: seq<string>, recognise: string -> Option<K>, builds: K -> bool)
    returns (result: seq<K>, outcomes: seq<Outcome<K>>)
    ensures |outcomes| == |parts|
    ensures forall i :: 0 <= i < |parts| ==> outcomes[i] == Classify(recognise, builds, Trimmed(parts)[i])
    ensures result == Selected(recognise, builds, Trimmed(parts))
  {
    ghost var tokens := Trimmed(parts);
    result := [];
    outcomes := [];
    for i := 0 to |parts|
      invariant |outcomes| == i
      invariant forall k :: 0 <= k < i ==> outcomes[k] == Classify(recognise, builds, tokens[k])
      invariant result == Selected(recognise, builds, tokens[..i])
    {
      SelectedStep(recognise, builds, tokens, i);
      var name := TrimSpace(parts[i]);
      assert name == tokens[i];
      var o := Decide(recognise, builds, name);
      if o.Built? {
        result := result + [o.kind];
      }
      outcomes := outcomes + [o];
    }
    assert tokens[..|parts|] == tokens;
  }

  /** The body of the loop for one trimmed name: skip it silently when empty,
      with a warning when unknown or when its constructor fails. */
  method Decide<K>(recognise: string -> Option<K>, builds: K -> bool, name: string) returns (o: Outcome<K>)
    ensures o == Classify(recognise, builds, name)
  {
    if name == "" {
      return Skipped;
    }
    var kind := recognise(name);
    if kind.None? {
      return Unknown(name);
    }
    if !builds(kind.value) {
      return InitFailed(name);
    }
    return Built(kind.value);
  }

  /** A name gives a sink iff it is non-empty, recognised, and its
      constructor succeeds; the sink is then the recognised kind. */
  lemma ClassifyBuilt<K>(recognise: string -> Option<K>, builds: K -> bool, name: string)
    ensures Classify(recognise, builds, name).Built? <==>
              name != "" && recognise(name).Some? && builds(recognise(name).value)
    ensures Classify(recognise, builds, name).Built? ==> Classify(recognise, builds, name).kind == recognise(name).value
  {
  }

  lemma SelectedStep<K>(recognise: string -> Option<K>, builds: K -> bool, names: seq<string>, i: nat)
    requires i < |names|
    ensures var o := Classify(recognise, builds, names[i]);
            Selected(recognise, builds, names[..i + 1])
            == Selected(recognise, builds, names[..i]) + if o.Built? then [o.kind] else []
  {
    assert names[..i + 1][..i] == names[..i];
  }

  /** An empty configuration, or one of separators and white space only,
      builds nothing. */
  lemma {:induction false} NothingListed<K>(recognise: string -> Option<K>, builds: K -> bool, names: seq<string>)
    requires forall i :: 0 <= i < |names| ==> names[i] == ""
    ensures Selected(recognise, builds, names) == []
  {
    if names != [] {
      NothingListed(recognise, builds, names[..|names| - 1]);
    }
  }
}
