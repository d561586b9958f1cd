/** What the two generations of field filter have in common: an ordered list of
    field names, an include set, and the projection of a record onto them
    (`data[name] = val` for every included index of the record). */
module Schema {
  import opened Wrappers
  import opened Text

  predicate Distinct(s: seq<string>) {
    forall i, j :: 0 <= i < j < |s| ==> s[i] != s[j]
  }

  /** No name at an index in `[lo1, hi1)` recurs at a later index in `[lo2, hi2)`. */
  predicate Separated(s: seq<string>, lo1: nat, hi1: nat, lo2: nat, hi2: nat) {
    forall i, j :: lo1 <= i < hi1 && lo2 <= j < hi2 && i < j < |s| ==> s[i] != s[j]
  }

  /** A block apart within itself, from its two halves. */
  lemma SeparatedWithin(s: seq<string>, lo: nat, mid: nat, hi: nat)
    requires lo <= mid <= hi
    requires Separated(s, lo, mid, lo, mid) && Separated(s, lo, mid, mid, hi) && Separated(s, mid, hi, mid, hi)
    ensures Separated(s, lo, hi, lo, hi)
  {
  }

  /** Distinctness from three blocks, each distinct and apart from the later ones. */
  lemma DistinctFromBlocks(s: seq<string>, k1: nat, k2: nat)
    requires k1 <= k2 <= |s|
    requires Separated(s, 0, k1, 0, k1) && Separated(s, 0, k1, k1, k2) && Separated(s, 0, k1, k2, |s|)
    requires Separated(s, k1, k2, k1, k2) && Separated(s, k1, k2, k2, |s|)
    requires Separated(s, k2, |s|, k2, |s|)
    ensures Distinct(s)
  {
  }

  function Names(s: seq<string>): set<string> {
    set x | x in s
  }

  lemma NamesAppend(s: seq<string>, x: string)
    ensures Names(s + [x]) == Names(s) + {x}
  {
  }

  /** One more element of a prefix adds its name. */
  lemma NamesPrefix(s: seq<string>, i: nat)
    requires i < |s|
    ensures Names(s[..i + 1]) == Names(s[..i]) + {s[i]}
  {
    assert s[..i + 1] == s[..i] + [s[i]];
    NamesAppend(s[..i], s[i]);
  }

  /** The index test both filters use: in range and its name is included. */
  predicate Included(fields: seq<string>, included: set<string>, i: int) {
    0 <= i < |fields| && fields[i] in included
  }

  /** The map built by the loop over the first `n` values of a record. */
  function Project(fields: seq<string>, included: set<string>, record: seq<string>, n: nat): map<string, string>
    requires n <= |record|
  {
    if n == 0 then map[]
    else
      var m := Project(fields, included, record, n - 1);
      if Included(fields, included, n - 1) then m[fields[n - 1] := record[n - 1]] else m
  }

  /** The keys are the names of the included indices below `n`, nothing else. */
  lemma {:induction false} ProjectKeys(fields: seq<string>, included: set<string>, record: seq<string>, n: nat)
    requires n <= |record|
    ensures Project(fields, included, record, n).Keys
            == set i | 0 <= i < n && Included(fields, included, i) :: fields[i]
  {
    if n > 0 {
      ProjectKeys(fields, included, record, n - 1);
      var prev := set i | 0 <= i < n - 1 && Included(fields, included, i) :: fields[i];
      var all := set i | 0 <= i < n && Included(fields, included, i) :: fields[i];
      if Included(fields, included, n - 1) {
        assert all == prev + {fields[n - 1]};
      } else {
        assert all == prev;
      }
    }
  }

  /** With distinct names, every included index maps its name to its value. */
  lemma {:induction false} ProjectValue(fields: seq<string>, included: set<string>, record: seq<string>, n: nat, i: nat)
    requires Distinct(fields) && n <= |record|
    requires i < n && Included(fields, included, i)
    ensures fields[i] in Project(fields, included, record, n)
    ensures Project(fields, included, record, n)[fields[i]] == record[i]
  {
    if i < n - 1 {
      ProjectValue(fields, included, record, n - 1, i);
    }
  }

  /** Distinct names are as many as their list is long. */
  lemma {:induction false} DistinctCard(s: seq<string>)
    requires Distinct(s)
    ensures |Names(s)| == |s|
  {
    if s != [] {
      DistinctCard(s[1..]);
      assert Names(s) == {s[0]} + Names(s[1..]);
      assert s[0] !in Names(s[1..]);
    }
  }

  /** Including every name of a record covering the schema yields one key per
      schema field. */
  lemma ProjectAll(fields: seq<string>, record: seq<string>)
    requires Distinct(fields) && |fields| <= |record|
    ensures Project(fields, Names(fields), record, |record|).Keys == Names(fields)
    ensures |Project(fields, Names(fields), record, |record|)| == |fields|
  {
    ProjectKeys(fields, Names(fields), record, |record|);
    var keys := set i | 0 <= i < |record| && Included(fields, Names(fields), i) :: fields[i];
    assert keys == Names(fields) by {
      forall x | x in Names(fields) ensures x in keys {
        var i :| 0 <= i < |fields| && fields[i] == x;
        assert Included(fields, Names(fields), i);
      }
    }
    DistinctCard(fields);
  }

  /** Each piece with its surrounding white space removed. */
  function Trimmed(parts: seq<string>): (r: seq<string>)
    ensures |r| == |parts|
    ensures forall i :: 0 <= i < |parts| ==> r[i] == TrimSpace(parts[i])
  {
    seq(|parts|, i requires 0 <= i < |parts| => TrimSpace(parts[i]))
  }

  /** The trimmed pieces of a comma-separated list. */
  function ListTokens(config: string): (r: seq<string>)
    ensures |r| == |Split(config, ',')|
  {
    Trimmed(Split(config, ','))
  }

  /** The first name not in `known`, as the validation loop reports it. */
  function FirstUnknown(names: seq<string>, known: set<string>): (r: Option<string>)
    ensures r.None? <==> forall n :: n in names ==> n in known
    ensures r.Some? ==> r.value in names && r.value !in known
    ensures r.Some? ==> exists k :: 0 <= k < |names| && names[k] == r.value && forall j :: 0 <= j < k ==> names[j] in known
  {
    if names == [] then None
    else if names[0] !in known then Some(names[0])
    else
      var rest := FirstUnknown(names[1..], known);
      assert rest.Some? ==> exists k :: 1 <= k < |names| && names[k] == rest.value && forall j :: 0 <= j < k ==> names[j] in known by {
        if rest.Some? {
          var k :| 0 <= k < |names[1..]| && names[1..][k] == rest.value && forall j :: 0 <= j < k ==> names[1..][j] in known;
          assert names[k + 1] == rest.value;
          assert forall j :: 0 <= j < k + 1 ==> names[j] in known by {
            forall j | 0 <= j < k + 1 ensures names[j] in known {
              if j > 0 { assert names[j] == names[1..][j - 1]; }
            }
          }
        }
      }
      rest
  }

  /** A listed name appended to the list changes neither the verdict nor the set. */
  lemma ListTokensAppend(config: string, name: string)
    requires ',' !in name
    ensures ListTokens(config + "," + name) == ListTokens(config) + [TrimSpace(name)]
  {
    SplitConcat(config, name, ',');
    assert config + "," + name == config + [','] + name;
    SplitSingle(name, ',');
  }

  /** The first unknown name of a concatenation is found in its left part when
      there is one there. */
  lemma {:induction false} FirstUnknownConcat(a: seq<string>, b: seq<string>, known: set<string>)
    ensures FirstUnknown(a + b, known)
            == if FirstUnknown(a, known).Some? then FirstUnknown(a, known) else FirstUnknown(b, known)
  {
    if a == [] {
      assert a + b == b;
    } else {
      assert (a + b)[0] == a[0] && (a + b)[1..] == a[1..] + b;
      FirstUnknownConcat(a[1..], b, known);
    }
  }

  /** The validation loop both filters run over the pieces of the list: each
      trimmed name must be known; the first that is not fails the call,
      otherwise the trimmed names are the include set. */
  method CollectNames(names: seq<string>, known: set<string>) returns (r: Result<set<string>, string>)
    ensures r == match FirstUnknown(Trimmed(names), known)
                 case Some(bad) => Failure(bad)
                 case None => Success(Names(Trimmed(names)))
  {
    ghost var tokens := Trimmed(names);
    var included: set<string> := {};
    for i := 0 to |names|
      invariant included == Names(tokens[..i])
      invariant FirstUnknown(tokens, known) == FirstUnknown(tokens[i..], known)
    {
      var name := TrimSpace(names[i]);
      assert name == tokens[i];
      assert tokens[i..][0] == name && tokens[i..][1..] == tokens[i + 1..];
      if name !in known {
        return Failure(name);
      }
      NamesPrefix(tokens, i);
      included := included + {name};
    }
    assert tokens[..|names|] == tokens && tokens[|names|..] == [];
    return Success(included);
  }

  /** The set of names a schema knows, built one name at a time. */
  method KnownNames(fields: seq<string>) returns (known: set<string>)
    ensures known == Names(fields)
  {
    known := {};
    for i := 0 to |fields|
      invariant known == Names(fields[..i])
    {
      NamesPrefix(fields, i);
      known := known + {fields[i]};
    }
    assert fields[..|fields|] == fields;
  }
}
