/** The few operations of Go's `strings` package that the core relies on:
    `Split` with a one-character separator, `TrimSpace`, `Index` of a character
    and `HasPrefix`. Strings are sequences of characters. */
module Text {
  import opened Seqs

  /** Go's `unicode.IsSpace`: the Latin-1 spaces and the other Unicode
      White_Space code points. */
  predicate IsSpace(c: char) {
    c == ' ' || c == '\t' || c == '\n' || c == '\r' || c == '\U{0B}' || c == '\U{0C}'
    || c == '\U{85}' || c == '\U{A0}' || c == '\U{1680}'
    || ('\U{2000}' <= c <= '\U{200A}')
    || c == '\U{2028}' || c == '\U{2029}' || c == '\U{202F}' || c == '\U{205F}' || c == '\U{3000}'
  }

  predicate AllSpace(s: string) {
    forall k :: 0 <= k < |s| ==> IsSpace(s[k])
  }

  function TrimLeft(s: string): (r: string)
    ensures |r| <= |s| && r == s[|s| - |r|..]
    ensures AllSpace(s[..|s| - |r|])
    ensures r == [] || !IsSpace(r[0])
  {
    if |s| > 0 && IsSpace(s[0]) then
      var r := TrimLeft(s[1..]);
      TrimLeftStep(s, r);
      r
    else s
  }

  function TrimRight(s: string): (r: string)
    ensures |r| <= |s| && r == s[..|r|]
    ensures AllSpace(s[|r|..])
    ensures r == [] || !IsSpace(r[|r| - 1])
  {
    if |s| > 0 && IsSpace(s[|s| - 1]) then
      var r := TrimRight(s[..|s| - 1]);
      TrimRightStep(s, r);
      r
    else s
  }

  /** Dropping a space in front of what is left of the rest. */
  lemma TrimLeftStep(s: string, r: string)
    requires |s| > 0 && IsSpace(s[0])
    requires |r| <= |s| - 1 && r == s[1..][|s| - 1 - |r|..] && AllSpace(s[1..][..|s| - 1 - |r|])
    ensures r == s[|s| - |r|..] && AllSpace(s[..|s| - |r|])
  {
    var n := |s| - |r|;
    assert s[1..][n - 1..] == s[n..];
    forall k | 0 <= k < n
      ensures IsSpace(s[k])
    {
      if k > 0 {
        assert s[k] == s[1..][..n - 1][k - 1];
      }
    }
  }

  /** Dropping a space at the end of what is left of the rest. */
  lemma TrimRightStep(s: string, r: string)
    requires |s| > 0 && IsSpace(s[|s| - 1])
    requires |r| <= |s| - 1 && r == s[..|s| - 1][..|r|] && AllSpace(s[..|s| - 1][|r|..])
    ensures r == s[..|r|] && AllSpace(s[|r|..])
  {
    assert s[..|s| - 1][..|r|] == s[..|r|];
    forall k | |r| <= k < |s|
      ensures IsSpace(s[k])
    {
      if k < |s| - 1 {
        assert s[k] == s[..|s| - 1][|r|..][k - |r|];
      }
    }
  }

  /** `strings.TrimSpace`: drops the leading and trailing white space. */
  function TrimSpace(s: string): (r: string)
    ensures r == [] || (!IsSpace(r[0]) && !IsSpace(r[|r| - 1]))
  {
    TrimRight(TrimLeft(s))
  }

  /** What is left by TrimSpace is an infix of the input, and only white space
      was removed on either side. */
  lemma TrimSpaceInfix(s: string) returns (i: nat, j: nat)
    ensures i <= j <= |s| && TrimSpace(s) == s[i..j]
    ensures AllSpace(s[..i]) && AllSpace(s[j..])
  {
    var l := TrimLeft(s);
    i := |s| - |l|;
    j := i + |TrimRight(l)|;
    assert s[i..][..j - i] == s[i..j];
    assert s[j..] == l[j - i..];
  }

  /** A string with no white space at its ends is left alone. */
  lemma TrimSpaceKeeps(s: string)
    requires s == [] || (!IsSpace(s[0]) && !IsSpace(s[|s| - 1]))
    ensures TrimSpace(s) == s
  {
  }

  /** `strings.Index` for a one-character needle: the first position of `c`, or -1. */
  function IndexOf(s: string, c: char): (r: int)
    ensures r == -1 <==> c !in s
    ensures r != -1 ==> 0 <= r < |s| && s[r] == c && c !in s[..r]
  {
    if |s| == 0 then -1
    else if s[0] == c then 0
    else
      var r := IndexOf(s[1..], c);
      assert s[1..][..if r == -1 then 0 else r] == s[1..1 + if r == -1 then 0 else r];
      if r == -1 then -1 else r + 1
  }

  predicate HasPrefix(s: string, p: string) {
    |p| <= |s| && s[..|p|] == p
  }

  /** `strings.Split(s, string(sep))`: the pieces between the separators; the
      empty string splits into one empty piece. */
  function Split(s: string, sep: char): (r: seq<string>)
    ensures |r| >= 1
    ensures forall t :: t in r ==> sep !in t
    decreases |s|
  {
    var i := IndexOf(s, sep);
    if i == -1 then [s] else [s[..i]] + Split(s[i + 1..], sep)
  }

  /** `strings.Join(parts, string(sep))`. */
  function Join(parts: seq<string>, sep: char): string {
    if |parts| == 0 then ""
    else if |parts| == 1 then parts[0]
    else parts[0] + [sep] + Join(parts[1..], sep)
  }

  /** Joining the pieces of a split gives back the string. */
  lemma {:induction false} JoinSplit(s: string, sep: char)
    ensures Join(Split(s, sep), sep) == s
    decreases |s|
  {
    var i := IndexOf(s, sep);
    if i != -1 {
      var rest := s[i + 1..];
      JoinSplit(rest, sep);
      SplitAt(s, sep, i);
      JoinCons(s[..i], Split(rest, sep), sep);
      assert s == s[..i] + [sep] + rest;
    }
  }

  /** Joining a piece in front of at least one more. */
  lemma JoinCons(x: string, parts: seq<string>, sep: char)
    requires |parts| >= 1
    ensures Join([x] + parts, sep) == x + [sep] + Join(parts, sep)
  {
    assert ([x] + parts)[1..] == parts;
  }

  /** The first occurrence is determined by its two defining facts. */
  lemma IndexOfAt(s: string, c: char, i: nat)
    requires i < |s| && s[i] == c && c !in s[..i]
    ensures IndexOf(s, c) == i
  {
    assert c in s by { assert s[i] == c; }
  }

  /** Splitting at a separator splits both sides independently. */
  lemma {:induction false} SplitConcat(a: string, b: string, sep: char)
    ensures Split(a + [sep] + b, sep) == Split(a, sep) + Split(b, sep)
    decreases |a|
  {
    var i := IndexOf(a, sep);
    if i == -1 {
      SplitConcatLast(a, b, sep);
    } else {
      var a' := a[i + 1..];
      SplitConcat(a', b, sep);
      SplitConcatStep(a, b, sep, i);
      Regroup(Split(a + [sep] + b, sep), Split(a' + [sep] + b, sep), Split(a, sep), [a[..i]], Split(a', sep), Split(b, sep));
    }
  }


  /** The separator between the parts is the first one. */
  lemma SplitConcatLast(a: string, b: string, sep: char)
    requires sep !in a
    ensures Split(a + [sep] + b, sep) == Split(a, sep) + Split(b, sep)
  {
    var s := a + [sep] + b;
    assert s[..|a|] == a;
    IndexOfAt(s, sep, |a|);
    assert s[|a| + 1..] == b;
    SplitSingle(a, sep);
    SplitAt(s, sep, |a|);
  }

  /** The first separator lies within the first part: both splits begin with
      the same piece and go on from just after it. */
  lemma SplitConcatStep(a: string, b: string, sep: char, i: nat)
    requires i < |a| && IndexOf(a, sep) == i
    ensures Split(a + [sep] + b, sep) == [a[..i]] + Split(a[i + 1..] + [sep] + b, sep)
    ensures Split(a, sep) == [a[..i]] + Split(a[i + 1..], sep)
  {
    var s := a + [sep] + b;
    assert s[..i] == a[..i];
    IndexOfAt(s, sep, i);
    assert s[i + 1..] == a[i + 1..] + [sep] + b;
    SplitAt(s, sep, i);
    SplitAt(a, sep, i);
  }

  /** Splitting at the first separator. */
  lemma SplitAt(s: string, sep: char, i: nat)
    requires i < |s| && IndexOf(s, sep) == i
    ensures Split(s, sep) == [s[..i]] + Split(s[i + 1..], sep)
  {
  }

  /** A string without the separator is a single piece. */
  lemma SplitSingle(s: string, sep: char)
    requires sep !in s
    ensures Split(s, sep) == [s]
  {
  }
}
