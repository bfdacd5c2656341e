/** Splitting a string at a one-character separator, and joining the parts again. */
module Splitting {
  /** Where the character last occurs, or -1. */
  function LastIndexOf(s: string, c: char): (i: int)
    ensures -1 <= i < |s|
    ensures i >= 0 ==> s[i] == c
    ensures forall j :: i < j < |s| ==> s[j] != c
  {
    if s == [] then -1
    else if s[|s| - 1] == c then |s| - 1
    else LastIndexOf(s[..|s| - 1], c)
  }

  /** What stands behind the last separator. */
  function LastPart(s: string, sep: char): (part: string)
    ensures |part| == |s| - 1 - LastIndexOf(s, sep)
    ensures sep !in part
  {
    if s == [] || s[|s| - 1] == sep then [] else LastPart(s[..|s| - 1], sep) + [s[|s| - 1]]
  }

  function Split(s: string, sep: char): (parts: seq<string>)
    ensures parts != []
    decreases |s|
  {
    var i := LastIndexOf(s, sep);
    if i < 0 then [s] else Split(s[..i], sep) + [LastPart(s, sep)]
  }

  function Join(parts: seq<string>, sep: char): string {
    if parts == [] then ""
    else if |parts| == 1 then parts[0]
    else Join(parts[..|parts| - 1], sep) + [sep] + parts[|parts| - 1]
  }

  ghost predicate SepFree(parts: seq<string>, sep: char) {
    forall i :: 0 <= i < |parts| ==> sep !in parts[i]
  }

  lemma JoinPush(parts: seq<string>, part: string, sep: char)
    requires parts != []
    ensures Join(parts + [part], sep) == Join(parts, sep) + [sep] + part
  {
    assert (parts + [part])[..|parts|] == parts;
  }

  /** Text without a separator goes to the last part. */
  lemma {:induction false} LastPartBehind(s: string, sep: char, t: string)
    requires sep !in t
    ensures LastIndexOf(s + [sep] + t, sep) == |s|
    ensures LastPart(s + [sep] + t, sep) == t
  {
    var all := s + [sep] + t;
    if t == [] {
      assert all == s + [sep];
    } else {
      var n := |t| - 1;
      assert all[..|all| - 1] == s + [sep] + t[..n];
      LastPartBehind(s, sep, t[..n]);
    }
  }

  /** Splitting behind one more separator. */
  lemma {:induction false} SplitPush(s: string, t: string, sep: char)
    requires sep !in t
    ensures Split(s + [sep] + t, sep) == Split(s, sep) + [t]
  {
    LastPartBehind(s, sep, t);
    assert (s + [sep] + t)[..|s|] == s;
  }

  /** A text is what stands in front of the last separator, the separator, and the last part. */
  lemma {:induction false} LastPartJoins(s: string, sep: char)
    requires LastIndexOf(s, sep) >= 0
    ensures s[..LastIndexOf(s, sep)] + [sep] + LastPart(s, sep) == s
  {
    var n := |s| - 1;
    if s[n] != sep {
      LastPartJoins(s[..n], sep);
      var i := LastIndexOf(s, sep);
      assert s[..n][..i] == s[..i];
      assert s == s[..n] + [s[n]];
    }
  }

  lemma {:induction false} SplitIsSepFree(s: string, sep: char)
    ensures SepFree(Split(s, sep), sep)
    decreases |s|
  {
    var i := LastIndexOf(s, sep);
    if i >= 0 {
      SplitIsSepFree(s[..i], sep);
    }
  }

  lemma {:induction false} JoinSplit(s: string, sep: char)
    ensures Join(Split(s, sep), sep) == s
    decreases |s|
  {
    var i := LastIndexOf(s, sep);
    if i >= 0 {
      JoinSplit(s[..i], sep);
      JoinPush(Split(s[..i], sep), LastPart(s, sep), sep);
      LastPartJoins(s, sep);
    }
  }

  lemma {:induction false} SplitJoin(parts: seq<string>, sep: char)
    requires parts != [] && SepFree(parts, sep)
    ensures Split(Join(parts, sep), sep) == parts
  {
    var n := |parts| - 1;
    if n > 0 {
      SplitJoin(parts[..n], sep);
      SplitPush(Join(parts[..n], sep), parts[n], sep);
    }
  }
}
