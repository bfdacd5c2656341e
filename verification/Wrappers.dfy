/** Small shared datatypes. */
module Wrappers {
  datatype Option<+T> = None | Some(value: T)
}

/**
 Elements, duplicates and prefixes of sequences. All are defined from the end of the sequence, the way
 the modelled lists and queues grow.
 */
module Sequences {
  function Elements<T>(s: seq<T>): set<T> {
    if s == [] then {} else Elements(s[..|s| - 1]) + {s[|s| - 1]}
  }

  lemma {:induction false} InElements<T>(s: seq<T>, x: T)
    ensures x in s <==> x in Elements(s)
  {
    if s != [] {
      InElements(s[..|s| - 1], x);
      assert s == s[..|s| - 1] + [s[|s| - 1]];
    }
  }

  lemma ElementsPush<T>(s: seq<T>, x: T)
    ensures Elements(s + [x]) == Elements(s) + {x}
  {
    assert (s + [x])[..|s|] == s;
  }

  lemma {:induction false} ElementsConcat<T>(s: seq<T>, t: seq<T>)
    ensures Elements(s + t) == Elements(s) + Elements(t)
  {
    if t == [] {
      assert s + t == s;
    } else {
      var n := |t| - 1;
      assert (s + t)[..|s + t| - 1] == s + t[..n];
      ElementsConcat(s, t[..n]);
    }
  }

  /** No element occurs twice. */
  ghost predicate NoDup<T>(s: seq<T>) {
    s == [] || (s[|s| - 1] !in Elements(s[..|s| - 1]) && NoDup(s[..|s| - 1]))
  }

  lemma NoDupPush<T>(s: seq<T>, x: T)
    ensures NoDup(s + [x]) <==> NoDup(s) && x !in Elements(s)
  {
    assert (s + [x])[..|s|] == s;
  }

  lemma {:induction false} NoDupConcat<T>(s: seq<T>, t: seq<T>)
    ensures NoDup(s + t) <==> NoDup(s) && NoDup(t) && Elements(s) !! Elements(t)
  {
    if t == [] {
      assert s + t == s;
    } else {
      var n := |t| - 1;
      assert (s + t)[..|s + t| - 1] == s + t[..n];
      NoDupConcat(s, t[..n]);
      ElementsConcat(s, t[..n]);
    }
  }

  lemma {:induction false} NoDupSize<T>(s: seq<T>)
    requires NoDup(s)
    ensures |Elements(s)| == |s|
  {
    if s != [] {
      NoDupSize(s[..|s| - 1]);
    }
  }

  lemma Cut<T>(s: seq<T>, i: nat)
    requires i <= |s|
    ensures s[..i] + s[i..] == s
    ensures Elements(s) == Elements(s[..i]) + Elements(s[i..])
    ensures NoDup(s) ==> NoDup(s[..i]) && NoDup(s[i..]) && Elements(s[..i]) !! Elements(s[i..])
  {
    Rejoin(s, i);
    ElementsConcat(s[..i], s[i..]);
    NoDupConcat(s[..i], s[i..]);
  }

  lemma Rejoin<T>(s: seq<T>, i: nat)
    requires i <= |s|
    ensures s[..i] + s[i..] == s
  {
  }

  /** A front of `s` that is one longer. */
  lemma UpTo<T>(s: seq<T>, i: nat)
    requires i < |s|
    ensures s[..i + 1] == s[..i] + [s[i]]
    ensures Elements(s[..i + 1]) == Elements(s[..i]) + {s[i]}
    ensures Elements(s[..i + 1]) <= Elements(s)
    ensures NoDup(s) ==> NoDup(s[..i + 1]) && s[i] !in Elements(s[..i])
  {
    Cut(s, i + 1);
    OneLonger(s, i);
    ElementsPush(s[..i], s[i]);
    NoDupPush(s[..i], s[i]);
  }

  lemma OneLonger<T>(s: seq<T>, i: nat)
    requires i < |s|
    ensures s[..i + 1] == s[..i] + [s[i]]
  {
  }

  lemma FrontOfPush<T>(s: seq<T>, x: T)
    ensures (s + [x])[..|s + [x]| - 1] == s && (s + [x])[|s + [x]| - 1] == x
  {
  }

  lemma CutOut<T>(s: seq<T>, i: nat)
    requires i < |s|
    ensures s == s[..i] + ([s[i]] + s[i + 1..])
  {
  }

  /** `a` is a prefix of `b`. */
  ghost predicate Prefix<T>(a: seq<T>, b: seq<T>) {
    a == b || (b != [] && Prefix(a, b[..|b| - 1]))
  }

  lemma {:induction false} PrefixTrans<T>(a: seq<T>, b: seq<T>, c: seq<T>)
    requires Prefix(a, b) && Prefix(b, c)
    ensures Prefix(a, c)
  {
    if b != c {
      PrefixTrans(a, b, c[..|c| - 1]);
    }
  }

  lemma {:induction false} PrefixOfConcat<T>(a: seq<T>, b: seq<T>)
    ensures Prefix(a, a + b)
  {
    if b == [] {
      assert a + b == a;
    } else {
      assert (a + b)[..|a + b| - 1] == a + b[..|b| - 1];
      PrefixOfConcat(a, b[..|b| - 1]);
    }
  }

  lemma {:induction false} PrefixIsPrefix<T>(a: seq<T>, b: seq<T>)
    ensures Prefix(a, b) <==> a <= b
  {
    if a != b && b != [] {
      PrefixIsPrefix(a, b[..|b| - 1]);
    }
  }

  /** `b` is `a` with `t` behind it. */
  ghost predicate Extends<T>(a: seq<T>, b: seq<T>, t: seq<T>) {
    if t == [] then a == b
    else b != [] && b[|b| - 1] == t[|t| - 1] && Extends(a, b[..|b| - 1], t[..|t| - 1])
  }

  lemma {:induction false} ExtendsIsConcat<T>(a: seq<T>, b: seq<T>, t: seq<T>)
    ensures Extends(a, b, t) <==> b == a + t
  {
    if t == [] {
      assert a + t == a;
    } else {
      assert (a + t)[..|a + t| - 1] == a + t[..|t| - 1] && (a + t)[|a + t| - 1] == t[|t| - 1];
      if b != [] {
        ExtendsIsConcat(a, b[..|b| - 1], t[..|t| - 1]);
        assert b == b[..|b| - 1] + [b[|b| - 1]];
      }
    }
  }

  lemma {:induction false} ExtendsSize<T>(a: seq<T>, b: seq<T>, t: seq<T>)
    requires Extends(a, b, t)
    ensures |b| == |a| + |t|
  {
    if t != [] {
      ExtendsSize(a, b[..|b| - 1], t[..|t| - 1]);
    }
  }

  lemma ExtendsTwice<T>(a: seq<T>, b: seq<T>, c: seq<T>, s: seq<T>, t: seq<T>)
    requires Extends(a, b, s) && Extends(b, c, t)
    ensures Extends(a, c, s + t)
  {
    ExtendsIsConcat(a, b, s);
    ExtendsIsConcat(b, c, t);
    ExtendsIsConcat(a, c, s + t);
    assert (a + s) + t == a + (s + t);
  }

  lemma SubsetSize<T>(s: set<T>, t: set<T>)
    requires s <= t
    ensures |s| <= |t|
    ensures |s| == |t| ==> s == t
  {
    if s != {} {
      var x :| x in s;
      SubsetSize(s - {x}, t - {x});
    }
  }

  /** The numbers below `n`. */
  function Numbers(n: nat): set<nat> {
    if n == 0 then {} else Numbers(n - 1) + {n - 1}
  }

  lemma {:induction false} NumbersSize(n: nat)
    ensures |Numbers(n)| == n
    ensures forall s: nat :: s in Numbers(n) <==> s < n
  {
    if n > 0 {
      NumbersSize(n - 1);
    }
  }
}
