/** Failures that are inherited from a dependency, autoform/eval/pipeline.py:523-588. */
module InheritedFailures {
  import opened Wrappers

  /** The entry for one statement; an empty `decl` stands for a missing one. */
  datatype Detail = Detail(
    decl: string,
    passed: bool,
    axiomOnly: bool,
    axioms: set<string>,       // the axioms in its verdicts
    transitive: set<string>,   // its transitive dependencies
    inherited: Option<bool>)

  datatype Summary = Summary(total: int, passed: int, failed: int)

  /** The index of the last entry for a declaration, or -1. */
  function Last(ds: seq<Detail>, decl: string): (i: int)
    ensures -1 <= i < |ds|
    ensures i >= 0 ==> ds[i].decl == decl
    ensures forall j :: i < j < |ds| ==> ds[j].decl != decl
  {
    if ds == [] then -1
    else if ds[|ds| - 1].decl == decl then |ds| - 1
    else Last(ds[..|ds| - 1], decl)
  }

  /** The dependency was evaluated, and the axiom is in its verdicts too. */
  predicate Carries(ds: seq<Detail>, dep: string, axiom: string) {
    dep != "" && Last(ds, dep) >= 0 && axiom in ds[Last(ds, dep)].axioms
  }

  /** Every axiom is carried by some dependency. */
  predicate AllInherited(ds: seq<Detail>, axioms: set<string>, deps: set<string>) {
    forall axiom :: axiom in axioms ==> exists dep :: dep in deps && Carries(ds, dep, axiom)
  }

  function Annotated(ds: seq<Detail>, d: Detail): Detail {
    if d.passed then d.(inherited := None)
    else if !d.axiomOnly || d.axioms == {} then d.(inherited := Some(false))
    else if AllInherited(ds, d.axioms, d.transitive) then d.(inherited := Some(true), passed := true)
    else d.(inherited := Some(false))
  }

  function Annotate(ds: seq<Detail>): (r: seq<Detail>)
    ensures |r| == |ds|
  {
    seq(|ds|, i requires 0 <= i < |ds| => Annotated(ds, ds[i]))
  }

  predicate Flipped(ds: seq<Detail>, d: Detail) {
    !d.passed && Annotated(ds, d).passed
  }

  function CountPassed(ds: seq<Detail>): nat {
    if ds == [] then 0 else CountPassed(ds[..|ds| - 1]) + if ds[|ds| - 1].passed then 1 else 0
  }

  /** The entries say the same but for what the annotation writes. */
  ghost predicate SameStatements(ds: seq<Detail>, ds': seq<Detail>) {
    && |ds| == |ds'|
    && forall i :: 0 <= i < |ds| ==> ds'[i] == ds[i].(passed := ds'[i].passed, inherited := ds'[i].inherited)
  }

  lemma {:induction false} SameLast(ds: seq<Detail>, ds': seq<Detail>, decl: string)
    requires SameStatements(ds, ds')
    ensures Last(ds, decl) == Last(ds', decl)
  {
    if ds != [] {
      SameLast(ds[..|ds| - 1], ds'[..|ds'| - 1], decl);
    }
  }

  /** Annotating does not change what is inherited. */
  lemma {:induction false} SameInherited(ds: seq<Detail>, ds': seq<Detail>, axioms: set<string>, deps: set<string>)
    requires SameStatements(ds, ds')
    ensures AllInherited(ds, axioms, deps) <==> AllInherited(ds', axioms, deps)
  {
    forall dep, axiom ensures Carries(ds, dep, axiom) <==> Carries(ds', dep, axiom) {
      SameLast(ds, ds', dep);
    }
  }

  /** Entry `j` is the last of its declaration, which is a dependency of `d`, and carries the axiom. */
  ghost predicate IsSource(ds: seq<Detail>, d: Detail, axiom: string, j: int) {
    && 0 <= j < |ds| && ds[j].decl != "" && ds[j].decl in d.transitive && axiom in ds[j].axioms
    && forall k :: j < k < |ds| ==> ds[k].decl != ds[j].decl
  }

  /** Nothing but axioms is wrong with the statement, and each of them is wrong with a dependency too. */
  ghost predicate OnlyInherits(ds: seq<Detail>, d: Detail) {
    && d.axiomOnly && d.axioms != {}
    && forall axiom :: axiom in d.axioms ==> exists j :: IsSource(ds, d, axiom, j)
  }

  lemma {:induction false} LastIs(ds: seq<Detail>, j: nat)
    requires j < |ds| && forall k :: j < k < |ds| ==> ds[k].decl != ds[j].decl
    ensures Last(ds, ds[j].decl) == j
  {
  }

  /** Which entries pass afterwards, and what is noted in each case. */
  lemma {:induction false} AnnotatedMeans(ds: seq<Detail>, d: Detail)
    ensures Annotated(ds, d).passed <==> d.passed || OnlyInherits(ds, d)
    ensures Annotated(ds, d).inherited == if d.passed then None else Some(OnlyInherits(ds, d))
    ensures Annotated(ds, d) ==
            d.(passed := Annotated(ds, d).passed, inherited := Annotated(ds, d).inherited)
  {
    if AllInherited(ds, d.axioms, d.transitive) {
      forall axiom | axiom in d.axioms ensures exists j :: IsSource(ds, d, axiom, j) {
        var dep :| dep in d.transitive && Carries(ds, dep, axiom);
        assert IsSource(ds, d, axiom, Last(ds, dep));
      }
    }
    if forall axiom :: axiom in d.axioms ==> exists j :: IsSource(ds, d, axiom, j) {
      forall axiom | axiom in d.axioms ensures exists dep :: dep in d.transitive && Carries(ds, dep, axiom) {
        var j :| IsSource(ds, d, axiom, j);
        LastIs(ds, j);
        assert Carries(ds, ds[j].decl, axiom);
      }
    }
  }

  /** The entries that pass are counted. */
  lemma {:induction false} CountPassedIs(ds: seq<Detail>)
    ensures CountPassed(ds) == |PassedOf(ds)|
  {
    if ds != [] {
      var n := |ds| - 1;
      CountPassedIs(ds[..n]);
      if ds[n].passed {
        assert PassedOf(ds) == PassedOf(ds[..n]) + {n};
      } else {
        assert PassedOf(ds) == PassedOf(ds[..n]);
      }
    }
  }

  /** The indices of the entries that pass. */
  function PassedOf(ds: seq<Detail>): set<int> {
    set i | 0 <= i < |ds| && ds[i].passed
  }

  // ----- The algorithm -----

  /** Later entries for the same declaration replace earlier ones. */
  method BuildLookup(details: array<Detail>) returns (lookup: map<string, nat>)
    ensures forall k :: k in lookup <==> k != "" && Last(details[..], k) >= 0
    ensures forall k :: k in lookup ==> lookup[k] == Last(details[..], k)
  {
    lookup := map[];
    for i := 0 to details.Length
      invariant forall k :: k in lookup <==> k != "" && Last(details[..i], k) >= 0
      invariant forall k :: k in lookup ==> lookup[k] == Last(details[..i], k)
    {
      assert details[..i + 1][..i] == details[..i];
      if details[i].decl != "" {
        lookup := lookup[details[i].decl := i];
      }
    }
    assert details[..details.Length] == details[..];
  }

  /** Searches the dependencies for one that carries the axiom. */
  method IsInherited(details: array<Detail>, lookup: map<string, nat>, deps: set<string>, axiom: string)
    returns (inherited: bool)
    requires forall k :: k in lookup <==> k != "" && Last(details[..], k) >= 0
    requires forall k :: k in lookup ==> lookup[k] == Last(details[..], k)
    ensures inherited <==> exists dep :: dep in deps && Carries(details[..], dep, axiom)
  {
    var rest := deps;
    while rest != {}
      invariant rest <= deps
      invariant forall dep :: dep in deps && dep !in rest ==> !Carries(details[..], dep, axiom)
    {
      var dep :| dep in rest;
      if dep in lookup && axiom in details[lookup[dep]].axioms {
        assert Carries(details[..], dep, axiom);
        return true;
      }
      rest := rest - {dep};
    }
    inherited := false;
  }

  method CheckAllInherited(details: array<Detail>, lookup: map<string, nat>, axioms: set<string>, deps: set<string>)
    returns (all: bool)
    requires forall k :: k in lookup <==> k != "" && Last(details[..], k) >= 0
    requires forall k :: k in lookup ==> lookup[k] == Last(details[..], k)
    ensures all <==> AllInherited(details[..], axioms, deps)
  {
    var rest := axioms;
    while rest != {}
      invariant rest <= axioms
      invariant forall axiom :: axiom in axioms && axiom !in rest ==>
                  exists dep :: dep in deps && Carries(details[..], dep, axiom)
    {
      var axiom :| axiom in rest;
      var inherited := IsInherited(details, lookup, deps, axiom);
      if !inherited {
        return false;
      }
      rest := rest - {axiom};
    }
    all := true;
  }

  /** Annotates every statement in place and recomputes the summary. */
  method AnnotateInheritedFailures(details: array<Detail>, total: int) returns (summary: Summary)
    modifies details
    ensures details[..] == Annotate(old(details[..]))
    ensures forall i :: 0 <= i < details.Length ==>
              var d := old(details[..])[i];
              && (details[i].passed <==> d.passed || OnlyInherits(old(details[..]), d))
              && details[i].inherited == (if d.passed then None else Some(OnlyInherits(old(details[..]), d)))
              && details[i] == d.(passed := details[i].passed, inherited := details[i].inherited)
    ensures summary == Summary(total, |PassedOf(details[..])|, total - |PassedOf(details[..])|)
  {
    AnnotateAll(details);
    forall i | 0 <= i < details.Length ensures details[i] == Annotated(old(details[..]), old(details[..])[i]) {
    }
    forall i | 0 <= i < details.Length
      ensures details[i].passed <==> old(details[..])[i].passed || OnlyInherits(old(details[..]), old(details[..])[i])
      ensures details[i].inherited ==
              if old(details[..])[i].passed then None
              else Some(OnlyInherits(old(details[..]), old(details[..])[i]))
      ensures details[i] == old(details[..])[i].(passed := details[i].passed, inherited := details[i].inherited)
    {
      AnnotatedMeans(old(details[..]), old(details[..])[i]);
    }
    var passed := CountAll(details);
    summary := Summary(total, passed, total - passed);
  }

  method AnnotateAll(details: array<Detail>)
    modifies details
    ensures details[..] == Annotate(old(details[..]))
  {
    ghost var ds := details[..];
    var lookup := BuildLookup(details);
    for i := 0 to details.Length
      invariant SameStatements(ds, details[..])
      invariant forall j :: 0 <= j < i ==> details[j] == Annotated(ds, ds[j])
      invariant forall j :: i <= j < details.Length ==> details[j] == ds[j]
    {
      var d := details[i];
      if d.passed {
        details[i] := d.(inherited := None);
      } else if !d.axiomOnly || d.axioms == {} {
        details[i] := d.(inherited := Some(false));
      } else {
        forall k ensures Last(details[..], k) == Last(ds, k) {
          SameLast(ds, details[..], k);
        }
        var all := CheckAllInherited(details, lookup, d.axioms, d.transitive);
        SameInherited(ds, details[..], d.axioms, d.transitive);
        details[i] := d.(inherited := Some(all), passed := all);
      }
    }
    assert details[..] == Annotate(ds);
  }

  method CountAll(details: array<Detail>) returns (passed: nat)
    ensures passed == |PassedOf(details[..])|
  {
    passed := 0;
    for i := 0 to details.Length
      invariant passed == CountPassed(details[..i])
    {
      assert details[..i + 1][..i] == details[..i];
      if details[i].passed {
        passed := passed + 1;
      }
    }
    assert details[..details.Length] == details[..];
    CountPassedIs(details[..]);
  }

  // ----- What the annotation means -----

  /** What an evaluated dependency depends on is a dependency too. */
  ghost predicate IsClosure(ds: seq<Detail>) {
    forall d, dep :: d in ds && dep in d.transitive && dep != "" && Last(ds, dep) >= 0 ==>
      ds[Last(ds, dep)].transitive <= d.transitive
  }

  /** No declared statement depends on itself. */
  ghost predicate Irreflexive(ds: seq<Detail>) {
    forall d :: d in ds && d.decl != "" ==> d.decl !in d.transitive
  }

  /** Some evaluated dependency carries the axiom and was not itself flipped. */
  ghost predicate HasRoot(ds: seq<Detail>, d: Detail, axiom: string) {
    exists dep :: dep in d.transitive && Carries(ds, dep, axiom) && !Flipped(ds, ds[Last(ds, dep)])
  }

  /** For each axiom of a flipped statement there is a root cause among its dependencies. */
  lemma {:induction false} RootCause(ds: seq<Detail>, d: Detail, axiom: string)
    requires IsClosure(ds) && Irreflexive(ds) && d in ds && Flipped(ds, d) && axiom in d.axioms
    ensures HasRoot(ds, d, axiom)
    decreases |d.transitive|
  {
    var dep :| dep in d.transitive && Carries(ds, dep, axiom);
    var e := ds[Last(ds, dep)];
    assert e in ds;
    if Flipped(ds, e) {
      Smaller(e.transitive, d.transitive, dep);
      RootCause(ds, e, axiom);
      var root :| root in e.transitive && Carries(ds, root, axiom) && !Flipped(ds, ds[Last(ds, root)]);
      assert root in d.transitive;
    }
  }

  /** The same declarations with the same dependencies; the verdicts may differ. */
  ghost predicate SameGraph(ds: seq<Detail>, ds': seq<Detail>) {
    && |ds| == |ds'|
    && forall i :: 0 <= i < |ds| ==> ds'[i].decl == ds[i].decl && ds'[i].transitive == ds[i].transitive
  }

  /** Every flipped statement has a root cause for each of its axioms. */
  ghost predicate AllHaveRoots(ds: seq<Detail>) {
    forall d, axiom :: d in ds && Flipped(ds, d) && axiom in d.axioms ==> HasRoot(ds, d, axiom)
  }

  lemma {:induction false} SameGraphLast(ds: seq<Detail>, ds': seq<Detail>, decl: string)
    requires SameGraph(ds, ds')
    ensures Last(ds, decl) == Last(ds', decl)
  {
    if ds != [] {
      SameGraphLast(ds[..|ds| - 1], ds'[..|ds'| - 1], decl);
    }
  }

  /** The graph alone decides whether it is closed and irreflexive. */
  lemma {:induction false} GraphDecides(ds: seq<Detail>, ds': seq<Detail>)
    requires SameGraph(ds, ds') && IsClosure(ds) && Irreflexive(ds)
    ensures IsClosure(ds') && Irreflexive(ds')
  {
    forall d, dep | d in ds' && dep in d.transitive && dep != "" && Last(ds', dep) >= 0
      ensures ds'[Last(ds', dep)].transitive <= d.transitive
    {
      SameGraphLast(ds, ds', dep);
      var i :| 0 <= i < |ds'| && ds'[i] == d;
      assert ds[i] in ds;
    }
    forall d | d in ds' && d.decl != "" ensures d.decl !in d.transitive {
      var i :| 0 <= i < |ds'| && ds'[i] == d;
      assert ds[i] in ds;
    }
  }

  /** Verdicts in which only statement `k` fails, for one axiom. */
  function OnlyFailure(ds: seq<Detail>, k: nat): (r: seq<Detail>)
    ensures SameGraph(ds, r)
  {
    seq(|ds|, i requires 0 <= i < |ds| =>
      Detail(ds[i].decl, i != k, i == k, if i == k then {"axiom"} else {}, ds[i].transitive, None))
  }

  /** A statement that depends on itself flips without any root cause if it alone fails. */
  lemma {:induction false} SelfDependencyHasNoRoot(ds: seq<Detail>, k: nat)
    requires UniqueDecls(ds) && k < |ds| && ds[k].decl != "" && ds[k].decl in ds[k].transitive
    ensures SameGraph(ds, OnlyFailure(ds, k)) && !AllHaveRoots(OnlyFailure(ds, k))
  {
    var r := OnlyFailure(ds, k);
    var d := r[k];
    assert Last(r, d.decl) == k;
    assert Carries(r, d.decl, "axiom");
    assert Flipped(r, d);
    forall dep | Carries(r, dep, "axiom") ensures Flipped(r, r[Last(r, dep)]) {
    }
    assert d in r && !HasRoot(r, d, "axiom");
  }

  /**
   With unique declarations and transitive dependencies: whatever the verdicts are, every flipped statement
   has its root causes, if and only if no declared statement depends on itself.
   */
  lemma {:induction false} RootsJustIfIrreflexive(ds: seq<Detail>)
    requires UniqueDecls(ds) && IsClosure(ds)
    ensures (forall ds' :: SameGraph(ds, ds') ==> AllHaveRoots(ds')) <==> Irreflexive(ds)
  {
    if Irreflexive(ds) {
      forall ds' | SameGraph(ds, ds') ensures AllHaveRoots(ds') {
        GraphDecides(ds, ds');
        forall d, axiom | d in ds' && Flipped(ds', d) && axiom in d.axioms ensures HasRoot(ds', d, axiom) {
          RootCause(ds', d, axiom);
        }
      }
    } else {
      var d :| d in ds && d.decl != "" && d.decl in d.transitive;
      var k :| 0 <= k < |ds| && ds[k] == d;
      SelfDependencyHasNoRoot(ds, k);
    }
  }

  lemma {:induction false} Smaller(s: set<string>, t: set<string>, x: string)
    requires s <= t && x in t && x !in s
    ensures |s| < |t|
  {
    var rest := t - {x} - s;
    assert t == s + rest + {x};
  }

  ghost predicate UniqueDecls(ds: seq<Detail>) {
    forall i, j :: 0 <= i < j < |ds| && ds[i].decl == ds[j].decl ==> ds[i].decl == ""
  }

  lemma {:induction false} SameElements(ds: seq<Detail>, ds': seq<Detail>, d: Detail)
    requires multiset(ds) == multiset(ds')
    ensures d in ds <==> d in ds'
  {
    assert d in multiset(ds) <==> d in multiset(ds');
  }

  lemma {:induction false} CarriesReordered(ds: seq<Detail>, ds': seq<Detail>, dep: string, axiom: string)
    requires UniqueDecls(ds) && multiset(ds) == multiset(ds') && Carries(ds', dep, axiom)
    ensures Carries(ds, dep, axiom)
  {
    var e := ds'[Last(ds', dep)];
    SameElements(ds, ds', e);
    var i :| 0 <= i < |ds| && ds[i] == e;
    assert Last(ds, dep) >= i;
  }

  lemma {:induction false} UniqueReordered(ds: seq<Detail>, ds': seq<Detail>)
    requires UniqueDecls(ds) && multiset(ds) == multiset(ds')
    ensures UniqueDecls(ds')
  {
    forall i, j | 0 <= i < j < |ds'| && ds'[i].decl == ds'[j].decl ensures ds'[i].decl == "" {
      if ds'[i] == ds'[j] {
        TwiceIn(ds', i, j);
        if ds'[i].decl != "" {
          OnceIn(ds, ds'[i]);
        }
      } else {
        SameElements(ds, ds', ds'[i]);
        SameElements(ds, ds', ds'[j]);
      }
    }
  }

  lemma {:induction false} TwiceIn(ds: seq<Detail>, i: nat, j: nat)
    requires i < j < |ds| && ds[i] == ds[j]
    ensures multiset(ds)[ds[i]] >= 2
  {
    assert ds == ds[..j] + [ds[j]] + ds[j + 1..];
    assert ds[i] == ds[..j][i];
    assert ds[i] in multiset(ds[..j]);
  }

  lemma {:induction false} OnceIn(ds: seq<Detail>, d: Detail)
    requires UniqueDecls(ds) && d.decl != ""
    ensures multiset(ds)[d] <= 1
  {
    if ds != [] {
      var n := |ds| - 1;
      assert ds == ds[..n] + [ds[n]];
      OnceIn(ds[..n], d);
      if ds[n] == d {
        assert d !in ds[..n];
      }
    }
  }

  /** With unique declarations the order of the list does not matter. */
  lemma {:induction false} OrderDoesNotMatter(ds: seq<Detail>, ds': seq<Detail>)
    requires UniqueDecls(ds) && multiset(ds) == multiset(ds')
    ensures forall d :: Annotated(ds, d) == Annotated(ds', d)
    ensures multiset(Annotate(ds)) == multiset(Annotate(ds'))
  {
    UniqueReordered(ds, ds');
    forall d ensures Annotated(ds, d) == Annotated(ds', d) {
      forall dep, axiom ensures Carries(ds, dep, axiom) <==> Carries(ds', dep, axiom) {
        if Carries(ds, dep, axiom) {
          CarriesReordered(ds', ds, dep, axiom);
        }
        if Carries(ds', dep, axiom) {
          CarriesReordered(ds, ds', dep, axiom);
        }
      }
    }
    MapReordered(ds, ds', d => Annotated(ds, d));
    assert Annotate(ds) == Mapped(ds, d => Annotated(ds, d));
    assert Annotate(ds') == Mapped(ds', d => Annotated(ds, d));
  }

  function Mapped(ds: seq<Detail>, f: Detail -> Detail): (r: seq<Detail>)
    ensures |r| == |ds| && forall i :: 0 <= i < |ds| ==> r[i] == f(ds[i])
  {
    if ds == [] then [] else Mapped(ds[..|ds| - 1], f) + [f(ds[|ds| - 1])]
  }

  lemma {:induction false} MapReordered(ds: seq<Detail>, ds': seq<Detail>, f: Detail -> Detail)
    requires multiset(ds) == multiset(ds')
    ensures multiset(Mapped(ds, f)) == multiset(Mapped(ds', f))
  {
    if ds == [] {
      assert |multiset(ds')| == 0;
      assert ds' == [];
    } else {
      var n := |ds| - 1;
      var d := ds[n];
      assert ds == ds[..n] + [d];
      assert d in multiset(ds');
      var i :| 0 <= i < |ds'| && ds'[i] == d;
      var a, b := ds'[..i], ds'[i + 1..];
      SameWithoutOne(ds[..n], a, b, d, ds');
      MapReordered(ds[..n], a + b, f);
      MappedAround(a, b, d, f);
      assert ds' == a + [d] + b;
    }
  }

  lemma {:induction false} SameWithoutOne(front: seq<Detail>, a: seq<Detail>, b: seq<Detail>, d: Detail,
                                          all: seq<Detail>)
    requires multiset(front + [d]) == multiset(all) && all == a + [d] + b
    ensures multiset(front) == multiset(a + b)
  {
    assert multiset(front) == multiset(front + [d]) - multiset{d};
    assert multiset(a + b) == multiset(a + [d] + b) - multiset{d};
  }

  lemma {:induction false} MappedAround(a: seq<Detail>, b: seq<Detail>, d: Detail, f: Detail -> Detail)
    ensures multiset(Mapped(a + [d] + b, f)) == multiset(Mapped(a + b, f)) + multiset{f(d)}
  {
    MappedConcat(a, b, f);
    MappedConcat(a + [d], b, f);
    MappedConcat(a, [d], f);
    assert Mapped([d], f) == [f(d)];
  }

  lemma {:induction false} MappedConcat(a: seq<Detail>, b: seq<Detail>, f: Detail -> Detail)
    ensures Mapped(a + b, f) == Mapped(a, f) + Mapped(b, f)
  {
  }

  /** A second run keeps what passed; only the marks of what it had flipped are taken back. */
  lemma {:induction false} SecondRun(ds: seq<Detail>)
    ensures SameStatements(Annotate(ds), Annotate(Annotate(ds)))
    ensures forall i :: 0 <= i < |ds| ==>
              && Annotate(Annotate(ds))[i].passed == Annotate(ds)[i].passed
              && (Annotate(Annotate(ds))[i].inherited ==
                  if Flipped(ds, ds[i]) then None else Annotate(ds)[i].inherited)
  {
    var once := Annotate(ds);
    forall i | 0 <= i < |ds|
      ensures Annotate(once)[i] == once[i].(inherited := if Flipped(ds, ds[i]) then None else once[i].inherited)
    {
      SameInherited(ds, once, ds[i].axioms, ds[i].transitive);
    }
  }

  /** How many statements the annotation flips. */
  function CountFlipped(ds: seq<Detail>, front: seq<Detail>): nat {
    if front == [] then 0
    else CountFlipped(ds, front[..|front| - 1]) + if Flipped(ds, front[|front| - 1]) then 1 else 0
  }

  /** What passed still passes, and the summary grows by just what was flipped. */
  lemma {:induction false} PassedGrowsByFlipped(ds: seq<Detail>, n: nat)
    requires n <= |ds|
    ensures CountPassed(Annotate(ds)[..n]) == CountPassed(ds[..n]) + CountFlipped(ds, ds[..n])
    ensures CountPassed(Annotate(ds)[..n]) <= n
  {
    if n > 0 {
      PassedGrowsByFlipped(ds, n - 1);
      assert Annotate(ds)[..n][..n - 1] == Annotate(ds)[..n - 1];
      assert ds[..n][..n - 1] == ds[..n - 1];
    }
  }
}
