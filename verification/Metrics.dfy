/** The pass@k estimator, core/eval/metrics.py:76-100. Floating point is replaced by exact reals. */
module Metrics {
  import opened Sequences

  /** The number of ways to choose k of n. */
  function Comb(n: nat, k: nat): nat {
    if k == 0 then 1 else if n == 0 then 0 else Comb(n - 1, k - 1) + Comb(n - 1, k)
  }

  lemma {:induction false} CombIsZero(n: nat, k: nat)
    ensures Comb(n, k) == 0 <==> n < k
  {
    if k > 0 && n > 0 {
      CombIsZero(n - 1, k - 1);
      CombIsZero(n - 1, k);
    }
  }

  lemma {:induction false} CombMonotone(m: nat, n: nat, k: nat)
    requires m <= n
    ensures Comb(m, k) <= Comb(n, k)
    decreases n
  {
    if m < n && k > 0 {
      CombMonotone(m, n - 1, k);
    }
  }

  lemma {:induction false} CombOne(n: nat)
    ensures Comb(n, 1) == n
  {
    if n > 0 {
      CombOne(n - 1);
    }
  }

  /** The k-element subsets of `s`. */
  ghost function Subsets<T(!new)>(s: set<T>, k: nat): set<set<T>> {
    set t | t <= s && |t| == k
  }

  /** Those that contain one of `passed`. */
  ghost function SubsetsWithPass<T(!new)>(s: set<T>, passed: set<T>, k: nat): set<set<T>> {
    set t | t in Subsets(s, k) && t * passed != {}
  }

  ghost function WithElement<T(!new)>(sets: set<set<T>>, x: T): set<set<T>> {
    set t | t in sets :: t + {x}
  }

  lemma {:induction false} SubsetsSplit<T(!new)>(s: set<T>, x: T, k: nat)
    requires x !in s && k > 0
    ensures Subsets(s + {x}, k) == Subsets(s, k) + WithElement(Subsets(s, k - 1), x)
    ensures Subsets(s, k) !! WithElement(Subsets(s, k - 1), x)
  {
    forall t ensures t in Subsets(s + {x}, k) <==> t in Subsets(s, k) || t in WithElement(Subsets(s, k - 1), x) {
      if t in Subsets(s + {x}, k) && x in t {
        var u := t - {x};
        assert u in Subsets(s, k - 1) && t == u + {x};
      }
      if t in WithElement(Subsets(s, k - 1), x) {
        var u :| u in Subsets(s, k - 1) && t == u + {x};
        assert x !in u;
      }
    }
  }

  lemma {:induction false} AddedApart<T(!new)>(t: set<T>, v: set<T>, x: T)
    requires x !in t && x !in v && t != v
    ensures t + {x} != v + {x}
  {
    assert (t + {x}) - {x} == t && (v + {x}) - {x} == v;
  }

  lemma {:induction false} WithElementPush<T(!new)>(sets: set<set<T>>, t: set<T>, x: T)
    ensures WithElement(sets + {t}, x) == WithElement(sets, x) + {t + {x}}
  {
    forall u ensures u in WithElement(sets + {t}, x) <==> u in WithElement(sets, x) || u == t + {x} {
      assert t in sets + {t};
      assert forall v :: v in sets + {t} <==> v in sets || v == t;
    }
  }

  lemma {:induction false} WithElementSize<T(!new)>(sets: set<set<T>>, x: T)
    requires forall t :: t in sets ==> x !in t
    ensures |WithElement(sets, x)| == |sets|
  {
    if sets != {} {
      var t :| t in sets;
      var rest := sets - {t};
      WithElementSize(rest, x);
      WithElementPush(rest, t, x);
      assert sets == rest + {t};
      WithElementNew(rest, t, x);
    }
  }

  lemma {:induction false} WithElementNew<T(!new)>(rest: set<set<T>>, t: set<T>, x: T)
    requires t !in rest && x !in t && forall v :: v in rest ==> x !in v
    ensures t + {x} !in WithElement(rest, x)
  {
    forall v | v in rest ensures v + {x} != t + {x} {
      AddedApart(t, v, x);
    }
  }

  lemma {:induction false} OneMoreElement<T(!new)>(s: set<T>, x: T, k: nat)
    requires x !in s && k > 0
    ensures |Subsets(s + {x}, k)| == |Subsets(s, k)| + |Subsets(s, k - 1)|
  {
    SubsetsSplit(s, x, k);
    WithElementSize(Subsets(s, k - 1), x);
  }

  /** Comb counts subsets. */
  lemma {:induction false} CombCountsSubsets<T(!new)>(s: set<T>, k: nat)
    ensures |Subsets(s, k)| == Comb(|s|, k)
    decreases |s|
  {
    if k == 0 {
      assert Subsets(s, 0) == {{}};
    } else if s == {} {
      assert Subsets(s, k) == {};
    } else {
      var x :| x in s;
      var rest := s - {x};
      CombCountsSubsets(rest, k);
      CombCountsSubsets(rest, k - 1);
      OneMoreElement(rest, x, k);
      assert s == rest + {x};
    }
  }

  /** A subset either contains a pass or is one of the rest. */
  lemma {:induction false} SubsetsByPass<T(!new)>(samples: set<T>, passed: set<T>, k: nat)
    ensures |Subsets(samples, k)| == |SubsetsWithPass(samples, passed, k)| + |Subsets(samples - passed, k)|
  {
    var with, without := SubsetsWithPass(samples, passed, k), Subsets(samples - passed, k);
    forall t ensures t in Subsets(samples, k) <==> t in with || t in without {
      if t in Subsets(samples, k) && t * passed == {} {
        forall x | x in t ensures x in samples - passed {
          assert x in passed ==> x in t * passed;
        }
      }
    }
    assert Subsets(samples, k) == with + without;
    forall t | t in without ensures t !in with {
      assert t <= samples - passed;
      assert t * passed == {};
    }
  }

  /** The estimate for one datum with `n` samples of which `c` passed. */
  function Estimate(n: nat, c: nat, k: nat): real
    requires c <= n && k <= n
  {
    CombIsZero(n, k);
    if n - c < k then 1.0 else 1.0 - Comb(n - c, k) as real / Comb(n, k) as real
  }

  lemma {:induction false} DivideMultiply(a: real, b: real)
    requires b > 0.0
    ensures (a / b) * b == a
  {
  }

  /** The same without the shortcut. */
  lemma {:induction false} EstimateIsRatio(n: nat, c: nat, k: nat)
    requires c <= n && k <= n
    ensures Comb(n, k) > 0
    ensures Estimate(n, c, k) * Comb(n, k) as real == Comb(n, k) as real - Comb(n - c, k) as real
  {
    CombIsZero(n, k);
    CombIsZero(n - c, k);
    var all, bad := Comb(n, k) as real, Comb(n - c, k) as real;
    if n - c >= k {
      DivideMultiply(bad, all);
      assert (1.0 - bad / all) * all == all - (bad / all) * all;
    }
  }

  lemma {:induction false} EstimateIs(n: nat, c: nat, k: nat, with: nat, all: nat)
    requires c <= n && k <= n && all == Comb(n, k) == with + Comb(n - c, k)
    ensures all > 0 && Estimate(n, c, k) == with as real / all as real
  {
    EstimateIsRatio(n, c, k);
    assert all as real == with as real + Comb(n - c, k) as real;
    Quotient(Estimate(n, c, k), with as real, all as real);
  }

  /** The estimate is the fraction of the k-element subsets of the samples that contain a pass. */
  lemma {:induction false} EstimateIsFraction<T(!new)>(samples: set<T>, passed: set<T>, k: nat)
    requires passed <= samples && k <= |samples|
    ensures |Subsets(samples, k)| > 0 && |passed| <= |samples|
    ensures Estimate(|samples|, |passed|, k) ==
              |SubsetsWithPass(samples, passed, k)| as real / |Subsets(samples, k)| as real
  {
    RestSize(samples, passed);
    CombCountsSubsets(samples, k);
    CombCountsSubsets(samples - passed, k);
    SubsetsByPass(samples, passed, k);
    var with, all := |SubsetsWithPass(samples, passed, k)|, |Subsets(samples, k)|;
    EstimateIs(|samples|, |passed|, k, with, all);
  }

  lemma {:induction false} RestSize<T(!new)>(samples: set<T>, passed: set<T>)
    requires passed <= samples
    ensures |samples - passed| == |samples| - |passed|
  {
    assert samples == passed + (samples - passed);
  }

  lemma {:induction false} Quotient(q: real, a: real, b: real)
    requires b > 0.0 && q * b == a
    ensures q == a / b
  {
  }

  lemma {:induction false} EstimateGrows(n: nat, c: nat, d: nat, k: nat)
    requires c <= d <= n && k <= n
    ensures Estimate(n, c, k) <= Estimate(n, d, k)
  {
    CombMonotone(n - d, n - c, k);
    CombMonotone(n - c, n, k);
    var all := Comb(n, k);
    EstimateIs(n, c, k, all - Comb(n - c, k), all);
    EstimateIs(n, d, k, all - Comb(n - d, k), all);
    QuotientGrows(all - Comb(n - c, k), all - Comb(n - d, k), all);
  }

  lemma {:induction false} QuotientGrows(a: nat, b: nat, all: nat)
    requires a <= b && all > 0
    ensures a as real / all as real <= b as real / all as real
  {
    DivideMultiply(a as real, all as real);
    DivideMultiply(b as real, all as real);
    Compare(a as real / all as real, b as real / all as real, all as real);
  }

  lemma {:induction false} EstimateAtEnds(n: nat, k: nat)
    requires k <= n
    ensures Estimate(n, 0, k) == 0.0
    ensures Estimate(n, n, k) <= 1.0
  {
    EstimateIsRatio(n, 0, k);
    EstimateIsRatio(n, n, k);
    Quotient(Estimate(n, 0, k), 0.0, Comb(n, k) as real);
    Compare(Estimate(n, n, k), 1.0, Comb(n, k) as real);
  }

  /** It lies between 0 and 1, grows with the passes, and is 1 just when every choice of k has a pass. */
  lemma {:induction false} EstimateBounds(n: nat, c: nat, d: nat, k: nat)
    requires c <= d <= n && k <= n
    ensures 0.0 <= Estimate(n, c, k) <= Estimate(n, d, k) <= 1.0
    ensures Estimate(n, c, k) == 1.0 <==> n - c < k
  {
    EstimateAtEnds(n, k);
    EstimateGrows(n, 0, c, k);
    EstimateGrows(n, c, d, k);
    EstimateGrows(n, d, n, k);
    if n - c >= k {
      EstimateIsRatio(n, c, k);
      CombIsZero(n - c, k);
    }
  }

  lemma {:induction false} PositiveProduct(d: real, b: real)
    requires d > 0.0 && b > 0.0
    ensures d * b > 0.0
  {
  }

  lemma {:induction false} Compare(p: real, q: real, b: real)
    requires b > 0.0 && p * b <= q * b
    ensures p <= q
  {
    assert (p - q) * b == p * b - q * b;
    if p > q {
      PositiveProduct(p - q, b);
    }
  }

  lemma {:induction false} EstimateAtOne(n: nat, c: nat)
    requires c <= n && 1 <= n
    ensures Estimate(n, c, 1) == c as real / n as real
  {
    CombOne(n);
    CombOne(n - c);
    EstimateIs(n, c, 1, c, n);
  }

  function CountPassed(group: seq<bool>): (c: nat)
    ensures c <= |group|
  {
    if group == [] then 0 else CountPassed(group[..|group| - 1]) + if group[|group| - 1] then 1 else 0
  }

  /** The samples of a group, as their indices, and those of them that passed. */
  ghost function Samples(group: seq<bool>): set<nat> {
    Numbers(|group|)
  }

  ghost function Passing(group: seq<bool>): set<nat> {
    set i: nat | i < |group| && group[i]
  }

  /** Passes are counted, each once. */
  lemma {:induction false} CountPassedIs(group: seq<bool>)
    ensures |Samples(group)| == |group| && Passing(group) <= Samples(group)
    ensures CountPassed(group) == |Passing(group)|
  {
    NumbersSize(|group|);
    if group != [] {
      var n := |group| - 1;
      CountPassedIs(group[..n]);
      if group[n] {
        assert Passing(group) == Passing(group[..n]) + {n};
      } else {
        assert Passing(group) == Passing(group[..n]);
      }
    }
  }

  /** The fraction of the k-element choices of a group's samples that contain a pass. */
  ghost function PassFraction(group: seq<bool>, k: nat): real
    requires k <= |group|
  {
    CountPassedIs(group);
    EstimateIsFraction(Samples(group), Passing(group), k);
    |SubsetsWithPass(Samples(group), Passing(group), k)| as real / |Subsets(Samples(group), k)| as real
  }

  /** The sum of these fractions over the groups that have at least k samples, and how many groups these are. */
  ghost function TotalFraction(groups: seq<seq<bool>>, k: nat): real {
    if groups == [] then 0.0
    else
      var group := groups[|groups| - 1];
      TotalFraction(groups[..|groups| - 1], k) + if |group| < k then 0.0 else PassFraction(group, k)
  }

  ghost function Qualified(groups: seq<seq<bool>>, k: nat): set<nat> {
    set i: nat | i < |groups| && |groups[i]| >= k
  }

  lemma {:induction false} EstimatesAre(groups: seq<seq<bool>>, k: nat)
    ensures |Estimates(groups, k)| == |Qualified(groups, k)|
    ensures Sum(Estimates(groups, k)) == TotalFraction(groups, k)
  {
    if groups != [] {
      var n := |groups| - 1;
      var group := groups[n];
      EstimatesAre(groups[..n], k);
      var front := Estimates(groups[..n], k);
      if |group| < k {
        assert Qualified(groups, k) == Qualified(groups[..n], k);
        assert front + [] == front;
      } else {
        assert Qualified(groups, k) == Qualified(groups[..n], k) + {n};
        CountPassedIs(group);
        EstimateIsFraction(Samples(group), Passing(group), k);
        SumPush(front, Estimate(|group|, CountPassed(group), k));
      }
    }
  }

  lemma {:induction false} SumPush(xs: seq<real>, x: real)
    ensures Sum(xs + [x]) == Sum(xs) + x
  {
    assert (xs + [x])[..|xs|] == xs;
  }

  /** The estimates of the groups that have at least k samples, in order. */
  function Estimates(groups: seq<seq<bool>>, k: nat): seq<real> {
    if groups == [] then []
    else
      var group := groups[|groups| - 1];
      Estimates(groups[..|groups| - 1], k) + if |group| < k then [] else [Estimate(|group|, CountPassed(group), k)]
  }

  function Sum(xs: seq<real>): real {
    if xs == [] then 0.0 else Sum(xs[..|xs| - 1]) + xs[|xs| - 1]
  }

  function Mean(xs: seq<real>): real {
    if xs == [] then 0.0 else Sum(xs) / |xs| as real
  }

  /** The mean over the groups with enough samples; 0 if there are none. */
  method PassAtK(groups: seq<seq<bool>>, k: nat) returns (value: real)
    ensures value == Mean(Estimates(groups, k))
    ensures 0.0 <= value <= 1.0
    ensures Qualified(groups, k) == {} ==> value == 0.0
    ensures value * |Qualified(groups, k)| as real == TotalFraction(groups, k)
  {
    var estimates: seq<real> := [];
    for i := 0 to |groups|
      invariant estimates == Estimates(groups[..i], k)
    {
      assert groups[..i + 1][..i] == groups[..i];
      var n := |groups[i]|;
      if n < k {
        continue;
      }
      var c := CountPasses(groups[i]);
      if n - c < k {
        assert Estimate(n, c, k) == 1.0;
        estimates := estimates + [1.0];
      } else {
        CombIsZero(n, k);
        estimates := estimates + [1.0 - Comb(n - c, k) as real / Comb(n, k) as real];
      }
    }
    assert groups[..|groups|] == groups;
    MeanBounds(groups, k);
    EstimatesAre(groups, k);
    if estimates != [] {
      DivideMultiply(Sum(estimates), |estimates| as real);
    }
    value := if estimates == [] then 0.0 else Sum(estimates) / |estimates| as real;
  }

  method CountPasses(group: seq<bool>) returns (c: nat)
    ensures c == CountPassed(group) == |Passing(group)|
  {
    CountPassedIs(group);
    c := 0;
    for i := 0 to |group|
      invariant c == CountPassed(group[..i])
    {
      assert group[..i + 1][..i] == group[..i];
      if group[i] {
        c := c + 1;
      }
    }
    assert group[..|group|] == group;
  }

  lemma {:induction false} SumBounds(groups: seq<seq<bool>>, k: nat)
    ensures 0.0 <= Sum(Estimates(groups, k)) <= |Estimates(groups, k)| as real
  {
    if groups != [] {
      var n := |groups| - 1;
      SumBounds(groups[..n], k);
      var group := groups[n];
      if |group| >= k {
        EstimateBounds(|group|, CountPassed(group), CountPassed(group), k);
        var front := Estimates(groups[..n], k);
        var last := Estimate(|group|, CountPassed(group), k);
        assert (front + [last])[..|front|] == front;
      } else {
        assert Estimates(groups, k) == Estimates(groups[..n], k);
      }
    }
  }

  lemma {:induction false} MeanBounds(groups: seq<seq<bool>>, k: nat)
    ensures 0.0 <= Mean(Estimates(groups, k)) <= 1.0
  {
    SumBounds(groups, k);
    var xs := Estimates(groups, k);
    if xs != [] {
      var n := |xs| as real;
      DivideMultiply(Sum(xs), n);
      Compare(0.0, Mean(xs), n);
      Compare(Mean(xs), 1.0, n);
    }
  }
}
