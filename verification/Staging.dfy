/**
 What staging a list of merge requests means, apart from any queue: which requests stage, that a
 staged list replays, and how many builds a bisect needs.
 */
module Staging {
  import opened Sequences
  import opened Git

  /** A merge request; `ticket` stands for the identity of its future. */
  datatype Request = Request(ticket: nat, agentId: string)

  /** The commits each request's worktree holds ahead of the branch it was last rebased onto. */
  type Worktrees = map<Request, seq<Commit>>

  function Patch(trees: Worktrees, r: Request): seq<Commit> {
    if r in trees then trees[r] else []
  }

  /** `base` with the patches of the requests on top, in order. */
  function Tip(trees: Worktrees, base: History, rs: seq<Request>): History {
    if rs == [] then base else Tip(trees, base, rs[..|rs| - 1]) + Patch(trees, rs[|rs| - 1])
  }

  lemma TipPush(trees: Worktrees, base: History, rs: seq<Request>, r: Request)
    ensures Tip(trees, base, rs + [r]) == Tip(trees, base, rs) + Patch(trees, r)
  {
    assert (rs + [r])[..|rs|] == rs;
  }

  lemma {:induction false} TipConcat(trees: Worktrees, base: History, a: seq<Request>, b: seq<Request>)
    ensures Tip(trees, base, a + b) == Tip(trees, Tip(trees, base, a), b)
  {
    if b == [] {
      assert a + b == a;
    } else {
      var n := |b| - 1;
      assert (a + b)[..|a + b| - 1] == a + b[..n];
      TipConcat(trees, base, a, b[..n]);
    }
  }

  lemma {:induction false} TipAgrees(t: Worktrees, u: Worktrees, base: History, rs: seq<Request>)
    requires forall r :: r in Elements(rs) ==> Patch(t, r) == Patch(u, r)
    ensures Tip(t, base, rs) == Tip(u, base, rs)
  {
    if rs != [] {
      TipAgrees(t, u, base, rs[..|rs| - 1]);
    }
  }

  lemma {:induction false} TipExtends(trees: Worktrees, base: History, rs: seq<Request>)
    ensures Prefix(base, Tip(trees, base, rs))
  {
    if rs != [] {
      var n := |rs| - 1;
      TipExtends(trees, base, rs[..n]);
      PrefixOfConcat(Tip(trees, base, rs[..n]), Patch(trees, rs[n]));
      PrefixTrans(base, Tip(trees, base, rs[..n]), Tip(trees, base, rs));
    }
  }

  /** Cherry-picking the requests onto `base` in this order never conflicts. */
  ghost predicate Replays(repo: Repo, trees: Worktrees, base: History, rs: seq<Request>) {
    rs == [] ||
    var n := |rs| - 1;
    Replays(repo, trees, base, rs[..n]) && repo.PicksAll(Tip(trees, base, rs[..n]), Patch(trees, rs[n]))
  }

  lemma ReplaysPush(repo: Repo, trees: Worktrees, base: History, rs: seq<Request>, r: Request)
    ensures Replays(repo, trees, base, rs + [r]) <==>
            Replays(repo, trees, base, rs) && repo.PicksAll(Tip(trees, base, rs), Patch(trees, r))
  {
    assert (rs + [r])[..|rs|] == rs;
  }

  /** A list replays just when its front replays and its back replays on top of the front. */
  lemma {:induction false} ReplaysConcat(repo: Repo, trees: Worktrees, base: History, a: seq<Request>, b: seq<Request>)
    ensures Replays(repo, trees, base, a + b) <==>
            Replays(repo, trees, base, a) && Replays(repo, trees, Tip(trees, base, a), b)
  {
    if b == [] {
      assert a + b == a;
    } else {
      var n := |b| - 1;
      assert (a + b)[..|a + b| - 1] == a + b[..n];
      ReplaysConcat(repo, trees, base, a, b[..n]);
      TipConcat(trees, base, a, b[..n]);
    }
  }

  /** The first `n` requests of the list have been cherry-picked onto `base`, giving `tip`. */
  ghost predicate PickedTo(repo: Repo, trees: Worktrees, base: History, rs: seq<Request>, n: nat, tip: History)
    requires n <= |rs|
  {
    Replays(repo, trees, base, rs[..n]) && tip == Tip(trees, base, rs[..n])
  }

  /** The first request that does not pick is the one at index `n`. */
  ghost predicate StopsAt(repo: Repo, trees: Worktrees, base: History, rs: seq<Request>, n: nat)
    requires n < |rs|
  {
    && Replays(repo, trees, base, rs[..n])
    && !repo.PicksAll(Tip(trees, base, rs[..n]), Patch(trees, rs[n]))
  }

  lemma PickedStart(repo: Repo, trees: Worktrees, base: History, rs: seq<Request>)
    ensures PickedTo(repo, trees, base, rs, 0, base)
  {
  }

  /** One more cherry-pick: it goes through just when the longer front replays. */
  lemma PickedStep(repo: Repo, trees: Worktrees, base: History, rs: seq<Request>, n: nat, tip: History)
    requires n < |rs| && PickedTo(repo, trees, base, rs, n, tip)
    ensures repo.PicksAll(tip, Patch(trees, rs[n])) ==>
              PickedTo(repo, trees, base, rs, n + 1, tip + Patch(trees, rs[n]))
    ensures !repo.PicksAll(tip, Patch(trees, rs[n])) ==>
              StopsAt(repo, trees, base, rs, n) && !Replays(repo, trees, base, rs)
  {
    UpTo(rs, n);
    TipPush(trees, base, rs[..n], rs[n]);
    ReplaysPush(repo, trees, base, rs[..n], rs[n]);
    assert rs == rs[..n + 1] + rs[n + 1..];
    ReplaysConcat(repo, trees, base, rs[..n + 1], rs[n + 1..]);
  }

  lemma PickedEnd(repo: Repo, trees: Worktrees, base: History, rs: seq<Request>, tip: History)
    requires PickedTo(repo, trees, base, rs, |rs|, tip)
    ensures Replays(repo, trees, base, rs) && tip == Tip(trees, base, rs)
  {
    assert rs[..|rs|] == rs;
  }

  /** The requests `_stage_all` stages: each one that picks cleanly onto the ones staged before it. */
  function Stageable(repo: Repo, trees: Worktrees, base: History, rs: seq<Request>): seq<Request> {
    if rs == [] then []
    else
      var n := |rs| - 1;
      var staged := Stageable(repo, trees, base, rs[..n]);
      if repo.PicksAll(Tip(trees, base, staged), Patch(trees, rs[n])) then staged + [rs[n]] else staged
  }

  lemma StageablePush(repo: Repo, trees: Worktrees, base: History, rs: seq<Request>, r: Request)
    ensures Stageable(repo, trees, base, rs + [r]) ==
            var staged := Stageable(repo, trees, base, rs);
            if repo.PicksAll(Tip(trees, base, staged), Patch(trees, r)) then staged + [r] else staged
  {
    assert (rs + [r])[..|rs|] == rs;
  }

  /** What is staged replays, was offered, and holds the first request if that picks onto main. */
  lemma {:induction false} StageableReplays(repo: Repo, trees: Worktrees, base: History, rs: seq<Request>)
    ensures Replays(repo, trees, base, Stageable(repo, trees, base, rs))
    ensures Elements(Stageable(repo, trees, base, rs)) <= Elements(rs)
    ensures |Stageable(repo, trees, base, rs)| <= |rs|
    ensures NoDup(rs) ==> NoDup(Stageable(repo, trees, base, rs))
    ensures rs != [] && repo.PicksAll(base, Patch(trees, rs[0])) ==> Stageable(repo, trees, base, rs) != []
  {
    if rs != [] {
      var n := |rs| - 1;
      StageableReplays(repo, trees, base, rs[..n]);
      var staged := Stageable(repo, trees, base, rs[..n]);
      ReplaysPush(repo, trees, base, staged, rs[n]);
      ElementsPush(staged, rs[n]);
      NoDupPush(staged, rs[n]);
      assert n == 0 ==> Tip(trees, base, staged) == base;
    }
  }

  /** `a` is what is left of `b` when some of its members are taken out. */
  ghost predicate Subsequence(a: seq<Request>, b: seq<Request>) {
    if b == [] then a == []
    else
      var m := |b| - 1;
      || Subsequence(a, b[..m])
      || (a != [] && a[|a| - 1] == b[m] && Subsequence(a[..|a| - 1], b[..m]))
  }

  lemma {:induction false} SubsequencePush(a: seq<Request>, b: seq<Request>, r: Request)
    requires Subsequence(a, b)
    ensures Subsequence(a, b + [r]) && Subsequence(a + [r], b + [r])
  {
    assert (b + [r])[..|b|] == b && (a + [r])[..|a|] == a;
  }

  /** What is staged keeps its order; and if nothing conflicts, everything is staged. */
  lemma {:induction false} StageableInOrder(repo: Repo, trees: Worktrees, base: History, rs: seq<Request>)
    ensures Subsequence(Stageable(repo, trees, base, rs), rs)
    ensures Replays(repo, trees, base, rs) ==> Stageable(repo, trees, base, rs) == rs
  {
    if rs != [] {
      var front, last := rs[..|rs| - 1], rs[|rs| - 1];
      StageableInOrder(repo, trees, base, front);
      assert rs == front + [last];
      SubsequencePush(Stageable(repo, trees, base, front), front, last);
    }
  }

  /** Nothing stays behind without need: what is not staged does not pick onto some front of what is. */
  lemma {:induction false} StageableIsMaximal(repo: Repo, trees: Worktrees, base: History, rs: seq<Request>, r: Request)
    requires r in Elements(rs) && r !in Elements(Stageable(repo, trees, base, rs))
    ensures exists n :: ConflictsAt(repo, trees, base, Stageable(repo, trees, base, rs), n, r)
  {
    var front, last := rs[..|rs| - 1], rs[|rs| - 1];
    var before, staged := Stageable(repo, trees, base, front), Stageable(repo, trees, base, rs);
    ElementsPush(before, last);
    if r in Elements(front) {
      StageableIsMaximal(repo, trees, base, front, r);
      var n :| ConflictsAt(repo, trees, base, before, n, r);
      assert staged[..n] == before[..n];
      assert ConflictsAt(repo, trees, base, staged, n, r);
    } else {
      assert before[..|before|] == before && staged == before;
      assert ConflictsAt(repo, trees, base, staged, |before|, r);
    }
  }

  /** The request does not pick onto the first `n` of the list. */
  ghost predicate ConflictsAt(repo: Repo, trees: Worktrees, base: History, staged: seq<Request>, n: int, r: Request) {
    0 <= n <= |staged| && !repo.PicksAll(Tip(trees, base, staged[..n]), Patch(trees, r))
  }

  /** The batch members whose rebase onto main succeeds. */
  function Rebasable(repo: Repo, trees: Worktrees, main: History, rs: seq<Request>): seq<Request> {
    if rs == [] then []
    else
      var n := |rs| - 1;
      var rebased := Rebasable(repo, trees, main, rs[..n]);
      if repo.rebaseOnto(main, Patch(trees, rs[n])).Some? then rebased + [rs[n]] else rebased
  }

  lemma RebasablePush(repo: Repo, trees: Worktrees, main: History, rs: seq<Request>, r: Request)
    ensures Rebasable(repo, trees, main, rs + [r]) ==
            var rebased := Rebasable(repo, trees, main, rs);
            if repo.rebaseOnto(main, Patch(trees, r)).Some? then rebased + [r] else rebased
  {
    assert (rs + [r])[..|rs|] == rs;
  }

  /** They keep their order. */
  lemma {:induction false} RebasableInOrder(repo: Repo, trees: Worktrees, main: History, rs: seq<Request>)
    ensures Subsequence(Rebasable(repo, trees, main, rs), rs)
  {
    if rs != [] {
      var n := |rs| - 1;
      RebasableInOrder(repo, trees, main, rs[..n]);
      assert rs == rs[..n] + [rs[n]];
      SubsequencePush(Rebasable(repo, trees, main, rs[..n]), rs[..n], rs[n]);
    }
  }

  lemma {:induction false} RebasableMembers(repo: Repo, trees: Worktrees, main: History, rs: seq<Request>)
    ensures forall r :: r in Elements(Rebasable(repo, trees, main, rs)) <==>
                        r in Elements(rs) && repo.rebaseOnto(main, Patch(trees, r)).Some?
    ensures |Rebasable(repo, trees, main, rs)| <= |rs|
    ensures NoDup(rs) ==> NoDup(Rebasable(repo, trees, main, rs))
  {
    if rs != [] {
      var n := |rs| - 1;
      RebasableMembers(repo, trees, main, rs[..n]);
      ElementsPush(Rebasable(repo, trees, main, rs[..n]), rs[n]);
      NoDupPush(Rebasable(repo, trees, main, rs[..n]), rs[n]);
    }
  }

  /** The least number of halvings that brings n down to one. */
  function CeilLog2(n: nat): nat {
    if n <= 1 then 0 else 1 + CeilLog2((n + 1) / 2)
  }

  function Pow2(k: nat): nat {
    if k == 0 then 1 else 2 * Pow2(k - 1)
  }

  /** CeilLog2 is the least k with n <= 2^k. */
  lemma {:induction false} CeilLog2IsLeast(n: nat)
    ensures n <= Pow2(CeilLog2(n))
    ensures CeilLog2(n) > 0 ==> Pow2(CeilLog2(n) - 1) < n
  {
    if n > 1 {
      CeilLog2IsLeast((n + 1) / 2);
    }
  }

  lemma {:induction false} CeilLog2Monotone(m: nat, n: nat)
    requires m <= n
    ensures CeilLog2(m) <= CeilLog2(n)
  {
    if m > 1 {
      CeilLog2Monotone((m + 1) / 2, (n + 1) / 2);
    }
  }

  /** A half needs one halving less. */
  lemma {:induction false} HalfIsCheaper(left: nat, right: nat)
    requires 0 < left <= right <= left + 1
    ensures 1 + CeilLog2(left) <= CeilLog2(left + right) && 1 + CeilLog2(right) <= CeilLog2(left + right)
  {
    assert (left + right + 1) / 2 == right;
    CeilLog2Monotone(left, right);
  }
}
