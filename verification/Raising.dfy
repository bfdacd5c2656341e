/**
 When a bisect is handed an empty list, for which it has no base case and so ends in a RecursionError
 (core/coordination/merge_queue.py:431-450 and 461-524).
 */
module Raising {
  import opened Wrappers
  import opened Sequences
  import opened Git
  import opened Staging

  /** The landings of a bisect, in order, and whether each of them worked. */
  datatype Landings = NoLanding | Landing(worked: bool, later: Landings)

  function Failures(ls: Landings): nat {
    match ls
    case NoLanding => 0
    case Landing(worked, later) => (if worked then 0 else 1) + Failures(later)
  }

  function Worked(ls: Landings): nat {
    match ls
    case NoLanding => 0
    case Landing(worked, later) => (if worked then 1 else 0) + Worked(later)
  }

  /** A list without its first request that does not cherry-pick onto those before it. */
  function Kept(repo: Repo, trees: Worktrees, base: History, rs: seq<Request>): (kept: seq<Request>)
    ensures |kept| <= |rs|
  {
    if rs == [] then []
    else
      var n := |rs| - 1;
      var front := Kept(repo, trees, base, rs[..n]);
      if |front| == n && !repo.PicksAll(Tip(trees, base, rs[..n]), Patch(trees, rs[n])) then front else front + [rs[n]]
  }

  lemma {:induction false} LastOn(rs: seq<Request>)
    requires rs != []
    ensures rs[..|rs| - 1] + [rs[|rs| - 1]] == rs
  {
  }

  /** Nothing is dropped from a list just when it replays, and never more than one request. */
  lemma {:induction false} KeptIsAll(repo: Repo, trees: Worktrees, base: History, rs: seq<Request>)
    ensures |Kept(repo, trees, base, rs)| == |rs| <==> Replays(repo, trees, base, rs)
    ensures Replays(repo, trees, base, rs) ==> Kept(repo, trees, base, rs) == rs
    ensures |Kept(repo, trees, base, rs)| + 1 >= |rs|
  {
    if rs != [] {
      var n := |rs| - 1;
      KeptIsAll(repo, trees, base, rs[..n]);
      LastOn(rs);
    }
  }

  lemma {:induction false} KeptPush(repo: Repo, trees: Worktrees, base: History, rs: seq<Request>, r: Request)
    ensures Kept(repo, trees, base, rs + [r]) ==
            if Replays(repo, trees, base, rs) && !repo.PicksAll(Tip(trees, base, rs), Patch(trees, r)) then rs
            else Kept(repo, trees, base, rs) + [r]
  {
    KeptIsAll(repo, trees, base, rs);
    assert (rs + [r])[..|rs|] == rs;
  }

  /** What is kept if the request behind `a` is the first that does not pick. */
  lemma {:induction false} KeptWithoutOne(repo: Repo, trees: Worktrees, base: History,
                                          a: seq<Request>, r: Request, b: seq<Request>)
    requires Replays(repo, trees, base, a) && !repo.PicksAll(Tip(trees, base, a), Patch(trees, r))
    ensures Kept(repo, trees, base, a + [r] + b) == a + b && !Replays(repo, trees, base, a + [r] + b)
  {
    if b == [] {
      KeptPush(repo, trees, base, a, r);
      ReplaysPush(repo, trees, base, a, r);
      assert a + [r] + b == a + [r] && a + b == a;
    } else {
      var front, last := b[..|b| - 1], b[|b| - 1];
      KeptWithoutOne(repo, trees, base, a, r, front);
      KeptPush(repo, trees, base, a + [r] + front, last);
      ReplaysPush(repo, trees, base, a + [r] + front, last);
      LastApart(a + [r], b);
      LastApart(a, b);
    }
  }

  lemma {:induction false} LastApart(a: seq<Request>, b: seq<Request>)
    requires b != []
    ensures a + b == a + b[..|b| - 1] + [b[|b| - 1]]
  {
  }

  /** Half of a length, rounded down. */
  function Half(n: nat): (half: nat)
    ensures 2 * half <= n <= 2 * half + 1
  {
    if n < 2 then 0 else 1 + Half(n - 2)
  }

  /** What stands in `rs` from index `n` on. */
  function Back(rs: seq<Request>, n: nat): (back: seq<Request>)
    ensures |back| == if n <= |rs| then |rs| - n else 0
  {
    if |rs| <= n then [] else Back(rs[..|rs| - 1], n) + [rs[|rs| - 1]]
  }

  lemma {:induction false} BackIs(rs: seq<Request>, n: nat)
    requires n <= |rs|
    ensures Back(rs, n) == rs[n..]
  {
    if n < |rs| {
      BackIs(rs[..|rs| - 1], n);
    }
  }

  /**
   The bisect of a list that is not empty, from `main` on, comes to an empty list. With two requests or
   more it goes on in one of the halves.
   */
  ghost predicate Raises(repo: Repo, trees: Worktrees, main: History, rs: seq<Request>, ls: Landings)
    decreases |rs|, 1
  {
    |rs| > 1 && RaisesInHalves(repo, trees, main, rs[..Half(|rs|)], Back(rs, Half(|rs|)), ls)
  }

  /**
   If the left half does not replay on main, the request that does not pick is dropped; the list is then
   empty just when it was that request alone. If it replays and builds, it lands, and the bisect goes on in
   the right half on what main is now; else it goes on in the left half.
   */
  ghost predicate RaisesInHalves(repo: Repo, trees: Worktrees, main: History,
                                 left: seq<Request>, right: seq<Request>, ls: Landings)
    decreases |left| + |right|, 0
  {
    && left != [] && right != []
    && if !Replays(repo, trees, main, left) then
         |left| == 1 || Raises(repo, trees, main, Kept(repo, trees, main, left), ls)
       else if !repo.builds(Tip(trees, main, left)) then
         Raises(repo, trees, main, left, ls)
       else
         && ls.Landing?
         && Raises(repo, trees, if ls.worked then Tip(trees, main, left) else main, right, ls.later)
  }

  lemma {:induction false} ShortNeverRaise(repo: Repo, trees: Worktrees, main: History, rs: seq<Request>, ls: Landings)
    requires |rs| <= 1
    ensures !Raises(repo, trees, main, rs, ls)
  {
  }

  /** Of two requests the first, alone, decides. */
  lemma {:induction false} TwoRaise(repo: Repo, trees: Worktrees, main: History, a: Request, b: Request, ls: Landings)
    ensures Raises(repo, trees, main, [a, b], ls) <==> !repo.PicksAll(main, Patch(trees, a))
  {
    var left, right := [a], Back([a, b], 1);
    assert Half(|[a, b]|) == 1 && [a, b][..1] == left && |right| == 1;
    ReplaysOne(repo, trees, main, a);
    ShortNeverRaise(repo, trees, main, left, ls);
    if ls.Landing? {
      ShortNeverRaise(repo, trees, if ls.worked then Tip(trees, main, left) else main, right, ls.later);
    }
    assert RaisesInHalves(repo, trees, main, left, right, ls) <==> !Replays(repo, trees, main, left);
  }

  lemma {:induction false} ReplaysOne(repo: Repo, trees: Worktrees, main: History, a: Request)
    ensures Replays(repo, trees, main, [a]) <==> repo.PicksAll(main, Patch(trees, a))
    ensures Tip(trees, main, [a]) == main + Patch(trees, a)
  {
    assert [a][..0] == [];
  }

  /** A list that was staged on main never comes to an empty list if every landing works. */
  lemma {:induction false} WorkingLandingsNeverRaise(repo: Repo, trees: Worktrees, main: History,
                                                     rs: seq<Request>, ls: Landings)
    requires Replays(repo, trees, main, rs) && Failures(ls) == 0
    ensures !Raises(repo, trees, main, rs, ls)
    decreases |rs|
  {
    if |rs| > 1 {
      var mid := Half(|rs|);
      var left, right := rs[..mid], Back(rs, mid);
      BackIs(rs, mid);
      assert left + right == rs;
      ReplaysConcat(repo, trees, main, left, right);
      if repo.builds(Tip(trees, main, left)) {
        if ls.Landing? {
          WorkingLandingsNeverRaise(repo, trees, Tip(trees, main, left), right, ls.later);
        }
      } else {
        WorkingLandingsNeverRaise(repo, trees, main, left, ls);
      }
    }
  }

  // ----- What was just rebased onto main picks onto it by itself -----

  /** Each of the requests, alone, picks onto main. */
  ghost predicate PickAlone(repo: Repo, trees: Worktrees, main: History, rs: seq<Request>) {
    forall r :: r in Elements(rs) ==> repo.PicksAll(main, Patch(trees, r))
  }

  lemma {:induction false} FrontPicksAlone(repo: Repo, trees: Worktrees, main: History,
                                           left: seq<Request>, right: seq<Request>)
    requires PickAlone(repo, trees, main, left + right)
    ensures PickAlone(repo, trees, main, left) && PickAlone(repo, trees, main, right)
  {
    ElementsConcat(left, right);
  }

  lemma {:induction false} KeptElements(repo: Repo, trees: Worktrees, base: History, rs: seq<Request>)
    ensures Elements(Kept(repo, trees, base, rs)) <= Elements(rs)
  {
    if rs != [] {
      var n := |rs| - 1;
      KeptElements(repo, trees, base, rs[..n]);
      ElementsPush(Kept(repo, trees, base, rs[..n]), rs[n]);
    }
  }

  /** A bisect never comes to an empty list if no landing works: main is then always what all were rebased onto. */
  lemma {:induction false} FailedLandingsNeverRaise(repo: Repo, trees: Worktrees, main: History,
                                                    rs: seq<Request>, ls: Landings)
    requires PickAlone(repo, trees, main, rs) && Worked(ls) == 0
    ensures !Raises(repo, trees, main, rs, ls)
    decreases |rs|
  {
    if |rs| > 1 {
      var mid := Half(|rs|);
      var left, right := rs[..mid], Back(rs, mid);
      BackIs(rs, mid);
      assert left + right == rs;
      FrontPicksAlone(repo, trees, main, left, right);
      LoneReplays(repo, trees, main, left);
      if !Replays(repo, trees, main, left) {
        KeptElements(repo, trees, main, left);
        FailedLandingsNeverRaise(repo, trees, main, Kept(repo, trees, main, left), ls);
      } else if !repo.builds(Tip(trees, main, left)) {
        FailedLandingsNeverRaise(repo, trees, main, left, ls);
      } else if ls.Landing? {
        FailedLandingsNeverRaise(repo, trees, main, right, ls.later);
      }
    }
  }

  lemma {:induction false} LoneReplays(repo: Repo, trees: Worktrees, main: History, rs: seq<Request>)
    requires PickAlone(repo, trees, main, rs)
    ensures |rs| == 1 ==> Replays(repo, trees, main, rs)
  {
    if |rs| == 1 {
      assert rs == [rs[0]] && rs[0] in Elements(rs);
      ReplaysOne(repo, trees, main, rs[0]);
    }
  }

  /** At most two requests do not come to an empty list if the first of them picks onto main. */
  lemma {:induction false} PairNeverRaises(repo: Repo, trees: Worktrees, main: History, rs: seq<Request>, ls: Landings)
    requires 0 < |rs| <= 2 && (Replays(repo, trees, main, rs) || PickAlone(repo, trees, main, rs))
    ensures !Raises(repo, trees, main, rs, ls)
  {
    if |rs| == 2 {
      var first, second := [rs[0]], [rs[1]];
      assert rs == first + second && rs == [rs[0], rs[1]];
      ReplaysConcat(repo, trees, main, first, second);
      ReplaysOne(repo, trees, main, rs[0]);
      InElements(rs, rs[0]);
      TwoRaise(repo, trees, main, rs[0], rs[1], ls);
    } else {
      ShortNeverRaise(repo, trees, main, rs, ls);
    }
  }

  /** Nor do at most four that were staged on main, each of which also picks onto it alone. */
  lemma {:induction false} FourNeverRaise(repo: Repo, trees: Worktrees, main: History, rs: seq<Request>, ls: Landings)
    requires PickAlone(repo, trees, main, rs) && Replays(repo, trees, main, rs) && |rs| <= 4
    ensures !Raises(repo, trees, main, rs, ls)
  {
    if |rs| > 1 {
      var mid := Half(|rs|);
      var left, right := rs[..mid], Back(rs, mid);
      BackIs(rs, mid);
      assert left + right == rs;
      FrontPicksAlone(repo, trees, main, left, right);
      ReplaysConcat(repo, trees, main, left, right);
      PairNeverRaises(repo, trees, main, left, ls);
      if ls.Landing? {
        PairNeverRaises(repo, trees, if ls.worked then Tip(trees, main, left) else main, right, ls.later);
      }
    }
  }

  /** A staged list comes to an empty one only if it has five requests, one landing works and another fails. */
  lemma {:induction false} RaisesNeeds(repo: Repo, trees: Worktrees, main: History, rs: seq<Request>, ls: Landings)
    requires PickAlone(repo, trees, main, rs) && Replays(repo, trees, main, rs)
    requires Raises(repo, trees, main, rs, ls)
    ensures 4 < |rs| && 0 < Worked(ls) && 0 < Failures(ls)
  {
    if |rs| <= 4 {
      FourNeverRaise(repo, trees, main, rs, ls);
    }
    if Worked(ls) == 0 {
      FailedLandingsNeverRaise(repo, trees, main, rs, ls);
    }
    if Failures(ls) == 0 {
      WorkingLandingsNeverRaise(repo, trees, main, rs, ls);
    }
  }

  // ----- A batch of five that does come to an empty list -----

  /**
   A repository in which commit n picks onto nothing and onto n commits, a rebase onto nothing changes
   nothing, and five commits do not build.
   */
  function Toy(): Repo {
    Repo((h: History, c: Commit) => |h| == 0 || |h| == c,
         (h: History, cs: seq<Commit>) => if h == [] && |cs| == 1 then Some(cs) else None,
         (h: History) => |h| < 5)
  }

  function ToyRequest(n: nat): Request {
    Request(n, "agent")
  }

  /** Request n brings commit n. */
  ghost predicate ToyPatches(trees: Worktrees) {
    forall n: nat :: n < 5 ==> Patch(trees, ToyRequest(n)) == [n]
  }

  /** The first n requests. */
  function ToyList(n: nat): (rs: seq<Request>)
    ensures |rs| == n
  {
    if n == 0 then [] else ToyList(n - 1) + [ToyRequest(n - 1)]
  }

  lemma {:induction false} ToyPicks(n: nat, base: History)
    requires n < 5
    ensures Toy().PicksAll(base, [n]) <==> |base| == 0 || |base| == n
    ensures Toy().rebaseOnto([], [n]) == Some([n])
  {
    assert [n][1..] == [];
  }

  lemma {:induction false} ToyRebaseIsClean()
    ensures Toy().RebaseIsClean()
  {
    forall base: History, commits: seq<Commit> | Toy().rebaseOnto(base, commits).Some?
      ensures Toy().PicksAll(base, commits)
    {
      assert commits[1..] == [];
    }
  }

  /** All of the first n rebase and stage, one on the other. */
  lemma {:induction false} ToyStages(trees: Worktrees, n: nat)
    requires ToyPatches(trees) && n <= 5
    ensures NoDup(ToyList(n))
    ensures Rebasable(Toy(), trees, [], ToyList(n)) == ToyList(n)
    ensures Stageable(Toy(), trees, [], ToyList(n)) == ToyList(n) && |Tip(trees, [], ToyList(n))| == n
    ensures forall r :: r in Elements(ToyList(n)) ==>
              r.ticket < n && Toy().rebaseOnto([], Patch(trees, r)) == Some(Patch(trees, r))
  {
    if n > 0 {
      var front, last := ToyList(n - 1), ToyRequest(n - 1);
      ToyStages(trees, n - 1);
      ToyPicks(n - 1, Tip(trees, [], front));
      NoDupPush(front, last);
      ElementsPush(front, last);
      RebasablePush(Toy(), trees, [], front, last);
      StageablePush(Toy(), trees, [], front, last);
      TipPush(trees, [], front, last);
    }
  }

  /** The last two come to an empty list unless they stand on nothing or on three commits. */
  lemma {:induction false} ToyTwo(trees: Worktrees, main: History, ls: Landings)
    requires ToyPatches(trees)
    ensures Raises(Toy(), trees, main, [ToyRequest(3), ToyRequest(4)], ls) <==> |main| != 0 && |main| != 3
  {
    ToyPicks(3, main);
    TwoRaise(Toy(), trees, main, ToyRequest(3), ToyRequest(4), ls);
  }

  lemma {:induction false} ToyThree(trees: Worktrees, main: History, ls: Landings)
    requires ToyPatches(trees) && (|main| == 0 || |main| == 2)
    ensures Raises(Toy(), trees, main, [ToyRequest(2), ToyRequest(3), ToyRequest(4)], ls) <==>
            ls.Landing? && ls.worked == (|main| == 0)
  {
    var rs := [ToyRequest(2), ToyRequest(3), ToyRequest(4)];
    var left, right := [ToyRequest(2)], [ToyRequest(3), ToyRequest(4)];
    BackIs(rs, 1);
    assert Half(|rs|) == 1 && rs[..1] == left && rs[1..] == right;
    ToyPicks(2, main);
    ReplaysOne(Toy(), trees, main, ToyRequest(2));
    if ls.Landing? {
      ToyTwo(trees, if ls.worked then Tip(trees, main, left) else main, ls.later);
    }
    assert RaisesInHalves(Toy(), trees, main, left, right, ls) <==> ls.Landing? && ls.worked == (|main| == 0);
  }

  /** The landings that make the five come to an empty list: of the first two, one works and the other fails. */
  predicate Mixed(ls: Landings) {
    ls.Landing? && ls.later.Landing? && ls.worked != ls.later.worked
  }

  lemma {:induction false} ToyFive(trees: Worktrees, ls: Landings)
    requires ToyPatches(trees)
    ensures Raises(Toy(), trees, [], ToyList(5), ls) <==> Mixed(ls)
  {
    var left, right := ToyList(2), [ToyRequest(2), ToyRequest(3), ToyRequest(4)];
    assert ToyList(5) == left + right;
    BackIs(ToyList(5), 2);
    assert Half(5) == 2 && ToyList(5)[..2] == left && ToyList(5)[2..] == right;
    ToyHalves(trees, ls);
  }

  lemma {:induction false} ToyHalves(trees: Worktrees, ls: Landings)
    requires ToyPatches(trees)
    ensures RaisesInHalves(Toy(), trees, [], ToyList(2), [ToyRequest(2), ToyRequest(3), ToyRequest(4)], ls) <==>
            Mixed(ls)
  {
    ToyStages(trees, 2);
    StageableReplays(Toy(), trees, [], ToyList(2));
    if ls.Landing? {
      ToyThree(trees, if ls.worked then Tip(trees, [], ToyList(2)) else [], ls.later);
    }
  }

  /** The requests rebase onto an empty main as they are, stage on each other, and do not build together. */
  ghost predicate StageButFail(repo: Repo, trees: Worktrees, rs: seq<Request>) {
    && Rebasable(repo, trees, [], rs) == rs && Stageable(repo, trees, [], rs) == rs
    && (forall r :: r in Elements(rs) ==> repo.rebaseOnto([], Patch(trees, r)) == Some(Patch(trees, r)))
    && !repo.builds(Tip(trees, [], rs))
  }

  ghost predicate RaisesJustIfMixed(repo: Repo, trees: Worktrees, rs: seq<Request>) {
    forall ls :: Raises(repo, trees, [], rs, ls) <==> Mixed(ls)
  }

  /**
   There are five requests that rebase onto main and stage on each other but do not build together, whose
   bisect comes to an empty list if and only if one of its first two landings works and the other fails.
   */
  lemma {:induction false} FiveCanRaise()
    ensures exists repo: Repo, trees: Worktrees, rs: seq<Request> ::
              && repo.RebaseIsClean() && NoDup(rs) && |rs| == 5
              && StageButFail(repo, trees, rs) && RaisesJustIfMixed(repo, trees, rs)
  {
    var trees := ToyTrees();
    ToyRebaseIsClean();
    ToyStages(trees, 5);
    ToyEvidence(trees, ToyList(5));
    assert StageButFail(Toy(), trees, ToyList(5)) && RaisesJustIfMixed(Toy(), trees, ToyList(5));
  }

  lemma {:induction false} ToyEvidence(trees: Worktrees, rs: seq<Request>)
    requires ToyPatches(trees) && rs == ToyList(5)
    ensures StageButFail(Toy(), trees, rs) && RaisesJustIfMixed(Toy(), trees, rs)
  {
    ToyStages(trees, 5);
    forall ls ensures Raises(Toy(), trees, [], rs, ls) <==> Mixed(ls) {
      ToyFive(trees, ls);
    }
  }

  function ToyTrees(): (trees: Worktrees)
    ensures ToyPatches(trees)
  {
    map[ToyRequest(0) := [0], ToyRequest(1) := [1], ToyRequest(2) := [2], ToyRequest(3) := [3], ToyRequest(4) := [4]]
  }
}
