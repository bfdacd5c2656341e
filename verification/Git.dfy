/**
 The part of git that the merge queue relies on (core/coordination/merge_queue.py:74-120 and
 core/worktree.py:217-421). A branch is the sequence of commits on it. Whether a commit cherry-picks
 cleanly, what a rebase yields and whether a history builds are fixed but arbitrary functions.
 */
module Git {
  import opened Wrappers

  type Commit = nat
  type History = seq<Commit>

  datatype Repo = Repo(
    picks: (History, Commit) -> bool,
    rebaseOnto: (History, seq<Commit>) -> Option<seq<Commit>>,
    builds: History -> bool)
  {
    /** The commits of a range cherry-pick one after the other without a conflict. */
    predicate PicksAll(base: History, commits: seq<Commit>)
      decreases |commits|
    {
      commits == [] || (picks(base, commits[0]) && PicksAll(base + [commits[0]], commits[1..]))
    }

    /** What `git rebase` promises: the rebased commits apply to the branch they were rebased onto. */
    ghost predicate RebaseIsClean() {
      forall base: History, commits: seq<Commit> ::
        match rebaseOnto(base, commits)
        case Some(rebased) => PicksAll(base, rebased)
        case None => true
    }
  }

  /** A range cherry-picks just when each commit does, on top of all the commits before it. */
  lemma {:induction false} PicksAllAt(repo: Repo, base: History, commits: seq<Commit>)
    ensures repo.PicksAll(base, commits) <==>
            forall i :: 0 <= i < |commits| ==> repo.picks(base + commits[..i], commits[i])
    decreases |commits|
  {
    if commits != [] {
      var first, rest := commits[0], commits[1..];
      PicksAllAt(repo, base + [first], rest);
      forall i | 0 < i < |commits|
        ensures base + [first] + rest[..i - 1] == base + commits[..i] && rest[i - 1] == commits[i]
      {
      }
      assert base + commits[..0] == base;
      if forall i :: 0 <= i < |commits| ==> repo.picks(base + commits[..i], commits[i]) {
        forall i | 0 <= i < |rest| ensures repo.picks(base + [first] + rest[..i], rest[i]) {
          assert repo.picks(base + commits[..i + 1], commits[i + 1]);
          assert base + [first] + rest[..i] == base + commits[..i + 1];
        }
      }
      if repo.PicksAll(base, commits) {
        forall i | 0 <= i < |commits| ensures repo.picks(base + commits[..i], commits[i]) {
          if i > 0 {
            assert repo.picks(base + [first] + rest[..i - 1], rest[i - 1]);
          }
        }
      }
    }
  }

  /** A staging worktree: a detached checkout that is reset and cherry-picked onto. */
  class Worktree {
    var tip: History

    constructor (main: History)
      ensures tip == main
    {
      tip := main;
    }

    method Reset(ref: History)
      modifies this
      ensures tip == ref
    {
      tip := ref;
    }

    /** All the commits land on the tip, or the cherry-pick is aborted and the tip stays. */
    method CherryPickRange(repo: Repo, commits: seq<Commit>) returns (ok: bool)
      modifies this
      ensures ok == repo.PicksAll(old(tip), commits)
      ensures tip == if ok then old(tip) + commits else old(tip)
    {
      ok := true;
      if commits != [] {
        ok := repo.PicksAll(tip, commits);
        if ok {
          tip := tip + commits;
        }
      }
      assert commits == [] ==> tip + commits == tip;
    }
  }
}
