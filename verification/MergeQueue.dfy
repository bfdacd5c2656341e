/** The bors-style merge queue, core/coordination/merge_queue.py. */
module MergeQueues {
  import opened Wrappers
  import opened Sequences
  import opened Growth
  import opened Git
  import opened Staging
  import opened MergeQueueState
  import opened Raising
  import opened Bisection
  import opened Reporting

  class MergeQueue {
    const repo: Repo
    const batchSize: nat
    const main0: History

    var main: History
    var trees: Worktrees
    var submitted: set<Request>
    var queue: seq<Request>
    var outcome: Outcome
    var callbacks: seq<Callback>
    ghost var mainLog: seq<History>
    ghost var landed: seq<Request>
    ghost var inHand: set<Request>
    ghost var builds: nat
    ghost var landFailures: nat
    ghost var headFailures: nat
    ghost var hashFailures: nat   // lookups of main that failed, for whatever purpose

    ghost function View(): State
      reads this
    {
      State(main, mainLog, landed, trees, submitted, queue, outcome, inHand, builds, landFailures, headFailures,
            callbacks)
    }

    ghost predicate Valid()
      reads this
    {
      View() in Sound(repo, main0) && repo.RebaseIsClean()
    }

    constructor (repo: Repo, main: History, trees: Worktrees, batchSize: nat)
      requires repo.RebaseIsClean()
      ensures Valid() && queue == [] && submitted == {} && inHand == {} && landFailures == 0 && headFailures == 0
      ensures this.repo == repo && this.main0 == main && this.main == main && this.batchSize == batchSize
      ensures this.trees == trees && callbacks == []
    {
      this.repo, this.batchSize, this.main0 := repo, batchSize, main;
      this.main, this.trees, submitted, queue, outcome, callbacks := main, trees, {}, [], map[], [];
      mainLog, landed, inHand, builds, landFailures, headFailures, hashFailures := [main], [], {}, 0, 0, 0, 0;
    }

    /** A new future is made and its request queued. */
    method Submit(r: Request)
      requires Valid() && r !in submitted
      modifies this`queue, this`submitted
      ensures Valid() && Quiet(old(View()), View())
      ensures queue == old(queue) + [r] && submitted == old(submitted) + {r}
    {
      queue, submitted := queue + [r], submitted + {r};
      ArrivalKeepsInv(repo, main0, old(View()), View(), r);
    }

    /** An `await`: other coroutines run, and any number of them may submit. */
    method Await()
      requires Valid()
      modifies this`queue, this`submitted
      ensures Valid() && Quiet(old(View()), View())
    {
      var arrivals: nat :| true;
      for i := 0 to arrivals
        invariant Valid() && Quiet(old(View()), View())
      {
        var r: Request := *;
        if r !in submitted {
          ghost var v := View();
          Submit(r);
          QuietTrans(old(View()), v, View());
        }
      }
    }

    /** Resolves a future; a future that is done already would raise. */
    method SetResult(r: Request, result: MergeResult)
      requires r !in outcome
      modifies this`outcome
      ensures outcome == old(outcome)[r := result]
    {
      outcome := outcome[r := result];
    }

    method Reject(r: Request, reason: Reason)
      requires Valid() && r in inHand
      modifies this`outcome, this`inHand
      ensures Valid() && Steps(old(View()), View(), {r})
      ensures View() == old(View()).(outcome := old(outcome)[r := Rejected(reason)], inHand := old(inHand) - {r})
    {
      SetResult(r, Rejected(reason));
      inHand := inHand - {r};
      RejectKeepsInv(repo, main0, old(View()), View(), r, reason);
    }

    /** Putting on the unbounded queue never waits. */
    method Requeue(rs: seq<Request>)
      requires Valid() && View() in Holding(rs)
      modifies this`queue, this`inHand
      ensures Valid() && View() in Requeued(old(View()), rs)
    {
      var i := 0;
      while i < |rs|
        invariant 0 <= i <= |rs|
        invariant queue == old(queue) + rs[..i] && inHand == old(inHand)
      {
        OneLonger(rs, i);
        queue := queue + [rs[i]];
        i := i + 1;
      }
      assert rs[..i] == rs;
      ExtendsIsConcat(old(queue), queue, rs);
      inHand := inHand - Elements(rs);
      RequeueKeepsInv(repo, main0, old(View()), View(), rs);
    }

    /** The build function's verdict on the staging worktree. */
    method Build(staging: Worktree) returns (ok: bool)
      requires Valid()
      modifies this`queue, this`submitted, this`builds
      ensures Valid() && Quiet(old(View()), View()) && builds == old(builds) + 1
      ensures ok == repo.builds(staging.tip)
    {
      builds := builds + 1;
      ghost var v := View();
      Await();
      QuietTrans(old(View()), v, View());
      ok := repo.builds(staging.tip);
    }

    /**
     Fast-forward main to staging and resolve all futures; `ids` is what `merged_ids` grows to and `worked`
     says whether main moved.
     */
    method LandBatch(staged: seq<Request>, staging: Worktree, preHash: History, mergedIds: seq<string>,
                     ghost from: nat)
      returns (ids: seq<string>, worked: bool, result: MergeResult)
      requires Valid() && View() in Holding(staged) && staged != []
      requires mergedIds in Naming(landed, from)
      requires preHash == main && staging.tip == Tip(trees, main, staged) && repo.builds(staging.tip)
      modifies this
      ensures Valid() && View() in Landed(old(View()), staged, worked, result)
      ensures ids in Naming(landed, from)
    {
      Await();
      ghost var v := View();
      HoldingLater(old(View()), v, staged);
      worked, result := MergeAndResolve(staged, staging, preHash);
      QuietThenLanded(old(View()), v, View(), staged, worked, result);
      LandedNames(old(View()), View(), staged, worked, result, mergedIds, from);
      ids := if worked then mergedIds + AgentIds(staged) else mergedIds;
    }

    /** The part of a landing that runs without another await between the merge and the last future. */
    method MergeAndResolve(staged: seq<Request>, staging: Worktree, preHash: History)
      returns (ok: bool, result: MergeResult)
      requires Valid() && View() in Holding(staged) && staged != []
      requires preHash == main && staging.tip == Tip(trees, main, staged) && repo.builds(staging.tip)
      modifies this
      ensures Valid() && View() in Landed(old(View()), staged, ok, result)
      ensures result.Merged? && hashFailures == old(hashFailures) ==> result.post == Some(main)
    {
      ok := MergeToMain(staging);
      var postHash := RevParseMain();
      result := if ok then Merged(preHash, postHash) else Rejected(MergeToMainFailed);
      ResolveFutures(staged, result);
      RecordLanding(old(View()), staged, ok, result);
    }

    /** `worktree.merge_to_main`: fast-forwards main to the staging tip, or fails and leaves it alone. */
    method MergeToMain(staging: Worktree) returns (ok: bool)
      modifies this`main, this`landFailures
      ensures main == if ok then staging.tip else old(main)
      ensures landFailures == if ok then old(landFailures) else old(landFailures) + 1
    {
      ok := *;
      if ok {
        main := staging.tip;
      } else {
        landFailures := landFailures + 1;
      }
    }

    method ResolveFutures(rs: seq<Request>, result: MergeResult)
      requires NoDup(rs) && Elements(rs) !! outcome.Keys
      modifies this`outcome
      ensures ResolvesAll(old(outcome), outcome, Elements(rs), result)
    {
      var i := 0;
      while i < |rs|
        invariant 0 <= i <= |rs|
        invariant ResolvesAll(old(outcome), outcome, Elements(rs[..i]), result)
      {
        UpTo(rs, i);
        ResolvesOneMore(old(outcome), outcome, rs, i, result);
        SetResult(rs[i], result);
        i := i + 1;
      }
      assert rs[..i] == rs;
    }

    /** The bookkeeping that goes with a landing. */
    ghost method RecordLanding(v: State, staged: seq<Request>, ok: bool, result: MergeResult)
      requires v in Sound(repo, main0) && repo.RebaseIsClean()
      requires v in Holding(staged) && staged != []
      requires repo.builds(Tip(v.trees, v.main, staged))
      requires main == if ok then Tip(v.trees, v.main, staged) else v.main
      requires ResolvesAll(v.outcome, outcome, Elements(staged), result) && LandingAnswers(result, ok, v.main, main)
      requires View() == v.(main := main, outcome := outcome, landFailures := landFailures)
      requires landFailures == if ok then v.landFailures else v.landFailures + 1
      modifies this`inHand, this`landed, this`mainLog
      ensures Valid() && View() in Landed(v, staged, ok, result)
    {
      ExtendsIsConcat(v.landed, v.landed + staged, staged);
      inHand := inHand - Elements(staged);
      if ok {
        landed, mainLog := landed + staged, mainLog + [main];
        LandingKeepsInv(repo, main0, v, View(), staged, result);
      } else {
        FailedLandingKeepsInv(repo, main0, v, View(), staged);
      }
    }

    method CreateStaging() returns (staging: Worktree)
      requires Valid()
      modifies this`queue, this`submitted
      ensures Valid() && Quiet(old(View()), View())
      ensures fresh(staging) && staging.tip == main
    {
      Await();
      staging := new Worktree(main);
    }

    /** Awaits a thread that cherry-picks the request's commits. `start` is any earlier quiet state. */
    method CherryPick(staging: Worktree, r: Request, ghost start: State) returns (ok: bool)
      requires Valid() && Quiet(start, View())
      modifies this`queue, this`submitted, staging
      ensures Valid() && Quiet(start, View())
      ensures ok == repo.PicksAll(old(staging.tip), Patch(trees, r))
      ensures staging.tip == if ok then old(staging.tip) + Patch(trees, r) else old(staging.tip)
    {
      ghost var v := View();
      Await();
      QuietTrans(start, v, View());
      ok := staging.CherryPickRange(repo, Patch(trees, r));
    }

    /**
     Reset staging to main, cherry-pick the requests in order and build. The first request that does not
     pick is rejected and removed from the list, `kept`. The bisect is that of `staged` from `origin` on.
     */
    method RebuildStagingAndTest(staging: Worktree, subset: seq<Request>, mainRef: History,
                                 ghost origin: State, ghost staged: seq<Request>)
      returns (kept: seq<Request>, ok: bool)
      requires Valid() && View() in Holding(subset) && mainRef == main
      requires View() in OnFront(repo, origin, staged, subset)
      modifies this, staging
      ensures RebuildsFront(repo, origin, staged, View(), subset, kept, staging.tip)
      ensures Valid() && builds <= old(builds) + 1
      ensures ok ==> View() in Built(repo, old(View()), subset) && kept == subset
      ensures ok ==> staging.tip == Tip(trees, main, subset)
      ensures !ok ==> View() in NotBuilt(repo, old(View()), subset, kept)
    {
      staging.Reset(mainRef);
      if Undisturbed(repo, origin, staged, View()) {
        FrontReplays(repo, origin, staged, View(), subset);
      }
      var picked := CherryPickList(staging, subset, mainRef);
      if picked < |subset| {
        kept := DropUnpickable(subset, picked, old(View()));
        PickAnswers(repo, old(View()), View(), subset, kept);
        ok := false;
      } else {
        ghost var v := View();
        ok := Build(staging);
        QuietTrans(old(View()), v, View());
        BuildAnswers(repo, old(View()), View(), subset, ok);
        kept := subset;
      }
    }

    /** Cherry-picks the requests in order until one fails; `picked` counts those that went on. */
    method CherryPickList(staging: Worktree, subset: seq<Request>, mainRef: History) returns (picked: nat)
      requires Valid() && staging.tip == mainRef
      modifies this`queue, this`submitted, staging
      ensures Valid() && Quiet(old(View()), View())
      ensures picked <= |subset|
      ensures picked == |subset| <==> Replays(repo, trees, mainRef, subset)
      ensures picked < |subset| ==> StopsAt(repo, trees, mainRef, subset, picked)
      ensures picked == |subset| ==> staging.tip == Tip(trees, mainRef, subset)
    {
      picked := 0;
      PickedStart(repo, trees, mainRef, subset);
      while picked < |subset|
        invariant picked <= |subset|
        invariant Valid() && Quiet(old(View()), View())
        invariant PickedTo(repo, trees, mainRef, subset, picked, staging.tip)
      {
        PickedStep(repo, trees, mainRef, subset, picked, staging.tip);
        var ok := CherryPick(staging, subset[picked], old(View()));
        if !ok {
          return;
        }
        picked := picked + 1;
      }
      PickedEnd(repo, trees, mainRef, subset, staging.tip);
    }

    /** The branch of `_rebuild_staging_and_test` for a request that does not cherry-pick. */
    method DropUnpickable(subset: seq<Request>, i: nat, ghost start: State) returns (kept: seq<Request>)
      requires Valid() && i < |subset| && Elements(subset) <= inHand && Quiet(start, View())
      requires StopsAt(repo, trees, main, subset, i)
      modifies this`outcome, this`inHand
      ensures Valid() && PickFailed(repo, start, View(), subset, kept)
    {
      ghost var v := View();
      UpTo(subset, i);
      Reject(subset[i], CherryPickFailedInBisect);
      QuietThenSteps(start, v, View(), {subset[i]});
      kept := subset[..i] + subset[i + 1..];
      CutOut(subset, i);
      assert PickFailedAt(repo, start, View(), subset, kept, subset[..i], subset[i], subset[i + 1..]);
    }

    /**
     Finds the culprit in a list whose build failed. `raised` stands for the RecursionError that an empty
     list ends in: neither half of it gets shorter. `ls` are the landings on the way.
     */
    method BisectSubset(subset: seq<Request>, mainRef: History, mergedIds: seq<string>,
                        ghost from: nat, ghost origin: State, ghost staged: seq<Request>)
      returns (raised: bool, ids: seq<string>, ghost d: Verdict, ghost ls: Landings)
      requires Valid() && View() in Holding(subset)
      requires mainRef == main && mergedIds in Naming(landed, from)
      requires View() in OnFront(repo, origin, staged, subset)
      modifies this
      ensures Valid() && View() in Searched(repo, old(View()), subset, d, Course(raised, ls))
      ensures ids in Naming(landed, from)
      ensures !raised ==> View() in Affordable(old(builds), |subset|)
      ensures |subset| == 1 ==> subset[0] in outcome && outcome[subset[0]] == Rejected(BuildFailedByBisect)
      ensures |subset| == 2 ==> (raised <==> !repo.PicksAll(old(main), Patch(old(trees), subset[0])))
      decreases |subset|, 1
    {
      ids := mergedIds;
      if |subset| == 1 {
        d := RejectOnly(subset, BuildFailedByBisect);
        raised, ls := false, NoLanding;
      } else if subset == [] {
        raised, d, ls := true, Verdict([], Request(0, ""), []), NoLanding;
        SearchedNothing(repo, View(), d);
      } else {
        var staging := CreateStaging();
        ghost var v := View();
        HoldingLater(old(View()), v, subset);
        OnFrontLater(repo, origin, staged, old(View()), v, subset);
        raised, ids, d, ls := BisectHalves(subset, staging, mainRef, mergedIds, from, origin, staged);
        QuietThenSearched(repo, old(View()), v, View(), subset, d, Course(raised, ls));
      }
    }

    method RejectOnly(subset: seq<Request>, reason: Reason) returns (ghost d: Verdict)
      requires Valid() && |subset| == 1 && View() in Holding(subset)
      requires IsForBuild(Rejected(reason))
      modifies this`outcome, this`inHand
      ensures Valid() && View() in Searched(repo, old(View()), subset, d, Course(false, NoLanding))
      ensures subset[0] in outcome && outcome[subset[0]] == Rejected(reason)
    {
      assert subset == [subset[0]];
      Reject(subset[0], reason);
      SearchedSingle(repo, old(View()), View(), subset[0], reason);
      d := Verdict([], subset[0], []);
    }

    /** Build the left half: land it and go on in the right, or defer the right and go on in the left. */
    method BisectHalves(subset: seq<Request>, staging: Worktree, mainRef: History, mergedIds: seq<string>,
                        ghost from: nat, ghost origin: State, ghost staged: seq<Request>)
      returns (raised: bool, ids: seq<string>, ghost d: Verdict, ghost ls: Landings)
      requires Valid() && View() in Holding(subset) && 1 < |subset|
      requires mainRef == main && mergedIds in Naming(landed, from)
      requires View() in OnFront(repo, origin, staged, subset)
      modifies this, staging
      ensures Valid() && View() in Searched(repo, old(View()), subset, d, Course(raised, ls))
      ensures ids in Naming(landed, from)
      ensures !raised ==> View() in Affordable(old(builds), |subset|)
      ensures |subset| == 2 ==> (raised <==> !repo.PicksAll(old(main), Patch(old(trees), subset[0])))
      decreases |subset|, 0
    {
      var left, right := CutInHalves(subset);
      LeftOnFront(repo, origin, staged, View(), View(), left, right);
      var kept, leftOk := RebuildStagingAndTest(staging, left, mainRef, origin, staged);
      if leftOk {
        raised, ids, d, ls := LandLeft(old(View()), left, right, staging, mainRef, mergedIds, from, origin, staged);
      } else {
        raised, ids, d, ls := DeferRight(old(View()), left, kept, right, mainRef, mergedIds, from, origin, staged);
      }
      SearchedInHalves(repo, old(View()), View(), subset, left, right, d, Course(raised, ls));
      if |subset| == 2 {
        TwoSearched(repo, old(View()), View(), subset, d, Course(raised, ls));
      }
    }

    method CutInHalves(subset: seq<Request>) returns (left: seq<Request>, right: seq<Request>)
      requires |subset| > 1
      ensures Halves(left, right) && left + right == subset && |left| + |right| == |subset|
      ensures NoDup(subset) ==> NoDup(left) && Elements(left) <= Elements(subset)
    {
      var mid := |subset| / 2;
      left, right := subset[..mid], subset[mid..];
      Cut(subset, mid);
    }

    /** The left half built: land it at once, the culprit is in the right half. */
    method LandLeft(ghost start: State, left: seq<Request>, right: seq<Request>, staging: Worktree,
                    mainRef: History, mergedIds: seq<string>,
                    ghost from: nat, ghost origin: State, ghost staged: seq<Request>)
      returns (raised: bool, ids: seq<string>, ghost d: Verdict, ghost ls: Landings)
      requires Valid() && start in Holding(left + right) && Halves(left, right)
      requires start in OnFront(repo, origin, staged, left + right)
      requires mainRef == main && mergedIds in Naming(landed, from)
      requires View() in Built(repo, start, left) && builds <= start.builds + 1
      requires staging.tip == Tip(trees, main, left) && repo.builds(staging.tip)
      modifies this
      ensures Valid() && View() in SearchedHalves(repo, start, left, right, d, Course(raised, ls))
      ensures ids in Naming(landed, from)
      ensures !raised ==> View() in Affordable(start.builds, |left| + |right|)
      decreases |left| + |right|, 0, 0
    {
      var leftIds, worked, result := LandHalf(start, left, right, staging, mainRef, mergedIds, from, origin, staged);
      ghost var v := View();
      var newMain := main;
      raised, ids, d, ls := BisectSubset(right, newMain, leftIds, from, origin, staged);
      HalfIsAffordable(start.builds, v.builds, View(), left, right, right);
      SearchedRight(repo, start, old(View()), v, View(), left, right, worked, result, d, Course(raised, ls));
      d, ls := Verdict(left + d.good, d.culprit, d.rest), Landing(worked, ls);
    }

    /** The landing of the left half, after which the right half comes next. */
    method LandHalf(ghost start: State, left: seq<Request>, ghost right: seq<Request>, staging: Worktree,
                    mainRef: History, mergedIds: seq<string>,
                    ghost from: nat, ghost origin: State, ghost staged: seq<Request>)
      returns (ids: seq<string>, worked: bool, result: MergeResult)
      requires Valid() && start in Holding(left + right) && left != []
      requires start in OnFront(repo, origin, staged, left + right) && View() in Built(repo, start, left)
      requires mainRef == main && mergedIds in Naming(landed, from)
      requires staging.tip == Tip(trees, main, left) && repo.builds(staging.tip)
      modifies this
      ensures Valid() && View() in Landed(old(View()), left, worked, result) && builds == old(builds)
      ensures View() in Holding(right) && View() in OnFront(repo, origin, staged, right)
      ensures ids in Naming(landed, from)
    {
      LeftInHand(repo, start, View(), left, right);
      ids, worked, result := LandBatch(left, staging, mainRef, mergedIds, from);
      RightInHand(repo, start, old(View()), View(), left, right, worked, result);
      RightOnFront(repo, origin, staged, start, old(View()), View(), left, right, worked, result);
    }

    /** The left half did not build: defer the right half, the culprit is in what is left of the left one. */
    method DeferRight(ghost start: State, ghost left: seq<Request>, kept: seq<Request>, right: seq<Request>,
                      mainRef: History, mergedIds: seq<string>,
                      ghost from: nat, ghost origin: State, ghost staged: seq<Request>)
      returns (raised: bool, ids: seq<string>, ghost d: Verdict, ghost ls: Landings)
      requires Valid() && start in Holding(left + right) && Halves(left, right)
      requires start in OnFront(repo, origin, staged, left + right)
      requires mainRef == main && mergedIds in Naming(landed, from)
      requires View() in NotBuilt(repo, start, left, kept) && builds <= start.builds + 1
      modifies this
      ensures Valid() && View() in SearchedHalves(repo, start, left, right, d, Course(raised, ls))
      ensures ids in Naming(landed, from)
      ensures !raised ==> View() in Affordable(start.builds, |left| + |right|)
      decreases |left| + |right|, 0, 0
    {
      HalvesInHand(repo, start, View(), left, kept, right);
      Requeue(right);
      ghost var v := View();
      KeptInHand(repo, start, old(View()), v, left, kept, right);
      KeptOnFront(repo, origin, staged, start, old(View()), v, left, kept, right);
      raised, ids, d, ls := BisectSubset(kept, mainRef, mergedIds, from, origin, staged);
      HalfIsAffordable(start.builds, v.builds, View(), left, right, kept);
      SearchedLeft(repo, start, old(View()), v, View(), left, kept, right, d, Course(raised, ls));
      d := Verdict(d.good, d.culprit, d.rest + right);
    }

    method BisectAndLand(staged: seq<Request>, staging: Worktree, mainRef: History, mergedIds: seq<string>,
                         ghost from: nat)
      returns (raised: bool, ids: seq<string>, ghost d: Verdict, ghost ls: Landings)
      requires Valid() && View() in Holding(staged) && staged != []
      requires mainRef == main && mergedIds in Naming(landed, from)
      modifies this, staging
      ensures Valid() && View() in Searched(repo, old(View()), staged, d, Course(raised, ls))
      ensures ids in Naming(landed, from)
      ensures !raised ==> View() in Affordable(old(builds), |staged|)
      ensures |staged| == 1 ==> staged[0] in outcome && outcome[staged[0]] == Rejected(BuildFailed)
    {
      if |staged| == 1 {
        raised, ids, ls := false, mergedIds, NoLanding;
        d := RejectOnly(staged, BuildFailed);
      } else {
        OnFrontStart(repo, View(), View(), staged);
        raised, ids, d, ls := BisectHalves(staged, staging, mainRef, mergedIds, from, View(), staged);
      }
    }

    /** Cherry-pick each request onto staging; what conflicts goes back to the queue. */
    method StageAll(rebased: seq<Request>, staging: Worktree) returns (staged: seq<Request>)
      requires Valid() && NoDup(rebased) && Elements(rebased) <= inHand && staging.tip == main
      modifies this`queue, this`submitted, this`inHand, staging
      ensures Valid() && StagedTo(repo, old(View()), View(), staging.tip, rebased, |rebased|, staged)
    {
      staged := [];
      var i := 0;
      while i < |rebased|
        invariant 0 <= i <= |rebased|
        invariant Valid() && StagedTo(repo, old(View()), View(), staging.tip, rebased, i, staged)
      {
        staged := StageOne(rebased, i, staged, staging, old(View()));
        i := i + 1;
      }
    }

    method StageOne(rebased: seq<Request>, i: nat, staged: seq<Request>, staging: Worktree, ghost start: State)
      returns (staged': seq<Request>)
      requires Valid() && i < |rebased| && NoDup(rebased) && Elements(rebased) <= start.inHand
      requires StagedTo(repo, start, View(), staging.tip, rebased, i, staged)
      modifies this`queue, this`submitted, this`inHand, staging
      ensures Valid() && StagedTo(repo, start, View(), staging.tip, rebased, i + 1, staged')
    {
      StagedNext(repo, start, View(), staging.tip, rebased, i, staged);
      var ok := CherryPick(staging, rebased[i], View());
      ghost var v := View();
      if ok {
        staged' := staged + [rebased[i]];
        StagedKeep(repo, start, old(View()), v, old(staging.tip), rebased, i, staged);
      } else {
        staged' := staged;
        NoDupPush([], rebased[i]);
        assert Elements([rebased[i]]) == {rebased[i]};
        Requeue([rebased[i]]);
        QuietThenSteps(old(View()), v, View(), {rebased[i]});
        StagedDrop(repo, start, old(View()), View(), staging.tip, rebased, i, staged);
      }
    }

    /** Rebase each request onto main; what conflicts is rejected. */
    method RebaseAllOntoMain(batch: seq<Request>) returns (rebased: seq<Request>)
      requires Valid() && NoDup(batch) && Elements(batch) <= inHand
      modifies this`queue, this`submitted, this`inHand, this`outcome, this`trees
      ensures Valid() && RebasedTo(repo, old(View()), View(), batch, |batch|, rebased)
    {
      rebased := [];
      var i := 0;
      while i < |batch|
        invariant 0 <= i <= |batch|
        invariant Valid() && RebasedTo(repo, old(View()), View(), batch, i, rebased)
      {
        rebased := RebaseOne(batch, i, rebased, old(View()));
        i := i + 1;
      }
    }

    method RebaseOne(batch: seq<Request>, i: nat, rebased: seq<Request>, ghost start: State)
      returns (rebased': seq<Request>)
      requires Valid() && i < |batch| && NoDup(batch) && Elements(batch) <= start.inHand
      requires RebasedTo(repo, start, View(), batch, i, rebased)
      modifies this`queue, this`submitted, this`inHand, this`outcome, this`trees
      ensures Valid() && RebasedTo(repo, start, View(), batch, i + 1, rebased')
    {
      RebasedNext(repo, start, View(), batch, i, rebased);
      Await();
      ghost var v := View();
      match repo.rebaseOnto(main, Patch(trees, batch[i]))
      case Some(commits) =>
        trees := trees[batch[i] := commits];
        RebaseKeepsInv(repo, main0, v, View(), batch[i], commits);
        RebasedKeep(repo, start, old(View()), v, View(), batch, i, rebased, commits);
        rebased' := rebased + [batch[i]];
      case None =>
        Reject(batch[i], RebaseFailed);
        QuietThenSteps(old(View()), v, View(), {batch[i]});
        RebasedDrop(repo, start, old(View()), View(), batch, i, rebased);
        rebased' := rebased;
    }

    /** Build what is staged and land it, or bisect it. `staged` replays on main and staging holds it. */
    method BuildAndLand(staged: seq<Request>, staging: Worktree, mainRef: History)
      returns (raised: bool, ids: seq<string>, ghost d: Verdict, ghost ls: Landings)
      requires Valid() && View() in Holding(staged) && staged != [] && mainRef == main
      requires Replays(repo, trees, main, staged) && staging.tip == Tip(trees, main, staged)
      modifies this, staging
      ensures Valid() && View() in Settled(old(View()), staged)
      ensures ids in Naming(landed, |old(landed)|)
      ensures !raised ==> builds <= old(builds) + 1 + CeilLog2(|staged|)
      ensures BatchDone(repo, old(View()), View(), staged, d, raised)
      ensures Course(raised, ls) in BatchCourses(repo, old(View()), View(), staged)
    {
      ghost var from := |landed|;
      var buildOk := Build(staging);
      ghost var v := View();
      HoldingLater(old(View()), v, staged);
      if buildOk {
        var worked, result;
        ids, worked, result := LandBatch(staged, staging, mainRef, [], from);
        raised, d, ls := false, Verdict([], staged[0], []), Landing(worked, NoLanding);
        BuiltThenLanded(repo, old(View()), v, View(), staged, worked, result, d);
      } else {
        raised, ids, d, ls := BisectAndLand(staged, staging, mainRef, [], from);
        FailedThenSearched(repo, old(View()), v, View(), staged, d, Course(raised, ls));
      }
    }

    /** Stage what was rebased, then build and land or bisect it. The first request always stages. */
    method StageAndBuild(rebased: seq<Request>, mainRef: History)
      returns (raised: bool, ids: seq<string>, staged: seq<Request>, ghost d: Verdict, ghost ls: Landings)
      requires Valid() && View() in Offered(repo, rebased) && mainRef == main
      modifies this
      ensures Valid() && View() in StagedAndBuilt(repo, old(View()), rebased, staged, d, Course(raised, ls))
      ensures ids in Naming(landed, |old(landed)|)
      ensures !raised ==> builds <= old(builds) + 1 + CeilLog2(|rebased|)
    {
      var staging := CreateStaging();
      ghost var v := View();
      staged := StageAll(rebased, staging);
      ghost var x := View();
      StagedEnd(repo, v, x, staging.tip, rebased, staged);
      CeilLog2Monotone(|staged|, |rebased|);
      raised, ids, d, ls := BuildAndLand(staged, staging, mainRef);
      StagedThenDone(repo, old(View()), v, x, View(), rebased, staged, d, Course(raised, ls));
    }

    method RejectAll(batch: seq<Request>, reason: Reason)
      requires Valid() && NoDup(batch) && Elements(batch) <= inHand && batch != []
      modifies this`outcome, this`inHand
      ensures Valid() && View() in Settled(old(View()), batch)
      ensures RejectedFor(outcome, Elements(batch), reason)
    {
      var i := 0;
      while i < |batch|
        invariant 0 <= i <= |batch|
        invariant Valid() && RejectedTo(old(View()), View(), batch, i, reason)
      {
        ghost var v := View();
        RejectedSubject(old(View()), v, batch, i, reason);
        Reject(batch[i], reason);
        RejectedNext(old(View()), v, View(), batch, i, reason);
        i := i + 1;
      }
      RejectedEnd(old(View()), View(), batch, reason);
    }

    /** `_rev_parse` of main, then of HEAD. */
    method RevParseMain() returns (ref: Option<History>)
      modifies this`hashFailures
      ensures ref == Some(main) || (ref == None && hashFailures == old(hashFailures) + 1)
      ensures ref.Some? ==> hashFailures == old(hashFailures)
      ensures View() == old(View())
    {
      var known: bool := *;
      if known {
        return Some(main);
      }
      hashFailures := hashFailures + 1;
      ref := None;
    }

    /** The lookup at the head of a batch. */
    method ResolveHead() returns (head: Option<History>)
      requires Valid()
      modifies this`hashFailures, this`headFailures
      ensures Valid()
      ensures View() == old(View()).(headFailures := old(headFailures) + if head == None then 1 else 0)
      ensures head.Some? ==> head.value == main
    {
      head := RevParseMain();
      if head == None {
        headFailures := headFailures + 1;
      }
      NoticeKeepsInv(repo, main0, old(View()), View());
    }

    /** Phases 1 to 3: rebase the batch onto main, stage what rebased, then build and land or bisect it. */
    method RebaseStageAndLand(batch: seq<Request>, mainRef: History)
      returns (raised: bool, ids: seq<string>, ghost plan: Plan)
      requires Valid() && View() in Holding(batch) && batch != [] && mainRef == main
      requires callbacks in Reports(main0, trees, landed, main)
      modifies this
      ensures Valid() && inHand == old(inHand) - Elements(batch)
      ensures View() in Processed(repo, old(View()), batch, plan, raised)
      ensures ids in LandedIds(old(View()), View())
      ensures callbacks in Reports(main0, trees, old(landed), old(main)) && callbacks == old(callbacks)
      ensures old(main) == Tip(trees, main0, old(landed))
      ensures !raised ==> builds <= old(builds) + 1 + CeilLog2(|batch|)
    {
      var rebased := RebaseAllOntoMain(batch);
      RebasedEnd(repo, old(View()), View(), batch, rebased);
      RebasedReports(repo, main0, old(View()), View(), batch, rebased);
      if rebased == [] {
        raised, ids, plan := false, [], Plan([], [], Verdict([], batch[0], []), NoLanding);
        NoneRebased(repo, old(View()), View(), batch, plan.verdict);
        BatchIds(old(View()), View(), View(), ids);
      } else {
        CeilLog2Monotone(|rebased|, |batch|);
        raised, ids, plan := LandRebased(batch, rebased, mainRef, old(View()));
      }
    }

    /** What follows if some of the batch rebased; `start` is the state before the rebase. */
    method LandRebased(ghost batch: seq<Request>, rebased: seq<Request>, mainRef: History, ghost start: State)
      returns (raised: bool, ids: seq<string>, ghost plan: Plan)
      requires Valid() && View() in Offered(repo, rebased) && mainRef == main
      requires View() in RebasedAll(repo, start, batch, rebased) && start in Holding(batch)
      modifies this
      ensures Valid() && inHand == start.inHand - Elements(batch)
      ensures View() in Processed(repo, start, batch, plan, raised)
      ensures ids in LandedIds(start, View()) && trees == old(trees) && callbacks == old(callbacks)
      ensures !raised ==> builds <= old(builds) + 1 + CeilLog2(|rebased|)
    {
      ghost var staged, d, ls;
      raised, ids, staged, d, ls := StageAndBuild(rebased, mainRef);
      plan := Plan(rebased, staged, d, ls);
      RebasedThenDone(repo, start, old(View()), View(), batch, plan, raised);
      BatchIds(start, old(View()), View(), ids);
    }

    method OnBatchMerged(cb: Callback)
      modifies this`callbacks
      ensures View() == old(View()).(callbacks := old(callbacks) + [cb])
    {
      callbacks := callbacks + [cb];
    }

    /** Fire the callback once for the entire batch, if anything landed. */
    method NotifyBatchMerged(preHash: History, ids: seq<string>, ghost start: State)
      returns (postHash: Option<History>)
      requires Valid() && ids in LandedIds(start, View())
      requires callbacks in Reports(main0, trees, start.landed, start.main) && callbacks == start.callbacks
      requires start.main == Tip(trees, main0, start.landed) && preHash == start.main
      modifies this`callbacks, this`hashFailures
      ensures Valid() && callbacks in Reports(main0, trees, landed, main)
      ensures callbacks == if ids == [] then old(callbacks) else old(callbacks) + [Callback(preHash, postHash, ids)]
      ensures hashFailures == old(hashFailures) ==> postHash == Some(main)
      ensures View() in CalledOnce(start) && View() == old(View()).(callbacks := callbacks)
    {
      postHash := RevParseMain();
      if ids != [] {
        OnBatchMerged(Callback(preHash, postHash, ids));
      }
      NoticeKeepsInv(repo, main0, old(View()), View());
      Notified(main0, start, View(), ids, postHash);
    }

    /** The branch of a batch for a main that could not be resolved; `start` is the state before the lookup. */
    method RejectWithoutMain(batch: seq<Request>, ghost start: State)
      requires Valid() && View() in Holding(batch) && inHand == Elements(batch) && batch != []
      requires View() == start.(headFailures := start.headFailures + 1)
      requires callbacks in Reports(main0, trees, landed, main)
      modifies this`outcome, this`inHand
      ensures Valid() && View() in Handled(repo, main0, start, batch, NoMain, false) && builds == old(builds)
    {
      RejectAll(batch, MainUnresolved);
      NoMainIsProcessed(repo, start, View(), batch);
      NotCalled(start, View());
      HandledNotified(repo, main0, start, View(), View(), batch, NoMain);
    }

    /** The end of a batch that did not raise: the callback is told of what landed. */
    method Notify(preHash: History, ids: seq<string>, ghost start: State, ghost batch: seq<Request>, ghost plan: Plan)
      requires Valid() && ids in LandedIds(start, View()) && inHand == {}
      requires View() in Processed(repo, start, batch, plan, false)
      requires callbacks in Reports(main0, trees, start.landed, start.main) && callbacks == start.callbacks
      requires start.main == Tip(trees, main0, start.landed) && preHash == start.main
      modifies this`callbacks, this`hashFailures
      ensures Valid() && builds == old(builds) && View() in Handled(repo, main0, start, batch, plan, false)
    {
      var _ := NotifyBatchMerged(preHash, ids, start);
      HandledNotified(repo, main0, start, old(View()), View(), batch, plan);
    }

    /**
     Process one batch. Whatever git answers, every request of the batch ends up resolved or queued, at
     least one of them resolved. It raises just if what staged does not build and the bisect of it comes to an
     empty list, which `Processed` says of the state before and the landings. It then staged at least five
     requests, one landing worked and another failed, and what landed is never reported.
     */
    method ProcessBatch(batch: seq<Request>) returns (raised: bool, ghost plan: Plan)
      requires Valid() && View() in Holding(batch) && inHand == Elements(batch) && batch != []
      requires callbacks in Reports(main0, trees, landed, main)
      modifies this
      ensures Valid() && View() in Handled(repo, main0, old(View()), batch, plan, raised)
      ensures !raised ==> builds <= old(builds) + 1 + CeilLog2(|batch|)
    {
      var head := ResolveHead();
      if head == None {
        RejectWithoutMain(batch, old(View()));
        return false, NoMain;
      }
      var ids;
      raised, ids, plan := RebaseStageAndLand(batch, head.value);
      if raised {
        HandledRaised(repo, main0, old(View()), View(), batch, plan);
      } else {
        Notify(head.value, ids, old(View()), batch, plan);
      }
    }

    /** Takes the head of the queue into the batch. */
    method Get(batch: seq<Request>, ghost start: State) returns (batch': seq<Request>)
      requires Valid() && queue != [] && Collected(start, View(), batch)
      modifies this`queue, this`inHand
      ensures Valid() && Collected(start, View(), batch') && |batch'| == |batch| + 1
    {
      var item := queue[0];
      queue, inHand := queue[1..], inHand + {item};
      batch' := batch + [item];
      TakeKeepsInv(repo, main0, old(View()), View());
      CollectedNext(start, old(View()), View(), batch);
    }

    /** Other coroutines run while the queue is waited on. */
    method AwaitArrival(batch: seq<Request>, ghost start: State)
      requires Valid() && Collected(start, View(), batch)
      modifies this`queue, this`submitted
      ensures Valid() && Collected(start, View(), batch)
    {
      Await();
      CollectedLater(start, old(View()), View(), batch);
    }

    /**
     Wait for the first request, then drain up to the batch size; none if the wait timed out with nothing
     queued. The deadline may pass at any time.
     */
    method CollectBatch() returns (batch: seq<Request>)
      requires Valid() && inHand == {}
      modifies this`queue, this`submitted, this`inHand
      ensures Valid() && Collected(old(View()), View(), batch)
      ensures batch == [] ==> queue == []
      ensures |batch| <= MaxBatch()
    {
      ghost var start := View();
      CollectedStart(start);
      AwaitArrival([], start);
      if queue == [] {
        return [];
      }
      batch := Get([], start);
      while |batch| < batchSize
        invariant Valid() && Collected(start, View(), batch)
        invariant 0 < |batch| <= MaxBatch()
      {
        AwaitArrival(batch, start);
        var deadlinePassed: bool := *;
        if deadlinePassed || queue == [] {
          break;
        }
        batch := Get(batch, start);
      }
    }

    /** The handler of a batch that raised: whatever of it is not done is rejected. */
    method RejectUndone(batch: seq<Request>)
      requires Valid() && inHand == {} && Elements(batch) <= submitted
      modifies this`outcome
      ensures View() == old(View()).(outcome := outcome)
      ensures outcome.Keys == old(outcome).Keys + Elements(batch)
      ensures forall r :: r in outcome ==>
                outcome[r] == if r in old(outcome) then old(outcome)[r] else Rejected(InternalError)
      ensures Conserved(View()) <==> Elements(batch) !! Elements(queue)
    {
      var i := 0;
      while i < |batch|
        invariant 0 <= i <= |batch|
        invariant outcome.Keys == old(outcome).Keys + Elements(batch[..i])
        invariant forall r :: r in outcome ==>
                    outcome[r] == if r in old(outcome) then old(outcome)[r] else Rejected(InternalError)
      {
        UpTo(batch, i);
        if batch[i] !in outcome {
          SetResult(batch[i], Rejected(InternalError));
        }
        i := i + 1;
      }
      assert batch[..i] == batch;
      HandlerConserves(old(View()), View(), batch);
    }

    /**
     One turn of the main loop. If the batch raised, its handler rejects some request that waits in the queue,
     and some that landed is not reported: a batch raises just if not every request is in one place afterwards,
     and just if the calls do not tell of all that landed.
     */
    method Poll() returns (raised: bool, batch: seq<Request>)
      requires Valid() && inHand == {} && callbacks in Reports(main0, trees, landed, main)
      modifies this
      ensures old(View()).submitted <= submitted && landFailures >= old(landFailures)
      ensures raised ==> landFailures > old(landFailures) && |landed| > |old(landed)| && callbacks == old(callbacks)
      ensures raised ==> |batch| > 4
      ensures raised <==> !Conserved(View())
      ensures raised <==> callbacks !in Reports(main0, trees, landed, main)
      ensures raised ==> Elements(batch) <= outcome.Keys && SomeWait(View(), batch)
      ensures !raised ==> Valid() && inHand == {}
      ensures OnlyResolves(old(outcome), outcome, batch)
      ensures !raised && batch == [] ==> queue == []
      ensures !raised ==> builds <= old(builds) + TurnCost(batch)
      ensures |batch| <= MaxBatch()
      ensures headFailures == old(headFailures) || (headFailures == old(headFailures) + 1 && batch != [] && !raised)
      ensures headFailures > old(headFailures) ==>
                RejectedFor(outcome, Elements(batch), MainUnresolved) && main == old(main)
      ensures batch != [] && headFailures == old(headFailures) && landFailures == old(landFailures) ==>
                View() in Judged(repo, old(main), old(trees), batch)
      ensures View() in Justified(old(View()))
    {
      batch := CollectBatch();
      raised := false;
      if batch != [] {
        ghost var v := View();
        ghost var plan;
        raised, plan := ProcessBatch(batch);
        ghost var w := View();
        BatchResolves(repo, v, w, batch, plan, raised);
        if w.headFailures == v.headFailures && w.landFailures == v.landFailures {
          UndisturbedFates(repo, main0, v, w, batch, plan, raised);
        }
        if raised {
          RejectUndone(batch);
          StillResolves(v.outcome, w.outcome, outcome, batch);
          assert queue == w.queue;
        }
      }
      JudgedIsJustified(repo, old(View()), View(), batch);
    }

    /** A batch has at least its first request. */
    function MaxBatch(): nat {
      if batchSize == 0 then 1 else batchSize
    }

    /** One more poll of a run that began at `start` and has had `batches` batches, each of at most this cost. */
    method Turn(ghost start: State, ghost batches: nat, ghost cost: nat) returns (raised: bool, empty: bool)
      requires Valid() && inHand == {} && callbacks in Reports(main0, trees, landed, main)
      requires View() in Progress(start, batches, cost) && Covers(cost, MaxBatch())
      modifies this
      ensures raised ==> landFailures > start.landFailures && batchSize > 4 && !Conserved(View())
      ensures raised <==> callbacks !in Reports(main0, trees, landed, main)
      ensures !raised ==> Valid() && inHand == {}
      ensures !raised ==> View() in Progress(start, if empty then batches else batches + 1, cost)
      ensures !raised && empty ==> start.submitted <= outcome.Keys
      ensures View() in Justified(old(View()))
    {
      var batch;
      raised, batch := Poll();
      empty := batch == [];
      OnlyResolvesSize(old(outcome), outcome, batch);
      if !raised {
        ProgressNext(start, old(View()), View(), batches, batch, MaxBatch(), cost);
        if empty {
          IdleIsResolved(start, View());
        }
      }
    }

    /**
     The main loop, for any number of polls. Unless a landing fails and batches may have five requests or more,
     no batch raises, and everything that was submitted before is resolved once there were more polls than
     requests that may need one.
     */
    method Run(polls: nat) returns (raised: bool, ghost batches: nat)
      requires Valid() && inHand == {} && callbacks in Reports(main0, trees, landed, main)
      modifies this
      ensures raised ==> landFailures > old(landFailures) && batchSize > 4
      ensures raised <==> !Conserved(View())
      ensures raised <==> callbacks !in Reports(main0, trees, landed, main)
      ensures !raised ==> Valid() && inHand == {}
      ensures !raised ==> View() in RunsTo(old(View()), batches, MaxBatch())
      ensures View() in Justified(old(View()))
      ensures !raised && polls > |submitted| - |old(outcome)| ==> old(submitted) <= outcome.Keys
    {
      ghost var idle;
      BatchCostCovers(MaxBatch());
      raised, batches, idle := PollRepeatedly(polls, BatchCost(MaxBatch()));
      if !raised {
        ProgressEnd(old(View()), View(), batches, MaxBatch());
      }
    }

    /** `idle` says whether some poll found nothing queued. */
    method PollRepeatedly(polls: nat, ghost cost: nat) returns (raised: bool, ghost batches: nat, ghost idle: bool)
      requires Covers(cost, MaxBatch())
      requires Valid() && inHand == {} && callbacks in Reports(main0, trees, landed, main)
      modifies this
      ensures raised ==> landFailures > old(landFailures) && batchSize > 4 && !Conserved(View())
      ensures raised <==> callbacks !in Reports(main0, trees, landed, main)
      ensures !raised ==> Valid() && inHand == {}
      ensures !raised ==> View() in Progress(old(View()), batches, cost)
      ensures View() in Justified(old(View()))
      ensures !raised ==> if idle then old(submitted) <= outcome.Keys else batches == polls
    {
      ghost var start := View();
      raised, batches, idle := false, 0, false;
      NoProgressYet(start, cost);
      for i := 0 to polls
        invariant Valid() && inHand == {} && callbacks in Reports(main0, trees, landed, main)
        invariant View() in Progress(start, batches, cost) && View() in Justified(start)
        invariant if idle then start.submitted <= outcome.Keys else batches == i
      {
        var empty;
        ghost var v := View();
        raised, empty := Turn(start, batches, cost);
        JustifiedTwice(start, v, View());
        if raised {
          return;
        }
        idle := idle || empty;
        batches := if empty then batches else batches + 1;
      }
    }
  }
}
