/**
 What a bisect of a staged list does to the state of the merge queue. What a whole piece of work promises is
 given as a set of states (or of verdicts): membership passes from lemma to lemma without its conjuncts.
 */
module Bisection {
  import opened Wrappers
  import opened Sequences
  import opened Growth
  import opened Git
  import opened Staging
  import opened MergeQueueState
  import opened Raising

  /** The batch is done with `subset`: every member is resolved or queued, and at least one is resolved. */
  ghost function Settled(v: State, subset: seq<Request>): iset<State> {
    iset w: State |
      && Steps(v, w, Elements(subset))
      && w.inHand == v.inHand - Elements(subset)
      && (subset != [] ==> Elements(subset) * w.outcome.Keys != {})
  }

  /** The requests, each once, are in hand. */
  ghost function Holding(rs: seq<Request>): iset<State> {
    iset v: State | NoDup(rs) && Elements(rs) <= v.inHand
  }

  lemma {:induction false} HoldingLater(u: State, v: State, rs: seq<Request>)
    requires u in Holding(rs) && Quiet(u, v)
    ensures v in Holding(rs)
  {
  }

  /** Where a bisect ends: the good requests in front of the culprit, the culprit, and those behind it. */
  datatype Verdict = Verdict(good: seq<Request>, culprit: Request, rest: seq<Request>)

  /** The list is the good requests, the culprit, and the rest, in this order. */
  ghost predicate Splits(subset: seq<Request>, d: Verdict) {
    Extends(d.good + [d.culprit], subset, d.rest)
  }

  /**
   The good requests landed in order and that main builds; main with the culprit on top does not build and
   the culprit is rejected for that.
   */
  ghost predicate LandsGood(repo: Repo, v: State, w: State, d: Verdict) {
    && w.main == Tip(v.trees, v.main, d.good) && Extends(v.landed, w.landed, d.good)
    && (d.good != [] ==> repo.builds(w.main))
    && !repo.builds(w.main + Patch(v.trees, d.culprit))
    && d.culprit in w.outcome && IsForBuild(w.outcome[d.culprit])
  }

  /** Of the list exactly the rest went back to the queue, each request once. */
  ghost predicate Defers(v: State, w: State, subset: seq<Request>, d: Verdict) {
    && Prefix(v.queue, w.queue)
    && multiset(Added(v.queue, w.queue, Elements(subset))) == multiset(d.rest)
  }

  /** The verdicts that a bisect of `subset` from `v` to `w` may give. */
  ghost function Verdicts(repo: Repo, v: State, w: State, subset: seq<Request>): iset<Verdict> {
    iset d: Verdict | Splits(subset, d) && LandsGood(repo, v, w, d) && Defers(v, w, subset, d)
  }

  /** What a bisect means for each request of the staged list. */
  lemma BisectedFates(repo: Repo, main0: History, v: State, w: State, subset: seq<Request>, d: Verdict)
    requires w in Sound(repo, main0) && d in Verdicts(repo, v, w, subset)
    ensures forall r :: r in d.good ==> r in w.outcome && w.outcome[r].Merged?
    ensures forall r :: r in d.rest ==> r in w.queue && r !in w.outcome
    ensures forall r :: r in subset && r in w.queue ==> r in d.rest
  {
    ExtendsIsConcat(v.landed, w.landed, d.good);
    ExtendsIsConcat(d.good + [d.culprit], subset, d.rest);
    ElementsConcat(v.landed, d.good);
    forall r | r in d.good ensures r in w.outcome && w.outcome[r].Merged? {
      InElements(d.good, r);
      assert r in MergedOf(w.outcome);
    }
    var added := Added(v.queue, w.queue, Elements(subset));
    AddedMembers(v.queue, w.queue, Elements(subset));
    forall r | r in d.rest ensures r in w.queue && r !in w.outcome {
      assert r in multiset(d.rest);
      assert r in added;
      InElements(added, r);
      InElements(w.queue, r);
    }
    forall r | r in subset && r in w.queue ensures r in d.rest {
      InElements(w.queue, r);
      assert r !in w.outcome;
      assert r in d.good + [d.culprit] + d.rest;
    }
  }

  /** The two lists are the halves into which the bisect cuts their concatenation. */
  predicate Halves(left: seq<Request>, right: seq<Request>) {
    left != [] && |left| <= |right| <= |left| + 1
  }

  /** The left half landed and the bisect went on in the right half. */
  lemma BisectedRight(repo: Repo, u: State, v: State, w: State, left: seq<Request>, right: seq<Request>, d: Verdict)
    requires left != []
    requires Conserved(v) && Conserved(w)
    requires Elements(left) <= v.outcome.Keys <= w.outcome.Keys
    requires Elements(right) <= v.inHand
    requires v.trees == u.trees && Prefix(u.queue, v.queue)
    requires v.main == Tip(u.trees, u.main, left) && Extends(u.landed, v.landed, left)
    requires repo.builds(v.main)
    requires d in Verdicts(repo, v, w, right)
    ensures Verdict(left + d.good, d.culprit, d.rest) in Verdicts(repo, u, w, left + right)
  {
    RightSplits(left, right, d);
    RightLandsGood(repo, u, v, w, left, d);
    RightDefers(u, v, w, left, right, d);
  }

  lemma {:induction false} RightSplits(left: seq<Request>, right: seq<Request>, d: Verdict)
    requires Splits(right, d)
    ensures Splits(left + right, Verdict(left + d.good, d.culprit, d.rest))
  {
    var bad := d.good + [d.culprit];
    ExtendsIsConcat(bad, right, d.rest);
    ExtendsIsConcat(left + bad, left + right, d.rest);
    assert left + (bad + d.rest) == (left + bad) + d.rest;
    assert left + bad == (left + d.good) + [d.culprit];
  }

  lemma {:induction false} RightLandsGood(repo: Repo, u: State, v: State, w: State, left: seq<Request>, d: Verdict)
    requires left != [] && v.trees == u.trees && repo.builds(v.main)
    requires v.main == Tip(u.trees, u.main, left) && Extends(u.landed, v.landed, left)
    requires LandsGood(repo, v, w, d)
    ensures LandsGood(repo, u, w, Verdict(left + d.good, d.culprit, d.rest))
  {
    ExtendsTwice(u.landed, v.landed, w.landed, left, d.good);
    TipConcat(u.trees, u.main, left, d.good);
    assert d.good == [] ==> w.main == v.main;
  }

  lemma {:induction false} RightDefers(u: State, v: State, w: State, left: seq<Request>, right: seq<Request>,
                                       d: Verdict)
    requires Conserved(v) && Conserved(w) && Prefix(u.queue, v.queue)
    requires Elements(left) <= v.outcome.Keys <= w.outcome.Keys && Elements(right) <= v.inHand
    requires Defers(v, w, right, d)
    ensures Defers(u, w, left + right, Verdict(left + d.good, d.culprit, d.rest))
  {
    PrefixTrans(u.queue, v.queue, w.queue);
    BisectedRightQueue(u, v, w, left, right);
  }

  lemma BisectedRightQueue(u: State, v: State, w: State, left: seq<Request>, right: seq<Request>)
    requires Conserved(v) && Conserved(w) && Prefix(u.queue, v.queue) && Prefix(v.queue, w.queue)
    requires Elements(left) <= v.outcome.Keys <= w.outcome.Keys
    requires Elements(right) <= v.inHand
    ensures Added(u.queue, w.queue, Elements(left + right)) == Added(v.queue, w.queue, Elements(right))
  {
    ElementsConcat(left, right);
    var all := Elements(left + right);
    assert all == Elements(right) + Elements(left);
    AddedTrans(u.queue, v.queue, w.queue, all);
    AddedNone(u.queue, v.queue, all);
    AddedWithout(v.queue, w.queue, Elements(right), Elements(left));
  }

  /** The right half was deferred and the bisect went on in the left half. */
  lemma BisectedLeft(repo: Repo, u: State, q: State, v: State, w: State,
                     left: seq<Request>, right: seq<Request>, d: Verdict)
    requires Conserved(q) && Conserved(w) && Prefix(u.queue, q.queue) && Elements(left + right) <= q.inHand
    requires Extends(q.queue, v.queue, right)
    requires v.trees == u.trees && v.main == u.main && v.landed == u.landed
    requires d in Verdicts(repo, v, w, left)
    ensures Verdict(d.good, d.culprit, d.rest + right) in Verdicts(repo, u, w, left + right)
  {
    LeftSplits(left, right, d);
    LeftDefers(u, q, v, w, left, right, d);
  }

  lemma {:induction false} LeftSplits(left: seq<Request>, right: seq<Request>, d: Verdict)
    requires Splits(left, d)
    ensures Splits(left + right, Verdict(d.good, d.culprit, d.rest + right))
  {
    ExtendsIsConcat(left, left + right, right);
    ExtendsTwice(d.good + [d.culprit], left, left + right, d.rest, right);
  }

  lemma {:induction false} LeftDefers(u: State, q: State, v: State, w: State,
                                      left: seq<Request>, right: seq<Request>, d: Verdict)
    requires Conserved(q) && Conserved(w) && Prefix(u.queue, q.queue) && Elements(left + right) <= q.inHand
    requires Extends(q.queue, v.queue, right) && Defers(v, w, left, d)
    ensures Defers(u, w, left + right, Verdict(d.good, d.culprit, d.rest + right))
  {
    ExtendsIsConcat(q.queue, v.queue, right);
    PrefixOfConcat(q.queue, right);
    PrefixTrans(u.queue, q.queue, v.queue);
    PrefixTrans(u.queue, v.queue, w.queue);
    BisectedLeftQueue(u, q, v, w, left, right);
    assert multiset(right + Added(v.queue, w.queue, Elements(left))) == multiset(d.rest + right);
  }

  lemma BisectedLeftQueue(u: State, q: State, v: State, w: State, left: seq<Request>, right: seq<Request>)
    requires Conserved(q) && Conserved(w) && Elements(left + right) <= q.inHand
    requires Prefix(u.queue, q.queue) && v.queue == q.queue + right && Prefix(v.queue, w.queue)
    ensures Added(u.queue, w.queue, Elements(left + right)) == right + Added(v.queue, w.queue, Elements(left))
  {
    var all := Elements(left + right);
    ElementsConcat(left, right);
    ElementsConcat(q.queue, right);
    DeferredRight(u.queue, q.queue, right, all);
    AddedTrans(u.queue, v.queue, w.queue, all);
    AddedWithout(v.queue, w.queue, Elements(left), Elements(right));
  }

  lemma DeferredRight(q: seq<Request>, q': seq<Request>, right: seq<Request>, all: set<Request>)
    requires Prefix(q, q') && Elements(q') !! all && Elements(right) <= all
    ensures Prefix(q, q' + right) && Added(q, q' + right, all) == right
  {
    PrefixOfConcat(q', right);
    PrefixTrans(q, q', q' + right);
    AddedTrans(q, q', q' + right, all);
    AddedNone(q, q', all);
    AddedAll(q', right, all);
  }

  /** One request of the list failed to cherry-pick: it was rejected and taken out of the list. */
  ghost predicate PickFailed(repo: Repo, v: State, w: State, subset: seq<Request>, kept: seq<Request>) {
    exists a, r, b :: PickFailedAt(repo, v, w, subset, kept, a, r, b)
  }

  /** The failing request is the first one whose commits do not go onto the ones before it. */
  ghost predicate PickFailedAt(repo: Repo, v: State, w: State, subset: seq<Request>, kept: seq<Request>,
                               a: seq<Request>, r: Request, b: seq<Request>)
  {
    && subset == a + ([r] + b) && kept == a + b
    && Replays(repo, v.trees, v.main, a) && !repo.PicksAll(Tip(v.trees, v.main, a), Patch(v.trees, r))
    && Steps(v, w, {r}) && w.inHand == v.inHand - {r}
    && r in w.outcome && w.outcome[r] == Rejected(CherryPickFailedInBisect)
    && w.main == v.main && w.landed == v.landed && w.landFailures == v.landFailures
  }

  lemma WithoutOne(a: seq<Request>, r: Request, b: seq<Request>)
    ensures Elements(a + b) + {r} == Elements(a + ([r] + b))
    ensures NoDup(a + ([r] + b)) ==> NoDup(a + b) && r !in Elements(a + b)
  {
    ElementsConcat(a, [r] + b);
    ElementsConcat([r], b);
    ElementsConcat(a, b);
    NoDupConcat(a, [r] + b);
    NoDupConcat([r], b);
    NoDupConcat(a, b);
  }

  /** The staged list replays on main, and main with the list on top does not build. */
  ghost predicate FailsToBuild(repo: Repo, v: State, subset: seq<Request>) {
    Replays(repo, v.trees, v.main, subset) && !repo.builds(Tip(v.trees, v.main, subset))
  }

  /** If the whole list fails, the left half replays, and once it has landed the right half fails. */
  lemma FailsInHalves(repo: Repo, v: State, w: State, left: seq<Request>, right: seq<Request>)
    requires FailsToBuild(repo, v, left + right) && w.trees == v.trees
    ensures Replays(repo, v.trees, v.main, left)
    ensures w.main == Tip(v.trees, v.main, left) ==> FailsToBuild(repo, w, right)
  {
    ReplaysConcat(repo, v.trees, v.main, left, right);
    TipConcat(v.trees, v.main, left, right);
  }

  /** `done` was worked off first and `kept` was settled after that: all of `subset` is settled. */
  lemma SettledRest(u: State, v: State, w: State, subset: seq<Request>, done: set<Request>, kept: seq<Request>)
    requires Steps(u, v, done) && v.inHand == u.inHand - done
    requires w in Settled(v, kept) && done + Elements(kept) == Elements(subset)
    requires kept == [] ==> subset == [] || done * v.outcome.Keys != {}
    ensures w in Settled(u, subset)
  {
    StepsTwice(u, v, w, done, Elements(kept), Elements(subset));
    if kept != [] {
      var r :| r in Elements(kept) * w.outcome.Keys;
      assert r in Elements(subset) * w.outcome.Keys;
    } else if subset != [] {
      var r :| r in done * v.outcome.Keys;
      assert r in Elements(subset) * w.outcome.Keys;
    }
  }

  /** What a rebuild leaves: at most one member of the list is gone, and that one is resolved. */
  ghost function Rebuilt(v: State, subset: seq<Request>, kept: seq<Request>): iset<State> {
    iset w: State |
      && Steps(v, w, Elements(subset) - Elements(kept))
      && w.inHand == v.inHand - (Elements(subset) - Elements(kept))
      && Elements(kept) <= Elements(subset) && |kept| <= |subset| && NoDup(kept)
      && (kept == [] ==> subset == [] || (Elements(subset) - Elements(kept)) * w.outcome.Keys != {})
      && w.main == v.main && w.landed == v.landed && w.landFailures == v.landFailures
  }

  /** The list was rebuilt on main and its build passed. */
  ghost function Built(repo: Repo, v: State, subset: seq<Request>): iset<State> {
    iset w: State | Quiet(v, w) && Replays(repo, v.trees, v.main, subset) && repo.builds(Tip(v.trees, v.main, subset))
  }

  /** The list was rebuilt on main and its build failed, or one request did not pick and `kept` is left. */
  ghost function NotBuilt(repo: Repo, v: State, subset: seq<Request>, kept: seq<Request>): iset<State> {
    iset w: State |
      && w in Rebuilt(v, subset, kept) && kept == Raising.Kept(repo, v.trees, v.main, subset)
      && (Replays(repo, v.trees, v.main, subset) ==>
            Quiet(v, w) && kept == subset && !repo.builds(Tip(v.trees, v.main, subset)))
  }

  lemma {:induction false} BuildAnswers(repo: Repo, v: State, w: State, subset: seq<Request>, ok: bool)
    requires Quiet(v, w) && NoDup(subset) && Replays(repo, v.trees, v.main, subset)
    requires ok == repo.builds(Tip(v.trees, v.main, subset))
    ensures if ok then w in Built(repo, v, subset) else w in NotBuilt(repo, v, subset, subset)
  {
    QuietIsRebuilt(v, w, subset);
    KeptIsAll(repo, v.trees, v.main, subset);
  }

  lemma {:induction false} PickAnswers(repo: Repo, v: State, w: State, subset: seq<Request>, kept: seq<Request>)
    requires PickFailed(repo, v, w, subset, kept) && NoDup(subset) && !Replays(repo, v.trees, v.main, subset)
    ensures w in NotBuilt(repo, v, subset, kept)
  {
    PickFailedIsRebuilt(repo, v, w, subset, kept);
    PickFailedKept(repo, v, w, subset, kept);
  }

  lemma PickFailedIsRebuilt(repo: Repo, v: State, w: State, subset: seq<Request>, kept: seq<Request>)
    requires PickFailed(repo, v, w, subset, kept) && NoDup(subset)
    ensures w in Rebuilt(v, subset, kept)
  {
    var a, r, b :| PickFailedAt(repo, v, w, subset, kept, a, r, b);
    WithoutOne(a, r, b);
    assert Elements(subset) - Elements(kept) == {r};
    assert r in {r} * w.outcome.Keys;
  }

  lemma QuietIsRebuilt(v: State, w: State, subset: seq<Request>)
    requires Quiet(v, w) && NoDup(subset)
    ensures w in Rebuilt(v, subset, subset)
  {
    assert Elements(subset) - Elements(subset) == {};
    assert Steps(v, w, {});
  }

  /** A single request whose build failed is rejected without another build, and rightly so. */
  lemma SingleIsCulprit(repo: Repo, v: State, w: State, r: Request, reason: Reason)
    requires w.queue == v.queue && w.main == v.main && w.landed == v.landed
    requires w.inHand == v.inHand - {r} && Steps(v, w, {r})
    requires r in w.outcome && w.outcome[r] == Rejected(reason) && IsForBuild(Rejected(reason))
    ensures w in Settled(v, [r])
    ensures FailsToBuild(repo, v, [r]) ==> Verdict([], r, []) in Verdicts(repo, v, w, [r])
  {
    assert Elements([r]) == {r};
    assert r in Elements([r]) * w.outcome.Keys;
    TipPush(v.trees, v.main, [], r);
    assert [] + [r] == [r];
  }

  /** Arrivals before a bisect do not matter to it. */
  lemma QuietThenBisected(repo: Repo, u: State, v: State, w: State, subset: seq<Request>, d: Verdict)
    requires Quiet(u, v) && Conserved(v) && Elements(subset) <= v.inHand
    requires w in Settled(v, subset)
    ensures w in Settled(u, subset)
    ensures d in Verdicts(repo, v, w, subset) ==> d in Verdicts(repo, u, w, subset)
  {
    QuietThenSteps(u, v, w, Elements(subset));
    GrowsIsPrefix(u.queue, v.queue, u.submitted, {});
    BeforeBisected(repo, u, v, w, subset, d);
  }

  /** Nothing of the list was queued between `u` and `v`, and main stayed. */
  lemma BeforeBisected(repo: Repo, u: State, v: State, w: State, subset: seq<Request>, d: Verdict)
    requires Conserved(v) && Elements(subset) <= v.inHand && Prefix(u.queue, v.queue)
    requires v.main == u.main && v.landed == u.landed && v.trees == u.trees
    ensures d in Verdicts(repo, v, w, subset) ==> d in Verdicts(repo, u, w, subset)
  {
    if d in Verdicts(repo, v, w, subset) {
      PrefixTrans(u.queue, v.queue, w.queue);
      AddedTrans(u.queue, v.queue, w.queue, Elements(subset));
      AddedNone(u.queue, v.queue, Elements(subset));
    }
  }

  /** What every bisect promises of its result, if no landing failed. */
  ghost predicate FoundCulprit(repo: Repo, v: State, w: State, subset: seq<Request>, d: Verdict, raised: bool) {
    FailsToBuild(repo, v, subset) && w.landFailures == v.landFailures ==>
      !raised && d in Verdicts(repo, v, w, subset)
  }

  /** From `start`: arrivals to `u`, the left half lands giving `v`, the right half is bisected giving `w`. */
  lemma RightHalf(repo: Repo, start: State, u: State, v: State, w: State,
                  left: seq<Request>, right: seq<Request>, d: Verdict, raised: bool)
    requires left != [] && u in Built(repo, start, left)
    requires Steps(u, v, Elements(left)) && v.inHand == u.inHand - Elements(left)
    requires Conserved(v) && Conserved(w) && Elements(right) <= v.inHand
    requires Elements(left) <= v.outcome.Keys
    requires v.landFailures == u.landFailures ==> Extends(u.landed, v.landed, left)
    requires v.landFailures == u.landFailures ==> v.main == Tip(u.trees, u.main, left) && repo.builds(v.main)
    requires w in Settled(v, right) && FoundCulprit(repo, v, w, right, d, raised)
    ensures w in Settled(start, left + right)
    ensures FoundCulprit(repo, start, w, left + right, Verdict(left + d.good, d.culprit, d.rest), raised)
  {
    RightHalfSettled(start, u, v, w, left, right);
    if FailsToBuild(repo, start, left + right) && w.landFailures == start.landFailures {
      assert v.landFailures == u.landFailures;
      QuietThenSteps(start, u, v, Elements(left));
      GrowsIsPrefix(start.queue, v.queue, start.submitted, Elements(left));
      FailsInHalves(repo, start, v, left, right);
      BisectedRight(repo, start, v, w, left, right, d);
    }
  }

  lemma RightHalfSettled(start: State, u: State, v: State, w: State, left: seq<Request>, right: seq<Request>)
    requires left != [] && Quiet(start, u)
    requires Steps(u, v, Elements(left)) && v.inHand == u.inHand - Elements(left)
    requires Elements(left) <= v.outcome.Keys
    requires w in Settled(v, right)
    ensures w in Settled(start, left + right)
  {
    ElementsConcat(left, right);
    QuietThenSteps(start, u, v, Elements(left));
    assert left[|left| - 1] in Elements(left) * v.outcome.Keys;
    SettledRest(start, v, w, left + right, Elements(left), right);
  }

  /** From `start`: the left half is rebuilt giving `u`, the right half deferred giving `v`, then `kept` is bisected. */
  lemma LeftHalf(repo: Repo, start: State, u: State, v: State, w: State,
                 left: seq<Request>, kept: seq<Request>, right: seq<Request>, d: Verdict, raised: bool)
    requires left != [] && Elements(left + right) <= start.inHand
    requires u in NotBuilt(repo, start, left, kept)
    requires Conserved(u) && Conserved(w)
    requires Extends(u.queue, v.queue, right) && v.inHand == u.inHand - Elements(right)
    requires v.main == u.main && v.landed == u.landed && v.landFailures == u.landFailures
    requires Steps(u, v, Elements(right))
    requires w in Settled(v, kept) && (kept != [] ==> FoundCulprit(repo, v, w, kept, d, raised))
    ensures w in Settled(start, left + right)
    ensures FoundCulprit(repo, start, w, left + right, Verdict(d.good, d.culprit, d.rest + right), raised)
  {
    LeftHalfSettled(start, u, v, w, left, kept, right);
    if FailsToBuild(repo, start, left + right) && w.landFailures == start.landFailures {
      FailsInHalves(repo, start, start, left, right);
      GrowsIsPrefix(start.queue, u.queue, start.submitted, {});
      BisectedLeft(repo, start, u, v, w, left, right, d);
    }
  }

  lemma LeftHalfSettled(start: State, u: State, v: State, w: State,
                        left: seq<Request>, kept: seq<Request>, right: seq<Request>)
    requires left != [] && u in Rebuilt(start, left, kept)
    requires Steps(u, v, Elements(right)) && v.inHand == u.inHand - Elements(right)
    requires w in Settled(v, kept)
    ensures w in Settled(start, left + right)
  {
    var dropped := Elements(left) - Elements(kept);
    ElementsConcat(left, right);
    StepsTwice(start, u, v, dropped, Elements(right), dropped + Elements(right));
    if kept == [] {
      var r :| r in dropped * u.outcome.Keys;
      assert r in (dropped + Elements(right)) * v.outcome.Keys;
    }
    SettledRest(start, v, w, left + right, dropped + Elements(right), kept);
  }

  // ----- Whether a bisect raises -----

  /** How a bisect went: whether it came to an empty list and so raised, and which landings worked. */
  datatype Course = Course(raised: bool, landings: Landings)

  /** Some request of the list waits in the queue. */
  ghost predicate SomeWait(w: State, rs: seq<Request>) {
    Elements(rs) * Elements(w.queue) != {}
  }

  lemma {:induction false} SomeWaitInMore(w: State, rs: seq<Request>, all: seq<Request>)
    requires SomeWait(w, rs) && Elements(rs) <= Elements(all)
    ensures SomeWait(w, all)
  {
    var r :| r in Elements(rs) * Elements(w.queue);
    assert r in Elements(all) * Elements(w.queue);
  }

  /** The state after these landings: each that failed was counted, each that worked added to what landed. */
  ghost function Tallied(v: State, ls: Landings): iset<State> {
    iset w: State |
      && w.landFailures == v.landFailures + Failures(ls)
      && |v.landed| + Worked(ls) <= |w.landed|
      && (Worked(ls) == 0 ==> |w.landed| == |v.landed|)
  }

  /**
   The courses that a bisect of `rs` from `v` to `w` may take: it raises just if what picks and builds in `v`
   and the landings say so, and then some of the list waits in the queue.
   */
  ghost function Courses(repo: Repo, v: State, w: State, rs: seq<Request>): iset<Course> {
    iset c: Course |
      && w in Tallied(v, c.landings)
      && (rs == [] ==> c.raised)
      && (rs != [] ==> c.raised == Raises(repo, v.trees, v.main, rs, c.landings) && (c.raised ==> SomeWait(w, rs)))
  }

  ghost function CoursesInHalves(repo: Repo, v: State, w: State, left: seq<Request>,
                                 right: seq<Request>): iset<Course> {
    iset c: Course |
      && w in Tallied(v, c.landings)
      && c.raised == RaisesInHalves(repo, v.trees, v.main, left, right, c.landings)
      && (c.raised ==> SomeWait(w, left + right))
  }

  /** A single request is rejected, an empty list raises. */
  lemma {:induction false} ShortCourse(repo: Repo, v: State, w: State, rs: seq<Request>)
    requires |rs| <= 1 && w.landFailures == v.landFailures && w.landed == v.landed
    ensures Course(rs == [], NoLanding) in Courses(repo, v, w, rs)
  {
  }

  lemma {:induction false} CourseInHalves(repo: Repo, v: State, w: State, rs: seq<Request>, mid: nat, c: Course)
    requires |rs| > 1 && mid == |rs| / 2 && c in CoursesInHalves(repo, v, w, rs[..mid], rs[mid..])
    ensures c in Courses(repo, v, w, rs)
  {
    assert mid == Half(|rs|);
    BackIs(rs, mid);
    Rejoin(rs, mid);
  }

  /** Where main, the worktrees and the landings so far are the same, so are the courses. */
  lemma {:induction false} CourseEarlier(repo: Repo, u: State, v: State, w: State, rs: seq<Request>, c: Course)
    requires v.main == u.main && v.trees == u.trees && v.landFailures == u.landFailures && v.landed == u.landed
    ensures c in Courses(repo, v, w, rs) ==> c in Courses(repo, u, w, rs)
    ensures c in BatchCourses(repo, v, w, rs) ==> c in BatchCourses(repo, u, w, rs)
  {
  }

  /** The left half lands, or fails to, giving `v`, and the bisect goes on in the right half. */
  lemma {:induction false} CourseOnRight(repo: Repo, start: State, u: State, v: State, w: State,
                                         left: seq<Request>, right: seq<Request>, worked: bool, c: Course)
    requires Halves(left, right) && u in Built(repo, start, left)
    requires v.trees == u.trees && v.main == if worked then Tip(u.trees, u.main, left) else u.main
    requires v.landFailures == u.landFailures + (if worked then 0 else 1)
    requires Extends(u.landed, v.landed, if worked then left else [])
    requires c in Courses(repo, v, w, right)
    ensures Course(c.raised, Landing(worked, c.landings)) in CoursesInHalves(repo, start, w, left, right)
  {
    ElementsConcat(left, right);
    ExtendsSize(u.landed, v.landed, if worked then left else []);
    if c.raised {
      SomeWaitInMore(w, right, left + right);
    }
  }

  /** The right half is put on the queue, giving `v`, and the bisect goes on in what is left of the left half. */
  lemma {:induction false} CourseOnLeft(repo: Repo, start: State, u: State, v: State, w: State, left: seq<Request>,
                                        kept: seq<Request>, right: seq<Request>, c: Course)
    requires left != [] && right != [] && kept == Raising.Kept(repo, start.trees, start.main, left)
    requires Replays(repo, start.trees, start.main, left) ==> !repo.builds(Tip(start.trees, start.main, left))
    requires v.trees == start.trees && v.main == start.main && v.landFailures == start.landFailures
    requires v.landed == start.landed
    requires Extends(u.queue, v.queue, right) && Prefix(v.queue, w.queue)
    requires c in Courses(repo, v, w, kept)
    ensures c in CoursesInHalves(repo, start, w, left, right)
  {
    KeptIsAll(repo, start.trees, start.main, left);
    DeferredWait(u, v, w, left, right);
  }

  /** What was put on the queue waits there. */
  lemma {:induction false} DeferredWait(u: State, v: State, w: State, left: seq<Request>, right: seq<Request>)
    requires right != [] && Extends(u.queue, v.queue, right) && Prefix(v.queue, w.queue)
    ensures SomeWait(w, left + right)
  {
    ExtendsIsConcat(u.queue, v.queue, right);
    ElementsConcat(u.queue, right);
    ElementsConcat(left, right);
    PrefixElements(v.queue, w.queue);
    assert right[|right| - 1] in Elements(left + right) * Elements(w.queue);
  }

  /** The same, with the queue as the rebuild left it, `u`, and what the bisect of `kept` keeps. */
  lemma {:induction false} LeftHalfCourse(repo: Repo, start: State, u: State, v: State, w: State, left: seq<Request>,
                                          kept: seq<Request>, right: seq<Request>, c: Course)
    requires Halves(left, right) && u in NotBuilt(repo, start, left, kept)
    requires v.trees == u.trees && v.main == u.main && v.landFailures == u.landFailures && v.landed == u.landed
    requires Extends(u.queue, v.queue, right) && w in Settled(v, kept)
    requires c in Courses(repo, v, w, kept)
    ensures c in CoursesInHalves(repo, start, w, left, right)
  {
    GrowsIsPrefix(v.queue, w.queue, v.submitted, Elements(kept));
    CourseOnLeft(repo, start, u, v, w, left, kept, right, c);
  }

  lemma {:induction false} PickFailedKept(repo: Repo, v: State, w: State, subset: seq<Request>, kept: seq<Request>)
    requires PickFailed(repo, v, w, subset, kept)
    ensures kept == Raising.Kept(repo, v.trees, v.main, subset)
  {
    var a, r, b :| PickFailedAt(repo, v, w, subset, kept, a, r, b);
    KeptWithoutOne(repo, v.trees, v.main, a, r, b);
    assert a + [r] + b == a + ([r] + b);
  }

  // ----- What a bisect builds -----

  /** The requests of `done` have landed, and behind them `subset` comes next in what was staged. */
  ghost predicate FrontAt(origin: State, staged: seq<Request>, v: State, subset: seq<Request>, done: seq<Request>) {
    v.main == Tip(origin.trees, origin.main, done) && Prefix(done + subset, staged)
  }

  /** The bisect of `staged` that began at `origin` has come to `subset`, and no landing has failed. */
  ghost predicate Undisturbed(repo: Repo, origin: State, staged: seq<Request>, v: State) {
    Replays(repo, origin.trees, origin.main, staged) && v.landFailures == origin.landFailures
  }

  /** The states in which a bisect of `staged` from `origin` may come to `subset`. */
  ghost function OnFront(repo: Repo, origin: State, staged: seq<Request>, subset: seq<Request>): iset<State> {
    iset v: State |
      && v.trees == origin.trees && origin.landFailures <= v.landFailures
      && (Undisturbed(repo, origin, staged, v) ==> exists done :: FrontAt(origin, staged, v, subset, done))
  }

  lemma {:induction false} OnFrontStart(repo: Repo, origin: State, v: State, staged: seq<Request>)
    requires v.main == origin.main && v.trees == origin.trees && v.landFailures == origin.landFailures
    ensures v in OnFront(repo, origin, staged, staged)
  {
    assert [] + staged == staged;
    assert FrontAt(origin, staged, v, staged, []);
  }

  lemma {:induction false} OnFrontLater(repo: Repo, origin: State, staged: seq<Request>, u: State, v: State,
                                        subset: seq<Request>)
    requires u in OnFront(repo, origin, staged, subset) && Quiet(u, v)
    ensures v in OnFront(repo, origin, staged, subset)
  {
    if Undisturbed(repo, origin, staged, v) {
      var done :| FrontAt(origin, staged, u, subset, done);
      assert FrontAt(origin, staged, v, subset, done);
    }
  }

  /** The list replays on main, and main with it on top is a front of the original staging. */
  lemma {:induction false} FrontReplays(repo: Repo, origin: State, staged: seq<Request>, v: State, subset: seq<Request>)
    requires v in OnFront(repo, origin, staged, subset) && Undisturbed(repo, origin, staged, v)
    ensures Replays(repo, v.trees, v.main, subset)
    ensures Prefix(Tip(v.trees, v.main, subset), Tip(origin.trees, origin.main, staged))
  {
    var done :| FrontAt(origin, staged, v, subset, done);
    var front := done + subset;
    PrefixIsPrefix(front, staged);
    var behind := staged[|front|..];
    assert staged == front + behind;
    ReplaysConcat(repo, origin.trees, origin.main, front, behind);
    ReplaysConcat(repo, origin.trees, origin.main, done, subset);
    TipConcat(origin.trees, origin.main, done, subset);
    TipConcat(origin.trees, origin.main, front, behind);
    TipExtends(origin.trees, Tip(origin.trees, origin.main, front), behind);
  }

  lemma {:induction false} LeftOnFront(repo: Repo, origin: State, staged: seq<Request>, u: State, v: State,
                                       left: seq<Request>, right: seq<Request>)
    requires u in OnFront(repo, origin, staged, left + right)
    requires v.main == u.main && v.trees == u.trees && v.landFailures == u.landFailures
    ensures v in OnFront(repo, origin, staged, left)
  {
    if Undisturbed(repo, origin, staged, v) {
      var done :| FrontAt(origin, staged, u, left + right, done);
      PrefixOfConcat(done + left, right);
      assert done + (left + right) == (done + left) + right;
      PrefixTrans(done + left, done + (left + right), staged);
      assert FrontAt(origin, staged, v, left, done);
    }
  }

  /** Once the left half has landed, the right half comes next. */
  lemma {:induction false} RightOnFront(repo: Repo, origin: State, staged: seq<Request>, start: State, u: State,
                                        v: State, left: seq<Request>, right: seq<Request>, worked: bool,
                                        result: MergeResult)
    requires start in OnFront(repo, origin, staged, left + right)
    requires Quiet(start, u) && v in Landed(u, left, worked, result)
    ensures v in OnFront(repo, origin, staged, right)
  {
    if Undisturbed(repo, origin, staged, v) {
      var done :| FrontAt(origin, staged, start, left + right, done);
      FrontBehind(origin, staged, start, v, left, right, done);
    }
  }

  lemma {:induction false} FrontBehind(origin: State, staged: seq<Request>, start: State, v: State,
                                       left: seq<Request>, right: seq<Request>, done: seq<Request>)
    requires FrontAt(origin, staged, start, left + right, done) && v.main == Tip(origin.trees, start.main, left)
    ensures FrontAt(origin, staged, v, right, done + left)
  {
    TipConcat(origin.trees, origin.main, done, left);
    assert done + (left + right) == (done + left) + right;
  }

  /** After a left half that did not build, all of it is still there, and comes next. */
  lemma {:induction false} KeptOnFront(repo: Repo, origin: State, staged: seq<Request>, start: State, u: State,
                                       v: State, left: seq<Request>, kept: seq<Request>, right: seq<Request>)
    requires start in OnFront(repo, origin, staged, left + right)
    requires u in NotBuilt(repo, start, left, kept) && v in Requeued(u, right)
    ensures v in OnFront(repo, origin, staged, kept)
  {
    LeftOnFront(repo, origin, staged, start, v, left, right);
    if Undisturbed(repo, origin, staged, v) {
      FrontReplays(repo, origin, staged, v, left);
    }
  }

  /** What a rebuild of an undisturbed bisect does: it removes nothing, and its tree is a front of the staging. */
  ghost predicate RebuildsFront(repo: Repo, origin: State, staged: seq<Request>, v: State, subset: seq<Request>,
                                kept: seq<Request>, tip: History)
  {
    Undisturbed(repo, origin, staged, v) ==>
      kept == subset && Prefix(tip, Tip(origin.trees, origin.main, staged))
  }

  // ----- A bisect as a whole -----

  /** What a bisect of `rs` from `v` may come to. */
  ghost function Searched(repo: Repo, v: State, rs: seq<Request>, d: Verdict, c: Course): iset<State> {
    iset w: State |
      && w in Settled(v, rs) && c in Courses(repo, v, w, rs)
      && (rs != [] ==> FoundCulprit(repo, v, w, rs, d, c.raised))
  }

  /** The same of a list in two halves. */
  ghost function SearchedHalves(repo: Repo, v: State, left: seq<Request>, right: seq<Request>, d: Verdict, c: Course)
    : iset<State>
  {
    iset w: State |
      && w in Settled(v, left + right) && c in CoursesInHalves(repo, v, w, left, right)
      && FoundCulprit(repo, v, w, left + right, d, c.raised)
  }

  /** A landing that worked took main to the staged list, one that failed left it alone; all are resolved. */
  ghost function Landed(v: State, staged: seq<Request>, worked: bool, result: MergeResult): iset<State> {
    iset w: State |
      && Steps(v, w, Elements(staged)) && w.inHand == v.inHand - Elements(staged) && w.builds == v.builds
      && w.landFailures == v.landFailures + (if worked then 0 else 1)
      && w.main == (if worked then Tip(v.trees, v.main, staged) else v.main)
      && Extends(v.landed, w.landed, if worked then staged else [])
      && ResolvesAll(v.outcome, w.outcome, Elements(staged), result) && LandingAnswers(result, worked, v.main, w.main)
  }

  /** Arrivals before a landing do not matter to it. */
  lemma {:induction false} QuietThenLanded(u: State, v: State, w: State, staged: seq<Request>, worked: bool,
                                           result: MergeResult)
    requires Quiet(u, v) && w in Landed(v, staged, worked, result) && w.builds == u.builds
    ensures w in Landed(u, staged, worked, result)
  {
    QuietThenSteps(u, v, w, Elements(staged));
  }

  /** What a landing adds to the list of merged ids. */
  lemma {:induction false} LandedNames(u: State, w: State, staged: seq<Request>, worked: bool, result: MergeResult,
                                       ids: seq<string>, from: nat)
    requires w in Landed(u, staged, worked, result) && ids in Naming(u.landed, from)
    ensures (if worked then ids + AgentIds(staged) else ids) in Naming(w.landed, from)
  {
    ExtendsIsConcat(u.landed, w.landed, if worked then staged else []);
    if worked {
      NamesGrow(ids, u.landed, from, staged);
    } else {
      assert u.landed + [] == u.landed;
    }
  }

  /** The list was put back on the queue, in order. */
  ghost function Requeued(v: State, rs: seq<Request>): iset<State> {
    iset w: State |
      && Steps(v, w, Elements(rs)) && Extends(v.queue, w.queue, rs)
      && w == v.(queue := w.queue, inHand := v.inHand - Elements(rs))
  }

  /** At most as many builds as a bisect of `n` requests may take. */
  ghost function Affordable(builds: nat, n: nat): iset<State> {
    iset w: State | w.builds <= builds + CeilLog2(n)
  }

  /** One build and the bisect of a half, or of what is kept of it, cost no more than that of the whole. */
  lemma {:induction false} HalfIsAffordable(builds: nat, later: nat, w: State, left: seq<Request>, right: seq<Request>,
                                            half: seq<Request>)
    requires Halves(left, right) && later <= builds + 1 && |half| <= |right|
    ensures w in Affordable(later, |half|) ==> w in Affordable(builds, |left| + |right|)
  {
    CeilLog2Monotone(|half|, |right|);
    HalfIsCheaper(|left|, |right|);
  }

  lemma {:induction false} LeftInHand(repo: Repo, start: State, u: State, left: seq<Request>, right: seq<Request>)
    requires start in Holding(left + right) && u in Built(repo, start, left)
    ensures u in Holding(left)
  {
    NoDupConcat(left, right);
    ElementsConcat(left, right);
  }

  /** After the landing of the left half the right half is still in hand. */
  lemma {:induction false} RightInHand(repo: Repo, start: State, u: State, v: State, left: seq<Request>,
                                       right: seq<Request>, worked: bool, result: MergeResult)
    requires start in Holding(left + right) && u in Built(repo, start, left) && v in Landed(u, left, worked, result)
    ensures v in Holding(right) && v.builds == u.builds
  {
    NoDupConcat(left, right);
    ElementsConcat(left, right);
  }

  /** After the left half was rebuilt, what is left of it and the right half are still in hand. */
  lemma {:induction false} HalvesInHand(repo: Repo, start: State, u: State, left: seq<Request>, kept: seq<Request>,
                                        right: seq<Request>)
    requires start in Holding(left + right) && u in NotBuilt(repo, start, left, kept)
    requires Halves(left, right)
    ensures u in Holding(right) && |kept| <= |left|
  {
    NoDupConcat(left, right);
    ElementsConcat(left, right);
  }

  lemma {:induction false} KeptInHand(repo: Repo, start: State, u: State, v: State, left: seq<Request>,
                                      kept: seq<Request>, right: seq<Request>)
    requires start in Holding(left + right) && u in NotBuilt(repo, start, left, kept) && v in Requeued(u, right)
    ensures v in Holding(kept) && v.builds == u.builds && v.main == u.main && v.landed == u.landed
  {
    NoDupConcat(left, right);
    ElementsConcat(left, right);
  }

  lemma {:induction false} SearchedSingle(repo: Repo, v: State, w: State, r: Request, reason: Reason)
    requires w == v.(outcome := w.outcome, inHand := v.inHand - {r}) && Steps(v, w, {r})
    requires r in w.outcome && w.outcome[r] == Rejected(reason) && IsForBuild(Rejected(reason))
    ensures w in Searched(repo, v, [r], Verdict([], r, []), Course(false, NoLanding))
  {
    SingleIsCulprit(repo, v, w, r, reason);
    ShortCourse(repo, v, w, [r]);
  }

  lemma {:induction false} SearchedNothing(repo: Repo, v: State, d: Verdict)
    ensures v in Searched(repo, v, [], d, Course(true, NoLanding))
  {
    ShortCourse(repo, v, v, []);
    assert Elements<Request>([]) == {};
    assert v.inHand - {} == v.inHand;
  }

  /** With two requests, the bisect raises just if the first does not pick onto main. */
  lemma {:induction false} TwoSearched(repo: Repo, v: State, w: State, rs: seq<Request>, d: Verdict, c: Course)
    requires |rs| == 2 && w in Searched(repo, v, rs, d, c)
    ensures c.raised <==> !repo.PicksAll(v.main, Patch(v.trees, rs[0]))
  {
    assert rs == [rs[0], rs[1]];
    TwoRaise(repo, v.trees, v.main, rs[0], rs[1], c.landings);
  }

  /** Arrivals before a bisect do not matter to it. */
  lemma {:induction false} QuietThenSearched(repo: Repo, u: State, v: State, w: State, rs: seq<Request>, d: Verdict,
                                             c: Course)
    requires Quiet(u, v) && Conserved(v) && v in Holding(rs) && w in Searched(repo, v, rs, d, c)
    ensures w in Searched(repo, u, rs, d, c)
  {
    QuietThenBisected(repo, u, v, w, rs, d);
    CourseEarlier(repo, u, v, w, rs, c);
  }

  lemma {:induction false} SearchedInHalves(repo: Repo, v: State, w: State, rs: seq<Request>, left: seq<Request>,
                                            right: seq<Request>, d: Verdict, c: Course)
    requires Halves(left, right) && left + right == rs && w in SearchedHalves(repo, v, left, right, d, c)
    ensures w in Searched(repo, v, rs, d, c)
  {
    var mid := |rs| / 2;
    assert |rs| == |left| + |right| && mid == |left|;
    assert rs[..mid] == left && rs[mid..] == right;
    CourseInHalves(repo, v, w, rs, mid, c);
  }

  /** From `start`: the left half is built giving `u`, lands giving `v`, and the right half is bisected giving `w`. */
  lemma {:induction false} SearchedRight(repo: Repo, start: State, u: State, v: State, w: State,
                                         left: seq<Request>, right: seq<Request>, worked: bool, result: MergeResult,
                                         d: Verdict, c: Course)
    requires Halves(left, right) && u in Built(repo, start, left) && v in Landed(u, left, worked, result)
    requires Conserved(v) && Conserved(w) && v in Holding(right) && w in Searched(repo, v, right, d, c)
    ensures w in SearchedHalves(repo, start, left, right, Verdict(left + d.good, d.culprit, d.rest),
                                Course(c.raised, Landing(worked, c.landings)))
  {
    RightHalf(repo, start, u, v, w, left, right, d, c.raised);
    CourseOnRight(repo, start, u, v, w, left, right, worked, c);
  }

  /** From `start`: the left half fails giving `u`, the right half is deferred giving `v`, the left one bisected. */
  lemma {:induction false} SearchedLeft(repo: Repo, start: State, u: State, v: State, w: State, left: seq<Request>,
                                        kept: seq<Request>, right: seq<Request>, d: Verdict, c: Course)
    requires Halves(left, right) && start in Holding(left + right) && u in NotBuilt(repo, start, left, kept)
    requires Conserved(u) && Conserved(w) && v in Requeued(u, right) && w in Searched(repo, v, kept, d, c)
    ensures w in SearchedHalves(repo, start, left, right, Verdict(d.good, d.culprit, d.rest + right), c)
  {
    LeftHalf(repo, start, u, v, w, left, kept, right, d, c.raised);
    LeftHalfCourse(repo, start, u, v, w, left, kept, right, c);
  }

  /** The courses of a staged list: built and landed, or bisected if it does not build. */
  ghost function BatchCourses(repo: Repo, v: State, w: State, staged: seq<Request>): iset<Course> {
    iset c: Course |
      && w in Tallied(v, c.landings)
      && c.raised == (!repo.builds(Tip(v.trees, v.main, staged)) && Raises(repo, v.trees, v.main, staged, c.landings))
      && (c.raised ==> SomeWait(w, staged))
  }

  /** With `staged` on main or, if that does not build, with `staged` bisected, when no landing failed. */
  ghost predicate BatchDone(repo: Repo, v: State, w: State, staged: seq<Request>, d: Verdict, raised: bool) {
    w.landFailures == v.landFailures ==>
      !raised
      && (if repo.builds(Tip(v.trees, v.main, staged))
          then w.main == Tip(v.trees, v.main, staged) && Extends(v.landed, w.landed, staged)
          else d in Verdicts(repo, v, w, staged))
  }

  /** Only the requests of `offered` that are not in `kept` were worked on, and main stayed. */
  ghost predicate Sifted(v: State, w: State, offered: seq<Request>, kept: seq<Request>) {
    && Steps(v, w, Elements(offered) - Elements(kept))
    && w.inHand == v.inHand - (Elements(offered) - Elements(kept))
    && Elements(kept) <= Elements(offered)
    && w.main == v.main && w.landed == v.landed && w.landFailures == v.landFailures && w.builds == v.builds
  }

  /** The next offered request is kept; only arrivals happened. */
  lemma SiftedKeep(u: State, v: State, w: State, offered: seq<Request>, i: nat, kept: seq<Request>)
    requires i < |offered| && NoDup(offered)
    requires Sifted(u, v, offered[..i], kept) && Quiet(v, w) && w.builds == v.builds
    ensures Sifted(u, w, offered[..i + 1], kept + [offered[i]])
  {
    SiftedSets(offered, i, kept);
    var done := Elements(offered[..i]) - Elements(kept);
    assert Steps(v, w, {});
    StepsTrans(u, v, w, done, {});
    assert done + {} == done;
  }

  /** The next offered request is not kept. */
  lemma SiftedDrop(u: State, v: State, w: State, offered: seq<Request>, i: nat, kept: seq<Request>)
    requires i < |offered| && NoDup(offered)
    requires Sifted(u, v, offered[..i], kept) && Steps(v, w, {offered[i]}) && w.inHand == v.inHand - {offered[i]}
    requires w.main == v.main && w.landed == v.landed && w.landFailures == v.landFailures && w.builds == v.builds
    ensures Sifted(u, w, offered[..i + 1], kept)
  {
    SiftedSets(offered, i, kept);
    var done := Elements(offered[..i]) - Elements(kept);
    StepsTwice(u, v, w, done, {offered[i]}, done + {offered[i]});
  }

  lemma SiftedSets(offered: seq<Request>, i: nat, kept: seq<Request>)
    requires i < |offered| && NoDup(offered) && Elements(kept) <= Elements(offered[..i])
    ensures Elements(offered[..i + 1]) - Elements(kept) == Elements(offered[..i]) - Elements(kept) + {offered[i]}
    ensures Elements(offered[..i + 1]) - Elements(kept + [offered[i]]) == Elements(offered[..i]) - Elements(kept)
    ensures Elements(kept + [offered[i]]) <= Elements(offered[..i + 1])
    ensures Elements(kept) <= Elements(offered[..i + 1])
  {
    UpTo(offered, i);
    ElementsPush(kept, offered[i]);
  }

  /** The request offered next is still in hand. */
  lemma SiftedNext(u: State, v: State, offered: seq<Request>, i: nat, kept: seq<Request>)
    requires i < |offered| && NoDup(offered) && Elements(offered) <= u.inHand
    requires Sifted(u, v, offered[..i], kept)
    ensures offered[i] in v.inHand
  {
    UpTo(offered, i);
  }

  /** The first `i` requests were staged or put back on the queue; `staged` are the former, giving `tip`. */
  ghost predicate StagedTo(repo: Repo, start: State, v: State, tip: History, rebased: seq<Request>, i: nat,
                           staged: seq<Request>)
    requires i <= |rebased|
  {
    && Sifted(start, v, rebased[..i], staged)
    && staged == Stageable(repo, start.trees, start.main, rebased[..i])
    && tip == Tip(start.trees, start.main, staged)
  }

  lemma StagedNext(repo: Repo, start: State, u: State, tip: History, rebased: seq<Request>, i: nat,
                   staged: seq<Request>)
    requires i < |rebased| && NoDup(rebased) && Elements(rebased) <= start.inHand
    requires StagedTo(repo, start, u, tip, rebased, i, staged)
    ensures rebased[i] in u.inHand && u.trees == start.trees
  {
    SiftedNext(start, u, rebased, i, staged);
  }

  lemma StagedKeep(repo: Repo, start: State, u: State, v: State, tip: History, rebased: seq<Request>, i: nat,
                   staged: seq<Request>)
    requires i < |rebased| && NoDup(rebased) && StagedTo(repo, start, u, tip, rebased, i, staged)
    requires Quiet(u, v) && v.builds == u.builds && repo.PicksAll(tip, Patch(start.trees, rebased[i]))
    ensures StagedTo(repo, start, v, tip + Patch(start.trees, rebased[i]), rebased, i + 1, staged + [rebased[i]])
  {
    OneLonger(rebased, i);
    StageablePush(repo, start.trees, start.main, rebased[..i], rebased[i]);
    TipPush(start.trees, start.main, staged, rebased[i]);
    SiftedKeep(start, u, v, rebased, i, staged);
  }

  lemma StagedDrop(repo: Repo, start: State, u: State, v: State, tip: History, rebased: seq<Request>, i: nat,
                   staged: seq<Request>)
    requires i < |rebased| && NoDup(rebased) && StagedTo(repo, start, u, tip, rebased, i, staged)
    requires Steps(u, v, {rebased[i]}) && v.inHand == u.inHand - {rebased[i]}
    requires v.main == u.main && v.landed == u.landed && v.landFailures == u.landFailures && v.builds == u.builds
    requires !repo.PicksAll(tip, Patch(start.trees, rebased[i]))
    ensures StagedTo(repo, start, v, tip, rebased, i + 1, staged)
  {
    OneLonger(rebased, i);
    StageablePush(repo, start.trees, start.main, rebased[..i], rebased[i]);
    SiftedDrop(start, u, v, rebased, i, staged);
  }

  lemma StagedEnd(repo: Repo, start: State, v: State, tip: History, rebased: seq<Request>, staged: seq<Request>)
    requires NoDup(rebased) && Elements(rebased) <= start.inHand
    requires StagedTo(repo, start, v, tip, rebased, |rebased|, staged)
    requires rebased != [] && repo.PicksAll(start.main, Patch(start.trees, rebased[0]))
    ensures Sifted(start, v, rebased, staged) && Elements(staged) <= v.inHand && NoDup(staged)
    ensures staged == Stageable(repo, start.trees, start.main, rebased) && 0 < |staged| <= |rebased|
    ensures Replays(repo, v.trees, v.main, staged) && tip == Tip(v.trees, v.main, staged)
  {
    assert rebased[..|rebased|] == rebased;
    StageableReplays(repo, start.trees, start.main, rebased);
  }

  /** Rewriting worktrees before and after alike changes nothing about what was worked on. */
  lemma SiftedRetreed(u: State, v: State, offered: seq<Request>, kept: seq<Request>, trees: Worktrees)
    requires Sifted(u, v, offered, kept)
    ensures Sifted(u.(trees := trees), v.(trees := trees), offered, kept)
  {
  }

  /** The worktrees after the requests in `rebased`, and no others, were rebased onto main. */
  ghost predicate RebasedOnto(repo: Repo, before: Worktrees, after: Worktrees, main: History, rebased: set<Request>) {
    forall r :: Patch(after, r) ==
      (if r in rebased && repo.rebaseOnto(main, Patch(before, r)).Some?
       then repo.rebaseOnto(main, Patch(before, r)).value else Patch(before, r))
  }

  lemma RebasedOntoOneMore(repo: Repo, before: Worktrees, after: Worktrees, main: History,
                           rebased: set<Request>, r: Request)
    requires RebasedOnto(repo, before, after, main, rebased) && r !in rebased
    requires repo.rebaseOnto(main, Patch(before, r)).Some?
    ensures RebasedOnto(repo, before, after[r := repo.rebaseOnto(main, Patch(before, r)).value], main, rebased + {r})
  {
  }

  /** The futures of these requests were resolved as REJECTED for this reason. */
  ghost predicate RejectedFor(outcome: Outcome, rs: set<Request>, reason: Reason) {
    forall r :: r in rs ==> r in outcome && outcome[r] == Rejected(reason)
  }

  /** The first `i` requests of the batch were rejected. */
  ghost predicate RejectedTo(v: State, w: State, batch: seq<Request>, i: nat, reason: Reason)
    requires i <= |batch|
  {
    && Steps(v, w, Elements(batch[..i])) && w.inHand == v.inHand - Elements(batch[..i])
    && RejectedFor(w.outcome, Elements(batch[..i]), reason)
  }

  lemma RejectedNext(u: State, v: State, w: State, batch: seq<Request>, i: nat, reason: Reason)
    requires i < |batch| && RejectedTo(u, v, batch, i, reason)
    requires Steps(v, w, {batch[i]}) && w.inHand == v.inHand - {batch[i]}
    requires batch[i] in w.outcome && w.outcome[batch[i]] == Rejected(reason)
    ensures RejectedTo(u, w, batch, i + 1, reason)
  {
    UpTo(batch, i);
    StepsTwice(u, v, w, Elements(batch[..i]), {batch[i]}, Elements(batch[..i + 1]));
  }

  lemma RejectedEnd(v: State, w: State, batch: seq<Request>, reason: Reason)
    requires RejectedTo(v, w, batch, |batch|, reason) && batch != []
    ensures w in Settled(v, batch) && RejectedFor(w.outcome, Elements(batch), reason)
  {
    assert batch[..|batch|] == batch;
    assert batch[|batch| - 1] in Elements(batch) * w.outcome.Keys;
  }

  lemma RejectedSubject(v: State, w: State, batch: seq<Request>, i: nat, reason: Reason)
    requires i < |batch| && NoDup(batch) && Elements(batch) <= v.inHand && RejectedTo(v, w, batch, i, reason)
    ensures batch[i] in w.inHand
  {
    UpTo(batch, i);
  }

  /** The first `i` requests of the batch were rebased onto main or rejected; `rebased` are the former. */
  ghost predicate RebasedTo(repo: Repo, start: State, v: State, batch: seq<Request>, i: nat, rebased: seq<Request>)
    requires i <= |batch|
  {
    && Sifted(start.(trees := v.trees), v, batch[..i], rebased)
    && rebased == Rebasable(repo, start.trees, start.main, batch[..i])
    && RebasedOnto(repo, start.trees, v.trees, start.main, Elements(rebased))
    && RejectedFor(v.outcome, Elements(batch[..i]) - Elements(rebased), RebaseFailed)
  }

  lemma RebasedKeep(repo: Repo, start: State, u: State, v: State, w: State, batch: seq<Request>, i: nat,
                    rebased: seq<Request>, commits: seq<Commit>)
    requires i < |batch| && NoDup(batch) && RebasedTo(repo, start, u, batch, i, rebased)
    requires Quiet(u, v) && v.builds == u.builds && w == v.(trees := v.trees[batch[i] := commits])
    requires repo.rebaseOnto(start.main, Patch(start.trees, batch[i])) == Some(commits)
    ensures RebasedTo(repo, start, w, batch, i + 1, rebased + [batch[i]])
  {
    UpTo(batch, i);
    RebasablePush(repo, start.trees, start.main, batch[..i], batch[i]);
    SiftedKeep(start.(trees := v.trees), u, v, batch, i, rebased);
    SiftedRetreed(start.(trees := v.trees), v, batch[..i + 1], rebased + [batch[i]], w.trees);
    RebasedOntoOneMore(repo, start.trees, v.trees, start.main, Elements(rebased), batch[i]);
    ElementsPush(rebased, batch[i]);
    SiftedSets(batch, i, rebased);
  }

  lemma RebasedDrop(repo: Repo, start: State, u: State, w: State, batch: seq<Request>, i: nat, rebased: seq<Request>)
    requires i < |batch| && NoDup(batch) && RebasedTo(repo, start, u, batch, i, rebased)
    requires Steps(u, w, {batch[i]}) && w.inHand == u.inHand - {batch[i]}
    requires w.main == u.main && w.landed == u.landed && w.landFailures == u.landFailures && w.builds == u.builds
    requires RejectedFor(w.outcome, {batch[i]}, RebaseFailed)
    requires repo.rebaseOnto(start.main, Patch(start.trees, batch[i])) == None
    ensures RebasedTo(repo, start, w, batch, i + 1, rebased)
  {
    OneLonger(batch, i);
    RebasablePush(repo, start.trees, start.main, batch[..i], batch[i]);
    SiftedDrop(start.(trees := u.trees), u, w, batch, i, rebased);
    SiftedSets(batch, i, rebased);
  }

  /** The request rebased next still has the commits it came with and is in hand. */
  lemma RebasedNext(repo: Repo, start: State, u: State, batch: seq<Request>, i: nat, rebased: seq<Request>)
    requires i < |batch| && NoDup(batch) && Elements(batch) <= start.inHand
    requires RebasedTo(repo, start, u, batch, i, rebased)
    ensures batch[i] in u.inHand && Patch(u.trees, batch[i]) == Patch(start.trees, batch[i]) && u.main == start.main
  {
    UpTo(batch, i);
    SiftedNext(start.(trees := u.trees), u, batch, i, rebased);
  }

  /** From `u` the offered requests are sifted giving `v`, and those kept are settled giving `w`. */
  lemma SiftedThenSettled(u: State, v: State, w: State, offered: seq<Request>, kept: seq<Request>)
    requires Sifted(u, v, offered, kept) && w in Settled(v, kept) && kept != []
    ensures w in Settled(u, offered)
  {
    var done := Elements(offered) - Elements(kept);
    SettledRest(u, v, w, offered, done, kept);
  }

  /** Arrivals before the work do not matter to whether it is settled. */
  lemma QuietThenSettled(u: State, v: State, w: State, subset: seq<Request>)
    requires Quiet(u, v) && w in Settled(v, subset)
    ensures w in Settled(u, subset)
  {
    QuietThenSteps(u, v, w, Elements(subset));
  }

  /** A landed list is settled. */
  lemma LandedIsSettled(v: State, w: State, staged: seq<Request>)
    requires staged != [] && Steps(v, w, Elements(staged)) && w.inHand == v.inHand - Elements(staged)
    requires Elements(staged) <= w.outcome.Keys
    ensures w in Settled(v, staged)
  {
    assert staged[|staged| - 1] in Elements(staged) * w.outcome.Keys;
  }

  /** Arrivals before the build do not matter. */
  lemma QuietThenDone(repo: Repo, u: State, v: State, w: State, staged: seq<Request>, d: Verdict, raised: bool)
    requires Quiet(u, v) && Conserved(v) && Elements(staged) <= v.inHand && w in Settled(v, staged)
    requires Replays(repo, u.trees, u.main, staged)
    requires if repo.builds(Tip(v.trees, v.main, staged))
             then !raised && (w.landFailures == v.landFailures ==>
                    Extends(v.landed, w.landed, staged) && w.main == Tip(v.trees, v.main, staged))
             else FoundCulprit(repo, v, w, staged, d, raised)
    ensures w in Settled(u, staged) && BatchDone(repo, u, w, staged, d, raised)
  {
    QuietThenSettled(u, v, w, staged);
    GrowsIsPrefix(u.queue, v.queue, u.submitted, {});
    BatchDoneEarlier(repo, u, v, w, staged, d, raised);
  }

  /** Between `u` and `v` nothing of `staged` was queued and main stayed: what is done from `v` is done from `u`. */
  lemma BatchDoneEarlier(repo: Repo, u: State, v: State, w: State, staged: seq<Request>, d: Verdict, raised: bool)
    requires Conserved(v) && Elements(staged) <= v.inHand && Prefix(u.queue, v.queue)
    requires v.main == u.main && v.landed == u.landed && v.trees == u.trees && v.landFailures == u.landFailures
    requires BatchDone(repo, v, w, staged, d, raised)
    ensures BatchDone(repo, u, w, staged, d, raised)
  {
    BeforeBisected(repo, u, v, w, staged, d);
  }

  /** Sifting keeps what `BatchDoneEarlier` needs. */
  lemma SiftedIsEarlier(u: State, v: State, offered: seq<Request>, kept: seq<Request>)
    requires Sifted(u, v, offered, kept) && Elements(offered) <= u.inHand
    ensures Elements(kept) <= v.inHand && Prefix(u.queue, v.queue)
  {
    GrowsIsPrefix(u.queue, v.queue, u.submitted, Elements(offered) - Elements(kept));
  }

  /** The requests that were put back are not resolved once the rest is settled. */
  lemma PutBackStaysOpen(u: State, v: State, w: State, offered: seq<Request>, kept: seq<Request>)
    requires Elements(offered) !! u.outcome.Keys && v.outcome == u.outcome && w in Settled(v, kept)
    ensures Elements(offered) - Elements(kept) !! w.outcome.Keys
  {
  }

  /** Arrivals to `v`, staging to `x`, then the build and what follows to `w`. */
  lemma {:induction false} StagedThenDone(repo: Repo, u: State, v: State, x: State, w: State,
                                          rebased: seq<Request>, staged: seq<Request>, d: Verdict, c: Course)
    requires Quiet(u, v) && Sifted(v, x, rebased, staged) && x.outcome == v.outcome
    requires staged == Stageable(repo, v.trees, v.main, rebased) && staged != []
    requires Conserved(u) && Conserved(x) && u in Holding(rebased)
    requires w in Settled(x, staged) && BatchDone(repo, x, w, staged, d, c.raised) && c in BatchCourses(repo, x, w,
        staged)
    ensures w in StagedAndBuilt(repo, u, rebased, staged, d, c)
  {
    SiftedThenSettled(v, x, w, rebased, staged);
    QuietThenSettled(u, v, w, rebased);
    SiftedIsEarlier(v, x, rebased, staged);
    GrowsIsPrefix(u.queue, v.queue, u.submitted, {});
    PrefixTrans(u.queue, v.queue, x.queue);
    BatchDoneEarlier(repo, u, x, w, staged, d, c.raised);
    CourseEarlier(repo, u, x, w, staged, c);
    PutBackStaysOpen(v, x, w, rebased, staged);
  }

  /** A build that passed and a landing, or a build that failed and a bisect. */
  lemma {:induction false} BuiltCourse(repo: Repo, v: State, w: State, staged: seq<Request>, c: Course)
    requires staged != []
    requires if repo.builds(Tip(v.trees, v.main, staged))
             then !c.raised && w in Tallied(v, c.landings)
             else c in Courses(repo, v, w, staged)
    ensures c in BatchCourses(repo, v, w, staged)
  {
  }

  lemma {:induction false} LandedIsTallied(v: State, w: State, staged: seq<Request>, worked: bool, result: MergeResult)
    requires staged != [] && w in Landed(v, staged, worked, result)
    ensures w in Tallied(v, Landing(worked, NoLanding))
  {
    ExtendsSize(v.landed, w.landed, if worked then staged else []);
    assert Failures(NoLanding) == 0 && Worked(NoLanding) == 0;
  }

  /** Arrivals to `v`, a build that passed, and a landing. */
  lemma {:induction false} BuiltThenLanded(repo: Repo, u: State, v: State, w: State, staged: seq<Request>, worked: bool,
                                           result: MergeResult, d: Verdict)
    requires Quiet(u, v) && Conserved(v) && v in Holding(staged) && staged != []
    requires Replays(repo, u.trees, u.main, staged) && repo.builds(Tip(v.trees, v.main, staged))
    requires w in Landed(v, staged, worked, result)
    ensures w in Settled(u, staged) && BatchDone(repo, u, w, staged, d, false)
    ensures Course(false, Landing(worked, NoLanding)) in BatchCourses(repo, u, w, staged)
  {
    LandedIsSettled(v, w, staged);
    LandedIsTallied(v, w, staged, worked, result);
    QuietThenDone(repo, u, v, w, staged, d, false);
    BuiltCourse(repo, v, w, staged, Course(false, Landing(worked, NoLanding)));
    CourseEarlier(repo, u, v, w, staged, Course(false, Landing(worked, NoLanding)));
  }

  /** Arrivals to `v`, a build that failed, and a bisect. */
  lemma {:induction false} FailedThenSearched(repo: Repo, u: State, v: State, w: State, staged: seq<Request>,
                                              d: Verdict,
                                              c: Course)
    requires Quiet(u, v) && Conserved(v) && v in Holding(staged) && staged != []
    requires Replays(repo, u.trees, u.main, staged) && !repo.builds(Tip(v.trees, v.main, staged))
    requires w in Searched(repo, v, staged, d, c)
    ensures w in Settled(u, staged) && BatchDone(repo, u, w, staged, d, c.raised)
    ensures c in BatchCourses(repo, u, w, staged)
  {
    QuietThenDone(repo, u, v, w, staged, d, c.raised);
    BuiltCourse(repo, v, w, staged, c);
    CourseEarlier(repo, u, v, w, staged, c);
  }

  /** What staging, building, landing and bisecting a rebased list comes to. */
  ghost function StagedAndBuilt(repo: Repo, v: State, rebased: seq<Request>, staged: seq<Request>, d: Verdict,
                                c: Course)
    : iset<State>
  {
    iset w: State |
      && w in Settled(v, rebased) && staged == Stageable(repo, v.trees, v.main, rebased)
      && BatchDone(repo, v, w, staged, d, c.raised) && c in BatchCourses(repo, v, w, staged)
      && Elements(rebased) - Elements(staged) !! w.outcome.Keys
  }

  /** What a batch turned into: who rebased, who staged, how a failed build was bisected, and which landings worked. */
  datatype Plan =
    | NoMain
    | Plan(rebased: seq<Request>, staged: seq<Request>, verdict: Verdict, landings: Landings)

  /**
   The fate of every request of a batch. Without a main all are rejected. Otherwise those that do not
   rebase are rejected, those that do not stage on top of the others stay unresolved (and so, the batch
   being settled, wait in the queue), and what staged lands or is bisected.
   */
  ghost predicate BatchFate(repo: Repo, v: State, w: State, batch: seq<Request>, plan: Plan, raised: bool) {
    match plan
    case NoMain => RejectedFor(w.outcome, Elements(batch), MainUnresolved) && w.main == v.main && !raised
    case Plan(rebased, staged, verdict, landings) =>
      && rebased == Rebasable(repo, v.trees, v.main, batch)
      && RebasedOnto(repo, v.trees, w.trees, v.main, Elements(rebased))
      && RejectedFor(w.outcome, Elements(batch) - Elements(rebased), RebaseFailed)
      && staged == Stageable(repo, w.trees, v.main, rebased)
      && Elements(rebased) - Elements(staged) !! w.outcome.Keys
      && (rebased == [] ==> !raised && w.main == v.main)
      && (rebased != [] ==> BatchDone(repo, v.(trees := w.trees), w, staged, verdict, raised))
      && (rebased != [] ==> Course(raised, landings) in BatchCourses(repo, v.(trees := w.trees), w, staged))
  }

  /** What a batch must come to: settled, each request with its fate, and if it raised, some of it queued. */
  ghost function Processed(repo: Repo, v: State, batch: seq<Request>, plan: Plan, raised: bool): iset<State> {
    iset w: State |
      && w in Settled(v.(trees := w.trees, callbacks := w.callbacks, headFailures := w.headFailures), batch)
      && w.headFailures == v.headFailures + (if plan.NoMain? then 1 else 0)
      && BatchFate(repo, v, w, batch, plan, raised)
      && (w.landFailures == v.landFailures ==> !raised)
      && (raised ==> SomeWait(w, batch))
  }

  lemma NoMainIsProcessed(repo: Repo, v: State, w: State, batch: seq<Request>)
    requires w in Settled(v.(headFailures := v.headFailures + 1), batch)
    requires RejectedFor(w.outcome, Elements(batch), MainUnresolved) && w.main == v.main
    ensures w in Processed(repo, v, batch, NoMain, false)
  {
    assert v.(trees := w.trees, callbacks := w.callbacks, headFailures := w.headFailures) ==
           v.(headFailures := v.headFailures + 1);
  }

  /** The callback at the end of a batch changes nothing of what was processed. */
  lemma {:induction false} ProcessedNotified(repo: Repo, v: State, w: State, batch: seq<Request>, plan: Plan,
                                             raised: bool, cbs: seq<Callback>)
    requires w in Processed(repo, v, batch, plan, raised)
    ensures w.(callbacks := cbs) in Processed(repo, v, batch, plan, raised)
  {
    SettledNotified(v, w, batch, cbs);
    FateNotified(repo, v, w, batch, plan, raised, cbs);
  }

  lemma {:induction false} SettledNotified(v: State, w: State, batch: seq<Request>, cbs: seq<Callback>)
    requires w in Settled(v.(trees := w.trees, callbacks := w.callbacks, headFailures := w.headFailures), batch)
    ensures w.(callbacks := cbs) in
              Settled(v.(trees := w.trees, callbacks := cbs, headFailures := w.headFailures), batch)
  {
  }

  lemma {:induction false} FateNotified(repo: Repo, v: State, w: State, batch: seq<Request>, plan: Plan,
                                        raised: bool, cbs: seq<Callback>)
    requires BatchFate(repo, v, w, batch, plan, raised)
    ensures BatchFate(repo, v, w.(callbacks := cbs), batch, plan, raised)
  {
    if plan.Plan? && plan.rebased != [] {
      DoneNotified(repo, v.(trees := w.trees), w, plan.staged, plan.verdict, raised, plan.landings, cbs);
    }
  }

  lemma {:induction false} DoneNotified(repo: Repo, u: State, w: State, staged: seq<Request>, d: Verdict, raised: bool,
                                        ls: Landings, cbs: seq<Callback>)
    requires BatchDone(repo, u, w, staged, d, raised) && Course(raised, ls) in BatchCourses(repo, u, w, staged)
    ensures BatchDone(repo, u, w.(callbacks := cbs), staged, d, raised)
    ensures Course(raised, ls) in BatchCourses(repo, u, w.(callbacks := cbs), staged)
  {
    var x := w.(callbacks := cbs);
    assert LandsGood(repo, u, w, d) <==> LandsGood(repo, u, x, d);
    assert Defers(u, w, staged, d) <==> Defers(u, x, staged, d);
  }

  /** Futures stay resolved as they are, and a batch that is not empty has one more of its own resolved. */
  ghost predicate OnlyResolves(o: Outcome, o': Outcome, batch: seq<Request>) {
    && Resolves(o, o', Elements(batch))
    && (batch != [] ==> exists r :: r in Elements(batch) && r in o' && r !in o)
  }

  /** The handler keeps what the batch resolved. */
  lemma {:induction false} StillResolves(o: Outcome, o': Outcome, o'': Outcome, batch: seq<Request>)
    requires OnlyResolves(o, o', batch) && o''.Keys == o'.Keys + Elements(batch)
    requires forall r :: r in o' ==> r in o'' && o''[r] == o'[r]
    ensures OnlyResolves(o, o'', batch)
  {
    if batch != [] {
      var r :| r in Elements(batch) && r in o' && r !in o;
      assert r in o'';
    }
  }

  lemma OnlyResolvesSize(o: Outcome, o': Outcome, batch: seq<Request>)
    requires OnlyResolves(o, o', batch)
    ensures o.Keys <= o'.Keys && |o| <= |o'| && (batch != [] ==> |o| < |o'|)
  {
    SubsetSize(o.Keys, o'.Keys);
    assert |o.Keys| == |o| && |o'.Keys| == |o'|;
  }

  /** Plans with five or more requests staged, of whose landings one worked and another failed. */
  ghost function RaisingPlans(): iset<Plan> {
    iset plan: Plan | plan.Plan? && 4 < |plan.staged| && 0 < Worked(plan.landings) && 0 < Failures(plan.landings)
  }

  /** What was staged was just rebased onto main: each request of it, alone, picks onto main. */
  lemma {:induction false} StagedPickAlone(repo: Repo, v: State, w: State, batch: seq<Request>, plan: Plan,
                                           raised: bool)
    requires repo.RebaseIsClean() && BatchFate(repo, v, w, batch, plan, raised) && plan.Plan?
    ensures PickAlone(repo, w.trees, v.main, plan.staged) && Replays(repo, w.trees, v.main, plan.staged)
  {
    StageableReplays(repo, w.trees, v.main, plan.rebased);
    RebasableMembers(repo, v.trees, v.main, batch);
    forall r | r in Elements(plan.staged) ensures repo.PicksAll(v.main, Patch(w.trees, r)) {
      assert r in Elements(plan.rebased);
      assert repo.rebaseOnto(v.main, Patch(v.trees, r)) == Some(Patch(w.trees, r));
    }
  }

  /**
   A batch raises only if it staged at least five requests, a landing of its bisect worked and another failed.
   What worked is on main then.
   */
  lemma {:induction false} RaisedBatch(repo: Repo, v: State, w: State, batch: seq<Request>, plan: Plan)
    requires repo.RebaseIsClean() && w in Processed(repo, v, batch, plan, true)
    ensures plan in RaisingPlans() && 4 < |batch|
    ensures |v.landed| < |w.landed| && v.landFailures < w.landFailures
  {
    StageableReplays(repo, w.trees, v.main, plan.rebased);
    RebasableMembers(repo, v.trees, v.main, batch);
    StagedPickAlone(repo, v, w, batch, plan, true);
    RaisesNeeds(repo, w.trees, v.main, plan.staged, plan.landings);
  }

  /** Five requests may make a batch raise: these do just if one of the first two landings works and one fails. */
  lemma {:induction false} FiveInABatch(v: State, w: State, plan: Plan, raised: bool)
    requires v.main == [] && ToyPatches(v.trees)
    requires w in Processed(Toy(), v, ToyList(5), plan, raised) && plan.Plan?
    ensures plan.staged == ToyList(5) && (raised <==> Mixed(plan.landings))
  {
    var batch := ToyList(5);
    ToyStages(v.trees, 5);
    assert BatchFate(Toy(), v, w, batch, plan, raised);
    ToyRebased(v.trees, w.trees, plan.rebased);
    ToyStages(w.trees, 5);
    ToyFive(w.trees, plan.landings);
    assert Course(raised, plan.landings) in BatchCourses(Toy(), v.(trees := w.trees), w, plan.staged);
  }

  lemma {:induction false} ToyRebased(before: Worktrees, after: Worktrees, rebased: seq<Request>)
    requires ToyPatches(before) && RebasedOnto(Toy(), before, after, [], Elements(rebased))
    ensures ToyPatches(after)
  {
    forall n: nat | n < 5 ensures Patch(after, ToyRequest(n)) == [n] {
      assert Patch(before, ToyRequest(n)) == [n];
    }
  }

  /** What a batch keeps and what it adds. */
  lemma BatchResolves(repo: Repo, v: State, w: State, batch: seq<Request>, plan: Plan, raised: bool)
    requires repo.RebaseIsClean() && w in Processed(repo, v, batch, plan, raised)
    requires Conserved(v) && Elements(batch) <= v.inHand && batch != []
    ensures OnlyResolves(v.outcome, w.outcome, batch)
    ensures v.submitted <= w.submitted && v.landFailures <= w.landFailures
    ensures raised ==> v.landFailures < w.landFailures && |v.landed| < |w.landed| && SomeWait(w, batch) && 4 < |batch|
  {
    var r :| r in Elements(batch) * w.outcome.Keys;
    if raised {
      RaisedBatch(repo, v, w, batch, plan);
    }
  }

  /** What of a batch is staged: what rebases, given the worktrees before, and then picks, given those after. */
  function StagedOf(repo: Repo, before: Worktrees, after: Worktrees, main: History, batch: seq<Request>)
    : seq<Request>
  {
    Stageable(repo, after, main, Rebasable(repo, before, main, batch))
  }

  /**
   The answer to a request of a batch for which main was resolved and no landing failed: it is rejected for
   its rebase just if that fails, MERGED only if it stages and surely if what stages builds, and else
   rejected only if what stages, the request among it, does not build.
   */
  ghost predicate JudgedOne(repo: Repo, main: History, before: Worktrees, w: State, staged: seq<Request>, r: Request) {
    && (r in w.outcome && w.outcome[r] == Rejected(RebaseFailed) <==> repo.rebaseOnto(main, Patch(before, r)) == None)
    && (r in w.outcome && w.outcome[r].Merged? ==> r in Elements(staged))
    && (r in Elements(staged) && repo.builds(Tip(w.trees, main, staged)) ==> r in w.outcome && w.outcome[r].Merged?)
    && (r in w.outcome && w.outcome[r].Rejected? && w.outcome[r] != Rejected(RebaseFailed) ==>
          IsForBuild(w.outcome[r]) && r in Elements(staged) && !repo.builds(Tip(w.trees, main, staged)))
  }

  /** The states in which all of the batch is answered like this. */
  ghost function Judged(repo: Repo, main: History, before: Worktrees, batch: seq<Request>): iset<State> {
    iset w: State | forall r :: r in Elements(batch) ==>
      JudgedOne(repo, main, before, w, StagedOf(repo, before, w.trees, main, batch), r)
  }

  /** If main was resolved and no landing failed, every request of the batch is answered as it should be. */
  lemma {:induction false} UndisturbedFates(repo: Repo, main0: History, v: State, w: State, batch: seq<Request>,
                                            plan: Plan, raised: bool)
    requires w in Processed(repo, v, batch, plan, raised) && w in Sound(repo, main0)
    requires w.headFailures == v.headFailures && w.landFailures == v.landFailures
    ensures !raised && w in Judged(repo, v.main, v.trees, batch)
  {
    var staged := plan.staged;
    assert staged == StagedOf(repo, v.trees, w.trees, v.main, batch);
    RebasableMembers(repo, v.trees, v.main, batch);
    StageableReplays(repo, w.trees, v.main, plan.rebased);
    forall r | r in Elements(batch) ensures JudgedOne(repo, v.main, v.trees, w, staged, r) {
      if r !in Elements(plan.rebased) {
        assert r in Elements(batch) - Elements(plan.rebased);
      } else if r in Elements(staged) {
        StagedFate(repo, main0, v.(trees := w.trees), w, staged, plan.verdict, r);
      } else {
        assert r in Elements(plan.rebased) - Elements(staged);
      }
    }
  }

  /** What staged is MERGED, rejected for its build, or open; and MERGED if all of it builds. */
  lemma {:induction false} StagedFate(repo: Repo, main0: History, v: State, w: State, staged: seq<Request>, d: Verdict,
                                      r: Request)
    requires BatchDone(repo, v, w, staged, d, false) && w.landFailures == v.landFailures
    requires w in Sound(repo, main0) && r in Elements(staged)
    ensures r in w.outcome && w.outcome[r].Rejected? ==>
              IsForBuild(w.outcome[r]) && !repo.builds(Tip(v.trees, v.main, staged))
    ensures repo.builds(Tip(v.trees, v.main, staged)) ==> r in w.outcome && w.outcome[r].Merged?
  {
    if repo.builds(Tip(v.trees, v.main, staged)) {
      ExtendsIsConcat(v.landed, w.landed, staged);
      ElementsConcat(v.landed, staged);
      assert r in MergedOf(w.outcome);
    } else {
      BisectedFates(repo, main0, v, w, staged, d);
      ExtendsIsConcat(d.good + [d.culprit], staged, d.rest);
      InElements(staged, r);
      assert r in d.good + [d.culprit] + d.rest;
    }
  }

  /** While main is resolved and no landing fails, requests are rejected for their rebase or their build alone. */
  ghost function Justified(start: State): iset<State> {
    iset w: State |
      && start.headFailures <= w.headFailures && start.landFailures <= w.landFailures
      && (forall r :: r in start.outcome ==> r in w.outcome && w.outcome[r] == start.outcome[r])
      && (w.headFailures == start.headFailures && w.landFailures == start.landFailures ==>
            forall r :: r in w.outcome && r !in start.outcome ==> IsJustified(w.outcome[r]))
  }

  predicate IsJustified(result: MergeResult) {
    result.Merged? || result == Rejected(RebaseFailed) || IsForBuild(result)
  }

  lemma {:induction false} JudgedIsJustified(repo: Repo, v: State, w: State, batch: seq<Request>)
    requires OnlyResolves(v.outcome, w.outcome, batch)
    requires v.headFailures <= w.headFailures && v.landFailures <= w.landFailures
    requires batch != [] && w.headFailures == v.headFailures && w.landFailures == v.landFailures ==>
               w in Judged(repo, v.main, v.trees, batch)
    ensures w in Justified(v)
  {
    if batch != [] && w.headFailures == v.headFailures && w.landFailures == v.landFailures {
      forall r | r in w.outcome && r !in v.outcome ensures IsJustified(w.outcome[r]) {
        assert r in Elements(batch);
        assert JudgedOne(repo, v.main, v.trees, w, StagedOf(repo, v.trees, w.trees, v.main, batch), r);
      }
    }
  }

  lemma {:induction false} JustifiedTwice(u: State, v: State, w: State)
    requires v in Justified(u) && w in Justified(v)
    ensures w in Justified(u)
  {
  }

  /** The cost of a number of batches. */
  function CostOf(batches: nat, cost: nat): nat {
    if batches == 0 then 0 else CostOf(batches - 1, cost) + cost
  }

  lemma {:induction false} CostIsProduct(batches: nat, cost: nat)
    ensures CostOf(batches, cost) == batches * cost
  {
    if batches > 0 {
      CostIsProduct(batches - 1, cost);
      assert (batches - 1) * cost + cost == batches * cost;
    }
  }

  /** What one turn of the main loop costs: nothing if nothing was collected. */
  function TurnCost(batch: seq<Request>): nat {
    if batch == [] then 0 else 1 + CeilLog2(|batch|)
  }

  /** The most that any batch of at most `size` requests costs. */
  function BatchCost(size: nat): nat {
    1 + CeilLog2(size)
  }

  /** A run from `start` to `w` with so many batches: each resolved something and cost no more than it may. */
  ghost function Progress(start: State, batches: nat, cost: nat): iset<State> {
    iset w: State |
      && start.submitted <= w.submitted && start.landFailures <= w.landFailures
      && |start.outcome| + batches <= |w.outcome|
      && w.builds <= start.builds + CostOf(batches, cost)
  }

  lemma {:induction false} NoProgressYet(start: State, cost: nat)
    ensures start in Progress(start, 0, cost)
  {
  }

  /** No batch of at most `size` requests exceeds this cost. */
  ghost predicate Covers(cost: nat, size: nat) {
    forall batch: seq<Request> :: |batch| <= size ==> TurnCost(batch) <= cost
  }

  lemma {:induction false} BatchCostCovers(size: nat)
    ensures Covers(BatchCost(size), size)
  {
    forall batch: seq<Request> | |batch| <= size ensures TurnCost(batch) <= BatchCost(size) {
      CeilLog2Monotone(|batch|, size);
    }
  }

  lemma {:induction false} ProgressNext(start: State, v: State, w: State, batches: nat, batch: seq<Request>, size: nat,
                                        cost: nat)
    requires v in Progress(start, batches, cost) && |batch| <= size && Covers(cost, size)
    requires OnlyResolves(v.outcome, w.outcome, batch) && w.builds <= v.builds + TurnCost(batch)
    requires v.submitted <= w.submitted && v.landFailures <= w.landFailures
    ensures w in Progress(start, if batch == [] then batches else batches + 1, cost)
    ensures v.outcome.Keys <= w.outcome.Keys
  {
    OnlyResolvesSize(v.outcome, w.outcome, batch);
    assert TurnCost(batch) <= cost && (batch == [] ==> TurnCost(batch) == 0);
    CostGrows(batches, cost);
  }

  lemma {:induction false} CostGrows(batches: nat, cost: nat)
    ensures CostOf(batches + 1, cost) == CostOf(batches, cost) + cost
  {
  }

  /** What so many batches of at most `size` requests come to: a result each at least, and a bound on builds. */
  ghost function RunsTo(start: State, batches: nat, size: nat): iset<State> {
    iset w: State |
      && |start.outcome| + batches <= |w.outcome| <= |w.submitted|
      && w.builds <= start.builds + batches * BatchCost(size)
  }

  lemma {:induction false} ProgressEnd(start: State, w: State, batches: nat, size: nat)
    requires w in Progress(start, batches, BatchCost(size)) && Conserved(w)
    ensures w in RunsTo(start, batches, size) && |start.outcome| + batches <= |w.submitted|
  {
    CostIsProduct(batches, BatchCost(size));
    SubsetSize(w.outcome.Keys, w.submitted);
    assert |w.outcome.Keys| == |w.outcome|;
  }

  /** When the queue is found empty with nothing in hand, all that was submitted is resolved. */
  lemma {:induction false} IdleIsResolved(start: State, w: State)
    requires Conserved(w) && w.queue == [] && w.inHand == {} && start.submitted <= w.submitted
    ensures start.submitted <= w.outcome.Keys
  {
  }

  /** The whole batch went through the rebase: which requests are left, and that they may be staged. */
  ghost function RebasedAll(repo: Repo, start: State, batch: seq<Request>, rebased: seq<Request>): iset<State> {
    iset v: State |
      && Sifted(start.(trees := v.trees), v, batch, rebased)
      && rebased == Rebasable(repo, start.trees, start.main, batch)
      && RebasedOnto(repo, start.trees, v.trees, start.main, Elements(rebased))
      && RejectedFor(v.outcome, Elements(batch) - Elements(rebased), RebaseFailed)
  }

  /** What rebased is in hand, and its first request picks onto main. */
  ghost function Offered(repo: Repo, rebased: seq<Request>): iset<State> {
    iset v: State | rebased != [] && v in Holding(rebased) && repo.PicksAll(v.main, Patch(v.trees, rebased[0]))
  }

  lemma {:induction false} RebasedEnd(repo: Repo, start: State, v: State, batch: seq<Request>, rebased: seq<Request>)
    requires repo.RebaseIsClean() && NoDup(batch) && Elements(batch) <= start.inHand
    requires RebasedTo(repo, start, v, batch, |batch|, rebased)
    ensures v in RebasedAll(repo, start, batch, rebased) && |rebased| <= |batch|
    ensures rebased != [] ==> v in Offered(repo, rebased)
  {
    assert batch[..|batch|] == batch;
    RebasableMembers(repo, start.trees, start.main, batch);
    assert v in RebasedAll(repo, start, batch, rebased);
    if rebased != [] {
      InElements(rebased, rebased[0]);
      RebasedIsOffered(repo, start, v, batch, rebased);
    }
  }

  lemma {:induction false} RebasedIsOffered(repo: Repo, start: State, v: State, batch: seq<Request>,
                                            rebased: seq<Request>)
    requires repo.RebaseIsClean() && v in RebasedAll(repo, start, batch, rebased) && rebased != []
    requires NoDup(rebased) && Elements(batch) <= start.inHand
    requires repo.rebaseOnto(start.main, Patch(start.trees, rebased[0])).Some?
    ensures v in Offered(repo, rebased)
  {
    var r := rebased[0];
    InElements(rebased, r);
    assert repo.rebaseOnto(start.main, Patch(start.trees, r)) == Some(Patch(v.trees, r));
  }

  /** A rebase leaves the patches of what has landed alone. */
  lemma RebasedSparesLanded(repo: Repo, start: State, v: State, batch: seq<Request>, rebased: seq<Request>)
    requires v in RebasedAll(repo, start, batch, rebased)
    requires Elements(batch) !! Elements(start.landed)
    ensures forall r :: r in Elements(start.landed) ==> Patch(start.trees, r) == Patch(v.trees, r)
  {
  }

  /** No request of the batch rebases onto main: all are rejected. */
  lemma NoneRebased(repo: Repo, start: State, v: State, batch: seq<Request>, d: Verdict)
    requires v in RebasedAll(repo, start, batch, [])
    requires batch != []
    ensures v in Processed(repo, start, batch, Plan([], [], d, NoLanding), false)
    ensures v.inHand == start.inHand - Elements(batch)
  {
    var r := batch[|batch| - 1];
    assert Elements(batch) - Elements<Request>([]) == Elements(batch);
    assert r in Elements(batch) * v.outcome.Keys;
  }

  /** From `u` the batch is rebased giving `v`, and what rebased is settled giving `w`. */
  lemma {:induction false} RebasedThenDone(repo: Repo, u: State, v: State, w: State, batch: seq<Request>, plan: Plan,
                                           raised: bool)
    requires plan.Plan? && plan.rebased != []
    requires v in RebasedAll(repo, u, batch, plan.rebased) && Elements(batch) <= u.inHand
    requires Conserved(v)
    requires w in StagedAndBuilt(repo, v, plan.rebased, plan.staged, plan.verdict, Course(raised, plan.landings))
    ensures w in Processed(repo, u, batch, plan, raised)
    ensures w.inHand == u.inHand - Elements(batch) && w.trees == v.trees && Prefix(v.landed, w.landed)
    ensures w.callbacks == v.callbacks
  {
    var start := u.(trees := v.trees);
    RebasedThenSettled(repo, u, v, w, batch, plan.rebased);
    RebasedThenFate(repo, u, v, w, batch, plan, raised);
    assert start == u.(trees := w.trees, callbacks := w.callbacks, headFailures := w.headFailures);
    if raised {
      StageableReplays(repo, v.trees, v.main, plan.rebased);
      SomeWaitInMore(w, plan.staged, batch);
    }
  }

  lemma {:induction false} RebasedThenSettled(repo: Repo, u: State, v: State, w: State, batch: seq<Request>,
                                              rebased: seq<Request>)
    requires rebased != [] && v in RebasedAll(repo, u, batch, rebased) && w in Settled(v, rebased)
    ensures w in Settled(u.(trees := v.trees), batch)
    ensures w.inHand == u.inHand - Elements(batch) && w.trees == v.trees && Prefix(v.landed, w.landed)
    ensures w.callbacks == v.callbacks == u.callbacks && Elements(rebased) <= Elements(batch)
    ensures RejectedFor(w.outcome, Elements(batch) - Elements(rebased), RebaseFailed)
  {
    SiftedThenSettled(u.(trees := v.trees), v, w, batch, rebased);
  }

  lemma {:induction false} RebasedThenFate(repo: Repo, u: State, v: State, w: State, batch: seq<Request>, plan: Plan,
                                           raised: bool)
    requires plan.Plan? && plan.rebased != []
    requires v in RebasedAll(repo, u, batch, plan.rebased) && Elements(batch) <= u.inHand
    requires Conserved(v) && w.trees == v.trees
    requires RejectedFor(w.outcome, Elements(batch) - Elements(plan.rebased), RebaseFailed)
    requires plan.staged == Stageable(repo, v.trees, v.main, plan.rebased)
    requires Elements(plan.rebased) - Elements(plan.staged) !! w.outcome.Keys
    requires BatchDone(repo, v, w, plan.staged, plan.verdict, raised)
    requires Course(raised, plan.landings) in BatchCourses(repo, v, w, plan.staged)
    ensures BatchFate(repo, u, w, batch, plan, raised) && (w.landFailures == u.landFailures ==> !raised)
    ensures v.main == u.main && Elements(plan.rebased) <= Elements(batch)
  {
    var start := u.(trees := v.trees);
    SiftedIsEarlier(start, v, batch, plan.rebased);
    StageableReplays(repo, v.trees, v.main, plan.rebased);
    BatchDoneEarlier(repo, start, v, w, plan.staged, plan.verdict, raised);
    CourseEarlier(repo, start, v, w, plan.staged, Course(raised, plan.landings));
  }
}

/** The `on_batch_merged` calls of a whole run. */
module Reporting {
  import opened Wrappers
  import opened Bisection
  import opened Sequences
  import opened Git
  import opened Staging
  import opened MergeQueueState

  /**
   The lists of calls that tile main's growth from `main0` to `main`: each call reports the value main had
   before and after its batch and the agents of the requests that landed in between, in order, and none is
   left out.
   */
  ghost function Reports(main0: History, trees: Worktrees, landed: seq<Request>, main: History): iset<seq<Callback>>
    decreases |landed|, 1
  {
    iset cbs: seq<Callback> |
      if cbs == [] then landed == [] && main == main0
      else TellsLast(main0, trees, cbs[..|cbs| - 1], cbs[|cbs| - 1], landed, main)
  }

  /** The call `cb` tells of the last requests that landed, and the calls before it of those in front. */
  ghost predicate TellsLast(main0: History, trees: Worktrees, before: seq<Callback>, cb: Callback,
                            landed: seq<Request>, main: History)
    decreases |landed|, 0
  {
    var n := |landed| - |cb.agentIds|;
    && 0 <= n < |landed|
    && cb.agentIds == AgentIds(landed[n..])
    && (cb.post == None || cb.post == Some(main)) && main == Tip(trees, cb.pre, landed[n..])
    && before in Reports(main0, trees, landed[..n], cb.pre)
  }

  lemma {:induction false} ReportedAgrees(main0: History, t: Worktrees, t': Worktrees, cbs: seq<Callback>,
                                          landed: seq<Request>, main: History)
    requires cbs in Reports(main0, t, landed, main)
    requires forall r :: r in Elements(landed) ==> Patch(t, r) == Patch(t', r)
    ensures cbs in Reports(main0, t', landed, main)
    decreases |cbs|
  {
    if cbs != [] {
      var cb := cbs[|cbs| - 1];
      var n := |landed| - |cb.agentIds|;
      Cut(landed, n);
      TipAgrees(t, t', cb.pre, landed[n..]);
      ReportedAgrees(main0, t, t', cbs[..|cbs| - 1], landed[..n], cb.pre);
    }
  }

  /** One more call, for `back`, which landed on top of what was reported before. */
  lemma ReportedPush(main0: History, trees: Worktrees, cbs: seq<Callback>, front: seq<Request>, pre: History,
                     back: seq<Request>, post: Option<History>)
    requires cbs in Reports(main0, trees, front, pre) && back != []
    requires post == None || post == Some(Tip(trees, pre, back))
    ensures cbs + [Callback(pre, post, AgentIds(back))] in Reports(main0, trees, front + back, Tip(trees, pre, back))
  {
    var cb := Callback(pre, post, AgentIds(back));
    AgentIdsSize(back);
    assert (front + back)[..|front|] == front;
    assert (front + back)[|front|..] == back;
    assert TellsLast(main0, trees, cbs, cb, front + back, Tip(trees, pre, back));
    OneMoreCall(main0, trees, cbs, cb, front + back, Tip(trees, pre, back));
  }

  lemma {:induction false} OneMoreCall(main0: History, trees: Worktrees, cbs: seq<Callback>, cb: Callback,
                                       landed: seq<Request>, main: History)
    requires TellsLast(main0, trees, cbs, cb, landed, main)
    ensures cbs + [cb] in Reports(main0, trees, landed, main)
  {
    assert (cbs + [cb])[..|cbs|] == cbs;
  }

  /** How many requests the calls name. */
  function Named(cbs: seq<Callback>): nat {
    if cbs == [] then 0 else Named(cbs[..|cbs| - 1]) + |cbs[|cbs| - 1].agentIds|
  }

  lemma {:induction false} ReportedSize(main0: History, trees: Worktrees, cbs: seq<Callback>, landed: seq<Request>,
                                        main: History)
    requires cbs in Reports(main0, trees, landed, main)
    ensures Named(cbs) == |landed|
    decreases |cbs|
  {
    if cbs != [] {
      var cb := cbs[|cbs| - 1];
      ReportedSize(main0, trees, cbs[..|cbs| - 1], landed[..|landed| - |cb.agentIds|], cb.pre);
    }
  }

  /** If something landed without a call, the calls do not tile the growth of main any more. */
  lemma {:induction false} LandedUnreported(main0: History, v: State, w: State)
    requires v.callbacks in Reports(main0, v.trees, v.landed, v.main)
    requires w.callbacks == v.callbacks && |v.landed| < |w.landed|
    ensures w.callbacks !in Reports(main0, w.trees, w.landed, w.main)
  {
    ReportedSize(main0, v.trees, v.callbacks, v.landed, v.main);
    if w.callbacks in Reports(main0, w.trees, w.landed, w.main) {
      ReportedSize(main0, w.trees, w.callbacks, w.landed, w.main);
    }
  }

  /** The agents of what landed between `v` and `w`, in order. */
  ghost function LandedIds(v: State, w: State): iset<seq<string>> {
    iset ids: seq<string> | Prefix(v.landed, w.landed) && ids in Naming(w.landed, |v.landed|)
  }

  lemma {:induction false} BatchIds(u: State, v: State, w: State, ids: seq<string>)
    requires v.landed == u.landed && Prefix(v.landed, w.landed) && ids in Naming(w.landed, |v.landed|)
    ensures ids in LandedIds(u, w)
  {
  }

  /** A rebase changes nothing about what was reported. */
  lemma {:induction false} RebasedReports(repo: Repo, main0: History, start: State, v: State, batch: seq<Request>,
                                          rebased: seq<Request>)
    requires start in Sound(repo, main0) && v in RebasedAll(repo, start, batch, rebased) && start in Holding(batch)
    requires start.callbacks in Reports(main0, start.trees, start.landed, start.main)
    ensures v.callbacks == start.callbacks && v.landed == start.landed && v.main == start.main && v.builds ==
              start.builds
    ensures v.callbacks in Reports(main0, v.trees, start.landed, start.main)
    ensures start.main == Tip(v.trees, main0, start.landed)
  {
    RebasedSparesLanded(repo, start, v, batch, rebased);
    ReportedAgrees(main0, start.trees, v.trees, start.callbacks, start.landed, start.main);
    TipAgrees(start.trees, v.trees, main0, start.landed);
  }

  /** The states after a batch from `v` with its call: one more, naming what landed, if anything did. */
  ghost function CalledOnce(v: State): iset<State> {
    iset w: State |
      && Prefix(v.landed, w.landed)
      && if w.landed == v.landed then w.callbacks == v.callbacks else CalledLast(v, w)
  }

  /** The last call tells of main before and after, and of the requests that landed in between. */
  ghost predicate CalledLast(v: State, w: State) {
    && w.callbacks != [] && w.callbacks[..|w.callbacks| - 1] == v.callbacks
    && var cb := w.callbacks[|w.callbacks| - 1];
       cb.pre == v.main && (cb.post == None || cb.post == Some(w.main)) && cb.agentIds in LandedIds(v, w)
  }

  lemma {:induction false} NotCalled(v: State, w: State)
    requires w.landed == v.landed && w.callbacks == v.callbacks
    ensures w in CalledOnce(v)
  {
  }

  lemma {:induction false} Called(v: State, w: State, ids: seq<string>, post: Option<History>)
    requires ids in LandedIds(v, w) && (post == None || post == Some(w.main))
    requires w.callbacks == if ids == [] then v.callbacks else v.callbacks + [Callback(v.main, post, ids)]
    ensures w in CalledOnce(v)
  {
    LandedCount(v, w, ids);
    if ids == [] {
      NotCalled(v, w);
    } else {
      CalledMore(v, w, Callback(v.main, post, ids));
    }
  }

  lemma {:induction false} CalledMore(v: State, w: State, cb: Callback)
    requires w.callbacks == v.callbacks + [cb] && |w.landed| > |v.landed|
    requires cb.pre == v.main && (cb.post == None || cb.post == Some(w.main)) && cb.agentIds in LandedIds(v, w)
    ensures w in CalledOnce(v)
  {
    FrontOfPush(v.callbacks, cb);
  }

  lemma {:induction false} LandedCount(v: State, w: State, ids: seq<string>)
    requires ids in LandedIds(v, w)
    ensures |w.landed| == |v.landed| + |ids|
    ensures ids == [] ==> w.landed == v.landed
  {
    var back := LandedBehind(v, w, ids);
    if ids == [] {
      assert v.landed + back == v.landed;
    }
  }

  /**
   What a batch comes to, with its call: one call for what landed, if it did not raise. If it raised, it had
   staged at least five requests, one landing worked and another failed, and what landed is not reported.
   */
  ghost function Handled(repo: Repo, main0: History, v: State, batch: seq<Request>, plan: Plan,
                         raised: bool): iset<State>
  {
    iset w: State |
      && w in Processed(repo, v, batch, plan, raised) && w.inHand == {}
      && (raised <==> w.callbacks !in Reports(main0, w.trees, w.landed, w.main))
      && (if raised then plan in RaisingPlans() && |v.landed| < |w.landed| && w.callbacks == v.callbacks
          else w in CalledOnce(v))
  }

  lemma {:induction false} HandledRaised(repo: Repo, main0: History, v: State, w: State, batch: seq<Request>,
                                         plan: Plan)
    requires repo.RebaseIsClean() && w in Processed(repo, v, batch, plan, true) && w.inHand == {}
    requires v.callbacks in Reports(main0, v.trees, v.landed, v.main) && w.callbacks == v.callbacks
    ensures w in Handled(repo, main0, v, batch, plan, true)
  {
    RaisedBatch(repo, v, w, batch, plan);
    LandedUnreported(main0, v, w);
  }

  lemma {:induction false} HandledNotified(repo: Repo, main0: History, v: State, w: State, x: State,
                                           batch: seq<Request>, plan: Plan)
    requires w in Processed(repo, v, batch, plan, false) && w.inHand == {}
    requires x == w.(callbacks := x.callbacks) && x in CalledOnce(v)
    requires x.callbacks in Reports(main0, x.trees, x.landed, x.main)
    ensures x in Handled(repo, main0, v, batch, plan, false)
  {
    ProcessedNotified(repo, v, w, batch, plan, false, x.callbacks);
  }

  /** What landed between `v` and `w` is named by `ids`, in order. */
  lemma {:induction false} LandedBehind(v: State, w: State, ids: seq<string>) returns (back: seq<Request>)
    requires ids in LandedIds(v, w)
    ensures w.landed == v.landed + back && ids == AgentIds(back) && |ids| == |back|
  {
    back := w.landed[|v.landed|..];
    PrefixIsPrefix(v.landed, w.landed);
    NamesReach(ids, w.landed, |v.landed|);
    AgentIdsSize(back);
  }

  /** What a batch adds to main is what its requests landed. */
  lemma {:induction false} ReportedNext(main0: History, v: State, w: State, ids: seq<string>, post: Option<History>)
    requires v.callbacks in Reports(main0, v.trees, v.landed, v.main)
    requires v.main == Tip(v.trees, main0, v.landed) && w.main == Tip(v.trees, main0, w.landed)
    requires ids in LandedIds(v, w) && (post == None || post == Some(w.main))
    ensures ids == [] ==> w.landed == v.landed && w.main == v.main
    ensures ids != [] ==> v.callbacks + [Callback(v.main, post, ids)] in Reports(main0, v.trees, w.landed, w.main)
  {
    var back := LandedBehind(v, w, ids);
    TipConcat(v.trees, main0, v.landed, back);
    if ids != [] {
      ReportedPush(main0, v.trees, v.callbacks, v.landed, v.main, back, post);
    } else {
      assert v.landed + [] == v.landed;
    }
  }

  /** The callback as the code makes it: the calls still tile main, and there is one more if anything landed. */
  lemma {:induction false} Notified(main0: History, start: State, w: State, ids: seq<string>, post: Option<History>)
    requires start.callbacks in Reports(main0, w.trees, start.landed, start.main)
    requires start.main == Tip(w.trees, main0, start.landed) && w.main == Tip(w.trees, main0, w.landed)
    requires ids in LandedIds(start, w) && (post == None || post == Some(w.main))
    requires w.callbacks ==
             if ids == [] then start.callbacks else start.callbacks + [Callback(start.main, post, ids)]
    ensures w.callbacks in Reports(main0, w.trees, w.landed, w.main) && w in CalledOnce(start)
  {
    ReportedNext(main0, start.(trees := w.trees), w, ids, post);
    Called(start, w, ids, post);
  }
}
