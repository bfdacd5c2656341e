/** How a queue grows at its end while it is worked on. */
module Growth {
  import opened Sequences

  /** `q'` extends `q`, and what was added and known before belongs to `batch`. */
  ghost predicate Grows<T>(q: seq<T>, q': seq<T>, known: set<T>, batch: set<T>) {
    q == q' ||
    (q' != [] &&
     var n := |q'| - 1;
     (q'[n] in known ==> q'[n] in batch) && Grows(q, q'[..n], known, batch))
  }

  /** Those members of `keep` that were added after `q`, in order. */
  ghost function Added<T>(q: seq<T>, q': seq<T>, keep: set<T>): seq<T> {
    if q == q' || q' == [] then []
    else
      var n := |q'| - 1;
      Added(q, q'[..n], keep) + (if q'[n] in keep then [q'[n]] else [])
  }

  lemma {:induction false} GrowsPush<T>(q: seq<T>, q': seq<T>, x: T, known: set<T>, batch: set<T>)
    requires Grows(q, q', known, batch) && (x in known ==> x in batch)
    ensures Grows(q, q' + [x], known, batch)
  {
    assert (q' + [x])[..|q'|] == q';
  }

  lemma {:induction false} GrowsAll<T>(q: seq<T>, t: seq<T>, known: set<T>)
    ensures Grows(q, q + t, known, Elements(t))
  {
    if t == [] {
      assert q + t == q;
    } else {
      var n := |t| - 1;
      assert (q + t)[..|q + t| - 1] == q + t[..n];
      GrowsAll(q, t[..n], known);
      GrowsMore(q, q + t[..n], known, known, Elements(t[..n]), Elements(t));
    }
  }

  lemma {:induction false} GrowsMore<T>(q: seq<T>, q': seq<T>, known: set<T>, known': set<T>, s: set<T>, t: set<T>)
    requires Grows(q, q', known, s) && s <= t && known' <= known
    ensures Grows(q, q', known', t)
  {
    if q != q' {
      GrowsMore(q, q'[..|q'| - 1], known, known', s, t);
    }
  }

  lemma {:induction false} GrowsTrans<T>(q: seq<T>, r: seq<T>, s: seq<T>, known: set<T>, known': set<T>,
                                         b: set<T>, b': set<T>)
    requires Grows(q, r, known, b) && Grows(r, s, known', b') && known <= known'
    ensures Grows(q, s, known, b + b')
  {
    if r == s {
      GrowsMore(q, r, known, known, b, b + b');
    } else {
      GrowsTrans(q, r, s[..|s| - 1], known, known', b, b');
    }
  }

  lemma {:induction false} GrowsIsPrefix<T>(q: seq<T>, q': seq<T>, known: set<T>, batch: set<T>)
    requires Grows(q, q', known, batch)
    ensures Prefix(q, q') && |q| <= |q'| && Elements(q) <= Elements(q')
  {
    if q != q' {
      GrowsIsPrefix(q, q'[..|q'| - 1], known, batch);
    }
  }

  /** What grows still does behind a fixed front. */
  lemma {:induction false} GrowsBehind<T>(front: seq<T>, q: seq<T>, q': seq<T>, known: set<T>, batch: set<T>)
    requires Grows(q, q', known, batch)
    ensures Grows(front + q, front + q', known, batch)
  {
    if q != q' {
      var n := |q'| - 1;
      assert (front + q')[..|front + q'| - 1] == front + q'[..n];
      GrowsBehind(front, q, q'[..n], known, batch);
    }
  }

  /** What was added in two stretches adds up. */
  lemma {:induction false} AddedTrans<T>(q: seq<T>, r: seq<T>, s: seq<T>, keep: set<T>)
    requires Prefix(q, r) && Prefix(r, s)
    ensures Added(q, s, keep) == Added(q, r, keep) + Added(r, s, keep)
  {
    if r != s {
      AddedTrans(q, r, s[..|s| - 1], keep);
      PrefixIsPrefix(q, r);
      PrefixIsPrefix(r, s[..|s| - 1]);
    }
  }

  lemma {:induction false} AddedAll<T>(q: seq<T>, t: seq<T>, keep: set<T>)
    requires Elements(t) <= keep
    ensures Added(q, q + t, keep) == t
  {
    if t == [] {
      assert q + t == q;
    } else {
      var n := |t| - 1;
      assert (q + t)[..|q + t| - 1] == q + t[..n];
      AddedAll(q, t[..n], keep);
      assert t == t[..n] + [t[n]];
    }
  }

  /** Nothing of `keep` was added if none of it is there in the end. */
  lemma {:induction false} AddedNone<T>(q: seq<T>, q': seq<T>, keep: set<T>)
    requires Elements(q') !! keep
    ensures Added(q, q', keep) == []
  {
    if q != q' && q' != [] {
      AddedNone(q, q'[..|q'| - 1], keep);
    }
  }

  /** Members of `extra` that are not there in the end, or were there before, do not matter. */
  lemma {:induction false} AddedWithout<T>(q: seq<T>, q': seq<T>, keep: set<T>, extra: set<T>)
    requires Elements(q') !! extra || (NoDup(q') && extra <= Elements(q) && Prefix(q, q'))
    ensures Added(q, q', keep + extra) == Added(q, q', keep)
  {
    if q != q' && q' != [] {
      AddedWithout(q, q'[..|q'| - 1], keep, extra);
      if NoDup(q') && extra <= Elements(q) && Prefix(q, q') {
        PrefixElements(q, q'[..|q'| - 1]);
      }
    }
  }

  lemma {:induction false} PrefixElements<T>(q: seq<T>, q': seq<T>)
    requires Prefix(q, q')
    ensures Elements(q) <= Elements(q')
  {
    if q != q' {
      PrefixElements(q, q'[..|q'| - 1]);
    }
  }

  lemma {:induction false} AddedMembers<T>(q: seq<T>, q': seq<T>, keep: set<T>)
    ensures Elements(Added(q, q', keep)) <= Elements(q') * keep
  {
    if q != q' && q' != [] {
      var n := |q'| - 1;
      AddedMembers(q, q'[..n], keep);
      ElementsPush(Added(q, q'[..n], keep), q'[n]);
      assert Added(q, q'[..n], keep) + [] == Added(q, q'[..n], keep);
    }
  }
}

/**
 The state of the merge queue as a value, what always holds of it, and how one step may change it.
 */
module MergeQueueState {
  import opened Wrappers
  import opened Sequences
  import opened Growth
  import opened Git
  import opened Staging

  datatype Reason =
    | MainUnresolved
    | RebaseFailed
    | MergeToMainFailed
    | BuildFailed
    | BuildFailedByBisect
    | CherryPickFailedInBisect
    | InternalError

  /** `post` is what main was found to be after the landing, if it could be resolved. */
  datatype MergeResult = Merged(pre: History, post: Option<History>) | Rejected(reason: Reason)

  /** The result tells of a landing that took main from `pre` to `post`. */
  predicate MergedAs(result: MergeResult, pre: History, post: History) {
    result.Merged? && result.pre == pre && (result.post == None || result.post == Some(post))
  }

  /** What a landing that worked, or failed, answers. */
  predicate LandingAnswers(result: MergeResult, worked: bool, pre: History, post: History) {
    if worked then MergedAs(result, pre, post) else result == Rejected(MergeToMainFailed)
  }

  /** A rejection because a build failed. */
  predicate IsForBuild(result: MergeResult) {
    result == Rejected(BuildFailed) || result == Rejected(BuildFailedByBisect)
  }

  type Outcome = map<Request, MergeResult>

  /** One call of `on_batch_merged`. */
  datatype Callback = Callback(pre: History, post: Option<History>, agentIds: seq<string>)

  datatype State = State(
    main: History,
    mainLog: seq<History>,   // every value main has had
    landed: seq<Request>,    // the requests whose patches are on main, in order
    trees: Worktrees,
    submitted: set<Request>,
    queue: seq<Request>,
    outcome: Outcome,        // the futures that are done
    inHand: set<Request>,    // the rest of the batch that is being processed
    builds: nat,             // calls of the build function
    landFailures: nat,       // calls of merge_to_main that failed
    headFailures: nat,       // batches at whose head main could not be resolved
    callbacks: seq<Callback>)

  /** Every submitted request is in exactly one place, and waits there only once. */
  ghost predicate Conserved(v: State) {
    && NoDup(v.queue)
    && Elements(v.queue) !! v.outcome.Keys && Elements(v.queue) !! v.inHand && v.outcome.Keys !! v.inHand
    && v.submitted == Elements(v.queue) + v.outcome.Keys + v.inHand
  }

  /** Main started at `main0`, is now `main`, and was only ever extended, to histories that build. */
  ghost predicate OnlyExtended(repo: Repo, main0: History, log: seq<History>, main: History) {
    log != [] &&
    var n := |log| - 1;
    && log[n] == main
    && if n == 0 then main == main0
       else Prefix(log[n - 1], main) && repo.builds(main) && OnlyExtended(repo, main0, log[..n], log[n - 1])
  }

  lemma {:induction false} OnlyExtendedAt(repo: Repo, main0: History, log: seq<History>, main: History, i: nat, j: nat)
    requires OnlyExtended(repo, main0, log, main) && i < j < |log|
    ensures log[i] <= log[j] && repo.builds(log[j]) && log[0] == main0 && log[|log| - 1] == main
  {
    var n := |log| - 1;
    PrefixIsPrefix(log[n - 1], log[n]);
    if j < n {
      OnlyExtendedAt(repo, main0, log[..n], log[n - 1], i, j);
    } else if i < n - 1 {
      OnlyExtendedAt(repo, main0, log[..n], log[n - 1], i, n - 1);
    } else if n > 1 {
      OnlyExtendedAt(repo, main0, log[..n], log[n - 1], 0, n - 1);
    }
  }

  function MergedOf(outcome: Outcome): set<Request> {
    set r | r in outcome && outcome[r].Merged?
  }

  /** The requests from index `n` on landed together: their results name main before and after that. */
  ghost predicate Window(main0: History, trees: Worktrees, outcome: Outcome, landed: seq<Request>, n: nat) {
    && n < |landed|
    && forall r :: r in Elements(landed[n..]) ==>
         r in outcome && MergedAs(outcome[r], Tip(trees, main0, landed[..n]), Tip(trees, main0, landed))
  }

  /** The landed requests fall into such windows, one after the other. */
  ghost predicate Windows(main0: History, trees: Worktrees, outcome: Outcome, landed: seq<Request>)
    decreases |landed|
  {
    landed == [] ||
    exists n: nat ::
      Window(main0, trees, outcome, landed, n) && Windows(main0, trees, outcome, landed[..n])
  }

  lemma {:induction false} WindowsKeep(main0: History, t: Worktrees, t': Worktrees, o: Outcome, o': Outcome,
                                       landed: seq<Request>)
    requires Windows(main0, t, o, landed)
    requires forall r :: r in Elements(landed) ==> Patch(t, r) == Patch(t', r)
    requires forall r :: r in Elements(landed) && r in o ==> r in o' && o'[r] == o[r]
    ensures Windows(main0, t', o', landed)
    decreases |landed|
  {
    if landed != [] {
      var n: nat :| Window(main0, t, o, landed, n) && Windows(main0, t, o, landed[..n]);
      Cut(landed, n);
      WindowsKeep(main0, t, t', o, o', landed[..n]);
      TipAgrees(t, t', main0, landed);
      TipAgrees(t, t', main0, landed[..n]);
      assert Window(main0, t', o', landed, n);
    }
  }

  /** A MERGED result names main before and after a stretch of landed requests that holds the request. */
  lemma {:induction false} MergedNamesMain(main0: History, trees: Worktrees, outcome: Outcome, landed: seq<Request>,
                                           r: Request)
    requires Windows(main0, trees, outcome, landed) && r in Elements(landed)
    ensures exists n: nat, m: nat :: MergedBetween(main0, trees, outcome, landed, r, n, m)
    decreases |landed|
  {
    var n: nat :| Window(main0, trees, outcome, landed, n) && Windows(main0, trees, outcome, landed[..n]);
    Cut(landed, n);
    if r in Elements(landed[n..]) {
      BetweenAtEnd(main0, trees, outcome, landed, n, r);
    } else {
      MergedNamesMain(main0, trees, outcome, landed[..n], r);
      var a: nat, b: nat :| MergedBetween(main0, trees, outcome, landed[..n], r, a, b);
      BetweenInFront(main0, trees, outcome, landed, n, r, a, b);
    }
  }

  lemma {:induction false} BetweenAtEnd(main0: History, trees: Worktrees, outcome: Outcome, landed: seq<Request>,
                                        n: nat, r: Request)
    requires Window(main0, trees, outcome, landed, n) && r in Elements(landed[n..])
    ensures MergedBetween(main0, trees, outcome, landed, r, n, |landed|)
  {
    assert landed[n..|landed|] == landed[n..] && landed[..|landed|] == landed;
  }

  lemma {:induction false} BetweenInFront(main0: History, trees: Worktrees, outcome: Outcome, landed: seq<Request>,
                                          n: nat, r: Request, a: nat, b: nat)
    requires n <= |landed| && MergedBetween(main0, trees, outcome, landed[..n], r, a, b)
    ensures MergedBetween(main0, trees, outcome, landed, r, a, b)
  {
    assert landed[..n][a..b] == landed[a..b] && landed[..n][..a] == landed[..a] && landed[..n][..b] == landed[..b];
  }

  ghost predicate MergedBetween(main0: History, trees: Worktrees, outcome: Outcome, landed: seq<Request>, r: Request,
                                n: nat, m: nat)
  {
    && n < m <= |landed| && r in Elements(landed[n..m])
    && r in outcome && MergedAs(outcome[r], Tip(trees, main0, landed[..n]), Tip(trees, main0, landed[..m]))
  }

  /** Main is its first value and the patches of the landed requests, which are those that are MERGED. */
  ghost predicate MainIsLanded(main0: History, v: State) {
    && v.main == Tip(v.trees, main0, v.landed)
    && NoDup(v.landed)
    && Elements(v.landed) == MergedOf(v.outcome)
    && Windows(main0, v.trees, v.outcome, v.landed)
  }

  /** The invariant of every run, as the set of states in which it holds. */
  ghost function Sound(repo: Repo, main0: History): iset<State> {
    iset v: State | Conserved(v) && OnlyExtended(repo, main0, v.mainLog, v.main) && MainIsLanded(main0, v)
  }

  /** Nothing is forgotten or overwritten, and only futures of `batch` were resolved. */
  ghost predicate Resolves(o: Outcome, o': Outcome, batch: set<Request>) {
    && (forall r :: r in o ==> r in o' && o'[r] == o[r])
    && o'.Keys <= o.Keys + batch
  }

  /** How the state may change while only the requests in `batch` are worked on and others arrive. */
  ghost predicate Steps(v: State, w: State, batch: set<Request>) {
    && Grows(v.queue, w.queue, v.submitted, batch)
    && v.submitted <= w.submitted
    && Resolves(v.outcome, w.outcome, batch)
    && v.inHand - batch <= w.inHand <= v.inHand
    && w.trees == v.trees && w.callbacks == v.callbacks
    && Prefix(v.main, w.main) && Prefix(v.landed, w.landed)
    && v.builds <= w.builds && v.landFailures <= w.landFailures && v.headFailures == w.headFailures
  }

  /** Nothing changed but that others submitted and builds ran. */
  ghost predicate Quiet(v: State, w: State) {
    && w == v.(queue := w.queue, submitted := w.submitted, builds := w.builds)
    && v.builds <= w.builds
    && v.submitted <= w.submitted
    && Grows(v.queue, w.queue, v.submitted, {})
  }

  lemma StepsTrans(u: State, v: State, w: State, s: set<Request>, t: set<Request>)
    requires Steps(u, v, s) && Steps(v, w, t)
    ensures Steps(u, w, s + t)
  {
    GrowsTrans(u.queue, v.queue, w.queue, u.submitted, v.submitted, s, t);
    PrefixTrans(u.main, v.main, w.main);
    PrefixTrans(u.landed, v.landed, w.landed);
  }

  /** Two pieces of work, one after the other. */
  lemma StepsTwice(u: State, v: State, w: State, s: set<Request>, t: set<Request>, all: set<Request>)
    requires Steps(u, v, s) && Steps(v, w, t) && s + t == all
    requires v.inHand == u.inHand - s && w.inHand == v.inHand - t
    ensures Steps(u, w, all) && w.inHand == u.inHand - all
  {
    StepsTrans(u, v, w, s, t);
  }

  lemma QuietTrans(u: State, v: State, w: State)
    requires Quiet(u, v) && Quiet(v, w)
    ensures Quiet(u, w)
  {
    GrowsTrans(u.queue, v.queue, w.queue, u.submitted, v.submitted, {}, {});
    var none: set<Request> := {};
    assert none + none == none;
  }

  lemma QuietThenSteps(u: State, v: State, w: State, s: set<Request>)
    requires Quiet(u, v) && Steps(v, w, s)
    ensures Steps(u, w, s)
  {
    assert Steps(u, v, {});
    StepsTrans(u, v, w, {}, s);
    assert {} + s == s;
  }

  /** A new submission joins the queue. */
  lemma ArrivalKeepsInv(repo: Repo, main0: History, v: State, w: State, r: Request)
    requires v in Sound(repo, main0) && r !in v.submitted
    requires w == v.(queue := v.queue + [r], submitted := v.submitted + {r})
    ensures w in Sound(repo, main0) && Quiet(v, w)
  {
    NoDupPush(v.queue, r);
    ElementsPush(v.queue, r);
    GrowsPush(v.queue, v.queue, r, v.submitted, {});
  }

  /** Calls, and lookups that fail, leave the invariant alone. */
  lemma {:induction false} NoticeKeepsInv(repo: Repo, main0: History, v: State, w: State)
    requires v in Sound(repo, main0) && w == v.(callbacks := w.callbacks, headFailures := w.headFailures)
    ensures w in Sound(repo, main0)
  {
  }

  /** The head of the queue becomes part of the batch. */
  lemma TakeKeepsInv(repo: Repo, main0: History, v: State, w: State)
    requires v in Sound(repo, main0) && v.queue != []
    requires w == v.(queue := v.queue[1..], inHand := v.inHand + {v.queue[0]})
    ensures w in Sound(repo, main0) && v.queue[0] !in v.inHand
  {
    Cut(v.queue, 1);
    assert v.queue[..1] == [v.queue[0]];
    assert Elements([v.queue[0]]) == {v.queue[0]};
  }

  /** The first requests of the queue, arrivals included, were collected: the batch holds them in order. */
  ghost predicate Collected(v: State, w: State, batch: seq<Request>) {
    && w == v.(queue := w.queue, submitted := w.submitted, inHand := Elements(batch))
    && NoDup(batch)
    && v.submitted <= w.submitted
    && Grows(v.queue, batch + w.queue, v.submitted, {})
  }

  lemma CollectedStart(v: State)
    requires v.inHand == {}
    ensures Collected(v, v, [])
  {
    assert [] + v.queue == v.queue;
  }

  lemma CollectedLater(u: State, v: State, w: State, batch: seq<Request>)
    requires Collected(u, v, batch) && Quiet(v, w) && w.builds == v.builds
    ensures Collected(u, w, batch)
  {
    GrowsBehind(batch, v.queue, w.queue, v.submitted, {});
    GrowsTrans(u.queue, batch + v.queue, batch + w.queue, u.submitted, v.submitted, {}, {});
    var none: set<Request> := {};
    assert none + none == none;
  }

  lemma CollectedNext(u: State, v: State, w: State, batch: seq<Request>)
    requires Collected(u, v, batch) && v.queue != [] && v.queue[0] !in v.inHand
    requires w == v.(queue := v.queue[1..], inHand := v.inHand + {v.queue[0]})
    ensures Collected(u, w, batch + [v.queue[0]])
  {
    NoDupPush(batch, v.queue[0]);
    ElementsPush(batch, v.queue[0]);
    assert batch + v.queue == batch + [v.queue[0]] + v.queue[1..];
  }

  /**
   The handler of a batch that raised rejects all of it that is still undone. That keeps every request in
   one place only if none of the batch waits in the queue.
   */
  lemma HandlerConserves(v: State, w: State, batch: seq<Request>)
    requires Conserved(v) && v.inHand == {} && Elements(batch) <= v.submitted
    requires w == v.(outcome := w.outcome) && w.outcome.Keys == v.outcome.Keys + Elements(batch)
    ensures Conserved(w) <==> Elements(batch) !! Elements(v.queue)
  {
  }

  /** A future of the batch is resolved as REJECTED. */
  lemma RejectKeepsInv(repo: Repo, main0: History, v: State, w: State, r: Request, reason: Reason)
    requires v in Sound(repo, main0) && r in v.inHand
    requires w == v.(outcome := v.outcome[r := Rejected(reason)], inHand := v.inHand - {r})
    ensures w in Sound(repo, main0) && Steps(v, w, {r})
  {
    assert w.outcome.Keys == v.outcome.Keys + {r};
    assert MergedOf(w.outcome) == MergedOf(v.outcome);
    WindowsKeep(main0, v.trees, w.trees, v.outcome, w.outcome, v.landed);
  }

  /** Requests of the batch go back to the queue, in order. */
  lemma RequeueKeepsInv(repo: Repo, main0: History, v: State, w: State, rs: seq<Request>)
    requires v in Sound(repo, main0) && NoDup(rs) && Elements(rs) <= v.inHand
    requires w == v.(queue := v.queue + rs, inHand := v.inHand - Elements(rs))
    ensures w in Sound(repo, main0) && Steps(v, w, Elements(rs))
  {
    NoDupConcat(v.queue, rs);
    ElementsConcat(v.queue, rs);
    GrowsAll(v.queue, rs, v.submitted);
  }

  /** Rebasing a request of the batch rewrites only its own worktree. */
  lemma RebaseKeepsInv(repo: Repo, main0: History, v: State, w: State, r: Request, commits: seq<Commit>)
    requires v in Sound(repo, main0) && r in v.inHand
    requires w == v.(trees := v.trees[r := commits])
    ensures w in Sound(repo, main0)
  {
    assert r !in Elements(v.landed);
    TipAgrees(v.trees, w.trees, main0, v.landed);
    WindowsKeep(main0, v.trees, w.trees, v.outcome, w.outcome, v.landed);
  }

  /** The futures of `rs`, and no others, are resolved, all with the same result. */
  ghost predicate ResolvesAll(o: Outcome, o': Outcome, rs: set<Request>, result: MergeResult) {
    && Resolves(o, o', rs)
    && o'.Keys == o.Keys + rs
    && forall r :: r in rs ==> o'[r] == result
  }

  lemma ResolvesOneMore(o: Outcome, o': Outcome, rs: seq<Request>, i: nat, result: MergeResult)
    requires i < |rs| && ResolvesAll(o, o', Elements(rs[..i]), result) && rs[i] !in o
    ensures ResolvesAll(o, o'[rs[i] := result], Elements(rs[..i + 1]), result)
  {
    UpTo(rs, i);
  }

  /** What landing `staged`, already cherry-picked onto main, does to the state. */
  ghost predicate Lands(v: State, w: State, staged: seq<Request>, result: MergeResult) {
    && w == v.(main := Tip(v.trees, v.main, staged),
               mainLog := v.mainLog + [Tip(v.trees, v.main, staged)],
               landed := v.landed + staged,
               outcome := w.outcome,
               inHand := v.inHand - Elements(staged))
    && ResolvesAll(v.outcome, w.outcome, Elements(staged), result) && MergedAs(result, v.main, w.main)
  }

  lemma LandingKeepsInv(repo: Repo, main0: History, v: State, w: State, staged: seq<Request>, result: MergeResult)
    requires v in Sound(repo, main0) && NoDup(staged) && Elements(staged) <= v.inHand && staged != []
    requires repo.builds(Tip(v.trees, v.main, staged)) && Lands(v, w, staged, result)
    ensures w in Sound(repo, main0) && Steps(v, w, Elements(staged))
  {
    LandingConserves(v, w, staged, result);
    LogGrows(repo, main0, v, w, staged);
    assert Elements(staged) !! v.outcome.Keys;
    LandingExtends(main0, v, w, staged, result);
  }

  lemma {:induction false} LogGrows(repo: Repo, main0: History, v: State, w: State, staged: seq<Request>)
    requires OnlyExtended(repo, main0, v.mainLog, v.main) && repo.builds(w.main)
    requires w.main == Tip(v.trees, v.main, staged) && w.mainLog == v.mainLog + [w.main]
    ensures OnlyExtended(repo, main0, w.mainLog, w.main)
  {
    assert w.mainLog[..|w.mainLog| - 1] == v.mainLog;
    TipExtends(v.trees, v.main, staged);
  }

  lemma LandingConserves(v: State, w: State, staged: seq<Request>, result: MergeResult)
    requires Conserved(v) && Elements(staged) <= v.inHand && Lands(v, w, staged, result)
    ensures Conserved(w) && Steps(v, w, Elements(staged))
  {
    TipExtends(v.trees, v.main, staged);
    PrefixOfConcat(v.landed, staged);
  }

  lemma LandingExtends(main0: History, v: State, w: State, staged: seq<Request>, result: MergeResult)
    requires MainIsLanded(main0, v) && NoDup(staged) && Lands(v, w, staged, result)
    requires Elements(staged) !! v.outcome.Keys && staged != []
    ensures MainIsLanded(main0, w)
  {
    assert Elements(v.landed) <= v.outcome.Keys;
    NoDupConcat(v.landed, staged);
    ElementsConcat(v.landed, staged);
    assert MergedOf(w.outcome) == MergedOf(v.outcome) + Elements(staged);
    TipConcat(v.trees, main0, v.landed, staged);
    WindowsKeep(main0, v.trees, w.trees, v.outcome, w.outcome, v.landed);
    var n := |v.landed|;
    assert w.landed[..n] == v.landed && w.landed[n..] == staged;
    assert Window(main0, w.trees, w.outcome, w.landed, n);
  }

  /** What a failed `merge_to_main` does: the whole staged list is rejected and main stays. */
  ghost predicate FailsToLand(v: State, w: State, staged: seq<Request>) {
    && w == v.(outcome := w.outcome, inHand := v.inHand - Elements(staged), landFailures := v.landFailures + 1)
    && ResolvesAll(v.outcome, w.outcome, Elements(staged), Rejected(MergeToMainFailed))
  }

  lemma FailedLandingKeepsInv(repo: Repo, main0: History, v: State, w: State, staged: seq<Request>)
    requires v in Sound(repo, main0) && Elements(staged) <= v.inHand && FailsToLand(v, w, staged)
    ensures w in Sound(repo, main0) && Steps(v, w, Elements(staged))
  {
    assert MergedOf(w.outcome) == MergedOf(v.outcome);
    WindowsKeep(main0, v.trees, w.trees, v.outcome, w.outcome, v.landed);
  }

  function AgentIds(rs: seq<Request>): seq<string> {
    if rs == [] then [] else AgentIds(rs[..|rs| - 1]) + [rs[|rs| - 1].agentId]
  }

  lemma {:induction false} AgentIdsSize(rs: seq<Request>)
    ensures |AgentIds(rs)| == |rs|
  {
    if rs != [] {
      AgentIdsSize(rs[..|rs| - 1]);
    }
  }

  /** The lists that name the agents of the requests that landed from index `from` on. */
  ghost function Naming(landed: seq<Request>, from: nat): iset<seq<string>>
    decreases |landed|, 1
  {
    iset ids: seq<string> |
      if |landed| <= from then |landed| == from && ids == []
      else ids != [] && NamesLast(ids[..|ids| - 1], ids[|ids| - 1], landed, from)
  }

  /** The last request that landed is that of the agent `id`, and the ids before it name those in front. */
  ghost predicate NamesLast(before: seq<string>, id: string, landed: seq<Request>, from: nat)
    requires landed != []
    decreases |landed|, 0
  {
    var n := |landed| - 1;
    id == landed[n].agentId && before in Naming(landed[..n], from)
  }

  lemma {:induction false} NamesGrow(ids: seq<string>, landed: seq<Request>, from: nat, staged: seq<Request>)
    requires ids in Naming(landed, from)
    ensures ids + AgentIds(staged) in Naming(landed + staged, from)
  {
    if staged == [] {
      assert ids + AgentIds(staged) == ids && landed + staged == landed;
    } else {
      var n := |staged| - 1;
      NamesGrow(ids, landed, from, staged[..n]);
      NamesPush(ids + AgentIds(staged[..n]), landed + staged[..n], from, staged[n]);
      assert landed + staged == landed + staged[..n] + [staged[n]];
      assert ids + AgentIds(staged) == ids + AgentIds(staged[..n]) + [staged[n].agentId];
    }
  }

  lemma NamesPush(ids: seq<string>, landed: seq<Request>, from: nat, r: Request)
    requires ids in Naming(landed, from)
    ensures ids + [r.agentId] in Naming(landed + [r], from)
  {
    NamesReach(ids, landed, from);
    assert (landed + [r])[..|landed|] == landed && (ids + [r.agentId])[..|ids|] == ids;
  }

  lemma {:induction false} NamesReach(ids: seq<string>, landed: seq<Request>, from: nat)
    requires ids in Naming(landed, from)
    ensures from <= |landed| && ids == AgentIds(landed[from..])
    decreases |landed|
  {
    if |landed| > from {
      var n := |landed| - 1;
      NamesReach(ids[..|ids| - 1], landed[..n], from);
      assert landed[from..][..n - from] == landed[..n][from..];
      assert ids == ids[..|ids| - 1] + [ids[|ids| - 1]];
    }
  }
}
