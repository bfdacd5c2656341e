/**
 The runner that dispatches ready tasks to a pool of agents, core/coordination/dag_runner.py and
 core/coordination/executor.py. Between two awaits a coroutine runs alone; at an await any others may run.
 */
module DagRunners {
  import opened Wrappers
  import opened Sequences
  import opened AgentPools
  import opened ItemTrackers

  /** One `_execute_and_handle` in the event loop, and the agents its run has checked out. */
  datatype Coroutine = Coroutine(task: string, started: bool, agents: seq<string>)

  /** The coroutines that are in the event loop, by the number of their dispatch. */
  type EventLoop = map<nat, Coroutine>

  function Tasks(loop: EventLoop): set<string> {
    set s | s in loop :: loop[s].task
  }

  ghost predicate Below(numbers: set<nat>, n: nat) {
    forall s :: s in numbers ==> s < n
  }

  /** No two coroutines are for the same task. */
  ghost predicate DifferentTasks(loop: EventLoop) {
    forall s, t :: s in loop && t in loop && s != t ==> loop[s].task != loop[t].task
  }

  ghost function Held(loop: EventLoop): set<string> {
    set s, a | s in loop && a in Elements(loop[s].agents) :: a
  }

  /**
   `running` is just what is in flight, no task twice; and of the dispatches so far each is either in
   flight or has had its result recorded, once.
   */
  ghost predicate InFlight(loop: EventLoop, running: set<string>, dispatches: nat, recorded: seq<nat>) {
    && running == Tasks(loop)
    && DifferentTasks(loop)
    && NoDup(recorded)
    && Elements(recorded) !! loop.Keys
    && Below(Elements(recorded), dispatches) && Below(loop.Keys, dispatches)
    && |loop| + |recorded| == dispatches
  }

  /** The busy agents are those held by the coroutines in flight, none by two, and those that leaked. */
  ghost predicate HoldsBusy(loop: EventLoop, busy: set<string>, leaked: set<string>) {
    && (forall s, t :: s in loop && t in loop && s != t ==> Elements(loop[s].agents) !! Elements(loop[t].agents))
    && (forall s :: s in loop && !loop[s].started ==> loop[s].agents == [])
    && Held(loop) !! leaked
    && busy == Held(loop) + leaked
  }

  lemma {:induction false} HeldWith(loop: EventLoop, s: nat, c: Coroutine)
    requires s in loop ==> loop[s].agents == []
    ensures Held(loop[s := c]) == Held(loop) + Elements(c.agents)
  {
    var loop' := loop[s := c];
    forall a ensures a in Held(loop') <==> a in Held(loop) || a in Elements(c.agents) {
      if a in Held(loop') {
        var t :| t in loop' && a in Elements(loop'[t].agents);
        assert t == s || (t in loop && loop[t] == loop'[t]);
      }
      if a in Held(loop) {
        var t :| t in loop && a in Elements(loop[t].agents);
        assert t in loop' && loop'[t] == loop[t];
      }
      if a in Elements(c.agents) {
        assert s in loop' && loop'[s] == c;
      }
    }
  }

  lemma {:induction false} HeldWithout(loop: EventLoop, s: nat)
    requires s in loop
    requires forall t :: t in loop && t != s ==> Elements(loop[s].agents) !! Elements(loop[t].agents)
    ensures Held(loop - {s}) == Held(loop) - Elements(loop[s].agents)
  {
    var loop' := loop - {s};
    forall a ensures a in Held(loop') <==> a in Held(loop) && a !in Elements(loop[s].agents) {
      if a in Held(loop') {
        var t :| t in loop' && a in Elements(loop'[t].agents);
        assert t in loop && loop[t] == loop'[t];
      }
      if a in Held(loop) && a !in Elements(loop[s].agents) {
        var t :| t in loop && a in Elements(loop[t].agents);
        assert t in loop' && loop'[t] == loop[t];
      }
    }
  }

  lemma {:induction false} TasksAdded(loop: EventLoop, s: nat, c: Coroutine)
    requires s !in loop
    ensures Tasks(loop[s := c]) == Tasks(loop) + {c.task} && |loop[s := c]| == |loop| + 1
  {
    var loop' := loop[s := c];
    assert loop'.Keys == loop.Keys + {s};
    assert |loop'| == |loop'.Keys| && |loop| == |loop.Keys|;
    forall x ensures x in Tasks(loop') <==> x in Tasks(loop) || x == c.task {
      if x in Tasks(loop') {
        var t :| t in loop' && loop'[t].task == x;
        assert t == s || (t in loop && loop[t] == loop'[t]);
      }
      if x in Tasks(loop) {
        var t :| t in loop && loop[t].task == x;
        assert t in loop' && loop'[t].task == x;
      }
      assert s in loop' && loop'[s].task == c.task;
    }
  }

  lemma {:induction false} DifferentTasksAdded(loop: EventLoop, s: nat, c: Coroutine)
    requires DifferentTasks(loop) && s !in loop && c.task !in Tasks(loop)
    ensures DifferentTasks(loop[s := c])
  {
    var loop' := loop[s := c];
    forall t, u | t in loop' && u in loop' && t != u ensures loop'[t].task != loop'[u].task {
      if t in loop {
        assert loop[t].task in Tasks(loop);
      }
      if u in loop {
        assert loop[u].task in Tasks(loop);
      }
    }
  }

  lemma {:induction false} TasksSame(loop: EventLoop, s: nat, c: Coroutine)
    requires s in loop && loop[s].task == c.task
    ensures Tasks(loop[s := c]) == Tasks(loop) && |loop[s := c]| == |loop|
  {
    var loop' := loop[s := c];
    assert loop'.Keys == loop.Keys;
    assert |loop'| == |loop'.Keys| && |loop| == |loop.Keys|;
    forall x ensures x in Tasks(loop') <==> x in Tasks(loop) {
      if x in Tasks(loop') {
        var t :| t in loop' && loop'[t].task == x;
        assert t in loop && loop[t].task == x;
      }
      if x in Tasks(loop) {
        var t :| t in loop && loop[t].task == x;
        assert t in loop' && loop'[t].task == x;
      }
    }
  }

  lemma {:induction false} TasksWithout(loop: EventLoop, s: nat)
    requires s in loop
    requires forall t :: t in loop && t != s ==> loop[t].task != loop[s].task
    ensures Tasks(loop - {s}) == Tasks(loop) - {loop[s].task} && |loop - {s}| == |loop| - 1
  {
    var loop' := loop - {s};
    assert loop'.Keys == loop.Keys - {s};
    assert |loop'| == |loop'.Keys| && |loop| == |loop.Keys|;
    forall x ensures x in Tasks(loop') <==> x in Tasks(loop) && x != loop[s].task {
      if x in Tasks(loop') {
        var t :| t in loop' && loop'[t].task == x;
        assert t in loop && loop[t] == loop'[t];
      }
      if x in Tasks(loop) && x != loop[s].task {
        var t :| t in loop && loop[t].task == x;
        assert t in loop' && loop'[t].task == x;
      }
    }
  }

  lemma {:induction false} DispatchKeepsFlight(loop: EventLoop, running: set<string>, dispatches: nat,
                                               recorded: seq<nat>,
                                               task: string)
    requires InFlight(loop, running, dispatches, recorded) && task !in running
    ensures InFlight(loop[dispatches := Coroutine(task, false, [])], running + {task}, dispatches + 1, recorded)
  {
    var c := Coroutine(task, false, []);
    TasksAdded(loop, dispatches, c);
    DifferentTasksAdded(loop, dispatches, c);
    assert loop[dispatches := c].Keys == loop.Keys + {dispatches};
  }

  lemma {:induction false} DispatchKeepsAgents(loop: EventLoop, busy: set<string>, leaked: set<string>, s: nat,
                                               task: string)
    requires HoldsBusy(loop, busy, leaked) && s !in loop
    ensures HoldsBusy(loop[s := Coroutine(task, false, [])], busy, leaked)
  {
    HeldWith(loop, s, Coroutine(task, false, []));
  }

  lemma {:induction false} StartKeepsFlight(loop: EventLoop, running: set<string>, dispatches: nat, recorded: seq<nat>,
                                            s: nat, agents: seq<string>)
    requires InFlight(loop, running, dispatches, recorded) && s in loop
    ensures InFlight(loop[s := Coroutine(loop[s].task, true, agents)], running, dispatches, recorded)
  {
    TasksSame(loop, s, Coroutine(loop[s].task, true, agents));
  }

  lemma {:induction false} StartKeepsAgents(loop: EventLoop, busy: set<string>, leaked: set<string>, s: nat,
                                            agents: seq<string>)
    requires HoldsBusy(loop, busy, leaked) && s in loop && loop[s].agents == [] && Elements(agents) !! busy
    ensures HoldsBusy(loop[s := Coroutine(loop[s].task, true, agents)], busy + Elements(agents), leaked)
  {
    HeldWith(loop, s, Coroutine(loop[s].task, true, agents));
    forall t | t in loop && t != s ensures Elements(loop[t].agents) !! Elements(agents) {
      forall a | a in Elements(loop[t].agents) ensures a in busy {
        assert a in Held(loop);
      }
    }
  }

  /** Agents that are checked out and not checked in any more leak. */
  lemma {:induction false} LeakKeepsAgents(loop: EventLoop, busy: set<string>, leaked: set<string>, agents: seq<string>)
    requires HoldsBusy(loop, busy, leaked) && Elements(agents) !! busy
    ensures HoldsBusy(loop, busy + Elements(agents), leaked + Elements(agents))
  {
  }

  lemma {:induction false} FinishKeepsFlight(loop: EventLoop, running: set<string>, dispatches: nat,
                                             recorded: seq<nat>, s: nat)
    requires InFlight(loop, running, dispatches, recorded) && s in loop
    ensures InFlight(loop - {s}, running - {loop[s].task}, dispatches, recorded + [s])
  {
    TasksWithout(loop, s);
    NoDupPush(recorded, s);
    ElementsPush(recorded, s);
  }

  lemma {:induction false} FinishKeepsAgents(loop: EventLoop, busy: set<string>, leaked: set<string>, s: nat)
    requires HoldsBusy(loop, busy, leaked) && s in loop
    ensures HoldsBusy(loop - {s}, busy - Elements(loop[s].agents), leaked)
  {
    HeldWithout(loop, s);
    forall a | a in Elements(loop[s].agents) ensures a in Held(loop) {
    }
  }

  lemma {:induction false} NoTasks(loop: EventLoop)
    ensures Tasks(loop) == {} <==> loop == map[]
  {
    if loop != map[] {
      var s :| s in loop;
      assert loop[s].task in Tasks(loop);
    }
  }

  lemma {:induction false} AllRecorded(recorded: seq<nat>, dispatches: nat)
    requires NoDup(recorded) && |recorded| == dispatches && Below(Elements(recorded), dispatches)
    ensures Elements(recorded) == Numbers(dispatches)
  {
    NoDupSize(recorded);
    NumbersSize(dispatches);
    SubsetSize(Elements(recorded), Numbers(dispatches));
  }

  /** When nothing is in flight, every dispatch has had its one result and only leaked agents are busy. */
  lemma {:induction false} NothingInFlight(loop: EventLoop, running: set<string>, dispatches: nat, recorded: seq<nat>,
                                           busy: set<string>, leaked: set<string>)
    requires InFlight(loop, running, dispatches, recorded) && HoldsBusy(loop, busy, leaked)
    ensures running == {} <==> loop == map[]
    ensures running == {} ==> NoDup(recorded) && Elements(recorded) == Numbers(dispatches) && busy == leaked
  {
    NoTasks(loop);
    if loop == map[] {
      assert |loop| == 0;
      AllRecorded(recorded, dispatches);
      assert Held(loop) == {};
    }
  }

  /** What the runner keeps track of. */
  datatype RunnerState = RunnerState(
    loop: EventLoop,
    running: set<string>,
    dispatches: nat,
    recorded: seq<nat>,     // the dispatches whose result was recorded, in order
    busy: set<string>,
    leaked: set<string>,    // agents checked out by runs that never checked them in
    failedCallbacks: nat)   // how often `on_dispatched` raised

  /** The invariant of every run of the runner, as the set of states in which it holds. */
  ghost function Sound(): iset<RunnerState> {
    iset v: RunnerState |
      && InFlight(v.loop, v.running, v.dispatches, v.recorded)
      && HoldsBusy(v.loop, v.busy, v.leaked)
      && (v.leaked == {} <==> v.failedCallbacks == 0)
  }

  lemma {:induction false} DispatchIsSound(v: RunnerState, task: string)
    requires v in Sound() && task !in v.running
    ensures v.(loop := v.loop[v.dispatches := Coroutine(task, false, [])], running := v.running + {task},
               dispatches := v.dispatches + 1) in Sound()
  {
    DispatchKeepsFlight(v.loop, v.running, v.dispatches, v.recorded, task);
    DispatchKeepsAgents(v.loop, v.busy, v.leaked, v.dispatches, task);
  }

  lemma {:induction false} StartIsSound(v: RunnerState, s: nat, agents: seq<string>)
    requires v in Sound() && s in v.loop && !v.loop[s].started && Elements(agents) !! v.busy
    ensures Started(v, s, agents) in Sound()
  {
    StartKeepsFlight(v.loop, v.running, v.dispatches, v.recorded, s, agents);
    StartKeepsAgents(v.loop, v.busy, v.leaked, s, agents);
  }

  /** Agents that were checked out for a run that did not start stay checked out. */
  lemma {:induction false} LeakIsSound(v: RunnerState, agents: seq<string>)
    requires v in Sound() && Elements(agents) !! v.busy
    ensures Leaked(v, agents) in Sound()
  {
    LeakKeepsAgents(v.loop, v.busy, v.leaked, agents);
    if agents != [] {
      assert agents[|agents| - 1] in Elements(agents);
    }
  }

  /** The result of the coroutine is recorded, its task is not running any more and its agents are idle again. */
  ghost function Finished(v: RunnerState, s: nat): RunnerState
    requires s in v.loop
  {
    v.(loop := v.loop - {s}, running := v.running - {v.loop[s].task}, recorded := v.recorded + [s],
       busy := v.busy - Elements(v.loop[s].agents))
  }

  lemma {:induction false} FinishIsSound(v: RunnerState, s: nat)
    requires v in Sound() && s in v.loop
    ensures Finished(v, s) in Sound()
    ensures !v.loop[s].started ==> v.busy - Elements(v.loop[s].agents) == v.busy
  {
    FinishKeepsFlight(v.loop, v.running, v.dispatches, v.recorded, s);
    FinishKeepsAgents(v.loop, v.busy, v.leaked, s);
  }

  /** The run holds its agents from now on. */
  ghost function Started(v: RunnerState, s: nat, agents: seq<string>): RunnerState
    requires s in v.loop
  {
    v.(loop := v.loop[s := Coroutine(v.loop[s].task, true, agents)], busy := v.busy + Elements(agents))
  }

  /** Agents that were checked out and will not be checked in. */
  ghost function Leaked(v: RunnerState, agents: seq<string>): RunnerState {
    v.(busy := v.busy + Elements(agents), leaked := v.leaked + Elements(agents),
       failedCallbacks := v.failedCallbacks + if agents == [] then 0 else 1)
  }

  /** The run holds its agents from now on, or ends at once and leaves them checked out. */
  ghost function Begun(v: RunnerState, s: nat, agents: seq<string>, starts: bool): RunnerState
    requires s in v.loop
  {
    if starts then Started(v, s, agents) else Finished(Leaked(v, agents), s)
  }

  /** When nothing is running, all is settled. */
  lemma {:induction false} IdleIsSettled(v: RunnerState)
    requires v in Sound()
    ensures v.running == {} <==> v.loop == map[]
    ensures v.running == {} ==> NoDup(v.recorded) && Elements(v.recorded) == Numbers(v.dispatches) && v.busy == v.leaked
    ensures v.leaked == {} <==> v.failedCallbacks == 0
  {
    NothingInFlight(v.loop, v.running, v.dispatches, v.recorded, v.busy, v.leaked);
  }

  function FirstOf(ready: seq<string>, n: nat): set<string>
    requires n <= |ready|
  {
    if n == 0 then {} else FirstOf(ready, n - 1) + {ready[n - 1]}
  }

  lemma {:induction false} FirstOfIs(ready: seq<string>, n: nat)
    requires n <= |ready|
    ensures FirstOf(ready, n) == Elements(ready[..n])
  {
    if n > 0 {
      FirstOfIs(ready, n - 1);
      UpTo(ready, n - 1);
    }
  }

  /** What is running once the first `n` of the selected tasks have been dispatched, as a set of such sets. */
  ghost function DispatchedTo(before: set<string>, ready: seq<string>, n: nat): iset<set<string>> {
    if n <= |ready| then iset{before + FirstOf(ready, n)} else iset{}
  }

  lemma {:induction false} DispatchedNone(before: set<string>, ready: seq<string>)
    ensures before in DispatchedTo(before, ready, 0)
  {
    assert before + FirstOf(ready, 0) == before;
  }

  lemma {:induction false} DispatchedNext(before: set<string>, running: set<string>, ready: seq<string>, n: nat)
    requires n < |ready| && running in DispatchedTo(before, ready, n) && NoDup(ready) && Elements(ready) !! before
    ensures ready[n] !in running && running + {ready[n]} in DispatchedTo(before, ready, n + 1)
  {
    FirstOfIs(ready, n);
    UpTo(ready, n);
    assert running + {ready[n]} == before + FirstOf(ready, n + 1);
  }

  /** With a slot all was dispatched, and without one nothing. */
  lemma {:induction false} DispatchedEnd(before: set<string>, running: set<string>, ready: seq<string>, n: nat,
                                         slot: bool, all: set<string>)
    requires n == (if slot then |ready| else 0) && running in DispatchedTo(before, ready, n)
    requires Elements(ready) == all - before
    ensures running == if slot then before + all else before
    ensures n == 0 ==> running == before
  {
    FirstOfIs(ready, n);
    assert ready[..n] == if slot then ready else [];
    assert before + (all - before) == before + all;
    if n == 0 {
      assert before + {} == before;
    }
  }

  /** The statuses after a task got a new one; tasks that are not known are not added. */
  function Resulting(status: map<string, Status>, task: string, s: Status): map<string, Status> {
    if task in status then status[task := s] else status
  }

  /**
   One turn of the main loop: the orchestrator was busy, nothing was pending, or what was ready, whether there
   was a slot, and what was in flight afterwards.
   */
  datatype Round = Busy | NothingPending | Round(ready: set<string>, slot: bool, running: set<string>)

  /** With a slot, everything that was ready is in flight. */
  predicate IsServed(round: Round) {
    round.Round? && round.slot ==> round.ready <= round.running
  }

  /** So many rounds more, in each of which what was ready was served. */
  ghost function ServedSince(before: seq<Round>, n: nat): iset<seq<Round>> {
    iset rounds: seq<Round> |
      && before <= rounds && |rounds| == |before| + n
      && forall k :: |before| <= k < |rounds| ==> IsServed(rounds[k])
  }

  lemma {:induction false} ServedNext(before: seq<Round>, n: nat, rounds: seq<Round>, rounds': seq<Round>)
    requires rounds in ServedSince(before, n)
    requires |rounds'| == |rounds| + 1 && rounds'[..|rounds|] == rounds && IsServed(rounds'[|rounds|])
    ensures rounds' in ServedSince(before, n + 1)
  {
    assert forall k :: 0 <= k < |rounds| ==> rounds'[k] == rounds[k];
  }

  datatype DispatchStatus = AlreadyRunning | NotReady | NoSlots | Dispatched

  /** How often `size` goes into `n`. */
  function Slots(n: nat, size: nat): (slots: nat)
    requires size > 0
    ensures slots > 0 <==> n >= size
  {
    if n < size then 0 else 1 + Slots(n - size, size)
  }

  lemma {:induction false} SlotsIsQuotient(n: nat, size: nat)
    requires size > 0
    ensures Slots(n, size) * size <= n < Slots(n, size) * size + size
  {
    if n >= size {
      var slots := Slots(n - size, size);
      SlotsIsQuotient(n - size, size);
      assert (1 + slots) * size == slots * size + size;
    }
  }

  /** Runs tasks against a pool of agents. */
  class LocalExecutor {
    const pool: AgentPool
    const agentsPerTask: nat

    constructor (pool: AgentPool, agentsPerTask: nat)
      requires agentsPerTask > 0
      ensures this.pool == pool && this.agentsPerTask == agentsPerTask
    {
      this.pool, this.agentsPerTask := pool, agentsPerTask;
    }

    /** Whether there is a slot: enough idle agents for one more task. */
    function AvailableSlots(): (slots: nat)
      requires agentsPerTask > 0
      reads pool
      ensures slots > 0 <==> |pool.Available()| >= agentsPerTask
    {
      Slots(|pool.Available()|, agentsPerTask)
    }
  }

  class DAGRunner {
    const dag: ItemTracker
    const executor: LocalExecutor
    const autoDispatchFlavors: Option<set<string>>
    const flavorOf: string -> string
    var running: set<string>
    var loop: EventLoop
    var dispatches: nat
    ghost var recorded: seq<nat>
    ghost var leaked: set<string>
    ghost var failedCallbacks: nat
    ghost var rounds: seq<Round>

    ghost function View(): RunnerState
      reads this, executor.pool
    {
      RunnerState(loop, running, dispatches, recorded, executor.pool.busy, leaked, failedCallbacks)
    }

    ghost predicate Valid()
      reads this, executor.pool
    {
      executor.agentsPerTask > 0 && View() in Sound()
    }

    constructor (dag: ItemTracker, executor: LocalExecutor, autoDispatchFlavors: Option<set<string>>,
                 flavorOf: string -> string)
      requires executor.agentsPerTask > 0 && executor.pool.busy == {}
      ensures Valid() && running == {} && this.dag == dag && this.executor == executor && rounds == []
    {
      this.dag, this.executor, this.autoDispatchFlavors, this.flavorOf := dag, executor, autoDispatchFlavors, flavorOf;
      running, loop, dispatches, recorded, leaked, failedCallbacks, rounds := {}, map[], 0, [], {}, 0, [];
    }

    method DispatchOne(task: string)
      requires Valid() && task !in running
      modifies this`running, this`loop, this`dispatches
      ensures Valid() && running == old(running) + {task} && dispatches == old(dispatches) + 1
      ensures loop == old(loop)[old(dispatches) := Coroutine(task, false, [])]
    {
      DispatchIsSound(View(), task);
      running := running + {task};
      loop := loop[dispatches := Coroutine(task, false, [])];
      dispatches := dispatches + 1;
    }

    /** Only tasks of these flavors are dispatched without being asked for. */
    predicate MayDispatch(id: string) {
      autoDispatchFlavors == None || flavorOf(id) in autoDispatchFlavors.value
    }

    /** The tasks that are ready and of a flavor that is dispatched without being asked for. */
    ghost function Dispatchable(): (ids: set<string>)
      reads dag
      ensures forall id :: id in ids <==>
                dag.IsReady(id) && (autoDispatchFlavors == None || flavorOf(id) in autoDispatchFlavors.value)
    {
      set id | id in dag.status && dag.IsReady(id) && MayDispatch(id)
    }

    /** The ready tasks that are not in flight and may be dispatched without being asked for. */
    method SelectReady() returns (selected: seq<string>)
      ensures NoDup(selected) && Elements(selected) !! running
      ensures forall id :: id in Elements(selected) ==> dag.IsReady(id) && MayDispatch(id)
      ensures forall id :: dag.IsReady(id) && id !in running && MayDispatch(id) ==> id in Elements(selected)
    {
      var ready := dag.Ready();
      selected := [];
      for i := 0 to |ready|
        invariant NoDup(selected) && Elements(selected) !! running && Elements(selected) <= Elements(ready[..i])
        invariant forall id :: id in Elements(selected) ==> MayDispatch(id)
        invariant forall id :: id in Elements(ready[..i]) && id !in running && MayDispatch(id) ==>
                  id in Elements(selected)
      {
        UpTo(ready, i);
        if ready[i] !in running && MayDispatch(ready[i]) {
          NoDupPush(selected, ready[i]);
          ElementsPush(selected, ready[i]);
          selected := selected + [ready[i]];
        }
      }
      assert ready[..|ready|] == ready;
    }

    /** Dispatches all ready tasks that are not running, for as long as there are slots. */
    method DispatchReady() returns (dispatched: nat)
      requires Valid()
      modifies this`running, this`loop, this`dispatches, this`rounds
      ensures Valid() && dispatches == old(dispatches) + dispatched
      ensures running == if executor.AvailableSlots() > 0 then old(running) + Dispatchable() else old(running)
      ensures executor.AvailableSlots() == 0 ==> dispatched == 0
      ensures dispatched == 0 ==> running == old(running)
      ensures rounds == old(rounds) + [Round(Dispatchable(), executor.AvailableSlots() > 0, running)]
    {
      var ready := SelectReady();
      ghost var dispatchable := Dispatchable();
      assert Elements(ready) == dispatchable - running;
      dispatched := DispatchAll(ready);
      DispatchedEnd(old(running), running, ready, dispatched, executor.AvailableSlots() > 0, dispatchable);
      NoteRound();
    }

    ghost method NoteRound()
      requires executor.agentsPerTask > 0
      modifies this`rounds
      ensures rounds == old(rounds) + [Round(Dispatchable(), executor.AvailableSlots() > 0, running)]
    {
      rounds := rounds + [Round(Dispatchable(), executor.AvailableSlots() > 0, running)];
    }

    /** Dispatches the selected tasks in order; without a slot, none. */
    method DispatchAll(ready: seq<string>) returns (dispatched: nat)
      requires Valid() && NoDup(ready) && Elements(ready) !! running
      modifies this`running, this`loop, this`dispatches
      ensures Valid() && dispatched <= |ready| && dispatches == old(dispatches) + dispatched
      ensures running in DispatchedTo(old(running), ready, dispatched)
      ensures dispatched == if executor.AvailableSlots() > 0 then |ready| else 0
    {
      dispatched := 0;
      DispatchedNone(running, ready);
      while dispatched < |ready|
        invariant Valid() && dispatched <= |ready| && dispatches == old(dispatches) + dispatched
        invariant running in DispatchedTo(old(running), ready, dispatched)
        invariant dispatched > 0 ==> executor.AvailableSlots() > 0
      {
        if executor.AvailableSlots() <= 0 {
          break;
        }
        DispatchedNext(old(running), running, ready, dispatched);
        DispatchOne(ready[dispatched]);
        dispatched := dispatched + 1;
      }
    }

    /** Dispatches one task if it is ready, not running, and there is a slot. */
    method DispatchTask(task: string) returns (status: DispatchStatus)
      requires Valid()
      modifies this`running, this`loop, this`dispatches
      ensures Valid()
      ensures status == if task in old(running) then AlreadyRunning
                        else if !dag.IsReady(task) then NotReady
                        else if |executor.pool.Available()| < executor.agentsPerTask then NoSlots
                        else Dispatched
      ensures running == if status == Dispatched then old(running) + {task} else old(running)
      ensures dispatches == if status == Dispatched then old(dispatches) + 1 else old(dispatches)
    {
      if task in running {
        return AlreadyRunning;
      }
      if !dag.IsReady(task) {
        return NotReady;
      }
      if executor.AvailableSlots() <= 0 {
        return NoSlots;
      }
      DispatchOne(task);
      status := Dispatched;
    }

    /**
     The coroutine of dispatch `s` runs up to its first await: it checks agents out, or fails at once if there
     are none. If the callback that marks the task raises, the agents are not checked in again.
     */
    method StartCoroutine(s: nat) returns (raised: bool, agents: seq<string>)
      requires Valid() && s in loop && !loop[s].started
      modifies this`loop, this`leaked, this`running, this`recorded, this`failedCallbacks, dag, executor.pool
      ensures Valid()
      ensures agents == Front(old(executor.pool.Available()), executor.agentsPerTask)
      ensures agents == [] ==> !raised
      ensures View() == Begun(old(View()), s, agents, agents != [] && !raised)
      ensures dag.status == Resulting(old(dag.status), old(loop)[s].task,
                                      if agents != [] && !raised then InProgress else Failed)
    {
      ghost var v := View();
      agents := CheckoutAgents();
      raised := BeginRun(s, agents, v);
    }

    method CheckoutAgents() returns (agents: seq<string>)
      modifies executor.pool
      ensures agents == Front(old(executor.pool.Available()), executor.agentsPerTask)
      ensures Elements(agents) !! old(executor.pool.busy)
      ensures View() == old(View()).(busy := old(executor.pool.busy) + Elements(agents))
    {
      agents := executor.pool.Checkout(executor.agentsPerTask);
    }

    /** The callback is called if agents were checked out; `v` is the state before that. */
    method BeginRun(s: nat, agents: seq<string>, ghost v: RunnerState) returns (raised: bool)
      requires v in Sound() && s in v.loop && !v.loop[s].started && Elements(agents) !! v.busy
      requires executor.agentsPerTask > 0 && View() == v.(busy := v.busy + Elements(agents))
      modifies this`loop, this`leaked, this`running, this`recorded, this`failedCallbacks, dag
      ensures Valid() && (agents == [] ==> !raised)
      ensures View() == Begun(v, s, agents, agents != [] && !raised)
      ensures dag.status == Resulting(old(dag.status), v.loop[s].task,
                                      if agents != [] && !raised then InProgress else Failed)
    {
      if agents == [] {
        FailToStart(s, agents, v);
        return false;
      }
      raised := OnDispatched(loop[s].task);
      if raised {
        FailToStart(s, agents, v);
      } else {
        HoldAgents(s, agents, v);
      }
    }

    /** The run holds these agents from now on; `v` is the state before it checked them out. */
    method HoldAgents(s: nat, agents: seq<string>, ghost v: RunnerState)
      requires v in Sound() && s in v.loop && !v.loop[s].started && Elements(agents) !! v.busy
      requires executor.agentsPerTask > 0 && View() == v.(busy := v.busy + Elements(agents))
      modifies this`loop
      ensures Valid() && View() == Started(v, s, agents)
    {
      StartIsSound(v, s, agents);
      loop := loop[s := Coroutine(loop[s].task, true, agents)];
    }

    /** The run ends at once; `v` is the state before it checked out these agents, which it does not check in. */
    method FailToStart(s: nat, agents: seq<string>, ghost v: RunnerState)
      requires v in Sound() && s in v.loop && !v.loop[s].started && Elements(agents) !! v.busy
      requires executor.agentsPerTask > 0 && View() == Leaked(v, agents).(leaked := v.leaked)
      modifies this`leaked, this`running, this`loop, this`recorded, dag
      ensures Valid() && View() == Finished(Leaked(v, agents), s)
      ensures dag.status == Resulting(old(dag.status), v.loop[s].task, Failed)
    {
      LeakIsSound(v, agents);
      leaked := leaked + Elements(agents);
      HandleResult(s, false);
    }

    /** The callback that marks the task as in progress, unless it raises. */
    method OnDispatched(task: string) returns (raised: bool)
      modifies this`failedCallbacks, dag
      ensures failedCallbacks == if raised then old(failedCallbacks) + 1 else old(failedCallbacks)
      ensures dag.status == if raised then old(dag.status) else Resulting(old(dag.status), task, InProgress)
    {
      raised := *;
      if raised {
        failedCallbacks := failedCallbacks + 1;
      } else {
        dag.MarkInProgress(task);
      }
    }

    /**
     The run of dispatch `s` returns with this success, or raises, which is none: the agents are checked in and
     the result is recorded.
     */
    method FinishCoroutine(s: nat, success: bool)
      requires Valid() && s in loop && loop[s].started
      modifies this`loop, this`running, this`recorded, dag, executor.pool
      ensures Valid() && View() == Finished(old(View()), s)
      ensures dag.status == Resulting(old(dag.status), old(loop)[s].task, if success then Completed else Failed)
    {
      FinishIsSound(View(), s);
      executor.pool.Checkin(loop[s].agents);
      var task := loop[s].task;
      running, loop, recorded := running - {task}, loop - {s}, recorded + [s];
      dag.RecordResult(task, success);
    }

    /** The end of `_execute_and_handle` for a run that did not start. */
    method HandleResult(s: nat, success: bool)
      requires Valid() && s in loop && !loop[s].started
      modifies this`running, this`loop, this`recorded, dag
      ensures Valid() && View() == Finished(old(View()), s)
      ensures dag.status == Resulting(old(dag.status), old(loop)[s].task, if success then Completed else Failed)
    {
      FinishIsSound(View(), s);
      var task := loop[s].task;
      running, loop, recorded := running - {task}, loop - {s}, recorded + [s];
      dag.RecordResult(task, success);
    }

    /** One step of some other coroutine: a task starts or finishes, or the orchestrator acts. */
    method OtherStep()
      requires Valid()
      modifies this`loop, this`leaked, this`running, this`recorded, this`failedCallbacks, this`dispatches
      modifies dag, executor.pool
      ensures Valid() && dispatches >= old(dispatches)
    {
      var s: nat :| true;
      if s in loop {
        if loop[s].started {
          var success: bool := *;
          FinishCoroutine(s, success);
        } else {
          var _, _ := StartCoroutine(s);
        }
      } else {
        var dispatching: bool := *;
        if dispatching {
          var task: string := *;
          var _ := DispatchTask(task);
        } else {
          dag.status, dag.dependsOn, dag.attempts := *, *, *;
        }
      }
    }

    /** An await: any number of steps of other coroutines. */
    method Await()
      requires Valid()
      modifies this`loop, this`leaked, this`running, this`recorded, this`failedCallbacks, this`dispatches
      modifies dag, executor.pool
      ensures Valid() && dispatches >= old(dispatches)
    {
      var steps: nat :| true;
      for i := 0 to steps
        invariant Valid() && dispatches >= old(dispatches)
      {
        OtherStep();
      }
    }

    method OrchestratorBusy() returns (busy: bool)
      modifies this`rounds
      ensures rounds == if busy then old(rounds) + [Busy] else old(rounds)
    {
      busy := *;
      if busy {
        rounds := rounds + [Busy];
      }
    }

    /** Nothing is left to do; a continuous runner sleeps. */
    ghost method NoteNothingPending()
      requires !dag.HasPending() && running == {}
      modifies this`rounds
      ensures rounds == old(rounds) + [NothingPending]
    {
      rounds := rounds + [NothingPending];
    }

    /** One turn of the main loop; it ends the run if nothing is left to do, or nothing that can be done. */
    method Poll(continuous: bool) returns (finished: bool)
      requires Valid()
      modifies this, dag, executor.pool
      ensures Valid() && dispatches >= old(dispatches)
      ensures |rounds| == |old(rounds)| + 1 && rounds[..|old(rounds)|] == old(rounds)
      ensures IsServed(rounds[|old(rounds)|])
      ensures finished ==> !continuous && running == {} && forall id :: !dag.IsReady(id)
    {
      Await();
      var orchestratorBusy := OrchestratorBusy();
      if orchestratorBusy {
        Await();
        return false;
      }
      if !dag.HasPending() && running == {} {
        NoteNothingPending();
        if !continuous {
          return true;
        }
        Await();
        return false;
      }
      var dispatched := DispatchReady();
      if dispatched == 0 && running == {} {
        var ready := dag.Ready();
        if ready == [] && dag.HasPending() && !continuous {
          return true;
        }
      }
      Await();
      finished := false;
    }

    /**
     The main loop, for any number of polls. In each of them either the orchestrator is busy, or nothing is
     pending, or all that is ready and may be dispatched is in flight if there was a slot. If it returns by
     itself, nothing is in flight, nothing is ready, every dispatch has had exactly one result, and unless a
     callback raised all agents are idle.
     */
    method Run(continuous: bool, polls: nat) returns (finished: bool)
      requires Valid()
      modifies this, dag, executor.pool
      ensures Valid() && dispatches >= old(dispatches)
      ensures exists n: nat :: n <= polls && (finished || n == polls) && rounds in ServedSince(old(rounds), n)
      ensures finished ==> !continuous && running == {} && loop == map[]
      ensures finished ==> forall id :: !dag.IsReady(id)
      ensures finished ==> NoDup(recorded) && Elements(recorded) == Numbers(dispatches)
      ensures finished && failedCallbacks == 0 ==> executor.pool.busy == {}
    {
      for i := 0 to polls
        invariant Valid() && dispatches >= old(dispatches)
        invariant rounds in ServedSince(old(rounds), i)
      {
        ghost var before := rounds;
        finished := Poll(continuous);
        ServedNext(old(rounds), i, before, rounds);
        if finished {
          IdleIsSettled(View());
          return;
        }
      }
      finished := false;
    }
  }
}
