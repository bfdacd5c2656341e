/** The agent's loop over LLM turns and tool calls, core/agent/loop.py. */
module Agents {
  import opened Wrappers
  import opened Sequences
  import opened Protocol
  import opened Conversations
  import opened OpenAIInferences
  import ToolRuntimes
  import ResultBudget

  const MAX_OUTPUT_RECOVERY: nat := 3
  const MAX_REACTIVE_COMPACTIONS: nat := 2

  const MALFORMED_RESULT: string := "Malformed arguments - tool call was not executed."
  const CONTINUE_REQUEST: string := "Your output was cut off due to token limits. Continue exactly where you left off."
  const SUMMARIZER_PROMPT: string := "You are a summarizer."

  function RetryRequest(calls: seq<ToolCall>): string {
    "Your tool call(s) (" + JoinedNames(calls) + ") had malformed arguments and could not be executed."
  }

  function JoinedNames(calls: seq<ToolCall>): string {
    if calls == [] then ""
    else if |calls| == 1 then calls[0].name
    else JoinedNames(calls[..|calls| - 1]) + ", " + calls[|calls| - 1].name
  }

  function MalformedResults(calls: seq<ToolCall>): seq<ToolResult> {
    seq(|calls|, i requires 0 <= i < |calls| => ToolResult(calls[i].id, MALFORMED_RESULT, calls[i].name, true))
  }

  /** The calls of this turn are not to be executed. */
  predicate IsBroken(r: TurnResult) {
    r.calls != [] && (r.cutOff || exists i :: 0 <= i < |r.calls| && r.calls[i].truncated)
  }

  /** The model has nothing left to do: it made no calls and was not cut off. */
  predicate IsFinal(reply: Reply) {
    reply.Turn? && reply.result.calls == [] && !reply.result.cutOff
  }

  /** The calls of a turn, but for a broken one. */
  function CallsToRun(reply: Reply): seq<ToolCall> {
    if reply.Turn? && !IsBroken(reply.result) then reply.result.calls else []
  }

  /** The calls that replies asked for, from index `from` on. */
  function CallsAsked(replies: seq<Reply>, from: nat): seq<ToolCall> {
    if |replies| <= from then []
    else
      CallsAsked(replies[..|replies| - 1], from) + CallsToRun(replies[|replies| - 1])
  }

  /** The reply makes no calls, and this is its text. */
  predicate Says(reply: Reply, text: string) {
    reply.Turn? && reply.result.calls == [] && reply.result.text == text
  }

  lemma {:induction false} ExecutedMore(a: seq<ToolCall>, b: seq<ToolCall>)
    ensures CallSet(a + b) == CallSet(a) + CallSet(b) && |a + b| == |a| + |b|
  {
  }

  lemma CallsAskedPush(replies: seq<Reply>, from: nat, reply: Reply)
    requires from <= |replies|
    ensures CallsAsked(replies + [reply], from) ==
            CallsAsked(replies, from) + CallsToRun(reply)
  {
    assert (replies + [reply])[..|replies|] == replies;
  }

  /** What a trace keeps of a conversation. */
  datatype Snapshot = Snapshot(messages: Messages, totalTurns: nat)

  datatype RunResult = Returned(text: string) | Raised

  datatype Compaction = Unchanged | Compacted(summary: string) | CompactionRaised

  /** The messages of an interactive queue, joined by blank lines. */
  function Joined(parts: seq<string>): string {
    if parts == [] then ""
    else if |parts| == 1 then parts[0]
    else Joined(parts[..|parts| - 1]) + "\n\n" + parts[|parts| - 1]
  }

  /** Every pending message is in what they are joined to; the last one ends it. */
  lemma {:induction false} JoinedHolds(parts: seq<string>, i: nat)
    requires i < |parts|
    ensures ResultBudget.Contains(Joined(parts), parts[i])
    ensures |Joined(parts)| >= |parts[|parts| - 1]|
    ensures Joined(parts)[|Joined(parts)| - |parts[|parts| - 1]|..] == parts[|parts| - 1]
  {
    var n := |parts| - 1;
    var front := if n == 0 then "" else Joined(parts[..n]) + "\n\n";
    assert Joined(parts) == front + parts[n] + [];
    if i == n {
      ResultBudget.ContainsMiddle(front, parts[n], []);
    } else {
      JoinedHolds(parts[..n], i);
      ResultBudget.ContainsExtended(Joined(parts[..n]), "\n\n", parts[i]);
      ResultBudget.ContainsExtended(front, parts[n], parts[i]);
    }
  }

  /** The histories from index `from` on were all well formed. */
  ghost predicate AllWellFormed(hs: seq<Messages>, from: nat) {
    |hs| <= from || (WellFormed(hs[|hs| - 1]) && AllWellFormed(hs[..|hs| - 1], from))
  }

  lemma AllWellFormedPush(hs: seq<Messages>, from: nat, h: Messages)
    requires AllWellFormed(hs, from) && WellFormed(h)
    ensures AllWellFormed(hs + [h], from)
  {
    assert (hs + [h])[..|hs|] == hs;
  }

  lemma {:induction false} AllWellFormedAt(hs: seq<Messages>, from: nat, i: nat)
    requires AllWellFormed(hs, from) && from <= i < |hs|
    ensures WellFormed(hs[i]) && Paired(hs[i])
  {
    if i == |hs| - 1 {
      WellFormedIsPaired(hs[i]);
    } else {
      AllWellFormedAt(hs[..|hs| - 1], from, i);
    }
  }

  /** The snapshots from index `from` on were taken with the history in step. */
  ghost predicate AllInStep(snapshots: seq<Snapshot>, from: nat) {
    |snapshots| <= from ||
    var n := |snapshots| - 1;
    Waiting(NonSystem(snapshots[n].messages)) != OutOfStep && AllInStep(snapshots[..n], from)
  }

  lemma AllInStepPush(snapshots: seq<Snapshot>, from: nat, s: Snapshot)
    requires AllInStep(snapshots, from) && Waiting(NonSystem(s.messages)) != OutOfStep
    ensures AllInStep(snapshots + [s], from)
  {
    assert (snapshots + [s])[..|snapshots|] == snapshots;
  }

  lemma {:induction false} AllInStepAt(snapshots: seq<Snapshot>, from: nat, i: nat)
    requires AllInStep(snapshots, from) && from <= i < |snapshots|
    ensures Waiting(NonSystem(snapshots[i].messages)) != OutOfStep
  {
    if i < |snapshots| - 1 {
      AllInStepAt(snapshots[..|snapshots| - 1], from, i);
    }
  }

  /** Every snapshot can be resumed from: what is left of it is well formed, ends cleanly and is as long as can be. */
  lemma {:induction false} SnapshotsRecover(snapshots: seq<Snapshot>, from: nat, i: nat)
    requires AllInStep(snapshots, from) && from <= i < |snapshots|
    ensures var h := NonSystem(snapshots[i].messages);
            var r := CleanedUp(h);
            && WellFormed(r) && r <= h
            && (r == [] || r[|r| - 1].Settles())
            && forall n :: |r| <= n < |h| ==> !h[n].Settles()
  {
    AllInStepAt(snapshots, from, i);
    var h := NonSystem(snapshots[i].messages);
    CleanedUpIsWellFormed(h);
    CleanedUpIsLongest(h);
  }

  /** A conversation in step, with these calls waiting, that a failed compaction cannot break. */
  ghost predicate Steady(systemPrompt: string, h: Messages, ids: seq<string>) {
    && NoSystem(h) && Waiting(h) == Waits(ids)
    && (systemPrompt == "" ==> h != [] && !h[0].HasCalls())
  }

  lemma SteadyPush(systemPrompt: string, h: Messages, ids: seq<string>, m: Message, ids': seq<string>)
    requires Steady(systemPrompt, h, ids) && !m.System? && Next(ids, m) == Waits(ids')
    ensures Steady(systemPrompt, h + [m], ids')
  {
    WaitingPush(h, m);
    assert (h + [m])[..|h|] == h;
  }

  lemma SteadyResults(systemPrompt: string, h: Messages, calls: seq<ToolCall>, results: seq<ToolResult>)
    requires Steady(systemPrompt, h, Ids(calls)) && |results| == |calls|
    requires forall i :: 0 <= i < |calls| ==> results[i].callId == calls[i].id
    ensures Steady(systemPrompt, h + ResultMessages(results), [])
  {
    ResultsSettle(h, Ids(calls), results);
    NoSystemResults(results);
    NoSystemConcat(h, ResultMessages(results));
  }

  lemma SteadySummarised(systemPrompt: string, h: Messages, summary: string)
    requires Steady(systemPrompt, h, [])
    ensures Steady(systemPrompt, Summarised(systemPrompt, h, summary), [])
  {
    SummarisedKeepsWaiting(systemPrompt, h, summary);
    if h != [] && h[|h| - 1].HasCalls() {
      LastCallsWait(h);
    }
    var s := Summarised(systemPrompt, h, summary);
    assert s == [User(SUMMARY_HEADER + summary)];
  }

  /** A failed compaction leaves the pairing intact, and everything else if there is a system prompt. */
  lemma SteadyPutBack(systemPrompt: string, h: Messages)
    requires Steady(systemPrompt, h, [])
    ensures WellFormed(NonSystem(PutBack(systemPrompt, h)))
    ensures systemPrompt != "" ==> NonSystem(PutBack(systemPrompt, h)) == h
  {
    PutBackHasNoSystem(systemPrompt, h);
    if h != [] {
      PutBackKeepsWaiting(systemPrompt, h);
    }
  }

  /** The calls whose indices are not pending. */
  ghost function CallsBut(calls: seq<ToolCall>, pending: set<nat>): set<ToolCall> {
    set i | 0 <= i < |calls| && i !in pending :: calls[i]
  }

  lemma {:induction false} OneLessPending(calls: seq<ToolCall>, pending: set<nat>, i: nat)
    requires i in pending && i < |calls|
    ensures CallsBut(calls, pending - {i}) == CallsBut(calls, pending) + CallSet([calls[i]])
  {
    assert forall call :: call in CallSet([calls[i]]) <==> call == calls[i];
  }

  /** The results that answer the call, each within its limit. */
  ghost function Answering(limits: Limits, call: ToolCall): iset<ToolResult> {
    iset r: ToolResult |
      r.callId == call.id && ToolRuntimes.AreOutputs(limits.settings, limits.allowed, [call], [r])
  }

  /** Results that answer every call that is not pending. */
  ghost function AnsweringBut(limits: Limits, calls: seq<ToolCall>, pending: set<nat>): iset<seq<ToolResult>> {
    iset rs: seq<ToolResult> |
      |rs| == |calls| && forall i: nat :: i < |calls| && i !in pending ==> rs[i] in Answering(limits, calls[i])
  }

  /** What decides about the results of calls: the budgets and the tools that are allowed. */
  datatype Limits = Limits(settings: ResultBudget.Settings, allowed: set<string>)

  /** What executing each call by itself may give. */
  ghost function Gatherings(limits: Limits, calls: seq<ToolCall>): iset<seq<ToolResult>> {
    iset results: seq<ToolResult> | ToolRuntimes.AreGathered(limits.settings, limits.allowed, calls, results)
  }

  /** The gathered results, budgeted together, still answer the calls. */
  lemma {:induction false} BudgetedGathering(limits: Limits, calls: seq<ToolCall>, singles: seq<ToolResult>,
                                             results: seq<ToolResult>, written: seq<bool>)
    requires singles in AnsweringBut(limits, calls, {})
    requires ResultBudget.Budgeted(limits.settings, singles, results, written)
    ensures |results| == |calls| && forall i :: 0 <= i < |calls| ==> results[i].callId == calls[i].id
    ensures results in Gatherings(limits, calls)
  {
    ResultBudget.BudgetedKeeps(limits.settings, singles, results, written);
    forall i | 0 <= i < |calls| ensures singles[i] in Answering(limits, calls[i]) {
    }
    assert ToolRuntimes.SinglesAndBudgeted(limits.settings, limits.allowed, calls, singles, results, written);
  }

  /** The results gathered so far, and what the runtime has executed. */
  datatype Gathering = Gathering(results: seq<ToolResult>, executed: set<ToolCall>, executions: nat)

  /** Every call has been executed, once, but for those that are pending. */
  ghost function Gathered(limits: Limits, calls: seq<ToolCall>, pending: set<nat>, start: Gathering): iset<Gathering> {
    iset g: Gathering |
      && pending <= Numbers(|calls|) && g.results in AnsweringBut(limits, calls, pending)
      && g.executed == start.executed + CallsBut(calls, pending)
      && g.executions + |pending| == start.executions + |calls|
  }

  lemma {:induction false} GatherStart(limits: Limits, calls: seq<ToolCall>, start: Gathering)
    requires |start.results| == |calls|
    ensures start in Gathered(limits, calls, Numbers(|calls|), start)
  {
    NumbersSize(|calls|);
    AllPending(calls);
  }

  lemma {:induction false} AnswersNext(limits: Limits, calls: seq<ToolCall>, pending: set<nat>, rs: seq<ToolResult>,
                                       i: nat, r: ToolResult)
    requires i < |calls| && rs in AnsweringBut(limits, calls, pending) && r in Answering(limits, calls[i])
    ensures rs[i := r] in AnsweringBut(limits, calls, pending - {i})
  {
    forall j: nat | j < |calls| && j !in pending - {i} ensures rs[i := r][j] in Answering(limits, calls[j]) {
      if j != i {
        assert j !in pending;
      }
    }
  }

  lemma {:induction false} GatherNext(limits: Limits, calls: seq<ToolCall>, pending: set<nat>, start: Gathering,
                                      g: Gathering, i: nat, r: ToolResult)
    requires i in pending && i < |calls| && r in Answering(limits, calls[i])
    requires g in Gathered(limits, calls, pending, start)
    ensures |g.results| == |calls|
    ensures Gathering(g.results[i := r], g.executed + CallSet([calls[i]]), g.executions + 1) in
              Gathered(limits, calls, pending - {i}, start)
  {
    AnswersNext(limits, calls, pending, g.results, i, r);
    ExecutedNext(start.executed, calls, pending, i);
    FewerPending(pending, Numbers(|calls|), i);
  }

  lemma {:induction false} ExecutedNext(executed: set<ToolCall>, calls: seq<ToolCall>, pending: set<nat>, i: nat)
    requires i in pending && i < |calls|
    ensures executed + CallsBut(calls, pending) + CallSet([calls[i]]) == executed + CallsBut(calls, pending - {i})
  {
    OneLessPending(calls, pending, i);
  }

  lemma {:induction false} FewerPending(pending: set<nat>, all: set<nat>, i: nat)
    requires i in pending && pending <= all
    ensures pending - {i} <= all && |pending - {i}| + 1 == |pending|
  {
    assert pending == (pending - {i}) + {i};
  }

  lemma {:induction false} GatherEnd(limits: Limits, calls: seq<ToolCall>, start: Gathering, g: Gathering)
    requires g in Gathered(limits, calls, {}, start)
    ensures g.results in AnsweringBut(limits, calls, {})
    ensures g.executed == start.executed + CallSet(calls) && g.executions == start.executions + |calls|
  {
    AllPending(calls);
  }

  lemma {:induction false} PendingIsIndex(limits: Limits, calls: seq<ToolCall>, pending: set<nat>, start: Gathering,
                                          g: Gathering, i: nat)
    requires i in pending && g in Gathered(limits, calls, pending, start)
    ensures i < |calls|
  {
    NumbersSize(|calls|);
  }

  lemma {:induction false} AllPending(calls: seq<ToolCall>)
    ensures CallsBut(calls, Numbers(|calls|)) == {} && CallsBut(calls, {}) == CallSet(calls)
  {
    NumbersSize(|calls|);
  }

  /** When a run began: whether its pairing was sound, and how much had been asked and saved. */
  datatype Since = Since(sound: bool, asked: nat, saved: nat)

  class Agent {
    const inference: OpenAIInference
    const runtime: ToolRuntimes.ToolRuntime?
    const maxTurns: nat
    const compactTokenLimit: Option<nat>
    const toolSemaphores: bool
    const tracing: bool
    const summaryPrompt: Messages -> string
    var totalTurns: nat
    var messageQueue: seq<string>
    var saved: seq<Snapshot>
    ghost var replies: seq<Reply>   // what the loop was answered, turn by turn

    constructor (inference: OpenAIInference, runtime: ToolRuntimes.ToolRuntime?, maxTurns: nat,
                 compactTokenLimit: Option<nat>, toolSemaphores: bool, tracing: bool,
                 summaryPrompt: Messages -> string)
      ensures this.inference == inference && this.runtime == runtime && this.maxTurns == maxTurns
      ensures totalTurns == 0 && messageQueue == [] && saved == [] && replies == []
    {
      this.inference, this.runtime, this.maxTurns := inference, runtime, maxTurns;
      this.compactTokenLimit, this.toolSemaphores := compactTokenLimit, toolSemaphores;
      this.tracing, this.summaryPrompt := tracing, summaryPrompt;
      totalTurns, messageQueue, saved, replies := 0, [], [], [];
    }

    /** While other coroutines run, any number of messages may be sent to this agent. */
    method OthersSend()
      modifies this`messageQueue
      ensures old(messageQueue) <= messageQueue
    {
      var more: seq<string> := *;
      messageQueue := messageQueue + more;
    }

    /** Takes all pending messages as one. */
    method DrainMessageQueue() returns (pending: Option<string>)
      modifies this`messageQueue
      ensures messageQueue == []
      ensures pending == if old(messageQueue) == [] then None else Some(Joined(old(messageQueue)))
    {
      var parts := [];
      while messageQueue != []
        invariant parts + messageQueue == old(messageQueue)
      {
        parts := parts + [messageQueue[0]];
        messageQueue := messageQueue[1..];
      }
      assert parts == old(messageQueue);
      pending := if parts == [] then None else Some(Joined(parts));
    }

    /** Saves the history as it is now. */
    method SaveTrace()
      modifies this`saved
      ensures saved == if tracing then old(saved) + [Snapshot(inference.GetMessages(), totalTurns)] else old(saved)
    {
      if tracing {
        saved := saved + [Snapshot(inference.GetMessages(), totalTurns)];
      }
    }

    method CallLlm() returns (reply: Reply)
      modifies inference`messages, inference`asked, inference`answers, this`saved, this`replies
      ensures inference.asked == old(inference.asked) + [old(inference.GetMessages())]
      ensures inference.answers == old(inference.answers) + [reply] && replies == old(replies) + [reply]
      ensures reply.Turn? ==>
                var r := reply.result;
                && AllHaveIds(r.calls)
                && inference.messages == old(inference.messages) + [Assistant(r.text, r.thinking, r.calls)]
      ensures !reply.Turn? ==> inference.messages == old(inference.messages)
      ensures saved == if tracing && reply.Turn? then old(saved) + [Snapshot(inference.GetMessages(), totalTurns)]
                       else old(saved)
    {
      reply := inference.Complete();
      replies := replies + [reply];
      if reply.Turn? {
        SaveTrace();
      }
    }

    /**
     One result per call, in order, if there is a runtime; else none. With semaphores each call is
     executed by itself, in whatever order; either way the results are budgeted together afterwards.
     */
    method ExecuteTools(calls: seq<ToolCall>) returns (results: seq<ToolResult>)
      requires AllHaveIds(calls)
      modifies runtime, this`saved
      ensures runtime == null ==> results == [] && saved == old(saved)
      ensures runtime != null ==> |results| == |calls| && forall i :: 0 <= i < |calls| ==>
                results[i].callId == calls[i].id
      ensures runtime != null ==>
                if toolSemaphores then results in Gatherings(old(LimitsNow()), calls)
                else ToolRuntimes.AreOutputs(runtime.settings, old(runtime.GetAllowedTools()), calls, results)
      ensures runtime != null && tracing ==> saved == old(saved) + [Snapshot(inference.GetMessages(), totalTurns)]
      ensures !tracing ==> saved == old(saved)
      ensures runtime != null ==> HasExecuted(old(runtime.executed), old(runtime.executions), calls)
    {
      if runtime == null {
        return [];
      }
      if toolSemaphores {
        results := ExecuteOneByOne(calls);
      } else {
        var executed;
        ghost var run;
        executed, run := runtime.Execute(calls);
        results := executed[..];
        ToolRuntimes.RunsGive(runtime.settings, old(runtime.GetAllowedTools()), calls, results, runtime.files, run);
      }
      SaveTrace();
    }

    /** Since then the runtime executed exactly these calls. */
    ghost predicate HasExecuted(executed: set<ToolCall>, executions: nat, calls: seq<ToolCall>)
      requires runtime != null
      reads runtime
    {
      runtime.executed == executed + CallSet(calls) && runtime.executions == executions + |calls|
    }

    /**
     The calls are gathered: each waits for its server and then finishes without another await, so that they
     take effect one at a time, in any order.
     */
    method ExecuteOneByOne(calls: seq<ToolCall>) returns (results: seq<ToolResult>)
      requires AllHaveIds(calls) && runtime != null
      modifies runtime`files, runtime`executed, runtime`executions, runtime`outputs, runtime`writeFailures
      ensures |results| == |calls| && forall i :: 0 <= i < |calls| ==> results[i].callId == calls[i].id
      ensures results in Gatherings(old(LimitsNow()), calls)
      ensures HasExecuted(old(runtime.executed), old(runtime.executions), calls)
    {
      var all := new ToolResult[|calls|](_ => ToolResult("", "", "", false));
      ExecuteGathered(calls, all);
      results := BudgetTogether(calls, all);
    }

    method BudgetTogether(ghost calls: seq<ToolCall>, all: array<ToolResult>) returns (results: seq<ToolResult>)
      requires runtime != null && all[..] in AnsweringBut(LimitsNow(), calls, {})
      modifies runtime`files, runtime`writeFailures, all
      ensures |results| == |calls| && forall i :: 0 <= i < |calls| ==> results[i].callId == calls[i].id
      ensures results in Gatherings(old(LimitsNow()), calls)
    {
      ghost var limits, singles := LimitsNow(), all[..];
      ghost var written := runtime.ApplyAggregateBudget(all, []);
      results := all[..];
      BudgetedGathering(limits, calls, singles, results, written);
    }

    ghost function LimitsNow(): Limits
      requires runtime != null
      reads runtime
    {
      Limits(runtime.settings, runtime.GetAllowedTools())
    }

    method ExecuteGathered(calls: seq<ToolCall>, all: array<ToolResult>)
      requires AllHaveIds(calls) && runtime != null && all.Length == |calls|
      modifies runtime`files, runtime`executed, runtime`executions, runtime`outputs, runtime`writeFailures, all
      ensures all[..] in AnsweringBut(old(LimitsNow()), calls, {}) && LimitsNow() == old(LimitsNow())
      ensures HasExecuted(old(runtime.executed), old(runtime.executions), calls)
    {
      var pending := Numbers(|calls|);
      ghost var limits := LimitsNow();
      ghost var start := Gathering(all[..], runtime.executed, runtime.executions);
      GatherStart(limits, calls, start);
      while pending != {}
        invariant Gathering(all[..], runtime.executed, runtime.executions) in Gathered(limits, calls, pending, start)
        invariant LimitsNow() == limits
      {
        var i: nat :| i in pending;
        ghost var g := Gathering(all[..], runtime.executed, runtime.executions);
        PendingIsIndex(limits, calls, pending, start, g, i);
        all[i] := ExecuteSingle(calls[i]);
        GatherNext(limits, calls, pending, start, g, i, all[i]);
        assert all[..] == g.results[i := all[i]];
        pending := pending - {i};
      }
      GatherEnd(limits, calls, start, Gathering(all[..], runtime.executed, runtime.executions));
    }

    method ExecuteSingle(call: ToolCall) returns (r: ToolResult)
      requires call.id != "" && runtime != null
      modifies runtime`files, runtime`executed, runtime`executions, runtime`outputs, runtime`writeFailures
      ensures r in Answering(old(LimitsNow()), call) && LimitsNow() == old(LimitsNow())
      ensures HasExecuted(old(runtime.executed), old(runtime.executions), [call])
    {
      var one;
      ghost var run;
      one, run := runtime.Execute([call]);
      r := one[0];
      assert one[..] == [r];
      ToolRuntimes.RunsGive(runtime.settings, old(runtime.GetAllowedTools()), [call], [r], runtime.files, run);
    }

    method ShouldCompact(result: TurnResult) returns (b: bool)
      ensures b == (compactTokenLimit.Some? && result.inputTokens > compactTokenLimit.value)
    {
      b := compactTokenLimit.Some? && result.inputTokens > compactTokenLimit.value;
    }

    /** Asks for a summary under a system prompt of its own, which replaces the history. */
    method AskForSummary(toSummarize: Messages) returns (reply: Reply, ghost question: Messages)
      modifies inference
      ensures WellFormed(question) && inference.asked == old(inference.asked) + [question]
      ensures question == [System(SUMMARIZER_PROMPT), User(summaryPrompt(toSummarize))]
      ensures inference.answers == old(inference.answers) + [reply]
    {
      inference.SetSystemPrompt(SUMMARIZER_PROMPT);
      inference.Reset();
      inference.AddUserMessage(summaryPrompt(toSummarize));
      question := inference.GetMessages();
      assert inference.messages == [User(summaryPrompt(toSummarize))];
      WaitingOfOne(User(summaryPrompt(toSummarize)));
      WithSystemSame(SUMMARIZER_PROMPT, inference.messages);
      reply := inference.Complete();
    }

    /** Makes the summary the history, with the calls that wait for results behind it. */
    method InstallSummary(summary: string, pending: Option<Message>)
      requires pending.Some? ==> pending.value.HasCalls()
      modifies inference`messages
      ensures pending == None ==> inference.messages == [User(SUMMARY_HEADER + summary)]
      ensures pending.Some? ==>
                inference.messages ==
                (if inference.systemPrompt == "" then [] else [User(SUMMARY_HEADER + summary)]) + [pending.value]
    {
      inference.ReplaceHistory(summary);
      if pending.Some? {
        SummaryThenPending(inference.systemPrompt, User(SUMMARY_HEADER + summary), pending.value);
        inference.ReplaceMessages(inference.GetMessages()[1..] + [pending.value]);
      }
    }

    /**
     Replaces the conversation by a summary of it, keeping calls that wait for results; without a system
     prompt these are all that is left. If the summary cannot be had, the history and the system prompt are
     put back. `summed` is what the model is asked to summarise.
     */
    method Compact() returns (c: Compaction, ghost summed: Messages)
      modifies inference
      ensures inference.systemPrompt == old(inference.systemPrompt)
      ensures match c
              case Unchanged => inference.messages == old(inference.messages) && inference.asked == old(inference.asked)
              case Compacted(summary) =>
                inference.messages == Summarised(inference.systemPrompt, old(inference.messages), summary)
              case CompactionRaised =>
                inference.messages == NonSystem(PutBack(inference.systemPrompt, old(inference.messages)))
      ensures c.Compacted? ==>
                (User(SUMMARY_HEADER + c.summary) in inference.messages <==>
                 inference.systemPrompt != "" || !EndsInCalls(old(inference.messages)))
      ensures c == CompactionRaised && NoSystem(old(inference.messages)) ==>
                (inference.messages == old(inference.messages) <==> inference.systemPrompt != "")
      ensures c != Unchanged ==>
                var question := [System(SUMMARIZER_PROMPT), User(summaryPrompt(summed))];
                WellFormed(question) && inference.asked == old(inference.asked) + [question]
      ensures c != Unchanged ==>
                var all := old(inference.GetMessages());
                && all != []
                && all[1..] == if EndsInCalls(old(inference.messages)) then summed + [all[|all| - 1]] else summed
      ensures c == Unchanged <==>
                |old(inference.GetMessages())| <= 1
                || (|old(inference.GetMessages())| == 2 && EndsInCalls(old(inference.messages)))
      ensures c == Unchanged ==> inference.answers == old(inference.answers)
      ensures c != Unchanged ==>
                && |inference.answers| == |old(inference.answers)| + 1
                && var reply := inference.answers[|old(inference.answers)|];
                   if c.Compacted? then reply.Turn? && reply.result.text == c.summary else !reply.Turn?
    {
      var messages := inference.GetMessages();
      if |messages| <= 1 {
        return Unchanged, [];
      }
      SkippedHead(inference.systemPrompt, inference.messages, messages);
      var toSummarize := messages[1..];
      var last := messages[|messages| - 1];
      var pending := if last.HasCalls() then Some(last) else None;
      if pending.Some? {
        toSummarize := messages[1..|messages| - 1];
        if toSummarize == [] {
          return Unchanged, [];
        }
      }
      var savedMessages := if pending.Some? then toSummarize + [last] else toSummarize;
      assert savedMessages == messages[1..];
      summed := toSummarize;
      ghost var question;
      c, question := Summarise(toSummarize, savedMessages, pending);
      if c.Compacted? {
        SummaryIsKept(inference.systemPrompt, old(inference.messages), c.summary);
      } else if NoSystem(old(inference.messages)) {
        PutBackHasNoSystem(inference.systemPrompt, old(inference.messages));
        PutBackIsExact(inference.systemPrompt, old(inference.messages));
      }
    }

    /** Asks for the summary and installs it, or puts the saved messages back. */
    method Summarise(toSummarize: Messages, savedMessages: Messages, pending: Option<Message>)
      returns (c: Compaction, ghost question: Messages)
      requires pending.Some? ==> pending.value.HasCalls()
      modifies inference
      ensures c != Unchanged && inference.systemPrompt == old(inference.systemPrompt)
      ensures WellFormed(question) && inference.asked == old(inference.asked) + [question]
      ensures question == [System(SUMMARIZER_PROMPT), User(summaryPrompt(toSummarize))]
      ensures c.Compacted? ==>
                inference.messages ==
                (if inference.systemPrompt == "" && pending.Some? then [] else [User(SUMMARY_HEADER + c.summary)])
                + if pending.Some? then [pending.value] else []
      ensures c.CompactionRaised? ==> inference.messages == NonSystem(savedMessages)
      ensures |inference.answers| == |old(inference.answers)| + 1
      ensures var reply := inference.answers[|old(inference.answers)|];
              if c.Compacted? then reply.Turn? && reply.result.text == c.summary else !reply.Turn?
    {
      var savedSystem := inference.systemPrompt;
      var reply;
      reply, question := AskForSummary(toSummarize);
      inference.SetSystemPrompt(savedSystem);
      if !reply.Turn? {
        inference.Reset();
        inference.ReplaceMessages(savedMessages);
        return CompactionRaised, question;
      }
      InstallSummary(reply.result.text, pending);
      c := Compacted(reply.result.text);
    }

    /** With a sound start: the calls `ids` wait, every question was well formed, every snapshot in step. */
    ghost predicate Holds(since: Since, ids: seq<string>)
      reads this, inference
    {
      since.sound ==>
        && runtime != null
        && Steady(inference.systemPrompt, inference.messages, ids)
        && AllWellFormed(inference.asked, since.asked) && AllInStep(saved, since.saved)
    }

    /** The same of a run that ended by raising: the history is well formed. */
    ghost predicate Ended(since: Since)
      reads this, inference
    {
      since.sound ==>
        && WellFormed(inference.messages)
        && AllWellFormed(inference.asked, since.asked) && AllInStep(saved, since.saved)
    }

    /** Puts what was sent meanwhile, `sent` in all, into the history as one message. */
    method InjectPending(ghost since: Since) returns (ghost sent: seq<string>)
      requires Holds(since, [])
      modifies inference`messages, this`messageQueue
      ensures Holds(since, []) && messageQueue == [] && old(messageQueue) <= sent
      ensures inference.messages == old(inference.messages) + if Joined(sent) == "" then [] else [User(Joined(sent))]
    {
      OthersSend();
      sent := messageQueue;
      var pending := DrainMessageQueue();
      if pending.Some? && pending.value != "" {
        SayToModel(pending.value, since);
      }
    }

    method SayToModel(content: string, ghost since: Since)
      requires Holds(since, [])
      modifies inference`messages
      ensures Holds(since, []) && inference.messages == old(inference.messages) + [User(content)]
    {
      ghost var h := inference.messages;
      inference.AddUserMessage(content);
      if since.sound {
        SteadyPush(inference.systemPrompt, h, [], User(content), []);
      }
    }

    method AskModel(ghost since: Since) returns (reply: Reply)
      requires Holds(since, [])
      modifies inference`messages, inference`asked, inference`answers, this`saved, this`replies
      ensures |inference.asked| == |old(inference.asked)| + 1
      ensures inference.answers == old(inference.answers) + [reply] && replies == old(replies) + [reply]
      ensures reply.Turn? ==> AllHaveIds(reply.result.calls) && Holds(since, Ids(reply.result.calls))
      ensures !reply.Turn? ==> Holds(since, [])
    {
      ghost var h := inference.messages;
      reply := CallLlm();
      if since.sound {
        WithSystemSame(inference.systemPrompt, h);
        AllWellFormedPush(old(inference.asked), since.asked, WithSystem(inference.systemPrompt, h));
        if reply.Turn? {
          var r := reply.result;
          var m := Assistant(r.text, r.thinking, r.calls);
          SteadyPush(inference.systemPrompt, h, [], m, Ids(r.calls));
          WithSystemSame(inference.systemPrompt, h + [m]);
          AllInStepPush(old(saved), since.saved, Snapshot(WithSystem(inference.systemPrompt, h + [m]), totalTurns));
        }
      }
    }

    /** Truncated calls are answered as malformed instead of being executed. */
    method DropCalls(calls: seq<ToolCall>, ghost since: Since)
      requires Holds(since, Ids(calls))
      modifies inference`messages
      ensures Holds(since, [])
      ensures inference.messages ==
              old(inference.messages) + ResultMessages(MalformedResults(calls)) + [User(RetryRequest(calls))]
      ensures forall i :: 0 <= i < |calls| ==>
                inference.messages[|old(inference.messages)| + i] == Tool(calls[i].id, MALFORMED_RESULT)
    {
      var results := MalformedResults(calls);
      if since.sound {
        SteadyResults(inference.systemPrompt, inference.messages, calls, results);
      }
      inference.AddToolResults(results);
      SayToModel(RetryRequest(calls), since);
    }

    /** The results of the calls, within the limits, are what the model is told. */
    method AnswerCalls(calls: seq<ToolCall>, ghost since: Since) returns (results: seq<ToolResult>)
      requires Holds(since, Ids(calls)) && AllHaveIds(calls)
      modifies inference`messages, this`saved, runtime
      ensures Holds(since, [])
      ensures |results| == if runtime == null then 0 else |calls|
      ensures |inference.messages| == |old(inference.messages)| + |results|
      ensures old(inference.messages) <= inference.messages
      ensures forall i :: 0 <= i < |results| ==>
                inference.messages[|old(inference.messages)| + i] == Tool(calls[i].id, results[i].content)
      ensures runtime != null ==>
                if toolSemaphores then results in Gatherings(old(LimitsNow()), calls)
                else ToolRuntimes.AreOutputs(runtime.settings, old(runtime.GetAllowedTools()), calls, results)
      ensures runtime != null ==> HasExecuted(old(runtime.executed), old(runtime.executions), calls)
    {
      ghost var h := inference.messages;
      results := ExecuteTools(calls);
      if since.sound {
        WithSystemSame(inference.systemPrompt, h);
        AllInStepPush(old(saved), since.saved, Snapshot(WithSystem(inference.systemPrompt, h), totalTurns));
        SteadyResults(inference.systemPrompt, h, calls, results);
      }
      inference.AddToolResults(results);
    }

    method CompactBetweenTurns(ghost since: Since) returns (raised: bool)
      requires Holds(since, [])
      modifies inference
      ensures inference.systemPrompt == old(inference.systemPrompt)
      ensures |inference.asked| <= |old(inference.asked)| + 1
      ensures if raised then Ended(since) else Holds(since, [])
      ensures |inference.asked| >= |old(inference.asked)|
      ensures raised ==> LlmFailed()
    {
      ghost var h := inference.messages;
      var c;
      ghost var summed;
      c, summed := Compact();
      raised := c.CompactionRaised?;
      if c != Unchanged {
        ghost var q := [System(SUMMARIZER_PROMPT), User(summaryPrompt(summed))];
        if since.sound {
          AllWellFormedPush(old(inference.asked), since.asked, q);
          SteadyPutBack(inference.systemPrompt, h);
          if c.Compacted? {
            SteadySummarised(inference.systemPrompt, h, c.summary);
          }
        }
      }
    }

    /** The last LLM call did not yield a turn. */
    ghost predicate LlmFailed()
      reads inference
    {
      inference.answers != [] && !inference.answers[|inference.answers| - 1].Turn?
    }

    /** What the loop does with a turn; it goes on unless there is a result. */
    method HandleTurn(r: TurnResult, recoveries: nat, ghost since: Since)
      returns (stop: Option<RunResult>, recoveries': nat)
      requires Holds(since, Ids(r.calls)) && AllHaveIds(r.calls)
      modifies inference, this`saved, runtime
      ensures inference.systemPrompt == old(inference.systemPrompt)
      ensures |inference.asked| <= |old(inference.asked)| + 1
      ensures |inference.asked| >= |old(inference.asked)| && (stop == Some(Raised) ==> LlmFailed())
      ensures if stop == Some(Raised) then Ended(since) else Holds(since, [])
      ensures IsBroken(r) ==>
                && stop == None && recoveries' == recoveries
                && inference.messages == old(inference.messages) + ResultMessages(MalformedResults(r.calls))
                                         + [User(RetryRequest(r.calls))]
      ensures r.cutOff && r.calls == [] ==>
                && recoveries' == recoveries + 1
                && (if recoveries < 3
                    then stop == None && inference.messages == old(inference.messages) + [User(CONTINUE_REQUEST)]
                    else stop == Some(Returned(r.text)) && inference.messages == old(inference.messages))
      ensures !r.cutOff && !IsBroken(r) ==>
                && recoveries' == 0
                && (stop == Some(Raised) || stop == if r.calls == [] then Some(Returned(r.text)) else None)
      ensures runtime != null ==>
                HasExecuted(old(runtime.executed), old(runtime.executions), if IsBroken(r) then [] else r.calls)
      ensures r.calls != [] && (r.cutOff || exists call :: call in r.calls && call.truncated) ==> IsBroken(r)
      ensures !r.cutOff && (forall call :: call in r.calls ==> !call.truncated) ==> !IsBroken(r)
      ensures !(compactTokenLimit.Some? && r.inputTokens > compactTokenLimit.value) ==>
                inference.asked == old(inference.asked) && stop != Some(Raised)
    {
      recoveries' := recoveries;
      if IsBroken(r) {
        DropCalls(r.calls, since);
        return None, recoveries';
      }
      if r.cutOff && r.calls == [] {
        recoveries' := recoveries + 1;
        if recoveries' <= MAX_OUTPUT_RECOVERY {
          SayToModel(CONTINUE_REQUEST, since);
          return None, recoveries';
        }
        return Some(Returned(r.text)), recoveries';
      }
      recoveries' := 0;
      if r.calls != [] {
        var _ := AnswerCalls(r.calls, since);
      }
      var full := ShouldCompact(r);
      if full {
        var raised := CompactBetweenTurns(since);
        if raised {
          return Some(Raised), recoveries';
        }
      }
      stop := if r.calls == [] then Some(Returned(r.text)) else None;
    }

    /**
     The LLM and tool loop. If a runtime is attached and the history is sound at the start, it is well formed
     at every LLM call and at the end, and every snapshot on the way is in step. Each turn asks the model; the
     loop goes on until the model has nothing left to do, and what it then said is the result, or until the
     turns are used up. Exactly the calls of turns that are not broken are executed.
     */
    method RunLoop() returns (result: RunResult, ghost tooLong: nat)
      modifies this, inference, runtime
      ensures inference.systemPrompt == old(inference.systemPrompt)
      ensures old(totalTurns) <= totalTurns && (totalTurns == old(totalTurns) || totalTurns <= maxTurns)
      ensures |inference.asked| <= |old(inference.asked)| + 2 * (totalTurns - old(totalTurns))
      ensures totalTurns == old(totalTurns) ==> result == Returned("") && inference.messages == old(inference.messages)
      ensures old(totalTurns) < maxTurns ==> totalTurns > old(totalTurns)
      ensures |inference.asked| >= |old(inference.asked)| + (totalTurns - old(totalTurns))
      ensures |replies| == |old(replies)| + (totalTurns - old(totalTurns)) && old(replies) <= replies
      ensures forall k :: |old(replies)| <= k < |replies| - 1 ==> !IsFinal(replies[k]) && !replies[k].Failed?
      ensures result.Returned? ==>
                || (totalTurns > old(totalTurns) && Says(replies[|replies| - 1], result.text))
                || (totalTurns >= maxTurns && result.text == "")
      ensures totalTurns > old(totalTurns) && IsFinal(replies[|replies| - 1]) ==>
                || result == Returned(replies[|replies| - 1].result.text)
                || (result == Raised && compactTokenLimit.Some?)
      ensures result == Raised ==> LlmFailed()
      ensures runtime != null ==>
                HasExecuted(old(runtime.executed), old(runtime.executions), CallsAsked(replies, |old(replies)|))
      ensures totalTurns > old(totalTurns) ==> messageQueue == []
      ensures tooLong <= 3 && (tooLong == 3 ==> result == Raised)
      ensures runtime != null && Steady(old(inference.systemPrompt), old(inference.messages), []) ==>
                && WellFormed(inference.messages)
                && AllWellFormed(inference.asked, |old(inference.asked)|) && AllInStep(saved, |old(saved)|)
                && (result.Returned? ==> Steady(inference.systemPrompt, inference.messages, []))
    {
      ghost var since := Since(runtime != null && Steady(inference.systemPrompt, inference.messages, []),
                               |inference.asked|, |saved|);
      var outputRecoveries, reactiveCompactions := 0, 0;
      tooLong := 0;
      while totalTurns < maxTurns
        invariant inference.systemPrompt == old(inference.systemPrompt)
        invariant old(totalTurns) <= totalTurns && (totalTurns == old(totalTurns) || totalTurns <= maxTurns)
        invariant |inference.asked| <= |old(inference.asked)| + 2 * (totalTurns - old(totalTurns))
        invariant |inference.asked| >= |old(inference.asked)| + (totalTurns - old(totalTurns))
        invariant |replies| == |old(replies)| + (totalTurns - old(totalTurns)) && old(replies) <= replies
        invariant forall k :: |old(replies)| <= k < |replies| ==> !IsFinal(replies[k]) && !replies[k].Failed?
        invariant runtime != null ==>
                    HasExecuted(old(runtime.executed), old(runtime.executions), CallsAsked(replies, |old(replies)|))
        invariant Holds(since, [])
        invariant totalTurns == old(totalTurns) ==> inference.messages == old(inference.messages)
        invariant totalTurns > old(totalTurns) ==> messageQueue == []
        invariant tooLong == reactiveCompactions <= MAX_REACTIVE_COMPACTIONS
        decreases maxTurns - totalTurns
      {
        ghost var before := replies;
        var stop;
        ghost var reply;
        stop, outputRecoveries, reactiveCompactions, reply := Turn(outputRecoveries, reactiveCompactions, since);
        tooLong := reactiveCompactions;
        CallsAskedPush(before, |old(replies)|, reply);
        ExecutedMore(CallsAsked(before, |old(replies)|), CallsToRun(reply));
        if stop.Some? {
          return stop.value, tooLong;
        }
      }
      result := Returned("");
    }

    /** One turn: pending messages, one question to the model, and what is done about its reply. */
    method Turn(recoveries: nat, compactions: nat, ghost since: Since)
      returns (stop: Option<RunResult>, recoveries': nat, compactions': nat, ghost reply: Reply)
      requires totalTurns < maxTurns && Holds(since, []) && compactions <= MAX_REACTIVE_COMPACTIONS
      modifies this, inference, runtime
      ensures inference.systemPrompt == old(inference.systemPrompt)
      ensures totalTurns == old(totalTurns) + 1 && messageQueue == [] && replies == old(replies) + [reply]
      ensures |old(inference.asked)| + 1 <= |inference.asked| <= |old(inference.asked)| + 2
      ensures if stop == Some(Raised) then Ended(since) && LlmFailed() else Holds(since, [])
      ensures stop == None ==> !IsFinal(reply) && !reply.Failed?
      ensures stop.Some? && stop.value.Returned? ==> Says(reply, stop.value.text)
      ensures IsFinal(reply) ==>
                stop == Some(Returned(reply.result.text)) || (stop == Some(Raised) && compactTokenLimit.Some?)
      ensures compactions' == compactions + (if reply.PromptTooLong? then 1 else 0)
      ensures compactions' > MAX_REACTIVE_COMPACTIONS ==> stop == Some(Raised)
      ensures runtime != null ==> HasExecuted(old(runtime.executed), old(runtime.executions), CallsToRun(reply))
    {
      recoveries', compactions' := recoveries, compactions;
      totalTurns := totalTurns + 1;
      ghost var sent := InjectPending(since);
      var answer := AskModel(since);
      reply := answer;
      if answer.PromptTooLong? {
        compactions' := compactions + 1;
        stop := None;
        if compactions' > MAX_REACTIVE_COMPACTIONS {
          return Some(Raised), recoveries', compactions', reply;
        }
        var raised := CompactBetweenTurns(since);
        if raised {
          stop := Some(Raised);
        }
      } else if answer.Failed? {
        stop := Some(Raised);
      } else {
        stop, recoveries' := HandleTurn(answer.result, recoveries, since);
      }
    }

    /**
     Restores a saved conversation. Whatever the loop had saved, what is restored is the longest front of it
     that ends cleanly, and it is well formed.
     */
    method LoadFromTrace(s: Snapshot)
      modifies this`totalTurns, inference`messages
      ensures totalTurns == s.totalTurns
      ensures inference.messages == CleanedUp(NonSystem(s.messages))
      ensures Waiting(NonSystem(s.messages)) != OutOfStep ==> WellFormed(inference.messages)
    {
      totalTurns := s.totalTurns;
      inference.ReplaceMessages(s.messages);
      inference.CleanupInterrupted();
      if Waiting(NonSystem(s.messages)) != OutOfStep {
        CleanedUpIsWellFormed(NonSystem(s.messages));
      }
    }
  }

  /** What follows the head of the saved messages is what a failed compaction puts back. */
  lemma SkippedHead(systemPrompt: string, h: Messages, all: Messages)
    requires all == WithSystem(systemPrompt, h)
    requires |all| > 1
    ensures all[1..] == PutBack(systemPrompt, h) && h != [] && all[|all| - 1] == h[|h| - 1]
  {
  }

  lemma PutBackHasNoSystem(systemPrompt: string, h: Messages)
    requires NoSystem(h)
    ensures NonSystem(PutBack(systemPrompt, h)) == PutBack(systemPrompt, h)
  {
    if systemPrompt == "" && h != [] {
      assert h == [h[0]] + h[1..];
      NoSystemConcat([h[0]], h[1..]);
    }
    NonSystemSame(PutBack(systemPrompt, h));
  }
}
