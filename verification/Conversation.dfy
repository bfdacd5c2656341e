/**
 Chat histories: when tool calls and tool results are paired, and what is left of a history whose end was
 interrupted (core/inference/openai_api.py:289-339 and 496-518).
 */
module Conversations {
  import opened Protocol

  datatype Message =
    | System(text: string)
    | User(text: string)
    | Assistant(text: string, thinking: string, calls: seq<ToolCall>)
    | Tool(callId: string, content: string)
  {
    predicate HasCalls() {
      Assistant? && calls != []
    }

    /** Does a conversation that was cut off here end cleanly? */
    predicate Settles() {
      match this
      case Tool(_, _) => false
      case Assistant(text, _, calls) => calls == [] && !Blank(text)
      case _ => true
    }
  }

  type Messages = seq<Message>

  function Ids(calls: seq<ToolCall>): seq<string> {
    seq(|calls|, i requires 0 <= i < |calls| => calls[i].id)
  }

  /** The ids of the calls that still wait for a result after `h`; None if `h` is out of step already. */
  function Waiting(h: Messages): (ids: Pending) {
    if h == [] then Waits([])
    else
      match Waiting(h[..|h| - 1])
      case OutOfStep => OutOfStep
      case Waits(ids) => Next(ids, h[|h| - 1])
  }

  datatype Pending = OutOfStep | Waits(ids: seq<string>)

  function Next(ids: seq<string>, m: Message): Pending {
    match m
    case Tool(id, _) => if ids != [] && ids[0] == id then Waits(ids[1..]) else OutOfStep
    case Assistant(_, _, calls) => if ids == [] then Waits(Ids(calls)) else OutOfStep
    case _ => if ids == [] then Waits([]) else OutOfStep
  }

  /** Every call has been answered, once, in order, before anything else was said. */
  ghost predicate WellFormed(h: Messages) {
    Waiting(h) == Waits([])
  }

  lemma WaitingPush(h: Messages, m: Message)
    ensures Waiting(h + [m]) == match Waiting(h) case OutOfStep => OutOfStep case Waits(ids) => Next(ids, m)
  {
    assert (h + [m])[..|h|] == h;
  }

  /** What is out of step stays so, however the conversation goes on. */
  lemma {:induction false} OutOfStepStays(h: Messages, t: Messages)
    requires Waiting(h) == OutOfStep
    ensures Waiting(h + t) == OutOfStep
  {
    if t == [] {
      assert h + t == h;
    } else {
      assert (h + t)[..|h + t| - 1] == h + t[..|t| - 1];
      OutOfStepStays(h, t[..|t| - 1]);
    }
  }

  /** Calls that are left unanswered put everything that is said next out of step. */
  lemma UnansweredIsOutOfStep(h: Messages, ids: seq<string>, m: Message, t: Messages)
    requires Waiting(h) == Waits(ids) && ids != [] && !m.Tool?
    ensures !WellFormed(h + [m] + t)
  {
    WaitingPush(h, m);
    OutOfStepStays(h + [m], t);
  }

  /** Message `m` is the result of `call`. */
  predicate IsResultOf(m: Message, call: ToolCall) {
    m.Tool? && m.callId == call.id
  }

  function CallsOf(m: Message): seq<ToolCall> {
    match m
    case Assistant(_, _, calls) => calls
    case _ => []
  }

  /** Call `j` of message `i`, if there is one, is answered in its place. */
  ghost predicate CallAnswered(h: Messages, i: nat, j: nat) {
    i < |h| && j < |CallsOf(h[i])| ==> i + 1 + j < |h| && IsResultOf(h[i + 1 + j], CallsOf(h[i])[j])
  }

  /** Message `k` is among the results that the calls of message `i` ask for. */
  ghost predicate Answers(h: Messages, k: nat, i: nat) {
    i < k < |h| && k - i <= |CallsOf(h[i])|
  }

  /** If message `k` is a result, some message asked for it. */
  ghost predicate ResultAsked(h: Messages, k: nat) {
    k < |h| && h[k].Tool? ==> exists i :: Answers(h, k, i)
  }

  /**
   The pairing, message by message: what follows a message with calls is one result per call, in order;
   and there are no other results.
   */
  ghost predicate Paired(h: Messages) {
    && (forall i: nat, j: nat :: CallAnswered(h, i, j))
    && (forall k: nat :: ResultAsked(h, k))
  }

  /** Only results follow message `i`. */
  ghost predicate ResultsFollow(h: Messages, i: nat) {
    i < |h| && !h[i].Tool? && forall k :: i < k < |h| ==> h[k].Tool?
  }

  /** The messages after `i` are results of the first calls of message `i`. */
  ghost predicate Answered(h: Messages, i: nat) {
    && i < |h| && |h| - 1 - i <= |CallsOf(h[i])|
    && forall j :: 0 <= j < |h| - 1 - i ==> IsResultOf(h[i + 1 + j], CallsOf(h[i])[j])
  }

  lemma AnsweredOneMore(h: Messages, i: nat)
    requires ResultsFollow(h, i) && i + 1 < |h|
    ensures var n := |h| - 1;
            Answered(h, i) <==>
            Answered(h[..n], i) && n - i <= |CallsOf(h[i])| && h[n].callId == CallsOf(h[i])[n - i - 1].id
  {
    var n := |h| - 1;
    if Answered(h[..n], i) && n - i <= |CallsOf(h[i])| {
      assert forall j :: 0 <= j < n - 1 - i ==> IsResultOf(h[..n][i + 1 + j], CallsOf(h[i])[j]);
    }
    if Answered(h, i) {
      assert IsResultOf(h[i + 1 + (n - i - 1)], CallsOf(h[i])[n - i - 1]);
    }
  }

  /** The ids that wait when message `i` has got as many results as follow it. */
  ghost function Left(h: Messages, i: nat): Pending
    requires i < |h|
  {
    if WellFormed(h[..i]) && Answered(h, i) then Waits(Ids(CallsOf(h[i]))[|h| - 1 - i..]) else OutOfStep
  }

  lemma NextTail(ids: seq<string>, k: nat, m: Message)
    requires k <= |ids| && m.Tool?
    ensures Next(ids[k..], m) == if k < |ids| && ids[k] == m.callId then Waits(ids[k + 1..]) else OutOfStep
  {
    if k < |ids| {
      assert ids[k..][0] == ids[k] && ids[k..][1..] == ids[k + 1..];
    }
  }

  lemma LeftOneMore(h: Messages, i: nat)
    requires ResultsFollow(h, i) && i + 1 < |h|
    ensures var n := |h| - 1;
            Left(h, i) == match Left(h[..n], i) case OutOfStep => OutOfStep case Waits(ids) => Next(ids, h[n])
  {
    var n := |h| - 1;
    assert h[..n][..i] == h[..i];
    AnsweredOneMore(h, i);
    if Answered(h[..n], i) {
      NextTail(Ids(CallsOf(h[i])), n - 1 - i, h[n]);
    }
  }

  lemma {:induction false} WaitingAfter(h: Messages, i: nat)
    requires ResultsFollow(h, i)
    ensures Waiting(h) == Left(h, i)
  {
    var n := |h| - 1;
    if i < n {
      WaitingAfter(h[..n], i);
      LeftOneMore(h, i);
    } else {
      assert h[..n] == h[..i];
      assert Ids(CallsOf(h[i]))[0..] == Ids(CallsOf(h[i]));
    }
  }

  lemma {:induction false} OnlyResults(h: Messages)
    requires h != [] && forall k :: 0 <= k < |h| ==> h[k].Tool?
    ensures Waiting(h) == OutOfStep
  {
    if |h| > 1 {
      OnlyResults(h[..|h| - 1]);
    }
  }

  /** The results of an earlier message do not reach as far as a message that is none. */
  lemma NoReachOver(h: Messages, a: nat, i: nat)
    requires Paired(h) && a < i < |h| && !h[i].Tool?
    ensures a + |CallsOf(h[a])| < i
  {
    assert CallAnswered(h, a, i - a - 1);
  }

  lemma PairedPrefix(h: Messages, i: nat)
    requires Paired(h) && i < |h| && !h[i].Tool?
    ensures Paired(h[..i])
  {
    forall a: nat, j: nat ensures CallAnswered(h[..i], a, j) {
      if a < i && j < |CallsOf(h[a])| {
        NoReachOver(h, a, i);
        assert CallAnswered(h, a, j);
      }
    }
    forall k: nat ensures ResultAsked(h[..i], k) {
      if k < i && h[k].Tool? {
        assert ResultAsked(h, k);
        var a: nat :| Answers(h, k, a);
        assert Answers(h[..i], k, a);
      }
    }
  }

  lemma PairedFront(h: Messages, i: nat)
    requires ResultsFollow(h, i) && Paired(h)
    ensures Paired(h[..i]) && Answered(h, i) && |h| - 1 - i == |CallsOf(h[i])|
  {
    PairedPrefix(h, i);
    var n := |h| - 1;
    if i < n {
      assert ResultAsked(h, n);
      var a: nat :| Answers(h, n, a);
      if a < i {
        NoReachOver(h, a, i);
      }
      assert a <= i;
    }
    if CallsOf(h[i]) != [] {
      assert CallAnswered(h, i, |CallsOf(h[i])| - 1);
    }
    forall j | 0 <= j < |h| - 1 - i ensures IsResultOf(h[i + 1 + j], CallsOf(h[i])[j]) {
      assert CallAnswered(h, i, j);
    }
  }

  lemma PairedBack(h: Messages, i: nat)
    requires ResultsFollow(h, i) && Paired(h[..i]) && Answered(h, i) && |h| - 1 - i == |CallsOf(h[i])|
    ensures Paired(h)
  {
    forall a: nat, j: nat ensures CallAnswered(h, a, j) {
      assert CallAnswered(h[..i], a, j);
      assert i < a < |h| ==> h[a].Tool?;
      assert a == i && j < |CallsOf(h[i])| ==> IsResultOf(h[i + 1 + j], CallsOf(h[i])[j]);
    }
    forall k: nat ensures ResultAsked(h, k) {
      if k < i && h[k].Tool? {
        assert ResultAsked(h[..i], k);
        var a: nat :| Answers(h[..i], k, a);
        assert Answers(h, k, a);
      } else if i < k < |h| {
        assert Answers(h, k, i);
      }
    }
  }

  /** The running check and the description message by message agree. */
  lemma {:induction false} WellFormedIsPaired(h: Messages)
    ensures WellFormed(h) <==> Paired(h)
    decreases |h|
  {
    if h == [] {
    } else if forall k :: 0 <= k < |h| ==> h[k].Tool? {
      OnlyResults(h);
      assert Paired(h) ==> ResultAsked(h, 0);
    } else {
      var i := LastTalk(h);
      WaitingAfter(h, i);
      WellFormedIsPaired(h[..i]);
      if Paired(h) {
        PairedFront(h, i);
      }
      if Paired(h[..i]) && Answered(h, i) && |h| - 1 - i == |CallsOf(h[i])| {
        PairedBack(h, i);
      }
      assert Answered(h, i) ==> |Ids(CallsOf(h[i]))[|h| - 1 - i..]| == |CallsOf(h[i])| - (|h| - 1 - i);
    }
  }

  ghost function LastTalk(h: Messages): (i: nat)
    requires exists k :: 0 <= k < |h| && !h[k].Tool?
    ensures ResultsFollow(h, i)
  {
    var n := |h| - 1;
    if !h[n].Tool? then n else LastTalk(h[..n])
  }

  function ResultMessages(results: seq<ToolResult>): (ms: Messages)
    ensures |ms| == |results|
  {
    seq(|results|, i requires 0 <= i < |results| => Tool(results[i].callId, results[i].content))
  }

  /** One result per call, in the order of the calls, brings the history back in step. */
  lemma {:induction false} ResultsSettle(h: Messages, ids: seq<string>, results: seq<ToolResult>)
    requires Waiting(h) == Waits(ids) && |results| <= |ids|
    requires forall i :: 0 <= i < |results| ==> results[i].callId == ids[i]
    ensures Waiting(h + ResultMessages(results)) == Waits(ids[|results|..])
  {
    var ms := ResultMessages(results);
    if results == [] {
      assert h + ms == h && ids[0..] == ids;
    } else {
      var n := |results| - 1;
      ResultsSettle(h, ids, results[..n]);
      assert ms == ResultMessages(results[..n]) + [ms[n]];
      assert h + ms == h + ResultMessages(results[..n]) + [ms[n]];
      WaitingPush(h + ResultMessages(results[..n]), ms[n]);
      NextTail(ids, n, ms[n]);
    }
  }

  /** What is left once the interrupted end of a history is taken off. */
  function CleanedUp(h: Messages): Messages {
    if h == [] || h[|h| - 1].Settles() then h else CleanedUp(h[..|h| - 1])
  }

  /** It is the longest prefix that ends cleanly, and taking it twice changes nothing. */
  lemma {:induction false} CleanedUpIsLongest(h: Messages)
    ensures CleanedUp(h) <= h
    ensures CleanedUp(h) == [] || CleanedUp(h)[|CleanedUp(h)| - 1].Settles()
    ensures forall n :: |CleanedUp(h)| <= n < |h| ==> !h[n].Settles()
    ensures CleanedUp(CleanedUp(h)) == CleanedUp(h)
  {
    if h != [] && !h[|h| - 1].Settles() {
      CleanedUpIsLongest(h[..|h| - 1]);
    }
  }

  /** However a history that is in step was cut off, what is left of it is well formed. */
  lemma {:induction false} CleanedUpIsWellFormed(h: Messages)
    requires Waiting(h) != OutOfStep
    ensures WellFormed(CleanedUp(h))
  {
    if h != [] && !h[|h| - 1].Settles() {
      CleanedUpIsWellFormed(h[..|h| - 1]);
    }
  }

  lemma {:induction false} InStepPrefix(h: Messages, n: nat)
    requires n <= |h| && Waiting(h) != OutOfStep
    ensures Waiting(h[..n]) != OutOfStep
  {
    if n < |h| {
      InStepPrefix(h[..|h| - 1], n);
      assert h[..|h| - 1][..n] == h[..n];
    } else {
      assert h[..n] == h;
    }
  }

  /** Whatever front of a well-formed history was saved, cleaning it up gives a well-formed history. */
  lemma AnyFrontRecovers(h: Messages, n: nat)
    requires WellFormed(h) && n <= |h|
    ensures WellFormed(CleanedUp(h[..n])) && CleanedUp(h[..n]) <= h
  {
    InStepPrefix(h, n);
    CleanedUpIsWellFormed(h[..n]);
    CleanedUpIsLongest(h[..n]);
  }

  function NonSystem(h: Messages): Messages {
    if h == [] then [] else NonSystem(h[..|h| - 1]) + (if h[|h| - 1].System? then [] else [h[|h| - 1]])
  }

  ghost predicate NoSystem(h: Messages) {
    h == [] || (!h[|h| - 1].System? && NoSystem(h[..|h| - 1]))
  }

  lemma {:induction false} NonSystemSame(h: Messages)
    requires NoSystem(h)
    ensures NonSystem(h) == h
  {
    if h != [] {
      NonSystemSame(h[..|h| - 1]);
    }
  }

  lemma {:induction false} NonSystemHead(text: string, h: Messages)
    ensures NonSystem([System(text)] + h) == NonSystem(h)
  {
    if h == [] {
      assert [System(text)] + h == [System(text)];
    } else {
      assert ([System(text)] + h)[..|h|] == [System(text)] + h[..|h| - 1];
      NonSystemHead(text, h[..|h| - 1]);
    }
  }

  lemma {:induction false} NoSystemConcat(h: Messages, t: Messages)
    ensures NoSystem(h + t) <==> NoSystem(h) && NoSystem(t)
  {
    if t == [] {
      assert h + t == h;
    } else {
      assert (h + t)[..|h + t| - 1] == h + t[..|t| - 1];
      NoSystemConcat(h, t[..|t| - 1]);
    }
  }

  lemma {:induction false} NoSystemResults(results: seq<ToolResult>)
    ensures NoSystem(ResultMessages(results))
  {
    if results != [] {
      assert ResultMessages(results)[..|results| - 1] == ResultMessages(results[..|results| - 1]);
      NoSystemResults(results[..|results| - 1]);
    }
  }

  /** A first message that neither is a result nor asks for one makes no difference. */
  lemma {:induction false} WaitingWithHead(m: Message, h: Messages)
    requires !m.Tool? && !m.HasCalls()
    ensures Waiting([m] + h) == Waiting(h)
  {
    if h == [] {
      assert [m] + h == [m];
      assert [m][..0] == [];
      assert m.Assistant? ==> Ids(m.calls) == [];
    } else {
      assert ([m] + h)[..|h|] == [m] + h[..|h| - 1];
      WaitingWithHead(m, h[..|h| - 1]);
    }
  }

  /** The history as it is saved and sent: the system prompt first, if there is one. */
  function WithSystem(systemPrompt: string, h: Messages): Messages {
    if systemPrompt != "" then [System(systemPrompt)] + h else h
  }

  /** The system prompt changes nothing about the pairing, and taking it off again gives the history. */
  lemma WithSystemSame(systemPrompt: string, h: Messages)
    ensures Waiting(WithSystem(systemPrompt, h)) == Waiting(h)
    ensures NoSystem(h) ==> NonSystem(WithSystem(systemPrompt, h)) == h
  {
    WaitingWithHead(System(systemPrompt), h);
    NonSystemHead(systemPrompt, h);
    if NoSystem(h) {
      NonSystemSame(h);
    }
  }

  const SUMMARY_HEADER: string := "[Context summary of previous conversation]\n\n"

  /** The history after a compaction: the summary, and behind it calls that still wait for results. */
  function Summarised(systemPrompt: string, h: Messages, summary: string): Messages {
    var head := [User(SUMMARY_HEADER + summary)];
    if h != [] && h[|h| - 1].HasCalls()
    then (if systemPrompt == "" then [] else head) + [h[|h| - 1]]
    else head
  }

  /** The history that a compaction which failed puts back. */
  function PutBack(systemPrompt: string, h: Messages): Messages {
    if systemPrompt == "" && h != [] then h[1..] else h
  }

  lemma WaitingOfOne(m: Message)
    ensures Waiting([m]) == Next([], m)
    ensures !m.System? ==> NoSystem([m])
  {
    assert [m][..0] == [];
  }

  lemma WaitingOfTwo(m: Message, n: Message)
    requires Next([], m) == Waits([])
    ensures Waiting([m] + [n]) == Next([], n)
    ensures !m.System? && !n.System? ==> NoSystem([m] + [n])
  {
    WaitingOfOne(m);
    WaitingPush([m], n);
    assert ([m] + [n])[..1] == [m];
  }

  /** The summary and the pending message, put together the way a compaction does. */
  lemma SummaryThenPending(systemPrompt: string, m: Message, pending: Message)
    requires m.User? && pending.HasCalls()
    ensures WithSystem(systemPrompt, [m]) != []
    ensures NonSystem(WithSystem(systemPrompt, [m])[1..] + [pending]) ==
            (if systemPrompt == "" then [] else [m]) + [pending]
  {
    WaitingOfOne(pending);
    WaitingOfTwo(m, pending);
    if systemPrompt == "" {
      assert [m][1..] + [pending] == [pending] == [] + [pending];
    } else {
      assert ([System(systemPrompt)] + [m])[1..] == [m];
    }
    NonSystemSame((if systemPrompt == "" then [] else [m]) + [pending]);
  }

  /** If the last message made calls, exactly those wait. */
  lemma LastCallsWait(h: Messages)
    requires Waiting(h) != OutOfStep && h != [] && h[|h| - 1].HasCalls()
    ensures Waiting(h) == Next([], h[|h| - 1]) == Waits(Ids(h[|h| - 1].calls)) && Ids(h[|h| - 1].calls) != []
  {
  }

  /** A compaction between turns, or before the first result, leaves the same calls waiting. */
  lemma SummarisedKeepsWaiting(systemPrompt: string, h: Messages, summary: string)
    requires Waiting(h) == Waits([]) || (Waiting(h) != OutOfStep && h[|h| - 1].HasCalls())
    ensures Waiting(Summarised(systemPrompt, h, summary)) == Waiting(h)
    ensures NoSystem(Summarised(systemPrompt, h, summary))
  {
    var m := User(SUMMARY_HEADER + summary);
    if h == [] || !h[|h| - 1].HasCalls() {
      WaitingOfOne(m);
    } else {
      var last := h[|h| - 1];
      LastCallsWait(h);
      if systemPrompt == "" {
        WaitingOfOne(last);
        assert [] + [last] == [last];
      } else {
        WaitingOfTwo(m, last);
      }
    }
  }

  predicate EndsInCalls(h: Messages) {
    h != [] && h[|h| - 1].HasCalls()
  }

  /** The summary is in the compacted history unless calls wait and there is no system prompt. */
  lemma {:induction false} SummaryIsKept(systemPrompt: string, h: Messages, summary: string)
    ensures User(SUMMARY_HEADER + summary) in Summarised(systemPrompt, h, summary) <==>
            systemPrompt != "" || !EndsInCalls(h)
  {
    var m, s := User(SUMMARY_HEADER + summary), Summarised(systemPrompt, h, summary);
    if EndsInCalls(h) {
      assert systemPrompt == "" ==> s == [h[|h| - 1]];
      assert systemPrompt != "" ==> s[0] == m;
    } else {
      assert s[0] == m;
    }
  }

  /** A failed compaction restores the history exactly if and only if there is a system prompt to skip. */
  lemma PutBackIsExact(systemPrompt: string, h: Messages)
    ensures PutBack(systemPrompt, h) == h <==> systemPrompt != "" || h == []
  {
  }

  /** Without one the first message is lost, and the pairing with it if that message made calls. */
  lemma PutBackKeepsWaiting(systemPrompt: string, h: Messages)
    requires Waiting(h) != OutOfStep && h != []
    ensures Waiting(PutBack(systemPrompt, h)) == Waiting(h) <==> systemPrompt != "" || !h[0].HasCalls()
  {
    if systemPrompt == "" {
      assert h == [h[0]] + h[1..];
      InStepPrefix(h, 1);
      assert h[..1][..0] == [];
      if !h[0].HasCalls() {
        WaitingWithHead(h[0], h[1..]);
      } else if |h| == 1 {
        assert h[..1] == h && Ids(h[0].calls) != [];
      } else {
        InStepPrefix(h, 2);
        assert h[..2][..1] == h[..1];
        assert h[1].Tool?;
        ToolFirst(h[1..]);
      }
    }
  }

  lemma {:induction false} ToolFirst(h: Messages)
    requires h != [] && h[0].Tool?
    ensures Waiting(h) == OutOfStep
  {
    if |h| > 1 {
      ToolFirst(h[..|h| - 1]);
    } else {
      assert h[..0] == [];
    }
  }
}
