/** The runtime that routes tool calls to their servers and budgets the results, core/mcp/tool_runtime.py. */
module ToolRuntimes {
  import opened Wrappers
  import opened Protocol
  import opened ResultBudget

  function CallId(call: ToolCall, index: nat): string {
    if call.id != "" then call.id else "tool_call_" + Decimal(index)
  }

  function NoOutputText(name: string): (text: string)
    ensures !Blank(text)
  {
    var text := "(" + name + " completed with no output)";
    assert text[0] == '(';
    text
  }

  /** The result is that of call `i`. */
  predicate IsAnswer(calls: seq<ToolCall>, r: ToolResult, i: nat) {
    i < |calls| && r.callId == CallId(calls[i], i) && r.toolName == calls[i].name
  }

  /** One result per call, in the order of the calls. */
  ghost predicate Answers(calls: seq<ToolCall>, results: seq<ToolResult>) {
    |results| == |calls| && forall i :: 0 <= i < |calls| ==> IsAnswer(calls, results[i], i)
  }

  /** A call as it was sent to its server, and the answer. */
  datatype Output = Output(name: string, arguments: string, content: string, isError: bool)

  class ToolRuntime {
    const settings: Settings
    const errorContent: (string, string, string) -> string
    var discovered: set<string>
    var allowedTools: set<string>
    var files: Files
    ghost var executed: set<ToolCall>   // the calls executed so far
    ghost var executions: nat           // how many executions that were
    ghost var outputs: seq<Output>      // what the servers answered
    ghost var writeFailures: nat        // result files that could not be written

    constructor (settings: Settings, errorContent: (string, string, string) -> string, discovered: set<string>,
                 allowedTools: set<string>)
      ensures this.settings == settings && this.discovered == discovered && this.allowedTools == allowedTools
    {
      this.settings, this.errorContent := settings, errorContent;
      this.discovered, this.allowedTools, files := discovered, allowedTools, map[];
      executed, executions, outputs, writeFailures := {}, 0, [], 0;
    }

    /** An empty allowlist stands for every tool that was discovered. */
    function GetAllowedTools(): (allowed: set<string>)
      reads this
      ensures forall name :: name in allowed <==> name in discovered && (allowedTools == {} || name in allowedTools)
    {
      if allowedTools == {} then discovered else allowedTools * discovered
    }

    /** Writes the full result to a file, which may fail, and returns what stands for it. */
    method PersistResult(callId: string, content: string) returns (text: string, ghost written: bool)
      modifies this`files, this`writeFailures
      ensures text == PersistText(settings, callId, content, written)
      ensures FileWritten(old(files), files, callId, content, written)
      ensures written <==> writeFailures == old(writeFailures)
      ensures writeFailures >= old(writeFailures)
    {
      var ok := WriteFile(SafeId(callId), content);
      if !ok {
        return TruncatedText(settings, content, PREVIEW_SIZE_CHARS), false;
      }
      text, written := PersistText(settings, callId, content, true), true;
    }

    /** Writes a file, which may fail, leaving whatever was written until then. */
    method WriteFile(name: string, content: string) returns (ok: bool)
      modifies this`files, this`writeFailures
      ensures ok ==> files == old(files)[name := content] && writeFailures == old(writeFailures)
      ensures !ok ==> writeFailures == old(writeFailures) + 1
      ensures forall n :: n != name && n in old(files) ==> n in files && files[n] == old(files)[n]
    {
      ok := *;
      if ok {
        files := files[name := content];
        return;
      }
      writeFailures := writeFailures + 1;
      var partial: bool := *;
      if partial {
        var fragment: string := *;
        files := files[name := fragment];
      }
    }

    /** Persists the largest eligible results, in place, until the total fits the budget. */
    method ApplyAggregateBudget(results: array<ToolResult>, ghost fulls: seq<string>) returns (ghost written: seq<bool>)
      modifies results, this`files, this`writeFailures
      ensures Budgeted(settings, old(results[..]), results[..], written)
      ensures writeFailures >= old(writeFailures) && (writeFailures == old(writeFailures) ==> false !in written)
      ensures Spares(settings, old(results[..]), results[..])
      ensures settings.persistDir == None ==> files == old(files)
      ensures NothingLost(old(files), old(results[..]), files, results[..], fulls, written)
    {
      written := [];
      ghost var start := results[..];
      if settings.persistDir == None {
        BudgetedSpares(settings, start, results[..], written);
        return;
      }
      var total := SumOfSizes(results);
      if total <= MAX_RESULTS_PER_MESSAGE_CHARS {
        BudgetedSpares(settings, start, results[..], written);
        return;
      }
      var eligible := CollectEligible(results);
      var candidates := LargestFirst(results[..], eligible);
      ghost var rs := results[..];
      var k := 0;
      while k < |candidates| && total > MAX_RESULTS_PER_MESSAGE_CHARS
        invariant 0 <= k == |written| <= |candidates|
        invariant BudgetedTo(settings, rs, candidates, results[..], written)
        invariant total == TotalSize(results[..])
        invariant NothingLost(old(files), rs, files, results[..], fulls, written)
        invariant writeFailures >= old(writeFailures)
        invariant writeFailures == old(writeFailures) ==> false !in written
      {
        total, written := ReplaceOne(results, candidates, k, total, rs, old(files), fulls, written);
        k := k + 1;
      }
      BudgetedSpares(settings, start, results[..], written);
    }

    /** Persists the k-th candidate and keeps the running total exact. */
    method ReplaceOne(results: array<ToolResult>, candidates: seq<nat>, k: nat, total: nat, ghost rs: seq<ToolResult>,
                      ghost files0: Files, ghost fulls: seq<string>, ghost written: seq<bool>)
      returns (total': nat, ghost written': seq<bool>)
      requires settings.persistDir.Some?
      requires candidates == Order(settings, rs) && |written| == k < |candidates|
      requires BudgetedTo(settings, rs, candidates, results[..], written)
      requires total == TotalSize(results[..]) > MAX_RESULTS_PER_MESSAGE_CHARS
      requires NothingLost(files0, rs, files, results[..], fulls, written)
      modifies results, this`files, this`writeFailures
      ensures |written'| == k + 1 && BudgetedTo(settings, rs, candidates, results[..], written')
      ensures total' == TotalSize(results[..])
      ensures writeFailures >= old(writeFailures)
      ensures writeFailures == old(writeFailures) && false !in written ==> false !in written'
      ensures NothingLost(files0, rs, files, results[..], fulls, written')
    {
      ghost var before := results[..];
      var index := candidates[k];
      NextReplacement(settings, rs, candidates, before, written, index, [], true);
      var r := results[index];
      var content;
      ghost var ok;
      content, ok := PersistResult(r.callId, r.content);
      NextReplacement(settings, rs, candidates, before, written, index, content, ok);
      results[index] := ToolResult(r.callId, content, r.toolName, r.isError);
      assert results[..] == before[index := r.(content := content)];
      total' := total - |r.content| + |content|;
      NothingLostNext(settings, files0, rs, old(files), before, fulls, written, files, index, ok);
      written' := written + [ok];
    }

    method SumOfSizes(results: array<ToolResult>) returns (total: nat)
      ensures total == TotalSize(results[..])
    {
      total := 0;
      for i := 0 to results.Length
        invariant total == TotalSize(results[..i])
      {
        assert results[..i + 1][..i] == results[..i];
        total := total + |results[i].content|;
      }
      assert results[..results.Length] == results[..];
    }

    method CollectEligible(results: array<ToolResult>) returns (candidates: seq<nat>)
      ensures candidates == Eligible(settings, results[..])
    {
      candidates := [];
      for i := 0 to results.Length
        invariant candidates == Eligible(settings, results[..i])
      {
        assert results[..i + 1][..i] == results[..i];
        if IsEligible(settings, results[i]) {
          candidates := candidates + [i];
        }
      }
      assert results[..results.Length] == results[..];
    }

    /** The server's answer, an exception being one that is an error. */
    method CallTool(name: string, arguments: string) returns (content: string, isError: bool)
      modifies this`outputs
      ensures outputs == old(outputs) + [Output(name, arguments, content, isError)]
    {
      content, isError := *, *;
      outputs := outputs + [Output(name, arguments, content, isError)];
    }

    function MissingNameText(): string {
      errorContent("", "Malformed tool call: missing function name.", "")
    }

    function NotAllowedText(call: ToolCall): string {
      errorContent(call.name, "Tool '" + call.name + "' is not allowed.", call.arguments)
    }

    /** One call: refused, or made and its output budgeted. `full` is the text before budgeting. */
    method ExecuteOne(call: ToolCall, index: nat, allowed: set<string>)
      returns (r: ToolResult, ghost full: string, ghost written: bool)
      modifies this`files, this`executed, this`executions, this`outputs, this`writeFailures
      ensures executed == old(executed) + {call} && executions == old(executions) + 1
      ensures call.id != "" ==> r.callId == call.id
      ensures call.name == "" || call.name !in allowed ==> outputs == old(outputs)
      ensures call.name != "" && call.name in allowed ==> IsOutput(old(outputs), outputs, call, r, full)
      ensures call.name != "" && call.name in allowed && Fits(settings, call.name, full) ==> r.content == full
      ensures writeFailures >= old(writeFailures) && (writeFailures == old(writeFailures) ==> written)
      ensures r.callId == CallId(call, index) && r.toolName == call.name
      ensures call.name == "" || call.name !in allowed ==> r.isError && r.content == full && files == old(files)
      ensures call.name != "" && call.name in allowed ==>
                r.content == Trimmed(settings, call.name, r.callId, full, written) && (r.isError || !Blank(full))
      ensures FileWritten(old(files), files, r.callId, full, false)
      ensures settings.persistDir.Some? && written ==> Recoverable(files, r, full)
    {
      executed, executions := executed + {call}, executions + 1;
      var callId := CallId(call, index);
      written := true;
      if call.name == "" {
        full := MissingNameText();
        r := ToolResult(callId, MissingNameText(), "", true);
        return;
      }
      if call.name !in allowed {
        full := NotAllowedText(call);
        r := ToolResult(callId, NotAllowedText(call), call.name, true);
        return;
      }
      var content, isError := CallTool(call.name, call.arguments);
      if !isError && Blank(content) {
        content := NoOutputText(call.name);
      }
      full := content;
      content, written := ApplyToolBudget(callId, call.name, content);
      r := ToolResult(callId, content, call.name, isError);
    }

    /** The per-tool budget: a text over the limit is persisted or, if there is nowhere to, cut off. */
    method ApplyToolBudget(callId: string, toolName: string, full: string)
      returns (content: string, ghost written: bool)
      modifies this`files, this`writeFailures
      ensures content == Trimmed(settings, toolName, callId, full, written)
      ensures Fits(settings, toolName, full) ==> content == full
      ensures FileWritten(old(files), files, callId, full, false)
      ensures settings.persistDir.Some? && written ==>
                content == full
                || (Contains(content, PERSISTENCE_MARKER)
                    && SafeId(callId) in files && files[SafeId(callId)] == full)
      ensures writeFailures >= old(writeFailures) && (writeFailures == old(writeFailures) ==> written)
    {
      content, written := full, true;
      var limit := EffectiveLimit(settings, toolName);
      if limit.Some? && |content| > limit.value {
        if settings.persistDir.Some? {
          content, written := PersistResult(callId, content);
          PersistedIsMarked(settings, ToolResult(callId, full, toolName, false));
        } else {
          content := TruncatedText(settings, content, limit.value);
        }
      }
      TrimmedMeans(settings, toolName, callId, full, written);
    }

    /** The call was sent to its server, and this is the text and the kind of the answer. */
    ghost predicate IsOutput(before: seq<Output>, after: seq<Output>, call: ToolCall, r: ToolResult, full: string) {
      && |after| == |before| + 1 && before <= after
      && var output := after[|before|];
         && output.name == call.name && output.arguments == call.arguments && output.isError == r.isError
         && full == if !output.isError && Blank(output.content) then NoOutputText(call.name) else output.content
    }

    /**
     Executes tool calls: one result per call, in order. When results are persisted, every write works and
     the ids name different files, no output is lost.
     */
    method Execute(calls: seq<ToolCall>) returns (results: array<ToolResult>, ghost run: Run)
      modifies this`files, this`executed, this`executions, this`outputs, this`writeFailures
      ensures executed == old(executed) + CallSet(calls) && executions == old(executions) + |calls|
      ensures fresh(results) && Answers(calls, results[..])
      ensures run in Runs(settings, old(GetAllowedTools()), calls, results[..], files)
      ensures writeFailures == old(writeFailures) ==> run.allWritten
    {
      var allowed := GetAllowedTools();
      var built;
      ghost var b;
      built, b := ExecuteAll(calls, allowed);
      results := new ToolResult[|built|](i requires 0 <= i < |built| => built[i]);
      assert results[..] == built;
      ghost var files0 := files;
      ghost var written := ApplyAggregateBudget(results, b.fulls);
      TrimmedThenBudgeted(settings, allowed, calls, files0, files, b, results[..], written);
      run := Run(b.results, b.fulls, written, b.allWritten && false !in written);
    }

    /** Executes the calls one after the other, each within its own budget. */
    method ExecuteAll(calls: seq<ToolCall>, allowed: set<string>) returns (built: seq<ToolResult>, ghost b: Batch)
      modifies this`files, this`executed, this`executions, this`outputs, this`writeFailures
      ensures executed == old(executed) + CallSet(calls) && executions == old(executions) + |calls|
      ensures b in TrimmedTo(settings, allowed, calls, |calls|, files) && b.results == built
      ensures writeFailures >= old(writeFailures) && (writeFailures == old(writeFailures) ==> b.allWritten)
    {
      built := [];
      b := Batch([], [], true);
      for i := 0 to |calls|
        invariant executed == old(executed) + CallSet(calls[..i]) && executions == old(executions) + i
        invariant b in TrimmedTo(settings, allowed, calls, i, files) && b.results == built
        invariant writeFailures >= old(writeFailures) && (writeFailures == old(writeFailures) ==> b.allWritten)
      {
        ghost var files0 := files;
        var r;
        ghost var full, ok;
        r, full, ok := ExecuteOne(calls[i], i, allowed);
        CallSetUpTo(calls, i);
        TrimmedNext(settings, allowed, calls, i, files0, files, b, r, full, ok);
        built := built + [r];
        b := Batch(built, b.fulls + [full], b.allWritten && ok);
      }
      assert calls[..|calls|] == calls;
    }
  }

  /** What a run of calls was: the results within their own limits, the full texts, and which files were written. */
  datatype Run = Run(trimmed: seq<ToolResult>, fulls: seq<string>, written: seq<bool>, allWritten: bool)

  /**
   The runs that end with these results: each is its call's own output or refusal within the tool's limit, and
   then all are budgeted together. What tools without limits said is there as it is; refused calls are errors;
   and if every write worked and the ids name different files, every full text can be read.
   */
  ghost function Runs(s: Settings, allowed: set<string>, calls: seq<ToolCall>, rs: seq<ToolResult>, files: Files)
    : iset<Run>
  {
    iset x: Run |
      && TrimmedAndBudgeted(s, allowed, calls, x.trimmed, x.fulls, rs, x.written)
      && |x.fulls| == |rs| == |calls|
      && (forall i :: 0 <= i < |calls| && s.maxResultChars(calls[i].name) == None ==> rs[i].content == x.fulls[i])
      && (forall i :: 0 <= i < |calls| && (calls[i].name == "" || calls[i].name !in allowed) ==> rs[i].isError)
      && (s.persistDir.Some? && x.allWritten && IdsApart(rs) ==> AllRecoverable(files, rs, x.fulls))
  }

  /** The results of a batch before the aggregate budget, the full texts, and whether every write worked. */
  datatype Batch = Batch(results: seq<ToolResult>, fulls: seq<string>, allWritten: bool)

  /** The result holds what the per-tool budget leaves of the call's full text, or the refusal of the call. */
  ghost predicate IsTrimmedResult(s: Settings, allowed: set<string>, call: ToolCall, r: ToolResult, full: string) {
    if call.name == "" || call.name !in allowed then r.isError && r.content == full
    else exists ok :: r.content == Trimmed(s, call.name, r.callId, full, ok)
  }

  /**
   The first `n` calls have been executed: each result answers its call and is trimmed, and if every write
   worked and the ids name different files, every full text can be recovered.
   */
  ghost function TrimmedTo(s: Settings, allowed: set<string>, calls: seq<ToolCall>, n: nat, files: Files): iset<Batch> {
    iset b: Batch |
      && |b.results| == |b.fulls| == n <= |calls|
      && (forall i :: 0 <= i < n ==> IsAnswer(calls, b.results[i], i))
      && (forall i :: 0 <= i < n ==> IsTrimmedResult(s, allowed, calls[i], b.results[i], b.fulls[i]))
      && (s.persistDir.Some? && b.allWritten && IdsApart(b.results) ==> AllRecoverable(files, b.results, b.fulls))
  }

  /** What executing the calls together may give: results within their own limits, then budgeted together. */
  ghost predicate AreOutputs(s: Settings, allowed: set<string>, calls: seq<ToolCall>, rs: seq<ToolResult>) {
    exists trimmed, fulls, written :: TrimmedAndBudgeted(s, allowed, calls, trimmed, fulls, rs, written)
  }

  ghost predicate TrimmedAndBudgeted(s: Settings, allowed: set<string>, calls: seq<ToolCall>, trimmed: seq<ToolResult>,
                                     fulls: seq<string>, rs: seq<ToolResult>, written: seq<bool>) {
    Batch(trimmed, fulls, false) in TrimmedTo(s, allowed, calls, |calls|, map[]) && Budgeted(s, trimmed, rs, written)
  }

  /** What executing each call by itself may give, all the results being budgeted together afterwards. */
  ghost predicate AreGathered(s: Settings, allowed: set<string>, calls: seq<ToolCall>, rs: seq<ToolResult>) {
    exists singles, written :: SinglesAndBudgeted(s, allowed, calls, singles, rs, written)
  }

  ghost predicate SinglesAndBudgeted(s: Settings, allowed: set<string>, calls: seq<ToolCall>, singles: seq<ToolResult>,
                                     rs: seq<ToolResult>, written: seq<bool>) {
    && |singles| == |calls| && (forall i :: 0 <= i < |calls| ==> AreOutputs(s, allowed, [calls[i]], [singles[i]]))
    && Budgeted(s, singles, rs, written)
  }

  lemma {:induction false} RunsGive(s: Settings, allowed: set<string>, calls: seq<ToolCall>, rs: seq<ToolResult>,
                                    files: Files, x: Run)
    requires x in Runs(s, allowed, calls, rs, files)
    ensures AreOutputs(s, allowed, calls, rs)
  {
    assert TrimmedAndBudgeted(s, allowed, calls, x.trimmed, x.fulls, rs, x.written);
  }

  lemma {:induction false} TrimmedNext(s: Settings, allowed: set<string>, calls: seq<ToolCall>, i: nat, files: Files,
                                       files': Files, b: Batch, r: ToolResult, full: string, ok: bool)
    requires i < |calls| && b in TrimmedTo(s, allowed, calls, i, files)
    requires IsAnswer(calls, r, i) && IsTrimmedResult(s, allowed, calls[i], r, full)
    requires FileWritten(files, files', r.callId, full, false)
    requires s.persistDir.Some? && ok ==> Recoverable(files', r, full)
    ensures Batch(b.results + [r], b.fulls + [full], b.allWritten && ok) in TrimmedTo(s, allowed, calls, i + 1, files')
  {
    if s.persistDir.Some? && b.allWritten && ok && IdsApart(b.results + [r]) {
      IdsApartFront(b.results, r);
      RecoverablePush(files, files', b.results, b.fulls, r, full, full, false);
    }
  }

  lemma {:induction false} TrimmedThenBudgeted(s: Settings, allowed: set<string>, calls: seq<ToolCall>, files: Files,
                                               files': Files, b: Batch, rs: seq<ToolResult>, written: seq<bool>)
    requires b in TrimmedTo(s, allowed, calls, |calls|, files) && Budgeted(s, b.results, rs, written)
    requires NothingLost(files, b.results, files', rs, b.fulls, written)
    ensures Answers(calls, rs)
    ensures Run(b.results, b.fulls, written, b.allWritten && false !in written) in Runs(s, allowed, calls, rs, files')
  {
    BudgetedKeeps(s, b.results, rs, written);
    BudgetedSpares(s, b.results, rs, written);
    forall i | 0 <= i < |calls|
      ensures IsAnswer(calls, rs[i], i)
      ensures calls[i].name == "" || calls[i].name !in allowed ==> rs[i].isError
      ensures s.maxResultChars(calls[i].name) == None ==> rs[i].content == b.fulls[i]
    {
      TrimmedAt(s, allowed, calls, files, b, rs, i);
    }
    StillRecoverable(s, allowed, calls, files, files', b, rs, written);
    assert TrimmedAndBudgeted(s, allowed, calls, b.results, b.fulls, rs, written);
  }

  lemma {:induction false} TrimmedAt(s: Settings, allowed: set<string>, calls: seq<ToolCall>, files: Files, b: Batch,
                                     rs: seq<ToolResult>, i: nat)
    requires b in TrimmedTo(s, allowed, calls, |calls|, files) && i < |calls| && |rs| == |calls|
    requires rs[i] == b.results[i].(content := rs[i].content)
    requires IsSpared(s, b.results[i]) ==> rs[i] == b.results[i]
    ensures IsAnswer(calls, rs[i], i)
    ensures calls[i].name == "" || calls[i].name !in allowed ==> rs[i].isError
    ensures s.maxResultChars(calls[i].name) == None ==> rs[i].content == b.fulls[i]
  {
    assert IsAnswer(calls, b.results[i], i) && IsTrimmedResult(s, allowed, calls[i], b.results[i], b.fulls[i]);
  }

  lemma {:induction false} StillRecoverable(s: Settings, allowed: set<string>, calls: seq<ToolCall>, files: Files,
                                            files': Files, b: Batch, rs: seq<ToolResult>, written: seq<bool>)
    requires b in TrimmedTo(s, allowed, calls, |calls|, files) && |rs| == |b.results|
    requires forall i :: 0 <= i < |rs| ==> rs[i].callId == b.results[i].callId
    requires NothingLost(files, b.results, files', rs, b.fulls, written)
    ensures s.persistDir.Some? && b.allWritten && false !in written && IdsApart(rs) ==>
              AllRecoverable(files', rs, b.fulls)
  {
    SameIdsApart(b.results, rs);
  }

  lemma IdsApartFront(rs: seq<ToolResult>, r: ToolResult)
    requires IdsApart(rs + [r])
    ensures IdsApart(rs)
  {
    forall a, b | 0 <= a < b < |rs| ensures SafeId(rs[a].callId) != SafeId(rs[b].callId) {
      assert (rs + [r])[a] == rs[a] && (rs + [r])[b] == rs[b];
    }
  }

  lemma SameIdsApart(rs: seq<ToolResult>, rs': seq<ToolResult>)
    requires |rs'| == |rs| && forall i :: 0 <= i < |rs| ==> rs'[i].callId == rs[i].callId
    ensures IdsApart(rs') <==> IdsApart(rs)
  {
  }
}
