/** The owner of the chat history, core/inference/openai_api.py. */
module OpenAIInferences {
  import opened Protocol
  import opened Conversations

  /** What one LLM turn yields; `cutOff` is finish_reason "length". */
  datatype TurnResult = TurnResult(text: string, thinking: string, calls: seq<ToolCall>, cutOff: bool, inputTokens: nat)

  datatype Reply = Turn(result: TurnResult) | PromptTooLong | Failed

  /** A tool call as the provider sends it; `valid` says whether the arguments are JSON. */
  datatype RawCall = RawCall(id: string, name: string, arguments: string, valid: bool)

  function BuildToolCall(raw: RawCall, index: nat): (call: ToolCall)
    ensures call.id != ""
    ensures raw.id != "" ==> call.id == raw.id
    ensures call.truncated <==> !raw.valid
    ensures call.name == raw.name && call.arguments == raw.arguments
  {
    ToolCall(if raw.id != "" then raw.id else "call_" + Decimal(index), raw.name, raw.arguments, !raw.valid)
  }

  ghost predicate AllHaveIds(calls: seq<ToolCall>) {
    forall i :: 0 <= i < |calls| ==> calls[i].id != ""
  }

  class OpenAIInference {
    var systemPrompt: string
    var messages: Messages
    ghost var asked: seq<Messages>   // what each LLM call was sent
    ghost var answers: seq<Reply>    // what came of each

    constructor ()
      ensures systemPrompt == "" && messages == [] && asked == [] && answers == []
    {
      systemPrompt, messages, asked, answers := "", [], [], [];
    }

    method SetSystemPrompt(prompt: string)
      modifies this`systemPrompt
      ensures systemPrompt == prompt
    {
      systemPrompt := prompt;
    }

    method AddUserMessage(content: string)
      modifies this`messages
      ensures messages == old(messages) + [User(content)]
    {
      messages := messages + [User(content)];
    }

    /** One message per result, in order, with the result's id and its content. */
    method AddToolResults(results: seq<ToolResult>)
      modifies this`messages
      ensures messages == old(messages) + ResultMessages(results)
      ensures |messages| == |old(messages)| + |results| && old(messages) <= messages
      ensures forall i :: 0 <= i < |results| ==>
                var m := messages[|old(messages)| + i];
                m.Tool? && m.callId == results[i].callId && m.content == results[i].content
    {
      messages := messages + ResultMessages(results);
    }

    method Reset()
      modifies this`messages
      ensures messages == []
    {
      messages := [];
    }

    /** The system prompt comes first, if there is one. */
    function GetMessages(): (all: Messages)
      reads this
      ensures systemPrompt == "" ==> all == messages
      ensures systemPrompt != "" ==> all != [] && all[0] == System(systemPrompt) && all[1..] == messages
    {
      WithSystem(systemPrompt, messages)
    }

    method AppendAssistantMessage(text: string, thinking: string, calls: seq<ToolCall>)
      modifies this`messages
      ensures messages == old(messages) + [Assistant(text, thinking, calls)]
    {
      messages := messages + [Assistant(text, thinking, calls)];
    }

    method NormalizeToolCalls(raw: seq<RawCall>) returns (calls: seq<ToolCall>)
      ensures |calls| == |raw| && AllHaveIds(calls)
      ensures forall i :: 0 <= i < |raw| ==> calls[i] == BuildToolCall(raw[i], i)
    {
      calls := [];
      for i := 0 to |raw|
        invariant |calls| == i && AllHaveIds(calls)
        invariant forall j :: 0 <= j < i ==> calls[j] == BuildToolCall(raw[j], j)
      {
        calls := calls + [BuildToolCall(raw[i], i)];
      }
    }

    /** One LLM call over the whole history. What the provider answers is not determined here. */
    method Complete() returns (reply: Reply)
      modifies this`messages, this`asked, this`answers
      ensures asked == old(asked) + [old(GetMessages())] && answers == old(answers) + [reply]
      ensures reply.Turn? ==>
                var r := reply.result;
                AllHaveIds(r.calls) && messages == old(messages) + [Assistant(r.text, r.thinking, r.calls)]
      ensures !reply.Turn? ==> messages == old(messages)
    {
      asked := asked + [GetMessages()];
      var tooLong: bool, failed: bool := *, *;
      if tooLong {
        answers := answers + [PromptTooLong];
        return PromptTooLong;
      }
      if failed {
        answers := answers + [Failed];
        return Failed;
      }
      var text: string, thinking: string, cutOff: bool := *, *, *;
      var raw: seq<RawCall> := *;
      var inputTokens: nat :| true;
      var calls := NormalizeToolCalls(raw);
      AppendAssistantMessage(text, thinking, calls);
      reply := Turn(TurnResult(text, thinking, calls, cutOff, inputTokens));
      answers := answers + [reply];
    }

    method ReplaceHistory(summary: string)
      modifies this`messages
      ensures messages == [User(SUMMARY_HEADER + summary)]
    {
      Reset();
      messages := messages + [User(SUMMARY_HEADER + summary)];
    }

    method ReplaceMessages(saved: Messages)
      modifies this`messages
      ensures messages == NonSystem(saved) && NoSystem(messages)
    {
      NonSystemHasNone(saved);
      messages := NonSystem(saved);
    }

    /**
     Pops what an interruption left at the end of the history: results, messages that made calls, and blank
     answers.
     */
    method CleanupInterrupted()
      modifies this`messages
      ensures messages == CleanedUp(old(messages))
      ensures messages <= old(messages)
      ensures messages != [] ==>
                var last := messages[|messages| - 1];
                !last.Tool? && (last.Assistant? ==> last.calls == [] && !Blank(last.text))
      ensures forall n :: |messages| <= n < |old(messages)| ==>
                var m := old(messages)[n];
                m.Tool? || (m.Assistant? && (m.calls != [] || Blank(m.text)))
    {
      while messages != []
        invariant CleanedUp(messages) == CleanedUp(old(messages))
        invariant messages <= old(messages)
        invariant forall n :: |messages| <= n < |old(messages)| ==>
                    var m := old(messages)[n];
                    m.Tool? || (m.Assistant? && (m.calls != [] || Blank(m.text)))
      {
        var last := messages[|messages| - 1];
        if last.Tool? {
          messages := messages[..|messages| - 1];
          continue;
        }
        if last.Assistant? {
          if last.calls != [] {
            messages := messages[..|messages| - 1];
            continue;
          }
          if Blank(last.text) {
            messages := messages[..|messages| - 1];
            continue;
          }
        }
        break;
      }
    }
  }

  lemma {:induction false} NonSystemHasNone(h: Messages)
    ensures NoSystem(NonSystem(h))
  {
    if h != [] {
      NonSystemHasNone(h[..|h| - 1]);
      NoSystemConcat(NonSystem(h[..|h| - 1]), if h[|h| - 1].System? then [] else [h[|h| - 1]]);
    }
  }
}
