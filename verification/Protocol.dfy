/** The values that the model, the tools and the agent exchange, core/inference/protocol.py. */
module Protocol {
  datatype ToolCall = ToolCall(id: string, name: string, arguments: string, truncated: bool)

  datatype ToolResult = ToolResult(callId: string, content: string, toolName: string, isError: bool)

  const WHITESPACE: string := " \t\n\r\U{0B}\U{0C}"

  /** Nothing is left once the text is stripped. */
  predicate Blank(text: string) {
    forall i :: 0 <= i < |text| ==> text[i] in WHITESPACE
  }

  function Decimal(n: nat): string {
    if n < 10 then [('0' as int + n) as char] else Decimal(n / 10) + [('0' as int + n % 10) as char]
  }

  /** The number that decimal digits stand for. */
  function Read(digits: string): int {
    if digits == [] then 0 else 10 * Read(digits[..|digits| - 1]) + (digits[|digits| - 1] as int - '0' as int)
  }

  /** A number is read back from its digits; no two numbers have the same. */
  lemma {:induction false} DecimalReads(n: nat)
    ensures Read(Decimal(n)) == n
  {
    var last := ('0' as int + n % 10) as char;
    if n >= 10 {
      DecimalReads(n / 10);
      assert (Decimal(n / 10) + [last])[..|Decimal(n / 10)|] == Decimal(n / 10);
    } else {
      assert Decimal(n)[..0] == [];
    }
  }

  function CallSet(calls: seq<ToolCall>): set<ToolCall> {
    set call | call in calls
  }

  lemma {:induction false} CallSetUpTo(calls: seq<ToolCall>, i: nat)
    requires i < |calls|
    ensures CallSet(calls[..i + 1]) == CallSet(calls[..i]) + {calls[i]}
  {
    assert calls[..i + 1] == calls[..i] + [calls[i]];
  }
}
