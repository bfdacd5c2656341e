/** Escaping raw control characters in JSON strings, core/eval/rubric.py:47-78 (strings: RFC 8259, section 7). */
module JsonStrings {
  /** Outside strings, inside one, or inside one right after a backslash. */
  datatype Mode = Outside | Inside | Escaping

  predicate IsRawControl(c: char) {
    c == '\n' || c == '\r' || c == '\t'
  }

  function EscapeLetter(c: char): char {
    if c == '\n' then 'n' else if c == '\r' then 'r' else 't'
  }

  function NextMode(mode: Mode, c: char): Mode {
    match mode
    case Escaping => Inside
    case Inside => if c == '\\' then Escaping else if c == '"' then Outside else Inside
    case Outside => if c == '"' then Inside else Outside
  }

  function ModeAfter(s: string): Mode {
    if s == [] then Outside else NextMode(ModeAfter(s[..|s| - 1]), s[|s| - 1])
  }

  function Escaped(s: string): string {
    if s == [] then []
    else
      var front, c := s[..|s| - 1], s[|s| - 1];
      Escaped(front) + if ModeAfter(front) == Inside && IsRawControl(c) then ['\\', EscapeLetter(c)] else [c]
  }

  method EscapeControlInStrings(s: string) returns (r: string)
    ensures r == Escaped(s)
  {
    r := [];
    var inString, escapeNext := false, false;
    for i := 0 to |s|
      invariant r == Escaped(s[..i])
      invariant ModeAfter(s[..i]) == if escapeNext then Escaping else if inString then Inside else Outside
      invariant escapeNext ==> inString
    {
      var c := s[i];
      assert s[..i + 1][..i] == s[..i];
      if escapeNext {
        r := r + [c];
        escapeNext := false;
        continue;
      }
      if c == '\\' && inString {
        r := r + [c];
        escapeNext := true;
        continue;
      }
      if c == '"' {
        inString := !inString;
        r := r + [c];
        continue;
      }
      if inString && c == '\n' {
        r := r + "\\n";
      } else if inString && c == '\r' {
        r := r + "\\r";
      } else if inString && c == '\t' {
        r := r + "\\t";
      } else {
        r := r + [c];
      }
    }
    assert s[..|s|] == s;
  }

  // ----- A decoder that also takes raw control characters in strings -----

  /** What a text means: marks outside strings, quotes, decoded characters, and escapes that are none. */
  datatype Token =
    | Mark(c: char)
    | Quote
    | Char(c: char)
    | CodeUnit(digits: string)
    | BadEscape(c: char)
    | BadUnicode(digits: string)

  datatype State = Out | In | Esc | Hex(digits: string)

  predicate IsHexDigit(c: char) {
    '0' <= c <= '9' || 'a' <= c <= 'f' || 'A' <= c <= 'F'
  }

  datatype Step = Step(state: State, tokens: seq<Token>)

  function DecodeInside(c: char): Step {
    if c == '\\' then Step(Esc, [])
    else if c == '"' then Step(Out, [Quote])
    else Step(In, [Char(c)])
  }

  function DecodeEscape(c: char): Step {
    match c
    case '"' => Step(In, [Char('"')])
    case '\\' => Step(In, [Char('\\')])
    case '/' => Step(In, [Char('/')])
    case 'b' => Step(In, [Char('\U{08}')])
    case 'f' => Step(In, [Char('\U{0C}')])
    case 'n' => Step(In, [Char('\n')])
    case 'r' => Step(In, [Char('\r')])
    case 't' => Step(In, [Char('\t')])
    case 'u' => Step(Hex(""), [])
    case _ => Step(In, [BadEscape(c)])
  }

  function Decode(state: State, c: char): Step {
    match state
    case Out => if c == '"' then Step(In, [Quote]) else Step(Out, [Mark(c)])
    case In => DecodeInside(c)
    case Esc => DecodeEscape(c)
    case Hex(digits) =>
      if !IsHexDigit(c) then
        var next := DecodeInside(c);
        Step(next.state, [BadUnicode(digits)] + next.tokens)
      else if |digits| < 3 then Step(Hex(digits + [c]), [])
      else Step(In, [CodeUnit(digits + [c])])
  }

  /** The state after a text and the tokens in it. */
  function Decoded(s: string): Step {
    if s == [] then Step(Out, [])
    else
      var front := Decoded(s[..|s| - 1]);
      var next := Decode(front.state, s[|s| - 1]);
      Step(next.state, front.tokens + next.tokens)
  }

  lemma {:induction false} DecodedPush(s: string, c: char)
    ensures Decoded(s + [c]) ==
            var next := Decode(Decoded(s).state, c); Step(next.state, Decoded(s).tokens + next.tokens)
  {
    assert (s + [c])[..|s|] == s;
  }

  function ModeOf(state: State): Mode {
    match state
    case Out => Outside
    case Esc => Escaping
    case _ => Inside
  }

  /** The escaper's flags are what matters of the decoder's state. */
  lemma {:induction false} ModeOfDecoded(s: string)
    ensures ModeAfter(s) == ModeOf(Decoded(s).state)
  {
    if s != [] {
      ModeOfDecoded(s[..|s| - 1]);
    }
  }

  /** A raw control character and its escape decode alike. */
  lemma {:induction false} EscapeDecodes(s: string, c: char)
    requires ModeOf(Decoded(s).state) == Inside && IsRawControl(c)
    ensures Decoded(s + ['\\', EscapeLetter(c)]) == Decoded(s + [c])
  {
    DecodedPush(s, c);
    DecodedPush(s, '\\');
    DecodedPush(s + ['\\'], EscapeLetter(c));
    assert s + ['\\', EscapeLetter(c)] == s + ['\\'] + [EscapeLetter(c)];
    var before := Decoded(s);
    match before.state
    case In =>
      assert before.tokens + [] == before.tokens;
    case Hex(digits) =>
      assert (before.tokens + [BadUnicode(digits)]) + [Char(c)] == before.tokens + ([BadUnicode(digits)] + [Char(c)]);
      assert [BadUnicode(digits)] + [] == [BadUnicode(digits)];
  }

  /** Escaping changes nothing about what a text means. */
  lemma {:induction false} EscapingKeepsMeaning(s: string)
    ensures Decoded(Escaped(s)) == Decoded(s)
  {
    if s != [] {
      var front, c := s[..|s| - 1], s[|s| - 1];
      EscapingKeepsMeaning(front);
      ModeOfDecoded(front);
      assert s == front + [c];
      if ModeAfter(front) == Inside && IsRawControl(c) {
        EscapeDecodes(Escaped(front), c);
      }
      DecodedPush(front, c);
      DecodedPush(Escaped(front), c);
    }
  }

  // ----- What is left of raw control characters -----

  /** Raw control characters stand outside strings or right after a backslash that starts an escape. */
  ghost predicate Clean(s: string) {
    s == [] ||
    (Clean(s[..|s| - 1]) && (IsRawControl(s[|s| - 1]) ==> ModeAfter(s[..|s| - 1]) != Inside))
  }

  lemma {:induction false} CleanAt(s: string, i: nat)
    requires Clean(s) && i < |s| && IsRawControl(s[i])
    ensures ModeAfter(s[..i]) == Outside || (i > 0 && s[i - 1] == '\\' && ModeAfter(s[..i]) == Escaping)
  {
    if i < |s| - 1 {
      assert s[..|s| - 1][..i] == s[..i];
      CleanAt(s[..|s| - 1], i);
    } else if i > 0 {
      assert s[..i][..i - 1] == s[..i - 1];
    }
  }

  lemma {:induction false} ModePush(s: string, c: char)
    ensures ModeAfter(s + [c]) == NextMode(ModeAfter(s), c)
    ensures Clean(s + [c]) <==> Clean(s) && (IsRawControl(c) ==> ModeAfter(s) != Inside)
  {
    assert (s + [c])[..|s|] == s;
  }

  /** In an escaped text a newline, return or tab stands outside strings or right after an escaping backslash. */
  lemma {:induction false} NoneLeftInside(s: string, i: nat)
    requires i < |Escaped(s)| && Escaped(s)[i] in "\n\r\t"
    ensures ModeAfter(Escaped(s)[..i]) == Outside
            || (i > 0 && Escaped(s)[i - 1] == '\\' && ModeAfter(Escaped(s)[..i]) == Escaping)
  {
    EscapedIsClean(s);
    CleanAt(Escaped(s), i);
  }

  lemma {:induction false} EscapedIsClean(s: string)
    ensures Clean(Escaped(s)) && ModeAfter(Escaped(s)) == ModeAfter(s)
  {
    if s != [] {
      var front, c := s[..|s| - 1], s[|s| - 1];
      EscapedIsClean(front);
      if ModeAfter(front) == Inside && IsRawControl(c) {
        ModePush(Escaped(front), '\\');
        ModePush(Escaped(front) + ['\\'], EscapeLetter(c));
        assert Escaped(s) == Escaped(front) + ['\\'] + [EscapeLetter(c)];
      } else {
        ModePush(Escaped(front), c);
      }
    }
  }

  /** A text without newlines, returns and tabs stays as it is. */
  lemma {:induction false} NothingToEscape(s: string)
    requires forall i :: 0 <= i < |s| ==> s[i] !in "\n\r\t"
    ensures Escaped(s) == s
  {
    if s != [] {
      NothingToEscape(s[..|s| - 1]);
    }
  }

  /** Just the clean texts stay as they are. */
  lemma {:induction false} CleanIsFixed(s: string)
    ensures Escaped(s) == s <==> Clean(s)
    ensures |Escaped(s)| >= |s|
  {
    if s != [] {
      var front, c := s[..|s| - 1], s[|s| - 1];
      CleanIsFixed(front);
      assert s == front + [c];
      if Escaped(s) == s {
        assert |Escaped(front)| == |front|;
        assert Escaped(s)[..|front|] == Escaped(front);
      }
    }
  }

  /** Escaping twice is escaping once. */
  lemma {:induction false} EscapingIsIdempotent(s: string)
    ensures Escaped(Escaped(s)) == Escaped(s)
  {
    EscapedIsClean(s);
    CleanIsFixed(Escaped(s));
  }

  ghost predicate NoBadEscape(tokens: seq<Token>) {
    forall t :: t in tokens ==> !t.BadEscape?
  }

  /** If a text has no bad escapes, then after escaping no string in it holds a raw control character. */
  lemma {:induction false} GoodTextIsStrict(s: string, i: nat)
    requires NoBadEscape(Decoded(s).tokens) && i < |Escaped(s)| && Escaped(s)[i] in "\n\r\t"
    ensures ModeAfter(Escaped(s)[..i]) == Outside
  {
    EscapedIsClean(s);
    EscapingKeepsMeaning(s);
    CleanAt(Escaped(s), i);
    ModeOfDecoded(Escaped(s)[..i]);
    if Decoded(Escaped(s)[..i]).state == Esc {
      BadEscapeStays(Escaped(s), i);
    }
  }

  lemma {:induction false} BadEscapeStays(s: string, i: nat)
    requires i < |s| && IsRawControl(s[i]) && Decoded(s[..i]).state == Esc
    ensures BadEscape(s[i]) in Decoded(s).tokens
  {
    if i < |s| - 1 {
      assert s[..|s| - 1][..i] == s[..i];
      BadEscapeStays(s[..|s| - 1], i);
    } else {
      assert Decode(Esc, s[i]).tokens[0] == BadEscape(s[i]);
    }
  }
}
