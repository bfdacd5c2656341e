/**
 What budgeting does to tool results, as functions on values: which results are eligible, in which order
 they are replaced by previews, and what is left (core/mcp/tool_runtime.py:223-307).
 */
module ResultBudget {
  import opened Wrappers
  import opened Protocol
  import opened Splitting
  import opened Sequences

  const SYSTEM_MAX_RESULT_CHARS: nat := 50_000
  const MAX_RESULTS_PER_MESSAGE_CHARS: nat := 200_000
  const PREVIEW_SIZE_CHARS: nat := 2_000
  const PERSISTENCE_MARKER: string := "[Result persisted to"

  /** `maxResultChars` is None for tools that opt out of persistence; `sizeNote` words the sizes. */
  datatype Settings = Settings(
    maxResultChars: string -> Option<nat>,
    persistDir: Option<string>,
    sizeNote: (nat, nat) -> string)

  /** The smaller of the tool's own limit and that of the system; none for tools that opt out. */
  function EffectiveLimit(s: Settings, toolName: string): (limit: Option<nat>)
    ensures limit == None <==> s.maxResultChars(toolName) == None
    ensures limit.Some? ==>
              var own := s.maxResultChars(toolName).value;
              limit.value <= own && limit.value <= 50_000 && (limit.value == own || limit.value == 50_000)
  {
    match s.maxResultChars(toolName)
    case None => None
    case Some(raw) => Some(if raw < SYSTEM_MAX_RESULT_CHARS then raw else SYSTEM_MAX_RESULT_CHARS)
  }

  function TruncatedText(s: Settings, content: string, shown: nat): (text: string)
    ensures |content| <= shown ==> content <= text
    ensures shown < |content| ==> content[..shown] <= text
  {
    content[..if shown < |content| then shown else |content|]
    + "\n\n[truncated " + s.sizeNote(|content|, shown) + "]"
  }

  predicate IsFileNameChar(c: char) {
    'a' <= c <= 'z' || 'A' <= c <= 'Z' || '0' <= c <= '9' || c == '_' || c == '-'
  }

  /** The call's id as a file name. */
  function SafeId(callId: string): (name: string)
    ensures |name| == |callId|
    ensures forall i :: 0 <= i < |callId| ==>
              name[i] == (if 'a' <= callId[i] <= 'z' || 'A' <= callId[i] <= 'Z' || '0' <= callId[i] <= '9'
                             || callId[i] == '_' || callId[i] == '-' then callId[i] else '_')
  {
    if callId == [] then []
    else [if IsFileNameChar(callId[0]) then callId[0] else '_'] + SafeId(callId[1..])
  }

  function ResultPath(s: Settings, callId: string): string {
    (if s.persistDir.Some? then s.persistDir.value else "") + "/tool-results/" + SafeId(callId) + ".txt"
  }

  /** At most the first 2000 characters, cut at a newline if there is one in their second half. */
  function Preview(content: string): (preview: string)
    ensures preview <= content && |preview| <= 2_000
    ensures |preview| < 2_000 && preview != content ==> content[|preview|] == '\n' && |preview| > 1_000
  {
    var preview := content[..if |content| < PREVIEW_SIZE_CHARS then |content| else PREVIEW_SIZE_CHARS];
    var lastNewline := LastIndexOf(preview, '\n');
    if 2 * lastNewline > PREVIEW_SIZE_CHARS then content[..lastNewline] else preview
  }

  /** The text that stands for a result whose full content was to be written to a file. */
  function PersistText(s: Settings, callId: string, content: string, written: bool): string {
    if !written then TruncatedText(s, content, PREVIEW_SIZE_CHARS)
    else
      Preview(content) + (if |content| > PREVIEW_SIZE_CHARS then "\n...\n\n" else "\n\n") + PERSISTENCE_MARKER
      + (" " + ResultPath(s, callId) + " " + s.sizeNote(|content|, PREVIEW_SIZE_CHARS) + "]")
  }

  function Persisted(s: Settings, r: ToolResult, written: bool): ToolResult {
    r.(content := PersistText(s, r.callId, r.content, written))
  }

  /** What the per-tool budget leaves of a tool's output. */
  function Trimmed(s: Settings, toolName: string, callId: string, content: string, written: bool): string {
    var limit := EffectiveLimit(s, toolName);
    if limit == None || |content| <= limit.value then content
    else if s.persistDir.Some? then PersistText(s, callId, content, written)
    else TruncatedText(s, content, limit.value)
  }

  /** What stays as it is, and what stands for a text that is too long. */
  lemma {:induction false} TrimmedMeans(s: Settings, toolName: string, callId: string, content: string, written: bool)
    ensures Fits(s, toolName, content) ==> Trimmed(s, toolName, callId, content, written) == content
    ensures !Fits(s, toolName, content) && s.persistDir == None ==>
              var own := s.maxResultChars(toolName).value;
              content[..if own < 50_000 then own else 50_000] <= Trimmed(s, toolName, callId, content, written)
    ensures !Fits(s, toolName, content) && s.persistDir.Some? && !written ==>
              var shown := if |content| < 2_000 then |content| else 2_000;
              content[..shown] <= Trimmed(s, toolName, callId, content, written)
    ensures !Fits(s, toolName, content) && s.persistDir.Some? && written ==>
              && Preview(content) <= Trimmed(s, toolName, callId, content, written)
              && Contains(Trimmed(s, toolName, callId, content, written), ResultPath(s, callId))
  {
    PersistedNamesFile(s, callId, content);
  }

  /** The tool opted out of limits, or the text is within its own limit and that of the system. */
  predicate Fits(s: Settings, toolName: string, content: string) {
    var own := s.maxResultChars(toolName);
    own == None || (|content| <= own.value && |content| <= 50_000)
  }

  predicate Contains(text: string, part: string) {
    part <= text || (text != [] && Contains(text[1..], part))
  }

  lemma {:induction false} ContainsMiddle(front: string, part: string, back: string)
    ensures Contains(front + part + back, part)
  {
    if front == [] {
      assert front + part + back == part + back;
    } else {
      assert (front + part + back)[1..] == front[1..] + part + back;
      ContainsMiddle(front[1..], part, back);
    }
  }

  lemma {:induction false} ContainsExtended(text: string, more: string, part: string)
    requires Contains(text, part)
    ensures Contains(text + more, part)
  {
    if part <= text {
      assert part <= text + more;
    } else {
      assert (text + more)[1..] == text[1..] + more;
      ContainsExtended(text[1..], more, part);
    }
  }

  lemma PersistedIsMarked(s: Settings, r: ToolResult)
    ensures Contains(Persisted(s, r, true).content, PERSISTENCE_MARKER)
  {
    ContainsMiddle(Preview(r.content) + (if |r.content| > PREVIEW_SIZE_CHARS then "\n...\n\n" else "\n\n"),
                   PERSISTENCE_MARKER,
                   " " + ResultPath(s, r.callId) + " " + s.sizeNote(|r.content|, PREVIEW_SIZE_CHARS) + "]");
  }

  /** A written preview begins with the front of the text and names the file. */
  lemma {:induction false} PersistedNamesFile(s: Settings, callId: string, content: string)
    ensures Preview(content) <= PersistText(s, callId, content, true)
    ensures Contains(PersistText(s, callId, content, true), ResultPath(s, callId))
  {
    var dots := if |content| > PREVIEW_SIZE_CHARS then "\n...\n\n" else "\n\n";
    var note := s.sizeNote(|content|, PREVIEW_SIZE_CHARS);
    Regrouped(Preview(content), dots, PERSISTENCE_MARKER, ResultPath(s, callId), note);
    ContainsMiddle(Preview(content) + dots + PERSISTENCE_MARKER + " ", ResultPath(s, callId), " " + note + "]");
  }

  lemma {:induction false} Regrouped(a: string, b: string, c: string, d: string, e: string)
    ensures a <= a + b + c + (" " + d + " " + e + "]")
    ensures a + b + c + (" " + d + " " + e + "]") == (a + b + c + " ") + d + (" " + e + "]")
  {
  }

  /** Results that may be replaced to fit the aggregate budget. */
  predicate IsEligible(s: Settings, r: ToolResult) {
    && !Contains(r.content, PERSISTENCE_MARKER)
    && EffectiveLimit(s, r.toolName).Some?
    && !r.isError
  }

  function TotalSize(rs: seq<ToolResult>): nat {
    if rs == [] then 0 else TotalSize(rs[..|rs| - 1]) + |rs[|rs| - 1].content|
  }

  lemma {:induction false} TotalSizeUpdate(rs: seq<ToolResult>, i: nat, r: ToolResult)
    requires i < |rs|
    ensures TotalSize(rs[i := r]) == TotalSize(rs) - |rs[i].content| + |r.content|
  {
    var n := |rs| - 1;
    if i == n {
      assert rs[i := r][..n] == rs[..n];
    } else {
      assert rs[i := r][..n] == rs[..n][i := r];
      TotalSizeUpdate(rs[..n], i, r);
    }
  }

  /** The indices of the eligible results, ascending. */
  function Eligible(s: Settings, rs: seq<ToolResult>): seq<nat> {
    if rs == [] then []
    else
      var n := |rs| - 1;
      Eligible(s, rs[..n]) + (if IsEligible(s, rs[n]) then [n] else [])
  }

  lemma {:induction false} EligibleMembers(s: Settings, rs: seq<ToolResult>)
    ensures forall i :: i in Eligible(s, rs) <==> 0 <= i < |rs| && IsEligible(s, rs[i])
    ensures forall a, b :: 0 <= a < b < |Eligible(s, rs)| ==> Eligible(s, rs)[a] < Eligible(s, rs)[b]
  {
    if rs != [] {
      var n := |rs| - 1;
      EligibleMembers(s, rs[..n]);
      assert forall i :: 0 <= i < n ==> rs[..n][i] == rs[i];
      var front := Eligible(s, rs[..n]);
      forall i ensures i in Eligible(s, rs) <==> 0 <= i < |rs| && IsEligible(s, rs[i]) {
        assert i in Eligible(s, rs) <==> i in front || (i == n && IsEligible(s, rs[n]));
        if i < n {
          assert i in front <==> 0 <= i < n && IsEligible(s, rs[..n][i]);
        }
      }
      forall a | 0 <= a < |front| ensures front[a] < n {
        assert front[a] in front;
      }
    }
  }

  function Size(rs: seq<ToolResult>, i: nat): nat {
    if i < |rs| then |rs[i].content| else 0
  }

  /** Result `i` is replaced before result `j`: it is longer, or as long and in front. */
  predicate Before(rs: seq<ToolResult>, i: nat, j: nat) {
    Size(rs, i) > Size(rs, j) || (Size(rs, i) == Size(rs, j) && i < j)
  }

  function Inserted(rs: seq<ToolResult>, order: seq<nat>, i: nat): seq<nat> {
    if order == [] || Size(rs, order[|order| - 1]) >= Size(rs, i) then order + [i]
    else Inserted(rs, order[..|order| - 1], i) + [order[|order| - 1]]
  }

  /** A stable sort of the indices by size, largest first. */
  function LargestFirst(rs: seq<ToolResult>, indices: seq<nat>): seq<nat> {
    if indices == [] then []
    else Inserted(rs, LargestFirst(rs, indices[..|indices| - 1]), indices[|indices| - 1])
  }

  ghost predicate Ordered(rs: seq<ToolResult>, order: seq<nat>) {
    forall a, b :: 0 <= a < b < |order| ==> Before(rs, order[a], order[b])
  }

  lemma {:induction false} InsertedMembers(rs: seq<ToolResult>, order: seq<nat>, i: nat)
    ensures multiset(Inserted(rs, order, i)) == multiset(order) + multiset{i}
  {
    if order != [] && Size(rs, order[|order| - 1]) < Size(rs, i) {
      var n := |order| - 1;
      InsertedMembers(rs, order[..n], i);
      assert order == order[..n] + [order[n]];
    }
  }

  lemma OrderedPush(rs: seq<ToolResult>, order: seq<nat>, i: nat)
    requires Ordered(rs, order) && forall j :: j in order ==> Before(rs, j, i)
    ensures Ordered(rs, order + [i])
  {
  }

  lemma {:induction false} OrderedBefore(rs: seq<ToolResult>, order: seq<nat>, j: nat)
    requires Ordered(rs, order) && order != [] && j in order && j != order[|order| - 1]
    ensures Before(rs, j, order[|order| - 1])
  {
    var b :| 0 <= b < |order| && order[b] == j;
  }

  lemma {:induction false} InsertedOrdered(rs: seq<ToolResult>, order: seq<nat>, i: nat)
    requires Ordered(rs, order) && forall j :: j in order ==> j < i
    ensures Ordered(rs, Inserted(rs, order, i))
  {
    if order == [] {
    } else if Size(rs, order[|order| - 1]) < Size(rs, i) {
      var n := |order| - 1;
      assert forall j :: j in order[..n] ==> j in order;
      InsertedOrdered(rs, order[..n], i);
      InsertedMembers(rs, order[..n], i);
      SameMembers(Inserted(rs, order[..n], i), order[..n] + [i]);
      var front := Inserted(rs, order[..n], i);
      forall j | j in front ensures Before(rs, j, order[n]) {
        if j != i {
          OrderedBefore(rs, order, j);
        }
      }
      OrderedPush(rs, front, order[n]);
    } else {
      var n := |order| - 1;
      forall j | j in order ensures Before(rs, j, i) {
        if j != order[n] {
          OrderedBefore(rs, order, j);
        }
      }
      OrderedPush(rs, order, i);
    }
  }

  lemma SameMembers(a: seq<nat>, b: seq<nat>)
    requires multiset(a) == multiset(b)
    ensures forall j :: j in a <==> j in b
  {
    forall j: nat ensures j in a <==> j in b {
      assert j in multiset(a) <==> j in multiset(b);
    }
  }

  /** The sort keeps the indices and puts them in the order in which they are replaced. */
  lemma {:induction false} LargestFirstSorts(rs: seq<ToolResult>, indices: seq<nat>)
    requires forall a, b :: 0 <= a < b < |indices| ==> indices[a] < indices[b]
    ensures Ordered(rs, LargestFirst(rs, indices))
    ensures multiset(LargestFirst(rs, indices)) == multiset(indices)
  {
    if indices != [] {
      var n := |indices| - 1;
      var order := LargestFirst(rs, indices[..n]);
      LargestFirstSorts(rs, indices[..n]);
      SameMembers(order, indices[..n]);
      forall j | j in order ensures j < indices[n] {
        assert j in indices[..n];
      }
      InsertedOrdered(rs, order, indices[n]);
      InsertedMembers(rs, order, indices[n]);
      assert indices == indices[..n] + [indices[n]];
    }
  }

  /** The order in which results would be replaced. */
  function Order(s: Settings, rs: seq<ToolResult>): seq<nat> {
    LargestFirst(rs, Eligible(s, rs))
  }

  lemma OrderSpec(s: Settings, rs: seq<ToolResult>)
    ensures Ordered(rs, Order(s, rs)) && Indices(rs, Order(s, rs))
    ensures forall i :: i in Order(s, rs) <==> 0 <= i < |rs| && IsEligible(s, rs[i])
  {
    EligibleMembers(s, rs);
    LargestFirstSorts(rs, Eligible(s, rs));
    var order := Order(s, rs);
    SameMembers(order, Eligible(s, rs));
    forall a | 0 <= a < |order| ensures order[a] < |rs| {
      assert order[a] in order;
    }
    forall a, b | 0 <= a < b < |order| ensures order[a] != order[b] {
      assert Before(rs, order[a], order[b]);
    }
  }

  /** The results after the first `|written|` of the order were replaced; `written` says which writes worked. */
  ghost function After(s: Settings, rs: seq<ToolResult>, order: seq<nat>, written: seq<bool>): seq<ToolResult> {
    if written == [] || |written| > |order| then rs
    else
      var k := |written| - 1;
      var before := After(s, rs, order, written[..k]);
      if order[k] < |rs| && order[k] < |before|
      then before[order[k] := Persisted(s, rs[order[k]], written[k])] else before
  }

  /** Different indices of `rs`. */
  ghost predicate Indices(rs: seq<ToolResult>, order: seq<nat>) {
    && (forall a :: 0 <= a < |order| ==> order[a] < |rs|)
    && (forall a, b :: 0 <= a < b < |order| ==> order[a] != order[b])
  }

  /** One replacement more, of the result that comes next in the order. */
  lemma {:induction false} AfterPush(s: Settings, rs: seq<ToolResult>, order: seq<nat>, front: seq<bool>, ok: bool,
                                     i: nat)
    requires |front| < |order| && Indices(rs, order) && i < |rs|
    ensures |After(s, rs, order, front + [ok])| == |After(s, rs, order, front)| == |rs|
    ensures After(s, rs, order, front + [ok])[i] ==
            if order[|front|] == i then Persisted(s, rs[i], ok) else After(s, rs, order, front)[i]
  {
    AfterSize(s, rs, order, front);
    FrontOfPush(front, ok);
  }

  lemma {:induction false} AfterUntouched(s: Settings, rs: seq<ToolResult>, order: seq<nat>, written: seq<bool>,
                                          i: nat)
    requires |written| <= |order| && Indices(rs, order) && i < |rs|
    requires forall j :: 0 <= j < |written| ==> order[j] != i
    ensures |After(s, rs, order, written)| == |rs| && After(s, rs, order, written)[i] == rs[i]
  {
    if written != [] {
      var front, ok := written[..|written| - 1], written[|written| - 1];
      assert written == front + [ok];
      AfterUntouched(s, rs, order, front, i);
      AfterPush(s, rs, order, front, ok, i);
    }
  }

  lemma {:induction false} AfterReplaced(s: Settings, rs: seq<ToolResult>, order: seq<nat>, written: seq<bool>,
                                         j: nat)
    requires |written| <= |order| && Indices(rs, order) && j < |written|
    ensures |After(s, rs, order, written)| == |rs|
    ensures After(s, rs, order, written)[order[j]] == Persisted(s, rs[order[j]], written[j])
  {
    var front, ok := written[..|written| - 1], written[|written| - 1];
    assert written == front + [ok];
    AfterPush(s, rs, order, front, ok, order[j]);
    if j < |front| {
      AfterReplaced(s, rs, order, front, j);
      assert order[j] != order[|front|];
    }
  }

  /** Result `i` after the replacements: either it is not among the replaced ones, or it is. */
  lemma {:induction false} AfterAt(s: Settings, rs: seq<ToolResult>, order: seq<nat>, written: seq<bool>, i: nat)
    requires |written| <= |order| && Indices(rs, order) && i < |rs|
    ensures |After(s, rs, order, written)| == |rs|
    ensures (forall j :: 0 <= j < |written| ==> order[j] != i) ==> After(s, rs, order, written)[i] == rs[i]
    ensures forall j :: 0 <= j < |written| && order[j] == i ==>
              After(s, rs, order, written)[i] == Persisted(s, rs[i], written[j])
  {
    AfterSize(s, rs, order, written);
    if forall j :: 0 <= j < |written| ==> order[j] != i {
      AfterUntouched(s, rs, order, written, i);
    }
    forall j | 0 <= j < |written| && order[j] == i
      ensures After(s, rs, order, written)[i] == Persisted(s, rs[i], written[j])
    {
      AfterReplaced(s, rs, order, written, j);
    }
  }

  lemma AfterOneMore(s: Settings, rs: seq<ToolResult>, order: seq<nat>, written: seq<bool>, ok: bool)
    requires |written| < |order| && Indices(rs, order)
    ensures var i := order[|written|];
            && i < |rs| && |After(s, rs, order, written)| == |rs| && After(s, rs, order, written)[i] == rs[i]
            && After(s, rs, order, written + [ok]) == After(s, rs, order, written)[i := Persisted(s, rs[i], ok)]
  {
    AfterAt(s, rs, order, written, order[|written|]);
    assert (written + [ok])[..|written|] == written;
  }

  /** Before each of the replacements the total was over the budget. */
  ghost predicate OverBudget(s: Settings, rs: seq<ToolResult>, order: seq<nat>, written: seq<bool>) {
    written == [] ||
    var before := written[..|written| - 1];
    TotalSize(After(s, rs, order, before)) > MAX_RESULTS_PER_MESSAGE_CHARS && OverBudget(s, rs, order, before)
  }

  lemma {:induction false} OverBudgetAtFirst(s: Settings, rs: seq<ToolResult>, order: seq<nat>, written: seq<bool>)
    requires OverBudget(s, rs, order, written) && written != []
    ensures TotalSize(rs) > MAX_RESULTS_PER_MESSAGE_CHARS
  {
    if |written| > 1 {
      OverBudgetAtFirst(s, rs, order, written[..|written| - 1]);
    }
  }

  /** Some of the order has been replaced, each while the total was over the budget, giving `rs'`. */
  ghost predicate BudgetedTo(s: Settings, rs: seq<ToolResult>, order: seq<nat>, rs': seq<ToolResult>,
                             written: seq<bool>) {
    && |written| <= |order|
    && rs' == After(s, rs, order, written)
    && OverBudget(s, rs, order, written)
  }

  lemma BudgetedNext(s: Settings, rs: seq<ToolResult>, order: seq<nat>, rs': seq<ToolResult>, written: seq<bool>,
                     ok: bool)
    requires |written| < |order| && Indices(rs, order) && BudgetedTo(s, rs, order, rs', written)
    requires TotalSize(rs') > MAX_RESULTS_PER_MESSAGE_CHARS
    ensures var i := order[|written|];
            i < |rs'| == |rs| && rs'[i] == rs[i]
            && BudgetedTo(s, rs, order, rs'[i := Persisted(s, rs'[i], ok)], written + [ok])
  {
    AfterOneMore(s, rs, order, written, ok);
    assert (written + [ok])[..|written|] == written;
  }

  /** The next replacement: of a result without a marker, and what it does to the total. */
  lemma NextReplacement(s: Settings, rs: seq<ToolResult>, order: seq<nat>, rs': seq<ToolResult>, written: seq<bool>,
                        i: nat, content: string, ok: bool)
    requires order == Order(s, rs) && |written| < |order| && i == order[|written|]
    requires BudgetedTo(s, rs, order, rs', written) && TotalSize(rs') > MAX_RESULTS_PER_MESSAGE_CHARS
    ensures i < |rs'| && !Contains(rs'[i].content, PERSISTENCE_MARKER)
    ensures content == PersistText(s, rs'[i].callId, rs'[i].content, ok) ==>
              var rs'' := rs'[i := Persisted(s, rs'[i], ok)];
              && rs'' == rs'[i := rs'[i].(content := content)]
              && BudgetedTo(s, rs, order, rs'', written + [ok])
              && TotalSize(rs'') == TotalSize(rs') - |rs'[i].content| + |content|
  {
    OrderSpec(s, rs);
    assert i in order;
    BudgetedNext(s, rs, order, rs', written, ok);
    TotalSizeUpdate(rs', i, Persisted(s, rs'[i], ok));
  }

  /**
   `rs'` is what the aggregate budget makes of `rs`: results are replaced, largest first, for as long as
   the total is over the budget, and no longer.
   */
  ghost predicate Budgeted(s: Settings, rs: seq<ToolResult>, rs': seq<ToolResult>, written: seq<bool>) {
    if s.persistDir == None then rs' == rs && written == []
    else
      && BudgetedTo(s, rs, Order(s, rs), rs', written)
      && (TotalSize(rs') <= MAX_RESULTS_PER_MESSAGE_CHARS || |written| == |Order(s, rs)|)
  }

  /** Ids, order, tools and errors are kept, and so is everything about a result that is not eligible. */
  lemma BudgetedKeeps(s: Settings, rs: seq<ToolResult>, rs': seq<ToolResult>, written: seq<bool>)
    requires Budgeted(s, rs, rs', written)
    ensures |rs'| == |rs|
    ensures forall i :: 0 <= i < |rs| ==> rs'[i] == rs[i].(content := rs'[i].content)
    ensures forall i :: 0 <= i < |rs| && !IsEligible(s, rs[i]) ==> rs'[i] == rs[i]
  {
    if s.persistDir.Some? {
      OrderSpec(s, rs);
      var order := Order(s, rs);
      AfterSize(s, rs, order, written);
      forall i | 0 <= i < |rs| ensures rs'[i] == rs[i].(content := rs'[i].content)
                                    && (!IsEligible(s, rs[i]) ==> rs'[i] == rs[i])
      {
        AfterAt(s, rs, order, written, i);
        assert i in order[..|written|] ==> i in order;
      }
    }
  }

  /**
   Errors, results of tools that opt out, and results that were persisted before are left alone; and so is
   everything if it is short enough, or if nothing can be persisted.
   */
  ghost predicate Spares(s: Settings, rs: seq<ToolResult>, rs': seq<ToolResult>) {
    && |rs'| == |rs|
    && (forall i :: 0 <= i < |rs| && IsSpared(s, rs[i]) ==> rs'[i] == rs[i])
    && (s.persistDir == None || TotalSize(rs) <= 200_000 ==> rs' == rs)
  }

  predicate IsSpared(s: Settings, r: ToolResult) {
    r.isError || s.maxResultChars(r.toolName) == None || Contains(r.content, PERSISTENCE_MARKER)
  }

  lemma {:induction false} BudgetedSpares(s: Settings, rs: seq<ToolResult>, rs': seq<ToolResult>, written: seq<bool>)
    requires Budgeted(s, rs, rs', written)
    ensures Spares(s, rs, rs')
  {
    BudgetedKeeps(s, rs, rs', written);
    if s.persistDir.Some? {
      BudgetedFits(s, rs, rs', written);
    }
  }

  lemma {:induction false} AfterSize(s: Settings, rs: seq<ToolResult>, order: seq<nat>, written: seq<bool>)
    ensures |After(s, rs, order, written)| == |rs|
  {
    if written != [] {
      AfterSize(s, rs, order, written[..|written| - 1]);
    }
  }

  /** The budget is met, or nothing that could still be replaced was left; and it is only applied if need be. */
  lemma BudgetedFits(s: Settings, rs: seq<ToolResult>, rs': seq<ToolResult>, written: seq<bool>)
    requires Budgeted(s, rs, rs', written) && s.persistDir.Some?
    ensures TotalSize(rs') <= 200_000
            || (|rs'| == |rs| && forall i :: 0 <= i < |rs| && IsEligible(s, rs[i]) ==>
                  exists ok :: rs'[i] == Persisted(s, rs[i], ok) && (false !in written ==> ok))
    ensures TotalSize(rs) <= MAX_RESULTS_PER_MESSAGE_CHARS ==> rs' == rs && written == []
  {
    OrderSpec(s, rs);
    var order := Order(s, rs);
    AfterSize(s, rs, order, written);
    if |written| == |order| {
      forall i | 0 <= i < |rs| && IsEligible(s, rs[i])
        ensures exists ok :: rs'[i] == Persisted(s, rs[i], ok) && (false !in written ==> ok)
      {
        assert i in order;
        var j :| 0 <= j < |order| && order[j] == i;
        AfterAt(s, rs, order, written, i);
        assert rs'[i] == Persisted(s, rs[i], written[j]);
      }
    }
    if written != [] {
      OverBudgetAtFirst(s, rs, order, written);
    }
  }

  /** If every write worked, applying the budget again changes nothing. */
  lemma BudgetedTwice(s: Settings, rs: seq<ToolResult>, rs': seq<ToolResult>, written: seq<bool>,
                      rs'': seq<ToolResult>, written': seq<bool>)
    requires Budgeted(s, rs, rs', written) && Budgeted(s, rs', rs'', written')
    requires false !in written
    ensures rs'' == rs' && written' == []
  {
    if s.persistDir.Some? {
      BudgetedFits(s, rs, rs', written);
      BudgetedFits(s, rs', rs'', written');
      BudgetedKeeps(s, rs, rs', written);
      if TotalSize(rs') > MAX_RESULTS_PER_MESSAGE_CHARS {
        forall i | 0 <= i < |rs'| ensures !IsEligible(s, rs'[i]) {
          PersistedIsMarked(s, rs[i]);
        }
        NoneEligible(s, rs');
      }
    }
  }

  lemma {:induction false} NoneEligible(s: Settings, rs: seq<ToolResult>)
    requires forall i :: 0 <= i < |rs| ==> !IsEligible(s, rs[i])
    ensures Order(s, rs) == []
  {
    if rs != [] {
      NoneEligible(s, rs[..|rs| - 1]);
    }
  }

  /** The files under the result directory, by name. */
  type Files = map<string, string>

  /** The full text is still there: in the result itself, or in the file that the result names. */
  ghost predicate Recoverable(files: Files, r: ToolResult, full: string) {
    || r.content == full
    || (Contains(r.content, PERSISTENCE_MARKER)
        && SafeId(r.callId) in files && files[SafeId(r.callId)] == full)
  }

  ghost predicate AllRecoverable(files: Files, rs: seq<ToolResult>, fulls: seq<string>) {
    |fulls| == |rs| && forall i :: 0 <= i < |rs| ==> Recoverable(files, rs[i], fulls[i])
  }

  /** The calls' ids name different files. */
  ghost predicate IdsApart(rs: seq<ToolResult>) {
    forall a, b :: 0 <= a < b < |rs| ==> SafeId(rs[a].callId) != SafeId(rs[b].callId)
  }

  /** At most the file of this call was written, with `content` if that worked. */
  ghost predicate FileWritten(files: Files, files': Files, callId: string, content: string, written: bool) {
    && (forall id :: id != SafeId(callId) && id in files ==> id in files' && files'[id] == files[id])
    && (written ==> SafeId(callId) in files' && files'[SafeId(callId)] == content)
  }

  /** If all results were recoverable at first and every write worked, they still are. */
  ghost predicate NothingLost(files0: Files, rs0: seq<ToolResult>, files: Files, rs: seq<ToolResult>,
                              fulls: seq<string>, written: seq<bool>) {
    IdsApart(rs0) && AllRecoverable(files0, rs0, fulls) && false !in written ==>
      IdsApart(rs) && AllRecoverable(files, rs, fulls)
  }

  lemma NothingLostNext(s: Settings, files0: Files, rs0: seq<ToolResult>, files: Files, rs: seq<ToolResult>,
                        fulls: seq<string>, written: seq<bool>, files': Files, i: nat, ok: bool)
    requires NothingLost(files0, rs0, files, rs, fulls, written)
    requires i < |rs| && !Contains(rs[i].content, PERSISTENCE_MARKER)
    requires FileWritten(files, files', rs[i].callId, rs[i].content, ok)
    ensures NothingLost(files0, rs0, files', rs[i := Persisted(s, rs[i], ok)], fulls, written + [ok])
  {
    if IdsApart(rs0) && AllRecoverable(files0, rs0, fulls) && false !in written + [ok] {
      assert (written + [ok])[|written|] == ok;
      assert forall w :: w in written ==> w in written + [ok];
      PersistedStaysRecoverable(s, files, files', rs, i, fulls);
    }
  }

  /** Replacing a result that has no marker yet by a written preview loses nothing. */
  lemma PersistedStaysRecoverable(s: Settings, files: Files, files': Files, rs: seq<ToolResult>, i: nat,
                                  fulls: seq<string>)
    requires i < |rs| && IdsApart(rs) && AllRecoverable(files, rs, fulls)
    requires !Contains(rs[i].content, PERSISTENCE_MARKER)
    requires FileWritten(files, files', rs[i].callId, rs[i].content, true)
    ensures AllRecoverable(files', rs[i := Persisted(s, rs[i], true)], fulls)
  {
    PersistedIsMarked(s, rs[i]);
    var rs' := rs[i := Persisted(s, rs[i], true)];
    forall k | 0 <= k < |rs'| ensures Recoverable(files', rs'[k], fulls[k]) {
      assert Recoverable(files, rs[k], fulls[k]);
    }
  }

  /** One more result, with an id of its own. */
  lemma RecoverablePush(files: Files, files': Files, rs: seq<ToolResult>, fulls: seq<string>, r: ToolResult,
                        full: string, content: string, written: bool)
    requires AllRecoverable(files, rs, fulls) && IdsApart(rs + [r])
    requires FileWritten(files, files', r.callId, content, written)
    requires Recoverable(files', r, full)
    ensures AllRecoverable(files', rs + [r], fulls + [full])
  {
    forall k | 0 <= k < |rs| ensures Recoverable(files', rs[k], fulls[k]) {
      assert Recoverable(files, rs[k], fulls[k]);
      assert (rs + [r])[k] == rs[k] && (rs + [r])[|rs|] == r;
    }
  }
}
