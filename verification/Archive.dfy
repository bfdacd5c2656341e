/** The append-only archive of conversation traces, autoform/bot/archive.py:33-119. */
module Archives {
  import opened Wrappers

  datatype Role = System | User | Assistant | Tool

  datatype Message = Message(role: Role, content: string)

  type Messages = seq<Message>

  /** What is saved: a trace without messages is a step trace. */
  datatype Trace = Trace(id: Option<string>, messages: Option<Messages>, running: bool)

  datatype File = Conversation(messages: Messages) | Steps

  /** The in-memory entry of an active trace. */
  datatype Cached = Cached(archive: Messages, count: nat)

  /** What there is for one trace id: the entry in memory and the archive file. */
  datatype Slot = Slot(cached: Option<Cached>, file: Option<File>)

  function FileMessages(file: File): Messages {
    if file.Conversation? then file.messages else []
  }

  /** What is on disk for the trace. */
  function ArchiveOf(slot: Slot): Messages {
    if slot.file.Some? then FileMessages(slot.file.value) else []
  }

  /** The entry a save starts from; `loads` says whether an existing file can be read. */
  function Initialised(slot: Slot, messages: Messages, loads: bool): Cached {
    if slot.cached.Some? then slot.cached.value
    else if slot.file.Some? && loads then Cached(FileMessages(slot.file.value), |messages|)
    else Cached(messages, |messages|)
  }

  /** What a save adds to the archive: new messages, or after a compaction all but the first. */
  function Addition(messages: Messages, count: nat): Messages {
    if |messages| > count then messages[count..]
    else if 0 < |messages| < count then messages[1..]
    else []
  }

  function SaveSlot(slot: Slot, messages: Option<Messages>, running: bool, loads: bool): Slot {
    match messages
    case None => slot.(file := Some(Steps))
    case Some(ms) =>
      var before := Initialised(slot, ms, loads);
      var archive := before.archive + Addition(ms, before.count);
      Slot(if running then Some(Cached(archive, |ms|)) else None, Some(Conversation(archive)))
  }

  class ArchiveTraceStore {
    var archiveMessages: map<string, Messages>
    var messageCounts: map<string, nat>
    var files: map<string, File>
    ghost var loadFailures: nat   // files that were there but could not be read

    ghost predicate Valid()
      reads this
    {
      archiveMessages.Keys == messageCounts.Keys
    }

    function SlotOf(id: string): Slot
      requires Valid()
      reads this
    {
      Slot(if id in archiveMessages then Some(Cached(archiveMessages[id], messageCounts[id])) else None,
           if id in files then Some(files[id]) else None)
    }

    /** The archive directory may hold files already. */
    constructor (files: map<string, File>)
      ensures Valid() && archiveMessages == map[] && this.files == files
    {
      archiveMessages, messageCounts, this.files, loadFailures := map[], map[], files, 0;
    }

    /** Updates the archive of the trace, and of no other. `loads` says whether a file that was needed was read. */
    method Save(trace: Trace) returns (loads: bool)
      requires Valid()
      modifies this
      ensures Valid()
      ensures loads <==> loadFailures == old(loadFailures)
      ensures trace.id.Some? ==>
                SlotOf(trace.id.value) == SaveSlot(old(SlotOf(trace.id.value)), trace.messages, trace.running, loads)
      ensures forall id :: trace.id != Some(id) ==> SlotOf(id) == old(SlotOf(id))
      ensures trace.id.Some? && trace.messages.Some? ==>
                && (trace.id.value in archiveMessages <==> trace.running)
                && (trace.running ==> messageCounts[trace.id.value] == |trace.messages.value|)
                && trace.id.value in files && files[trace.id.value].Conversation?
      ensures trace.id.Some? && trace.messages == None ==>
                files == old(files)[trace.id.value := Steps] && archiveMessages == old(archiveMessages)
    {
      loads := true;
      if trace.id == None {
        return;
      }
      var id := trace.id.value;
      if trace.messages == None {
        files := files[id := Steps];
        return;
      }
      var messages := trace.messages.value;
      loads := Initialise(id, messages);
      Append(id, messages);
      if !trace.running {
        archiveMessages := archiveMessages - {id};
        messageCounts := messageCounts - {id};
      }
    }

    /** First encounter of a trace: initialise from disk, or from the messages at hand. */
    method Initialise(id: string, messages: Messages) returns (loads: bool)
      requires Valid()
      modifies this`archiveMessages, this`messageCounts, this`loadFailures
      ensures Valid()
      ensures loads <==> loadFailures == old(loadFailures)
      ensures SlotOf(id).cached == Some(Initialised(old(SlotOf(id)), messages, loads))
      ensures forall i :: i != id ==> SlotOf(i) == old(SlotOf(i))
    {
      loads := true;
      if id !in archiveMessages {
        if id in files {
          var archived := Load(files[id]);
          loads := archived.Some?;
          archiveMessages := archiveMessages[id := if loads then archived.value else messages];
        } else {
          archiveMessages := archiveMessages[id := messages];
        }
        messageCounts := messageCounts[id := |messages|];
      }
    }

    /** Reads an archive file, which may fail. */
    method Load(file: File) returns (archived: Option<Messages>)
      modifies this`loadFailures
      ensures if archived == None then loadFailures == old(loadFailures) + 1
              else archived.value == FileMessages(file) && loadFailures == old(loadFailures)
    {
      var readable: bool := *;
      if readable {
        return Some(FileMessages(file));
      }
      loadFailures := loadFailures + 1;
      archived := None;
    }

    /** Diff and append, then write the archive file. */
    method Append(id: string, messages: Messages)
      requires Valid() && id in archiveMessages
      modifies this`archiveMessages, this`messageCounts, this`files
      ensures Valid()
      ensures var before := old(SlotOf(id)).cached.value;
              var archive := before.archive + Addition(messages, before.count);
              SlotOf(id) == Slot(Some(Cached(archive, |messages|)), Some(Conversation(archive)))
      ensures forall i :: i != id ==> SlotOf(i) == old(SlotOf(i))
    {
      assert archiveMessages[id] + [] == archiveMessages[id];
      var prevCount, currCount := messageCounts[id], |messages|;
      if currCount > prevCount {
        archiveMessages := archiveMessages[id := archiveMessages[id] + messages[prevCount..]];
      } else if currCount < prevCount {
        archiveMessages := archiveMessages[id := archiveMessages[id] + if messages == [] then [] else messages[1..]];
      }
      messageCounts := messageCounts[id := currCount];
      files := files[id := Conversation(archiveMessages[id])];
    }
  }

  // ----- The archive only grows -----

  /** The entry in memory is what was written. */
  ghost predicate InSync(slot: Slot) {
    slot.cached.Some? ==> slot.file == Some(Conversation(slot.cached.value.archive))
  }

  /**
   A save of messages extends the archive, unless it has to start over because a file cannot be loaded; then
   it does so only if the messages themselves start with the old archive.
   */
  lemma {:induction false} SaveExtends(slot: Slot, messages: Messages, running: bool, loads: bool)
    requires InSync(slot)
    ensures var slot' := SaveSlot(slot, Some(messages), running, loads);
            InSync(slot') &&
            (ArchiveOf(slot) <= ArchiveOf(slot') <==>
             slot.cached.Some? || slot.file == None || loads || ArchiveOf(slot) <= messages)
  {
  }

  /** What happens to one trace: it is saved, or the process restarts and its entry in memory is lost. */
  datatype Event = Saved(messages: Messages, running: bool, loads: bool) | Restarted

  function After(slot: Slot, events: seq<Event>): Slot {
    if events == [] then slot
    else
      var before := After(slot, events[..|events| - 1]);
      match events[|events| - 1]
      case Saved(messages, running, loads) => SaveSlot(before, Some(messages), running, loads)
      case Restarted => before.(cached := None)
  }

  /** Over any saves, evictions and restarts, if files load, each archive is a prefix of all later ones. */
  lemma {:induction false} ArchiveOnlyGrows(slot: Slot, events: seq<Event>, n: nat)
    requires InSync(slot) && n <= |events|
    requires forall i :: 0 <= i < |events| && events[i].Saved? ==> events[i].loads
    ensures InSync(After(slot, events))
    ensures ArchiveOf(After(slot, events[..n])) <= ArchiveOf(After(slot, events))
  {
    if events == [] {
      assert events[..n] == events;
    } else {
      var front := events[..|events| - 1];
      if n == |events| {
        assert events[..n] == events;
        ArchiveOnlyGrows(slot, front, |front|);
      } else {
        assert front[..n] == events[..n];
        ArchiveOnlyGrows(slot, front, n);
      }
      match events[|events| - 1]
      case Saved(messages, running, loads) => SaveExtends(After(slot, front), messages, running, loads);
      case Restarted =>
    }
  }

  /** Saves of one run of a trace: only the last may end it, and each only extends the messages. */
  ghost predicate OnlyGrow(events: seq<Event>) {
    && events != []
    && (forall i :: 0 <= i < |events| ==> events[i].Saved? && (i < |events| - 1 ==> events[i].running))
    && forall i :: 0 < i < |events| ==> events[i - 1].messages <= events[i].messages
  }

  /** While a trace runs and its messages only grow, the archive is always the messages last saved. */
  lemma {:induction false} GrowingArchive(events: seq<Event>)
    requires OnlyGrow(events)
    ensures ArchiveOf(After(Slot(None, None), events)) == events[|events| - 1].messages
    ensures events[|events| - 1].running ==> After(Slot(None, None), events).cached.Some?
  {
    var n := |events| - 1;
    var front, messages := events[..n], events[n].messages;
    if n == 0 {
      assert After(Slot(None, None), front) == Slot(None, None);
      assert messages + [] == messages;
    } else {
      GrowingRun(front);
      var before := front[n - 1].messages;
      assert before == messages[..|before|];
      assert before + messages[|before|..] == messages && before + [] == before;
    }
  }

  /** The entry in memory is what was last saved, for as long as the trace runs. */
  lemma {:induction false} GrowingRun(events: seq<Event>)
    requires OnlyGrow(events) && events[|events| - 1].running
    ensures var messages := events[|events| - 1].messages;
            After(Slot(None, None), events).cached == Some(Cached(messages, |messages|))
  {
    var n := |events| - 1;
    var front, messages := events[..n], events[n].messages;
    if n == 0 {
      assert After(Slot(None, None), front) == Slot(None, None);
      assert messages + [] == messages;
    } else {
      GrowingRun(front);
      var before := front[n - 1].messages;
      assert before == messages[..|before|];
      assert before + messages[|before|..] == messages && before + [] == before;
    }
  }

  /** After a restart the archive is loaded, but what was said since the last save before it is not added. */
  lemma {:induction false} ResumeAddsNothing(archive: Messages, messages: Messages, running: bool)
    ensures ArchiveOf(SaveSlot(Slot(None, Some(Conversation(archive))), Some(messages), running, true)) == archive
  {
  }

  // ----- The archive is the log of everything said -----

  /**
   What the conversation went through between two saves: more was said behind what was kept of it, all or
   only a part; or more was said and then everything replaced by a compaction.
   */
  datatype Interval = Continued(kept: Messages, said: Messages) | Compacted(said: Messages, messages: Messages)

  function MessagesAfter(i: Interval): Messages {
    match i
    case Continued(kept, said) => kept + said
    case Compacted(_, messages) => messages
  }

  /** The compacted conversation begins with the system prompt that it had before. */
  predicate RepeatsPrompt(before: Messages, compacted: Messages) {
    before != [] && compacted != [] && compacted[0] == before[0] && compacted[0].role == System
  }

  /** A compacted conversation without the repeated system prompt. */
  function Unrepeated(before: Messages, compacted: Messages): Messages {
    if RepeatsPrompt(before, compacted) then compacted[1..] else compacted
  }

  /** All that was said, compacted conversations included; of these a repeated system prompt is left out. */
  function LogAfter(messages: Messages, log: Messages, i: Interval): Messages {
    match i
    case Continued(_, said) => log + said
    case Compacted(said, compacted) => log + said + Unrepeated(messages + said, compacted)
  }

  /** What is known of a trace in memory when it is saved: the number of messages at its last save. */
  function KnownCount(slot: Slot): Option<nat> {
    if slot.cached.Some? then Some(slot.cached.value.count) else None
  }

  /**
   When a save records what happened since there were these messages. A conversation of which all was kept is
   told from a compacted one by the number of messages. Of a compaction nothing may be said before it, and it
   must begin with the system prompt and leave fewer messages. An archive that was loaded from disk takes the
   messages at hand for recorded. The other cases are those in which there was next to nothing to record.
   */
  predicate Recognised(known: Option<nat>, messages: Messages, i: Interval) {
    match (known, i)
    case (Some(count), Continued(kept, said)) =>
      || |kept| == count
      || (|kept| == 1 && 1 + |said| < count)
      || kept + said == []
    case (Some(count), Compacted(said, compacted)) =>
      if compacted == [] then said == []
      else if RepeatsPrompt(messages + said, compacted) then
        (said == [] && (|compacted| < count || count == 1)) || (count == 0 && |said| == 1)
      else said == [] && count == 0
    case (None, Continued(_, said)) => said == []
    case (None, Compacted(said, compacted)) =>
      said == [] && (compacted == [] || (|compacted| == 1 && RepeatsPrompt(messages, compacted)))
  }

  /** The archive on disk is the log, and so is the entry in memory, with the right count, if there is one. */
  ghost predicate Records(slot: Slot, messages: Messages, log: Messages) {
    && slot.file == Some(Conversation(log))
    && (slot.cached.Some? ==> slot.cached.value == Cached(log, |messages|))
  }

  /** One save keeps the archive equal to the log just when it recognises what happened. */
  lemma {:induction false} SaveRecords(slot: Slot, messages: Messages, log: Messages, i: Interval, running: bool)
    requires Records(slot, messages, log)
    ensures var slot' := SaveSlot(slot, Some(MessagesAfter(i)), running, true);
            ArchiveOf(slot') == LogAfter(messages, log, i) <==> Recognised(KnownCount(slot), messages, i)
  {
    var now, known := MessagesAfter(i), KnownCount(slot);
    var slot' := SaveSlot(slot, Some(now), running, true);
    var added := if known.Some? then Addition(now, known.value) else [];
    assert log + [] == log;
    assert ArchiveOf(slot') == log + added;
    match i
    case Continued(kept, said) =>
      SameBehind(log, added, said);
      if known.Some? {
        AdditionContinues(kept, said, known.value);
      }
    case Compacted(said, compacted) =>
      var rest := Unrepeated(messages + said, compacted);
      assert log + said + rest == log + (said + rest);
      SameBehind(log, added, said + rest);
      if known.Some? {
        AdditionCompacts(messages, said, compacted);
      } else {
        assert said == [] ==> messages + said == messages;
      }
  }

  lemma {:induction false} SameBehind(log: Messages, a: Messages, b: Messages)
    ensures log + a == log + b <==> a == b
  {
    assert (log + a)[|log|..] == a && (log + b)[|log|..] == b;
  }

  lemma {:induction false} AdditionContinues(kept: Messages, said: Messages, count: nat)
    ensures Addition(kept + said, count) == said <==>
            |kept| == count || (|kept| == 1 && 1 + |said| < count) || kept + said == []
  {
    if |kept| == count {
      assert (kept + said)[count..] == said;
    } else if |kept| == 1 {
      assert (kept + said)[1..] == said;
    }
  }

  lemma {:induction false} AdditionCompacts(messages: Messages, said: Messages, compacted: Messages)
    ensures Addition(compacted, |messages|) == said + Unrepeated(messages + said, compacted) <==>
            Recognised(Some(|messages|), messages, Compacted(said, compacted))
  {
    var rest := Unrepeated(messages + said, compacted);
    assert |said + rest| == |said| + |rest|;
    assert said == [] ==> said + rest == rest;
    if messages == [] && |said| == 1 && RepeatsPrompt(messages + said, compacted) {
      assert messages + said == said;
      assert said + compacted[1..] == compacted;
    }
  }

  /** An interval, whether the entry in memory was lost during it, and whether the save ends the run. */
  datatype Spell = Spell(change: Interval, restarted: bool, running: bool)

  datatype Life = Life(slot: Slot, messages: Messages, log: Messages)

  /** What a save finds: without an entry in memory if that was evicted or the process restarted. */
  function FoundAt(slot: Slot, spell: Spell): Slot {
    if spell.restarted then slot.(cached := None) else slot
  }

  /** A trace from its first save on, saved after each spell; files load. */
  function Lived(first: Messages, spells: seq<Spell>): Life {
    if spells == [] then Life(SaveSlot(Slot(None, None), Some(first), true, true), first, first)
    else
      var before := Lived(first, spells[..|spells| - 1]);
      var spell := spells[|spells| - 1];
      var messages := MessagesAfter(spell.change);
      Life(SaveSlot(FoundAt(before.slot, spell), Some(messages), spell.running, true), messages,
           LogAfter(before.messages, before.log, spell.change))
  }

  /** The archive is the log after the first `n` spells. */
  ghost predicate IsLogAt(first: Messages, spells: seq<Spell>, n: nat)
    requires n <= |spells|
  {
    var life := Lived(first, spells[..n]);
    ArchiveOf(life.slot) == life.log
  }

  /** The save at the end of spell `n` records what happened in it. */
  ghost predicate RecognisedAt(first: Messages, spells: seq<Spell>, n: nat)
    requires n < |spells|
  {
    var before := Lived(first, spells[..n]);
    Recognised(KnownCount(FoundAt(before.slot, spells[n])), before.messages, spells[n].change)
  }

  /** The entry in memory, if there is one, is what is on disk. */
  lemma {:induction false} EntryIsOnDisk(first: Messages, spells: seq<Spell>)
    ensures var life := Lived(first, spells);
            && life.slot.file.Some? && life.slot.file.value.Conversation?
            && (life.slot.cached.Some? ==> life.slot.cached.value == Cached(ArchiveOf(life.slot), |life.messages|))
  {
  }

  lemma {:induction false} OneMoreSpell(first: Messages, spells: seq<Spell>, n: nat)
    requires n < |spells| && IsLogAt(first, spells, n)
    ensures IsLogAt(first, spells, n + 1) <==> RecognisedAt(first, spells, n)
  {
    var front, spell := spells[..n], spells[n];
    assert spells[..n + 1][..n] == front && spells[..n + 1][n] == spell;
    var before := Lived(first, front);
    EntryIsOnDisk(first, front);
    SaveRecords(FoundAt(before.slot, spell), before.messages, before.log, spell.change, spell.running);
  }

  lemma {:induction false} LogUpTo(first: Messages, spells: seq<Spell>, n: nat)
    requires n <= |spells| && forall m :: 0 <= m < n ==> RecognisedAt(first, spells, m)
    ensures IsLogAt(first, spells, n)
  {
    if n == 0 {
      assert spells[..0] == [] && first + [] == first;
    } else {
      LogUpTo(first, spells, n - 1);
      assert RecognisedAt(first, spells, n - 1);
      OneMoreSpell(first, spells, n - 1);
    }
  }

  /**
   Over any run, with evictions and restarts: the archive is the log at every save if and only if every save
   recognises what happened.
   */
  lemma {:induction false} ArchiveIsLog(first: Messages, spells: seq<Spell>)
    ensures (forall m :: 0 <= m <= |spells| ==> IsLogAt(first, spells, m)) <==>
            (forall n :: 0 <= n < |spells| ==> RecognisedAt(first, spells, n))
  {
    if forall n :: 0 <= n < |spells| ==> RecognisedAt(first, spells, n) {
      forall m | 0 <= m <= |spells| ensures IsLogAt(first, spells, m) {
        LogUpTo(first, spells, m);
      }
    }
    if forall m :: 0 <= m <= |spells| ==> IsLogAt(first, spells, m) {
      forall n | 0 <= n < |spells| ensures RecognisedAt(first, spells, n) {
        assert IsLogAt(first, spells, n) && IsLogAt(first, spells, n + 1);
        OneMoreSpell(first, spells, n);
      }
    }
  }

  /** A compaction that is outgrown before the next save goes unnoticed: the messages it began with are lost. */
  lemma {:induction false} OutgrownCompactionIsLost(slot: Slot, messages: Messages, log: Messages, compacted: Messages,
                                                    running: bool)
    requires Records(slot, messages, log) && slot.cached.Some? && 1 < |messages| <= |compacted|
    ensures var slot' := SaveSlot(slot, Some(compacted), running, true);
            && ArchiveOf(slot') == log + compacted[|messages|..]
            && ArchiveOf(slot') != LogAfter(messages, log, Compacted([], compacted))
  {
    SaveRecords(slot, messages, log, Compacted([], compacted), running);
    assert log + [] == log;
  }

  /** The summary is lost if there is no system prompt in front of it. */
  lemma {:induction false} PromptlessSummaryIsLost(slot: Slot, messages: Messages, log: Messages, compacted: Messages,
                                                   running: bool)
    requires Records(slot, messages, log) && slot.cached.Some? && 0 < |compacted| < |messages|
    ensures var slot' := SaveSlot(slot, Some(compacted), running, true);
            && ArchiveOf(slot') == log + compacted[1..]
            && (compacted[0].role != System ==> ArchiveOf(slot') != LogAfter(messages, log, Compacted([], compacted)))
  {
    SaveRecords(slot, messages, log, Compacted([], compacted), running);
  }

  /** What is said after the last save before a compaction is lost, whatever the compaction leaves. */
  lemma {:induction false} SaidBeforeCompactionIsLost(slot: Slot, messages: Messages, log: Messages, said: Messages,
                                                      compacted: Messages, running: bool)
    requires Records(slot, messages, log) && slot.cached.Some? && messages != [] && said != []
    ensures var slot' := SaveSlot(slot, Some(compacted), running, true);
            ArchiveOf(slot') != LogAfter(messages, log, Compacted(said, compacted))
  {
    SaveRecords(slot, messages, log, Compacted(said, compacted), running);
  }
}
