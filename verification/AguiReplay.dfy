/**
 What the first snapshot of a namespace settles for the whole run: its last message or
 result of an ID is answered with nothing when it comes again, and its calls keep the
 message and the name they were proposed with. And what a published result settles: it
 is sent once, and the same or another result of its call changes nothing later.
 Everything is stated on the frames.
 */
module AguiReplay {
  import opened AguiBalance
  import AguiLoss
  import opened AguiRuns
  import opened AguiStream
  import opened AguiTypes
  import opened Options

  // ---- The evidence ----------------------------------------------------------

  /** The ID under which a snapshot entry can come again. */
  function EntryId(entry: Prior): Option<string> {
    match entry
    case Other => None
    case PriorTool(r) => if Given(r.id) then r.id else None
    case PriorAi(m) => if m.id != "" then Some(m.id) else None
  }

  /** The last entry of an ID. */
  function LastEntry(messages: seq<Prior>, id: string): Option<Prior> {
    if messages == [] then None
    else if EntryId(messages[|messages| - 1]) == Some(id) then Some(messages[|messages| - 1])
    else LastEntry(messages[..|messages| - 1], id)
  }

  /** The first snapshot of a namespace in a run. */
  function Snapshot(frames: seq<Frame>, ns: Namespace): seq<Prior> {
    if frames == [] then []
    else if frames[0].Values? && frames[0].ns == ns then frames[0].messages
    else Snapshot(frames[1..], ns)
  }

  function Noted(b: Baselines, ns: Namespace, id: string): Option<Prior> {
    if (ns, id) in b.messages then Some(b.messages[(ns, id)]) else None
  }

  // ---- Remembering it --------------------------------------------------------

  lemma {:induction false} RememberCallsNotes(s: State, ns: Namespace, message: string, calls: seq<ToolCall>)
    ensures var b := RememberCalls(s, ns, message, calls).baselines;
            b.messages == s.baselines.messages && b.scopes == s.baselines.scopes
    decreases |calls|
  {
    if calls != [] {
      if !Given(calls[0].id) {
        RememberCallsNotes(s, ns, message, calls[1..]);
      } else {
        var id := ToolId(ns, calls[0].id.value);
        var parents := if id in s.calls.started || message == "" then s.baselines.parents
                       else s.baselines.parents[id := MessageId(ns, message)];
        RememberCallsNotes(s.(calls := RememberCall(s.calls, id, calls[0].name), baselines := s.baselines.(parents := parents)),
          ns, message, calls[1..]);
      }
    }
  }

  lemma RememberOneNotes(s: State, ns: Namespace, entry: Prior, m: Namespace, id: string)
    ensures var b := RememberMessage(s, ns, entry).baselines;
            && Noted(b, m, id) == (if m == ns && EntryId(entry) == Some(id) then Some(entry) else Noted(s.baselines, m, id))
            && b.scopes == s.baselines.scopes
  {
    if entry.PriorAi? {
      var noted := if entry.message.id == "" then s
                   else s.(baselines := s.baselines.(messages := s.baselines.messages[(ns, entry.message.id) := entry]));
      RememberCallsNotes(noted, ns, entry.message.id, entry.message.calls);
      hide RememberCalls;
    }
  }

  lemma LastOfMore(entry: Prior, rest: seq<Prior>, id: string)
    ensures LastEntry([entry] + rest, id) ==
            if LastEntry(rest, id).Some? then LastEntry(rest, id) else if EntryId(entry) == Some(id) then Some(entry) else None
    decreases |rest|
  {
    var all := [entry] + rest;
    if rest == [] {
      assert all[..0] == [];
    } else {
      assert all[..|all| - 1] == [entry] + rest[..|rest| - 1];
      LastOfMore(entry, rest[..|rest| - 1], id);
    }
  }

  lemma {:induction false} RememberingNotes(s: State, ns: Namespace, messages: seq<Prior>, m: Namespace, id: string)
    ensures var b := RememberMessages(s, ns, messages).baselines;
            && Noted(b, m, id) == (if m == ns && LastEntry(messages, id).Some? then LastEntry(messages, id) else Noted(s.baselines, m, id))
            && b.scopes == s.baselines.scopes
    decreases |messages|
  {
    if messages != [] {
      RememberOneNotes(s, ns, messages[0], m, id);
      RememberingNotes(RememberMessage(s, ns, messages[0]), ns, messages[1..], m, id);
      LastOfMore(messages[0], messages[1..], id);
      assert [messages[0]] + messages[1..] == messages;
      hide RememberMessage, Noted;
    }
  }

  /** Assistant frames and results leave the evidence alone. */
  lemma ChunkKeepsEvidence(s: State, ns: Namespace, c: Chunk)
    ensures ProcessAi(s, ns, c).state.baselines == s.baselines
  {
    hide CloseText, CloseThoughts, CloseTools, Think, ToolFragments, Show, OpenText;
    assert BeforeTools(s, ns, c).state.baselines == s.baselines by {
      assert ReasoningPart(s, ns, c).state.baselines == s.baselines;
      var a := ReasoningPart(s, ns, c).state;
      var b := StalePart(a, ns, c).state;
      ShowKeepsEvidence(b, ns, MessageId(ns, c.id));
      assert TextPart(b, ns, c).state.baselines == b.baselines;
    }
  }

  lemma ShowKeepsEvidence(s: State, ns: Namespace, id: ScopedId)
    ensures Show(s, ns, id).state.baselines == s.baselines
  {
  }

  lemma FrameNotes(s: State, frame: Frame, ns: Namespace, id: string)
    ensures var b := After(s, frame).baselines;
            && (ns in b.scopes <==> ns in s.baselines.scopes || (frame.Values? && frame.ns == ns))
            && Noted(b, ns, id) ==
               if ns !in s.baselines.scopes && frame.Values? && frame.ns == ns && LastEntry(frame.messages, id).Some?
               then LastEntry(frame.messages, id) else Noted(s.baselines, ns, id)
  {
    hide CloseAll, ProcessAi, Accepted, PublishResult, RememberMessages, LastEntry, Noted;
    match frame
    case Values(m, messages) =>
      if m !in s.baselines.scopes {
        RememberingNotes(s.(baselines := s.baselines.(scopes := s.baselines.scopes + {m})), m, messages, ns, id);
        assert Noted(s.baselines, ns, id) == Noted(s.baselines.(scopes := s.baselines.scopes + {m}), ns, id) by { SameNotes(s.baselines, s.baselines.(scopes := s.baselines.scopes + {m}), ns, id); }
      }
      ClosingKeepsEvidence(RememberBaseline(s, m, messages));
    case AiChunk(m, c) => ChunkKeepsEvidence(s, m, c);
    case AiMessage(m, message) => ChunkKeepsEvidence(s, m, ToChunk(message));
    case ToolMessage(m, r) => PublishKeepsEvidence(s, m, r);
    case Finish => ClosingKeepsEvidence(s);
  }

  lemma SameNotes(a: Baselines, b: Baselines, ns: Namespace, id: string)
    requires a.messages == b.messages
    ensures Noted(a, ns, id) == Noted(b, ns, id)
  {
  }

  lemma ClosingKeepsEvidence(s: State)
    ensures CloseAll(s).state.baselines == s.baselines
  {
    hide CloseAllThoughts, CloseTexts, CloseEachTool;
  }

  lemma PublishKeepsEvidence(s: State, ns: Namespace, r: ToolResult)
    ensures PublishResult(s, ns, r).state.baselines == s.baselines
  {
    hide CloseThoughts, CloseText, SettleCall;
  }

  /** After every run of a new adapter the evidence of a namespace is exactly its first snapshot. */
  lemma {:induction false} EvidenceIsTheSnapshot(s: State, frames: seq<Frame>, ns: Namespace, id: string)
    ensures var entry := LastEntry(Snapshot(frames, ns), id);
            Noted(RunState(s, frames).baselines, ns, id) ==
            if ns !in s.baselines.scopes && entry.Some? then entry else Noted(s.baselines, ns, id)
    decreases |frames|
  {
    if frames != [] {
      FrameNotes(s, frames[0], ns, id);
      hide After, LastEntry, Noted;
      EvidenceIsTheSnapshot(After(s, frames[0]), frames[1..], ns, id);
      if !(frames[0].Values? && frames[0].ns == ns) {
        assert Snapshot(frames, ns) == Snapshot(frames[1..], ns);
      }
    } else {
      assert LastEntry([], id).None?;
    }
  }

  // ---- Repeated messages and results -----------------------------------------

  /** Nothing of the namespace has been snapshotted yet. */
  ghost predicate Unseen(s: State, ns: Namespace) {
    ns !in s.baselines.scopes && forall id :: (ns, id) !in s.baselines.messages
  }

  lemma FreshIsUnseen(prior: set<ScopedId>, exposeReasoning: bool, ns: Namespace)
    ensures Unseen(Fresh(prior, exposeReasoning), ns)
  {
  }

  /**
   Over every run of an adapter that has seen no snapshot of the namespace, a complete message that passes validation is
   answered with nothing exactly when it is the last entry of its ID in the first snapshot; every other one is published
   like one last fragment.
   */
  lemma RepeatedMessageIsSilentIff(start: State, frames: seq<Frame>, ns: Namespace, m: Complete)
    requires Unseen(start, ns)
    ensures var s := RunState(start, frames);
            Process(s, AiMessage(ns, m)) ==
            if !Accepted(s, ns, ToChunk(m)) then Rejected
            else if LastEntry(Snapshot(frames, ns), m.id) == Some(PriorAi(m)) then Done(s, [])
            else Process(s, AiChunk(ns, ToChunk(m)))
  {
    EvidenceIsTheSnapshot(start, frames, ns, m.id);
    hide RunState, Accepted, ProcessAi, LastEntry, ToChunk;
  }

  /** A result that is the last entry of its ID in the first snapshot is answered with nothing, in every later run. */
  lemma RepeatedResultIsSilent(start: State, frames: seq<Frame>, ns: Namespace, r: ToolResult)
    requires ns !in start.baselines.scopes && r.id.Some?
    requires LastEntry(Snapshot(frames, ns), r.id.value) == Some(PriorTool(r))
    ensures var s := RunState(start, frames); Process(s, ToolMessage(ns, r)) == Done(s, [])
  {
    EvidenceIsTheSnapshot(start, frames, ns, r.id.value);
    hide RunState, LastEntry, PublishResult;
  }

  // ---- What stays once a call is over ----------------------------------------

  /** A call that has started and ended keeps its name and its result. */
  ghost predicate Lasts(c: Calls, o: Calls, x: ScopedId) {
    x in c.started && x in c.ended ==>
      && x in o.started && x in o.ended
      && (x in o.names <==> x in c.names) && (x in c.names ==> o.names[x] == c.names[x])
      && (x in c.results ==> x in o.results && o.results[x] == c.results[x])
  }

  lemma LastsTwice(a: Calls, b: Calls, c: Calls, x: ScopedId)
    requires Lasts(a, b, x) && Lasts(b, c, x)
    ensures Lasts(a, c, x)
  {
  }

  lemma CloseToolStays(c: Calls, id: ScopedId, x: ScopedId)
    ensures Lasts(c, CloseTool(c, id).state, x)
  {
    hide Drop, SlotOf;
  }

  lemma {:induction false} CloseToolIdsStay(c: Calls, ns: Namespace, ids: seq<ScopedId>, x: ScopedId)
    ensures Lasts(c, CloseToolIds(c, ns, ids).state, x)
    decreases |ids|
  {
    if ids != [] {
      if ids[0] in c.active && c.active[ids[0]].ns == ns {
        CloseToolStays(c, ids[0], x);
        CloseToolIdsStay(CloseTool(c, ids[0]).state, ns, ids[1..], x);
        hide Lasts, CloseTool;
        LastsTwice(c, CloseTool(c, ids[0]).state, CloseToolIds(c, ns, ids).state, x);
      } else {
        CloseToolIdsStay(c, ns, ids[1..], x);
      }
    }
  }

  lemma {:induction false} CloseEachToolStays(c: Calls, ids: seq<ScopedId>, x: ScopedId)
    ensures Lasts(c, CloseEachTool(c, ids).state, x)
    decreases |ids|
  {
    if ids != [] {
      CloseToolStays(c, ids[0], x);
      CloseEachToolStays(CloseTool(c, ids[0]).state, ids[1..], x);
      hide Lasts, CloseTool;
      LastsTwice(c, CloseTool(c, ids[0]).state, CloseEachTool(c, ids).state, x);
    }
  }

  lemma FragmentStays(c: Calls, ns: Namespace, parent: ScopedId, t: ToolChunk, id: ScopedId, x: ScopedId)
    ensures Lasts(c, ToolFragment(c, ns, parent, t, id).state, x)
  {
    var freed := FreeSlot(c, KeyOf(ns, parent, t), id).state;
    assert Lasts(c, freed, x) by {
      hide CloseTool;
      if KeyOf(ns, parent, t) in c.slots { CloseToolStays(c, c.slots[KeyOf(ns, parent, t)], x); }
    }
    hide FreeSlot;
    var begun := BeginTool(freed, ns, parent, t, id).state;
    assert Lasts(freed, begun, x);
    var appended := AppendArgs(begun, id, t.args).state;
    assert Lasts(begun, appended, x);
    hide BeginTool, AppendArgs, Lasts;
    LastsTwice(c, freed, begun, x);
    LastsTwice(c, begun, appended, x);
  }

  lemma {:induction false} FragmentsStay(c: Calls, ns: Namespace, parent: ScopedId, tools: seq<ToolChunk>, x: ScopedId)
    ensures Lasts(c, ToolFragments(c, ns, parent, tools).state, x)
    decreases |tools|
  {
    var target := if tools == [] then None else TargetOf(c, ns, parent, tools[0]);
    if target.Some? {
      var one := ToolFragment(c, ns, parent, tools[0], target.value).state;
      FragmentStays(c, ns, parent, tools[0], target.value, x);
      FragmentsStay(one, ns, parent, tools[1..], x);
      hide Lasts, ToolFragment, TargetOf;
      LastsTwice(c, one, ToolFragments(c, ns, parent, tools).state, x);
    }
  }

  lemma EndCallStays(c: Calls, id: ScopedId, x: ScopedId)
    ensures Lasts(c, EndCall(c, id).state, x)
  {
    CloseToolStays(c, id, x);
    hide CloseTool;
  }

  lemma SettleStays(c: Calls, ns: Namespace, r: ToolResult, x: ScopedId)
    requires ToolId(ns, r.callId) !in c.results
    ensures Lasts(c, SettleCall(c, ns, r).state, x)
  {
    var id, mark := ToolId(ns, r.callId), FingerprintOf(c, ns, r);
    var begun := IntroduceCall(c, id, mark.name).state;
    var ended := EndCall(begun, id).state;
    assert Lasts(c, begun, x) && begun.results == c.results;
    EndCallStays(begun, id, x);
    hide FingerprintOf, EndCall, IntroduceCall;
    assert x in c.started && x in c.ended && x in c.results ==> x != id;
  }

  /** A call that is over also keeps the message that proposed it. */
  ghost predicate Stays(s: State, t: State, x: ScopedId) {
    && Lasts(s.calls, t.calls, x)
    && (x in s.calls.started && x in s.calls.ended && x in s.baselines.parents ==>
        x in t.baselines.parents && t.baselines.parents[x] == s.baselines.parents[x])
  }

  lemma StaysTwice(a: State, b: State, c: State, x: ScopedId)
    requires Stays(a, b, x) && Stays(b, c, x)
    ensures Stays(a, c, x)
  {
  }

  lemma {:induction false} RememberCallsStay(s: State, ns: Namespace, message: string, calls: seq<ToolCall>, x: ScopedId)
    ensures Stays(s, RememberCalls(s, ns, message, calls), x)
    decreases |calls|
  {
    if calls != [] {
      if !Given(calls[0].id) {
        RememberCallsStay(s, ns, message, calls[1..], x);
      } else {
        var id := ToolId(ns, calls[0].id.value);
        var parents := if id in s.calls.started || message == "" then s.baselines.parents
                       else s.baselines.parents[id := MessageId(ns, message)];
        var one := s.(calls := RememberCall(s.calls, id, calls[0].name), baselines := s.baselines.(parents := parents));
        RememberCallsStay(one, ns, message, calls[1..], x);
        assert Stays(s, one, x);
        hide Stays;
        StaysTwice(s, one, RememberCalls(s, ns, message, calls), x);
      }
    }
  }

  lemma RememberMessageStays(s: State, ns: Namespace, entry: Prior, x: ScopedId)
    ensures Stays(s, RememberMessage(s, ns, entry), x)
  {
    if entry.PriorAi? {
      var noted := if entry.message.id == "" then s
                   else s.(baselines := s.baselines.(messages := s.baselines.messages[(ns, entry.message.id) := entry]));
      RememberCallsStay(noted, ns, entry.message.id, entry.message.calls, x);
      hide RememberCalls;
    }
  }

  lemma {:induction false} RememberMessagesStay(s: State, ns: Namespace, messages: seq<Prior>, x: ScopedId)
    ensures Stays(s, RememberMessages(s, ns, messages), x)
    decreases |messages|
  {
    if messages != [] {
      RememberMessageStays(s, ns, messages[0], x);
      RememberMessagesStay(RememberMessage(s, ns, messages[0]), ns, messages[1..], x);
      hide Stays, RememberMessage;
      StaysTwice(s, RememberMessage(s, ns, messages[0]), RememberMessages(s, ns, messages), x);
    }
  }

  lemma SameCallsStay(s: State, t: State, x: ScopedId)
    requires Lasts(s.calls, t.calls, x) && t.baselines == s.baselines
    ensures Stays(s, t, x)
  {
  }

  lemma ChunkStays(s: State, ns: Namespace, c: Chunk, x: ScopedId)
    ensures Stays(s, ProcessAi(s, ns, c).state, x)
  {
    ChunkKeepsEvidence(s, ns, c);
    AguiLoss.BeforeToolsKeepsCalls(s, ns, c);
    var before := BeforeTools(s, ns, c).state;
    FragmentsStay(before.calls, ns, MessageId(ns, c.id), c.tools, x);
    var tools := ToolsPart(before, ns, c).state;
    assert Lasts(s.calls, tools.calls, x) by { hide CloseThoughts, ToolFragments, BeforeTools; }
    CloseToolIdsStay(tools.calls, ns, tools.calls.order, x);
    CloseToolIdsStay(s.calls, ns, s.calls.order, x);
    hide BeforeTools, ToolsPart, Lasts, CloseToolIds;
    LastsTwice(s.calls, tools.calls, CloseScope(tools, ns).state.calls, x);
    SameCallsStay(s, ProcessAi(s, ns, c).state, x);
  }

  lemma NothingChanged(s: State, x: ScopedId)
    ensures Stays(s, s, x)
  {
  }

  lemma ResultStays(s: State, ns: Namespace, r: ToolResult, x: ScopedId)
    ensures Stays(s, After(s, ToolMessage(ns, r)), x)
  {
    NothingChanged(s, x);
    hide Lasts, CloseThoughts, CloseText, SettleCall, FingerprintOf, NameConflicts, IsBaseline;
    if ToolId(ns, r.callId) !in s.calls.results {
      SettleStays(s.calls, ns, r, x);
      SameCallsStay(s, PublishResult(s, ns, r).state, x);
    }
  }

  lemma ClosingStays(s: State, x: ScopedId)
    ensures Stays(s, CloseAll(s).state, x)
  {
    CloseEachToolStays(s.calls, s.calls.order, x);
    ClosingKeepsEvidence(s);
    hide CloseAllThoughts, CloseTexts, CloseEachTool;
  }

  lemma ValuesStay(s: State, ns: Namespace, messages: seq<Prior>, x: ScopedId)
    ensures Stays(s, After(s, Values(ns, messages)), x)
  {
    var remembered := RememberBaseline(s, ns, messages);
    NothingChanged(s, x);
    if ns !in s.baselines.scopes {
      var noted := s.(baselines := s.baselines.(scopes := s.baselines.scopes + {ns}));
      RememberMessagesStay(noted, ns, messages, x);
    }
    hide RememberMessages, CloseAll;
    assert Stays(s, remembered, x);
    hide Stays, RememberBaseline;
    ClosingStays(remembered, x);
    StaysTwice(s, remembered, CloseAll(remembered).state, x);
  }

  lemma FrameStays(s: State, frame: Frame, x: ScopedId)
    ensures Stays(s, After(s, frame), x)
  {
    NothingChanged(s, x);
    hide Stays, ProcessAi, Accepted, ProcessResult, CloseAll, IsBaseline;
    match frame
    case Values(ns, messages) => ValuesStay(s, ns, messages, x);
    case AiChunk(ns, c) => ChunkStays(s, ns, c, x);
    case AiMessage(ns, m) => ChunkStays(s, ns, ToChunk(m), x);
    case ToolMessage(ns, r) => ResultStays(s, ns, r, x);
    case Finish => ClosingStays(s, x);
  }

  lemma {:induction false} RunStays(s: State, frames: seq<Frame>, x: ScopedId)
    ensures Stays(s, RunState(s, frames), x)
    decreases |frames|
  {
    if frames == [] {
      NothingChanged(s, x);
    } else {
      FrameStays(s, frames[0], x);
      hide Stays, After;
      RunStays(After(s, frames[0]), frames[1..], x);
      StaysTwice(s, After(s, frames[0]), RunState(s, frames), x);
    }
  }

  // ---- Results are published once --------------------------------------------

  /** Not the last entry of its ID in the first snapshot. */
  ghost predicate IsNews(s: State, ns: Namespace, r: ToolResult) {
    !(r.id.Some? && IsBaseline(s.baselines, ns, r.id.value, PriorTool(r)))
  }

  ghost predicate Publishes(s: State, ns: Namespace, r: ToolResult) {
    && r.callId != "" && IsNews(s, ns, r) && ToolId(ns, r.callId) !in s.calls.results
    && !NameConflicts(s.calls, ToolId(ns, r.callId), r)
  }

  /** A result that is news, of a call without one and under its name, is sent exactly once, as the last event. */
  lemma FirstResultIsPublished(s: State, ns: Namespace, r: ToolResult)
    requires Publishes(s, ns, r)
    ensures var x := ToolId(ns, r.callId);
            var raw := if Given(r.id) then r.id.value else "tool-result:" + r.callId;
            && Process(s, ToolMessage(ns, r)).Done?
            && var events := Delivered(s, ToolMessage(ns, r));
               && events != [] && events[|events| - 1] == ToolOutcome(x, MessageId(ns, raw), r.content, r.attachments)
               && forall i | 0 <= i < |events| - 1 :: !events[i].ToolOutcome?
  {
    var out := SettleCall(s.calls, ns, r);
    SettleEvents(s.calls, ns, r);
    CloseThoughtsSendNoResult(s.thoughts, ns, s.thoughts.order);
    hide SettleCall, CloseThoughts, CloseThoughtKeys, FingerprintOf, CloseText;
    var thoughts, texts := CloseThoughts(s.thoughts, ns), CloseText(s.texts, ns);
    assert forall e | e in texts.events :: !e.ToolOutcome? by { TextSendsNoResult(s.texts, ns); }
    assert thoughts == CloseThoughtKeys(s.thoughts, ns, s.thoughts.order) by { ThoughtsAreKeys(s.thoughts, ns); }
    var before := out.events[..|out.events| - 1];
    assert Delivered(s, ToolMessage(ns, r)) == thoughts.events + texts.events + out.events;
    forall i | 0 <= i < |thoughts.events + texts.events + out.events| - 1
      ensures !(thoughts.events + texts.events + out.events)[i].ToolOutcome?
    {
      if i >= |thoughts.events| + |texts.events| {
        assert (thoughts.events + texts.events + out.events)[i] == before[i - |thoughts.events| - |texts.events|];
      }
    }
  }

  lemma TextSendsNoResult(t: Texts, ns: Namespace)
    ensures forall e | e in CloseText(t, ns).events :: !e.ToolOutcome?
  {
  }

  lemma ThoughtsAreKeys(r: Thoughts, ns: Namespace)
    ensures CloseThoughts(r, ns) == CloseThoughtKeys(r, ns, r.order)
  {
  }

  lemma {:induction false} CloseThoughtsSendNoResult(r: Thoughts, ns: Namespace, keys: seq<ScopedId>)
    ensures forall e | e in CloseThoughtKeys(r, ns, keys).events :: !e.ToolOutcome?
    decreases |keys|
  {
    if keys != [] {
      if keys[0] in r.open && r.open[keys[0]].ns == ns {
        CloseThoughtsSendNoResult(CloseThought(r, keys[0]).state, ns, keys[1..]);
      } else {
        CloseThoughtsSendNoResult(r, ns, keys[1..]);
      }
    }
  }

  lemma SettleEvents(c: Calls, ns: Namespace, r: ToolResult)
    ensures var events := SettleCall(c, ns, r).events;
            && events != []
            && events[|events| - 1] ==
               ToolOutcome(ToolId(ns, r.callId), MessageId(ns, if Given(r.id) then r.id.value else "tool-result:" + r.callId), r.content, r.attachments)
            && forall e | e in events[..|events| - 1] :: !e.ToolOutcome?
  {
    hide EffectiveName, Drop, SlotOf;
  }

  /** Once a call has a result, in every later run no other one is sent, and no such frame changes anything. */
  lemma SettledCallIsSilent(s: State, later: seq<Frame>, ns: Namespace, again: ToolResult)
    requires Consistent(s) && ToolId(ns, again.callId) in s.calls.results
    ensures var t := RunState(s, later);
            Process(t, ToolMessage(ns, again)) == Done(t, []) || Process(t, ToolMessage(ns, again)) == Rejected
  {
    RunStays(s, later, ToolId(ns, again.callId));
    hide RunState, FingerprintOf, NameConflicts, IsBaseline, PublishResult;
  }

  /** How the name of a call that is settled was found. */
  ghost predicate NameKept(c: Calls, o: Calls, x: ScopedId, name: string) {
    && (x !in c.names ==> (x in o.names ==> o.names[x] == name))
    && (x in c.names ==> x in o.names && (o.names[x] == c.names[x] || o.names[x] == name))
  }

  lemma EndCallEnds(c: Calls, x: ScopedId)
    requires x in c.started
    ensures var o := EndCall(c, x).state; x in o.started && x in o.ended && o.names == c.names
  {
    hide Drop, SlotOf;
  }

  lemma SettledIsOver(c: Calls, ns: Namespace, r: ToolResult)
    ensures var x, o := ToolId(ns, r.callId), SettleCall(c, ns, r).state;
            && x in o.started && x in o.ended && x in o.results && o.results[x] == FingerprintOf(c, ns, r)
            && NameKept(c, o, x, EffectiveName(c, x, r))
  {
    var x := ToolId(ns, r.callId);
    var begun := IntroduceCall(c, x, EffectiveName(c, x, r)).state;
    EndCallEnds(begun, x);
    hide EndCall, EffectiveName;
  }

  lemma PublishedIsOver(s: State, ns: Namespace, r: ToolResult)
    requires Publishes(s, ns, r)
    ensures var x, o := ToolId(ns, r.callId), After(s, ToolMessage(ns, r)).calls;
            && x in o.started && x in o.ended && x in o.results && o.results[x] == FingerprintOf(s.calls, ns, r)
            && NameKept(s.calls, o, x, EffectiveName(s.calls, x, r))
  {
    SettledIsOver(s.calls, ns, r);
    hide SettleCall, NameKept, EffectiveName, FingerprintOf, CloseThoughts, CloseText, IsBaseline, NameConflicts;
  }

  /** The same name comes out when the same result is looked at again. */
  lemma SameNameAgain(c: Calls, o: Calls, x: ScopedId, r: ToolResult)
    requires !NameConflicts(c, x, r) && r.name != Some("")
    requires NameKept(c, o, x, EffectiveName(c, x, r))
    ensures EffectiveName(o, x, r) == EffectiveName(c, x, r) && !NameConflicts(o, x, r)
  {
  }

  /** A published result that comes again is ignored in every later run; one of the call that differs is refused. */
  lemma PublishedResultIsFinal(s: State, ns: Namespace, r: ToolResult, later: seq<Frame>, again: ToolResult)
    requires Publishes(s, ns, r) && again.callId == r.callId
    ensures var t := RunState(After(s, ToolMessage(ns, r)), later);
            && (again == r && r.name != Some("") ==> Process(t, ToolMessage(ns, again)) == Done(t, []))
            && (IsNews(t, ns, again)
                && (again.content != r.content || again.attachments != r.attachments || again.failed != r.failed
                    || ResultMessageId(ns, again) != ResultMessageId(ns, r)) ==>
                Process(t, ToolMessage(ns, again)) == Rejected)
  {
    var x, next := ToolId(ns, r.callId), After(s, ToolMessage(ns, r));
    var t := RunState(next, later);
    PublishedIsOver(s, ns, r);
    RunStays(next, later, x);
    assert t.calls.results[x] == FingerprintOf(s.calls, ns, r);
    if r.name != Some("") { SameNameAgain(s.calls, t.calls, x, r); }
    hide After, RunState, ResultMessageId, EffectiveName, NameConflicts, IsBaseline, PublishResult;
  }

  // ---- Checkpointed proposals ------------------------------------------------

  /** The name under which a message first proposes a call. */
  function FirstCall(calls: seq<ToolCall>, raw: string): Option<string> {
    if calls == [] then None
    else if calls[0].id == Some(raw) then Some(calls[0].name)
    else FirstCall(calls[1..], raw)
  }

  /** The message that first proposes a call in a snapshot, and its name. */
  function FirstProposal(messages: seq<Prior>, raw: string): Option<(string, string)> {
    if messages == [] then None
    else if messages[0].PriorAi? && FirstCall(messages[0].message.calls, raw).Some? then
      Some((messages[0].message.id, FirstCall(messages[0].message.calls, raw).value))
    else FirstProposal(messages[1..], raw)
  }

  /** The call is known to be over, by this name and from this message. */
  ghost predicate ProposedBy(s: State, ns: Namespace, raw: string, message: string, name: string) {
    var x := ToolId(ns, raw);
    && x in s.calls.started && x in s.calls.ended && x in s.calls.names && s.calls.names[x] == name
    && (message != "" ==> x in s.baselines.parents && s.baselines.parents[x] == MessageId(ns, message))
  }

  lemma ProposedStays(s: State, t: State, ns: Namespace, raw: string, message: string, name: string)
    requires ProposedBy(s, ns, raw, message, name) && Stays(s, t, ToolId(ns, raw))
    ensures ProposedBy(t, ns, raw, message, name)
  {
  }

  lemma {:induction false} RememberFirstCall(s: State, ns: Namespace, message: string, calls: seq<ToolCall>, raw: string)
    requires raw != "" && ToolId(ns, raw) !in s.calls.started
    ensures var r := RememberCalls(s, ns, message, calls);
            if FirstCall(calls, raw).None? then ToolId(ns, raw) !in r.calls.started
            else ProposedBy(r, ns, raw, message, FirstCall(calls, raw).value)
    decreases |calls|
  {
    if calls != [] {
      if !Given(calls[0].id) {
        RememberFirstCall(s, ns, message, calls[1..], raw);
      } else {
        var id := ToolId(ns, calls[0].id.value);
        var parents := if id in s.calls.started || message == "" then s.baselines.parents
                       else s.baselines.parents[id := MessageId(ns, message)];
        var one := s.(calls := RememberCall(s.calls, id, calls[0].name), baselines := s.baselines.(parents := parents));
        if calls[0].id.value == raw {
          assert ProposedBy(one, ns, raw, message, calls[0].name);
          RememberCallsStay(one, ns, message, calls[1..], id);
          hide Stays, ProposedBy;
          ProposedStays(one, RememberCalls(one, ns, message, calls[1..]), ns, raw, message, calls[0].name);
        } else {
          assert ToolId(ns, raw) !in one.calls.started;
          RememberFirstCall(one, ns, message, calls[1..], raw);
        }
      }
    }
  }

  lemma RememberFirstMessage(s: State, ns: Namespace, entry: Prior, raw: string)
    requires raw != "" && ToolId(ns, raw) !in s.calls.started
    ensures var r := RememberMessage(s, ns, entry);
            if entry.PriorAi? && FirstCall(entry.message.calls, raw).Some?
            then ProposedBy(r, ns, raw, entry.message.id, FirstCall(entry.message.calls, raw).value)
            else ToolId(ns, raw) !in r.calls.started
  {
    if entry.PriorAi? {
      var noted := if entry.message.id == "" then s
                   else s.(baselines := s.baselines.(messages := s.baselines.messages[(ns, entry.message.id) := entry]));
      RememberFirstCall(noted, ns, entry.message.id, entry.message.calls, raw);
      hide RememberCalls;
    }
  }

  lemma {:induction false} RememberFirst(s: State, ns: Namespace, messages: seq<Prior>, raw: string)
    requires raw != "" && ToolId(ns, raw) !in s.calls.started && FirstProposal(messages, raw).Some?
    ensures var (message, name) := FirstProposal(messages, raw).value;
            ProposedBy(RememberMessages(s, ns, messages), ns, raw, message, name)
    decreases |messages|
  {
    var one, rest := RememberMessage(s, ns, messages[0]), messages[1..];
    RememberFirstMessage(s, ns, messages[0], raw);
    hide ProposedBy, RememberMessage, FirstCall, Stays;
    if messages[0].PriorAi? && FirstCall(messages[0].message.calls, raw).Some? {
      RememberMessagesStay(one, ns, rest, ToolId(ns, raw));
      ProposedStays(one, RememberMessages(one, ns, rest), ns, raw, messages[0].message.id, FirstCall(messages[0].message.calls, raw).value);
    } else {
      RememberFirst(one, ns, rest, raw);
    }
  }

  /** What acceptance asks of one fragment with an ID: its name, that its call may go on, and that its slot is its own. */
  lemma {:induction false} AcceptedFragmentFits(c: Calls, ns: Namespace, parent: ScopedId, tools: seq<ToolChunk>,
                                                available: map<SlotKey, ScopedId>, names: map<ScopedId, string>, t: ToolChunk)
    requires FragmentsAccepted(c, ns, parent, tools, available, names) && t in tools && Given(t.id)
    ensures var x, key := ToolId(ns, t.id.value), KeyOf(ns, parent, t);
            && Given(t.name) && (x in names ==> names[x] == t.name.value) && (x in c.ended ==> x in c.prior)
            && (key in available ==> available[key] == x) && (forall k | k in available && available[k] == x :: k == key)
    decreases |tools|
  {
    var first := tools[0];
    if t != first {
      assert t in tools[1..];
      if first.id.Some? || first.name.Some? {
        var id, key := ToolId(ns, first.id.value), KeyOf(ns, parent, first);
        var next := if id in c.ended then available else available[key := id];
        AcceptedFragmentFits(c, ns, parent, tools[1..], next, names[id := first.name.value], t);
        assert forall k | k in available :: k in next && next[k] == available[k];
      } else {
        AcceptedFragmentFits(c, ns, parent, tools[1..], available, names, t);
      }
    }
  }

  /**
   In every run after the first snapshot of a namespace, an accepted fragment of a call that the snapshot proposes, and
   that had not been started before, belongs to the message that proposed it first and carries the name from there.
   */
  lemma ProposalsKeepMessageAndName(start: State, ns: Namespace, messages: seq<Prior>, later: seq<Frame>, c: Chunk, t: ToolChunk)
    requires ns !in start.baselines.scopes && t in c.tools && Given(t.id) && ToolId(ns, t.id.value) !in start.calls.started
    requires FirstProposal(messages, t.id.value).Some?
    ensures var (message, name) := FirstProposal(messages, t.id.value).value;
            Accepted(RunState(After(start, Values(ns, messages)), later), ns, c) ==>
              t.name == Some(name) && (message != "" ==> c.id == message)
  {
    var raw, next := t.id.value, After(start, Values(ns, messages));
    var s := RunState(next, later);
    var (message, name) := FirstProposal(messages, raw).value;
    var noted := start.(baselines := start.baselines.(scopes := start.baselines.scopes + {ns}));
    RememberFirst(noted, ns, messages, raw);
    var remembered := RememberBaseline(start, ns, messages);
    assert remembered == RememberMessages(noted, ns, messages);
    ClosingStays(remembered, ToolId(ns, raw));
    NothingChanged(remembered, ToolId(ns, raw));
    assert next == remembered || next == CloseAll(remembered).state by { hide RememberBaseline, CloseAll; }
    RunStays(next, later, ToolId(ns, raw));
    hide FirstProposal, RememberMessages, RememberBaseline, CloseAll, RunState, Stays, FragmentsAccepted, After;
    ProposedStays(remembered, next, ns, raw, message, name);
    ProposedStays(next, s, ns, raw, message, name);
    if Accepted(s, ns, c) {
      AcceptedFragmentFits(s.calls, ns, MessageId(ns, c.id), c.tools, s.calls.history, s.calls.names, t);
    }
  }

  // ---- A repeated message passes validation ----------------------------------

  /** Every call of the message has an ID and a name, and is one that the snapshot proposes first in this very message. */
  ghost predicate OwnCalls(s: State, ns: Namespace, m: Complete) {
    forall i | 0 <= i < |m.calls| ::
      Given(m.calls[i].id) && m.calls[i].name != "" && ProposedBy(s, ns, m.calls[i].id.value, m.id, m.calls[i].name)
  }

  function SlotIn(ns: Namespace, m: Complete, i: nat): SlotKey { SlotKey(ns, MessageId(ns, m.id), Indexed(i)) }

  /** No result of its calls was published since, and no fragment with another call took a position of the message. */
  ghost predicate StillPrior(s: State, ns: Namespace, m: Complete) {
    forall i | 0 <= i < |m.calls| && Given(m.calls[i].id) ::
      ToolId(ns, m.calls[i].id.value) in s.calls.prior && SlotIn(ns, m, i) !in s.calls.history
  }

  lemma {:induction false} OwnFragmentsAccepted(s: State, ns: Namespace, m: Complete, tools: seq<ToolChunk>)
    requires Consistent(s) && OwnCalls(s, ns, m) && StillPrior(s, ns, m)
    requires forall t | t in tools :: t in ToChunk(m).tools
    ensures FragmentsAccepted(s.calls, ns, MessageId(ns, m.id), tools, s.calls.history, s.calls.names)
    decreases |tools|
  {
    if tools != [] {
      var t := tools[0];
      assert t in tools;
      var i :| 0 <= i < |ToChunk(m).tools| && t == ToChunk(m).tools[i];
      var x := ToolId(ns, m.calls[i].id.value);
      assert ProposedBy(s, ns, m.calls[i].id.value, m.id, m.calls[i].name);
      assert HistoryOk(s.calls);
      assert x in s.calls.prior && x in s.calls.ended;
      assert KeyOf(ns, MessageId(ns, m.id), t) == SlotIn(ns, m, i);
      OwnFragmentsAccepted(s, ns, m, tools[1..]);
      assert s.calls.names[x := m.calls[i].name] == s.calls.names;
      hide Consistent, OwnCalls, StillPrior, ToChunk;
    }
  }

  /** A message of the first snapshot passes validation as long as its calls are only what the snapshot says of them. */
  lemma OwnMessageIsAccepted(s: State, ns: Namespace, m: Complete)
    requires Consistent(s) && m.id != "" && OwnCalls(s, ns, m) && StillPrior(s, ns, m)
    ensures Accepted(s, ns, ToChunk(m))
  {
    OwnFragmentsAccepted(s, ns, m, ToChunk(m).tools);
    hide FragmentsAccepted, Consistent;
    forall t | t in ToChunk(m).tools && Given(t.id) && ToolId(ns, t.id.value) in s.baselines.parents
      ensures s.baselines.parents[ToolId(ns, t.id.value)] == MessageId(ns, m.id)
    {
      var i :| 0 <= i < |m.calls| && t == ToolChunk(Some(i), m.calls[i].id, Some(m.calls[i].name), Some(m.calls[i].args));
      assert ProposedBy(s, ns, m.calls[i].id.value, m.id, m.calls[i].name);
    }
  }

  lemma {:induction false} RememberCallsPrior(s: State, ns: Namespace, message: string, calls: seq<ToolCall>)
    ensures var c := RememberCalls(s, ns, message, calls).calls;
            s.calls.prior <= c.prior && c.started <= s.calls.started + c.prior && c.history == s.calls.history
    decreases |calls|
  {
    if calls != [] {
      if !Given(calls[0].id) {
        RememberCallsPrior(s, ns, message, calls[1..]);
      } else {
        var id := ToolId(ns, calls[0].id.value);
        var parents := if id in s.calls.started || message == "" then s.baselines.parents
                       else s.baselines.parents[id := MessageId(ns, message)];
        RememberCallsPrior(s.(calls := RememberCall(s.calls, id, calls[0].name), baselines := s.baselines.(parents := parents)),
          ns, message, calls[1..]);
      }
    }
  }

  lemma {:induction false} RememberMessagesPrior(s: State, ns: Namespace, messages: seq<Prior>)
    ensures var c := RememberMessages(s, ns, messages).calls;
            s.calls.prior <= c.prior && c.started <= s.calls.started + c.prior && c.history == s.calls.history
    decreases |messages|
  {
    if messages != [] {
      var one := RememberMessage(s, ns, messages[0]);
      if messages[0].PriorAi? {
        var m := messages[0].message;
        var noted := if m.id == "" then s
                     else s.(baselines := s.baselines.(messages := s.baselines.messages[(ns, m.id) := messages[0]]));
        RememberCallsPrior(noted, ns, m.id, m.calls);
      }
      hide RememberCalls;
      assert s.calls.prior <= one.calls.prior && one.calls.started <= s.calls.started + one.calls.prior
             && one.calls.history == s.calls.history;
      RememberMessagesPrior(one, ns, messages[1..]);
    }
  }

  lemma {:induction false} EveryRunIsConsistent(s: State, frames: seq<Frame>)
    requires Consistent(s)
    ensures Consistent(RunState(s, frames))
    decreases |frames|
  {
    if frames != [] {
      ProcessKeepsConsistent(s, frames[0]);
      hide Consistent, After;
      EveryRunIsConsistent(After(s, frames[0]), frames[1..]);
    }
  }

  lemma {:induction false} CloseEachToolKeepsPast(c: Calls, ids: seq<ScopedId>)
    ensures var o := CloseEachTool(c, ids).state; o.prior == c.prior && o.history == c.history
    decreases |ids|
  {
    if ids != [] {
      assert CloseTool(c, ids[0]).state.prior == c.prior && CloseTool(c, ids[0]).state.history == c.history;
      hide CloseTool;
      CloseEachToolKeepsPast(CloseTool(c, ids[0]).state, ids[1..]);
    }
  }

  /** After the first snapshot its calls are known from its messages. */
  lemma SnapshotKnowsCalls(start: State, ns: Namespace, messages: seq<Prior>, raw: string)
    requires ns !in start.baselines.scopes && raw != "" && ToolId(ns, raw) !in start.calls.started
    requires FirstProposal(messages, raw).Some?
    ensures var (message, name) := FirstProposal(messages, raw).value;
            var next := After(start, Values(ns, messages));
            && ProposedBy(next, ns, raw, message, name) && ToolId(ns, raw) in next.calls.prior
            && next.calls.history == start.calls.history
  {
    var (message, name) := FirstProposal(messages, raw).value;
    var noted := start.(baselines := start.baselines.(scopes := start.baselines.scopes + {ns}));
    RememberFirst(noted, ns, messages, raw);
    RememberMessagesPrior(noted, ns, messages);
    var remembered, next := RememberBaseline(start, ns, messages), After(start, Values(ns, messages));
    assert remembered == RememberMessages(noted, ns, messages);
    ClosingStays(remembered, ToolId(ns, raw));
    NothingChanged(remembered, ToolId(ns, raw));
    CloseEachToolKeepsPast(remembered.calls, remembered.calls.order);
    assert next == remembered || next == CloseAll(remembered).state by { hide RememberBaseline, CloseAll; }
    hide FirstProposal, RememberMessages, RememberBaseline, Stays, After, CloseEachTool, CloseAllThoughts, CloseTexts;
    ProposedStays(remembered, next, ns, raw, message, name);
  }

  /** The snapshot's own message: the last of its ID, whose calls it is the first to propose, none of them started before. */
  ghost predicate InSnapshot(start: State, ns: Namespace, messages: seq<Prior>, m: Complete) {
    && m.id != "" && LastEntry(messages, m.id) == Some(PriorAi(m))
    && forall i | 0 <= i < |m.calls| ::
         && Given(m.calls[i].id) && m.calls[i].name != "" && ToolId(ns, m.calls[i].id.value) !in start.calls.started
         && FirstProposal(messages, m.calls[i].id.value) == Some((m.id, m.calls[i].name))
  }

  lemma SnapshotOwnsCalls(start: State, ns: Namespace, messages: seq<Prior>, later: seq<Frame>, m: Complete)
    requires ns !in start.baselines.scopes && InSnapshot(start, ns, messages, m)
    ensures OwnCalls(RunState(After(start, Values(ns, messages)), later), ns, m)
  {
    var next := After(start, Values(ns, messages));
    var s := RunState(next, later);
    forall i | 0 <= i < |m.calls|
      ensures Given(m.calls[i].id) && m.calls[i].name != "" && ProposedBy(s, ns, m.calls[i].id.value, m.id, m.calls[i].name)
    {
      SnapshotKnowsCalls(start, ns, messages, m.calls[i].id.value);
      RunStays(next, later, ToolId(ns, m.calls[i].id.value));
      hide After, RunState, FirstProposal, LastEntry, Stays, ProposedBy;
      ProposedStays(next, s, ns, m.calls[i].id.value, m.id, m.calls[i].name);
    }
  }

  /**
   From every consistent state and over every run after the first snapshot of a namespace, one of its own messages that
   comes again is answered with nothing exactly until a result of one of its calls is published or another call takes one
   of its positions; after that it is refused.
   */
  lemma SnapshotMessageComesAgainIff(start: State, ns: Namespace, messages: seq<Prior>, later: seq<Frame>, m: Complete)
    requires Consistent(start) && ns !in start.baselines.scopes && InSnapshot(start, ns, messages, m)
    ensures var s := RunState(After(start, Values(ns, messages)), later);
            Process(s, AiMessage(ns, m)) == if StillPrior(s, ns, m) then Done(s, []) else Rejected
    ensures (forall i | 0 <= i < |m.calls| :: SlotIn(ns, m, i) !in start.calls.history) ==>
            StillPrior(After(start, Values(ns, messages)), ns, m)
  {
    var next := After(start, Values(ns, messages));
    var s := RunState(next, later);
    SnapshotOwnsCalls(start, ns, messages, later, m);
    SnapshotStillPrior(start, ns, messages, m);
    SnapshotIsEvidence(start, ns, messages, later, m.id);
    hide After, RunState, LastEntry, FirstProposal, ToolId;
    ProcessKeepsConsistent(start, Values(ns, messages));
    EveryRunIsConsistent(next, later);
    hide *;
    if StillPrior(s, ns, m) {
      OwnMessageIsSilent(s, ns, m);
    } else {
      OwnMessageIsRefused(s, ns, m);
    }
  }

  lemma OwnMessageIsRefused(s: State, ns: Namespace, m: Complete)
    requires Consistent(s) && OwnCalls(s, ns, m) && !StillPrior(s, ns, m)
    ensures Process(s, AiMessage(ns, m)) == Rejected
  {
    if Accepted(s, ns, ToChunk(m)) {
      forall i | 0 <= i < |m.calls| && Given(m.calls[i].id)
        ensures ToolId(ns, m.calls[i].id.value) in s.calls.prior && SlotIn(ns, m, i) !in s.calls.history
      {
        var t, x := ToChunk(m).tools[i], ToolId(ns, m.calls[i].id.value);
        assert t in ToChunk(m).tools && KeyOf(ns, MessageId(ns, m.id), t) == SlotIn(ns, m, i);
        assert ProposedBy(s, ns, m.calls[i].id.value, m.id, m.calls[i].name);
        AcceptedFragmentFits(s.calls, ns, MessageId(ns, m.id), ToChunk(m).tools, s.calls.history, s.calls.names, t);
        PriorHasNoSlot(s, x);
        hide *;
      }
    }
    hide Accepted, ProcessAi, Consistent, OwnCalls;
  }

  lemma PriorHasNoSlot(s: State, x: ScopedId)
    requires Consistent(s) && x in s.calls.prior
    ensures forall key | key in s.calls.history :: s.calls.history[key] != x
  {
    assert HistoryOk(s.calls);
  }

  lemma OwnMessageIsSilent(s: State, ns: Namespace, m: Complete)
    requires Consistent(s) && m.id != "" && OwnCalls(s, ns, m) && StillPrior(s, ns, m)
    requires Noted(s.baselines, ns, m.id) == Some(PriorAi(m))
    ensures Process(s, AiMessage(ns, m)) == Done(s, [])
  {
    OwnMessageIsAccepted(s, ns, m);
    hide Consistent, OwnCalls, StillPrior, ToChunk, Accepted, ProcessAi;
  }

  lemma SnapshotIsEvidence(start: State, ns: Namespace, messages: seq<Prior>, later: seq<Frame>, id: string)
    requires ns !in start.baselines.scopes && LastEntry(messages, id).Some?
    ensures Noted(RunState(After(start, Values(ns, messages)), later).baselines, ns, id) == LastEntry(messages, id)
  {
    var frames := [Values(ns, messages)] + later;
    assert frames[1..] == later;
    EvidenceIsTheSnapshot(start, frames, ns, id);
    assert Snapshot(frames, ns) == messages;
    assert RunState(start, frames) == RunState(After(start, frames[0]), frames[1..]);
    hide After, LastEntry, Noted, Snapshot;
  }

  lemma SnapshotStillPrior(start: State, ns: Namespace, messages: seq<Prior>, m: Complete)
    requires ns !in start.baselines.scopes && InSnapshot(start, ns, messages, m)
    ensures (forall i | 0 <= i < |m.calls| :: SlotIn(ns, m, i) !in start.calls.history) ==>
            StillPrior(After(start, Values(ns, messages)), ns, m)
  {
    var next := After(start, Values(ns, messages));
    forall i | 0 <= i < |m.calls| ensures ToolId(ns, m.calls[i].id.value) in next.calls.prior {
      SnapshotKnowsCalls(start, ns, messages, m.calls[i].id.value);
    }
    SnapshotKeepsHistory(start, ns, messages);
    hide After, FirstProposal, LastEntry;
  }

  lemma SnapshotKeepsHistory(start: State, ns: Namespace, messages: seq<Prior>)
    requires ns !in start.baselines.scopes
    ensures After(start, Values(ns, messages)).calls.history == start.calls.history
  {
    RememberMessagesPrior(start.(baselines := start.baselines.(scopes := start.baselines.scopes + {ns})), ns, messages);
    var remembered := RememberBaseline(start, ns, messages);
    CloseEachToolKeepsPast(remembered.calls, remembered.calls.order);
    hide RememberMessages, CloseEachTool, CloseAllThoughts, CloseTexts;
  }

  // ---- When a checkpointed message is refused --------------------------------

  /** Steps that change neither what counts as prior, nor forget a start. */
  ghost predicate SamePrior(c: Calls, o: Calls) { o.prior == c.prior && c.started <= o.started }

  lemma {:induction false} CloseToolIdsSamePrior(c: Calls, ns: Namespace, ids: seq<ScopedId>)
    ensures SamePrior(c, CloseToolIds(c, ns, ids).state)
    decreases |ids|
  {
    if ids != [] {
      if ids[0] in c.active && c.active[ids[0]].ns == ns {
        assert SamePrior(c, CloseTool(c, ids[0]).state);
        hide CloseTool;
        CloseToolIdsSamePrior(CloseTool(c, ids[0]).state, ns, ids[1..]);
      } else {
        CloseToolIdsSamePrior(c, ns, ids[1..]);
      }
    }
  }

  lemma {:induction false} CloseEachSamePrior(c: Calls, ids: seq<ScopedId>)
    ensures SamePrior(c, CloseEachTool(c, ids).state)
    decreases |ids|
  {
    if ids != [] {
      assert SamePrior(c, CloseTool(c, ids[0]).state);
      hide CloseTool;
      CloseEachSamePrior(CloseTool(c, ids[0]).state, ids[1..]);
    }
  }

  lemma FragmentSamePrior(c: Calls, ns: Namespace, parent: ScopedId, t: ToolChunk, id: ScopedId)
    ensures SamePrior(c, ToolFragment(c, ns, parent, t, id).state)
  {
    var freed := FreeSlot(c, KeyOf(ns, parent, t), id).state;
    assert SamePrior(c, freed);
    hide FreeSlot;
    assert SamePrior(freed, BeginTool(freed, ns, parent, t, id).state);
    hide BeginTool;
  }

  lemma {:induction false} FragmentsSamePrior(c: Calls, ns: Namespace, parent: ScopedId, tools: seq<ToolChunk>)
    ensures SamePrior(c, ToolFragments(c, ns, parent, tools).state)
    decreases |tools|
  {
    var target := if tools == [] then None else TargetOf(c, ns, parent, tools[0]);
    if target.Some? {
      FragmentSamePrior(c, ns, parent, tools[0], target.value);
      hide ToolFragment, TargetOf;
      FragmentsSamePrior(ToolFragment(c, ns, parent, tools[0], target.value).state, ns, parent, tools[1..]);
    }
  }

  lemma ChunkSamePrior(s: State, ns: Namespace, c: Chunk)
    ensures SamePrior(s.calls, ProcessAi(s, ns, c).state.calls)
  {
    AguiLoss.BeforeToolsKeepsCalls(s, ns, c);
    var before := BeforeTools(s, ns, c).state;
    FragmentsSamePrior(before.calls, ns, MessageId(ns, c.id), c.tools);
    var tools := ToolsPart(before, ns, c).state;
    assert SamePrior(s.calls, tools.calls) by { hide CloseThoughts, ToolFragments, BeforeTools; }
    CloseToolIdsSamePrior(tools.calls, ns, tools.calls.order);
    CloseToolIdsSamePrior(s.calls, ns, s.calls.order);
    hide BeforeTools, ToolsPart, CloseToolIds;
  }

  /** A result of the call is published. */
  ghost predicate Publishing(s: State, frame: Frame, x: ScopedId) {
    frame.ToolMessage? && ToolId(frame.ns, frame.result.callId) == x && Delivered(s, frame) != []
  }

  lemma ResultAndPrior(s: State, ns: Namespace, r: ToolResult, x: ScopedId)
    requires x in s.calls.started
    ensures var frame := ToolMessage(ns, r);
            x in After(s, frame).calls.started
            && (x in After(s, frame).calls.prior <==> x in s.calls.prior && !Publishing(s, frame, x))
  {
    SettlePrior(s.calls, ns, r);
    SettleEvents(s.calls, ns, r);
    hide SettleCall, CloseThoughts, CloseText, FingerprintOf, NameConflicts, IsBaseline;
  }

  lemma EndCallSamePrior(c: Calls, x: ScopedId)
    ensures SamePrior(c, EndCall(c, x).state)
  {
    assert SamePrior(c, CloseTool(c, x).state);
    hide CloseTool;
  }

  lemma SettlePrior(c: Calls, ns: Namespace, r: ToolResult)
    ensures var o := SettleCall(c, ns, r).state; c.started <= o.started && o.prior == c.prior - {ToolId(ns, r.callId)}
  {
    var x := ToolId(ns, r.callId);
    var begun := IntroduceCall(c, x, FingerprintOf(c, ns, r).name).state;
    assert SamePrior(c, begun);
    EndCallSamePrior(begun, x);
    hide FingerprintOf, EndCall, IntroduceCall;
  }

  lemma {:induction false} RememberCallsNoMore(s: State, ns: Namespace, message: string, calls: seq<ToolCall>, x: ScopedId)
    requires x in s.calls.started
    ensures var c := RememberCalls(s, ns, message, calls).calls; x in c.started && (x in c.prior <==> x in s.calls.prior)
    decreases |calls|
  {
    if calls != [] {
      if !Given(calls[0].id) {
        RememberCallsNoMore(s, ns, message, calls[1..], x);
      } else {
        var id := ToolId(ns, calls[0].id.value);
        var parents := if id in s.calls.started || message == "" then s.baselines.parents
                       else s.baselines.parents[id := MessageId(ns, message)];
        RememberCallsNoMore(s.(calls := RememberCall(s.calls, id, calls[0].name), baselines := s.baselines.(parents := parents)),
          ns, message, calls[1..], x);
      }
    }
  }

  lemma {:induction false} RememberMessagesNoMore(s: State, ns: Namespace, messages: seq<Prior>, x: ScopedId)
    requires x in s.calls.started
    ensures var c := RememberMessages(s, ns, messages).calls; x in c.started && (x in c.prior <==> x in s.calls.prior)
    decreases |messages|
  {
    if messages != [] {
      var one := RememberMessage(s, ns, messages[0]);
      if messages[0].PriorAi? {
        var m := messages[0].message;
        var noted := if m.id == "" then s
                     else s.(baselines := s.baselines.(messages := s.baselines.messages[(ns, m.id) := messages[0]]));
        RememberCallsNoMore(noted, ns, m.id, m.calls, x);
      }
      hide RememberCalls;
      RememberMessagesNoMore(one, ns, messages[1..], x);
    }
  }

  lemma ValuesAndPrior(s: State, ns: Namespace, messages: seq<Prior>, x: ScopedId)
    requires x in s.calls.started
    ensures var c := After(s, Values(ns, messages)).calls; x in c.started && (x in c.prior <==> x in s.calls.prior)
  {
    RememberMessagesNoMore(s.(baselines := s.baselines.(scopes := s.baselines.scopes + {ns})), ns, messages, x);
    var remembered := RememberBaseline(s, ns, messages);
    CloseEachSamePrior(remembered.calls, remembered.calls.order);
    hide RememberMessages, CloseEachTool, CloseAllThoughts, CloseTexts;
  }

  /** A known call counts as checkpointed until a result of it is published, and never again. */
  lemma FrameAndPrior(s: State, frame: Frame, x: ScopedId)
    requires x in s.calls.started
    ensures x in After(s, frame).calls.started
    ensures x in After(s, frame).calls.prior <==> x in s.calls.prior && !Publishing(s, frame, x)
  {
    hide ProcessAi, Accepted, ProcessResult, CloseAllThoughts, CloseTexts, CloseEachTool, IsBaseline;
    match frame
    case Values(ns, messages) => ValuesAndPrior(s, ns, messages, x);
    case AiChunk(ns, c) => ChunkSamePrior(s, ns, c);
    case AiMessage(ns, m) => ChunkSamePrior(s, ns, ToChunk(m));
    case ToolMessage(ns, r) => ResultAndPrior(s, ns, r, x);
    case Finish => CloseEachSamePrior(s.calls, s.calls.order);
  }

  ghost predicate NoResult(s: State, frames: seq<Frame>, x: ScopedId)
    decreases |frames|
  {
    frames == [] || (!Publishing(s, frames[0], x) && NoResult(After(s, frames[0]), frames[1..], x))
  }

  /** Over every run: a checkpointed call stays one exactly as long as none of its results is published. */
  lemma {:induction false} PriorIffNoResult(s: State, frames: seq<Frame>, x: ScopedId)
    requires x in s.calls.started
    ensures x in RunState(s, frames).calls.prior <==> x in s.calls.prior && NoResult(s, frames, x)
    decreases |frames|
  {
    if frames != [] {
      FrameAndPrior(s, frames[0], x);
      hide After, Publishing;
      PriorIffNoResult(After(s, frames[0]), frames[1..], x);
    }
  }

  const Checkpointed: Complete := Complete("m", "hi", [], "", [ToolCall(Some("c"), "search", "{}")])
  const Found: ToolResult := ToolResult("c", None, None, "found", [], false)

  lemma CheckpointedIsInSnapshot()
    ensures InSnapshot(Fresh({}, true), ["a"], [PriorAi(Checkpointed)], Checkpointed)
  {
    var messages: seq<Prior> := [PriorAi(Checkpointed)];
    assert EntryId(messages[0]) == Some("m");
    assert FirstCall(Checkpointed.calls, "c") == Some("search");
    assert FirstProposal(messages, "c") == Some(("m", "search"));
  }

  lemma {:induction false} RememberCallsKeepsResults(s: State, ns: Namespace, message: string, calls: seq<ToolCall>)
    ensures RememberCalls(s, ns, message, calls).calls.results == s.calls.results
    decreases |calls|
  {
    if calls != [] {
      if !Given(calls[0].id) {
        RememberCallsKeepsResults(s, ns, message, calls[1..]);
      } else {
        var id := ToolId(ns, calls[0].id.value);
        var parents := if id in s.calls.started || message == "" then s.baselines.parents
                       else s.baselines.parents[id := MessageId(ns, message)];
        RememberCallsKeepsResults(s.(calls := RememberCall(s.calls, id, calls[0].name), baselines := s.baselines.(parents := parents)),
          ns, message, calls[1..]);
      }
    }
  }

  lemma OneMessageKeepsResults(s: State, ns: Namespace, m: Complete)
    requires ns != []
    ensures After(s, Values(ns, [PriorAi(m)])).calls.results == s.calls.results
  {
    var messages: seq<Prior> := [PriorAi(m)];
    var noted := s.(baselines := s.baselines.(scopes := s.baselines.scopes + {ns}));
    var first := if m.id == "" then noted
                 else noted.(baselines := noted.baselines.(messages := noted.baselines.messages[(ns, m.id) := messages[0]]));
    RememberCallsKeepsResults(first, ns, m.id, m.calls);
    assert messages[1..] == [];
    assert RememberMessages(noted, ns, messages) == RememberMessages(RememberMessage(noted, ns, messages[0]), ns, messages[1..]);
    hide RememberCalls;
  }

  lemma FoundIsPublished(s: State)
    requires ToolId(["a"], "c") !in s.calls.results
    ensures Publishing(s, ToolMessage(["a"], Found), ToolId(["a"], "c"))
  {
    FirstResultIsPublished(s, ["a"], Found);
    hide Process, Delivered;
  }

  /** Snapshot, a result of its call, and the message once more: the repetition is refused, although before the result it was ignored. */
  lemma RepetitionAfterResultIsRefused()
    ensures var s := After(Fresh({}, true), Values(["a"], [PriorAi(Checkpointed)]));
            && Process(s, AiMessage(["a"], Checkpointed)) == Done(s, [])
            && Process(After(s, ToolMessage(["a"], Found)), AiMessage(["a"], Checkpointed)) == Rejected
  {
    var start, ns, messages := Fresh({}, true), ["a"], [PriorAi(Checkpointed)];
    var s := After(start, Values(ns, messages));
    FreshIsConsistent({}, true);
    assert InSnapshot(start, ns, messages, Checkpointed) by { CheckpointedIsInSnapshot(); }
    SnapshotMessageComesAgainIff(start, ns, messages, [], Checkpointed);
    SnapshotMessageComesAgainIff(start, ns, messages, [ToolMessage(ns, Found)], Checkpointed);
    SnapshotKnowsCalls(start, ns, messages, "c");
    assert start.calls.results == map[];
    OneMessageKeepsResults(start, ns, Checkpointed);
    FoundIsPublished(s);
    var x := ToolId(ns, "c");
    FrameAndPrior(s, ToolMessage(ns, Found), x);
    var frames := [ToolMessage(ns, Found)];
    assert frames[1..] == [] && RunState(After(s, frames[0]), frames[1..]) == After(s, frames[0]);
    assert RunState(s, []) == s;
    assert Checkpointed.calls[0].id == Some("c");
    hide After, RunState, Process, InSnapshot, FirstProposal, ProposedBy, Publishing;
  }
}
