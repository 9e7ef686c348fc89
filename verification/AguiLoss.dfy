/**
 Validation looks fragments up in the slot history, processing in the slot index.

 The two differ for a call that has ended: a fragment without an ID that still points
 at its slot is accepted, and then ends the frame halfway with an exception. The frame
 is lost exactly when it holds such a fragment.
 */
module AguiLoss {
  import opened AguiBalance
  import opened AguiRuns
  import opened AguiStream
  import opened AguiTrace
  import opened AguiTypes
  import opened Options

  /** A fragment without an ID whose slot belonged to a call that is no longer open. */
  predicate IsLate(c: Calls, ns: Namespace, parent: ScopedId, t: ToolChunk) {
    !Given(t.id) && KeyOf(ns, parent, t) in c.history && KeyOf(ns, parent, t) !in c.slots
  }

  predicate HasLate(c: Calls, ns: Namespace, parent: ScopedId, tools: seq<ToolChunk>) {
    exists t | t in tools :: IsLate(c, ns, parent, t)
  }

  /** Which slots are dead, and which calls may not start, does not change within a frame. */
  ghost predicate SamePast(c: Calls, next: Calls) {
    && next.ended == c.ended && next.prior == c.prior
    && next.history.Keys - next.slots.Keys == c.history.Keys - c.slots.Keys
  }

  ghost predicate OneSlotEach(history: map<SlotKey, ScopedId>) {
    forall a, b | a in history && b in history && history[a] == history[b] :: a == b
  }

  /** An accepted fragment with an ID finds its slot free or its own. */
  ghost predicate Fits(c: Calls, key: SlotKey, id: ScopedId) {
    && (id in c.ended ==> id in c.prior)
    && (forall k | k in c.history && c.history[k] == id :: k == key)
    && (key in c.history ==> c.history[key] == id)
  }

  lemma FittingSlot(c: Calls, key: SlotKey, id: ScopedId)
    requires CallsOk(c) && Fits(c, key, id)
    ensures FreeSlot(c, key, id) == Out(c, [])
    ensures id in c.active ==> key in c.slots && c.slots[key] == id && key in c.history && c.history[key] == id
    ensures id !in c.active && id !in c.ended ==> key !in c.history && key !in c.slots
  {
    assert LivesOk(c) && HistoryOk(c) && SlotsInvert(c.active, c.slots);
    if id in c.active {
      assert SlotOf(c.active[id]) in c.slots;
    }
  }

  lemma StartToolPast(c: Calls, key: SlotKey, tool: ActiveTool)
    requires key !in c.history && key !in c.slots
    ensures SamePast(c, StartTool(c, key, tool).state)
  {
    var next := StartTool(c, key, tool).state;
    assert next.history.Keys == c.history.Keys + {key} && next.slots.Keys == c.slots.Keys + {key};
  }

  lemma BeginToolPast(c: Calls, ns: Namespace, parent: ScopedId, t: ToolChunk, id: ScopedId)
    requires CallsOk(c) && Fits(c, KeyOf(ns, parent, t), id) && Given(t.name)
    ensures var next, key := BeginTool(c, ns, parent, t, id).state, KeyOf(ns, parent, t);
            SamePast(c, next) && next.history == (if id in c.ended then c.history else c.history[key := id])
  {
    var key := KeyOf(ns, parent, t);
    FittingSlot(c, key, id);
    assert id !in c.active || id !in c.ended by { assert LivesOk(c); }
    hide CallsOk, FreeSlot, Fits;
    if id in c.active {
      assert c.history[key := id] == c.history;
    } else if id !in c.ended {
      StartToolPast(c, key, ActiveTool(id, t.name.value, parent, ns, t.index, ""));
    }
  }

  lemma NamedFragment(c: Calls, ns: Namespace, parent: ScopedId, t: ToolChunk, id: ScopedId)
    requires CallsOk(c) && Fits(c, KeyOf(ns, parent, t), id)
    requires Given(t.id) && Given(t.name) && id == ToolId(ns, t.id.value)
    ensures var next := ToolFragment(c, ns, parent, t, id).state;
            && SamePast(c, next)
            && next.history == (if id in c.ended then c.history else c.history[KeyOf(ns, parent, t) := id])
  {
    FittingSlot(c, KeyOf(ns, parent, t), id);
    BeginToolPast(c, ns, parent, t, id);
    hide CallsOk, FreeSlot, BeginTool, Fits;
  }

  /** A fragment without an ID changes at most the arguments of the call open in its slot. */
  lemma UnnamedFragment(c: Calls, ns: Namespace, parent: ScopedId, t: ToolChunk)
    requires CallsOk(c) && !Given(t.id) && KeyOf(ns, parent, t) in c.slots
    ensures TargetOf(c, ns, parent, t) == Some(c.slots[KeyOf(ns, parent, t)])
    ensures var next := ToolFragment(c, ns, parent, t, c.slots[KeyOf(ns, parent, t)]).state;
            SamePast(c, next) && next.history == c.history
  {
    assert SlotsInvert(c.active, c.slots);
  }

  lemma AcceptedIgnoresProgress(c: Calls, next: Calls, ns: Namespace, parent: ScopedId, tools: seq<ToolChunk>,
                                available: map<SlotKey, ScopedId>, names: map<ScopedId, string>)
    requires next.ended == c.ended && next.prior == c.prior
    ensures FragmentsAccepted(c, ns, parent, tools, available, names) ==
            FragmentsAccepted(next, ns, parent, tools, available, names)
    decreases |tools|
  {
  }

  lemma {:induction false} FragmentsFailIffLate(c: Calls, ns: Namespace, parent: ScopedId, tools: seq<ToolChunk>,
                                                names: map<ScopedId, string>)
    requires CallsOk(c) && FragmentsAccepted(c, ns, parent, tools, c.history, names)
    ensures ToolFragments(c, ns, parent, tools).ok <==> !HasLate(c, ns, parent, tools)
    ensures OneSlotEach(c.history) ==> OneSlotEach(ToolFragments(c, ns, parent, tools).state.history)
    decreases |tools|
  {
    hide CallsOk, ToolFragment, SamePast;
    if tools != [] {
      var t, key := tools[0], KeyOf(ns, parent, tools[0]);
      if Given(t.id) {
        var id := ToolId(ns, t.id.value);
        NamedFragment(c, ns, parent, t, id);
        FragmentsStep(c, ns, parent, tools, id, names[id := t.name.value]);
      } else if key in c.slots {
        UnnamedFragment(c, ns, parent, t);
        FragmentsStep(c, ns, parent, tools, c.slots[key], names);
      } else {
        assert IsLate(c, ns, parent, t);
      }
    }
  }

  lemma {:induction false} FragmentsStep(c: Calls, ns: Namespace, parent: ScopedId, tools: seq<ToolChunk>, id: ScopedId,
                                         names: map<ScopedId, string>)
    requires CallsOk(c) && tools != [] && TargetOf(c, ns, parent, tools[0]) == Some(id)
    requires !IsLate(c, ns, parent, tools[0])
    requires var next := ToolFragment(c, ns, parent, tools[0], id).state;
             && SamePast(c, next)
             && (OneSlotEach(c.history) ==> OneSlotEach(next.history))
             && FragmentsAccepted(c, ns, parent, tools[1..], next.history, names)
    ensures ToolFragments(c, ns, parent, tools).ok <==> !HasLate(c, ns, parent, tools)
    ensures OneSlotEach(c.history) ==> OneSlotEach(ToolFragments(c, ns, parent, tools).state.history)
    decreases |tools|, 0
  {
    var next := ToolFragment(c, ns, parent, tools[0], id).state;
    ToolFragmentOk(c, ns, parent, tools[0], id);
    AcceptedIgnoresProgress(c, next, ns, parent, tools[1..], next.history, names);
    FragmentsFailIffLate(next, ns, parent, tools[1..], names);
    assert forall t :: IsLate(c, ns, parent, t) <==> IsLate(next, ns, parent, t) by {
      LateIsPast(c, next, ns, parent);
    }
    assert forall t :: t in tools <==> t == tools[0] || t in tools[1..];
  }

  lemma LateIsPast(c: Calls, next: Calls, ns: Namespace, parent: ScopedId)
    requires SamePast(c, next)
    ensures forall t :: IsLate(c, ns, parent, t) <==> IsLate(next, ns, parent, t)
  {
    forall t ensures IsLate(c, ns, parent, t) <==> IsLate(next, ns, parent, t) {
      var key := KeyOf(ns, parent, t);
      assert key in c.history.Keys - c.slots.Keys <==> key in next.history.Keys - next.slots.Keys;
    }
  }

  /** What a frame does before its tool fragments leaves the calls alone. */
  lemma BeforeToolsKeepsCalls(s: State, ns: Namespace, c: Chunk)
    ensures BeforeTools(s, ns, c).state.calls == s.calls
  {
  }

  /** An accepted assistant fragment is lost exactly when it holds a late fragment. */
  lemma ChunkLostIffLate(s: State, ns: Namespace, c: Chunk)
    requires Consistent(s) && Accepted(s, ns, c)
    ensures Process(s, AiChunk(ns, c)).Lost? <==> HasLate(s.calls, ns, MessageId(ns, c.id), c.tools)
  {
    FragmentsFailIffLate(s.calls, ns, MessageId(ns, c.id), c.tools, s.calls.names);
    BeforeToolsKeepsCalls(s, ns, c);
  }

  /** Complete messages name every call, so they are never lost. */
  lemma CompleteMessagesAreNeverLost(s: State, ns: Namespace, m: Complete)
    requires Consistent(s)
    ensures !Process(s, AiMessage(ns, m)).Lost?
  {
    var c := ToChunk(m);
    if Accepted(s, ns, c) {
      var parent := MessageId(ns, c.id);
      AcceptedNamesAreGiven(s.calls, ns, parent, c.tools, s.calls.history, s.calls.names);
      FragmentsFailIffLate(s.calls, ns, parent, c.tools, s.calls.names);
      BeforeToolsKeepsCalls(s, ns, c);
      hide Consistent, CallsOk, BeforeTools, LastPart, ToolFragments, FragmentsAccepted, CloseThoughts;
    }
  }

  lemma {:induction false} AcceptedNamesAreGiven(c: Calls, ns: Namespace, parent: ScopedId, tools: seq<ToolChunk>,
                                                 available: map<SlotKey, ScopedId>, names: map<ScopedId, string>)
    requires FragmentsAccepted(c, ns, parent, tools, available, names)
    ensures forall t | t in tools && t.name.Some? :: Given(t.id)
    decreases |tools|
  {
    if tools != [] {
      var t := tools[0];
      if t.id.Some? || t.name.Some? {
        var id := ToolId(ns, t.id.value);
        AcceptedNamesAreGiven(c, ns, parent, tools[1..],
                              if id in c.ended then available else available[KeyOf(ns, parent, t) := id],
                              names[id := t.name.value]);
      } else {
        AcceptedNamesAreGiven(c, ns, parent, tools[1..], available, names);
      }
    }
  }

  /** A call never spans two slots, so the source's inverse of the history is well defined. */
  lemma CallsKeepOneSlot(s: State, ns: Namespace, c: Chunk)
    requires Consistent(s) && Accepted(s, ns, c) && OneSlotEach(s.calls.history)
    ensures OneSlotEach(After(s, AiChunk(ns, c)).calls.history)
  {
    var parent := MessageId(ns, c.id);
    FragmentsFailIffLate(s.calls, ns, parent, c.tools, s.calls.names);
    BeforeToolsKeepsCalls(s, ns, c);
    var tools := ToolsPart(BeforeTools(s, ns, c).state, ns, c);
    CloseToolIdsKeepsHistory(tools.state.calls, ns, tools.state.calls.order);
    CloseToolIdsKeepsHistory(s.calls, ns, s.calls.order);
  }

  lemma {:induction false} CloseToolIdsKeepsHistory(c: Calls, ns: Namespace, ids: seq<ScopedId>)
    ensures CloseToolIds(c, ns, ids).state.history == c.history
    decreases |ids|
  {
    if ids != [] {
      if ids[0] in c.active && c.active[ids[0]].ns == ns {
        CloseToolIdsKeepsHistory(CloseTool(c, ids[0]).state, ns, ids[1..]);
      } else {
        CloseToolIdsKeepsHistory(c, ns, ids[1..]);
      }
    }
  }

  lemma RememberCallsKeepsHistory(s: State, ns: Namespace, message: string, calls: seq<ToolCall>)
    ensures RememberCalls(s, ns, message, calls).calls.history == s.calls.history
    decreases |calls|
  {
  }

  lemma {:induction false} RememberMessagesKeepsHistory(s: State, ns: Namespace, messages: seq<Prior>)
    ensures RememberMessages(s, ns, messages).calls.history == s.calls.history
    decreases |messages|
  {
    if messages != [] {
      if messages[0].PriorAi? {
        var m := messages[0].message;
        RememberCallsKeepsHistory(s, ns, m.id, m.calls);
        RememberCallsKeepsHistory(s.(baselines := s.baselines.(messages := s.baselines.messages[(ns, m.id) := messages[0]])),
                                  ns, m.id, m.calls);
      }
      RememberMessagesKeepsHistory(RememberMessage(s, ns, messages[0]), ns, messages[1..]);
    }
  }

  lemma {:induction false} CloseEachToolKeepsHistory(c: Calls, ids: seq<ScopedId>)
    ensures CloseEachTool(c, ids).state.history == c.history
    decreases |ids|
  {
    if ids != [] { CloseEachToolKeepsHistory(CloseTool(c, ids[0]).state, ids[1..]); }
  }

  lemma ClosingKeepsHistory(s: State)
    ensures CloseAll(s).state.calls.history == s.calls.history
  {
    CloseEachToolKeepsHistory(s.calls, s.calls.order);
  }

  lemma RememberingKeepsHistory(s: State, ns: Namespace, messages: seq<Prior>)
    ensures RememberBaseline(s, ns, messages).calls.history == s.calls.history
  {
    RememberMessagesKeepsHistory(s.(baselines := s.baselines.(scopes := s.baselines.scopes + {ns})), ns, messages);
  }

  lemma EndingKeepsHistory(c: Calls, id: ScopedId)
    ensures EndCall(c, id).state.history == c.history
  {
    hide Drop, SlotOf;
  }

  lemma SettlingKeepsHistory(c: Calls, ns: Namespace, r: ToolResult)
    ensures SettleCall(c, ns, r).state.history == c.history
  {
    var id, mark := ToolId(ns, r.callId), FingerprintOf(c, ns, r);
    EndingKeepsHistory(IntroduceCall(c, id, mark.name).state, id);
    hide FingerprintOf, EndCall;
  }

  /** The same over every frame. */
  lemma FramesKeepOneSlot(s: State, frame: Frame)
    requires Consistent(s) && OneSlotEach(s.calls.history)
    ensures OneSlotEach(After(s, frame).calls.history)
  {
    hide Consistent, Accepted, ProcessAi, RememberBaseline, CloseAll, SettleCall, ToChunk;
    match frame
    case Values(ns, messages) =>
      RememberingKeepsHistory(s, ns, messages);
      ClosingKeepsHistory(RememberBaseline(s, ns, messages));
    case AiChunk(ns, c) =>
      if Accepted(s, ns, c) { CallsKeepOneSlot(s, ns, c); }
    case AiMessage(ns, m) =>
      if Accepted(s, ns, ToChunk(m)) { CallsKeepOneSlot(s, ns, ToChunk(m)); }
    case ToolMessage(ns, r) => SettlingKeepsHistory(s.calls, ns, r);
    case Finish => ClosingKeepsHistory(s);
  }

  // ---- The failing input -----------------------------------------------------

  const FirstFrame: Frame :=
    AiChunk([], Chunk("m", "", [], "", [ToolChunk(Some(0), Some("t"), Some("f"), Some("{"))], true))

  /** More arguments for the slot of a call that the first frame has already ended. */
  const LateFrame: Frame :=
    AiChunk([], Chunk("m", "hi", [], "", [ToolChunk(Some(0), None, None, Some("}"))], false))

  lemma FirstFrameEndsTheCall(prior: set<ScopedId>)
    requires ToolId([], "t") !in prior
    ensures var key, id := SlotKey([], MessageId([], "m"), Indexed(0)), ToolId([], "t");
            && Process(Fresh(prior, false), FirstFrame).Done?
            && var s := After(Fresh(prior, false), FirstFrame);
            && s.texts == Texts(map[], []) && s.thoughts == Thoughts(map[], []) && !s.exposeReasoning
            && s.calls.history == map[key := id] && s.calls.slots == map[]
            && s.baselines == Baselines({}, map[], map[])
  {
    var s0, c := Fresh(prior, false), FirstFrame.chunk;
    var key, id, t := SlotKey([], MessageId([], "m"), Indexed(0)), ToolId([], "t"), c.tools[0];
    assert c.tools == [t] && c.tools[1..] == [];
    assert Accepted(s0, [], c);
    var tool := ActiveTool(id, "f", MessageId([], "m"), [], Some(0), "");
    var begun := StartTool(s0.calls, key, tool);
    assert ToolFragment(s0.calls, [], MessageId([], "m"), t, id).state == AppendArgs(begun.state, id, t.args).state;
    var calls := AppendArgs(begun.state, id, t.args).state;
    assert ToolFragments(s0.calls, [], MessageId([], "m"), c.tools) ==
           Attempt(calls, ToolFragment(s0.calls, [], MessageId([], "m"), t, id).events + [], true);
    assert calls.order == [id] && calls.order[1..] == [];
    assert id in calls.active && calls.active[id].ns == [] && id !in calls.ended;
    assert CloseToolIds(CloseTool(calls, id).state, [], []) == Out(CloseTool(calls, id).state, []);
    assert CloseTools(calls, []).state == CloseTool(calls, id).state;
    assert calls.slots - {key} == map[];
  }

  lemma LateFrameIsLost(s: State)
    requires Consistent(s) && s.baselines == Baselines({}, map[], map[])
    requires s.calls.history == map[SlotKey([], MessageId([], "m"), Indexed(0)) := ToolId([], "t")] && s.calls.slots == map[]
    ensures Process(s, LateFrame).Lost?
  {
    var c, m := LateFrame.chunk, MessageId([], "m");
    assert c.tools[1..] == [];
    assert KeyOf([], m, c.tools[0]) == SlotKey([], m, Indexed(0));
    assert Accepted(s, [], c);
    assert IsLate(s.calls, [], m, c.tools[0]);
    ChunkLostIffLate(s, [], c);
  }

  /**
   The frame is accepted, yet it fails after its text was recorded as open. The client
   never saw that text start, so the end that `finish` sends is one it must reject.
   */
  lemma LateFragmentUnbalancesTheTrace(prior: set<ScopedId>)
    requires ToolId([], "t") !in prior && forall id | id in prior :: id.kind == ToolKind
    ensures var s0 := Fresh(prior, false);
            && Process(s0, FirstFrame).Done?
            && Process(After(s0, FirstFrame), LateFrame).Lost?
            && ObserveAll(ViewOf(s0), Trace(s0, [FirstFrame, LateFrame, Finish])).None?
  {
    var s0 := Fresh(prior, false);
    hide Process, Consistent, After, Delivered, ObserveAll, Fresh, Trace;
    FirstFrameEndsTheCall(prior);
    FreshIsConsistent(prior, false);
    var s1 := After(s0, FirstFrame);
    DeliveredEventsMatch(s0, FirstFrame);
    LateFrameIsLost(s1);
    LateTextStaysOpen(s1);
    var s2 := After(s1, LateFrame);
    TraceAroundLoss(s0, FirstFrame, LateFrame, Finish);
    assert NewlyKnown(s0, FirstFrame) == {};
    assert Learn(ViewOf(s0), {}).tools == ViewOf(s0).tools;
    ObserveConcat(ViewOf(s0), Delivered(s0, FirstFrame), Delivered(s2, Finish));
    OrphanEnd(ViewOf(s1), s2);
  }

  lemma TraceAroundLoss(s: State, first: Frame, lost: Frame, last: Frame)
    requires Process(After(s, first), lost).Lost?
    ensures Trace(s, [first, lost, last]) == Delivered(s, first) + Delivered(After(After(s, first), lost), last)
  {
    hide Process;
    var frames := [first, lost, last];
    assert frames[1..] == [lost, last] && frames[1..][1..] == [last] && [last][1..] == [];
    var s1 := After(s, first);
    var s2 := After(s1, lost);
    assert Delivered(s1, lost) == [];
    hide After, Delivered;
    assert Trace(s2, [last]) == Delivered(s2, last) + [];
    assert Trace(s1, [lost, last]) == [] + Trace(s2, [last]);
  }

  lemma LateTextStaysOpen(s: State)
    requires s.texts == Texts(map[], []) && s.thoughts == Thoughts(map[], []) && !s.exposeReasoning
    ensures Process(s, LateFrame).Lost? ==>
      var next := After(s, LateFrame);
      next.texts == Texts(map[[] := MessageId([], "m")], [[]]) && next.thoughts == Thoughts(map[], [])
  {
    var c := LateFrame.chunk;
    var before := BeforeTools(s, [], c);
    assert before.state.texts == Texts(map[[] := MessageId([], "m")], [] + [[]]);
  }

  /** Closing a text the client never saw begins with an event it rejects. */
  lemma OrphanEnd(v: View, s: State)
    requires [] !in v.texts
    requires s.texts == Texts(map[[] := MessageId([], "m")], [[]]) && s.thoughts == Thoughts(map[], [])
    ensures ObserveAll(v, Delivered(s, Finish)).None?
  {
    assert s.texts.order[1..] == [];
    var m := MessageId([], "m");
    assert CloseTexts(s.texts, s.texts.order).events == [TextEnd(m)] + [];
    assert Delivered(s, Finish)[0] == TextEnd(m);
  }
}
