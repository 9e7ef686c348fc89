/**
 The adapter itself: an object whose dictionaries change as frames arrive.

 Every method is tied to the function of the same step: it returns that function's
 events and leaves the dictionaries in that function's state. What those functions
 keep, over frames and runs, is proved about them.
 */
module AguiAdapter {
  import opened AguiBalance
  import opened AguiLoss
  import opened AguiRuns
  import opened AguiStream
  import opened AguiTypes
  import opened Options

  /** A dictionary's keys in insertion order, after a key is set. */
  function Inserted<T(==)>(order: seq<T>, known: bool, key: T): seq<T> {
    if known then order else order + [key]
  }

  class Adapter {
    var activeMessages: map<Namespace, ScopedId>
    var messageOrder: seq<Namespace>
    var activeReasoning: map<ScopedId, ActiveReasoning>
    var reasoningOrder: seq<ScopedId>
    var activeTools: map<ScopedId, ActiveTool>
    var toolOrder: seq<ScopedId>
    var toolIdsBySlot: map<SlotKey, ScopedId>
    var toolIdHistoryBySlot: map<SlotKey, ScopedId>
    var toolNamesById: map<ScopedId, string>
    var priorToolCallIds: set<ScopedId>
    var startedToolIds: set<ScopedId>
    var endedToolIds: set<ScopedId>
    var resultFingerprints: map<ScopedId, Fingerprint>
    var baselineScopes: set<Namespace>
    var messageBaselines: map<(Namespace, string), Prior>
    var baselineToolParents: map<ScopedId, ScopedId>
    const exposeReasoningEvents: bool

    constructor (prior: set<ScopedId>, exposeReasoning: bool)
      ensures Model() == Fresh(prior, exposeReasoning)
    {
      activeMessages, messageOrder := map[], [];
      activeReasoning, reasoningOrder := map[], [];
      activeTools, toolOrder := map[], [];
      toolIdsBySlot, toolIdHistoryBySlot, toolNamesById := map[], map[], map[];
      priorToolCallIds, startedToolIds, endedToolIds := prior, prior, prior;
      resultFingerprints := map[];
      baselineScopes, messageBaselines, baselineToolParents := {}, map[], map[];
      exposeReasoningEvents := exposeReasoning;
    }

    // ---- The state the dictionaries stand for ---------------------------------

    ghost function TextState(): Texts
      reads `activeMessages, `messageOrder
    {
      Texts(activeMessages, messageOrder)
    }

    ghost function ThoughtState(): Thoughts
      reads `activeReasoning, `reasoningOrder
    {
      Thoughts(activeReasoning, reasoningOrder)
    }

    ghost function CallState(): Calls
      reads `activeTools, `toolOrder, `toolIdsBySlot, `toolIdHistoryBySlot, `toolNamesById
      reads `priorToolCallIds, `startedToolIds, `endedToolIds, `resultFingerprints
    {
      Calls(activeTools, toolOrder, toolIdsBySlot, toolIdHistoryBySlot, toolNamesById,
            priorToolCallIds, startedToolIds, endedToolIds, resultFingerprints)
    }

    ghost function BaselineState(): Baselines
      reads `baselineScopes, `messageBaselines, `baselineToolParents
    {
      Baselines(baselineScopes, messageBaselines, baselineToolParents)
    }

    ghost function Model(): State
      reads this
    {
      State(TextState(), ThoughtState(), CallState(), BaselineState(), exposeReasoningEvents)
    }

    // ---- Closing ---------------------------------------------------------------

    method CloseMessage(ns: Namespace) returns (events: seq<Event>)
      modifies `activeMessages, `messageOrder
      ensures Out(TextState(), events) == CloseText(old(TextState()), ns)
    {
      if ns !in activeMessages {
        return [];
      }
      var id := activeMessages[ns];
      activeMessages := activeMessages - {ns};
      messageOrder := Drop(messageOrder, ns);
      events := [TextEnd(id)];
    }

    method CloseReasoning(ns: Namespace) returns (events: seq<Event>)
      modifies `activeReasoning, `reasoningOrder
      ensures Out(ThoughtState(), events) == CloseThoughts(old(ThoughtState()), ns)
    {
      var keys := reasoningOrder;
      events := [];
      for i := 0 to |keys|
        invariant var rest := CloseThoughtKeys(ThoughtState(), ns, keys[i..]);
                  CloseThoughts(old(ThoughtState()), ns) == Out(rest.state, events + rest.events)
      {
        var key := keys[i];
        assert keys[i..][1..] == keys[i + 1..];
        ghost var before, said := ThoughtState(), events;
        if key in activeReasoning && activeReasoning[key].ns == ns {
          var active := activeReasoning[key];
          activeReasoning := activeReasoning - {key};
          reasoningOrder := Drop(reasoningOrder, key);
          events := events + [ReasoningMessageEnd(active.message), ReasoningEnd(active.reasoning)];
          assert Out(ThoughtState(), [ReasoningMessageEnd(active.message), ReasoningEnd(active.reasoning)]) == CloseThought(before, key);
          ghost var rest := CloseThoughtKeys(ThoughtState(), ns, keys[i + 1..]);
          assert events + rest.events == said + (CloseThought(before, key).events + rest.events);
        }
      }
    }

    method CloseActiveTool(id: ScopedId) returns (events: seq<Event>)
      modifies `activeTools, `toolOrder, `toolIdsBySlot, `endedToolIds
      ensures Out(CallState(), events) == CloseTool(old(CallState()), id)
    {
      if id !in activeTools {
        return [];
      }
      var active := activeTools[id];
      activeTools := activeTools - {id};
      toolOrder := Drop(toolOrder, id);
      if id in endedToolIds {
        return [];
      }
      toolIdsBySlot := toolIdsBySlot - {SlotOf(active)};
      endedToolIds := endedToolIds + {id};
      events := [ToolEnd(id)];
    }

    method CloseScopeTools(ns: Namespace) returns (events: seq<Event>)
      modifies `activeTools, `toolOrder, `toolIdsBySlot, `endedToolIds
      ensures Out(CallState(), events) == CloseTools(old(CallState()), ns)
    {
      var ids := toolOrder;
      events := [];
      for i := 0 to |ids|
        invariant var rest := CloseToolIds(CallState(), ns, ids[i..]);
                  CloseTools(old(CallState()), ns) == Out(rest.state, events + rest.events)
      {
        assert ids[i..][1..] == ids[i + 1..];
        if ids[i] in activeTools && activeTools[ids[i]].ns == ns {
          ghost var said := events;
          var closed := CloseActiveTool(ids[i]);
          events := events + closed;
          ghost var rest := CloseToolIds(CallState(), ns, ids[i + 1..]);
          assert events + rest.events == said + (closed + rest.events);
        }
      }
    }

    method CloseAllReasoning() returns (events: seq<Event>)
      modifies `activeReasoning, `reasoningOrder
      ensures Out(ThoughtState(), events) == CloseAllThoughts(old(ThoughtState()))
    {
      var namespaces: seq<Namespace> := [];
      for i := 0 to |reasoningOrder|
        invariant ScopesOf(ThoughtState(), reasoningOrder, []) == ScopesOf(ThoughtState(), reasoningOrder[i..], namespaces)
      {
        var key := reasoningOrder[i];
        assert reasoningOrder[i..][1..] == reasoningOrder[i + 1..];
        if key in activeReasoning && activeReasoning[key].ns !in namespaces {
          namespaces := namespaces + [activeReasoning[key].ns];
        }
      }
      events := [];
      for i := 0 to |namespaces|
        invariant var rest := CloseThoughtScopes(ThoughtState(), namespaces[i..]);
                  CloseAllThoughts(old(ThoughtState())) == Out(rest.state, events + rest.events)
      {
        assert namespaces[i..][1..] == namespaces[i + 1..];
        ghost var said := events;
        var closed := CloseReasoning(namespaces[i]);
        events := events + closed;
        ghost var rest := CloseThoughtScopes(ThoughtState(), namespaces[i + 1..]);
        assert events + rest.events == said + (closed + rest.events);
      }
    }

    method CloseAllMessages() returns (events: seq<Event>)
      modifies `activeMessages, `messageOrder
      ensures Out(TextState(), events) == CloseTexts(old(TextState()), old(messageOrder))
    {
      var namespaces := messageOrder;
      events := [];
      for i := 0 to |namespaces|
        invariant var rest := CloseTexts(TextState(), namespaces[i..]);
                  CloseTexts(old(TextState()), namespaces) == Out(rest.state, events + rest.events)
      {
        assert namespaces[i..][1..] == namespaces[i + 1..];
        ghost var said := events;
        var closed := CloseMessage(namespaces[i]);
        events := events + closed;
        ghost var rest := CloseTexts(TextState(), namespaces[i + 1..]);
        assert events + rest.events == said + (closed + rest.events);
      }
    }

    method CloseAllTools() returns (events: seq<Event>)
      modifies `activeTools, `toolOrder, `toolIdsBySlot, `endedToolIds
      ensures Out(CallState(), events) == CloseEachTool(old(CallState()), old(toolOrder))
    {
      var ids := toolOrder;
      events := [];
      for i := 0 to |ids|
        invariant var rest := CloseEachTool(CallState(), ids[i..]);
                  CloseEachTool(old(CallState()), ids) == Out(rest.state, events + rest.events)
      {
        assert ids[i..][1..] == ids[i + 1..];
        ghost var said := events;
        var closed := CloseActiveTool(ids[i]);
        events := events + closed;
        ghost var rest := CloseEachTool(CallState(), ids[i + 1..]);
        assert events + rest.events == said + (closed + rest.events);
      }
    }

    method CloseEverything() returns (events: seq<Event>)
      modifies this
      ensures Out(Model(), events) == CloseAll(old(Model()))
    {
      hide CloseAllThoughts, CloseTexts, CloseEachTool;
      var reasoning := CloseAllReasoning();
      var messages := CloseAllMessages();
      var tools := CloseAllTools();
      events := reasoning + messages + tools;
    }

    // ---- Assistant frames ------------------------------------------------------

    method ConvertReasoningEvents(ns: Namespace, c: Chunk) returns (events: seq<Event>)
      modifies `activeMessages, `messageOrder, `activeReasoning, `reasoningOrder
      ensures Out(Model(), events) == ReasoningPart(old(Model()), ns, c)
      ensures events == [] <==> !exposeReasoningEvents || c.reasoning == ""
    {
      if !exposeReasoningEvents || c.reasoning == "" {
        return [];
      }
      events := EmitReasoning(ns, c);
    }

    method EmitReasoning(ns: Namespace, c: Chunk) returns (events: seq<Event>)
      requires exposeReasoningEvents && c.reasoning != ""
      modifies `activeMessages, `messageOrder, `activeReasoning, `reasoningOrder
      ensures Out(Model(), events) == ReasoningPart(old(Model()), ns, c)
      ensures events != []
    {
      var key := MessageId(ns, c.id);
      var closed := CloseMessage(ns);
      if key in activeReasoning {
        events := closed + [ReasoningContent(activeReasoning[key].message, c.reasoning)];
      } else {
        var ended := CloseReasoning(ns);
        var active := ActiveReasoning(key, ScopedId(ReasoningKind, ns, c.id), ScopedId(ReasoningMessageKind, ns, c.id), ns);
        reasoningOrder := Inserted(reasoningOrder, false, key);
        activeReasoning := activeReasoning[key := active];
        var begun := [ReasoningStart(active.reasoning), ReasoningMessageStart(active.message),
                      ReasoningContent(active.message, c.reasoning)];
        events := closed + (ended + begun);
      }
    }

    /** A new source message ends the message of another one. */
    method CloseStaleMessage(ns: Namespace, c: Chunk) returns (events: seq<Event>)
      modifies `activeMessages, `messageOrder
      ensures Out(Model(), events) == StalePart(old(Model()), ns, c)
    {
      events := [];
      if ns in activeMessages && MessageId(ns, c.id) != activeMessages[ns] {
        events := CloseMessage(ns);
      }
    }

    method EmitText(ns: Namespace, c: Chunk) returns (events: seq<Event>)
      modifies `activeMessages, `messageOrder, `activeReasoning, `reasoningOrder
      ensures Out(Model(), events) == TextPart(old(Model()), ns, c)
    {
      if c.text == "" {
        return [];
      }
      hide CloseThoughts;
      var id := MessageId(ns, c.id);
      events := CloseReasoning(ns);
      if !(ns in activeMessages && activeMessages[ns] == id) {
        if ns in activeMessages {
          events := events + [TextEnd(activeMessages[ns])];
        }
        messageOrder := Inserted(messageOrder, ns in activeMessages, ns);
        activeMessages := activeMessages[ns := id];
        events := events + [TextStart(id)];
      }
      events := events + [TextContent(id, c.text)];
    }

    method EmitAttachments(ns: Namespace, c: Chunk) returns (events: seq<Event>)
      modifies `activeMessages, `messageOrder, `activeReasoning, `reasoningOrder
      ensures Out(Model(), events) == AttachmentPart(old(Model()), ns, c)
    {
      if c.attachments == [] {
        return [];
      }
      hide CloseThoughts;
      var id := MessageId(ns, c.id);
      events := CloseReasoning(ns);
      if !(ns in activeMessages && activeMessages[ns] == id) {
        var closed := CloseMessage(ns);
        messageOrder := Inserted(messageOrder, ns in activeMessages, ns);
        activeMessages := activeMessages[ns := id];
        events := events + closed + [TextStart(id)];
      }
      events := events + [Attachments(id, c.attachments)];
    }

    /** `ok` is false when the fragment's call is unknown, which is an exception in the source. */
    method ProcessToolChunk(ns: Namespace, parent: ScopedId, t: ToolChunk) returns (ok: bool, events: seq<Event>)
      modifies `activeTools, `toolOrder, `toolIdsBySlot, `toolIdHistoryBySlot, `toolNamesById, `startedToolIds, `endedToolIds
      ensures var target := TargetOf(old(CallState()), ns, parent, t);
              && (ok <==> target.Some?)
              && (!ok ==> CallState() == old(CallState()) && events == [])
              && (ok ==> Out(CallState(), events) == ToolFragment(old(CallState()), ns, parent, t, target.value))
    {
      var key := KeyOf(ns, parent, t);
      var id: ScopedId;
      if Given(t.id) {
        id := ToolId(ns, t.id.value);
      } else if key in toolIdsBySlot {
        id := toolIdsBySlot[key];
      } else {
        return false, [];
      }
      ok, events := true, [];
      if key in toolIdsBySlot && toolIdsBySlot[key] != id {
        events := CloseActiveTool(toolIdsBySlot[key]);
      }
      ghost var freed := FreeSlot(old(CallState()), key, id);
      assert Out(CallState(), events) == freed;
      if id !in activeTools && id !in endedToolIds {
        if !Given(t.name) {
          assert BeginTool(freed.state, ns, parent, t, id) == Out(freed.state, []);
          assert events + [] + [] == events;
          return;
        }
        toolOrder := Inserted(toolOrder, id in activeTools, id);
        activeTools := activeTools[id := ActiveTool(id, t.name.value, parent, ns, t.index, "")];
        toolNamesById := toolNamesById[id := t.name.value];
        toolIdsBySlot := toolIdsBySlot[key := id];
        toolIdHistoryBySlot := toolIdHistoryBySlot[key := id];
        startedToolIds := startedToolIds + {id};
        events := events + [ToolStart(id, t.name.value, Some(parent))];
      }
      ghost var begun := BeginTool(freed.state, ns, parent, t, id);
      assert CallState() == begun.state && events == freed.events + begun.events;
      if id in activeTools && Given(t.args) {
        activeTools := activeTools[id := activeTools[id].(arguments := activeTools[id].arguments + t.args.value)];
        events := events + [ToolArgs(id, t.args.value)];
      }
    }

    method ProcessToolChunks(ns: Namespace, parent: ScopedId, tools: seq<ToolChunk>) returns (ok: bool, events: seq<Event>)
      modifies `activeTools, `toolOrder, `toolIdsBySlot, `toolIdHistoryBySlot, `toolNamesById, `startedToolIds, `endedToolIds
      ensures Attempt(CallState(), events, ok) == ToolFragments(old(CallState()), ns, parent, tools)
    {
      hide TargetOf, ToolFragment;
      ok, events := true, [];
      for i := 0 to |tools|
        invariant var rest := ToolFragments(CallState(), ns, parent, tools[i..]);
                  ToolFragments(old(CallState()), ns, parent, tools) == Attempt(rest.state, events + rest.events, rest.ok)
      {
        assert tools[i..][1..] == tools[i + 1..] && tools[i..][0] == tools[i];
        ghost var before := CallState();
        var one: seq<Event>;
        ok, one := ProcessToolChunk(ns, parent, tools[i]);
        if !ok {
          assert events + [] == events;
          return;
        }
        ghost var rest := ToolFragments(CallState(), ns, parent, tools[i + 1..]);
        assert ToolFragments(before, ns, parent, tools[i..]) == Attempt(rest.state, one + rest.events, rest.ok);
        assert (events + one) + rest.events == events + (one + rest.events);
        events := events + one;
      }
      ok := true;
    }

    method CloseBoundary(ns: Namespace) returns (events: seq<Event>)
      modifies this
      ensures Out(Model(), events) == CloseScope(old(Model()), ns)
    {
      hide CloseTools, CloseThoughts, CloseText;
      var tools := CloseScopeTools(ns);
      var reasoning := CloseReasoning(ns);
      var message := CloseMessage(ns);
      events := tools + reasoning + message;
    }

    method EmitTools(ns: Namespace, c: Chunk) returns (ok: bool, events: seq<Event>)
      modifies this
      ensures Attempt(Model(), events, ok) == ToolsPart(old(Model()), ns, c)
    {
      hide CloseThoughts, ToolFragments;
      if c.tools == [] {
        return true, [];
      }
      events := CloseReasoning(ns);
      var fragments: seq<Event>;
      ok, fragments := ProcessToolChunks(ns, MessageId(ns, c.id), c.tools);
      events := events + fragments;
    }

    method CloseIfLast(ns: Namespace, c: Chunk) returns (events: seq<Event>)
      modifies this
      ensures Out(Model(), events) == LastPart(old(Model()), ns, c)
    {
      hide CloseScope;
      events := [];
      if c.last {
        events := CloseBoundary(ns);
      }
    }

    /** `ok` is false when a tool fragment ended the frame with an exception. */
    method ProcessAiChunk(ns: Namespace, c: Chunk) returns (ok: bool, events: seq<Event>)
      modifies this
      ensures Attempt(Model(), events, ok) == ProcessAi(old(Model()), ns, c)
    {
      hide StalePart, TextPart, AttachmentPart, ToolsPart, LastPart;
      var reasoning := ConvertReasoningEvents(ns, c);
      if c.text == "" && c.attachments == [] && c.tools == [] && reasoning == [] {
        events := CloseIfLast(ns, c);
        return true, events;
      }
      hide ReasoningPart;
      events := CloseStaleMessage(ns, c);
      var text := EmitText(ns, c);
      var attached := EmitAttachments(ns, c);
      events := events + reasoning + text + attached;
      var tools: seq<Event>;
      ok, tools := EmitTools(ns, c);
      events := events + tools;
      if ok {
        var closed := CloseIfLast(ns, c);
        events := events + closed;
      }
    }

    // ---- Validation ------------------------------------------------------------

    /** The two lookups of a validation in progress are each other's inverse. */
    ghost predicate Inverse(slots: map<SlotKey, ScopedId>, slotById: map<ScopedId, SlotKey>) {
      && (forall key | key in slots :: slots[key] in slotById && slotById[slots[key]] == key)
      && (forall id | id in slotById :: slotById[id] in slots && slots[slotById[id]] == id)
    }

    method ValidateParents(ns: Namespace, parent: ScopedId, tools: seq<ToolChunk>) returns (ok: bool)
      ensures ok == ParentsAgree(BaselineState(), ns, parent, tools)
    {
      for i := 0 to |tools|
        invariant ParentsAgree(BaselineState(), ns, parent, tools[..i])
      {
        var t := tools[i];
        assert tools[..i + 1] == tools[..i] + [t];
        if Given(t.id) && ToolId(ns, t.id.value) in baselineToolParents && baselineToolParents[ToolId(ns, t.id.value)] != parent {
          assert t in tools;
          return false;
        }
      }
      assert tools[..|tools|] == tools;
      return true;
    }

    /** Walks the fragments as if they had been applied, without applying them. */
    method ValidateFragments(ns: Namespace, parent: ScopedId, tools: seq<ToolChunk>) returns (ok: bool)
      requires OneSlotEach(toolIdHistoryBySlot)
      ensures ok == FragmentsAccepted(CallState(), ns, parent, tools, toolIdHistoryBySlot, toolNamesById)
    {
      var available, names := toolIdHistoryBySlot, toolNamesById;
      var slotById := map key | key in available :: available[key] := key;
      for i := 0 to |tools|
        invariant Inverse(available, slotById)
        invariant FragmentsAccepted(CallState(), ns, parent, tools, toolIdHistoryBySlot, toolNamesById) ==
                  FragmentsAccepted(CallState(), ns, parent, tools[i..], available, names)
      {
        var t := tools[i];
        assert tools[i..][0] == t && tools[i..][1..] == tools[i + 1..];
        var key := KeyOf(ns, parent, t);
        if t.index.None? && !(Given(t.id) && Given(t.name)) {
          return false;
        }
        if t.id.Some? || t.name.Some? {
          if !Given(t.id) || !Given(t.name) {
            return false;
          }
          var id := ToolId(ns, t.id.value);
          if id in endedToolIds && id !in priorToolCallIds {
            return false;
          }
          if id in slotById && slotById[id] != key {
            return false;
          }
          if key in available && available[key] != id {
            return false;
          }
          if id in names && names[id] != t.name.value {
            return false;
          }
          names := names[id := t.name.value];
          if id !in endedToolIds {
            available, slotById := available[key := id], slotById[id := key];
          }
        } else if key !in available {
          return false;
        }
      }
      return true;
    }

    method ValidateMessage(ns: Namespace, c: Chunk) returns (ok: bool)
      requires OneSlotEach(toolIdHistoryBySlot)
      ensures ok == Accepted(Model(), ns, c)
    {
      if c.id == "" {
        return false;
      }
      ok := ValidateParents(ns, MessageId(ns, c.id), c.tools);
      if ok {
        ok := ValidateFragments(ns, MessageId(ns, c.id), c.tools);
      }
    }

    // ---- Results ---------------------------------------------------------------

    method Introduce(id: ScopedId, name: string) returns (events: seq<Event>)
      modifies `toolNamesById, `startedToolIds
      ensures Out(CallState(), events) == IntroduceCall(old(CallState()), id, name)
    {
      events := [];
      if id !in startedToolIds {
        toolNamesById := toolNamesById[id := name];
        startedToolIds := startedToolIds + {id};
        events := [ToolStart(id, name, None)];
      }
    }

    method End(id: ScopedId) returns (events: seq<Event>)
      modifies `activeTools, `toolOrder, `toolIdsBySlot, `endedToolIds
      ensures Out(CallState(), events) == EndCall(old(CallState()), id)
    {
      events := [];
      if id !in endedToolIds && (id in activeTools || id in startedToolIds) {
        events := CloseActiveTool(id);
        if id !in endedToolIds {
          endedToolIds := endedToolIds + {id};
          events := events + [ToolEnd(id)];
        }
      }
    }

    method Settle(ns: Namespace, r: ToolResult, mark: Fingerprint) returns (events: seq<Event>)
      requires mark == FingerprintOf(CallState(), ns, r)
      modifies `activeTools, `toolOrder, `toolIdsBySlot, `endedToolIds
      modifies `toolNamesById, `startedToolIds, `resultFingerprints, `priorToolCallIds
      ensures Out(CallState(), events) == SettleCall(old(CallState()), ns, r)
    {
      hide IntroduceCall, EndCall, FingerprintOf;
      var id := ToolId(ns, r.callId);
      var begun := Introduce(id, mark.name);
      var ended := End(id);
      resultFingerprints := resultFingerprints[id := mark];
      priorToolCallIds := priorToolCallIds - {id};
      events := begun + ended + [ToolOutcome(id, mark.message, r.content, r.attachments)];
    }

    method Publish(ns: Namespace, r: ToolResult, mark: Fingerprint) returns (events: seq<Event>)
      requires mark == FingerprintOf(CallState(), ns, r)
      modifies this
      ensures Out(Model(), events) == PublishResult(old(Model()), ns, r)
    {
      hide CloseThoughts, CloseText, SettleCall;
      var reasoning := CloseReasoning(ns);
      var message := CloseMessage(ns);
      var calls := Settle(ns, r, mark);
      events := reasoning + message + calls;
    }

    // ---- Baselines -------------------------------------------------------------

    method RememberProposal(ns: Namespace, message: string, id: ScopedId, name: string)
      modifies `priorToolCallIds, `startedToolIds, `endedToolIds, `toolNamesById, `baselineToolParents
      ensures CallState() == RememberCall(old(CallState()), id, name)
      ensures baselineToolParents == if id in old(startedToolIds) || message == "" then old(baselineToolParents)
                                     else old(baselineToolParents)[id := MessageId(ns, message)]
    {
      if id !in startedToolIds {
        if message != "" {
          baselineToolParents := baselineToolParents[id := MessageId(ns, message)];
        }
        priorToolCallIds := priorToolCallIds + {id};
        startedToolIds := startedToolIds + {id};
        endedToolIds := endedToolIds + {id};
        toolNamesById := toolNamesById[id := name];
      }
    }

    method RememberProposals(ns: Namespace, message: string, calls: seq<ToolCall>)
      modifies `priorToolCallIds, `startedToolIds, `endedToolIds, `toolNamesById, `baselineToolParents
      ensures Model() == RememberCalls(old(Model()), ns, message, calls)
    {
      hide RememberCall;
      for i := 0 to |calls|
        invariant RememberCalls(old(Model()), ns, message, calls) == RememberCalls(Model(), ns, message, calls[i..])
      {
        assert calls[i..][0] == calls[i] && calls[i..][1..] == calls[i + 1..];
        if Given(calls[i].id) {
          RememberProposal(ns, message, ToolId(ns, calls[i].id.value), calls[i].name);
        }
      }
    }

    method RememberMessageBaseline(ns: Namespace, messages: seq<Prior>)
      modifies this
      ensures Model() == RememberBaseline(old(Model()), ns, messages)
    {
      hide RememberCalls;
      if ns in baselineScopes {
        return;
      }
      baselineScopes := baselineScopes + {ns};
      ghost var noted := Model();
      for i := 0 to |messages|
        invariant RememberMessages(noted, ns, messages) == RememberMessages(Model(), ns, messages[i..])
      {
        var message := messages[i];
        assert messages[i..][0] == message && messages[i..][1..] == messages[i + 1..];
        match message
        case Other =>
        case PriorTool(r) =>
          if Given(r.id) {
            messageBaselines := messageBaselines[(ns, r.id.value) := message];
          }
        case PriorAi(m) =>
          if m.id != "" {
            messageBaselines := messageBaselines[(ns, m.id) := message];
          }
          RememberProposals(ns, m.id, m.calls);
      }
    }

    method Repeats(ns: Namespace, id: string, message: Prior) returns (known: bool)
      ensures known == IsBaseline(BaselineState(), ns, id, message)
    {
      known := (ns, id) in messageBaselines && messageBaselines[(ns, id)] == message;
    }

    // ---- One frame -------------------------------------------------------------

    method ProcessToolResult(ns: Namespace, r: ToolResult) returns (reply: Reply)
      modifies this
      ensures Answers(reply, Model(), old(Model()), ToolMessage(ns, r))
    {
      hide PublishResult;
      var id := ToolId(ns, r.callId);
      if r.id.Some? {
        var known := Repeats(ns, r.id.value, PriorTool(r));
        if known {
          return Emitted([]);
        }
      }
      if r.callId == "" || (id in toolNamesById && r.name.Some? && toolNamesById[id] != r.name.value) {
        return Refused;
      }
      var name := if id in toolNamesById && toolNamesById[id] != "" then toolNamesById[id]
                  else if Given(r.name) then r.name.value
                  else "tool";
      var message := MessageId(ns, if Given(r.id) then r.id.value else "tool-result:" + r.callId);
      var mark := Fingerprint(message, name, r.content, r.attachments, r.failed);
      if id in resultFingerprints {
        return if resultFingerprints[id] == mark then Emitted([]) else Refused;
      }
      var events := Publish(ns, r, mark);
      reply := Emitted(events);
    }

    method ProcessAccepted(ns: Namespace, c: Chunk) returns (reply: Reply)
      requires OneSlotEach(toolIdHistoryBySlot)
      modifies this
      ensures Answers(reply, Model(), old(Model()), AiChunk(ns, c))
    {
      hide Accepted, ProcessAi;
      var valid := ValidateMessage(ns, c);
      if !valid {
        return Refused;
      }
      var ok, events := ProcessAiChunk(ns, c);
      reply := if ok then Emitted(events) else Broke(events);
    }

    method ProcessComplete(ns: Namespace, m: Complete) returns (reply: Reply)
      requires OneSlotEach(toolIdHistoryBySlot)
      modifies this
      ensures Answers(reply, Model(), old(Model()), AiMessage(ns, m))
    {
      hide Accepted, ProcessAi, IsBaseline;
      var c := CompleteToChunk(m);
      var valid := ValidateMessage(ns, c);
      if !valid {
        return Refused;
      }
      var known := Repeats(ns, m.id, PriorAi(m));
      if known {
        return Emitted([]);
      }
      var ok, events := ProcessAiChunk(ns, c);
      reply := if ok then Emitted(events) else Broke(events);
    }

    /** Numbers the calls of a complete message. */
    method CompleteToChunk(m: Complete) returns (c: Chunk)
      ensures c == ToChunk(m)
    {
      var tools: seq<ToolChunk> := [];
      for i := 0 to |m.calls|
        invariant tools == ToChunk(m).tools[..i]
      {
        var call := m.calls[i];
        tools := tools + [ToolChunk(Some(i), call.id, Some(call.name), Some(call.args))];
      }
      assert tools == ToChunk(m).tools;
      c := Chunk(m.id, m.text, m.attachments, m.reasoning, tools, true);
    }

    ghost predicate Valid()
      reads this
    {
      Consistent(Model()) && OneSlotEach(toolIdHistoryBySlot)
    }

    /** One frame: the answer is the specification's, and the dictionaries stay consistent. */
    method ProcessPart(frame: Frame) returns (reply: Reply)
      requires Valid()
      modifies this
      ensures Valid()
      ensures Answers(reply, Model(), old(Model()), frame)
    {
      hide Consistent, CloseAll, RememberBaseline, ProcessAi, PublishResult;
      ghost var before := Model();
      ProcessKeepsConsistent(before, frame);
      FramesKeepOneSlot(before, frame);
      match frame
      case Values(ns, messages) =>
        RememberMessageBaseline(ns, messages);
        var events: seq<Event> := [];
        if ns == [] {
          events := CloseEverything();
        }
        reply := Emitted(events);
      case AiChunk(ns, c) => reply := ProcessAccepted(ns, c);
      case AiMessage(ns, m) => reply := ProcessComplete(ns, m);
      case ToolMessage(ns, r) => reply := ProcessToolResult(ns, r);
      case Finish =>
        var events := CloseEverything();
        reply := Emitted(events);
      AnswersAfter(reply, Model(), before, frame);
    }
  }

  /** What a caller sees of a frame: events, a refusal, or an exception halfway through. */
  datatype Reply = Emitted(events: seq<Event>) | Refused | Broke(discarded: seq<Event>)

  ghost predicate Answers(reply: Reply, next: State, before: State, frame: Frame) {
    match Process(before, frame)
    case Done(state, events) => reply == Emitted(events) && next == state
    case Rejected => reply == Refused && next == before
    case Lost(state, discarded) => reply == Broke(discarded) && next == state
  }

  lemma AnswersAfter(reply: Reply, next: State, before: State, frame: Frame)
    requires Answers(reply, next, before, frame)
    ensures next == After(before, frame)
  {
    hide Process;
  }
}
