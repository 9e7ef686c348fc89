/**
 What reaches the client is what the provider sent: text, reasoning and call arguments
 arrive completely, once and in order, however the provider cuts them up.
 */
module AguiContent {
  import opened AguiBalance
  import opened AguiLoss
  import opened AguiRuns
  import opened AguiStream
  import opened AguiTypes
  import opened Options

  datatype Channel = TextChannel | ReasoningChannel | ArgsChannel

  function Delta(e: Event, ch: Channel, id: ScopedId): string {
    match e
    case TextContent(i, delta) => if ch == TextChannel && i == id then delta else ""
    case ReasoningContent(i, delta) => if ch == ReasoningChannel && i == id then delta else ""
    case ToolArgs(i, delta) => if ch == ArgsChannel && i == id then delta else ""
    case _ => ""
  }

  /** What a client assembles for one ID from one kind of content event. */
  function Heard(events: seq<Event>, ch: Channel, id: ScopedId): string
    decreases |events|
  {
    if events == [] then "" else Delta(events[0], ch, id) + Heard(events[1..], ch, id)
  }

  lemma {:induction false} HeardConcat(a: seq<Event>, b: seq<Event>, ch: Channel, id: ScopedId)
    ensures Heard(a + b, ch, id) == Heard(a, ch, id) + Heard(b, ch, id)
    decreases |a|
  {
    if a == [] {
      assert a + b == b;
    } else {
      assert (a + b)[1..] == a[1..] + b;
      HeardConcat(a[1..], b, ch, id);
    }
  }

  lemma HeardOne(e: Event, ch: Channel, id: ScopedId)
    ensures Heard([e], ch, id) == Delta(e, ch, id)
  {
    assert [e][1..] == [];
    assert Delta(e, ch, id) + "" == Delta(e, ch, id);
  }

  predicate IsContent(e: Event) { e.TextContent? || e.ReasoningContent? || e.ToolArgs? }

  ghost predicate Silent(events: seq<Event>) {
    forall e | e in events :: !IsContent(e)
  }

  lemma {:induction false} SilentHeard(events: seq<Event>, ch: Channel, id: ScopedId)
    requires Silent(events)
    ensures Heard(events, ch, id) == ""
    decreases |events|
  {
    if events != [] {
      assert events[0] in events;
      assert forall e | e in events[1..] :: e in events;
      SilentHeard(events[1..], ch, id);
    }
  }

  // ---- Boundaries carry no content -------------------------------------------

  lemma {:induction false} CloseThoughtKeysSilent(r: Thoughts, ns: Namespace, keys: seq<ScopedId>)
    ensures Silent(CloseThoughtKeys(r, ns, keys).events)
    decreases |keys|
  {
    if keys != [] {
      if keys[0] in r.open && r.open[keys[0]].ns == ns {
        CloseThoughtKeysSilent(CloseThought(r, keys[0]).state, ns, keys[1..]);
      } else {
        CloseThoughtKeysSilent(r, ns, keys[1..]);
      }
    }
  }

  lemma {:induction false} CloseToolIdsSilent(c: Calls, ns: Namespace, ids: seq<ScopedId>)
    ensures Silent(CloseToolIds(c, ns, ids).events)
    decreases |ids|
  {
    if ids != [] {
      if ids[0] in c.active && c.active[ids[0]].ns == ns {
        CloseToolIdsSilent(CloseTool(c, ids[0]).state, ns, ids[1..]);
      } else {
        CloseToolIdsSilent(c, ns, ids[1..]);
      }
    }
  }

  lemma CloseScopeSilent(s: State, ns: Namespace)
    ensures Silent(CloseScope(s, ns).events)
  {
    CloseToolIdsSilent(s.calls, ns, s.calls.order);
    CloseThoughtKeysSilent(s.thoughts, ns, s.thoughts.order);
  }

  lemma {:induction false} CloseThoughtScopesSilent(r: Thoughts, scopes: seq<Namespace>)
    ensures Silent(CloseThoughtScopes(r, scopes).events)
    decreases |scopes|
  {
    if scopes != [] {
      CloseThoughtKeysSilent(r, scopes[0], r.order);
      CloseThoughtScopesSilent(CloseThoughts(r, scopes[0]).state, scopes[1..]);
    }
  }

  lemma {:induction false} CloseTextsSilent(t: Texts, scopes: seq<Namespace>)
    ensures Silent(CloseTexts(t, scopes).events)
    decreases |scopes|
  {
    if scopes != [] { CloseTextsSilent(CloseText(t, scopes[0]).state, scopes[1..]); }
  }

  lemma {:induction false} CloseEachToolSilent(c: Calls, ids: seq<ScopedId>)
    ensures Silent(CloseEachTool(c, ids).events)
    decreases |ids|
  {
    if ids != [] { CloseEachToolSilent(CloseTool(c, ids[0]).state, ids[1..]); }
  }

  lemma CloseAllSilent(s: State)
    ensures Silent(CloseAll(s).events)
  {
    CloseThoughtScopesSilent(s.thoughts, ScopesOf(s.thoughts, s.thoughts.order, []));
    CloseTextsSilent(s.texts, s.texts.order);
    CloseEachToolSilent(s.calls, s.calls.order);
  }

  // ---- Text and reasoning ----------------------------------------------------

  /** The text and reasoning of one fragment, as a client should hear them. */
  function Said(exposeReasoning: bool, ns: Namespace, c: Chunk, ch: Channel, id: ScopedId): string {
    if ch == TextChannel && id == MessageId(ns, c.id) then c.text
    else if ch == ReasoningChannel && exposeReasoning && id == ScopedId(ReasoningMessageKind, ns, c.id) then c.reasoning
    else ""
  }

  lemma CloseThoughtsSilent(r: Thoughts, ns: Namespace)
    ensures Silent(CloseThoughts(r, ns).events)
  {
    CloseThoughtKeysSilent(r, ns, r.order);
  }

  lemma ThinkEvents(r: Thoughts, key: ScopedId, delta: string) returns (before: seq<Event>)
    requires ThoughtsOk(r) && key.kind == MessageKind
    ensures Silent(before) && Think(r, key, delta).events == before + [ReasoningContent(ReasoningFor(key).message, delta)]
  {
    if key in r.open {
      before := [];
    } else {
      var active := ReasoningFor(key);
      CloseThoughtsSilent(r, key.ns);
      hide CloseThoughts, ThoughtsOk;
      before := CloseThoughts(r, key.ns).events + [ReasoningStart(active.reasoning), ReasoningMessageStart(active.message)];
    }
  }

  lemma ThinkHeard(r: Thoughts, key: ScopedId, delta: string, ch: Channel, id: ScopedId)
    requires ThoughtsOk(r) && key.kind == MessageKind
    ensures Heard(Think(r, key, delta).events, ch, id) ==
            if ch == ReasoningChannel && id == ReasoningFor(key).message then delta else ""
  {
    hide Think, ThoughtsOk, Heard, Silent;
    var before := ThinkEvents(r, key, delta);
    var content := ReasoningContent(ReasoningFor(key).message, delta);
    HeardConcat(before, [content], ch, id);
    SilentHeard(before, ch, id);
    HeardOne(content, ch, id);
  }

  lemma ReasoningPartHeard(s: State, ns: Namespace, c: Chunk, ch: Channel, id: ScopedId)
    requires Consistent(s)
    ensures Heard(ReasoningPart(s, ns, c).events, ch, id) == if ch == ReasoningChannel then Said(s.exposeReasoning, ns, c, ch, id) else ""
  {
    hide Think;
    if s.exposeReasoning && c.reasoning != "" {
      var texts, thoughts := CloseText(s.texts, ns), Think(s.thoughts, MessageId(ns, c.id), c.reasoning);
      ThinkHeard(s.thoughts, MessageId(ns, c.id), c.reasoning, ch, id);
      HeardConcat(texts.events, thoughts.events, ch, id);
      SilentHeard(texts.events, ch, id);
    }
  }

  lemma TextPartHeard(s: State, ns: Namespace, c: Chunk, ch: Channel, id: ScopedId)
    ensures Heard(TextPart(s, ns, c).events, ch, id) == if ch == TextChannel then Said(s.exposeReasoning, ns, c, ch, id) else ""
  {
    if c.text != "" {
      var shown := Show(s, ns, MessageId(ns, c.id));
      CloseThoughtsSilent(s.thoughts, ns);
      hide CloseThoughts;
      assert Silent(shown.events);
      SilentHeard(shown.events, ch, id);
      HeardOne(TextContent(MessageId(ns, c.id), c.text), ch, id);
      HeardConcat(shown.events, [TextContent(MessageId(ns, c.id), c.text)], ch, id);
    }
  }

  lemma AttachmentPartSilent(s: State, ns: Namespace, c: Chunk)
    ensures Silent(AttachmentPart(s, ns, c).events)
  {
    CloseThoughtsSilent(s.thoughts, ns);
    hide CloseThoughts;
  }

  lemma BeforeToolsHeard(s: State, ns: Namespace, c: Chunk, ch: Channel, id: ScopedId)
    requires Consistent(s)
    ensures Heard(BeforeTools(s, ns, c).events, ch, id) == Said(s.exposeReasoning, ns, c, ch, id)
  {
    hide ReasoningPart, TextPart, AttachmentPart, Consistent;
    var reasoning := ReasoningPart(s, ns, c);
    ReasoningPartHeard(s, ns, c, ch, id);
    ExposureStays(s, ns, c);
    var stale := StalePart(reasoning.state, ns, c);
    assert Silent(stale.events);
    SilentHeard(stale.events, ch, id);
    var text := TextPart(stale.state, ns, c);
    TextPartHeard(stale.state, ns, c, ch, id);
    var attached := AttachmentPart(text.state, ns, c);
    AttachmentPartSilent(text.state, ns, c);
    SilentHeard(attached.events, ch, id);
    HeardConcat(stale.events, reasoning.events, ch, id);
    HeardConcat(stale.events + reasoning.events, text.events, ch, id);
    HeardConcat(stale.events + reasoning.events + text.events, attached.events, ch, id);
    JoinParts(Heard(reasoning.events, ch, id), Heard(text.events, ch, id));
  }

  lemma JoinParts(a: string, b: string)
    ensures "" + a + b + "" == a + b && (a == "" ==> a + b == b) && (b == "" ==> a + b == a)
  {
  }

  lemma ExposureStays(s: State, ns: Namespace, c: Chunk)
    ensures ReasoningPart(s, ns, c).state.exposeReasoning == s.exposeReasoning
  {
  }

  // ---- Call arguments --------------------------------------------------------

  /** The call a fragment is meant for, read off the slots that calls have had so far. */
  function Meant(history: map<SlotKey, ScopedId>, ns: Namespace, parent: ScopedId, t: ToolChunk): Option<ScopedId> {
    if Given(t.id) then Some(ToolId(ns, t.id.value))
    else if KeyOf(ns, parent, t) in history then Some(history[KeyOf(ns, parent, t)])
    else None
  }

  function Noted(history: map<SlotKey, ScopedId>, over: set<ScopedId>, ns: Namespace, parent: ScopedId, t: ToolChunk)
    : map<SlotKey, ScopedId>
  {
    if Given(t.id) && ToolId(ns, t.id.value) !in over then history[KeyOf(ns, parent, t) := ToolId(ns, t.id.value)]
    else history
  }

  /** The arguments that a list of fragments brings for one call, unless it is already over. */
  function Routed(history: map<SlotKey, ScopedId>, over: set<ScopedId>, ns: Namespace, parent: ScopedId,
                  tools: seq<ToolChunk>, id: ScopedId): string
    decreases |tools|
  {
    if tools == [] then ""
    else
      (if Meant(history, ns, parent, tools[0]) == Some(id) && id !in over then tools[0].args.GetOr("") else "") +
      Routed(Noted(history, over, ns, parent, tools[0]), over, ns, parent, tools[1..], id)
  }

  function SlotsAfter(history: map<SlotKey, ScopedId>, over: set<ScopedId>, ns: Namespace, parent: ScopedId,
                      tools: seq<ToolChunk>): map<SlotKey, ScopedId>
    decreases |tools|
  {
    if tools == [] then history
    else SlotsAfter(Noted(history, over, ns, parent, tools[0]), over, ns, parent, tools[1..])
  }

  lemma AppendArgsHeard(c: Calls, id: ScopedId, args: Option<string>, ch: Channel, x: ScopedId)
    ensures Heard(AppendArgs(c, id, args).events, ch, x) ==
            if ch == ArgsChannel && x == id && id in c.active then args.GetOr("") else ""
  {
    if Given(args) { HeardOne(ToolArgs(id, args.value), ch, x); }
  }

  lemma NamedFragmentHeard(c: Calls, ns: Namespace, parent: ScopedId, t: ToolChunk, id: ScopedId, ch: Channel, x: ScopedId)
    requires CallsOk(c) && Fits(c, KeyOf(ns, parent, t), id)
    requires Given(t.id) && Given(t.name) && id == ToolId(ns, t.id.value)
    ensures Heard(ToolFragment(c, ns, parent, t, id).events, ch, x) ==
            if ch == ArgsChannel && x == id && id !in c.ended then t.args.GetOr("") else ""
  {
    assert LivesOk(c);
    FittingSlot(c, KeyOf(ns, parent, t), id);
    var begun := BeginTool(c, ns, parent, t, id);
    assert Silent(begun.events) && (id in begun.state.active <==> id !in c.ended);
    SilentHeard(begun.events, ch, x);
    AppendArgsHeard(begun.state, id, t.args, ch, x);
    hide BeginTool, AppendArgs, FreeSlot, CallsOk, Fits, Heard;
    HeardConcat(begun.events, AppendArgs(begun.state, id, t.args).events, ch, x);
    assert [] + begun.events == begun.events;
  }

  lemma UnnamedFragmentHeard(c: Calls, ns: Namespace, parent: ScopedId, t: ToolChunk, ch: Channel, x: ScopedId)
    requires CallsOk(c) && !Given(t.id) && KeyOf(ns, parent, t) in c.slots
    ensures var id := c.slots[KeyOf(ns, parent, t)];
            && id !in c.ended && Meant(c.history, ns, parent, t) == Some(id)
            && Heard(ToolFragment(c, ns, parent, t, id).events, ch, x) ==
               if ch == ArgsChannel && x == id then t.args.GetOr("") else ""
  {
    assert SlotsInvert(c.active, c.slots) && HistoryOk(c) && LivesOk(c);
    var id := c.slots[KeyOf(ns, parent, t)];
    AppendArgsHeard(c, id, t.args, ch, x);
    hide AppendArgs, CallsOk, SlotsInvert, HistoryOk, LivesOk, Heard;
    var none: seq<Event> := [];
    assert none + none + AppendArgs(c, id, t.args).events == AppendArgs(c, id, t.args).events;
  }

  lemma {:induction false} ToolFragmentsHeard(c: Calls, ns: Namespace, parent: ScopedId, tools: seq<ToolChunk>,
                                              names: map<ScopedId, string>, ch: Channel, x: ScopedId)
    requires CallsOk(c) && FragmentsAccepted(c, ns, parent, tools, c.history, names) && !HasLate(c, ns, parent, tools)
    ensures Heard(ToolFragments(c, ns, parent, tools).events, ch, x) ==
            if ch == ArgsChannel then Routed(c.history, c.ended, ns, parent, tools, x) else ""
    ensures ToolFragments(c, ns, parent, tools).state.ended == c.ended
    ensures ToolFragments(c, ns, parent, tools).state.history == SlotsAfter(c.history, c.ended, ns, parent, tools)
    decreases |tools|
  {
    if tools != [] {
      var t, key := tools[0], KeyOf(ns, parent, tools[0]);
      assert t in tools;
      if Given(t.id) {
        var id := ToolId(ns, t.id.value);
        NamedFragment(c, ns, parent, t, id);
        NamedFragmentHeard(c, ns, parent, t, id, ch, x);
        HeardStep(c, ns, parent, tools, id, names[id := t.name.value], ch, x);
      } else {
        assert key in c.slots;
        UnnamedFragment(c, ns, parent, t);
        UnnamedFragmentHeard(c, ns, parent, t, ch, x);
        HeardStep(c, ns, parent, tools, c.slots[key], names, ch, x);
      }
    }
  }

  lemma {:induction false} HeardStep(c: Calls, ns: Namespace, parent: ScopedId, tools: seq<ToolChunk>, id: ScopedId,
                                     names: map<ScopedId, string>, ch: Channel, x: ScopedId)
    requires CallsOk(c) && tools != [] && TargetOf(c, ns, parent, tools[0]) == Some(id)
    requires Meant(c.history, ns, parent, tools[0]) == Some(id)
    requires !HasLate(c, ns, parent, tools)
    requires var one := ToolFragment(c, ns, parent, tools[0], id);
             && SamePast(c, one.state) && one.state.history == Noted(c.history, c.ended, ns, parent, tools[0])
             && FragmentsAccepted(c, ns, parent, tools[1..], one.state.history, names)
             && Heard(one.events, ch, x) == if ch == ArgsChannel && x == id && id !in c.ended then tools[0].args.GetOr("") else ""
    ensures Heard(ToolFragments(c, ns, parent, tools).events, ch, x) ==
            if ch == ArgsChannel then Routed(c.history, c.ended, ns, parent, tools, x) else ""
    ensures ToolFragments(c, ns, parent, tools).state.ended == c.ended
    ensures ToolFragments(c, ns, parent, tools).state.history == SlotsAfter(c.history, c.ended, ns, parent, tools)
    decreases |tools|, 0
  {
    var one := ToolFragment(c, ns, parent, tools[0], id);
    ToolFragmentOk(c, ns, parent, tools[0], id);
    AcceptedIgnoresProgress(c, one.state, ns, parent, tools[1..], one.state.history, names);
    assert !HasLate(one.state, ns, parent, tools[1..]) by {
      LateIsPast(c, one.state, ns, parent);
      assert forall t | t in tools[1..] :: t in tools;
    }
    hide CallsOk, ToolFragment, TargetOf, Meant, Noted, FragmentsAccepted, HasLate;
    ToolFragmentsHeard(one.state, ns, parent, tools[1..], names, ch, x);
    HeardConcat(one.events, ToolFragments(one.state, ns, parent, tools[1..]).events, ch, x);
  }

  // ---- Frames and runs -------------------------------------------------------

  /** What an assistant fragment brings for one ID. */
  function Brought(s: State, ns: Namespace, c: Chunk, ch: Channel, id: ScopedId): string {
    if ch == ArgsChannel then Routed(s.calls.history, s.calls.ended, ns, MessageId(ns, c.id), c.tools, id)
    else Said(s.exposeReasoning, ns, c, ch, id)
  }

  lemma ToolsPartHeard(s: State, ns: Namespace, c: Chunk, ch: Channel, id: ScopedId)
    requires Consistent(s) && FragmentsAccepted(s.calls, ns, MessageId(ns, c.id), c.tools, s.calls.history, s.calls.names)
    requires !HasLate(s.calls, ns, MessageId(ns, c.id), c.tools)
    ensures Heard(ToolsPart(s, ns, c).events, ch, id) == if ch == ArgsChannel then Brought(s, ns, c, ch, id) else ""
  {
    assert CallsOk(s.calls);
    hide Consistent, CallsOk;
    ToolFragmentsHeard(s.calls, ns, MessageId(ns, c.id), c.tools, s.calls.names, ch, id);
    CloseThoughtsSilent(s.thoughts, ns);
    hide CloseThoughts, ToolFragments, Silent;
    var thoughts := CloseThoughts(s.thoughts, ns);
    SilentHeard(thoughts.events, ch, id);
    HeardConcat(thoughts.events, ToolFragments(s.calls, ns, MessageId(ns, c.id), c.tools).events, ch, id);
  }

  lemma LastPartSilent(s: State, ns: Namespace, c: Chunk)
    ensures Silent(LastPart(s, ns, c).events)
  {
    CloseScopeSilent(s, ns);
    hide CloseScope;
  }

  lemma FullHeard(s: State, ns: Namespace, c: Chunk, ch: Channel, id: ScopedId)
    requires Consistent(s) && FragmentsAccepted(s.calls, ns, MessageId(ns, c.id), c.tools, s.calls.history, s.calls.names)
    requires !HasLate(s.calls, ns, MessageId(ns, c.id), c.tools)
    requires ToolsPart(BeforeTools(s, ns, c).state, ns, c).ok
    ensures var before := BeforeTools(s, ns, c);
            var tools := ToolsPart(before.state, ns, c);
            Heard(before.events + tools.events + LastPart(tools.state, ns, c).events, ch, id) == Brought(s, ns, c, ch, id)
  {
    BeforeToolsKeepsCalls(s, ns, c);
    BeforeToolsKeeps(s, ns, c);
    hide *;
    var before := BeforeTools(s, ns, c);
    BeforeToolsHeard(s, ns, c, ch, id);
    assert Consistent(before.state) by { KeepsConsistent(s, before); }
    ToolsPartHeard(before.state, ns, c, ch, id);
    var tools := ToolsPart(before.state, ns, c);
    var last := LastPart(tools.state, ns, c);
    LastPartSilent(tools.state, ns, c);
    SilentHeard(last.events, ch, id);
    HeardConcat(before.events, tools.events, ch, id);
    HeardConcat(before.events + tools.events, last.events, ch, id);
    BroughtParts(s, before.state, ns, c, ch, id);
    JoinParts(Heard(before.events, ch, id), Heard(tools.events, ch, id));
  }

  lemma KeepsConsistent(s: State, out: Out<State>)
    requires Keeps(s, out)
    ensures Consistent(out.state)
  {
  }

  lemma EmptyHeard(s: State, ns: Namespace, c: Chunk, ch: Channel, id: ScopedId)
    requires IsEmpty(s, c)
    ensures Heard(LastPart(s, ns, c).events, ch, id) == Brought(s, ns, c, ch, id)
  {
    LastPartSilent(s, ns, c);
    hide LastPart, Silent;
    SilentHeard(LastPart(s, ns, c).events, ch, id);
    assert Routed(s.calls.history, s.calls.ended, ns, MessageId(ns, c.id), [], id) == "";
  }

  lemma ProcessAiHeard(s: State, ns: Namespace, c: Chunk, ch: Channel, id: ScopedId)
    requires Consistent(s) && Accepted(s, ns, c) && !HasLate(s.calls, ns, MessageId(ns, c.id), c.tools)
    ensures ProcessAi(s, ns, c).ok
    ensures Heard(ProcessAi(s, ns, c).events, ch, id) == Brought(s, ns, c, ch, id)
  {
    FragmentsFailIffLate(s.calls, ns, MessageId(ns, c.id), c.tools, s.calls.names);
    BeforeToolsKeepsCalls(s, ns, c);
    hide Consistent, BeforeTools, LastPart, CallsOk, HasLate, FragmentsAccepted, Heard, Brought;
    if IsEmpty(s, c) {
      EmptyHeard(s, ns, c, ch, id);
    } else {
      assert ToolsPart(BeforeTools(s, ns, c).state, ns, c).ok;
      hide ToolsPart;
      FullHeard(s, ns, c, ch, id);
    }
  }

  lemma BroughtParts(s: State, before: State, ns: Namespace, c: Chunk, ch: Channel, id: ScopedId)
    requires before.calls == s.calls
    ensures Brought(s, ns, c, ch, id) == if ch == ArgsChannel then Brought(before, ns, c, ch, id) else Said(s.exposeReasoning, ns, c, ch, id)
    ensures ch == ArgsChannel ==> Said(s.exposeReasoning, ns, c, ch, id) == ""
  {
  }

  /** What the provider sent with a frame that is neither refused, repeated nor lost. */
  function Sent(s: State, frame: Frame, ch: Channel, id: ScopedId): string {
    if !Process(s, frame).Done? then ""
    else match frame
      case AiChunk(ns, c) => Brought(s, ns, c, ch, id)
      case AiMessage(ns, m) =>
        if IsBaseline(s.baselines, ns, m.id, PriorAi(m)) then "" else Brought(s, ns, ToChunk(m), ch, id)
      case _ => ""
  }

  lemma AiFrameHeard(s: State, ns: Namespace, c: Chunk, ch: Channel, id: ScopedId)
    requires Consistent(s) && Accepted(s, ns, c) && ProcessAi(s, ns, c).ok
    ensures Heard(ProcessAi(s, ns, c).events, ch, id) == Brought(s, ns, c, ch, id)
  {
    assert Process(s, AiChunk(ns, c)).Done?;
    ChunkLostIffLate(s, ns, c);
    hide Consistent, Accepted, ProcessAi, Process, HasLate, Brought;
    ProcessAiHeard(s, ns, c, ch, id);
  }

  lemma SettleCallSilent(c: Calls, ns: Namespace, r: ToolResult)
    ensures Silent(SettleCall(c, ns, r).events)
  {
  }

  lemma FrameHeard(s: State, frame: Frame, ch: Channel, id: ScopedId)
    requires Consistent(s)
    ensures Heard(Delivered(s, frame), ch, id) == Sent(s, frame, ch, id)
  {
    hide Consistent, Accepted, ProcessAi, Brought, RememberBaseline, CloseAll, ToChunk, PublishResult, IsBaseline;
    match frame
    case Values(ns, messages) =>
      CloseAllSilent(RememberBaseline(s, ns, messages));
      SilentHeard(CloseAll(RememberBaseline(s, ns, messages)).events, ch, id);
    case AiChunk(ns, c) =>
      if Process(s, frame).Done? { AiFrameHeard(s, ns, c, ch, id); }
    case AiMessage(ns, m) =>
      if Process(s, frame).Done? && !IsBaseline(s.baselines, ns, m.id, PriorAi(m)) { AiFrameHeard(s, ns, ToChunk(m), ch, id); }
    case ToolMessage(ns, r) =>
      PublishResultSilent(s, ns, r);
      SilentHeard(PublishResult(s, ns, r).events, ch, id);
    case Finish =>
      CloseAllSilent(s);
      SilentHeard(CloseAll(s).events, ch, id);
  }

  lemma PublishResultSilent(s: State, ns: Namespace, r: ToolResult)
    ensures Silent(PublishResult(s, ns, r).events)
  {
    CloseThoughtsSilent(s.thoughts, ns);
    SettleCallSilent(s.calls, ns, r);
    hide CloseThoughts, SettleCall;
  }

  /** Everything sent during a run, frame by frame. */
  function SentInAll(s: State, frames: seq<Frame>, ch: Channel, id: ScopedId): string
    decreases |frames|
  {
    if frames == [] then "" else Sent(s, frames[0], ch, id) + SentInAll(After(s, frames[0]), frames[1..], ch, id)
  }

  /** Over every run the client assembles exactly what was sent: nothing twice, nothing out of order. */
  lemma {:induction false} EveryRunIsHeard(s: State, frames: seq<Frame>, ch: Channel, id: ScopedId)
    requires Consistent(s)
    ensures Heard(Trace(s, frames), ch, id) == SentInAll(s, frames, ch, id)
    decreases |frames|
  {
    hide Consistent, After, Delivered, Sent;
    if frames != [] {
      FrameHeard(s, frames[0], ch, id);
      ProcessKeepsConsistent(s, frames[0]);
      EveryRunIsHeard(After(s, frames[0]), frames[1..], ch, id);
      HeardConcat(Delivered(s, frames[0]), Trace(After(s, frames[0]), frames[1..]), ch, id);
    }
  }
}
