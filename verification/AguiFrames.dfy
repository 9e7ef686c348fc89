/**
 What one frame shows and what it leaves open: its reasoning, its text and its attachments
 in this order and under its own IDs, then its calls, each started once under its name and
 with its message; nothing ends before its boundary, and a boundary ends everything.
 */
module AguiFrames {
  import opened AguiBalance
  import AguiContent
  import opened AguiLoss
  import opened AguiRuns
  import opened AguiStream
  import opened AguiTypes
  import opened Options

  // ---- What a client gets to see ---------------------------------------------

  /** Everything but the brackets around reasoning and text and the ends of calls. */
  predicate IsShown(e: Event) {
    e.ReasoningContent? || e.TextContent? || e.Attachments? || e.ToolStart? || e.ToolArgs? || e.ToolOutcome?
  }

  function Shown(events: seq<Event>): seq<Event> {
    if events == [] then []
    else (if IsShown(events[0]) then [events[0]] else []) + Shown(events[1..])
  }

  ghost predicate Hidden(events: seq<Event>) {
    forall e | e in events :: !IsShown(e)
  }

  lemma {:induction false} ShownConcat(a: seq<Event>, b: seq<Event>)
    ensures Shown(a + b) == Shown(a) + Shown(b)
    decreases |a|
  {
    if a == [] {
      assert a + b == b;
    } else {
      assert (a + b)[0] == a[0] && (a + b)[1..] == a[1..] + b;
      ShownConcat(a[1..], b);
    }
  }

  lemma {:induction false} HiddenShows(events: seq<Event>)
    requires Hidden(events)
    ensures Shown(events) == []
    decreases |events|
  {
    if events != [] { HiddenShows(events[1..]); }
  }

  lemma ShowsOne(e: Event)
    requires IsShown(e)
    ensures Shown([e]) == [e]
  {
    assert [e][1..] == [];
    assert Shown([e][1..]) == [];
  }

  lemma {:induction false} ClosingThoughtsHidden(r: Thoughts, ns: Namespace, keys: seq<ScopedId>)
    ensures Hidden(CloseThoughtKeys(r, ns, keys).events)
    ensures forall e | e in CloseThoughtKeys(r, ns, keys).events :: e.ReasoningMessageEnd? || e.ReasoningEnd?
    decreases |keys|
  {
    if keys != [] {
      if keys[0] in r.open && r.open[keys[0]].ns == ns {
        ClosingThoughtsHidden(CloseThought(r, keys[0]).state, ns, keys[1..]);
      } else {
        ClosingThoughtsHidden(r, ns, keys[1..]);
      }
    }
  }

  /** Events that end in one shown event, behind hidden ones. */
  lemma ShowsLast(hidden: seq<Event>, e: Event)
    requires Hidden(hidden) && IsShown(e)
    ensures Shown(hidden + [e]) == [e]
  {
    HiddenShows(hidden);
    ShownConcat(hidden, [e]);
    ShowsOne(e);
  }

  // ---- Reasoning, text, attachments ------------------------------------------

  lemma ThinkShows(r: Thoughts, key: ScopedId, delta: string)
    requires ThoughtsOk(r) && key.kind == MessageKind
    ensures Shown(Think(r, key, delta).events) == [ReasoningContent(ScopedId(ReasoningMessageKind, key.ns, key.raw), delta)]
  {
    var active := ReasoningFor(key);
    var content := ReasoningContent(active.message, delta);
    if key in r.open {
      assert Think(r, key, delta).events == [] + [content];
      ShowsLast([], content);
    } else {
      ClosingThoughtsHidden(r, key.ns, r.order);
      var before := CloseThoughts(r, key.ns).events + [ReasoningStart(active.reasoning), ReasoningMessageStart(active.message)];
      assert Think(r, key, delta).events == before + [content];
      hide CloseThoughtKeys, ThoughtsOk;
      ShowsLast(before, content);
    }
  }

  lemma ReasoningShows(s: State, ns: Namespace, c: Chunk)
    requires Consistent(s)
    ensures Shown(ReasoningPart(s, ns, c).events) ==
            if s.exposeReasoning && c.reasoning != "" then [ReasoningContent(ScopedId(ReasoningMessageKind, ns, c.id), c.reasoning)] else []
  {
    if s.exposeReasoning && c.reasoning != "" {
      ThinkShows(s.thoughts, MessageId(ns, c.id), c.reasoning);
      var texts := CloseText(s.texts, ns).events;
      HiddenShows(texts);
      hide Think, Consistent;
      ShownConcat(texts, Think(s.thoughts, MessageId(ns, c.id), c.reasoning).events);
    }
  }

  lemma TextShows(s: State, ns: Namespace, c: Chunk)
    ensures Shown(TextPart(s, ns, c).events) == if c.text != "" then [TextContent(MessageId(ns, c.id), c.text)] else []
  {
    if c.text != "" {
      ClosingThoughtsHidden(s.thoughts, ns, s.thoughts.order);
      hide CloseThoughtKeys;
      ShowsLast(Show(s, ns, MessageId(ns, c.id)).events, TextContent(MessageId(ns, c.id), c.text));
    }
  }

  lemma AttachmentsShow(s: State, ns: Namespace, c: Chunk)
    ensures Shown(AttachmentPart(s, ns, c).events) == if c.attachments != [] then [Attachments(MessageId(ns, c.id), c.attachments)] else []
  {
    if c.attachments != [] {
      var id := MessageId(ns, c.id);
      var thoughts := CloseThoughts(s.thoughts, ns).events;
      ClosingThoughtsHidden(s.thoughts, ns, s.thoughts.order);
      assert Hidden(thoughts);
      hide CloseThoughts;
      if Showing(s.texts, ns, id) {
        ShowsLast(thoughts, Attachments(id, c.attachments));
      } else {
        ShowsLast(thoughts + CloseText(s.texts, ns).events + [TextStart(id)], Attachments(id, c.attachments));
      }
    }
  }

  /** What a fragment says before its calls: reasoning, text, attachments, each at most once, under its own IDs. */
  function Says(s: State, ns: Namespace, c: Chunk): seq<Event> {
    (if s.exposeReasoning && c.reasoning != "" then [ReasoningContent(ScopedId(ReasoningMessageKind, ns, c.id), c.reasoning)] else []) +
    (if c.text != "" then [TextContent(MessageId(ns, c.id), c.text)] else []) +
    (if c.attachments != [] then [Attachments(MessageId(ns, c.id), c.attachments)] else [])
  }

  lemma StaleShows(s: State, ns: Namespace, c: Chunk)
    ensures Shown(StalePart(s, ns, c).events) == []
  {
    HiddenShows(StalePart(s, ns, c).events);
  }

  lemma ShownFour(a: seq<Event>, b: seq<Event>, c: seq<Event>, d: seq<Event>)
    ensures Shown(a + b + c + d) == Shown(a) + Shown(b) + Shown(c) + Shown(d)
  {
    hide Shown;
    ShownConcat(a, b);
    ShownConcat(a + b, c);
    ShownConcat(a + b + c, d);
  }

  lemma BeforeToolsShows(s: State, ns: Namespace, c: Chunk)
    requires Consistent(s)
    ensures Shown(BeforeTools(s, ns, c).events) == Says(s, ns, c)
  {
    hide ReasoningPart, StalePart, TextPart, AttachmentPart, Consistent, Shown;
    var reasoning := ReasoningPart(s, ns, c);
    var stale := StalePart(reasoning.state, ns, c);
    var text := TextPart(stale.state, ns, c);
    var attached := AttachmentPart(text.state, ns, c);
    ReasoningShows(s, ns, c);
    StaleShows(reasoning.state, ns, c);
    TextShows(stale.state, ns, c);
    AttachmentsShow(text.state, ns, c);
    ShownFour(stale.events, reasoning.events, text.events, attached.events);
  }

  lemma {:induction false} ClosingToolsHidden(c: Calls, ns: Namespace, ids: seq<ScopedId>)
    ensures Hidden(CloseToolIds(c, ns, ids).events) && forall e | e in CloseToolIds(c, ns, ids).events :: e.ToolEnd?
    decreases |ids|
  {
    if ids != [] {
      if ids[0] in c.active && c.active[ids[0]].ns == ns {
        assert forall e | e in CloseTool(c, ids[0]).events :: e.ToolEnd?;
        hide CloseTool;
        ClosingToolsHidden(CloseTool(c, ids[0]).state, ns, ids[1..]);
      } else {
        ClosingToolsHidden(c, ns, ids[1..]);
      }
    }
  }

  lemma ClosingScopeHidden(s: State, ns: Namespace)
    ensures Hidden(CloseScope(s, ns).events)
  {
    ClosingToolsHidden(s.calls, ns, s.calls.order);
    ClosingThoughtsHidden(s.thoughts, ns, s.thoughts.order);
    hide CloseToolIds, CloseThoughtKeys;
  }

  /** The events of the calls of a fragment. */
  function CallEvents(s: State, ns: Namespace, c: Chunk): seq<Event> {
    ToolFragments(s.calls, ns, MessageId(ns, c.id), c.tools).events
  }

  lemma ToolsPartShows(s: State, ns: Namespace, c: Chunk)
    ensures Shown(ToolsPart(s, ns, c).events) == Shown(CallEvents(s, ns, c))
  {
    if c.tools != [] {
      ClosingThoughtsHidden(s.thoughts, ns, s.thoughts.order);
      var thoughts := CloseThoughts(s.thoughts, ns).events;
      HiddenShows(thoughts);
      hide CloseThoughts, ToolFragments;
      ShownConcat(thoughts, CallEvents(s, ns, c));
    }
  }

  lemma LastShows(s: State, ns: Namespace, c: Chunk, events: seq<Event>)
    ensures Shown(events + LastPart(s, ns, c).events) == Shown(events)
  {
    ClosingScopeHidden(s, ns);
    var last := LastPart(s, ns, c).events;
    assert Hidden(last) by { hide CloseScope; }
    hide LastPart;
    HiddenShows(last);
    ShownConcat(events, last);
  }

  /** A fragment shows its reasoning, then its text, then its attachments, and then its calls. */
  lemma FragmentShows(s: State, ns: Namespace, c: Chunk)
    requires Consistent(s)
    ensures Shown(ProcessAi(s, ns, c).events) == Says(s, ns, c) + Shown(CallEvents(s, ns, c))
  {
    if IsEmpty(s, c) {
      LastShows(s, ns, c, []);
      assert [] + LastPart(s, ns, c).events == LastPart(s, ns, c).events;
      assert CallEvents(s, ns, c) == [];
      hide LastPart;
    } else {
      var before := BeforeTools(s, ns, c);
      var tools := ToolsPart(before.state, ns, c);
      BeforeToolsShows(s, ns, c);
      BeforeToolsKeepsCalls(s, ns, c);
      assert CallEvents(before.state, ns, c) == CallEvents(s, ns, c);
      ToolsPartShows(before.state, ns, c);
      LastShows(tools.state, ns, c, before.events + tools.events);
      hide Consistent, BeforeTools, ToolsPart, LastPart, CallEvents, Shown, Says;
      ShownConcat(before.events, tools.events);
    }
  }

  // ---- Starts of calls -------------------------------------------------------

  ghost predicate NamesCall(t: ToolChunk, ns: Namespace, x: ScopedId) { Given(t.id) && ToolId(ns, t.id.value) == x }

  /** The only events of fragments are starts, arguments and ends of calls, and a start names a call new to the stream. */
  ghost predicate StartsNew(c: Calls, ns: Namespace, parent: ScopedId, tools: seq<ToolChunk>, e: Event) {
    (e.ToolStart? || e.ToolArgs? || e.ToolEnd?)
    && (e.ToolStart? ==> e.parent == Some(parent) && e.id !in c.started
                         && exists t :: t in tools && NamesCall(t, ns, e.id) && t.name == Some(e.name))
  }

  lemma CloseToolKeepsStarted(c: Calls, id: ScopedId)
    ensures CloseTool(c, id).state.started == c.started && forall e | e in CloseTool(c, id).events :: e.ToolEnd?
  {
    hide Drop, SlotOf;
  }

  lemma FreeingStartsNothing(c: Calls, key: SlotKey, id: ScopedId)
    requires CallsOk(c)
    ensures var freed := FreeSlot(c, key, id);
            CallsOk(freed.state) && freed.state.started == c.started && forall e | e in freed.events :: e.ToolEnd?
  {
    if key in c.slots && c.slots[key] != id {
      CloseToolOk(c, c.slots[key]);
      CloseToolKeepsStarted(c, c.slots[key]);
    }
    hide CloseTool, CallsOk;
  }

  lemma BeginningStarts(c: Calls, ns: Namespace, parent: ScopedId, t: ToolChunk, id: ScopedId)
    requires LivesOk(c) && (id in c.active || NamesCall(t, ns, id))
    ensures var out := BeginTool(c, ns, parent, t, id);
            if id !in c.started && Given(t.name) && NamesCall(t, ns, id)
            then out.events == [ToolStart(id, t.name.value, Some(parent))] && out.state.started == c.started + {id}
            else out.events == [] && out.state.started == c.started
  {
  }

  lemma AppendingStartsNothing(c: Calls, id: ScopedId, args: Option<string>)
    ensures var out := AppendArgs(c, id, args); out.state.started == c.started && forall e | e in out.events :: e.ToolArgs?
  {
  }

  lemma JoinStarts(c: Calls, ns: Namespace, parent: ScopedId, t: ToolChunk, id: ScopedId,
                   ends: seq<Event>, starts: seq<Event>, args: seq<Event>)
    requires forall e | e in ends :: e.ToolEnd?
    requires starts == [] || (Given(t.name) && NamesCall(t, ns, id) && id !in c.started && starts == [ToolStart(id, t.name.value, Some(parent))])
    requires forall e | e in args :: e.ToolArgs?
    ensures forall e | e in ends + starts + args :: StartsNew(c, ns, parent, [t], e)
  {
    hide NamesCall;
    assert t in [t];
    forall e | e in ends + starts + args ensures StartsNew(c, ns, parent, [t], e) {
      if e in ends {} else if e in starts {} else { assert e in args; }
    }
  }

  lemma OneFragmentStarts(c: Calls, ns: Namespace, parent: ScopedId, t: ToolChunk, id: ScopedId)
    requires CallsOk(c) && TargetOf(c, ns, parent, t) == Some(id)
    ensures var out := ToolFragment(c, ns, parent, t, id);
            && (forall e | e in out.events :: StartsNew(c, ns, parent, [t], e))
            && (if id !in c.started && Given(t.name) && NamesCall(t, ns, id)
                then ToolStart(id, t.name.value, Some(parent)) in out.events && out.state.started == c.started + {id}
                else out.state.started == c.started)
  {
    var freed := FreeSlot(c, KeyOf(ns, parent, t), id);
    hide FreeSlot, LivesOk, BeginTool, AppendArgs, NamesCall, TargetOf, StartsNew;
    FreeingStartsNothing(c, KeyOf(ns, parent, t), id);
    FreedKeepsTarget(c, ns, parent, t, id);
    hide CallsOk;
    var begun := BeginTool(freed.state, ns, parent, t, id);
    CallsAreLive(freed.state);
    BeginningStarts(freed.state, ns, parent, t, id);
    AppendingStartsNothing(begun.state, id, t.args);
    JoinStarts(c, ns, parent, t, id, freed.events, begun.events, AppendArgs(begun.state, id, t.args).events);
  }

  lemma CallsAreLive(c: Calls)
    requires CallsOk(c)
    ensures LivesOk(c)
  {
  }

  lemma FreedKeepsTarget(c: Calls, ns: Namespace, parent: ScopedId, t: ToolChunk, id: ScopedId)
    requires CallsOk(c) && TargetOf(c, ns, parent, t) == Some(id)
    ensures id in FreeSlot(c, KeyOf(ns, parent, t), id).state.active || NamesCall(t, ns, id)
  {
    assert SlotsInvert(c.active, c.slots);
    hide CloseTool;
  }

  lemma StartsMore(c: Calls, next: Calls, ns: Namespace, parent: ScopedId, some: seq<ToolChunk>, all: seq<ToolChunk>, e: Event)
    requires StartsNew(next, ns, parent, some, e) && c.started <= next.started
    requires forall t | t in some :: t in all
    ensures StartsNew(c, ns, parent, all, e)
  {
  }

  ghost predicate Named(tools: seq<ToolChunk>, ns: Namespace, x: ScopedId) { exists t :: t in tools && NamesCall(t, ns, x) }

  /** The call `x` is started if a fragment names it and it was not known, and is known afterwards only then or before. */
  ghost predicate StartsCalls(c: Calls, ns: Namespace, parent: ScopedId, tools: seq<ToolChunk>, out: Attempt<Calls>, x: ScopedId) {
    && (forall e | e in out.events :: StartsNew(c, ns, parent, tools, e))
    && (x !in c.started && Named(tools, ns, x) ==> exists name :: ToolStart(x, name, Some(parent)) in out.events)
    && (x in c.started || Named(tools, ns, x) <==> x in out.state.started)
  }

  lemma StartsThen(c: Calls, ns: Namespace, parent: ScopedId, tools: seq<ToolChunk>, one: Out<Calls>, more: Attempt<Calls>,
                   id: ScopedId, x: ScopedId)
    requires tools != [] && StartsCalls(one.state, ns, parent, tools[1..], more, x)
    requires forall e | e in one.events :: StartsNew(c, ns, parent, [tools[0]], e)
    requires if id !in c.started && NamesCall(tools[0], ns, id)
             then ToolStart(id, tools[0].name.GetOr(""), Some(parent)) in one.events && one.state.started == c.started + {id}
             else one.state.started == c.started
    requires NamesCall(tools[0], ns, id) || id in c.started
    requires Given(tools[0].id) ==> NamesCall(tools[0], ns, id)
    ensures StartsCalls(c, ns, parent, tools, Attempt(more.state, one.events + more.events, more.ok), x)
  {
    var t, rest := tools[0], tools[1..];
    forall e | e in one.events + more.events ensures StartsNew(c, ns, parent, tools, e) {
      if e in one.events {
        StartsMore(c, c, ns, parent, [t], tools, e);
      } else {
        StartsMore(c, one.state, ns, parent, rest, tools, e);
      }
    }
    NamedFirstOrLater(tools, ns, x);
    hide StartsNew, Named;
    if x !in c.started && NamesCall(t, ns, x) {
      assert x == id;
      assert ToolStart(x, t.name.GetOr(""), Some(parent)) in one.events + more.events;
    } else if x !in c.started && Named(rest, ns, x) {
      var name :| ToolStart(x, name, Some(parent)) in more.events;
      assert ToolStart(x, name, Some(parent)) in one.events + more.events;
    }
  }

  /**
   Fragments that go through start every call they name and that was not known, with the message as its parent and under
   a name that a fragment gives it; they start no other call.
   */
  lemma {:induction false} CallsAreStarted(c: Calls, ns: Namespace, parent: ScopedId, tools: seq<ToolChunk>, x: ScopedId)
    requires CallsOk(c) && ToolFragments(c, ns, parent, tools).ok
    requires forall t | t in tools && Given(t.id) :: Given(t.name)
    ensures StartsCalls(c, ns, parent, tools, ToolFragments(c, ns, parent, tools), x)
    decreases |tools|
  {
    if tools != [] {
      var t, rest, id := tools[0], tools[1..], TargetOf(c, ns, parent, tools[0]).value;
      var one := ToolFragment(c, ns, parent, t, id);
      OneFragmentStarts(c, ns, parent, t, id);
      ToolFragmentOk(c, ns, parent, t, id);
      TargetIsKnownOrNamed(c, ns, parent, t, id);
      assert Given(t.id) ==> Given(t.name);
      var more := ToolFragments(one.state, ns, parent, rest);
      assert ToolFragments(c, ns, parent, tools) == Attempt(more.state, one.events + more.events, more.ok);
      hide CallsOk, ToolFragment, StartsNew, ToolFragments, TargetOf, StartsCalls;
      CallsAreStarted(one.state, ns, parent, rest, x);
      StartsThen(c, ns, parent, tools, one, more, id, x);
    } else {
      assert !Named(tools, ns, x);
    }
  }

  lemma TargetIsKnownOrNamed(c: Calls, ns: Namespace, parent: ScopedId, t: ToolChunk, id: ScopedId)
    requires CallsOk(c) && TargetOf(c, ns, parent, t) == Some(id)
    ensures id in c.started || NamesCall(t, ns, id)
    ensures Given(t.id) ==> NamesCall(t, ns, id)
    ensures NamesCall(t, ns, id) ==> Given(t.id)
  {
    assert SlotsInvert(c.active, c.slots) && LivesOk(c);
  }

  lemma NamedFirstOrLater(tools: seq<ToolChunk>, ns: Namespace, x: ScopedId)
    requires tools != []
    ensures Named(tools, ns, x) <==> NamesCall(tools[0], ns, x) || Named(tools[1..], ns, x)
  {
    hide NamesCall;
    assert forall t :: t in tools <==> t == tools[0] || t in tools[1..];
  }

  lemma AcceptedAreNamed(s: State, ns: Namespace, c: Chunk)
    requires Accepted(s, ns, c)
    ensures forall t | t in c.tools && Given(t.id) :: Given(t.name)
  {
    NamesWithIds(s.calls, ns, MessageId(ns, c.id), c.tools, s.calls.history, s.calls.names);
  }

  lemma {:induction false} NamesWithIds(c: Calls, ns: Namespace, parent: ScopedId, tools: seq<ToolChunk>,
                                        available: map<SlotKey, ScopedId>, names: map<ScopedId, string>)
    requires FragmentsAccepted(c, ns, parent, tools, available, names)
    ensures forall t | t in tools && Given(t.id) :: Given(t.name)
    decreases |tools|
  {
    if tools != [] {
      var t := tools[0];
      if t.id.Some? || t.name.Some? {
        var id := ToolId(ns, t.id.value);
        NamesWithIds(c, ns, parent, tools[1..], if id in c.ended then available else available[KeyOf(ns, parent, t) := id],
          names[id := t.name.value]);
      } else {
        NamesWithIds(c, ns, parent, tools[1..], available, names);
      }
    }
  }

  lemma {:induction false} ShownContents(events: seq<Event>, e: Event)
    ensures e in Shown(events) <==> e in events && IsShown(e)
    decreases |events|
  {
    if events != [] { ShownContents(events[1..], e); }
  }

  lemma StartsAreOfCalls(s: State, ns: Namespace, c: Chunk, e: Event)
    requires Consistent(s) && e.ToolStart?
    ensures e in ProcessAi(s, ns, c).events <==> e in CallEvents(s, ns, c)
  {
    FragmentShows(s, ns, c);
    hide Consistent, ProcessAi, CallEvents, Shown;
    ShownContents(ProcessAi(s, ns, c).events, e);
    ShownContents(CallEvents(s, ns, c), e);
    assert e !in Says(s, ns, c);
  }

  /**
   A fragment that goes through starts exactly the calls it names that were not known, each with its message as parent and
   under a name that one of its fragments gives the call.
   */
  lemma FrameStartsCalls(s: State, ns: Namespace, c: Chunk, x: ScopedId)
    requires Consistent(s) && Process(s, AiChunk(ns, c)).Done?
    ensures var events := Delivered(s, AiChunk(ns, c));
            && (forall e | e in events && e.ToolStart? :: StartsNew(s.calls, ns, MessageId(ns, c.id), c.tools, e))
            && ((exists name :: ToolStart(x, name, Some(MessageId(ns, c.id))) in events) <==>
                x !in s.calls.started && Named(c.tools, ns, x))
  {
    var parent, events := MessageId(ns, c.id), ProcessAi(s, ns, c).events;
    ChunkDone(s, ns, c);
    AcceptedAreNamed(s, ns, c);
    FragmentsGoThrough(s, ns, c);
    hide *;
    CallsAreStarted(s.calls, ns, parent, c.tools, x);
    forall e: Event | e.ToolStart? ensures e in events <==> e in CallEvents(s, ns, c) { StartsAreOfCalls(s, ns, c, e); }
    CallEventsStart(s, ns, c, x);
    if name :| ToolStart(x, name, Some(parent)) in events {
      NamedByStart(s.calls, ns, parent, c.tools, ToolStart(x, name, Some(parent)));
    }
  }

  lemma CallEventsStart(s: State, ns: Namespace, c: Chunk, x: ScopedId)
    requires var parent := MessageId(ns, c.id);
             StartsCalls(s.calls, ns, parent, c.tools, ToolFragments(s.calls, ns, parent, c.tools), x)
    ensures forall e | e in CallEvents(s, ns, c) :: StartsNew(s.calls, ns, MessageId(ns, c.id), c.tools, e)
    ensures x !in s.calls.started && Named(c.tools, ns, x) ==>
            exists name :: ToolStart(x, name, Some(MessageId(ns, c.id))) in CallEvents(s, ns, c)
  {
    hide ToolFragments, StartsNew, Named;
  }

  lemma ChunkDone(s: State, ns: Namespace, c: Chunk)
    requires Process(s, AiChunk(ns, c)).Done?
    ensures Accepted(s, ns, c) && ProcessAi(s, ns, c).ok
    ensures Delivered(s, AiChunk(ns, c)) == ProcessAi(s, ns, c).events && After(s, AiChunk(ns, c)) == ProcessAi(s, ns, c).state
  {
    hide Accepted, ProcessAi;
  }

  lemma NamedByStart(c: Calls, ns: Namespace, parent: ScopedId, tools: seq<ToolChunk>, e: Event)
    requires StartsNew(c, ns, parent, tools, e) && e.ToolStart?
    ensures Named(tools, ns, e.id) && e.id !in c.started
  {
  }

  lemma FragmentsGoThrough(s: State, ns: Namespace, c: Chunk)
    requires Consistent(s) && Process(s, AiChunk(ns, c)).Done?
    ensures CallsOk(s.calls) && ToolFragments(s.calls, ns, MessageId(ns, c.id), c.tools).ok
  {
    BeforeToolsKeepsCalls(s, ns, c);
    hide BeforeTools, LastPart, ToolFragments, CallsOk, CloseThoughts;
    if c.tools == [] { assert ToolFragments(s.calls, ns, MessageId(ns, c.id), []).ok by { NoFragments(s.calls, ns, MessageId(ns, c.id)); } }
  }

  lemma NoFragments(c: Calls, ns: Namespace, parent: ScopedId)
    ensures ToolFragments(c, ns, parent, []).ok
  {
  }

  // ---- What stays open -------------------------------------------------------

  /** The message is shown after its text or attachments, and stays so unless its reasoning comes. */
  lemma TextsAfterParts(s: State, ns: Namespace, c: Chunk)
    ensures var t := BeforeTools(s, ns, c).state;
            var id := MessageId(ns, c.id);
            && (c.text != "" || c.attachments != [] ==> Showing(t.texts, ns, id))
            && (!(s.exposeReasoning && c.reasoning != "") && Showing(s.texts, ns, id) ==> Showing(t.texts, ns, id))
  {
    hide CloseThoughts, Drop, Think;
  }

  lemma ThoughtsAfterParts(s: State, ns: Namespace, c: Chunk)
    requires s.exposeReasoning && c.reasoning != "" && c.text == "" && c.attachments == []
    ensures MessageId(ns, c.id) in BeforeTools(s, ns, c).state.thoughts.open
  {
    hide CloseThoughts, CloseText;
  }

  lemma OnlyClosedWhenLast(s: State, ns: Namespace, c: Chunk)
    requires ProcessAi(s, ns, c).ok && !c.last
    ensures var t, before := ProcessAi(s, ns, c).state, BeforeTools(s, ns, c).state;
            if IsEmpty(s, c) then t == s && ProcessAi(s, ns, c).events == []
            else t.texts == before.texts && (c.tools == [] ==> t.thoughts == before.thoughts)
                 && t.calls == ToolFragments(before.calls, ns, MessageId(ns, c.id), c.tools).state
  {
    hide BeforeTools, CloseThoughts;
  }

  lemma CallsStayOpen(s: State, ns: Namespace, c: Chunk)
    requires Consistent(s) && Process(s, AiChunk(ns, c)).Done?
    ensures var o := ToolFragments(s.calls, ns, MessageId(ns, c.id), c.tools).state;
            o.ended == s.calls.ended && s.calls.active.Keys <= o.active.Keys
            && forall x | Named(c.tools, ns, x) :: x in o.active || x in s.calls.ended
  {
    var parent := MessageId(ns, c.id);
    var o := ToolFragments(s.calls, ns, parent, c.tools).state;
    FragmentsGoThrough(s, ns, c);
    AcceptedAreNamed(s, ns, c);
    ChunkLostIffLate(s, ns, c);
    AguiContent.ToolFragmentsHeard(s.calls, ns, parent, c.tools, s.calls.names, AguiContent.TextChannel, parent);
    ToolFragmentsKeeps(ViewOf(s), s.calls, ns, parent, c.tools);
    assert CallsOk(o) && LivesOk(o) && LivesOk(s.calls);
    hide CallsOk, Consistent, Process, ToolFragments, HasLate, FragmentsAccepted, Named;
    forall x ensures x in o.started <==> x in s.calls.started || Named(c.tools, ns, x) {
      CallsAreStarted(s.calls, ns, parent, c.tools, x);
    }
  }

  /**
   A fragment that is not the last one ends no call, leaves every open call and the ones it names open, leaves its message
   shown when it has text, and its reasoning open when it has only that; an empty one changes nothing.
   */
  lemma NothingEndsEarly(s: State, ns: Namespace, c: Chunk)
    requires Consistent(s) && Process(s, AiChunk(ns, c)).Done? && !c.last
    ensures var t := After(s, AiChunk(ns, c));
            var id := MessageId(ns, c.id);
            && t.calls.ended == s.calls.ended && s.calls.active.Keys <= t.calls.active.Keys
            && (forall x | Named(c.tools, ns, x) :: x in t.calls.active || x in s.calls.ended)
            && (c.text != "" || c.attachments != [] ==> Showing(t.texts, ns, id))
            && (!(s.exposeReasoning && c.reasoning != "") && Showing(s.texts, ns, id) ==> Showing(t.texts, ns, id))
            && (s.exposeReasoning && c.reasoning != "" && c.text == "" && c.attachments == [] && c.tools == [] ==> id in t.thoughts.open)
            && (IsEmpty(s, c) ==> t == s && Delivered(s, AiChunk(ns, c)) == [])
  {
    OnlyClosedWhenLast(s, ns, c);
    CallsStayOpen(s, ns, c);
    BeforeToolsKeepsCalls(s, ns, c);
    TextsAfterParts(s, ns, c);
    if s.exposeReasoning && c.reasoning != "" && c.text == "" && c.attachments == [] { ThoughtsAfterParts(s, ns, c); }
    if IsEmpty(s, c) { NothingNamed(ns); }
    hide Consistent, ProcessAi, BeforeTools, ToolFragments, Accepted;
  }

  lemma NothingNamed(ns: Namespace)
    ensures forall x :: !Named([], ns, x)
  {
  }

  // ---- Boundaries ------------------------------------------------------------

  /** The last fragment of a message leaves nothing of its namespace open. */
  lemma LastFragmentEndsAll(s: State, ns: Namespace, c: Chunk)
    requires Consistent(s) && Process(s, AiChunk(ns, c)).Done? && c.last
    ensures Idle(After(s, AiChunk(ns, c)), ns)
  {
    ProcessAiKeeps(s, ns, c);
    hide Consistent, ProcessAi, Accepted, Idle;
  }

  /** So does a complete message, unless it repeats a checkpointed one and sends nothing. */
  lemma CompleteMessageEndsAll(s: State, ns: Namespace, m: Complete)
    requires Consistent(s) && Process(s, AiMessage(ns, m)).Done?
    ensures Idle(After(s, AiMessage(ns, m)), ns) || (Delivered(s, AiMessage(ns, m)) == [] && After(s, AiMessage(ns, m)) == s)
  {
    ProcessAiKeeps(s, ns, ToChunk(m));
    hide Consistent, ProcessAi, Accepted, Idle;
  }

  /** A result that is published ends text and reasoning of its namespace. */
  lemma ResultEndsText(s: State, ns: Namespace, r: ToolResult)
    requires Consistent(s) && Delivered(s, ToolMessage(ns, r)) != []
    ensures var t := After(s, ToolMessage(ns, r));
            ns !in t.texts.open && forall key | key in t.thoughts.open :: key.ns != ns
  {
    QuietedKeeps(s, ns);
    ClearedKeeps(s, ns);
    hide Consistent, CloseThoughts, CloseText, SettleCall, FingerprintOf, NameConflicts, IsBaseline;
  }

  ghost predicate Brackets(events: seq<Event>) {
    forall e | e in events :: e.ReasoningMessageEnd? || e.ReasoningEnd? || e.TextEnd? || e.ToolEnd?
  }

  /** The root's values end everything everywhere; those of another namespace send nothing and end nothing. */
  lemma ValuesEndAll(s: State, ns: Namespace, messages: seq<Prior>)
    requires Consistent(s)
    ensures Process(s, Values(ns, messages)).Done?
    ensures var t, events := After(s, Values(ns, messages)), Delivered(s, Values(ns, messages));
            if ns == [] then AllIdle(t) && Brackets(events)
            else events == [] && t.texts == s.texts && t.thoughts == s.thoughts && t.calls.active == s.calls.active
  {
    RememberBaselineLearns(s, ns, messages);
    var remembered := RememberBaseline(s, ns, messages);
    RememberingKeepsOpen(s, ns, messages);
    if ns == [] {
      CloseAllKeeps(remembered);
      ClosingBrackets(remembered);
    }
    hide Consistent, CloseAll, RememberBaseline, AllIdle, Brackets;
  }

  lemma {:induction false} RememberCallsKeepsOpen(s: State, ns: Namespace, message: string, calls: seq<ToolCall>)
    ensures var t := RememberCalls(s, ns, message, calls);
            t.texts == s.texts && t.thoughts == s.thoughts && t.calls.active == s.calls.active
    decreases |calls|
  {
    if calls != [] {
      if !Given(calls[0].id) {
        RememberCallsKeepsOpen(s, ns, message, calls[1..]);
      } else {
        var id := ToolId(ns, calls[0].id.value);
        var parents := if id in s.calls.started || message == "" then s.baselines.parents
                       else s.baselines.parents[id := MessageId(ns, message)];
        RememberCallsKeepsOpen(s.(calls := RememberCall(s.calls, id, calls[0].name), baselines := s.baselines.(parents := parents)),
          ns, message, calls[1..]);
      }
    }
  }

  lemma {:induction false} RememberMessagesKeepsOpen(s: State, ns: Namespace, messages: seq<Prior>)
    ensures var t := RememberMessages(s, ns, messages);
            t.texts == s.texts && t.thoughts == s.thoughts && t.calls.active == s.calls.active
    decreases |messages|
  {
    if messages != [] {
      var one := RememberMessage(s, ns, messages[0]);
      if messages[0].PriorAi? {
        var m := messages[0].message;
        var noted := if m.id == "" then s
                     else s.(baselines := s.baselines.(messages := s.baselines.messages[(ns, m.id) := messages[0]]));
        RememberCallsKeepsOpen(noted, ns, m.id, m.calls);
      }
      hide RememberCalls;
      RememberMessagesKeepsOpen(one, ns, messages[1..]);
    }
  }

  lemma RememberingKeepsOpen(s: State, ns: Namespace, messages: seq<Prior>)
    ensures var t := RememberBaseline(s, ns, messages);
            t.texts == s.texts && t.thoughts == s.thoughts && t.calls.active == s.calls.active
  {
    RememberMessagesKeepsOpen(s.(baselines := s.baselines.(scopes := s.baselines.scopes + {ns})), ns, messages);
    hide RememberMessages;
  }

  lemma {:induction false} ScopesEndReasoning(r: Thoughts, scopes: seq<Namespace>)
    ensures forall e | e in CloseThoughtScopes(r, scopes).events :: e.ReasoningMessageEnd? || e.ReasoningEnd?
    decreases |scopes|
  {
    if scopes != [] {
      ClosingThoughtsHidden(r, scopes[0], r.order);
      ScopesEndReasoning(CloseThoughts(r, scopes[0]).state, scopes[1..]);
      hide CloseThoughtKeys;
    }
  }

  lemma {:induction false} TextsEnd(t: Texts, scopes: seq<Namespace>)
    ensures forall e | e in CloseTexts(t, scopes).events :: e.TextEnd?
    decreases |scopes|
  {
    if scopes != [] { TextsEnd(CloseText(t, scopes[0]).state, scopes[1..]); }
  }

  lemma {:induction false} EachToolEnds(c: Calls, ids: seq<ScopedId>)
    ensures forall e | e in CloseEachTool(c, ids).events :: e.ToolEnd?
    decreases |ids|
  {
    if ids != [] {
      CloseToolKeepsStarted(c, ids[0]);
      hide CloseTool;
      EachToolEnds(CloseTool(c, ids[0]).state, ids[1..]);
    }
  }

  lemma ClosingBrackets(s: State)
    ensures Brackets(CloseAll(s).events)
  {
    var reasoning, texts, tools := AllEndInOrder(s);
  }

  /** `finish`, `abort` and root values end reasoning before text and text before calls. */
  lemma AllEndInOrder(s: State) returns (reasoning: seq<Event>, texts: seq<Event>, tools: seq<Event>)
    ensures CloseAll(s).events == reasoning + texts + tools
    ensures forall e | e in reasoning :: e.ReasoningMessageEnd? || e.ReasoningEnd?
    ensures forall e | e in texts :: e.TextEnd?
    ensures forall e | e in tools :: e.ToolEnd?
  {
    reasoning := CloseAllThoughts(s.thoughts).events;
    texts := CloseTexts(s.texts, s.texts.order).events;
    tools := CloseEachTool(s.calls, s.calls.order).events;
    ScopesEndReasoning(s.thoughts, ScopesOf(s.thoughts, s.thoughts.order, []));
    TextsEnd(s.texts, s.texts.order);
    EachToolEnds(s.calls, s.calls.order);
    hide CloseThoughtScopes, CloseTexts, CloseEachTool;
  }

  /** The boundary of one namespace ends calls before reasoning and reasoning before text. */
  lemma ScopeEndsInOrder(s: State, ns: Namespace) returns (tools: seq<Event>, reasoning: seq<Event>, texts: seq<Event>)
    ensures CloseScope(s, ns).events == tools + reasoning + texts
    ensures forall e | e in tools :: e.ToolEnd?
    ensures forall e | e in reasoning :: e.ReasoningMessageEnd? || e.ReasoningEnd?
    ensures forall e | e in texts :: e.TextEnd?
  {
    tools := CloseTools(s.calls, ns).events;
    reasoning := CloseThoughts(s.thoughts, ns).events;
    texts := CloseText(s.texts, ns).events;
    ClosingToolsHidden(s.calls, ns, s.calls.order);
    ClosingThoughtsHidden(s.thoughts, ns, s.thoughts.order);
    hide CloseToolIds, CloseThoughtKeys;
  }

  // ---- A message that is new to the stream -----------------------------------

  /** A complete message with an ID, whose calls have names and different IDs that the stream knows nothing of. */
  ghost predicate IsNew(s: State, ns: Namespace, m: Complete) {
    && m.id != "" && !IsBaseline(s.baselines, ns, m.id, PriorAi(m))
    && (forall key | key in s.calls.history :: key.parent != MessageId(ns, m.id))
    && (forall i | 0 <= i < |m.calls| ::
         && Given(m.calls[i].id) && m.calls[i].name != ""
         && var x := ToolId(ns, m.calls[i].id.value);
            x !in s.calls.started && x !in s.calls.names && x !in s.baselines.parents)
    && (forall i, j | 0 <= i < j < |m.calls| :: m.calls[i].id != m.calls[j].id)
  }

  /** While the calls before `p` are checked, only they take positions and names. */
  ghost predicate Taken(s: State, ns: Namespace, m: Complete, p: nat, available: map<SlotKey, ScopedId>, names: map<ScopedId, string>)
    requires p <= |m.calls|
  {
    && (forall key | key in available && key !in s.calls.history ::
         exists i :: 0 <= i < p && key == SlotKey(ns, MessageId(ns, m.id), Indexed(i)) && Given(m.calls[i].id)
                     && available[key] == ToolId(ns, m.calls[i].id.value))
    && (forall key | key in s.calls.history :: key in available && available[key] == s.calls.history[key])
    && (forall x | x in names && x !in s.calls.names :: exists i :: 0 <= i < p && Given(m.calls[i].id) && x == ToolId(ns, m.calls[i].id.value))
  }

  lemma NextIsFree(s: State, ns: Namespace, m: Complete, p: nat, available: map<SlotKey, ScopedId>, names: map<ScopedId, string>)
    requires Consistent(s) && IsNew(s, ns, m) && p < |m.calls| && Taken(s, ns, m, p, available, names)
    ensures var x, key := ToolId(ns, m.calls[p].id.value), SlotKey(ns, MessageId(ns, m.id), Indexed(p));
            && x !in s.calls.ended && key !in available && x !in names
            && (forall k | k in available :: available[k] != x)
            && Taken(s, ns, m, p + 1, available[key := x], names[x := m.calls[p].name])
  {
    assert HistoryOk(s.calls) && LivesOk(s.calls);
    var x, key := ToolId(ns, m.calls[p].id.value), SlotKey(ns, MessageId(ns, m.id), Indexed(p));
    forall k | k in available ensures available[k] != x {
      if k !in s.calls.history {
        var i :| 0 <= i < p && k == SlotKey(ns, MessageId(ns, m.id), Indexed(i)) && Given(m.calls[i].id)
                 && available[k] == ToolId(ns, m.calls[i].id.value);
      }
    }
    hide Consistent;
  }

  lemma {:induction false} NewCallsAccepted(s: State, ns: Namespace, m: Complete, p: nat, tools: seq<ToolChunk>,
                                            available: map<SlotKey, ScopedId>, names: map<ScopedId, string>)
    requires Consistent(s) && IsNew(s, ns, m) && p <= |m.calls| && tools == ToChunk(m).tools[p..]
    requires Taken(s, ns, m, p, available, names)
    ensures FragmentsAccepted(s.calls, ns, MessageId(ns, m.id), tools, available, names)
    decreases |tools|
  {
    if tools != [] {
      NextIsFree(s, ns, m, p, available, names);
      var x, key := ToolId(ns, m.calls[p].id.value), SlotKey(ns, MessageId(ns, m.id), Indexed(p));
      assert tools[0] == ToolChunk(Some(p), m.calls[p].id, Some(m.calls[p].name), Some(m.calls[p].args));
      assert tools[1..] == ToChunk(m).tools[p + 1..];
      assert Given(m.calls[p].id) && m.calls[p].name != "";
      hide Consistent, IsNew, Taken, ToChunk;
      NewCallsAccepted(s, ns, m, p + 1, tools[1..], available[key := x], names[x := m.calls[p].name]);
    }
  }

  lemma NewIsAccepted(s: State, ns: Namespace, m: Complete)
    requires Consistent(s) && IsNew(s, ns, m)
    ensures Accepted(s, ns, ToChunk(m))
  {
    assert ToChunk(m).tools[0..] == ToChunk(m).tools;
    NewCallsAccepted(s, ns, m, 0, ToChunk(m).tools, s.calls.history, s.calls.names);
    hide Consistent, FragmentsAccepted;
    assert forall t | t in ToChunk(m).tools :: exists i :: 0 <= i < |m.calls| && t.id == m.calls[i].id;
  }

  /** A message that is new to the stream is published: its reasoning, text and attachments, and a start for each of its calls. */
  lemma NewMessageIsPublished(s: State, ns: Namespace, m: Complete)
    requires Consistent(s) && IsNew(s, ns, m)
    ensures Process(s, AiMessage(ns, m)).Done?
    ensures var events := Delivered(s, AiMessage(ns, m));
            && Says(s, ns, ToChunk(m)) <= Shown(events)
            && forall i | 0 <= i < |m.calls| && Given(m.calls[i].id) ::
                 exists name :: ToolStart(ToolId(ns, m.calls[i].id.value), name, Some(MessageId(ns, m.id))) in events
  {
    var c := ToChunk(m);
    NewIsAccepted(s, ns, m);
    CompleteMessagesAreNeverLost(s, ns, m);
    assert Process(s, AiMessage(ns, m)) == Process(s, AiChunk(ns, c)) by { hide ProcessAi, Accepted, Consistent, ToChunk; }
    assert c.id == m.id;
    assert Process(s, AiMessage(ns, m)).Done? by { hide ProcessAi, Accepted, Consistent, ToChunk; }
    ChunkDone(s, ns, c);
    FragmentShows(s, ns, c);
    forall i | 0 <= i < |m.calls| && Given(m.calls[i].id)
      ensures exists name :: ToolStart(ToolId(ns, m.calls[i].id.value), name, Some(MessageId(ns, m.id))) in ProcessAi(s, ns, c).events
    {
      assert c.tools[i].id == m.calls[i].id && c.tools[i] in c.tools;
      var x := ToolId(ns, m.calls[i].id.value);
      assert Named(c.tools, ns, x);
      hide Consistent, ProcessAi, Accepted, ToChunk, Named, StartsNew;
      FrameStartsCalls(s, ns, c, x);
    }
    hide Consistent, ProcessAi, Accepted, ToChunk, Says, Shown, CallEvents;
  }
}
