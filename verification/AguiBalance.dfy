/**
 The adapter's dictionaries agree with each other and with what a client has been told.

 `Consistent` is the invariant over the dictionaries, `ViewOf` the client view they
 stand for. Each lemma shows that one operation keeps the first, and that a client in
 the old view accepts the events and arrives in the new one.
 */
module AguiBalance {
  import opened AguiStream
  import opened AguiTrace
  import opened AguiTypes
  import opened Options

  // ---- The invariant ---------------------------------------------------------

  ghost predicate TextsOk(t: Texts) {
    && (forall ns :: ns in t.order <==> ns in t.open)
    && (forall ns | ns in t.open :: t.open[ns].kind == MessageKind && t.open[ns].ns == ns)
  }

  function ReasoningFor(key: ScopedId): ActiveReasoning {
    ActiveReasoning(key, ScopedId(ReasoningKind, key.ns, key.raw), ScopedId(ReasoningMessageKind, key.ns, key.raw), key.ns)
  }

  ghost predicate ThoughtsOk(r: Thoughts) {
    && (forall key :: key in r.order <==> key in r.open)
    && (forall key | key in r.open :: key.kind == MessageKind && r.open[key] == ReasoningFor(key))
    && (forall a, b | a in r.open && b in r.open && a.ns == b.ns :: a == b)
  }

  /** Text and reasoning are never open together in one namespace. */
  ghost predicate Apart(t: Texts, r: Thoughts) {
    forall key | key in r.open :: key.ns !in t.open
  }

  ghost predicate ActiveOk(c: Calls) {
    && (forall id :: id in c.order <==> id in c.active)
    && (forall id | id in c.active :: c.active[id].id == id && c.active[id].ns == id.ns)
  }

  /** The slot index is exactly the inverse of the active calls. */
  ghost predicate SlotsInvert(active: map<ScopedId, ActiveTool>, slots: map<SlotKey, ScopedId>) {
    && (forall id | id in active :: SlotOf(active[id]) in slots && slots[SlotOf(active[id])] == id)
    && (forall key | key in slots :: slots[key] in active && SlotOf(active[slots[key]]) == key)
  }

  /** Every started call is active or ended, and never both; only ended calls have results. */
  ghost predicate LivesOk(c: Calls) {
    && c.started == c.active.Keys + c.ended
    && c.active.Keys !! c.ended
    && c.results.Keys <= c.ended
    && c.prior <= c.ended
    && (forall id | id in c.started :: id.kind == ToolKind)
  }

  /**
   The slot history extends the slot index, never mentions a call from before the stream,
   and keeps calls in their own namespace.
   */
  ghost predicate HistoryOk(c: Calls) {
    && (forall key | key in c.slots :: key in c.history && c.history[key] == c.slots[key])
    && (forall key | key in c.history :: c.history[key] in c.started && c.history[key] !in c.prior)
    && (forall key | key in c.history :: c.history[key].ns == key.ns)
  }

  ghost predicate CallsOk(c: Calls) {
    ActiveOk(c) && SlotsInvert(c.active, c.slots) && LivesOk(c) && HistoryOk(c)
  }

  ghost predicate Consistent(s: State) {
    TextsOk(s.texts) && ThoughtsOk(s.thoughts) && Apart(s.texts, s.thoughts) && CallsOk(s.calls)
  }

  // ---- The view it stands for ------------------------------------------------

  function ThoughtsView(r: Thoughts): Reasoning {
    Reasoning({}, r.open.Keys, {})
  }

  function CallsView(c: Calls): map<ScopedId, ToolPhase> {
    map id | id in c.started :: if id in c.active then Running else if id in c.results then Settled else Ended
  }

  function ViewOf(s: State): View {
    View(s.texts.open, ThoughtsView(s.thoughts), CallsView(s.calls))
  }

  /** The invariant survives, and the events carry a client from the old view to the new. */
  ghost predicate Keeps(s: State, out: Out<State>) {
    Consistent(out.state) && ObserveAll(ViewOf(s), out.events) == Some(ViewOf(out.state))
  }

  /** Call events leave the rest of any view alone. */
  ghost predicate CallsKeep(v: View, c: Calls, out: Out<Calls>) {
    && CallsOk(out.state)
    && ObserveAll(v.(tools := CallsView(c)), out.events) == Some(v.(tools := CallsView(out.state)))
  }

  ghost predicate ThoughtsKeep(v: View, r: Thoughts, out: Out<Thoughts>) {
    && ThoughtsOk(out.state)
    && ObserveAll(v.(reasoning := ThoughtsView(r)), out.events) == Some(v.(reasoning := ThoughtsView(out.state)))
  }

  ghost predicate TextsKeep(v: View, t: Texts, out: Out<Texts>) {
    && TextsOk(out.state)
    && ObserveAll(v.(texts := t.open), out.events) == Some(v.(texts := out.state.open))
  }

  lemma {:induction false} DropContents<T>(order: seq<T>, gone: T)
    ensures forall x :: x in Drop(order, gone) <==> x in order && x != gone
  {
    if order != [] {
      DropContents(order[1..], gone);
      assert order == [order[0]] + order[1..];
    }
  }

  // ---- Closing text ----------------------------------------------------------

  lemma CloseTextKeeps(v: View, t: Texts, ns: Namespace)
    requires TextsOk(t)
    ensures TextsKeep(v, t, CloseText(t, ns))
    ensures CloseText(t, ns).state.open == t.open - {ns}
  {
    if ns in t.open {
      DropContents(t.order, ns);
      ObserveOne(v.(texts := t.open), TextEnd(t.open[ns]));
    }
  }

  lemma {:induction false} CloseTextsKeeps(v: View, t: Texts, scopes: seq<Namespace>)
    requires TextsOk(t)
    ensures var out := CloseTexts(t, scopes);
            && TextsKeep(v, t, out)
            && forall ns :: ns in out.state.open ==> ns in t.open && ns !in scopes
    decreases |scopes|
  {
    if scopes != [] {
      var one := CloseText(t, scopes[0]);
      CloseTextKeeps(v, t, scopes[0]);
      CloseTextsKeeps(v, one.state, scopes[1..]);
      ObserveConcat(v.(texts := t.open), one.events, CloseTexts(one.state, scopes[1..]).events);
    }
  }

  // ---- Closing reasoning -----------------------------------------------------

  lemma ObserveThoughtClose(v: View, key: ScopedId)
    requires key.kind == MessageKind && key in v.reasoning.speaking && v.reasoning.spoken == {}
    ensures ObserveAll(v, [ReasoningMessageEnd(ReasoningFor(key).message), ReasoningEnd(ReasoningFor(key).reasoning)]) ==
            Some(v.(reasoning := v.reasoning.(speaking := v.reasoning.speaking - {key})))
  {
    var active := ReasoningFor(key);
    var spoken := v.(reasoning := Reasoning(v.reasoning.begun, v.reasoning.speaking - {key}, {key}));
    var events := [ReasoningMessageEnd(active.message), ReasoningEnd(active.reasoning)];
    assert {} + {key} == {key};
    assert Observe(v, events[0]) == Some(spoken);
    assert events[1..] == [ReasoningEnd(active.reasoning)];
    ObserveOne(spoken, ReasoningEnd(active.reasoning));
    assert {key} - {key} == {};
  }

  lemma CloseThoughtKeeps(v: View, r: Thoughts, key: ScopedId)
    requires ThoughtsOk(r) && key in r.open
    ensures ThoughtsKeep(v, r, CloseThought(r, key))
  {
    DropContents(r.order, key);
    ObserveThoughtClose(v.(reasoning := ThoughtsView(r)), key);
    assert ThoughtsView(r).speaking - {key} == ThoughtsView(CloseThought(r, key).state).speaking;
  }

  lemma {:induction false} CloseThoughtKeysLeaves(r: Thoughts, ns: Namespace, keys: seq<ScopedId>)
    requires forall key | key in r.open :: r.open[key].ns == key.ns
    ensures var out := CloseThoughtKeys(r, ns, keys).state;
            forall key :: key in out.open <==> key in r.open && !(key in keys && key.ns == ns)
    decreases |keys|
  {
    if keys != [] {
      if keys[0] in r.open && r.open[keys[0]].ns == ns {
        CloseThoughtKeysLeaves(CloseThought(r, keys[0]).state, ns, keys[1..]);
      } else {
        CloseThoughtKeysLeaves(r, ns, keys[1..]);
      }
    }
  }

  lemma {:induction false} CloseThoughtKeysKeeps(v: View, r: Thoughts, ns: Namespace, keys: seq<ScopedId>)
    requires ThoughtsOk(r)
    ensures ThoughtsKeep(v, r, CloseThoughtKeys(r, ns, keys))
    decreases |keys|
  {
    if keys != [] {
      if keys[0] in r.open && r.open[keys[0]].ns == ns {
        var one := CloseThought(r, keys[0]);
        CloseThoughtKeeps(v, r, keys[0]);
        CloseThoughtKeysKeeps(v, one.state, ns, keys[1..]);
        ObserveConcat(v.(reasoning := ThoughtsView(r)), one.events, CloseThoughtKeys(one.state, ns, keys[1..]).events);
      } else {
        CloseThoughtKeysKeeps(v, r, ns, keys[1..]);
      }
    }
  }

  lemma CloseThoughtsKeeps(v: View, r: Thoughts, ns: Namespace)
    requires ThoughtsOk(r)
    ensures ThoughtsKeep(v, r, CloseThoughts(r, ns))
    ensures forall key :: key in CloseThoughts(r, ns).state.open <==> key in r.open && key.ns != ns
  {
    CloseThoughtKeysKeeps(v, r, ns, r.order);
    CloseThoughtKeysLeaves(r, ns, r.order);
  }

  lemma {:induction false} CloseThoughtScopesKeeps(v: View, r: Thoughts, scopes: seq<Namespace>)
    requires ThoughtsOk(r)
    ensures var out := CloseThoughtScopes(r, scopes);
            && ThoughtsKeep(v, r, out)
            && forall key :: key in out.state.open ==> key in r.open && key.ns !in scopes
    decreases |scopes|
  {
    if scopes != [] {
      var one := CloseThoughts(r, scopes[0]);
      CloseThoughtsKeeps(v, r, scopes[0]);
      CloseThoughtScopesKeeps(v, one.state, scopes[1..]);
      ObserveConcat(v.(reasoning := ThoughtsView(r)), one.events, CloseThoughtScopes(one.state, scopes[1..]).events);
    }
  }

  lemma {:induction false} ScopesContents(r: Thoughts, keys: seq<ScopedId>, seen: seq<Namespace>)
    ensures forall ns | ns in seen :: ns in ScopesOf(r, keys, seen)
    ensures forall key | key in keys && key in r.open :: r.open[key].ns in ScopesOf(r, keys, seen)
    decreases |keys|
  {
    if keys != [] {
      var next := if keys[0] in r.open && r.open[keys[0]].ns !in seen then seen + [r.open[keys[0]].ns] else seen;
      ScopesContents(r, keys[1..], next);
    }
  }

  lemma CloseAllThoughtsKeeps(v: View, r: Thoughts)
    requires ThoughtsOk(r)
    ensures ThoughtsKeep(v, r, CloseAllThoughts(r)) && CloseAllThoughts(r).state.open == map[]
  {
    ScopesContents(r, r.order, []);
    CloseThoughtScopesKeeps(v, r, ScopesOf(r, r.order, []));
    assert CloseAllThoughts(r).state.open.Keys == {};
  }

  // ---- Closing calls ---------------------------------------------------------

  lemma CloseToolSlots(c: Calls, id: ScopedId)
    requires SlotsInvert(c.active, c.slots) && id in c.active
    ensures SlotsInvert(c.active - {id}, c.slots - {SlotOf(c.active[id])})
  {
  }

  lemma CloseToolActive(c: Calls, id: ScopedId)
    requires ActiveOk(c) && id in c.active
    ensures ActiveOk(CloseTool(c, id).state)
  {
    DropContents(c.order, id);
    hide Drop, SlotOf;
  }

  lemma CloseToolLives(c: Calls, id: ScopedId)
    requires LivesOk(c) && id in c.active
    ensures LivesOk(CloseTool(c, id).state)
    ensures id !in c.ended
  {
    hide Drop, SlotOf;
  }

  lemma CloseToolOk(c: Calls, id: ScopedId)
    requires CallsOk(c)
    ensures CallsOk(CloseTool(c, id).state)
  {
    if id in c.active {
      CloseToolActive(c, id);
      CloseToolSlots(c, id);
      CloseToolLives(c, id);
      hide ActiveOk, SlotsInvert, LivesOk, Drop, SlotOf;
    }
  }

  lemma CloseToolObserved(v: View, c: Calls, id: ScopedId)
    requires LivesOk(c) && id in c.active
    ensures ObserveAll(v.(tools := CallsView(c)), [ToolEnd(id)]) ==
            Some(v.(tools := CallsView(CloseTool(c, id).state)))
  {
    ObserveOne(v.(tools := CallsView(c)), ToolEnd(id));
    assert CallsView(CloseTool(c, id).state) == CallsView(c)[id := Ended];
  }

  lemma CloseToolKeeps(v: View, c: Calls, id: ScopedId)
    requires CallsOk(c)
    ensures CallsKeep(v, c, CloseTool(c, id))
    ensures CloseTool(c, id).state.active == c.active - {id}
  {
    CloseToolOk(c, id);
    if id in c.active {
      CloseToolObserved(v, c, id);
    }
  }

  lemma {:induction false} CloseToolIdsKeeps(v: View, c: Calls, ns: Namespace, ids: seq<ScopedId>)
    requires CallsOk(c)
    ensures var out := CloseToolIds(c, ns, ids);
            && CallsKeep(v, c, out)
            && forall id :: id in out.state.active <==> id in c.active && !(id in ids && id.ns == ns)
    decreases |ids|
  {
    if ids != [] {
      if ids[0] in c.active && c.active[ids[0]].ns == ns {
        var one := CloseTool(c, ids[0]);
        CloseToolKeeps(v, c, ids[0]);
        CloseToolIdsKeeps(v, one.state, ns, ids[1..]);
        ObserveConcat(v.(tools := CallsView(c)), one.events, CloseToolIds(one.state, ns, ids[1..]).events);
      } else {
        CloseToolIdsKeeps(v, c, ns, ids[1..]);
      }
    }
  }

  lemma CloseToolsKeeps(v: View, c: Calls, ns: Namespace)
    requires CallsOk(c)
    ensures CallsKeep(v, c, CloseTools(c, ns))
    ensures forall id :: id in CloseTools(c, ns).state.active <==> id in c.active && id.ns != ns
  {
    CloseToolIdsKeeps(v, c, ns, c.order);
  }

  lemma {:induction false} CloseEachToolKeeps(v: View, c: Calls, ids: seq<ScopedId>)
    requires CallsOk(c)
    ensures var out := CloseEachTool(c, ids);
            && CallsKeep(v, c, out)
            && forall id :: id in out.state.active ==> id in c.active && id !in ids
    decreases |ids|
  {
    if ids != [] {
      var one := CloseTool(c, ids[0]);
      CloseToolKeeps(v, c, ids[0]);
      CloseEachToolKeeps(v, one.state, ids[1..]);
      ObserveConcat(v.(tools := CallsView(c)), one.events, CloseEachTool(one.state, ids[1..]).events);
    }
  }

  // ---- Tool fragments --------------------------------------------------------

  lemma StartSlots(active: map<ScopedId, ActiveTool>, slots: map<SlotKey, ScopedId>, key: SlotKey, tool: ActiveTool)
    requires SlotsInvert(active, slots) && tool.id !in active && key == SlotOf(tool) && key !in slots
    ensures SlotsInvert(active[tool.id := tool], slots[key := tool.id])
  {
  }

  lemma AppendedContents<T>(order: seq<T>, x: T)
    ensures forall y :: y in order + [x] <==> y in order || y == x
  {
  }

  lemma StartActive(c: Calls, key: SlotKey, tool: ActiveTool)
    requires ActiveOk(c) && tool.id !in c.active && tool.ns == tool.id.ns
    ensures ActiveOk(StartTool(c, key, tool).state)
  {
    AppendedContents(c.order, tool.id);
  }

  lemma StartHistory(c: Calls, key: SlotKey, tool: ActiveTool)
    requires HistoryOk(c) && tool.id !in c.prior && tool.id.ns == key.ns
    ensures HistoryOk(StartTool(c, key, tool).state)
  {
  }

  lemma StartLives(c: Calls, key: SlotKey, tool: ActiveTool)
    requires LivesOk(c) && tool.id !in c.active && tool.id !in c.ended && tool.id.kind == ToolKind
    ensures LivesOk(StartTool(c, key, tool).state)
  {
  }

  lemma StartToolOk(c: Calls, key: SlotKey, tool: ActiveTool)
    requires CallsOk(c)
    requires tool.id !in c.active && tool.id !in c.ended && tool.id.kind == ToolKind && tool.ns == tool.id.ns
    requires key == SlotOf(tool) && key !in c.slots
    ensures CallsOk(StartTool(c, key, tool).state)
  {
    assert tool.id !in c.prior by { assert LivesOk(c); }
    StartActive(c, key, tool);
    StartSlots(c.active, c.slots, key, tool);
    StartHistory(c, key, tool);
    StartLives(c, key, tool);
  }

  lemma StartToolObserved(v: View, c: Calls, key: SlotKey, tool: ActiveTool)
    requires LivesOk(c)
    requires tool.id !in c.active && tool.id !in c.ended && tool.id.kind == ToolKind
    ensures ObserveAll(v.(tools := CallsView(c)), StartTool(c, key, tool).events) ==
            Some(v.(tools := CallsView(StartTool(c, key, tool).state)))
  {
    ObserveOne(v.(tools := CallsView(c)), ToolStart(tool.id, tool.name, Some(tool.parent)));
    assert CallsView(StartTool(c, key, tool).state) == CallsView(c)[tool.id := Running];
  }

  lemma SlotsIgnoreArguments(active: map<ScopedId, ActiveTool>, slots: map<SlotKey, ScopedId>, id: ScopedId, arguments: string)
    requires SlotsInvert(active, slots) && id in active
    ensures SlotsInvert(active[id := active[id].(arguments := arguments)], slots)
  {
    var out := active[id := active[id].(arguments := arguments)];
    assert forall other | other in active :: SlotOf(out[other]) == SlotOf(active[other]);
  }

  lemma HistoryIgnoresActive(c: Calls, active: map<ScopedId, ActiveTool>)
    ensures HistoryOk(c.(active := active)) == HistoryOk(c)
  {
  }

  lemma AppendArgsOk(c: Calls, id: ScopedId, args: Option<string>)
    requires CallsOk(c)
    ensures CallsOk(AppendArgs(c, id, args).state)
  {
    if id in c.active && Given(args) {
      var active := AppendArgs(c, id, args).state.active;
      SlotsIgnoreArguments(c.active, c.slots, id, c.active[id].arguments + args.value);
      assert active.Keys == c.active.Keys;
      HistoryIgnoresActive(c, active);
      hide SlotsInvert, HistoryOk;
    }
  }

  lemma AppendArgsSeen(v: View, c: Calls, id: ScopedId, args: Option<string>)
    requires id in c.active && Given(args) && id in c.started
    ensures var out := AppendArgs(c, id, args);
            ObserveAll(v.(tools := CallsView(c)), out.events) == Some(v.(tools := CallsView(out.state)))
  {
    hide ObserveAll;
    ObserveOne(v.(tools := CallsView(c)), ToolArgs(id, args.value));
    assert CallsView(AppendArgs(c, id, args).state) == CallsView(c);
  }

  lemma AppendArgsKeeps(v: View, c: Calls, id: ScopedId, args: Option<string>)
    requires CallsOk(c)
    ensures CallsKeep(v, c, AppendArgs(c, id, args))
  {
    AppendArgsOk(c, id, args);
    assert id in c.active ==> id in c.started;
    hide CallsOk, CallsView, Given;
    if id in c.active && Given(args) {
      AppendArgsSeen(v, c, id, args);
      hide AppendArgs;
    }
  }

  lemma FreeSlotKeeps(v: View, c: Calls, key: SlotKey, id: ScopedId)
    requires CallsOk(c)
    ensures CallsKeep(v, c, FreeSlot(c, key, id))
    ensures var out := FreeSlot(c, key, id).state;
            && (key in out.slots ==> out.slots[key] == id)
            && (id in out.active <==> id in c.active)
  {
    if key in c.slots && c.slots[key] != id { CloseToolKeeps(v, c, c.slots[key]); }
  }

  lemma BeginToolKeeps(v: View, c: Calls, ns: Namespace, parent: ScopedId, t: ToolChunk, id: ScopedId)
    requires CallsOk(c)
    requires id in c.active || (Given(t.id) && id == ToolId(ns, t.id.value))
    requires KeyOf(ns, parent, t) in c.slots ==> c.slots[KeyOf(ns, parent, t)] == id
    ensures CallsKeep(v, c, BeginTool(c, ns, parent, t, id))
  {
    if !(id in c.active || id in c.ended || !Given(t.name)) {
      var tool := ActiveTool(id, t.name.value, parent, ns, t.index, "");
      StartToolOk(c, KeyOf(ns, parent, t), tool);
      StartToolObserved(v, c, KeyOf(ns, parent, t), tool);
    }
  }

  lemma CallsThen(v: View, c: Calls, a: Out<Calls>, b: Out<Calls>)
    requires CallsKeep(v, c, a) && CallsKeep(v, a.state, b)
    ensures CallsKeep(v, c, Out(b.state, a.events + b.events))
  {
    ObserveConcat(v.(tools := CallsView(c)), a.events, b.events);
  }

  lemma ToolFragmentKeeps(v: View, c: Calls, ns: Namespace, parent: ScopedId, t: ToolChunk, id: ScopedId)
    requires CallsOk(c) && TargetOf(c, ns, parent, t) == Some(id)
    ensures CallsKeep(v, c, ToolFragment(c, ns, parent, t, id))
  {
    var freed := FreeSlot(c, KeyOf(ns, parent, t), id);
    FreeSlotKeeps(v, c, KeyOf(ns, parent, t), id);
    assert id in freed.state.active || (Given(t.id) && id == ToolId(ns, t.id.value)) by {
      assert SlotsInvert(c.active, c.slots);
    }
    var begun := BeginTool(freed.state, ns, parent, t, id);
    BeginToolKeeps(v, freed.state, ns, parent, t, id);
    AppendArgsKeeps(v, begun.state, id, t.args);
    CallsThen(v, c, freed, begun);
    CallsThen(v, c, Out(begun.state, freed.events + begun.events), AppendArgs(begun.state, id, t.args));
  }

  lemma ToolFragmentOk(c: Calls, ns: Namespace, parent: ScopedId, t: ToolChunk, id: ScopedId)
    requires CallsOk(c) && TargetOf(c, ns, parent, t) == Some(id)
    ensures CallsOk(ToolFragment(c, ns, parent, t, id).state)
  {
    ToolFragmentKeeps(View(map[], Reasoning({}, {}, {}), map[]), c, ns, parent, t, id);
  }

  /** Even a list of fragments that cannot be completed leaves the dictionaries consistent. */
  lemma {:induction false} ToolFragmentsKeeps(v: View, c: Calls, ns: Namespace, parent: ScopedId, tools: seq<ToolChunk>)
    requires CallsOk(c)
    ensures var out := ToolFragments(c, ns, parent, tools); CallsKeep(v, c, Out(out.state, out.events))
    decreases |tools|
  {
    if tools != [] && TargetOf(c, ns, parent, tools[0]).Some? {
      var id := TargetOf(c, ns, parent, tools[0]).value;
      var one := ToolFragment(c, ns, parent, tools[0], id);
      ToolFragmentKeeps(v, c, ns, parent, tools[0], id);
      ToolFragmentsKeeps(v, one.state, ns, parent, tools[1..]);
      var rest := ToolFragments(one.state, ns, parent, tools[1..]);
      CallsThen(v, c, one, Out(rest.state, rest.events));
    }
  }

  // ---- Reasoning and text ----------------------------------------------------

  lemma BeginThoughtObserved(v: View, key: ScopedId, delta: string)
    requires key.kind == MessageKind && key.ns !in v.texts && !ReasoningIn(v, key.ns) && delta != ""
    requires v.reasoning.begun == {}
    ensures var active := ReasoningFor(key);
            ObserveAll(v, [ReasoningStart(active.reasoning), ReasoningMessageStart(active.message),
                           ReasoningContent(active.message, delta)]) ==
            Some(v.(reasoning := v.reasoning.(speaking := v.reasoning.speaking + {key})))
  {
    var active := ReasoningFor(key);
    var begun := v.(reasoning := v.reasoning.(begun := {key}));
    var speaking := v.(reasoning := v.reasoning.(speaking := v.reasoning.speaking + {key}));
    var events := [ReasoningStart(active.reasoning), ReasoningMessageStart(active.message),
                   ReasoningContent(active.message, delta)];
    assert {} + {key} == {key};
    assert Observe(v, events[0]) == Some(begun);
    assert {key} - {key} == {};
    assert Observe(begun, events[1]) == Some(speaking);
    assert events[1..] == [events[1], events[2]] && events[1..][1..] == [events[2]];
    ObserveOne(speaking, events[2]);
  }

  lemma BeginThoughtOk(r: Thoughts, key: ScopedId)
    requires ThoughtsOk(r) && key.kind == MessageKind && forall other | other in r.open :: other.ns != key.ns
    ensures ThoughtsOk(Thoughts(r.open[key := ReasoningFor(key)], r.order + [key]))
  {
    AppendedContents(r.order, key);
  }

  lemma ThinkKeeps(v: View, r: Thoughts, key: ScopedId, delta: string)
    requires ThoughtsOk(r) && key.kind == MessageKind && key.ns !in v.texts && delta != ""
    ensures ThoughtsKeep(v, r, Think(r, key, delta))
    ensures Think(r, key, delta).state.open.Keys <= r.open.Keys + {key}
  {
    if key in r.open {
      ObserveOne(v.(reasoning := ThoughtsView(r)), ReasoningContent(r.open[key].message, delta));
    } else {
      var closed := CloseThoughts(r, key.ns);
      CloseThoughtsKeeps(v, r, key.ns);
      BeginThoughtOk(closed.state, key);
      ThinkObserved(v, r, key, delta);
    }
  }

  lemma ThinkObserved(v: View, r: Thoughts, key: ScopedId, delta: string)
    requires ThoughtsOk(r) && key.kind == MessageKind && key.ns !in v.texts && delta != "" && key !in r.open
    ensures ObserveAll(v.(reasoning := ThoughtsView(r)), Think(r, key, delta).events) ==
            Some(v.(reasoning := ThoughtsView(Think(r, key, delta).state)))
  {
    var closed := CloseThoughts(r, key.ns);
    var from, middle := v.(reasoning := ThoughtsView(r)), v.(reasoning := ThoughtsView(closed.state));
    assert ObserveAll(from, closed.events) == Some(middle) && !ReasoningIn(middle, key.ns) by {
      CloseThoughtsKeeps(v, r, key.ns);
    }
    var active := ReasoningFor(key);
    var begin := [ReasoningStart(active.reasoning), ReasoningMessageStart(active.message), ReasoningContent(active.message, delta)];
    BeginThoughtObserved(middle, key, delta);
    ObserveConcat(from, closed.events, begin);
    assert ThoughtsView(Think(r, key, delta).state).speaking == ThoughtsView(closed.state).speaking + {key};
  }

  lemma Then(s: State, a: Out<State>, b: Out<State>)
    requires Keeps(s, a) && Keeps(a.state, b)
    ensures Keeps(s, Out(b.state, a.events + b.events))
  {
    ObserveConcat(ViewOf(s), a.events, b.events);
  }

  /** Ends the reasoning of a namespace, and nothing else. */
  function Quieted(s: State, ns: Namespace): Out<State> {
    Out(s.(thoughts := CloseThoughts(s.thoughts, ns).state), CloseThoughts(s.thoughts, ns).events)
  }

  function Cleared(s: State, ns: Namespace): Out<State> {
    Out(s.(texts := CloseText(s.texts, ns).state), CloseText(s.texts, ns).events)
  }

  lemma QuietedKeeps(s: State, ns: Namespace)
    requires Consistent(s)
    ensures Keeps(s, Quieted(s, ns))
    ensures !ReasoningIn(ViewOf(Quieted(s, ns).state), ns)
    ensures forall key | key in Quieted(s, ns).state.thoughts.open :: key.ns != ns
  {
    CloseThoughtsKeeps(ViewOf(s), s.thoughts, ns);
  }

  lemma ClearedKeeps(s: State, ns: Namespace)
    requires Consistent(s)
    ensures Keeps(s, Cleared(s, ns))
    ensures ns !in Cleared(s, ns).state.texts.open
  {
    CloseTextKeeps(ViewOf(s), s.texts, ns);
  }

  lemma ReasoningPartKeeps(s: State, ns: Namespace, c: Chunk)
    requires Consistent(s)
    ensures Keeps(s, ReasoningPart(s, ns, c))
    ensures ReasoningPart(s, ns, c).events != [] ==> ns !in ReasoningPart(s, ns, c).state.texts.open
  {
    if s.exposeReasoning && c.reasoning != "" {
      var key, cleared := MessageId(ns, c.id), Cleared(s, ns);
      ClearedKeeps(s, ns);
      ThinkKeeps(ViewOf(cleared.state), s.thoughts, key, c.reasoning);
      var thoughts := Think(s.thoughts, key, c.reasoning);
      hide CallsOk, Think, ObserveAll, CloseText;
      Then(s, cleared, Out(cleared.state.(thoughts := thoughts.state), thoughts.events));
    }
  }

  lemma StalePartKeeps(s: State, ns: Namespace, c: Chunk)
    requires Consistent(s)
    ensures Keeps(s, StalePart(s, ns, c))
  {
    CloseTextKeeps(ViewOf(s), s.texts, ns);
  }

  lemma OpenTextObserved(v: View, t: Texts, ns: Namespace, id: ScopedId)
    requires TextsOk(t) && id.kind == MessageKind && id.ns == ns && v.texts == t.open && !ReasoningIn(v, ns)
    ensures TextsOk(OpenText(t, ns, id))
    ensures var ended := if ns in t.open then [TextEnd(t.open[ns])] else [];
            ObserveAll(v, ended + [TextStart(id)]) == Some(v.(texts := OpenText(t, ns, id).open))
  {
    var ended := if ns in t.open then [TextEnd(t.open[ns])] else [];
    var cleared := v.(texts := t.open - {ns});
    if ns in t.open { ObserveOne(v, ended[0]); } else { assert t.open - {ns} == t.open; }
    ObserveOne(cleared, TextStart(id));
    ObserveConcat(v, ended, [TextStart(id)]);
    assert (t.open - {ns})[ns := id] == t.open[ns := id];
    forall n ensures n in OpenText(t, ns, id).order <==> n in OpenText(t, ns, id).open {
      assert n in t.order + [ns] <==> n in t.order || n == ns;
    }
  }

  lemma OpenTextKeeps(s: State, ns: Namespace, id: ScopedId)
    requires Consistent(s) && id.kind == MessageKind && id.ns == ns && !ReasoningIn(ViewOf(s), ns)
    ensures var ended := if ns in s.texts.open then [TextEnd(s.texts.open[ns])] else [];
            Keeps(s, Out(s.(texts := OpenText(s.texts, ns, id)), ended + [TextStart(id)]))
  {
    OpenTextObserved(ViewOf(s), s.texts, ns, id);
  }

  /** Afterwards exactly the message `id` shows in its namespace. */
  lemma ShowKeeps(s: State, ns: Namespace, id: ScopedId)
    requires Consistent(s) && id.kind == MessageKind && id.ns == ns
    ensures Keeps(s, Show(s, ns, id))
    ensures Showing(Show(s, ns, id).state.texts, ns, id)
  {
    var quiet := Quieted(s, ns);
    QuietedKeeps(s, ns);
    if !Showing(s.texts, ns, id) {
      var ended := if ns in s.texts.open then [TextEnd(s.texts.open[ns])] else [];
      OpenTextKeeps(quiet.state, ns, id);
      Then(s, quiet, Out(quiet.state.(texts := OpenText(s.texts, ns, id)), ended + [TextStart(id)]));
      assert quiet.events + (ended + [TextStart(id)]) == quiet.events + ended + [TextStart(id)];
    }
  }

  lemma ContentKeeps(s: State, id: ScopedId, e: Event)
    requires Consistent(s) && Showing(s.texts, id.ns, id)
    requires e.Attachments? || (e.TextContent? && e.delta != "")
    requires e.id == id
    ensures Keeps(s, Out(s, [e]))
  {
    ObserveOne(ViewOf(s), e);
  }

  lemma TextPartKeeps(s: State, ns: Namespace, c: Chunk)
    requires Consistent(s)
    ensures Keeps(s, TextPart(s, ns, c))
  {
    if c.text != "" {
      var id := MessageId(ns, c.id);
      var shown := Show(s, ns, id);
      ShowKeeps(s, ns, id);
      ContentKeeps(shown.state, id, TextContent(id, c.text));
      Then(s, shown, Out(shown.state, [TextContent(id, c.text)]));
    }
  }

  lemma AttachmentPartKeeps(s: State, ns: Namespace, c: Chunk)
    requires Consistent(s)
    ensures Keeps(s, AttachmentPart(s, ns, c))
  {
    if c.attachments != [] {
      var id, quiet := MessageId(ns, c.id), Quieted(s, ns);
      var attached := Attachments(id, c.attachments);
      QuietedKeeps(s, ns);
      if Showing(s.texts, ns, id) {
        ContentKeeps(quiet.state, id, attached);
        Then(s, quiet, Out(quiet.state, [attached]));
      } else {
        var cleared := Cleared(quiet.state, ns);
        ClearedKeeps(quiet.state, ns);
        Then(s, quiet, cleared);
        var shown := Out(cleared.state.(texts := OpenText(cleared.state.texts, ns, id)), [TextStart(id)]);
        OpenTextKeeps(cleared.state, ns, id);
        assert [] + [TextStart(id)] == [TextStart(id)];
        Then(s, Out(cleared.state, quiet.events + cleared.events), shown);
        ContentKeeps(shown.state, id, attached);
        Then(s, Out(shown.state, quiet.events + cleared.events + shown.events), Out(shown.state, [attached]));
      }
    }
  }

  lemma ToolsPartKeeps(s: State, ns: Namespace, c: Chunk)
    requires Consistent(s)
    ensures var out := ToolsPart(s, ns, c); Keeps(s, Out(out.state, out.events))
  {
    if c.tools != [] {
      var quiet := Quieted(s, ns);
      QuietedKeeps(s, ns);
      ToolFragmentsKeeps(ViewOf(quiet.state), s.calls, ns, MessageId(ns, c.id), c.tools);
      var calls := ToolFragments(s.calls, ns, MessageId(ns, c.id), c.tools);
      Then(s, quiet, Out(quiet.state.(calls := calls.state), calls.events));
    }
  }

  lemma KeepsIsConsistent()
    ensures forall s, out | Keeps(s, out) :: Consistent(out.state)
  {
  }

  lemma BeforeToolsKeeps(s: State, ns: Namespace, c: Chunk)
    requires Consistent(s)
    ensures Keeps(s, BeforeTools(s, ns, c))
  {
    hide Keeps, Consistent, ReasoningPart, TextPart, AttachmentPart;
    KeepsIsConsistent();
    var reasoning := ReasoningPart(s, ns, c);
    ReasoningPartKeeps(s, ns, c);
    var stale := StalePart(reasoning.state, ns, c);
    StalePartKeeps(reasoning.state, ns, c);
    Then(s, reasoning, stale);
    // Either no reasoning was emitted or the text was already closed, so the order agrees.
    assert reasoning.events + stale.events == stale.events + reasoning.events by {
      if reasoning.events == [] {
        assert [] + stale.events == stale.events + [];
      } else {
        assert reasoning.events + [] == [] + reasoning.events;
      }
    }
    var text := TextPart(stale.state, ns, c);
    TextPartKeeps(stale.state, ns, c);
    Then(s, Out(stale.state, stale.events + reasoning.events), text);
    AttachmentPartKeeps(text.state, ns, c);
    Then(s, Out(text.state, stale.events + reasoning.events + text.events), AttachmentPart(text.state, ns, c));
  }

  // ---- Boundaries ------------------------------------------------------------

  ghost predicate Idle(s: State, ns: Namespace) {
    && ns !in s.texts.open
    && (forall key | key in s.thoughts.open :: key.ns != ns)
    && (forall id | id in s.calls.active :: id.ns != ns)
  }

  ghost predicate AllIdle(s: State) {
    s.texts.open == map[] && s.thoughts.open == map[] && s.calls.active == map[]
  }

  lemma CallsStep(s: State, calls: Out<Calls>)
    requires Consistent(s) && CallsKeep(ViewOf(s), s.calls, calls)
    ensures Keeps(s, Out(s.(calls := calls.state), calls.events))
  {
  }

  lemma CloseScopeKeeps(s: State, ns: Namespace)
    requires Consistent(s)
    ensures Keeps(s, CloseScope(s, ns))
    ensures Idle(CloseScope(s, ns).state, ns)
  {
    var calls := CloseTools(s.calls, ns);
    CloseToolsKeeps(ViewOf(s), s.calls, ns);
    CallsStep(s, calls);
    var s1 := s.(calls := calls.state);
    QuietedKeeps(s1, ns);
    Then(s, Out(s1, calls.events), Quieted(s1, ns));
    var s2 := Quieted(s1, ns).state;
    ClearedKeeps(s2, ns);
    Then(s, Out(s2, calls.events + Quieted(s1, ns).events), Cleared(s2, ns));
  }

  /** All reasoning, then all text. */
  function Silenced(s: State): Out<State> {
    var thoughts := CloseAllThoughts(s.thoughts);
    var texts := CloseTexts(s.texts, s.texts.order);
    Out(s.(thoughts := thoughts.state, texts := texts.state), thoughts.events + texts.events)
  }

  lemma SilencedKeeps(s: State)
    requires Consistent(s)
    ensures Keeps(s, Silenced(s))
    ensures Silenced(s).state.texts.open == map[] && Silenced(s).state.thoughts.open == map[]
  {
    var thoughts := CloseAllThoughts(s.thoughts);
    CloseAllThoughtsKeeps(ViewOf(s), s.thoughts);
    var s1 := s.(thoughts := thoughts.state);
    var texts := CloseTexts(s.texts, s.texts.order);
    CloseTextsKeeps(ViewOf(s1), s.texts, s.texts.order);
    assert texts.state.open.Keys == {};
    Then(s, Out(s1, thoughts.events), Out(s1.(texts := texts.state), texts.events));
  }

  /** After `finish`, `abort` or root values nothing at all is open. */
  lemma CloseAllKeeps(s: State)
    requires Consistent(s)
    ensures Keeps(s, CloseAll(s)) && AllIdle(CloseAll(s).state)
  {
    var silenced := Silenced(s);
    SilencedKeeps(s);
    var calls := CloseEachTool(s.calls, s.calls.order);
    CloseEachToolKeeps(ViewOf(silenced.state), s.calls, s.calls.order);
    assert calls.state.active.Keys == {};
    CallsStep(silenced.state, calls);
    Then(s, silenced, Out(silenced.state.(calls := calls.state), calls.events));
  }

  lemma LastPartKeeps(s: State, ns: Namespace, c: Chunk)
    requires Consistent(s)
    ensures Keeps(s, LastPart(s, ns, c))
    ensures c.last ==> Idle(LastPart(s, ns, c).state, ns)
  {
    if c.last { CloseScopeKeeps(s, ns); }
  }

  lemma ProcessAiKeeps(s: State, ns: Namespace, c: Chunk)
    requires Consistent(s)
    ensures var out := ProcessAi(s, ns, c);
            Keeps(s, Out(out.state, out.events)) && (c.last && out.ok ==> Idle(out.state, ns))
  {
    if IsEmpty(s, c) {
      LastPartKeeps(s, ns, c);
    } else {
      var before := BeforeTools(s, ns, c);
      BeforeToolsKeeps(s, ns, c);
      var tools := ToolsPart(before.state, ns, c);
      ToolsPartKeeps(before.state, ns, c);
      Then(s, before, Out(tools.state, tools.events));
      LastPartKeeps(tools.state, ns, c);
      Then(s, Out(tools.state, before.events + tools.events), LastPart(tools.state, ns, c));
    }
  }
}
