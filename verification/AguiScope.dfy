/**
 What one namespace can see of the adapter, and that work in one namespace stays there.

 `Agree` says that two states look the same from a namespace. Each lemma shows that an
 operation of one namespace emits events of that namespace only, and that no other
 namespace can tell that it happened.
 */
module AguiScope {
  import opened AguiBalance
  import opened AguiStream
  import opened AguiTypes
  import opened Options

  // ---- Views of one namespace ------------------------------------------------

  predicate SameAt<K, V(==)>(a: map<K, V>, b: map<K, V>, key: K) {
    (key in a <==> key in b) && (key in a ==> a[key] == b[key])
  }

  predicate SameCall(a: Calls, b: Calls, id: ScopedId) {
    && SameAt(a.active, b.active, id) && SameAt(a.names, b.names, id) && SameAt(a.results, b.results, id)
    && (id in a.prior <==> id in b.prior)
    && (id in a.started <==> id in b.started)
    && (id in a.ended <==> id in b.ended)
  }

  predicate SameSlot(a: Calls, b: Calls, key: SlotKey) {
    SameAt(a.slots, b.slots, key) && SameAt(a.history, b.history, key)
  }

  /** The IDs of one namespace, in order. */
  function Within(ids: seq<ScopedId>, ns: Namespace): seq<ScopedId> {
    if ids == [] then []
    else (if ids[0].ns == ns then [ids[0]] else []) + Within(ids[1..], ns)
  }

  ghost predicate TextsAgree(a: Texts, b: Texts, ns: Namespace) { SameAt(a.open, b.open, ns) }

  ghost predicate ThoughtsAgree(a: Thoughts, b: Thoughts, ns: Namespace) {
    forall key: ScopedId | key.ns == ns :: SameAt(a.open, b.open, key)
  }

  ghost predicate CallsAgree(a: Calls, b: Calls, ns: Namespace) {
    && (forall id: ScopedId | id.ns == ns :: SameCall(a, b, id))
    && (forall key: SlotKey | key.ns == ns :: SameSlot(a, b, key))
    && Within(a.order, ns) == Within(b.order, ns)
  }

  ghost predicate BaselinesAgree(a: Baselines, b: Baselines, ns: Namespace) {
    && (ns in a.scopes <==> ns in b.scopes)
    && (forall id: string :: SameAt(a.messages, b.messages, (ns, id)))
    && (forall id: ScopedId | id.ns == ns :: SameAt(a.parents, b.parents, id))
  }

  ghost predicate Agree(a: State, b: State, ns: Namespace) {
    && TextsAgree(a.texts, b.texts, ns) && ThoughtsAgree(a.thoughts, b.thoughts, ns)
    && CallsAgree(a.calls, b.calls, ns) && BaselinesAgree(a.baselines, b.baselines, ns)
    && a.exposeReasoning == b.exposeReasoning
  }

  lemma CallsAgreeSteps(a: Calls, b: Calls, c: Calls, ns: Namespace)
    requires CallsAgree(a, b, ns) && CallsAgree(b, c, ns)
    ensures CallsAgree(a, c, ns) && CallsAgree(b, a, ns)
  {
    forall id: ScopedId | id.ns == ns ensures SameCall(a, c, id) && SameCall(b, a, id) {
      assert SameCall(a, b, id) && SameCall(b, c, id);
    }
    forall key: SlotKey | key.ns == ns ensures SameSlot(a, c, key) && SameSlot(b, a, key) {
      assert SameSlot(a, b, key) && SameSlot(b, c, key);
    }
  }

  lemma AgreeSteps(a: State, b: State, c: State, ns: Namespace)
    requires Agree(a, b, ns) && Agree(b, c, ns)
    ensures Agree(a, c, ns) && Agree(b, a, ns)
  {
    hide CallsAgree;
    CallsAgreeSteps(a.calls, b.calls, c.calls, ns);
    forall key: ScopedId | key.ns == ns
      ensures SameAt(a.thoughts.open, c.thoughts.open, key) && SameAt(b.thoughts.open, a.thoughts.open, key)
    {
      assert SameAt(a.thoughts.open, b.thoughts.open, key) && SameAt(b.thoughts.open, c.thoughts.open, key);
    }
    BaselinesAgreeSteps(a.baselines, b.baselines, c.baselines, ns);
  }

  lemma BaselinesAgreeSteps(a: Baselines, b: Baselines, c: Baselines, ns: Namespace)
    requires BaselinesAgree(a, b, ns) && BaselinesAgree(b, c, ns)
    ensures BaselinesAgree(a, c, ns) && BaselinesAgree(b, a, ns)
  {
    forall id: string
      ensures SameAt(a.messages, c.messages, (ns, id)) && SameAt(b.messages, a.messages, (ns, id))
    {
      assert SameAt(a.messages, b.messages, (ns, id)) && SameAt(b.messages, c.messages, (ns, id));
    }
    forall id: ScopedId | id.ns == ns
      ensures SameAt(a.parents, c.parents, id) && SameAt(b.parents, a.parents, id)
    {
      assert SameAt(a.parents, b.parents, id) && SameAt(b.parents, c.parents, id);
    }
  }

  // ---- Events of one namespace -----------------------------------------------

  predicate AllIn(events: seq<Event>, ns: Namespace) {
    forall i | 0 <= i < |events| :: events[i].id.ns == ns
  }

  /** The events a client of one namespace is interested in. */
  function Of(events: seq<Event>, ns: Namespace): seq<Event>
    decreases |events|
  {
    if events == [] then []
    else (if events[0].id.ns == ns then [events[0]] else []) + Of(events[1..], ns)
  }

  lemma {:induction false} OfConcat(a: seq<Event>, b: seq<Event>, ns: Namespace)
    ensures Of(a + b, ns) == Of(a, ns) + Of(b, ns)
    decreases |a|
  {
    if a == [] {
      assert a + b == b;
    } else {
      assert (a + b)[1..] == a[1..] + b;
      OfConcat(a[1..], b, ns);
    }
  }

  lemma {:induction false} OfAllIn(events: seq<Event>, m: Namespace, ns: Namespace)
    requires AllIn(events, m)
    ensures Of(events, ns) == if m == ns then events else []
    decreases |events|
  {
    if events != [] {
      OfAllIn(events[1..], m, ns);
      assert events == [events[0]] + events[1..];
    }
  }

  lemma {:induction false} WithinDrop(ids: seq<ScopedId>, gone: ScopedId, ns: Namespace)
    ensures Within(Drop(ids, gone), ns) == if gone.ns == ns then Drop(Within(ids, ns), gone) else Within(ids, ns)
  {
    if ids != [] {
      WithinDrop(ids[1..], gone, ns);
      var tail := Drop(ids[1..], gone);
      if ids[0] != gone {
        assert Drop(ids, gone) == [ids[0]] + tail;
        assert ([ids[0]] + tail)[1..] == tail;
      } else {
        assert Drop(ids, gone) == tail;
      }
      var kept := Within(ids[1..], ns);
      assert ([ids[0]] + kept)[1..] == kept;
      assert [] + kept == kept && [] + Drop(kept, gone) == Drop(kept, gone);
    }
  }

  lemma {:induction false} WithinConcat(a: seq<ScopedId>, b: seq<ScopedId>, ns: Namespace)
    ensures Within(a + b, ns) == Within(a, ns) + Within(b, ns)
  {
    if a == [] {
      assert a + b == b;
    } else {
      assert (a + b)[1..] == a[1..] + b;
      WithinConcat(a[1..], b, ns);
    }
  }

  // ---- Nobody else notices ---------------------------------------------------

  /** An operation of the namespace `m`, seen from all others. */
  ghost predicate Contained(s: State, out: Out<State>, m: Namespace) {
    && AllIn(out.events, m)
    && forall ns: Namespace | ns != m :: Agree(s, out.state, ns)
  }

  ghost predicate CallsContained(c: Calls, out: Out<Calls>, m: Namespace) {
    && AllIn(out.events, m)
    && forall ns: Namespace | ns != m :: CallsAgree(c, out.state, ns)
  }

  ghost predicate ThoughtsContained(r: Thoughts, out: Out<Thoughts>, m: Namespace) {
    && AllIn(out.events, m)
    && forall key: ScopedId | key.ns != m :: SameAt(r.open, out.state.open, key)
  }

  ghost predicate TextsContained(t: Texts, out: Out<Texts>, m: Namespace) {
    && AllIn(out.events, m)
    && forall ns: Namespace | ns != m :: SameAt(t.open, out.state.open, ns)
  }

  lemma ContainedThen(s: State, a: Out<State>, b: Out<State>, m: Namespace)
    requires Contained(s, a, m) && Contained(a.state, b, m)
    ensures Contained(s, Out(b.state, a.events + b.events), m)
  {
    hide Agree;
    forall ns: Namespace | ns != m ensures Agree(s, b.state, ns) {
      assert Agree(s, a.state, ns) && Agree(a.state, b.state, ns);
      AgreeSteps(s, a.state, b.state, ns);
    }
  }

  lemma CallsContainedThen(c: Calls, a: Out<Calls>, b: Out<Calls>, m: Namespace)
    requires CallsContained(c, a, m) && CallsContained(a.state, b, m)
    ensures CallsContained(c, Out(b.state, a.events + b.events), m)
  {
    hide CallsAgree;
    forall ns: Namespace | ns != m ensures CallsAgree(c, b.state, ns) {
      assert CallsAgree(c, a.state, ns) && CallsAgree(a.state, b.state, ns);
      CallsAgreeSteps(c, a.state, b.state, ns);
    }
  }

  lemma CallsAlone(s: State, calls: Out<Calls>, m: Namespace)
    requires CallsContained(s.calls, calls, m)
    ensures Contained(s, Out(s.(calls := calls.state), calls.events), m)
  {
  }

  lemma ThoughtsAlone(s: State, thoughts: Out<Thoughts>, m: Namespace)
    requires ThoughtsContained(s.thoughts, thoughts, m)
    ensures Contained(s, Out(s.(thoughts := thoughts.state), thoughts.events), m)
  {
  }

  lemma TextsAlone(s: State, texts: Out<Texts>, m: Namespace)
    requires TextsContained(s.texts, texts, m)
    ensures Contained(s, Out(s.(texts := texts.state), texts.events), m)
  {
  }

  lemma CloseTextContained(t: Texts, m: Namespace)
    requires TextsOk(t)
    ensures TextsContained(t, CloseText(t, m), m)
  {
  }

  lemma ClosedThoughtOk(r: Thoughts, key: ScopedId)
    requires ThoughtsOk(r) && key in r.open
    ensures ThoughtsOk(CloseThought(r, key).state)
  {
    DropContents(r.order, key);
  }

  lemma ClosedThoughtContained(r: Thoughts, key: ScopedId, m: Namespace)
    requires ThoughtsOk(r) && key in r.open && r.open[key].ns == m
    ensures ThoughtsContained(r, CloseThought(r, key), m)
  {
    hide Drop;
  }

  lemma ContainedTwice(r: Thoughts, one: Out<Thoughts>, rest: Out<Thoughts>, m: Namespace)
    requires ThoughtsContained(r, one, m) && ThoughtsContained(one.state, rest, m)
    ensures ThoughtsContained(r, Out(rest.state, one.events + rest.events), m)
  {
  }

  lemma {:induction false} CloseThoughtKeysContained(r: Thoughts, m: Namespace, keys: seq<ScopedId>)
    requires ThoughtsOk(r)
    ensures ThoughtsContained(r, CloseThoughtKeys(r, m, keys), m)
    decreases |keys|
  {
    if keys != [] {
      if keys[0] in r.open && r.open[keys[0]].ns == m {
        var one := CloseThought(r, keys[0]);
        ClosedThoughtOk(r, keys[0]);
        ClosedThoughtContained(r, keys[0], m);
        hide ThoughtsOk, CloseThought, ThoughtsContained;
        CloseThoughtKeysContained(one.state, m, keys[1..]);
        ContainedTwice(r, one, CloseThoughtKeys(one.state, m, keys[1..]), m);
      } else {
        CloseThoughtKeysContained(r, m, keys[1..]);
      }
    }
  }

  lemma ThinkContained(r: Thoughts, key: ScopedId, delta: string)
    requires ThoughtsOk(r)
    ensures ThoughtsContained(r, Think(r, key, delta), key.ns)
  {
    CloseThoughtKeysContained(r, key.ns, r.order);
  }

  lemma CloseToolOtherCall(c: Calls, id: ScopedId, other: ScopedId)
    requires other != id
    ensures SameCall(c, CloseTool(c, id).state, other)
  {
    hide Drop, SlotOf;
  }

  lemma CloseToolOtherSlot(c: Calls, id: ScopedId, key: SlotKey)
    requires id in c.active ==> SlotOf(c.active[id]) != key
    ensures SameSlot(c, CloseTool(c, id).state, key)
  {
    hide Drop, SlotOf;
  }

  lemma ClosedOrder(c: Calls, id: ScopedId)
    ensures CloseTool(c, id).state.order == c.order || CloseTool(c, id).state.order == Drop(c.order, id)
  {
    hide Drop, SlotOf;
  }

  lemma CloseToolElsewhere(c: Calls, id: ScopedId, ns: Namespace)
    requires ActiveOk(c) && ns != id.ns
    ensures forall other: ScopedId | other.ns == ns :: SameCall(c, CloseTool(c, id).state, other)
    ensures forall key: SlotKey | key.ns == ns :: SameSlot(c, CloseTool(c, id).state, key)
    ensures CloseTool(c, id).state.order == c.order || CloseTool(c, id).state.order == Drop(c.order, id)
  {
    assert id in c.active ==> SlotOf(c.active[id]).ns == id.ns;
    ClosedOrder(c, id);
    hide *;
    forall other: ScopedId | other.ns == ns ensures SameCall(c, CloseTool(c, id).state, other) {
      CloseToolOtherCall(c, id, other);
    }
    forall key: SlotKey | key.ns == ns ensures SameSlot(c, CloseTool(c, id).state, key) {
      CloseToolOtherSlot(c, id, key);
    }
  }

  lemma CloseToolContained(c: Calls, id: ScopedId)
    requires ActiveOk(c)
    ensures CallsContained(c, CloseTool(c, id), id.ns)
  {
    forall ns: Namespace | ns != id.ns ensures CallsAgree(c, CloseTool(c, id).state, ns) {
      CloseToolElsewhere(c, id, ns);
      WithinDrop(c.order, id, ns);
    }
  }

  lemma {:induction false} CloseToolIdsContained(c: Calls, m: Namespace, ids: seq<ScopedId>)
    requires CallsOk(c)
    ensures CallsContained(c, CloseToolIds(c, m, ids), m)
    decreases |ids|
  {
    if ids != [] {
      if ids[0] in c.active && c.active[ids[0]].ns == m {
        var one := CloseTool(c, ids[0]);
        CloseToolContained(c, ids[0]);
        CloseToolOk(c, ids[0]);
        CloseToolIdsContained(one.state, m, ids[1..]);
        CallsContainedThen(c, one, CloseToolIds(one.state, m, ids[1..]), m);
      } else {
        CloseToolIdsContained(c, m, ids[1..]);
      }
    }
  }

  lemma StartToolContained(c: Calls, key: SlotKey, tool: ActiveTool)
    requires key.ns == tool.id.ns
    ensures CallsContained(c, StartTool(c, key, tool), tool.id.ns)
  {
    forall ns: Namespace | ns != tool.id.ns ensures CallsAgree(c, StartTool(c, key, tool).state, ns) {
      WithinConcat(c.order, [tool.id], ns);
      assert Within([tool.id], ns) == [];
    }
  }

  lemma AppendArgsContained(c: Calls, id: ScopedId, args: Option<string>)
    ensures CallsContained(c, AppendArgs(c, id, args), id.ns)
  {
  }

  lemma NothingContained(c: Calls, m: Namespace)
    ensures CallsContained(c, Out(c, []), m)
  {
  }

  lemma FreeSlotContained(c: Calls, key: SlotKey, id: ScopedId, m: Namespace)
    requires ActiveOk(c) && (key in c.slots ==> c.slots[key].ns == m)
    ensures CallsContained(c, FreeSlot(c, key, id), m)
  {
    hide CloseTool, CallsContained;
    NothingContained(c, m);
    if key in c.slots { CloseToolContained(c, c.slots[key]); }
  }

  lemma BeginToolContained(c: Calls, m: Namespace, parent: ScopedId, t: ToolChunk, id: ScopedId)
    requires id.ns == m
    ensures CallsContained(c, BeginTool(c, m, parent, t, id), m)
  {
    hide StartTool, CallsContained;
    NothingContained(c, m);
    if Given(t.name) { StartToolContained(c, KeyOf(m, parent, t), ActiveTool(id, t.name.value, parent, m, t.index, "")); }
  }

  lemma ToolFragmentContained(c: Calls, m: Namespace, parent: ScopedId, t: ToolChunk, id: ScopedId)
    requires CallsOk(c) && TargetOf(c, m, parent, t) == Some(id)
    ensures CallsContained(c, ToolFragment(c, m, parent, t, id), m)
  {
    var key := KeyOf(m, parent, t);
    assert key.ns == m && (key in c.slots ==> c.slots[key].ns == m) by { assert HistoryOk(c); }
    assert ActiveOk(c) && id.ns == m;
    hide FreeSlot, BeginTool, AppendArgs, CallsAgree, CallsOk, CallsContained;
    var freed := FreeSlot(c, key, id);
    FreeSlotContained(c, key, id, m);
    var begun := BeginTool(freed.state, m, parent, t, id);
    BeginToolContained(freed.state, m, parent, t, id);
    AppendArgsContained(begun.state, id, t.args);
    CallsContainedThen(c, freed, begun, m);
    CallsContainedThen(c, Out(begun.state, freed.events + begun.events), AppendArgs(begun.state, id, t.args), m);
  }

  lemma {:induction false} ToolFragmentsContained(c: Calls, m: Namespace, parent: ScopedId, tools: seq<ToolChunk>)
    requires CallsOk(c)
    ensures var out := ToolFragments(c, m, parent, tools); CallsContained(c, Out(out.state, out.events), m)
    decreases |tools|
  {
    if tools != [] && TargetOf(c, m, parent, tools[0]).Some? {
      var id := TargetOf(c, m, parent, tools[0]).value;
      var one := ToolFragment(c, m, parent, tools[0], id);
      ToolFragmentContained(c, m, parent, tools[0], id);
      ToolFragmentOk(c, m, parent, tools[0], id);
      ToolFragmentsContained(one.state, m, parent, tools[1..]);
      var rest := ToolFragments(one.state, m, parent, tools[1..]);
      CallsContainedThen(c, one, Out(rest.state, rest.events), m);
    }
  }

  // ---- Assistant frames ------------------------------------------------------

  lemma QuietedContained(s: State, m: Namespace)
    requires Consistent(s)
    ensures Contained(s, Quieted(s, m), m)
  {
    CloseThoughtKeysContained(s.thoughts, m, s.thoughts.order);
    hide CloseThoughts;
    ThoughtsAlone(s, CloseThoughts(s.thoughts, m), m);
  }

  lemma ClearedContained(s: State, m: Namespace)
    requires Consistent(s)
    ensures Contained(s, Cleared(s, m), m)
  {
    CloseTextContained(s.texts, m);
    TextsAlone(s, CloseText(s.texts, m), m);
  }

  lemma Unmoved(s: State, m: Namespace)
    ensures Contained(s, Out(s, []), m)
  {
  }

  lemma ReasoningPartContained(s: State, m: Namespace, c: Chunk)
    requires Consistent(s)
    ensures Contained(s, ReasoningPart(s, m, c), m)
  {
    Unmoved(s, m);
    if s.exposeReasoning && c.reasoning != "" {
      var key, cleared := MessageId(m, c.id), Cleared(s, m);
      ClearedContained(s, m);
      ThinkContained(s.thoughts, key, c.reasoning);
      var thoughts := Think(s.thoughts, key, c.reasoning);
      hide Think, Contained, Consistent;
      ThoughtsAlone(cleared.state, thoughts, m);
      ContainedThen(s, cleared, Out(cleared.state.(thoughts := thoughts.state), thoughts.events), m);
    }
  }

  lemma StalePartContained(s: State, m: Namespace, c: Chunk)
    requires Consistent(s)
    ensures Contained(s, StalePart(s, m, c), m)
  {
    hide Contained, Consistent, CloseText;
    Unmoved(s, m);
    ClearedContained(s, m);
  }

  lemma OpenTextContained(s: State, m: Namespace, id: ScopedId)
    requires Consistent(s) && id.ns == m
    ensures var ended := if m in s.texts.open then [TextEnd(s.texts.open[m])] else [];
            Contained(s, Out(s.(texts := OpenText(s.texts, m, id)), ended + [TextStart(id)]), m)
  {
  }

  lemma EmitContained(s: State, m: Namespace, e: Event)
    requires e.id.ns == m
    ensures Contained(s, Out(s, [e]), m)
  {
  }

  lemma ShowContained(s: State, m: Namespace, id: ScopedId)
    requires Consistent(s) && id.ns == m
    ensures Contained(s, Show(s, m, id), m)
  {
    var quiet := Quieted(s, m);
    QuietedContained(s, m);
    QuietedKeeps(s, m);
    var ended := if m in s.texts.open then [TextEnd(s.texts.open[m])] else [];
    OpenTextContained(quiet.state, m, id);
    hide Contained, Consistent, CloseThoughts, OpenText;
    ContainedThen(s, quiet, Out(quiet.state.(texts := OpenText(s.texts, m, id)), ended + [TextStart(id)]), m);
    assert quiet.events + (ended + [TextStart(id)]) == quiet.events + ended + [TextStart(id)];
  }

  lemma TextPartContained(s: State, m: Namespace, c: Chunk)
    requires Consistent(s)
    ensures Contained(s, TextPart(s, m, c), m)
  {
    hide Contained, Consistent, Show;
    Unmoved(s, m);
    var id := MessageId(m, c.id);
    ShowContained(s, m, id);
    EmitContained(Show(s, m, id).state, m, TextContent(id, c.text));
    ContainedThen(s, Show(s, m, id), Out(Show(s, m, id).state, [TextContent(id, c.text)]), m);
  }

  lemma AttachmentPartContained(s: State, m: Namespace, c: Chunk)
    requires Consistent(s)
    ensures Contained(s, AttachmentPart(s, m, c), m)
  {
    hide Contained, Consistent, CloseThoughts, OpenText, CloseText;
    var id, quiet := MessageId(m, c.id), Quieted(s, m);
    var attached := Attachments(id, c.attachments);
    Unmoved(s, m);
    QuietedContained(s, m);
    QuietedKeeps(s, m);
    EmitContained(quiet.state, m, attached);
    ContainedThen(s, quiet, Out(quiet.state, [attached]), m);
    var cleared := Cleared(quiet.state, m);
    ClearedContained(quiet.state, m);
    ClearedKeeps(quiet.state, m);
    ContainedThen(s, quiet, cleared, m);
    var shown := Out(cleared.state.(texts := OpenText(cleared.state.texts, m, id)), [TextStart(id)]);
    OpenTextContained(cleared.state, m, id);
    assert [] + [TextStart(id)] == [TextStart(id)];
    ContainedThen(s, Out(cleared.state, quiet.events + cleared.events), shown, m);
    EmitContained(shown.state, m, attached);
    ContainedThen(s, Out(shown.state, quiet.events + cleared.events + shown.events), Out(shown.state, [attached]), m);
  }

  lemma ToolsPartContained(s: State, m: Namespace, c: Chunk)
    requires Consistent(s)
    ensures var out := ToolsPart(s, m, c); Contained(s, Out(out.state, out.events), m)
  {
    var quiet, calls := Quieted(s, m), ToolFragments(s.calls, m, MessageId(m, c.id), c.tools);
    assert CallsOk(s.calls);
    hide Contained, Consistent, CloseThoughts, ToolFragments;
    Unmoved(s, m);
    QuietedContained(s, m);
    ToolFragmentsContained(s.calls, m, MessageId(m, c.id), c.tools);
    CallsAlone(quiet.state, Out(calls.state, calls.events), m);
    ContainedThen(s, quiet, Out(quiet.state.(calls := calls.state), calls.events), m);
  }

  lemma BeforeToolsContained(s: State, m: Namespace, c: Chunk)
    requires Consistent(s)
    ensures Contained(s, BeforeTools(s, m, c), m)
  {
    hide Contained, Consistent, ReasoningPart, StalePart, TextPart, AttachmentPart;
    var reasoning := ReasoningPart(s, m, c);
    ReasoningPartContained(s, m, c);
    ReasoningPartKeeps(s, m, c);
    var stale := StalePart(reasoning.state, m, c);
    StalePartContained(reasoning.state, m, c);
    StalePartKeeps(reasoning.state, m, c);
    ContainedThen(s, reasoning, stale, m);
    AllInSwap(s, reasoning.events, stale.events, stale.state, m);
    var text := TextPart(stale.state, m, c);
    TextPartContained(stale.state, m, c);
    TextPartKeeps(stale.state, m, c);
    ContainedThen(s, Out(stale.state, stale.events + reasoning.events), text, m);
    AttachmentPartContained(text.state, m, c);
    ContainedThen(s, Out(text.state, stale.events + reasoning.events + text.events), AttachmentPart(text.state, m, c), m);
  }

  lemma AllInSwap(s: State, a: seq<Event>, b: seq<Event>, next: State, m: Namespace)
    requires Contained(s, Out(next, a + b), m)
    ensures Contained(s, Out(next, b + a), m)
  {
    hide Agree;
    assert AllIn(a, m) by { assert forall i | 0 <= i < |a| :: a[i] == (a + b)[i]; }
    assert AllIn(b, m) by { assert forall i | 0 <= i < |b| :: b[i] == (a + b)[|a| + i]; }
  }

  lemma CloseScopeContained(s: State, m: Namespace)
    requires Consistent(s)
    ensures Contained(s, CloseScope(s, m), m)
  {
    var calls := CloseTools(s.calls, m);
    assert CallsOk(s.calls);
    CloseToolIdsContained(s.calls, m, s.calls.order);
    CloseToolsKeeps(ViewOf(s), s.calls, m);
    CallsStep(s, calls);
    hide Contained, Consistent, CloseTools, CloseThoughts, CloseText;
    CallsAlone(s, calls, m);
    var s1 := s.(calls := calls.state);
    QuietedContained(s1, m);
    QuietedKeeps(s1, m);
    ContainedThen(s, Out(s1, calls.events), Quieted(s1, m), m);
    var s2 := Quieted(s1, m).state;
    ClearedContained(s2, m);
    ContainedThen(s, Out(s2, calls.events + Quieted(s1, m).events), Cleared(s2, m), m);
  }

  lemma ProcessAiContained(s: State, m: Namespace, c: Chunk)
    requires Consistent(s)
    ensures var out := ProcessAi(s, m, c); Contained(s, Out(out.state, out.events), m)
  {
    hide Contained, Consistent, BeforeTools, ToolsPart, CloseScope;
    Unmoved(s, m);
    CloseScopeContained(s, m);
    var before := BeforeTools(s, m, c);
    BeforeToolsContained(s, m, c);
    BeforeToolsKeeps(s, m, c);
    var tools := ToolsPart(before.state, m, c);
    ToolsPartContained(before.state, m, c);
    ToolsPartKeeps(before.state, m, c);
    ContainedThen(s, before, Out(tools.state, tools.events), m);
    var last := LastPart(tools.state, m, c);
    Unmoved(tools.state, m);
    CloseScopeContained(tools.state, m);
    ContainedThen(s, Out(tools.state, before.events + tools.events), last, m);
  }

  // ---- Results and baselines -------------------------------------------------

  lemma IntroduceCallContained(c: Calls, id: ScopedId, name: string)
    ensures CallsContained(c, IntroduceCall(c, id, name), id.ns)
  {
  }

  lemma EndCallContained(c: Calls, id: ScopedId)
    requires ActiveOk(c)
    ensures CallsContained(c, EndCall(c, id), id.ns)
  {
    var closed := CloseTool(c, id);
    CloseToolContained(c, id);
    NothingContained(c, id.ns);
    MarkEndedContained(closed.state, id);
    hide CallsContained, CloseTool;
    CallsContainedThen(c, closed, Out(closed.state.(ended := closed.state.ended + {id}), [ToolEnd(id)]), id.ns);
  }

  lemma MarkEndedContained(c: Calls, id: ScopedId)
    ensures CallsContained(c, Out(c.(ended := c.ended + {id}), [ToolEnd(id)]), id.ns)
  {
  }

  lemma RecordContained(c: Calls, id: ScopedId, mark: Fingerprint, outcome: Event)
    requires outcome.id == id
    ensures CallsContained(c, Out(c.(results := c.results[id := mark], prior := c.prior - {id}), [outcome]), id.ns)
  {
  }

  lemma SettleCallContained(c: Calls, m: Namespace, r: ToolResult)
    requires ActiveOk(c)
    ensures CallsContained(c, SettleCall(c, m, r), m)
  {
    var id, mark := ToolId(m, r.callId), FingerprintOf(c, m, r);
    var begun := IntroduceCall(c, id, mark.name);
    IntroduceCallContained(c, id, mark.name);
    assert ActiveOk(begun.state);
    var ended := EndCall(begun.state, id);
    EndCallContained(begun.state, id);
    hide CallsContained, IntroduceCall, EndCall, FingerprintOf, ActiveOk;
    CallsContainedThen(c, begun, ended, m);
    var outcome := ToolOutcome(id, mark.message, r.content, r.attachments);
    RecordContained(ended.state, id, mark, outcome);
    CallsContainedThen(c, Out(ended.state, begun.events + ended.events),
                       Out(ended.state.(results := ended.state.results[id := mark], prior := ended.state.prior - {id}), [outcome]), m);
  }

  lemma PublishResultContained(s: State, m: Namespace, r: ToolResult)
    requires Consistent(s)
    ensures Contained(s, PublishResult(s, m, r), m)
  {
    assert ActiveOk(s.calls);
    hide Contained, Consistent, CloseThoughts, CloseText, SettleCall;
    var quiet := Quieted(s, m);
    QuietedContained(s, m);
    QuietedKeeps(s, m);
    var cleared := Cleared(quiet.state, m);
    ClearedContained(quiet.state, m);
    ContainedThen(s, quiet, cleared, m);
    var calls := SettleCall(s.calls, m, r);
    SettleCallContained(s.calls, m, r);
    CallsAlone(cleared.state, calls, m);
    ContainedThen(s, Out(cleared.state, quiet.events + cleared.events), Out(cleared.state.(calls := calls.state), calls.events), m);
  }

  /** Steps without events. */
  lemma SilentThen(s: State, a: State, b: State, m: Namespace)
    requires Contained(s, Out(a, []), m) && Contained(a, Out(b, []), m)
    ensures Contained(s, Out(b, []), m)
  {
    ContainedThen(s, Out(a, []), Out(b, []), m);
    var none: seq<Event> := [];
    assert none + none == none;
  }

  lemma RememberCallContained(s: State, m: Namespace, id: ScopedId, name: string, parents: map<ScopedId, ScopedId>,
                              parent: ScopedId)
    requires id.ns == m && (parents == s.baselines.parents || parents == s.baselines.parents[id := parent])
    ensures Contained(s, Out(s.(calls := RememberCall(s.calls, id, name), baselines := s.baselines.(parents := parents)), []), m)
  {
  }

  lemma {:induction false} RememberCallsContained(s: State, m: Namespace, message: string, calls: seq<ToolCall>)
    ensures Contained(s, Out(RememberCalls(s, m, message, calls), []), m)
    decreases |calls|
  {
    hide Contained, RememberCall;
    if calls == [] {
      Unmoved(s, m);
    } else if !Given(calls[0].id) {
      RememberCallsContained(s, m, message, calls[1..]);
    } else {
      var id := ToolId(m, calls[0].id.value);
      var parents := if id in s.calls.started || message == "" then s.baselines.parents
                     else s.baselines.parents[id := MessageId(m, message)];
      var next := s.(calls := RememberCall(s.calls, id, calls[0].name), baselines := s.baselines.(parents := parents));
      RememberCallContained(s, m, id, calls[0].name, parents, MessageId(m, message));
      RememberCallsContained(next, m, message, calls[1..]);
      SilentThen(s, next, RememberCalls(next, m, message, calls[1..]), m);
    }
  }

  lemma NoteContained(s: State, m: Namespace, id: string, prior: Prior)
    ensures Contained(s, Out(s.(baselines := s.baselines.(messages := s.baselines.messages[(m, id) := prior])), []), m)
  {
  }

  lemma RememberMessageContained(s: State, m: Namespace, prior: Prior)
    ensures Contained(s, Out(RememberMessage(s, m, prior), []), m)
  {
    hide Contained, RememberCalls;
    Unmoved(s, m);
    match prior
    case Other =>
    case PriorTool(r) => NoteContained(s, m, r.id.GetOr(""), prior);
    case PriorAi(a) =>
      NoteContained(s, m, a.id, prior);
      var noted := if a.id == "" then s
                   else s.(baselines := s.baselines.(messages := s.baselines.messages[(m, a.id) := prior]));
      RememberCallsContained(noted, m, a.id, a.calls);
      SilentThen(s, noted, RememberCalls(noted, m, a.id, a.calls), m);
  }

  lemma {:induction false} RememberMessagesContained(s: State, m: Namespace, messages: seq<Prior>)
    ensures Contained(s, Out(RememberMessages(s, m, messages), []), m)
    decreases |messages|
  {
    hide Contained, RememberMessage;
    if messages == [] {
      Unmoved(s, m);
    } else {
      var next := RememberMessage(s, m, messages[0]);
      RememberMessageContained(s, m, messages[0]);
      RememberMessagesContained(next, m, messages[1..]);
      SilentThen(s, next, RememberMessages(next, m, messages[1..]), m);
    }
  }

  lemma RememberBaselineContained(s: State, m: Namespace, messages: seq<Prior>)
    ensures Contained(s, Out(RememberBaseline(s, m, messages), []), m)
  {
    Unmoved(s, m);
    var noted := s.(baselines := s.baselines.(scopes := s.baselines.scopes + {m}));
    assert Contained(s, Out(noted, []), m);
    hide Contained, RememberMessages;
    RememberMessagesContained(noted, m, messages);
    SilentThen(s, noted, RememberMessages(noted, m, messages), m);
  }
}
