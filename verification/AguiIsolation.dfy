/**
 Namespaces do not interfere: what a namespace sees of an interleaved run is what it
 would have seen if its own frames had been the only ones.
 */
module AguiIsolation {
  import opened AguiBalance
  import opened AguiRuns
  import opened AguiScope
  import opened AguiStream
  import opened AguiTrace
  import opened AguiTypes
  import opened Options

  // ---- Equal views give equal events -----------------------------------------

  ghost predicate SameCalls(a: Out<Calls>, b: Out<Calls>, ns: Namespace) {
    a.events == b.events && CallsAgree(a.state, b.state, ns)
  }

  ghost predicate SameThoughts(a: Out<Thoughts>, b: Out<Thoughts>, ns: Namespace) {
    a.events == b.events && ThoughtsAgree(a.state, b.state, ns)
  }

  ghost predicate Same(a: Out<State>, b: Out<State>, ns: Namespace) {
    a.events == b.events && Agree(a.state, b.state, ns)
  }

  lemma {:induction false} EndsOfScope(r: Thoughts, ns: Namespace, keys: seq<ScopedId>)
    requires ThoughtsOk(r)
    ensures forall key | key in keys && key in r.open && key.ns == ns ::
      CloseThoughtKeys(r, ns, keys).events ==
      [ReasoningMessageEnd(ReasoningFor(key).message), ReasoningEnd(ReasoningFor(key).reasoning)]
    ensures (forall key | key in keys && key in r.open :: key.ns != ns) ==> CloseThoughtKeys(r, ns, keys).events == []
    decreases |keys|
  {
    if keys != [] {
      if keys[0] in r.open && r.open[keys[0]].ns == ns {
        var one := CloseThought(r, keys[0]);
        DropContents(r.order, keys[0]);
        EndsOfScope(one.state, ns, keys[1..]);
      } else {
        EndsOfScope(r, ns, keys[1..]);
      }
    }
  }

  lemma ScopeEnds(r: Thoughts, ns: Namespace)
    requires ThoughtsOk(r)
    ensures forall key | key in r.open && key.ns == ns ::
      CloseThoughts(r, ns).events ==
      [ReasoningMessageEnd(ReasoningFor(key).message), ReasoningEnd(ReasoningFor(key).reasoning)]
    ensures (forall key | key in r.open :: key.ns != ns) ==> CloseThoughts(r, ns).events == []
    ensures forall key | key in CloseThoughts(r, ns).state.open :: key.ns != ns
  {
    hide CloseThoughtKeys;
    EndsOfScope(r, ns, r.order);
    CloseThoughtKeysLeaves(r, ns, r.order);
  }

  lemma CloseThoughtsSame(a: Thoughts, b: Thoughts, ns: Namespace)
    requires ThoughtsOk(a) && ThoughtsOk(b) && ThoughtsAgree(a, b, ns)
    ensures SameThoughts(CloseThoughts(a, ns), CloseThoughts(b, ns), ns)
    ensures forall key | key in CloseThoughts(a, ns).state.open :: key.ns != ns
    ensures forall key | key in CloseThoughts(b, ns).state.open :: key.ns != ns
  {
    hide CloseThoughtKeys, CloseThoughts;
    ScopeEnds(a, ns);
    ScopeEnds(b, ns);
    if key :| key in a.open && key.ns == ns {
      assert SameAt(a.open, b.open, key);
    } else {
      forall key | key in b.open ensures key.ns != ns {
        assert key.ns == ns ==> SameAt(a.open, b.open, key);
      }
    }
  }

  lemma ThinkSame(a: Thoughts, b: Thoughts, key: ScopedId, delta: string)
    requires ThoughtsOk(a) && ThoughtsOk(b) && ThoughtsAgree(a, b, key.ns)
    ensures SameThoughts(Think(a, key, delta), Think(b, key, delta), key.ns)
  {
    assert SameAt(a.open, b.open, key);
    CloseThoughtsSame(a, b, key.ns);
    hide CloseThoughts;
  }

  lemma CloseToolSameOrder(a: Calls, b: Calls, id: ScopedId)
    requires SameCall(a, b, id) && Within(a.order, id.ns) == Within(b.order, id.ns)
    ensures Within(CloseTool(a, id).state.order, id.ns) == Within(CloseTool(b, id).state.order, id.ns)
    ensures CloseTool(a, id).events == CloseTool(b, id).events
  {
    WithinDrop(a.order, id, id.ns);
    WithinDrop(b.order, id, id.ns);
    hide Within, Drop, SlotOf;
  }

  lemma CloseToolSameCall(a: Calls, b: Calls, id: ScopedId, other: ScopedId)
    requires SameCall(a, b, id) && SameCall(a, b, other)
    ensures SameCall(CloseTool(a, id).state, CloseTool(b, id).state, other)
  {
    hide Drop, SlotOf;
    if id !in a.active {
      assert CloseTool(a, id).state == a && CloseTool(b, id).state == b;
    }
  }

  lemma CloseToolSameSlot(a: Calls, b: Calls, id: ScopedId, key: SlotKey)
    requires SameCall(a, b, id) && SameSlot(a, b, key)
    ensures SameSlot(CloseTool(a, id).state, CloseTool(b, id).state, key)
  {
  }

  lemma CloseToolSame(a: Calls, b: Calls, id: ScopedId)
    requires ActiveOk(a) && CallsAgree(a, b, id.ns)
    ensures SameCalls(CloseTool(a, id), CloseTool(b, id), id.ns)
  {
    assert SameCall(a, b, id);
    CloseToolSameOrder(a, b, id);
    hide CloseTool, SameCall, SameSlot, ActiveOk, Within;
    forall other: ScopedId | other.ns == id.ns ensures SameCall(CloseTool(a, id).state, CloseTool(b, id).state, other) {
      CloseToolSameCall(a, b, id, other);
    }
    forall key: SlotKey | key.ns == id.ns ensures SameSlot(CloseTool(a, id).state, CloseTool(b, id).state, key) {
      CloseToolSameSlot(a, b, id, key);
    }
  }

  /** Only the IDs of the namespace matter. */
  lemma {:induction false} CloseToolIdsWithin(c: Calls, ns: Namespace, ids: seq<ScopedId>)
    requires CallsOk(c)
    ensures CloseToolIds(c, ns, ids) == CloseToolIds(c, ns, Within(ids, ns))
    decreases |ids|
  {
    if ids != [] {
      var rest := Within(ids[1..], ns);
      assert [] + rest == rest && ([ids[0]] + rest)[1..] == rest;
      if ids[0] in c.active && c.active[ids[0]].ns == ns {
        CloseToolOk(c, ids[0]);
        CloseToolIdsWithin(CloseTool(c, ids[0]).state, ns, ids[1..]);
      } else {
        CloseToolIdsWithin(c, ns, ids[1..]);
      }
    }
  }

  lemma {:induction false} CloseToolIdsSame(a: Calls, b: Calls, ns: Namespace, ids: seq<ScopedId>)
    requires CallsOk(a) && CallsOk(b) && CallsAgree(a, b, ns)
    requires forall id | id in ids :: id.ns == ns
    ensures SameCalls(CloseToolIds(a, ns, ids), CloseToolIds(b, ns, ids), ns)
    decreases |ids|
  {
    if ids != [] {
      assert SameCall(a, b, ids[0]);
      if ids[0] in a.active {
        assert a.active[ids[0]].ns == ns && b.active[ids[0]].ns == ns;
        hide CallsAgree, CloseTool;
        CloseToolSame(a, b, ids[0]);
        CloseToolOk(a, ids[0]);
        CloseToolOk(b, ids[0]);
        CloseToolIdsSame(CloseTool(a, ids[0]).state, CloseTool(b, ids[0]).state, ns, ids[1..]);
      } else {
        hide CallsAgree;
        CloseToolIdsSame(a, b, ns, ids[1..]);
      }
    }
  }

  lemma {:induction false} WithinContents(ids: seq<ScopedId>, ns: Namespace)
    ensures forall id | id in Within(ids, ns) :: id.ns == ns
  {
    if ids != [] { WithinContents(ids[1..], ns); }
  }

  lemma CloseToolIdsOfSame(a: Calls, b: Calls, ns: Namespace, left: seq<ScopedId>, right: seq<ScopedId>)
    requires CallsOk(a) && CallsOk(b) && CallsAgree(a, b, ns) && Within(left, ns) == Within(right, ns)
    ensures SameCalls(CloseToolIds(a, ns, left), CloseToolIds(b, ns, right), ns)
  {
    hide CallsAgree, CallsOk;
    CloseToolIdsWithin(a, ns, left);
    CloseToolIdsWithin(b, ns, right);
    WithinContents(left, ns);
    CloseToolIdsSame(a, b, ns, Within(left, ns));
  }

  // ---- Tool fragments --------------------------------------------------------

  lemma TargetSame(a: Calls, b: Calls, ns: Namespace, parent: ScopedId, t: ToolChunk)
    requires CallsAgree(a, b, ns)
    ensures TargetOf(a, ns, parent, t) == TargetOf(b, ns, parent, t)
  {
    assert SameSlot(a, b, KeyOf(ns, parent, t));
  }

  lemma StartToolSameCall(a: Calls, b: Calls, key: SlotKey, tool: ActiveTool, id: ScopedId)
    requires SameCall(a, b, id)
    ensures SameCall(StartTool(a, key, tool).state, StartTool(b, key, tool).state, id)
  {
  }

  lemma StartToolSameSlot(a: Calls, b: Calls, key: SlotKey, tool: ActiveTool, k: SlotKey)
    requires SameSlot(a, b, k)
    ensures SameSlot(StartTool(a, key, tool).state, StartTool(b, key, tool).state, k)
  {
  }

  lemma StartToolSame(a: Calls, b: Calls, key: SlotKey, tool: ActiveTool)
    requires CallsAgree(a, b, tool.id.ns)
    ensures SameCalls(StartTool(a, key, tool), StartTool(b, key, tool), tool.id.ns)
  {
    var ns := tool.id.ns;
    WithinConcat(a.order, [tool.id], ns);
    WithinConcat(b.order, [tool.id], ns);
    hide Within, SameCall, SameSlot;
    forall id: ScopedId | id.ns == ns
      ensures SameCall(StartTool(a, key, tool).state, StartTool(b, key, tool).state, id)
    {
      StartToolSameCall(a, b, key, tool, id);
    }
    forall k: SlotKey | k.ns == ns
      ensures SameSlot(StartTool(a, key, tool).state, StartTool(b, key, tool).state, k)
    {
      StartToolSameSlot(a, b, key, tool, k);
    }
  }

  lemma AppendArgsSameCall(a: Calls, b: Calls, id: ScopedId, args: Option<string>, other: ScopedId)
    requires SameCall(a, b, id) && SameCall(a, b, other)
    ensures SameCall(AppendArgs(a, id, args).state, AppendArgs(b, id, args).state, other)
  {
  }

  lemma AppendArgsSame(a: Calls, b: Calls, id: ScopedId, args: Option<string>)
    requires CallsAgree(a, b, id.ns)
    ensures SameCalls(AppendArgs(a, id, args), AppendArgs(b, id, args), id.ns)
  {
    assert SameCall(a, b, id);
    var x, y := AppendArgs(a, id, args), AppendArgs(b, id, args);
    assert x.events == y.events;
    assert x.state.slots == a.slots && x.state.history == a.history && x.state.order == a.order;
    assert y.state.slots == b.slots && y.state.history == b.history && y.state.order == b.order;
    hide AppendArgs, SameCall;
    forall other: ScopedId | other.ns == id.ns ensures SameCall(x.state, y.state, other) {
      AppendArgsSameCall(a, b, id, args, other);
    }
    forall key: SlotKey | key.ns == id.ns ensures SameSlot(x.state, y.state, key) {
      assert SameSlot(a, b, key);
    }
  }

  lemma FreeSlotSame(a: Calls, b: Calls, key: SlotKey, id: ScopedId)
    requires ActiveOk(a) && CallsAgree(a, b, key.ns) && (key in a.slots ==> a.slots[key].ns == key.ns)
    ensures SameCalls(FreeSlot(a, key, id), FreeSlot(b, key, id), key.ns)
  {
    assert SameSlot(a, b, key);
    hide CallsAgree, CloseTool;
    if key in a.slots { CloseToolSame(a, b, a.slots[key]); }
  }

  lemma BeginToolSame(a: Calls, b: Calls, ns: Namespace, parent: ScopedId, t: ToolChunk, id: ScopedId)
    requires CallsAgree(a, b, ns) && id.ns == ns
    ensures SameCalls(BeginTool(a, ns, parent, t, id), BeginTool(b, ns, parent, t, id), ns)
  {
    assert SameCall(a, b, id);
    hide CallsAgree, StartTool;
    if Given(t.name) {
      StartToolSame(a, b, KeyOf(ns, parent, t), ActiveTool(id, t.name.value, parent, ns, t.index, ""));
    }
  }

  lemma ToolFragmentSame(a: Calls, b: Calls, ns: Namespace, parent: ScopedId, t: ToolChunk, id: ScopedId)
    requires CallsOk(a) && CallsAgree(a, b, ns) && TargetOf(a, ns, parent, t) == Some(id)
    ensures SameCalls(ToolFragment(a, ns, parent, t, id), ToolFragment(b, ns, parent, t, id), ns)
  {
    var key := KeyOf(ns, parent, t);
    assert id.ns == ns && (key in a.slots ==> a.slots[key].ns == ns) by { assert HistoryOk(a); }
    assert ActiveOk(a) && key.ns == ns;
    hide CallsAgree, CallsOk, FreeSlot, BeginTool, AppendArgs, KeyOf, TargetOf;
    FreeSlotSame(a, b, key, id);
    var x, y := FreeSlot(a, key, id).state, FreeSlot(b, key, id).state;
    BeginToolSame(x, y, ns, parent, t, id);
    AppendArgsSame(BeginTool(x, ns, parent, t, id).state, BeginTool(y, ns, parent, t, id).state, id, t.args);
  }

  ghost predicate SameAttempts(a: Attempt<Calls>, b: Attempt<Calls>, ns: Namespace) {
    a.events == b.events && a.ok == b.ok && CallsAgree(a.state, b.state, ns)
  }

  lemma {:induction false} ToolFragmentsSame(a: Calls, b: Calls, ns: Namespace, parent: ScopedId, tools: seq<ToolChunk>)
    requires CallsOk(a) && CallsOk(b) && CallsAgree(a, b, ns)
    ensures SameAttempts(ToolFragments(a, ns, parent, tools), ToolFragments(b, ns, parent, tools), ns)
    decreases |tools|
  {
    hide CallsAgree, CallsOk, ToolFragment, TargetOf;
    if tools != [] {
      TargetSame(a, b, ns, parent, tools[0]);
      var target := TargetOf(a, ns, parent, tools[0]);
      if target.Some? {
        ToolFragmentSame(a, b, ns, parent, tools[0], target.value);
        ToolFragmentOk(a, ns, parent, tools[0], target.value);
        ToolFragmentOk(b, ns, parent, tools[0], target.value);
        ToolFragmentsSame(ToolFragment(a, ns, parent, tools[0], target.value).state,
                          ToolFragment(b, ns, parent, tools[0], target.value).state, ns, parent, tools[1..]);
      }
    }
  }

  // ---- Assistant frames ------------------------------------------------------

  lemma CloseScopeSame(a: State, b: State, ns: Namespace)
    requires Consistent(a) && Consistent(b) && Agree(a, b, ns)
    ensures Same(CloseScope(a, ns), CloseScope(b, ns), ns)
  {
    CloseToolIdsOfSame(a.calls, b.calls, ns, a.calls.order, b.calls.order);
    CloseThoughtsSame(a.thoughts, b.thoughts, ns);
    hide CloseToolIds, CloseThoughts, CallsAgree;
  }

  lemma ReasoningPartSame(a: State, b: State, ns: Namespace, c: Chunk)
    requires Consistent(a) && Consistent(b) && Agree(a, b, ns)
    ensures Same(ReasoningPart(a, ns, c), ReasoningPart(b, ns, c), ns)
  {
    ThinkSame(a.thoughts, b.thoughts, MessageId(ns, c.id), c.reasoning);
    hide Think, CallsAgree, CallsOk;
  }

  lemma StalePartSame(a: State, b: State, ns: Namespace, c: Chunk)
    requires Agree(a, b, ns)
    ensures Same(StalePart(a, ns, c), StalePart(b, ns, c), ns)
  {
    hide CallsAgree;
  }

  lemma TextPartSame(a: State, b: State, ns: Namespace, c: Chunk)
    requires Consistent(a) && Consistent(b) && Agree(a, b, ns)
    ensures Same(TextPart(a, ns, c), TextPart(b, ns, c), ns)
  {
    CloseThoughtsSame(a.thoughts, b.thoughts, ns);
    hide CloseThoughts, CallsAgree, CallsOk;
  }

  lemma WithThoughts(a: State, b: State, x: Thoughts, y: Thoughts, ns: Namespace)
    requires Agree(a, b, ns) && ThoughtsAgree(x, y, ns)
    ensures Agree(a.(thoughts := x), b.(thoughts := y), ns)
  {
    hide ThoughtsAgree, CallsAgree, BaselinesAgree;
  }

  lemma ReopenedSame(a: State, b: State, ns: Namespace, id: ScopedId)
    requires Agree(a, b, ns)
    ensures CloseText(a.texts, ns).events == CloseText(b.texts, ns).events
    ensures Showing(a.texts, ns, id) == Showing(b.texts, ns, id)
    ensures Agree(a.(texts := OpenText(CloseText(a.texts, ns).state, ns, id)),
                  b.(texts := OpenText(CloseText(b.texts, ns).state, ns, id)), ns)
  {
    hide ThoughtsAgree, CallsAgree, BaselinesAgree, Drop;
  }

  lemma AttachmentPartSame(a: State, b: State, ns: Namespace, c: Chunk)
    requires Consistent(a) && Consistent(b) && Agree(a, b, ns)
    ensures Same(AttachmentPart(a, ns, c), AttachmentPart(b, ns, c), ns)
  {
    CloseThoughtsSame(a.thoughts, b.thoughts, ns);
    hide CloseThoughts, Consistent, OpenText, CloseText, Showing, Agree, ThoughtsAgree;
    var x, y := CloseThoughts(a.thoughts, ns).state, CloseThoughts(b.thoughts, ns).state;
    WithThoughts(a, b, x, y, ns);
    ReopenedSame(a.(thoughts := x), b.(thoughts := y), ns, MessageId(ns, c.id));
  }

  ghost predicate SameTries(a: Attempt<State>, b: Attempt<State>, ns: Namespace) {
    a.events == b.events && a.ok == b.ok && Agree(a.state, b.state, ns)
  }

  lemma ToolsPartSame(a: State, b: State, ns: Namespace, c: Chunk)
    requires Consistent(a) && Consistent(b) && Agree(a, b, ns)
    ensures SameTries(ToolsPart(a, ns, c), ToolsPart(b, ns, c), ns)
  {
    CloseThoughtsSame(a.thoughts, b.thoughts, ns);
    ToolFragmentsSame(a.calls, b.calls, ns, MessageId(ns, c.id), c.tools);
    hide CloseThoughts, ToolFragments, CallsAgree, CallsOk;
  }

  lemma BeforeToolsSame(a: State, b: State, ns: Namespace, c: Chunk)
    requires Consistent(a) && Consistent(b) && Agree(a, b, ns)
    ensures Same(BeforeTools(a, ns, c), BeforeTools(b, ns, c), ns)
  {
    hide Consistent, Agree, ReasoningPart, StalePart, TextPart, AttachmentPart;
    ReasoningPartSame(a, b, ns, c);
    ReasoningPartKeeps(a, ns, c);
    ReasoningPartKeeps(b, ns, c);
    var a1, b1 := ReasoningPart(a, ns, c).state, ReasoningPart(b, ns, c).state;
    StalePartSame(a1, b1, ns, c);
    StalePartKeeps(a1, ns, c);
    StalePartKeeps(b1, ns, c);
    var a2, b2 := StalePart(a1, ns, c).state, StalePart(b1, ns, c).state;
    TextPartSame(a2, b2, ns, c);
    TextPartKeeps(a2, ns, c);
    TextPartKeeps(b2, ns, c);
    AttachmentPartSame(TextPart(a2, ns, c).state, TextPart(b2, ns, c).state, ns, c);
  }

  lemma LastPartSame(a: State, b: State, ns: Namespace, c: Chunk)
    requires Consistent(a) && Consistent(b) && Agree(a, b, ns)
    ensures Same(LastPart(a, ns, c), LastPart(b, ns, c), ns)
  {
    hide Consistent, Agree, CloseScope;
    CloseScopeSame(a, b, ns);
  }

  lemma BusySame(a: State, b: State, ns: Namespace, c: Chunk)
    requires Consistent(a) && Consistent(b) && Agree(a, b, ns) && !IsEmpty(a, c) && !IsEmpty(b, c)
    ensures SameTries(ProcessAi(a, ns, c), ProcessAi(b, ns, c), ns)
  {
    hide Consistent, Agree, BeforeTools, ToolsPart, LastPart, IsEmpty;
    BeforeToolsSame(a, b, ns, c);
    BeforeToolsKeeps(a, ns, c);
    BeforeToolsKeeps(b, ns, c);
    var a1, b1 := BeforeTools(a, ns, c).state, BeforeTools(b, ns, c).state;
    ToolsPartSame(a1, b1, ns, c);
    ToolsPartKeeps(a1, ns, c);
    ToolsPartKeeps(b1, ns, c);
    LastPartSame(ToolsPart(a1, ns, c).state, ToolsPart(b1, ns, c).state, ns, c);
  }

  lemma ProcessAiSame(a: State, b: State, ns: Namespace, c: Chunk)
    requires Consistent(a) && Consistent(b) && Agree(a, b, ns)
    ensures SameTries(ProcessAi(a, ns, c), ProcessAi(b, ns, c), ns)
  {
    assert a.exposeReasoning == b.exposeReasoning;
    if IsEmpty(a, c) {
      hide Consistent, Agree, LastPart;
      LastPartSame(a, b, ns, c);
    } else {
      BusySame(a, b, ns, c);
    }
  }

  // ---- Validation ------------------------------------------------------------

  ghost predicate Scoped(available: map<SlotKey, ScopedId>) {
    forall key | key in available :: available[key].ns == key.ns
  }

  ghost predicate SameLookups(a: map<SlotKey, ScopedId>, b: map<SlotKey, ScopedId>, ns: Namespace) {
    Scoped(a) && Scoped(b) && forall key: SlotKey | key.ns == ns :: SameAt(a, b, key)
  }

  ghost predicate SameNames(a: map<ScopedId, string>, b: map<ScopedId, string>, ns: Namespace) {
    forall id: ScopedId | id.ns == ns :: SameAt(a, b, id)
  }

  /** A call that already has a slot elsewhere has it in its own namespace. */
  lemma SlotElsewhereSame(a: map<SlotKey, ScopedId>, b: map<SlotKey, ScopedId>, ns: Namespace, id: ScopedId, key: SlotKey)
    requires SameLookups(a, b, ns) && id.ns == ns && key.ns == ns
    ensures (forall k | k in a && a[k] == id :: k == key) <==> (forall k | k in b && b[k] == id :: k == key)
    ensures SameLookups(a[key := id], b[key := id], ns)
  {
    forall k | k in a && a[k] == id ensures k in b && b[k] == id { assert SameAt(a, b, k); }
    forall k | k in b && b[k] == id ensures k in a && a[k] == id { assert SameAt(a, b, k); }
    forall k: SlotKey | k.ns == ns ensures SameAt(a[key := id], b[key := id], k) { assert SameAt(a, b, k); }
  }

  lemma NameSame(a: map<ScopedId, string>, b: map<ScopedId, string>, ns: Namespace, id: ScopedId, name: string)
    requires SameNames(a, b, ns)
    ensures SameNames(a[id := name], b[id := name], ns)
  {
    forall other: ScopedId | other.ns == ns ensures SameAt(a[id := name], b[id := name], other) {
      assert SameAt(a, b, other);
    }
  }

  lemma {:induction false} FragmentsAcceptedSame(a: Calls, b: Calls, ns: Namespace, parent: ScopedId, tools: seq<ToolChunk>,
                                                 aa: map<SlotKey, ScopedId>, ab: map<SlotKey, ScopedId>,
                                                 na: map<ScopedId, string>, nb: map<ScopedId, string>)
    requires CallsAgree(a, b, ns) && SameLookups(aa, ab, ns) && SameNames(na, nb, ns)
    ensures FragmentsAccepted(a, ns, parent, tools, aa, na) == FragmentsAccepted(b, ns, parent, tools, ab, nb)
    decreases |tools|
  {
    if tools != [] {
      var t, key := tools[0], KeyOf(ns, parent, tools[0]);
      assert SameAt(aa, ab, key);
      if Given(t.id) && Given(t.name) {
        var id := ToolId(ns, t.id.value);
        assert SameCall(a, b, id) && SameAt(na, nb, id);
        SlotElsewhereSame(aa, ab, ns, id, key);
        NameSame(na, nb, ns, id, t.name.value);
        hide CallsAgree, SameLookups, SameNames;
        FragmentsAcceptedSame(a, b, ns, parent, tools[1..],
                              if id in a.ended then aa else aa[key := id], if id in b.ended then ab else ab[key := id],
                              na[id := t.name.value], nb[id := t.name.value]);
      } else if t.id.None? && t.name.None? {
        FragmentsAcceptedSame(a, b, ns, parent, tools[1..], aa, ab, na, nb);
      }
    }
  }

  lemma ParentsAgreeSame(a: Baselines, b: Baselines, ns: Namespace, parent: ScopedId, tools: seq<ToolChunk>)
    requires BaselinesAgree(a, b, ns)
    ensures ParentsAgree(a, ns, parent, tools) == ParentsAgree(b, ns, parent, tools)
  {
    forall t | t in tools && Given(t.id) ensures SameAt(a.parents, b.parents, ToolId(ns, t.id.value)) {
    }
  }

  lemma AcceptedSame(a: State, b: State, ns: Namespace, c: Chunk)
    requires Consistent(a) && Consistent(b) && Agree(a, b, ns)
    ensures Accepted(a, ns, c) == Accepted(b, ns, c)
  {
    ParentsAgreeSame(a.baselines, b.baselines, ns, MessageId(ns, c.id), c.tools);
    assert HistoryOk(a.calls) && HistoryOk(b.calls);
    assert SameLookups(a.calls.history, b.calls.history, ns) by {
      forall key: SlotKey | key.ns == ns ensures SameAt(a.calls.history, b.calls.history, key) {
        assert SameSlot(a.calls, b.calls, key);
      }
    }
    assert SameNames(a.calls.names, b.calls.names, ns) by {
      forall id: ScopedId | id.ns == ns ensures SameAt(a.calls.names, b.calls.names, id) {
        assert SameCall(a.calls, b.calls, id);
      }
    }
    FragmentsAcceptedSame(a.calls, b.calls, ns, MessageId(ns, c.id), c.tools, a.calls.history, b.calls.history,
                          a.calls.names, b.calls.names);
  }

  // ---- Results ---------------------------------------------------------------

  lemma FingerprintSame(a: Calls, b: Calls, ns: Namespace, r: ToolResult)
    requires CallsAgree(a, b, ns)
    ensures FingerprintOf(a, ns, r) == FingerprintOf(b, ns, r)
    ensures NameConflicts(a, ToolId(ns, r.callId), r) == NameConflicts(b, ToolId(ns, r.callId), r)
  {
    assert SameCall(a, b, ToolId(ns, r.callId));
  }

  lemma IntroduceCallSameCall(a: Calls, b: Calls, id: ScopedId, name: string, other: ScopedId)
    requires SameCall(a, b, id) && SameCall(a, b, other)
    ensures SameCall(IntroduceCall(a, id, name).state, IntroduceCall(b, id, name).state, other)
  {
  }

  lemma IntroduceCallSame(a: Calls, b: Calls, id: ScopedId, name: string)
    requires CallsAgree(a, b, id.ns)
    ensures SameCalls(IntroduceCall(a, id, name), IntroduceCall(b, id, name), id.ns)
  {
    assert SameCall(a, b, id);
    var x, y := IntroduceCall(a, id, name), IntroduceCall(b, id, name);
    assert x.events == y.events;
    assert x.state.slots == a.slots && x.state.history == a.history && x.state.order == a.order;
    assert y.state.slots == b.slots && y.state.history == b.history && y.state.order == b.order;
    hide IntroduceCall, SameCall;
    forall other: ScopedId | other.ns == id.ns ensures SameCall(x.state, y.state, other) {
      IntroduceCallSameCall(a, b, id, name, other);
    }
    forall key: SlotKey | key.ns == id.ns ensures SameSlot(x.state, y.state, key) {
      assert SameSlot(a, b, key);
    }
  }

  lemma MarkSame(a: Calls, b: Calls, ns: Namespace, id: ScopedId)
    requires CallsAgree(a, b, ns)
    ensures CallsAgree(a.(ended := a.ended + {id}), b.(ended := b.ended + {id}), ns)
  {
    var x, y := a.(ended := a.ended + {id}), b.(ended := b.ended + {id});
    forall other: ScopedId | other.ns == ns ensures SameCall(x, y, other) {
      assert SameCall(a, b, other);
    }
    forall key: SlotKey | key.ns == ns ensures SameSlot(x, y, key) {
      assert SameSlot(a, b, key);
    }
  }

  lemma EndCallSame(a: Calls, b: Calls, id: ScopedId)
    requires ActiveOk(a) && CallsAgree(a, b, id.ns)
    ensures SameCalls(EndCall(a, id), EndCall(b, id), id.ns)
  {
    assert SameCall(a, b, id);
    CloseToolSame(a, b, id);
    var x, y := CloseTool(a, id), CloseTool(b, id);
    assert SameCall(x.state, y.state, id);
    hide CallsAgree, CloseTool, ActiveOk;
    MarkSame(x.state, y.state, id.ns, id);
  }

  lemma RecordSame(a: Calls, b: Calls, id: ScopedId, mark: Fingerprint)
    requires CallsAgree(a, b, id.ns)
    ensures CallsAgree(a.(results := a.results[id := mark], prior := a.prior - {id}),
                       b.(results := b.results[id := mark], prior := b.prior - {id}), id.ns)
  {
    var x := a.(results := a.results[id := mark], prior := a.prior - {id});
    var y := b.(results := b.results[id := mark], prior := b.prior - {id});
    forall other: ScopedId | other.ns == id.ns ensures SameCall(x, y, other) {
      assert SameCall(a, b, other);
    }
    forall key: SlotKey | key.ns == id.ns ensures SameSlot(x, y, key) {
      assert SameSlot(a, b, key);
    }
  }

  lemma SettleCallSame(a: Calls, b: Calls, ns: Namespace, r: ToolResult)
    requires ActiveOk(a) && CallsAgree(a, b, ns)
    ensures SameCalls(SettleCall(a, ns, r), SettleCall(b, ns, r), ns)
  {
    var id, mark := ToolId(ns, r.callId), FingerprintOf(a, ns, r);
    FingerprintSame(a, b, ns, r);
    assert ActiveOk(IntroduceCall(a, id, mark.name).state);
    hide CallsAgree, ActiveOk, IntroduceCall, EndCall, FingerprintOf;
    IntroduceCallSame(a, b, id, mark.name);
    var x, y := IntroduceCall(a, id, mark.name).state, IntroduceCall(b, id, mark.name).state;
    EndCallSame(x, y, id);
    RecordSame(EndCall(x, id).state, EndCall(y, id).state, id, mark);
  }

  lemma PublishResultSame(a: State, b: State, ns: Namespace, r: ToolResult)
    requires Consistent(a) && Consistent(b) && Agree(a, b, ns)
    ensures Same(PublishResult(a, ns, r), PublishResult(b, ns, r), ns)
  {
    CloseThoughtsSame(a.thoughts, b.thoughts, ns);
    SettleCallSame(a.calls, b.calls, ns, r);
    hide CloseThoughts, SettleCall, CallsAgree, CallsOk;
  }

  // ---- Baselines -------------------------------------------------------------

  lemma RememberCallSameCall(a: Calls, b: Calls, id: ScopedId, name: string, other: ScopedId)
    requires SameCall(a, b, id) && SameCall(a, b, other)
    ensures SameCall(RememberCall(a, id, name), RememberCall(b, id, name), other)
  {
  }

  lemma RememberCallSame(a: Calls, b: Calls, id: ScopedId, name: string)
    requires CallsAgree(a, b, id.ns)
    ensures CallsAgree(RememberCall(a, id, name), RememberCall(b, id, name), id.ns)
  {
    assert SameCall(a, b, id);
    var x, y := RememberCall(a, id, name), RememberCall(b, id, name);
    assert x.slots == a.slots && x.history == a.history && x.order == a.order;
    assert y.slots == b.slots && y.history == b.history && y.order == b.order;
    hide RememberCall, SameCall;
    forall other: ScopedId | other.ns == id.ns ensures SameCall(x, y, other) {
      RememberCallSameCall(a, b, id, name, other);
    }
    forall key: SlotKey | key.ns == id.ns ensures SameSlot(x, y, key) {
      assert SameSlot(a, b, key);
    }
  }

  lemma ParentSame(a: Baselines, b: Baselines, ns: Namespace, id: ScopedId, parent: ScopedId)
    requires BaselinesAgree(a, b, ns)
    ensures BaselinesAgree(a.(parents := a.parents[id := parent]), b.(parents := b.parents[id := parent]), ns)
  {
    forall other: ScopedId | other.ns == ns ensures SameAt(a.parents[id := parent], b.parents[id := parent], other) {
      assert SameAt(a.parents, b.parents, other);
    }
    forall raw: string ensures SameAt(a.messages, b.messages, (ns, raw)) {
    }
  }

  lemma {:induction false} RememberCallsSame(a: State, b: State, ns: Namespace, message: string, calls: seq<ToolCall>)
    requires Agree(a, b, ns)
    ensures Agree(RememberCalls(a, ns, message, calls), RememberCalls(b, ns, message, calls), ns)
    decreases |calls|
  {
    if calls != [] {
      if !Given(calls[0].id) {
        RememberCallsSame(a, b, ns, message, calls[1..]);
      } else {
        var id := ToolId(ns, calls[0].id.value);
        assert SameCall(a.calls, b.calls, id);
        RememberCallSame(a.calls, b.calls, id, calls[0].name);
        ParentSame(a.baselines, b.baselines, ns, id, MessageId(ns, message));
        hide CallsAgree, BaselinesAgree, RememberCall;
        var pa := if id in a.calls.started || message == "" then a.baselines.parents
                  else a.baselines.parents[id := MessageId(ns, message)];
        var pb := if id in b.calls.started || message == "" then b.baselines.parents
                  else b.baselines.parents[id := MessageId(ns, message)];
        RememberCallsSame(a.(calls := RememberCall(a.calls, id, calls[0].name), baselines := a.baselines.(parents := pa)),
                          b.(calls := RememberCall(b.calls, id, calls[0].name), baselines := b.baselines.(parents := pb)),
                          ns, message, calls[1..]);
      }
    }
  }

  lemma NoteSame(a: Baselines, b: Baselines, ns: Namespace, raw: string, prior: Prior)
    requires BaselinesAgree(a, b, ns)
    ensures BaselinesAgree(a.(messages := a.messages[(ns, raw) := prior]), b.(messages := b.messages[(ns, raw) := prior]), ns)
  {
    forall id: string ensures SameAt(a.messages[(ns, raw) := prior], b.messages[(ns, raw) := prior], (ns, id)) {
      assert SameAt(a.messages, b.messages, (ns, id));
    }
    forall id: ScopedId | id.ns == ns ensures SameAt(a.parents, b.parents, id) {
    }
  }

  lemma RememberMessageSame(a: State, b: State, ns: Namespace, prior: Prior)
    requires Agree(a, b, ns)
    ensures Agree(RememberMessage(a, ns, prior), RememberMessage(b, ns, prior), ns)
  {
    hide CallsAgree, BaselinesAgree, ThoughtsAgree, RememberCalls;
    match prior
    case Other =>
    case PriorTool(r) => NoteSame(a.baselines, b.baselines, ns, r.id.GetOr(""), prior);
    case PriorAi(m) =>
      NoteSame(a.baselines, b.baselines, ns, m.id, prior);
      if m.id == "" {
        RememberCallsSame(a, b, ns, m.id, m.calls);
      } else {
        RememberCallsSame(a.(baselines := a.baselines.(messages := a.baselines.messages[(ns, m.id) := prior])),
                          b.(baselines := b.baselines.(messages := b.baselines.messages[(ns, m.id) := prior])),
                          ns, m.id, m.calls);
      }
  }

  lemma {:induction false} RememberMessagesSame(a: State, b: State, ns: Namespace, messages: seq<Prior>)
    requires Agree(a, b, ns)
    ensures Agree(RememberMessages(a, ns, messages), RememberMessages(b, ns, messages), ns)
    decreases |messages|
  {
    hide Agree, RememberMessage;
    if messages != [] {
      RememberMessageSame(a, b, ns, messages[0]);
      RememberMessagesSame(RememberMessage(a, ns, messages[0]), RememberMessage(b, ns, messages[0]), ns, messages[1..]);
    }
  }

  lemma RememberBaselineSame(a: State, b: State, ns: Namespace, messages: seq<Prior>)
    requires Agree(a, b, ns)
    ensures Agree(RememberBaseline(a, ns, messages), RememberBaseline(b, ns, messages), ns)
  {
    var x := a.(baselines := a.baselines.(scopes := a.baselines.scopes + {ns}));
    var y := b.(baselines := b.baselines.(scopes := b.baselines.scopes + {ns}));
    assert BaselinesAgree(x.baselines, y.baselines, ns) by {
      forall id: string ensures SameAt(a.baselines.messages, b.baselines.messages, (ns, id)) {
      }
    }
    hide CallsAgree, BaselinesAgree, ThoughtsAgree, RememberMessages;
    assert ns in a.baselines.scopes <==> ns in b.baselines.scopes by { ScopesSame(a.baselines, b.baselines, ns); }
    RememberMessagesSame(x, y, ns, messages);
  }

  lemma ScopesSame(a: Baselines, b: Baselines, ns: Namespace)
    requires BaselinesAgree(a, b, ns)
    ensures ns in a.scopes <==> ns in b.scopes
  {
  }

  // ---- Closing everything, seen from one namespace ---------------------------

  lemma {:induction false} ThoughtScopesOf(r: Thoughts, ns: Namespace, scopes: seq<Namespace>)
    requires ThoughtsOk(r)
    requires forall key | key in r.open && key.ns == ns :: ns in scopes
    ensures Of(CloseThoughtScopes(r, scopes).events, ns) == CloseThoughts(r, ns).events
    decreases |scopes|
  {
    ScopeEnds(r, ns);
    hide CloseThoughts;
    if scopes != [] {
      var m := scopes[0];
      var one := CloseThoughts(r, m);
      OneScopeLess(r, m, ns);
      ThoughtScopesOf(one.state, ns, scopes[1..]);
      OfConcat(one.events, CloseThoughtScopes(one.state, scopes[1..]).events, ns);
    }
  }

  /** Closing the reasoning of `m`, as `ns` sees it. */
  lemma OneScopeLess(r: Thoughts, m: Namespace, ns: Namespace)
    requires ThoughtsOk(r)
    ensures var one := CloseThoughts(r, m);
            && ThoughtsOk(one.state)
            && (forall key | key in one.state.open :: key in r.open && key.ns != m)
            && Of(one.events, ns) + CloseThoughts(one.state, ns).events == CloseThoughts(r, ns).events
  {
    var one := CloseThoughts(r, m);
    CloseThoughtKeysContained(r, m, r.order);
    CloseThoughtsKeeps(View(map[], Reasoning({}, {}, {}), map[]), r, m);
    OfAllIn(one.events, m, ns);
    ScopeEnds(one.state, ns);
    hide CloseThoughts;
    if m != ns { CloseThoughtsSame(r, one.state, ns); }
  }

  lemma {:induction false} TextsOf(t: Texts, ns: Namespace, scopes: seq<Namespace>)
    requires TextsOk(t) && (ns in t.open ==> ns in scopes)
    ensures Of(CloseTexts(t, scopes).events, ns) == CloseText(t, ns).events
    decreases |scopes|
  {
    if scopes != [] {
      var one := CloseText(t, scopes[0]);
      CloseTextKeeps(View(map[], Reasoning({}, {}, {}), map[]), t, scopes[0]);
      TextsOf(one.state, ns, scopes[1..]);
      OfConcat(one.events, CloseTexts(one.state, scopes[1..]).events, ns);
      CloseTextContained(t, scopes[0]);
      OfAllIn(one.events, scopes[0], ns);
    }
  }

  lemma {:induction false} ToolsOf(c: Calls, ns: Namespace, ids: seq<ScopedId>)
    requires CallsOk(c)
    ensures Of(CloseEachTool(c, ids).events, ns) == CloseToolIds(c, ns, ids).events
    ensures CallsAgree(CloseEachTool(c, ids).state, CloseToolIds(c, ns, ids).state, ns)
    decreases |ids|
  {
    if ids != [] {
      var one := CloseTool(c, ids[0]);
      CloseToolOk(c, ids[0]);
      CloseToolContained(c, ids[0]);
      OfAllIn(one.events, ids[0].ns, ns);
      ToolsOf(one.state, ns, ids[1..]);
      OfConcat(one.events, CloseEachTool(one.state, ids[1..]).events, ns);
      assert ids[0] in c.active ==> c.active[ids[0]].ns == ids[0].ns by { assert ActiveOk(c); }
      assert ids[0] !in c.active ==> one == Out(c, []);
      var none: seq<Event> := [];
      hide CallsAgree, CallsOk, CloseTool;
      if ids[0].ns != ns {
        assert CallsAgree(c, one.state, ns);
        CloseToolIdsOfSame(c, one.state, ns, ids[1..], ids[1..]);
        CallsAgreeSteps(c, one.state, c, ns) by { CallsAgreeBack(c, one.state, ns); }
        CallsAgreeBack(CloseToolIds(c, ns, ids[1..]).state, CloseToolIds(one.state, ns, ids[1..]).state, ns);
        CallsAgreeSteps(CloseEachTool(one.state, ids[1..]).state, CloseToolIds(one.state, ns, ids[1..]).state,
                        CloseToolIds(c, ns, ids[1..]).state, ns);
      }
    }
  }

  lemma CallsAgreeBack(a: Calls, b: Calls, ns: Namespace)
    requires CallsAgree(a, b, ns)
    ensures CallsAgree(b, a, ns)
  {
    CallsAgreeSteps(a, b, b, ns) by {
      forall id: ScopedId | id.ns == ns ensures SameCall(b, b, id) {}
      forall key: SlotKey | key.ns == ns ensures SameSlot(b, b, key) {}
    }
  }

  lemma CloseAllOf(s: State, ns: Namespace)
    requires Consistent(s)
    ensures Of(CloseAll(s).events, ns) ==
            CloseThoughts(s.thoughts, ns).events + CloseText(s.texts, ns).events + CloseTools(s.calls, ns).events
  {
    var thoughts := CloseAllThoughts(s.thoughts);
    var texts := CloseTexts(s.texts, s.texts.order);
    var calls := CloseEachTool(s.calls, s.calls.order);
    ScopesContents(s.thoughts, s.thoughts.order, []);
    ThoughtScopesOf(s.thoughts, ns, ScopesOf(s.thoughts, s.thoughts.order, []));
    TextsOf(s.texts, ns, s.texts.order);
    ToolsOf(s.calls, ns, s.calls.order);
    OfConcat(thoughts.events + texts.events, calls.events, ns);
    OfConcat(thoughts.events, texts.events, ns);
  }

  lemma CloseAllSame(a: State, b: State, ns: Namespace)
    requires Consistent(a) && Consistent(b) && Agree(a, b, ns)
    ensures Of(CloseAll(a).events, ns) == Of(CloseAll(b).events, ns)
    ensures Agree(CloseAll(a).state, CloseAll(b).state, ns)
  {
    CloseAllOf(a, ns);
    CloseAllOf(b, ns);
    CloseThoughtsSame(a.thoughts, b.thoughts, ns);
    assert CloseText(a.texts, ns).events == CloseText(b.texts, ns).events by { assert SameAt(a.texts.open, b.texts.open, ns); }
    CloseToolIdsOfSame(a.calls, b.calls, ns, a.calls.order, b.calls.order);
    CloseAllCallsSame(a.calls, b.calls, ns);
    CloseAllKeeps(a);
    CloseAllKeeps(b);
    hide CallsAgree, Consistent, BaselinesAgree, Of;
  }

  lemma CloseAllCallsSame(a: Calls, b: Calls, ns: Namespace)
    requires CallsOk(a) && CallsOk(b) && CallsAgree(a, b, ns)
    ensures CallsAgree(CloseEachTool(a, a.order).state, CloseEachTool(b, b.order).state, ns)
  {
    ToolsOf(a, ns, a.order);
    ToolsOf(b, ns, b.order);
    assert Within(a.order, ns) == Within(b.order, ns);
    hide CallsAgree, CallsOk;
    CloseToolIdsOfSame(a, b, ns, a.order, b.order);
    var x, y := CloseToolIds(a, ns, a.order).state, CloseToolIds(b, ns, b.order).state;
    CallsAgreeBack(CloseEachTool(b, b.order).state, y, ns);
    CallsAgreeSteps(x, y, CloseEachTool(b, b.order).state, ns);
    CallsAgreeSteps(CloseEachTool(a, a.order).state, x, CloseEachTool(b, b.order).state, ns);
  }

  // ---- Runs ------------------------------------------------------------------

  /** Frames that reach a namespace: its own, and the ends that reach all of them. */
  predicate Reaches(frame: Frame, ns: Namespace) {
    frame.Finish? || frame.ns == ns || (frame.Values? && frame.ns == [])
  }

  function Only(frames: seq<Frame>, ns: Namespace): seq<Frame>
    decreases |frames|
  {
    if frames == [] then []
    else (if Reaches(frames[0], ns) then [frames[0]] else []) + Only(frames[1..], ns)
  }

  ghost predicate SameStep(a: State, b: State, frame: Frame, ns: Namespace) {
    && Of(Delivered(a, frame), ns) == Of(Delivered(b, frame), ns)
    && Agree(After(a, frame), After(b, frame), ns)
  }

  lemma KnownSame(a: Baselines, b: Baselines, ns: Namespace, id: string, prior: Prior)
    requires BaselinesAgree(a, b, ns)
    ensures IsBaseline(a, ns, id, prior) == IsBaseline(b, ns, id, prior)
  {
    assert SameAt(a.messages, b.messages, (ns, id));
  }

  lemma OwnValuesSame(a: State, b: State, ns: Namespace, messages: seq<Prior>)
    requires Agree(a, b, ns) && ns != []
    ensures SameStep(a, b, Values(ns, messages), ns)
  {
    hide Agree, RememberBaseline;
    RememberBaselineSame(a, b, ns, messages);
  }

  lemma OwnChunkSame(a: State, b: State, ns: Namespace, c: Chunk)
    requires Consistent(a) && Consistent(b) && Agree(a, b, ns)
    ensures SameStep(a, b, AiChunk(ns, c), ns)
  {
    hide Consistent, Agree, ProcessAi, Accepted;
    AcceptedSame(a, b, ns, c);
    ProcessAiSame(a, b, ns, c);
  }

  ghost predicate SameOutcome(x: Outcome, y: Outcome, ns: Namespace) {
    match x
    case Done(state, events) => y.Done? && events == y.events && Agree(state, y.state, ns)
    case Rejected => y.Rejected?
    case Lost(state, _) => y.Lost? && Agree(state, y.state, ns)
  }

  lemma AttemptSame(x: Attempt<State>, y: Attempt<State>, ns: Namespace)
    requires SameTries(x, y, ns)
    ensures SameOutcome(OfAttempt(x), OfAttempt(y), ns)
  {
    hide Agree;
  }

  lemma OutcomeSameStep(a: State, b: State, frame: Frame, ns: Namespace)
    requires Agree(a, b, ns) && SameOutcome(Process(a, frame), Process(b, frame), ns)
    ensures SameStep(a, b, frame, ns)
  {
    hide Process, Agree, Of;
  }

  lemma OwnMessageSame(a: State, b: State, ns: Namespace, m: Complete)
    requires Consistent(a) && Consistent(b) && Agree(a, b, ns)
    ensures SameStep(a, b, AiMessage(ns, m), ns)
  {
    hide SameStep, Consistent, ProcessAi, Accepted, ToChunk, IsBaseline, OfAttempt, BaselinesAgree;
    KnownSame(a.baselines, b.baselines, ns, m.id, PriorAi(m));
    hide Agree;
    var c := ToChunk(m);
    AcceptedSame(a, b, ns, c);
    ProcessAiSame(a, b, ns, c);
    AttemptSame(ProcessAi(a, ns, c), ProcessAi(b, ns, c), ns);
    OutcomeSameStep(a, b, AiMessage(ns, m), ns);
  }

  lemma ResultChecksSame(a: State, b: State, ns: Namespace, r: ToolResult)
    requires Agree(a, b, ns)
    ensures var id := ToolId(ns, r.callId);
            && SameAt(a.calls.results, b.calls.results, id)
            && NameConflicts(a.calls, id, r) == NameConflicts(b.calls, id, r)
            && FingerprintOf(a.calls, ns, r) == FingerprintOf(b.calls, ns, r)
            && (r.id.Some? ==> IsBaseline(a.baselines, ns, r.id.value, PriorTool(r)) ==
                               IsBaseline(b.baselines, ns, r.id.value, PriorTool(r)))
  {
    hide NameConflicts, FingerprintOf, IsBaseline;
    assert SameCall(a.calls, b.calls, ToolId(ns, r.callId));
    KnownSame(a.baselines, b.baselines, ns, r.id.GetOr(""), PriorTool(r));
    FingerprintSame(a.calls, b.calls, ns, r);
  }

  lemma OwnResultSame(a: State, b: State, ns: Namespace, r: ToolResult)
    requires Consistent(a) && Consistent(b) && Agree(a, b, ns)
    ensures SameStep(a, b, ToolMessage(ns, r), ns)
  {
    hide SameStep, Consistent, Agree, PublishResult, FingerprintOf, NameConflicts, IsBaseline;
    ResultChecksSame(a, b, ns, r);
    PublishResultSame(a, b, ns, r);
    OutcomeSameStep(a, b, ToolMessage(ns, r), ns);
  }

  lemma OwnFrameSame(a: State, b: State, frame: Frame, ns: Namespace)
    requires Consistent(a) && Consistent(b) && Agree(a, b, ns)
    requires !frame.Finish? && frame.ns == ns && !(frame.Values? && ns == [])
    ensures SameStep(a, b, frame, ns)
  {
    hide *;
    match frame
    case Values(_, messages) => OwnValuesSame(a, b, ns, messages);
    case AiChunk(_, c) => OwnChunkSame(a, b, ns, c);
    case AiMessage(_, m) => OwnMessageSame(a, b, ns, m);
    case ToolMessage(_, r) => OwnResultSame(a, b, ns, r);
  }

  lemma FinishSame(a: State, b: State, ns: Namespace)
    requires Consistent(a) && Consistent(b) && Agree(a, b, ns)
    ensures SameStep(a, b, Finish, ns)
  {
    hide Consistent, Agree, CloseAll, Of;
    CloseAllSame(a, b, ns);
  }

  lemma BroadcastSame(a: State, b: State, frame: Frame, ns: Namespace)
    requires Consistent(a) && Consistent(b) && Agree(a, b, ns)
    requires frame.Finish? || (frame.Values? && frame.ns == [])
    ensures SameStep(a, b, frame, ns)
  {
    if frame.Finish? {
      FinishSame(a, b, ns);
    } else {
      hide Consistent, Agree, CloseAll, RememberBaseline, Of;
      RootValuesSame(a, b, frame.messages, ns);
      RememberBaselineLearns(a, [], frame.messages);
      RememberBaselineLearns(b, [], frame.messages);
      CloseAllSame(RememberBaseline(a, [], frame.messages), RememberBaseline(b, [], frame.messages), ns);
    }
  }

  lemma RootValuesSame(a: State, b: State, messages: seq<Prior>, ns: Namespace)
    requires Agree(a, b, ns)
    ensures Agree(RememberBaseline(a, [], messages), RememberBaseline(b, [], messages), ns)
  {
    hide Agree, RememberBaseline;
    if ns == [] {
      RememberBaselineSame(a, b, ns, messages);
    } else {
      RememberBaselineContained(a, [], messages);
      RememberBaselineContained(b, [], messages);
      var x, y := RememberBaseline(a, [], messages), RememberBaseline(b, [], messages);
      assert Agree(a, x, ns) && Agree(b, y, ns);
      AgreeSteps(a, x, x, ns) by { AgreeSelf(x, ns); }
      AgreeSteps(x, a, b, ns);
      AgreeSteps(x, b, y, ns);
    }
  }

  lemma AgreeSelf(s: State, ns: Namespace)
    ensures Agree(s, s, ns)
  {
    Unmoved(s, ns + ["x"]);
    assert ns != ns + ["x"];
  }

  /** A frame of another namespace goes unnoticed. */
  lemma OtherFrameUnseen(s: State, frame: Frame, ns: Namespace)
    requires Consistent(s) && !Reaches(frame, ns)
    ensures Of(Delivered(s, frame), ns) == [] && Agree(s, After(s, frame), ns)
  {
    var m := frame.ns;
    assert Contained(s, Out(After(s, frame), Delivered(s, frame)), m) by {
      hide Contained, Consistent, ProcessAi, RememberBaseline, PublishResult, Accepted, ToChunk, NameConflicts, FingerprintOf;
      Unmoved(s, m);
      match frame
      case Values(_, messages) => RememberBaselineContained(s, m, messages);
      case AiChunk(_, c) => AiContained(s, m, c);
      case AiMessage(_, a) => AiContained(s, m, ToChunk(a));
      case ToolMessage(_, r) => PublishResultContained(s, m, r);
    }
    OfAllIn(Delivered(s, frame), m, ns);
  }

  lemma AiContained(s: State, m: Namespace, c: Chunk)
    requires Consistent(s)
    ensures var out := ProcessAi(s, m, c); Contained(s, Out(out.state, out.events), m) && Contained(s, Out(out.state, []), m)
  {
    ProcessAiContained(s, m, c);
    hide ProcessAi, Agree;
  }

  /**
   The events of one namespace, in any interleaving, are those of a run that holds only
   the frames that reach it.
   */
  lemma {:induction false} NamespacesDoNotInterfere(a: State, b: State, frames: seq<Frame>, ns: Namespace)
    requires Consistent(a) && Consistent(b) && Agree(a, b, ns)
    ensures Of(Trace(a, frames), ns) == Of(Trace(b, Only(frames, ns)), ns)
    ensures Agree(RunState(a, frames), RunState(b, Only(frames, ns)), ns)
    decreases |frames|
  {
    hide Consistent, Agree, After, Delivered;
    if frames != [] {
      var frame, rest := frames[0], frames[1..];
      ProcessKeepsConsistent(a, frame);
      OfConcat(Delivered(a, frame), Trace(After(a, frame), rest), ns);
      if Reaches(frame, ns) {
        if frame.Finish? || (frame.Values? && frame.ns == []) {
          BroadcastSame(a, b, frame, ns);
        } else {
          OwnFrameSame(a, b, frame, ns);
        }
        ProcessKeepsConsistent(b, frame);
        NamespacesDoNotInterfere(After(a, frame), After(b, frame), rest, ns);
        assert ([frame] + Only(rest, ns))[1..] == Only(rest, ns);
        OfConcat(Delivered(b, frame), Trace(After(b, frame), Only(rest, ns)), ns);
      } else {
        OtherFrameUnseen(a, frame, ns);
        AgreeSelf(After(a, frame), ns);
        AgreeSteps(a, After(a, frame), After(a, frame), ns);
        AgreeSteps(After(a, frame), a, b, ns);
        NamespacesDoNotInterfere(After(a, frame), b, rest, ns);
        assert [] + Only(rest, ns) == Only(rest, ns);
      }
    }
  }

  /** The same for a whole run of a new adapter. */
  lemma InterleavingDoesNotMatter(prior: set<ScopedId>, exposeReasoning: bool, frames: seq<Frame>, ns: Namespace)
    requires forall id | id in prior :: id.kind == ToolKind
    ensures var s := Fresh(prior, exposeReasoning);
            Of(Trace(s, frames), ns) == Of(Trace(s, Only(frames, ns)), ns)
  {
    var s := Fresh(prior, exposeReasoning);
    FreshIsConsistent(prior, exposeReasoning);
    AgreeSelf(s, ns);
    hide Fresh;
    NamespacesDoNotInterfere(s, s, frames, ns);
  }
}
