/**
 How a provider cuts a message into fragments does not matter.

 A stream of fragments of one message and the complete message in a single frame assemble
 to the same text, reasoning and arguments. Fragments may give the position of their call,
 and may then leave its ID out once it is known, or give no position and name their call
 each time; a stream may mix both.
 */
module AguiSplit {
  import opened AguiBalance
  import opened AguiContent
  import opened AguiLoss
  import opened AguiRuns
  import opened AguiStream
  import opened AguiTypes
  import opened Options

  // ---- Cutting a message up --------------------------------------------------

  /** A fragment of call number `t.index`: it either names that call or leaves ID and name out. */
  predicate IsPiece(m: Complete, t: ToolChunk) {
    && t.index.Some? && 0 <= t.index.value < |m.calls|
    && ((t.id.None? && t.name.None?)
        || (t.id == m.calls[t.index.value].id && t.name == Some(m.calls[t.index.value].name)))
  }

  /** A fragment without a position that names one of the calls. */
  predicate IsNamed(m: Complete, t: ToolChunk) {
    t.index.None? && t.id.Some? && exists i :: 0 <= i < |m.calls| && t.id == m.calls[i].id && t.name == Some(m.calls[i].name)
  }

  predicate IsPart(m: Complete, t: ToolChunk) { IsPiece(m, t) || IsNamed(m, t) }

  function IdAt(m: Complete, ns: Namespace, i: int): ScopedId
    requires 0 <= i < |m.calls|
  {
    ToolId(ns, m.calls[i].id.GetOr(""))
  }

  function SlotAt(m: Complete, ns: Namespace, i: int): SlotKey {
    SlotKey(ns, MessageId(ns, m.id), Indexed(i))
  }

  function OwnSlot(m: Complete, ns: Namespace, id: ScopedId): SlotKey { SlotKey(ns, MessageId(ns, m.id), Identified(id)) }

  /** The call that a fragment belongs to. */
  function CallOf(m: Complete, ns: Namespace, t: ToolChunk): ScopedId {
    if t.index.Some? && 0 <= t.index.value < |m.calls| then IdAt(m, ns, t.index.value) else ToolId(ns, t.id.GetOr(""))
  }

  /** The arguments that the fragments of one call add up to. */
  function ArgsOf(m: Complete, ns: Namespace, tools: seq<ToolChunk>, x: ScopedId): string
    decreases |tools|
  {
    if tools == [] then ""
    else (if CallOf(m, ns, tools[0]) == x then tools[0].args.GetOr("") else "") + ArgsOf(m, ns, tools[1..], x)
  }

  function AllTools(chunks: seq<Chunk>): seq<ToolChunk> {
    if chunks == [] then [] else chunks[0].tools + AllTools(chunks[1..])
  }

  function AllText(chunks: seq<Chunk>): string {
    if chunks == [] then "" else chunks[0].text + AllText(chunks[1..])
  }

  function AllReasoning(chunks: seq<Chunk>): string {
    if chunks == [] then "" else chunks[0].reasoning + AllReasoning(chunks[1..])
  }

  /**
   The fragments belong to the message, only the last one says so, and together they are the message; what they
   bring for calls that are over is of no consequence.
   */
  ghost predicate CutsUp(m: Complete, ns: Namespace, over: set<ScopedId>, chunks: seq<Chunk>) {
    && chunks != []
    && (forall i | 0 <= i < |chunks| :: chunks[i].id == m.id && (chunks[i].last <==> i == |chunks| - 1))
    && AllText(chunks) == m.text && AllReasoning(chunks) == m.reasoning
    && (forall t | t in AllTools(chunks) :: IsPart(m, t))
    && (forall x | x !in over :: ArgsOf(m, ns, AllTools(chunks), x) == ArgsOf(m, ns, ToChunk(m).tools, x))
  }

  function Frames(ns: Namespace, chunks: seq<Chunk>): seq<Frame> {
    seq(|chunks|, i requires 0 <= i < |chunks| => AiChunk(ns, chunks[i]))
  }

  // ---- What acceptance of the complete message tells -------------------------

  /** Call number `i` may start in its slot, or is over and has none. */
  ghost predicate ReadyAt(c: Calls, available: map<SlotKey, ScopedId>, names: map<ScopedId, string>,
                          m: Complete, ns: Namespace, i: int)
    requires 0 <= i < |m.calls|
  {
    var id, key := IdAt(m, ns, i), SlotAt(m, ns, i);
    && Given(m.calls[i].id) && m.calls[i].name != ""
    && (id in c.ended ==> id in c.prior && key !in available)
    && (forall k | k in available && available[k] == id :: k == key)
    && (key in available ==> available[key] == id)
    && (id in names ==> names[id] == m.calls[i].name)
  }

  ghost predicate Ready(c: Calls, available: map<SlotKey, ScopedId>, names: map<ScopedId, string>, m: Complete, ns: Namespace) {
    forall i | 0 <= i < |m.calls| :: ReadyAt(c, available, names, m, ns, i)
  }

  /** Two calls with one ID have one name, and are over. */
  ghost predicate AlikeAt(over: set<ScopedId>, m: Complete, ns: Namespace, i: int, j: int)
    requires 0 <= i < |m.calls| && 0 <= j < |m.calls|
  {
    i != j && IdAt(m, ns, i) == IdAt(m, ns, j) ==> m.calls[i].name == m.calls[j].name && IdAt(m, ns, i) in over
  }

  ghost predicate Coherent(over: set<ScopedId>, m: Complete, ns: Namespace) {
    forall i, j | 0 <= i < |m.calls| && 0 <= j < |m.calls| :: AlikeAt(over, m, ns, i, j)
  }

  ghost predicate NonePrior(c: Calls, available: map<SlotKey, ScopedId>) {
    forall k | k in available :: available[k] !in c.prior
  }

  lemma {:induction false} AcceptedIsReady(c: Calls, ns: Namespace, m: Complete, p: nat,
                                           available: map<SlotKey, ScopedId>, names: map<ScopedId, string>)
    requires p <= |m.calls| && c.prior <= c.ended && NonePrior(c, available)
    requires FragmentsAccepted(c, ns, MessageId(ns, m.id), ToChunk(m).tools[p..], available, names)
    ensures forall i | p <= i < |m.calls| :: ReadyAt(c, available, names, m, ns, i)
    ensures forall i, j | p <= i < |m.calls| && p <= j < |m.calls| :: AlikeAt(c.ended, m, ns, i, j)
    decreases |m.calls| - p
  {
    if p < |m.calls| {
      var tools := ToChunk(m).tools[p..];
      var id, key, name := IdAt(m, ns, p), SlotAt(m, ns, p), m.calls[p].name;
      assert tools[0] == ToolChunk(Some(p), m.calls[p].id, Some(name), Some(m.calls[p].args));
      assert tools[1..] == ToChunk(m).tools[p + 1..];
      var next := if id in c.ended then available else available[key := id];
      AcceptedIsReady(c, ns, m, p + 1, next, names[id := name]);
      forall i | p <= i < |m.calls| ensures ReadyAt(c, available, names, m, ns, i) {
        if i > p { ReadyEarlier(c, available, names, next, m, ns, p, i); }
      }
      forall i | p < i < |m.calls| ensures AlikeAt(c.ended, m, ns, i, p) && AlikeAt(c.ended, m, ns, p, i) {
        assert ReadyAt(c, next, names[id := name], m, ns, i);
        assert SlotAt(m, ns, i) != key && (id !in c.ended ==> key in next && next[key] == id);
      }
    }
  }

  lemma ReadyEarlier(c: Calls, available: map<SlotKey, ScopedId>, names: map<ScopedId, string>, next: map<SlotKey, ScopedId>,
                     m: Complete, ns: Namespace, p: int, i: int)
    requires 0 <= p < i < |m.calls|
    requires ReadyAt(c, available, names, m, ns, p)
    requires next == if IdAt(m, ns, p) in c.ended then available else available[SlotAt(m, ns, p) := IdAt(m, ns, p)]
    requires ReadyAt(c, next, names[IdAt(m, ns, p) := m.calls[p].name], m, ns, i)
    ensures ReadyAt(c, available, names, m, ns, i)
  {
    forall k | k in available ensures k in next && next[k] == available[k] {
    }
  }

  /** The calls have IDs and names, what is over was over before, and names agree. */
  ghost predicate Callable(c: Calls, m: Complete, ns: Namespace) {
    && (forall i | 0 <= i < |m.calls| ::
          Given(m.calls[i].id) && m.calls[i].name != "" && (IdAt(m, ns, i) in c.ended ==> IdAt(m, ns, i) in c.prior))
    && Coherent(c.ended, m, ns) && NamesOk(c.names, m, ns)
  }

  ghost predicate NamesOk(names: map<ScopedId, string>, m: Complete, ns: Namespace) {
    forall i | 0 <= i < |m.calls| && IdAt(m, ns, i) in names :: names[IdAt(m, ns, i)] == m.calls[i].name
  }

  /** A numbered slot of the message holds the call of its number, and that call no other slot. */
  ghost predicate SlotsMean(history: map<SlotKey, ScopedId>, m: Complete, ns: Namespace) {
    forall i | 0 <= i < |m.calls| && SlotAt(m, ns, i) in history ::
      history[SlotAt(m, ns, i)] == IdAt(m, ns, i) && forall k | k in history && history[k] == IdAt(m, ns, i) :: k == SlotAt(m, ns, i)
  }

  ghost predicate ParentsOk(b: Baselines, m: Complete, ns: Namespace) {
    forall i | 0 <= i < |m.calls| && IdAt(m, ns, i) in b.parents :: b.parents[IdAt(m, ns, i)] == MessageId(ns, m.id)
  }

  /** What every frame of the stream finds. */
  ghost predicate Streaming(s: State, m: Complete, ns: Namespace) {
    Consistent(s) && Callable(s.calls, m, ns) && SlotsMean(s.calls.history, m, ns) && ParentsOk(s.baselines, m, ns)
  }

  lemma AcceptedIsStreaming(s: State, ns: Namespace, m: Complete)
    requires Consistent(s) && Accepted(s, ns, ToChunk(m))
    ensures Streaming(s, m, ns) && forall t | t in ToChunk(m).tools :: IsPart(m, t) && Given(t.id)
  {
    assert ToChunk(m).tools[0..] == ToChunk(m).tools;
    assert LivesOk(s.calls) && HistoryOk(s.calls);
    AcceptedIsReady(s.calls, ns, m, 0, s.calls.history, s.calls.names);
    forall i | 0 <= i < |m.calls|
      ensures Given(m.calls[i].id) && m.calls[i].name != "" && (IdAt(m, ns, i) in s.calls.ended ==> IdAt(m, ns, i) in s.calls.prior)
      ensures IdAt(m, ns, i) in s.calls.names ==> s.calls.names[IdAt(m, ns, i)] == m.calls[i].name
    {
      assert ReadyAt(s.calls, s.calls.history, s.calls.names, m, ns, i);
    }
    forall i | 0 <= i < |m.calls| && SlotAt(m, ns, i) in s.calls.history
      ensures s.calls.history[SlotAt(m, ns, i)] == IdAt(m, ns, i)
      ensures forall k | k in s.calls.history && s.calls.history[k] == IdAt(m, ns, i) :: k == SlotAt(m, ns, i)
    {
      assert ReadyAt(s.calls, s.calls.history, s.calls.names, m, ns, i);
    }
    forall i | 0 <= i < |m.calls| && IdAt(m, ns, i) in s.baselines.parents
      ensures s.baselines.parents[IdAt(m, ns, i)] == MessageId(ns, m.id)
    {
      assert ToChunk(m).tools[i] in ToChunk(m).tools && Given(m.calls[i].id);
    }
  }

  // ---- Slots of fragments ----------------------------------------------------

  /** The slot is free or holds the call, and the call has no other one. */
  ghost predicate HasRoom(history: map<SlotKey, ScopedId>, id: ScopedId, key: SlotKey) {
    (forall k | k in history && history[k] == id :: k == key) && (key in history ==> history[key] == id)
  }

  /** Every fragment with an ID finds room for its call, and every one without finds its slot taken. */
  ghost predicate Goes(history: map<SlotKey, ScopedId>, over: set<ScopedId>, ns: Namespace, parent: ScopedId, tools: seq<ToolChunk>)
    decreases |tools|
  {
    tools == [] ||
    (&& (if Given(tools[0].id) then HasRoom(history, ToolId(ns, tools[0].id.value), KeyOf(ns, parent, tools[0]))
         else KeyOf(ns, parent, tools[0]) in history)
     && Goes(Noted(history, over, ns, parent, tools[0]), over, ns, parent, tools[1..]))
  }

  lemma {:induction false} GoesConcat(history: map<SlotKey, ScopedId>, over: set<ScopedId>, ns: Namespace, parent: ScopedId,
                                      a: seq<ToolChunk>, b: seq<ToolChunk>)
    ensures Goes(history, over, ns, parent, a + b) <==>
            Goes(history, over, ns, parent, a) && Goes(SlotsAfter(history, over, ns, parent, a), over, ns, parent, b)
    decreases |a|
  {
    if a == [] {
      assert a + b == b;
    } else {
      hide HasRoom, Noted;
      assert (a + b)[0] == a[0] && (a + b)[1..] == a[1..] + b;
      GoesConcat(Noted(history, over, ns, parent, a[0]), over, ns, parent, a[1..], b);
    }
  }

  /** A fragment with an ID names its call. */
  lemma NamedPart(c: Calls, m: Complete, ns: Namespace, t: ToolChunk) returns (i: int)
    requires Callable(c, m, ns) && IsPart(m, t) && t.id.Some?
    ensures 0 <= i < |m.calls| && CallOf(m, ns, t) == IdAt(m, ns, i) && t.name == Some(m.calls[i].name)
    ensures Given(t.id) && Given(t.name) && CallOf(m, ns, t) == ToolId(ns, t.id.value)
    ensures CallOf(m, ns, t) in c.ended ==> CallOf(m, ns, t) in c.prior
    ensures KeyOf(ns, MessageId(ns, m.id), t) ==
            if t.index.Some? then SlotAt(m, ns, t.index.value) else OwnSlot(m, ns, CallOf(m, ns, t))
  {
    if t.index.Some? {
      i := t.index.value;
    } else {
      i :| 0 <= i < |m.calls| && t.id == m.calls[i].id && t.name == Some(m.calls[i].name);
    }
  }

  /** A fragment without one has a position. */
  lemma UnnamedPart(c: Calls, m: Complete, ns: Namespace, t: ToolChunk)
    requires Callable(c, m, ns) && IsPart(m, t) && t.id.None?
    ensures t.index.Some? && 0 <= t.index.value < |m.calls| && t.name.None? && !Given(t.id)
    ensures CallOf(m, ns, t) == IdAt(m, ns, t.index.value) && KeyOf(ns, MessageId(ns, m.id), t) == SlotAt(m, ns, t.index.value)
  {
  }

  lemma NamesStay(over: set<ScopedId>, m: Complete, ns: Namespace, i: int, names: map<ScopedId, string>)
    requires 0 <= i < |m.calls| && Coherent(over, m, ns) && NamesOk(names, m, ns)
    ensures NamesOk(names[IdAt(m, ns, i) := m.calls[i].name], m, ns)
    ensures IdAt(m, ns, i) in names ==> names[IdAt(m, ns, i)] == m.calls[i].name
  {
    forall j | 0 <= j < |m.calls| ensures IdAt(m, ns, j) == IdAt(m, ns, i) ==> m.calls[j].name == m.calls[i].name {
      assert AlikeAt(over, m, ns, i, j);
    }
  }

  lemma {:induction false} PartsAccepted(c: Calls, ns: Namespace, m: Complete, tools: seq<ToolChunk>,
                                         available: map<SlotKey, ScopedId>, names: map<ScopedId, string>)
    requires Callable(c, m, ns) && NamesOk(names, m, ns) && forall t | t in tools :: IsPart(m, t)
    ensures FragmentsAccepted(c, ns, MessageId(ns, m.id), tools, available, names) <==>
            Goes(available, c.ended, ns, MessageId(ns, m.id), tools)
    decreases |tools|
  {
    if tools != [] {
      var parent, t := MessageId(ns, m.id), tools[0];
      assert t in tools && forall r | r in tools[1..] :: r in tools;
      var next := Noted(available, c.ended, ns, parent, t);
      if t.id.Some? {
        var i := NamedPart(c, m, ns, t);
        NamesStay(c.ended, m, ns, i, names);
        hide Callable, NamesOk, IsPart;
        PartsAccepted(c, ns, m, tools[1..], next, names[CallOf(m, ns, t) := t.name.value]);
      } else {
        UnnamedPart(c, m, ns, t);
        hide Callable, NamesOk, IsPart;
        PartsAccepted(c, ns, m, tools[1..], next, names);
      }
    }
  }

  // ---- Slots stay meaningful -------------------------------------------------

  lemma NotedMeans(history: map<SlotKey, ScopedId>, c: Calls, m: Complete, ns: Namespace, t: ToolChunk)
    requires SlotsMean(history, m, ns) && Callable(c, m, ns) && IsPart(m, t)
    requires Given(t.id) ==> HasRoom(history, ToolId(ns, t.id.value), KeyOf(ns, MessageId(ns, m.id), t))
    ensures SlotsMean(Noted(history, c.ended, ns, MessageId(ns, m.id), t), m, ns)
  {
    if Given(t.id) && ToolId(ns, t.id.value) !in c.ended {
      var p := NamedPart(c, m, ns, t);
      var id, key := CallOf(m, ns, t), KeyOf(ns, MessageId(ns, m.id), t);
      var next := history[key := id];
      hide Callable, IsPart;
      forall i | 0 <= i < |m.calls| && SlotAt(m, ns, i) in next
        ensures next[SlotAt(m, ns, i)] == IdAt(m, ns, i)
        ensures forall k | k in next && next[k] == IdAt(m, ns, i) :: k == SlotAt(m, ns, i)
      {
        if SlotAt(m, ns, i) == key { assert IdAt(m, ns, i) == id; }
      }
    }
  }

  lemma {:induction false} SlotsStayMeaningful(history: map<SlotKey, ScopedId>, c: Calls, m: Complete, ns: Namespace, tools: seq<ToolChunk>)
    requires SlotsMean(history, m, ns) && Callable(c, m, ns) && forall t | t in tools :: IsPart(m, t)
    requires Goes(history, c.ended, ns, MessageId(ns, m.id), tools)
    ensures SlotsMean(SlotsAfter(history, c.ended, ns, MessageId(ns, m.id), tools), m, ns)
    decreases |tools|
  {
    if tools != [] {
      assert tools[0] in tools && forall r | r in tools[1..] :: r in tools;
      NotedMeans(history, c, m, ns, tools[0]);
      hide SlotsMean, Callable, IsPart, HasRoom, Noted;
      SlotsStayMeaningful(Noted(history, c.ended, ns, MessageId(ns, m.id), tools[0]), c, m, ns, tools[1..]);
    }
  }

  /** A slot of the message belongs to a call that is still open. */
  lemma SlotStillOpen(c: Calls, m: Complete, ns: Namespace, i: int)
    requires CallsOk(c) && Callable(c, m, ns) && SlotsMean(c.history, m, ns) && 0 <= i < |m.calls|
    ensures SlotAt(m, ns, i) in c.history ==> SlotAt(m, ns, i) in c.slots
  {
    var id, key := IdAt(m, ns, i), SlotAt(m, ns, i);
    assert HistoryOk(c) && LivesOk(c) && SlotsInvert(c.active, c.slots);
    if key in c.history {
      assert c.history[key] == id;
      assert id in c.active;
      assert SlotOf(c.active[id]) in c.history && c.history[SlotOf(c.active[id])] == id;
    }
  }

  lemma PartsAreNotLate(c: Calls, m: Complete, ns: Namespace, tools: seq<ToolChunk>)
    requires CallsOk(c) && Callable(c, m, ns) && SlotsMean(c.history, m, ns) && forall t | t in tools :: IsPart(m, t)
    ensures !HasLate(c, ns, MessageId(ns, m.id), tools)
  {
    forall t | t in tools ensures !IsLate(c, ns, MessageId(ns, m.id), t) {
      if t.id.Some? {
        var i := NamedPart(c, m, ns, t);
      } else {
        UnnamedPart(c, m, ns, t);
        SlotStillOpen(c, m, ns, t.index.value);
      }
    }
  }

  // ---- Names between frames --------------------------------------------------

  lemma FreeSlotNames(c: Calls, key: SlotKey, id: ScopedId)
    ensures FreeSlot(c, key, id).state.names == c.names && FreeSlot(c, key, id).state.prior == c.prior
  {
    hide Drop, SlotOf;
  }

  lemma BeginToolNames(c: Calls, ns: Namespace, parent: ScopedId, t: ToolChunk, id: ScopedId)
    ensures var next := BeginTool(c, ns, parent, t, id).state;
            next.prior == c.prior
            && (next.names == c.names || (Given(t.name) && next.names == c.names[id := t.name.value]))
  {
    hide KeyOf;
  }

  lemma FragmentNames(c: Calls, ns: Namespace, parent: ScopedId, t: ToolChunk, id: ScopedId)
    ensures var next := ToolFragment(c, ns, parent, t, id).state;
            next.prior == c.prior
            && (next.names == c.names || (Given(t.name) && next.names == c.names[id := t.name.value]))
  {
    FreeSlotNames(c, KeyOf(ns, parent, t), id);
    BeginToolNames(FreeSlot(c, KeyOf(ns, parent, t), id).state, ns, parent, t, id);
    hide FreeSlot, BeginTool, KeyOf;
  }

  lemma PartNames(c: Calls, ns: Namespace, m: Complete, t: ToolChunk, id: ScopedId)
    requires Callable(c, m, ns) && IsPart(m, t) && TargetOf(c, ns, MessageId(ns, m.id), t) == Some(id)
    ensures var next := ToolFragment(c, ns, MessageId(ns, m.id), t, id).state;
            NamesOk(next.names, m, ns) && next.prior == c.prior
  {
    FragmentNames(c, ns, MessageId(ns, m.id), t, id);
    if t.id.Some? {
      var i := NamedPart(c, m, ns, t);
      assert id == IdAt(m, ns, i);
      hide ToolFragment, TargetOf, IsPart, Given;
      NamesStay(c.ended, m, ns, i, c.names);
    } else {
      UnnamedPart(c, m, ns, t);
    }
  }

  lemma CallableLater(c: Calls, next: Calls, m: Complete, ns: Namespace)
    requires Callable(c, m, ns) && next.ended == c.ended && next.prior == c.prior && NamesOk(next.names, m, ns)
    ensures Callable(next, m, ns)
  {
    hide NamesOk, Coherent;
  }

  lemma {:induction false} PartsNames(c: Calls, ns: Namespace, m: Complete, tools: seq<ToolChunk>)
    requires CallsOk(c) && Callable(c, m, ns) && SlotsMean(c.history, m, ns) && forall t | t in tools :: IsPart(m, t)
    requires Goes(c.history, c.ended, ns, MessageId(ns, m.id), tools)
    ensures var next := ToolFragments(c, ns, MessageId(ns, m.id), tools).state;
            NamesOk(next.names, m, ns) && next.prior == c.prior
    decreases |tools|
  {
    var parent := MessageId(ns, m.id);
    if tools != [] {
      var t := tools[0];
      assert t in tools && forall r | r in tools[1..] :: r in tools;
      PartsAreNotLate(c, m, ns, [t]);
      PartsAccepted(c, ns, m, tools, c.history, c.names);
      OnePart(c, ns, m, tools);
      var id := TargetOf(c, ns, parent, t).value;
      var next := ToolFragment(c, ns, parent, t, id).state;
      PartNames(c, ns, m, t, id);
      CallableLater(c, next, m, ns);
      NotedMeans(c.history, c, m, ns, t);
      hide CallsOk, Callable, SlotsMean, NamesOk, IsPart, ToolFragment, TargetOf, HasRoom, Noted;
      PartsNames(next, ns, m, tools[1..]);
    }
  }

  /** The first of the fragments finds its call, and notes its slot. */
  lemma OnePart(c: Calls, ns: Namespace, m: Complete, tools: seq<ToolChunk>)
    requires CallsOk(c) && Callable(c, m, ns) && SlotsMean(c.history, m, ns) && tools != [] && IsPart(m, tools[0])
    requires Goes(c.history, c.ended, ns, MessageId(ns, m.id), tools)
    requires FragmentsAccepted(c, ns, MessageId(ns, m.id), tools, c.history, c.names)
    ensures var t, parent := tools[0], MessageId(ns, m.id);
            && TargetOf(c, ns, parent, t).Some?
            && var next := ToolFragment(c, ns, parent, t, TargetOf(c, ns, parent, t).value).state;
            && CallsOk(next) && next.ended == c.ended && next.history == Noted(c.history, c.ended, ns, parent, t)
  {
    var t, parent := tools[0], MessageId(ns, m.id);
    if t.id.Some? {
      var i := NamedPart(c, m, ns, t);
      NamedFragment(c, ns, parent, t, CallOf(m, ns, t));
    } else {
      UnnamedPart(c, m, ns, t);
      SlotStillOpen(c, m, ns, t.index.value);
      UnnamedFragment(c, ns, parent, t);
    }
    ToolFragmentOk(c, ns, parent, t, TargetOf(c, ns, parent, t).value);
    hide CallsOk, Callable, SlotsMean, FragmentsAccepted, ToolFragment, Goes, HasRoom;
  }

  // ---- One frame of fragments ------------------------------------------------

  lemma PartsParents(c: Calls, b: Baselines, m: Complete, ns: Namespace, tools: seq<ToolChunk>)
    requires Callable(c, m, ns) && ParentsOk(b, m, ns) && forall t | t in tools :: IsPart(m, t)
    ensures ParentsAgree(b, ns, MessageId(ns, m.id), tools)
  {
    forall t | t in tools && Given(t.id) && ToolId(ns, t.id.value) in b.parents
      ensures b.parents[ToolId(ns, t.id.value)] == MessageId(ns, m.id)
    {
      var i := NamedPart(c, m, ns, t);
    }
  }

  lemma BeforeToolsKeepsRest(s: State, ns: Namespace, c: Chunk)
    ensures var next := BeforeTools(s, ns, c).state;
            next.calls == s.calls && next.baselines == s.baselines && next.exposeReasoning == s.exposeReasoning
  {
  }

  /** A fragment that is not the last changes the calls only by its tool fragments. */
  lemma UnfinishedChunk(s: State, ns: Namespace, c: Chunk)
    requires !c.last && ProcessAi(s, ns, c).ok
    ensures var next := ProcessAi(s, ns, c).state;
            && next.baselines == s.baselines && next.exposeReasoning == s.exposeReasoning
            && next.calls == ToolFragments(s.calls, ns, MessageId(ns, c.id), c.tools).state
  {
    BeforeToolsKeepsRest(s, ns, c);
    hide BeforeTools, CloseThoughts;
  }

  lemma PartsGoThrough(c: Calls, ns: Namespace, m: Complete, tools: seq<ToolChunk>)
    requires CallsOk(c) && Callable(c, m, ns) && SlotsMean(c.history, m, ns) && forall t | t in tools :: IsPart(m, t)
    ensures FragmentsAccepted(c, ns, MessageId(ns, m.id), tools, c.history, c.names) <==>
            Goes(c.history, c.ended, ns, MessageId(ns, m.id), tools)
    ensures !HasLate(c, ns, MessageId(ns, m.id), tools)
    ensures Goes(c.history, c.ended, ns, MessageId(ns, m.id), tools) ==>
      var next := ToolFragments(c, ns, MessageId(ns, m.id), tools).state;
      && next.ended == c.ended && Callable(next, m, ns) && SlotsMean(next.history, m, ns)
      && next.history == SlotsAfter(c.history, c.ended, ns, MessageId(ns, m.id), tools)
  {
    var parent := MessageId(ns, m.id);
    assert NamesOk(c.names, m, ns);
    hide CallsOk, Callable, SlotsMean, IsPart, HasLate, ToolFragments, FragmentsAccepted, NamesOk, Goes;
    PartsAreNotLate(c, m, ns, tools);
    PartsAccepted(c, ns, m, tools, c.history, c.names);
    if Goes(c.history, c.ended, ns, parent, tools) {
      ToolFragmentsHeard(c, ns, parent, tools, c.names, ArgsChannel, parent);
      PartsNames(c, ns, m, tools);
      SlotsStayMeaningful(c.history, c, m, ns, tools);
      CallableLater(c, ToolFragments(c, ns, parent, tools).state, m, ns);
    }
  }

  lemma ChunkOfParts(s: State, ns: Namespace, m: Complete, c: Chunk)
    requires Streaming(s, m, ns) && c.id == m.id != "" && forall t | t in c.tools :: IsPart(m, t)
    ensures Process(s, AiChunk(ns, c)).Done? <==> Goes(s.calls.history, s.calls.ended, ns, MessageId(ns, m.id), c.tools)
    ensures Process(s, AiChunk(ns, c)).Done? && !c.last ==>
      var next := After(s, AiChunk(ns, c));
      && Streaming(next, m, ns)
      && next.calls.ended == s.calls.ended && next.exposeReasoning == s.exposeReasoning
      && next.calls.history == SlotsAfter(s.calls.history, s.calls.ended, ns, MessageId(ns, m.id), c.tools)
    ensures Process(s, AiChunk(ns, c)).Done? && c.last ==> Idle(After(s, AiChunk(ns, c)), ns)
  {
    assert CallsOk(s.calls);
    hide CallsOk, Callable, SlotsMean, ParentsAgree, FragmentsAccepted, HasLate, Goes, IsPart, ProcessAi, Idle, ParentsOk;
    PartsParents(s.calls, s.baselines, m, ns, c.tools);
    PartsGoThrough(s.calls, ns, m, c.tools);
    assert Accepted(s, ns, c) <==> Goes(s.calls.history, s.calls.ended, ns, MessageId(ns, m.id), c.tools);
    ProcessAiKeeps(s, ns, c);
    hide Consistent;
    if Accepted(s, ns, c) {
      ChunkLostIffLate(s, ns, c);
      if !c.last { UnfinishedChunk(s, ns, c); }
    }
  }

  // ---- Whole streams ---------------------------------------------------------

  predicate AllDone(s: State, frames: seq<Frame>)
    decreases |frames|
  {
    frames == [] || (Process(s, frames[0]).Done? && AllDone(After(s, frames[0]), frames[1..]))
  }

  lemma {:induction false} RoutedConcat(history: map<SlotKey, ScopedId>, over: set<ScopedId>, ns: Namespace, parent: ScopedId,
                                        a: seq<ToolChunk>, b: seq<ToolChunk>, x: ScopedId)
    ensures Routed(history, over, ns, parent, a + b, x) ==
            Routed(history, over, ns, parent, a, x) + Routed(SlotsAfter(history, over, ns, parent, a), over, ns, parent, b, x)
    decreases |a|
  {
    if a == [] {
      assert a + b == b;
    } else {
      assert (a + b)[0] == a[0] && (a + b)[1..] == a[1..] + b;
      RoutedConcat(Noted(history, over, ns, parent, a[0]), over, ns, parent, a[1..], b, x);
    }
  }

  /** What the fragments bring together. */
  function BroughtTogether(s: State, ns: Namespace, id: string, chunks: seq<Chunk>, ch: Channel, x: ScopedId): string {
    if ch == ArgsChannel then Routed(s.calls.history, s.calls.ended, ns, MessageId(ns, id), AllTools(chunks), x)
    else Said(s.exposeReasoning, ns, Chunk(id, AllText(chunks), [], AllReasoning(chunks), [], true), ch, x)
  }

  lemma BroughtLast(s: State, ns: Namespace, c: Chunk, ch: Channel, x: ScopedId)
    ensures BroughtTogether(s, ns, c.id, [c], ch, x) == Brought(s, ns, c, ch, x)
  {
    var chunks := [c];
    assert chunks[1..] == [];
    assert AllTools(chunks) == c.tools + [] == c.tools;
    assert AllText(chunks) == c.text + "" == c.text && AllReasoning(chunks) == c.reasoning + "" == c.reasoning;
  }

  lemma BroughtStep(s: State, next: State, ns: Namespace, id: string, chunks: seq<Chunk>, ch: Channel, x: ScopedId)
    requires chunks != [] && chunks[0].id == id
    requires next.calls.ended == s.calls.ended && next.exposeReasoning == s.exposeReasoning
    requires next.calls.history == SlotsAfter(s.calls.history, s.calls.ended, ns, MessageId(ns, id), chunks[0].tools)
    ensures BroughtTogether(s, ns, id, chunks, ch, x) ==
            Brought(s, ns, chunks[0], ch, x) + BroughtTogether(next, ns, id, chunks[1..], ch, x)
  {
    RoutedConcat(s.calls.history, s.calls.ended, ns, MessageId(ns, id), chunks[0].tools, AllTools(chunks[1..]), x);
  }

  /** One frame of a run, and the rest of it. */
  lemma RunStep(s: State, frame: Frame, frames: seq<Frame>, rest: seq<Frame>, ch: Channel, x: ScopedId)
    requires frames != [] && frames[0] == frame && frames[1..] == rest
    ensures AllDone(s, frames) <==> Process(s, frame).Done? && AllDone(After(s, frame), rest)
    ensures RunState(s, frames) == RunState(After(s, frame), rest)
    ensures Heard(Trace(s, frames), ch, x) == Heard(Delivered(s, frame), ch, x) + Heard(Trace(After(s, frame), rest), ch, x)
  {
    hide Process, After, Delivered, Heard;
    HeardConcat(Delivered(s, frame), Trace(After(s, frame), rest), ch, x);
  }

  lemma ChunkHeard(s: State, ns: Namespace, c: Chunk, ch: Channel, x: ScopedId)
    requires Consistent(s)
    ensures Process(s, AiChunk(ns, c)).Done? ==> Heard(Delivered(s, AiChunk(ns, c)), ch, x) == Brought(s, ns, c, ch, x)
  {
    hide Consistent, Process, Delivered, Brought;
    FrameHeard(s, AiChunk(ns, c), ch, x);
  }

  lemma FramesStep(ns: Namespace, chunks: seq<Chunk>)
    requires chunks != []
    ensures Frames(ns, chunks) != [] && Frames(ns, chunks)[0] == AiChunk(ns, chunks[0])
    ensures Frames(ns, chunks)[1..] == Frames(ns, chunks[1..])
  {
  }

  lemma EmptyRun(s: State, ns: Namespace, ch: Channel, x: ScopedId)
    ensures AllDone(s, Frames(ns, [])) && RunState(s, Frames(ns, [])) == s && Heard(Trace(s, Frames(ns, [])), ch, x) == ""
  {
    assert Frames(ns, []) == [];
  }

  lemma {:induction false} PartsRun(s: State, ns: Namespace, m: Complete, chunks: seq<Chunk>, ch: Channel, x: ScopedId)
    requires Streaming(s, m, ns) && m.id != "" && chunks != []
    requires forall i | 0 <= i < |chunks| :: chunks[i].id == m.id && (chunks[i].last <==> i == |chunks| - 1)
    requires forall t | t in AllTools(chunks) :: IsPart(m, t)
    ensures AllDone(s, Frames(ns, chunks)) <==> Goes(s.calls.history, s.calls.ended, ns, MessageId(ns, m.id), AllTools(chunks))
    ensures AllDone(s, Frames(ns, chunks)) ==>
      && Heard(Trace(s, Frames(ns, chunks)), ch, x) == BroughtTogether(s, ns, m.id, chunks, ch, x)
      && Idle(RunState(s, Frames(ns, chunks)), ns)
    decreases |chunks|
  {
    assert Consistent(s);
    assert AllTools(chunks) == chunks[0].tools + AllTools(chunks[1..]);
    hide *;
    var c, rest := chunks[0], chunks[1..];
    var frame, parent := AiChunk(ns, c), MessageId(ns, m.id);
    assert forall t :: t in c.tools + AllTools(rest) <==> t in c.tools || t in AllTools(rest);
    GoesConcat(s.calls.history, s.calls.ended, ns, parent, c.tools, AllTools(rest));
    ChunkOfParts(s, ns, m, c);
    ChunkHeard(s, ns, c, ch, x);
    FramesStep(ns, chunks);
    RunStep(s, frame, Frames(ns, chunks), Frames(ns, rest), ch, x);
    if rest == [] {
      assert chunks == [c];
      EmptyRun(After(s, frame), ns, ch, x);
      BroughtLast(s, ns, c, ch, x);
      NothingGoes(SlotsAfter(s.calls.history, s.calls.ended, ns, parent, c.tools), s.calls.ended, ns, parent);
    } else if Process(s, frame).Done? {
      PartsRun(After(s, frame), ns, m, rest, ch, x);
      BroughtStep(s, After(s, frame), ns, m.id, chunks, ch, x);
    }
  }

  lemma NothingGoes(history: map<SlotKey, ScopedId>, over: set<ScopedId>, ns: Namespace, parent: ScopedId)
    ensures Goes(history, over, ns, parent, AllTools([]))
  {
  }

  // ---- The same content either way -------------------------------------------

  /** Fragments go to their calls, except those of calls that are over. */
  lemma {:induction false} PartsRouted(c: Calls, history: map<SlotKey, ScopedId>, ns: Namespace, m: Complete, tools: seq<ToolChunk>, x: ScopedId)
    requires Callable(c, m, ns) && SlotsMean(history, m, ns) && forall t | t in tools :: IsPart(m, t)
    requires Goes(history, c.ended, ns, MessageId(ns, m.id), tools)
    ensures Routed(history, c.ended, ns, MessageId(ns, m.id), tools, x) == if x in c.ended then "" else ArgsOf(m, ns, tools, x)
    decreases |tools|
  {
    if tools != [] {
      var t, parent := tools[0], MessageId(ns, m.id);
      assert t in tools && forall r | r in tools[1..] :: r in tools;
      assert Meant(history, ns, parent, t) == Some(CallOf(m, ns, t)) by {
        if t.id.Some? { var i := NamedPart(c, m, ns, t); } else { UnnamedPart(c, m, ns, t); }
      }
      NotedMeans(history, c, m, ns, t);
      hide Callable, SlotsMean, IsPart, HasRoom, Noted, Meant, CallOf;
      PartsRouted(c, Noted(history, c.ended, ns, parent, t), ns, m, tools[1..], x);
    }
  }

  /** All the fragments together bring what the complete message brings. */
  lemma SameBrought(s: State, ns: Namespace, m: Complete, chunks: seq<Chunk>, ch: Channel, x: ScopedId)
    requires Streaming(s, m, ns) && CutsUp(m, ns, s.calls.ended, chunks)
    requires Goes(s.calls.history, s.calls.ended, ns, MessageId(ns, m.id), AllTools(chunks))
    requires Goes(s.calls.history, s.calls.ended, ns, MessageId(ns, m.id), ToChunk(m).tools)
    requires forall t | t in ToChunk(m).tools :: IsPart(m, t)
    ensures BroughtTogether(s, ns, m.id, chunks, ch, x) == Brought(s, ns, ToChunk(m), ch, x)
  {
    if ch == ArgsChannel {
      hide Goes, Callable, SlotsMean, IsPart, Routed;
      PartsRouted(s.calls, s.calls.history, ns, m, AllTools(chunks), x);
      PartsRouted(s.calls, s.calls.history, ns, m, ToChunk(m).tools, x);
    }
  }

  // ---- When a stream goes through --------------------------------------------

  /** A fragment that gives its call's ID finds room for it among the slots of earlier messages and frames. */
  ghost predicate AtHome(history: map<SlotKey, ScopedId>, m: Complete, ns: Namespace, t: ToolChunk) {
    HasRoom(history, CallOf(m, ns, t), KeyOf(ns, MessageId(ns, m.id), t))
  }

  /** A fragment that leaves the ID out comes after one with its position that gave it, and its call is not over. */
  ghost predicate Introduced(history: map<SlotKey, ScopedId>, over: set<ScopedId>, m: Complete, ns: Namespace, tools: seq<ToolChunk>, j: nat)
    requires j < |tools|
  {
    || KeyOf(ns, MessageId(ns, m.id), tools[j]) in history
    || exists i :: 0 <= i < j && tools[i].id.Some? && tools[i].index == tools[j].index && CallOf(m, ns, tools[i]) !in over
  }

  /** Two fragments that name one call both give positions, or neither does. */
  ghost predicate OneKind(over: set<ScopedId>, m: Complete, ns: Namespace, t: ToolChunk, u: ToolChunk) {
    t.id.Some? && u.id.Some? && CallOf(m, ns, t) == CallOf(m, ns, u) && CallOf(m, ns, t) !in over ==> (t.index.Some? <==> u.index.Some?)
  }

  ghost predicate FitsTogether(history: map<SlotKey, ScopedId>, over: set<ScopedId>, m: Complete, ns: Namespace, tools: seq<ToolChunk>) {
    && (forall j | 0 <= j < |tools| && tools[j].id.Some? :: AtHome(history, m, ns, tools[j]))
    && (forall j | 0 <= j < |tools| && tools[j].id.None? :: Introduced(history, over, m, ns, tools, j))
    && (forall i, j | 0 <= i < j < |tools| :: OneKind(over, m, ns, tools[i], tools[j]))
  }

  /** Two fragments that name calls have one slot exactly when they name one call, of one kind. */
  lemma KeysOfParts(c: Calls, m: Complete, ns: Namespace, t: ToolChunk, u: ToolChunk)
    requires Callable(c, m, ns) && IsPart(m, t) && IsPart(m, u) && t.id.Some? && u.id.Some?
    ensures KeyOf(ns, MessageId(ns, m.id), t) == KeyOf(ns, MessageId(ns, m.id), u) ==> CallOf(m, ns, t) == CallOf(m, ns, u)
    ensures CallOf(m, ns, t) == CallOf(m, ns, u) && CallOf(m, ns, t) !in c.ended ==>
              (KeyOf(ns, MessageId(ns, m.id), t) == KeyOf(ns, MessageId(ns, m.id), u) <==> (t.index.Some? <==> u.index.Some?))
  {
    var i := NamedPart(c, m, ns, t);
    var j := NamedPart(c, m, ns, u);
    if t.index.Some? && u.index.Some? {
      assert AlikeAt(c.ended, m, ns, t.index.value, u.index.value);
    }
  }

  /** Noting a call's slot leaves the others their room, and the call itself room only there. */
  lemma HomeStays(history: map<SlotKey, ScopedId>, c: Calls, m: Complete, ns: Namespace, t: ToolChunk, u: ToolChunk)
    requires Callable(c, m, ns) && IsPart(m, t) && IsPart(m, u) && t.id.Some? && u.id.Some? && AtHome(history, m, ns, t)
    ensures AtHome(Noted(history, c.ended, ns, MessageId(ns, m.id), t), m, ns, u) <==>
            AtHome(history, m, ns, u) && OneKind(c.ended, m, ns, t, u)
  {
    var i := NamedPart(c, m, ns, t);
    KeysOfParts(c, m, ns, t, u);
    var id, key, other, its := CallOf(m, ns, t), KeyOf(ns, MessageId(ns, m.id), t), CallOf(m, ns, u), KeyOf(ns, MessageId(ns, m.id), u);
    hide Callable, IsPart, CallOf;
    if id !in c.ended { RoomStays(history, id, key, other, its); }
  }

  lemma RoomStays(history: map<SlotKey, ScopedId>, id: ScopedId, key: SlotKey, other: ScopedId, its: SlotKey)
    requires HasRoom(history, id, key) && (key == its ==> id == other)
    ensures HasRoom(history[key := id], other, its) <==> HasRoom(history, other, its) && (id == other ==> key == its)
  {
    var next := history[key := id];
    if HasRoom(next, other, its) {
      forall k | k in history && history[k] == other ensures k == its { assert k in next; }
      if id == other { assert next[key] == other; }
    }
  }

  /** The position of an ID-less fragment is introduced by the head, or was before, or is later. */
  lemma IntroducedLater(history: map<SlotKey, ScopedId>, c: Calls, m: Complete, ns: Namespace, tools: seq<ToolChunk>, j: nat)
    requires Callable(c, m, ns) && (forall t | t in tools :: IsPart(m, t)) && 0 < j < |tools| && tools[j].id.None?
    ensures Introduced(Noted(history, c.ended, ns, MessageId(ns, m.id), tools[0]), c.ended, m, ns, tools[1..], j - 1) <==>
            Introduced(history, c.ended, m, ns, tools, j)
  {
    var t, u, parent := tools[0], tools[j], MessageId(ns, m.id);
    assert t in tools && u in tools;
    UnnamedPart(c, m, ns, u);
    if t.id.Some? {
      var i := NamedPart(c, m, ns, t);
    } else {
      UnnamedPart(c, m, ns, t);
    }
    var next := Noted(history, c.ended, ns, parent, t);
    assert KeyOf(ns, parent, u) in next <==>
           KeyOf(ns, parent, u) in history || (t.id.Some? && t.index == u.index && CallOf(m, ns, t) !in c.ended);
    hide Callable, IsPart, CallOf, Noted, KeyOf;
    if i :| 0 <= i < j - 1 && tools[1..][i].id.Some? && tools[1..][i].index == u.index && CallOf(m, ns, tools[1..][i]) !in c.ended {
      assert tools[i + 1] == tools[1..][i];
    }
    if i :| 0 < i < j && tools[i].id.Some? && tools[i].index == u.index && CallOf(m, ns, tools[i]) !in c.ended {
      assert tools[1..][i - 1] == tools[i];
    }
    assert tools[1..][j - 1] == u;
  }

  lemma HomesLater(history: map<SlotKey, ScopedId>, c: Calls, m: Complete, ns: Namespace, tools: seq<ToolChunk>)
    requires Callable(c, m, ns) && (forall t | t in tools :: IsPart(m, t)) && tools != []
    requires tools[0].id.Some? ==> AtHome(history, m, ns, tools[0])
    ensures var next := Noted(history, c.ended, ns, MessageId(ns, m.id), tools[0]);
            (forall j | 0 <= j < |tools| - 1 && tools[1..][j].id.Some? :: AtHome(next, m, ns, tools[1..][j])) <==>
            forall j | 0 < j < |tools| && tools[j].id.Some? :: AtHome(history, m, ns, tools[j]) && OneKind(c.ended, m, ns, tools[0], tools[j])
  {
    var next := Noted(history, c.ended, ns, MessageId(ns, m.id), tools[0]);
    forall j | 0 < j < |tools| && tools[j].id.Some?
      ensures AtHome(next, m, ns, tools[j]) <==> AtHome(history, m, ns, tools[j]) && OneKind(c.ended, m, ns, tools[0], tools[j])
    {
      assert tools[0] in tools && tools[j] in tools;
      if tools[0].id.Some? { HomeStays(history, c, m, ns, tools[0], tools[j]); } else { UnnamedPart(c, m, ns, tools[0]); }
    }
    hide Callable, IsPart, AtHome, OneKind, Noted;
    assert forall j | 0 <= j < |tools| - 1 :: tools[1..][j] == tools[j + 1];
    if forall j | 0 <= j < |tools| - 1 && tools[1..][j].id.Some? :: AtHome(next, m, ns, tools[1..][j]) {
      forall j | 0 < j < |tools| && tools[j].id.Some? ensures AtHome(next, m, ns, tools[j]) { assert tools[1..][j - 1] == tools[j]; }
    }
  }

  lemma FitsLater(history: map<SlotKey, ScopedId>, c: Calls, m: Complete, ns: Namespace, tools: seq<ToolChunk>)
    requires Callable(c, m, ns) && (forall t | t in tools :: IsPart(m, t)) && tools != []
    requires if tools[0].id.Some? then AtHome(history, m, ns, tools[0]) else Introduced(history, c.ended, m, ns, tools, 0)
    ensures FitsTogether(Noted(history, c.ended, ns, MessageId(ns, m.id), tools[0]), c.ended, m, ns, tools[1..]) <==>
            FitsTogether(history, c.ended, m, ns, tools)
  {
    var next, rest := Noted(history, c.ended, ns, MessageId(ns, m.id), tools[0]), tools[1..];
    HomesLater(history, c, m, ns, tools);
    forall j | 0 < j < |tools| && tools[j].id.None?
      ensures Introduced(next, c.ended, m, ns, rest, j - 1) <==> Introduced(history, c.ended, m, ns, tools, j)
    {
      IntroducedLater(history, c, m, ns, tools, j);
    }
    assert forall j | 0 <= j < |rest| :: rest[j] == tools[j + 1];
    OneKindNeedsNames(c.ended, m, ns, tools);
    hide Callable, IsPart, AtHome, Introduced, OneKind, Noted;
    if FitsTogether(next, c.ended, m, ns, rest) {
      forall j | 0 <= j < |tools| && tools[j].id.None? ensures Introduced(history, c.ended, m, ns, tools, j) {
        if j > 0 { assert rest[j - 1].id.None?; }
      }
      forall i, j | 0 <= i < j < |tools| ensures OneKind(c.ended, m, ns, tools[i], tools[j]) {
        if i > 0 { assert OneKind(c.ended, m, ns, rest[i - 1], rest[j - 1]); }
      }
    }
    if FitsTogether(history, c.ended, m, ns, tools) {
      forall j | 0 <= j < |rest| && rest[j].id.None? ensures Introduced(next, c.ended, m, ns, rest, j) {
        assert tools[j + 1].id.None?;
      }
    }
  }

  lemma OneKindNeedsNames(over: set<ScopedId>, m: Complete, ns: Namespace, tools: seq<ToolChunk>)
    ensures forall i, j | 0 <= i < j < |tools| && tools[j].id.None? :: OneKind(over, m, ns, tools[i], tools[j])
  {
  }

  /** Fragment by fragment and all together: a stream goes through exactly when its fragments fit together. */
  lemma {:induction false} GoesIff(history: map<SlotKey, ScopedId>, c: Calls, m: Complete, ns: Namespace, tools: seq<ToolChunk>)
    requires Callable(c, m, ns) && forall t | t in tools :: IsPart(m, t)
    ensures Goes(history, c.ended, ns, MessageId(ns, m.id), tools) <==> FitsTogether(history, c.ended, m, ns, tools)
    decreases |tools|
  {
    if tools != [] {
      var t, parent := tools[0], MessageId(ns, m.id);
      assert t in tools && forall r | r in tools[1..] :: r in tools;
      if t.id.Some? { var i := NamedPart(c, m, ns, t); } else { UnnamedPart(c, m, ns, t); }
      assert (if Given(t.id) then HasRoom(history, ToolId(ns, t.id.value), KeyOf(ns, parent, t)) else KeyOf(ns, parent, t) in history) <==>
             (if t.id.Some? then AtHome(history, m, ns, t) else Introduced(history, c.ended, m, ns, tools, 0));
      hide Callable, IsPart, HasRoom, KeyOf, Noted, AtHome, Introduced, OneKind;
      GoesIff(Noted(history, c.ended, ns, parent, t), c, m, ns, tools[1..]);
      if (if t.id.Some? then AtHome(history, m, ns, t) else Introduced(history, c.ended, m, ns, tools, 0)) {
        FitsLater(history, c, m, ns, tools);
      }
    }
  }

  /**
   A message cut into fragments goes through exactly when they fit together: every fragment that gives its call's ID
   finds room for it, every one that does not comes after one that did, and no call is given with and without a
   position. Then a client hears the same as from the complete message, and nothing of its namespace stays
   open either way.
   */
  lemma CuttingUpDoesNotMatter(s: State, ns: Namespace, m: Complete, chunks: seq<Chunk>, ch: Channel, x: ScopedId)
    requires Consistent(s) && CutsUp(m, ns, s.calls.ended, chunks)
    requires Process(s, AiMessage(ns, m)).Done? && !IsBaseline(s.baselines, ns, m.id, PriorAi(m))
    ensures AllDone(s, Frames(ns, chunks)) <==> FitsTogether(s.calls.history, s.calls.ended, m, ns, AllTools(chunks))
    ensures AllDone(s, Frames(ns, chunks)) ==>
      && Heard(Trace(s, Frames(ns, chunks)), ch, x) == Heard(Delivered(s, AiMessage(ns, m)), ch, x)
      && Idle(RunState(s, Frames(ns, chunks)), ns)
    ensures Idle(After(s, AiMessage(ns, m)), ns)
  {
    assert Accepted(s, ns, ToChunk(m)) && m.id != "";
    ProcessAiKeeps(s, ns, ToChunk(m));
    assert Idle(After(s, AiMessage(ns, m)), ns);
    FrameHeard(s, AiMessage(ns, m), ch, x);
    assert Sent(s, AiMessage(ns, m), ch, x) == Brought(s, ns, ToChunk(m), ch, x);
    hide Process, Accepted, Consistent, Delivered, After, Idle, Heard, Brought, BroughtTogether, Goes, FitsTogether, IsPart, Callable, SlotsMean;
    AcceptedIsStreaming(s, ns, m);
    GoesIff(s.calls.history, s.calls, m, ns, AllTools(chunks));
    CompleteGoes(s, ns, m);
    hide Streaming;
    PartsRun(s, ns, m, chunks, ch, x);
    if AllDone(s, Frames(ns, chunks)) { SameBrought(s, ns, m, chunks, ch, x); }
  }

  lemma CompleteGoes(s: State, ns: Namespace, m: Complete)
    requires Accepted(s, ns, ToChunk(m)) && Streaming(s, m, ns) && forall t | t in ToChunk(m).tools :: IsPart(m, t)
    ensures Goes(s.calls.history, s.calls.ended, ns, MessageId(ns, m.id), ToChunk(m).tools)
  {
    hide Consistent, SlotsMean, ParentsOk, Goes, FragmentsAccepted, IsPart;
    assert NamesOk(s.calls.names, m, ns);
    hide Callable;
    PartsAccepted(s.calls, ns, m, ToChunk(m).tools, s.calls.history, s.calls.names);
  }

  // ---- Streams of one kind ---------------------------------------------------

  /** Without positions: every named call finds its own slot free, and has had no other. */
  lemma WithoutPositions(history: map<SlotKey, ScopedId>, over: set<ScopedId>, m: Complete, ns: Namespace, tools: seq<ToolChunk>)
    requires forall t | t in tools :: IsNamed(m, t)
    ensures FitsTogether(history, over, m, ns, tools) <==> forall j | 0 <= j < |tools| :: AtHome(history, m, ns, tools[j])
  {
    forall j | 0 <= j < |tools| ensures tools[j].id.Some? && tools[j].index.None? { assert tools[j] in tools; }
    hide AtHome, Introduced, IsNamed;
  }

  /** With positions only: every fragment that leaves the ID out comes after one that gave it. */
  lemma WithPositions(s: State, m: Complete, ns: Namespace, tools: seq<ToolChunk>)
    requires Consistent(s) && Accepted(s, ns, ToChunk(m)) && forall t | t in tools :: IsPiece(m, t)
    ensures FitsTogether(s.calls.history, s.calls.ended, m, ns, tools) <==>
            forall j | 0 <= j < |tools| && tools[j].id.None? :: Introduced(s.calls.history, s.calls.ended, m, ns, tools, j)
  {
    assert ToChunk(m).tools[0..] == ToChunk(m).tools;
    assert LivesOk(s.calls) && HistoryOk(s.calls);
    AcceptedIsReady(s.calls, ns, m, 0, s.calls.history, s.calls.names);
    forall j | 0 <= j < |tools| ensures tools[j].index.Some? && AtHome(s.calls.history, m, ns, tools[j]) {
      assert tools[j] in tools;
      assert ReadyAt(s.calls, s.calls.history, s.calls.names, m, ns, tools[j].index.value);
    }
    hide AtHome, Introduced, IsPiece, Consistent, Accepted;
  }
}
