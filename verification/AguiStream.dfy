/** What the adapter does with one frame, as a function of its correlation state. */
module AguiStream {
  import opened AguiTypes
  import opened Options

  // ---- Text ------------------------------------------------------------------

  function CloseText(t: Texts, ns: Namespace): Out<Texts> {
    if ns !in t.open then Out(t, []) else Out(Texts(t.open - {ns}, Drop(t.order, ns)), [TextEnd(t.open[ns])])
  }

  function OpenText(t: Texts, ns: Namespace, id: ScopedId): Texts {
    Texts(t.open[ns := id], if ns in t.open then t.order else t.order + [ns])
  }

  function CloseTexts(t: Texts, scopes: seq<Namespace>): Out<Texts>
    decreases |scopes|
  {
    if scopes == [] then Out(t, [])
    else
      var one := CloseText(t, scopes[0]);
      var rest := CloseTexts(one.state, scopes[1..]);
      Out(rest.state, one.events + rest.events)
  }

  predicate Showing(t: Texts, ns: Namespace, id: ScopedId) { ns in t.open && t.open[ns] == id }

  // ---- Reasoning -------------------------------------------------------------

  function CloseThought(r: Thoughts, key: ScopedId): Out<Thoughts>
    requires key in r.open
  {
    Out(Thoughts(r.open - {key}, Drop(r.order, key)),
        [ReasoningMessageEnd(r.open[key].message), ReasoningEnd(r.open[key].reasoning)])
  }

  /** Closes, in insertion order, the listed streams that belong to one namespace. */
  function CloseThoughtKeys(r: Thoughts, ns: Namespace, keys: seq<ScopedId>): Out<Thoughts>
    decreases |keys|
  {
    if keys == [] then Out(r, [])
    else if keys[0] in r.open && r.open[keys[0]].ns == ns then
      var one := CloseThought(r, keys[0]);
      var rest := CloseThoughtKeys(one.state, ns, keys[1..]);
      Out(rest.state, one.events + rest.events)
    else CloseThoughtKeys(r, ns, keys[1..])
  }

  function CloseThoughts(r: Thoughts, ns: Namespace): Out<Thoughts> {
    CloseThoughtKeys(r, ns, r.order)
  }

  /** The namespaces with open reasoning, in the order in which they first appear. */
  function ScopesOf(r: Thoughts, keys: seq<ScopedId>, seen: seq<Namespace>): seq<Namespace>
    decreases |keys|
  {
    if keys == [] then seen
    else if keys[0] in r.open && r.open[keys[0]].ns !in seen then ScopesOf(r, keys[1..], seen + [r.open[keys[0]].ns])
    else ScopesOf(r, keys[1..], seen)
  }

  function CloseThoughtScopes(r: Thoughts, scopes: seq<Namespace>): Out<Thoughts>
    decreases |scopes|
  {
    if scopes == [] then Out(r, [])
    else
      var one := CloseThoughts(r, scopes[0]);
      var rest := CloseThoughtScopes(one.state, scopes[1..]);
      Out(rest.state, one.events + rest.events)
  }

  function CloseAllThoughts(r: Thoughts): Out<Thoughts> {
    CloseThoughtScopes(r, ScopesOf(r, r.order, []))
  }

  /** One reasoning fragment of the message `key`. */
  function Think(r: Thoughts, key: ScopedId, delta: string): Out<Thoughts> {
    if key in r.open then Out(r, [ReasoningContent(r.open[key].message, delta)])
    else
      var closed := CloseThoughts(r, key.ns);
      var active := ActiveReasoning(key, ScopedId(ReasoningKind, key.ns, key.raw),
                                    ScopedId(ReasoningMessageKind, key.ns, key.raw), key.ns);
      Out(Thoughts(closed.state.open[key := active], closed.state.order + [key]),
          closed.events + [ReasoningStart(active.reasoning), ReasoningMessageStart(active.message),
                           ReasoningContent(active.message, delta)])
  }

  // ---- Tool calls ------------------------------------------------------------

  function CloseTool(c: Calls, id: ScopedId): Out<Calls> {
    if id !in c.active then Out(c, [])
    else
      var popped := c.(active := c.active - {id}, order := Drop(c.order, id));
      if id in c.ended then Out(popped, [])
      else Out(popped.(slots := c.slots - {SlotOf(c.active[id])}, ended := c.ended + {id}), [ToolEnd(id)])
  }

  /** Closes, in insertion order, the listed calls that belong to one namespace. */
  function CloseToolIds(c: Calls, ns: Namespace, ids: seq<ScopedId>): Out<Calls>
    decreases |ids|
  {
    if ids == [] then Out(c, [])
    else if ids[0] in c.active && c.active[ids[0]].ns == ns then
      var one := CloseTool(c, ids[0]);
      var rest := CloseToolIds(one.state, ns, ids[1..]);
      Out(rest.state, one.events + rest.events)
    else CloseToolIds(c, ns, ids[1..])
  }

  function CloseTools(c: Calls, ns: Namespace): Out<Calls> {
    CloseToolIds(c, ns, c.order)
  }

  function CloseEachTool(c: Calls, ids: seq<ScopedId>): Out<Calls>
    decreases |ids|
  {
    if ids == [] then Out(c, [])
    else
      var one := CloseTool(c, ids[0]);
      var rest := CloseEachTool(one.state, ids[1..]);
      Out(rest.state, one.events + rest.events)
  }

  /** Python's truth of an optional string. */
  predicate Given(value: Option<string>) { value.Some? && value.value != "" }

  function KeyOf(ns: Namespace, parent: ScopedId, t: ToolChunk): SlotKey {
    SlotKey(ns, parent,
            if t.index.Some? then Indexed(t.index.value) else Identified(ToolId(ns, t.id.GetOr("None"))))
  }

  /** The tool a fragment belongs to: its own ID, or the tool open in its slot. */
  function TargetOf(c: Calls, ns: Namespace, parent: ScopedId, t: ToolChunk): Option<ScopedId> {
    var key := KeyOf(ns, parent, t);
    if Given(t.id) then Some(ToolId(ns, t.id.value))
    else if key in c.slots then Some(c.slots[key])
    else None
  }

  function StartTool(c: Calls, key: SlotKey, tool: ActiveTool): Out<Calls> {
    Out(c.(active := c.active[tool.id := tool], order := c.order + [tool.id],
           names := c.names[tool.id := tool.name],
           slots := c.slots[key := tool.id], history := c.history[key := tool.id],
           started := c.started + {tool.id}),
        [ToolStart(tool.id, tool.name, Some(tool.parent))])
  }

  function AppendArgs(c: Calls, id: ScopedId, args: Option<string>): Out<Calls> {
    if id in c.active && Given(args) then
      var tool := c.active[id];
      Out(c.(active := c.active[id := tool.(arguments := tool.arguments + args.value)]), [ToolArgs(id, args.value)])
    else Out(c, [])
  }

  /** Frees the slot of a fragment that is held by another call. */
  function FreeSlot(c: Calls, key: SlotKey, id: ScopedId): Out<Calls> {
    if key in c.slots && c.slots[key] != id then CloseTool(c, c.slots[key]) else Out(c, [])
  }

  /** Opens the call of a fragment that names a new one. */
  function BeginTool(c: Calls, ns: Namespace, parent: ScopedId, t: ToolChunk, id: ScopedId): Out<Calls> {
    if id in c.active || id in c.ended || !Given(t.name) then Out(c, [])
    else StartTool(c, KeyOf(ns, parent, t), ActiveTool(id, t.name.value, parent, ns, t.index, ""))
  }

  function ToolFragment(c: Calls, ns: Namespace, parent: ScopedId, t: ToolChunk, id: ScopedId): Out<Calls> {
    var freed := FreeSlot(c, KeyOf(ns, parent, t), id);
    var begun := BeginTool(freed.state, ns, parent, t, id);
    var appended := AppendArgs(begun.state, id, t.args);
    Out(appended.state, freed.events + begun.events + appended.events)
  }

  /** Progress through a list of fragments; it stops at one whose tool is unknown. */
  datatype Attempt<+S> = Attempt(state: S, events: seq<Event>, ok: bool)

  function ToolFragments(c: Calls, ns: Namespace, parent: ScopedId, tools: seq<ToolChunk>): Attempt<Calls>
    decreases |tools|
  {
    if tools == [] then Attempt(c, [], true)
    else
      var target := TargetOf(c, ns, parent, tools[0]);
      if target.None? then Attempt(c, [], false)
      else
        var one := ToolFragment(c, ns, parent, tools[0], target.value);
        var rest := ToolFragments(one.state, ns, parent, tools[1..]);
        Attempt(rest.state, one.events + rest.events, rest.ok)
  }

  // ---- Boundaries ------------------------------------------------------------

  /** A provider-final boundary: tools, then reasoning, then text. */
  function CloseScope(s: State, ns: Namespace): Out<State> {
    var calls := CloseTools(s.calls, ns);
    var thoughts := CloseThoughts(s.thoughts, ns);
    var texts := CloseText(s.texts, ns);
    Out(s.(calls := calls.state, thoughts := thoughts.state, texts := texts.state),
        calls.events + thoughts.events + texts.events)
  }

  /** `finish`, `abort` and root values: all reasoning, then all text, then all tools. */
  function CloseAll(s: State): Out<State> {
    var thoughts := CloseAllThoughts(s.thoughts);
    var texts := CloseTexts(s.texts, s.texts.order);
    var calls := CloseEachTool(s.calls, s.calls.order);
    Out(s.(calls := calls.state, thoughts := thoughts.state, texts := texts.state),
        thoughts.events + texts.events + calls.events)
  }

  // ---- Assistant frames ------------------------------------------------------

  /** Exposed reasoning ends the text of its namespace before it speaks. */
  function ReasoningPart(s: State, ns: Namespace, c: Chunk): Out<State> {
    if !s.exposeReasoning || c.reasoning == "" then Out(s, [])
    else
      var texts := CloseText(s.texts, ns);
      var thoughts := Think(s.thoughts, MessageId(ns, c.id), c.reasoning);
      Out(s.(texts := texts.state, thoughts := thoughts.state), texts.events + thoughts.events)
  }

  /** A new source message ends the text of another one. */
  function StalePart(s: State, ns: Namespace, c: Chunk): Out<State> {
    if ns in s.texts.open && s.texts.open[ns] != MessageId(ns, c.id) then
      var texts := CloseText(s.texts, ns);
      Out(s.(texts := texts.state), texts.events)
    else Out(s, [])
  }

  /** Ends reasoning and shows the message `id`, whatever was shown before. */
  function Show(s: State, ns: Namespace, id: ScopedId): Out<State> {
    var thoughts := CloseThoughts(s.thoughts, ns);
    if Showing(s.texts, ns, id) then Out(s.(thoughts := thoughts.state), thoughts.events)
    else
      var ended := if ns in s.texts.open then [TextEnd(s.texts.open[ns])] else [];
      Out(s.(thoughts := thoughts.state, texts := OpenText(s.texts, ns, id)), thoughts.events + ended + [TextStart(id)])
  }

  function TextPart(s: State, ns: Namespace, c: Chunk): Out<State> {
    if c.text == "" then Out(s, [])
    else
      var shown := Show(s, ns, MessageId(ns, c.id));
      Out(shown.state, shown.events + [TextContent(MessageId(ns, c.id), c.text)])
  }

  /** Attachments reopen the message at the end of the iteration order. */
  function AttachmentPart(s: State, ns: Namespace, c: Chunk): Out<State> {
    if c.attachments == [] then Out(s, [])
    else
      var id := MessageId(ns, c.id);
      var thoughts := CloseThoughts(s.thoughts, ns);
      var attached := [Attachments(id, c.attachments)];
      if Showing(s.texts, ns, id) then Out(s.(thoughts := thoughts.state), thoughts.events + attached)
      else
        var closed := CloseText(s.texts, ns);
        Out(s.(thoughts := thoughts.state, texts := OpenText(closed.state, ns, id)),
            thoughts.events + closed.events + [TextStart(id)] + attached)
  }

  function ToolsPart(s: State, ns: Namespace, c: Chunk): Attempt<State> {
    if c.tools == [] then Attempt(s, [], true)
    else
      var thoughts := CloseThoughts(s.thoughts, ns);
      var calls := ToolFragments(s.calls, ns, MessageId(ns, c.id), c.tools);
      Attempt(s.(thoughts := thoughts.state, calls := calls.state), thoughts.events + calls.events, calls.ok)
  }

  /** Everything a non-empty frame does before its tool fragments. */
  function BeforeTools(s: State, ns: Namespace, c: Chunk): Out<State> {
    var reasoning := ReasoningPart(s, ns, c);
    var stale := StalePart(reasoning.state, ns, c);
    var text := TextPart(stale.state, ns, c);
    var attached := AttachmentPart(text.state, ns, c);
    Out(attached.state, stale.events + reasoning.events + text.events + attached.events)
  }

  predicate IsEmpty(s: State, c: Chunk) {
    c.text == "" && c.attachments == [] && c.tools == [] && (c.reasoning == "" || !s.exposeReasoning)
  }

  function LastPart(s: State, ns: Namespace, c: Chunk): Out<State> {
    if c.last then CloseScope(s, ns) else Out(s, [])
  }

  /** One assistant fragment. An empty fragment is a heartbeat unless it is the last one. */
  function ProcessAi(s: State, ns: Namespace, c: Chunk): Attempt<State> {
    if IsEmpty(s, c) then
      var last := LastPart(s, ns, c);
      Attempt(last.state, last.events, true)
    else
      var before := BeforeTools(s, ns, c);
      var tools := ToolsPart(before.state, ns, c);
      if !tools.ok then Attempt(tools.state, before.events + tools.events, false)
      else
        var last := LastPart(tools.state, ns, c);
        Attempt(last.state, before.events + tools.events + last.events, true)
  }

  /** A complete message becomes one final fragment whose calls are numbered in order. */
  function ToChunk(m: Complete): Chunk {
    Chunk(m.id, m.text, m.attachments, m.reasoning,
          seq(|m.calls|, i requires 0 <= i < |m.calls| =>
            ToolChunk(Some(i), m.calls[i].id, Some(m.calls[i].name), Some(m.calls[i].args))),
          true)
  }

  // ---- Validation before any change ------------------------------------------

  /** A checkpoint proposal keeps its message: another message must not reuse its ID. */
  predicate ParentsAgree(b: Baselines, ns: Namespace, parent: ScopedId, tools: seq<ToolChunk>) {
    forall t | t in tools && Given(t.id) && ToolId(ns, t.id.value) in b.parents ::
      b.parents[ToolId(ns, t.id.value)] == parent
  }

  predicate FragmentsAccepted(c: Calls, ns: Namespace, parent: ScopedId, tools: seq<ToolChunk>,
                              available: map<SlotKey, ScopedId>, names: map<ScopedId, string>)
    decreases |tools|
  {
    if tools == [] then true
    else
      var t := tools[0];
      var key := KeyOf(ns, parent, t);
      if t.index.None? && !(Given(t.id) && Given(t.name)) then false
      else if t.id.Some? || t.name.Some? then
        && Given(t.id) && Given(t.name)
        && var id := ToolId(ns, t.id.value);
        && (id in c.ended ==> id in c.prior)
        && (forall k | k in available && available[k] == id :: k == key)
        && (key in available ==> available[key] == id)
        && (id in names ==> names[id] == t.name.value)
        && FragmentsAccepted(c, ns, parent, tools[1..],
                             if id in c.ended then available else available[key := id], names[id := t.name.value])
      else key in available && FragmentsAccepted(c, ns, parent, tools[1..], available, names)
  }

  predicate Accepted(s: State, ns: Namespace, c: Chunk) {
    && c.id != ""
    && ParentsAgree(s.baselines, ns, MessageId(ns, c.id), c.tools)
    && FragmentsAccepted(s.calls, ns, MessageId(ns, c.id), c.tools, s.calls.history, s.calls.names)
  }

  // ---- Tool results ----------------------------------------------------------

  function EffectiveName(c: Calls, id: ScopedId, r: ToolResult): string {
    if id in c.names && c.names[id] != "" then c.names[id]
    else if Given(r.name) then r.name.value
    else "tool"
  }

  function ResultMessageId(ns: Namespace, r: ToolResult): ScopedId {
    MessageId(ns, if Given(r.id) then r.id.value else "tool-result:" + r.callId)
  }

  function FingerprintOf(c: Calls, ns: Namespace, r: ToolResult): Fingerprint {
    Fingerprint(ResultMessageId(ns, r), EffectiveName(c, ToolId(ns, r.callId), r), r.content, r.attachments, r.failed)
  }

  predicate NameConflicts(c: Calls, id: ScopedId, r: ToolResult) {
    id in c.names && r.name.Some? && c.names[id] != r.name.value
  }

  /** An unknown call gets a start of its own. */
  function IntroduceCall(c: Calls, id: ScopedId, name: string): Out<Calls> {
    if id in c.started then Out(c, [])
    else Out(c.(names := c.names[id := name], started := c.started + {id}), [ToolStart(id, name, None)])
  }

  /** A call that has started but not ended gets its end. */
  function EndCall(c: Calls, id: ScopedId): Out<Calls> {
    if id in c.ended || !(id in c.active || id in c.started) then Out(c, [])
    else
      var closed := CloseTool(c, id);
      if id in closed.state.ended then closed
      else Out(closed.state.(ended := closed.state.ended + {id}), closed.events + [ToolEnd(id)])
  }

  function SettleCall(c: Calls, ns: Namespace, r: ToolResult): Out<Calls> {
    var id, mark := ToolId(ns, r.callId), FingerprintOf(c, ns, r);
    var begun := IntroduceCall(c, id, mark.name);
    var ended := EndCall(begun.state, id);
    Out(ended.state.(results := ended.state.results[id := mark], prior := ended.state.prior - {id}),
        begun.events + ended.events + [ToolOutcome(id, mark.message, r.content, r.attachments)])
  }

  /** A result that is neither a replay nor in conflict; it is a hard message boundary. */
  function PublishResult(s: State, ns: Namespace, r: ToolResult): Out<State> {
    var thoughts := CloseThoughts(s.thoughts, ns);
    var texts := CloseText(s.texts, ns);
    var calls := SettleCall(s.calls, ns, r);
    Out(s.(thoughts := thoughts.state, texts := texts.state, calls := calls.state),
        thoughts.events + texts.events + calls.events)
  }

  // ---- Baselines -------------------------------------------------------------

  /** A checkpointed call counts as started and ended before the stream. */
  function RememberCall(c: Calls, id: ScopedId, name: string): Calls {
    if id in c.started then c
    else c.(prior := c.prior + {id}, started := c.started + {id}, ended := c.ended + {id}, names := c.names[id := name])
  }

  function RememberCalls(s: State, ns: Namespace, message: string, calls: seq<ToolCall>): State
    decreases |calls|
  {
    if calls == [] then s
    else if !Given(calls[0].id) then RememberCalls(s, ns, message, calls[1..])
    else
      var id := ToolId(ns, calls[0].id.value);
      var parents := if id in s.calls.started || message == "" then s.baselines.parents
                     else s.baselines.parents[id := MessageId(ns, message)];
      RememberCalls(s.(calls := RememberCall(s.calls, id, calls[0].name),
                       baselines := s.baselines.(parents := parents)),
                    ns, message, calls[1..])
  }

  function RememberMessage(s: State, ns: Namespace, prior: Prior): State {
    match prior
    case Other => s
    case PriorTool(r) =>
      if Given(r.id)
      then s.(baselines := s.baselines.(messages := s.baselines.messages[(ns, r.id.value) := prior]))
      else s
    case PriorAi(m) =>
      var noted := if m.id == "" then s
                   else s.(baselines := s.baselines.(messages := s.baselines.messages[(ns, m.id) := prior]));
      RememberCalls(noted, ns, m.id, m.calls)
  }

  function RememberMessages(s: State, ns: Namespace, messages: seq<Prior>): State
    decreases |messages|
  {
    if messages == [] then s else RememberMessages(RememberMessage(s, ns, messages[0]), ns, messages[1..])
  }

  /** Only the first values frame of a namespace is evidence of earlier messages. */
  function RememberBaseline(s: State, ns: Namespace, messages: seq<Prior>): State {
    if ns in s.baselines.scopes then s
    else RememberMessages(s.(baselines := s.baselines.(scopes := s.baselines.scopes + {ns})), ns, messages)
  }

  // ---- One frame -------------------------------------------------------------

  /**
   `Rejected` frames change nothing and emit nothing. A `Lost` frame has changed the
   state, but the exception that ended it discarded the events built so far.
   */
  datatype Outcome = Done(state: State, events: seq<Event>) | Rejected | Lost(state: State, discarded: seq<Event>)

  function OfAttempt(a: Attempt<State>): Outcome {
    if a.ok then Done(a.state, a.events) else Lost(a.state, a.events)
  }

  predicate IsBaseline(b: Baselines, ns: Namespace, id: string, message: Prior) {
    (ns, id) in b.messages && b.messages[(ns, id)] == message
  }

  function ProcessResult(s: State, ns: Namespace, r: ToolResult): Outcome {
    var id := ToolId(ns, r.callId);
    if r.id.Some? && IsBaseline(s.baselines, ns, r.id.value, PriorTool(r)) then Done(s, [])
    else if r.callId == "" || NameConflicts(s.calls, id, r) then Rejected
    else if id in s.calls.results then
      if s.calls.results[id] == FingerprintOf(s.calls, ns, r) then Done(s, []) else Rejected
    else
      var out := PublishResult(s, ns, r);
      Done(out.state, out.events)
  }

  function Process(s: State, frame: Frame): Outcome {
    match frame
    case Values(ns, messages) =>
      var remembered := RememberBaseline(s, ns, messages);
      if ns != [] then Done(remembered, [])
      else
        var closed := CloseAll(remembered);
        Done(closed.state, closed.events)
    case AiChunk(ns, c) =>
      if !Accepted(s, ns, c) then Rejected else OfAttempt(ProcessAi(s, ns, c))
    case AiMessage(ns, m) =>
      if !Accepted(s, ns, ToChunk(m)) then Rejected
      else if IsBaseline(s.baselines, ns, m.id, PriorAi(m)) then Done(s, [])
      else OfAttempt(ProcessAi(s, ns, ToChunk(m)))
    case ToolMessage(ns, r) => ProcessResult(s, ns, r)
    case Finish =>
      var closed := CloseAll(s);
      Done(closed.state, closed.events)
  }
}
