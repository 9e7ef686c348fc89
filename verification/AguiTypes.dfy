/** Native frames, AG-UI events and the correlation state of the stream adapter. */
module AguiTypes {
  import opened Options

  // ---- Identities ------------------------------------------------------------

  type Namespace = seq<string>

  datatype Kind = MessageKind | ToolKind | ReasoningKind | ReasoningMessageKind

  /** A scoped ID. The codec is reversible, so an ID is its kind, namespace and raw ID. */
  datatype ScopedId = ScopedId(kind: Kind, ns: Namespace, raw: string)

  // ---- Native frames ---------------------------------------------------------

  datatype ToolChunk = ToolChunk(index: Option<int>, id: Option<string>, name: Option<string>, args: Option<string>)

  /** One streamed assistant fragment; `last` is the provider's final marker. */
  datatype Chunk = Chunk(id: string, text: string, attachments: seq<string>, reasoning: string, tools: seq<ToolChunk>,
                         last: bool)

  datatype ToolCall = ToolCall(id: Option<string>, name: string, args: string)

  /** A complete, non-streaming assistant message; call arguments are already JSON text. */
  datatype Complete = Complete(id: string, text: string, attachments: seq<string>, reasoning: string,
                               calls: seq<ToolCall>)

  datatype ToolResult = ToolResult(callId: string, id: Option<string>, name: Option<string>, content: string,
                                   attachments: seq<string>, failed: bool)

  /** A message of a checkpoint snapshot; `Other` covers people, the system and stray chunks. */
  datatype Prior = PriorAi(message: Complete) | PriorTool(result: ToolResult) | Other

  datatype Frame =
    | Values(ns: Namespace, messages: seq<Prior>)
    | AiChunk(ns: Namespace, chunk: Chunk)
    | AiMessage(ns: Namespace, message: Complete)
    | ToolMessage(ns: Namespace, result: ToolResult)
    | Finish

  // ---- Public events ---------------------------------------------------------

  datatype Event =
    | ReasoningStart(id: ScopedId)
    | ReasoningMessageStart(id: ScopedId)
    | ReasoningContent(id: ScopedId, delta: string)
    | ReasoningMessageEnd(id: ScopedId)
    | ReasoningEnd(id: ScopedId)
    | TextStart(id: ScopedId)
    | TextContent(id: ScopedId, delta: string)
    | TextEnd(id: ScopedId)
    | Attachments(id: ScopedId, attachments: seq<string>)
    | ToolStart(id: ScopedId, name: string, parent: Option<ScopedId>)
    | ToolArgs(id: ScopedId, delta: string)
    | ToolEnd(id: ScopedId)
    | ToolOutcome(id: ScopedId, message: ScopedId, content: string, attachments: seq<string>)

  // ---- Correlation state -----------------------------------------------------

  /** A provider position, or the tool's own ID when the provider gives no position. */
  datatype Place = Indexed(index: int) | Identified(id: ScopedId)

  datatype SlotKey = SlotKey(ns: Namespace, parent: ScopedId, place: Place)

  datatype ActiveTool = ActiveTool(id: ScopedId, name: string, parent: ScopedId, ns: Namespace, index: Option<int>,
                                   arguments: string)

  datatype ActiveReasoning = ActiveReasoning(source: ScopedId, reasoning: ScopedId, message: ScopedId, ns: Namespace)

  datatype Fingerprint = Fingerprint(message: ScopedId, name: string, content: string, attachments: seq<string>,
                                     failed: bool)

  // The adapter's dictionaries, grouped by what they describe. An `order` is the insertion
  // order of a dictionary that the source iterates over.

  /** The message whose text is open, per namespace. */
  datatype Texts = Texts(open: map<Namespace, ScopedId>, order: seq<Namespace>)

  /** The open reasoning streams, by the message they belong to. */
  datatype Thoughts = Thoughts(open: map<ScopedId, ActiveReasoning>, order: seq<ScopedId>)

  /** Tool calls: the open ones, the index of their slots, and everything known about the rest. */
  datatype Calls = Calls(
    active: map<ScopedId, ActiveTool>, order: seq<ScopedId>,
    slots: map<SlotKey, ScopedId>, history: map<SlotKey, ScopedId>,
    names: map<ScopedId, string>,
    prior: set<ScopedId>, started: set<ScopedId>, ended: set<ScopedId>,
    results: map<ScopedId, Fingerprint>)

  /** Messages that existed before the stream, and the messages that proposed their calls. */
  datatype Baselines = Baselines(scopes: set<Namespace>, messages: map<(Namespace, string), Prior>,
                                 parents: map<ScopedId, ScopedId>)

  datatype State = State(texts: Texts, thoughts: Thoughts, calls: Calls, baselines: Baselines, exposeReasoning: bool)

  /** A new adapter for a run that resumes after `prior` tool calls were already published. */
  function Fresh(prior: set<ScopedId>, exposeReasoning: bool): State {
    State(Texts(map[], []), Thoughts(map[], []),
          Calls(map[], [], map[], map[], map[], prior, prior, prior, map[]),
          Baselines({}, map[], map[]), exposeReasoning)
  }

  /** A new state and the events emitted on the way to it. */
  datatype Out<+S> = Out(state: S, events: seq<Event>)

  function MessageId(ns: Namespace, raw: string): ScopedId { ScopedId(MessageKind, ns, raw) }
  function ToolId(ns: Namespace, raw: string): ScopedId { ScopedId(ToolKind, ns, raw) }

  function SlotOf(tool: ActiveTool): SlotKey {
    SlotKey(tool.ns, tool.parent, if tool.index.Some? then Indexed(tool.index.value) else Identified(tool.id))
  }

  /** The elements of an insertion order that remain after one is removed. */
  function Drop<T(==)>(order: seq<T>, gone: T): seq<T> {
    if order == [] then []
    else (if order[0] == gone then [] else [order[0]]) + Drop(order[1..], gone)
  }
}
