/**
 What an AG-UI client accepts: the lifecycle grammar of message, reasoning and tool
 events, written without reference to the adapter.
 */
module AguiTrace {
  import opened AguiTypes
  import opened Options

  /** The reasoning streams that have begun, those whose message is open, and those whose message has ended. */
  datatype Reasoning = Reasoning(begun: set<ScopedId>, speaking: set<ScopedId>, spoken: set<ScopedId>) {
    function All(): set<ScopedId> { begun + speaking + spoken }
  }

  datatype ToolPhase = Running | Ended | Settled

  /** What is open. Tool calls known from before the stream appear as already ended. */
  datatype View = View(texts: map<Namespace, ScopedId>, reasoning: Reasoning,
                       tools: map<ScopedId, ToolPhase>)

  /** The message a reasoning or reasoning-message ID was derived from. */
  function SourceOf(id: ScopedId): ScopedId { ScopedId(MessageKind, id.ns, id.raw) }

  predicate ReasoningIn(v: View, ns: Namespace) {
    exists key | key in v.reasoning.All() :: key.ns == ns
  }

  /** One event; `None` when the client must reject it. */
  function Observe(v: View, e: Event): Option<View> {
    match e
    case TextStart(id) =>
      if id.kind == MessageKind && id.ns !in v.texts && !ReasoningIn(v, id.ns)
      then Some(v.(texts := v.texts[id.ns := id])) else None
    case TextContent(id, delta) =>
      if delta != "" && id.ns in v.texts && v.texts[id.ns] == id then Some(v) else None
    case Attachments(id, _) =>
      if id.ns in v.texts && v.texts[id.ns] == id then Some(v) else None
    case TextEnd(id) =>
      if id.ns in v.texts && v.texts[id.ns] == id then Some(v.(texts := v.texts - {id.ns})) else None
    case ReasoningStart(id) =>
      if id.kind == ReasoningKind && id.ns !in v.texts && !ReasoningIn(v, id.ns)
      then Some(v.(reasoning := v.reasoning.(begun := v.reasoning.begun + {SourceOf(id)}))) else None
    case ReasoningMessageStart(id) =>
      var key := SourceOf(id);
      if id.kind == ReasoningMessageKind && key in v.reasoning.begun
      then Some(v.(reasoning := v.reasoning.(begun := v.reasoning.begun - {key}, speaking := v.reasoning.speaking + {key})))
      else None
    case ReasoningContent(id, delta) =>
      if id.kind == ReasoningMessageKind && delta != "" && SourceOf(id) in v.reasoning.speaking then Some(v) else None
    case ReasoningMessageEnd(id) =>
      var key := SourceOf(id);
      if id.kind == ReasoningMessageKind && key in v.reasoning.speaking
      then Some(v.(reasoning := v.reasoning.(speaking := v.reasoning.speaking - {key}, spoken := v.reasoning.spoken + {key})))
      else None
    case ReasoningEnd(id) =>
      if id.kind == ReasoningKind && SourceOf(id) in v.reasoning.spoken
      then Some(v.(reasoning := v.reasoning.(spoken := v.reasoning.spoken - {SourceOf(id)}))) else None
    case ToolStart(id, _, _) =>
      if id.kind == ToolKind && id !in v.tools then Some(v.(tools := v.tools[id := Running])) else None
    case ToolArgs(id, delta) =>
      if delta != "" && id in v.tools && v.tools[id] == Running then Some(v) else None
    case ToolEnd(id) =>
      if id in v.tools && v.tools[id] == Running then Some(v.(tools := v.tools[id := Ended])) else None
    case ToolOutcome(id, _, _, _) =>
      if id in v.tools && v.tools[id] == Ended then Some(v.(tools := v.tools[id := Settled])) else None
  }

  function ObserveAll(v: View, events: seq<Event>): Option<View>
    decreases |events|
  {
    if events == [] then Some(v)
    else
      var next := Observe(v, events[0]);
      if next.None? then None else ObserveAll(next.value, events[1..])
  }

  lemma {:induction false} ObserveConcat(v: View, a: seq<Event>, b: seq<Event>)
    ensures ObserveAll(v, a + b) ==
            var middle := ObserveAll(v, a);
            if middle.None? then None else ObserveAll(middle.value, b)
    decreases |a|
  {
    if a == [] {
      assert a + b == b;
    } else {
      assert (a + b)[1..] == a[1..] + b;
      var next := Observe(v, a[0]);
      if next.Some? { ObserveConcat(next.value, a[1..], b); }
    }
  }

  lemma ObserveOne(v: View, e: Event)
    ensures ObserveAll(v, [e]) == Observe(v, e)
  {
    assert [e][1..] == [];
  }

  // ---- What acceptance means, event by event ---------------------------------

  lemma {:induction false} AcceptedPrefix(v: View, events: seq<Event>, i: nat)
    requires i <= |events| && ObserveAll(v, events).Some?
    ensures ObserveAll(v, events[..i]).Some?
    ensures i < |events| ==>
      && Observe(ObserveAll(v, events[..i]).value, events[i]).Some?
      && Observe(ObserveAll(v, events[..i]).value, events[i]) == ObserveAll(v, events[..i + 1])
  {
    ObserveConcat(v, events[..i], events[i..]);
    assert events[..i] + events[i..] == events;
    if i < |events| {
      ObserveConcat(v, events[..i], [events[i]]);
      assert events[..i] + [events[i]] == events[..i + 1];
      ObserveOne(ObserveAll(v, events[..i]).value, events[i]);
    }
  }

  /** How far a tool call has come; calls never move backwards. */
  function Rank(v: View, id: ScopedId): nat {
    if id !in v.tools then 0
    else if v.tools[id] == Running then 1
    else if v.tools[id] == Ended then 2
    else 3
  }

  lemma {:induction false} RankGrows(v: View, events: seq<Event>, id: ScopedId)
    requires ObserveAll(v, events).Some?
    ensures Rank(v, id) <= Rank(ObserveAll(v, events).value, id)
    decreases |events|
  {
    if events != [] {
      RankGrows(Observe(v, events[0]).value, events[1..], id);
    }
  }

  predicate IsToolEvent(e: Event) { e.ToolStart? || e.ToolArgs? || e.ToolEnd? || e.ToolOutcome? }

  /** The rank a call must have for the event, and the rank the event leaves it with. */
  function RankBefore(e: Event): nat requires IsToolEvent(e) {
    if e.ToolStart? then 0 else if e.ToolOutcome? then 2 else 1
  }
  function RankAfter(e: Event): nat requires IsToolEvent(e) {
    if e.ToolStart? || e.ToolArgs? then 1 else if e.ToolEnd? then 2 else 3
  }

  /**
   In an accepted trace every later event of a tool call continues where the earlier one
   left off: one start, then arguments, then one end, then at most one outcome.
   */
  lemma {:induction false} ToolEventsInOrder(v: View, events: seq<Event>, i: nat, j: nat)
    requires ObserveAll(v, events).Some?
    requires i < j < |events| && IsToolEvent(events[i]) && IsToolEvent(events[j]) && events[i].id == events[j].id
    ensures RankAfter(events[i]) <= RankBefore(events[j])
  {
    AcceptedPrefix(v, events, i);
    AcceptedPrefix(v, events, j);
    var middle := ObserveAll(v, events[..i + 1]).value;
    ObserveConcat(v, events[..i + 1], events[i + 1..j]);
    assert events[..i + 1] + events[i + 1..j] == events[..j];
    RankGrows(middle, events[i + 1..j], events[i].id);
  }

  /** Text is only ever added between a start of that message and its next end. */
  lemma {:induction false} TextOnlyInside(v: View, events: seq<Event>, j: nat)
    requires ObserveAll(v, events).Some?
    requires j < |events| && (events[j].TextContent? || events[j].Attachments? || events[j].TextEnd?)
    requires events[j].id.ns !in v.texts
    ensures exists i ::
      && 0 <= i < j && events[i] == TextStart(events[j].id)
      && forall k | i < k < j :: events[k] != TextEnd(events[j].id)
  {
    AcceptedPrefix(v, events, j);
    OpenTextWasStarted(v, events, j, events[j].id);
  }

  /** A text that is open after another event was open before it. */
  lemma OpenBefore(v: View, e: Event, id: ScopedId)
    requires Observe(v, e).Some? && e != TextStart(id)
    requires id.ns in Observe(v, e).value.texts && Observe(v, e).value.texts[id.ns] == id
    ensures id.ns in v.texts && v.texts[id.ns] == id && e != TextEnd(id)
  {
  }

  lemma {:induction false} OpenTextWasStarted(v: View, events: seq<Event>, j: nat, id: ScopedId)
    requires j <= |events| && ObserveAll(v, events).Some? && ObserveAll(v, events[..j]).Some?
    requires id.ns !in v.texts
    requires id.ns in ObserveAll(v, events[..j]).value.texts && ObserveAll(v, events[..j]).value.texts[id.ns] == id
    ensures exists i ::
      && 0 <= i < j && events[i] == TextStart(id)
      && forall k | i < k < j :: events[k] != TextEnd(id)
    decreases j
  {
    if j == 0 {
      assert false;
    } else {
      AcceptedPrefix(v, events, j - 1);
      if events[j - 1] != TextStart(id) {
        OpenBefore(ObserveAll(v, events[..j - 1]).value, events[j - 1], id);
        hide Observe, ObserveAll;
        OpenTextWasStarted(v, events, j - 1, id);
        var i :| 0 <= i < j - 1 && events[i] == TextStart(id) && forall k | i < k < j - 1 :: events[k] != TextEnd(id);
      }
    }
  }

  ghost predicate Exclusive(v: View) {
    && (forall key | key in v.reasoning.All() :: key.ns !in v.texts)
    && (forall a, b | a in v.reasoning.All() && b in v.reasoning.All() && a.ns == b.ns :: a == b)
  }

  lemma ObserveKeepsExclusive(v: View, e: Event)
    requires Exclusive(v) && Observe(v, e).Some?
    ensures Exclusive(Observe(v, e).value)
  {
  }

  /** Text and reasoning are never open together in one namespace, nor two of either. */
  lemma {:induction false} TextAndReasoningExclude(v: View, events: seq<Event>, i: nat)
    requires Exclusive(v) && ObserveAll(v, events).Some? && i <= |events|
    ensures ObserveAll(v, events[..i]).Some? && Exclusive(ObserveAll(v, events[..i]).value)
    decreases i
  {
    AcceptedPrefix(v, events, i);
    if i > 0 {
      AcceptedPrefix(v, events, i - 1);
      TextAndReasoningExclude(v, events, i - 1);
      ObserveKeepsExclusive(ObserveAll(v, events[..i - 1]).value, events[i - 1]);
    } else {
      assert events[..0] == [];
    }
  }
}
