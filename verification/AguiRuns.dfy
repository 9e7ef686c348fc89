/** Balance of whole runs: every frame, and every sequence of frames. */
module AguiRuns {
  import opened AguiBalance
  import opened AguiStream
  import opened AguiTrace
  import opened AguiTypes
  import opened Options

  // ---- Results ---------------------------------------------------------------

  lemma SettleCallShape(c: Calls, ns: Namespace, r: ToolResult)
    requires LivesOk(c)
    ensures var id, closed, out := ToolId(ns, r.callId), CloseTool(c, ToolId(ns, r.callId)).state, SettleCall(c, ns, r).state;
            && out.active == closed.active && out.order == closed.order
            && out.slots == closed.slots && out.history == closed.history && out.prior == c.prior - {id}
            && out.started == c.started + {id} && out.ended == c.ended + {id}
            && out.results == c.results[id := FingerprintOf(c, ns, r)]
  {
    hide SlotOf, Drop, FingerprintOf;
  }

  lemma SettledLives(c: Calls, ns: Namespace, r: ToolResult)
    requires LivesOk(c)
    ensures LivesOk(SettleCall(c, ns, r).state)
  {
    var id := ToolId(ns, r.callId);
    SettleCallShape(c, ns, r);
    hide SettleCall, FingerprintOf;
    var out := SettleCall(c, ns, r).state;
    assert out.active == c.active - {id};
  }

  lemma SettledHistory(closed: Calls, out: Calls)
    requires HistoryOk(closed) && closed.started <= out.started && out.prior <= closed.prior
    requires out.slots == closed.slots && out.history == closed.history
    ensures HistoryOk(out)
  {
  }

  lemma SettledActive(closed: Calls, out: Calls)
    requires ActiveOk(closed) && out.active == closed.active && out.order == closed.order
    ensures ActiveOk(out)
  {
  }

  lemma CloseToolPast(c: Calls, id: ScopedId)
    ensures CloseTool(c, id).state.started == c.started && CloseTool(c, id).state.prior == c.prior
  {
    hide Drop, SlotOf;
  }

  lemma SettleCallOk(c: Calls, ns: Namespace, r: ToolResult)
    requires CallsOk(c) && ToolId(ns, r.callId) !in c.results
    ensures CallsOk(SettleCall(c, ns, r).state)
  {
    hide SettleCall, CloseTool, FingerprintOf, ActiveOk, LivesOk, HistoryOk, SlotsInvert;
    var id := ToolId(ns, r.callId);
    var closed, out := CloseTool(c, id).state, SettleCall(c, ns, r).state;
    CloseToolOk(c, id);
    CloseToolPast(c, id);
    SettleCallShape(c, ns, r);
    SettledLives(c, ns, r);
    SettledActive(closed, out);
    SettledHistory(closed, out);
  }

  /** The call goes from wherever it is to settled. */
  lemma ObserveSettle(v: View, id: ScopedId, name: string, outcome: Event)
    requires id.kind == ToolKind && outcome.ToolOutcome? && outcome.id == id
    ensures id !in v.tools ==>
      ObserveAll(v, [ToolStart(id, name, None), ToolEnd(id), outcome]) == Some(v.(tools := v.tools[id := Settled]))
    ensures id in v.tools && v.tools[id] == Running ==>
      ObserveAll(v, [ToolEnd(id), outcome]) == Some(v.(tools := v.tools[id := Settled]))
    ensures id in v.tools && v.tools[id] == Ended ==>
      ObserveAll(v, [outcome]) == Some(v.(tools := v.tools[id := Settled]))
  {
    var running, ended := v.(tools := v.tools[id := Running]), v.(tools := v.tools[id := Ended]);
    assert running.tools[id := Ended] == ended.tools && ended.tools[id := Settled] == v.tools[id := Settled];
    ObserveOne(ended, outcome);
    ObserveOne(v, outcome);
    ObserveConcat(running, [ToolEnd(id)], [outcome]);
    ObserveOne(running, ToolEnd(id));
    assert [ToolEnd(id)] + [outcome] == [ToolEnd(id), outcome];
    ObserveOne(v, ToolStart(id, name, None));
    ObserveConcat(v, [ToolStart(id, name, None)], [ToolEnd(id), outcome]);
    assert [ToolStart(id, name, None)] + [ToolEnd(id), outcome] == [ToolStart(id, name, None), ToolEnd(id), outcome];
    if id in v.tools && v.tools[id] == Running { assert running == v; }
    if id in v.tools && v.tools[id] == Ended { assert ended == v; }
  }

  lemma SettleCallEvents(c: Calls, ns: Namespace, r: ToolResult)
    requires LivesOk(c)
    ensures var id, mark := ToolId(ns, r.callId), FingerprintOf(c, ns, r);
            var outcome := ToolOutcome(id, mark.message, r.content, r.attachments);
            SettleCall(c, ns, r).events ==
            if id in c.active then [ToolEnd(id), outcome]
            else if id in c.ended then [outcome]
            else [ToolStart(id, mark.name, None), ToolEnd(id), outcome]
  {
  }

  lemma SettledView(c: Calls, out: Calls, id: ScopedId, mark: Fingerprint)
    requires out.active == c.active - {id} && out.started == c.started + {id} && out.results == c.results[id := mark]
    ensures CallsView(out) == CallsView(c)[id := Settled]
  {
  }

  lemma SettleCallObserved(v: View, c: Calls, ns: Namespace, r: ToolResult)
    requires LivesOk(c) && ToolId(ns, r.callId) !in c.results
    ensures var out := SettleCall(c, ns, r);
            ObserveAll(v.(tools := CallsView(c)), out.events) == Some(v.(tools := CallsView(out.state)))
  {
    var id, mark, out := ToolId(ns, r.callId), FingerprintOf(c, ns, r), SettleCall(c, ns, r);
    assert out.state.active == c.active - {id};
    SettleCallShape(c, ns, r);
    SettleCallEvents(c, ns, r);
    hide SettleCall, CloseTool, Observe, ObserveAll;
    SettledView(c, out.state, id, mark);
    ObserveSettle(v.(tools := CallsView(c)), id, mark.name, ToolOutcome(id, mark.message, r.content, r.attachments));
  }

  lemma PublishResultKeeps(s: State, ns: Namespace, r: ToolResult)
    requires Consistent(s) && ToolId(ns, r.callId) !in s.calls.results
    ensures Keeps(s, PublishResult(s, ns, r))
  {
    var quiet := Quieted(s, ns);
    QuietedKeeps(s, ns);
    var cleared := Cleared(quiet.state, ns);
    ClearedKeeps(quiet.state, ns);
    Then(s, quiet, cleared);
    var calls := SettleCall(s.calls, ns, r);
    SettleCallOk(s.calls, ns, r);
    SettleCallObserved(ViewOf(cleared.state), s.calls, ns, r);
    CallsStep(cleared.state, calls);
    Then(s, Out(cleared.state, quiet.events + cleared.events), Out(cleared.state.(calls := calls.state), calls.events));
  }

  // ---- Baselines -------------------------------------------------------------

  /** The client learns of calls from a snapshot: they are over before the stream begins. */
  function Learn(v: View, ids: set<ScopedId>): View {
    v.(tools := v.tools + map id | id in ids :: Ended)
  }

  function CallIds(ns: Namespace, calls: seq<ToolCall>): set<ScopedId> {
    set i | 0 <= i < |calls| && Given(calls[i].id) :: ToolId(ns, calls[i].id.value)
  }

  function SnapshotIds(ns: Namespace, messages: seq<Prior>): set<ScopedId> {
    set i, id | 0 <= i < |messages| && messages[i].PriorAi? && id in CallIds(ns, messages[i].message.calls) :: id
  }

  /** The calls a frame makes known without ever emitting a start for them. */
  function NewlyKnown(s: State, frame: Frame): set<ScopedId> {
    if frame.Values? && frame.ns !in s.baselines.scopes
    then SnapshotIds(frame.ns, frame.messages) - s.calls.started else {}
  }

  /** Only the calls change, and they change by exactly `ids` becoming known and ended. */
  ghost predicate Knows(c: Calls, out: Calls, ids: set<ScopedId>) {
    && CallsOk(out)
    && out.active == c.active && out.results == c.results
    && out.started == c.started + ids && out.ended == c.ended + (ids - c.started)
  }

  lemma RememberLives(c: Calls, id: ScopedId, name: string)
    requires LivesOk(c) && id.kind == ToolKind
    ensures LivesOk(RememberCall(c, id, name)) && (id in c.started ==> c.started == c.started + {id})
    ensures c.ended + ({id} - c.started) == if id in c.started then c.ended else c.ended + {id}
  {
  }

  lemma RememberCallKnows(c: Calls, id: ScopedId, name: string)
    requires CallsOk(c) && id.kind == ToolKind
    ensures Knows(c, RememberCall(c, id, name), {id})
  {
    RememberLives(c, id, name);
    hide LivesOk;
  }

  lemma KnowsThen(a: Calls, b: Calls, c: Calls, first: set<ScopedId>, second: set<ScopedId>)
    requires Knows(a, b, first) && Knows(b, c, second)
    ensures Knows(a, c, first + second)
  {
  }

  lemma {:induction false} RememberCallsKnows(s: State, ns: Namespace, message: string, calls: seq<ToolCall>)
    requires CallsOk(s.calls)
    ensures var out := RememberCalls(s, ns, message, calls);
            && Knows(s.calls, out.calls, CallIds(ns, calls))
            && out.texts == s.texts && out.thoughts == s.thoughts && out.exposeReasoning == s.exposeReasoning
    decreases |calls|
  {
    if calls == [] {
      assert CallIds(ns, calls) == {};
    } else if !Given(calls[0].id) {
      RememberCallsKnows(s, ns, message, calls[1..]);
      CallIdsSplit(ns, calls);
    } else {
      var id := ToolId(ns, calls[0].id.value);
      var parents := if id in s.calls.started || message == "" then s.baselines.parents
                     else s.baselines.parents[id := MessageId(ns, message)];
      var next := s.(calls := RememberCall(s.calls, id, calls[0].name), baselines := s.baselines.(parents := parents));
      RememberCallKnows(s.calls, id, calls[0].name);
      RememberCallsKnows(next, ns, message, calls[1..]);
      CallIdsSplit(ns, calls);
      KnowsThen(s.calls, next.calls, RememberCalls(next, ns, message, calls[1..]).calls, {id}, CallIds(ns, calls[1..]));
    }
  }

  lemma CallIdsSplit(ns: Namespace, calls: seq<ToolCall>)
    requires calls != []
    ensures CallIds(ns, calls) == (if Given(calls[0].id) then {ToolId(ns, calls[0].id.value)} else {}) + CallIds(ns, calls[1..])
  {
    forall id | id in CallIds(ns, calls) && !(Given(calls[0].id) && id == ToolId(ns, calls[0].id.value))
      ensures id in CallIds(ns, calls[1..])
    {
      var i :| 0 <= i < |calls| && Given(calls[i].id) && id == ToolId(ns, calls[i].id.value);
      assert calls[1..][i - 1] == calls[i];
    }
    forall id | id in CallIds(ns, calls[1..]) ensures id in CallIds(ns, calls) {
      var i :| 0 <= i < |calls| - 1 && Given(calls[1..][i].id) && id == ToolId(ns, calls[1..][i].id.value);
      assert calls[1..][i] == calls[i + 1];
    }
  }

  lemma SnapshotIdsSplit(ns: Namespace, messages: seq<Prior>)
    requires messages != []
    ensures SnapshotIds(ns, messages) ==
            (if messages[0].PriorAi? then CallIds(ns, messages[0].message.calls) else {}) + SnapshotIds(ns, messages[1..])
  {
    var tail := messages[1..];
    forall id | id in SnapshotIds(ns, messages)
      ensures (messages[0].PriorAi? && id in CallIds(ns, messages[0].message.calls)) || id in SnapshotIds(ns, tail)
    {
      var i :| 0 <= i < |messages| && messages[i].PriorAi? && id in CallIds(ns, messages[i].message.calls);
      if i > 0 { assert tail[i - 1] == messages[i]; }
    }
    forall id | id in SnapshotIds(ns, tail) ensures id in SnapshotIds(ns, messages) {
      var i :| 0 <= i < |tail| && tail[i].PriorAi? && id in CallIds(ns, tail[i].message.calls);
      assert tail[i] == messages[i + 1];
    }
  }

  lemma {:induction false} RememberMessagesKnows(s: State, ns: Namespace, messages: seq<Prior>)
    requires CallsOk(s.calls)
    ensures var out := RememberMessages(s, ns, messages);
            && Knows(s.calls, out.calls, SnapshotIds(ns, messages))
            && out.texts == s.texts && out.thoughts == s.thoughts && out.exposeReasoning == s.exposeReasoning
    decreases |messages|
  {
    if messages == [] {
      assert SnapshotIds(ns, messages) == {};
    } else {
      var next := RememberMessage(s, ns, messages[0]);
      var ids := if messages[0].PriorAi? then CallIds(ns, messages[0].message.calls) else {};
      assert Knows(s.calls, next.calls, ids) && next.texts == s.texts && next.thoughts == s.thoughts
             && next.exposeReasoning == s.exposeReasoning by {
        if messages[0].PriorAi? {
          var m := messages[0].message;
          var noted := if m.id == "" then s
                       else s.(baselines := s.baselines.(messages := s.baselines.messages[(ns, m.id) := messages[0]]));
          RememberCallsKnows(noted, ns, m.id, m.calls);
        }
      }
      RememberMessagesKnows(next, ns, messages[1..]);
      SnapshotIdsSplit(ns, messages);
      KnowsThen(s.calls, next.calls, RememberMessages(next, ns, messages[1..]).calls, ids, SnapshotIds(ns, messages[1..]));
    }
  }

  lemma KnowsView(v: View, c: Calls, out: Calls, ids: set<ScopedId>)
    requires LivesOk(c) && Knows(c, out, ids)
    ensures CallsView(out) == Learn(v.(tools := CallsView(c)), ids - c.started).tools
  {
  }

  lemma RememberBaselineLearns(s: State, ns: Namespace, messages: seq<Prior>)
    requires Consistent(s)
    ensures Consistent(RememberBaseline(s, ns, messages))
    ensures ViewOf(RememberBaseline(s, ns, messages)) == Learn(ViewOf(s), NewlyKnown(s, Values(ns, messages)))
  {
    hide ObserveAll, RememberMessages, SlotsInvert, ActiveOk;
    if ns !in s.baselines.scopes {
      var noted := s.(baselines := s.baselines.(scopes := s.baselines.scopes + {ns}));
      RememberMessagesKnows(noted, ns, messages);
      KnowsView(ViewOf(s), s.calls, RememberMessages(noted, ns, messages).calls, SnapshotIds(ns, messages));
    } else {
      assert Learn(ViewOf(s), {}).tools == ViewOf(s).tools;
    }
  }

  // ---- One frame -------------------------------------------------------------

  /** The state after a frame, and the events that reach the client. */
  function After(s: State, frame: Frame): State {
    match Process(s, frame)
    case Done(next, _) => next
    case Rejected => s
    case Lost(next, _) => next
  }

  function Delivered(s: State, frame: Frame): seq<Event> {
    match Process(s, frame)
    case Done(_, events) => events
    case Rejected => []
    case Lost(_, _) => []
  }

  /** A frame leaves the dictionaries consistent even when its events are lost. */
  lemma ProcessKeepsConsistent(s: State, frame: Frame)
    requires Consistent(s)
    ensures Consistent(After(s, frame))
  {
    if Process(s, frame).Lost? {
      var c := if frame.AiChunk? then frame.chunk else ToChunk(frame.message);
      ProcessAiKeeps(s, frame.ns, c);
    } else {
      DeliveredEventsMatch(s, frame);
    }
  }

  /** What the client is told brings it to exactly the adapter's new state. */
  ghost predicate Matches(s: State, frame: Frame) {
    && Consistent(After(s, frame))
    && ObserveAll(Learn(ViewOf(s), NewlyKnown(s, frame)), Delivered(s, frame)) == Some(ViewOf(After(s, frame)))
  }

  lemma KeepsMatches(s: State, frame: Frame)
    requires NewlyKnown(s, frame) == {} && Keeps(s, Out(After(s, frame), Delivered(s, frame)))
    ensures Matches(s, frame)
  {
    assert Learn(ViewOf(s), {}).tools == ViewOf(s).tools;
  }

  lemma ValuesMatch(s: State, ns: Namespace, messages: seq<Prior>)
    requires Consistent(s)
    ensures Matches(s, Values(ns, messages))
  {
    hide Consistent, RememberBaseline, CloseAll, ViewOf, NewlyKnown, Learn;
    RememberBaselineLearns(s, ns, messages);
    CloseAllKeeps(RememberBaseline(s, ns, messages));
  }

  lemma FinishMatches(s: State)
    requires Consistent(s)
    ensures Matches(s, Finish)
  {
    hide Consistent, CloseAll, ViewOf, Learn;
    CloseAllKeeps(s);
    KeepsMatches(s, Finish);
  }

  lemma AiMatches(s: State, frame: Frame, c: Chunk)
    requires Consistent(s) && !Process(s, frame).Lost?
    requires (frame.AiChunk? && c == frame.chunk) || (frame.AiMessage? && c == ToChunk(frame.message))
    ensures Matches(s, frame)
  {
    hide Consistent, ProcessAi, Accepted, ToChunk, ViewOf, IsBaseline, Learn, Matches;
    ProcessAiKeeps(s, frame.ns, c);
    assert Keeps(s, Out(s, []));
    KeepsMatches(s, frame);
  }

  lemma ResultMatches(s: State, ns: Namespace, r: ToolResult)
    requires Consistent(s)
    ensures Matches(s, ToolMessage(ns, r))
  {
    hide Consistent, PublishResult, ViewOf, Learn, NameConflicts, IsBaseline, FingerprintOf;
    if ToolId(ns, r.callId) !in s.calls.results { PublishResultKeeps(s, ns, r); }
    assert Keeps(s, Out(s, []));
    KeepsMatches(s, ToolMessage(ns, r));
  }

  lemma DeliveredEventsMatch(s: State, frame: Frame)
    requires Consistent(s) && !Process(s, frame).Lost?
    ensures Matches(s, frame)
  {
    hide Consistent, Process, Matches;
    match frame
    case Values(ns, messages) => ValuesMatch(s, ns, messages);
    case Finish => FinishMatches(s);
    case AiChunk(ns, c) => AiMatches(s, frame, c);
    case AiMessage(ns, m) => AiMatches(s, frame, ToChunk(m));
    case ToolMessage(ns, r) => ResultMatches(s, ns, r);
  }

  // ---- Whole runs ------------------------------------------------------------

  function RunState(s: State, frames: seq<Frame>): State
    decreases |frames|
  {
    if frames == [] then s else RunState(After(s, frames[0]), frames[1..])
  }

  /** Everything the client receives. */
  function Trace(s: State, frames: seq<Frame>): seq<Event>
    decreases |frames|
  {
    if frames == [] then [] else Delivered(s, frames[0]) + Trace(After(s, frames[0]), frames[1..])
  }

  /** The calls that snapshots make known somewhere in the run. */
  function Known(s: State, frames: seq<Frame>): set<ScopedId>
    decreases |frames|
  {
    if frames == [] then {} else NewlyKnown(s, frames[0]) + Known(After(s, frames[0]), frames[1..])
  }

  /** Every frame brings the client to the adapter's new state. */
  ghost predicate AllMatch(s: State, frames: seq<Frame>)
    decreases |frames|
  {
    frames == [] || (Matches(s, frames[0]) && AllMatch(After(s, frames[0]), frames[1..]))
  }

  /** Events that never mention a call are accepted just as well when it is already known. */
  lemma LearnEarlierOne(v: View, e: Event, ids: set<ScopedId>)
    requires Observe(v, e).Some? && ids !! Observe(v, e).value.tools.Keys
    ensures Observe(Learn(v, ids), e) == Some(Learn(Observe(v, e).value, ids))
  {
    var next := Observe(v, e).value;
    if IsToolEvent(e) {
      assert e.id in next.tools;
      assert Learn(next, ids).tools == Learn(v, ids).tools[e.id := next.tools[e.id]];
    }
  }

  lemma {:induction false} LearnEarlier(v: View, events: seq<Event>, ids: set<ScopedId>)
    requires ObserveAll(v, events).Some? && ids !! ObserveAll(v, events).value.tools.Keys
    ensures ObserveAll(Learn(v, ids), events) == Some(Learn(ObserveAll(v, events).value, ids))
    decreases |events|
  {
    if events != [] {
      var next := Observe(v, events[0]).value;
      ToolsPersist(next, events[1..]);
      LearnEarlierOne(v, events[0], ids);
      LearnEarlier(next, events[1..], ids);
    }
  }

  lemma {:induction false} ToolsPersist(v: View, events: seq<Event>)
    requires ObserveAll(v, events).Some?
    ensures v.tools.Keys <= ObserveAll(v, events).value.tools.Keys
    decreases |events|
  {
    if events != [] { ToolsPersist(Observe(v, events[0]).value, events[1..]); }
  }

  lemma StartedPersists(s: State, frame: Frame)
    requires Matches(s, frame)
    ensures s.calls.started + NewlyKnown(s, frame) <= After(s, frame).calls.started
  {
    hide Consistent, Process;
    var v := Learn(ViewOf(s), NewlyKnown(s, frame));
    ToolsPersist(v, Delivered(s, frame));
    assert v.tools.Keys == s.calls.started + NewlyKnown(s, frame);
    assert ViewOf(After(s, frame)).tools.Keys == After(s, frame).calls.started;
  }

  lemma {:induction false} KnownWereNotStarted(s: State, frames: seq<Frame>)
    requires AllMatch(s, frames)
    ensures Known(s, frames) !! s.calls.started
    decreases |frames|
  {
    if frames != [] {
      StartedPersists(s, frames[0]);
      KnownWereNotStarted(After(s, frames[0]), frames[1..]);
    }
  }

  /**
   The whole trace is accepted from a view in which the checkpointed calls are already over, and the view it
   ends in is the one the dictionaries stand for.
   */
  lemma {:induction false} MatchingRunIsBalanced(s: State, frames: seq<Frame>)
    requires Consistent(s) && AllMatch(s, frames)
    ensures Consistent(RunState(s, frames))
    ensures ObserveAll(Learn(ViewOf(s), Known(s, frames)), Trace(s, frames)) == Some(ViewOf(RunState(s, frames)))
    decreases |frames|
  {
    if frames == [] {
      assert Learn(ViewOf(s), {}).tools == ViewOf(s).tools;
    } else {
      var next, rest := After(s, frames[0]), frames[1..];
      assert Consistent(next);
      hide Consistent, Process, After, Delivered, NewlyKnown, ObserveAll, ViewOf, Matches;
      MatchingRunIsBalanced(next, rest);
      KnownWereNotStarted(next, rest);
      BalanceStep(s, frames[0], next, Known(next, rest), Trace(next, rest), ViewOf(RunState(next, rest)));
    }
  }

  /** One balanced frame before a balanced rest; the calls the rest makes known can be known already. */
  lemma BalanceStep(s: State, frame: Frame, next: State, later: set<ScopedId>, rest: seq<Event>, end: View)
    requires Matches(s, frame) && next == After(s, frame) && later !! next.calls.started
    requires ObserveAll(Learn(ViewOf(next), later), rest) == Some(end)
    ensures ObserveAll(Learn(ViewOf(s), NewlyKnown(s, frame) + later), Delivered(s, frame) + rest) == Some(end)
  {
    hide Consistent, Process, NewlyKnown, After, Delivered, ObserveAll;
    var now := NewlyKnown(s, frame);
    assert ViewOf(next).tools.Keys == next.calls.started;
    LearnEarlier(Learn(ViewOf(s), now), Delivered(s, frame), later);
    LearnTwice(ViewOf(s), now, later);
    ObserveConcat(Learn(ViewOf(s), now + later), Delivered(s, frame), rest);
  }

  lemma LearnTwice(v: View, now: set<ScopedId>, later: set<ScopedId>)
    ensures Learn(Learn(v, now), later) == Learn(v, now + later)
  {
    assert Learn(Learn(v, now), later).tools == Learn(v, now + later).tools;
  }

  lemma FreshIsConsistent(prior: set<ScopedId>, exposeReasoning: bool)
    requires forall id | id in prior :: id.kind == ToolKind
    ensures Consistent(Fresh(prior, exposeReasoning))
    ensures var view := ViewOf(Fresh(prior, exposeReasoning));
            view.texts == map[] && view.reasoning.All() == {} && view.tools == map id | id in prior :: Ended
  {
  }

  lemma IdleView(s: State)
    requires AllIdle(s)
    ensures ViewOf(s).texts == map[] && ViewOf(s).reasoning.All() == {}
    ensures forall id | id in ViewOf(s).tools :: ViewOf(s).tools[id] != Running
  {
  }

  lemma FinishClosesAll(s: State)
    requires Consistent(s)
    ensures Delivered(s, Finish) == CloseAll(s).events && AllIdle(CloseAll(s).state)
    ensures ObserveAll(ViewOf(s), CloseAll(s).events) == Some(ViewOf(CloseAll(s).state))
  {
    hide Consistent, CloseAll, ViewOf, ObserveAll;
    CloseAllKeeps(s);
  }
}
