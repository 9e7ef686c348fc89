/**
 Client and dictionaries stay in step exactly as long as every lost frame is harmless, and
 whether a frame is lost, and whether that does harm, can be read off the frame and the
 dictionaries before it is processed.
 */
module AguiInStep {
  import opened AguiBalance
  import opened AguiLoss
  import opened AguiRuns
  import opened AguiStream
  import opened AguiTrace
  import opened AguiTypes
  import opened Options

  // ---- Which frames are lost -------------------------------------------------

  /** An accepted frame with a fragment for a call that has ended. */
  predicate IsLateFrame(s: State, frame: Frame) {
    && frame.AiChunk? && Accepted(s, frame.ns, frame.chunk)
    && HasLate(s.calls, frame.ns, MessageId(frame.ns, frame.chunk.id), frame.chunk.tools)
  }

  lemma LostIffLate(s: State, frame: Frame)
    requires Consistent(s)
    ensures Process(s, frame).Lost? <==> IsLateFrame(s, frame)
  {
    match frame
    case AiChunk(ns, c) =>
      if Accepted(s, ns, c) { ChunkLostIffLate(s, ns, c); }
    case AiMessage(ns, m) => CompleteMessagesAreNeverLost(s, ns, m);
    case _ =>
  }

  predicate NoneLost(s: State, frames: seq<Frame>)
    decreases |frames|
  {
    frames == [] || (!Process(s, frames[0]).Lost? && NoneLost(After(s, frames[0]), frames[1..]))
  }

  predicate NoLate(s: State, frames: seq<Frame>)
    decreases |frames|
  {
    frames == [] || (!IsLateFrame(s, frames[0]) && NoLate(After(s, frames[0]), frames[1..]))
  }

  /** A run loses no frame exactly when none has a late fragment. */
  lemma {:induction false} NoneLostIffNoLate(s: State, frames: seq<Frame>)
    requires Consistent(s)
    ensures NoneLost(s, frames) <==> NoLate(s, frames)
    decreases |frames|
  {
    if frames != [] {
      LostIffLate(s, frames[0]);
      ProcessKeepsConsistent(s, frames[0]);
      hide Consistent, Process, After, IsLateFrame;
      NoneLostIffNoLate(After(s, frames[0]), frames[1..]);
    }
  }

  // ---- Which lost frames do harm ---------------------------------------------

  predicate ShowsText(c: Chunk) { c.text != "" || c.attachments != [] }

  /** The frame neither starts nor ends a text. */
  predicate TextStays(s: State, ns: Namespace, c: Chunk) {
    if ShowsText(c) then Showing(s.texts, ns, MessageId(ns, c.id))
    else ns in s.texts.open ==> s.texts.open[ns] == MessageId(ns, c.id) && (c.reasoning == "" || !s.exposeReasoning)
  }

  /** No reasoning is open that the tool fragments would end. */
  ghost predicate NothingThought(s: State, ns: Namespace) { forall key | key in s.thoughts.open :: key.ns != ns }

  /** Before the first late fragment a call starts. */
  predicate StartsCall(c: Calls, ns: Namespace, parent: ScopedId, tools: seq<ToolChunk>)
    decreases |tools|
  {
    tools != [] && !IsLate(c, ns, parent, tools[0])
    && ((Given(tools[0].id) && ToolId(ns, tools[0].id.value) !in c.started) || StartsCall(c, ns, parent, tools[1..]))
  }

  /** The client misses no start and no end. */
  ghost predicate Harmless(s: State, ns: Namespace, c: Chunk) {
    TextStays(s, ns, c) && NothingThought(s, ns) && !StartsCall(s.calls, ns, MessageId(ns, c.id), c.tools)
  }

  // ---- What a lost frame changes ---------------------------------------------

  lemma NamedFragmentStarts(c: Calls, ns: Namespace, parent: ScopedId, t: ToolChunk, id: ScopedId)
    requires CallsOk(c) && Fits(c, KeyOf(ns, parent, t), id)
    requires Given(t.id) && Given(t.name) && id == ToolId(ns, t.id.value)
    ensures var next := ToolFragment(c, ns, parent, t, id).state;
            next.started == c.started + {id} && next.results == c.results
  {
    FittingSlot(c, KeyOf(ns, parent, t), id);
    assert id in c.started ==> c.started == c.started + {id};
    assert LivesOk(c);
    hide CallsOk, FreeSlot, Fits;
  }

  lemma UnnamedFragmentStarts(c: Calls, ns: Namespace, parent: ScopedId, t: ToolChunk)
    requires CallsOk(c) && !Given(t.id) && KeyOf(ns, parent, t) in c.slots
    ensures var next := ToolFragment(c, ns, parent, t, c.slots[KeyOf(ns, parent, t)]).state;
            next.started == c.started && next.results == c.results
  {
    assert SlotsInvert(c.active, c.slots);
  }

  /** Fragments start calls and do nothing else a client could miss. */
  ghost predicate OnlyStarts(c: Calls, out: Calls) {
    c.started <= out.started && out.ended == c.ended && out.results == c.results
  }

  lemma {:induction false} FragmentsStart(c: Calls, ns: Namespace, parent: ScopedId, tools: seq<ToolChunk>,
                                          names: map<ScopedId, string>)
    requires CallsOk(c) && FragmentsAccepted(c, ns, parent, tools, c.history, names)
    ensures var out := ToolFragments(c, ns, parent, tools).state;
            OnlyStarts(c, out) && (out.started == c.started <==> !StartsCall(c, ns, parent, tools))
    decreases |tools|
  {
    hide CallsOk, ToolFragment, SamePast;
    if tools != [] {
      var t, key := tools[0], KeyOf(ns, parent, tools[0]);
      if Given(t.id) {
        var id := ToolId(ns, t.id.value);
        NamedFragment(c, ns, parent, t, id);
        NamedFragmentStarts(c, ns, parent, t, id);
        StartStep(c, ns, parent, tools, id, names[id := t.name.value]);
      } else if key in c.slots {
        UnnamedFragment(c, ns, parent, t);
        UnnamedFragmentStarts(c, ns, parent, t);
        StartStep(c, ns, parent, tools, c.slots[key], names);
      } else {
        assert IsLate(c, ns, parent, t);
      }
    }
  }

  lemma {:induction false} StartStep(c: Calls, ns: Namespace, parent: ScopedId, tools: seq<ToolChunk>, id: ScopedId,
                                     names: map<ScopedId, string>)
    requires CallsOk(c) && tools != [] && TargetOf(c, ns, parent, tools[0]) == Some(id)
    requires !IsLate(c, ns, parent, tools[0])
    requires var next := ToolFragment(c, ns, parent, tools[0], id).state;
             && SamePast(c, next) && next.results == c.results
             && next.started == (if Given(tools[0].id) then c.started + {id} else c.started)
             && FragmentsAccepted(c, ns, parent, tools[1..], next.history, names)
    ensures var out := ToolFragments(c, ns, parent, tools).state;
            OnlyStarts(c, out) && (out.started == c.started <==> !StartsCall(c, ns, parent, tools))
    decreases |tools|, 0
  {
    hide CallsOk, ToolFragment, SamePast, FragmentsAccepted;
    var next := ToolFragment(c, ns, parent, tools[0], id).state;
    ToolFragmentOk(c, ns, parent, tools[0], id);
    PastIsKept(c, next);
    AcceptedIgnoresProgress(c, next, ns, parent, tools[1..], next.history, names);
    FragmentsStart(next, ns, parent, tools[1..], names);
    var out := ToolFragments(next, ns, parent, tools[1..]).state;
    assert out == ToolFragments(c, ns, parent, tools).state;
    if next.started == c.started {
      StartsCallIsPast(c, next, ns, parent, tools[1..]);
      if Given(tools[0].id) { assert id in c.started; }
    } else {
      assert id in next.started && id !in c.started && id == ToolId(ns, tools[0].id.value);
    }
  }

  lemma PastIsKept(c: Calls, next: Calls)
    requires SamePast(c, next)
    ensures next.ended == c.ended && next.prior == c.prior
  {
  }

  lemma {:induction false} StartsCallIsPast(c: Calls, next: Calls, ns: Namespace, parent: ScopedId, tools: seq<ToolChunk>)
    requires SamePast(c, next) && next.started == c.started
    ensures StartsCall(c, ns, parent, tools) == StartsCall(next, ns, parent, tools)
    decreases |tools|
  {
    LateIsPast(c, next, ns, parent);
    if tools != [] { StartsCallIsPast(c, next, ns, parent, tools[1..]); }
  }

  lemma CallsViewSame(c: Calls, out: Calls)
    requires LivesOk(c) && LivesOk(out) && OnlyStarts(c, out)
    ensures CallsView(out) == CallsView(c) <==> out.started == c.started
  {
    if out.started == c.started {
      assert out.active.Keys == c.active.Keys;
    } else {
      assert CallsView(out).Keys == out.started && CallsView(c).Keys == c.started;
    }
  }

  /** The text left open by everything before the tool fragments. */
  lemma TextsBeforeTools(s: State, ns: Namespace, c: Chunk)
    ensures BeforeTools(s, ns, c).state.texts.open ==
            (if ShowsText(c) then s.texts.open[ns := MessageId(ns, c.id)]
             else if ns in s.texts.open && (s.texts.open[ns] != MessageId(ns, c.id) || (c.reasoning != "" && s.exposeReasoning))
             then s.texts.open - {ns}
             else s.texts.open)
  {
    hide Think, CloseThoughts;
  }

  ghost predicate SameElsewhere(a: Thoughts, b: Thoughts, ns: Namespace) {
    forall key: ScopedId | key.ns != ns :: key in b.open <==> key in a.open
  }

  lemma ThinkLeaves(r: Thoughts, key: ScopedId, delta: string)
    requires ThoughtsOk(r)
    ensures SameElsewhere(r, Think(r, key, delta).state, key.ns)
  {
    CloseThoughtsKeeps(View(map[], Reasoning({}, {}, {}), map[]), r, key.ns);
  }

  lemma ClosingLeaves(r: Thoughts, ns: Namespace)
    requires ThoughtsOk(r)
    ensures SameElsewhere(r, CloseThoughts(r, ns).state, ns)
  {
    CloseThoughtsKeeps(View(map[], Reasoning({}, {}, {}), map[]), r, ns);
  }

  lemma ReasoningThoughts(s: State, ns: Namespace, c: Chunk)
    requires ThoughtsOk(s.thoughts)
    ensures SameElsewhere(s.thoughts, ReasoningPart(s, ns, c).state.thoughts, ns)
  {
    ThinkLeaves(s.thoughts, MessageId(ns, c.id), c.reasoning);
    hide ThoughtsOk, Think, CloseText;
  }

  lemma TextThoughts(s: State, ns: Namespace, c: Chunk)
    requires ThoughtsOk(s.thoughts)
    ensures SameElsewhere(s.thoughts, TextPart(s, ns, c).state.thoughts, ns)
    ensures SameElsewhere(s.thoughts, AttachmentPart(s, ns, c).state.thoughts, ns)
    ensures StalePart(s, ns, c).state.thoughts == s.thoughts
  {
    ClosingLeaves(s.thoughts, ns);
    hide ThoughtsOk, CloseThoughts, CloseText, OpenText;
  }

  lemma ThoughtsBeforeTools(s: State, ns: Namespace, c: Chunk)
    requires Consistent(s)
    ensures SameElsewhere(s.thoughts, BeforeTools(s, ns, c).state.thoughts, ns)
  {
    hide ReasoningPart, StalePart, TextPart, AttachmentPart, ObserveAll, ViewOf, TextsOk, ThoughtsOk, CallsOk, Apart;
    var reasoning := ReasoningPart(s, ns, c);
    ReasoningPartKeeps(s, ns, c);
    ReasoningThoughts(s, ns, c);
    var stale := StalePart(reasoning.state, ns, c);
    StalePartKeeps(reasoning.state, ns, c);
    TextThoughts(reasoning.state, ns, c);
    var text := TextPart(stale.state, ns, c);
    TextPartKeeps(stale.state, ns, c);
    TextThoughts(stale.state, ns, c);
    TextThoughts(text.state, ns, c);
  }

  lemma LateMeansTools(s: State, ns: Namespace, c: Chunk)
    requires IsLateFrame(s, AiChunk(ns, c))
    ensures c.tools != []
  {
  }

  /** A lost frame leaves the state its tool fragments have reached. */
  lemma LostState(s: State, ns: Namespace, c: Chunk)
    requires Consistent(s) && IsLateFrame(s, AiChunk(ns, c))
    ensures var before, after := BeforeTools(s, ns, c).state, After(s, AiChunk(ns, c));
            && after.texts == before.texts
            && after.thoughts == CloseThoughts(before.thoughts, ns).state
            && after.calls == ToolFragments(s.calls, ns, MessageId(ns, c.id), c.tools).state
  {
    LostIffLate(s, AiChunk(ns, c));
    LateMeansTools(s, ns, c);
    BeforeToolsKeepsCalls(s, ns, c);
    hide Consistent, Accepted, HasLate, BeforeTools, ToolFragments, CloseThoughts;
  }

  lemma LostTexts(s: State, ns: Namespace, c: Chunk)
    requires Consistent(s) && IsLateFrame(s, AiChunk(ns, c))
    ensures After(s, AiChunk(ns, c)).texts.open == s.texts.open <==> TextStays(s, ns, c)
  {
    LostState(s, ns, c);
    TextsBeforeTools(s, ns, c);
    hide Consistent, IsLateFrame, BeforeTools, After;
    if ShowsText(c) {
      assert s.texts.open[ns := MessageId(ns, c.id)] == s.texts.open <==> Showing(s.texts, ns, MessageId(ns, c.id));
    } else if ns in s.texts.open {
      assert s.texts.open - {ns} != s.texts.open;
    }
  }

  lemma LostThoughts(s: State, ns: Namespace, c: Chunk)
    requires Consistent(s) && IsLateFrame(s, AiChunk(ns, c))
    ensures ThoughtsView(After(s, AiChunk(ns, c)).thoughts) == ThoughtsView(s.thoughts) <==> NothingThought(s, ns)
  {
    hide Consistent, IsLateFrame, BeforeTools, After, CloseThoughts;
    var before, after := BeforeTools(s, ns, c).state.thoughts, After(s, AiChunk(ns, c)).thoughts;
    LostState(s, ns, c);
    ThoughtsBeforeTools(s, ns, c);
    ThoughtsOkBeforeTools(s, ns, c);
    QuietElsewhere(s.thoughts, before, after, ns);
  }

  lemma ThoughtsOkBeforeTools(s: State, ns: Namespace, c: Chunk)
    requires Consistent(s)
    ensures ThoughtsOk(BeforeTools(s, ns, c).state.thoughts)
  {
    hide BeforeTools, ObserveAll, ViewOf, ThoughtsOk, CallsOk, TextsOk, Apart;
    BeforeToolsKeeps(s, ns, c);
  }

  /** Ending the reasoning of one namespace changes nothing exactly when none was open there. */
  lemma QuietElsewhere(start: Thoughts, before: Thoughts, after: Thoughts, ns: Namespace)
    requires SameElsewhere(start, before, ns) && ThoughtsOk(before) && after == CloseThoughts(before, ns).state
    ensures ThoughtsView(after) == ThoughtsView(start) <==> forall key | key in start.open :: key.ns != ns
  {
    CloseThoughtsKeeps(View(map[], Reasoning({}, {}, {}), map[]), before, ns);
    hide CloseThoughts, ThoughtsOk, ObserveAll;
    assert forall key :: key in after.open.Keys <==> key in start.open.Keys && key.ns != ns;
    if forall key | key in start.open :: key.ns != ns { assert after.open.Keys == start.open.Keys; }
  }

  lemma LostCalls(s: State, ns: Namespace, c: Chunk)
    requires Consistent(s) && IsLateFrame(s, AiChunk(ns, c))
    ensures CallsView(After(s, AiChunk(ns, c)).calls) == CallsView(s.calls) <==>
            !StartsCall(s.calls, ns, MessageId(ns, c.id), c.tools)
  {
    LostState(s, ns, c);
    var out := After(s, AiChunk(ns, c)).calls;
    FragmentsStart(s.calls, ns, MessageId(ns, c.id), c.tools, s.calls.names);
    ToolFragmentsKeeps(ViewOf(s), s.calls, ns, MessageId(ns, c.id), c.tools);
    hide Consistent, IsLateFrame, After, ToolFragments, CallsView, ObserveAll, StartsCall;
    CallsViewSame(s.calls, out);
  }

  /** A lost frame leaves the view as it was exactly when it neither starts nor ends anything. */
  lemma LostFrameKeepsViewIff(s: State, ns: Namespace, c: Chunk)
    requires Consistent(s) && IsLateFrame(s, AiChunk(ns, c))
    ensures ViewOf(After(s, AiChunk(ns, c))) == ViewOf(s) <==> Harmless(s, ns, c)
  {
    LostTexts(s, ns, c);
    LostThoughts(s, ns, c);
    LostCalls(s, ns, c);
    hide Consistent, IsLateFrame, After, ThoughtsView, CallsView, TextStays, NothingThought, StartsCall;
  }

  /** The events thrown away with a lost frame are what the client would have needed. */
  lemma DiscardedEventsMissing(s: State, ns: Namespace, c: Chunk)
    requires Consistent(s) && IsLateFrame(s, AiChunk(ns, c))
    ensures Process(s, AiChunk(ns, c)).Lost?
    ensures var discarded := Process(s, AiChunk(ns, c)).discarded;
            && ObserveAll(ViewOf(s), discarded) == Some(ViewOf(After(s, AiChunk(ns, c))))
            && (ObserveAll(ViewOf(s), discarded) == Some(ViewOf(s)) <==> Harmless(s, ns, c))
  {
    LostIffLate(s, AiChunk(ns, c));
    ProcessAiKeeps(s, ns, c);
    LostFrameKeepsViewIff(s, ns, c);
    hide Consistent, Accepted, HasLate, ProcessAi, ViewOf, Harmless, ObserveAll;
  }

  // ---- Whole runs ------------------------------------------------------------

  /** The frame is lost and the client misses a start or an end. */
  ghost predicate DoesHarm(s: State, frame: Frame) {
    IsLateFrame(s, frame) && !Harmless(s, frame.ns, frame.chunk)
  }

  lemma LostDelivers(s: State, frame: Frame)
    requires Consistent(s) && IsLateFrame(s, frame)
    ensures NewlyKnown(s, frame) == {} && Delivered(s, frame) == []
    ensures Learn(ViewOf(s), NewlyKnown(s, frame)) == ViewOf(s)
  {
    hide Consistent, Accepted, HasLate, Process, ViewOf, Learn;
    LostIffLate(s, frame);
    LearnNothing(ViewOf(s));
  }

  lemma LearnNothing(v: View)
    ensures Learn(v, {}) == v
  {
    assert Learn(v, {}).tools == v.tools;
  }

  lemma MatchesIff(s: State, frame: Frame)
    requires Consistent(s)
    ensures Matches(s, frame) <==> !DoesHarm(s, frame)
  {
    LostIffLate(s, frame);
    ProcessKeepsConsistent(s, frame);
    if IsLateFrame(s, frame) {
      LostDelivers(s, frame);
      LostFrameKeepsViewIff(s, frame.ns, frame.chunk);
    } else {
      DeliveredEventsMatch(s, frame);
    }
    hide Consistent, IsLateFrame, After, Delivered, NewlyKnown, ViewOf, Harmless, Learn, Process;
  }

  /** No frame does harm. */
  ghost predicate NoHarm(s: State, frames: seq<Frame>)
    decreases |frames|
  {
    frames == [] || (!DoesHarm(s, frames[0]) && NoHarm(After(s, frames[0]), frames[1..]))
  }

  lemma {:induction false} NoLateNoHarm(s: State, frames: seq<Frame>)
    requires NoLate(s, frames)
    ensures NoHarm(s, frames)
    decreases |frames|
  {
    if frames != [] {
      hide IsLateFrame, Harmless, After;
      NoLateNoHarm(After(s, frames[0]), frames[1..]);
    }
  }

  lemma {:induction false} AllMatchIff(s: State, frames: seq<Frame>)
    requires Consistent(s)
    ensures AllMatch(s, frames) <==> NoHarm(s, frames)
    decreases |frames|
  {
    if frames != [] {
      MatchesIff(s, frames[0]);
      ProcessKeepsConsistent(s, frames[0]);
      hide Consistent, Matches, DoesHarm, After;
      AllMatchIff(After(s, frames[0]), frames[1..]);
    }
  }

  /** The client's view of the trace is the one the dictionaries stand for. */
  ghost predicate InStep(s: State, frames: seq<Frame>) {
    ObserveAll(Learn(ViewOf(s), Known(s, frames)), Trace(s, frames)) == Some(ViewOf(RunState(s, frames)))
  }

  /** The whole trace is accepted, and the brackets it leaves open are the open entries of the dictionaries. */
  lemma EveryRunIsBalanced(s: State, frames: seq<Frame>)
    requires Consistent(s) && NoHarm(s, frames)
    ensures Consistent(RunState(s, frames)) && InStep(s, frames)
  {
    hide *;
    AllMatchIff(s, frames);
    MatchingRunIsBalanced(s, frames);
    InStepMeans(s, frames);
  }

  lemma InStepMeans(s: State, frames: seq<Frame>)
    ensures InStep(s, frames) <==>
            ObserveAll(Learn(ViewOf(s), Known(s, frames)), Trace(s, frames)) == Some(ViewOf(RunState(s, frames)))
  {
  }

  /** A run closed by `finish` or `abort` leaves nothing open at the client. */
  lemma FinishedRunLeavesNothingOpen(prior: set<ScopedId>, exposeReasoning: bool, frames: seq<Frame>)
    requires forall id | id in prior :: id.kind == ToolKind
    requires NoHarm(Fresh(prior, exposeReasoning), frames)
    ensures var s := Fresh(prior, exposeReasoning);
            var end := RunState(s, frames);
            var view := ObserveAll(Learn(ViewOf(s), Known(s, frames)), Trace(s, frames) + Delivered(end, Finish));
            && view.Some?
            && view.value.texts == map[] && view.value.reasoning.All() == {}
            && forall id | id in view.value.tools :: view.value.tools[id] != Running
  {
    var s := Fresh(prior, exposeReasoning);
    FreshIsConsistent(prior, exposeReasoning);
    hide Consistent, CloseAll, Fresh, Process, ObserveAll, ViewOf, Learn, NoHarm;
    EveryRunIsBalanced(s, frames);
    var end := RunState(s, frames);
    FinishClosesAll(end);
    IdleView(CloseAll(end).state);
    ObserveConcat(Learn(ViewOf(s), Known(s, frames)), Trace(s, frames), Delivered(end, Finish));
  }

  // ---- The converse ----------------------------------------------------------

  lemma {:induction false} OneFrameMore(s: State, frames: seq<Frame>, frame: Frame)
    ensures RunState(s, frames + [frame]) == After(RunState(s, frames), frame)
    ensures Trace(s, frames + [frame]) == Trace(s, frames) + Delivered(RunState(s, frames), frame)
    ensures Known(s, frames + [frame]) == Known(s, frames) + NewlyKnown(RunState(s, frames), frame)
    ensures NoHarm(s, frames + [frame]) <==> NoHarm(s, frames) && !DoesHarm(RunState(s, frames), frame)
    decreases |frames|
  {
    hide After, Delivered, NewlyKnown, DoesHarm;
    if frames == [] {
      assert [frame][1..] == [];
      assert frames + [frame] == [frame];
    } else {
      assert (frames + [frame])[0] == frames[0] && (frames + [frame])[1..] == frames[1..] + [frame];
      OneFrameMore(After(s, frames[0]), frames[1..], frame);
    }
  }

  /** The first frame that does harm leaves the client out of step. */
  lemma HarmShows(s: State, frames: seq<Frame>, frame: Frame)
    requires Consistent(s) && NoHarm(s, frames) && DoesHarm(RunState(s, frames), frame)
    ensures !InStep(s, frames + [frame])
  {
    hide *;
    var last, more := RunState(s, frames), frames + [frame];
    EveryRunIsBalanced(s, frames);
    OneFrameMore(s, frames, frame);
    HarmMeans(last, frame);
    LostDelivers(last, frame);
    LostFrameKeepsViewIff(last, frame.ns, frame.chunk);
    assert frame == AiChunk(frame.ns, frame.chunk);
    NothingAdded(s, frames, more);
  }

  /** A client that hears nothing new stays behind when the view moves on. */
  lemma NothingAdded(s: State, frames: seq<Frame>, more: seq<Frame>)
    requires InStep(s, frames) && ViewOf(RunState(s, more)) != ViewOf(RunState(s, frames))
    requires Known(s, more) == Known(s, frames) + {} && Trace(s, more) == Trace(s, frames) + []
    ensures !InStep(s, more)
  {
    hide Known, Trace, ViewOf, RunState, ObserveAll, Learn;
    assert Known(s, more) == Known(s, frames) && Trace(s, more) == Trace(s, frames);
  }

  lemma HarmMeans(s: State, frame: Frame)
    ensures DoesHarm(s, frame) <==> IsLateFrame(s, frame) && !Harmless(s, frame.ns, frame.chunk)
    ensures DoesHarm(s, frame) ==> frame.AiChunk?
  {
  }

  ghost predicate AlwaysInStep(s: State, frames: seq<Frame>) {
    forall n | 0 <= n <= |frames| :: InStep(s, frames[..n])
  }

  lemma AlwaysOneMore(s: State, frames: seq<Frame>, frame: Frame)
    ensures AlwaysInStep(s, frames + [frame]) <==> AlwaysInStep(s, frames) && InStep(s, frames + [frame])
  {
    hide InStep;
    var more := frames + [frame];
    assert forall n | 0 <= n <= |frames| :: more[..n] == frames[..n];
    assert more[..|more|] == more;
  }

  lemma AlwaysAtTheStart(s: State)
    requires InStep(s, [])
    ensures NoHarm(s, []) && AlwaysInStep(s, [])
  {
    hide InStep;
    var none: seq<Frame> := [];
    assert forall n | 0 <= n <= |none| :: none[..n] == [];
  }

  lemma StartsInStep(s: State)
    ensures InStep(s, [])
  {
    assert Learn(ViewOf(s), {}).tools == ViewOf(s).tools;
  }

  /**
   Client and dictionaries agree after every frame of a run exactly when no frame does
   harm: when every late frame starts and ends nothing.
   */
  lemma {:induction false} InStepIffNoHarm(s: State, frames: seq<Frame>)
    requires Consistent(s)
    ensures AlwaysInStep(s, frames) <==> NoHarm(s, frames)
    decreases |frames|
  {
    hide *;
    if frames == [] {
      StartsInStep(s);
      AlwaysAtTheStart(s);
    } else {
      var k := |frames| - 1;
      var before, last := frames[..k], frames[k];
      assert before + [last] == frames;
      InStepIffNoHarm(s, before);
      AlwaysOneMore(s, before, last);
      OneFrameMore(s, before, last);
      if NoHarm(s, before) && DoesHarm(RunState(s, before), last) { HarmShows(s, before, last); }
      if NoHarm(s, frames) { EveryRunIsBalanced(s, frames); }
    }
  }
}
