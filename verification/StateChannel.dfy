/**
 Root state synchronisation: snapshots and deltas sent to a client, and the replica
 the client builds from them. Closing the open message lifecycles, which the same
 frame does first, is in AguiStream.
 */
module StateChannel {
  import opened Json
  import opened JsonMinimal
  import opened JsonPatch
  import JsonPointer
  import opened Options

  /** One root values frame after private keys and messages have been removed. */
  datatype RootValues = RootValues(state: map<string, Json>, interrupted: bool)

  datatype StateEvent = StateSnapshot(state: Json) | StateDelta(patch: seq<Operation>) | MessagesSnapshot

  /** What one frame sends, given the last state the client was sent. */
  function Published(previous: Option<map<string, Json>>, frame: RootValues): seq<StateEvent> {
    if frame.interrupted then [StateSnapshot(Obj(frame.state)), MessagesSnapshot]
    else if previous.None? then
      if frame.state == map[] then [] else [StateSnapshot(Obj(frame.state))]
    else
      var patch := Diff(Obj(previous.value), Obj(frame.state), "");
      if patch == [] then [] else [StateDelta(patch)]
  }

  /** A frame with nothing to show cannot establish a baseline. */
  function Baseline(previous: Option<map<string, Json>>, frame: RootValues): Option<map<string, Json>> {
    if !frame.interrupted && previous.None? && frame.state == map[] then None else Some(frame.state)
  }

  class RootState {
    var previous: Option<map<string, Json>>

    constructor ()
      ensures previous == None
    {
      previous := None;
    }

    method Emit(frame: RootValues) returns (events: seq<StateEvent>)
      modifies this
      ensures events == Published(old(previous), frame)
      ensures previous == Baseline(old(previous), frame)
    {
      hide Diff;
      events := [];
      if frame.interrupted {
        events := events + [StateSnapshot(Obj(frame.state))];
        events := events + [MessagesSnapshot];
        previous := Some(frame.state);
        return;
      }
      if previous.None? && frame.state == map[] {
        return;
      }
      if previous.None? {
        events := events + [StateSnapshot(Obj(frame.state))];
      } else {
        var patch := Diff(Obj(previous.value), Obj(frame.state), "");
        if patch != [] {
          events := events + [StateDelta(patch)];
        }
      }
      previous := Some(frame.state);
    }
  }

  // ---- The client ------------------------------------------------------------

  /** A client holds nothing, a document, or has met a delta it could not apply. */
  datatype Replica = Nothing | Holding(document: Json) | Broken

  function Receive(replica: Replica, event: StateEvent): Replica {
    match event
    case StateSnapshot(state) => Holding(state)
    case MessagesSnapshot => replica
    case StateDelta(patch) =>
      if !replica.Holding? then Broken
      else
        var next := Apply(replica.document, patch);
        if next.None? then Broken else Holding(next.value)
  }

  function ReceiveAll(replica: Replica, events: seq<StateEvent>): Replica
    decreases |events|
  {
    if events == [] then replica else ReceiveAll(Receive(replica, events[0]), events[1..])
  }

  /** The replica and the adapter's baseline after a run of frames, both from the start. */
  ghost function Follow(frames: seq<RootValues>): (result: (Replica, Option<map<string, Json>>)) {
    if frames == [] then (Nothing, None)
    else
      var (replica, previous) := Follow(frames[..|frames| - 1]);
      var frame := frames[|frames| - 1];
      (ReceiveAll(replica, Published(previous, frame)), Baseline(previous, frame))
  }

  ghost predicate Blank(frame: RootValues) {
    !frame.interrupted && frame.state == map[]
  }

  function ReplicaOf(previous: Option<map<string, Json>>): Replica {
    if previous.None? then Nothing else Holding(Obj(previous.value))
  }

  lemma ReceiveOne(replica: Replica, event: StateEvent)
    ensures ReceiveAll(replica, [event]) == Receive(replica, event)
  {
    assert [event][1..] == [];
    assert ReceiveAll(Receive(replica, event), []) == Receive(replica, event);
  }

  lemma ReceiveSnapshots(replica: Replica, state: Json)
    ensures ReceiveAll(replica, [StateSnapshot(state), MessagesSnapshot]) == Holding(state)
  {
    var events := [StateSnapshot(state), MessagesSnapshot];
    assert events[1..] == [MessagesSnapshot];
    ReceiveOne(Holding(state), MessagesSnapshot);
  }

  lemma EmitKeepsReplicaCurrent(previous: Option<map<string, Json>>, frame: RootValues)
    ensures ReceiveAll(ReplicaOf(previous), Published(previous, frame)) ==
            if previous.None? && Blank(frame) then Nothing else Holding(Obj(frame.state))
  {
    var replica := ReplicaOf(previous);
    if frame.interrupted {
      ReceiveSnapshots(replica, Obj(frame.state));
    } else if previous.Some? {
      var patch := Diff(Obj(previous.value), Obj(frame.state), "");
      PatchTransformsPreviousIntoCurrent(Obj(previous.value), Obj(frame.state));
      PatchIsEmptyIffEqual(Obj(previous.value), Obj(frame.state));
      ReceiveOne(replica, StateDelta(patch));
    } else {
      ReceiveOne(replica, StateSnapshot(Obj(frame.state)));
    }
  }

  /**
   After every run of root frames the client holds exactly the last published state.
   It holds nothing only when no frame so far had anything to show.
   */
  lemma {:induction false} ReplicaFollowsEveryRun(frames: seq<RootValues>)
    ensures Follow(frames).0 ==
            if forall i | 0 <= i < |frames| :: Blank(frames[i]) then Nothing
            else Holding(Obj(frames[|frames| - 1].state))
    ensures Follow(frames).1 ==
            if forall i | 0 <= i < |frames| :: Blank(frames[i]) then None else Some(frames[|frames| - 1].state)
  {
    if frames != [] {
      var init, frame := frames[..|frames| - 1], frames[|frames| - 1];
      ReplicaFollowsEveryRun(init);
      EmitKeepsReplicaCurrent(Follow(init).1, frame);
      if forall i | 0 <= i < |init| :: Blank(init[i]) {
        assert Blank(frame) <==> forall i | 0 <= i < |frames| :: Blank(frames[i]);
      } else {
        var i :| 0 <= i < |init| && !Blank(init[i]);
        assert frames[i] == init[i];
      }
    }
  }

  /** A frame that repeats a known state sends nothing. */
  lemma RepeatedStateSendsNothing(state: map<string, Json>)
    ensures Published(Some(state), RootValues(state, false)) == []
    ensures forall other :: Published(Some(state), RootValues(other, false)) == [] ==> other == state
  {
    PatchIsEmptyIffEqual(Obj(state), Obj(state));
    forall other | Published(Some(state), RootValues(other, false)) == [] ensures other == state {
      PatchIsEmptyIffEqual(Obj(state), Obj(other));
    }
  }

  /** The patch between two states: exactly one operation for each place where they differ, in order. */
  ghost predicate IsPatchBetween(patch: seq<Operation>, before: Json, after: Json) {
    && (forall operation :: operation in patch <==> exists tokens :: StandsFor(operation, before, after, [], tokens))
    && InOrder(patch, 0)
  }

  lemma DiffIsPatchBetween(before: Json, after: Json)
    ensures IsPatchBetween(Diff(before, after, ""), before, after)
  {
    assert JsonPointer.PathOf([]) == "";
    DiffInOrder(before, after, []);
    forall operation
      ensures operation in Diff(before, after, "") <==> exists tokens :: StandsFor(operation, before, after, [], tokens)
    {
      PatchIsExactly(before, after, operation);
    }
  }

  /**
   What a frame sends after any run: an interrupted one the whole state and the messages, the first that has anything to
   show the whole state, every later one nothing but the patch from the last state, and nothing when it is the same.
   */
  lemma EveryRunSends(frames: seq<RootValues>, frame: RootValues)
    ensures var sent := Published(Follow(frames).1, frame);
            if frame.interrupted then sent == [StateSnapshot(Obj(frame.state)), MessagesSnapshot]
            else if forall i | 0 <= i < |frames| :: Blank(frames[i]) then
              sent == if Blank(frame) then [] else [StateSnapshot(Obj(frame.state))]
            else if frame.state == frames[|frames| - 1].state then sent == []
            else exists patch :: sent == [StateDelta(patch)]
                                 && IsPatchBetween(patch, Obj(frames[|frames| - 1].state), Obj(frame.state))
  {
    ReplicaFollowsEveryRun(frames);
    if !frame.interrupted && !(forall i | 0 <= i < |frames| :: Blank(frames[i])) {
      var before := frames[|frames| - 1].state;
      PatchIsEmptyIffEqual(Obj(before), Obj(frame.state));
      DiffIsPatchBetween(Obj(before), Obj(frame.state));
      hide IsPatchBetween;
      assert frame.state != before ==>
             Published(Follow(frames).1, frame) == [StateDelta(Diff(Obj(before), Obj(frame.state), ""))];
    }
  }
}
