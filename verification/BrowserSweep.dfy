/**
 When a request finds the table full: it gets a session exactly when something can be
 retired and everything that can be retired closes; and a run in which it does not.

 The request is followed while no other caller moves and no other session changes: closes
 end as `ends` says, and only sessions that are being closed stop starting.
 */
module BrowserSweep {
  import opened BrowserManager

  // ---- An undisturbed call ---------------------------------------------------

  /** What a sweep retires. */
  predicate Retirable(t: Table, s: SlotId) { t.Has(s) && (!t.slots[s].closing.NotClosing? || t.slots[s].Unavailable()) }

  ghost predicate Quiet(w: World, c: Caller, ends: SlotId -> bool, action: Action) {
    match action
    case Proceed(d, _, _) => d == c
    case CloseEnds(s, ok) => ok == ends(s)
    case OpeningEnds(s, _) => w.table.Has(s) && !w.table.slots[s].closing.NotClosing?
    case _ => false
  }

  /** The call has a session to wait for, or has failed. */
  predicate Over(doing: Doing) { doing.Awaits? || doing.Idle? }

  ghost predicate QuietRun(w: World, c: Caller, ends: SlotId -> bool, actions: seq<Action>)
    decreases |actions|
  {
    actions == [] || (!Over(DoingOf(w, c)) && Quiet(w, c, ends, actions[0]) && QuietRun(Perform(w, actions[0]), c, ends, actions[1..]))
  }

  /** The closes that have ended did so as `ends` says. */
  ghost predicate EndsFit(t: Table, ends: SlotId -> bool) {
    forall s | s in t.slots && t.slots[s].closing.Closed? :: t.slots[s].closing.ok == ends(s)
  }

  /** The call is about to find all places taken by others. */
  ghost predicate FindsFull(w: World, c: Caller, ask: Ask, ends: SlotId -> bool) {
    && Inv(w) && w.shutdown.NotAsked? && DoingOf(w, c) == Asks(ask)
    && ask.key !in w.table.owners && |w.table.owners| == LIMIT && EndsFit(w.table, ends)
  }

  /** Something can be retired, and all of it closes. */
  ghost predicate PlaceCanBeFreed(t: Table, ends: SlotId -> bool) {
    && (exists k :: k in t.owners && Retirable(t, t.owners[k]))
    && (forall k | k in t.owners && Retirable(t, t.owners[k]) :: ends(t.owners[k]))
  }

  // ---- The invariant of the call ---------------------------------------------

  /** A place is as it was before the call, or was retired and given up. */
  ghost predicate PlaceOk(before: Table, now: Table, ends: SlotId -> bool, k: Key)
    requires k in before.owners
  {
    var s := before.owners[k];
    && (Retirable(now, s) <==> Retirable(before, s))
    && (if k in now.owners then now.owners[k] == s else Retirable(before, s) && ends(s))
  }

  ghost predicate PlacesOk(before: Table, now: Table, ends: SlotId -> bool) {
    && (forall k | k in now.owners :: k in before.owners)
    && (forall k | k in before.owners :: PlaceOk(before, now, ends, k))
    && EndsFit(now, ends)
  }

  /** The places that the sweep has gone through are free if they were to be retired. */
  ghost predicate Swept(before: Table, now: Table, rest: map<Key, SlotId>, spared: set<Key>, retired: bool) {
    && (forall k | k in rest :: k in before.owners && rest[k] == before.owners[k] && k in now.owners)
    && (forall k | k in before.owners && k !in rest && k !in spared && Retirable(before, before.owners[k]) :: k !in now.owners)
    && (forall k | k in before.owners && k !in rest && !Retirable(before, before.owners[k]) :: k in now.owners)
    && (retired <==> exists k :: k in before.owners && k !in rest && Retirable(before, before.owners[k]))
  }

  ghost predicate Phase(before: Table, now: Table, ends: SlotId -> bool, ask: Ask, doing: Doing) {
    match doing
    case Asks(a) => a == ask && (if |now.owners| >= LIMIT then now.owners == before.owners else PlaceCanBeFreed(before, ends))
    case Sweeps(a, rest, retired) => a == ask && Swept(before, now, rest, {}, retired)
    case Retires(key, s, next) =>
      && next.Sweeps? && next.ask == ask && key in before.owners && before.owners[key] == s && key !in next.rest
      && Retirable(before, s) && now.Has(s) && !now.slots[s].closing.NotClosing?
      && Swept(before, now, next.rest, {key}, next.retired)
    case Awaits(a, s) => a == ask && ask.key in now.owners && now.owners[ask.key] == s && PlaceCanBeFreed(before, ends)
    case Idle => !PlaceCanBeFreed(before, ends)
  }

  ghost predicate Calling(before: Table, w: World, c: Caller, ask: Ask, ends: SlotId -> bool) {
    && Inv(w) && w.shutdown.NotAsked? && ask.key !in before.owners && OwnersKnown(before) && |before.owners| == LIMIT
    && (!Over(DoingOf(w, c)) ==> PlacesOk(before, w.table, ends))
    && Phase(before, w.table, ends, ask, DoingOf(w, c))
  }

  // ---- Steps of other parts --------------------------------------------------

  /** Closing and starting tasks go on; no place changes hands and nothing becomes retirable. */
  ghost predicate OnlyTasks(t: Table, u: Table, ends: SlotId -> bool) {
    && u.owners == t.owners && Onward(t, u) && (forall s | s in u.slots :: s in t.slots)
    && (forall s | s in t.slots :: Retirable(u, s) <==> Retirable(t, s))
    && (EndsFit(t, ends) ==> EndsFit(u, ends))
  }

  lemma TaskSteps(w: World, c: Caller, ends: SlotId -> bool, action: Action)
    requires Enabled(w, action) && Quiet(w, c, ends, action) && !action.Proceed?
    ensures var next := Act(w, action);
            OnlyTasks(w.table, next.table, ends) && next.callers == w.callers && next.shutdown == w.shutdown
  {
  }

  lemma TasksKeepPlaces(before: Table, t: Table, u: Table, ends: SlotId -> bool)
    requires PlacesOk(before, t, ends) && OnlyTasks(t, u, ends) && TableOk(t)
    requires forall k | k in before.owners :: t.Has(before.owners[k])
    ensures PlacesOk(before, u, ends)
  {
    forall k | k in before.owners ensures PlaceOk(before, u, ends, k) {
      assert PlaceOk(before, t, ends, k);
    }
  }

  lemma TasksKeepPhase(before: Table, t: Table, u: Table, ends: SlotId -> bool, ask: Ask, doing: Doing)
    requires Phase(before, t, ends, ask, doing) && OnlyTasks(t, u, ends)
    ensures Phase(before, u, ends, ask, doing)
  {
  }

  // ---- Steps of the call -----------------------------------------------------

  lemma LookPhase(before: Table, w: World, c: Caller, ask: Ask, ends: SlotId -> bool, newSlot: SlotId, pick: Key)
    requires Calling(before, w, c, ask, ends) && DoingOf(w, c).Asks? && CanProceed(w, c, newSlot, pick)
    ensures var (u, doing) := Proceeded(w, c, newSlot, pick);
            Phase(before, u, ends, ask, doing) && (!Over(doing) ==> PlacesOk(before, u, ends))
  {
    assert ask.key !in w.table.owners;
  }

  lemma SweepEndPhase(before: Table, w: World, c: Caller, ask: Ask, ends: SlotId -> bool, newSlot: SlotId, pick: Key)
    requires Calling(before, w, c, ask, ends) && DoingOf(w, c).Sweeps? && DoingOf(w, c).rest.Keys == {}
    requires CanProceed(w, c, newSlot, pick)
    ensures var (u, doing) := Proceeded(w, c, newSlot, pick);
            u == w.table && Phase(before, u, ends, ask, doing) && (!Over(doing) ==> PlacesOk(before, u, ends))
  {
    var doing := DoingOf(w, c);
    var now := w.table;
    assert forall k :: k !in doing.rest;
    if doing.retired {
      var k :| k in before.owners && k !in doing.rest && Retirable(before, before.owners[k]);
      assert k !in now.owners;
      assert now.owners.Keys <= before.owners.Keys - {k};
      Smaller(now.owners.Keys, before.owners.Keys - {k});
      forall j | j in before.owners && Retirable(before, before.owners[j]) ensures ends(before.owners[j]) {
        assert PlaceOk(before, now, ends, j);
      }
    }
  }

  lemma Smaller<T>(a: set<T>, b: set<T>)
    requires a <= b
    ensures |a| <= |b|
  {
    if a != b {
      var x :| x in b && x !in a;
      Smaller(a, b - {x});
    }
  }

  lemma SweepOnePhase(before: Table, w: World, c: Caller, ask: Ask, ends: SlotId -> bool, newSlot: SlotId, pick: Key)
    requires Calling(before, w, c, ask, ends) && DoingOf(w, c).Sweeps? && DoingOf(w, c).rest.Keys != {}
    requires CanProceed(w, c, newSlot, pick)
    ensures var (u, doing) := Proceeded(w, c, newSlot, pick);
            Phase(before, u, ends, ask, doing) && PlacesOk(before, u, ends) && !Over(doing)
  {
    var sweep := DoingOf(w, c);
    var s := sweep.rest[pick];
    var left := sweep.rest - {pick};
    assert PlaceOk(before, w.table, ends, pick);
    assert Proceeded(w, c, newSlot, pick) == SweepOne(w.table, sweep, pick);
    var (u, doing) := SweepOne(w.table, sweep, pick);
    if Retirable(before, s) {
      SweepKeepsPlaces(before, w.table, ends, s);
      assert Swept(before, u, left, {pick}, true);
    } else {
      assert Swept(before, u, left, {}, sweep.retired);
    }
  }

  lemma SweepKeepsPlaces(before: Table, t: Table, ends: SlotId -> bool, s: SlotId)
    requires PlacesOk(before, t, ends) && Retirable(t, s)
    ensures PlacesOk(before, BeginClose(t, s), ends)
  {
    var u := BeginClose(t, s);
    forall k | k in before.owners ensures PlaceOk(before, u, ends, k) {
      assert PlaceOk(before, t, ends, k);
    }
  }

  lemma RetirePhase(before: Table, w: World, c: Caller, ask: Ask, ends: SlotId -> bool, newSlot: SlotId, pick: Key)
    requires Calling(before, w, c, ask, ends) && DoingOf(w, c).Retires? && CanProceed(w, c, newSlot, pick)
    ensures var (u, doing) := Proceeded(w, c, newSlot, pick);
            Phase(before, u, ends, ask, doing) && (!Over(doing) ==> PlacesOk(before, u, ends))
  {
    var doing := DoingOf(w, c);
    var t := w.table;
    assert t.slots[doing.slot].closing.ok == ends(doing.slot);
    assert PlaceOk(before, t, ends, doing.key);
    if t.slots[doing.slot].closing.ok {
      var u := Release(t, doing.key, doing.slot);
      assert doing.key !in u.owners;
      forall k | k in before.owners ensures PlaceOk(before, u, ends, k) {
        assert PlaceOk(before, t, ends, k);
      }
      assert Swept(before, u, doing.next.rest, {}, doing.next.retired);
    }
  }

  lemma CallPhase(before: Table, w: World, c: Caller, ask: Ask, ends: SlotId -> bool, newSlot: SlotId, pick: Key)
    requires Calling(before, w, c, ask, ends) && !Over(DoingOf(w, c)) && CanProceed(w, c, newSlot, pick)
    ensures var (u, doing) := Proceeded(w, c, newSlot, pick);
            Phase(before, u, ends, ask, doing) && (!Over(doing) ==> PlacesOk(before, u, ends))
  {
    hide Phase, PlacesOk, Proceeded, CanProceed, Inv, Calling;
    match DoingOf(w, c)
    case Asks(_) => LookPhase(before, w, c, ask, ends, newSlot, pick);
    case Retires(_, _, _) => RetirePhase(before, w, c, ask, ends, newSlot, pick);
    case Sweeps(_, rest, _) =>
      if rest.Keys == {} { SweepEndPhase(before, w, c, ask, ends, newSlot, pick); }
      else { SweepOnePhase(before, w, c, ask, ends, newSlot, pick); }
  }

  /** The places of a call are places of slots that the table knows. */
  lemma PlacesHave(before: Table, t: Table, ends: SlotId -> bool)
    requires PlacesOk(before, t, ends) && OwnersKnown(t)
    ensures forall k | k in before.owners :: t.Has(before.owners[k])
  {
    forall k | k in before.owners ensures t.Has(before.owners[k]) {
      assert PlaceOk(before, t, ends, k);
    }
  }

  lemma StepKeepsCalling(before: Table, w: World, c: Caller, ask: Ask, ends: SlotId -> bool, action: Action)
    requires Calling(before, w, c, ask, ends) && !Over(DoingOf(w, c)) && Quiet(w, c, ends, action)
    ensures Calling(before, Perform(w, action), c, ask, ends)
  {
    if Enabled(w, action) {
      var next := Act(w, action);
      ActKeeps(w, action);
      if action.Proceed? {
        CallPhase(before, w, c, ask, ends, action.newSlot, action.pick);
        hide Phase, PlacesOk, Inv, Proceeded, CanProceed;
      } else {
        TaskSteps(w, c, ends, action);
        PlacesHave(before, w.table, ends);
        TasksKeepPlaces(before, w.table, next.table, ends);
        TasksKeepPhase(before, w.table, next.table, ends, ask, DoingOf(w, c));
        hide Phase, PlacesOk, Inv, Act;
      }
    }
  }

  lemma {:induction false} RunKeepsCalling(before: Table, w: World, c: Caller, ask: Ask, ends: SlotId -> bool, actions: seq<Action>)
    requires Calling(before, w, c, ask, ends) && QuietRun(w, c, ends, actions)
    ensures Calling(before, RunAll(w, actions), c, ask, ends)
    decreases |actions|
  {
    if actions != [] {
      StepKeepsCalling(before, w, c, ask, ends, actions[0]);
      hide Calling, Quiet, Perform;
      RunKeepsCalling(before, Perform(w, actions[0]), c, ask, ends, actions[1..]);
    }
  }

  lemma FullIsCalling(w: World, c: Caller, ask: Ask, ends: SlotId -> bool)
    requires FindsFull(w, c, ask, ends)
    ensures Calling(w.table, w, c, ask, ends)
  {
  }

  /**
   However the closes end and in whatever order the sweep goes: a call that finds the table full gets a
   session exactly when there was something to retire and all of it closes.
   */
  lemma FullTableGivesSessionIff(w: World, c: Caller, ask: Ask, ends: SlotId -> bool, actions: seq<Action>)
    requires FindsFull(w, c, ask, ends) && QuietRun(w, c, ends, actions) && Over(DoingOf(RunAll(w, actions), c))
    ensures DoingOf(RunAll(w, actions), c).Awaits? <==> PlaceCanBeFreed(w.table, ends)
    ensures var end := RunAll(w, actions);
            DoingOf(end, c).Awaits? ==> ask.key in end.table.owners && end.table.owners[ask.key] == DoingOf(end, c).slot
  {
    FullIsCalling(w, c, ask, ends);
    RunKeepsCalling(w.table, w, c, ask, ends, actions);
    hide RunAll, PlaceCanBeFreed, QuietRun, FindsFull;
  }

  // ---- Every call can end ----------------------------------------------------

  /** A session that failed to start closes without an error. */
  ghost predicate Feasible(t: Table, ends: SlotId -> bool) {
    forall s | s in t.slots && t.slots[s].opening.Failed? && !t.slots[s].closing.Closed? :: ends(s)
  }

  /** How far a close has come. */
  function Left(t: Table, s: SlotId): nat {
    if !t.Has(s) || t.slots[s].closing.Closed? then 0 else if t.slots[s].opening.Starting? then 2 else 1
  }

  function Stage(w: World, c: Caller): nat {
    match DoingOf(w, c)
    case Asks(_) => if |w.table.owners| >= LIMIT then 3 else 1
    case Sweeps(_, _, _) => 2
    case Retires(_, _, _) => 2
    case _ => 0
  }

  function RestOf(w: World, c: Caller): nat {
    match DoingOf(w, c)
    case Sweeps(_, rest, _) => |rest.Keys|
    case Retires(_, _, next) => if next.Sweeps? then |next.rest.Keys| else 0
    case _ => 0
  }

  function Progress(w: World, c: Caller): nat {
    if DoingOf(w, c).Retires? then 1 + Left(w.table, DoingOf(w, c).slot) else 0
  }

  /** The next step of the call, or of the close it waits for. */
  ghost function NextStep(w: World, c: Caller, ends: SlotId -> bool, newSlot: SlotId): Action {
    match DoingOf(w, c)
    case Retires(_, s, _) =>
      if Left(w.table, s) == 0 then Proceed(c, newSlot, ("", ""))
      else if Left(w.table, s) == 2 then OpeningEnds(s, true)
      else CloseEnds(s, ends(s))
    case Sweeps(_, rest, _) =>
      if rest.Keys == {} then Proceed(c, newSlot, ("", ""))
      else
        var pick :| pick in rest;
        Proceed(c, newSlot, pick)
    case _ => Proceed(c, newSlot, ("", ""))
  }

  /** The step is possible, and brings the call nearer to its end. */
  ghost predicate Advances(w: World, c: Caller, ends: SlotId -> bool, newSlot: SlotId, action: Action) {
    Enabled(w, action) && Quiet(w, c, ends, action) &&
    var next := Act(w, action);
    && Feasible(next.table, ends) && (!Over(DoingOf(next, c)) ==> !next.table.Has(newSlot))
    && (Over(DoingOf(next, c)) || Stage(next, c) < Stage(w, c)
        || (Stage(next, c) == Stage(w, c) && RestOf(next, c) < RestOf(w, c))
        || (Stage(next, c) == Stage(w, c) && RestOf(next, c) == RestOf(w, c) && Progress(next, c) < Progress(w, c)))
  }

  ghost predicate Going(before: Table, w: World, c: Caller, ask: Ask, ends: SlotId -> bool, newSlot: SlotId) {
    Calling(before, w, c, ask, ends) && !Over(DoingOf(w, c)) && Feasible(w.table, ends) && !w.table.Has(newSlot)
  }

  lemma LookAdvances(before: Table, w: World, c: Caller, ask: Ask, ends: SlotId -> bool, newSlot: SlotId)
    requires Going(before, w, c, ask, ends, newSlot) && DoingOf(w, c).Asks?
    ensures Advances(w, c, ends, newSlot, Proceed(c, newSlot, ("", "")))
  {
    assert ask.key !in w.table.owners;
    assert CanProceed(w, c, newSlot, ("", ""));
  }

  lemma SweepAdvances(before: Table, w: World, c: Caller, ask: Ask, ends: SlotId -> bool, newSlot: SlotId, pick: Key)
    requires Going(before, w, c, ask, ends, newSlot) && DoingOf(w, c).Sweeps?
    requires DoingOf(w, c).rest.Keys != {} ==> pick in DoingOf(w, c).rest
    ensures Advances(w, c, ends, newSlot, Proceed(c, newSlot, pick))
  {
    var sweep := DoingOf(w, c);
    if sweep.rest.Keys == {} {
      assert CanProceed(w, c, newSlot, pick);
      SweepEndPhase(before, w, c, ask, ends, newSlot, pick);
      if sweep.retired { FreedIsSmaller(before, w, c, ask, ends); }
    } else {
      assert PlaceOk(before, w.table, ends, pick);
      assert CanProceed(w, c, newSlot, pick);
      assert Proceeded(w, c, newSlot, pick) == SweepOne(w.table, sweep, pick);
      assert (sweep.rest - {pick}).Keys == sweep.rest.Keys - {pick};
    }
  }

  lemma FreedIsSmaller(before: Table, w: World, c: Caller, ask: Ask, ends: SlotId -> bool)
    requires Calling(before, w, c, ask, ends) && DoingOf(w, c).Sweeps? && DoingOf(w, c).rest.Keys == {} && DoingOf(w, c).retired
    ensures |w.table.owners| < LIMIT
  {
    var doing := DoingOf(w, c);
    assert forall k :: k !in doing.rest;
    var k :| k in before.owners && k !in doing.rest && Retirable(before, before.owners[k]);
    assert w.table.owners.Keys <= before.owners.Keys - {k};
    Smaller(w.table.owners.Keys, before.owners.Keys - {k});
  }

  lemma RetiredAdvances(before: Table, w: World, c: Caller, ask: Ask, ends: SlotId -> bool, newSlot: SlotId)
    requires Going(before, w, c, ask, ends, newSlot) && DoingOf(w, c).Retires? && Left(w.table, DoingOf(w, c).slot) == 0
    ensures Advances(w, c, ends, newSlot, Proceed(c, newSlot, ("", "")))
  {
    assert CanProceed(w, c, newSlot, ("", ""));
    hide PlacesOk, Swept, Inv;
  }

  /** A start that was stopped ends, and then the close does. */
  lemma ClosingAdvances(before: Table, w: World, c: Caller, ask: Ask, ends: SlotId -> bool, newSlot: SlotId)
    requires Going(before, w, c, ask, ends, newSlot) && DoingOf(w, c).Retires? && Left(w.table, DoingOf(w, c).slot) > 0
    ensures var s := DoingOf(w, c).slot;
            Advances(w, c, ends, newSlot, if Left(w.table, s) == 2 then OpeningEnds(s, true) else CloseEnds(s, ends(s)))
  {
    var s := DoingOf(w, c).slot;
    assert w.table.Has(s) && !w.table.slots[s].closing.NotClosing?;
    hide PlacesOk, Swept, Inv;
  }

  lemma GoingAdvances(before: Table, w: World, c: Caller, ask: Ask, ends: SlotId -> bool, newSlot: SlotId)
    requires Going(before, w, c, ask, ends, newSlot)
    ensures Advances(w, c, ends, newSlot, NextStep(w, c, ends, newSlot))
  {
    match DoingOf(w, c)
    case Asks(_) => LookAdvances(before, w, c, ask, ends, newSlot);
    case Retires(_, s, _) =>
      hide Going, Advances;
      if Left(w.table, s) == 0 { RetiredAdvances(before, w, c, ask, ends, newSlot); }
      else { ClosingAdvances(before, w, c, ask, ends, newSlot); }
    case Sweeps(_, rest, _) =>
      hide Going, Advances;
      SweepAdvances(before, w, c, ask, ends, newSlot, NextStep(w, c, ends, newSlot).pick);
  }

  /** Every call that finds the table full can come to its end. */
  lemma {:induction false} CallCanEnd(before: Table, w: World, c: Caller, ask: Ask, ends: SlotId -> bool, newSlot: SlotId)
    returns (actions: seq<Action>)
    requires Calling(before, w, c, ask, ends) && Feasible(w.table, ends) && (!Over(DoingOf(w, c)) ==> !w.table.Has(newSlot))
    ensures QuietRun(w, c, ends, actions) && Over(DoingOf(RunAll(w, actions), c))
    decreases Stage(w, c), RestOf(w, c), Progress(w, c)
  {
    if Over(DoingOf(w, c)) {
      actions := [];
    } else {
      var action := NextStep(w, c, ends, newSlot);
      GoingAdvances(before, w, c, ask, ends, newSlot);
      StepKeepsCalling(before, w, c, ask, ends, action);
      hide Calling, Feasible, Enabled, Act, Quiet, NextStep;
      var next := Perform(w, action);
      var rest: seq<Action>;
      if Over(DoingOf(next, c)) { rest := []; } else { rest := CallCanEnd(before, next, c, ask, ends, newSlot); }
      actions := [action] + rest;
      assert actions[1..] == rest;
    }
  }

  // ---- A run with a refused request ------------------------------------------

  const Plain: Permissions := Permissions(true, false, [])

  function KeyOf(n: nat): Key { ("work", seq(n, _ => 'a')) }

  lemma KeysDiffer(m: nat, n: nat)
    requires KeyOf(m) == KeyOf(n)
    ensures m == n
  {
    assert |KeyOf(m).1| == m && |KeyOf(n).1| == n;
  }

  ghost predicate FilledOwners(t: Table, n: nat) {
    && |t.owners| == n
    && (forall k | k in t.owners :: exists i: nat :: i < n && k == KeyOf(i))
    && (forall i: nat | i < n :: KeyOf(i) in t.owners && t.owners[KeyOf(i)] == i)
  }

  ghost predicate FilledSlots(t: Table, n: nat) {
    && (forall s | s in t.slots :: s < n && t.slots[s] == Slot(KeyOf(s), Plain, Starting, NotClosing))
    && (forall s: nat | s < n :: s in t.slots)
  }

  /** The first `n` callers have asked, and each of their sessions is starting. */
  ghost predicate IsFilled(w: World, n: nat) {
    w.shutdown.NotAsked? && FilledOwners(w.table, n) && FilledSlots(w.table, n) && forall c | c >= n :: DoingOf(w, c).Idle?
  }

  /** Caller `n` asks for the key of its number. */
  function Pair(n: nat): seq<Action> { [Begin(n, Ask(KeyOf(n), Plain)), Proceed(n, n, ("", ""))] }

  function Fill(n: nat): seq<Action> { if n == 0 then [] else Fill(n - 1) + Pair(n - 1) }

  lemma {:induction false} RunConcat(w: World, a: seq<Action>, b: seq<Action>)
    ensures RunAll(w, a + b) == RunAll(RunAll(w, a), b)
    decreases |a|
  {
    if a == [] {
      assert a + b == b;
    } else {
      hide Perform;
      assert (a + b)[0] == a[0] && (a + b)[1..] == a[1..] + b;
      RunConcat(Perform(w, a[0]), a[1..], b);
    }
  }

  lemma RunOne(w: World, a: Action)
    ensures RunAll(w, [a]) == Perform(w, a)
  {
    assert [a][1..] == [];
  }

  lemma RunTwo(w: World, a: Action, b: Action)
    ensures RunAll(w, [a, b]) == Perform(Perform(w, a), b)
  {
    hide Perform;
    assert [a, b][1..] == [b];
    RunOne(Perform(w, a), b);
  }

  lemma NewKey(t: Table, n: nat)
    requires FilledOwners(t, n)
    ensures KeyOf(n) !in t.owners
  {
    if KeyOf(n) in t.owners {
      var i: nat :| i < n && KeyOf(n) == KeyOf(i);
      KeysDiffer(n, i);
    }
  }

  lemma OwnersMore(t: Table, n: nat)
    requires FilledOwners(t, n)
    ensures FilledOwners(Add(t, Ask(KeyOf(n), Plain), n), n + 1)
  {
    NewKey(t, n);
    var u := Add(t, Ask(KeyOf(n), Plain), n);
    assert u.owners.Keys == t.owners.Keys + {KeyOf(n)};
    forall i: nat | i < n + 1 ensures KeyOf(i) in u.owners && u.owners[KeyOf(i)] == i {
      if KeyOf(i) == KeyOf(n) { KeysDiffer(i, n); }
    }
    hide KeyOf;
  }

  lemma SlotsMore(t: Table, n: nat)
    requires FilledSlots(t, n)
    ensures FilledSlots(Add(t, Ask(KeyOf(n), Plain), n), n + 1)
  {
    hide KeyOf;
  }

  lemma FilledHas(t: Table, n: nat)
    requires FilledOwners(t, n) && FilledSlots(t, n)
    ensures forall k | k in t.owners :: t.Has(t.owners[k])
  {
    hide KeyOf;
  }

  /** A caller asks for a new key while there is room. */
  lemma OpenOne(w: World, n: nat, key: Key)
    requires w.shutdown.NotAsked? && key !in w.table.owners && |w.table.owners| < LIMIT && n !in w.table.slots
    requires DoingOf(w, n).Idle? && forall k | k in w.table.owners :: w.table.Has(w.table.owners[k])
    ensures var next := Perform(Perform(w, Begin(n, Ask(key, Plain))), Proceed(n, n, ("", "")));
            && next.table == Add(w.table, Ask(key, Plain), n) && next.shutdown == w.shutdown
            && forall c | c != n :: DoingOf(next, c) == DoingOf(w, c)
  {
    var asked := Perform(w, Begin(n, Ask(key, Plain)));
    assert DoingOf(asked, n) == Asks(Ask(key, Plain)) && asked.table == w.table;
    assert CanProceed(asked, n, n, ("", ""));
  }

  lemma FillOne(w: World, n: nat)
    requires IsFilled(w, n) && n < LIMIT
    ensures IsFilled(RunAll(w, Pair(n)), n + 1)
  {
    NewKey(w.table, n);
    OwnersMore(w.table, n);
    SlotsMore(w.table, n);
    FilledHas(w.table, n);
    assert n !in w.table.slots && |w.table.owners| == n;
    hide KeyOf, Perform, FilledOwners, FilledSlots, Add, RunAll;
    RunTwo(w, Begin(n, Ask(KeyOf(n), Plain)), Proceed(n, n, ("", "")));
    OpenOne(w, n, KeyOf(n));
  }

  lemma NothingFilled()
    ensures IsFilled(RunAll(Start, []), 0)
  {
  }

  lemma {:induction false} FillIsFilled(n: nat)
    requires n <= LIMIT
    ensures IsFilled(RunAll(Start, Fill(n)), n)
  {
    hide IsFilled, RunAll, Pair;
    if n == 0 {
      NothingFilled();
    } else {
      FillIsFilled(n - 1);
      RunConcat(Start, Fill(n - 1), Pair(n - 1));
      FillOne(RunAll(Start, Fill(n - 1)), n - 1);
    }
  }

  /** The first session is stopped, starts after all, and fails to close; then a ninth key is asked for. */
  const Trouble: seq<Action> := [Stop(8, KeyOf(0)), OpeningEnds(0, true), CloseEnds(0, false), Begin(9, Ask(KeyOf(8), Plain))]

  /** What the trouble leaves in the table. */
  function Troubled(t: Table): Table { t.(slots := t.slots[0 := Slot(KeyOf(0), Plain, Opened(true), Closed(false))]) }

  lemma TroubleSteps(w: World)
    requires w.shutdown.NotAsked? && KeyOf(0) in w.table.owners && w.table.owners[KeyOf(0)] == 0
    requires 0 in w.table.slots && w.table.slots[0] == Slot(KeyOf(0), Plain, Starting, NotClosing)
    requires DoingOf(w, 8).Idle? && DoingOf(w, 9).Idle?
    ensures var end := RunAll(w, Trouble);
            end.table == Troubled(w.table) && end.shutdown.NotAsked? && DoingOf(end, 9) == Asks(Ask(KeyOf(8), Plain))
  {
    hide KeyOf;
    RunFour(w, Trouble);
    var w1 := Perform(w, Trouble[0]);
    assert w1.table == BeginClose(w.table, 0) && DoingOf(w1, 9).Idle?;
    var w2 := Perform(w1, Trouble[1]);
    assert w2.table == SetOpening(w1.table, 0, Opened(true)) && DoingOf(w2, 9).Idle?;
    var w3 := Perform(w2, Trouble[2]);
    assert w3.table == SetClosed(w2.table, 0, false) && DoingOf(w3, 9).Idle?;
    assert w3.table == Troubled(w.table);
  }

  lemma TroubleEnds(t: Table)
    requires FilledSlots(t, LIMIT)
    ensures EndsFit(Troubled(t), s => s != 0) && Feasible(Troubled(t), s => s != 0) && 100 !in Troubled(t).slots
    ensures Retirable(Troubled(t), 0)
  {
    hide KeyOf;
  }

  lemma TroubleFindsFull(w: World)
    requires IsFilled(w, LIMIT) && Inv(w)
    ensures var end := RunAll(w, Trouble);
            && FindsFull(end, 9, Ask(KeyOf(8), Plain), s => s != 0)
            && Feasible(end.table, s => s != 0) && 100 !in end.table.slots
            && KeyOf(0) in end.table.owners && end.table.owners[KeyOf(0)] == 0 && Retirable(end.table, 0)
  {
    NewKey(w.table, LIMIT);
    TroubleEnds(w.table);
    assert KeyOf(0) in w.table.owners && w.table.owners[KeyOf(0)] == 0 && |w.table.owners| == LIMIT;
    assert 0 in w.table.slots && w.table.slots[0] == Slot(KeyOf(0), Plain, Starting, NotClosing);
    hide KeyOf, Inv, FilledOwners, FilledSlots, EndsFit, Feasible, Retirable, RunAll;
    EveryRunKeepsInv(w, Trouble);
    TroubleSteps(w);
  }

  lemma RunFour(w: World, actions: seq<Action>)
    requires |actions| == 4
    ensures RunAll(w, actions) == Perform(Perform(Perform(Perform(w, actions[0]), actions[1]), actions[2]), actions[3])
  {
    hide Perform;
    assert actions == [actions[0], actions[1]] + [actions[2], actions[3]];
    RunConcat(w, [actions[0], actions[1]], [actions[2], actions[3]]);
    RunTwo(w, actions[0], actions[1]);
    RunTwo(RunAll(w, [actions[0], actions[1]]), actions[2], actions[3]);
  }

  /** Eight places taken, one close failed: the request for a ninth session ends without one. */
  lemma RequestIsRefused() returns (call: seq<Action>)
    ensures var w := RunAll(Start, Fill(LIMIT) + Trouble);
            && FindsFull(w, 9, Ask(KeyOf(8), Plain), s => s != 0)
            && QuietRun(w, 9, s => s != 0, call) && DoingOf(RunAll(w, call), 9).Idle?
  {
    var ends := s => s != 0;
    var ask := Ask(KeyOf(8), Plain);
    FillIsFilled(LIMIT);
    EveryRunKeepsInv(Start, Fill(LIMIT));
    RunConcat(Start, Fill(LIMIT), Trouble);
    var full := RunAll(Start, Fill(LIMIT));
    TroubleFindsFull(full);
    var w := RunAll(full, Trouble);
    hide RunAll, Fill, IsFilled, Inv, FindsFull, Feasible, QuietRun;
    FullIsCalling(w, 9, ask, ends);
    call := CallCanEnd(w.table, w, 9, ask, ends, 100);
    FullTableGivesSessionIff(w, 9, ask, ends, call);
  }
}
