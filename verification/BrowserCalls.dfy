/**
 Why a request for a session can end without one, whatever other callers, sessions and the
 manager itself do in between.
 */
module BrowserCalls {
  import opened BrowserManager
  import BrowserSweep
  import opened Options

  // ---- Reasons ---------------------------------------------------------------

  /** The key has a session that was started for another access. */
  predicate HasOtherAccess(t: Table, ask: Ask) {
    && ask.key in t.owners && t.Has(t.owners[ask.key])
    && t.slots[t.owners[ask.key]].closing.NotClosing? && !t.slots[t.owners[ask.key]].Unavailable()
    && !SameAccess(t.slots[t.owners[ask.key]].permissions, ask.permissions)
  }

  /** All places are taken by others, and nothing can be retired. */
  ghost predicate NothingToRetire(t: Table, ask: Ask) {
    && ask.key !in t.owners && |t.owners| >= LIMIT
    && forall k | k in t.owners :: !BrowserSweep.Retirable(t, t.owners[k])
  }

  /** What the call is about to meet ends it without a session; or it has one to wait for. */
  ghost predicate Reason(w: World, c: Caller, ask: Ask) {
    match DoingOf(w, c)
    case Asks(a) => a == ask && (!w.shutdown.NotAsked? || HasOtherAccess(w.table, ask) || NothingToRetire(w.table, ask))
    case Retires(_, s, _) => w.table.Has(s) && w.table.slots[s].closing == Closed(false)
    case Awaits(a, _) => a == ask
    case _ => false
  }

  ghost predicate SomeReason(w: World, actions: seq<Action>, c: Caller, ask: Ask)
    decreases |actions|
  {
    Reason(w, c, ask) || (actions != [] && SomeReason(Perform(w, actions[0]), actions[1..], c, ask))
  }

  // ---- Following a call ------------------------------------------------------

  /** What could be retired once can be retired ever after. */
  ghost predicate StaysRetirable(t: Table, u: Table) {
    forall s | s in t.slots && BrowserSweep.Retirable(t, s) :: BrowserSweep.Retirable(u, s)
  }

  lemma ProceedStaysRetirable(w: World, c: Caller, newSlot: SlotId, pick: Key)
    requires CanProceed(w, c, newSlot, pick)
    ensures StaysRetirable(w.table, Proceeded(w, c, newSlot, pick).0)
  {
    var doing := DoingOf(w, c);
    if doing.Sweeps? && doing.rest.Keys != {} {
      assert Proceeded(w, c, newSlot, pick) == SweepOne(w.table, doing, pick);
    }
  }

  lemma ActStaysRetirable(w: World, action: Action)
    requires Enabled(w, action)
    ensures StaysRetirable(w.table, Act(w, action).table)
  {
    if action.Proceed? {
      ProceedStaysRetirable(w, action.caller, action.newSlot, action.pick);
      hide CanProceed, Proceeded;
    }
  }

  lemma RetirableTwice(t: Table, u: Table, v: Table)
    requires StaysRetirable(t, u) && StaysRetirable(u, v)
    ensures StaysRetirable(t, v)
  {
    forall s | s in t.slots && BrowserSweep.Retirable(t, s) ensures BrowserSweep.Retirable(v, s) {
      assert BrowserSweep.Retirable(u, s);
    }
  }

  /** A sweep that has retired nothing so far: what it has gone through could not be retired when it began. */
  ghost predicate Spared(look: Table, now: Table, ask: Ask, rest: map<Key, SlotId>) {
    && ask.key !in look.owners && |look.owners| >= LIMIT && OwnersKnown(look) && StaysRetirable(look, now)
    && (forall k | k in rest :: k in look.owners && rest[k] == look.owners[k])
    && (forall k | k in look.owners && k !in rest :: !BrowserSweep.Retirable(look, look.owners[k]))
  }

  /** The call is on its way; `look` is the table that its sweep began with. */
  ghost predicate Following(look: Option<Table>, w: World, c: Caller, ask: Ask) {
    match DoingOf(w, c)
    case Idle => false
    case Asks(a) => a == ask
    case Sweeps(a, rest, retired) => a == ask && (!retired ==> look.Some? && Spared(look.value, w.table, ask, rest))
    case Retires(_, _, next) => next == Asks(ask) || (next.Sweeps? && next.ask == ask && next.retired)
    case Awaits(a, _) => a == ask
  }

  /** Where a step leads: on, or to an end with its reason. */
  ghost predicate Continues(look: Option<Table>, w: World, next: World, c: Caller, ask: Ask) {
    || Reason(w, c, ask)
    || Following(look, next, c, ask)
    || (DoingOf(w, c) == Asks(ask) && Following(Some(w.table), next, c, ask))
    || (DoingOf(next, c).Idle? && look.Some? && NothingToRetire(look.value, ask))
  }

  lemma LookContinues(w: World, c: Caller, ask: Ask, newSlot: SlotId, pick: Key)
    requires TableOk(w.table) && DoingOf(w, c) == Asks(ask) && CanProceed(w, c, newSlot, pick)
    ensures Continues(None, w, Act(w, Proceed(c, newSlot, pick)), c, ask)
  {
    var next := Act(w, Proceed(c, newSlot, pick));
    if DoingOf(next, c).Sweeps? {
      assert next.table == w.table;
      assert Spared(w.table, next.table, ask, w.table.owners);
      assert Following(Some(w.table), next, c, ask);
    }
  }

  lemma SweepContinues(look: Option<Table>, w: World, c: Caller, ask: Ask, newSlot: SlotId, pick: Key)
    requires DoingOf(w, c).Sweeps? && Following(look, w, c, ask) && CanProceed(w, c, newSlot, pick)
    ensures Continues(look, w, Act(w, Proceed(c, newSlot, pick)), c, ask)
  {
    var sweep := DoingOf(w, c);
    var next := Act(w, Proceed(c, newSlot, pick));
    if sweep.rest.Keys == {} {
      assert forall k :: k !in sweep.rest;
    } else {
      assert Proceeded(w, c, newSlot, pick) == SweepOne(w.table, sweep, pick);
      if !BrowserSweep.Retirable(w.table, sweep.rest[pick]) && !sweep.retired {
        assert next.table == w.table;
        assert Spared(look.value, next.table, ask, sweep.rest - {pick}) by {
          assert look.value.owners[pick] == sweep.rest[pick];
        }
      }
    }
  }

  lemma OthersContinue(look: Option<Table>, w: World, action: Action, c: Caller, ask: Ask)
    requires Following(look, w, c, ask) && Enabled(w, action) && DoingOf(Act(w, action), c) == DoingOf(w, c)
    ensures Following(look, Act(w, action), c, ask)
  {
    ActStaysRetirable(w, action);
    hide Act, Enabled;
    var next := Act(w, action);
    if DoingOf(w, c).Sweeps? && !DoingOf(w, c).retired { RetirableTwice(look.value, w.table, next.table); }
    hide StaysRetirable;
  }

  /** Nobody else ends or replaces the call. */
  predicate LeavesAlone(action: Action, c: Caller) {
    !((action.Begin? || action.Stop? || action.Cancel?) && action.caller == c)
  }

  lemma OthersLeaveDoing(w: World, action: Action, c: Caller)
    requires Enabled(w, action) && LeavesAlone(action, c) && !(action.Proceed? && action.caller == c)
    ensures DoingOf(Act(w, action), c) == DoingOf(w, c)
  {
    hide CanProceed, Proceeded;
  }

  lemma StepContinues(look: Option<Table>, w: World, action: Action, c: Caller, ask: Ask)
    requires Inv(w) && Following(look, w, c, ask) && Enabled(w, action) && LeavesAlone(action, c)
    ensures Continues(look, w, Act(w, action), c, ask)
  {
    if action.Proceed? && action.caller == c {
      match DoingOf(w, c)
      case Asks(_) =>
        LookContinues(w, c, ask, action.newSlot, action.pick);
        hide Act, Following, Reason;
      case Sweeps(_, _, _) =>
        SweepContinues(look, w, c, ask, action.newSlot, action.pick);
        hide Act, Following, Reason;
      case Retires(_, _, _) => hide Inv;
      case Awaits(_, _) => hide Inv;
    } else {
      OthersLeaveDoing(w, action, c);
      OthersContinue(look, w, action, c, ask);
      hide Act, Enabled, Inv, Following, Reason;
    }
  }

  lemma FollowingIsBusy(look: Option<Table>, w: World, c: Caller, ask: Ask)
    requires Following(look, w, c, ask)
    ensures !DoingOf(w, c).Idle?
  {
  }

  lemma {:induction false} FollowedToItsEnd(look: Option<Table>, w: World, actions: seq<Action>, c: Caller, ask: Ask)
    requires Inv(w) && Following(look, w, c, ask) && (forall a | a in actions :: LeavesAlone(a, c))
    requires DoingOf(RunAll(w, actions), c).Idle?
    ensures SomeReason(w, actions, c, ask) || (look.Some? && NothingToRetire(look.value, ask))
    decreases |actions|
  {
    hide Inv, Following, Reason, Act, Enabled, NothingToRetire, LeavesAlone;
    if actions == [] {
      FollowingIsBusy(look, w, c, ask);
    } else {
      var next, rest := Perform(w, actions[0]), actions[1..];
      assert actions[0] in actions && forall a | a in rest :: a in actions;
      if !Enabled(w, actions[0]) {
        FollowedToItsEnd(look, next, rest, c, ask);
      } else if !Reason(w, c, ask) {
        StepContinues(look, w, actions[0], c, ask);
        ActKeeps(w, actions[0]);
        if Following(look, next, c, ask) {
          FollowedToItsEnd(look, next, rest, c, ask);
        } else if DoingOf(w, c) == Asks(ask) && Following(Some(w.table), next, c, ask) {
          FollowedToItsEnd(Some(w.table), next, rest, c, ask);
          LookIsReason(w, c, ask);
        }
      }
    }
  }

  lemma LookIsReason(w: World, c: Caller, ask: Ask)
    requires DoingOf(w, c) == Asks(ask)
    ensures NothingToRetire(w.table, ask) ==> Reason(w, c, ask)
  {
  }

  lemma {:induction false} ReasonAt(w: World, actions: seq<Action>, c: Caller, ask: Ask) returns (n: nat)
    requires SomeReason(w, actions, c, ask)
    ensures n <= |actions| && Reason(RunAll(w, actions[..n]), c, ask)
    decreases |actions|
  {
    hide Reason, Perform;
    n := 0;
    if !Reason(w, c, ask) {
      n := ReasonAt(Perform(w, actions[0]), actions[1..], c, ask);
      n := n + 1;
      assert actions[..n][0] == actions[0] && actions[..n][1..] == actions[1..][..n - 1];
    } else {
      assert actions[..0] == [];
    }
  }

  /**
   In every interleaving a call that has ended was at some moment given a session to wait for; or it looked when the
   manager was closing, when its key was in use for another access, or when all places were taken and nothing could be
   retired; or a slot that it retired had failed to close.
   */
  lemma CallsEndForAReason(w: World, actions: seq<Action>, c: Caller, ask: Ask)
    requires Inv(w) && DoingOf(w, c) == Asks(ask) && (forall a | a in actions :: LeavesAlone(a, c))
    requires DoingOf(RunAll(w, actions), c).Idle?
    ensures exists n :: 0 <= n <= |actions| && Reason(RunAll(w, actions[..n]), c, ask)
  {
    hide Inv, Reason, RunAll, LeavesAlone;
    FollowedToItsEnd(None, w, actions, c, ask);
    var n := ReasonAt(w, actions, c, ask);
  }
}
