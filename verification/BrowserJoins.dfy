/**
 What a caller of the browser manager gets: the live session of its key as it is, else a
 new one when there is room; and a live session ends only when somebody asks for that.
 */
module BrowserJoins {
  import opened BrowserManager

  /** The session of its key is starting or up, and nobody closes it. */
  predicate Available(t: Table, key: Key, s: SlotId) {
    && key in t.owners && t.owners[key] == s && t.Has(s) && t.slots[s].key == key
    && t.slots[s].closing.NotClosing? && (t.slots[s].opening.Starting? || t.slots[s].opening == Opened(true))
  }

  /** What ends a session: its own failure or death, or a stop of its key, by a caller or by the manager's close. */
  predicate Ends(action: Action, key: Key, s: SlotId) {
    match action
    case Stop(_, k) => k == key
    case ShutdownStops(k) => k == key
    case OpeningEnds(slot, ok) => slot == s && !ok
    case SessionDies(slot) => slot == s
    case _ => false
  }

  // ---- One pass of the loop --------------------------------------------------

  /** A caller finds a live session of its key: it joins it when it asks for the same access and goes away otherwise; nothing changes. */
  lemma LiveSessionIsJoined(w: World, c: Caller, ask: Ask, newSlot: SlotId, pick: Key, s: SlotId)
    requires DoingOf(w, c) == Asks(ask) && Enabled(w, Proceed(c, newSlot, pick)) && w.shutdown.NotAsked?
    requires Available(w.table, ask.key, s)
    ensures var next := Act(w, Proceed(c, newSlot, pick));
            var p := w.table.slots[s].permissions;
            && next.table == w.table && next.shutdown == w.shutdown
            && DoingOf(next, c) ==
               (if p.network == ask.permissions.network && p.domains == ask.permissions.domains then Awaits(ask, s) else Idle)
            && forall d | d != c :: DoingOf(next, d) == DoingOf(w, d)
  {
  }

  /** A caller finds no session and a free place: it gets a new session that starts with the access it asks for. */
  lemma RoomGivesSession(w: World, c: Caller, ask: Ask, newSlot: SlotId, pick: Key)
    requires DoingOf(w, c) == Asks(ask) && Enabled(w, Proceed(c, newSlot, pick)) && w.shutdown.NotAsked?
    requires ask.key !in w.table.owners && |w.table.owners| < 8
    ensures var next := Act(w, Proceed(c, newSlot, pick));
            && DoingOf(next, c) == Awaits(ask, newSlot) && Available(next.table, ask.key, newSlot)
            && next.table.slots[newSlot].permissions == ask.permissions && next.table.slots[newSlot].opening.Starting?
            && (forall k | k != ask.key :: (k in next.table.owners <==> k in w.table.owners)
                                           && (k in w.table.owners ==> next.table.owners[k] == w.table.owners[k]))
            && forall s | s in w.table.slots :: s in next.table.slots && next.table.slots[s] == w.table.slots[s]
  {
  }

  /** A caller finds a session that is closing, failed or gone: it has it closed, unless that has begun, and waits for the place. */
  lemma DeadSessionIsRetired(w: World, c: Caller, ask: Ask, newSlot: SlotId, pick: Key)
    requires DoingOf(w, c) == Asks(ask) && Enabled(w, Proceed(c, newSlot, pick)) && w.shutdown.NotAsked? && TableOk(w.table)
    requires ask.key in w.table.owners && !Available(w.table, ask.key, w.table.owners[ask.key])
    ensures var next, s := Act(w, Proceed(c, newSlot, pick)), w.table.owners[ask.key];
            && DoingOf(next, c) == Retires(ask.key, s, Asks(ask)) && next.table.owners == w.table.owners
            && !next.table.slots[s].closing.NotClosing?
            && (!w.table.slots[s].closing.NotClosing? ==> next.table == w.table)
            && forall other | other in w.table.slots && other != s :: other in next.table.slots && next.table.slots[other] == w.table.slots[other]
  {
    var s := w.table.owners[ask.key];
    assert w.table.Has(s) && w.table.slots[s].key == ask.key;
  }

  /** When a place was given up its key is free again, and the caller looks once more. */
  lemma RetiredGivesPlace(w: World, c: Caller, key: Key, s: SlotId, next: Doing, newSlot: SlotId, pick: Key)
    requires DoingOf(w, c) == Retires(key, s, next) && Enabled(w, Proceed(c, newSlot, pick))
    ensures var v := Act(w, Proceed(c, newSlot, pick));
            && v.table.slots == w.table.slots
            && (if w.table.slots[s].closing == Closed(true) then
                  && DoingOf(v, c) == next
                  && (key in v.table.owners <==> key in w.table.owners && w.table.owners[key] != s)
                  && forall k | k != key :: (k in v.table.owners <==> k in w.table.owners)
                                            && (k in w.table.owners ==> v.table.owners[k] == w.table.owners[k])
                else v.table == w.table && DoingOf(v, c) == Idle)
  {
  }

  /** A stop has the session of its key closed, and waits for it. */
  lemma StopCloses(w: World, c: Caller, key: Key)
    requires Enabled(w, Stop(c, key)) && key in w.table.owners
    ensures var next, s := Act(w, Stop(c, key)), w.table.owners[key];
            !next.table.slots[s].closing.NotClosing? && DoingOf(next, c) == Retires(key, s, Idle) && next.table.owners == w.table.owners
  {
  }

  // ---- Every run -------------------------------------------------------------

  lemma StaysAtLook(w: World, c: Caller, ask: Ask, newSlot: SlotId, pick: Key, key: Key, s: SlotId)
    requires TableOk(w.table) && DoingOf(w, c) == Asks(ask) && Enabled(w, Proceed(c, newSlot, pick)) && Available(w.table, key, s)
    ensures Available(Act(w, Proceed(c, newSlot, pick)).table, key, s)
  {
    if ask.key in w.table.owners {
      assert w.table.slots[w.table.owners[ask.key]].key == ask.key;
    }
  }

  lemma StaysAtProceed(w: World, c: Caller, newSlot: SlotId, pick: Key, key: Key, s: SlotId)
    requires Inv(w) && Enabled(w, Proceed(c, newSlot, pick)) && Available(w.table, key, s)
    ensures Available(Act(w, Proceed(c, newSlot, pick)).table, key, s)
  {
    assert TableOk(w.table) && (c in w.callers ==> DoingOk(w.table, w.callers[c]));
    hide TableOk, CallersOk, ShutdownOk;
    match DoingOf(w, c)
    case Asks(ask) => StaysAtLook(w, c, ask, newSlot, pick, key, s);
    case Retires(k, r, _) =>
    case Sweeps(_, rest, _) =>
    case _ =>
  }

  /** No other step ends a live session: no caller that looks or sweeps, and no retiring of another slot. */
  lemma OnlyEndingsEnd(w: World, action: Action, key: Key, s: SlotId)
    requires Inv(w) && Available(w.table, key, s) && !Ends(action, key, s)
    ensures Available(Perform(w, action).table, key, s)
    ensures Perform(w, action).table.slots[s].permissions == w.table.slots[s].permissions
  {
    if Enabled(w, action) {
      SameAccessLater(w, action, s);
      assert TableOk(w.table);
      match action
      case Proceed(c, newSlot, pick) =>
        hide *;
        StaysAtProceed(w, c, newSlot, pick, key, s);
        PerformedAct(w, action);
      case Stop(_, k) => if k in w.table.owners { assert w.table.slots[w.table.owners[k]].key == k; }
      case ShutdownStops(k) => if k in w.table.owners { assert w.table.slots[w.table.owners[k]].key == k; }
      case ShutdownSettles(k) =>
        assert RetiringOk(w.table, w.shutdown.retiring);
      case _ =>
    }
  }

  lemma SameAccessLater(w: World, action: Action, s: SlotId)
    requires Inv(w) && Enabled(w, action) && w.table.Has(s)
    ensures Act(w, action).table.Has(s) && Act(w, action).table.slots[s].permissions == w.table.slots[s].permissions
  {
    hide Inv, Act, Enabled;
    ActKeeps(w, action);
  }

  lemma PerformedAct(w: World, action: Action)
    requires Enabled(w, action)
    ensures Perform(w, action) == Act(w, action)
  {
  }

  /** Over every run a live session stays in its place, and open, until it fails, dies or is stopped. */
  lemma {:induction false} LiveUntilStopped(w: World, actions: seq<Action>, key: Key, s: SlotId)
    requires Inv(w) && Available(w.table, key, s) && forall a | a in actions :: !Ends(a, key, s)
    ensures Inv(RunAll(w, actions)) && Available(RunAll(w, actions).table, key, s)
    ensures RunAll(w, actions).table.slots[s].permissions == w.table.slots[s].permissions
    decreases |actions|
  {
    if actions != [] {
      var one := [actions[0]];
      OnlyEndingsEnd(w, actions[0], key, s);
      EveryRunKeepsInv(w, one);
      assert one[1..] == [] && RunAll(Perform(w, one[0]), one[1..]) == Perform(w, one[0]);
      hide Inv, Perform, Ends;
      LiveUntilStopped(Perform(w, actions[0]), actions[1..], key, s);
    }
  }

  /** So whoever asks for it with the same access at any time in between joins it, and it stays as it is. */
  lemma EveryoneJoins(w: World, actions: seq<Action>, c: Caller, ask: Ask, newSlot: SlotId, pick: Key, s: SlotId)
    requires Inv(w) && Available(w.table, ask.key, s) && forall a | a in actions :: !Ends(a, ask.key, s)
    requires var v := RunAll(w, actions);
             && DoingOf(v, c) == Asks(ask) && Enabled(v, Proceed(c, newSlot, pick)) && v.shutdown.NotAsked?
             && SameAccess(w.table.slots[s].permissions, ask.permissions)
    ensures var v := RunAll(w, actions);
            && DoingOf(Act(v, Proceed(c, newSlot, pick)), c) == Awaits(ask, s)
            && Act(v, Proceed(c, newSlot, pick)).table == v.table
  {
    LiveUntilStopped(w, actions, ask.key, s);
    hide Inv, RunAll, Act, Enabled;
    LiveSessionIsJoined(RunAll(w, actions), c, ask, newSlot, pick, s);
  }
}
