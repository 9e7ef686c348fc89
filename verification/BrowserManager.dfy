/**
 The table of browser sessions, one slot for each directory and thread.

 Everything between two awaits of the event loop is one step. Any number of callers open and stop sessions,
 starting and closing take as long as they like and may fail, and callers may be cancelled at every await.
 */
module BrowserManager {

  type Key = (string, string)
  type SlotId = nat
  type Caller = nat

  datatype Permissions = Permissions(browser: bool, network: bool, domains: seq<string>)

  datatype Ask = Ask(key: Key, permissions: Permissions)

  /** The starting task runs, gave a session that is still up or has gone, or failed. */
  datatype Opening = Starting | Opened(up: bool) | Failed

  datatype Closing = NotClosing | Closing | Closed(ok: bool)

  datatype Slot = Slot(key: Key, permissions: Permissions, opening: Opening, closing: Closing) {
    predicate Unavailable() { opening.Failed? || (opening.Opened? && !opening.up) }

    /** A session that is starting, or was started and not confirmed closed. */
    predicate Live() { !opening.Failed? && closing != Closed(true) }
  }

  const LIMIT := 8

  datatype Table = Table(owners: map<Key, SlotId>, slots: map<SlotId, Slot>) {
    predicate Has(s: SlotId) { s in slots }
  }

  /** What a caller is in the middle of. */
  datatype Doing =
    | Idle
    | Asks(ask: Ask)
    | Retires(key: Key, slot: SlotId, next: Doing)
    | Sweeps(ask: Ask, rest: map<Key, SlotId>, retired: bool)
    | Awaits(ask: Ask, slot: SlotId)

  /** The task of the manager's own close. */
  datatype Shutdown = NotAsked | Asked | Stopping(unstopped: set<Key>, retiring: map<Key, SlotId>, failed: bool)

  datatype World = World(table: Table, callers: map<Caller, Doing>, shutdown: Shutdown)

  const Start: World := World(Table(map[], map[]), map[], NotAsked)

  // ---- Steps on the table ----------------------------------------------------

  function Add(t: Table, ask: Ask, s: SlotId): Table {
    Table(t.owners[ask.key := s], t.slots[s := Slot(ask.key, ask.permissions, Starting, NotClosing)])
  }

  /** Start the closing task unless there is one. */
  function BeginClose(t: Table, s: SlotId): Table
    requires t.Has(s)
  {
    if t.slots[s].closing.NotClosing? then t.(slots := t.slots[s := t.slots[s].(closing := Closing)]) else t
  }

  /** Give up the place, unless somebody else has it by now. */
  function Release(t: Table, key: Key, s: SlotId): Table {
    if key in t.owners && t.owners[key] == s then t.(owners := t.owners - {key}) else t
  }

  function SetOpening(t: Table, s: SlotId, opening: Opening): Table
    requires t.Has(s)
  {
    t.(slots := t.slots[s := t.slots[s].(opening := opening)])
  }

  function SetClosed(t: Table, s: SlotId, ok: bool): Table
    requires t.Has(s)
  {
    t.(slots := t.slots[s := t.slots[s].(closing := Closed(ok))])
  }

  predicate SameAccess(a: Permissions, b: Permissions) { a.network == b.network && a.domains == b.domains }

  // ---- Steps of a caller -----------------------------------------------------

  /** One pass of the loop that looks for a session, up to its first await. */
  function Look(t: Table, closed: bool, ask: Ask, newSlot: SlotId): (r: (Table, Doing))
    requires forall k | k in t.owners :: t.Has(t.owners[k])
  {
    if closed then (t, Idle)
    else if ask.key in t.owners then
      var s := t.owners[ask.key];
      assert t.Has(s);
      if !t.slots[s].closing.NotClosing? || t.slots[s].Unavailable() then
        (BeginClose(t, s), Retires(ask.key, s, Asks(ask)))
      else if !SameAccess(t.slots[s].permissions, ask.permissions) then (t, Idle)
      else (t, Awaits(ask, s))
    else if |t.owners| >= LIMIT then (t, Sweeps(ask, t.owners, false))
    else (Add(t, ask, newSlot), Awaits(ask, newSlot))
  }

  /** One entry of the sweep over a full table. */
  function SweepOne(t: Table, sweep: Doing, pick: Key): (r: (Table, Doing))
    requires sweep.Sweeps? && pick in sweep.rest && t.Has(sweep.rest[pick])
  {
    var s := sweep.rest[pick];
    if !t.slots[s].closing.NotClosing? || t.slots[s].Unavailable() then
      (BeginClose(t, s), Retires(pick, s, Sweeps(sweep.ask, sweep.rest - {pick}, true)))
    else (t, sweep.(rest := sweep.rest - {pick}))
  }

  datatype Action =
    | Begin(caller: Caller, ask: Ask)
    | Proceed(caller: Caller, newSlot: SlotId, pick: Key)
    | Stop(caller: Caller, key: Key)
    | Cancel(caller: Caller)
    | OpeningEnds(slot: SlotId, ok: bool)
    | SessionDies(slot: SlotId)
    | CloseEnds(slot: SlotId, ok: bool)
    | CloseManager
    | ShutdownBegins
    | ShutdownStops(key: Key)
    | ShutdownSettles(key: Key)

  function DoingOf(w: World, c: Caller): Doing { if c in w.callers then w.callers[c] else Idle }

  predicate CanProceed(w: World, c: Caller, newSlot: SlotId, pick: Key) {
    match DoingOf(w, c)
    case Idle => false
    case Asks(_) => !w.table.Has(newSlot) && forall k | k in w.table.owners :: w.table.Has(w.table.owners[k])
    case Retires(_, s, _) => w.table.Has(s) && w.table.slots[s].closing.Closed?
    case Sweeps(_, rest, _) => rest.Keys != {} ==> pick in rest && w.table.Has(rest[pick])
    case Awaits(_, s) => w.table.Has(s) && !w.table.slots[s].opening.Starting?
  }

  function Proceeded(w: World, c: Caller, newSlot: SlotId, pick: Key): (r: (Table, Doing))
    requires CanProceed(w, c, newSlot, pick)
  {
    var t := w.table;
    match DoingOf(w, c)
    case Asks(ask) => Look(t, !w.shutdown.NotAsked?, ask, newSlot)
    case Retires(key, s, next) => if t.slots[s].closing.ok then (Release(t, key, s), next) else (t, Idle)
    case Sweeps(ask, rest, retired) =>
      if rest.Keys != {} then SweepOne(t, DoingOf(w, c), pick)
      else (t, if retired then Asks(ask) else Idle)
    case _ => (t, Idle)
  }

  predicate Enabled(w: World, action: Action) {
    var t := w.table;
    match action
    case Begin(c, ask) => DoingOf(w, c).Idle? && ask.permissions.browser
    case Proceed(c, newSlot, pick) => CanProceed(w, c, newSlot, pick)
    case Stop(c, key) => DoingOf(w, c).Idle? && (key in t.owners ==> t.Has(t.owners[key]))
    case Cancel(_) => true
    case OpeningEnds(s, _) => t.Has(s) && t.slots[s].opening.Starting?
    case SessionDies(s) => t.Has(s) && t.slots[s].opening.Opened?
    case CloseEnds(s, ok) =>
      && t.Has(s) && t.slots[s].closing.Closing? && !t.slots[s].opening.Starting?
      && (t.slots[s].opening.Failed? ==> ok)
    case CloseManager => w.shutdown.NotAsked?
    case ShutdownBegins => w.shutdown.Asked?
    case ShutdownStops(k) =>
      w.shutdown.Stopping? && k in w.shutdown.unstopped && (k in t.owners ==> t.Has(t.owners[k]))
    case ShutdownSettles(k) =>
      && w.shutdown.Stopping? && k in w.shutdown.retiring
      && t.Has(w.shutdown.retiring[k]) && t.slots[w.shutdown.retiring[k]].closing.Closed?
  }

  function Act(w: World, action: Action): World
    requires Enabled(w, action)
  {
    var t := w.table;
    match action
    case Begin(c, ask) => w.(callers := w.callers[c := Asks(ask)])
    case Proceed(c, newSlot, pick) =>
      var (table, doing) := Proceeded(w, c, newSlot, pick);
      w.(table := table, callers := w.callers[c := doing])
    case Stop(c, key) =>
      if key !in t.owners then w
      else w.(table := BeginClose(t, t.owners[key]), callers := w.callers[c := Retires(key, t.owners[key], Idle)])
    case Cancel(c) => w.(callers := w.callers[c := Idle])
    case OpeningEnds(s, ok) => w.(table := SetOpening(t, s, if ok then Opened(true) else Failed))
    case SessionDies(s) => w.(table := SetOpening(t, s, Opened(false)))
    case CloseEnds(s, ok) => w.(table := SetClosed(t, s, ok))
    case CloseManager => w.(shutdown := Asked)
    case ShutdownBegins => w.(shutdown := Stopping(t.owners.Keys, map[], false))
    case ShutdownStops(k) =>
      var left := w.shutdown.unstopped - {k};
      if k !in t.owners then w.(shutdown := w.shutdown.(unstopped := left))
      else w.(table := BeginClose(t, t.owners[k]),
              shutdown := w.shutdown.(unstopped := left, retiring := w.shutdown.retiring[k := t.owners[k]]))
    case ShutdownSettles(k) =>
      var s := w.shutdown.retiring[k];
      var settled := w.shutdown.(retiring := w.shutdown.retiring - {k});
      if t.slots[s].closing.ok then w.(table := Release(t, k, s), shutdown := settled)
      else w.(shutdown := settled.(failed := true))
  }

  function Perform(w: World, action: Action): World { if Enabled(w, action) then Act(w, action) else w }

  function RunAll(w: World, actions: seq<Action>): World
    decreases |actions|
  {
    if actions == [] then w else RunAll(Perform(w, actions[0]), actions[1..])
  }

  // ---- The table -------------------------------------------------------------

  ghost predicate OwnersKnown(t: Table) {
    forall k | k in t.owners :: t.Has(t.owners[k]) && t.slots[t.owners[k]].key == k
  }

  /** A slot keeps its place until its close succeeded. */
  ghost predicate UnclosedKeepsPlace(t: Table) {
    forall s | s in t.slots && t.slots[s].closing != Closed(true) ::
      t.slots[s].key in t.owners && t.owners[t.slots[s].key] == s
  }

  ghost predicate TableOk(t: Table) { OwnersKnown(t) && UnclosedKeepsPlace(t) && |t.owners| <= LIMIT }

  predicate Later(a: Closing, b: Closing) {
    match a
    case NotClosing => true
    case Closing => !b.NotClosing?
    case Closed(_) => b == a
  }

  /** How the table may change: no slot is forgotten or reused, and closing only goes forward. */
  ghost predicate Onward(t: Table, u: Table) {
    forall s | s in t.slots ::
      && s in u.slots
      && u.slots[s].key == t.slots[s].key && u.slots[s].permissions == t.slots[s].permissions
      && Later(t.slots[s].closing, u.slots[s].closing)
  }

  lemma AddKeepsPlaces(t: Table, ask: Ask, s: SlotId)
    requires UnclosedKeepsPlace(t) && !t.Has(s) && ask.key !in t.owners
    ensures UnclosedKeepsPlace(Add(t, ask, s)) && Onward(t, Add(t, ask, s))
  {
  }

  lemma AddKeepsKnown(t: Table, ask: Ask, s: SlotId)
    requires OwnersKnown(t) && !t.Has(s)
    ensures OwnersKnown(Add(t, ask, s))
  {
  }

  lemma AddKeeps(t: Table, ask: Ask, s: SlotId)
    requires TableOk(t) && !t.Has(s) && ask.key !in t.owners && |t.owners| < LIMIT
    ensures TableOk(Add(t, ask, s)) && Onward(t, Add(t, ask, s))
  {
    hide OwnersKnown, UnclosedKeepsPlace, Onward;
    AddKeepsPlaces(t, ask, s);
    AddKeepsKnown(t, ask, s);
    assert t.owners[ask.key := s].Keys == t.owners.Keys + {ask.key};
  }

  lemma BeginCloseKeeps(t: Table, s: SlotId)
    requires TableOk(t) && t.Has(s)
    ensures TableOk(BeginClose(t, s)) && Onward(t, BeginClose(t, s))
    ensures !BeginClose(t, s).slots[s].closing.NotClosing? && BeginClose(t, s).slots[s].key == t.slots[s].key
  {
  }

  lemma ReleaseKeeps(t: Table, key: Key, s: SlotId)
    requires TableOk(t) && t.Has(s) && t.slots[s].closing == Closed(true)
    ensures TableOk(Release(t, key, s)) && Onward(t, Release(t, key, s))
  {
    var u := Release(t, key, s);
    assert u.owners.Keys == t.owners.Keys || u.owners.Keys == t.owners.Keys - {key};
    assert |u.owners.Keys| <= |t.owners.Keys|;
  }

  lemma OpeningKeeps(t: Table, s: SlotId, opening: Opening)
    requires TableOk(t) && t.Has(s)
    ensures TableOk(SetOpening(t, s, opening)) && Onward(t, SetOpening(t, s, opening))
  {
  }

  lemma ClosedKeeps(t: Table, s: SlotId, ok: bool)
    requires TableOk(t) && t.Has(s) && t.slots[s].closing.Closing?
    ensures TableOk(SetClosed(t, s, ok)) && Onward(t, SetClosed(t, s, ok))
  {
  }

  // ---- The callers -----------------------------------------------------------

  ghost predicate DoingOk(t: Table, doing: Doing) {
    match doing
    case Retires(key, s, next) =>
      t.Has(s) && t.slots[s].key == key && !t.slots[s].closing.NotClosing? && DoingOk(t, next)
    case Sweeps(_, rest, _) => forall k | k in rest :: t.Has(rest[k]) && t.slots[rest[k]].key == k
    case Awaits(ask, s) => t.Has(s) && t.slots[s].key == ask.key && SameAccess(t.slots[s].permissions, ask.permissions)
    case _ => true
  }

  ghost predicate CallersOk(w: World) {
    forall c | c in w.callers :: DoingOk(w.table, w.callers[c])
  }

  lemma {:induction false} DoingStays(t: Table, u: Table, doing: Doing)
    requires DoingOk(t, doing) && Onward(t, u)
    ensures DoingOk(u, doing)
  {
    if doing.Retires? { DoingStays(t, u, doing.next); }
  }

  lemma CallersStay(w: World, u: Table)
    requires CallersOk(w) && Onward(w.table, u)
    ensures CallersOk(w.(table := u))
  {
    forall c | c in w.callers ensures DoingOk(u, w.callers[c]) { DoingStays(w.table, u, w.callers[c]); }
  }

  lemma LookJoins(t: Table, ask: Ask, newSlot: SlotId)
    requires TableOk(t) && ask.key in t.owners
    ensures
      var (u, doing) := Look(t, false, ask, newSlot);
      TableOk(u) && Onward(t, u) && DoingOk(u, doing)
  {
    var s := t.owners[ask.key];
    assert t.Has(s) && t.slots[s].key == ask.key;
    hide TableOk, Onward, BeginClose;
    BeginCloseKeeps(t, s);
    NothingChanged(t);
  }

  lemma LookAdds(t: Table, ask: Ask, newSlot: SlotId)
    requires TableOk(t) && !t.Has(newSlot) && ask.key !in t.owners
    ensures
      var (u, doing) := Look(t, false, ask, newSlot);
      TableOk(u) && Onward(t, u) && DoingOk(u, doing)
  {
    hide Onward, OwnersKnown, UnclosedKeepsPlace;
    NothingChanged(t);
    if |t.owners| < LIMIT { AddKeeps(t, ask, newSlot); } else { SweepIsFine(t); }
  }

  lemma SweepIsFine(t: Table)
    requires OwnersKnown(t)
    ensures forall k | k in t.owners :: t.Has(t.owners[k]) && t.slots[t.owners[k]].key == k
  {
  }

  lemma LookKeeps(t: Table, closed: bool, ask: Ask, newSlot: SlotId)
    requires TableOk(t) && !t.Has(newSlot)
    ensures
      var (u, doing) := Look(t, closed, ask, newSlot);
      TableOk(u) && Onward(t, u) && DoingOk(u, doing)
  {
    if closed {
      NothingChanged(t);
    } else if ask.key in t.owners {
      LookJoins(t, ask, newSlot);
    } else {
      LookAdds(t, ask, newSlot);
    }
  }

  lemma SweepKeeps(t: Table, sweep: Doing, pick: Key)
    requires TableOk(t) && sweep.Sweeps? && DoingOk(t, sweep) && pick in sweep.rest
    ensures
      var (u, doing) := SweepOne(t, sweep, pick);
      TableOk(u) && Onward(t, u) && DoingOk(u, doing)
  {
    var s := sweep.rest[pick];
    var left := Sweeps(sweep.ask, sweep.rest - {pick}, true);
    assert DoingOk(t, left);
    BeginCloseKeeps(t, s);
    DoingStays(t, BeginClose(t, s), left);
  }

  lemma ProceedKeeps(w: World, c: Caller, newSlot: SlotId, pick: Key)
    requires TableOk(w.table) && CallersOk(w) && CanProceed(w, c, newSlot, pick)
    ensures
      var (u, doing) := Proceeded(w, c, newSlot, pick);
      TableOk(u) && Onward(w.table, u) && DoingOk(u, doing)
  {
    hide TableOk, Onward, Look, SweepOne, Release;
    var t := w.table;
    assert DoingOk(t, DoingOf(w, c));
    NothingChanged(t);
    match DoingOf(w, c)
    case Asks(ask) => LookKeeps(t, !w.shutdown.NotAsked?, ask, newSlot);
    case Retires(key, s, next) =>
      if t.slots[s].closing.ok {
        ReleaseKeeps(t, key, s);
        DoingStays(t, Release(t, key, s), next);
      }
    case Sweeps(_, rest, _) => if rest.Keys != {} { SweepKeeps(t, DoingOf(w, c), pick); }
    case _ =>
  }

  lemma NothingChanged(t: Table)
    ensures Onward(t, t)
  {
  }

  // ---- The manager's own close -----------------------------------------------

  /** Every place is still to be stopped, being stopped, or its close failed. */
  ghost predicate Accounted(t: Table, k: Key, shutdown: Shutdown)
    requires shutdown.Stopping? && k in t.owners
  {
    || k in shutdown.unstopped
    || (k in shutdown.retiring && shutdown.retiring[k] == t.owners[k])
    || (t.Has(t.owners[k]) && t.slots[t.owners[k]].closing == Closed(false) && shutdown.failed)
  }

  ghost predicate HasFailure(t: Table) { exists s :: s in t.slots && t.slots[s].closing == Closed(false) }

  ghost predicate RetiringOk(t: Table, retiring: map<Key, SlotId>) {
    forall k | k in retiring ::
      t.Has(retiring[k]) && t.slots[retiring[k]].key == k && !t.slots[retiring[k]].closing.NotClosing?
  }

  ghost predicate ShutdownOk(t: Table, shutdown: Shutdown) {
    shutdown.Stopping? ==>
      && (forall k | k in t.owners :: Accounted(t, k, shutdown))
      && RetiringOk(t, shutdown.retiring)
      && (shutdown.failed ==> HasFailure(t))
  }

  ghost predicate Inv(w: World) { TableOk(w.table) && CallersOk(w) && ShutdownOk(w.table, w.shutdown) }

  /** Once the manager closes, places only go. */
  ghost predicate NoneAdded(t: Table, u: Table) {
    forall k | k in u.owners :: k in t.owners && u.owners[k] == t.owners[k]
  }

  lemma ShutdownStays(t: Table, u: Table, shutdown: Shutdown)
    requires ShutdownOk(t, shutdown) && Onward(t, u) && (shutdown.Stopping? ==> NoneAdded(t, u))
    ensures ShutdownOk(u, shutdown)
  {
    if shutdown.Stopping? {
      forall k | k in u.owners ensures Accounted(u, k, shutdown) {
        assert Accounted(t, k, shutdown);
      }
      if shutdown.failed {
        var s :| s in t.slots && t.slots[s].closing == Closed(false);
        assert u.slots[s].closing == Closed(false);
      }
    }
  }

  /** No slot is added after the manager closes: a pass of the loop leaves the table as it is. */
  lemma NoneAddedAfterClosing(w: World, action: Action)
    requires Enabled(w, action) && !w.shutdown.NotAsked?
    ensures NoneAdded(w.table, Act(w, action).table)
    ensures Act(w, action).table.slots.Keys == w.table.slots.Keys
  {
    if action.Proceed? {
      var doing := DoingOf(w, action.caller);
      if doing.Sweeps? && doing.rest.Keys != {} {
        assert Act(w, action).table == SweepOne(w.table, doing, action.pick).0;
      }
    }
  }

  lemma StopsKeep(w: World, k: Key)
    requires Inv(w) && Enabled(w, ShutdownStops(k))
    ensures ShutdownOk(Act(w, ShutdownStops(k)).table, Act(w, ShutdownStops(k)).shutdown)
  {
    var next := Act(w, ShutdownStops(k));
    forall j | j in next.table.owners ensures Accounted(next.table, j, next.shutdown) {
      assert Accounted(w.table, j, w.shutdown);
    }
    if w.shutdown.failed {
      var s :| s in w.table.slots && w.table.slots[s].closing == Closed(false);
      assert next.table.slots[s].closing == Closed(false);
    }
  }

  lemma SettlesKeep(w: World, k: Key)
    requires Inv(w) && Enabled(w, ShutdownSettles(k))
    ensures ShutdownOk(Act(w, ShutdownSettles(k)).table, Act(w, ShutdownSettles(k)).shutdown)
  {
    var next := Act(w, ShutdownSettles(k));
    forall j | j in next.table.owners ensures Accounted(next.table, j, next.shutdown) {
      assert Accounted(w.table, j, w.shutdown);
    }
    if next.shutdown.failed {
      if !w.table.slots[w.shutdown.retiring[k]].closing.ok {
        assert next.table.slots[w.shutdown.retiring[k]].closing == Closed(false);
      } else {
        var s :| s in w.table.slots && w.table.slots[s].closing == Closed(false);
        assert next.table.slots[s].closing == Closed(false);
      }
    }
  }

  // ---- Every run -------------------------------------------------------------

  lemma TableKeeps(w: World, action: Action)
    requires Inv(w) && Enabled(w, action)
    ensures TableOk(Act(w, action).table) && Onward(w.table, Act(w, action).table)
  {
    var t := w.table;
    NothingChanged(t);
    match action
    case Proceed(c, newSlot, pick) =>
      hide *;
      ProceedFits(w, c, newSlot, pick);
    case Stop(_, key) => if key in t.owners { BeginCloseKeeps(t, t.owners[key]); }
    case OpeningEnds(s, ok) => OpeningKeeps(t, s, if ok then Opened(true) else Failed);
    case SessionDies(s) => OpeningKeeps(t, s, Opened(false));
    case CloseEnds(s, ok) => ClosedKeeps(t, s, ok);
    case ShutdownStops(k) => if k in t.owners { BeginCloseKeeps(t, t.owners[k]); }
    case ShutdownSettles(k) =>
      var s := w.shutdown.retiring[k];
      if t.slots[s].closing.ok { ReleaseKeeps(t, k, s); }
    case _ =>
  }

  lemma ProceedFits(w: World, c: Caller, newSlot: SlotId, pick: Key)
    requires Inv(w) && Enabled(w, Proceed(c, newSlot, pick))
    ensures
      var next := Act(w, Proceed(c, newSlot, pick));
      TableOk(next.table) && Onward(w.table, next.table) && CallersOk(next)
  {
    hide TableOk, Onward, DoingOk, ShutdownOk, Proceeded;
    ProceedKeeps(w, c, newSlot, pick);
    CallersStay(w, Proceeded(w, c, newSlot, pick).0);
  }

  lemma CallersKeep(w: World, action: Action)
    requires Inv(w) && Enabled(w, action) && !action.Proceed?
    ensures CallersOk(Act(w, action))
  {
    TableKeeps(w, action);
    CallersStay(w, Act(w, action).table);
    hide TableOk, Onward, ShutdownOk;
    if action.Stop? && action.key in w.table.owners {
      StopIsFine(w, action.key);
    }
  }

  lemma StopIsFine(w: World, key: Key)
    requires TableOk(w.table) && key in w.table.owners
    ensures DoingOk(BeginClose(w.table, w.table.owners[key]), Retires(key, w.table.owners[key], Idle))
  {
  }

  lemma ActKeeps(w: World, action: Action)
    requires Inv(w) && Enabled(w, action)
    ensures Inv(Act(w, action)) && Onward(w.table, Act(w, action).table)
  {
    var next := Act(w, action);
    TableKeeps(w, action);
    if action.Proceed? {
      ProceedFits(w, action.caller, action.newSlot, action.pick);
    } else {
      CallersKeep(w, action);
    }
    hide TableOk, CallersOk, Onward, NoneAdded, Proceeded;
    match action
    case ShutdownStops(k) => StopsKeep(w, k);
    case ShutdownSettles(k) => SettlesKeep(w, k);
    case ShutdownBegins =>
    case CloseManager =>
    case _ =>
      if w.shutdown.Stopping? { NoneAddedAfterClosing(w, action); }
      ShutdownStays(w.table, next.table, w.shutdown);
  }

  lemma OnwardTwice(t: Table, u: Table, v: Table)
    requires Onward(t, u) && Onward(u, v)
    ensures Onward(t, v)
  {
  }

  lemma {:induction false} EveryRunKeepsInv(w: World, actions: seq<Action>)
    requires Inv(w)
    ensures Inv(RunAll(w, actions)) && Onward(w.table, RunAll(w, actions).table)
    decreases |actions|
  {
    NothingChanged(w.table);
    hide Inv, Onward, Act, Enabled;
    if actions != [] {
      var next := Perform(w, actions[0]);
      if Enabled(w, actions[0]) { ActKeeps(w, actions[0]); }
      EveryRunKeepsInv(next, actions[1..]);
      OnwardTwice(w.table, next.table, RunAll(next, actions[1..]).table);
    }
  }

  // ---- What it is for --------------------------------------------------------

  /** Over every run: at most one live session for a key, each in its place, and at most eight places. */
  lemma OneSessionPerKey(actions: seq<Action>, a: SlotId, b: SlotId)
    requires a in RunAll(Start, actions).table.slots && b in RunAll(Start, actions).table.slots
    requires RunAll(Start, actions).table.slots[a].Live() && RunAll(Start, actions).table.slots[b].Live()
    requires RunAll(Start, actions).table.slots[a].key == RunAll(Start, actions).table.slots[b].key
    ensures a == b
    ensures
      var t := RunAll(Start, actions).table;
      t.slots[a].key in t.owners && t.owners[t.slots[a].key] == a && |t.owners| <= LIMIT
  {
    EveryRunKeepsInv(Start, actions);
  }

  /** What leaves the table in any step has been closed successfully; a replacement never leaves with it. */
  lemma OnlyClosedSlotsLeave(w: World, action: Action, key: Key)
    requires Inv(w) && Enabled(w, action) && key in w.table.owners
    requires key !in Act(w, action).table.owners || Act(w, action).table.owners[key] != w.table.owners[key]
    ensures w.table.Has(w.table.owners[key]) && w.table.slots[w.table.owners[key]].closing == Closed(true)
  {
    hide CallersOk, ShutdownOk;
    ActKeeps(w, action);
    ChangedWasClosed(w.table, Act(w, action).table, key);
    ClosingsLast(w, action, w.table.owners[key]);
  }

  lemma ChangedWasClosed(t: Table, u: Table, key: Key)
    requires TableOk(t) && TableOk(u) && Onward(t, u) && key in t.owners
    requires key !in u.owners || u.owners[key] != t.owners[key]
    ensures u.slots[t.owners[key]].closing == Closed(true)
  {
  }

  lemma ProceedNeverClosed(w: World, c: Caller, newSlot: SlotId, pick: Key, s: SlotId)
    requires CanProceed(w, c, newSlot, pick) && w.table.Has(s)
    ensures
      var u := Proceeded(w, c, newSlot, pick).0;
      s in u.slots && u.slots[s].closing == Closed(true) ==> w.table.slots[s].closing == Closed(true)
  {
    var doing := DoingOf(w, c);
    if doing.Sweeps? && doing.rest.Keys != {} {
      assert Proceeded(w, c, newSlot, pick) == SweepOne(w.table, doing, pick);
    }
  }

  /** A close only ends in the step that ends it, and that step removes nothing. */
  lemma ClosingsLast(w: World, action: Action, s: SlotId)
    requires Enabled(w, action) && w.table.Has(s) && s in Act(w, action).table.slots
    requires Act(w, action).table.slots[s].closing == Closed(true)
    ensures w.table.slots[s].closing == Closed(true) || Act(w, action).table.owners == w.table.owners
  {
    hide Proceeded, CanProceed;
    if action.Proceed? {
      ProceedNeverClosed(w, action.caller, action.newSlot, action.pick, s);
    }
  }

  /** A caller is given the environment of the session that holds its key, started within the access it asks for. */
  predicate Answered(w: World, c: Caller) {
    && DoingOf(w, c).Awaits? && w.table.Has(DoingOf(w, c).slot) && w.shutdown.NotAsked?
    && w.table.slots[DoingOf(w, c).slot].opening.Opened? && w.table.slots[DoingOf(w, c).slot].closing.NotClosing?
  }

  lemma AnswersAreCurrent(actions: seq<Action>, c: Caller)
    requires Answered(RunAll(Start, actions), c)
    ensures
      var w := RunAll(Start, actions);
      var ask := DoingOf(w, c).ask;
      && ask.key in w.table.owners && w.table.owners[ask.key] == DoingOf(w, c).slot
      && SameAccess(w.table.slots[w.table.owners[ask.key]].permissions, ask.permissions)
  {
    EveryRunKeepsInv(Start, actions);
    var w := RunAll(Start, actions);
    assert DoingOk(w.table, w.callers[c]);
  }

  /** A close that failed holds its place for ever: the key gets no other session. */
  lemma FailedCloseIsForever(w: World, actions: seq<Action>, s: SlotId)
    requires Inv(w) && w.table.Has(s) && w.table.slots[s].closing == Closed(false)
    ensures
      var t := RunAll(w, actions).table;
      var key := w.table.slots[s].key;
      && key in t.owners && t.owners[key] == s && t.Has(s) && t.slots[s].closing == Closed(false)
  {
    EveryRunKeepsInv(w, actions);
  }

  /** The call has a slot whose close failed still in front of it. */
  ghost predicate Meets(doing: Doing, s: SlotId) {
    match doing
    case Sweeps(_, rest, _) => exists k :: k in rest && rest[k] == s
    case Retires(_, t, next) => t == s || (next.Sweeps? && Meets(next, s))
    case _ => false
  }

  lemma StepMeets(w: World, action: Action, c: Caller, s: SlotId)
    requires Inv(w) && Enabled(w, action) && w.table.Has(s) && w.table.slots[s].closing == Closed(false)
    requires Meets(DoingOf(w, c), s)
    ensures DoingOf(Act(w, action), c).Idle? || Meets(DoingOf(Act(w, action), c), s)
  {
    if action.Proceed? && action.caller == c && DoingOf(w, c).Sweeps? {
      var doing := DoingOf(w, c);
      var k :| k in doing.rest && doing.rest[k] == s;
      if action.pick != k { assert k in doing.rest - {action.pick}; }
    }
  }

  /**
   A sweep over a full table that holds a slot whose close failed gives no session, whatever the other
   slots do meanwhile: the call ends with an error.
   */
  lemma {:induction false} FailedCloseStopsTheSweep(w: World, actions: seq<Action>, c: Caller, s: SlotId)
    requires Inv(w) && w.table.Has(s) && w.table.slots[s].closing == Closed(false)
    requires DoingOf(w, c).Idle? || Meets(DoingOf(w, c), s)
    requires forall a | a in actions :: !(a.Begin? && a.caller == c) && !(a.Stop? && a.caller == c)
    ensures DoingOf(RunAll(w, actions), c).Idle? || Meets(DoingOf(RunAll(w, actions), c), s)
    decreases |actions|
  {
    if actions != [] {
      var next := Perform(w, actions[0]);
      assert actions[0] in actions;
      FailureStays(w, actions[0], s);
      if Enabled(w, actions[0]) && Meets(DoingOf(w, c), s) {
        StepMeets(w, actions[0], c, s);
      } else {
        IdleStays(w, actions[0], c);
      }
      hide Inv, Meets, Act, Enabled;
      FailedCloseStopsTheSweep(next, actions[1..], c, s);
    }
  }

  lemma FailureStays(w: World, action: Action, s: SlotId)
    requires Inv(w) && w.table.Has(s) && w.table.slots[s].closing == Closed(false)
    ensures Inv(Perform(w, action))
    ensures Perform(w, action).table.Has(s) && Perform(w, action).table.slots[s].closing == Closed(false)
  {
    hide Inv, Act, Enabled;
    if Enabled(w, action) { ActKeeps(w, action); }
  }

  lemma IdleStays(w: World, action: Action, c: Caller)
    requires !(action.Begin? && action.caller == c) && !(action.Stop? && action.caller == c)
    ensures DoingOf(w, c).Idle? ==> DoingOf(Perform(w, action), c).Idle?
    ensures !Enabled(w, action) ==> Perform(w, action) == w
  {
  }

  predicate Finished(w: World) {
    w.shutdown.Stopping? && w.shutdown.unstopped == {} && w.shutdown.retiring.Keys == {}
  }

  /** The manager's close ends without failure exactly when no place is left, and then no session is live. */
  lemma ClosedMeansNothingLives(actions: seq<Action>)
    requires Finished(RunAll(Start, actions))
    ensures
      var w := RunAll(Start, actions);
      && (w.shutdown.failed <==> w.table.owners.Keys != {})
      && (!w.shutdown.failed ==> forall s | s in w.table.slots :: !w.table.slots[s].Live())
      && (forall k | k in w.table.owners ::
            w.table.Has(w.table.owners[k]) && w.table.slots[w.table.owners[k]].closing == Closed(false))
  {
    EveryRunKeepsInv(Start, actions);
    var w := RunAll(Start, actions);
    forall k | k in w.table.owners
      ensures w.shutdown.failed && w.table.Has(w.table.owners[k]) && w.table.slots[w.table.owners[k]].closing == Closed(false)
    {
      assert Accounted(w.table, k, w.shutdown);
    }
    if w.shutdown.failed {
      var s :| s in w.table.slots && w.table.slots[s].closing == Closed(false);
      assert w.table.slots[s].key in w.table.owners.Keys;
    }
  }

  // ---- The object ------------------------------------------------------------

  class Manager {
    var owners: map<Key, SlotId>
    var slots: map<SlotId, Slot>
    var closed: bool

    ghost function Current(): Table
      reads this
    {
      Table(owners, slots)
    }

    constructor ()
      ensures Current() == Start.table && !closed
    {
      owners, slots, closed := map[], map[], false;
    }

    /** One pass of the loop that looks for a session: what the caller awaits next, if anything. */
    method LookOnce(ask: Ask, newSlot: SlotId) returns (doing: Doing)
      requires TableOk(Current())
      modifies this
      ensures (Current(), doing) == old(Look(Current(), closed, ask, newSlot))
      ensures closed == old(closed)
    {
      if closed {
        return Idle;
      }
      if ask.key in owners {
        var s := owners[ask.key];
        assert Current().Has(s);
        if !slots[s].closing.NotClosing? || slots[s].Unavailable() {
          Close(s);
          return Retires(ask.key, s, Asks(ask));
        }
        if !SameAccess(slots[s].permissions, ask.permissions) {
          return Idle;
        }
        return Awaits(ask, s);
      }
      if |owners| >= LIMIT {
        return Sweeps(ask, owners, false);
      }
      slots := slots[newSlot := Slot(ask.key, ask.permissions, Starting, NotClosing)];
      owners := owners[ask.key := newSlot];
      return Awaits(ask, newSlot);
    }

    /** Start the closing task of a slot unless it has one. */
    method Close(s: SlotId)
      requires Current().Has(s)
      modifies this`slots
      ensures Current() == old(BeginClose(Current(), s))
    {
      if slots[s].closing.NotClosing? {
        slots := slots[s := slots[s].(closing := Closing)];
      }
    }

    /** The end of retiring a slot: nothing is removed when the close failed or the place was given away. */
    method Retire(key: Key, s: SlotId, next: Doing) returns (doing: Doing)
      requires Current().Has(s) && slots[s].closing.Closed?
      modifies this`owners
      ensures Current() == (if slots[s].closing.ok then old(Release(Current(), key, s)) else old(Current()))
      ensures doing == (if slots[s].closing.ok then next else Idle)
    {
      if !slots[s].closing.ok {
        return Idle;
      }
      if key in owners && owners[key] == s {
        owners := owners - {key};
      }
      return next;
    }

    /** One entry of the sweep over a full table. */
    method SweepNext(ask: Ask, rest: map<Key, SlotId>, retired: bool, pick: Key) returns (doing: Doing)
      requires pick in rest && Current().Has(rest[pick])
      modifies this`slots
      ensures (Current(), doing) == old(SweepOne(Current(), Sweeps(ask, rest, retired), pick))
    {
      var s := rest[pick];
      if !slots[s].closing.NotClosing? || slots[s].Unavailable() {
        Close(s);
        return Retires(pick, s, Sweeps(ask, rest - {pick}, true));
      }
      return Sweeps(ask, rest - {pick}, retired);
    }
  }
}
