/**
 The device identity survives: over every run, with a crash after any durable write, the
 installed application can read the account it needs, nothing in the keychain is
 forgotten, and recovery leads back to exactly one account.
 */
module DeviceSafety {
  import opened Courses
  import opened DeviceState
  import opened Options

  // ---- The invariant ---------------------------------------------------------

  /** Every keychain entry is written down as current, pending or retired. */
  ghost predicate Tracked(d: Disk) {
    forall a | a in d.keys :: d.current == Some(a) || (d.pending.Some? && d.pending.value.account == a) || a in d.retired
  }

  /** Retired accounts are neither current nor pending, so deleting them is safe. */
  ghost predicate Apart(d: Disk) {
    && (d.current.Some? ==> d.current.value !in d.retired)
    && (d.pending.Some? ==> d.pending.value.account !in d.retired && d.current != Some(d.pending.value.account))
  }

  ghost predicate PendingHeld(d: Disk) {
    d.pending.Some? && d.pending.value.authorized ==> CanRead(d, d.pending.value.account, d.installed)
  }

  ghost predicate NamedFits(d: Disk) {
    d.named.Some? ==> d.named.value.from < d.named.value.to && d.installed in {d.named.value.from, d.named.value.to}
  }

  /** No update owns any account. */
  ghost predicate Settled(d: Disk) {
    && d.record.None? && Tracked(d) && Apart(d) && PendingHeld(d) && NamedFits(d)
    && (d.current.Some? ==> CanRead(d, d.current.value, d.installed))
  }

  ghost predicate RecordFits(d: Disk) {
    && d.record.Some? && d.pending.None? && d.retired == []
    && var r := d.record.value;
    && r.source != r.target && r.from < r.to
    && d.keys.Keys <= {r.source, r.target}
    && (r.source in d.keys ==> d.keys[r.source] == Key(r.sealed, r.from))
    && (r.target in d.keys ==> d.keys[r.target] == Key(r.sealed, r.to))
    && (d.named.Some? ==> d.named == Some(Versions(r.from, r.to)))
  }

  /** Before the exchange: the source account is in use, and the candidate's is created only once it can be found again. */
  ghost predicate Prepared(d: Disk) {
    && RecordFits(d) && d.installed == d.record.value.from
    && d.current == Some(d.record.value.source) && d.record.value.source in d.keys
    && (d.record.value.target in d.keys ==> d.named.Some?)
  }

  /** After the exchange: the new application can read its account, and the old one is kept to delete its own. */
  ghost predicate Exchanged(d: Disk) {
    && RecordFits(d) && d.installed == d.record.value.to && d.named.Some? && d.retained
    && d.current in {Some(d.record.value.source), Some(d.record.value.target)}
    && d.record.value.target in d.keys
    && (d.current == Some(d.record.value.source) ==> d.record.value.source in d.keys)
  }

  ghost predicate Recoverable(d: Disk) { Settled(d) || Prepared(d) || Exchanged(d) }

  ghost predicate Sound(w: World) {
    match w.stage
    case Idle => Settled(w.disk)
    case Updating => (Settled(w.disk) && w.disk.pending.None?) || Prepared(w.disk)
    case Swapped(_) => Exchanged(w.disk) && w.disk.current == Some(w.disk.record.value.source)
    case Down => Recoverable(w.disk)
  }

  /** The device secret that the installed application can get at, now or after recovery. */
  function Usable(d: Disk): Option<Secret> {
    if d.current.Some? && CanRead(d, d.current.value, d.installed) then Some(d.keys[d.current.value].secret)
    else if d.current.Some? && d.record.Some? && CanRead(d, d.record.value.target, d.installed) then Some(d.keys[d.record.value.target].secret)
    else None
  }

  // ---- Deleting retired accounts ---------------------------------------------

  lemma {:induction false} RemovingRemoves(d: Disk, accounts: seq<Account>)
    ensures forall e | e in Removing(d, accounts) ::
      e == d.(keys := e.keys) && e.keys.Keys <= d.keys.Keys && forall a | a in d.keys && a !in accounts :: a in e.keys && e.keys[a] == d.keys[a]
    ensures var e := End(d, Removing(d, accounts));
            && e == d.(keys := e.keys) && e.keys.Keys <= d.keys.Keys
            && (forall a | a in e.keys :: e.keys[a] == d.keys[a] && a !in accounts)
            && (forall a | a in d.keys && a !in accounts :: a in e.keys)
    decreases |accounts|
  {
    if accounts != [] {
      var next, rest := d.(keys := d.keys - {accounts[0]}), accounts[1..];
      RemovingRemoves(next, rest);
      EndOfAppend(d, [next], Removing(next, rest));
      assert accounts == [accounts[0]] + rest;
    }
  }

  /** What cleaning may change. */
  ghost predicate SameButKeys(d: Disk, e: Disk) {
    && e == d.(keys := e.keys, retired := e.retired)
    && (forall a | a in d.keys && a !in d.retired :: a in e.keys && e.keys[a] == d.keys[a])
    && e.keys.Keys <= d.keys.Keys
    && (e.retired == d.retired || e.retired == [])
  }

  lemma CleanKeeps(d: Disk)
    requires Settled(d)
    ensures Clean(d).done
    ensures forall e | e in Clean(d).writes :: Settled(e) && SameButKeys(d, e)
    ensures var e := End(d, Clean(d).writes); Settled(e) && SameButKeys(d, e) && e.retired == []
  {
    if d.retired != [] {
      RemovingRemoves(d, d.retired);
      var removed := Removing(d, d.retired);
      var last := End(d, removed).(retired := []);
      EndOfAppend(d, removed, [last]);
      hide Removing;
      assert Settled(last) && SameButKeys(d, last);
    }
  }

  lemma DiscardKeeps(d: Disk)
    requires Settled(d)
    ensures Discard(d).done
    ensures forall e | e in Discard(d).writes :: Settled(e) && Usable(e) == Usable(d)
    ensures var e := End(d, Discard(d).writes);
            Settled(e) && e.pending.None? && Usable(e) == Usable(d) && e.keys.Keys <= d.keys.Keys && e.named == d.named
  {
    if d.pending.Some? {
      var retired := d.(pending := None, retired := d.retired + [d.pending.value.account]);
      assert Settled(retired);
      CleanKeeps(retired);
      EndOfAppend(d, [retired], Clean(retired).writes);
      hide Clean;
    }
  }

  // ---- Operations outside updates --------------------------------------------

  lemma RequestKeeps(d: Disk, account: Account, secret: Secret)
    requires Settled(d) && d.pending.None? && Unused(d, account)
    ensures forall e | e in Request(d, account, secret).writes :: Settled(e)
  {
  }

  lemma StartKeeps(d: Disk, account: Account, secret: Secret)
    requires Settled(d) && Unused(d, account)
    ensures Start(d, account, secret).done
    ensures forall e | e in Start(d, account, secret).writes :: Settled(e)
  {
    DiscardKeeps(d);
    var discarded := Discard(d).writes;
    var e := End(d, discarded);
    if !(d.pending.Some? && d.pending.value.authorized) {
      assert Unused(e, account) by { DiscardForgets(d, account); }
      RequestKeeps(e, account, secret);
      EndOfAppend(d, discarded, Request(e, account, secret).writes);
      hide Discard, Request, Settled;
    }
  }

  /** Discarding brings no new account names. */
  lemma DiscardForgets(d: Disk, account: Account)
    requires Settled(d) && Unused(d, account)
    ensures Unused(End(d, Discard(d).writes), account)
  {
    if d.pending.Some? {
      var retired := d.(pending := None, retired := d.retired + [d.pending.value.account]);
      CleanKeeps(retired);
      EndOfAppend(d, [retired], Clean(retired).writes);
      hide Clean;
    }
  }

  lemma AcceptKeeps(d: Disk)
    requires Settled(d)
    ensures Accept(d).done
    ensures forall e | e in Accept(d).writes :: Settled(e)
  {
    if d.pending.Some? && d.pending.value.authorized {
      var account := d.pending.value.account;
      var retired := if d.current.Some? && d.current.value != account then d.retired + [d.current.value] else d.retired;
      var accepted := d.(current := Some(account), pending := None, retired := retired);
      assert Settled(accepted);
      CleanKeeps(accepted);
      EndOfAppend(d, [accepted], Clean(accepted).writes);
      hide Clean, Settled;
    }
  }

  lemma RevokeKeeps(d: Disk)
    requires Settled(d)
    ensures forall e | e in Revoke(d).writes :: Settled(e)
    ensures Revoke(d).done <==> d.current.Some?
  {
    DiscardKeeps(d);
    DiscardKeepsCurrent(d);
    var discarded := Discard(d).writes;
    var e := End(d, discarded);
    if e.current.Some? && CanRead(e, e.current.value, e.installed) {
      var revoked := e.(current := None, retired := e.retired + [e.current.value]);
      assert Settled(revoked);
      CleanKeeps(revoked);
      EndOfAppend(e, [revoked], Clean(revoked).writes);
      EndOfAppend(d, discarded, [revoked] + Clean(revoked).writes);
      hide Clean, Discard, Settled;
    }
  }

  lemma DiscardKeepsCurrent(d: Disk)
    requires Settled(d)
    ensures End(d, Discard(d).writes).current == d.current
  {
    if d.pending.Some? {
      var retired := d.(pending := None, retired := d.retired + [d.pending.value.account]);
      CleanKeeps(retired);
      EndOfAppend(d, [retired], Clean(retired).writes);
      hide Clean;
    }
  }

  lemma UiKeeps(d: Disk, op: UiOperation)
    requires Settled(d) && (op.StartAuthorization? ==> Unused(d, op.account))
    ensures forall e | e in UiCourse(d, op).writes :: Settled(e)
  {
    hide Settled, Start, Accept, Revoke, Discard, Clean;
    match op
    case StartAuthorization(account, secret) => StartKeeps(d, account, secret);
    case AcceptAuthorization => AcceptKeeps(d);
    case EndAuthorization => DiscardKeeps(d);
    case RevokeAuthorization => RevokeKeeps(d);
    case CleanAccounts => CleanKeeps(d);
  }

  // ---- Update operations -----------------------------------------------------

  lemma RemoveWorkspaceKeeps(d: Disk)
    requires Settled(d)
    ensures RemoveWorkspace(d).done
    ensures forall e | e in RemoveWorkspace(d).writes :: Settled(e) && Usable(e) == Usable(d) && e.pending == d.pending
    ensures var e := End(d, RemoveWorkspace(d).writes);
            e == d.(named := None, retained := false) && Settled(e) && Usable(e) == Usable(d)
  {
  }

  lemma BeginKeeps(d: Disk)
    requires Settled(d)
    ensures Begin(d).done
    ensures forall e | e in Begin(d).writes :: Settled(e) && Usable(e) == Usable(d)
    ensures End(d, Begin(d).writes).pending.None?
  {
    RemoveWorkspaceKeeps(d);
    var e := End(d, RemoveWorkspace(d).writes);
    DiscardKeeps(e);
    EndOfAppend(d, RemoveWorkspace(d).writes, Discard(e).writes);
    EndIsOneOf(d, RemoveWorkspace(d).writes);
    hide Settled, Discard, RemoveWorkspace, Usable;
  }

  lemma HandKeeps(d: Disk, r: Record)
    requires d.pending.None? && d.retired == [] && d.installed == r.from && r.from < r.to && r.source != r.target
    requires d.current == Some(r.source) && r.source in d.keys && d.keys[r.source] == Key(r.sealed, r.from)
    requires d.keys.Keys <= {r.source, r.target} && (r.target in d.keys ==> d.keys[r.target] == Key(r.sealed, r.to))
    requires r.target in d.keys ==> d.named == Some(Versions(r.from, r.to))
    requires d.named.Some? ==> d.named == Some(Versions(r.from, r.to))
    ensures Hand(d, r).done
    ensures forall e | e in Hand(d, r).writes :: Prepared(e) && Usable(e) == Usable(d)
    ensures End(d, Hand(d, r).writes).named.Some? && r.target in End(d, Hand(d, r).writes).keys
  {
  }

  lemma PrepareKeeps(d: Disk, target: Account, to: Version)
    requires (Settled(d) && d.pending.None?) || Prepared(d)
    requires d.installed < to && Unused(d, target) && (d.record.Some? ==> d.record.value.to == to)
    requires d.named.Some? ==> d.named == Some(Versions(d.installed, to))
    ensures forall e | e in Prepare(d, target, to).writes :: ((Settled(e) && e.pending.None?) || Prepared(e)) && Usable(e) == Usable(d)
  {
    if Prepared(d) {
      assert Clean(d) == Nothing;
      HandKeeps(d, d.record.value);
      assert [] + Hand(d, d.record.value).writes == Hand(d, d.record.value).writes;
    } else {
      CleanKeeps(d);
      var cleaned := Clean(d).writes;
      var e := End(d, cleaned);
      if e.current.Some? && CanRead(e, e.current.value, e.installed) {
        var r := Record(e.installed, to, e.current.value, target, e.keys[e.current.value].secret);
        HandKeeps(e, r);
        EndOfAppend(d, cleaned, Hand(e, r).writes);
      }
      hide Clean, Hand, Prepared;
    }
  }

  lemma InstallKeeps(d: Disk)
    requires Prepared(d) && d.named.Some? && d.record.value.target in d.keys
    ensures Install(d).done && |Install(d).writes| == 2
    ensures Prepared(Install(d).writes[0]) && Exchanged(Install(d).writes[1])
    ensures Usable(Install(d).writes[0]) == Usable(d) && Usable(Install(d).writes[1]) == Usable(d)
    ensures Install(d).writes[1].current == Some(d.record.value.source) && Install(d).writes[1].record == d.record
  {
  }

  /** Cancelling before the exchange deletes exactly the candidate's account. */
  lemma CancelKeeps(d: Disk)
    requires Prepared(d)
    ensures var course := Cancel(d, d.installed);
            && course.done
            && (forall e | e in course.writes :: (Prepared(e) || Settled(e)) && Usable(e) == Usable(d) && e.pending.None?)
            && var e := End(d, course.writes); Settled(e) && e.keys.Keys == {d.record.value.source} && e.current == d.current
  {
  }

  lemma AdoptKeeps(d: Disk)
    requires Exchanged(d)
    ensures Adopt(d).done && |Adopt(d).writes| == 1
    ensures var e := Adopt(d).writes[0];
            e == d.(current := Some(d.record.value.target)) && Exchanged(e) && Usable(e) == Usable(d)
  {
  }

  /** The retained application deletes exactly the source account. */
  lemma FinishKeeps(d: Disk)
    requires Exchanged(d) && d.current == Some(d.record.value.target)
    ensures var course := Finish(d);
            && course.done
            && (forall e | e in course.writes :: (Exchanged(e) || Settled(e)) && Usable(e) == Usable(d))
            && var e := End(d, course.writes); Settled(e) && e.keys.Keys == {d.record.value.target} && e.current == d.current
  {
  }

  // ---- Recovery --------------------------------------------------------------

  lemma AndRemoveKeeps(d: Disk, course: Course<Disk>)
    requires course.done && Settled(End(d, course.writes))
    requires forall e | e in course.writes :: Recoverable(e) && Usable(e) == Usable(d)
    ensures AndRemove(d, course).done
    ensures forall e | e in AndRemove(d, course).writes :: Recoverable(e) && Usable(e) == Usable(d)
    ensures End(d, AndRemove(d, course).writes) == End(d, course.writes).(named := None, retained := false)
    ensures Settled(End(d, AndRemove(d, course).writes))
  {
    var e := End(d, course.writes);
    RemoveWorkspaceKeeps(e);
    EndOfAppend(d, course.writes, RemoveWorkspace(e).writes);
    EndIsOneOf(d, course.writes);
    hide Settled, RemoveWorkspace, Usable;
  }

  /**
   From every state that a crash can leave, starting the application again succeeds. It ends
   with no update record, and after a live update with exactly the current account; the
   device secret is readable at the end and never changed on the way.
   */
  lemma RecoveryCompletes(d: Disk)
    requires Recoverable(d)
    ensures Recover(d).done
    ensures forall e | e in Recover(d).writes :: Recoverable(e) && Usable(e) == Usable(d)
    ensures var e := End(d, Recover(d).writes);
            && Settled(e) && e.named.None? && Usable(e) == Usable(d)
            && (d.record.Some? ==> e.current.Some? && e.keys.Keys == {e.current.value})
            && (d.record.None? ==> e.current == d.current && e.keys == d.keys)
  {
    if Settled(d) {
      RecoverySettled(d);
    } else if d.named.None? {
      assert d.record.Some? && Prepared(d);
    } else if Prepared(d) {
      RecoveryCancels(d);
    } else {
      RecoveryFinishes(d);
    }
  }

  lemma RecoverySettled(d: Disk)
    requires Settled(d)
    ensures Recover(d).done
    ensures forall e | e in Recover(d).writes :: Recoverable(e) && Usable(e) == Usable(d)
    ensures d.named.Some? ==> End(d, Recover(d).writes) == d.(named := None, retained := false)
    ensures d.named.None? ==> End(d, Recover(d).writes) == d
    ensures Settled(End(d, Recover(d).writes)) && Usable(End(d, Recover(d).writes)) == Usable(d)
  {
    AndRemoveKeeps(d, Nothing);
    RemoveWorkspaceKeeps(d);
    assert Append(Nothing, Nothing) == Nothing;
    hide AndRemove, RemoveWorkspace, Usable;
  }

  lemma RecoveryCancels(d: Disk)
    requires Prepared(d) && d.named.Some?
    ensures Recover(d).done
    ensures forall e | e in Recover(d).writes :: Recoverable(e) && Usable(e) == Usable(d)
    ensures var e := End(d, Recover(d).writes);
            && Settled(e) && e.named.None? && Usable(e) == Usable(d) && e.current == d.current
            && e.current.Some? && e.keys.Keys == {e.current.value}
  {
    CancelKeeps(d);
    var course := Cancel(d, d.installed);
    AndRemoveKeeps(d, course);
    EndIsOneOf(d, AndRemove(d, course).writes);
    EndIsOneOf(d, course.writes);
    assert Recover(d) == AndRemove(d, course);
    hide Cancel, AndRemove, Settled, Usable, Recover;
    var e := End(d, course.writes).(named := None, retained := false);
    assert e.keys == End(d, course.writes).keys;
  }

  lemma RecoveryFinishes(d: Disk)
    requires Exchanged(d)
    ensures Recover(d).done
    ensures forall e | e in Recover(d).writes :: Recoverable(e) && Usable(e) == Usable(d)
    ensures var e := End(d, Recover(d).writes);
            && Settled(e) && e.named.None? && Usable(e) == Usable(d)
            && e.current.Some? && e.keys.Keys == {e.current.value}
  {
    AdoptKeeps(d);
    var adopted := Adopt(d).writes[0];
    assert Adopt(d).writes == [adopted];
    FinishKeeps(adopted);
    var course := Append(Adopt(d), Finish(adopted));
    EndOfAppend(d, [adopted], Finish(adopted).writes);
    EndIsOneOf(adopted, Finish(adopted).writes);
    assert Recover(d) == AndRemove(d, course);
    hide Adopt, Finish, Recover, Settled, Exchanged, Prepared, Usable;
    AndRemoveKeeps(d, course);
    EndIsOneOf(d, AndRemove(d, course).writes);
    assert End(d, AndRemove(d, course).writes).keys == End(adopted, Finish(adopted).writes).keys;
  }

  // ---- One action ------------------------------------------------------------

  /** Giving an update up although the new application is already in place, and getting as far as the first deletion. */
  predicate IsMistaken(w: World, action: Action) {
    action.CancelUpdate? && w.stage == Swapped(false) && action.writes > 0
  }

  /** Only the user changes which secret the device uses. */
  predicate ChangesIdentity(action: Action) { action.Ui? }

  lemma StepKeepsSound(w: World, action: Action)
    requires Sound(w) && !IsMistaken(w, action)
    ensures Sound(Perform(w, action))
    ensures !ChangesIdentity(action) ==> Usable(Perform(w, action).disk) == Usable(w.disk)
  {
    if Enabled(w, action) {
      var d := w.disk;
      match action
      case Ui(op, n, _) =>
        UiKeeps(d, op);
        AfterIsOneOf(d, UiCourse(d, op).writes, n);
        hide UiCourse, Settled;
      case BeginUpdate(n, _) =>
        BeginKeeps(d);
        AfterIsOneOf(d, Begin(d).writes, n);
        hide Begin, Settled, Usable;
      case PrepareUpdate(target, to, n, _) =>
        PrepareKeeps(d, target, to);
        AfterIsOneOf(d, Prepare(d, target, to).writes, n);
        hide Prepare, Settled, Usable, Prepared;
      case InstallUpdate(n, _, _) =>
        InstallKeeps(d);
        AfterIsOneOf(d, Install(d).writes, n);
        hide Install, Settled, Usable;
      case CancelUpdate(n, _) => CancelStep(w, action);
      case Launch(n, _) =>
        RecoveryCompletes(d);
        AfterIsOneOf(d, Recover(d).writes, n);
        hide Recover, Settled, Prepared, Exchanged, Usable;
      case Quit =>
    }
  }

  lemma CancelStep(w: World, action: Action)
    requires Sound(w) && action.CancelUpdate? && Enabled(w, action) && !IsMistaken(w, action)
    ensures Sound(Perform(w, action)) && Usable(Perform(w, action).disk) == Usable(w.disk)
  {
    if w.stage.Updating? {
      CancelWhileUpdating(w, action);
    } else {
      assert Cancel(w.disk, Running(w)).writes != [];
    }
  }

  lemma CancelWhileUpdating(w: World, action: Action)
    requires Sound(w) && w.stage.Updating? && action.CancelUpdate?
    ensures Sound(Perform(w, action)) && Usable(Perform(w, action).disk) == Usable(w.disk)
  {
    var d := w.disk;
    var course := Cancel(d, d.installed);
    if Prepared(d) {
      CancelKeeps(d);
    }
    EndIsOneOf(d, course.writes);
    var e := End(d, course.writes);
    RemoveWorkspaceKeeps(e);
    EndOfAppend(d, course.writes, RemoveWorkspace(e).writes);
    AfterIsOneOf(d, AndRemove(d, course).writes, action.writes);
    hide Cancel, RemoveWorkspace, Settled, Prepared, Usable;
  }

  // ---- The mistake -----------------------------------------------------------

  /** Cancelling after the exchange deletes the only account that the installed application can read. */
  lemma MistakenCancelLosesIdentity(w: World, action: Action)
    requires Sound(w) && IsMistaken(w, action)
    ensures Usable(w.disk).Some? && Usable(Perform(w, action).disk).None? && Perform(w, action).disk.current.Some?
  {
    var d := w.disk;
    var r := d.record.value;
    var course := Cancel(d, r.from);
    var removed := d.(keys := d.keys - {r.target});
    var cleared := removed.(record := None);
    assert course.writes == [removed, cleared] && course.done;
    EndOfAppend(d, course.writes, RemoveWorkspace(cleared).writes);
    AfterIsOneOf(d, AndRemove(d, course).writes, action.writes);
    assert forall e | e in RemoveWorkspace(cleared).writes :: e.keys == removed.keys && e.current == d.current && e.installed == d.installed && e.record.None?;
    NotFirst(d, AndRemove(d, course).writes, action.writes);
  }

  lemma SoundIsUsable(w: World)
    requires Sound(w) && w.disk.current.Some?
    ensures Usable(w.disk).Some?
  {
  }

  lemma MistakeIsUnsound(w: World, action: Action)
    requires Sound(w) && IsMistaken(w, action)
    ensures !Sound(Perform(w, action))
  {
    hide Sound, Perform, Usable, IsMistaken;
    MistakenCancelLosesIdentity(w, action);
    if Sound(Perform(w, action)) { SoundIsUsable(Perform(w, action)); }
  }

  // ---- Every run -------------------------------------------------------------

  predicate NoMistake(w: World, actions: seq<Action>)
    decreases |actions|
  {
    actions == [] || (!IsMistaken(w, actions[0]) && NoMistake(Perform(w, actions[0]), actions[1..]))
  }

  ghost predicate SoundThroughout(w: World, actions: seq<Action>) {
    forall n | 0 <= n <= |actions| :: Sound(RunAll(w, actions[..n]))
  }

  ghost predicate SecretKept(w: World, actions: seq<Action>) {
    forall n | 0 <= n <= |actions| :: Usable(RunAll(w, actions[..n]).disk) == Usable(w.disk)
  }

  lemma FirstAction(w: World, actions: seq<Action>)
    requires actions != []
    ensures RunAll(w, actions[..0]) == w && RunAll(w, actions[..1]) == Perform(w, actions[0])
    ensures forall n | 0 < n <= |actions| :: RunAll(w, actions[..n]) == RunAll(Perform(w, actions[0]), actions[1..][..n - 1])
  {
    hide Perform;
    assert actions[..0] == [] && actions[..1][1..] == [];
    forall n | 0 < n <= |actions|
      ensures RunAll(w, actions[..n]) == RunAll(Perform(w, actions[0]), actions[1..][..n - 1])
    {
      assert actions[..n][0] == actions[0] && actions[..n][1..] == actions[1..][..n - 1];
    }
  }

  lemma SoundOneMore(w: World, actions: seq<Action>)
    requires actions != []
    ensures SoundThroughout(w, actions) <==> Sound(w) && SoundThroughout(Perform(w, actions[0]), actions[1..])
  {
    FirstAction(w, actions);
    hide Sound, Perform, RunAll;
    var next, rest := Perform(w, actions[0]), actions[1..];
    if SoundThroughout(w, actions) {
      forall n | 0 <= n <= |rest| ensures Sound(RunAll(next, rest[..n])) {
        assert Sound(RunAll(w, actions[..n + 1]));
      }
      assert Sound(RunAll(w, actions[..0]));
    }
    if Sound(w) && SoundThroughout(next, rest) {
      forall n | 0 <= n <= |actions| ensures Sound(RunAll(w, actions[..n])) {
        if n > 0 { assert Sound(RunAll(next, rest[..n - 1])); }
      }
    }
  }

  lemma SecretOneMore(w: World, actions: seq<Action>)
    requires actions != []
    ensures SecretKept(w, actions) ==> Usable(Perform(w, actions[0]).disk) == Usable(w.disk)
    ensures Usable(Perform(w, actions[0]).disk) == Usable(w.disk) ==>
              (SecretKept(w, actions) <==> SecretKept(Perform(w, actions[0]), actions[1..]))
  {
    FirstAction(w, actions);
    hide Usable, Perform, RunAll;
    var next, rest := Perform(w, actions[0]), actions[1..];
    if SecretKept(w, actions) {
      assert Usable(RunAll(w, actions[..1]).disk) == Usable(w.disk);
      forall n | 0 <= n <= |rest| ensures Usable(RunAll(next, rest[..n]).disk) == Usable(next.disk) {
        assert Usable(RunAll(w, actions[..n + 1]).disk) == Usable(w.disk);
      }
    }
    if SecretKept(next, rest) && Usable(next.disk) == Usable(w.disk) {
      forall n | 0 <= n <= |actions| ensures Usable(RunAll(w, actions[..n]).disk) == Usable(w.disk) {
        if n > 0 { assert Usable(RunAll(next, rest[..n - 1]).disk) == Usable(next.disk); }
      }
    }
  }

  lemma NothingDone(w: World)
    ensures SoundThroughout(w, []) <==> Sound(w)
    ensures SecretKept(w, [])
  {
    hide Sound, Usable;
    var none: seq<Action> := [];
    assert forall n | 0 <= n <= |none| :: none[..n] == [];
    assert RunAll(w, none[..0]) == w;
  }

  /** With a crash or an error after any write, the invariant holds all along exactly when no action is a mistake. */
  lemma {:induction false} EveryRunIsSound(w: World, actions: seq<Action>)
    requires Sound(w)
    ensures SoundThroughout(w, actions) <==> NoMistake(w, actions)
    decreases |actions|
  {
    hide Sound, Perform, IsMistaken, SoundThroughout;
    if actions == [] {
      NothingDone(w);
    } else {
      SoundOneMore(w, actions);
      if IsMistaken(w, actions[0]) {
        MistakeIsUnsound(w, actions[0]);
        if SoundThroughout(Perform(w, actions[0]), actions[1..]) { SoundAtTheStart(Perform(w, actions[0]), actions[1..]); }
      } else {
        StepKeepsSound(w, actions[0]);
        EveryRunIsSound(Perform(w, actions[0]), actions[1..]);
      }
    }
  }

  lemma SoundAtTheStart(w: World, actions: seq<Action>)
    requires SoundThroughout(w, actions)
    ensures Sound(w)
  {
    hide Sound;
    assert Sound(RunAll(w, actions[..0]));
  }

  lemma InitialIsSound(version: Version)
    ensures Sound(Initial(version))
  {
  }

  /** Over every run without user operations the device keeps its secret usable throughout exactly when no action is a mistake. */
  lemma {:induction false} UpdatesKeepTheIdentity(w: World, actions: seq<Action>)
    requires Sound(w)
    requires forall i | 0 <= i < |actions| :: !ChangesIdentity(actions[i])
    ensures SecretKept(w, actions) <==> NoMistake(w, actions)
    decreases |actions|
  {
    hide Sound, Perform, Usable, IsMistaken, SecretKept;
    if actions == [] {
      NothingDone(w);
    } else {
      SecretOneMore(w, actions);
      if IsMistaken(w, actions[0]) {
        MistakenCancelLosesIdentity(w, actions[0]);
      } else {
        StepKeepsSound(w, actions[0]);
        assert forall i | 0 <= i < |actions| - 1 :: actions[1..][i] == actions[i + 1];
        UpdatesKeepTheIdentity(Perform(w, actions[0]), actions[1..]);
      }
    }
  }

  // ---- When giving up is safe ------------------------------------------------

  /** Giving an update up completely leaves a recoverable client exactly when the old application is still installed. */
  lemma CancelIsSafeIff(w: World, action: Action)
    requires Sound(w) && w.disk.record.Some? && Enabled(w, action)
    requires action.CancelUpdate? && action.writes >= |CourseOf(w, action).writes|
    ensures Recoverable(Perform(w, action).disk) <==> w.disk.installed == w.disk.record.value.from
  {
    if w.stage.Updating? {
      StepKeepsSound(w, action);
    } else {
      MistakenCancelLosesIdentity(w, action) by {
        assert Cancel(w.disk, Running(w)).writes != [];
      }
      MistakenCancelClears(w, action);
    }
  }

  lemma MistakenCancelClears(w: World, action: Action)
    requires Sound(w) && w.stage == Swapped(false) && action.CancelUpdate? && action.writes >= |CourseOf(w, action).writes|
    ensures var e := Perform(w, action).disk; e.record.None? && e.current.Some? && !Settled(e)
  {
    var d := w.disk;
    var r := d.record.value;
    var course := Cancel(d, r.from);
    var cleared := d.(keys := d.keys - {r.target}, record := None);
    assert End(d, course.writes) == cleared && course.done;
    var all := AndRemove(d, course).writes;
    EndOfAppend(d, course.writes, RemoveWorkspace(cleared).writes);
    AfterIsOneOf(d, all, action.writes);
    assert End(d, all) == cleared.(named := None, retained := false);
  }

  // ---- What can be left behind -----------------------------------------------

  /** A record is left behind exactly when the crash fell between writing it and pointing at it. */
  lemma OrphanedIff(d: Disk)
    requires Recoverable(d)
    ensures End(d, Recover(d).writes).orphans ==
            if d.record.Some? && d.named.None? then d.orphans + [d.record.value] else d.orphans
    ensures d.record.Some? && d.named.None? ==> d.record.value.target !in d.keys
  {
    if d.named.Some? {
      if Settled(d) {
        RecoverySettled(d);
      } else if Prepared(d) {
        var course := Cancel(d, d.installed);
        CancelKeeps(d);
        AndRemoveKeeps(d, course);
      } else {
        AdoptKeeps(d);
        var adopted := Adopt(d).writes[0];
        assert Adopt(d).writes == [adopted];
        FinishKeeps(adopted);
        EndOfAppend(d, [adopted], Finish(adopted).writes);
        EndIsOneOf(adopted, Finish(adopted).writes);
        AndRemoveKeeps(d, Append(Adopt(d), Finish(adopted))) by {
          EndIsOneOf(adopted, Finish(adopted).writes);
        }
      }
    }
  }

  /** Nothing ever removes a record that was left behind. */
  lemma {:induction false} OrphansStay(w: World, actions: seq<Action>)
    ensures w.disk.orphans <= RunAll(w, actions).disk.orphans
    decreases |actions|
  {
    if actions != [] {
      OrphansStayOnce(w, actions[0]);
      hide Perform;
      OrphansStay(Perform(w, actions[0]), actions[1..]);
    }
  }

  ghost predicate Keeps(d: Disk, course: Course<Disk>) {
    forall e | e in course.writes :: d.orphans <= e.orphans
  }

  lemma KeepsAppend(d: Disk, first: Course<Disk>, second: Course<Disk>)
    requires Keeps(d, first) && Keeps(End(d, first.writes), second)
    ensures Keeps(d, Append(first, second))
  {
    EndOfAppend(d, first.writes, second.writes);
    EndIsOneOf(d, first.writes);
  }

  lemma CleanOrphans(d: Disk)
    ensures Keeps(d, Clean(d))
  {
    RemovingRemoves(d, d.retired);
    EndOfAppend(d, Removing(d, d.retired), [End(d, Removing(d, d.retired)).(retired := [])]);
  }

  lemma DiscardOrphans(d: Disk)
    ensures Keeps(d, Discard(d))
  {
    if d.pending.Some? {
      var retired := d.(pending := None, retired := d.retired + [d.pending.value.account]);
      CleanOrphans(retired);
      KeepsAppend(d, Course([retired], true), Clean(retired));
    }
  }

  lemma UiOrphans(d: Disk, op: UiOperation)
    ensures Keeps(d, UiCourse(d, op))
  {
    DiscardOrphans(d);
    CleanOrphans(d);
    var e := End(d, Discard(d).writes);
    match op
    case StartAuthorization(account, secret) =>
      KeepsAppend(d, Discard(d), Request(e, account, secret));
    case AcceptAuthorization =>
      if d.pending.Some? && d.pending.value.authorized {
        var accepted := Accept(d).writes[0];
        CleanOrphans(accepted);
        KeepsAppend(d, Course([accepted], true), Clean(accepted));
      }
    case RevokeAuthorization =>
      if e.current.Some? {
        var revoked := e.(current := None, retired := e.retired + [e.current.value]);
        CleanOrphans(revoked);
        KeepsAppend(e, Course([revoked], true), Clean(revoked));
        KeepsAppend(d, Discard(d), Append(Course([revoked], true), Clean(revoked)));
      }
      KeepsAppend(d, Discard(d), Failure);
    case _ =>
  }

  lemma OrphansStayOnce(w: World, action: Action)
    ensures w.disk.orphans <= Perform(w, action).disk.orphans
  {
    if Enabled(w, action) && !action.Quit? {
      var d := w.disk;
      CourseOrphans(w, action);
      AfterIsOneOf(d, CourseOf(w, action).writes, action.writes);
    }
  }

  lemma HandOrphans(d: Disk, r: Record)
    ensures Keeps(d, Hand(d, r))
  {
  }

  lemma PrepareOrphans(d: Disk, target: Account, to: Version)
    ensures Keeps(d, Prepare(d, target, to))
  {
    CleanOrphans(d);
    var e := End(d, Clean(d).writes);
    KeepsAppend(d, Clean(d), Failure);
    if e.current.Some? && CanRead(e, e.current.value, e.installed) {
      var account := e.current.value;
      var r := Record(e.installed, to, account, target, e.keys[account].secret);
      HandOrphans(e, r);
      KeepsAppend(d, Clean(d), Hand(e, r));
      if e.record.Some? {
        HandOrphans(e, e.record.value);
        KeepsAppend(d, Clean(d), Hand(e, e.record.value));
      }
    }
    hide Clean, Hand, Keeps;
  }

  lemma CourseOrphans(w: World, action: Action)
    requires Enabled(w, action)
    ensures Keeps(w.disk, CourseOf(w, action))
  {
    var d := w.disk;
    match action
    case Ui(op, _, _) => UiOrphans(d, op);
    case BeginUpdate(_, _) =>
      var e := End(d, RemoveWorkspace(d).writes);
      DiscardOrphans(e);
      KeepsAppend(d, RemoveWorkspace(d), Discard(e));
    case PrepareUpdate(target, to, _, _) => PrepareOrphans(d, target, to);
    case InstallUpdate(_, _, _) =>
    case CancelUpdate(_, _) =>
      KeepsAppend(d, Cancel(d, Running(w)), RemoveWorkspace(End(d, Cancel(d, Running(w)).writes)));
    case Launch(_, _) => RecoverOrphans(d);
    case Quit =>
  }

  lemma UpdateOrphans(d: Disk)
    ensures Keeps(d, RemoveWorkspace(d)) && Keeps(d, Cancel(d, d.installed)) && Keeps(d, Adopt(d)) && Keeps(d, Finish(d))
  {
  }

  lemma RecoverOrphans(d: Disk)
    ensures Keeps(d, Recover(d))
  {
    hide Cancel, Adopt, Finish, RemoveWorkspace;
    if d.named.Some? {
      var course := Cancel(d, d.installed);
      UpdateOrphans(d);
      UpdateOrphans(End(d, course.writes));
      hide Keeps;
      KeepsAppend(d, course, RemoveWorkspace(End(d, course.writes)));
      var e := End(d, Adopt(d).writes);
      UpdateOrphans(e);
      KeepsAppend(d, Adopt(d), Finish(e));
      var finished := Append(Adopt(d), Finish(e));
      UpdateOrphans(End(d, finished.writes));
      KeepsAppend(d, finished, RemoveWorkspace(End(d, finished.writes)));
      NothingKeeps(d);
    }
  }

  lemma NothingKeeps(d: Disk)
    ensures Keeps(d, Nothing) && Keeps(d, Failure)
  {
  }

  // ---- The two failures are real ---------------------------------------------

  const Connected: Disk :=
    Disk(Some(7), None, [], map[7 := Key(42, 1)], None, None, 1, false, [])

  const Handed: Disk :=
    Disk(Some(7), None, [], map[7 := Key(42, 1), 8 := Key(42, 2)], Some(Record(1, 2, 7, 8, 42)), Some(Versions(1, 2)), 1, false, [])

  /** An exchange that reports an error, a check that fails too, and then giving up. */
  lemma IdentityCanBeLost()
    ensures var w := World(Connected, Idle);
            var actions := [BeginUpdate(0, false), PrepareUpdate(8, 2, 3, false), InstallUpdate(2, false, false), CancelUpdate(1, false)];
            Sound(w) && Usable(w.disk) == Some(42) && Usable(RunAll(w, actions).disk).None?
  {
    var w := World(Connected, Idle);
    var begin, prepare, install, cancel :=
      BeginUpdate(0, false), PrepareUpdate(8, 2, 3, false), InstallUpdate(2, false, false), CancelUpdate(1, false);
    assert Perform(w, begin) == World(Connected, Updating);
    var handed := World(Handed, Updating);
    assert Connected.keys[8 := Key(42, 2)] == Handed.keys;
    assert Perform(World(Connected, Updating), prepare) == handed;
    StepKeepsSound(w, begin);
    StepKeepsSound(World(Connected, Updating), prepare);
    StepKeepsSound(handed, install);
    var swapped := Perform(handed, install);
    assert swapped.stage == Swapped(false);
    MistakenCancelLosesIdentity(swapped, cancel);
    RunFour(w, begin, prepare, install, cancel);
  }

  lemma RunFour(w: World, a: Action, b: Action, c: Action, d: Action)
    ensures RunAll(w, [a, b, c, d]) == Perform(Perform(Perform(Perform(w, a), b), c), d)
  {
    assert [a, b, c, d][1..] == [b, c, d] && [b, c, d][1..] == [c, d] && [c, d][1..] == [d] && [d][1..] == [];
    hide Perform;
    var x := Perform(Perform(w, a), b);
    assert RunAll(w, [a, b, c, d]) == RunAll(Perform(w, a), [b, c, d]) == RunAll(x, [c, d]);
    assert RunAll(x, [c, d]) == RunAll(Perform(x, c), [d]) == RunAll(Perform(Perform(x, c), d), []);
  }

  /** A crash after the first write of a preparation. */
  lemma RecordCanBeLeftBehind()
    ensures var w := World(Connected, Idle);
            var actions := [BeginUpdate(0, false), PrepareUpdate(8, 2, 1, true), Launch(1, false), Quit];
            RunAll(w, actions).disk.orphans == [Record(1, 2, 7, 8, 42)]
  {
    var w := World(Connected, Idle);
    var begin, prepare, launch := BeginUpdate(0, false), PrepareUpdate(8, 2, 1, true), Launch(1, false);
    assert Perform(w, begin) == World(Connected, Updating);
    var recorded := Connected.(record := Some(Record(1, 2, 7, 8, 42)));
    assert Perform(World(Connected, Updating), prepare) == World(recorded, Down);
    assert Perform(World(recorded, Down), launch).disk.orphans == [] + [Record(1, 2, 7, 8, 42)];
    RunFour(w, begin, prepare, launch, Quit);
  }
}
