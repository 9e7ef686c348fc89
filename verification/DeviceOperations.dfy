/**
 What the operations of the device client achieve: from every settled disk, the exact
 disk a completed operation ends with.
 */
module DeviceOperations {
  import opened Courses
  import opened DeviceSafety
  import opened DeviceState
  import opened Options

  /** `e` is `d` but for the accounts, and has exactly the entries `accounts` of `d`. */
  ghost predicate KeepsKeys(d: Disk, e: Disk, accounts: set<Account>) {
    && e == d.(current := e.current, pending := e.pending, retired := e.retired, keys := e.keys)
    && e.keys.Keys == d.keys.Keys * accounts
    && forall a | a in e.keys :: e.keys[a] == d.keys[a]
  }

  function InUse(d: Disk): set<Account> {
    (if d.current.Some? then {d.current.value} else {}) + (if d.pending.Some? then {d.pending.value.account} else {})
  }

  // ---- Cleaning --------------------------------------------------------------

  /** A completed cleanup leaves exactly the entries in use. */
  lemma CleanEnds(d: Disk)
    requires Settled(d)
    ensures Clean(d).done
    ensures var e := End(d, Clean(d).writes);
            e.current == d.current && e.pending == d.pending && e.retired == [] && KeepsKeys(d, e, InUse(d))
  {
    if d.retired != [] {
      RemovingRemoves(d, d.retired);
      var removed := Removing(d, d.retired);
      EndOfAppend(d, removed, [End(d, removed).(retired := [])]);
      hide Removing;
    }
  }

  /** One write that changes the accounts, then a cleanup. */
  lemma ChangedThenCleaned(d: Disk, changed: Disk)
    requires Settled(d) && Settled(changed)
    requires changed == d.(current := changed.current, pending := changed.pending, retired := changed.retired)
    ensures var course := Append(Course([changed], true), Clean(changed));
            var e := End(d, course.writes);
            && course.done && e.current == changed.current && e.pending == changed.pending && e.retired == []
            && KeepsKeys(d, e, InUse(changed))
  {
    CleanEnds(changed);
    EndOfAppend(d, [changed], Clean(changed).writes);
    hide Clean, Settled;
  }

  // ---- Authorizations --------------------------------------------------------

  /** Giving a pending authorization up deletes its account, and leaves only the current one. */
  lemma DiscardEnds(d: Disk)
    requires Settled(d)
    ensures Discard(d).done
    ensures var e := End(d, Discard(d).writes);
            if d.pending.None? then e == d
            else e.current == d.current && e.pending.None? && e.retired == []
                 && KeepsKeys(d, e, if d.current.Some? then {d.current.value} else {})
  {
    if d.pending.Some? {
      var retired := d.(pending := None, retired := d.retired + [d.pending.value.account]);
      assert Settled(retired);
      ChangedThenCleaned(d, retired);
      hide Clean, Settled;
    }
  }

  /** The disk after an authorization was requested: the new account waits with a readable secret of its own. */
  ghost predicate Requested(d: Disk, e: Disk, account: Account, secret: Secret) {
    && e == d.(pending := Some(Pending(account, true)), keys := e.keys)
    && e.keys.Keys == d.keys.Keys + {account} && e.keys[account] == Key(secret, d.installed)
    && forall a | a in d.keys :: e.keys[a] == d.keys[a]
  }

  lemma RequestEnds(d: Disk, account: Account, secret: Secret)
    requires account !in d.keys
    ensures Request(d, account, secret).done
    ensures Requested(d, End(d, Request(d, account, secret).writes), account, secret)
  {
  }

  /** Starting an authorization continues the one that waits, and otherwise replaces what is left of an earlier attempt. */
  lemma StartEnds(d: Disk, account: Account, secret: Secret)
    requires Settled(d) && Unused(d, account)
    ensures Start(d, account, secret).done
    ensures var e := End(d, Start(d, account, secret).writes);
            if d.pending.Some? && d.pending.value.authorized then e == d
            else
              && e.current == d.current && e.pending == Some(Pending(account, true)) && Usable(e) == Usable(d)
              && account in e.keys && e.keys[account] == Key(secret, d.installed)
              && (d.pending.None? ==> e.keys == d.keys[account := e.keys[account]] && e.retired == d.retired)
              && (d.pending.Some? ==> e.keys.Keys == d.keys.Keys * InUse(d.(pending := None)) + {account} && e.retired == [])
  {
    if !(d.pending.Some? && d.pending.value.authorized) {
      DiscardEnds(d);
      DiscardKeeps(d);
      var discarded := Discard(d).writes;
      var middle := End(d, discarded);
      RequestEnds(middle, account, secret);
      EndOfAppend(d, discarded, Request(middle, account, secret).writes);
      hide Discard, Request, Settled;
      var e := End(d, Start(d, account, secret).writes);
      assert Requested(middle, e, account, secret);
      if d.pending.None? { assert e.keys == d.keys[account := e.keys[account]]; }
    }
  }

  /** An authorized account becomes the current one, and every other entry is deleted. */
  lemma AcceptEnds(d: Disk)
    requires Settled(d)
    ensures Accept(d).done
    ensures var e := End(d, Accept(d).writes);
            if d.pending.None? || !d.pending.value.authorized then e == d
            else
              var account := d.pending.value.account;
              && e.current == Some(account) && e.pending.None? && e.retired == []
              && account in d.keys && e.keys.Keys == {account} && e.keys[account] == d.keys[account]
              && Usable(e) == Some(d.keys[account].secret)
  {
    if d.pending.Some? && d.pending.value.authorized {
      var account := d.pending.value.account;
      var retired := if d.current.Some? && d.current.value != account then d.retired + [d.current.value] else d.retired;
      var accepted := d.(current := Some(account), pending := None, retired := retired);
      assert Settled(accepted);
      ChangedThenCleaned(d, accepted);
      hide Clean, Settled;
    }
  }

  // ---- Revoking --------------------------------------------------------------

  lemma RevokeCurrentEnds(d: Disk)
    requires Settled(d) && d.pending.None?
    ensures RevokeCurrent(d).done <==> d.current.Some?
    ensures var e := End(d, RevokeCurrent(d).writes);
            if d.current.None? then e == d else e.current.None? && e.pending.None? && e.retired == [] && KeepsKeys(d, e, {})
  {
    if d.current.Some? {
      var revoked := d.(current := None, retired := d.retired + [d.current.value]);
      assert Settled(revoked);
      ChangedThenCleaned(d, revoked);
      hide Clean, Settled;
    }
  }

  /**
   A client with an account can always be revoked. Afterwards it has no account, no pending authorization, nothing to
   clean up, an empty keychain, and no secret that could be used; a client without an account only loses the pending one.
   */
  lemma RevokeEnds(d: Disk)
    requires Settled(d)
    ensures Revoke(d).done <==> d.current.Some?
    ensures var e := End(d, Revoke(d).writes);
            && e.current.None? && e.pending.None? && Usable(e).None?
            && e == d.(current := None, pending := None, retired := e.retired, keys := e.keys)
            && (d.current.Some? || d.pending.Some? ==> e.retired == [] && e.keys.Keys == {})
  {
    DiscardEnds(d);
    DiscardKeeps(d);
    var discarded := Discard(d).writes;
    var middle := End(d, discarded);
    RevokeCurrentEnds(middle);
    EndOfAppend(d, discarded, RevokeCurrent(middle).writes);
    hide Discard, RevokeCurrent, Settled;
  }

  /** Wherever a revocation stops after the account was given up, cleaning accounts the next time finishes it. */
  lemma StoppedRevocationIsFinished(d: Disk, n: nat)
    requires Settled(d) && d.current.Some?
    requires After(d, Revoke(d).writes, n).current.None?
    ensures var e := After(d, Revoke(d).writes, n);
            var last := End(e, Clean(e).writes);
            && Clean(e).done && last.current.None? && last.pending.None? && last.retired == [] && last.keys.Keys == {}
  {
    var e := After(d, Revoke(d).writes, n);
    RevokeKeeps(d);
    AfterIsOneOf(d, Revoke(d).writes, n);
    NoPendingOnceRevoked(d, e);
    hide Revoke, Settled;
    CleanEnds(e);
  }

  lemma NoPendingOnceRevoked(d: Disk, e: Disk)
    requires Settled(d) && d.current.Some? && e in Revoke(d).writes && e.current.None?
    ensures e.pending.None?
  {
    DiscardKeeps(d);
    DiscardEnds(d);
    var discarded := Discard(d).writes;
    var middle := End(d, discarded);
    EndOfAppend(d, discarded, RevokeCurrent(middle).writes);
    DiscardNeverRevokes(d);
    RevokingHasNoPending(middle);
    hide Discard, RevokeCurrent, Settled;
  }

  lemma DiscardNeverRevokes(d: Disk)
    requires Settled(d)
    ensures forall e | e in Discard(d).writes :: e.current == d.current
  {
    if d.pending.Some? {
      var retired := d.(pending := None, retired := d.retired + [d.pending.value.account]);
      CleanKeeps(retired);
      EndOfAppend(d, [retired], Clean(retired).writes);
      hide Clean;
    }
  }

  lemma RevokingHasNoPending(d: Disk)
    requires Settled(d) && d.pending.None?
    ensures forall e | e in RevokeCurrent(d).writes :: e.pending.None?
  {
    if d.current.Some? {
      var revoked := d.(current := None, retired := d.retired + [d.current.value]);
      CleanKeeps(revoked);
      EndOfAppend(d, [revoked], Clean(revoked).writes);
      hide Clean;
    }
  }

  // ---- Updates ---------------------------------------------------------------

  /** Before an update the last one is settled and a pending authorization given up; the current account stays. */
  lemma BeginEnds(d: Disk)
    requires Settled(d)
    ensures Begin(d).done
    ensures var e := End(d, Begin(d).writes);
            && Settled(e) && e.current == d.current && e.pending.None? && e.named.None? && !e.retained && e.installed == d.installed
            && Usable(e) == Usable(d)
  {
    RemoveWorkspaceKeeps(d);
    var settled := End(d, RemoveWorkspace(d).writes);
    DiscardEnds(settled);
    DiscardKeeps(settled);
    EndOfAppend(d, RemoveWorkspace(d).writes, Discard(settled).writes);
    hide Settled, Discard, RemoveWorkspace, Usable;
  }

  /** The current secret is sealed for the candidate, which holds it in an account of its own; nothing else is left. */
  ghost predicate HandedOver(d: Disk, e: Disk, target: Account, to: Version)
    requires d.current.Some? && d.current.value in d.keys
  {
    var source := d.current.value;
    var secret := d.keys[source].secret;
    && e == d.(retired := [], keys := e.keys, record := Some(Record(d.installed, to, source, target, secret)),
               named := Some(Versions(d.installed, to)))
    && e.keys.Keys == {source, target} && e.keys[source] == d.keys[source] && e.keys[target] == Key(secret, to)
  }

  lemma HandEnds(d: Disk, target: Account, to: Version)
    requires Settled(d) && d.pending.None? && d.retired == [] && d.current.Some? && Unused(d, target) && d.installed < to
    ensures HandCurrent(d, target, to).done
    ensures HandedOver(d, End(d, HandCurrent(d, target, to).writes), target, to)
  {
  }

  /** A preparation always completes for a client with an account, and hands its secret over. */
  lemma PrepareEnds(d: Disk, target: Account, to: Version)
    requires Settled(d) && d.pending.None? && d.current.Some? && Unused(d, target) && d.installed < to
    ensures Prepare(d, target, to).done
    ensures HandedOver(d, End(d, Prepare(d, target, to).writes), target, to)
  {
    CleanEnds(d);
    CleanKeeps(d);
    var cleaned := Clean(d).writes;
    var e := End(d, cleaned);
    HandEnds(e, target, to);
    EndOfAppend(d, cleaned, HandCurrent(e, target, to).writes);
    hide Clean, HandCurrent, Settled;
  }

  /** A preparation that was stopped is continued: the record stays, and the candidate gets the account it names. */
  lemma PrepareContinues(d: Disk, target: Account, to: Version)
    requires Prepared(d) && d.record.value.to == to && Unused(d, target)
    ensures Prepare(d, target, to).done
    ensures var e := End(d, Prepare(d, target, to).writes);
            var r := d.record.value;
            && e == d.(keys := e.keys, named := Some(Versions(r.from, r.to)))
            && e.keys.Keys == {r.source, r.target} && e.keys[r.source] == d.keys[r.source] && e.keys[r.target] == Key(r.sealed, to)
  {
    assert Clean(d) == Nothing;
    assert [] + HandCurrent(d, target, to).writes == HandCurrent(d, target, to).writes;
  }

  /** The exchange replaces the installed application and keeps the old one; no account changes. */
  lemma InstallEnds(d: Disk)
    requires Prepared(d) && d.named.Some? && d.record.value.target in d.keys
    ensures Install(d).done && End(d, Install(d).writes) == d.(retained := true, installed := d.record.value.to)
  {
  }

  lemma UnusedAfterBegin(d: Disk, account: Account)
    requires Settled(d) && Unused(d, account)
    ensures Unused(End(d, Begin(d).writes), account)
  {
    RemoveWorkspaceKeeps(d);
    var settled := End(d, RemoveWorkspace(d).writes);
    DiscardForgets(settled, account);
    DiscardKeeps(settled);
    EndOfAppend(d, RemoveWorkspace(d).writes, Discard(settled).writes);
    hide Settled, Discard, RemoveWorkspace, Unused;
  }

  /** The new application starts: the account made for it becomes the current and the only one. */
  lemma RecoveryAdopts(d: Disk)
    requires Exchanged(d)
    ensures var e := End(d, Recover(d).writes);
            e.installed == d.installed && e.current == Some(d.record.value.target) && e.keys.Keys == {d.record.value.target}
  {
    AdoptKeeps(d);
    var adopted := Adopt(d).writes[0];
    FinishKeeps(adopted);
    var finished := End(adopted, Finish(adopted).writes);
    assert finished.installed == d.installed;
    assert Adopt(d).writes == [adopted];
    var course := Append(Adopt(d), Finish(adopted));
    EndOfAppend(d, [adopted], Finish(adopted).writes);
    assert Recover(d) == AndRemove(d, course);
    hide Adopt, Finish, Recover, Exchanged, Prepared, Settled, Usable;
    RemoveWorkspaceKeeps(finished);
    EndOfAppend(d, course.writes, RemoveWorkspace(finished).writes);
  }

  lemma Completed(w: World, action: Action)
    requires Enabled(w, action) && !action.Quit? && !action.crash && CourseOf(w, action).done
    requires action.writes >= |CourseOf(w, action).writes|
    ensures Perform(w, action) == World(End(w.disk, CourseOf(w, action).writes), StageAfter(w, action, true))
  {
  }

  lemma RunFive(w: World, a: Action, b: Action, c: Action, d: Action, e: Action)
    ensures RunAll(w, [a, b, c, d, e]) == Perform(Perform(Perform(Perform(Perform(w, a), b), c), d), e)
  {
    hide Perform;
    var five, four, three := [a, b, c, d, e], [b, c, d, e], [c, d, e];
    assert five[1..] == four && four[1..] == three && three[1..] == [d, e] && [d, e][1..] == [e] && [e][1..] == [];
    var v := Perform(Perform(Perform(w, a), b), c);
    assert RunAll(Perform(Perform(v, d), e), []) == Perform(Perform(v, d), e);
    assert RunAll(Perform(v, d), [e]) == Perform(Perform(v, d), e);
    assert RunAll(v, [d, e]) == RunAll(Perform(v, d), [e]);
    assert RunAll(Perform(w, a), four) == RunAll(Perform(Perform(w, a), b), three);
  }

  /** The disk before and after the exchange of an update all of whose steps complete. */
  function HandedDisk(d: Disk, target: Account, to: Version): Disk {
    var begun := End(d, Begin(d).writes);
    End(begun, Prepare(begun, target, to).writes)
  }

  function ExchangedDisk(d: Disk, target: Account, to: Version): Disk {
    var handed := HandedDisk(d, target, to);
    End(handed, Install(handed).writes)
  }

  /** No step is stopped. */
  predicate Enough(d: Disk, target: Account, to: Version, n: nat) {
    var begun := End(d, Begin(d).writes);
    && n >= |Begin(d).writes| && n >= |Prepare(begun, target, to).writes| && n >= 2
    && n >= |Recover(ExchangedDisk(d, target, to)).writes|
  }

  lemma ExchangeIsSound(d: Disk, target: Account, to: Version)
    requires Settled(d) && d.current.Some? && Unused(d, target) && d.installed < to
    ensures var handed, exchanged := HandedDisk(d, target, to), ExchangedDisk(d, target, to);
            && Prepared(handed) && handed.record.value.to == to && handed.record.value.target == target
            && handed.named.Some? && target in handed.keys
            && Install(handed).done && |Install(handed).writes| == 2
            && Exchanged(exchanged) && exchanged.record == handed.record && exchanged.installed == to
            && Usable(exchanged) == Usable(d)
  {
    BeginEnds(d);
    var begun := End(d, Begin(d).writes);
    UnusedAfterBegin(d, target);
    PrepareEnds(begun, target, to);
    hide Begin, Prepare;
    var handed := HandedDisk(d, target, to);
    InstallEnds(handed);
    InstallKeeps(handed);
  }

  lemma UntilTheExchange(d: Disk, target: Account, to: Version, n: nat)
    requires Settled(d) && d.current.Some? && Unused(d, target) && d.installed < to && Enough(d, target, to, n)
    ensures var begun := Perform(World(d, Idle), BeginUpdate(n, false));
            var handed := Perform(begun, PrepareUpdate(target, to, n, false));
            Perform(handed, InstallUpdate(n, false, true)) == World(ExchangedDisk(d, target, to), Swapped(true))
  {
    BeginEnds(d);
    var begun := End(d, Begin(d).writes);
    UnusedAfterBegin(d, target);
    PrepareEnds(begun, target, to);
    ExchangeIsSound(d, target, to);
    hide Begin, Prepare, Install, Recover, Settled, Prepared, Exchanged, Usable, Perform, HandedOver;
    Completed(World(d, Idle), BeginUpdate(n, false));
    Completed(World(begun, Updating), PrepareUpdate(target, to, n, false));
    Completed(World(HandedDisk(d, target, to), Updating), InstallUpdate(n, false, true));
  }

  /**
   The whole update of a client with an account, every step completing, then a start of the new application: it runs, has
   the account made for it and only that one, with the secret unchanged, and nothing of the update is left.
   */
  lemma UpdateSucceeds(d: Disk, target: Account, to: Version, n: nat)
    requires Settled(d) && d.current.Some? && Unused(d, target) && d.installed < to && Enough(d, target, to, n)
    ensures var w := RunAll(World(d, Idle), [BeginUpdate(n, false), PrepareUpdate(target, to, n, false),
                                             InstallUpdate(n, false, true), Quit, Launch(n, false)]);
            && w.stage == Idle && Settled(w.disk) && w.disk.installed == to && w.disk.named.None?
            && w.disk.current == Some(target) && w.disk.keys.Keys == {target} && Usable(w.disk) == Usable(d)
  {
    RunFive(World(d, Idle), BeginUpdate(n, false), PrepareUpdate(target, to, n, false), InstallUpdate(n, false, true),
      Quit, Launch(n, false));
    UntilTheExchange(d, target, to, n);
    ExchangeIsSound(d, target, to);
    var exchanged := ExchangedDisk(d, target, to);
    RecoveryCompletes(exchanged);
    RecoveryAdopts(exchanged);
    assert Perform(World(exchanged, Swapped(true)), Quit) == World(exchanged, Down);
    hide Begin, Prepare, Install, Recover, Settled, Prepared, Exchanged, Usable, Perform, ExchangedDisk, HandedDisk, RunAll, Unused;
    Completed(World(exchanged, Down), Launch(n, false));
  }
}
