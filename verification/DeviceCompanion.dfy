/**
 The client that performs the operations step by step.

 `budget` is how many durable writes it may still make before it is interrupted, by an
 error or a crash. Every method is shown to stop exactly where its course says, so what
 is proved about courses holds for every interruption of the methods.
 */
module DeviceCompanion {
  import opened Courses
  import opened DeviceState
  import opened Options

  class Companion {
    var current: Option<Account>
    var pending: Option<Pending>
    var retired: seq<Account>
    var keychain: map<Account, Key>
    var record: Option<Record>
    var named: Option<Versions>
    var installed: Version
    var retained: bool
    var orphans: seq<Record>
    var budget: nat

    constructor (version: Version, writes: nat)
      ensures Model() == Initial(version).disk && budget == writes
    {
      current, pending, retired, keychain := None, None, [], map[];
      record, named, installed, retained, orphans := None, None, version, false, [];
      budget := writes;
    }

    ghost function Model(): Disk
      reads this
    {
      Disk(current, pending, retired, keychain, record, named, installed, retained, orphans)
    }

    /** From `before` with `allowed` writes left, the course was followed as far as it goes. */
    ghost predicate Followed(before: Disk, allowed: nat, course: Course<Disk>, ok: bool)
      reads this
    {
      Follows(before, allowed, Model(), budget, course, ok)
    }

    /** Asks for one more write. */
    method Permit() returns (ok: bool)
      modifies `budget
      ensures ok <==> old(budget) > 0
      ensures budget == if ok then old(budget) - 1 else old(budget)
    {
      ok := budget > 0;
      if ok { budget := budget - 1; }
    }

    // ---- Accounts --------------------------------------------------------------

    method RemoveRetired() returns (ok: bool)
      modifies `keychain, `budget
      ensures Followed(old(Model()), old(budget), Course(Removing(old(Model()), old(retired)), true), ok)
    {
      ghost var before, allowed := Model(), budget;
      var accounts := retired;
      ghost var done: seq<Disk> := [];
      for i := 0 to |accounts|
        invariant |done| == i && allowed == budget + i
        invariant Removing(before, accounts) == done + Removing(Model(), accounts[i..])
        invariant Model() == End(before, done)
        invariant retired == accounts
      {
        assert accounts[i..][0] == accounts[i] && accounts[i..][1..] == accounts[i + 1..];
        ok := Permit();
        if !ok {
          assert (done + Removing(Model(), accounts[i..]))[..allowed] == done;
          return;
        }
        ghost var next := Model().(keys := Model().keys - {accounts[i]});
        keychain := keychain - {accounts[i]};
        assert done + ([next] + Removing(next, accounts[i + 1..])) == (done + [next]) + Removing(next, accounts[i + 1..]);
        done := done + [next];
      }
      assert done + [] == done;
      ok := true;
    }

    method CleanRetiredAccounts() returns (ok: bool)
      modifies `keychain, `retired, `budget
      ensures Followed(old(Model()), old(budget), Clean(old(Model())), ok)
    {
      ghost var before, allowed := Model(), budget;
      if retired == [] {
        return true;
      }
      if exists a :: a in retired && !(current != Some(a) && (pending.None? || pending.value.account != a)) {
        return false;
      }
      ghost var removed := Course(Removing(before, retired), true);
      ghost var last := End(before, removed.writes).(retired := []);
      assert Clean(before) == Append(removed, Course([last], true));
      hide Clean, Removing;
      ok := RemoveRetired();
      if !ok {
        FollowsFirst(before, allowed, Model(), budget, removed, Course([last], true));
        return;
      }
      ghost var middle, left := Model(), budget;
      ok := Permit();
      if ok { retired := []; }
      assert Followed(middle, left, Course([last], true), ok);
      FollowsBoth(before, allowed, middle, left, Model(), budget, removed, Course([last], true), ok);
    }

    method DiscardPending() returns (ok: bool)
      modifies `keychain, `retired, `pending, `budget
      ensures Followed(old(Model()), old(budget), Discard(old(Model())), ok)
    {
      ghost var before, allowed := Model(), budget;
      if pending.None? {
        return true;
      }
      ghost var written := before.(pending := None, retired := before.retired + [before.pending.value.account]);
      ghost var first := Course([written], true);
      ok := Permit();
      if !ok {
        FollowsFirst(before, allowed, Model(), budget, first, Clean(written));
        return;
      }
      retired := retired + [pending.value.account];
      pending := None;
      ghost var left := budget;
      ok := CleanRetiredAccounts();
      hide Clean;
      FollowsBoth(before, allowed, written, left, Model(), budget, first, Clean(written), ok);
    }

    /** Writes the new account down, creates its entry, then notes the authorization. */
    method RequestAuthorization(account: Account, secret: Secret) returns (ok: bool)
      modifies `keychain, `pending, `budget
      ensures Followed(old(Model()), old(budget), Request(old(Model()), account, secret), ok)
    {
      ghost var before, allowed, writes := Model(), budget, Request(Model(), account, secret).writes;
      ok := Permit();
      if !ok { return; }
      pending := Some(Pending(account, false));
      assert writes[..1] == [writes[0]];
      ok := Permit();
      if !ok { return; }
      if account !in keychain { keychain := keychain[account := Key(secret, installed)]; }
      assert writes[..2] == [writes[0], writes[1]];
      ok := Permit();
      if !ok { return; }
      pending := Some(Pending(account, true));
    }

    method StartAuthorization(account: Account, secret: Secret) returns (ok: bool)
      modifies `keychain, `retired, `pending, `budget
      ensures Followed(old(Model()), old(budget), Start(old(Model()), account, secret), ok)
    {
      ghost var before, allowed := Model(), budget;
      if pending.Some? && pending.value.authorized {
        return true;
      }
      hide Discard, Request;
      ghost var discarded := Discard(before);
      ok := DiscardPending();
      ghost var middle, left := Model(), budget;
      ghost var requested := Request(End(before, discarded.writes), account, secret);
      if !ok {
        FollowsFirst(before, allowed, Model(), budget, discarded, requested);
        return;
      }
      ok := RequestAuthorization(account, secret);
      FollowsBoth(before, allowed, middle, left, Model(), budget, discarded, requested, ok);
    }

    method FinishAuthorization() returns (ok: bool)
      modifies `current, `keychain, `retired, `pending, `budget
      ensures Followed(old(Model()), old(budget), Accept(old(Model())), ok)
    {
      ghost var before, allowed := Model(), budget;
      if pending.None? || !pending.value.authorized {
        return true;
      }
      var account := pending.value.account;
      var nextRetired := retired;
      if current.Some? && current.value != account { nextRetired := nextRetired + [current.value]; }
      ghost var accepted := before.(current := Some(account), pending := None, retired := nextRetired);
      ghost var first := Course([accepted], true);
      assert Accept(before) == Append(first, Clean(accepted));
      hide Accept, Clean;
      ok := Permit();
      if !ok {
        FollowsFirst(before, allowed, Model(), budget, first, Clean(accepted));
        return;
      }
      current, pending, retired := Some(account), None, nextRetired;
      ghost var left := budget;
      ok := CleanRetiredAccounts();
      FollowsBoth(before, allowed, accepted, left, Model(), budget, first, Clean(accepted), ok);
    }

    method Readable(account: Account, version: Version) returns (ok: bool)
      ensures ok == CanRead(Model(), account, version)
    {
      ok := account in keychain && keychain[account].owner == version;
    }

    method RevokeIdentity() returns (ok: bool)
      modifies `current, `keychain, `retired, `budget
      ensures Followed(old(Model()), old(budget), RevokeCurrent(old(Model())), ok)
    {
      ghost var before, allowed := Model(), budget;
      if current.None? { return false; }
      ok := Readable(current.value, installed);
      if !ok { return; }
      ghost var revoked := before.(current := None, retired := before.retired + [before.current.value]);
      ghost var first := Course([revoked], true);
      hide Clean;
      ok := Permit();
      if !ok {
        FollowsFirst(before, allowed, Model(), budget, first, Clean(revoked));
        return;
      }
      retired := retired + [current.value];
      current := None;
      ghost var left := budget;
      ok := CleanRetiredAccounts();
      FollowsBoth(before, allowed, revoked, left, Model(), budget, first, Clean(revoked), ok);
    }

    method RevokeAuthorization() returns (ok: bool)
      modifies `current, `keychain, `retired, `pending, `budget
      ensures Followed(old(Model()), old(budget), Revoke(old(Model())), ok)
    {
      hide Discard, RevokeCurrent;
      ghost var before, allowed, discarded := Model(), budget, Discard(Model());
      ghost var e := End(before, discarded.writes);
      ok := DiscardPending();
      if !ok {
        FollowsFirst(before, allowed, Model(), budget, discarded, RevokeCurrent(e));
        return;
      }
      ghost var left := budget;
      ok := RevokeIdentity();
      FollowsBoth(before, allowed, e, left, Model(), budget, discarded, RevokeCurrent(e), ok);
    }

    // ---- Updates ---------------------------------------------------------------

    /** Publishes the record, then the pointer to it, and then lets the candidate create its entry. */
    method HandOver(r: Record) returns (ok: bool)
      modifies `record, `named, `keychain, `budget
      ensures Followed(old(Model()), old(budget), Hand(old(Model()), r), ok)
    {
      ghost var writes := Hand(Model(), r).writes;
      ok := Permit();
      if !ok { return; }
      record := Some(r);
      assert writes[..1] == [writes[0]];
      ok := Permit();
      if !ok { return; }
      named := Some(Versions(r.from, r.to));
      assert writes[..2] == [writes[0], writes[1]];
      if pending.Some? { return false; }
      if r.target in keychain { return keychain[r.target].secret == r.sealed; }
      ok := Permit();
      if ok { keychain := keychain[r.target := Key(r.sealed, r.to)]; }
    }

    method HandCurrentSecret(target: Account, to: Version) returns (ok: bool)
      modifies `record, `named, `keychain, `budget
      ensures Followed(old(Model()), old(budget), HandCurrent(old(Model()), target, to), ok)
    {
      hide Hand;
      if current.None? { return false; }
      var account := current.value;
      ok := Readable(account, installed);
      if !ok { return; }
      var secret := keychain[account].secret;
      var r := Record(installed, to, account, target, secret);
      if record.Some? {
        r := record.value;
        if r.sealed != secret || r.source != account { return false; }
      }
      ok := HandOver(r);
    }

    method PrepareUpdateCredential(target: Account, to: Version) returns (ok: bool)
      modifies `retired, `record, `named, `keychain, `budget
      ensures Followed(old(Model()), old(budget), Prepare(old(Model()), target, to), ok)
    {
      hide Clean, HandCurrent;
      ghost var before, allowed, cleaned := Model(), budget, Clean(Model());
      ghost var middle := End(before, cleaned.writes);
      ok := CleanRetiredAccounts();
      if !ok {
        FollowsFirst(before, allowed, Model(), budget, cleaned, HandCurrent(middle, target, to));
        return;
      }
      ghost var left := budget;
      ok := HandCurrentSecret(target, to);
      FollowsBoth(before, allowed, middle, left, Model(), budget, cleaned, HandCurrent(middle, target, to), ok);
    }

    /** The version `running` gives the update up; the record goes last. */
    method CancelUpdateCredential(running: Version) returns (ok: bool)
      modifies `record, `keychain, `budget
      ensures Followed(old(Model()), old(budget), Cancel(old(Model()), running), ok)
    {
      ghost var before, allowed, course := Model(), budget, Cancel(Model(), running);
      if record.None? { return true; }
      var r := record.value;
      if current.None? { return false; }
      ok := Readable(current.value, running);
      if !ok || keychain[current.value].secret != r.sealed || current != Some(r.source) { return false; }
      if r.target in keychain {
        if keychain[r.target].secret != r.sealed { return false; }
        ok := Permit();
        if !ok { return; }
        keychain := keychain - {r.target};
        assert course.writes[..1] == [course.writes[0]];
      }
      ok := Permit();
      if ok { record := None; }
    }

    method AdoptUpdateCredential() returns (ok: bool)
      modifies `current, `budget
      ensures Followed(old(Model()), old(budget), Adopt(old(Model())), ok)
    {
      if record.None? { return true; }
      var r := record.value;
      if !(current == Some(r.source) || current == Some(r.target)) || pending.Some? { return false; }
      ok := Readable(r.target, installed);
      if !ok || keychain[r.target].secret != r.sealed { return false; }
      ok := Permit();
      if ok { current := Some(r.target); }
    }

    /** The retained application deletes the source account; the record goes last. */
    method FinishUpdateCredential() returns (ok: bool)
      modifies `record, `keychain, `budget
      ensures Followed(old(Model()), old(budget), Finish(old(Model())), ok)
    {
      ghost var before, allowed, course := Model(), budget, Finish(Model());
      if record.None? { return true; }
      var r := record.value;
      if current.None? { return false; }
      ok := Readable(current.value, installed);
      if !ok || keychain[current.value].secret != r.sealed || !retained || current != Some(r.target) { return false; }
      if r.source in keychain {
        if keychain[r.source] != Key(r.sealed, r.from) { return false; }
        ok := Permit();
        if !ok { return; }
        keychain := keychain - {r.source};
        assert course.writes[..1] == [course.writes[0]];
      }
      ok := Permit();
      if ok { record := None; }
    }

    method RemoveUpdate() returns (ok: bool)
      modifies `retained, `named, `budget
      ensures Followed(old(Model()), old(budget), RemoveWorkspace(old(Model())), ok)
    {
      ghost var writes := RemoveWorkspace(Model()).writes;
      if record.Some? { return false; }
      if named.None? && !retained { return true; }
      ok := Permit();
      if !ok { return; }
      retained := false;
      assert writes[..1] == [writes[0]];
      ok := Permit();
      if ok { named := None; }
    }

    /** The branch taken when the application starts depends only on which version is installed. */
    method RestoreHandoff() returns (ok: bool)
      modifies this
      ensures Followed(old(Model()), old(budget), Recover(old(Model())), ok)
    {
      ghost var before, allowed := Model(), budget;
      if named.None? {
        if record.None? { return true; }
        ok := Permit();
        if ok { orphans, record := orphans + [record.value], None; }
        return;
      }
      if installed == named.value.from {
        ok := CancelAndRemove();
      } else if installed == named.value.to {
        ok := AdoptAndRemove();
      } else {
        ok := false;
      }
    }

    method CancelAndRemove() returns (ok: bool)
      modifies `record, `keychain, `retained, `named, `budget
      ensures Followed(old(Model()), old(budget), AndRemove(old(Model()), Cancel(old(Model()), old(installed))), ok)
    {
      hide Cancel, RemoveWorkspace;
      ghost var before, allowed, course := Model(), budget, Cancel(Model(), installed);
      ghost var e := End(before, course.writes);
      ok := CancelUpdateCredential(installed);
      if !ok {
        FollowsFirst(before, allowed, Model(), budget, course, RemoveWorkspace(e));
        return;
      }
      ghost var left := budget;
      ok := RemoveUpdate();
      FollowsBoth(before, allowed, e, left, Model(), budget, course, RemoveWorkspace(e), ok);
    }

    method AdoptAndFinish() returns (ok: bool)
      modifies `current, `record, `keychain, `budget
      ensures var adopted := Adopt(old(Model()));
              Followed(old(Model()), old(budget), Append(adopted, Finish(End(old(Model()), adopted.writes))), ok)
    {
      hide Adopt, Finish;
      ghost var before, allowed, adopted := Model(), budget, Adopt(Model());
      ghost var e := End(before, adopted.writes);
      ok := AdoptUpdateCredential();
      if !ok {
        FollowsFirst(before, allowed, Model(), budget, adopted, Finish(e));
        return;
      }
      ghost var left := budget;
      ok := FinishUpdateCredential();
      FollowsBoth(before, allowed, e, left, Model(), budget, adopted, Finish(e), ok);
    }

    method AdoptAndRemove() returns (ok: bool)
      modifies `current, `record, `keychain, `retained, `named, `budget
      ensures var adopted := Adopt(old(Model()));
              Followed(old(Model()), old(budget),
                       AndRemove(old(Model()), Append(adopted, Finish(End(old(Model()), adopted.writes)))), ok)
    {
      hide Adopt, Finish, RemoveWorkspace;
      ghost var before, allowed := Model(), budget;
      ghost var course := Append(Adopt(before), Finish(End(before, Adopt(before).writes)));
      ghost var e := End(before, course.writes);
      ok := AdoptAndFinish();
      if !ok {
        FollowsFirst(before, allowed, Model(), budget, course, RemoveWorkspace(e));
        return;
      }
      ghost var left := budget;
      ok := RemoveUpdate();
      FollowsBoth(before, allowed, e, left, Model(), budget, course, RemoveWorkspace(e), ok);
    }
  }
}
