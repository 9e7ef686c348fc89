/**
 The file operations of an update, step by step; `budget` is how many more of them happen
 before the process is interrupted.
 */
module UpdateWorkspace {
  import opened Courses
  import opened Options
  import opened UpdateFiles

  class Workspace {
    var dirs: map<Id, Directory>
    var journals: map<Id, Owner>
    var pending: PendingFile
    var neighbours: map<Id, Adjacent>
    var target: Tree
    var nextInode: Inode
    var budget: nat

    constructor (files: Files, writes: nat)
      ensures Model() == files && budget == writes
    {
      dirs, journals, pending := files.dirs, files.journals, files.pending;
      neighbours, target, nextInode, budget := files.neighbours, files.target, files.nextInode, writes;
    }

    ghost function Model(): Files
      reads this
    {
      Files(dirs, journals, pending, neighbours, target, nextInode)
    }

    ghost predicate Followed(before: Files, allowed: nat, course: Course<Files>, ok: bool)
      reads this
    {
      Follows(before, allowed, Model(), budget, course, ok)
    }

    method Permit() returns (ok: bool)
      modifies `budget
      ensures ok <==> old(budget) > 0
      ensures budget == if ok then old(budget) - 1 else old(budget)
    {
      ok := budget > 0;
      if ok { budget := budget - 1; }
    }

    // ---- Cleanup ---------------------------------------------------------------

    method RemoveDirectory(owner: Owner) returns (ok: bool)
      modifies `dirs, `budget
      ensures Followed(old(Model()), old(budget), DropDirectory(old(Model()), owner), ok)
    {
      ghost var writes := DropDirectory(Model(), owner).writes;
      if owner.id !in dirs { return true; }
      if dirs[owner.id].inode != owner.inode { return false; }
      ok := Permit();
      if !ok { return; }
      dirs := dirs[owner.id := Remnant(owner.inode)];
      assert writes[..1] == [writes[0]];
      ok := Permit();
      if ok {
        dirs := dirs - {owner.id};
        assert dirs == old(dirs) - {owner.id};
      }
    }

    method RemovePending(id: Id) returns (ok: bool)
      modifies `pending, `budget
      ensures Followed(old(Model()), old(budget), DropPending(old(Model()), id), ok)
    {
      if pending != Naming(id) { return true; }
      ok := Permit();
      if ok { pending := Absent; }
    }

    method RemoveJournal(name: Id) returns (ok: bool)
      modifies `journals, `budget
      ensures Followed(old(Model()), old(budget), DropJournal(old(Model()), name), ok)
    {
      ok := Permit();
      if ok { journals := journals - {name}; }
    }

    /** Directory, pointer, journal: an interruption leaves the journal behind. */
    method FinishOwned(name: Id, owner: Owner) returns (ok: bool)
      modifies `dirs, `pending, `journals, `budget
      ensures Followed(old(Model()), old(budget), FinishCleanup(old(Model()), name, owner), ok)
    {
      hide DropDirectory, DropPending, DropJournal;
      ghost var f, allowed := Model(), budget;
      ghost var first := DropDirectory(f, owner);
      ghost var f1 := End(f, first.writes);
      ghost var second := DropPending(f1, owner.id);
      ghost var f2 := End(f1, second.writes);
      ghost var third := DropJournal(f2, name);
      ok := RemoveDirectory(owner);
      if !ok {
        FollowsFirst(f, allowed, Model(), budget, first, Append(second, third));
        return;
      }
      ghost var left1 := budget;
      ok := RemovePending(owner.id);
      if !ok {
        FollowsFirst(f1, left1, Model(), budget, second, third);
        FollowsBoth(f, allowed, f1, left1, Model(), budget, first, Append(second, third), false);
        return;
      }
      ghost var left2 := budget;
      ok := RemoveJournal(name);
      FollowsBoth(f1, left1, f2, left2, Model(), budget, second, third, ok);
      FollowsBoth(f, allowed, f1, left1, Model(), budget, first, Append(second, third), ok);
    }

    method ResumeCleanup(listing: seq<Id>) returns (ok: bool)
      modifies `dirs, `pending, `journals, `budget
      ensures Followed(old(Model()), old(budget), Resume(old(Model()), listing), ok)
    {
      hide FinishCleanup;
      ghost var f, allowed := Model(), budget;
      ghost var done: Course<Files> := Course([], true);
      ok := true;
      for i := 0 to |listing|
        invariant ok && Follows(f, allowed, Model(), budget, done, true)
        invariant Resume(f, listing) == Append(done, Resume(Model(), listing[i..]))
      {
        ghost var middle, left := Model(), budget;
        assert listing[i..][0] == listing[i] && listing[i..][1..] == listing[i + 1..];
        if listing[i] !in journals || journals[listing[i]].id != listing[i] {
          FollowsBoth(f, allowed, middle, left, Model(), budget, done, Failure, false);
          return false;
        }
        ghost var one := FinishCleanup(middle, listing[i], journals[listing[i]]);
        ghost var rest := Resume(End(middle, one.writes), listing[i + 1..]);
        AppendTwice(done, one, rest);
        ok := FinishOwned(listing[i], journals[listing[i]]);
        FollowsBoth(f, allowed, middle, left, Model(), budget, done, one, ok);
        if !ok {
          FollowsFirst(f, allowed, Model(), budget, Append(done, one), rest);
          return;
        }
        done := Append(done, one);
      }
      assert Append(done, Nothing) == done by { assert done.writes + [] == done.writes; }
    }

    lemma AppendTwice(a: Course<Files>, b: Course<Files>, c: Course<Files>)
      ensures Append(a, Append(b, c)) == Append(Append(a, b), c)
    {
      assert a.writes + (b.writes + c.writes) == (a.writes + b.writes) + c.writes;
    }

    // ---- The copy beside the application ---------------------------------------

    method RemoveNeighbour(id: Id) returns (ok: bool)
      requires id in neighbours
      modifies `neighbours, `budget
      ensures Followed(old(Model()), old(budget), DropNeighbour(old(Model()), id), ok)
    {
      ghost var before, writes := Model(), DropNeighbour(Model(), id).writes;
      var found := neighbours[id];
      if found.app.Some? {
        ok := Permit();
        if !ok { return; }
        neighbours := neighbours[id := found.(app := Some(Torn))];
        assert writes[..1] == [writes[0]] && Model() == writes[0];
        ok := Permit();
        if !ok { return; }
        neighbours := neighbours[id := found.(app := None)];
        assert neighbours == before.neighbours[id := found.(app := None)];
        assert writes[..2] == [writes[0], writes[1]] && Model() == writes[1];
      }
      ok := Permit();
      if ok {
        neighbours := neighbours - {id};
        assert neighbours == before.neighbours - {id};
      }
    }

    method ForgetAdjacent(id: Id) returns (ok: bool)
      modifies `dirs, `budget
      ensures Followed(old(Model()), old(budget), Forget(old(Model()), id), ok)
    {
      if !(id in dirs && dirs[id].Directory? && dirs[id].adjacent.Some?) { return true; }
      ok := Permit();
      if ok { dirs := dirs[id := dirs[id].(adjacent := None)]; }
    }

    method RemoveCopy(id: Id) returns (ok: bool)
      modifies `dirs, `neighbours, `budget
      ensures var f := old(Model());
              var dropped := if id in f.neighbours then DropNeighbour(f, id) else Nothing;
              Followed(f, old(budget), Append(dropped, Forget(End(f, dropped.writes), id)), ok)
    {
      hide DropNeighbour, Forget;
      ghost var f, allowed := Model(), budget;
      ghost var dropped := if id in f.neighbours then DropNeighbour(f, id) else Nothing;
      ghost var f1 := End(f, dropped.writes);
      ok := true;
      if id in neighbours { ok := RemoveNeighbour(id); }
      if !ok {
        FollowsFirst(f, allowed, Model(), budget, dropped, Forget(f1, id));
        return;
      }
      ghost var left := budget;
      ok := ForgetAdjacent(id);
      FollowsBoth(f, allowed, f1, left, Model(), budget, dropped, Forget(f1, id), ok);
    }

    method CleanRecordedCopy(id: Id) returns (ok: bool)
      modifies `dirs, `neighbours, `budget
      ensures Followed(old(Model()), old(budget), CleanAdjacent(old(Model()), id), ok)
    {
      hide DropNeighbour, Forget;
      if !(id in dirs && dirs[id].Directory? && dirs[id].adjacent.Some?) { return true; }
      if id in neighbours && neighbours[id].inode != dirs[id].adjacent.value { return false; }
      ok := RemoveCopy(id);
    }

    // ---- Removing --------------------------------------------------------------

    method WriteJournalAndFinish(id: Id) returns (ok: bool)
      requires id in dirs
      modifies `dirs, `pending, `journals, `budget
      ensures Followed(old(Model()), old(budget), Journal(old(Model()), id), ok)
    {
      hide FinishCleanup;
      ghost var f, allowed := Model(), budget;
      var owner := Owner(id, dirs[id].inode);
      ghost var written := f.(journals := f.journals[id := owner]);
      ghost var first: Course<Files> := Course([written], true);
      ghost var second := FinishCleanup(written, id, owner);
      ok := Permit();
      if !ok {
        FollowsFirst(f, allowed, Model(), budget, first, second);
        return;
      }
      journals := journals[id := owner];
      ghost var left := budget;
      ok := FinishOwned(id, owner);
      FollowsBoth(f, allowed, written, left, Model(), budget, first, second, ok);
    }

    method RemoveUpdate(id: Id) returns (ok: bool)
      modifies `dirs, `pending, `journals, `neighbours, `budget
      ensures Followed(old(Model()), old(budget), Remove(old(Model()), id), ok)
    {
      hide FinishCleanup, CleanAdjacent, Journal;
      ghost var f, allowed := Model(), budget;
      if id in dirs && dirs[id].Directory? && dirs[id].credentials { return false; }
      if id in journals {
        if journals[id].id != id { return false; }
        ok := FinishOwned(id, journals[id]);
        return;
      }
      if id !in dirs { return false; }
      ghost var cleaned := if f.dirs[id].Directory? && f.dirs[id].handoff.Some? then CleanAdjacent(f, id) else Nothing;
      ghost var e := End(f, cleaned.writes);
      ghost var second := if id in e.dirs then Journal(e, id) else Failure;
      ok := true;
      if dirs[id].Directory? && dirs[id].handoff.Some? { ok := CleanRecordedCopy(id); }
      if !ok {
        FollowsFirst(f, allowed, Model(), budget, cleaned, second);
        return;
      }
      ghost var left := budget;
      if id !in dirs {
        FollowsBoth(f, allowed, e, left, Model(), budget, cleaned, second, false);
        return false;
      }
      ok := WriteJournalAndFinish(id);
      FollowsBoth(f, allowed, e, left, Model(), budget, cleaned, second, ok);
    }

    // ---- Installing ------------------------------------------------------------

    /** Makes and records the directory, then copies into it. */
    method StageCopy(id: Id, copied: Tree) returns (ok: bool)
      requires id in dirs && dirs[id].Directory?
      modifies `dirs, `neighbours, `nextInode, `budget
      ensures Followed(old(Model()), old(budget), Course(Stage(old(Model()), id, copied), true), ok)
    {
      ghost var f, writes := Model(), Stage(Model(), id, copied);
      var inode := nextInode;
      ok := Permit();
      if !ok { return; }
      neighbours, nextInode := neighbours[id := Adjacent(inode, None)], inode + 1;
      assert writes[..1] == [writes[0]] && Model() == writes[0];
      ok := Permit();
      if !ok { return; }
      dirs := dirs[id := dirs[id].(adjacent := Some(inode))];
      assert writes[..2] == [writes[0], writes[1]] && Model() == writes[1];
      ok := Permit();
      if !ok { return; }
      neighbours := neighbours[id := Adjacent(inode, Some(Torn))];
      assert writes[..3] == [writes[0], writes[1], writes[2]] && Model() == writes[2];
      ok := Permit();
      if !ok { return; }
      neighbours := neighbours[id := Adjacent(inode, Some(copied))];
      assert neighbours == writes[0].neighbours[id := Adjacent(inode, Some(copied))];
    }

    method InstallCopy(id: Id, before: nat, release: nat, copied: Tree) returns (ok: bool)
      requires id in dirs && dirs[id].Directory?
      modifies `dirs, `neighbours, `nextInode, `target, `budget
      ensures Followed(old(Model()), old(budget), InstallFresh(old(Model()), id, before, release, copied), ok)
    {
      hide Stage, DropNeighbour, Forget;
      ghost var f, allowed := Model(), budget;
      if id in neighbours { return false; }
      ghost var staged: Course<Files> := Course(Stage(f, id, copied), true);
      ghost var ready := End(f, staged.writes);
      StagedApp(f, id, copied);
      ghost var second: Course<Files> :=
        if copied == Whole(release) && f.target == Whole(before) then Course([Exchange(ready, id)], true)
        else Course(Undo(ready, id).writes, false);
      assert InstallFresh(f, id, before, release, copied) == Append(staged, second);
      ok := StageCopy(id, copied);
      if !ok {
        FollowsFirst(f, allowed, Model(), budget, staged, second);
        return;
      }
      ghost var left := budget;
      if copied == Whole(release) && target == Whole(before) {
        ok := Permit();
        if ok {
          var previous := target;
          target := copied;
          neighbours := neighbours[id := neighbours[id].(app := Some(previous))];
        }
      } else {
        ok := RemoveCopy(id);
        ok := false;
      }
      FollowsBoth(f, allowed, ready, left, Model(), budget, staged, second, ok);
    }

    lemma StagedApp(f: Files, id: Id, copied: Tree)
      requires id in f.dirs && f.dirs[id].Directory?
      ensures var ready := End(f, Stage(f, id, copied));
              ready == Stage(f, id, copied)[3] && id in ready.neighbours && ready.neighbours[id].app == Some(copied) && ready.target == f.target
    {
    }

    method InstallUpdate(id: Id, before: nat, release: nat, candidate: Tree, copied: Tree) returns (ok: bool)
      modifies `dirs, `neighbours, `nextInode, `target, `budget
      ensures Followed(old(Model()), old(budget), Install(old(Model()), id, before, release, candidate, copied), ok)
    {
      hide CleanAdjacent, InstallFresh;
      ghost var f, allowed := Model(), budget;
      if target != Whole(before) || candidate != Whole(release) || id !in dirs || !dirs[id].Directory? { return false; }
      ghost var cleaned := CleanAdjacent(f, id);
      ghost var e := End(f, cleaned.writes);
      ghost var second := if id in e.dirs && e.dirs[id].Directory? then InstallFresh(e, id, before, release, copied) else Failure;
      ok := CleanRecordedCopy(id);
      if !ok {
        FollowsFirst(f, allowed, Model(), budget, cleaned, second);
        return;
      }
      ghost var left := budget;
      if id !in dirs || !dirs[id].Directory? {
        FollowsBoth(f, allowed, e, left, Model(), budget, cleaned, second, false);
        return false;
      }
      ok := InstallCopy(id, before, release, copied);
      FollowsBoth(f, allowed, e, left, Model(), budget, cleaned, second, ok);
    }
  }
}
