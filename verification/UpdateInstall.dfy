/**
 What an installation and a removal achieve: exactly when they succeed, and the files they
 leave, both when they succeed and when they do not.
 */
module UpdateInstall {
  import opened Courses
  import opened Options
  import opened UpdateFileLeaks
  import opened UpdateFileRuns
  import opened UpdateFiles

  /** No record of a copy, and no copy. */
  function WithoutCopy(f: Files, id: Id): Files
    requires IsDirectory(f, id)
  {
    f.(dirs := f.dirs[id := f.dirs[id].(adjacent := None)], neighbours := f.neighbours - {id})
  }

  /** The new application installed, the old one in a recorded directory of its own beside it. */
  function Installed(f: Files, id: Id): Files
    requires HasHandoff(f, id)
  {
    f.(dirs := f.dirs[id := f.dirs[id].(adjacent := Some(f.nextInode))],
       neighbours := f.neighbours[id := Adjacent(f.nextInode, Some(f.target))],
       target := Whole(f.dirs[id].handoff.value.release), nextInode := f.nextInode + 1)
  }

  lemma CleanedFiles(f: Files, id: Id)
    requires EntryOk(f, id) && IsDirectory(f, id) && (id in f.neighbours ==> f.dirs[id].adjacent.Some?)
    ensures End(f, CleanAdjacent(f, id).writes) == WithoutCopy(f, id)
  {
    if RecordedAdjacent(f, id).Some? {
      var dropped := if id in f.neighbours then DropNeighbour(f, id) else Nothing;
      EndOfAppend(f, dropped.writes, Forget(End(f, dropped.writes), id).writes);
    } else {
      assert f.neighbours - {id} == f.neighbours;
    }
  }

  lemma FreshEnds(f: Files, id: Id, copied: Tree)
    requires HasHandoff(f, id) && id !in f.neighbours && f.dirs[id].adjacent.None?
    requires f.target == Whole(f.dirs[id].handoff.value.before)
    ensures var handoff := f.dirs[id].handoff.value;
            var course := InstallFresh(f, id, handoff.before, handoff.release, copied);
            && (course.done <==> copied == Whole(handoff.release))
            && End(f, course.writes) == if course.done then Installed(f, id) else f.(nextInode := f.nextInode + 1)
  {
    var handoff := f.dirs[id].handoff.value;
    var ready := Stage(f, id, copied)[3];
    if copied == Whole(handoff.release) {
      EndOfAppend(f, Stage(f, id, copied), [Exchange(ready, id)]);
      assert Exchange(ready, id) == Installed(f, id);
    } else {
      UpdateFileSafety.FailedInstallLeavesNothing(f, id, handoff.before, handoff.release, copied);
    }
  }

  /**
   An installation succeeds exactly when it can start and the copy is the released application. Then the new application
   is installed and the old one kept beside it on record; otherwise the installed one stays and no copy is left.
   */
  lemma InstallSucceedsIff(f: Files, id: Id, candidate: Tree, copied: Tree)
    requires EntryOk(f, id) && HasHandoff(f, id)
    ensures var handoff := f.dirs[id].handoff.value;
            var course := Install(f, id, handoff.before, handoff.release, candidate, copied);
            && (course.done <==> CanStart(f, id, candidate) && copied == Whole(handoff.release))
            && End(f, course.writes) ==
               if course.done then Installed(f, id)
               else if CanStart(f, id, candidate) then WithoutCopy(f, id).(nextInode := f.nextInode + 1) else f
  {
    var handoff := f.dirs[id].handoff.value;
    if CanStart(f, id, candidate) {
      CleanedFiles(f, id);
      var e := WithoutCopy(f, id);
      StartedInstall(f, id, candidate, copied);
      FreshEnds(e, id, copied);
      var first, second := CleanAdjacent(f, id), InstallFresh(e, id, handoff.before, handoff.release, copied);
      CleanAdjacentConcerns(f, id);
      assert Install(f, id, handoff.before, handoff.release, candidate, copied) == Append(first, second);
      hide Install, InstallFresh, CleanAdjacent;
      EndOfAppend(f, first.writes, second.writes);
      InstalledAfterCleaning(f, id);
    } else {
      CannotStart(f, id, candidate, copied);
    }
  }

  lemma InstalledAfterCleaning(f: Files, id: Id)
    requires HasHandoff(f, id)
    ensures Installed(WithoutCopy(f, id), id) == Installed(f, id)
  {
  }

  /** The installation finds the version it starts from and a complete candidate, and no earlier attempt left a copy behind. */
  ghost predicate Ready(f: Files, id: Id, candidate: Tree)
    requires HasHandoff(f, id)
  {
    && f.target == Whole(f.dirs[id].handoff.value.before) && candidate == Whole(f.dirs[id].handoff.value.release)
    && !Leaked(f, id)
  }

  /** The new application is installed and the replaced one retained, for an update that is otherwise as before. */
  ghost predicate Replaced(f: Files, e: Files, id: Id)
    requires HasHandoff(f, id)
  {
    && e.target == Whole(f.dirs[id].handoff.value.release) && Retained(e, id) == Some(f.target)
    && HasHandoff(e, id) && e.dirs[id].handoff == f.dirs[id].handoff && (HasCredentials(e, id) <==> HasCredentials(f, id))
  }

  lemma InstalledReplaces(f: Files, id: Id)
    requires HasHandoff(f, id) && id !in f.journals
    ensures Replaced(f, Installed(f, id), id) && forall other | other != id :: Untouched(f, Installed(f, id), other)
  {
  }

  lemma WithoutCopyTouchesNoOther(f: Files, id: Id, inode: Inode)
    requires HasHandoff(f, id)
    ensures forall other | other != id :: Untouched(f, WithoutCopy(f, id).(nextInode := inode), other) && Untouched(f, f, other)
  {
  }

  lemma StartIsReady(f: Files, id: Id, candidate: Tree)
    requires HasHandoff(f, id) && id !in f.journals
    ensures CanStart(f, id, candidate) <==> Ready(f, id, candidate)
  {
  }

  /**
   In every history: an installation of an update that is not being removed succeeds exactly when the version it starts
   from is installed, candidate and copy are the release, and no earlier attempt stopped between making its directory
   and recording it. Then the replaced application is retained; otherwise the installed one stays. No other update is
   touched.
   */
  lemma ReachableInstallSucceedsIff(version: nat, steps: seq<Step>, id: Id, candidate: Tree, copied: Tree)
    requires var f := RunAll(Empty(version), steps).files; HasHandoff(f, id) && id !in f.journals
    ensures var f := RunAll(Empty(version), steps).files;
            var handoff := f.dirs[id].handoff.value;
            var course := Install(f, id, handoff.before, handoff.release, candidate, copied);
            var e := End(f, course.writes);
            && (course.done <==> Ready(f, id, candidate) && copied == Whole(handoff.release))
            && (if course.done then Replaced(f, e, id) else e.target == f.target)
            && forall other | other != id :: Untouched(f, e, other)
  {
    var f := RunAll(Empty(version), steps).files;
    EmptyIsFine(version);
    EveryRunKeepsInv(Empty(version), steps);
    assert EntryOk(f, id);
    hide RunAll, Inv, FilesOk, Install, EntryOk, Ready, Replaced, CanStart, Untouched, Installed;
    InstallSucceedsIff(f, id, candidate, copied);
    StartIsReady(f, id, candidate);
    InstalledReplaces(f, id);
    WithoutCopyTouchesNoOther(f, id, f.nextInode + 1);
  }

  // ---- Removals --------------------------------------------------------------

  /** The update is gone: its directory, its journal, a pointer naming it, and the copy that it had on record. */
  function Gone(f: Files, id: Id): Files {
    f.(dirs := f.dirs - {id}, journals := f.journals - {id}, pending := if f.pending == Naming(id) then Absent else f.pending,
       neighbours := if RecordedAdjacent(f, id).Some? then f.neighbours - {id} else f.neighbours)
  }

  lemma FinishEnds(f: Files, id: Id, owner: Owner)
    requires owner.id == id && (id in f.dirs ==> f.dirs[id].inode == owner.inode)
    ensures FinishCleanup(f, id, owner).done
    ensures End(f, FinishCleanup(f, id, owner).writes) ==
            f.(dirs := f.dirs - {id}, journals := f.journals - {id}, pending := if f.pending == Naming(id) then Absent else f.pending)
  {
    var first := DropDirectory(f, owner);
    var f1 := End(f, first.writes);
    assert f1 == f.(dirs := f.dirs - {id});
    var second := DropPending(f1, id);
    var f2 := End(f1, second.writes);
    var third := DropJournal(f2, id);
    EndOfAppend(f1, second.writes, third.writes);
    EndOfAppend(f, first.writes, second.writes + third.writes);
    hide DropDirectory, DropPending;
  }

  lemma JournalEnds(f: Files, id: Id)
    requires id in f.dirs && id !in f.journals
    ensures Journal(f, id).done
    ensures End(f, Journal(f, id).writes) ==
            f.(dirs := f.dirs - {id}, pending := if f.pending == Naming(id) then Absent else f.pending)
  {
    var owner := Owner(id, f.dirs[id].inode);
    var written := f.(journals := f.journals[id := owner]);
    FinishEnds(written, id, owner);
    EndOfAppend(f, [written], FinishCleanup(written, id, owner).writes);
    assert written.journals - {id} == f.journals;
    hide FinishCleanup;
  }

  lemma FreshRemovalEnds(f: Files, id: Id)
    requires EntryOk(f, id) && !HasCredentials(f, id) && id !in f.journals && id in f.dirs
    ensures Remove(f, id).done && End(f, Remove(f, id).writes) == Gone(f, id)
  {
    var cleaned := if f.dirs[id].Directory? && f.dirs[id].handoff.Some? then CleanAdjacent(f, id) else Nothing;
    var e := End(f, cleaned.writes);
    assert f.journals - {id} == f.journals;
    if f.dirs[id].Directory? && f.dirs[id].handoff.Some? {
      CleanAdjacentConcerns(f, id);
      if RecordedAdjacent(f, id).Some? {
        CleanedFiles(f, id);
      } else {
        assert cleaned == Nothing;
      }
    }
    assert e.dirs - {id} == f.dirs - {id};
    JournalEnds(e, id);
    EndOfAppend(f, cleaned.writes, Journal(e, id).writes);
    hide CleanAdjacent, Journal;
  }

  /** A removal succeeds exactly for an update without credentials that is there or being removed, and leaves nothing of it. */
  lemma RemoveSucceedsIff(f: Files, id: Id)
    requires EntryOk(f, id)
    ensures Remove(f, id).done <==> !HasCredentials(f, id) && (id in f.journals || id in f.dirs)
    ensures End(f, Remove(f, id).writes) == if Remove(f, id).done then Gone(f, id) else f
  {
    if !HasCredentials(f, id) && id in f.journals {
      FinishEnds(f, id, f.journals[id]);
      hide FinishCleanup;
    } else if !HasCredentials(f, id) && id in f.dirs {
      FreshRemovalEnds(f, id);
      hide Remove;
    }
  }
}
