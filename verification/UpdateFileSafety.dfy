/** Removing and installing an update, with a crash after any file operation. */
module UpdateFileSafety {
  import opened Courses
  import opened Options
  import opened UpdateFiles

  // ---- Resuming cleanup ------------------------------------------------------

  /** Every journal owns the directory of its name, if that is still there. */
  ghost predicate Owned(f: Files) {
    forall id | id in f.journals ::
      f.journals[id].id == id && (id in f.dirs ==> f.dirs[id].inode == f.journals[id].inode)
  }

  /** A listing names every journal once. */
  ghost predicate Lists(listing: seq<Id>, f: Files) {
    && (forall i, j | 0 <= i < j < |listing| :: listing[i] != listing[j])
    && (forall id :: id in listing <==> id in f.journals)
  }

  /** What cleanup leaves, whatever the order and however often it is interrupted. */
  function Cleaned(f: Files): Files {
    f.(dirs := f.dirs - f.journals.Keys, journals := map[],
       pending := if f.pending.Naming? && f.pending.id in f.journals then Absent else f.pending)
  }

  /** One write of a cleanup: still owned, and the same once everything is cleaned. */
  ghost predicate OnTheWay(f: Files, e: Files) {
    Owned(e) && Cleaned(e) == Cleaned(f) && e.journals.Keys <= f.journals.Keys
  }

  /** States that differ only in a journalled directory and its pointer clean up alike. */
  lemma SameWhenCleaned(f: Files, e: Files, name: Id)
    requires Owned(f) && name in f.journals && e == f.(dirs := e.dirs, pending := e.pending)
    requires e.dirs - {name} == f.dirs - {name} && (name in e.dirs ==> e.dirs[name].inode == f.journals[name].inode)
    requires e.pending == f.pending || (f.pending == Naming(name) && e.pending == Absent)
    ensures OnTheWay(f, e)
  {
    assert e.dirs - f.journals.Keys == f.dirs - f.journals.Keys by {
      forall id | id !in f.journals ensures (id in e.dirs <==> id in f.dirs) && (id in e.dirs ==> e.dirs[id] == f.dirs[id]) {
        assert id in e.dirs - {name} <==> id in f.dirs - {name};
        if id in e.dirs { assert (e.dirs - {name})[id] == (f.dirs - {name})[id]; }
      }
    }
    forall id | id in e.journals ensures id in e.dirs ==> e.dirs[id].inode == e.journals[id].inode {
      if id != name && id in e.dirs { assert id in e.dirs - {name} && (e.dirs - {name})[id] == (f.dirs - {name})[id]; }
    }
  }

  lemma DropDirectoryWorks(f: Files, name: Id)
    requires Owned(f) && name in f.journals
    ensures var course := DropDirectory(f, f.journals[name]);
            && course.done
            && (forall e | e in course.writes :: OnTheWay(f, e))
            && End(f, course.writes) == f.(dirs := f.dirs - {name}) && OnTheWay(f, End(f, course.writes))
  {
    var owner := f.journals[name];
    var gone := f.(dirs := f.dirs - {name});
    assert gone.dirs - {name} == f.dirs - {name};
    SameWhenCleaned(f, gone, name);
    if name in f.dirs {
      var begun := f.(dirs := f.dirs[name := Remnant(owner.inode)]);
      assert begun.dirs - {name} == f.dirs - {name};
      SameWhenCleaned(f, begun, name);
    } else {
      assert gone.dirs == f.dirs;
    }
  }

  lemma DropPendingWorks(f: Files, name: Id)
    requires Owned(f) && name in f.journals
    ensures var course := DropPending(f, name);
            && course.done
            && (forall e | e in course.writes :: OnTheWay(f, e))
            && var e := End(f, course.writes); e == f.(pending := e.pending) && e.pending != Naming(name) && OnTheWay(f, e)
  {
    SameWhenCleaned(f, f.(pending := if f.pending == Naming(name) then Absent else f.pending), name);
  }

  lemma DropJournalWorks(f: Files, name: Id)
    requires Owned(f) && name in f.journals && name !in f.dirs && f.pending != Naming(name)
    ensures OnTheWay(f, f.(journals := f.journals - {name}))
  {
    assert f.dirs - f.journals.Keys == f.dirs - (f.journals - {name}).Keys;
  }

  lemma OnTheWayThen(f: Files, e: Files, g: Files)
    requires OnTheWay(f, e) && OnTheWay(e, g)
    ensures OnTheWay(f, g)
  {
  }

  lemma FinishCleanupWorks(f: Files, name: Id)
    requires Owned(f) && name in f.journals
    ensures var course := FinishCleanup(f, name, f.journals[name]);
            && course.done
            && (forall e | e in course.writes :: OnTheWay(f, e))
            && var e := End(f, course.writes); OnTheWay(f, e) && e.journals == f.journals - {name}
  {
    var owner := f.journals[name];
    var first := DropDirectory(f, owner);
    DropDirectoryWorks(f, name);
    var f1 := End(f, first.writes);
    DropPendingWorks(f1, name);
    var second := DropPending(f1, name);
    var f2 := End(f1, second.writes);
    DropJournalWorks(f2, name);
    var f3 := f2.(journals := f2.journals - {name});
    hide DropDirectory, DropPending, OnTheWay;
    EndOfAppend(f1, second.writes, [f3]);
    EndOfAppend(f, first.writes, second.writes + [f3]);
    OnTheWayThen(f, f1, f2);
    OnTheWayThen(f, f2, f3);
    forall e | e in second.writes ensures OnTheWay(f, e) { OnTheWayThen(f, f1, e); }
  }

  lemma {:induction false} ResumeWorks(f: Files, listing: seq<Id>)
    requires Owned(f) && Lists(listing, f)
    ensures Resume(f, listing).done
    ensures forall e | e in Resume(f, listing).writes :: OnTheWay(f, e)
    ensures End(f, Resume(f, listing).writes) == Cleaned(f)
    decreases |listing|
  {
    if listing == [] {
      assert f.journals.Keys == {};
      assert Cleaned(f).dirs == f.dirs;
    } else {
      var one := FinishCleanup(f, listing[0], f.journals[listing[0]]);
      FinishCleanupWorks(f, listing[0]);
      var e := End(f, one.writes);
      assert Lists(listing[1..], e) by {
        forall id ensures id in listing[1..] <==> id in e.journals {
          assert listing == [listing[0]] + listing[1..];
        }
      }
      ResumeWorks(e, listing[1..]);
      EndOfAppend(f, one.writes, Resume(e, listing[1..]).writes);
      hide FinishCleanup, Cleaned;
    }
  }

  /**
   However often cleanup is interrupted, and in whatever order the journals are listed then,
   running it again removes exactly the journalled directories, and `pending.json` only if
   it names one of them.
   */
  lemma CrashedCleanupIsFinished(f: Files, listing: seq<Id>, n: nat, again: seq<Id>)
    requires Owned(f) && Lists(listing, f)
    requires Lists(again, After(f, Resume(f, listing).writes, n))
    ensures var e := After(f, Resume(f, listing).writes, n);
            Resume(e, again).done && End(e, Resume(e, again).writes) == Cleaned(f)
  {
    ResumeWorks(f, listing);
    var e := After(f, Resume(f, listing).writes, n);
    AfterIsOneOf(f, Resume(f, listing).writes, n);
    assert Owned(e) && Cleaned(e) == Cleaned(f);
    ResumeWorks(e, again);
  }

  /** Afterwards there is nothing to list, and running it once more changes nothing. */
  lemma CleanupIsIdempotent(f: Files, listing: seq<Id>)
    requires Owned(f) && Lists(listing, f)
    ensures var e := End(f, Resume(f, listing).writes);
            e.journals == map[] && Resume(e, []) == Nothing && Cleaned(e) == e
  {
    ResumeWorks(f, listing);
    assert Cleaned(f).dirs - {} == Cleaned(f).dirs;
  }

  /** A directory that took the name of a journalled one is left alone, and so is what points at it. */
  lemma ForeignDirectoryStopsCleanup(f: Files, listing: seq<Id>)
    requires listing != [] && listing[0] in f.journals && f.journals[listing[0]].id == listing[0]
    requires listing[0] in f.dirs && f.dirs[listing[0]].inode != f.journals[listing[0]].inode
    ensures Resume(f, listing) == Failure
  {
  }

  // ---- Removing an update ----------------------------------------------------

  ghost predicate AdjacentOwned(f: Files, id: Id) {
    RecordedAdjacent(f, id).Some? && id in f.neighbours ==> f.neighbours[id].inode == RecordedAdjacent(f, id).value
  }

  /** What removing an update leaves. */
  function Removed(f: Files, id: Id): Files
    requires id in f.dirs
  {
    f.(dirs := f.dirs - {id}, pending := if f.pending == Naming(id) then Absent else f.pending,
       neighbours := if f.dirs[id].Directory? && f.dirs[id].handoff.Some? && f.dirs[id].adjacent.Some? then f.neighbours - {id} else f.neighbours)
  }

  /** A state that a crash can leave: either cleanup finishes the removal, or it is started again. */
  ghost predicate Resumable(f: Files, id: Id, e: Files)
    requires id in f.dirs
  {
    && Owned(e)
    && if id in e.journals || id !in e.dirs then Cleaned(e) == Cleaned(Removed(f, id))
       else !HasCredentials(e, id) && AdjacentOwned(e, id) && Removed(e, id) == Removed(f, id)
  }

  /** Only the copy beside the application, and the record of it, may change before the journal is written. */
  ghost predicate StillThere(f: Files, id: Id, e: Files)
    requires id in f.dirs && f.dirs[id].Directory?
  {
    && id in e.dirs && e == f.(dirs := e.dirs, neighbours := e.neighbours)
    && (e.dirs == f.dirs || e.dirs == f.dirs[id := f.dirs[id].(adjacent := None)])
    && e.neighbours - {id} == f.neighbours - {id}
    && (f.dirs[id].adjacent.None? ==> e == f)
    && (e.dirs != f.dirs ==> id !in e.neighbours)
    && (id in e.neighbours ==> id in f.neighbours && e.neighbours[id].inode == f.neighbours[id].inode)
  }

  lemma CleanAdjacentWorks(f: Files, id: Id)
    requires id in f.dirs && f.dirs[id].Directory? && AdjacentOwned(f, id)
    ensures CleanAdjacent(f, id).done
    ensures forall e | e in CleanAdjacent(f, id).writes :: StillThere(f, id, e)
    ensures var e := End(f, CleanAdjacent(f, id).writes);
            && StillThere(f, id, e) && e.dirs[id] == f.dirs[id].(adjacent := None)
            && e.neighbours == if f.dirs[id].adjacent.Some? then f.neighbours - {id} else f.neighbours
  {
    if f.dirs[id].adjacent.Some? {
      var dropped := if id in f.neighbours then DropNeighbour(f, id) else Nothing;
      var e := End(f, dropped.writes);
      assert e == f.(neighbours := f.neighbours - {id});
      EndOfAppend(f, dropped.writes, Forget(e, id).writes);
      forall w | w in dropped.writes ensures StillThere(f, id, w) {
        assert w.neighbours - {id} == f.neighbours - {id};
      }
    }
  }

  lemma StillThereIsResumable(f: Files, id: Id, e: Files)
    requires id in f.dirs && f.dirs[id].Directory? && f.dirs[id].handoff.Some? && !f.dirs[id].credentials
    requires Owned(f) && AdjacentOwned(f, id) && id !in f.journals && StillThere(f, id, e)
    ensures Resumable(f, id, e)
  {
    assert e.dirs - {id} == f.dirs - {id};
    if e.dirs != f.dirs {
      assert e.neighbours == f.neighbours - {id} by { assert e.neighbours - {id} == e.neighbours; }
    }
  }

  /** From the journal on, cleanup alone finishes the removal. */
  lemma JournalWorks(f: Files, id: Id)
    requires Owned(f) && id in f.dirs && id !in f.journals
    ensures var course := Journal(f, id);
            && course.done
            && (forall e | e in course.writes :: Owned(e) && Cleaned(e) == Cleaned(f.(journals := f.journals[id := Owner(id, f.dirs[id].inode)]))
                                                && (id in e.journals || id !in e.dirs))
            && var e := End(f, course.writes);
               e == f.(dirs := f.dirs - {id}, pending := if f.pending == Naming(id) then Absent else f.pending)
  {
    var owner := Owner(id, f.dirs[id].inode);
    var written := f.(journals := f.journals[id := owner]);
    FinishCleanupWorks(written, id);
    var course := FinishCleanup(written, id, owner);
    EndOfAppend(f, [written], course.writes);
    FinishCleanupSteps(written, id);
    assert written.journals - {id} == f.journals;
    hide FinishCleanup, Cleaned;
  }

  /** The directory is gone before its journal goes. */
  lemma FinishCleanupSteps(f: Files, name: Id)
    requires Owned(f) && name in f.journals
    ensures var course := FinishCleanup(f, name, f.journals[name]);
            && (forall e | e in course.writes :: name in e.journals || name !in e.dirs)
            && End(f, course.writes) == f.(dirs := f.dirs - {name}, journals := f.journals - {name},
                                           pending := if f.pending == Naming(name) then Absent else f.pending)
  {
    DropDirectoryWorks(f, name);
    var first := DropDirectory(f, f.journals[name]);
    var f1 := End(f, first.writes);
    var second := DropPending(f1, name);
    var f2 := End(f1, second.writes);
    var f3 := f2.(journals := f2.journals - {name});
    EndOfAppend(f1, second.writes, [f3]);
    EndOfAppend(f, first.writes, second.writes + [f3]);
  }

  lemma AfterAdjacent(f: Files, id: Id, e: Files)
    requires id in f.dirs && f.dirs[id].Directory? && f.dirs[id].handoff.Some? && id !in f.journals && StillThere(f, id, e)
    requires e.neighbours == if f.dirs[id].adjacent.Some? then f.neighbours - {id} else f.neighbours
    ensures Removed(f, id) == e.(dirs := e.dirs - {id}, pending := if e.pending == Naming(id) then Absent else e.pending)
    ensures Cleaned(e.(journals := e.journals[id := Owner(id, e.dirs[id].inode)])) == Cleaned(Removed(f, id))
  {
    var journalled := e.(journals := e.journals[id := Owner(id, e.dirs[id].inode)]);
    assert e.dirs - {id} == f.dirs - {id};
    assert journalled.dirs - journalled.journals.Keys == Removed(f, id).dirs - f.journals.Keys;
  }

  /**
   Removing an update deletes exactly its directory, the copy it recorded, and `pending.json`
   if that names it. After a crash at any point either cleanup finishes the same removal,
   or starting the removal again does.
   */
  lemma RemoveWorks(f: Files, id: Id)
    requires Owned(f) && id in f.dirs && f.dirs[id].Directory? && f.dirs[id].handoff.Some? && !f.dirs[id].credentials
    requires id !in f.journals && AdjacentOwned(f, id)
    ensures Remove(f, id).done && End(f, Remove(f, id).writes) == Removed(f, id)
    ensures forall e | e in Remove(f, id).writes :: Resumable(f, id, e)
  {
    CleanAdjacentWorks(f, id);
    var cleaned := CleanAdjacent(f, id);
    var e := End(f, cleaned.writes);
    JournalWorks(e, id);
    var journalled := e.(journals := e.journals[id := Owner(id, e.dirs[id].inode)]);
    EndOfAppend(f, cleaned.writes, Journal(e, id).writes);
    AfterAdjacent(f, id, e);
    hide Cleaned, Removed, CleanAdjacent, Journal, StillThere;
    forall w | w in cleaned.writes ensures Resumable(f, id, w) {
      StillThereIsResumable(f, id, w);
    }
  }

  /** The last part of the claim, spelled out: a crash, and then whichever of the two applies. */
  lemma CrashedRemovalIsFinished(f: Files, id: Id, n: nat, listing: seq<Id>)
    requires Owned(f) && id in f.dirs && f.dirs[id].Directory? && f.dirs[id].handoff.Some? && !f.dirs[id].credentials
    requires id !in f.journals && AdjacentOwned(f, id)
    requires Lists(listing, After(f, Remove(f, id).writes, n))
    ensures var e := After(f, Remove(f, id).writes, n);
            if id in e.journals || id !in e.dirs
            then Resume(e, listing).done && End(e, Resume(e, listing).writes) == Cleaned(Removed(f, id))
            else Remove(e, id).done && End(e, Remove(e, id).writes) == Removed(f, id)
  {
    RemoveWorks(f, id);
    var e := After(f, Remove(f, id).writes, n);
    AfterIsOneOf(f, Remove(f, id).writes, n);
    assert Resumable(f, id, f);
    RemoveKeepsHandoff(f, id);
    if id in e.journals || id !in e.dirs {
      ResumeWorks(e, listing);
    } else {
      RemoveWorks(e, id);
    }
  }

  /** Until the journal exists the directory keeps what a second attempt needs. */
  lemma RemoveKeepsHandoff(f: Files, id: Id)
    requires Owned(f) && id in f.dirs && f.dirs[id].Directory? && f.dirs[id].handoff.Some? && !f.dirs[id].credentials
    requires id !in f.journals && AdjacentOwned(f, id)
    ensures forall e | e in Remove(f, id).writes && id !in e.journals && id in e.dirs ::
      e.dirs[id].Directory? && e.dirs[id].handoff.Some? && !e.dirs[id].credentials
  {
    CleanAdjacentWorks(f, id);
    var cleaned := CleanAdjacent(f, id);
    var e := End(f, cleaned.writes);
    JournalWorks(e, id);
    EndOfAppend(f, cleaned.writes, Journal(e, id).writes);
    hide CleanAdjacent, Journal, Cleaned;
  }

  // ---- Other updates ---------------------------------------------------------

  /** Nothing of another update is touched. */
  lemma OthersStayInTheEnd(f: Files, id: Id, other: Id)
    requires id in f.dirs && other != id && other !in f.journals
    ensures var e := Removed(f, id);
            && (other in e.dirs <==> other in f.dirs) && (other in f.dirs ==> e.dirs[other] == f.dirs[other])
            && (other in e.neighbours <==> other in f.neighbours) && (other in f.neighbours ==> e.neighbours[other] == f.neighbours[other])
            && (f.pending == Naming(other) ==> e.pending == f.pending)
    ensures var e := Cleaned(f);
            && (other in e.dirs <==> other in f.dirs) && (other in f.dirs ==> e.dirs[other] == f.dirs[other])
            && e.neighbours == f.neighbours
            && (f.pending == Naming(other) ==> e.pending == f.pending)
  {
  }

  /** `pending.json` never names a directory that is gone without a trace. */
  ghost predicate NotDangling(f: Files) {
    f.pending.Naming? ==> f.pending.id in f.dirs || f.pending.id in f.journals
  }

  lemma FinishCleanupNeverDangles(f: Files, name: Id)
    requires Owned(f) && name in f.journals && NotDangling(f)
    ensures forall e | e in FinishCleanup(f, name, f.journals[name]).writes :: NotDangling(e)
  {
    DropDirectoryWorks(f, name);
    var first := DropDirectory(f, f.journals[name]);
    var f1 := End(f, first.writes);
    var second := DropPending(f1, name);
    var f2 := End(f1, second.writes);
    var f3 := f2.(journals := f2.journals - {name});
    EndOfAppend(f1, second.writes, [f3]);
    EndOfAppend(f, first.writes, second.writes + [f3]);
  }

  lemma RemoveNeverDangles(f: Files, id: Id)
    requires Owned(f) && id in f.dirs && f.dirs[id].Directory? && f.dirs[id].handoff.Some? && !f.dirs[id].credentials
    requires id !in f.journals && AdjacentOwned(f, id) && NotDangling(f)
    ensures forall e | e in Remove(f, id).writes :: NotDangling(e)
  {
    CleanAdjacentWorks(f, id);
    var cleaned := CleanAdjacent(f, id);
    var e := End(f, cleaned.writes);
    var owner := Owner(id, e.dirs[id].inode);
    var written := e.(journals := e.journals[id := owner]);
    FinishCleanupNeverDangles(written, id);
    EndOfAppend(e, [written], FinishCleanup(written, id, owner).writes);
    EndOfAppend(f, cleaned.writes, Journal(e, id).writes);
    hide CleanAdjacent, FinishCleanup;
  }

  lemma {:induction false} ResumeNeverDangles(f: Files, listing: seq<Id>)
    requires Owned(f) && Lists(listing, f) && NotDangling(f)
    ensures forall e | e in Resume(f, listing).writes :: NotDangling(e)
    decreases |listing|
  {
    if listing != [] {
      var one := FinishCleanup(f, listing[0], f.journals[listing[0]]);
      FinishCleanupWorks(f, listing[0]);
      FinishCleanupNeverDangles(f, listing[0]);
      var e := End(f, one.writes);
      EndIsOneOf(f, one.writes);
      assert Lists(listing[1..], e) by {
        forall id ensures id in listing[1..] <==> id in e.journals {
          assert listing == [listing[0]] + listing[1..];
        }
      }
      ResumeNeverDangles(e, listing[1..]);
      EndOfAppend(f, one.writes, Resume(e, listing[1..]).writes);
      hide FinishCleanup, Cleaned;
    }
  }

  // ---- Installing ------------------------------------------------------------

  /** The installed application is exactly the old or exactly the new one, and the new one never without the old beside it. */
  ghost predicate SafeTarget(e: Files, id: Id, before: nat, release: nat) {
    && e.target in {Whole(before), Whole(release)}
    && (e.target != Whole(before) ==> Retained(e, id) == Some(Whole(before)))
  }

  lemma CleanAdjacentKeepsTarget(f: Files, id: Id)
    ensures forall e | e in CleanAdjacent(f, id).writes :: e.target == f.target
    ensures End(f, CleanAdjacent(f, id).writes).target == f.target
  {
  }

  lemma UndoKeepsTarget(f: Files, id: Id)
    ensures forall e | e in Undo(f, id).writes :: e.target == f.target
  {
  }

  /** At every crash point of an installation, whatever the copy turns out to be. */
  lemma InstallIsAtomic(f: Files, id: Id, before: nat, release: nat, candidate: Tree, copied: Tree)
    requires before != release && f.target == Whole(before)
    ensures forall e | e in Install(f, id, before, release, candidate, copied).writes :: SafeTarget(e, id, before, release)
    ensures Install(f, id, before, release, candidate, copied).done ==>
            End(f, Install(f, id, before, release, candidate, copied).writes).target == Whole(release)
  {
    CleanAdjacentKeepsTarget(f, id);
    var cleaned := CleanAdjacent(f, id);
    var e := End(f, cleaned.writes);
    if candidate == Whole(release) && id in e.dirs && e.dirs[id].Directory? {
      FreshIsAtomic(e, id, before, release, copied);
      EndOfAppend(f, cleaned.writes, InstallFresh(e, id, before, release, copied).writes);
    }
    hide CleanAdjacent, InstallFresh;
  }

  lemma FreshIsAtomic(f: Files, id: Id, before: nat, release: nat, copied: Tree)
    requires before != release && f.target == Whole(before) && id in f.dirs && f.dirs[id].Directory?
    ensures forall e | e in InstallFresh(f, id, before, release, copied).writes :: SafeTarget(e, id, before, release)
    ensures InstallFresh(f, id, before, release, copied).done ==>
            End(f, InstallFresh(f, id, before, release, copied).writes).target == Whole(release)
  {
    if id !in f.neighbours {
      var ready := Stage(f, id, copied)[3];
      UndoKeepsTarget(ready, id);
      EndOfAppend(f, Stage(f, id, copied), [Exchange(ready, id)]);
      EndOfAppend(f, Stage(f, id, copied), Undo(ready, id).writes);
      hide Undo;
    }
  }

  /** A copy that fails its check leaves no trace, and the target as it was. */
  lemma FailedInstallLeavesNothing(f: Files, id: Id, before: nat, release: nat, copied: Tree)
    requires f.target == Whole(before) && copied != Whole(release)
    requires id in f.dirs && f.dirs[id].Directory? && f.dirs[id].adjacent.None? && id !in f.neighbours
    ensures var course := InstallFresh(f, id, before, release, copied);
            && !course.done
            && End(f, course.writes) == f.(nextInode := f.nextInode + 1)
  {
    var ready := Stage(f, id, copied)[3];
    var dropped := DropNeighbour(ready, id);
    var e := End(ready, dropped.writes);
    assert e.neighbours == f.neighbours;
    EndOfAppend(ready, dropped.writes, Forget(e, id).writes);
    EndOfAppend(f, Stage(f, id, copied), Undo(ready, id).writes);
    assert End(e, Forget(e, id).writes).dirs == f.dirs;
  }

  /** While the credentials of an update exist, neither removal nor cleanup of other updates can touch the old application. */
  lemma {:induction false} CredentialsProtectTheOldApplication(f: Files, id: Id, listing: seq<Id>)
    requires HasCredentials(f, id) && id !in f.journals && Owned(f) && Lists(listing, f)
    ensures Remove(f, id) == Failure
    ensures forall e | e in Resume(f, listing).writes :: HasCredentials(e, id) && Retained(e, id) == Retained(f, id) && id !in e.journals
    decreases |listing|
  {
    if listing != [] {
      var name := listing[0];
      var one := FinishCleanup(f, name, f.journals[name]);
      FinishCleanupWorks(f, name);
      CleanupOfOthers(f, name, id);
      var e := End(f, one.writes);
      EndIsOneOf(f, one.writes);
      assert Lists(listing[1..], e) by {
        forall i ensures i in listing[1..] <==> i in e.journals {
          assert listing == [listing[0]] + listing[1..];
        }
      }
      CredentialsProtectTheOldApplication(e, id, listing[1..]);
      EndOfAppend(f, one.writes, Resume(e, listing[1..]).writes);
      hide FinishCleanup, Cleaned;
    }
  }

  lemma CleanupOfOthers(f: Files, name: Id, id: Id)
    requires Owned(f) && name in f.journals && id != name
    ensures var course := FinishCleanup(f, name, f.journals[name]);
            forall e | e in course.writes ::
              && (id in e.dirs <==> id in f.dirs) && (id in f.dirs ==> e.dirs[id] == f.dirs[id])
              && e.neighbours == f.neighbours && e.journals.Keys <= f.journals.Keys
  {
    var first := DropDirectory(f, f.journals[name]);
    DropDirectoryWorks(f, name);
    var f1 := End(f, first.writes);
    var second := DropPending(f1, name);
    var f2 := End(f1, second.writes);
    var f3 := f2.(journals := f2.journals - {name});
    EndOfAppend(f1, second.writes, [f3]);
    EndOfAppend(f, first.writes, second.writes + [f3]);
  }

  // ---- A first installation, write by write ----------------------------------

  /** The first installation of an update, stopped by a crash after `n` writes. */
  function CrashedInstall(f: Files, id: Id, before: nat, release: nat, n: nat): Files {
    After(f, Install(f, id, before, release, Whole(release), Whole(release)).writes, n)
  }

  ghost predicate FirstInstall(f: Files, id: Id, before: nat) {
    && f.target == Whole(before) && id in f.dirs && id !in f.journals && id !in f.neighbours
    && f.dirs[id].Directory? && f.dirs[id].handoff.Some? && f.dirs[id].adjacent.None?
    && Owned(f)
  }

  /** The update was settled: `credentials.json` is gone. */
  function Cleared(f: Files, id: Id): Files
    requires id in f.dirs && f.dirs[id].Directory?
  {
    f.(dirs := f.dirs[id := f.dirs[id].(credentials := false)])
  }

  lemma CrashedInstallStates(f: Files, id: Id, before: nat, release: nat, n: nat)
    requires FirstInstall(f, id, before) && before != release
    ensures var e := CrashedInstall(f, id, before, release, n);
            && (n == 0 ==> e == f)
            && (n == 1 ==> e == MakeNeighbour(f, id))
            && (n > 1 ==> id in e.neighbours && e.neighbours[id].inode == f.nextInode
                          && e.dirs == f.dirs[id := f.dirs[id].(adjacent := Some(f.nextInode))]
                          && e.neighbours - {id} == f.neighbours && e.journals == f.journals)
  {
    hide Install, Stage, Exchange;
    var writes := InstallWrites(f, id, release);
    InstallIsWrites(f, id, before, release);
    if n > 0 {
      var e := CrashedInstall(f, id, before, release, n);
      var k := if n < 5 then n - 1 else 4;
      assert e == writes[k] by {
        if n < 5 { assert writes[..n][n - 1] == writes[n - 1]; }
      }
      WritesOfInstall(f, id, release);
    }
  }

  function InstallWrites(f: Files, id: Id, release: nat): (writes: seq<Files>)
    requires id in f.dirs && f.dirs[id].Directory?
    ensures |writes| == 5
  {
    var staged := Stage(f, id, Whole(release));
    staged + [Exchange(staged[3], id)]
  }

  lemma InstallIsWrites(f: Files, id: Id, before: nat, release: nat)
    requires FirstInstall(f, id, before) && before != release
    ensures Install(f, id, before, release, Whole(release), Whole(release)).writes == InstallWrites(f, id, release)
  {
    assert CleanAdjacent(f, id) == Nothing;
    assert [] + InstallWrites(f, id, release) == InstallWrites(f, id, release);
  }

  lemma WritesOfInstall(f: Files, id: Id, release: nat)
    requires id in f.dirs && f.dirs[id].Directory? && id !in f.neighbours
    ensures var writes := InstallWrites(f, id, release);
            && writes[0] == MakeNeighbour(f, id)
            && forall k | 0 < k < 5 ::
              && id in writes[k].neighbours && writes[k].neighbours[id].inode == f.nextInode
              && writes[k].dirs == f.dirs[id := f.dirs[id].(adjacent := Some(f.nextInode))]
              && writes[k].neighbours - {id} == f.neighbours && writes[k].journals == f.journals
  {
    var writes := InstallWrites(f, id, release);
    forall k | 0 < k < 5 ensures writes[k].neighbours - {id} == f.neighbours {
      assert k == 1 || k == 2 || k == 3 || k == 4;
    }
  }
}
