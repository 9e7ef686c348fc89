/**
 The directory beside the application that no update records: over every history it is there
 exactly when some installation stopped right after making it.
 */
module UpdateFileLeaks {
  import opened Courses
  import opened UpdateFiles
  import opened UpdateFileSafety
  import opened UpdateFileRuns

  // ---- What does not leak ----------------------------------------------------

  lemma UntouchedLeaksNothing(f: Files, e: Files, id: Id)
    requires Untouched(f, e, id) && Leaked(e, id)
    ensures Leaked(f, id)
  {
  }

  /** Dropping a copy on record, then the record: at no moment is the copy there without the record. */
  lemma UndoLeaksNothing(f: Files, id: Id)
    requires IsDirectory(f, id) && f.dirs[id].adjacent.Some?
    ensures forall e | e in Undo(f, id).writes :: !Leaked(e, id)
    ensures var e := End(f, Undo(f, id).writes); id !in e.neighbours && RecordedAdjacent(e, id).None?
  {
    var dropped := if id in f.neighbours then DropNeighbour(f, id) else Nothing;
    var e := End(f, dropped.writes);
    EndOfAppend(f, dropped.writes, Forget(e, id).writes);
  }

  lemma CleanAdjacentLeaksNothing(f: Files, id: Id)
    requires EntryOk(f, id) && !Leaked(f, id)
    ensures forall e | e in CleanAdjacent(f, id).writes :: !Leaked(e, id)
    ensures var e := End(f, CleanAdjacent(f, id).writes);
            RecordedAdjacent(e, id).None? && (IsDirectory(f, id) ==> id !in e.neighbours)
  {
    if RecordedAdjacent(f, id).Some? {
      UndoLeaksNothing(f, id);
      assert CleanAdjacent(f, id) == Undo(f, id);
    }
  }

  /** While a directory without a record is deleted, nothing beside the application changes. */
  lemma FinishLeaksNothing(f: Files, id: Id, owner: Owner, e: Files)
    requires owner.id == id && (id in f.dirs ==> f.dirs[id].inode == owner.inode) && RecordedAdjacent(f, id).None?
    requires e in FinishCleanup(f, id, owner).writes && Leaked(e, id)
    ensures Leaked(f, id)
  {
    FinishCleans(f, id, owner);
    assert CleansOnly(f, e, id);
  }

  lemma JournalLeaksNothing(f: Files, id: Id, e: Files)
    requires id in f.dirs && RecordedAdjacent(f, id).None? && e in Journal(f, id).writes && Leaked(e, id)
    ensures Leaked(f, id)
  {
    var owner := Owner(id, f.dirs[id].inode);
    var written := f.(journals := f.journals[id := owner]);
    EndOfAppend(f, [written], FinishCleanup(written, id, owner).writes);
    if e != written { FinishLeaksNothing(written, id, owner, e); }
  }

  lemma RemoveLeaksNothing(f: Files, id: Id, e: Files)
    requires EntryOk(f, id) && e in Remove(f, id).writes && Leaked(e, id)
    ensures Leaked(f, id)
  {
    if id in f.journals {
      FinishLeaksNothing(f, id, f.journals[id], e);
    } else if !Leaked(f, id) {
      CleanAdjacentLeaksNothing(f, id);
      AdjacentKeepsDirectory(f, id);
      var cleaned := if f.dirs[id].Directory? && f.dirs[id].handoff.Some? then CleanAdjacent(f, id) else Nothing;
      var g := End(f, cleaned.writes);
      hide CleanAdjacent, Journal;
      EndOfAppend(f, cleaned.writes, Journal(g, id).writes);
      JournalLeaksNothing(g, id, e);
    }
  }

  /** No operation but an installation of the update itself leaks its copy. */
  lemma OthersLeakNothing(f: Files, operation: Operation, e: Files, id: Id)
    requires FilesOk(f) && Enabled(f, operation) && e in CourseOf(f, operation).writes
    requires !(operation.InstallUpdate? && operation.id == id) && Leaked(e, id)
    ensures Leaked(f, id)
  {
    hide FilesOk, Remove, Resume, Install;
    match operation
    case InstallUpdate(_, _, _) =>
      OtherUpdatesUntouched(f, operation, e, id);
      UntouchedLeaksNothing(f, e, id);
    case RemoveUpdate(other) =>
      if other == id {
        OneIsOk(f, id);
        RemoveLeaksNothing(f, id, e);
      } else {
        OtherUpdatesUntouched(f, operation, e, id);
        UntouchedLeaksNothing(f, e, id);
      }
    case ResumeCleanup(listing) =>
      OneIsOk(f, id);
      ResumeKeeps(f, listing);
      CleanupLeaksNothing(f, e, id);
    case _ =>
  }

  lemma OneIsOk(f: Files, id: Id)
    requires FilesOk(f)
    ensures EntryOk(f, id)
  {
  }

  lemma CleanupLeaksNothing(f: Files, e: Files, id: Id)
    requires EntryOk(f, id) && CleansJournalled(f, e) && Leaked(e, id)
    ensures Leaked(f, id)
  {
    assert SameNeighbour(f, e, id);
    if id !in f.journals { UntouchedLeaksNothing(f, e, id); }
  }

  // ---- What does -------------------------------------------------------------

  /** The installation finds the old application, a complete candidate, and no copy that it does not know of. */
  predicate CanStart(f: Files, id: Id, candidate: Tree) {
    && HasHandoff(f, id) && f.target == Whole(f.dirs[id].handoff.value.before)
    && candidate == Whole(f.dirs[id].handoff.value.release)
    && (id in f.neighbours ==> f.dirs[id].adjacent.Some?)
  }

  /** The write that makes the directory comes right after a recorded copy is cleaned away. */
  function MakingWrite(f: Files, id: Id): nat { |CleanAdjacent(f, id).writes| + 1 }

  /** Of the writes of a fresh installation only the first leaves the directory without a record. */
  lemma FreshLeaksFirst(f: Files, id: Id, before: nat, release: nat, copied: Tree, k: nat)
    requires IsDirectory(f, id) && id !in f.neighbours && f.dirs[id].adjacent.None?
    ensures InstallFresh(f, id, before, release, copied).writes != []
    ensures k < |InstallFresh(f, id, before, release, copied).writes| ==>
              (Leaked(InstallFresh(f, id, before, release, copied).writes[k], id) <==> k == 0)
  {
    var staged := Stage(f, id, copied);
    var ready := staged[3];
    StageLeaksFirst(f, id, copied);
    if k >= 4 && k < |InstallFresh(f, id, before, release, copied).writes| {
      UndoLeaksNothing(ready, id);
      hide Undo, Stage;
      var writes := InstallFresh(f, id, before, release, copied).writes;
      if !(copied == Whole(release) && f.target == Whole(before)) {
        assert writes[k] == Undo(ready, id).writes[k - 4];
        assert writes[k] in Undo(ready, id).writes;
      }
    }
  }

  lemma StageLeaksFirst(f: Files, id: Id, copied: Tree)
    requires IsDirectory(f, id) && id !in f.neighbours && f.dirs[id].adjacent.None?
    ensures var staged := Stage(f, id, copied);
            && |staged| == 4 && Leaked(staged[0], id)
            && !Leaked(staged[1], id) && !Leaked(staged[2], id) && !Leaked(staged[3], id)
            && IsDirectory(staged[3], id) && staged[3].dirs[id].adjacent.Some?
            && id in staged[3].neighbours && staged[3].neighbours[id].app.Some?
            && !Leaked(Exchange(staged[3], id), id)
  {
  }

  lemma CannotStart(f: Files, id: Id, candidate: Tree, copied: Tree)
    requires EntryOk(f, id) && HasHandoff(f, id) && !CanStart(f, id, candidate)
    ensures var handoff := f.dirs[id].handoff.value;
            Install(f, id, handoff.before, handoff.release, candidate, copied) == Failure
  {
  }

  lemma StartedInstall(f: Files, id: Id, candidate: Tree, copied: Tree)
    requires EntryOk(f, id) && CanStart(f, id, candidate)
    ensures var handoff := f.dirs[id].handoff.value;
            var e := End(f, CleanAdjacent(f, id).writes);
            && IsDirectory(e, id) && id !in e.neighbours && e.dirs[id].adjacent.None?
            && Install(f, id, handoff.before, handoff.release, candidate, copied).writes ==
               CleanAdjacent(f, id).writes + InstallFresh(e, id, handoff.before, handoff.release, copied).writes
  {
    CleanAdjacentConcerns(f, id);
    AdjacentKeepsDirectory(f, id);
    CleanAdjacentLeaksNothing(f, id);
    hide CleanAdjacent, InstallFresh;
  }

  /**
   Whatever the candidate and the copy turn out to be, and whether or not an earlier copy had to be cleaned
   away: an installation leaks exactly when it stops after making the directory and before recording it.
   */
  lemma InstallLeaksIff(f: Files, id: Id, candidate: Tree, copied: Tree, n: nat)
    requires EntryOk(f, id) && HasHandoff(f, id)
    ensures var handoff := f.dirs[id].handoff.value;
            Leaked(After(f, Install(f, id, handoff.before, handoff.release, candidate, copied).writes, n), id) <==>
            Leaked(f, id) || (CanStart(f, id, candidate) && n == MakingWrite(f, id))
  {
    var handoff := f.dirs[id].handoff.value;
    if CanStart(f, id, candidate) {
      var e := End(f, CleanAdjacent(f, id).writes);
      StartedInstall(f, id, candidate, copied);
      CleanAdjacentLeaksNothing(f, id);
      FreshLeaks(e, id, handoff.before, handoff.release, copied);
      hide Install, InstallFresh, CleanAdjacent;
      LeakPosition(f, CleanAdjacent(f, id).writes, InstallFresh(e, id, handoff.before, handoff.release, copied).writes, id, n);
    } else {
      CannotStart(f, id, candidate, copied);
    }
  }

  /** Among the writes of both parts only the first of the second part leaks. */
  lemma LeakPosition(f: Files, cleaned: seq<Files>, made: seq<Files>, id: Id, n: nat)
    requires !Leaked(f, id) && |made| > 1 && (forall e | e in cleaned :: !Leaked(e, id))
    requires forall k | 0 <= k < |made| :: Leaked(made[k], id) <==> k == 0
    ensures Leaked(After(f, cleaned + made, n), id) <==> n == |cleaned| + 1
  {
    hide Leaked;
    var all := cleaned + made;
    var last := if n <= |all| then n - 1 else |all| - 1;
    if 0 < n { assert After(f, all, n) == all[last]; }
    if 0 < n <= |cleaned| {
      assert all[last] in cleaned;
    } else if n > |cleaned| {
      assert all[last] == made[last - |cleaned|];
    }
  }

  lemma FreshLeaks(f: Files, id: Id, before: nat, release: nat, copied: Tree)
    requires IsDirectory(f, id) && id !in f.neighbours && f.dirs[id].adjacent.None?
    ensures var writes := InstallFresh(f, id, before, release, copied).writes;
            |writes| > 1 && forall k | 0 <= k < |writes| :: Leaked(writes[k], id) <==> k == 0
  {
    MoreThanOne(f, id, before, release, copied);
    hide InstallFresh, Leaked;
    var writes := InstallFresh(f, id, before, release, copied).writes;
    forall k | 0 <= k < |writes| ensures Leaked(writes[k], id) <==> k == 0 {
      FreshLeaksFirst(f, id, before, release, copied, k);
    }
  }

  lemma MoreThanOne(f: Files, id: Id, before: nat, release: nat, copied: Tree)
    requires IsDirectory(f, id) && id !in f.neighbours
    ensures |InstallFresh(f, id, before, release, copied).writes| > 1
  {
  }

  // ---- Every history ---------------------------------------------------------

  /** An installation of the update stops right after it has made the directory. */
  ghost predicate StopsAfterMaking(f: Files, step: Step, id: Id) {
    && step.operation.InstallUpdate? && step.operation.id == id && Enabled(f, step.operation)
    && CanStart(f, id, step.operation.candidate) && step.writes == MakingWrite(f, id)
  }

  lemma StepLeaksIff(w: World, step: Step, id: Id)
    requires Inv(w)
    ensures Leaked(Perform(w, step).files, id) <==> Leaked(w.files, id) || StopsAfterMaking(w.files, step, id)
  {
    var f := w.files;
    if Leaked(f, id) {
      StepLeaves(w, step, id);
    } else if Enabled(f, step.operation) {
      if step.operation.InstallUpdate? && step.operation.id == id {
        OneIsOk(f, id);
        InstallLeaksIff(f, id, step.operation.candidate, step.operation.copied, step.writes);
        hide Install, CanStart, MakingWrite;
      } else {
        var e := FilesAfter(f, step);
        AfterIsOneOf(f, CourseOf(f, step.operation).writes, step.writes);
        hide CourseOf, Enabled, FilesOk;
        if e != f && Leaked(e, id) { OthersLeakNothing(f, step.operation, e, id); }
      }
    }
  }

  /** Some installation of the update in the history stopped there. */
  ghost predicate MadeWithoutRecord(w: World, steps: seq<Step>, id: Id)
    decreases |steps|
  {
    steps != [] && (StopsAfterMaking(w.files, steps[0], id) || MadeWithoutRecord(Perform(w, steps[0]), steps[1..], id))
  }

  lemma {:induction false} RunLeaksIff(w: World, steps: seq<Step>, id: Id)
    requires Inv(w)
    ensures Leaked(RunAll(w, steps).files, id) <==> Leaked(w.files, id) || MadeWithoutRecord(w, steps, id)
    decreases |steps|
  {
    if steps != [] {
      StepKeeps(w, steps[0]);
      StepLeaksIff(w, steps[0], id);
      hide Inv, Perform, Leaked, StopsAfterMaking;
      RunLeaksIff(Perform(w, steps[0]), steps[1..], id);
    }
  }

  /**
   Over every history from an empty workspace a copy is left that no update records exactly when some
   installation of that update stopped after making the directory and before recording it.
   */
  lemma HistoryLeaksIff(version: nat, steps: seq<Step>, id: Id)
    ensures Leaked(RunAll(Empty(version), steps).files, id) <==> MadeWithoutRecord(Empty(version), steps, id)
  {
    EmptyIsFine(version);
    RunLeaksIff(Empty(version), steps, id);
  }

  // ---- What becomes of it ----------------------------------------------------

  lemma InstallKeepsHandoff(f: Files, id: Id, candidate: Tree, copied: Tree, e: Files)
    requires EntryOk(f, id) && HasHandoff(f, id) && id !in f.journals && f.target.Whole?
    requires var handoff := f.dirs[id].handoff.value;
             e in Install(f, id, handoff.before, handoff.release, candidate, copied).writes
    ensures HasHandoff(e, id) && id !in e.journals
  {
    var handoff := f.dirs[id].handoff.value;
    if CanStart(f, id, candidate) {
      StartedInstall(f, id, candidate, copied);
      var cleaned := CleanAdjacent(f, id).writes;
      var g := End(f, cleaned);
      CleanAdjacentWorks(f, id);
      if e !in cleaned { FreshKeepsHandoff(g, id, handoff.before, handoff.release, copied, e); }
      hide Install, InstallFresh, CleanAdjacent;
    } else {
      CannotStart(f, id, candidate, copied);
    }
  }

  /** The directory may gain or lose the record of a copy, and nothing else. */
  ghost predicate SameButRecord(f: Files, e: Files, id: Id) {
    && e.journals == f.journals && IsDirectory(f, id) && IsDirectory(e, id)
    && e.dirs[id].handoff == f.dirs[id].handoff
  }

  lemma UndoKeepsHandoff(f: Files, id: Id)
    requires IsDirectory(f, id)
    ensures forall e | e in Undo(f, id).writes :: SameButRecord(f, e, id)
  {
    var dropped := if id in f.neighbours then DropNeighbour(f, id) else Nothing;
    EndOfAppend(f, dropped.writes, Forget(End(f, dropped.writes), id).writes);
  }

  lemma FreshKeepsHandoff(f: Files, id: Id, before: nat, release: nat, copied: Tree, e: Files)
    requires IsDirectory(f, id) && e in InstallFresh(f, id, before, release, copied).writes
    ensures SameButRecord(f, e, id)
  {
    if id !in f.neighbours {
      var ready := Stage(f, id, copied)[3];
      assert forall g | g in Stage(f, id, copied) :: SameButRecord(f, g, id);
      UndoKeepsHandoff(ready, id);
      hide Undo;
    }
  }

  /** A settled update is removed together with the copy it records; one that it does not record stays. */
  lemma RemovalLeavesIff(f: Files, id: Id)
    requires FilesOk(f) && HasHandoff(f, id) && id !in f.journals
    ensures var c := Cleared(f, id);
            Remove(c, id).done && (id in End(c, Remove(c, id).writes).neighbours <==> Leaked(f, id))
  {
    var c := Cleared(f, id);
    OneIsOk(f, id);
    OkIsOwned(f);
    assert Owned(c);
    RemoveWorks(c, id);
    hide Remove;
  }

  /**
   However an installation stops, once credentials are cleared the directory beside the application outlives the
   removal of its update exactly when that installation stopped after making it, or it was there without a record before.
   */
  lemma CopyLeftBehindIff(f: Files, id: Id, candidate: Tree, copied: Tree, n: nat)
    requires FilesOk(f) && Enabled(f, InstallUpdate(id, candidate, copied))
    ensures var e := FilesAfter(f, Step(InstallUpdate(id, candidate, copied), n));
            && IsDirectory(e, id) && Remove(Cleared(e, id), id).done
            && (id in End(Cleared(e, id), Remove(Cleared(e, id), id).writes).neighbours <==>
                Leaked(f, id) || (CanStart(f, id, candidate) && n == MakingWrite(f, id)))
  {
    var operation := InstallUpdate(id, candidate, copied);
    var e := FilesAfter(f, Step(operation, n));
    OneIsOk(f, id);
    InstallLeaksIff(f, id, candidate, copied, n);
    AfterIsOneOf(f, CourseOf(f, operation).writes, n);
    assert f.target.Whole?;
    hide Install, FilesOk, CanStart, MakingWrite, Leaked, Remove;
    if e != f {
      EveryWriteKeeps(f, operation, e);
      InstallKeepsHandoff(f, id, candidate, copied, e);
      assert WriteKeeps(f, operation, e);
    }
    RemovalLeavesIff(e, id);
  }

  /** And then no attempt to install this update gets anywhere, before its credentials are cleared or after. */
  lemma CopyLeftBehindBlocksInstall(f: Files, id: Id, before: nat, release: nat, candidate: Tree, copied: Tree)
    requires Leaked(f, id) && IsDirectory(f, id)
    ensures Install(f, id, before, release, candidate, copied) == Failure
    ensures Install(Cleared(f, id), id, before, release, candidate, copied) == Failure
  {
  }
}
