/**
 Whole histories of the update files: every operation of every update, with a crash after
 any write, from a workspace in which there is nothing yet.
 */
module UpdateFileRuns {
  import opened Courses
  import opened Options
  import opened UpdateFiles
  import opened UpdateFileSafety

  // ---- Operations ------------------------------------------------------------

  datatype Operation =
    | Create(id: Id)
    | WriteHandoff(id: Id, release: nat)
    | PrepareCredentials(id: Id)
    | Announce(id: Id)
    | InstallUpdate(id: Id, candidate: Tree, copied: Tree)
    | ClearCredentials(id: Id)
    | RemoveUpdate(id: Id)
    | ResumeCleanup(listing: seq<Id>)

  /** An operation that stops after so many writes, if it has as many. */
  datatype Step = Step(operation: Operation, writes: nat)

  /** `exchanged` are the updates that put their application in place and are not settled since. */
  datatype World = World(files: Files, exchanged: set<Id>)

  function Empty(version: nat): World {
    World(Files(map[], map[], Absent, map[], Whole(version), 0), {})
  }

  predicate IsDirectory(f: Files, id: Id) { id in f.dirs && f.dirs[id].Directory? }

  predicate HasHandoff(f: Files, id: Id) { IsDirectory(f, id) && f.dirs[id].handoff.Some? }

  /** Names are new; before a handoff and its installation cleanup was resumed; a handoff is for the version that is installed. */
  ghost predicate Enabled(f: Files, operation: Operation) {
    match operation
    case Create(id) => id !in f.dirs && id !in f.journals && id !in f.neighbours && f.pending != Naming(id)
    case WriteHandoff(id, release) =>
      && IsDirectory(f, id) && f.journals.Keys == {} && !f.dirs[id].credentials
      && f.target.Whole? && f.target.version < release
    case PrepareCredentials(id) => HasHandoff(f, id) && id !in f.journals
    case Announce(id) => HasHandoff(f, id) && id !in f.journals
    case InstallUpdate(id, _, _) => HasHandoff(f, id) && id !in f.journals
    case ClearCredentials(id) => HasCredentials(f, id)
    case RemoveUpdate(_) => true
    case ResumeCleanup(listing) => Lists(listing, f)
  }

  function WithCredentials(f: Files, id: Id, held: bool): Files
    requires IsDirectory(f, id)
  {
    f.(dirs := f.dirs[id := f.dirs[id].(credentials := held)])
  }

  ghost function CourseOf(f: Files, operation: Operation): Course<Files>
    requires Enabled(f, operation)
  {
    match operation
    case Create(id) =>
      Course([f.(dirs := f.dirs[id := Directory(f.nextInode, false, None, None)], nextInode := f.nextInode + 1)], true)
    case WriteHandoff(id, release) =>
      Course([f.(dirs := f.dirs[id := f.dirs[id].(handoff := Some(Handoff(f.target.version, release)))])], true)
    case PrepareCredentials(id) =>
      var prepared := WithCredentials(f, id, true);
      Course([prepared, prepared.(pending := Naming(id))], true)
    case Announce(id) => Course([f.(pending := Naming(id))], true)
    case InstallUpdate(id, candidate, copied) =>
      var handoff := f.dirs[id].handoff.value;
      Install(f, id, handoff.before, handoff.release, candidate, copied)
    case ClearCredentials(id) => Course([WithCredentials(f, id, false)], true)
    case RemoveUpdate(id) => Remove(f, id)
    case ResumeCleanup(listing) => Resume(f, listing)
  }

  ghost function FilesAfter(f: Files, step: Step): Files
    requires Enabled(f, step.operation)
  {
    After(f, CourseOf(f, step.operation).writes, step.writes)
  }

  ghost function ExchangedAfter(w: World, step: Step): set<Id>
    requires Enabled(w.files, step.operation)
  {
    match step.operation
    case InstallUpdate(id, _, _) =>
      if FilesAfter(w.files, step).target != w.files.target && HasCredentials(w.files, id) then w.exchanged + {id} else w.exchanged
    case ClearCredentials(id) => w.exchanged - {id}
    case _ => w.exchanged
  }

  ghost function Perform(w: World, step: Step): World {
    if Enabled(w.files, step.operation) then World(FilesAfter(w.files, step), ExchangedAfter(w, step)) else w
  }

  ghost function RunAll(w: World, steps: seq<Step>): World
    decreases |steps|
  {
    if steps == [] then w else RunAll(Perform(w, steps[0]), steps[1..])
  }

  // ---- The invariant ---------------------------------------------------------

  /** A journal owns its directory, never one with credentials or with the record of a copy. */
  ghost predicate JournalOk(f: Files, id: Id) {
    id in f.journals ==>
      && f.journals[id].id == id && !HasCredentials(f, id) && RecordedAdjacent(f, id).None?
      && (id in f.dirs ==> f.dirs[id].inode == f.journals[id].inode)
  }

  /** What a directory records about the copy beside the application is true. */
  ghost predicate DirectoryOk(f: Files, id: Id) {
    IsDirectory(f, id) ==>
      && AdjacentOwned(f, id)
      && (f.dirs[id].credentials || f.dirs[id].adjacent.Some? ==> f.dirs[id].handoff.Some?)
      && (f.dirs[id].handoff.Some? ==> f.dirs[id].handoff.value.before < f.dirs[id].handoff.value.release)
  }

  ghost predicate EntryOk(f: Files, id: Id) { JournalOk(f, id) && DirectoryOk(f, id) }

  ghost predicate FilesOk(f: Files) { f.target.Whole? && forall id :: EntryOk(f, id) }

  /** After its exchange an update keeps the application it replaced, and an older one is never installed again. */
  ghost predicate Held(f: Files, id: Id) {
    && HasCredentials(f, id) && f.dirs[id].handoff.Some?
    && f.target.Whole? && f.target.version > f.dirs[id].handoff.value.before
    && Retained(f, id) == Some(Whole(f.dirs[id].handoff.value.before))
  }

  ghost predicate Inv(w: World) { FilesOk(w.files) && forall id | id in w.exchanged :: Held(w.files, id) }

  // ---- What one operation may change -----------------------------------------

  ghost predicate SameDirectory(f: Files, e: Files, id: Id) {
    (id in e.dirs <==> id in f.dirs) && (id in f.dirs ==> e.dirs[id] == f.dirs[id])
  }

  ghost predicate SameNeighbour(f: Files, e: Files, id: Id) {
    (id in e.neighbours <==> id in f.neighbours) && (id in f.neighbours ==> e.neighbours[id] == f.neighbours[id])
  }

  ghost predicate SameJournal(f: Files, e: Files, id: Id) {
    (id in e.journals <==> id in f.journals) && (id in f.journals ==> e.journals[id] == f.journals[id])
  }

  /** Nothing of an update is touched. */
  ghost predicate Untouched(f: Files, e: Files, id: Id) {
    && SameDirectory(f, e, id) && SameNeighbour(f, e, id) && SameJournal(f, e, id)
    && (f.pending == Naming(id) ==> e.pending == f.pending)
  }

  lemma UntouchedTwice(f: Files, e: Files, g: Files, id: Id)
    requires Untouched(f, e, id) && Untouched(e, g, id)
    ensures Untouched(f, g, id)
  {
  }

  lemma UntouchedIsOk(f: Files, e: Files, id: Id)
    requires Untouched(f, e, id) && EntryOk(f, id)
    ensures EntryOk(e, id)
  {
  }

  /** Only the target may have changed, and only to a newer version. */
  ghost predicate Newer(f: Files, e: Files) {
    f.target.Whole? && e.target.Whole? && f.target.version <= e.target.version
  }

  lemma UntouchedIsHeld(f: Files, e: Files, id: Id)
    requires Untouched(f, e, id) && Held(f, id) && Newer(f, e)
    ensures Held(e, id)
  {
  }

  // ---- Cleanup ---------------------------------------------------------------

  lemma OkIsOwned(f: Files)
    requires FilesOk(f)
    ensures Owned(f)
  {
    forall id | id in f.journals ensures f.journals[id].id == id && (id in f.dirs ==> f.dirs[id].inode == f.journals[id].inode) {
      assert EntryOk(f, id);
    }
  }

  /** One write of a cleanup of `name`, as far as `name` itself goes. */
  ghost predicate Shrunk(f: Files, e: Files, name: Id) {
    && (name in e.dirs ==> name in f.dirs && (e.dirs[name] == f.dirs[name] || e.dirs[name] == Remnant(f.dirs[name].inode)))
    && (name in e.journals ==> name in f.journals && e.journals[name] == f.journals[name])
    && SameNeighbour(f, e, name) && e.target == f.target
  }

  lemma ShrunkIsOk(f: Files, e: Files, name: Id)
    requires Shrunk(f, e, name) && EntryOk(f, name)
    ensures EntryOk(e, name)
  {
  }

  /** A write of a cleanup shrinks its own update and leaves every other one alone. */
  ghost predicate CleansOnly(f: Files, e: Files, name: Id) {
    Shrunk(f, e, name) && forall id | id != name :: Untouched(f, e, id)
  }

  lemma DropDirectoryCleans(f: Files, owner: Owner)
    requires owner.id in f.dirs ==> f.dirs[owner.id].inode == owner.inode
    ensures forall e | e in DropDirectory(f, owner).writes :: CleansOnly(f, e, owner.id)
    ensures CleansOnly(f, End(f, DropDirectory(f, owner).writes), owner.id)
  {
  }

  lemma DropPendingCleans(f: Files, id: Id)
    ensures forall e | e in DropPending(f, id).writes :: CleansOnly(f, e, id)
    ensures CleansOnly(f, End(f, DropPending(f, id).writes), id)
  {
  }

  lemma DropJournalCleans(f: Files, name: Id)
    ensures forall e | e in DropJournal(f, name).writes :: CleansOnly(f, e, name)
  {
  }

  lemma CleansTwice(f: Files, e: Files, g: Files, name: Id)
    requires CleansOnly(f, e, name) && CleansOnly(e, g, name)
    ensures CleansOnly(f, g, name)
  {
    forall id | id != name ensures Untouched(f, g, id) { UntouchedTwice(f, e, g, id); }
  }

  lemma FinishCleans(f: Files, name: Id, owner: Owner)
    requires owner.id == name && (name in f.dirs ==> f.dirs[name].inode == owner.inode)
    ensures forall e | e in FinishCleanup(f, name, owner).writes :: CleansOnly(f, e, name)
  {
    var first := DropDirectory(f, owner);
    var f1 := End(f, first.writes);
    DropDirectoryCleans(f, owner);
    var second := DropPending(f1, name);
    var f2 := End(f1, second.writes);
    DropPendingCleans(f1, name);
    DropJournalCleans(f2, name);
    var third := DropJournal(f2, name);
    assert second.done && third.done && first.done;
    hide DropDirectory, DropPending, DropJournal, CleansOnly;
    EndOfAppend(f1, second.writes, third.writes);
    EndOfAppend(f, first.writes, second.writes + third.writes);
    forall e | e in second.writes ensures CleansOnly(f, e, name) { CleansTwice(f, f1, e, name); }
    CleansTwice(f, f1, f2, name);
    forall e | e in third.writes ensures CleansOnly(f, e, name) { CleansTwice(f, f2, e, name); }
  }

  lemma CleansKeeps(f: Files, e: Files, name: Id)
    requires FilesOk(f) && CleansOnly(f, e, name)
    ensures FilesOk(e)
  {
    forall id ensures EntryOk(e, id) {
      assert EntryOk(f, id);
      if id == name { ShrunkIsOk(f, e, name); } else { UntouchedIsOk(f, e, id); }
    }
  }

  /** A directory beside the application that no update records. */
  ghost predicate Leaked(f: Files, id: Id) { id in f.neighbours && RecordedAdjacent(f, id).None? }

  /** One write of a cleanup: sound, and nothing of an update without a journal has changed. */
  ghost predicate CleansJournalled(f: Files, e: Files) {
    && FilesOk(e) && e.target == f.target && e.journals.Keys <= f.journals.Keys
    && (forall id | id !in f.journals :: Untouched(f, e, id))
    && (forall id | Leaked(f, id) :: Leaked(e, id))
    && (forall id :: SameNeighbour(f, e, id))
  }

  lemma CleansOneJournalled(f: Files, e: Files, name: Id)
    requires FilesOk(f) && name in f.journals && CleansOnly(f, e, name)
    ensures CleansJournalled(f, e)
  {
    CleansKeeps(f, e, name);
    forall id | id in e.journals ensures id in f.journals {
      if id != name { assert Untouched(f, e, id); }
    }
    forall id | Leaked(f, id) ensures Leaked(e, id) {
      if id != name { assert Untouched(f, e, id); }
    }
    forall id ensures SameNeighbour(f, e, id) {
      if id != name { assert Untouched(f, e, id); }
    }
  }

  lemma CleansJournalledTwice(f: Files, e: Files, g: Files)
    requires CleansJournalled(f, e) && CleansJournalled(e, g)
    ensures CleansJournalled(f, g)
  {
    forall id | id !in f.journals ensures Untouched(f, g, id) { UntouchedTwice(f, e, g, id); }
    forall id ensures SameNeighbour(f, g, id) {
      assert SameNeighbour(f, e, id) && SameNeighbour(e, g, id);
    }
  }

  lemma OneWriteCleans(f: Files, name: Id, e: Files)
    requires FilesOk(f) && name in f.journals && e in FinishCleanup(f, name, f.journals[name]).writes
    ensures CleansJournalled(f, e)
  {
    assert EntryOk(f, name);
    FinishCleans(f, name, f.journals[name]);
    CleansOneJournalled(f, e, name);
  }

  lemma {:induction false} ResumeKeeps(f: Files, listing: seq<Id>)
    requires FilesOk(f) && Lists(listing, f)
    ensures forall e | e in Resume(f, listing).writes :: CleansJournalled(f, e)
    decreases |listing|
  {
    if listing != [] {
      var name := listing[0];
      OkIsOwned(f);
      var one := FinishCleanup(f, name, f.journals[name]);
      FinishCleanupWorks(f, name);
      var e := End(f, one.writes);
      EndIsOneOf(f, one.writes);
      assert Lists(listing[1..], e) by {
        forall id ensures id in listing[1..] <==> id in e.journals {
          assert listing == [name] + listing[1..];
        }
      }
      assert one.writes != [] by { FinishIsNotEmpty(f, name, f.journals[name]); }
      hide FinishCleanup, CleansJournalled, Lists;
      forall g | g in one.writes ensures CleansJournalled(f, g) { OneWriteCleans(f, name, g); }
      OkAfterCleaning(f, e);
      ResumeKeeps(e, listing[1..]);
      forall g | g in Resume(e, listing[1..]).writes ensures CleansJournalled(f, g) { CleansJournalledTwice(f, e, g); }
      EndOfAppend(f, one.writes, Resume(e, listing[1..]).writes);
    }
  }

  lemma OkAfterCleaning(f: Files, e: Files)
    requires CleansJournalled(f, e)
    ensures FilesOk(e)
  {
  }

  lemma FinishIsNotEmpty(f: Files, name: Id, owner: Owner)
    requires FinishCleanup(f, name, owner).done
    ensures FinishCleanup(f, name, owner).writes != []
  {
  }

  // ---- Removing and installing -----------------------------------------------

  /** One write for a single update: it stays sound, and nothing else is touched. */
  ghost predicate Concerns(f: Files, e: Files, id: Id) {
    EntryOk(e, id) && forall other | other != id :: Untouched(f, e, other)
  }

  lemma ConcernsTwice(f: Files, e: Files, g: Files, id: Id)
    requires Concerns(f, e, id) && Concerns(e, g, id)
    ensures Concerns(f, g, id)
  {
    forall other | other != id ensures Untouched(f, g, other) { UntouchedTwice(f, e, g, other); }
  }

  lemma ConcernsKeeps(f: Files, e: Files, id: Id)
    requires FilesOk(f) && Concerns(f, e, id) && e.target.Whole?
    ensures FilesOk(e)
  {
    forall other ensures EntryOk(e, other) {
      assert EntryOk(f, other);
      if other != id { UntouchedIsOk(f, e, other); }
    }
  }

  lemma DropNeighbourConcerns(f: Files, id: Id)
    requires EntryOk(f, id) && id in f.neighbours
    ensures forall e | e in DropNeighbour(f, id).writes :: Concerns(f, e, id) && e.target == f.target
    ensures var e := End(f, DropNeighbour(f, id).writes); Concerns(f, e, id) && e.target == f.target && id !in e.neighbours
  {
  }

  lemma ForgetConcerns(f: Files, id: Id)
    requires EntryOk(f, id)
    ensures forall e | e in Forget(f, id).writes :: Concerns(f, e, id) && e.target == f.target
    ensures var e := End(f, Forget(f, id).writes); Concerns(f, e, id) && e.target == f.target
  {
  }

  /** Dropping the copy and the record of it. */
  lemma UndoConcerns(f: Files, id: Id)
    requires EntryOk(f, id)
    ensures Undo(f, id).done
    ensures forall e | e in Undo(f, id).writes :: Concerns(f, e, id) && e.target == f.target
    ensures var e := End(f, Undo(f, id).writes); Concerns(f, e, id) && e.target == f.target
  {
    var dropped := if id in f.neighbours then DropNeighbour(f, id) else Nothing;
    if id in f.neighbours { DropNeighbourConcerns(f, id); }
    var e := End(f, dropped.writes);
    assert Concerns(f, e, id) && dropped.done;
    ForgetConcerns(e, id);
    var forgot := Forget(e, id);
    assert forgot.done;
    hide DropNeighbour, Forget, Concerns;
    EndOfAppend(f, dropped.writes, forgot.writes);
    forall g | g in forgot.writes ensures Concerns(f, g, id) { ConcernsTwice(f, e, g, id); }
    ConcernsTwice(f, e, End(e, forgot.writes), id);
  }

  lemma SelfConcerns(f: Files, id: Id)
    requires EntryOk(f, id)
    ensures Concerns(f, f, id)
  {
  }

  lemma CleanAdjacentConcerns(f: Files, id: Id)
    requires EntryOk(f, id)
    ensures CleanAdjacent(f, id).done
    ensures forall e | e in CleanAdjacent(f, id).writes :: Concerns(f, e, id) && e.target == f.target
    ensures var e := End(f, CleanAdjacent(f, id).writes); Concerns(f, e, id) && e.target == f.target
  {
    SelfConcerns(f, id);
    if RecordedAdjacent(f, id).Some? {
      UndoConcerns(f, id);
      assert CleanAdjacent(f, id) == Undo(f, id);
    }
  }

  lemma JournalConcerns(f: Files, id: Id)
    requires EntryOk(f, id) && id in f.dirs && id !in f.journals && !HasCredentials(f, id) && RecordedAdjacent(f, id).None?
    ensures forall e | e in Journal(f, id).writes :: Concerns(f, e, id) && e.target == f.target
  {
    var owner := Owner(id, f.dirs[id].inode);
    var written := f.(journals := f.journals[id := owner]);
    assert EntryOk(written, id);
    assert Concerns(f, written, id);
    FinishConcerns(written, id, owner);
    var finish := FinishCleanup(written, id, owner);
    hide FinishCleanup, Concerns;
    EndOfAppend(f, [written], finish.writes);
    forall e | e in finish.writes ensures Concerns(f, e, id) { ConcernsTwice(f, written, e, id); }
  }

  lemma FinishConcerns(f: Files, id: Id, owner: Owner)
    requires EntryOk(f, id) && owner.id == id && (id in f.dirs ==> f.dirs[id].inode == owner.inode)
    ensures forall e | e in FinishCleanup(f, id, owner).writes :: Concerns(f, e, id) && e.target == f.target
  {
    FinishCleans(f, id, owner);
    hide FinishCleanup;
    forall e | e in FinishCleanup(f, id, owner).writes ensures Concerns(f, e, id) { ShrunkIsOk(f, e, id); }
  }

  lemma RemoveConcerns(f: Files, id: Id)
    requires EntryOk(f, id)
    ensures forall e | e in Remove(f, id).writes :: Concerns(f, e, id) && e.target == f.target
  {
    if HasCredentials(f, id) {
    } else if id in f.journals {
      FinishConcerns(f, id, f.journals[id]);
    } else if id in f.dirs {
      SelfConcerns(f, id);
      CleanAdjacentConcerns(f, id);
      AdjacentKeepsDirectory(f, id);
      var cleaned := if f.dirs[id].Directory? && f.dirs[id].handoff.Some? then CleanAdjacent(f, id) else Nothing;
      var e := End(f, cleaned.writes);
      assert Concerns(f, e, id);
      hide CleanAdjacent, Concerns, EntryOk, Journal;
      EntryAfter(f, e, id);
      JournalConcerns(e, id);
      EndOfAppend(f, cleaned.writes, Journal(e, id).writes);
      forall g | g in Journal(e, id).writes ensures Concerns(f, g, id) { ConcernsTwice(f, e, g, id); }
    }
  }

  lemma EntryAfter(f: Files, e: Files, id: Id)
    requires Concerns(f, e, id)
    ensures EntryOk(e, id)
  {
  }

  lemma AdjacentKeepsDirectory(f: Files, id: Id)
    requires EntryOk(f, id)
    ensures var e := End(f, CleanAdjacent(f, id).writes);
            && (id in e.dirs <==> id in f.dirs) && e.journals == f.journals && (HasCredentials(e, id) <==> HasCredentials(f, id))
            && (IsDirectory(f, id) ==> IsDirectory(e, id) && e.dirs[id] == f.dirs[id].(adjacent := None))
  {
    if RecordedAdjacent(f, id).Some? {
      var dropped := if id in f.neighbours then DropNeighbour(f, id) else Nothing;
      EndOfAppend(f, dropped.writes, Forget(End(f, dropped.writes), id).writes);
    }
  }

  // ---- Installing ------------------------------------------------------------

  lemma StageConcerns(f: Files, id: Id, copied: Tree)
    requires EntryOk(f, id) && HasHandoff(f, id) && id !in f.journals && f.dirs[id].adjacent.None? && id !in f.neighbours
    ensures forall e | e in Stage(f, id, copied) :: Concerns(f, e, id) && e.target == f.target
  {
  }

  lemma ExchangeConcerns(f: Files, id: Id)
    requires EntryOk(f, id) && id in f.neighbours && f.neighbours[id].app.Some?
    ensures Concerns(f, Exchange(f, id), id)
  {
  }

  /** A write of an installation; a new target means that the old one lies beside it, on record. */
  ghost predicate InstallWrite(f: Files, e: Files, id: Id) {
    && Concerns(f, e, id) && e.target.Whole?
    && (e.target == f.target || Swapped(f, e, id))
  }

  ghost predicate Swapped(f: Files, e: Files, id: Id) {
    && HasHandoff(f, id) && IsDirectory(e, id) && f.target == Whole(f.dirs[id].handoff.value.before)
    && e.target == Whole(f.dirs[id].handoff.value.release)
    && e.dirs[id].handoff == f.dirs[id].handoff && e.dirs[id].credentials == f.dirs[id].credentials
    && Retained(e, id) == Some(f.target)
  }

  lemma FreshWrites(f: Files, id: Id, copied: Tree)
    requires EntryOk(f, id) && HasHandoff(f, id) && id !in f.journals && f.dirs[id].adjacent.None?
    requires f.target == Whole(f.dirs[id].handoff.value.before)
    ensures var handoff := f.dirs[id].handoff.value;
            forall e | e in InstallFresh(f, id, handoff.before, handoff.release, copied).writes :: InstallWrite(f, e, id)
  {
    var handoff := f.dirs[id].handoff.value;
    if id !in f.neighbours {
      var staged := Stage(f, id, copied);
      StageConcerns(f, id, copied);
      var ready := staged[3];
      assert ready in staged && EntryOk(ready, id);
      if copied == Whole(handoff.release) {
        var swapped := Exchange(ready, id);
        ExchangeConcerns(ready, id);
        ConcernsTwice(f, ready, swapped, id);
        assert Swapped(f, swapped, id);
      } else {
        UndoConcerns(ready, id);
        hide Undo, Stage;
        EndOfAppend(f, staged, Undo(ready, id).writes);
        forall g | g in Undo(ready, id).writes ensures InstallWrite(f, g, id) { ConcernsTwice(f, ready, g, id); }
      }
    }
  }

  lemma InstallWritesAreSound(f: Files, id: Id, candidate: Tree, copied: Tree)
    requires EntryOk(f, id) && HasHandoff(f, id) && id !in f.journals && f.target.Whole?
    ensures var handoff := f.dirs[id].handoff.value;
            forall e | e in Install(f, id, handoff.before, handoff.release, candidate, copied).writes :: InstallWrite(f, e, id)
  {
    var handoff := f.dirs[id].handoff.value;
    if f.target == Whole(handoff.before) && candidate == Whole(handoff.release) {
      var cleaned := CleanAdjacent(f, id);
      var e := End(f, cleaned.writes);
      CleanAdjacentConcerns(f, id);
      AdjacentKeepsDirectory(f, id);
      assert HasHandoff(e, id) && e.dirs[id].handoff == f.dirs[id].handoff && e.dirs[id].credentials == f.dirs[id].credentials;
      EntryAfter(f, e, id);
      FreshWrites(e, id, copied);
      var made := InstallFresh(e, id, handoff.before, handoff.release, copied);
      hide CleanAdjacent, InstallFresh, Concerns, EntryOk, Retained;
      EndOfAppend(f, cleaned.writes, made.writes);
      forall g | g in made.writes ensures InstallWrite(f, g, id) { ConcernsTwice(f, e, g, id); }
    }
  }

  // ---- One step --------------------------------------------------------------

  /** What every single write of an operation keeps. */
  ghost predicate WriteKeeps(f: Files, operation: Operation, e: Files) {
    && FilesOk(e) && Newer(f, e)
    && (forall id | Held(f, id) && operation != ClearCredentials(id) :: Held(e, id))
    && (e.target != f.target ==> operation.InstallUpdate? && (HasCredentials(f, operation.id) ==> Held(e, operation.id)))
  }

  lemma SingleUpdateKeeps(f: Files, operation: Operation, e: Files, id: Id)
    requires FilesOk(f) && Concerns(f, e, id) && e.target == f.target
    requires Held(f, id) && operation != ClearCredentials(id) ==> Held(e, id)
    ensures WriteKeeps(f, operation, e)
  {
    ConcernsKeeps(f, e, id);
    forall other | Held(f, other) && operation != ClearCredentials(other) ensures Held(e, other) {
      if other != id { UntouchedIsHeld(f, e, other); }
    }
  }

  lemma InstallKeeps(f: Files, operation: Operation, e: Files)
    requires FilesOk(f) && operation.InstallUpdate? && Enabled(f, operation) && e in CourseOf(f, operation).writes
    ensures WriteKeeps(f, operation, e)
  {
    var id := operation.id;
    assert EntryOk(f, id);
    InstallWritesAreSound(f, id, operation.candidate, operation.copied);
    assert InstallWrite(f, e, id);
    if Held(f, id) { HeldBlocksInstall(f, operation); }
    hide Install, Retained;
    ConcernsKeeps(f, e, id);
    forall other | Held(f, other) ensures Held(e, other) {
      if other != id { UntouchedIsHeld(f, e, other); }
    }
  }

  /** An exchanged update cannot be installed once more: its old version is not the installed one. */
  lemma HeldBlocksInstall(f: Files, operation: Operation)
    requires operation.InstallUpdate? && Enabled(f, operation) && Held(f, operation.id)
    ensures CourseOf(f, operation) == Failure
  {
  }

  lemma RemoveKeeps(f: Files, id: Id, e: Files)
    requires FilesOk(f) && e in Remove(f, id).writes
    ensures WriteKeeps(f, RemoveUpdate(id), e)
  {
    assert EntryOk(f, id);
    RemoveConcerns(f, id);
    assert !HasCredentials(f, id);
    hide Remove;
    SingleUpdateKeeps(f, RemoveUpdate(id), e, id);
  }

  lemma ResumeKeepsHeld(f: Files, listing: seq<Id>, e: Files)
    requires FilesOk(f) && Lists(listing, f) && e in Resume(f, listing).writes
    ensures WriteKeeps(f, ResumeCleanup(listing), e)
  {
    ResumeKeeps(f, listing);
    hide Resume;
    assert CleansJournalled(f, e);
    forall id | Held(f, id) ensures Held(e, id) {
      assert EntryOk(f, id);
      assert id !in f.journals;
      UntouchedIsHeld(f, e, id);
    }
  }

  lemma CreateKeeps(f: Files, id: Id, e: Files)
    requires FilesOk(f) && Enabled(f, Create(id)) && e in CourseOf(f, Create(id)).writes
    ensures WriteKeeps(f, Create(id), e)
  {
    SingleUpdateKeeps(f, Create(id), e, id);
  }

  lemma HandoffKeeps(f: Files, operation: Operation, e: Files)
    requires FilesOk(f) && operation.WriteHandoff? && Enabled(f, operation) && e in CourseOf(f, operation).writes
    ensures WriteKeeps(f, operation, e)
  {
    assert EntryOk(f, operation.id);
    SingleUpdateKeeps(f, operation, e, operation.id);
  }

  lemma CredentialsKeep(f: Files, operation: Operation, e: Files)
    requires FilesOk(f) && (operation.PrepareCredentials? || operation.ClearCredentials?)
    requires Enabled(f, operation) && e in CourseOf(f, operation).writes
    ensures WriteKeeps(f, operation, e)
  {
    var id := operation.id;
    assert EntryOk(f, id);
    var written := WithCredentials(f, id, operation.PrepareCredentials?);
    assert EntryOk(written, id);
    PointerMayMove(f, written, e, operation);
  }

  /** `pending.json` is written over whatever it named. */
  lemma PointerMayMove(f: Files, written: Files, e: Files, operation: Operation)
    requires FilesOk(f) && (operation.PrepareCredentials? || operation.ClearCredentials? || operation.Announce?)
    requires EntryOk(written, operation.id) && written == f.(dirs := written.dirs) && e == written.(pending := e.pending)
    requires forall other | other != operation.id :: SameDirectory(f, written, other)
    requires Held(f, operation.id) && !operation.ClearCredentials? ==> Held(written, operation.id)
    ensures WriteKeeps(f, operation, e)
  {
    forall other ensures EntryOk(e, other) {
      assert EntryOk(f, other);
      if other != operation.id { assert SameDirectory(f, written, other); }
    }
    forall other | Held(f, other) && operation != ClearCredentials(other) ensures Held(e, other) {
      if other != operation.id { assert SameDirectory(f, written, other); }
    }
  }

  lemma AnnounceKeeps(f: Files, id: Id, e: Files)
    requires FilesOk(f) && Enabled(f, Announce(id)) && e in CourseOf(f, Announce(id)).writes
    ensures WriteKeeps(f, Announce(id), e)
  {
    assert EntryOk(f, id);
    PointerMayMove(f, f, e, Announce(id));
  }

  lemma EveryWriteKeeps(f: Files, operation: Operation, e: Files)
    requires FilesOk(f) && Enabled(f, operation) && e in CourseOf(f, operation).writes
    ensures WriteKeeps(f, operation, e)
  {
    hide FilesOk, WriteKeeps, Install, Remove, Resume;
    match operation
    case Create(id) => CreateKeeps(f, id, e);
    case WriteHandoff(_, _) => HandoffKeeps(f, operation, e);
    case PrepareCredentials(_) => CredentialsKeep(f, operation, e);
    case ClearCredentials(_) => CredentialsKeep(f, operation, e);
    case Announce(id) => AnnounceKeeps(f, id, e);
    case InstallUpdate(_, _, _) => InstallKeeps(f, operation, e);
    case RemoveUpdate(id) => RemoveKeeps(f, id, e);
    case ResumeCleanup(listing) => ResumeKeepsHeld(f, listing, e);
  }

  lemma NothingWrittenKeeps(f: Files, operation: Operation)
    requires FilesOk(f)
    ensures WriteKeeps(f, operation, f)
  {
  }

  lemma StepKeeps(w: World, step: Step)
    requires Inv(w)
    ensures Inv(Perform(w, step))
  {
    if Enabled(w.files, step.operation) {
      var course := CourseOf(w.files, step.operation);
      var e := FilesAfter(w.files, step);
      AfterIsOneOf(w.files, course.writes, step.writes);
      hide CourseOf, Enabled, FilesOk, Held;
      NothingWrittenKeeps(w.files, step.operation);
      if e in course.writes { EveryWriteKeeps(w.files, step.operation, e); }
      ExchangedIsHeld(w, step, e);
    }
  }

  lemma ExchangedIsHeld(w: World, step: Step, e: Files)
    requires Inv(w) && Enabled(w.files, step.operation) && e == FilesAfter(w.files, step)
    requires WriteKeeps(w.files, step.operation, e)
    ensures forall id | id in ExchangedAfter(w, step) :: Held(e, id)
  {
    hide FilesAfter, Enabled, FilesOk, Held;
    forall id | id in ExchangedAfter(w, step) ensures Held(e, id) {
      if id in w.exchanged { assert Held(w.files, id); }
    }
  }

  // ---- Every run -------------------------------------------------------------

  lemma EmptyIsFine(version: nat)
    ensures Inv(Empty(version))
  {
  }

  /**
   Over every run, with a crash after any write of any operation of any update: journals own their
   directories, records of copies are true, the installed application is whole, and whatever an update
   replaced lies beside it until that update is settled.
   */
  lemma {:induction false} EveryRunKeepsInv(w: World, steps: seq<Step>)
    requires Inv(w)
    ensures Inv(RunAll(w, steps))
    decreases |steps|
  {
    if steps != [] {
      StepKeeps(w, steps[0]);
      hide Inv, Perform;
      EveryRunKeepsInv(Perform(w, steps[0]), steps[1..]);
    }
  }

  lemma OldApplicationSurvives(version: nat, steps: seq<Step>, id: Id)
    requires id in RunAll(Empty(version), steps).exchanged
    ensures var f := RunAll(Empty(version), steps).files;
            && HasCredentials(f, id) && f.dirs[id].handoff.Some?
            && Retained(f, id) == Some(Whole(f.dirs[id].handoff.value.before))
            && f.target != Whole(f.dirs[id].handoff.value.before)
  {
    EmptyIsFine(version);
    EveryRunKeepsInv(Empty(version), steps);
    assert Held(RunAll(Empty(version), steps).files, id);
  }

  /** Whatever state a run leaves, and wherever cleanup is then interrupted, a second cleanup finishes. */
  lemma ReachableCleanupIsFinished(version: nat, steps: seq<Step>, listing: seq<Id>, n: nat, again: seq<Id>)
    requires Lists(listing, RunAll(Empty(version), steps).files)
    requires var f := RunAll(Empty(version), steps).files; Lists(again, After(f, Resume(f, listing).writes, n))
    ensures var f := RunAll(Empty(version), steps).files;
            var e := After(f, Resume(f, listing).writes, n);
            Resume(e, again).done && End(e, Resume(e, again).writes) == Cleaned(f)
  {
    EmptyIsFine(version);
    EveryRunKeepsInv(Empty(version), steps);
    OkIsOwned(RunAll(Empty(version), steps).files);
    CrashedCleanupIsFinished(RunAll(Empty(version), steps).files, listing, n, again);
  }

  /** Whatever state a run leaves, a settled update can be removed, and nothing but its own files goes. */
  lemma ReachableRemovalWorks(version: nat, steps: seq<Step>, id: Id)
    requires var f := RunAll(Empty(version), steps).files; HasHandoff(f, id) && !HasCredentials(f, id) && id !in f.journals
    ensures var f := RunAll(Empty(version), steps).files;
            && Remove(f, id).done && End(f, Remove(f, id).writes) == Removed(f, id)
            && forall e, other | e in Remove(f, id).writes && other != id :: Untouched(f, e, other)
  {
    EmptyIsFine(version);
    EveryRunKeepsInv(Empty(version), steps);
    var f := RunAll(Empty(version), steps).files;
    OkIsOwned(f);
    assert EntryOk(f, id);
    RemoveWorks(f, id);
    RemoveConcerns(f, id);
  }

  /** No write of any removal, installation or cleanup touches anything of another update. */
  lemma OtherUpdatesUntouched(f: Files, operation: Operation, e: Files, other: Id)
    requires FilesOk(f) && Enabled(f, operation) && e in CourseOf(f, operation).writes
    requires match operation
             case InstallUpdate(id, _, _) => id != other
             case RemoveUpdate(id) => id != other
             case ResumeCleanup(_) => other !in f.journals
             case _ => false
    ensures Untouched(f, e, other)
  {
    hide Install, Remove, Resume;
    match operation
    case InstallUpdate(id, candidate, copied) =>
      assert EntryOk(f, id);
      InstallWritesAreSound(f, id, candidate, copied);
      assert InstallWrite(f, e, id);
    case RemoveUpdate(id) =>
      assert EntryOk(f, id);
      RemoveConcerns(f, id);
    case ResumeCleanup(listing) =>
      ResumeKeeps(f, listing);
      assert CleansJournalled(f, e);
    case _ =>
  }

  // ---- The copy that can be left behind --------------------------------------

  lemma RemoveLeaves(f: Files, id: Id, e: Files)
    requires FilesOk(f) && Leaked(f, id) && e in Remove(f, id).writes
    ensures Leaked(e, id)
  {
    assert EntryOk(f, id);
    assert CleanAdjacent(f, id) == Nothing;
    if id in f.journals {
      FinishCleans(f, id, f.journals[id]);
      hide FinishCleanup;
    } else {
      var owner := Owner(id, f.dirs[id].inode);
      var written := f.(journals := f.journals[id := owner]);
      FinishCleans(written, id, owner);
      hide FinishCleanup;
      EndOfAppend(f, [written], FinishCleanup(written, id, owner).writes);
      EndOfAppend(f, [], Journal(f, id).writes);
    }
  }

  lemma LeakBlocksInstall(f: Files, operation: Operation)
    requires operation.InstallUpdate? && Enabled(f, operation) && Leaked(f, operation.id)
    ensures CourseOf(f, operation) == Failure
  {
  }

  lemma WriteLeaves(f: Files, operation: Operation, e: Files, id: Id)
    requires FilesOk(f) && Enabled(f, operation) && e in CourseOf(f, operation).writes && Leaked(f, id)
    ensures Leaked(e, id)
  {
    hide FilesOk, Remove, Resume, Install;
    match operation
    case InstallUpdate(other, _, _) =>
      if other == id { LeakBlocksInstall(f, operation); }
      OtherUpdatesUntouched(f, operation, e, id);
    case RemoveUpdate(other) =>
      if other == id { RemoveLeaves(f, id, e); } else { OtherUpdatesUntouched(f, operation, e, id); }
    case ResumeCleanup(listing) =>
      ResumeKeeps(f, listing);
      assert CleansJournalled(f, e);
    case _ =>
  }

  lemma StepLeaves(w: World, step: Step, id: Id)
    requires Inv(w) && Leaked(w.files, id)
    ensures Leaked(Perform(w, step).files, id)
  {
    if Enabled(w.files, step.operation) {
      var course := CourseOf(w.files, step.operation);
      AfterIsOneOf(w.files, course.writes, step.writes);
      hide CourseOf, Enabled;
      if FilesAfter(w.files, step) in course.writes { WriteLeaves(w.files, step.operation, FilesAfter(w.files, step), id); }
    }
  }

  /** In every later run the directory stays, and no installation of its update writes anything. */
  lemma {:induction false} LeakStays(w: World, steps: seq<Step>, id: Id, candidate: Tree, copied: Tree)
    requires Inv(w) && Leaked(w.files, id)
    ensures var f := RunAll(w, steps).files;
            && Leaked(f, id)
            && (Enabled(f, InstallUpdate(id, candidate, copied)) ==> CourseOf(f, InstallUpdate(id, candidate, copied)) == Failure)
    decreases |steps|
  {
    if steps == [] {
      if Enabled(w.files, InstallUpdate(id, candidate, copied)) { LeakBlocksInstall(w.files, InstallUpdate(id, candidate, copied)); }
    } else {
      StepKeeps(w, steps[0]);
      StepLeaves(w, steps[0], id);
      hide Inv, Perform, Leaked, Enabled, CourseOf;
      LeakStays(Perform(w, steps[0]), steps[1..], id, candidate, copied);
    }
  }

  // ---- Two histories ---------------------------------------------------------

  /** Update 0 installs version 2 over version 1, up to the writes of its installation. */
  function Prelude(writes: nat): seq<Step> {
    [Step(Create(0), 1), Step(WriteHandoff(0, 2), 1), Step(PrepareCredentials(0), 2),
     Step(InstallUpdate(0, Whole(2), Whole(2)), writes)]
  }

  /** Just before the installation. */
  function Ready(): Files {
    Files(map[0 := Directory(0, true, Some(Handoff(1, 2)), None)], map[], Naming(0), map[], Whole(1), 1)
  }

  lemma RunOfOne(w: World, steps: seq<Step>)
    requires steps != []
    ensures RunAll(w, steps) == RunAll(Perform(w, steps[0]), steps[1..])
  {
  }

  lemma ReadyIsReached()
    ensures RunAll(Empty(1), Prelude(0)[..3]) == World(Ready(), {})
  {
    var w0 := Empty(1);
    var steps := Prelude(0)[..3];
    var w1 := Perform(w0, steps[0]);
    assert w1.files == Files(map[0 := Directory(0, false, None, None)], map[], Absent, map[], Whole(1), 1);
    var w2 := Perform(w1, steps[1]);
    assert w2.files == Files(map[0 := Directory(0, false, Some(Handoff(1, 2)), None)], map[], Absent, map[], Whole(1), 1);
    var w3 := Perform(w2, steps[2]);
    assert w3.files == Ready();
    RunOfOne(w0, steps);
    RunOfOne(w1, steps[1..]);
    RunOfOne(w2, steps[1..][1..]);
    assert steps[1..][1..][1..] == [];
  }

  lemma {:induction false} RunConcat(w: World, a: seq<Step>, b: seq<Step>)
    ensures RunAll(w, a + b) == RunAll(RunAll(w, a), b)
    decreases |a|
  {
    if a == [] {
      assert a + b == b;
    } else {
      assert (a + b)[0] == a[0] && (a + b)[1..] == a[1..] + b;
      hide Perform;
      RunConcat(Perform(w, a[0]), a[1..], b);
    }
  }

  lemma InstallFromReady(writes: nat)
    ensures RunAll(Empty(1), Prelude(writes)) == Perform(World(Ready(), {}), Step(InstallUpdate(0, Whole(2), Whole(2)), writes))
    ensures Enabled(Ready(), InstallUpdate(0, Whole(2), Whole(2)))
    ensures FilesAfter(Ready(), Step(InstallUpdate(0, Whole(2), Whole(2)), writes)) == CrashedInstall(Ready(), 0, 1, 2, writes)
    ensures FirstInstall(Ready(), 0, 1)
  {
    var last := [Step(InstallUpdate(0, Whole(2), Whole(2)), writes)];
    assert Prelude(writes) == Prelude(0)[..3] + last;
    ReadyIsReached();
    hide Perform, Install;
    RunConcat(Empty(1), Prelude(0)[..3], last);
    RunOfOne(World(Ready(), {}), last);
    assert last[1..] == [];
  }

  /** The exchange does happen: this run ends with the new version in place and the old one held. */
  lemma ExchangeIsReached()
    ensures var w := RunAll(Empty(1), Prelude(5)); w.exchanged == {0} && w.files.target == Whole(2)
  {
    InstallFromReady(5);
    InstallIsWrites(Ready(), 0, 1, 2);
    WritesOfInstall(Ready(), 0, 2);
    hide Install;
    var writes := InstallWrites(Ready(), 0, 2);
    assert CrashedInstall(Ready(), 0, 1, 2, 5) == writes[4];
    assert writes[4].target == Whole(2);
  }

  /** A crash right after the directory beside the application was made; the update is then settled and removed. */
  lemma CopyCanBeLeftBehind()
    ensures var f := RunAll(Empty(1), Prelude(1) + [Step(ClearCredentials(0), 1), Step(RemoveUpdate(0), 5)]).files;
            Leaked(f, 0) && 0 !in f.dirs && f.journals.Keys == {} && f.target == Whole(1)
  {
    var rest := [Step(ClearCredentials(0), 1), Step(RemoveUpdate(0), 5)];
    CopyIsMade();
    hide *;
    var w1 := RunAll(Empty(1), Prelude(1));
    ClearAndRemove(w1);
    RunConcat(Empty(1), Prelude(1), rest);
    RunOfTwo(w1, rest);
  }

  lemma CopyIsMade()
    ensures RunAll(Empty(1), Prelude(1)).files == MakeNeighbour(Ready(), 0)
  {
    InstallFromReady(1);
    CrashedInstallStates(Ready(), 0, 1, 2, 1);
    hide Install;
  }

  lemma RunOfTwo(w: World, steps: seq<Step>)
    requires |steps| == 2
    ensures RunAll(w, steps) == Perform(Perform(w, steps[0]), steps[1])
  {
    hide Perform;
    RunOfOne(w, steps);
    RunOfOne(Perform(w, steps[0]), steps[1..]);
    assert steps[1..][1..] == [];
  }

  lemma ClearAndRemove(w: World)
    requires w.files == MakeNeighbour(Ready(), 0)
    ensures var f := Perform(Perform(w, Step(ClearCredentials(0), 1)), Step(RemoveUpdate(0), 5)).files;
            Leaked(f, 0) && 0 !in f.dirs && f.journals.Keys == {} && f.target == Whole(1)
  {
    hide Install, Remove;
    var w2 := Perform(w, Step(ClearCredentials(0), 1));
    assert w2.files == Files(map[0 := Directory(0, false, Some(Handoff(1, 2)), None)], map[], Naming(0), map[0 := Adjacent(1, None)], Whole(1), 2);
    RemoveFromLeak(w2.files);
  }

  lemma RemoveFromLeak(f: Files)
    requires f == Files(map[0 := Directory(0, false, Some(Handoff(1, 2)), None)], map[], Naming(0), map[0 := Adjacent(1, None)], Whole(1), 2)
    ensures |Remove(f, 0).writes| == 5
    ensures var e := End(f, Remove(f, 0).writes);
            Leaked(e, 0) && 0 !in e.dirs && e.journals.Keys == {} && e.target == Whole(1)
  {
    assert CleanAdjacent(f, 0) == Nothing;
    RemoveWorks(f, 0);
  }
}
