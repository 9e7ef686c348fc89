/**
 The files of an application update: its directory, the journal that owns its removal,
 `pending.json`, and the copy of the application beside the installed one.

 Deleting a tree is not atomic: what is left of it is visible in between.
 */
module UpdateFiles {
  import opened Courses
  import opened Options

  type Id = nat
  type Inode = nat

  /** An application of some version, complete as released, or anything else. */
  datatype Tree = Whole(version: nat) | Torn

  /** A directory beside the installed application, named after an update. */
  datatype Adjacent = Adjacent(inode: Inode, app: Option<Tree>)

  /** The version an update starts from and the one it installs, as its `handoff.json` names them. */
  datatype Handoff = Handoff(before: nat, release: nat)

  /** An update's directory; `adjacent` is the inode that its `adjacent.json` records. */
  datatype Directory =
    | Directory(inode: Inode, credentials: bool, handoff: Option<Handoff>, adjacent: Option<Inode>)
    | Remnant(inode: Inode)

  /** The content of a cleanup journal. */
  datatype Owner = Owner(id: Id, inode: Inode)

  datatype PendingFile = Absent | Naming(id: Id) | Unreadable

  datatype Files = Files(dirs: map<Id, Directory>, journals: map<Id, Owner>, pending: PendingFile,
                         neighbours: map<Id, Adjacent>, target: Tree, nextInode: Inode)

  const Nothing: Course<Files> := Course([], true)
  const Failure: Course<Files> := Course([], false)

  // ---- Cleanup ---------------------------------------------------------------

  /** Deletes the journalled directory if it is still the same one. */
  function DropDirectory(f: Files, owner: Owner): Course<Files> {
    if owner.id !in f.dirs then Nothing
    else if f.dirs[owner.id].inode != owner.inode then Failure
    else
      var begun := f.(dirs := f.dirs[owner.id := Remnant(owner.inode)]);
      Course([begun, begun.(dirs := f.dirs - {owner.id})], true)
  }

  function DropPending(f: Files, id: Id): Course<Files> {
    if f.pending == Naming(id) then Course([f.(pending := Absent)], true) else Nothing
  }

  function DropJournal(f: Files, name: Id): Course<Files> {
    Course([f.(journals := f.journals - {name})], true)
  }

  /** Directory, pointer, journal: the journal goes last. */
  function FinishCleanup(f: Files, name: Id, owner: Owner): Course<Files> {
    var first := DropDirectory(f, owner);
    var f1 := End(f, first.writes);
    var second := DropPending(f1, owner.id);
    var f2 := End(f1, second.writes);
    Append(first, Append(second, DropJournal(f2, name)))
  }

  /** Finishes the journals in the order in which the directory lists them. */
  function Resume(f: Files, listing: seq<Id>): Course<Files>
    decreases |listing|
  {
    if listing == [] then Nothing
    else if listing[0] !in f.journals || f.journals[listing[0]].id != listing[0] then Failure
    else
      var one := FinishCleanup(f, listing[0], f.journals[listing[0]]);
      Append(one, Resume(End(f, one.writes), listing[1..]))
  }

  // ---- The copy beside the application ---------------------------------------

  /** Deletes the directory beside the application, the application in it first if there is one. */
  function DropNeighbour(f: Files, id: Id): Course<Files>
    requires id in f.neighbours
  {
    var begun := f.(neighbours := f.neighbours[id := f.neighbours[id].(app := Some(Torn))]);
    var emptied := f.(neighbours := f.neighbours[id := f.neighbours[id].(app := None)]);
    var removed := f.(neighbours := f.neighbours - {id});
    Course(if f.neighbours[id].app.None? then [removed] else [begun, emptied, removed], true)
  }

  function Forget(f: Files, id: Id): Course<Files> {
    if id in f.dirs && f.dirs[id].Directory? && f.dirs[id].adjacent.Some?
    then Course([f.(dirs := f.dirs[id := f.dirs[id].(adjacent := None)])], true)
    else Nothing
  }

  function RecordedAdjacent(f: Files, id: Id): Option<Inode> {
    if id in f.dirs && f.dirs[id].Directory? then f.dirs[id].adjacent else None
  }

  /** Deletes the recorded copy, and only if it is still the recorded one. */
  function CleanAdjacent(f: Files, id: Id): Course<Files> {
    var recorded := RecordedAdjacent(f, id);
    if recorded.None? then Nothing
    else if id in f.neighbours && f.neighbours[id].inode != recorded.value then Failure
    else
      var dropped := if id in f.neighbours then DropNeighbour(f, id) else Nothing;
      Append(dropped, Forget(End(f, dropped.writes), id))
  }

  /** The old application that recovery may still have to run. */
  function Retained(f: Files, id: Id): Option<Tree> {
    var recorded := RecordedAdjacent(f, id);
    if recorded.Some? && id in f.neighbours && f.neighbours[id].inode == recorded.value then f.neighbours[id].app else None
  }

  // ---- Removing an update ----------------------------------------------------

  predicate HasCredentials(f: Files, id: Id) { id in f.dirs && f.dirs[id].Directory? && f.dirs[id].credentials }

  function Journal(f: Files, id: Id): Course<Files>
    requires id in f.dirs
  {
    var owner := Owner(id, f.dirs[id].inode);
    var written := f.(journals := f.journals[id := owner]);
    Append(Course([written], true), FinishCleanup(written, id, owner))
  }

  /** Needs the credentials to be gone; the journal is written before anything of the directory goes. */
  function Remove(f: Files, id: Id): Course<Files> {
    if HasCredentials(f, id) then Failure
    else if id in f.journals then
      if f.journals[id].id != id then Failure else FinishCleanup(f, id, f.journals[id])
    else if id !in f.dirs then Failure
    else
      var cleaned := if f.dirs[id].Directory? && f.dirs[id].handoff.Some? then CleanAdjacent(f, id) else Nothing;
      var e := End(f, cleaned.writes);
      Append(cleaned, if id in e.dirs then Journal(e, id) else Failure)
  }

  // ---- Installing ------------------------------------------------------------

  function MakeNeighbour(f: Files, id: Id): Files {
    f.(neighbours := f.neighbours[id := Adjacent(f.nextInode, None)], nextInode := f.nextInode + 1)
  }

  function Undo(f: Files, id: Id): Course<Files> {
    var dropped := if id in f.neighbours then DropNeighbour(f, id) else Nothing;
    Append(dropped, Forget(End(f, dropped.writes), id))
  }

  /** Writes until just before the exchange; `copied` is what the copy turned out to be. */
  function Stage(f: Files, id: Id, copied: Tree): seq<Files>
    requires id in f.dirs && f.dirs[id].Directory?
  {
    var made := MakeNeighbour(f, id);
    var recorded := made.(dirs := f.dirs[id := f.dirs[id].(adjacent := Some(f.nextInode))]);
    var begun := recorded.(neighbours := made.neighbours[id := Adjacent(f.nextInode, Some(Torn))]);
    var whole := recorded.(neighbours := made.neighbours[id := Adjacent(f.nextInode, Some(copied))]);
    [made, recorded, begun, whole]
  }

  function Exchange(f: Files, id: Id): Files
    requires id in f.neighbours && f.neighbours[id].app.Some?
  {
    f.(target := f.neighbours[id].app.value, neighbours := f.neighbours[id := f.neighbours[id].(app := Some(f.target))])
  }

  /** The exchange happens only after the copy and the target were checked; otherwise the copy is undone. */
  function InstallFresh(f: Files, id: Id, before: nat, release: nat, copied: Tree): Course<Files>
    requires id in f.dirs && f.dirs[id].Directory?
  {
    if id in f.neighbours then Failure
    else
      var staged := Stage(f, id, copied);
      var ready := staged[3];
      if copied == Whole(release) && f.target == Whole(before) then Course(staged + [Exchange(ready, id)], true)
      else Course(staged + Undo(ready, id).writes, false)
  }

  function Install(f: Files, id: Id, before: nat, release: nat, candidate: Tree, copied: Tree): Course<Files> {
    if f.target != Whole(before) || candidate != Whole(release) || id !in f.dirs || !f.dirs[id].Directory? then Failure
    else
      var cleaned := CleanAdjacent(f, id);
      var e := End(f, cleaned.writes);
      Append(cleaned, if id in e.dirs && e.dirs[id].Directory? then InstallFresh(e, id, before, release, copied) else Failure)
  }
}
