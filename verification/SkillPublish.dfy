/**
 The directory of a skill: writing its files on a volume that may ignore case, and
 checking a directory that was there before.

 `volume` is the folding by which the volume tells the components of names apart. What is
 on it is kept by folded paths, together with the spelling that each component got when
 it was made: the volume compares without case, and lists names as they were made.
 */
module SkillPublish {
  import opened Archive

  datatype Named = Named(path: Path, content: string)

  datatype Node = Folder | Text(content: string) | Symlink | Other

  type Disk = map<Path, Node>

  /** The last component of each path, as it was spelled first. */
  type Names = map<Path, string>

  function Folded(files: seq<Named>, volume: string -> string): (folded: seq<Named>)
    ensures |folded| == |files|
    ensures forall i | 0 <= i < |files| :: folded[i] == Named(FoldPath(volume, files[i].path), files[i].content)
  {
    seq(|files|, i requires 0 <= i < |files| => Named(FoldPath(volume, files[i].path), files[i].content))
  }

  ghost predicate HavePaths(files: seq<Named>) { forall i | 0 <= i < |files| :: files[i].path != [] }

  /** No name is another one, or a directory of another one. */
  ghost predicate NoClash(files: seq<Named>) {
    forall i, j | 0 <= i < |files| && 0 <= j < |files| && i != j :: !(files[i].path <= files[j].path)
  }

  predicate AtOrBelow(file: Named, q: Path, node: Node) {
    if node.Folder? then q < file.path else file.path == q && node == Text(file.content)
  }

  /** Some file explains the node at `q`. */
  ghost predicate Holds(files: seq<Named>, q: Path, node: Node) {
    exists i :: 0 <= i < |files| && AtOrBelow(files[i], q, node)
  }

  ghost predicate FilesThere(disk: Disk, files: seq<Named>) {
    forall i | 0 <= i < |files| :: files[i].path in disk && disk[files[i].path] == Text(files[i].content)
  }

  ghost predicate FoldersThere(disk: Disk, files: seq<Named>) {
    forall i, q: Path | 0 <= i < |files| && q < files[i].path && q != [] :: q in disk && disk[q].Folder?
  }

  ghost predicate NothingElse(disk: Disk, files: seq<Named>) {
    forall q | q in disk :: q != [] && Holds(files, q, disk[q])
  }

  /** The directory holds the files and their directories, and nothing else. */
  ghost predicate IsPublished(disk: Disk, files: seq<Named>) {
    FilesThere(disk, files) && FoldersThere(disk, files) && NothingElse(disk, files)
  }

  // ---- Writing ---------------------------------------------------------------

  ghost predicate OpenAbove(disk: Disk, path: Path, depth: nat) {
    forall q: Path | q < path && q != [] && |q| < depth :: q in disk ==> disk[q].Folder?
  }

  ghost predicate FoldersAdded(disk: Disk, next: Disk, path: Path, depth: nat) {
    && (forall q | q in disk :: q in next && next[q] == disk[q])
    && (forall q | q in next :: q in disk || (next[q].Folder? && q < path && q != []))
    && (forall q: Path | q < path && q != [] && |q| < depth :: q in next && next[q].Folder?)
  }

  /** What is new lies above the file, and is spelled as the file spells it. */
  ghost predicate NamesAdded(names: Names, named: Names, path: Path, raw: Path)
    requires |raw| == |path|
  {
    && (forall q | q in names :: q in named && named[q] == names[q])
    && (forall q | q in named :: q in names || (q < path && q != [] && named[q] == raw[|q| - 1]))
  }

  /** The directories above a file; one that is there already is kept, a file in its place is an error. */
  method MakeFolders(disk: Disk, names: Names, path: Path, raw: Path) returns (ok: bool, next: Disk, named: Names)
    requires path != [] && |raw| == |path| && names.Keys == disk.Keys
    ensures ok <==> OpenAbove(disk, path, |path|)
    ensures ok ==> FoldersAdded(disk, next, path, |path|)
    ensures NamesAdded(names, named, path, raw) && named.Keys == next.Keys
  {
    next, named := disk, names;
    for k := 1 to |path|
      invariant OpenAbove(disk, path, k) && FoldersAdded(disk, next, path, k)
      invariant NamesAdded(names, named, path, raw) && named.Keys == next.Keys
    {
      var above := path[..k];
      assert above < path;
      if above in disk && disk[above] != Folder {
        return false, next, named;
      }
      if above !in next {
        named := named[above := raw[k - 1]];
      }
      next := next[above := Folder];
      assert forall q: Path | q < path && |q| == k :: q == above;
    }
    return true, next, named;
  }

  lemma PrefixOrSame(a: Path, b: Path)
    ensures a <= b <==> a < b || a == b
  {
  }

  lemma FreeFromOne(disk: Disk, files: seq<Named>, name: Named, i: nat)
    requires FilesThere(disk, files) && FoldersThere(disk, files) && HavePaths(files) && name.path != [] && i < |files|
    requires OpenAbove(disk, name.path, |name.path|) && name.path !in disk
    ensures !(files[i].path <= name.path) && !(name.path <= files[i].path)
  {
    var path := files[i].path;
    PrefixOrSame(path, name.path);
    PrefixOrSame(name.path, path);
    assert path in disk && disk[path].Text?;
  }

  lemma FreeHasNoClash(files: seq<Named>, name: Named)
    requires NoClash(files)
    requires forall i | 0 <= i < |files| :: !(files[i].path <= name.path) && !(name.path <= files[i].path)
    ensures NoClash(files + [name])
  {
  }

  lemma NewNameIsFree(disk: Disk, files: seq<Named>, name: Named)
    requires IsPublished(disk, files) && HavePaths(files) && NoClash(files) && name.path != []
    ensures NoClash(files + [name]) <==> OpenAbove(disk, name.path, |name.path|) && name.path !in disk
  {
    if OpenAbove(disk, name.path, |name.path|) && name.path !in disk {
      forall i | 0 <= i < |files| ensures !(files[i].path <= name.path) && !(name.path <= files[i].path) {
        FreeFromOne(disk, files, name, i);
      }
      hide *;
      FreeHasNoClash(files, name);
    } else {
      hide *;
      NamesTouch(disk, files, name);
    }
  }

  lemma NamesTouch(disk: Disk, files: seq<Named>, name: Named)
    requires IsPublished(disk, files) && name.path != []
    requires !OpenAbove(disk, name.path, |name.path|) || name.path in disk
    ensures !NoClash(files + [name])
  {
    var all := files + [name];
    var n := |files|;
    assert all[n] == name && forall i | 0 <= i < n :: all[i] == files[i];
    if name.path in disk {
      assert Holds(files, name.path, disk[name.path]);
      var i :| 0 <= i < n && name.path <= files[i].path;
      assert all[n].path <= all[i].path;
    } else {
      var q: Path :| q < name.path && q != [] && q in disk && !disk[q].Folder?;
      assert Holds(files, q, disk[q]);
      var i :| 0 <= i < n && files[i].path == q;
      assert all[i].path <= all[n].path;
    }
  }

  lemma FoldersMore(disk: Disk, next: Disk, files: seq<Named>, name: Named)
    requires FoldersThere(disk, files) && name.path !in disk
    requires FoldersAdded(disk, next, name.path, |name.path|)
    ensures FoldersThere(next[name.path := Text(name.content)], files + [name])
  {
    var all, done := files + [name], next[name.path := Text(name.content)];
    forall i, q: Path | 0 <= i < |all| && q < all[i].path && q != [] ensures q in done && done[q].Folder? {
      if i < |files| { assert q in disk && disk[q].Folder?; }
    }
  }

  lemma NothingElseMore(disk: Disk, next: Disk, files: seq<Named>, name: Named)
    requires NothingElse(disk, files) && name.path != []
    requires FoldersAdded(disk, next, name.path, |name.path|)
    ensures NothingElse(next[name.path := Text(name.content)], files + [name])
  {
    var all, done := files + [name], next[name.path := Text(name.content)];
    var n := |files|;
    assert all[n] == name && forall i | 0 <= i < n :: all[i] == files[i];
    forall q | q in done ensures q != [] && Holds(all, q, done[q]) {
      if q == name.path || q !in disk {
        assert AtOrBelow(all[n], q, done[q]);
      } else {
        assert Holds(files, q, disk[q]);
        var i :| 0 <= i < n && AtOrBelow(files[i], q, disk[q]);
        assert AtOrBelow(all[i], q, done[q]);
      }
    }
  }

  lemma PublishedMore(disk: Disk, next: Disk, files: seq<Named>, name: Named)
    requires IsPublished(disk, files) && name.path != [] && name.path !in disk
    requires FoldersAdded(disk, next, name.path, |name.path|)
    ensures IsPublished(next[name.path := Text(name.content)], files + [name])
  {
    FoldersMore(disk, next, files, name);
    NothingElseMore(disk, next, files, name);
    hide FoldersThere, NothingElse;
  }

  lemma PrefixClashes(files: seq<Named>, n: nat)
    requires n <= |files| && !NoClash(files[..n])
    ensures !NoClash(files)
  {
    var i, j :| 0 <= i < n && 0 <= j < n && i != j && files[..n][i].path <= files[..n][j].path;
    assert files[i].path <= files[j].path;
  }

  /** The files up to `n` are written. */
  ghost predicate Written(disk: Disk, all: seq<Named>, n: nat)
    requires n <= |all|
  {
    NoClash(all[..n]) && IsPublished(disk, all[..n])
  }

  lemma WrittenMore(disk: Disk, next: Disk, all: seq<Named>, n: nat)
    requires n < |all| && HavePaths(all) && Written(disk, all, n)
    requires OpenAbove(disk, all[n].path, |all[n].path|) && FoldersAdded(disk, next, all[n].path, |all[n].path|)
    requires all[n].path !in disk
    ensures Written(next[all[n].path := Text(all[n].content)], all, n + 1)
  {
    hide OpenAbove, FoldersAdded, NoClash, IsPublished;
    assert all[..n + 1] == all[..n] + [all[n]];
    FirstsHavePaths(all, n);
    NewNameIsFree(disk, all[..n], all[n]);
    PublishedMore(disk, next, all[..n], all[n]);
  }

  lemma FirstsHavePaths(all: seq<Named>, n: nat)
    requires n < |all| && HavePaths(all)
    ensures HavePaths(all[..n]) && all[n].path != []
  {
  }

  lemma WritingFails(disk: Disk, all: seq<Named>, n: nat)
    requires n < |all| && HavePaths(all) && Written(disk, all, n)
    requires !OpenAbove(disk, all[n].path, |all[n].path|) || all[n].path in disk
    ensures !NoClash(all)
  {
    hide OpenAbove, NoClash, IsPublished;
    assert all[..n + 1] == all[..n] + [all[n]];
    FirstsHavePaths(all, n);
    NewNameIsFree(disk, all[..n], all[n]);
    PrefixClashes(all, n + 1);
  }

  lemma NothingWritten(all: seq<Named>)
    ensures Written(map[], all, 0)
  {
  }

  /** Folders are made above a file only. */
  lemma FoldersAreAbove(disk: Disk, next: Disk, path: Path)
    requires FoldersAdded(disk, next, path, |path|)
    ensures path in next <==> path in disk
  {
  }

  /** Some file spells the path so. */
  ghost predicate SpelledBy(q: Path, name: string, files: seq<Named>, volume: string -> string) {
    exists i :: 0 <= i < |files| && q != [] && q <= FoldPath(volume, files[i].path) && name == files[i].path[|q| - 1]
  }

  /** Everything on the volume has its spelling from a file. */
  ghost predicate Spelled(disk: Disk, names: Names, files: seq<Named>, volume: string -> string) {
    names.Keys == disk.Keys && forall q | q in names :: SpelledBy(q, names[q], files, volume)
  }

  lemma SpelledMore(disk: Disk, names: Names, next: Disk, named: Names, files: seq<Named>, n: nat, volume: string -> string)
    requires n < |files| && files[n].path != [] && Spelled(disk, names, files, volume)
    requires NamesAdded(names, named, FoldPath(volume, files[n].path), files[n].path) && named.Keys == next.Keys
    ensures var path := FoldPath(volume, files[n].path);
            path !in next ==> Spelled(next[path := Text(files[n].content)],
                                      named[path := files[n].path[|path| - 1]], files, volume)
  {
    var path := FoldPath(volume, files[n].path);
    var all := named[path := files[n].path[|path| - 1]];
    forall q | q in all ensures SpelledBy(q, all[q], files, volume) {
      if q == path || q !in names {
        assert q != [] && q <= path && all[q] == files[n].path[|q| - 1];
      } else {
        assert SpelledBy(q, names[q], files, volume);
      }
    }
  }

  /**
   Each file is created where nothing is yet: that works exactly when no name stands in another's way.
   Nothing is spelled otherwise than some file spells it.
   */
  method Publish(files: seq<Named>, volume: string -> string) returns (ok: bool, disk: Disk, names: Names)
    requires HavePaths(files)
    ensures ok <==> NoClash(Folded(files, volume))
    ensures ok ==> IsPublished(disk, Folded(files, volume)) && Spelled(disk, names, files, volume)
  {
    disk, names := map[], map[];
    ghost var all := Folded(files, volume);
    NothingWritten(all);
    assert HavePaths(all);
    NothingSpelled(files, volume);
    hide Written, NoClash, IsPublished, OpenAbove, FoldersAdded, FoldPath, HavePaths, Spelled, NamesAdded;
    for n := 0 to |files|
      invariant Written(disk, all, n) && Spelled(disk, names, files, volume)
    {
      var path := FoldPath(volume, files[n].path);
      FirstsHavePaths(all, n);
      SameLength(volume, files[n].path);
      SpelledKeys(disk, names, files, volume);
      var open, next, named := MakeFolders(disk, names, path, files[n].path);
      if open { FoldersAreAbove(disk, next, path); }
      if !open || path in next {
        WritingFails(disk, all, n);
        return false, disk, names;
      }
      WrittenMore(disk, next, all, n);
      SpelledMore(disk, names, next, named, files, n, volume);
      disk := next[path := Text(files[n].content)];
      names := named[path := files[n].path[|path| - 1]];
    }
    AllWritten(disk, all);
    return true, disk, names;
  }

  lemma NothingSpelled(files: seq<Named>, volume: string -> string)
    ensures Spelled(map[], map[], files, volume)
  {
  }

  lemma SameLength(volume: string -> string, path: Path)
    ensures |FoldPath(volume, path)| == |path|
  {
  }

  lemma SpelledKeys(disk: Disk, names: Names, files: seq<Named>, volume: string -> string)
    requires Spelled(disk, names, files, volume)
    ensures names.Keys == disk.Keys
  {
  }

  lemma AllWritten(disk: Disk, all: seq<Named>)
    requires Written(disk, all, |all|)
    ensures NoClash(all) && IsPublished(disk, all)
  {
    assert all[..|all|] == all;
  }

  // ---- Checking --------------------------------------------------------------

  ghost predicate TreeShaped(disk: Disk) {
    forall q | q in disk :: q != [] && forall p: Path | p < q && p != [] :: p in disk && disk[p].Folder?
  }

  predicate IsAbove(files: seq<Named>, q: Path) { exists i :: 0 <= i < |files| && q < files[i].path }

  function IndexAt(files: seq<Named>, q: Path): (i: nat)
    ensures i <= |files| && (i < |files| ==> files[i].path == q)
    ensures i == |files| ==> forall j | 0 <= j < |files| :: files[j].path != q
  {
    if files == [] || files[0].path == q then 0
    else
      var i := 1 + IndexAt(files[1..], q);
      assert forall j | 1 <= j < |files| :: files[j] == files[1..][j - 1];
      i
  }

  predicate EntryExpected(files: seq<Named>, q: Path, node: Node) {
    match node
    case Folder => IsAbove(files, q)
    case Text(content) => IndexAt(files, q) < |files| && files[IndexAt(files, q)].content == content
    case _ => false
  }

  /** A directory that was there before, as it is listed, is accepted exactly when it holds the files and nothing else. */
  method Verify(disk: Disk, listing: seq<Path>, files: seq<Named>) returns (ok: bool)
    requires TreeShaped(disk) && HavePaths(files) && NoClash(files)
    requires forall q :: q in listing <==> q in disk
    ensures ok <==> IsPublished(disk, files)
  {
    var observed: set<Path> := {};
    for n := 0 to |listing|
      invariant forall i | 0 <= i < n :: EntryExpected(files, listing[i], disk[listing[i]])
      invariant forall q :: q in observed <==> q in listing[..n] && disk[q].Text?
    {
      var q := listing[n];
      assert q in listing;
      if !EntryExpected(files, q, disk[q]) {
        UnexpectedEntry(disk, files, q);
        return false;
      }
      if disk[q].Text? {
        observed := observed + {q};
      }
      assert listing[..n + 1] == listing[..n] + [q];
    }
    assert listing[..|listing|] == listing;
    ok := true;
    for i := 0 to |files|
      invariant ok ==> forall j | 0 <= j < i :: files[j].path in observed
      invariant !ok ==> exists j :: 0 <= j < |files| && files[j].path !in observed
    {
      if files[i].path !in observed {
        ok := false;
      }
    }
    if ok { AllExpected(disk, files); }
  }

  /** In a published directory every entry is one the check expects. */
  lemma PublishedIsExpected(disk: Disk, files: seq<Named>, q: Path)
    requires NoClash(files) && q in disk && IsPublished(disk, files)
    ensures EntryExpected(files, q, disk[q])
  {
    assert Holds(files, q, disk[q]);
    var i :| 0 <= i < |files| && AtOrBelow(files[i], q, disk[q]);
    if !disk[q].Folder? {
      var j := IndexAt(files, q);
      assert files[i].path <= files[j].path;
    }
  }

  lemma UnexpectedEntry(disk: Disk, files: seq<Named>, q: Path)
    requires NoClash(files) && q in disk && !EntryExpected(files, q, disk[q])
    ensures !IsPublished(disk, files)
  {
    hide *;
    if IsPublished(disk, files) { PublishedIsExpected(disk, files, q); }
  }

  lemma AllExpected(disk: Disk, files: seq<Named>)
    requires TreeShaped(disk)
    requires forall q | q in disk :: EntryExpected(files, q, disk[q])
    requires NoClash(files) && forall i | 0 <= i < |files| :: files[i].path in disk && disk[files[i].path].Text?
    ensures IsPublished(disk, files)
  {
    forall i | 0 <= i < |files| ensures disk[files[i].path] == Text(files[i].content) {
      var j := IndexAt(files, files[i].path);
      assert EntryExpected(files, files[i].path, disk[files[i].path]);
      assert files[j].path <= files[i].path;
    }
    forall q | q in disk ensures q != [] && Holds(files, q, disk[q]) {
      assert EntryExpected(files, q, disk[q]);
      if disk[q].Text? { assert files[IndexAt(files, q)].path == q; }
    }
  }
}
