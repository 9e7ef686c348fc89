/**
 Extraction, one file operation at a time.

 Each operation demands what makes it safe: its name is still free, and every directory
 above it is a real directory that this extraction made and has not closed yet. So no
 archive at all can make a write leave the destination or go through a link.
 */
module Extraction {
  import opened Archive
  import opened Options

  /** All directories above a path were made here and are still open. */
  ghost predicate OwnDirectories(fs: Tree, path: Path) {
    forall k | 0 < k < |path| :: path[..k] in fs && fs[path[..k]] == Dir(PRIVATE)
  }

  ghost predicate Creatable(fs: Tree, path: Path) { path != [] && path !in fs && OwnDirectories(fs, path) }

  /** Something new below directories made here, or new permissions for a directory made here. */
  ghost predicate Puts(fs: Tree, next: Tree, path: Path, e: Entry) {
    && next == fs[path := e] && OwnDirectories(fs, path)
    && if path in fs then fs[path] == Dir(PRIVATE) && e.Dir? else path != [] && (e.Dir? ==> e == Dir(PRIVATE))
  }

  ghost predicate SafeStep(fs: Tree, next: Tree) { exists path, e :: Puts(fs, next, path, e) }

  ghost predicate StepAt(trees: seq<Tree>, i: nat)
    requires i + 1 < |trees|
  {
    SafeStep(trees[i], trees[i + 1])
  }

  /** The trees that an extraction passes through, from the empty one to `last`. */
  ghost predicate SafeRun(trees: seq<Tree>, last: Tree) {
    && trees != [] && trees[0] == map[] && trees[|trees| - 1] == last
    && forall i | 0 <= i < |trees| - 1 :: StepAt(trees, i)
  }

  lemma RunMore(trees: seq<Tree>, last: Tree, next: Tree)
    requires SafeRun(trees, last) && SafeStep(last, next)
    ensures SafeRun(trees + [next], next)
  {
    hide SafeStep;
    var more := trees + [next];
    forall i | 0 <= i < |more| - 1 ensures StepAt(more, i) {
      if i < |trees| - 1 { assert StepAt(trees, i); }
    }
  }

  method MakeDirectory(fs: Tree, path: Path) returns (next: Tree)
    requires Creatable(fs, path)
    ensures next == fs[path := Dir(PRIVATE)] && SafeStep(fs, next)
  {
    next := fs[path := Dir(PRIVATE)];
    assert Puts(fs, next, path, Dir(PRIVATE));
  }

  method WriteNew(fs: Tree, path: Path, e: Entry) returns (next: Tree)
    requires Creatable(fs, path) && !e.Dir?
    ensures next == fs[path := e] && SafeStep(fs, next)
  {
    next := fs[path := e];
    assert Puts(fs, next, path, e);
  }

  method CloseDirectory(fs: Tree, path: Path, mode: nat) returns (next: Tree)
    requires path in fs && fs[path] == Dir(PRIVATE) && OwnDirectories(fs, path)
    ensures next == fs[path := Dir(mode)] && SafeStep(fs, next)
  {
    next := fs[path := Dir(mode)];
    assert Puts(fs, next, path, Dir(mode));
  }

  // ---- What every run of safe steps keeps ------------------------------------

  lemma SafeStepKeepsTree(fs: Tree, next: Tree)
    requires IsTree(fs) && SafeStep(fs, next)
    ensures IsTree(next)
  {
    var path, e :| Puts(fs, next, path, e);
    forall other, k | other in next && 0 < k < |other| ensures other[..k] in next && next[other[..k]].Dir? {
      assert other[..k] in fs && fs[other[..k]].Dir?;
    }
  }

  /** At every moment each entry lies in real directories, so nothing was ever written through a link. */
  lemma {:induction false} NothingThroughLinks(trees: seq<Tree>, last: Tree, i: nat)
    requires SafeRun(trees, last) && i < |trees|
    ensures IsTree(trees[i])
    decreases i
  {
    hide SafeStep, IsTree;
    if i == 0 {
      EmptyIsTree();
    } else {
      NothingThroughLinks(trees, last, i - 1);
      assert StepAt(trees, i - 1);
      SafeStepKeepsTree(trees[i - 1], trees[i]);
    }
  }

  lemma EmptyIsTree()
    ensures IsTree(map[])
  {
  }

  /** A file or link, once written, is never replaced or removed, and a directory remains one. */
  lemma {:induction false} NothingIsReplaced(trees: seq<Tree>, last: Tree, i: nat, j: nat, path: Path)
    requires SafeRun(trees, last) && i <= j < |trees| && path in trees[i]
    ensures path in trees[j]
    ensures if trees[i][path].Dir? then trees[j][path].Dir? else trees[j][path] == trees[i][path]
    decreases j
  {
    if i < j {
      NothingIsReplaced(trees, last, i, j - 1, path);
      assert StepAt(trees, j - 1);
    }
  }

  // ---- Reading the directory of the archive ----------------------------------

  ghost predicate NamesOf(names: map<Path, Item>, items: seq<Item>) {
    && (forall i | 0 <= i < |items| :: items[i].parts in names && names[items[i].parts] == items[i])
    && (forall path | path in names :: exists i :: 0 <= i < |items| && items[i].parts == path)
  }

  method SumSizes(items: seq<Item>) returns (total: nat)
    ensures total == TotalSize(items)
  {
    total := 0;
    for i := 0 to |items|
      invariant TotalSize(items) == total + TotalSize(items[i..])
    {
      assert items[i..][0] == items[i] && items[i..][1..] == items[i + 1..];
      total := total + items[i].size;
    }
  }

  ghost predicate AllOk(items: seq<Item>) { forall i | 0 <= i < |items| :: ItemOk(items[i]) }

  ghost predicate FoldedNames(folded: set<Path>, items: seq<Item>, fold: string -> string) {
    forall name :: name in folded <==> exists i :: 0 <= i < |items| && FoldPath(fold, items[i].parts) == name
  }

  /** One more entry, if its name is new. */
  lemma NamesMore(names: map<Path, Item>, folded: set<Path>, items: seq<Item>, item: Item, fold: string -> string)
    requires NamesOf(names, items) && FoldedNames(folded, items, fold) && DistinctNames(items, fold) && AllOk(items)
    ensures DistinctNames(items + [item], fold) <==> FoldPath(fold, item.parts) !in folded
    ensures FoldPath(fold, item.parts) !in folded ==> NamesOf(names[item.parts := item], items + [item])
    ensures FoldedNames(folded + {FoldPath(fold, item.parts)}, items + [item], fold)
    ensures AllOk(items + [item]) <==> ItemOk(item)
  {
    hide FoldPath, ItemOk;
    var more := items + [item];
    assert more[|items|] == item && forall i | 0 <= i < |items| :: more[i] == items[i];
    if FoldPath(fold, item.parts) in folded {
      var i :| 0 <= i < |items| && FoldPath(fold, items[i].parts) == FoldPath(fold, item.parts);
      assert FoldPath(fold, more[i].parts) == FoldPath(fold, more[|items|].parts);
    }
    forall name ensures name in folded + {FoldPath(fold, item.parts)} <==> exists i :: 0 <= i < |more| && FoldPath(fold, more[i].parts) == name {
      if name in folded {
        var i :| 0 <= i < |items| && FoldPath(fold, items[i].parts) == name;
        assert FoldPath(fold, more[i].parts) == name;
      }
      if i :| 0 <= i < |more| && FoldPath(fold, more[i].parts) == name {
        if i < |items| { assert FoldPath(fold, items[i].parts) == name; }
      }
    }
  }

  lemma PrefixFails(items: seq<Item>, n: nat, fold: string -> string)
    requires n <= |items| && !(AllOk(items[..n]) && DistinctNames(items[..n], fold))
    ensures !(AllOk(items) && DistinctNames(items, fold))
  {
    hide FoldPath, ItemOk;
  }

  /** Every entry is valid and no two names coincide when folded. */
  method ReadNames(items: seq<Item>, fold: string -> string) returns (ok: bool, names: map<Path, Item>)
    ensures ok <==> AllOk(items) && DistinctNames(items, fold)
    ensures ok ==> NamesOf(names, items)
  {
    hide DistinctNames, AllOk, NamesOf, FoldedNames, FoldPath, ItemOk;
    names := map[];
    var folded: set<Path> := {};
    NoNames(fold);
    for i := 0 to |items|
      invariant AllOk(items[..i]) && DistinctNames(items[..i], fold)
      invariant NamesOf(names, items[..i]) && FoldedNames(folded, items[..i], fold)
    {
      var item := items[i];
      assert items[..i + 1] == items[..i] + [item];
      NamesMore(names, folded, items[..i], item, fold);
      var name := FoldPath(fold, item.parts);
      if !ItemOk(item) || name in folded {
        PrefixFails(items, i + 1, fold);
        ok := false;
        return;
      }
      folded := folded + {name};
      names := names[item.parts := item];
    }
    assert items[..|items|] == items;
    ok := true;
  }

  lemma NoNames(fold: string -> string)
    ensures AllOk([]) && DistinctNames([], fold) && NamesOf(map[], []) && FoldedNames({}, [], fold)
  {
  }

  method CheckParents(names: map<Path, Item>, items: seq<Item>) returns (ok: bool)
    requires NamesOf(names, items) && forall i | 0 <= i < |items| :: items[i].parts != []
    ensures ok <==> forall i | 0 <= i < |items| :: ParentsPresent(items, items[i])
  {
    for i := 0 to |items|
      invariant forall j | 0 <= j < i :: ParentsPresent(items, items[j])
    {
      var path := items[i].parts;
      for k := 1 to |path|
        invariant forall m | 0 < m < k :: HasDirectory(items, path[..m])
      {
        if path[..k] !in names || names[path[..k]].kind != DirKind {
          assert !HasDirectory(items, items[i].parts[..k]);
          return false;
        }
        assert HasDirectory(items, path[..k]);
      }
    }
    return true;
  }

  // ---- Directories, shallow first --------------------------------------------

  ghost predicate ByDepth(dirs: seq<Path>) {
    && (forall i, j | 0 <= i < j < |dirs| :: |dirs[i]| <= |dirs[j]|)
    && (forall i, j | 0 <= i < j < |dirs| :: dirs[i] != dirs[j])
  }

  ghost predicate Unique(items: seq<Item>) {
    forall i, j | 0 <= i < j < |items| :: items[i].parts != items[j].parts
  }

  /** A stable sort by depth: one pass for each depth. */
  method DirectoriesByDepth(items: seq<Item>) returns (dirs: seq<Path>)
    requires Unique(items)
    ensures ByDepth(dirs)
    ensures forall path :: path in dirs <==> HasDirectory(items, path)
  {
    var deepest: nat := 0;
    for i := 0 to |items|
      invariant forall j | 0 <= j < i :: |items[j].parts| <= deepest
    {
      if |items[i].parts| > deepest { deepest := |items[i].parts|; }
    }
    dirs := [];
    for depth := 0 to deepest + 1
      invariant ByDepth(dirs)
      invariant forall path :: path in dirs <==> |path| < depth && HasDirectory(items, path)
    {
      dirs := AppendDepth(items, dirs, depth);
    }
    forall path | HasDirectory(items, path) ensures |path| < deepest + 1 {
    }
  }

  method AppendDepth(items: seq<Item>, before: seq<Path>, depth: nat) returns (dirs: seq<Path>)
    requires Unique(items) && ByDepth(before)
    requires forall path :: path in before <==> |path| < depth && HasDirectory(items, path)
    ensures ByDepth(dirs)
    ensures forall path :: path in dirs <==> |path| < depth + 1 && HasDirectory(items, path)
  {
    dirs := before;
    for i := 0 to |items|
      invariant ByDepth(dirs)
      invariant forall path | path in dirs :: |path| <= depth
      invariant forall path :: path in dirs <==>
        path in before || (|path| == depth && exists j :: 0 <= j < i && items[j].parts == path && items[j].kind == DirKind)
    {
      var item := items[i];
      if |item.parts| == depth && item.kind == DirKind {
        assert item.parts !in dirs;
        dirs := dirs + [item.parts];
      }
    }
  }

  // ---- The tree while it grows -----------------------------------------------

  ghost predicate ListsDirectories(dirs: seq<Path>, items: seq<Item>) {
    ByDepth(dirs) && forall path :: path in dirs <==> HasDirectory(items, path)
  }

  /** Parents of a directory come earlier in the list. */
  lemma ParentIsEarlier(dirs: seq<Path>, items: seq<Item>, i: nat, k: nat) returns (j: nat)
    requires ListsDirectories(dirs, items) && i < |dirs| && 0 < k < |dirs[i]|
    requires HasDirectory(items, dirs[i][..k])
    ensures j < i && dirs[j] == dirs[i][..k]
  {
    assert dirs[i][..k] in dirs;
    j :| 0 <= j < |dirs| && dirs[j] == dirs[i][..k];
    assert |dirs[j]| < |dirs[i]|;
  }

  ghost predicate AllParents(items: seq<Item>) {
    forall i | 0 <= i < |items| :: ParentsPresent(items, items[i])
  }

  lemma DirectoryParents(items: seq<Item>, path: Path, k: nat)
    requires AllParents(items) && HasDirectory(items, path) && 0 < k < |path|
    ensures HasDirectory(items, path[..k])
  {
    var i :| 0 <= i < |items| && items[i].parts == path && items[i].kind == DirKind;
    assert ParentsPresent(items, items[i]);
  }

  /** Exactly the first `n` directories exist, all of them still open. */
  ghost predicate OpenUpTo(fs: Tree, dirs: seq<Path>, n: nat)
    requires n <= |dirs|
  {
    && (forall j | 0 <= j < n :: dirs[j] in fs && fs[dirs[j]] == Dir(PRIVATE))
    && (forall path | path in fs :: exists j :: 0 <= j < n && dirs[j] == path)
  }

  lemma NextDirectoryIsCreatable(fs: Tree, items: seq<Item>, dirs: seq<Path>, i: nat)
    requires ListsDirectories(dirs, items) && AllParents(items) && AllOk(items) && i < |dirs| && OpenUpTo(fs, dirs, i)
    ensures Creatable(fs, dirs[i])
  {
    var path := dirs[i];
    assert path in dirs;
    assert HasDirectory(items, path);
    forall k | 0 < k < |path| ensures path[..k] in fs && fs[path[..k]] == Dir(PRIVATE) {
      DirectoryParents(items, path, k);
      var j := ParentIsEarlier(dirs, items, i, k);
    }
    var m :| 0 <= m < |items| && items[m].parts == path;
    assert ItemOk(items[m]);
  }

  method MakeDirectories(items: seq<Item>, dirs: seq<Path>) returns (fs: Tree, ghost trees: seq<Tree>)
    requires ListsDirectories(dirs, items) && AllParents(items) && AllOk(items)
    ensures OpenUpTo(fs, dirs, |dirs|) && SafeRun(trees, fs)
  {
    hide SafeStep, SafeRun, ListsDirectories, AllParents, AllOk, Creatable;
    fs := map[];
    trees := [fs];
    RunStarts();
    for i := 0 to |dirs|
      invariant OpenUpTo(fs, dirs, i) && SafeRun(trees, fs)
    {
      NextDirectoryIsCreatable(fs, items, dirs, i);
      var next := MakeDirectory(fs, dirs[i]);
      RunMore(trees, fs, next);
      fs, trees := next, trees + [next];
    }
  }

  lemma RunStarts()
    ensures SafeRun([map[]], map[])
  {
  }

  /** The directories are open, and of the other items exactly the first `n` are written. */
  ghost predicate Filled(fs: Tree, dirs: seq<Path>, items: seq<Item>, n: nat)
    requires n <= |items|
  {
    && (forall path | path in dirs :: path in fs && fs[path] == Dir(PRIVATE))
    && (forall i | 0 <= i < n && items[i].kind != DirKind :: items[i].parts in fs && fs[items[i].parts] == EntryOf(items[i]))
    && (forall path | path in fs :: path in dirs || exists i :: 0 <= i < n && items[i].parts == path && items[i].kind != DirKind)
  }

  lemma FilledStarts(fs: Tree, dirs: seq<Path>, items: seq<Item>)
    requires OpenUpTo(fs, dirs, |dirs|)
    ensures Filled(fs, dirs, items, 0)
  {
    forall path | path in dirs ensures path in fs && fs[path] == Dir(PRIVATE) {
      var j :| 0 <= j < |dirs| && dirs[j] == path;
    }
  }

  lemma SameNameSameKind(items: seq<Item>, i: nat)
    requires i < |items| && Unique(items)
    ensures HasDirectory(items, items[i].parts) ==> items[i].kind == DirKind
  {
    if j :| 0 <= j < |items| && items[j].parts == items[i].parts && items[j].kind == DirKind {
      assert j == i;
    }
  }

  lemma NextIsCreatable(fs: Tree, dirs: seq<Path>, items: seq<Item>, i: nat)
    requires i < |items| && Filled(fs, dirs, items, i) && ListsDirectories(dirs, items) && AllParents(items)
    requires Unique(items) && AllOk(items) && items[i].kind != DirKind
    ensures Creatable(fs, items[i].parts)
  {
    var path := items[i].parts;
    assert ItemOk(items[i]) && ParentsPresent(items, items[i]);
    SameNameSameKind(items, i);
    assert path !in dirs;
    forall k | 0 < k < |path| ensures path[..k] in fs && fs[path[..k]] == Dir(PRIVATE) {
      assert HasDirectory(items, path[..k]);
      assert path[..k] in dirs;
    }
  }

  lemma FilledMore(fs: Tree, dirs: seq<Path>, items: seq<Item>, i: nat)
    requires i < |items| && Filled(fs, dirs, items, i) && Unique(items)
    ensures items[i].kind == DirKind ==> Filled(fs, dirs, items, i + 1)
    ensures items[i].kind != DirKind && items[i].parts !in fs ==> Filled(fs[items[i].parts := EntryOf(items[i])], dirs, items, i + 1)
  {
    hide EntryOf;
    if items[i].kind != DirKind && items[i].parts !in fs {
      var next := fs[items[i].parts := EntryOf(items[i])];
      forall path | path in next ensures path in dirs || exists j :: 0 <= j < i + 1 && items[j].parts == path && items[j].kind != DirKind {
        if path == items[i].parts {
          assert items[i].kind != DirKind;
        } else {
          assert path in fs;
        }
      }
    }
  }

  /** Fails at the first file or link with bad content. */
  method WriteFiles(fs: Tree, items: seq<Item>, dirs: seq<Path>, ghost before: seq<Tree>)
    returns (ok: bool, next: Tree, ghost trees: seq<Tree>)
    requires OpenUpTo(fs, dirs, |dirs|) && ListsDirectories(dirs, items) && AllParents(items) && Unique(items) && AllOk(items)
    requires SafeRun(before, fs)
    ensures ok <==> forall i | 0 <= i < |items| :: ContentOk(items[i])
    ensures ok ==> Filled(next, dirs, items, |items|)
    ensures SafeRun(trees, next)
  {
    hide OpenUpTo, ListsDirectories, AllParents, Unique, Filled, Creatable, EntryOf, SafeStep, SafeRun;
    next, trees := fs, before;
    FilledStarts(fs, dirs, items);
    for i := 0 to |items|
      invariant Filled(next, dirs, items, i) && SafeRun(trees, next)
      invariant forall j | 0 <= j < i :: ContentOk(items[j])
    {
      var item := items[i];
      FilledMore(next, dirs, items, i);
      if item.kind != DirKind {
        if !ContentOk(item) {
          ok := false;
          return;
        }
        assert item.kind != OtherKind by { assert ItemOk(items[i]); }
        NextIsCreatable(next, dirs, items, i);
        CreatableIsFree(next, item.parts);
        NotADirectory(item);
        var more := WriteNew(next, item.parts, EntryOf(item));
        RunMore(trees, next, more);
        next, trees := more, trees + [more];
      }
    }
    ok := true;
  }

  lemma CreatableIsFree(fs: Tree, path: Path)
    requires Creatable(fs, path)
    ensures path !in fs
  {
  }

  lemma NotADirectory(item: Item)
    requires item.kind != DirKind
    ensures !EntryOf(item).Dir?
  {
  }

  // ---- Closing directories, deep first ---------------------------------------

  /** The directories from `n` on have their own modes, the others are still open. */
  ghost predicate Closing(fs: Tree, names: map<Path, Item>, dirs: seq<Path>, items: seq<Item>, n: nat)
    requires n <= |dirs|
  {
    && (forall j | 0 <= j < n :: dirs[j] in fs && fs[dirs[j]] == Dir(PRIVATE))
    && (forall j | n <= j < |dirs| :: dirs[j] in names && dirs[j] in fs && fs[dirs[j]] == Dir(names[dirs[j]].mode))
    && (forall i | 0 <= i < |items| && items[i].kind != DirKind :: items[i].parts in fs && fs[items[i].parts] == EntryOf(items[i]))
    && (forall path | path in fs :: path in dirs || exists i :: 0 <= i < |items| && items[i].parts == path && items[i].kind != DirKind)
  }

  lemma ClosingMore(fs: Tree, names: map<Path, Item>, dirs: seq<Path>, items: seq<Item>, n: nat)
    requires n < |dirs| && Closing(fs, names, dirs, items, n + 1) && ListsDirectories(dirs, items) && Unique(items)
    requires dirs[n] in names
    ensures Closing(fs[dirs[n] := Dir(names[dirs[n]].mode)], names, dirs, items, n)
  {
    hide EntryOf;
    var next := fs[dirs[n] := Dir(names[dirs[n]].mode)];
    forall i | 0 <= i < |items| && items[i].kind != DirKind ensures items[i].parts in next && next[items[i].parts] == EntryOf(items[i]) {
      assert items[i].parts != dirs[n] by {
        assert dirs[n] in dirs;
        var m :| 0 <= m < |items| && items[m].parts == dirs[n] && items[m].kind == DirKind;
      }
    }
  }

  lemma StillOpen(fs: Tree, names: map<Path, Item>, dirs: seq<Path>, items: seq<Item>, n: nat)
    requires n < |dirs| && Closing(fs, names, dirs, items, n + 1) && ListsDirectories(dirs, items) && AllParents(items)
    ensures dirs[n] in fs && fs[dirs[n]] == Dir(PRIVATE) && OwnDirectories(fs, dirs[n])
  {
    assert dirs[n] in dirs;
    forall k | 0 < k < |dirs[n]| ensures dirs[n][..k] in fs && fs[dirs[n][..k]] == Dir(PRIVATE) {
      DirectoryParents(items, dirs[n], k);
      var j := ParentIsEarlier(dirs, items, n, k);
    }
  }

  lemma ClosingStarts(fs: Tree, names: map<Path, Item>, dirs: seq<Path>, items: seq<Item>)
    requires Filled(fs, dirs, items, |items|)
    ensures Closing(fs, names, dirs, items, |dirs|)
  {
    hide EntryOf;
    forall j | 0 <= j < |dirs| ensures dirs[j] in fs && fs[dirs[j]] == Dir(PRIVATE) {
      assert dirs[j] in dirs;
    }
  }

  lemma ClosedIsBuilt(fs: Tree, names: map<Path, Item>, dirs: seq<Path>, items: seq<Item>)
    requires Closing(fs, names, dirs, items, 0) && ListsDirectories(dirs, items) && NamesOf(names, items)
    ensures IsBuilt(fs, items)
  {
    forall i | 0 <= i < |items| ensures items[i].parts in fs && fs[items[i].parts] == EntryOf(items[i]) {
      if items[i].kind == DirKind {
        assert HasDirectory(items, items[i].parts);
        var j :| 0 <= j < |dirs| && dirs[j] == items[i].parts;
        assert names[dirs[j]] == items[i];
      }
    }
    forall path | path in fs ensures exists i :: 0 <= i < |items| && items[i].parts == path {
      if path in dirs { assert HasDirectory(items, path); }
    }
  }

  lemma DirectoryIsNamed(names: map<Path, Item>, dirs: seq<Path>, items: seq<Item>, n: nat)
    requires n < |dirs| && ListsDirectories(dirs, items) && NamesOf(names, items)
    ensures dirs[n] in names
  {
    assert dirs[n] in dirs;
    assert HasDirectory(items, dirs[n]);
  }

  /** Deep directories are closed before the ones above them. */
  method CloseDirectories(fs: Tree, names: map<Path, Item>, items: seq<Item>, dirs: seq<Path>, ghost before: seq<Tree>)
    returns (next: Tree, ghost trees: seq<Tree>)
    requires Filled(fs, dirs, items, |items|) && ListsDirectories(dirs, items) && NamesOf(names, items)
    requires AllParents(items) && Unique(items) && SafeRun(before, fs)
    ensures IsBuilt(next, items) && SafeRun(trees, next)
  {
    hide Filled, Closing, ListsDirectories, NamesOf, AllParents, Unique, IsBuilt, OwnDirectories, SafeStep, SafeRun;
    next, trees := fs, before;
    ClosingStarts(fs, names, dirs, items);
    for n := |dirs| downto 0
      invariant Closing(next, names, dirs, items, n) && SafeRun(trees, next)
    {
      StillOpen(next, names, dirs, items, n);
      DirectoryIsNamed(names, dirs, items, n);
      ClosingMore(next, names, dirs, items, n);
      var more := CloseDirectory(next, dirs[n], names[dirs[n]].mode);
      RunMore(trees, next, more);
      next, trees := more, trees + [more];
    }
    ClosedIsBuilt(next, names, dirs, items);
  }

  // ---- The whole extraction --------------------------------------------------

  lemma DistinctIsUnique(items: seq<Item>, fold: string -> string)
    requires DistinctNames(items, fold)
    ensures Unique(items)
  {
    forall i, j | 0 <= i < j < |items| ensures items[i].parts != items[j].parts {
      assert FoldPath(fold, items[i].parts) != FoldPath(fold, items[j].parts);
    }
  }

  /**
   Succeeds exactly for valid archives, and then the tree is exactly what the archive describes. Whatever
   the archive holds, and wherever the extraction stops, `trees` lists the trees it has passed through.
   */
  method ExtractTree(items: seq<Item>, fold: string -> string) returns (result: Option<Tree>, ghost trees: seq<Tree>)
    ensures result.Some? <==> ArchiveOk(items, fold)
    ensures result.Some? ==> IsBuilt(result.value, items)
    ensures trees != [] && SafeRun(trees, trees[|trees| - 1])
    ensures result.Some? ==> trees[|trees| - 1] == result.value
  {
    hide DistinctNames, ItemOk, ContentOk, IsBuilt, NamesOf, Filled, OpenUpTo, HasDirectory, ByDepth, Unique, SafeRun;
    trees := [map[]];
    RunStarts();
    result := None;
    if items == [] || |items| > MAX_ENTRIES {
      return;
    }
    var total := SumSizes(items);
    if total > MAX_EXPANDED {
      return;
    }
    var ok, names := ReadNames(items, fold);
    if !ok {
      return;
    }
    DistinctIsUnique(items, fold);
    NamesNotEmpty(items);
    ok := CheckParents(names, items);
    if !ok {
      return;
    }
    var dirs := DirectoriesByDepth(items);
    var fs;
    fs, trees := MakeDirectories(items, dirs);
    ok, fs, trees := WriteFiles(fs, items, dirs, trees);
    EndOfRun(trees, fs);
    if !ok {
      return;
    }
    fs, trees := CloseDirectories(fs, names, items, dirs, trees);
    EndOfRun(trees, fs);
    result := Some(fs);
  }

  lemma EndOfRun(trees: seq<Tree>, last: Tree)
    requires SafeRun(trees, last)
    ensures trees != [] && trees[|trees| - 1] == last
  {
  }

  lemma NamesNotEmpty(items: seq<Item>)
    requires AllOk(items)
    ensures forall i | 0 <= i < |items| :: items[i].parts != []
  {
    forall i | 0 <= i < |items| ensures items[i].parts != [] { assert ItemOk(items[i]); }
  }
}
