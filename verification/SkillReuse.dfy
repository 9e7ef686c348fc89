/**
 A directory of skills that is still there from an earlier run: whether the check accepts
 what publishing made depends on how the volume spells it.
 */
module SkillReuse {
  import opened Archive
  import opened Options
  import opened SkillDecode
  import opened SkillPublish

  /** How the volume lists a path: each directory on the way as it was spelled first. */
  function Spelling(names: Names, q: Path): Path {
    seq(|q|, k requires 0 <= k < |q| => if q[..k + 1] in names then names[q[..k + 1]] else "")
  }

  /** What a walk through the directory sees. */
  ghost predicate Shows(seen: Disk, disk: Disk, names: Names) {
    && (forall q | q in disk :: Spelling(names, q) in seen && seen[Spelling(names, q)] == disk[q])
    && (forall p | p in seen :: exists q :: q in disk && Spelling(names, q) == p)
  }

  ghost predicate SpelledAlike(p: Path, q: Path, volume: string -> string) {
    forall k | 0 < k <= |p| && k <= |q| && FoldPath(volume, p[..k]) == FoldPath(volume, q[..k]) :: p[..k] == q[..k]
  }

  /** Directories that the volume takes for one are spelled in one way. */
  ghost predicate OneSpelling(files: seq<Named>, volume: string -> string) {
    forall i, j | 0 <= i < |files| && 0 <= j < |files| :: SpelledAlike(files[i].path, files[j].path, volume)
  }

  /** A volume holds a directory just as publishing left it. */
  ghost predicate Left(disk: Disk, names: Names, files: seq<Named>, volume: string -> string) {
    && HavePaths(files) && NoClash(Folded(files, volume))
    && IsPublished(disk, Folded(files, volume)) && Spelled(disk, names, files, volume)
  }

  // ---- Spellings -------------------------------------------------------------

  lemma FoldPrefix(volume: string -> string, p: Path, k: nat)
    requires k <= |p|
    ensures FoldPath(volume, p[..k]) == FoldPath(volume, p)[..k]
  {
  }

  lemma PrefixIsThere(disk: Disk, folded: seq<Named>, q: Path, k: nat)
    requires IsPublished(disk, folded) && q in disk && 0 < k <= |q|
    ensures q[..k] in disk && (k < |q| ==> disk[q[..k]].Folder?)
  {
    if k < |q| {
      assert Holds(folded, q, disk[q]);
      var i :| 0 <= i < |folded| && AtOrBelow(folded[i], q, disk[q]);
      assert q[..k] < folded[i].path && q[..k] != [];
    } else {
      assert q[..k] == q;
    }
  }

  lemma SpelledComponent(names: Names, disk: Disk, files: seq<Named>, volume: string -> string, q: Path) returns (i: nat)
    requires Spelled(disk, names, files, volume) && q in disk
    ensures q in names && i < |files| && 0 < |q| <= |files[i].path|
    ensures q == FoldPath(volume, files[i].path[..|q|]) && names[q] == files[i].path[|q| - 1]
  {
    assert SpelledBy(q, names[q], files, volume);
    i :| 0 <= i < |files| && q <= FoldPath(volume, files[i].path) && names[q] == files[i].path[|q| - 1];
    FoldPrefix(volume, files[i].path, |q|);
  }

  lemma LeftMeans(disk: Disk, names: Names, files: seq<Named>, volume: string -> string)
    requires Left(disk, names, files, volume)
    ensures HavePaths(files) && NoClash(Folded(files, volume))
    ensures IsPublished(disk, Folded(files, volume)) && Spelled(disk, names, files, volume)
  {
  }

  /** Each component of a listed name comes from a file with the same folded prefix. */
  lemma ComponentOf(disk: Disk, names: Names, files: seq<Named>, volume: string -> string, q: Path, k: nat) returns (i: nat)
    requires Left(disk, names, files, volume) && q in disk && k < |q|
    ensures i < |files| && k < |files[i].path|
    ensures q[..k + 1] == FoldPath(volume, files[i].path[..k + 1]) && Spelling(names, q)[k] == files[i].path[k]
  {
    hide Left, IsPublished, Spelled, NoClash, FoldPath;
    LeftMeans(disk, names, files, volume);
    PrefixIsThere(disk, Folded(files, volume), q, k + 1);
    i := SpelledComponent(names, disk, files, volume, q[..k + 1]);
  }

  /** The volume takes the spelling for the path it stands for. */
  lemma SpellingFolds(disk: Disk, names: Names, files: seq<Named>, volume: string -> string, q: Path)
    requires Left(disk, names, files, volume) && q in disk
    ensures FoldPath(volume, Spelling(names, q)) == q
  {
    hide Left, Spelling;
    forall k | 0 <= k < |q| ensures |Spelling(names, q)| == |q| && volume(Spelling(names, q)[k]) == q[k] {
      SpellingLength(names, q);
      var i := ComponentOf(disk, names, files, volume, q, k);
      assert q[..k + 1][k] == FoldPath(volume, files[i].path[..k + 1])[k];
    }
    SpellingLength(names, q);
  }

  lemma SpellingLength(names: Names, q: Path)
    ensures |Spelling(names, q)| == |q|
  {
  }

  lemma AlikeAt(files: seq<Named>, volume: string -> string, i: nat, j: nat, k: nat)
    requires OneSpelling(files, volume) && i < |files| && j < |files| && 0 < k <= |files[i].path| && k <= |files[j].path|
    requires FoldPath(volume, files[i].path[..k]) == FoldPath(volume, files[j].path[..k])
    ensures files[i].path[..k] == files[j].path[..k] && files[i].path[k - 1] == files[j].path[k - 1]
  {
    hide FoldPath;
    assert SpelledAlike(files[i].path, files[j].path, volume);
    assert files[i].path[..k][k - 1] == files[j].path[..k][k - 1];
  }

  lemma SpelledAsTheFile(disk: Disk, names: Names, files: seq<Named>, volume: string -> string, q: Path, i: nat)
    requires Left(disk, names, files, volume) && OneSpelling(files, volume)
    requires q in disk && i < |files| && |q| <= |files[i].path| && q == FoldPath(volume, files[i].path[..|q|])
    ensures Spelling(names, q) == files[i].path[..|q|]
  {
    hide Left, OneSpelling, Spelling, FoldPath;
    SpellingLength(names, q);
    forall k | 0 <= k < |q| ensures Spelling(names, q)[k] == files[i].path[k] {
      var j := ComponentOf(disk, names, files, volume, q, k);
      FoldPrefix(volume, files[i].path[..|q|], k + 1);
      assert files[i].path[..|q|][..k + 1] == files[i].path[..k + 1];
      AlikeAt(files, volume, i, j, k + 1);
    }
  }

  // ---- One spelling is enough ------------------------------------------------

  lemma ThereWhenPublished(disk: Disk, files: seq<Named>, volume: string -> string, i: nat, k: nat)
    requires IsPublished(disk, Folded(files, volume)) && i < |files| && 0 < k <= |files[i].path|
    ensures var q := FoldPath(volume, files[i].path[..k]);
            q in disk && disk[q] == (if k == |files[i].path| then Text(files[i].content) else Folder)
  {
    var folded, q := Folded(files, volume), FoldPath(volume, files[i].path[..k]);
    assert folded[i].path == FoldPath(volume, files[i].path);
    FoldPrefix(volume, files[i].path, k);
    if k == |files[i].path| {
      assert files[i].path[..k] == files[i].path;
    } else {
      assert q < folded[i].path && q != [];
    }
  }

  lemma PathIsSeen(disk: Disk, names: Names, seen: Disk, files: seq<Named>, volume: string -> string, i: nat, k: nat)
    requires Left(disk, names, files, volume) && OneSpelling(files, volume) && Shows(seen, disk, names)
    requires i < |files| && 0 < k <= |files[i].path|
    ensures var p := files[i].path[..k];
            p in seen && seen[p] == (if k == |files[i].path| then Text(files[i].content) else Folder)
  {
    hide Left, OneSpelling, Shows, IsPublished, Spelling, NoClash;
    var q := FoldPath(volume, files[i].path[..k]);
    LeftMeans(disk, names, files, volume);
    ThereWhenPublished(disk, files, volume, i, k);
    hide FoldPath;
    SameLength(volume, files[i].path[..k]);
    SpelledAsTheFile(disk, names, files, volume, q, i);
    ShownAt(seen, disk, names, q);
  }

  lemma ShownAt(seen: Disk, disk: Disk, names: Names, q: Path)
    requires Shows(seen, disk, names) && q in disk
    ensures Spelling(names, q) in seen && seen[Spelling(names, q)] == disk[q]
  {
    hide Spelling;
  }

  lemma ShownFrom(seen: Disk, disk: Disk, names: Names, p: Path) returns (q: Path)
    requires Shows(seen, disk, names) && p in seen
    ensures q in disk && Spelling(names, q) == p && seen[p] == disk[q]
  {
    hide Spelling;
    q :| q in disk && Spelling(names, q) == p;
  }

  /** The file that explains a node of the volume. */
  lemma ExplainedBy(disk: Disk, files: seq<Named>, volume: string -> string, q: Path) returns (i: nat)
    requires IsPublished(disk, Folded(files, volume)) && q in disk
    ensures q != [] && i < |files| && |q| <= |files[i].path| && q == FoldPath(volume, files[i].path[..|q|])
    ensures if disk[q].Folder? then |q| < |files[i].path| else |q| == |files[i].path| && disk[q] == Text(files[i].content)
  {
    var folded := Folded(files, volume);
    assert Holds(folded, q, disk[q]);
    i :| 0 <= i < |folded| && AtOrBelow(folded[i], q, disk[q]);
    assert folded[i].path == FoldPath(volume, files[i].path);
    FoldPrefix(volume, files[i].path, |q|);
  }

  lemma NothingElseSeen(disk: Disk, names: Names, seen: Disk, files: seq<Named>, volume: string -> string, p: Path)
    requires Left(disk, names, files, volume) && OneSpelling(files, volume) && Shows(seen, disk, names) && p in seen
    ensures p != [] && Holds(files, p, seen[p])
  {
    hide Left, OneSpelling, Shows, IsPublished, Spelling, NoClash, FoldPath, Holds;
    LeftMeans(disk, names, files, volume);
    var q := ShownFrom(seen, disk, names, p);
    var i := ExplainedBy(disk, files, volume, q);
    SpelledAsTheFile(disk, names, files, volume, q, i);
    HeldBy(files, i, |q|, seen[p]);
  }

  lemma HeldBy(files: seq<Named>, i: nat, k: nat, node: Node)
    requires i < |files| && 0 < k <= |files[i].path|
    requires if node.Folder? then k < |files[i].path| else k == |files[i].path| && node == Text(files[i].content)
    ensures files[i].path[..k] != [] && Holds(files, files[i].path[..k], node)
  {
    assert files[i].path[..|files[i].path|] == files[i].path;
    assert AtOrBelow(files[i], files[i].path[..k], node);
  }

  lemma OneSpellingIsEnough(disk: Disk, names: Names, seen: Disk, files: seq<Named>, volume: string -> string)
    requires Left(disk, names, files, volume) && OneSpelling(files, volume) && Shows(seen, disk, names)
    ensures IsPublished(seen, files)
  {
    hide Left, OneSpelling, Shows, Holds, NoClash;
    forall i, k | 0 <= i < |files| && 0 < k <= |files[i].path|
      ensures var p := files[i].path[..k];
              p in seen && seen[p] == (if k == |files[i].path| then Text(files[i].content) else Folder)
    {
      PathIsSeen(disk, names, seen, files, volume, i, k);
    }
    forall p | p in seen ensures p != [] && Holds(files, p, seen[p]) {
      NothingElseSeen(disk, names, seen, files, volume, p);
    }
    LeftMeans(disk, names, files, volume);
    EachPrefixIsEnough(seen, files);
  }

  lemma EachPrefixIsEnough(seen: Disk, files: seq<Named>)
    requires HavePaths(files) && forall p | p in seen :: p != [] && Holds(files, p, seen[p])
    requires forall i, k | 0 <= i < |files| && 0 < k <= |files[i].path| ::
               files[i].path[..k] in seen && seen[files[i].path[..k]] == (if k == |files[i].path| then Text(files[i].content) else Folder)
    ensures IsPublished(seen, files)
  {
    hide Holds;
    forall i | 0 <= i < |files| ensures files[i].path in seen && seen[files[i].path] == Text(files[i].content) {
      assert files[i].path[..|files[i].path|] == files[i].path;
    }
    forall i, q: Path | 0 <= i < |files| && q < files[i].path && q != [] ensures q in seen && seen[q].Folder? {
      assert q == files[i].path[..|q|];
    }
  }

  // ---- One spelling is needed ------------------------------------------------

  lemma SeenIsSpelling(disk: Disk, names: Names, seen: Disk, files: seq<Named>, volume: string -> string, p: Path)
    requires Left(disk, names, files, volume) && Shows(seen, disk, names) && p in seen
    ensures p == Spelling(names, FoldPath(volume, p))
  {
    hide Left, Shows, Spelling, FoldPath;
    var q := ShownFrom(seen, disk, names, p);
    SpellingFolds(disk, names, files, volume, q);
  }

  lemma PublishedHolds(seen: Disk, files: seq<Named>, i: nat, k: nat)
    requires IsPublished(seen, files) && i < |files| && 0 < k <= |files[i].path|
    ensures files[i].path[..k] in seen
  {
    if k < |files[i].path| {
      assert files[i].path[..k] < files[i].path && files[i].path[..k] != [];
    } else {
      assert files[i].path[..k] == files[i].path;
    }
  }

  lemma AcceptedHasOneSpelling(disk: Disk, names: Names, seen: Disk, files: seq<Named>, volume: string -> string)
    requires Left(disk, names, files, volume) && Shows(seen, disk, names) && IsPublished(seen, files)
    ensures OneSpelling(files, volume)
  {
    hide Left, Shows, IsPublished, Spelling, FoldPath;
    forall i, j, k | 0 <= i < |files| && 0 <= j < |files| && 0 < k <= |files[i].path| && k <= |files[j].path|
                     && FoldPath(volume, files[i].path[..k]) == FoldPath(volume, files[j].path[..k])
      ensures files[i].path[..k] == files[j].path[..k]
    {
      PublishedHolds(seen, files, i, k);
      PublishedHolds(seen, files, j, k);
      SeenIsSpelling(disk, names, seen, files, volume, files[i].path[..k]);
      SeenIsSpelling(disk, names, seen, files, volume, files[j].path[..k]);
    }
  }

  // ---- Publishing and checking again -----------------------------------------

  /**
   A directory left by an earlier run is accepted again exactly when no two files spell a common
   directory differently. The rest is what the check demands of its caller.
   */
  lemma AcceptedAgainIff(disk: Disk, names: Names, seen: Disk, files: seq<Named>, volume: string -> string)
    requires Left(disk, names, files, volume) && Shows(seen, disk, names)
    ensures IsPublished(seen, files) <==> OneSpelling(files, volume)
    ensures TreeShaped(seen) && NoClash(files)
  {
    hide Left, OneSpelling, Shows, IsPublished, NoClash, TreeShaped;
    LeftMeans(disk, names, files, volume);
    if OneSpelling(files, volume) { OneSpellingIsEnough(disk, names, seen, files, volume); }
    if IsPublished(seen, files) { AcceptedHasOneSpelling(disk, names, seen, files, volume); }
    SeenIsTree(disk, names, seen, files, volume);
    FoldedApart(files, volume);
  }

  lemma FoldKeepsPrefix(volume: string -> string, p: Path, q: Path)
    ensures p <= q ==> FoldPath(volume, p) <= FoldPath(volume, q)
  {
    if p <= q { FoldPrefix(volume, q, |p|); }
  }

  lemma FoldedApart(files: seq<Named>, volume: string -> string)
    requires NoClash(Folded(files, volume))
    ensures NoClash(files)
  {
    var folded := Folded(files, volume);
    forall i, j | 0 <= i < |files| && 0 <= j < |files| && i != j ensures !(files[i].path <= files[j].path) {
      FoldKeepsPrefix(volume, files[i].path, files[j].path);
      assert !(folded[i].path <= folded[j].path);
    }
  }

  lemma SpellingPrefix(names: Names, q: Path, k: nat)
    requires k <= |q|
    ensures Spelling(names, q[..k]) == Spelling(names, q)[..k]
  {
    forall m | 0 <= m < k ensures Spelling(names, q[..k])[m] == Spelling(names, q)[m] {
      assert q[..k][..m + 1] == q[..m + 1];
    }
  }

  lemma ParentIsSeen(disk: Disk, names: Names, seen: Disk, files: seq<Named>, volume: string -> string, q: Path, k: nat)
    requires Left(disk, names, files, volume) && Shows(seen, disk, names) && q in disk && 0 < k < |q|
    ensures Spelling(names, q)[..k] in seen && seen[Spelling(names, q)[..k]].Folder?
  {
    hide Left, Shows, IsPublished, Spelling, NoClash;
    LeftMeans(disk, names, files, volume);
    PrefixIsThere(disk, Folded(files, volume), q, k);
    SpellingPrefix(names, q, k);
    ShownAt(seen, disk, names, q[..k]);
  }

  lemma SeenIsTree(disk: Disk, names: Names, seen: Disk, files: seq<Named>, volume: string -> string)
    requires Left(disk, names, files, volume) && Shows(seen, disk, names)
    ensures TreeShaped(seen)
  {
    hide Left, Shows, IsPublished, Spelling, NoClash, FoldPath;
    LeftMeans(disk, names, files, volume);
    forall p | p in seen ensures p != [] && forall r: Path | r < p && r != [] :: r in seen && seen[r].Folder? {
      var q := ShownFrom(seen, disk, names, p);
      var i := ExplainedBy(disk, files, volume, q);
      SpellingLength(names, q);
      forall r: Path | r < p && r != [] ensures r in seen && seen[r].Folder? {
        ParentIsSeen(disk, names, seen, files, volume, q, |r|);
        assert r == p[..|r|];
      }
    }
  }

  // ---- A skill that is refused the second time -------------------------------

  /** Two directories whose names differ in case only. */
  const MIXED: seq<Download> := [
    Download(["SKILL.md"], Some("# A")), Download(["A", "x"], Some("1")), Download(["a", "y"], Some("2"))
  ]

  /** A folding that confuses no more than it has to. */
  function Folding(part: string): string { if |part| == 1 && part[0] == 'A' then "a" else part }

  lemma MixedIsAccepted()
    ensures FilesAccepted(MIXED, Folding)
  {
    var files := Contents(MIXED);
    var folded := Folded(files, Folding);
    assert FoldPath(Folding, ["SKILL.md"]) == ["SKILL.md"];
    assert Folding("A") == "a" && Folding("a") == "a" && Folding("x") == "x" && Folding("y") == "y";
    assert FoldPath(Folding, ["A", "x"]) == ["a", "x"] && FoldPath(Folding, ["a", "y"]) == ["a", "y"];
    assert folded[0].path == ["SKILL.md"] && folded[1].path == ["a", "x"] && folded[2].path == ["a", "y"];
    NoneIsPrefix(folded[0].path, folded[1].path, folded[2].path);
    assert IsManual(files[0]);
    MixedIsSmall();
  }

  lemma NoneIsPrefix(a: Path, b: Path, c: Path)
    requires a == ["SKILL.md"] && b == ["a", "x"] && c == ["a", "y"]
    ensures !(a <= b) && !(a <= c) && !(b <= a) && !(c <= a) && !(b <= c) && !(c <= b)
  {
    assert a[0][0] == 'S' && b[0][0] == 'a' && c[0][0] == 'a';
    assert b[1][0] == 'x' && c[1][0] == 'y';
  }

  lemma MixedIsSmall()
    ensures Total(MIXED) <= MAX_SKILL && forall i | 0 <= i < |MIXED| :: DownloadOk(MIXED[i])
  {
    var one, two := [MIXED[0]], [MIXED[0], MIXED[1]];
    assert MIXED[..2] == two && two[..1] == one && one[..0] == [];
    assert Total(one) == Total([]) + Size(MIXED[0]);
    assert Total(two) == Total(one) + Size(MIXED[1]) && Total(MIXED) == Total(two) + Size(MIXED[2]);
  }

  /** Accepted, and written without error to a volume that ignores case: but the next check refuses the directory. */
  lemma PublishedSkillIsRefused(disk: Disk, names: Names, seen: Disk)
    requires IsPublished(disk, Folded(Contents(MIXED), Folding)) && Spelled(disk, names, Contents(MIXED), Folding)
    requires Shows(seen, disk, names)
    ensures FilesAccepted(MIXED, Folding) && Left(disk, names, Contents(MIXED), Folding)
    ensures !IsPublished(seen, Contents(MIXED))
  {
    hide IsPublished, Spelled, Shows, NoClash;
    var files := Contents(MIXED);
    MixedIsAccepted();
    assert files[1].path[..1] == ["A"] && files[2].path[..1] == ["a"];
    assert Folding("A") == "a" && Folding("a") == "a";
    assert FoldPath(Folding, ["A"]) == ["a"] && FoldPath(Folding, ["a"]) == ["a"];
    assert "A"[0] != "a"[0];
    assert !SpelledAlike(files[1].path, files[2].path, Folding);
    AcceptedAgainIff(disk, names, seen, files, Folding);
  }
}
