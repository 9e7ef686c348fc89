/**
 What decoding guarantees: one digest means one set of files, the order of the download is
 irrelevant, and everything accepted can be written without collisions.
 */
module SkillSafety {
  import opened Archive
  import opened ByteFormats
  import opened KeyOrder
  import opened SkillDecode
  import opened SkillPublish
  import opened TreeDigest

  // ---- The digest ------------------------------------------------------------

  lemma PowersAreLarge()
    ensures Power(PATH_WIDTH) > MAX_PATH_BYTES && Power(CONTENT_WIDTH) > MAX_SKILL_FILE
  {
    assert Power(1) == 256 && Power(2) == 65536;
    assert Power(3) == 256 * Power(2) && Power(4) == 256 * Power(3);
    assert Power(5) == 256 * Power(4) && Power(6) == 256 * Power(5);
    assert Power(7) == 256 * Power(6) && Power(8) == 256 * Power(7);
  }

  lemma TextsFit(files: seq<Download>)
    requires FromText(files) && forall i | 0 <= i < |files| :: DownloadOk(files[i])
    ensures Fits(Texts(Contents(files)))
  {
    PowersAreLarge();
  }

  /** Two accepted downloads with one digest hold the same files. */
  lemma OneDigestOneContent(p: Package, q: Package, r: Reference, s: Reference, fold: string -> string, letter: char -> bool, hash: string -> string)
    requires FromText(p.files) && FromText(q.files)
    requires Accepted(p, r, fold, letter, hash) && Accepted(q, s, fold, letter, hash) && p.digest == q.digest
    requires forall a, b | hash(a) == hash(b) :: a == b
    ensures Contents(ByPath(p.files)) == Contents(ByPath(q.files))
  {
    var a, b := ByPath(p.files), ByPath(q.files);
    hide ByPath, SkillNameOk, DownloadOk, SkillText, Fits, NoClash, Total;
    ByPathFromText(p.files);
    ByPathFromText(q.files);
    TextsFit(a);
    TextsFit(b);
    SkillTextInjective(Texts(Contents(a)), Texts(Contents(b)));
    SameTexts(Contents(a), Contents(b));
  }

  lemma SameTexts(a: seq<Named>, b: seq<Named>)
    requires Texts(a) == Texts(b)
    requires forall i | 0 <= i < |a| :: a[i].path != [] && Plain(a[i].path)
    requires forall i | 0 <= i < |b| :: b[i].path != [] && Plain(b[i].path)
    ensures a == b
  {
    assert |a| == |Texts(a)| == |b|;
    forall i | 0 <= i < |a| ensures a[i] == b[i] {
      assert Texts(a)[i] == Texts(b)[i];
      JoinInjective(a[i].path, b[i].path);
    }
  }

  // ---- The order of the download ---------------------------------------------

  function PathNames(files: seq<Download>): (names: seq<string>)
    ensures |names| == |files| && forall i | 0 <= i < |files| :: names[i] == Join(files[i].path)
  {
    seq(|files|, i requires 0 <= i < |files| => Join(files[i].path))
  }

  ghost predicate DistinctPaths(files: seq<Download>) {
    forall i, j | 0 <= i < j < |files| :: files[i].path != files[j].path
  }

  lemma DistinctIncreases(files: seq<Download>)
    requires InOrder(files) && FromText(files) && DistinctPaths(files)
    ensures Increasing(PathNames(files))
  {
    forall i, j | 0 <= i < j < |files| ensures Before(PathNames(files)[i], PathNames(files)[j]) {
      BeforeIsStrict(Join(files[i].path), Join(files[j].path));
      if Join(files[i].path) == Join(files[j].path) { JoinInjective(files[i].path, files[j].path); }
    }
  }

  lemma {:induction false} DistinctCounts(files: seq<Download>)
    requires DistinctPaths(files)
    ensures forall f | f in files :: multiset(files)[f] == 1
  {
    if files != [] {
      var n := |files| - 1;
      DistinctCounts(files[..n]);
      assert files == files[..n] + [files[n]];
      assert files[n] !in files[..n];
    }
  }

  /** Distinct paths are a matter of which files there are. */
  lemma DistinctBothWays(a: seq<Download>, b: seq<Download>)
    requires multiset(a) == multiset(b) && DistinctPaths(a)
    ensures DistinctPaths(b)
  {
    DistinctCounts(a);
    forall i, j | 0 <= i < j < |b| ensures b[i].path != b[j].path {
      TwiceCounts(b, i, j);
      assert b[i] in multiset(a) && b[j] in multiset(a);
      var k :| 0 <= k < |a| && a[k] == b[i];
      var m :| 0 <= m < |a| && a[m] == b[j];
    }
  }

  lemma TwiceCounts(files: seq<Download>, i: nat, j: nat)
    requires i < j < |files|
    ensures files[i] == files[j] ==> multiset(files)[files[i]] >= 2
  {
    assert files == files[..j] + files[j..];
    assert files[i] in files[..j] && files[j] in files[j..];
  }

  /** Sorting forgets in which order the files came. */
  lemma SortedOnce(a: seq<Download>, b: seq<Download>)
    requires multiset(a) == multiset(b) && InOrder(a) && InOrder(b) && FromText(a) && FromText(b) && DistinctPaths(a)
    ensures a == b
  {
    DistinctBothWays(a, b);
    DistinctIncreases(a);
    DistinctIncreases(b);
    forall x ensures x in PathNames(a) <==> x in PathNames(b) {
      NamesFrom(a, b, x);
      NamesFrom(b, a, x);
    }
    IncreasingUnique(PathNames(a), PathNames(b));
    assert |a| == |PathNames(a)| == |b|;
    forall i | 0 <= i < |a| ensures a[i] == b[i] {
      assert PathNames(a)[i] == PathNames(b)[i];
      JoinInjective(a[i].path, b[i].path);
      assert b[i] in multiset(a);
      var k :| 0 <= k < |a| && a[k] == b[i];
      assert k == i;
    }
  }

  lemma NamesFrom(a: seq<Download>, b: seq<Download>, x: string)
    requires multiset(a) == multiset(b)
    ensures x in PathNames(a) ==> x in PathNames(b)
  {
    if i :| 0 <= i < |a| && PathNames(a)[i] == x {
      assert a[i] in multiset(b);
      var j :| 0 <= j < |b| && b[j] == a[i];
      assert PathNames(b)[j] == x;
    }
  }

  lemma AcceptedAreDistinct(files: seq<Download>, fold: string -> string)
    requires FilesAccepted(files, fold)
    ensures DistinctPaths(files)
  {
    var folded := Folded(Contents(files), fold);
    forall i, j | 0 <= i < j < |files| ensures files[i].path != files[j].path {
      assert folded[i].path == FoldPath(fold, files[i].path) && folded[j].path == FoldPath(fold, files[j].path);
      assert !(folded[i].path <= folded[j].path);
    }
  }

  /** The same files in another order are accepted just the same, as the same list. */
  lemma OrderDoesNotMatter(p: Package, files: seq<Download>, r: Reference, fold: string -> string, letter: char -> bool, hash: string -> string)
    requires FromText(p.files) && FromText(files) && multiset(p.files) == multiset(files)
    ensures Accepted(p, r, fold, letter, hash) <==> Accepted(p.(files := files), r, fold, letter, hash)
    ensures Accepted(p, r, fold, letter, hash) ==> ByPath(p.files) == ByPath(files)
  {
    var a, b := ByPath(p.files), ByPath(files);
    hide ByPath, SkillNameOk, FilesAccepted, SkillText, InOrder, FromText, DistinctPaths;
    ByPathSorts(p.files);
    ByPathSorts(files);
    ByPathFromText(p.files);
    ByPathFromText(files);
    if FilesAccepted(a, fold) {
      AcceptedAreDistinct(a, fold);
      SortedOnce(a, b);
    } else if FilesAccepted(b, fold) {
      AcceptedAreDistinct(b, fold);
      SortedOnce(b, a);
    }
  }

  // ---- Writing them ----------------------------------------------------------

  /** The volume confuses no more names than the check does. */
  ghost predicate NoCoarser(volume: string -> string, fold: string -> string) {
    forall a, b | volume(a) == volume(b) :: fold(a) == fold(b)
  }

  lemma PrefixUnderFold(p: Path, q: Path, volume: string -> string, fold: string -> string)
    requires NoCoarser(volume, fold) && FoldPath(volume, p) <= FoldPath(volume, q)
    ensures FoldPath(fold, p) <= FoldPath(fold, q)
  {
    assert |p| == |FoldPath(volume, p)| <= |FoldPath(volume, q)| == |q|;
    forall i | 0 <= i < |p| ensures FoldPath(fold, p)[i] == FoldPath(fold, q)[i] {
      assert FoldPath(volume, p)[i] == FoldPath(volume, q)[i];
    }
  }

  /** All files of all skills, each below the name of its skill. */
  function Together(names: seq<string>, skills: seq<seq<Named>>): seq<Named>
    requires |names| == |skills|
  {
    if names == [] then []
    else Below(names[0], skills[0]) + Together(names[1..], skills[1..])
  }

  function Below(name: string, files: seq<Named>): (below: seq<Named>)
    ensures |below| == |files|
    ensures forall i | 0 <= i < |files| :: below[i] == Named([name] + files[i].path, files[i].content)
  {
    seq(|files|, i requires 0 <= i < |files| => Named([name] + files[i].path, files[i].content))
  }

  /** Every file lies below one of the names. */
  lemma {:induction false} TogetherAt(names: seq<string>, skills: seq<seq<Named>>, i: nat) returns (k: nat)
    requires |names| == |skills| && i < |Together(names, skills)|
    ensures k < |names| && |Together(names, skills)[i].path| > 0 && Together(names, skills)[i].path[0] == names[k]
  {
    if i < |skills[0]| {
      k := 0;
    } else {
      k := TogetherAt(names[1..], skills[1..], i - |skills[0]|);
      k := k + 1;
    }
  }

  ghost predicate DistinctSkillNames(names: seq<string>, fold: string -> string) {
    forall i, j | 0 <= i < j < |names| :: fold(names[i]) != fold(names[j])
  }

  ghost predicate NoneTouch(files: seq<Named>, fold: string -> string) {
    forall i, j | 0 <= i < |files| && 0 <= j < |files| && i != j ::
      !(FoldPath(fold, files[i].path) <= FoldPath(fold, files[j].path))
  }

  lemma NoneTouchMeans(files: seq<Named>, fold: string -> string)
    ensures NoneTouch(files, fold) <==> NoClash(Folded(files, fold))
  {
    var folded := Folded(files, fold);
    assert forall i | 0 <= i < |files| :: folded[i].path == FoldPath(fold, files[i].path);
    if NoClash(folded) {
      forall i, j | 0 <= i < |files| && 0 <= j < |files| && i != j
        ensures !(FoldPath(fold, files[i].path) <= FoldPath(fold, files[j].path))
      {
        assert !(folded[i].path <= folded[j].path);
      }
    }
  }

  lemma FoldUnder(fold: string -> string, name: string, p: Path)
    ensures FoldPath(fold, [name] + p) == [fold(name)] + FoldPath(fold, p)
  {
  }

  lemma BelowKeepsApart(name: string, files: seq<Named>, fold: string -> string)
    requires NoneTouch(files, fold)
    ensures NoneTouch(Below(name, files), fold)
  {
    hide FoldPath;
    var below := Below(name, files);
    forall i, j | 0 <= i < |files| && 0 <= j < |files| && i != j
      ensures !(FoldPath(fold, below[i].path) <= FoldPath(fold, below[j].path))
    {
      FoldUnder(fold, name, files[i].path);
      FoldUnder(fold, name, files[j].path);
      UnderOneName(fold(name), FoldPath(fold, files[i].path), FoldPath(fold, files[j].path));
    }
  }

  lemma UnderOneName(name: string, p: Path, q: Path)
    ensures [name] + p <= [name] + q <==> p <= q
  {
    if [name] + p <= [name] + q {
      assert ([name] + p)[1..] == p && ([name] + q)[1..] == q;
      assert forall i | 0 <= i < |p| :: ([name] + p)[i + 1] == p[i] && ([name] + q)[i + 1] == q[i];
    }
  }

  lemma OtherNameApart(p: Path, q: Path, fold: string -> string)
    requires |p| > 0 && |q| > 0 && fold(p[0]) != fold(q[0])
    ensures !(FoldPath(fold, p) <= FoldPath(fold, q)) && !(FoldPath(fold, q) <= FoldPath(fold, p))
  {
    assert FoldPath(fold, p)[0] == fold(p[0]) && FoldPath(fold, q)[0] == fold(q[0]);
  }

  lemma {:induction false} TogetherApart(names: seq<string>, skills: seq<seq<Named>>, fold: string -> string)
    requires |names| == |skills| && DistinctSkillNames(names, fold)
    requires forall k | 0 <= k < |skills| :: NoneTouch(skills[k], fold)
    ensures NoneTouch(Together(names, skills), fold)
  {
    if names != [] {
      var first, rest := Below(names[0], skills[0]), Together(names[1..], skills[1..]);
      BelowKeepsApart(names[0], skills[0], fold);
      TogetherApart(names[1..], skills[1..], fold);
      forall i, j | 0 <= i < |first| && 0 <= j < |rest|
        ensures !(FoldPath(fold, first[i].path) <= FoldPath(fold, rest[j].path))
        ensures !(FoldPath(fold, rest[j].path) <= FoldPath(fold, first[i].path))
      {
        var k := TogetherAt(names[1..], skills[1..], j);
        OtherNameApart(first[i].path, rest[j].path, fold);
      }
      NoneTouchBoth(first, rest, fold);
    }
  }

  lemma NoneTouchBoth(first: seq<Named>, rest: seq<Named>, fold: string -> string)
    requires NoneTouch(first, fold) && NoneTouch(rest, fold)
    requires forall i, j | 0 <= i < |first| && 0 <= j < |rest| ::
               && !(FoldPath(fold, first[i].path) <= FoldPath(fold, rest[j].path))
               && !(FoldPath(fold, rest[j].path) <= FoldPath(fold, first[i].path))
    ensures NoneTouch(first + rest, fold)
  {
    hide FoldPath;
  }

  lemma CoarserApart(files: seq<Named>, volume: string -> string, fold: string -> string)
    requires NoCoarser(volume, fold) && NoneTouch(files, fold)
    ensures NoneTouch(files, volume)
  {
    forall i, j | 0 <= i < |files| && 0 <= j < |files| && i != j
      ensures !(FoldPath(volume, files[i].path) <= FoldPath(volume, files[j].path))
    {
      if FoldPath(volume, files[i].path) <= FoldPath(volume, files[j].path) {
        PrefixUnderFold(files[i].path, files[j].path, volume, fold);
      }
    }
  }

  /**
   Skills with distinct folded names, each decoded successfully, can be written together into a new directory
   on every volume that confuses no more names than the check: no file meets another file or a directory.
   */
  lemma AcceptedSkillsPublish(names: seq<string>, lists: seq<seq<Download>>, skills: seq<seq<Named>>,
                              volume: string -> string, fold: string -> string)
    requires |names| == |lists| == |skills| && DistinctSkillNames(names, fold) && NoCoarser(volume, fold)
    requires forall k | 0 <= k < |lists| :: FilesAccepted(lists[k], fold) && skills[k] == Contents(lists[k])
    ensures NoClash(Folded(Together(names, skills), volume)) && HavePaths(Together(names, skills))
  {
    forall k | 0 <= k < |skills| ensures NoneTouch(skills[k], fold) { NoneTouchMeans(skills[k], fold); }
    TogetherApart(names, skills, fold);
    CoarserApart(Together(names, skills), volume, fold);
    NoneTouchMeans(Together(names, skills), volume);
    forall i | 0 <= i < |Together(names, skills)| ensures Together(names, skills)[i].path != [] {
      var k := TogetherAt(names, skills, i);
    }
  }
}
