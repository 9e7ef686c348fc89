/**
 Decoding a downloaded skill: the rules for its paths, its limits and its digest.

 Paths are the parts between slashes and strings are their UTF-8 bytes. `fold` stands for the
 normalisation and case folding of one part, `letter` for a lower-case letter or a digit, and
 `hash` for SHA-256 in hexadecimal.
 */
module SkillDecode {
  import opened Archive
  import opened ByteFormats
  import opened KeyOrder
  import opened Options
  import opened SkillPublish

  const MAX_SKILL: nat := 32 * 1024 * 1024
  const MAX_SKILL_FILE: nat := 8 * 1024 * 1024
  const MAX_MANUAL: nat := 1024 * 1024
  const MAX_PATH_BYTES: nat := 4 * 512

  /** The content is absent when the text is not base64. */
  datatype Download = Download(path: Path, content: Option<string>)

  datatype Package = Package(name: string, digest: string, files: seq<Download>)

  datatype Reference = Reference(name: string, digest: string)

  /** What splitting a path of a download at its slashes gives. */
  ghost predicate FromText(files: seq<Download>) {
    forall i | 0 <= i < |files| :: files[i].path != [] && Plain(files[i].path) && |Join(files[i].path)| <= MAX_PATH_BYTES
  }

  predicate SkillNameOk(name: string, letter: char -> bool) {
    && (name != "" ==> name[0] != '-' && name[|name| - 1] != '-')
    && (forall i | 0 < i < |name| :: !(name[i - 1] == '-' && name[i] == '-'))
    && (forall i | 0 <= i < |name| :: name[i] == '-' || letter(name[i]))
  }

  predicate SkillPartOk(part: string) {
    && part != "" && part != "." && part != ".."
    && (forall i | 0 <= i < |part| :: part[i] != '\\' && part[i] != ':' && ' ' <= part[i] && part[i] as int != 127)
  }

  predicate DownloadOk(file: Download) {
    && (forall i | 0 <= i < |file.path| :: SkillPartOk(file.path[i]))
    && file.content.Some? && |file.content.value| <= MAX_SKILL_FILE
  }

  // ---- Sorting by path -------------------------------------------------------

  function Place(sorted: seq<Download>, file: Download): seq<Download> {
    if sorted == [] || Before(Join(file.path), Join(sorted[0].path)) then [file] + sorted
    else [sorted[0]] + Place(sorted[1..], file)
  }

  /** Python's stable sort by path. */
  function ByPath(files: seq<Download>): seq<Download> {
    if files == [] then [] else Place(ByPath(files[..|files| - 1]), files[|files| - 1])
  }

  ghost predicate InOrder(files: seq<Download>) {
    forall i, j | 0 <= i < j < |files| :: !Before(Join(files[j].path), Join(files[i].path))
  }

  lemma {:induction false} PlaceAdds(sorted: seq<Download>, file: Download)
    ensures multiset(Place(sorted, file)) == multiset(sorted) + multiset{file}
  {
    if sorted != [] && !Before(Join(file.path), Join(sorted[0].path)) {
      PlaceAdds(sorted[1..], file);
      assert sorted == [sorted[0]] + sorted[1..];
    }
  }

  lemma NotAfterTwice(a: string, b: string, c: string)
    requires !Before(b, a) && !Before(c, b)
    ensures !Before(c, a)
  {
    BeforeIsStrict(a, b);
    BeforeIsStrict(b, c);
    BeforeIsStrict(a, c);
    if Before(a, b) && Before(b, c) { BeforeIsTransitive(a, b, c); }
  }

  lemma PlacedMember(sorted: seq<Download>, file: Download, i: nat)
    requires i < |Place(sorted, file)|
    ensures Place(sorted, file)[i] == file || Place(sorted, file)[i] in sorted
  {
    PlaceAdds(sorted, file);
    assert Place(sorted, file)[i] in multiset(Place(sorted, file));
  }

  lemma {:induction false} PlaceKeepsOrder(sorted: seq<Download>, file: Download)
    requires InOrder(sorted)
    ensures InOrder(Place(sorted, file))
  {
    var all := Place(sorted, file);
    if sorted == [] {
    } else if Before(Join(file.path), Join(sorted[0].path)) {
      BeforeIsStrict(Join(file.path), Join(sorted[0].path));
      forall j | 0 <= j < |sorted| ensures !Before(Join(sorted[j].path), Join(file.path)) {
        BeforeIsStrict(Join(sorted[0].path), Join(sorted[j].path));
        NotAfterTwice(Join(file.path), Join(sorted[0].path), Join(sorted[j].path));
      }
    } else {
      var rest := Place(sorted[1..], file);
      PlaceKeepsOrder(sorted[1..], file);
      forall j | 0 <= j < |rest| ensures !Before(Join(rest[j].path), Join(sorted[0].path)) {
        PlacedMember(sorted[1..], file, j);
      }
    }
  }

  lemma {:induction false} ByPathSorts(files: seq<Download>)
    ensures multiset(ByPath(files)) == multiset(files) && InOrder(ByPath(files))
  {
    if files != [] {
      hide InOrder, Place;
      var n := |files| - 1;
      ByPathSorts(files[..n]);
      PlaceAdds(ByPath(files[..n]), files[n]);
      PlaceKeepsOrder(ByPath(files[..n]), files[n]);
      assert files == files[..n] + [files[n]];
    }
  }

  // ---- What is accepted ------------------------------------------------------

  function Size(file: Download): nat { |file.content.GetOr("")| }

  function Total(files: seq<Download>): nat {
    if files == [] then 0 else Total(files[..|files| - 1]) + Size(files[|files| - 1])
  }

  function Contents(files: seq<Download>): (named: seq<Named>)
    ensures |named| == |files|
    ensures forall i | 0 <= i < |files| :: named[i] == Named(files[i].path, files[i].content.GetOr(""))
  {
    seq(|files|, i requires 0 <= i < |files| => Named(files[i].path, files[i].content.GetOr("")))
  }

  predicate IsManual(file: Named) { file.path == ["SKILL.md"] && |file.content| <= MAX_MANUAL }

  function Texts(files: seq<Named>): (texts: seq<SkillFile>)
    ensures |texts| == |files|
    ensures forall i | 0 <= i < |files| :: texts[i] == SkillFile(Join(files[i].path), files[i].content)
  {
    seq(|files|, i requires 0 <= i < |files| => SkillFile(Join(files[i].path), files[i].content))
  }

  ghost predicate FilesAccepted(files: seq<Download>, fold: string -> string) {
    && (forall i | 0 <= i < |files| :: DownloadOk(files[i]))
    && Total(files) <= MAX_SKILL
    && NoClash(Folded(Contents(files), fold))
    && (exists i :: 0 <= i < |files| && IsManual(Contents(files)[i]))
  }

  ghost predicate Accepted(p: Package, reference: Reference, fold: string -> string, letter: char -> bool, hash: string -> string) {
    && p.name == reference.name && p.digest == reference.digest && SkillNameOk(p.name, letter)
    && FilesAccepted(ByPath(p.files), fold)
    && hash(SkillText(Texts(Contents(ByPath(p.files))))) == reference.digest
  }

  // ---- Decoding --------------------------------------------------------------

  ghost predicate FoldedPaths(paths: set<Path>, files: seq<Download>, fold: string -> string) {
    forall q :: q in paths <==> exists i :: 0 <= i < |files| && FoldPath(fold, files[i].path) == q
  }

  ghost predicate DistinctFiles(files: seq<Download>, fold: string -> string) {
    forall i, j | 0 <= i < j < |files| :: FoldPath(fold, files[i].path) != FoldPath(fold, files[j].path)
  }

  ghost predicate Readable(files: seq<Download>, fold: string -> string) {
    (forall i | 0 <= i < |files| :: DownloadOk(files[i])) && DistinctFiles(files, fold) && Total(files) <= MAX_SKILL
  }

  lemma PathsMore(paths: set<Path>, files: seq<Download>, file: Download, fold: string -> string)
    requires FoldedPaths(paths, files, fold)
    ensures FoldedPaths(paths + {FoldPath(fold, file.path)}, files + [file], fold)
  {
    hide FoldPath;
    var all := files + [file];
    var n := |files|;
    assert all[n] == file && forall i | 0 <= i < n :: all[i] == files[i];
    forall q ensures q in paths + {FoldPath(fold, file.path)} <==> exists i :: 0 <= i < |all| && FoldPath(fold, all[i].path) == q {
      if i :| 0 <= i < n && FoldPath(fold, files[i].path) == q {
        assert FoldPath(fold, all[i].path) == q;
      } else if q == FoldPath(fold, file.path) {
        assert FoldPath(fold, all[n].path) == q;
      }
    }
  }

  lemma DistinctMore(paths: set<Path>, files: seq<Download>, file: Download, fold: string -> string)
    requires FoldedPaths(paths, files, fold) && DistinctFiles(files, fold)
    ensures DistinctFiles(files + [file], fold) <==> FoldPath(fold, file.path) !in paths
  {
    hide FoldPath;
    var all := files + [file];
    var n := |files|;
    assert all[n] == file && forall i | 0 <= i < n :: all[i] == files[i];
    if FoldPath(fold, file.path) in paths {
      var i :| 0 <= i < n && FoldPath(fold, files[i].path) == FoldPath(fold, file.path);
      assert FoldPath(fold, all[i].path) == FoldPath(fold, all[n].path);
    }
  }

  lemma AllOkMore(files: seq<Download>, file: Download)
    requires forall i | 0 <= i < |files| :: DownloadOk(files[i])
    ensures (forall i | 0 <= i < |files + [file]| :: DownloadOk((files + [file])[i])) <==> DownloadOk(file)
  {
    hide DownloadOk;
    assert (files + [file])[|files|] == file;
  }

  lemma ReadMore(paths: set<Path>, files: seq<Download>, file: Download, fold: string -> string)
    requires FoldedPaths(paths, files, fold) && Readable(files, fold)
    ensures Readable(files + [file], fold) <==>
            DownloadOk(file) && FoldPath(fold, file.path) !in paths && Total(files) + Size(file) <= MAX_SKILL
    ensures FoldedPaths(paths + {FoldPath(fold, file.path)}, files + [file], fold)
  {
    hide FoldPath, DownloadOk, FoldedPaths, DistinctFiles, Size;
    PathsMore(paths, files, file, fold);
    DistinctMore(paths, files, file, fold);
    AllOkMore(files, file);
    assert (files + [file])[..|files|] == files;
  }

  lemma {:induction false} TotalGrows(files: seq<Download>, n: nat)
    requires n <= |files|
    ensures Total(files[..n]) <= Total(files)
    decreases |files|
  {
    if n < |files| {
      TotalGrows(files[..|files| - 1], n);
      assert files[..|files| - 1][..n] == files[..n];
    } else {
      assert files[..n] == files;
    }
  }

  lemma ReadableFirsts(files: seq<Download>, n: nat, fold: string -> string)
    requires n <= |files| && Readable(files, fold)
    ensures Readable(files[..n], fold)
  {
    TotalGrows(files, n);
  }

  /** The first `n` files have been read. */
  ghost predicate ReadSoFar(files: seq<Download>, n: nat, fold: string -> string, paths: set<Path>, named: seq<Named>, total: nat)
    requires n <= |files|
  {
    && Readable(files[..n], fold) && FoldedPaths(paths, files[..n], fold)
    && named == Contents(files[..n]) && total == Total(files[..n])
  }

  lemma NothingRead(files: seq<Download>, fold: string -> string)
    ensures ReadSoFar(files, 0, fold, {}, [], 0)
  {
  }

  lemma ReadsMore(files: seq<Download>, n: nat, fold: string -> string, paths: set<Path>, named: seq<Named>, total: nat)
    requires n < |files| && ReadSoFar(files, n, fold, paths, named, total)
    ensures var file, key := files[n], FoldPath(fold, files[n].path);
            if DownloadOk(file) && key !in paths && total + Size(file) <= MAX_SKILL
            then ReadSoFar(files, n + 1, fold, paths + {key}, named + [Named(file.path, file.content.GetOr(""))], total + Size(file))
            else !Readable(files, fold)
  {
    var file, before := files[n], files[..n];
    assert files[..n + 1] == before + [file] && (before + [file])[..n] == before;
    ReadMore(paths, before, file, fold);
    hide Readable, FoldedPaths, DownloadOk, FoldPath, Size;
    if Readable(files, fold) { ReadableFirsts(files, n + 1, fold); }
    assert Contents(before + [file]) == Contents(before) + [Named(file.path, file.content.GetOr(""))];
  }

  lemma AllRead(files: seq<Download>, fold: string -> string, paths: set<Path>, named: seq<Named>, total: nat)
    requires ReadSoFar(files, |files|, fold, paths, named, total)
    ensures Readable(files, fold) && FoldedPaths(paths, files, fold) && named == Contents(files)
  {
    assert files[..|files|] == files;
  }

  method ReadFiles(files: seq<Download>, fold: string -> string)
    returns (ok: bool, paths: set<Path>, named: seq<Named>)
    ensures ok <==> Readable(files, fold)
    ensures ok ==> FoldedPaths(paths, files, fold) && named == Contents(files)
  {
    hide *;
    paths, named := {}, [];
    var total: nat := 0;
    NothingRead(files, fold);
    for n := 0 to |files|
      invariant ReadSoFar(files, n, fold, paths, named, total)
    {
      var file := files[n];
      ReadsMore(files, n, fold, paths, named, total);
      if !DownloadOk(file) || FoldPath(fold, file.path) in paths || total + Size(file) > MAX_SKILL {
        return false, paths, named;
      }
      total := total + Size(file);
      paths := paths + {FoldPath(fold, file.path)};
      named := named + [Named(file.path, file.content.GetOr(""))];
    }
    AllRead(files, fold, paths, named, total);
    return true, paths, named;
  }

  ghost predicate NamedPaths(paths: set<Path>, files: seq<Named>, fold: string -> string) {
    forall q :: q in paths <==> exists i :: 0 <= i < |files| && FoldPath(fold, files[i].path) == q
  }

  /** Some folded path is a directory of another one. */
  ghost predicate HasConflict(files: seq<Named>, fold: string -> string) {
    exists i, j :: 0 <= i < |files| && 0 <= j < |files| && FoldPath(fold, files[i].path) < FoldPath(fold, files[j].path)
  }

  /** No directory above `path`, up to a depth, is among the paths. */
  ghost predicate NoneAbove(paths: set<Path>, path: Path, depth: nat) {
    forall q: Path | q < path && |q| < depth :: q !in paths
  }

  lemma OneMoreAbove(paths: set<Path>, path: Path, k: nat)
    requires 0 < k < |path| && NoneAbove(paths, path, k) && path[..k] !in paths
    ensures NoneAbove(paths, path, k + 1)
  {
    assert forall q: Path | q < path && |q| == k :: q == path[..k];
  }

  method FindAbove(paths: set<Path>, path: Path) returns (found: bool, above: Path)
    requires path != [] && [] !in paths
    ensures if found then above in paths && above < path else NoneAbove(paths, path, |path|)
  {
    above := [];
    for k := 1 to |path|
      invariant NoneAbove(paths, path, k)
    {
      if path[..k] in paths {
        return true, path[..k];
      }
      OneMoreAbove(paths, path, k);
    }
    return false, [];
  }

  method FindConflict(files: seq<Named>, paths: set<Path>, fold: string -> string) returns (found: bool)
    requires NamedPaths(paths, files, fold)
    requires HavePaths(files)
    ensures found <==> HasConflict(files, fold)
  {
    hide *;
    NothingClear(paths, files, fold);
    for j := 0 to |files|
      invariant Clear(paths, files, j, fold)
    {
      var path := FoldPath(fold, files[j].path);
      FoldedNotEmpty(files, paths, fold, j);
      var some, above := FindAbove(paths, path);
      if some {
        ConflictFound(files, paths, fold, above, j);
        return true;
      }
      ClearMore(paths, files, j, fold);
    }
    NoConflictFound(files, paths, fold);
    return false;
  }

  ghost predicate Clear(paths: set<Path>, files: seq<Named>, n: nat, fold: string -> string) {
    forall m | 0 <= m < n && m < |files| :: NoneAbove(paths, FoldPath(fold, files[m].path), |FoldPath(fold, files[m].path)|)
  }

  lemma NothingClear(paths: set<Path>, files: seq<Named>, fold: string -> string)
    ensures Clear(paths, files, 0, fold)
  {
  }

  lemma ClearMore(paths: set<Path>, files: seq<Named>, n: nat, fold: string -> string)
    requires n < |files| && Clear(paths, files, n, fold)
    requires NoneAbove(paths, FoldPath(fold, files[n].path), |FoldPath(fold, files[n].path)|)
    ensures Clear(paths, files, n + 1, fold)
  {
  }

  lemma FoldedNotEmpty(files: seq<Named>, paths: set<Path>, fold: string -> string, j: nat)
    requires NamedPaths(paths, files, fold) && HavePaths(files) && j < |files|
    ensures [] !in paths && FoldPath(fold, files[j].path) != []
  {
  }

  lemma ConflictFound(files: seq<Named>, paths: set<Path>, fold: string -> string, q: Path, j: nat)
    requires NamedPaths(paths, files, fold)
    requires j < |files| && q in paths && q < FoldPath(fold, files[j].path)
    ensures HasConflict(files, fold)
  {
    var i :| 0 <= i < |files| && FoldPath(fold, files[i].path) == q;
    assert FoldPath(fold, files[i].path) < FoldPath(fold, files[j].path);
  }

  lemma NoConflictFound(files: seq<Named>, paths: set<Path>, fold: string -> string)
    requires NamedPaths(paths, files, fold)
    requires Clear(paths, files, |files|, fold)
    ensures !HasConflict(files, fold)
  {
    forall i, j | 0 <= i < |files| && 0 <= j < |files| ensures !(FoldPath(fold, files[i].path) < FoldPath(fold, files[j].path)) {
      assert FoldPath(fold, files[i].path) in paths;
    }
  }

  /** The bytes that go into the digest, one file after the other. */
  method DigestText(named: seq<Named>) returns (text: string)
    ensures text == SkillText(Texts(named))
  {
    text := "";
    hide Prefixed;
    for n := 0 to |named|
      invariant SkillText(Texts(named)) == text + SkillText(Texts(named)[n..])
    {
      var part := Prefixed(PATH_WIDTH, Join(named[n].path)) + Prefixed(CONTENT_WIDTH, named[n].content);
      var rest := Texts(named)[n..];
      assert rest[0] == Texts(named)[n] && rest[1..] == Texts(named)[n + 1..];
      assert SkillText(rest) == part + SkillText(Texts(named)[n + 1..]);
      assert text + (part + SkillText(Texts(named)[n + 1..])) == (text + part) + SkillText(Texts(named)[n + 1..]);
      text := text + part;
    }
    assert Texts(named)[|named|..] == [];
  }

  method Decode(p: Package, reference: Reference, fold: string -> string, letter: char -> bool, hash: string -> string)
    returns (result: Option<seq<Named>>)
    requires FromText(p.files)
    ensures result.Some? <==> Accepted(p, reference, fold, letter, hash)
    ensures result.Some? ==> result.value == Contents(ByPath(p.files))
  {
    if p.name != reference.name || p.digest != reference.digest || !SkillNameOk(p.name, letter) {
      return None;
    }
    var sorted := ByPath(p.files);
    hide ByPath, FilesAccepted, Readable, HasConflict, SkillNameOk, FoldPath, SkillText;
    ByPathFromText(p.files);
    AcceptedMeans(sorted, fold);
    var ok, paths, named := ReadFiles(sorted, fold);
    if !ok {
      return None;
    }
    PathsOfContents(paths, sorted, fold);
    var conflict := FindConflict(named, paths, fold);
    if conflict || !exists i :: 0 <= i < |named| && IsManual(named[i]) {
      return None;
    }
    var text := DigestText(named);
    if hash(text) != reference.digest {
      return None;
    }
    return Some(named);
  }

  lemma PathsOfContents(paths: set<Path>, files: seq<Download>, fold: string -> string)
    requires FoldedPaths(paths, files, fold) && FromText(files)
    ensures NamedPaths(paths, Contents(files), fold) && HavePaths(Contents(files))
  {
    var named := Contents(files);
    forall q ensures q in paths <==> exists i :: 0 <= i < |named| && FoldPath(fold, named[i].path) == q {
      if i :| 0 <= i < |files| && FoldPath(fold, files[i].path) == q {
        assert FoldPath(fold, named[i].path) == q;
      }
    }
  }

  lemma ByPathFromText(files: seq<Download>)
    requires FromText(files)
    ensures FromText(ByPath(files))
  {
    ByPathSorts(files);
    forall i | 0 <= i < |ByPath(files)| ensures ByPath(files)[i] in files {
      assert ByPath(files)[i] in multiset(ByPath(files));
    }
  }

  /** The two checks on paths together are that no folded name stands in another's way. */
  lemma NoClashMeans(files: seq<Download>, fold: string -> string)
    ensures NoClash(Folded(Contents(files), fold)) <==> DistinctFiles(files, fold) && !HasConflict(Contents(files), fold)
  {
    hide FoldPath;
    var named := Contents(files);
    var folded := Folded(named, fold);
    assert forall i | 0 <= i < |files| :: folded[i].path == FoldPath(fold, named[i].path) && named[i].path == files[i].path;
    if NoClash(folded) {
      forall i, j | 0 <= i < |files| && 0 <= j < |files| && i != j
        ensures FoldPath(fold, files[i].path) != FoldPath(fold, files[j].path)
        ensures !(FoldPath(fold, named[i].path) < FoldPath(fold, named[j].path))
      {
        assert !(folded[i].path <= folded[j].path);
        PrefixOrSame(folded[i].path, folded[j].path);
      }
    } else {
      var i, j :| 0 <= i < |files| && 0 <= j < |files| && i != j && folded[i].path <= folded[j].path;
      PrefixOrSame(folded[i].path, folded[j].path);
      if folded[i].path != folded[j].path {
        assert FoldPath(fold, named[i].path) < FoldPath(fold, named[j].path);
      }
    }
  }

  lemma AcceptedMeans(files: seq<Download>, fold: string -> string)
    ensures FilesAccepted(files, fold) <==>
            && Readable(files, fold) && !HasConflict(Contents(files), fold)
            && (exists i :: 0 <= i < |files| && IsManual(Contents(files)[i]))
  {
    NoClashMeans(files, fold);
    hide NoClash, HasConflict, DistinctFiles, DownloadOk;
  }
}
