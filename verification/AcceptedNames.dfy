/**
 What accepted archives, trees and skills can hold at all: names that lead to one place
 inside their directory and nowhere else, and nothing but plain directories, files and
 links within the limits. And when two names count as the same.
 */
module AcceptedNames {
  import opened Archive
  import opened ArchiveRoundTrip
  import opened ByteFormats
  import opened Options
  import opened SkillDecode
  import opened SkillPublish
  import opened TreeDigest

  // ---- Where a name leads ----------------------------------------------------

  /** Following the parts of a name from a directory, as a file system does; None once it leaves the root. */
  function Resolve(at: Path, parts: Path): Option<Path>
    decreases |parts|
  {
    if parts == [] then Some(at)
    else if parts[0] == "" || parts[0] == "." then Resolve(at, parts[1..])
    else if parts[0] == ".." then if at == [] then None else Resolve(at[..|at| - 1], parts[1..])
    else Resolve(at + [parts[0]], parts[1..])
  }

  /** A part that leads exactly one step down. */
  ghost predicate LeadsDown(part: string) { forall at: Path :: Resolve(at, [part]) == Some(at + [part]) }

  lemma OnePart(at: Path, part: string)
    ensures Resolve(at, [part]) ==
            if part == "" || part == "." then Some(at)
            else if part == ".." then (if at == [] then None else Some(at[..|at| - 1])) else Some(at + [part])
  {
    assert [part][1..] == [];
  }

  lemma LeadsDownIff(part: string)
    ensures LeadsDown(part) <==> part != "" && part != "." && part != ".."
  {
    forall at: Path ensures part != "" && part != "." && part != ".." ==> Resolve(at, [part]) == Some(at + [part]) { OnePart(at, part); }
    OnePart([], part);
    if LeadsDown(part) { assert Resolve([], [part]) == Some([] + [part]); }
  }

  lemma {:induction false} DownwardsStaysBelow(at: Path, parts: Path)
    requires forall i | 0 <= i < |parts| :: LeadsDown(parts[i])
    ensures Resolve(at, parts) == Some(at + parts)
    decreases |parts|
  {
    if parts == [] {
      assert at + parts == at;
    } else {
      LeadsDownIff(parts[0]);
      DownwardsStaysBelow(at + [parts[0]], parts[1..]);
      assert at + [parts[0]] + parts[1..] == at + parts;
    }
  }

  // ---- Archives --------------------------------------------------------------

  /** A part of an archived name is accepted exactly when it leads one step down and holds no separator, NUL or line break. */
  lemma ArchivedPartIff(part: string)
    ensures PartOk(part) <==>
            LeadsDown(part) && forall c | c in part :: c != '/' && c != '\\' && c != '\0' && c != '\n' && c != '\r'
  {
    LeadsDownIff(part);
    hide LeadsDown;
  }

  /** One extracted entry: inside the application directory, of a plain kind, within the limits of a single entry. */
  ghost predicate Contained(fs: Tree, path: Path) {
    && path in fs && path != [] && path[0] == "TinkerFin.app"
    && (forall at :: Resolve(at, path) == Some(at + path)) && '\0' !in Join(path) && '\\' !in Join(path)
    && fs[path].mode <= 0x1FF && !fs[path].Special?
    && (|path| == 1 ==> fs[path].Dir?)
    && (fs[path].File? ==> |fs[path].content| <= 1024 * 1024 * 1024)
    && (fs[path].Link? ==> (fs[path].target != "" ==> fs[path].target[0] != '/') && '\0' !in fs[path].target)
    && (forall k | 0 < k < |path| :: path[..k] in fs && fs[path[..k]].Dir?)
  }

  lemma {:induction false} JoinHolds(parts: Path, c: char)
    requires c != '/' && c in Join(parts)
    ensures exists i :: 0 <= i < |parts| && c in parts[i]
    decreases |parts|
  {
    if |parts| == 1 {
      assert c in parts[0];
    } else if c !in parts[0] {
      JoinHolds(parts[1..], c);
      var i :| 0 <= i < |parts| - 1 && c in parts[1..][i];
      assert parts[i + 1] == parts[1..][i];
    }
  }

  lemma ValidNameResolves(path: Path)
    requires NameOk(path)
    ensures forall at :: Resolve(at, path) == Some(at + path)
    ensures '\0' !in Join(path) && '\\' !in Join(path)
  {
    forall i | 0 <= i < |path| ensures LeadsDown(path[i]) { ArchivedPartIff(path[i]); }
    hide LeadsDown;
    forall at ensures Resolve(at, path) == Some(at + path) { DownwardsStaysBelow(at, path); }
    if '\0' in Join(path) { JoinHolds(path, '\0'); }
    if '\\' in Join(path) { JoinHolds(path, '\\'); }
  }

  lemma ParentsAreBuilt(items: seq<Item>, fs: Tree, i: nat, k: nat)
    requires IsBuilt(fs, items) && i < |items| && ParentsPresent(items, items[i]) && 0 < k < |items[i].parts|
    ensures items[i].parts[..k] in fs && fs[items[i].parts[..k]].Dir?
  {
    assert HasDirectory(items, items[i].parts[..k]);
    var j :| 0 <= j < |items| && items[j].parts == items[i].parts[..k] && items[j].kind == DirKind;
  }

  /** Whatever an extraction makes of a valid archive lies inside the application directory and is plain. */
  lemma ExtractedIsContained(items: seq<Item>, fold: string -> string, fs: Tree, path: Path)
    requires ArchiveOk(items, fold) && IsBuilt(fs, items) && path in fs
    ensures Contained(fs, path)
  {
    var i :| 0 <= i < |items| && items[i].parts == path;
    var item := items[i];
    assert ItemOk(item) && ContentOk(item) && ParentsPresent(items, item);
    hide ArchiveOk, ParentsPresent;
    ValidNameResolves(path);
    hide NameOk, Resolve;
    assert fs[path] == EntryOf(item);
    forall k | 0 < k < |path| ensures path[..k] in fs && fs[path[..k]].Dir? { ParentsAreBuilt(items, fs, i, k); }
  }

  // ---- Skills ----------------------------------------------------------------

  /** The same for skills, which also refuse colons and all control characters. */
  lemma SkillPartIff(part: string)
    ensures SkillPartOk(part) <==>
            LeadsDown(part) && forall c | c in part :: c != '\\' && c != ':' && ' ' <= c && c as int != 127
  {
    LeadsDownIff(part);
    hide LeadsDown;
    if SkillPartOk(part) {
      forall c | c in part ensures c != '\\' && c != ':' && ' ' <= c && c as int != 127 {
        var i :| 0 <= i < |part| && part[i] == c;
      }
    } else if forall c | c in part :: c != '\\' && c != ':' && ' ' <= c && c as int != 127 {
      assert forall i | 0 <= i < |part| :: part[i] in part;
    }
  }

  /** Every file of a decoded skill lies below whatever directory the skill is written to, and one is its manual. */
  lemma DecodedIsContained(p: Package, reference: Reference, fold: string -> string, letter: char -> bool, hash: string -> string,
                           base: Path)
    requires Accepted(p, reference, fold, letter, hash)
    ensures var files := Contents(ByPath(p.files));
            && (forall i | 0 <= i < |files| :: Resolve(base, files[i].path) == Some(base + files[i].path))
            && (forall i | 0 <= i < |files| :: |files[i].content| <= 8 * 1024 * 1024)
            && (exists i :: 0 <= i < |files| && files[i].path == ["SKILL.md"] && |files[i].content| <= 1024 * 1024)
            && p.name == reference.name && hash(SkillText(Texts(files))) == reference.digest
  {
    var sorted := ByPath(p.files);
    var files := Contents(sorted);
    assert FilesAccepted(sorted, fold);
    hide ByPath, SkillText, NoClash, Total, SkillNameOk;
    forall i | 0 <= i < |files| ensures Resolve(base, files[i].path) == Some(base + files[i].path) {
      assert DownloadOk(sorted[i]);
      forall k | 0 <= k < |files[i].path| ensures LeadsDown(files[i].path[k]) { SkillPartIff(files[i].path[k]); }
      hide LeadsDown, Resolve;
      DownwardsStaysBelow(base, files[i].path);
    }
    var i :| 0 <= i < |sorted| && IsManual(Contents(sorted)[i]);
  }

  // ---- Digests ---------------------------------------------------------------

  function Sizes(t: Tree, listing: seq<Path>): nat
    requires forall path | path in listing :: path in t
  {
    if listing == [] then 0
    else (if t[listing[0]].File? then |t[listing[0]].content| else 0) + Sizes(t, listing[1..])
  }

  lemma {:induction false} SizesAreTotal(t: Tree, listing: seq<Path>, nfc: string -> string)
    requires forall path | path in listing :: path in t
    ensures FileTotal(LinesOf(t, listing, nfc)) == Sizes(t, listing)
    decreases |listing|
  {
    if listing != [] {
      SizesAreTotal(t, listing[1..], nfc);
      assert LinesOf(t, listing, nfc)[1..] == LinesOf(t, listing[1..], nfc);
      assert listing[0] in listing;
    }
  }

  /** A listed tree passes the digest's checks exactly when it is accepted and its files together fit. */
  lemma DigestibleIff(t: Tree, listing: seq<Path>, nfc: string -> string, fold: string -> string)
    requires IsTree(t) && Lists(listing, t) && |listing| <= MAX_ENTRIES
    ensures Digestible(LinesOf(t, listing, nfc), fold) <==>
            NormalAccepted(t, nfc, fold) && Sizes(t, listing) <= 8 * 1024 * 1024 * 1024
  {
    SizesAreTotal(t, listing, nfc);
    var lines := LinesOf(t, listing, nfc);
    if Digestible(lines, fold) { DigestibleIsAccepted(t, listing, nfc, fold); }
    if NormalAccepted(t, nfc, fold) && Sizes(t, listing) <= MAX_EXPANDED { AcceptedPasses(t, listing, nfc, fold); }
  }

  lemma AcceptedPasses(t: Tree, listing: seq<Path>, nfc: string -> string, fold: string -> string)
    requires Lists(listing, t) && NormalAccepted(t, nfc, fold)
    ensures var lines := LinesOf(t, listing, nfc);
            (forall i | 0 <= i < |lines| :: Passes(lines[i])) && DistinctFolded(lines, fold)
  {
    var lines := LinesOf(t, listing, nfc);
    hide FoldPath, NormalPath, NormalEntry, NameOk, EntryAccepted;
    forall i | 0 <= i < |lines| ensures Passes(lines[i]) { assert listing[i] in t; }
    forall i, j | 0 <= i < j < |lines| ensures FoldPath(fold, lines[i].path) != FoldPath(fold, lines[j].path) {
      assert listing[i] in t && listing[j] in t && listing[i] != listing[j];
    }
  }

  /** Names and links that a normalising file system takes for the same. */
  ghost predicate SameName(p: Path, q: Path, nfc: string -> string) {
    |p| == |q| && forall i | 0 <= i < |p| :: nfc(p[i]) == nfc(q[i])
  }

  ghost predicate SameEntry(a: Entry, b: Entry, nfc: string -> string) {
    a == b || (a.Link? && b.Link? && a.mode == b.mode && nfc(a.target) == nfc(b.target))
  }

  ghost predicate FoundIn(t: Tree, u: Tree, nfc: string -> string) {
    forall p | p in t :: exists q :: q in u && SameName(p, q, nfc) && SameEntry(t[p], u[q], nfc)
  }

  lemma SameLineIff(t: Tree, p: Path, u: Tree, q: Path, nfc: string -> string)
    requires p in t && q in u
    ensures LineOf(t, p, nfc) == LineOf(u, q, nfc) <==> SameName(p, q, nfc) && SameEntry(t[p], u[q], nfc)
  {
    if NormalPath(p, nfc) == NormalPath(q, nfc) {
      assert |p| == |q|;
      forall i | 0 <= i < |p| ensures nfc(p[i]) == nfc(q[i]) { assert NormalPath(p, nfc)[i] == NormalPath(q, nfc)[i]; }
    }
    if SameName(p, q, nfc) { assert NormalPath(p, nfc) == NormalPath(q, nfc); }
  }

  /** Two trees have the same lines exactly when each entry of one is in the other, up to normalisation of names and links. */
  lemma SameLinesIff(t: Tree, u: Tree, nfc: string -> string)
    ensures SameLines(t, u, nfc) <==> FoundIn(t, u, nfc) && FoundIn(u, t, nfc)
  {
    OneWay(t, u, nfc);
    OneWay(u, t, nfc);
    hide FoundIn, HasLine;
  }

  lemma OneWay(t: Tree, u: Tree, nfc: string -> string)
    ensures (forall line | HasLine(t, line, nfc) :: HasLine(u, line, nfc)) <==> FoundIn(t, u, nfc)
  {
    hide SameName, SameEntry, LineOf;
    forall p, q | p in t && q in u
      ensures LineOf(t, p, nfc) == LineOf(u, q, nfc) <==> SameName(p, q, nfc) && SameEntry(t[p], u[q], nfc)
    {
      SameLineIff(t, p, u, q, nfc);
    }
    if forall line | HasLine(t, line, nfc) :: HasLine(u, line, nfc) {
      forall p | p in t ensures exists q :: q in u && SameName(p, q, nfc) && SameEntry(t[p], u[q], nfc) {
        assert HasLine(t, LineOf(t, p, nfc), nfc);
        assert HasLine(u, LineOf(t, p, nfc), nfc);
        var q :| q in u && LineOf(u, q, nfc) == LineOf(t, p, nfc);
      }
    }
    if FoundIn(t, u, nfc) {
      forall line | HasLine(t, line, nfc) ensures HasLine(u, line, nfc) {
        var p :| p in t && LineOf(t, p, nfc) == line;
        var q :| q in u && SameName(p, q, nfc) && SameEntry(t[p], u[q], nfc);
      }
    }
  }
}
