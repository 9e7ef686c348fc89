/**
 The text that a tree digest hashes: one line for each entry, in the order of the names,
 with fields that NUL and newline can delimit because no field contains them.

 `nfc` stands for Unicode normalisation form C. A slash takes part in no composition, so a
 name is normalised component by component.
 */
module TreeDigest {
  import opened Archive
  import opened ArchiveRoundTrip
  import opened ByteFormats
  import opened KeyOrder
  import opened Options

  const NUL: string := "\0"

  function KindChar(e: Entry): string {
    if e.Dir? then "d" else if e.File? then "f" else if e.Link? then "l" else "s"
  }

  function SizeOf(e: Entry): nat {
    if e.File? then |e.content| else if e.Link? then |e.target| else 0
  }

  /** `hash` stands for the hexadecimal SHA-256 of a file. */
  function ContentField(e: Entry, hash: string -> string): string {
    if e.File? then hash(e.content) else if e.Link? then e.target else ""
  }

  function Fields(path: Path, e: Entry, hash: string -> string): string {
    KindChar(e) + NUL + (Join(path) + NUL + (Decimal(e.mode) + NUL + (Decimal(SizeOf(e)) + NUL + ContentField(e, hash))))
  }

  /** What a line says of an entry. */
  datatype Line = Line(path: Path, entry: Entry)

  function NormalPath(path: Path, nfc: string -> string): Path {
    seq(|path|, i requires 0 <= i < |path| => nfc(path[i]))
  }

  function NormalEntry(e: Entry, nfc: string -> string): Entry {
    if e.Link? then Link(e.mode, nfc(e.target)) else e
  }

  function LineOf(t: Tree, path: Path, nfc: string -> string): Line
    requires path in t
  {
    Line(NormalPath(path, nfc), NormalEntry(t[path], nfc))
  }

  function LinesOf(t: Tree, listing: seq<Path>, nfc: string -> string): (lines: seq<Line>)
    requires forall path | path in listing :: path in t
    ensures |lines| == |listing|
    ensures forall i | 0 <= i < |listing| :: lines[i] == LineOf(t, listing[i], nfc)
  {
    seq(|listing|, i requires 0 <= i < |listing| => LineOf(t, listing[i], nfc))
  }

  function TreeText(lines: seq<Line>, hash: string -> string): string {
    if lines == [] then ""
    else Fields(lines[0].path, lines[0].entry, hash) + "\n" + TreeText(lines[1..], hash)
  }

  /** Hexadecimal digests hold no delimiter, and different contents have different digests. */
  ghost predicate IsDigest(hash: string -> string) {
    && (forall x :: '\0' !in hash(x) && '\n' !in hash(x))
    && (forall x, y | hash(x) == hash(y) :: x == y)
  }

  function Names(lines: seq<Line>): (names: seq<string>)
    ensures |names| == |lines| && forall i | 0 <= i < |lines| :: names[i] == Join(lines[i].path)
  {
    seq(|lines|, i requires 0 <= i < |lines| => Join(lines[i].path))
  }

  /** The paths of the tree in the order of their names. */
  ghost predicate Ordered(listing: seq<Path>, t: Tree, nfc: string -> string) {
    Lists(listing, t) && Increasing(Names(LinesOf(t, listing, nfc)))
  }

  /** The checks of the digest on each entry, as its line shows it. */
  ghost predicate NormalAccepted(t: Tree, nfc: string -> string, fold: string -> string) {
    && IsTree(t) && |t| <= MAX_ENTRIES
    && (forall path | path in t :: NameOk(NormalPath(path, nfc)) && EntryAccepted(NormalEntry(t[path], nfc)))
    && (forall a, b | a in t && b in t && FoldPath(fold, NormalPath(a, nfc)) == FoldPath(fold, NormalPath(b, nfc)) :: a == b)
  }

  ghost predicate HasLine(t: Tree, line: Line, nfc: string -> string) {
    exists path :: path in t && LineOf(t, path, nfc) == line
  }

  /** The trees are the same up to the normalisation of names and link targets. */
  ghost predicate SameLines(t: Tree, u: Tree, nfc: string -> string) {
    forall line :: HasLine(t, line, nfc) <==> HasLine(u, line, nfc)
  }

  // ---- One line --------------------------------------------------------------

  lemma {:induction false} JoinClean(path: Path)
    requires forall i | 0 <= i < |path| :: PartOk(path[i])
    ensures Clean(Join(path)) && Plain(path)
  {
    if |path| > 1 { JoinClean(path[1..]); }
  }

  lemma DecimalClean(n: nat)
    ensures '\0' !in Decimal(n) && '\n' !in Decimal(n)
  {
    DecimalIsDigits(n);
  }

  /** No field of an accepted entry holds a delimiter. */
  lemma FieldsClean(path: Path, e: Entry, hash: string -> string)
    requires NameOk(path) && EntryAccepted(e) && IsDigest(hash)
    ensures '\0' !in KindChar(e) && '\0' !in Join(path) && '\0' !in ContentField(e, hash)
    ensures '\n' !in Fields(path, e, hash)
  {
    JoinClean(path);
    DecimalClean(e.mode);
    DecimalClean(SizeOf(e));
    assert '\n' !in KindChar(e) && '\n' !in NUL && '\n' !in ContentField(e, hash);
    var tail := Decimal(SizeOf(e)) + NUL + ContentField(e, hash);
    assert '\n' !in tail;
    assert '\n' !in Decimal(e.mode) + NUL + tail;
    assert '\n' !in Join(path) + NUL + (Decimal(e.mode) + NUL + tail);
  }

  /** A line can be read back field by field. */
  lemma FieldsInjective(p: Path, a: Entry, q: Path, b: Entry, hash: string -> string)
    requires NameOk(p) && NameOk(q) && EntryAccepted(a) && EntryAccepted(b) && IsDigest(hash)
    requires Fields(p, a, hash) == Fields(q, b, hash)
    ensures p == q && a == b
  {
    FieldsClean(p, a, hash);
    FieldsClean(q, b, hash);
    DecimalClean(a.mode);
    DecimalClean(b.mode);
    DecimalClean(SizeOf(a));
    DecimalClean(SizeOf(b));
    var a4, b4 := ContentField(a, hash), ContentField(b, hash);
    var a3, b3 := Decimal(SizeOf(a)) + NUL + a4, Decimal(SizeOf(b)) + NUL + b4;
    var a2, b2 := Decimal(a.mode) + NUL + a3, Decimal(b.mode) + NUL + b3;
    var a1, b1 := Join(p) + NUL + a2, Join(q) + NUL + b2;
    SplitAtDelimiter(KindChar(a), KindChar(b), a1, b1, '\0');
    SplitAtDelimiter(Join(p), Join(q), a2, b2, '\0');
    SplitAtDelimiter(Decimal(a.mode), Decimal(b.mode), a3, b3, '\0');
    SplitAtDelimiter(Decimal(SizeOf(a)), Decimal(SizeOf(b)), a4, b4, '\0');
    DecimalInjective(a.mode, b.mode);
    JoinClean(p);
    JoinClean(q);
    JoinInjective(p, q);
    SameKind(a, b);
  }

  lemma SameKind(a: Entry, b: Entry)
    requires KindChar(a) == KindChar(b)
    ensures (a.Dir? <==> b.Dir?) && (a.File? <==> b.File?) && (a.Link? <==> b.Link?)
  {
    assert KindChar(a)[0] == KindChar(b)[0];
  }

  // ---- The whole text --------------------------------------------------------

  ghost predicate LinesOk(lines: seq<Line>) {
    forall i | 0 <= i < |lines| :: NameOk(lines[i].path) && EntryAccepted(lines[i].entry)
  }

  lemma {:induction false} TextInjective(a: seq<Line>, b: seq<Line>, hash: string -> string)
    requires LinesOk(a) && LinesOk(b) && IsDigest(hash) && TreeText(a, hash) == TreeText(b, hash)
    ensures a == b
    decreases |a|
  {
    if a != [] && b != [] {
      var p, q := a[0], b[0];
      FieldsClean(p.path, p.entry, hash);
      FieldsClean(q.path, q.entry, hash);
      SplitAtDelimiter(Fields(p.path, p.entry, hash), Fields(q.path, q.entry, hash), TreeText(a[1..], hash), TreeText(b[1..], hash), '\n');
      FieldsInjective(p.path, p.entry, q.path, q.entry, hash);
      hide Fields, NameOk, EntryAccepted, IsDigest;
      TextInjective(a[1..], b[1..], hash);
      assert a == [p] + a[1..] && b == [q] + b[1..];
    } else {
      EmptyText(a, hash);
      EmptyText(b, hash);
    }
  }

  lemma EmptyText(lines: seq<Line>, hash: string -> string)
    ensures TreeText(lines, hash) == "" <==> lines == []
  {
    if lines != [] {
      var line := Fields(lines[0].path, lines[0].entry, hash) + "\n";
      assert |line| > 0 && TreeText(lines, hash) == line + TreeText(lines[1..], hash);
    }
  }

  lemma SomeMember(names: seq<string>)
    ensures names == [] || exists x :: x in names
  {
    if names != [] { assert names[0] in names; }
  }

  /** Sorted lists of the same names are the same list. */
  lemma {:induction false} IncreasingUnique(a: seq<string>, b: seq<string>)
    requires Increasing(a) && Increasing(b) && forall x :: x in a <==> x in b
    ensures a == b
    decreases |a|
  {
    if a == [] {
      SomeMember(b);
    } else {
      assert a[0] in a;
      var j :| 0 <= j < |b| && b[j] == a[0];
      assert b[0] in b;
      var i :| 0 <= i < |a| && a[i] == b[0];
      BeforeIsStrict(a[0], b[0]);
      assert a[0] == b[0];
      forall x ensures x in a[1..] <==> x in b[1..] {
        TailMembers(a, x);
        TailMembers(b, x);
      }
      IncreasingUnique(a[1..], b[1..]);
      assert a == [a[0]] + a[1..] && b == [b[0]] + b[1..];
    }
  }

  lemma TailMembers(a: seq<string>, x: string)
    requires Increasing(a) && a != []
    ensures x in a[1..] <==> x in a && x != a[0]
  {
    if k :| 0 <= k < |a| - 1 && a[1..][k] == x {
      assert Before(a[0], a[k + 1]);
      BeforeIsStrict(a[0], x);
    }
    if k :| 0 <= k < |a| && a[k] == x && x != a[0] {
      assert a[1..][k - 1] == x;
    }
  }

  lemma LinesOfAccepted(t: Tree, listing: seq<Path>, nfc: string -> string, fold: string -> string)
    requires NormalAccepted(t, nfc, fold) && Lists(listing, t)
    ensures LinesOk(LinesOf(t, listing, nfc))
  {
    hide NameOk, EntryAccepted, NormalPath, NormalEntry, FoldPath, IsTree;
    var lines := LinesOf(t, listing, nfc);
    forall i | 0 <= i < |lines| ensures NameOk(lines[i].path) && EntryAccepted(lines[i].entry) {
      assert listing[i] in t;
    }
  }

  lemma LinesOfMembers(t: Tree, listing: seq<Path>, nfc: string -> string)
    requires Lists(listing, t)
    ensures forall line :: line in LinesOf(t, listing, nfc) <==> HasLine(t, line, nfc)
  {
    hide NormalPath, NormalEntry;
    var lines := LinesOf(t, listing, nfc);
    forall line ensures line in lines <==> HasLine(t, line, nfc) {
      if i :| 0 <= i < |lines| && lines[i] == line { assert LineOf(t, listing[i], nfc) == line; }
      if path :| path in t && LineOf(t, path, nfc) == line {
        assert path in listing;
        var i :| 0 <= i < |listing| && listing[i] == path;
        assert lines[i] == line;
      }
    }
  }

  lemma NamesOfMembers(lines: seq<Line>, name: string)
    ensures name in Names(lines) <==> exists line :: line in lines && Join(line.path) == name
  {
    if line :| line in lines && Join(line.path) == name {
      var i :| 0 <= i < |lines| && lines[i] == line;
      assert Names(lines)[i] == name;
    }
    if name in Names(lines) {
      var i :| 0 <= i < |lines| && Names(lines)[i] == name;
      assert lines[i] in lines;
    }
  }

  /** Two ordered lists of the same lines are the same list. */
  lemma OrderIsUnique(a: seq<Line>, b: seq<Line>)
    requires Increasing(Names(a)) && Increasing(Names(b)) && forall line :: line in a <==> line in b
    ensures a == b
  {
    forall name ensures name in Names(a) <==> name in Names(b) {
      NamesOfMembers(a, name);
      NamesOfMembers(b, name);
    }
    IncreasingUnique(Names(a), Names(b));
    assert |a| == |Names(a)| == |b|;
    forall i | 0 <= i < |a| ensures a[i] == b[i] {
      assert a[i] in b;
      var j :| 0 <= j < |b| && b[j] == a[i];
      assert Names(b)[j] == Names(b)[i];
      BeforeIsStrict(Names(b)[i], Names(b)[j]);
      assert i == j;
    }
  }

  /**
   Two accepted trees have one text exactly when they are the same tree, permissions and contents included,
   up to the normalisation of names and link targets.
   */
  lemma SameTextIffSameTree(t: Tree, u: Tree, lt: seq<Path>, lu: seq<Path>, nfc: string -> string, fold: string -> string,
                            hash: string -> string)
    requires NormalAccepted(t, nfc, fold) && NormalAccepted(u, nfc, fold)
    requires Ordered(lt, t, nfc) && Ordered(lu, u, nfc) && IsDigest(hash)
    ensures TreeText(LinesOf(t, lt, nfc), hash) == TreeText(LinesOf(u, lu, nfc), hash) <==> SameLines(t, u, nfc)
  {
    hide NormalAccepted, IsDigest, TreeText, HasLine, Increasing, LinesOk;
    var a, b := LinesOf(t, lt, nfc), LinesOf(u, lu, nfc);
    LinesOfMembers(t, lt, nfc);
    LinesOfMembers(u, lu, nfc);
    LinesOfAccepted(t, lt, nfc, fold);
    LinesOfAccepted(u, lu, nfc, fold);
    if TreeText(a, hash) == TreeText(b, hash) { TextInjective(a, b, hash); }
    if SameLines(t, u, nfc) { OrderIsUnique(a, b); }
  }

  /** Names and targets are in normal form already. */
  ghost predicate IsNormal(t: Tree, nfc: string -> string) {
    forall path | path in t :: LineOf(t, path, nfc) == Line(path, t[path])
  }

  /** For normal trees that is equality, and the checks are those on the tree itself. */
  lemma NormalTrees(t: Tree, u: Tree, nfc: string -> string, fold: string -> string)
    requires IsNormal(t, nfc) && IsNormal(u, nfc)
    ensures SameLines(t, u, nfc) <==> t == u
    ensures NormalAccepted(t, nfc, fold) <==> TreeAccepted(t, fold)
  {
    hide NameOk, EntryAccepted, FoldPath, IsTree, LineOf;
    if SameLines(t, u, nfc) {
      forall path ensures (path in t <==> path in u) && (path in t ==> t[path] == u[path]) {
        NormalLine(t, u, path, nfc);
        NormalLine(u, t, path, nfc);
      }
    }
    forall path | path in t ensures NormalPath(path, nfc) == path && NormalEntry(t[path], nfc) == t[path] {
      LineParts(t, path, nfc);
    }
  }

  lemma LineParts(t: Tree, path: Path, nfc: string -> string)
    requires path in t
    ensures LineOf(t, path, nfc) == Line(NormalPath(path, nfc), NormalEntry(t[path], nfc))
  {
  }

  lemma NormalLine(t: Tree, u: Tree, path: Path, nfc: string -> string)
    requires IsNormal(t, nfc) && IsNormal(u, nfc) && SameLines(t, u, nfc)
    ensures path in t ==> path in u && t[path] == u[path]
  {
    hide LineOf;
    if path in t {
      assert HasLine(t, LineOf(t, path, nfc), nfc);
      var other :| other in u && LineOf(u, other, nfc) == LineOf(t, path, nfc);
    }
  }

  // ---- Computing the text ----------------------------------------------------

  function FileBytes(e: Entry): nat { if e.File? then |e.content| else 0 }

  function FileTotal(lines: seq<Line>): nat {
    if lines == [] then 0 else FileBytes(lines[0].entry) + FileTotal(lines[1..])
  }

  /** One entry passes on its own. */
  predicate Passes(line: Line) { NameOk(line.path) && EntryAccepted(line.entry) }

  ghost predicate DistinctFolded(lines: seq<Line>, fold: string -> string) {
    forall i, j | 0 <= i < j < |lines| :: FoldPath(fold, lines[i].path) != FoldPath(fold, lines[j].path)
  }

  ghost predicate Digestible(lines: seq<Line>, fold: string -> string) {
    && (forall i | 0 <= i < |lines| :: Passes(lines[i]))
    && DistinctFolded(lines, fold)
    && FileTotal(lines) <= MAX_EXPANDED
  }

  ghost predicate FoldedSet(folded: set<Path>, lines: seq<Line>, fold: string -> string) {
    forall name :: name in folded <==> exists i :: 0 <= i < |lines| && FoldPath(fold, lines[i].path) == name
  }

  lemma FoldedMore(folded: set<Path>, lines: seq<Line>, line: Line, fold: string -> string)
    requires FoldedSet(folded, lines, fold) && DistinctFolded(lines, fold)
    ensures DistinctFolded(lines + [line], fold) <==> FoldPath(fold, line.path) !in folded
    ensures FoldedSet(folded + {FoldPath(fold, line.path)}, lines + [line], fold)
  {
    hide FoldPath;
    var more, last := lines + [line], FoldPath(fold, line.path);
    assert more[|lines|] == line && forall i | 0 <= i < |lines| :: more[i] == lines[i];
    if last in folded {
      var i :| 0 <= i < |lines| && FoldPath(fold, lines[i].path) == last;
      assert FoldPath(fold, more[i].path) == FoldPath(fold, more[|lines|].path);
    }
    forall name ensures name in folded + {last} <==> exists i :: 0 <= i < |more| && FoldPath(fold, more[i].path) == name {
      if name in folded {
        var i :| 0 <= i < |lines| && FoldPath(fold, lines[i].path) == name;
        assert FoldPath(fold, more[i].path) == name;
      }
      if i :| 0 <= i < |more| && FoldPath(fold, more[i].path) == name {
        if i < |lines| { assert FoldPath(fold, lines[i].path) == name; }
      }
    }
  }

  lemma {:induction false} TotalMore(lines: seq<Line>, line: Line)
    ensures FileTotal(lines + [line]) == FileTotal(lines) + FileBytes(line.entry)
  {
    if lines == [] {
      assert lines + [line] == [line] && [line][1..] == [];
    } else {
      assert (lines + [line])[1..] == lines[1..] + [line];
      TotalMore(lines[1..], line);
    }
  }

  lemma {:induction false} TotalOfPrefix(lines: seq<Line>, n: nat)
    requires n <= |lines|
    ensures FileTotal(lines[..n]) <= FileTotal(lines)
  {
    if n > 0 {
      assert lines[..n][1..] == lines[1..][..n - 1];
      TotalOfPrefix(lines[1..], n - 1);
    }
  }

  lemma PrefixDigestible(lines: seq<Line>, n: nat, fold: string -> string)
    requires n <= |lines|
    ensures Digestible(lines, fold) ==> Digestible(lines[..n], fold)
  {
    hide Passes, FoldPath;
    TotalOfPrefix(lines, n);
  }

  lemma DigestibleMore(lines: seq<Line>, line: Line, fold: string -> string, folded: set<Path>)
    requires Digestible(lines, fold) && FoldedSet(folded, lines, fold)
    ensures Digestible(lines + [line], fold) <==>
            Passes(line) && FoldPath(fold, line.path) !in folded && FileTotal(lines) + FileBytes(line.entry) <= MAX_EXPANDED
    ensures FoldedSet(folded + {FoldPath(fold, line.path)}, lines + [line], fold)
  {
    hide Passes, FoldPath;
    TotalMore(lines, line);
    FoldedMore(folded, lines, line, fold);
    var more := lines + [line];
    assert more[|lines|] == line && forall i | 0 <= i < |lines| :: more[i] == lines[i];
  }

  lemma {:induction false} TextMore(lines: seq<Line>, line: Line, hash: string -> string)
    ensures TreeText(lines + [line], hash) == TreeText(lines, hash) + (Fields(line.path, line.entry, hash) + "\n")
  {
    hide Fields;
    if lines == [] {
      assert lines + [line] == [line] && [line][1..] == [];
    } else {
      assert (lines + [line])[1..] == lines[1..] + [line];
      TextMore(lines[1..], line, hash);
    }
  }

  /** The first `n` lines have passed and are hashed. */
  ghost predicate Progress(lines: seq<Line>, n: nat, fold: string -> string, hash: string -> string,
                           folded: set<Path>, total: nat, digest: string)
    requires n <= |lines|
  {
    && Digestible(lines[..n], fold) && FoldedSet(folded, lines[..n], fold)
    && total == FileTotal(lines[..n]) && digest == TreeText(lines[..n], hash)
  }

  lemma ProgressMore(lines: seq<Line>, n: nat, fold: string -> string, hash: string -> string,
                     folded: set<Path>, total: nat, digest: string)
    requires n < |lines| && Progress(lines, n, fold, hash, folded, total, digest)
    ensures var line := lines[n];
            if Passes(line) && FoldPath(fold, line.path) !in folded && total + FileBytes(line.entry) <= MAX_EXPANDED
            then Progress(lines, n + 1, fold, hash, folded + {FoldPath(fold, line.path)}, total + FileBytes(line.entry),
                          digest + (Fields(line.path, line.entry, hash) + "\n"))
            else !Digestible(lines, fold)
  {
    hide Digestible, FoldedSet, FoldPath, Passes, Fields, FileBytes, FileTotal, TreeText;
    var line := lines[n];
    assert lines[..n + 1] == lines[..n] + [line];
    DigestibleMore(lines[..n], line, fold, folded);
    PrefixDigestible(lines, n + 1, fold);
    TotalMore(lines[..n], line);
    TextMore(lines[..n], line, hash);
  }

  lemma ProgressStarts(lines: seq<Line>, fold: string -> string, hash: string -> string)
    ensures Progress(lines, 0, fold, hash, {}, 0, "")
  {
  }

  lemma ProgressEnds(lines: seq<Line>, fold: string -> string, hash: string -> string, folded: set<Path>, total: nat, digest: string)
    requires Progress(lines, |lines|, fold, hash, folded, total, digest)
    ensures Digestible(lines, fold) && digest == TreeText(lines, hash)
  {
    hide Digestible, FoldedSet, TreeText, FileTotal;
    assert lines[..|lines|] == lines;
  }

  /** The links among the first `n` entries lead to entries of the tree. */
  predicate LinksLead(t: Tree, listing: seq<Path>, n: nat, resolves: Path -> bool)
    requires n <= |listing| && forall path | path in listing :: path in t
  {
    forall i | 0 <= i < n && t[listing[i]].Link? :: resolves(listing[i])
  }

  lemma NoLinks(t: Tree, listing: seq<Path>, resolves: Path -> bool)
    requires forall path | path in listing :: path in t
    ensures LinksLead(t, listing, 0, resolves)
  {
  }

  lemma LinksMore(t: Tree, listing: seq<Path>, n: nat, resolves: Path -> bool)
    requires n < |listing| && forall path | path in listing :: path in t
    ensures LinksLead(t, listing, n + 1, resolves) <==>
            LinksLead(t, listing, n, resolves) && (t[listing[n]].Link? ==> resolves(listing[n]))
    ensures LinksLead(t, listing, |listing|, resolves) ==> LinksLead(t, listing, n + 1, resolves)
  {
  }

  /**
   Succeeds exactly when every check passes, and then returns the text of the tree. `resolves` says
   whether a link leads to an entry of the same tree.
   */
  method DigestTree(t: Tree, listing: seq<Path>, nfc: string -> string, fold: string -> string, hash: string -> string,
                    resolves: Path -> bool)
    returns (text: Option<string>)
    requires forall path | path in listing :: path in t
    ensures text.Some? <==>
            && |listing| <= MAX_ENTRIES && Digestible(LinesOf(t, listing, nfc), fold)
            && LinksLead(t, listing, |listing|, resolves)
    ensures text.Some? ==> text.value == TreeText(LinesOf(t, listing, nfc), hash)
  {
    if |listing| > MAX_ENTRIES {
      return None;
    }
    NoLinks(t, listing, resolves);
    hide Digestible, Progress, LinksLead, Passes, Fields, FileBytes, TreeText, FoldPath, LineOf;
    ghost var lines := LinesOf(t, listing, nfc);
    var folded: set<Path> := {};
    var total: nat := 0;
    var digest := "";
    ProgressStarts(lines, fold, hash);
    for i := 0 to |listing|
      invariant Progress(lines, i, fold, hash, folded, total, digest)
      invariant LinksLead(t, listing, i, resolves)
    {
      var path := listing[i];
      LinksMore(t, listing, i, resolves);
      var line := LineOf(t, path, nfc);
      ProgressMore(lines, i, fold, hash, folded, total, digest);
      var name := FoldPath(fold, line.path);
      if !Passes(line) || (t[path].Link? && !resolves(path)) || name in folded || total + FileBytes(line.entry) > MAX_EXPANDED {
        return None;
      }
      folded := folded + {name};
      total := total + FileBytes(line.entry);
      digest := digest + (Fields(line.path, line.entry, hash) + "\n");
    }
    ProgressEnds(lines, fold, hash, folded, total, digest);
    return Some(digest);
  }

  /** A tree whose listing is digestible is accepted. */
  lemma DigestibleIsAccepted(t: Tree, listing: seq<Path>, nfc: string -> string, fold: string -> string)
    requires IsTree(t) && Lists(listing, t) && |listing| <= MAX_ENTRIES && Digestible(LinesOf(t, listing, nfc), fold)
    ensures NormalAccepted(t, nfc, fold)
  {
    hide FoldPath, NormalPath, NormalEntry, NameOk, EntryAccepted;
    ListingSize(listing, t);
    var lines := LinesOf(t, listing, nfc);
    forall path | path in t ensures NameOk(NormalPath(path, nfc)) && EntryAccepted(NormalEntry(t[path], nfc)) {
      assert path in listing;
      var i :| 0 <= i < |listing| && listing[i] == path;
      assert Passes(lines[i]);
    }
    forall a, b | a in t && b in t && FoldPath(fold, NormalPath(a, nfc)) == FoldPath(fold, NormalPath(b, nfc)) ensures a == b {
      assert a in listing && b in listing;
      var i :| 0 <= i < |listing| && listing[i] == a;
      var j :| 0 <= j < |listing| && listing[j] == b;
      assert lines[i].path == NormalPath(a, nfc) && lines[j].path == NormalPath(b, nfc);
      assert i == j;
    }
  }

  // ---- The comparison after an extraction ------------------------------------

  /** The application directory of what was extracted. */
  ghost predicate IsUnder(sub: Tree, fs: Tree) {
    && (forall path | path in sub :: path != [] && [APP] + path in fs && fs[[APP] + path] == sub[path])
    && (forall path: Path | path != [] && [APP] + path in fs :: path in sub)
  }

  lemma RootedOnce(made: Tree, rootMode: nat, fs: Tree, sub: Tree)
    requires IsTree(made) && IsRooted(fs, made, rootMode) && IsUnder(sub, fs)
    ensures sub == made
  {
    forall path ensures (path in sub <==> path in made) && (path in sub ==> sub[path] == made[path]) {
      if path in sub { assert ([APP] + path)[1..] == path; }
      if path in made { assert path != [] && [APP] + path in fs; }
    }
  }

  /**
   What is extracted from the archive of `made` passes the comparison with the digest of `signed` exactly
   when the two trees are the same up to normalisation.
   */
  lemma ComparisonPassesIff(made: Tree, rootMode: nat, listing: seq<Path>, fs: Tree, sub: Tree, ls: seq<Path>,
                            signed: Tree, lt: seq<Path>, nfc: string -> string, fold: string -> string, hash: string -> string)
    requires Lists(listing, made) && TreeAccepted(made, fold) && IsBuilt(fs, Created(made, rootMode, listing)) && IsUnder(sub, fs)
    requires NormalAccepted(sub, nfc, fold) && NormalAccepted(signed, nfc, fold)
    requires Ordered(ls, sub, nfc) && Ordered(lt, signed, nfc) && IsDigest(hash)
    ensures sub == made
    ensures TreeText(LinesOf(sub, ls, nfc), hash) == TreeText(LinesOf(signed, lt, nfc), hash) <==> SameLines(made, signed, nfc)
  {
    ExtractionRestoresTheTree(made, rootMode, listing, fold, fs);
    RootedOnce(made, rootMode, fs, sub);
    hide *;
    SameTextIffSameTree(sub, signed, ls, lt, nfc, fold, hash);
  }
}
