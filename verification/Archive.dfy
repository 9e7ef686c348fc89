/**
 The application archive: writing a tree as zip entries, and rebuilding it from any
 archive in a directory of its own.

 Names are paths of components, and strings are their UTF-8 bytes. `fold` stands for the
 normalisation and case folding of one component.
 */
module Archive {

  const MAX_EXPANDED: nat := 8 * 1024 * 1024 * 1024
  const MAX_FILE: nat := 1024 * 1024 * 1024
  const MAX_ENTRIES: nat := 250000
  const MAX_NAME: nat := 4096
  const MAX_LINK: nat := 4096

  const APP: string := "TinkerFin.app"

  /** Owner permissions that a directory has while it is being filled. */
  const PRIVATE: nat := 0x1C0
  const PERMISSIONS: nat := 0x1FF

  type Path = seq<string>

  datatype Entry =
    | Dir(mode: nat)
    | File(mode: nat, content: string)
    | Link(mode: nat, target: string)
    | Special(mode: nat)

  type Tree = map<Path, Entry>

  // ---- Names and links -------------------------------------------------------

  predicate Clean(text: string) {
    '\0' !in text && '\n' !in text && '\r' !in text && '\\' !in text
  }

  /** A component holds no separator. */
  predicate PartOk(part: string) { part != "" && part != "." && part != ".." && '/' !in part && Clean(part) }

  function NameLength(path: Path): nat {
    if path == [] then 0
    else if |path| == 1 then |path[0]|
    else |path[0]| + 1 + NameLength(path[1..])
  }

  /** What `checked_name` accepts. */
  predicate NameOk(path: Path) {
    path != [] && (forall i | 0 <= i < |path| :: PartOk(path[i])) && NameLength(path) <= MAX_NAME
  }

  predicate LinkOk(target: string) { (target == "" || target[0] != '/') && Clean(target) }

  function FoldPath(fold: string -> string, path: Path): Path {
    seq(|path|, i requires 0 <= i < |path| => fold(path[i]))
  }

  // ---- What the digest accepts -----------------------------------------------

  /** Every entry lies in directories of the tree. */
  ghost predicate IsTree(t: Tree) {
    forall path | path in t :: path != [] && forall k | 0 < k < |path| :: path[..k] in t && t[path[..k]].Dir?
  }

  predicate EntryAccepted(e: Entry) {
    && e.mode <= PERMISSIONS && !e.Special?
    && (e.File? ==> |e.content| <= MAX_FILE)
    && (e.Link? ==> LinkOk(e.target))
  }

  /** The checks of the tree digest, apart from where links lead and the total of the file sizes. */
  ghost predicate TreeAccepted(t: Tree, fold: string -> string) {
    && IsTree(t) && |t| <= MAX_ENTRIES
    && (forall path | path in t :: NameOk(path) && EntryAccepted(t[path]))
    && (forall a, b | a in t && b in t && FoldPath(fold, a) == FoldPath(fold, b) :: a == b)
  }

  // ---- Archives --------------------------------------------------------------

  datatype Kind = DirKind | FileKind | LinkKind | OtherKind

  /** `parts` is the name without its trailing slash, split at slashes. */
  datatype Item = Item(parts: Path, slash: bool, kind: Kind, mode: nat, size: nat, data: string, encrypted: bool)

  function KindOf(e: Entry): Kind {
    if e.Dir? then DirKind else if e.File? then FileKind else if e.Link? then LinkKind else OtherKind
  }

  function DataOf(e: Entry): string {
    if e.File? then e.content else if e.Link? then e.target else ""
  }

  function EntryOf(item: Item): Entry {
    match item.kind
    case DirKind => Dir(item.mode)
    case FileKind => File(item.mode, item.data)
    case LinkKind => Link(item.mode, item.data)
    case OtherKind => Special(item.mode)
  }

  function ItemFor(path: Path, e: Entry): Item {
    Item([APP] + path, e.Dir?, KindOf(e), e.mode, |DataOf(e)|, DataOf(e), false)
  }

  function ItemsFor(t: Tree, listing: seq<Path>): seq<Item>
    requires forall path | path in listing :: path in t
  {
    if listing == [] then [] else [ItemFor(listing[0], t[listing[0]])] + ItemsFor(t, listing[1..])
  }

  /** The application directory first, then its entries as they are listed. */
  function Created(t: Tree, rootMode: nat, listing: seq<Path>): seq<Item>
    requires forall path | path in listing :: path in t
  {
    [ItemFor([], Dir(rootMode))] + ItemsFor(t, listing)
  }

  method CreateArchive(t: Tree, rootMode: nat, listing: seq<Path>) returns (items: seq<Item>)
    requires forall path | path in listing :: path in t
    ensures items == Created(t, rootMode, listing)
  {
    items := [Item([APP], true, DirKind, rootMode, 0, "", false)];
    assert [APP] + [] == [APP];
    for i := 0 to |listing|
      invariant Created(t, rootMode, listing) == items + ItemsFor(t, listing[i..])
    {
      var path := listing[i];
      assert listing[i..][0] == path && listing[i..][1..] == listing[i + 1..];
      var e := t[path];
      var item := Item([APP] + path, e.Dir?, KindOf(e), e.mode, |DataOf(e)|, DataOf(e), false);
      assert items + ([item] + ItemsFor(t, listing[i + 1..])) == (items + [item]) + ItemsFor(t, listing[i + 1..]);
      items := items + [item];
    }
    assert items + [] == items;
  }

  // ---- What the extractor accepts --------------------------------------------

  predicate ItemOk(item: Item) {
    && NameOk(item.parts) && item.parts[0] == APP
    && item.size <= MAX_FILE && !item.encrypted && item.kind != OtherKind
    && item.mode <= PERMISSIONS
    && (item.slash <==> item.kind == DirKind)
    && (|item.parts| == 1 ==> item.kind == DirKind)
  }

  function TotalSize(items: seq<Item>): nat {
    if items == [] then 0 else items[0].size + TotalSize(items[1..])
  }

  ghost predicate DistinctNames(items: seq<Item>, fold: string -> string) {
    forall i, j | 0 <= i < j < |items| :: FoldPath(fold, items[i].parts) != FoldPath(fold, items[j].parts)
  }

  ghost predicate HasDirectory(items: seq<Item>, path: Path) {
    exists j :: 0 <= j < |items| && items[j].parts == path && items[j].kind == DirKind
  }

  ghost predicate ParentsPresent(items: seq<Item>, item: Item) {
    forall k | 0 < k < |item.parts| :: HasDirectory(items, item.parts[..k])
  }

  predicate ContentOk(item: Item) {
    && (item.kind == FileKind ==> |item.data| == item.size)
    && (item.kind == LinkKind ==> item.size <= MAX_LINK && LinkOk(item.data))
  }

  ghost predicate ArchiveOk(items: seq<Item>, fold: string -> string) {
    && items != [] && |items| <= MAX_ENTRIES && TotalSize(items) <= MAX_EXPANDED
    && (forall i | 0 <= i < |items| :: ItemOk(items[i]))
    && DistinctNames(items, fold)
    && (forall i | 0 <= i < |items| :: ParentsPresent(items, items[i]))
    && (forall i | 0 <= i < |items| :: ContentOk(items[i]))
  }

  /** The tree holds exactly the items. */
  ghost predicate IsBuilt(t: Tree, items: seq<Item>) {
    && (forall i | 0 <= i < |items| :: items[i].parts in t && t[items[i].parts] == EntryOf(items[i]))
    && (forall path | path in t :: exists i :: 0 <= i < |items| && items[i].parts == path)
  }
}
