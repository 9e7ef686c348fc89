/** Writing a tree and extracting it again gives the same tree, exactly within the extractor's limits. */
module ArchiveRoundTrip {
  import opened Archive

  /** Each path of the tree, once. */
  ghost predicate Lists(listing: seq<Path>, t: Tree) {
    && (forall i, j | 0 <= i < j < |listing| :: listing[i] != listing[j])
    && (forall path :: path in listing <==> path in t)
  }

  /** The tree under its application directory. */
  ghost predicate IsRooted(fs: Tree, t: Tree, rootMode: nat) {
    && [APP] in fs && fs[[APP]] == Dir(rootMode)
    && (forall path | path in t :: [APP] + path in fs && fs[[APP] + path] == t[path])
    && (forall path | path in fs :: path != [] && path[0] == APP && (path[1..] == [] || path[1..] in t))
  }

  lemma {:induction false} ItemsAt(t: Tree, listing: seq<Path>, i: nat)
    requires forall path | path in listing :: path in t
    requires i < |listing|
    ensures |ItemsFor(t, listing)| == |listing| && ItemsFor(t, listing)[i] == ItemFor(listing[i], t[listing[i]])
  {
    if |listing| > 1 {
      ItemsAt(t, listing[1..], if i == 0 then 0 else i - 1);
    } else {
      assert ItemsFor(t, listing[1..]) == [];
    }
  }

  lemma CreatedAt(t: Tree, rootMode: nat, listing: seq<Path>)
    requires forall path | path in listing :: path in t
    ensures var items := Created(t, rootMode, listing);
            && |items| == |listing| + 1 && items[0] == ItemFor([], Dir(rootMode))
            && forall i | 0 < i < |items| :: items[i] == ItemFor(listing[i - 1], t[listing[i - 1]])
  {
    if listing != [] { ItemsAt(t, listing, 0); }
    forall i | 0 <= i < |listing| ensures |ItemsFor(t, listing)| == |listing| && ItemsFor(t, listing)[i] == ItemFor(listing[i], t[listing[i]]) {
      ItemsAt(t, listing, i);
    }
  }

  lemma EntryOfItem(path: Path, e: Entry)
    requires !e.Special?
    ensures EntryOf(ItemFor(path, e)) == e
  {
  }

  lemma {:induction false} SizeOfListing(listing: seq<Path>, all: set<Path>)
    requires forall i, j | 0 <= i < j < |listing| :: listing[i] != listing[j]
    requires forall path :: path in listing <==> path in all
    ensures |listing| == |all|
  {
    if listing == [] {
      assert all == {};
    } else {
      var head, rest := listing[0], listing[1..];
      assert forall path :: path in listing <==> path == head || path in rest;
      assert head !in rest;
      SizeOfListing(rest, all - {head});
    }
  }

  lemma ListingSize(listing: seq<Path>, t: Tree)
    requires Lists(listing, t)
    ensures |listing| == |t|
  {
    SizeOfListing(listing, t.Keys);
    assert |t.Keys| == |t|;
  }

  // ---- The extractor's own limits --------------------------------------------

  /** What the extractor demands beyond the digest: it counts the root, the bytes of links, and the full names. */
  ghost predicate WithinLimits(t: Tree, rootMode: nat, items: seq<Item>) {
    && |t| + 1 <= MAX_ENTRIES
    && TotalSize(items) <= MAX_EXPANDED
    && rootMode <= PERMISSIONS
    && forall path | path in t :: NameLength([APP] + path) <= MAX_NAME && (t[path].Link? ==> |t[path].target| <= MAX_LINK)
  }

  lemma RootedNameOk(path: Path)
    requires NameOk(path)
    ensures NameOk([APP] + path) <==> NameLength([APP] + path) <= MAX_NAME
  {
    var full := [APP] + path;
    assert PartOk(APP);
    assert forall i | 0 <= i < |path| :: full[i + 1] == path[i];
    if NameLength(full) <= MAX_NAME {
      forall i | 0 <= i < |full| ensures PartOk(full[i]) {
        if i > 0 { assert full[i] == path[i - 1]; }
      }
    }
  }

  lemma AppNameOk()
    ensures NameOk([APP])
  {
    assert PartOk(APP);
  }

  lemma MaxFileFits(n: nat)
    requires n <= MAX_LINK
    ensures n <= MAX_FILE
  {
  }

  /** The item of an accepted entry is valid exactly when its full name and its link fit. */
  lemma EntryItemOk(path: Path, e: Entry)
    requires NameOk(path) && EntryAccepted(e)
    ensures ItemOk(ItemFor(path, e)) && ContentOk(ItemFor(path, e)) <==>
            NameLength([APP] + path) <= MAX_NAME && (e.Link? ==> |e.target| <= MAX_LINK)
  {
    RootedNameOk(path);
    assert ([APP] + path)[0] == APP && |[APP] + path| > 1;
    if e.Link? && |e.target| <= MAX_LINK { MaxFileFits(|e.target|); }
    hide NameOk, NameLength;
  }

  lemma RootItemOk(rootMode: nat)
    ensures ItemOk(ItemFor([], Dir(rootMode))) <==> rootMode <= PERMISSIONS
    ensures ContentOk(ItemFor([], Dir(rootMode)))
  {
    AppNameOk();
    assert [APP] + [] == [APP];
    hide NameOk;
  }

  lemma FoldRooted(fold: string -> string, path: Path)
    ensures FoldPath(fold, [APP] + path) == [fold(APP)] + FoldPath(fold, path)
  {
  }

  lemma CreatedNamesDistinct(t: Tree, rootMode: nat, listing: seq<Path>, fold: string -> string)
    requires Lists(listing, t) && TreeAccepted(t, fold)
    ensures DistinctNames(Created(t, rootMode, listing), fold)
  {
    var items := Created(t, rootMode, listing);
    CreatedAt(t, rootMode, listing);
    forall i, j | 0 <= i < j < |items| ensures FoldPath(fold, items[i].parts) != FoldPath(fold, items[j].parts) {
      var b := listing[j - 1];
      FoldRooted(fold, b);
      assert b in t;
      if i == 0 {
        FoldRooted(fold, []);
        assert |FoldPath(fold, items[i].parts)| == 1 && b != [];
      } else {
        var a := listing[i - 1];
        FoldRooted(fold, a);
        assert a in t && a != b;
        assert ([fold(APP)] + FoldPath(fold, a))[1..] == FoldPath(fold, a);
        assert ([fold(APP)] + FoldPath(fold, b))[1..] == FoldPath(fold, b);
      }
    }
  }

  lemma CreatedParents(t: Tree, rootMode: nat, listing: seq<Path>)
    requires Lists(listing, t) && IsTree(t)
    ensures var items := Created(t, rootMode, listing); forall i | 0 <= i < |items| :: ParentsPresent(items, items[i])
  {
    var items := Created(t, rootMode, listing);
    CreatedAt(t, rootMode, listing);
    forall i, k | 0 <= i < |items| && 0 < k < |items[i].parts| ensures HasDirectory(items, items[i].parts[..k]) {
      var path := listing[i - 1];
      assert path in t && items[i].parts == [APP] + path;
      if k == 1 {
        assert items[i].parts[..1] == [APP] == [APP] + [];
        assert items[0].parts == [APP] + [] && items[0].kind == DirKind;
      } else {
        var parent := path[..k - 1];
        assert items[i].parts[..k] == [APP] + parent;
        assert parent in t && t[parent].Dir?;
        assert parent in listing;
        var j :| 0 <= j < |listing| && listing[j] == parent;
        assert items[j + 1].parts == [APP] + parent && items[j + 1].kind == DirKind;
      }
    }
  }

  lemma CreatedWithinLimits(t: Tree, rootMode: nat, listing: seq<Path>, fold: string -> string)
    requires Lists(listing, t) && TreeAccepted(t, fold)
    ensures var items := Created(t, rootMode, listing);
            && |items| == |t| + 1
            && ((forall i | 0 <= i < |items| :: ItemOk(items[i]) && ContentOk(items[i])) <==>
                rootMode <= PERMISSIONS && forall path | path in t ::
                  NameLength([APP] + path) <= MAX_NAME && (t[path].Link? ==> |t[path].target| <= MAX_LINK))
  {
    var items := Created(t, rootMode, listing);
    CreatedAt(t, rootMode, listing);
    ListingSize(listing, t);
    hide ItemOk, ContentOk, ItemFor, Created, NameLength;
    forall path | path in t
      ensures exists i :: 0 < i < |items| && items[i] == ItemFor(path, t[path])
    {
      assert path in listing;
      var j :| 0 <= j < |listing| && listing[j] == path;
      assert items[j + 1] == ItemFor(path, t[path]);
    }
    ItemsWithinLimits(t, rootMode, items, listing);
  }

  /** For every tree that the digest accepts, the extractor takes the archive exactly within its own limits. */
  lemma CreatedIsExtractableIff(t: Tree, rootMode: nat, listing: seq<Path>, fold: string -> string)
    requires Lists(listing, t) && TreeAccepted(t, fold)
    ensures ArchiveOk(Created(t, rootMode, listing), fold) <==> WithinLimits(t, rootMode, Created(t, rootMode, listing))
  {
    CreatedNamesDistinct(t, rootMode, listing, fold);
    CreatedParents(t, rootMode, listing);
    CreatedWithinLimits(t, rootMode, listing, fold);
    hide ItemOk, ContentOk, ItemFor, Created, DistinctNames, ParentsPresent, TotalSize, NameLength, Lists, TreeAccepted;
  }

  lemma ItemsWithinLimits(t: Tree, rootMode: nat, items: seq<Item>, listing: seq<Path>)
    requires forall path | path in t :: NameOk(path) && EntryAccepted(t[path])
    requires |items| == |listing| + 1 && items[0] == ItemFor([], Dir(rootMode)) && Lists(listing, t)
    requires forall i | 0 < i < |items| :: items[i] == ItemFor(listing[i - 1], t[listing[i - 1]])
    requires forall path | path in t :: exists i :: 0 < i < |items| && items[i] == ItemFor(path, t[path])
    ensures (forall i | 0 <= i < |items| :: ItemOk(items[i]) && ContentOk(items[i])) <==>
            rootMode <= PERMISSIONS && forall path | path in t ::
              NameLength([APP] + path) <= MAX_NAME && (t[path].Link? ==> |t[path].target| <= MAX_LINK)
  {
    RootItemOk(rootMode);
    forall path | path in t
      ensures ItemOk(ItemFor(path, t[path])) && ContentOk(ItemFor(path, t[path])) <==>
              NameLength([APP] + path) <= MAX_NAME && (t[path].Link? ==> |t[path].target| <= MAX_LINK)
    {
      EntryItemOk(path, t[path]);
    }
    hide ItemOk, ContentOk, NameLength, NameOk, EntryAccepted, ItemFor;
    if forall i | 0 <= i < |items| :: ItemOk(items[i]) && ContentOk(items[i]) {
      forall path | path in t
        ensures NameLength([APP] + path) <= MAX_NAME && (t[path].Link? ==> |t[path].target| <= MAX_LINK)
      {
        var i :| 0 < i < |items| && items[i] == ItemFor(path, t[path]);
      }
    }
    if rootMode <= PERMISSIONS && forall path | path in t ::
         NameLength([APP] + path) <= MAX_NAME && (t[path].Link? ==> |t[path].target| <= MAX_LINK)
    {
      forall i | 0 <= i < |items| ensures ItemOk(items[i]) && ContentOk(items[i]) {
        if i > 0 { assert listing[i - 1] in t; }
      }
    }
  }

  // ---- Accepted trees that cannot be extracted -------------------------------

  /** The digest never looks at the application directory itself, so even an empty one fails with the setgid bit. */
  lemma SpecialRootIsRefused(fold: string -> string)
    ensures TreeAccepted(map[], fold) && Lists([], map[])
    ensures !ArchiveOk(Created(map[], 0x5ED, []), fold) && ArchiveOk(Created(map[], 0x1ED, []), fold)
  {
    CreatedIsExtractableIff(map[], 0x5ED, [], fold);
    CreatedIsExtractableIff(map[], 0x1ED, [], fold);
    hide TreeAccepted, ArchiveOk, Lists, NameLength;
    assert TotalSize([ItemFor([], Dir(0x1ED))]) == 0;
  }

  const LONG_LINK: string := seq(MAX_LINK + 1, _ => 'x')

  /** The digest does not limit links: a link of 4097 bytes is refused only by the extractor. */
  lemma LongLinkIsRefused(fold: string -> string)
    ensures var t: Tree := map[["x"] := Link(0x1ED, LONG_LINK)];
            TreeAccepted(t, fold) && Lists([["x"]], t) && !ArchiveOk(Created(t, 0x1ED, [["x"]]), fold)
  {
    var t: Tree := map[["x"] := Link(0x1ED, LONG_LINK)];
    OneLinkAccepted(t, fold);
    CreatedIsExtractableIff(t, 0x1ED, [["x"]], fold);
    hide TreeAccepted, ArchiveOk, Lists, NameLength, Created;
    assert |t[["x"]].target| > MAX_LINK;
  }

  lemma OneLinkAccepted(t: Tree, fold: string -> string)
    requires t == map[["x"] := Link(0x1ED, LONG_LINK)]
    ensures TreeAccepted(t, fold) && Lists([["x"]], t)
  {
    assert LinkOk(LONG_LINK);
    assert PartOk("x");
    assert NameLength(["x"]) == 1;
    hide FoldPath;
    assert |t| == 1;
  }

  /** A tree with as many entries as the digest allows leaves no room for the application directory. */
  lemma FullTreeIsRefused(t: Tree, rootMode: nat, listing: seq<Path>, fold: string -> string)
    requires Lists(listing, t) && TreeAccepted(t, fold) && |t| == MAX_ENTRIES
    ensures !ArchiveOk(Created(t, rootMode, listing), fold)
  {
    CreatedIsExtractableIff(t, rootMode, listing, fold);
    hide TreeAccepted, ArchiveOk, Lists, NameLength, Created;
  }

  /** Whatever is extracted from the archive of a tree is that tree, under the application directory. */
  lemma ExtractionRestoresTheTree(t: Tree, rootMode: nat, listing: seq<Path>, fold: string -> string, fs: Tree)
    requires Lists(listing, t) && TreeAccepted(t, fold) && IsBuilt(fs, Created(t, rootMode, listing))
    ensures IsRooted(fs, t, rootMode)
  {
    var items := Created(t, rootMode, listing);
    CreatedAt(t, rootMode, listing);
    assert items[0].parts == [APP] + [] == [APP];
    EntryOfItem([], Dir(rootMode));
    forall path | path in t ensures [APP] + path in fs && fs[[APP] + path] == t[path] {
      assert path in listing;
      var j :| 0 <= j < |listing| && listing[j] == path;
      assert items[j + 1] == ItemFor(path, t[path]);
      EntryOfItem(path, t[path]);
    }
    forall path | path in fs ensures path != [] && path[0] == APP && (path[1..] == [] || path[1..] in t) {
      var i :| 0 <= i < |items| && items[i].parts == path;
      if i > 0 {
        assert path == [APP] + listing[i - 1];
        assert path[1..] == listing[i - 1];
      }
    }
  }
}
