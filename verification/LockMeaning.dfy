/**
 What both closures select, said of the fields of the lockfile alone: the packages and
 extras that every choice must hold which holds the requests and, with a package or an
 extra, everything that its records ask for.
 */
module LockMeaning {
  import opened LockGraph
  import opened LockScope
  import opened Options
  import opened ProjectPaths

  type Choice = iset<Node>

  // ---- The reference definition ----------------------------------------------

  /** The choice holds a package and the extras that are asked for. */
  ghost predicate Holds(chosen: Choice, edge: Edge) {
    Node(edge.name, None) in chosen && forall extra | extra in edge.extras :: Node(edge.name, Some(extra)) in chosen
  }

  /** With a package its dependencies are chosen, and with an extra what it adds. */
  ghost predicate Complete(records: iset<Record>, chosen: Choice) {
    && (forall record, edge | record in records && edge in record.dependencies && Node(record.name, None) in chosen ::
         Holds(chosen, edge))
    && (forall record, extra, edge | record in records && extra in record.optional && edge in record.optional[extra]
                                     && Node(record.name, Some(extra)) in chosen ::
         Holds(chosen, edge))
  }

  ghost predicate HoldsRoots(roots: seq<string>, chosen: Choice) {
    forall root | root in roots :: Node(root, None) in chosen
  }

  /** The development groups that the harness package lists. */
  ghost predicate HoldsGroups(records: iset<Record>, groups: seq<string>, chosen: Choice) {
    forall record, group, edge | record in records && record.name == "tinkerfin-harness" && group in groups
                                 && group in record.dev && edge in record.dev[group] ::
      Holds(chosen, edge)
  }

  ghost predicate Fine(records: iset<Record>, roots: seq<string>, groups: seq<string>, chosen: Choice) {
    Complete(records, chosen) && HoldsRoots(roots, chosen) && HoldsGroups(records, groups, chosen)
  }

  /** No choice can do without the node. */
  ghost predicate Required(records: iset<Record>, roots: seq<string>, groups: seq<string>, node: Node) {
    forall chosen | Fine(records, roots, groups, chosen) :: node in chosen
  }

  ghost function RecordsOf(lock: Lock): iset<Record> { iset record | record in lock }

  // ---- The graph says the same -----------------------------------------------

  lemma HoldsIsRequests(chosen: Choice, edge: Edge)
    ensures Holds(chosen, edge) <==> forall node | Requests(edge, node) :: node in chosen
  {
    if forall node | Requests(edge, node) :: node in chosen {
      assert Requests(edge, Node(edge.name, None));
      forall extra | extra in edge.extras ensures Node(edge.name, Some(extra)) in chosen {
        assert Requests(edge, Node(edge.name, Some(extra)));
      }
    }
  }

  lemma CompleteIsClosed(lock: Lock, chosen: Choice)
    requires Complete(RecordsOf(lock), chosen)
    ensures Closed(lock, chosen)
  {
    forall a, b | a in chosen && Step(lock, a, b) ensures b in chosen {
      var edge :| HasEdge(lock, a, edge) && Requests(edge, b);
      var record :| record in Matches(lock, a.name) && Contributes(record, a.extra, edge);
      MatchesContents(lock, a.name);
      assert record in RecordsOf(lock);
      if a.extra.Some? { assert a == Node(record.name, Some(a.extra.value)); } else { assert a == Node(record.name, None); }
      HoldsIsRequests(chosen, edge);
    }
  }

  lemma ReachedIsComplete(lock: Lock, start: seq<Edge>)
    ensures Complete(RecordsOf(lock), iset node | Reached(lock, start, node))
  {
    var chosen := iset node | Reached(lock, start, node);
    forall record, extra: Option<string>, edge | record in lock && Contributes(record, extra, edge) && Node(record.name, extra) in chosen
      ensures Holds(chosen, edge)
    {
      MatchesContents(lock, record.name);
      hide Reached;
      forall b | Requests(edge, b) ensures b in chosen {
        assert HasEdge(lock, Node(record.name, extra), edge);
        assert Step(lock, Node(record.name, extra), b);
        StepIsReached(lock, start, Node(record.name, extra), b);
      }
      HoldsIsRequests(chosen, edge);
    }
    hide Reached, Holds;
    forall record, edge | record in RecordsOf(lock) && edge in record.dependencies && Node(record.name, None) in chosen
      ensures Holds(chosen, edge)
    {
      assert Contributes(record, None, edge);
    }
    forall record, extra, edge | record in RecordsOf(lock) && extra in record.optional && edge in record.optional[extra]
                                 && Node(record.name, Some(extra)) in chosen
      ensures Holds(chosen, edge)
    {
      assert Contributes(record, Some(extra), edge);
    }
  }

  // ---- What is asked for -----------------------------------------------------

  lemma {:induction false} RootEdgesContents(roots: seq<string>, edge: Edge)
    ensures edge in RootEdges(roots) <==> exists root :: root in roots && edge == Edge(root, [])
    decreases |roots|
  {
    if roots != [] {
      RootEdgesContents(roots[1..], edge);
      assert roots == [roots[0]] + roots[1..];
    }
  }

  ghost predicate Lists(record: Record, groups: seq<string>, edge: Edge) {
    exists group :: group in groups && group in record.dev && edge in record.dev[group]
  }

  lemma {:induction false} GroupsContents(record: Record, groups: seq<string>, edge: Edge)
    ensures edge in GroupsOf(record, groups) <==> Lists(record, groups, edge)
    decreases |groups|
  {
    if groups != [] {
      GroupsContents(record, groups[1..], edge);
      assert groups == [groups[0]] + groups[1..];
    }
  }

  lemma {:induction false} GroupEdgesContents(lock: Lock, groups: seq<string>, edge: Edge)
    ensures edge in GroupEdges(lock, groups) <==>
            exists record :: record in lock && record.name == "tinkerfin-harness" && Lists(record, groups, edge)
    decreases |lock|
  {
    if lock != [] {
      GroupEdgesContents(lock[1..], groups, edge);
      GroupsContents(lock[0], groups, edge);
      assert lock == [lock[0]] + lock[1..];
      hide Lists, GroupsOf;
    }
  }

  lemma StartHolds(lock: Lock, roots: seq<string>, groups: seq<string>, chosen: Choice)
    ensures (forall node | Starts(StartEdges(lock, roots, groups), node) :: node in chosen) <==>
            HoldsRoots(roots, chosen) && HoldsGroups(RecordsOf(lock), groups, chosen)
  {
    var start := StartEdges(lock, roots, groups);
    assert (forall node | Starts(start, node) :: node in chosen) <==> forall edge | edge in start :: Holds(chosen, edge) by {
      StartsHold(start, chosen);
    }
    forall edge
      ensures edge in start <==>
              (exists root :: root in roots && edge == Edge(root, []))
              || exists record :: record in lock && record.name == "tinkerfin-harness" && Lists(record, groups, edge)
    {
      RootEdgesContents(roots, edge);
      GroupEdgesContents(lock, groups, edge);
    }
    hide Starts, StartEdges;
    if forall edge | edge in start :: Holds(chosen, edge) {
      forall root | root in roots ensures Node(root, None) in chosen { assert Edge(root, []) in start; }
      forall record, group, edge | record in RecordsOf(lock) && record.name == "tinkerfin-harness" && group in groups
                                   && group in record.dev && edge in record.dev[group]
        ensures Holds(chosen, edge)
      {
        assert Lists(record, groups, edge);
        assert edge in start;
      }
    }
  }

  lemma StartsHold(start: seq<Edge>, chosen: Choice)
    ensures (forall node | Starts(start, node) :: node in chosen) <==> forall edge | edge in start :: Holds(chosen, edge)
  {
    if forall node | Starts(start, node) :: node in chosen {
      forall edge | edge in start ensures Holds(chosen, edge) {
        forall node | Requests(edge, node) ensures node in chosen { assert Starts(start, node); }
        HoldsIsRequests(chosen, edge);
      }
    }
    if forall edge | edge in start :: Holds(chosen, edge) {
      forall node | Starts(start, node) ensures node in chosen {
        var edge :| edge in start && Requests(edge, node);
        HoldsIsRequests(chosen, edge);
      }
    }
  }

  /** What is reached in the graph is exactly what no choice can do without. */
  lemma ReachedIsRequired(lock: Lock, roots: seq<string>, groups: seq<string>, node: Node)
    ensures Reached(lock, StartEdges(lock, roots, groups), node) <==> Required(RecordsOf(lock), roots, groups, node)
  {
    var start := StartEdges(lock, roots, groups);
    if Reached(lock, start, node) {
      var path :| IsPath(lock, start, path) && path[|path| - 1] == node;
      forall chosen | Fine(RecordsOf(lock), roots, groups, chosen) ensures node in chosen {
        hide Complete, Closed, IsPath, Starts, StartEdges, HoldsRoots, HoldsGroups;
        CompleteIsClosed(lock, chosen);
        StartHolds(lock, roots, groups, chosen);
        ReachedIsLeast(lock, start, chosen, path);
      }
    }
    if Required(RecordsOf(lock), roots, groups, node) {
      var chosen := iset n | Reached(lock, start, n);
      ReachedIsComplete(lock, start);
      forall n | Starts(start, n) ensures n in chosen { StartIsReached(lock, start, n); }
      StartHolds(lock, roots, groups, chosen);
      hide Complete, Reached, Starts, StartEdges, HoldsRoots, HoldsGroups;
      assert Fine(RecordsOf(lock), roots, groups, chosen);
    }
  }

  // ---- The reference closure -------------------------------------------------

  ghost predicate Covers<T>(all: seq<T>, picked: iset<T>, positions: seq<nat>) {
    forall i | 0 <= i < |all| :: all[i] in picked <==> i in positions
  }

  ghost predicate Rising(positions: seq<nat>) {
    forall i, j | 0 <= i < j < |positions| :: positions[i] < positions[j]
  }

  ghost predicate Reads<T>(list: seq<T>, all: seq<T>, positions: seq<nat>) {
    |positions| == |list| && forall i | 0 <= i < |positions| :: positions[i] < |all| && list[i] == all[positions[i]]
  }

  /** `list` is `all` without the elements that are not `picked`, in the same order. */
  ghost predicate Picks<T>(list: seq<T>, all: seq<T>, picked: iset<T>) {
    exists positions: seq<nat> :: PicksAt(list, all, picked, positions)
  }

  ghost predicate PicksAt<T>(list: seq<T>, all: seq<T>, picked: iset<T>, positions: seq<nat>) {
    Reads(list, all, positions) && Rising(positions) && Covers(all, picked, positions)
  }

  function Moved(positions: seq<nat>): seq<nat> { seq(|positions|, i requires 0 <= i < |positions| => positions[i] + 1) }

  lemma MovedContents(positions: seq<nat>, i: nat)
    ensures i in Moved(positions) <==> i > 0 && i - 1 in positions
  {
    if i > 0 && i - 1 in positions {
      var k :| 0 <= k < |positions| && positions[k] == i - 1;
      assert Moved(positions)[k] == i;
    }
  }

  lemma CoversLater<T>(all: seq<T>, picked: iset<T>, later: seq<nat>)
    requires all != [] && all[0] !in picked && Covers(all[1..], picked, later)
    ensures Covers(all, picked, Moved(later))
  {
    var rest := all[1..];
    hide Moved;
    forall i | 0 <= i < |all| ensures all[i] in picked <==> i in Moved(later) {
      MovedContents(later, i);
      if i > 0 { assert rest[i - 1] in picked <==> i - 1 in later; }
    }
  }

  lemma ReadsLater<T>(list: seq<T>, all: seq<T>, later: seq<nat>)
    requires all != [] && Reads(list, all[1..], later)
    ensures Reads(list, all, Moved(later))
  {
    var rest := all[1..];
    forall i | 0 <= i < |later| ensures later[i] + 1 < |all| && list[i] == all[later[i] + 1] {
      assert list[i] == rest[later[i]];
    }
  }

  lemma RisingLater(later: seq<nat>)
    requires Rising(later)
    ensures Rising(Moved(later))
  {
  }

  lemma PicksLater<T>(list: seq<T>, all: seq<T>, picked: iset<T>)
    requires all != [] && all[0] !in picked && Picks(list, all[1..], picked)
    ensures Picks(list, all, picked)
  {
    var later: seq<nat> :| PicksAt(list, all[1..], picked, later);
    hide Moved, Reads, Rising, Covers;
    CoversLater(all, picked, later);
    RisingLater(later);
    ReadsLater(list, all, later);
    assert PicksAt(list, all, picked, Moved(later));
  }

  function FromStart(positions: seq<nat>): seq<nat> { [0] + Moved(positions) }

  lemma FromStartAt(positions: seq<nat>, k: nat)
    requires k <= |positions|
    ensures |FromStart(positions)| == |positions| + 1
    ensures FromStart(positions)[k] == if k == 0 then 0 else positions[k - 1] + 1
  {
  }

  lemma FromStartContents(positions: seq<nat>, i: nat)
    ensures i in FromStart(positions) <==> i == 0 || (i > 0 && i - 1 in positions)
  {
    MovedContents(positions, i);
    assert i in FromStart(positions) <==> i == 0 || i in Moved(positions);
  }

  lemma CoversMore<T>(all: seq<T>, picked: iset<T>, later: seq<nat>)
    requires all != [] && all[0] in picked && Covers(all[1..], picked, later)
    ensures Covers(all, picked, FromStart(later))
  {
    var rest := all[1..];
    hide FromStart;
    forall i | 0 <= i < |all| ensures all[i] in picked <==> i in FromStart(later) {
      FromStartContents(later, i);
      if i > 0 { assert rest[i - 1] in picked <==> i - 1 in later; }
    }
  }

  lemma RisingMore(later: seq<nat>)
    requires Rising(later)
    ensures Rising(FromStart(later))
  {
  }

  lemma ReadsMore<T>(list: seq<T>, all: seq<T>, later: seq<nat>)
    requires all != [] && Reads(list, all[1..], later)
    ensures Reads([all[0]] + list, all, FromStart(later))
  {
    var rest, positions := all[1..], FromStart(later);
    FromStartAt(later, 0);
    hide FromStart;
    forall i | 0 <= i < |positions| ensures positions[i] < |all| && ([all[0]] + list)[i] == all[positions[i]] {
      FromStartAt(later, i);
      if i > 0 { assert list[i - 1] == rest[later[i - 1]]; }
    }
  }

  lemma PicksFirst<T>(list: seq<T>, all: seq<T>, picked: iset<T>)
    requires all != [] && all[0] in picked && Picks(list, all[1..], picked)
    ensures Picks([all[0]] + list, all, picked)
  {
    var later: seq<nat> :| PicksAt(list, all[1..], picked, later);
    hide FromStart, Reads, Rising, Covers;
    CoversMore(all, picked, later);
    RisingMore(later);
    ReadsMore(list, all, later);
    assert PicksAt([all[0]] + list, all, picked, FromStart(later));
  }

  lemma PicksMore<T>(list: seq<T>, all: seq<T>, picked: iset<T>)
    requires all != [] && Picks(list, all[1..], picked)
    ensures Picks((if all[0] in picked then [all[0]] else []) + list, all, picked)
  {
    if all[0] in picked {
      PicksFirst(list, all, picked);
    } else {
      PicksLater(list, all, picked);
      assert [] + list == list;
    }
  }

  lemma {:induction false} MatchesPicks(lock: Lock, name: string)
    ensures Picks(Matches(lock, name), lock, iset record | record in lock && record.name == name)
    decreases |lock|
  {
    var picked := iset record | record in lock && record.name == name;
    if lock == [] {
      assert PicksAt(Matches(lock, name), lock, picked, []);
    } else {
      MatchesPicks(lock[1..], name);
      SamePicks(Matches(lock[1..], name), lock[1..], (iset record | record in lock[1..] && record.name == name), picked);
      PicksMore(Matches(lock[1..], name), lock, picked);
    }
  }

  lemma SamePicks<T>(list: seq<T>, all: seq<T>, picked: iset<T>, also: iset<T>)
    requires Picks(list, all, picked) && forall x | x in all :: x in picked <==> x in also
    ensures Picks(list, all, also)
  {
    var positions: seq<nat> :| PicksAt(list, all, picked, positions);
    assert PicksAt(list, all, also, positions);
  }

  /** The scope of a lockfile is the required packages that it lists, each with all its records in their order. */
  lemma ScopeIsRequired(selected: map<string, seq<Record>>, lock: Lock, roots: seq<string>, groups: seq<string>, name: string)
    requires IsScope(selected, lock, StartEdges(lock, roots, groups))
    ensures name in selected <==>
            (exists record :: record in lock && record.name == name) && Required(RecordsOf(lock), roots, groups, Node(name, None))
    ensures name in selected ==> Picks(selected[name], lock, iset record | record in lock && record.name == name)
  {
    ReachedIsRequired(lock, roots, groups, Node(name, None));
    MatchesPicks(lock, name);
    MatchesContents(lock, name);
    hide Required, Reached, Picks, StartEdges, Matches;
    assert ScopedAt(selected, lock, StartEdges(lock, roots, groups), name);
    assert (exists record :: record in lock && record.name == name) <==> Matches(lock, name) != [] by {
      if record :| record in lock && record.name == name { assert record in Matches(lock, name); }
      if Matches(lock, name) != [] { assert Matches(lock, name)[0] in lock; }
    }
  }

  // ---- The incremental closure -----------------------------------------------

  /** The workspace record of its name that counts: no later one is there. */
  ghost predicate Counts(lock: Lock, record: Record) {
    exists i :: 0 <= i < |lock| && lock[i] == record && record.editable.Some?
                && forall j | i < j < |lock| && lock[j].editable.Some? :: lock[j].name != record.name
  }

  ghost function Counting(lock: Lock): iset<Record> { iset record | Counts(lock, record) }

  lemma {:induction false} CountsIsLast(lock: Lock, record: Record)
    ensures Counts(lock, record) <==> LastEditable(lock, record.name) == Some(record)
    decreases |lock|
  {
    if lock != [] {
      var rest := lock[1..];
      CountsIsLast(rest, record);
      assert Counts(lock, record) <==>
             Counts(rest, record) || (lock[0] == record && record.editable.Some? && LastEditable(rest, record.name).None?) by
      {
        CountsStep(lock, record);
      }
    }
  }

  lemma {:induction false} NoLaterEditable(lock: Lock, name: string)
    ensures LastEditable(lock, name).None? <==> forall j | 0 <= j < |lock| && lock[j].editable.Some? :: lock[j].name != name
    decreases |lock|
  {
    if lock != [] {
      NoLaterEditable(lock[1..], name);
      assert forall j | 0 <= j < |lock| - 1 :: lock[j + 1] == lock[1..][j];
      if forall j | 0 <= j < |lock| - 1 && lock[1..][j].editable.Some? :: lock[1..][j].name != name {
        assert forall j | 0 < j < |lock| && lock[j].editable.Some? :: lock[1..][j - 1].name != name;
      }
    }
  }

  lemma CountsStep(lock: Lock, record: Record)
    requires lock != []
    ensures Counts(lock, record) <==>
            Counts(lock[1..], record) || (lock[0] == record && record.editable.Some? && LastEditable(lock[1..], record.name).None?)
  {
    var rest := lock[1..];
    NoLaterEditable(rest, record.name);
    hide LastEditable;
    assert forall j | 0 < j < |lock| :: lock[j] == rest[j - 1];
    if i :| 0 <= i < |lock| && lock[i] == record && record.editable.Some?
            && forall j | i < j < |lock| && lock[j].editable.Some? :: lock[j].name != record.name
    {
      if i > 0 {
        assert rest[i - 1] == record;
        assert forall j | i - 1 < j < |rest| && rest[j].editable.Some? :: lock[j + 1].name != record.name;
      } else {
        assert forall j | 0 <= j < |rest| && rest[j].editable.Some? :: lock[j + 1].name != record.name;
      }
    }
    if i :| 0 <= i < |rest| && rest[i] == record && record.editable.Some?
            && forall j | i < j < |rest| && rest[j].editable.Some? :: rest[j].name != record.name
    {
      assert lock[i + 1] == record;
      assert forall j | i + 1 < j < |lock| && lock[j].editable.Some? :: rest[j - 1].name != record.name;
    }
    if lock[0] == record && record.editable.Some? && LastEditable(rest, record.name).None? {
      assert forall j | 0 < j < |lock| && lock[j].editable.Some? :: rest[j - 1].name != record.name;
    }
  }

  lemma WorkspaceCounts(lock: Lock)
    ensures RecordsOf(Workspace(lock)) == Counting(lock)
  {
    forall record ensures record in Workspace(lock) <==> Counts(lock, record) {
      WorkspaceMatches(lock, record.name);
      MatchesContents(Workspace(lock), record.name);
      CountsIsLast(lock, record);
      hide Workspace, Counts, Matches, LastEditable;
      assert record in Matches(Workspace(lock), record.name) <==> record in Workspace(lock);
    }
  }

  /** The paths that a package needs: those of the required packages, by the workspace records that count. */
  lemma NeedsIsRequired(lock: Lock, package: string, path: string)
    ensures Needs(lock, package, path) <==>
            exists record :: Counts(lock, record) && record.editable == Some(path)
                             && Required(Counting(lock), [package], [], Node(record.name, None))
  {
    WorkspaceCounts(lock);
    OneRoot(Workspace(lock), package);
    forall name
      ensures Reached(Workspace(lock), [Edge(package, [])], Node(name, None)) <==> Required(Counting(lock), [package], [], Node(name, None))
    {
      ReachedIsRequired(Workspace(lock), [package], [], Node(name, None));
    }
    forall record ensures Counts(lock, record) <==> LastEditable(lock, record.name) == Some(record) { CountsIsLast(lock, record); }
    forall name | LastEditable(lock, name).Some? ensures LastEditable(lock, name).value.name == name { WorkspaceMatches(lock, name); }
    hide Reached, Required, Counts, Workspace, Counting, LastEditable;
    if Needs(lock, package, path) {
      var name :| Reached(Workspace(lock), [Edge(package, [])], Node(name, None))
                  && LastEditable(lock, name).Some? && LastEditable(lock, name).value.editable == Some(path);
      assert Counts(lock, LastEditable(lock, name).value);
    }
  }

  lemma OneRoot(lock: Lock, package: string)
    ensures StartEdges(lock, [package], []) == [Edge(package, [])]
  {
    NoGroupsNoEdges(lock);
    assert [package][1..] == [];
    assert RootEdges([package][1..]) == [];
  }

  /** The search gives the needed paths in the fixed order in which they are built, each once. */
  lemma {:induction false} ChosenPicks(paths: seq<string>, chosen: set<string>)
    ensures Picks(Chosen(paths, chosen), paths, iset path | path in chosen)
    decreases |paths|
  {
    if paths == [] {
      assert PicksAt(Chosen(paths, chosen), paths, iset path | path in chosen, []);
    } else {
      ChosenPicks(paths[1..], chosen);
      PicksMore(Chosen(paths[1..], chosen), paths, iset path | path in chosen);
    }
  }
}
