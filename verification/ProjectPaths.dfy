/**
 The incremental closure: the workspace paths that a package needs, in build order.

 Its work list is finer than the reference one. A package's own dependencies are followed
 once, and each extra once, however often and in whatever tuples they are asked for.
 */
module ProjectPaths {
  import opened LockGraph
  import opened LockScope
  import opened Options

  const PROJECT_PATHS: seq<string> := [
    "packages/tinkerfin-contracts",
    "packages/tinkerfin-notifications",
    "packages/tinkerfin-native-stream",
    "packages/tinkerfin-agui-adapter",
    "packages/tinkerfin",
    "packages/tinkerfin-automation",
    "packages/tinkerfin-messaging",
    "packages/tinkerfin-gateway",
    "packages/tinkerfin-tracing",
    "packages/tinkerfin-sandbox",
    "packages/tinkerfin-langgraph-store",
    "packages/tinkerfin-sqlalchemy",
    "packages/tinkerfin-remote",
    "apps/studio-server",
    "apps/desktop"
  ]

  // ---- The workspace part of a lockfile --------------------------------------

  /** The last editable record of a name; earlier ones are overridden. */
  function LastEditable(lock: Lock, name: string): Option<Record> {
    if lock == [] then None
    else
      var later := LastEditable(lock[1..], name);
      if later.Some? then later
      else if lock[0].name == name && lock[0].editable.Some? then Some(lock[0])
      else None
  }

  function Workspace(lock: Lock): Lock {
    if lock == [] then []
    else if lock[0].editable.Some? && LastEditable(lock[1..], lock[0].name).None? then [lock[0]] + Workspace(lock[1..])
    else Workspace(lock[1..])
  }

  function AsList(record: Option<Record>): seq<Record> { if record.None? then [] else [record.value] }

  lemma {:induction false} WorkspaceMatches(lock: Lock, name: string)
    ensures Matches(Workspace(lock), name) == AsList(LastEditable(lock, name))
    ensures LastEditable(lock, name).Some? ==>
      LastEditable(lock, name).value in lock && LastEditable(lock, name).value.name == name && LastEditable(lock, name).value.editable.Some?
  {
    if lock != [] {
      WorkspaceMatches(lock[1..], name);
      var rest := Workspace(lock[1..]);
      assert ([lock[0]] + rest)[1..] == rest;
      assert forall r | r in lock[1..] :: r in lock;
    }
  }

  lemma {:induction false} LastEditableAppend(lock: Lock, record: Record, name: string)
    ensures LastEditable(lock + [record], name) ==
            if record.name == name && record.editable.Some? then Some(record) else LastEditable(lock, name)
  {
    if lock == [] {
      assert lock + [record] == [record];
      assert LastEditable([record][1..], name) == None;
    } else {
      assert (lock + [record])[1..] == lock[1..] + [record];
      LastEditableAppend(lock[1..], record, name);
    }
  }

  ghost predicate IsProjects(projects: map<string, Record>, lock: Lock) {
    forall name :: LastEditable(lock, name) == if name in projects then Some(projects[name]) else None
  }

  method Projects(lock: Lock) returns (projects: map<string, Record>)
    ensures IsProjects(projects, lock)
  {
    projects := map[];
    for i := 0 to |lock|
      invariant IsProjects(projects, lock[..i])
    {
      var record := lock[i];
      assert lock[..i + 1] == lock[..i] + [record];
      ghost var before := projects;
      if record.editable.Some? {
        projects := projects[record.name := record];
      }
      forall name ensures LastEditable(lock[..i + 1], name) == if name in projects then Some(projects[name]) else None {
        LastEditableAppend(lock[..i], record, name);
        assert LastEditable(lock[..i], name) == if name in before then Some(before[name]) else None;
      }
    }
    assert lock[..|lock|] == lock;
  }

  // ---- The work list ---------------------------------------------------------

  type Expanded = map<string, set<string>>

  predicate In(expanded: Expanded, node: Node) {
    node.name in expanded && (node.extra.None? || node.extra.value in expanded[node.name])
  }

  /** Visited, waiting, or not a workspace package. */
  ghost predicate Covered(lock: Lock, expanded: Expanded, pending: seq<Edge>, node: Node) {
    In(expanded, node) || Matches(lock, node.name) == [] || exists e :: e in pending && Requests(e, node)
  }

  ghost predicate Sources(lock: Lock, start: seq<Edge>, expanded: Expanded, pending: seq<Edge>, node: Node) {
    Reached(lock, start, node) && Matches(lock, node.name) != []
    && forall b | Step(lock, node, b) :: Covered(lock, expanded, pending, b)
  }

  ghost predicate Expanding(lock: Lock, start: seq<Edge>, expanded: Expanded, pending: seq<Edge>) {
    && (forall e | e in pending :: Sound(lock, start, e))
    && (forall node | Starts(start, node) :: Covered(lock, expanded, pending, node))
    && (forall node | In(expanded, node) :: Sources(lock, start, expanded, pending, node))
  }

  /** The edges that a request adds: those of the package if it is new, and of each new extra. */
  ghost predicate Adds(record: Record, expanded: Expanded, request: Edge, edge: Edge) {
    || (record.name !in expanded && edge in record.dependencies)
    || exists extra :: extra in request.extras && !In(expanded, Node(record.name, Some(extra))) && edge in ExtraEdges(record, extra)
  }

  function Visit(expanded: Expanded, request: Edge): Expanded {
    expanded[request.name := (if request.name in expanded then expanded[request.name] else {}) + set x | x in request.extras]
  }

  lemma VisitContents(expanded: Expanded, request: Edge, node: Node)
    ensures In(Visit(expanded, request), node) <==> In(expanded, node) || Requests(request, node)
  {
  }

  /** A popped request that is visited still covers what it covered. */
  lemma StillCovered(lock: Lock, expanded: Expanded, rest: seq<Edge>, request: Edge, more: seq<Edge>, node: Node)
    requires Covered(lock, expanded, rest + [request], node)
    ensures Covered(lock, Visit(expanded, request), rest + more, node)
  {
    VisitContents(expanded, request, node);
    if e :| e in rest + [request] && Requests(e, node) {
      if e in rest { assert e in rest + more; }
    }
  }

  lemma NewNodeCovered(lock: Lock, start: seq<Edge>, expanded: Expanded, rest: seq<Edge>, request: Edge, record: Record,
                       more: seq<Edge>, node: Node)
    requires Matches(lock, request.name) == [record] && record.name == request.name
    requires forall edge :: edge in more <==> Adds(record, expanded, request, edge)
    requires Requests(request, node) && !In(expanded, node)
    ensures forall b | Step(lock, node, b) :: Covered(lock, Visit(expanded, request), rest + more, b)
  {
    forall b | Step(lock, node, b) ensures Covered(lock, Visit(expanded, request), rest + more, b) {
      var edge :| HasEdge(lock, node, edge) && Requests(edge, b);
      assert Adds(record, expanded, request, edge);
      assert edge in rest + more;
    }
  }

  lemma AddedIsSound(lock: Lock, start: seq<Edge>, expanded: Expanded, request: Edge, record: Record, edge: Edge)
    requires Sound(lock, start, request) && Matches(lock, request.name) == [record] && record.name == request.name
    requires Adds(record, expanded, request, edge)
    ensures Sound(lock, start, edge)
  {
    var node := Node(request.name, None);
    if !(edge in record.dependencies) {
      var extra :| extra in request.extras && edge in ExtraEdges(record, extra);
      node := Node(request.name, Some(extra));
    }
    assert record in Matches(lock, node.name) && Contributes(record, node.extra, edge);
    assert HasEdge(lock, node, edge) && Requests(request, node);
    forall b | Requests(edge, b) ensures Reached(lock, start, b) {
      assert Step(lock, node, b);
      StepIsReached(lock, start, node, b);
    }
  }

  lemma ExpandsOn(lock: Lock, start: seq<Edge>, expanded: Expanded, rest: seq<Edge>, request: Edge, record: Record, more: seq<Edge>)
    requires Expanding(lock, start, expanded, rest + [request])
    requires Matches(lock, request.name) == [record] && record.name == request.name
    requires forall edge :: edge in more <==> Adds(record, expanded, request, edge)
    ensures Expanding(lock, start, Visit(expanded, request), rest + more)
  {
    var next := Visit(expanded, request);
    assert request in rest + [request];
    forall e | e in rest + more ensures Sound(lock, start, e) {
      if e in rest { assert e in rest + [request]; } else { AddedIsSound(lock, start, expanded, request, record, e); }
    }
    forall node | Starts(start, node) ensures Covered(lock, next, rest + more, node) {
      StillCovered(lock, expanded, rest, request, more, node);
    }
    forall node | In(next, node) ensures Sources(lock, start, next, rest + more, node) {
      VisitContents(expanded, request, node);
      if In(expanded, node) {
        assert Sources(lock, start, expanded, rest + [request], node);
        forall b | Step(lock, node, b) ensures Covered(lock, next, rest + more, b) {
          StillCovered(lock, expanded, rest, request, more, b);
        }
      } else {
        NewNodeCovered(lock, start, expanded, rest, request, record, more, node);
      }
    }
  }

  lemma ForeignSkipped(lock: Lock, start: seq<Edge>, expanded: Expanded, rest: seq<Edge>, request: Edge)
    requires Expanding(lock, start, expanded, rest + [request]) && Matches(lock, request.name) == []
    ensures Expanding(lock, start, expanded, rest)
  {
    assert forall node | Covered(lock, expanded, rest + [request], node) :: Covered(lock, expanded, rest, node) by {
      forall node | Covered(lock, expanded, rest + [request], node) ensures Covered(lock, expanded, rest, node) {
        if e :| e in rest + [request] && Requests(e, node) {
          if e in rest {}
        }
      }
    }
    assert forall e | e in rest :: e in rest + [request];
    forall node | In(expanded, node) ensures Sources(lock, start, expanded, rest, node) {
      assert Sources(lock, start, expanded, rest + [request], node);
    }
  }

  lemma StepNeedsRecord(lock: Lock, a: Node, b: Node)
    requires Step(lock, a, b)
    ensures Matches(lock, a.name) != []
  {
    var edge :| HasEdge(lock, a, edge) && Requests(edge, b);
  }

  /** When nothing waits, the visited nodes are exactly the reachable ones of the workspace. */
  lemma ExpandedIsReached(lock: Lock, start: seq<Edge>, expanded: Expanded, node: Node)
    requires Expanding(lock, start, expanded, [])
    ensures In(expanded, node) <==> Reached(lock, start, node) && Matches(lock, node.name) != []
  {
    if In(expanded, node) { assert Sources(lock, start, expanded, [], node); }
    var nodes := iset n | Covered(lock, expanded, [], n);
    assert Closed(lock, nodes) by {
      forall a, b | a in nodes && Step(lock, a, b) ensures b in nodes {
        StepNeedsRecord(lock, a, b);
        assert Sources(lock, start, expanded, [], a);
      }
    }
    if Reached(lock, start, node) {
      var path :| IsPath(lock, start, path) && path[|path| - 1] == node;
      ReachedIsLeast(lock, start, nodes, path);
    }
  }

  // ---- Termination -----------------------------------------------------------

  function Requested(edges: set<Edge>): set<Node> {
    (set e | e in edges :: Node(e.name, None)) + set e, x | e in edges && x in e.extras :: Node(e.name, Some(x))
  }

  function Nodes(expanded: Expanded): set<Node> {
    (set n | n in expanded :: Node(n, None)) + set n, x | n in expanded && x in expanded[n] :: Node(n, Some(x))
  }

  lemma NodesContents(expanded: Expanded, node: Node)
    ensures node in Nodes(expanded) <==> In(expanded, node)
  {
  }

  lemma RequestedContents(edges: set<Edge>, node: Node)
    ensures node in Requested(edges) <==> exists e :: e in edges && Requests(e, node)
  {
  }

  /** A visit that adds edges visits a new node. */
  lemma VisitProgresses(all: set<Edge>, expanded: Expanded, request: Edge, record: Record, more: seq<Edge>)
    requires request in all && Nodes(expanded) <= Requested(all) && record.name == request.name
    requires forall edge :: edge in more <==> Adds(record, expanded, request, edge)
    ensures var next := Visit(expanded, request);
            && Nodes(next) <= Requested(all)
            && |Requested(all) - Nodes(next)| <= |Requested(all) - Nodes(expanded)|
            && (more != [] ==> |Requested(all) - Nodes(next)| < |Requested(all) - Nodes(expanded)|)
  {
    var next := Visit(expanded, request);
    forall node ensures (node in Nodes(next) <==> node in Nodes(expanded) || Requests(request, node))
                && (Requests(request, node) ==> node in Requested(all)) {
      NodesContents(next, node);
      NodesContents(expanded, node);
      VisitContents(expanded, request, node);
      RequestedContents(all, node);
    }
    var before, after := Requested(all) - Nodes(expanded), Requested(all) - Nodes(next);
    assert after <= before;
    FewerNodes(after, before);
    if more != [] {
      var edge := more[0];
      assert Adds(record, expanded, request, edge);
      var node := Node(request.name, None);
      if !(record.name !in expanded) {
        var extra :| extra in request.extras && !In(expanded, Node(record.name, Some(extra))) && edge in ExtraEdges(record, extra);
        node := Node(request.name, Some(extra));
      }
      NodesContents(expanded, node);
      assert node in before && node !in after;
    }
  }

  lemma {:induction false} FewerNodes(a: set<Node>, b: set<Node>)
    requires a <= b
    ensures |a| <= |b| && (a != b ==> |a| < |b|)
  {
    if a != {} {
      var x :| x in a;
      FewerNodes(a - {x}, b - {x});
      if a != b { assert a - {x} != b - {x} by { var y :| y in b && y !in a; assert y in b - {x} && y !in a - {x}; } }
    }
  }

  // ---- The methods -----------------------------------------------------------

  ghost predicate Brings(record: Record, extras: set<string>, edge: Edge) {
    exists extra :: extra in extras && edge in ExtraEdges(record, extra)
  }

  lemma BringsMore(record: Record, extras: set<string>, extra: string, edge: Edge)
    ensures Brings(record, extras + {extra}, edge) <==> Brings(record, extras, edge) || edge in ExtraEdges(record, extra)
  {
  }

  lemma AddsIsBrings(record: Record, expanded: Expanded, request: Edge, edge: Edge)
    ensures var visited := if record.name in expanded then expanded[record.name] else {};
            Adds(record, expanded, request, edge) <==>
            (record.name !in expanded && edge in record.dependencies) || Brings(record, (set x | x in request.extras) - visited, edge)
  {
  }

  /** The edges of one record that a request adds; new extras come in any order. */
  method CollectEdges(record: Record, expanded: Expanded, request: Edge) returns (edges: seq<Edge>)
    requires record.name == request.name
    ensures forall edge :: edge in edges <==> Adds(record, expanded, request, edge)
  {
    hide Adds, Brings, ExtraEdges;
    edges := if record.name in expanded then [] else record.dependencies;
    var visited := if record.name in expanded then expanded[record.name] else {};
    var added := (set x | x in request.extras) - visited;
    ghost var own, done := edges, {};
    BringsNothing(record);
    var todo := added;
    while todo != {}
      invariant added == done + todo
      invariant forall edge :: edge in edges <==> edge in own || Brings(record, done, edge)
      decreases |todo|
    {
      var extra :| extra in todo;
      forall edge ensures edge in edges + ExtraEdges(record, extra) <==> edge in own || Brings(record, done + {extra}, edge) {
        BringsMore(record, done, extra, edge);
      }
      edges := edges + ExtraEdges(record, extra);
      todo, done := todo - {extra}, done + {extra};
    }
    assert done == added;
    forall edge ensures edge in edges <==> Adds(record, expanded, request, edge) {
      AddsIsBrings(record, expanded, request, edge);
    }
  }

  lemma BringsNothing(record: Record)
    ensures forall edge :: !Brings(record, {}, edge)
  {
  }

  /** The paths of a list that were chosen, in the list's order. */
  function Chosen(paths: seq<string>, chosen: set<string>): seq<string> {
    if paths == [] then []
    else (if paths[0] in chosen then [paths[0]] else []) + Chosen(paths[1..], chosen)
  }

  /** The path of a reachable workspace package. */
  ghost predicate Needs(lock: Lock, package: string, path: string) { NeedsFrom(lock, [Edge(package, [])], path) }

  ghost predicate NeedsFrom(lock: Lock, start: seq<Edge>, path: string) {
    exists name :: Reached(Workspace(lock), start, Node(name, None))
                   && LastEditable(lock, name).Some? && LastEditable(lock, name).value.editable == Some(path)
  }

  /** The paths selected so far are those of the visited packages. */
  ghost predicate Selects(projects: map<string, Record>, expanded: Expanded, selected: set<string>) {
    && (forall name | name in expanded :: name in projects && projects[name].editable.Some?
                                          && projects[name].editable.value in PROJECT_PATHS)
    && forall path :: path in selected <==> exists name :: name in expanded && name in projects && projects[name].editable == Some(path)
  }

  /** The state of the search between two steps. */
  ghost predicate Walking(lock: Lock, package: string, projects: map<string, Record>, all: set<Edge>,
                          expanded: Expanded, pending: seq<Edge>, selected: set<string>) {
    && IsProjects(projects, lock) && AllEdges(Workspace(lock)) <= all
    && Elements(pending) <= all && Nodes(expanded) <= Requested(all)
    && Expanding(Workspace(lock), [Edge(package, [])], expanded, pending)
    && Selects(projects, expanded, selected)
  }

  lemma WalkStarts(lock: Lock, package: string, projects: map<string, Record>)
    requires IsProjects(projects, lock)
    ensures var start := [Edge(package, [])];
            Walking(lock, package, projects, AllEdges(Workspace(lock)) + Elements(start), map[], start, {})
    ensures package in projects <==> LastEditable(lock, package).Some?
  {
    ExpandingStarts(Workspace(lock), [Edge(package, [])]);
    assert Nodes(map[]) == {};
  }

  lemma ProjectOf(lock: Lock, projects: map<string, Record>, name: string)
    requires IsProjects(projects, lock)
    ensures Matches(Workspace(lock), name) == if name in projects then [projects[name]] else []
    ensures name in projects ==> projects[name].name == name && projects[name].editable.Some?
  {
    WorkspaceMatches(lock, name);
    assert LastEditable(lock, name) == if name in projects then Some(projects[name]) else None;
  }

  lemma WalkSkips(lock: Lock, package: string, projects: map<string, Record>, all: set<Edge>, expanded: Expanded,
                  rest: seq<Edge>, request: Edge, selected: set<string>)
    requires Walking(lock, package, projects, all, expanded, rest + [request], selected) && request.name !in projects
    ensures Walking(lock, package, projects, all, expanded, rest, selected)
  {
    ProjectOf(lock, projects, request.name);
    ElementsOfConcat(rest, [request]);
    ForeignSkipped(Workspace(lock), [Edge(package, [])], expanded, rest, request);
  }

  lemma WalkVisits(lock: Lock, package: string, projects: map<string, Record>, all: set<Edge>, expanded: Expanded,
                   rest: seq<Edge>, request: Edge, selected: set<string>, edges: seq<Edge>)
    requires Walking(lock, package, projects, all, expanded, rest + [request], selected) && request.name in projects
    requires projects[request.name].editable.Some? && projects[request.name].editable.value in PROJECT_PATHS
    requires forall edge :: edge in edges <==> Adds(projects[request.name], expanded, request, edge)
    ensures var next := Visit(expanded, request);
            && Walking(lock, package, projects, all, next, rest + edges, selected + {projects[request.name].editable.value})
            && |Requested(all) - Nodes(next)| <= |Requested(all) - Nodes(expanded)|
            && (edges != [] ==> |Requested(all) - Nodes(next)| < |Requested(all) - Nodes(expanded)|)
  {
    hide Requested, Nodes, Visit, Adds, Matches, Expanding, Selects, PROJECT_PATHS;
    var ws, record := Workspace(lock), projects[request.name];
    ProjectOf(lock, projects, request.name);
    ElementsOfConcat(rest, [request]);
    ElementsOfConcat(rest, edges);
    ExpandsOn(ws, [Edge(package, [])], expanded, rest, request, record, edges);
    VisitProgresses(all, expanded, request, record, edges);
    AddedIsListed(ws, expanded, request, record, edges);
    SelectsMore(projects, expanded, selected, request);
  }

  /** How the search can fail, and what it gives otherwise. */
  ghost predicate Unbuildable(lock: Lock, package: string) {
    LastEditable(lock, package).None? || exists path :: Needs(lock, package, path) && path !in PROJECT_PATHS
  }

  ghost predicate IsNeeded(lock: Lock, package: string, chosen: set<string>) {
    forall path :: path in chosen <==> Needs(lock, package, path)
  }

  lemma WalkFails(lock: Lock, package: string, projects: map<string, Record>, all: set<Edge>, expanded: Expanded,
                  rest: seq<Edge>, request: Edge, selected: set<string>)
    requires Walking(lock, package, projects, all, expanded, rest + [request], selected) && request.name in projects
    requires projects[request.name].editable.Some? && projects[request.name].editable.value !in PROJECT_PATHS
    ensures Unbuildable(lock, package)
  {
    hide PROJECT_PATHS;
    UnsupportedIsNeeded(lock, package, projects, rest, request, expanded);
  }

  lemma WalkEnds(lock: Lock, package: string, projects: map<string, Record>, all: set<Edge>, expanded: Expanded, selected: set<string>)
    requires Walking(lock, package, projects, all, expanded, [], selected) && package in projects
    ensures IsNeeded(lock, package, selected) && !Unbuildable(lock, package)
  {
    hide PROJECT_PATHS;
    SelectedIsNeeded(lock, package, projects, expanded, selected);
    assert LastEditable(lock, package) == Some(projects[package]);
  }

  lemma UnknownIsUnbuildable(lock: Lock, package: string)
    requires LastEditable(lock, package).None?
    ensures Unbuildable(lock, package)
  {
  }

  /**
   The search ends. It fails exactly for an unknown package or when a reachable workspace
   package has no supported path, and otherwise gives the needed paths in build order.
   */
  method ProjectPathsFor(lock: Lock, package: string) returns (result: Option<seq<string>>)
    ensures result.None? <==> Unbuildable(lock, package)
    ensures result.Some? ==> exists chosen :: IsNeeded(lock, package, chosen) && result.value == Chosen(PROJECT_PATHS, chosen)
  {
    hide *;
    var projects := Projects(lock);
    WalkStarts(lock, package, projects);
    if package !in projects {
      UnknownIsUnbuildable(lock, package);
      return None;
    }
    ghost var all := AllEdges(Workspace(lock)) + Elements([Edge(package, [])]);
    var selected: set<string> := {};
    var expanded: Expanded := map[];
    var pending := [Edge(package, [])];
    while pending != []
      invariant Walking(lock, package, projects, all, expanded, pending, selected) && IsProjects(projects, lock)
      decreases |Requested(all) - Nodes(expanded)|, |pending|
    {
      var request, rest := pending[|pending| - 1], pending[..|pending| - 1];
      assert pending == rest + [request];
      ProjectOf(lock, projects, request.name);
      if request.name !in projects {
        WalkSkips(lock, package, projects, all, expanded, rest, request, selected);
        pending := rest;
        continue;
      }
      var record := projects[request.name];
      var path := record.editable.value;
      if path !in PROJECT_PATHS {
        WalkFails(lock, package, projects, all, expanded, rest, request, selected);
        return None;
      }
      var edges := CollectEdges(record, expanded, request);
      WalkVisits(lock, package, projects, all, expanded, rest, request, selected, edges);
      expanded := Visit(expanded, request);
      selected := selected + {path};
      pending := rest + edges;
    }
    WalkEnds(lock, package, projects, all, expanded, selected);
    result := Some(Chosen(PROJECT_PATHS, selected));
  }

  lemma ExpandingStarts(lock: Lock, start: seq<Edge>)
    ensures Expanding(lock, start, map[], start)
  {
    forall e, node | e in start && Requests(e, node) ensures Reached(lock, start, node) {
      StartIsReached(lock, start, node);
    }
  }

  lemma AddedIsListed(ws: Lock, expanded: Expanded, request: Edge, record: Record, edges: seq<Edge>)
    requires Matches(ws, request.name) == [record]
    requires forall edge :: edge in edges <==> Adds(record, expanded, request, edge)
    ensures Elements(edges) <= AllEdges(ws)
  {
    MatchesContents(ws, request.name);
    assert record in Matches(ws, request.name);
    EdgesAreListed(ws, record);
    forall edge | edge in edges ensures edge in EdgesOf(record) {
      assert Adds(record, expanded, request, edge);
    }
  }

  lemma SelectsMore(projects: map<string, Record>, expanded: Expanded, selected: set<string>, request: Edge)
    requires Selects(projects, expanded, selected) && request.name in projects
    requires projects[request.name].editable.Some? && projects[request.name].editable.value in PROJECT_PATHS
    ensures Selects(projects, Visit(expanded, request), selected + {projects[request.name].editable.value})
  {
    hide PROJECT_PATHS;
    var next := Visit(expanded, request);
    assert forall name :: name in next <==> name in expanded || name == request.name;
  }

  lemma UnsupportedIsNeeded(lock: Lock, package: string, projects: map<string, Record>, rest: seq<Edge>, request: Edge, expanded: Expanded)
    requires IsProjects(projects, lock) && request.name in projects && projects[request.name].editable.Some?
    requires Expanding(Workspace(lock), [Edge(package, [])], expanded, rest + [request])
    ensures Needs(lock, package, projects[request.name].editable.value)
  {
    assert request in rest + [request];
    assert Requests(request, Node(request.name, None));
    assert LastEditable(lock, request.name) == Some(projects[request.name]);
  }

  lemma SelectedIsNeeded(lock: Lock, package: string, projects: map<string, Record>, expanded: Expanded, selected: set<string>)
    requires IsProjects(projects, lock) && Selects(projects, expanded, selected)
    requires Expanding(Workspace(lock), [Edge(package, [])], expanded, [])
    ensures forall path :: path in selected <==> Needs(lock, package, path)
    ensures forall path | path in selected :: path in PROJECT_PATHS
  {
    hide PROJECT_PATHS;
    var ws, start := Workspace(lock), [Edge(package, [])];
    forall name ensures name in expanded <==> Reached(ws, start, Node(name, None)) && LastEditable(lock, name).Some? {
      ExpandedIsReached(ws, start, expanded, Node(name, None));
      WorkspaceMatches(lock, name);
    }
    forall name ensures LastEditable(lock, name) == if name in projects then Some(projects[name]) else None {
    }
  }

  // ---- When both closures agree ----------------------------------------------

  /** The workspace paths of a scope. */
  ghost predicate SourcePath(scope: map<string, seq<Record>>, path: string) {
    exists name, record :: name in scope && record in scope[name] && record.editable == Some(path)
  }

  /** The reference closure follows the edge and the incremental one does not, because another record of the package counts or none. */
  ghost predicate Skipped(lock: Lock, start: seq<Edge>, edge: Edge) {
    exists a :: Reached(lock, start, a) && HasEdge(lock, a, edge) && !HasEdge(Workspace(lock), a, edge)
  }

  /** Everything the incremental closure would find behind a skipped edge is needed anyway. */
  ghost predicate SkipsNothingNew(lock: Lock, package: string) {
    forall edge, path | Skipped(lock, [Edge(package, [])], edge) && NeedsFrom(lock, [edge], path) :: Needs(lock, package, path)
  }

  /** The path of a workspace record that a later record of its name overrides. */
  ghost predicate Overridden(lock: Lock, start: seq<Edge>, path: string) {
    exists name, record ::
      && Reached(lock, start, Node(name, None)) && record in Matches(lock, name)
      && record.editable == Some(path) && LastEditable(lock, name) != Some(record)
  }

  ghost predicate OverridesNothingNew(lock: Lock, package: string) {
    forall path | Overridden(lock, [Edge(package, [])], path) :: Needs(lock, package, path)
  }

  lemma WorkspaceEdge(lock: Lock, a: Node, edge: Edge)
    requires HasEdge(Workspace(lock), a, edge)
    ensures HasEdge(lock, a, edge)
  {
    WorkspaceMatches(lock, a.name);
    MatchesContents(lock, a.name);
    var record :| record in Matches(Workspace(lock), a.name) && Contributes(record, a.extra, edge);
    assert record in Matches(lock, a.name);
  }

  lemma WorkspaceStep(lock: Lock, a: Node, b: Node)
    requires Step(Workspace(lock), a, b)
    ensures Step(lock, a, b)
  {
    var edge :| HasEdge(Workspace(lock), a, edge) && Requests(edge, b);
    WorkspaceEdge(lock, a, edge);
  }

  /** Whatever the workspace part reaches from somewhere reached, the whole lockfile reaches. */
  lemma {:induction false} WorkspacePathBack(lock: Lock, start: seq<Edge>, from: seq<Edge>, path: seq<Node>)
    requires forall node | Starts(from, node) :: Reached(lock, start, node)
    requires IsPath(Workspace(lock), from, path)
    ensures Reached(lock, start, path[|path| - 1])
    decreases |path|
  {
    if |path| > 1 {
      PathShrinks(Workspace(lock), from, path);
      hide Step, Reached;
      var shorter, a, b := path[..|path| - 1], path[|path| - 2], path[|path| - 1];
      WorkspacePathBack(lock, start, from, shorter);
      WorkspaceStep(lock, a, b);
      StepIsReached(lock, start, a, b);
    }
  }

  lemma WorkspaceReachesLess(lock: Lock, start: seq<Edge>, from: seq<Edge>, node: Node)
    requires forall other | Starts(from, other) :: Reached(lock, start, other)
    requires Reached(Workspace(lock), from, node)
    ensures Reached(lock, start, node)
  {
    var path :| IsPath(Workspace(lock), from, path) && path[|path| - 1] == node;
    WorkspacePathBack(lock, start, from, path);
  }

  lemma StartsAreReached(lock: Lock, start: seq<Edge>)
    ensures forall node | Starts(start, node) :: Reached(lock, start, node)
  {
    hide Reached;
    forall node | Starts(start, node) ensures Reached(lock, start, node) { StartIsReached(lock, start, node); }
  }

  /** What a skipped edge asks for is reached. */
  lemma SkippedIsReached(lock: Lock, start: seq<Edge>, edge: Edge)
    requires Skipped(lock, start, edge)
    ensures forall node | Starts([edge], node) :: Reached(lock, start, node)
  {
    hide Reached;
    var a :| Reached(lock, start, a) && HasEdge(lock, a, edge) && !HasEdge(Workspace(lock), a, edge);
    forall node | Starts([edge], node) ensures Reached(lock, start, node) {
      assert Requests(edge, node);
      StepIsReached(lock, start, a, node);
    }
  }

  /** Every reached node is reached within the workspace part, from the package or from a skipped edge. */
  ghost predicate Found(lock: Lock, start: seq<Edge>, node: Node) {
    Reached(Workspace(lock), start, node) || exists edge :: Skipped(lock, start, edge) && Reached(Workspace(lock), [edge], node)
  }

  lemma FoundStep(lock: Lock, start: seq<Edge>, a: Node, b: Node)
    requires Reached(lock, start, a) && Step(lock, a, b) && Found(lock, start, a)
    ensures Found(lock, start, b)
  {
    hide Reached;
    var ws := Workspace(lock);
    var edge :| HasEdge(lock, a, edge) && Requests(edge, b);
    if HasEdge(ws, a, edge) {
      assert Step(ws, a, b);
      if Reached(ws, start, a) {
        StepIsReached(ws, start, a, b);
      } else {
        var other :| Skipped(lock, start, other) && Reached(ws, [other], a);
        StepIsReached(ws, [other], a, b);
      }
    } else {
      assert Skipped(lock, start, edge);
      assert edge in [edge] && Starts([edge], b);
      StartIsReached(ws, [edge], b);
    }
  }

  lemma {:induction false} EveryPathIsFound(lock: Lock, start: seq<Edge>, path: seq<Node>)
    requires IsPath(lock, start, path)
    ensures Found(lock, start, path[|path| - 1])
    decreases |path|
  {
    hide Step, Reached, Found;
    if |path| > 1 {
      PathShrinks(lock, start, path);
      EveryPathIsFound(lock, start, path[..|path| - 1]);
      FoundStep(lock, start, path[|path| - 2], path[|path| - 1]);
    } else {
      StartIsReached(Workspace(lock), start, path[0]);
      ReachedIsFound(lock, start, path[0]);
    }
  }

  lemma ReachedIsFound(lock: Lock, start: seq<Edge>, node: Node)
    requires Reached(Workspace(lock), start, node)
    ensures Found(lock, start, node)
  {
  }

  /** A reached workspace record gives its path to the scope. */
  lemma RecordIsSource(lock: Lock, start: seq<Edge>, scope: map<string, seq<Record>>, name: string, record: Record)
    requires IsScope(scope, lock, start) && Reached(lock, start, Node(name, None))
    requires record in Matches(lock, name) && record.editable.Some?
    ensures SourcePath(scope, record.editable.value)
  {
    hide Reached;
    assert ScopedAt(scope, lock, start, name);
    assert record in scope[name];
  }

  lemma LastIsSource(lock: Lock, start: seq<Edge>, scope: map<string, seq<Record>>, name: string)
    requires IsScope(scope, lock, start) && Reached(lock, start, Node(name, None)) && LastEditable(lock, name).Some?
    ensures LastEditable(lock, name).value.editable.Some?
    ensures SourcePath(scope, LastEditable(lock, name).value.editable.value)
  {
    hide Reached;
    WorkspaceMatches(lock, name);
    MatchesContents(lock, name);
    RecordIsSource(lock, start, scope, name, LastEditable(lock, name).value);
  }

  /** The incremental closure never finds more than the reference one. */
  lemma NeededIsSource(lock: Lock, package: string, scope: map<string, seq<Record>>, path: string)
    requires IsScope(scope, lock, [Edge(package, [])]) && Needs(lock, package, path)
    ensures SourcePath(scope, path)
  {
    var start := [Edge(package, [])];
    hide Reached;
    var name :| Reached(Workspace(lock), start, Node(name, None))
                && LastEditable(lock, name).Some? && LastEditable(lock, name).value.editable == Some(path);
    StartsAreReached(lock, start);
    WorkspaceReachesLess(lock, start, start, Node(name, None));
    LastIsSource(lock, start, scope, name);
  }

  lemma SourceIsNeeded(lock: Lock, package: string, scope: map<string, seq<Record>>, path: string)
    requires IsScope(scope, lock, [Edge(package, [])]) && SourcePath(scope, path)
    requires SkipsNothingNew(lock, package) && OverridesNothingNew(lock, package)
    ensures Needs(lock, package, path)
  {
    var start := [Edge(package, [])];
    var name, record :| name in scope && record in scope[name] && record.editable == Some(path);
    assert ScopedAt(scope, lock, start, name);
    if LastEditable(lock, name) == Some(record) {
      var p :| IsPath(lock, start, p) && p[|p| - 1] == Node(name, None);
      EveryPathIsFound(lock, start, p);
    } else {
      assert Overridden(lock, start, path);
    }
    hide Reached, Skipped, Overridden;
  }

  lemma AgreementSkipsNothing(lock: Lock, package: string, scope: map<string, seq<Record>>)
    requires IsScope(scope, lock, [Edge(package, [])])
    requires forall path :: SourcePath(scope, path) ==> Needs(lock, package, path)
    ensures SkipsNothingNew(lock, package) && OverridesNothingNew(lock, package)
  {
    var start := [Edge(package, [])];
    hide Reached, Needs, SourcePath;
    forall edge, path | Skipped(lock, start, edge) && NeedsFrom(lock, [edge], path) ensures Needs(lock, package, path) {
      var name :| Reached(Workspace(lock), [edge], Node(name, None))
                  && LastEditable(lock, name).Some? && LastEditable(lock, name).value.editable == Some(path);
      SkippedIsReached(lock, start, edge);
      WorkspaceReachesLess(lock, start, [edge], Node(name, None));
      LastIsSource(lock, start, scope, name);
    }
    forall path | Overridden(lock, start, path) ensures Needs(lock, package, path) {
      var name, record :| Reached(lock, start, Node(name, None)) && record in Matches(lock, name)
                          && record.editable == Some(path) && LastEditable(lock, name) != Some(record);
      RecordIsSource(lock, start, scope, name, record);
    }
  }

  /**
   The selected paths are always among those of the reference closure. They are all of them exactly when nothing new lies
   behind an edge that only the reference closure follows, and no overridden record has a path of its own.
   */
  lemma BothClosuresAgree(lock: Lock, package: string, scope: map<string, seq<Record>>)
    requires IsScope(scope, lock, StartEdges(lock, [package], []))
    ensures forall path | Needs(lock, package, path) :: SourcePath(scope, path)
    ensures (forall path :: SourcePath(scope, path) <==> Needs(lock, package, path)) <==>
            SkipsNothingNew(lock, package) && OverridesNothingNew(lock, package)
  {
    StartWithOneRoot(lock, package);
    hide SourcePath, Needs, SkipsNothingNew, OverridesNothingNew, IsScope;
    forall path | Needs(lock, package, path) ensures SourcePath(scope, path) { NeededIsSource(lock, package, scope, path); }
    if SkipsNothingNew(lock, package) && OverridesNothingNew(lock, package) {
      forall path | SourcePath(scope, path) ensures Needs(lock, package, path) { SourceIsNeeded(lock, package, scope, path); }
    }
    if forall path :: SourcePath(scope, path) <==> Needs(lock, package, path) {
      AgreementSkipsNothing(lock, package, scope);
    }
  }

  // ---- Closed workspaces -----------------------------------------------------

  /** Names of workspace packages belong to one record, and reachable other packages lead to none of them. */
  ghost predicate WorkspaceIsClosed(lock: Lock, start: seq<Edge>) {
    && (forall name | LastEditable(lock, name).Some? :: |Matches(lock, name)| == 1)
    && (forall a, b | Reached(lock, start, a) && Step(lock, a, b) && LastEditable(lock, b.name).Some? :: LastEditable(lock, a.name).Some?)
  }

  lemma SameRecord(lock: Lock, name: string)
    requires LastEditable(lock, name).Some? && |Matches(lock, name)| == 1
    ensures Matches(lock, name) == Matches(Workspace(lock), name)
  {
    WorkspaceMatches(lock, name);
    MatchesContents(lock, name);
    assert LastEditable(lock, name).value in Matches(lock, name);
  }

  lemma {:induction false} EditableIsFound(lock: Lock, record: Record)
    requires record in lock && record.editable.Some?
    ensures LastEditable(lock, record.name).Some?
  {
    if record in lock[1..] {
      EditableIsFound(lock[1..], record);
    } else {
      assert record == lock[0];
    }
  }

  lemma ClosedOverridesNothing(lock: Lock, start: seq<Edge>, path: string)
    requires WorkspaceIsClosed(lock, start)
    ensures !Overridden(lock, start, path)
  {
    hide Reached;
    forall name, record | record in Matches(lock, name) && record.editable == Some(path) ensures LastEditable(lock, name) == Some(record) {
      MatchesContents(lock, name);
      EditableIsFound(lock, record);
      SameRecord(lock, name);
      WorkspaceMatches(lock, name);
    }
  }

  /** A package outside the workspace leads nowhere within it. */
  lemma {:induction false} NothingBehind(lock: Lock, edge: Edge, path: seq<Node>)
    requires LastEditable(lock, edge.name).None? && IsPath(Workspace(lock), [edge], path)
    ensures path[|path| - 1].name == edge.name
    decreases |path|
  {
    if |path| > 1 {
      PathShrinks(Workspace(lock), [edge], path);
      NothingBehind(lock, edge, path[..|path| - 1]);
      StepNeedsRecord(Workspace(lock), path[|path| - 2], path[|path| - 1]);
      WorkspaceMatches(lock, edge.name);
    }
  }

  lemma ClosedSkipsNothing(lock: Lock, start: seq<Edge>, edge: Edge, name: string)
    requires WorkspaceIsClosed(lock, start) && Skipped(lock, start, edge)
    requires Reached(Workspace(lock), [edge], Node(name, None))
    ensures LastEditable(lock, name).None?
  {
    var a :| Reached(lock, start, a) && HasEdge(lock, a, edge) && !HasEdge(Workspace(lock), a, edge);
    assert LastEditable(lock, a.name).None? by {
      if LastEditable(lock, a.name).Some? { SameRecord(lock, a.name); }
    }
    var b := Node(edge.name, None);
    assert Requests(edge, b) && Step(lock, a, b);
    var path :| IsPath(Workspace(lock), [edge], path) && path[|path| - 1] == Node(name, None);
    NothingBehind(lock, edge, path);
  }

  lemma NothingBehindSkipped(lock: Lock, start: seq<Edge>, edge: Edge, path: string)
    requires WorkspaceIsClosed(lock, start) && Skipped(lock, start, edge)
    ensures !NeedsFrom(lock, [edge], path)
  {
    hide Reached, WorkspaceIsClosed, Skipped;
    forall name | Reached(Workspace(lock), [edge], Node(name, None)) ensures LastEditable(lock, name).None? {
      ClosedSkipsNothing(lock, start, edge, name);
    }
  }

  /** In particular both closures agree on closed workspaces. */
  lemma ClosedWorkspacesAgree(lock: Lock, package: string, scope: map<string, seq<Record>>, path: string)
    requires IsScope(scope, lock, StartEdges(lock, [package], []))
    requires WorkspaceIsClosed(lock, [Edge(package, [])])
    ensures SourcePath(scope, path) <==> Needs(lock, package, path)
  {
    var start := [Edge(package, [])];
    hide SourcePath, Needs, NeedsFrom, Reached, WorkspaceIsClosed, Skipped, Overridden;
    forall other ensures !Overridden(lock, start, other) { ClosedOverridesNothing(lock, start, other); }
    forall edge, other | Skipped(lock, start, edge) ensures !NeedsFrom(lock, [edge], other) {
      NothingBehindSkipped(lock, start, edge, other);
    }
    BothClosuresAgree(lock, package, scope);
  }

  lemma StartWithOneRoot(lock: Lock, package: string)
    ensures StartEdges(lock, [package], []) == [Edge(package, [])]
  {
    NoGroupsNoEdges(lock);
    assert [package][1..] == [];
    assert RootEdges([package]) == [Edge(package, [])] + [];
  }

  // ---- Where they differ -----------------------------------------------------

  /** A workspace package needs a registry package, which needs another workspace package. */
  const DETOUR: Lock := [
    Record("tinkerfin-desktop", Some("apps/desktop"), [Edge("wrapper", [])], map[], map[], "version = 1"),
    Record("wrapper", None, [Edge("tinkerfin", [])], map[], map[], "version = 2"),
    Record("tinkerfin", Some("packages/tinkerfin"), [], map[], map[], "version = 3")
  ]

  lemma DetourRecords()
    ensures Matches(DETOUR, "tinkerfin-desktop") == [DETOUR[0]]
    ensures Matches(DETOUR, "wrapper") == [DETOUR[1]]
    ensures Matches(DETOUR, "tinkerfin") == [DETOUR[2]]
  {
    assert DETOUR[1..] == [DETOUR[1], DETOUR[2]] && DETOUR[1..][1..] == [DETOUR[2]] && [DETOUR[2]][1..] == [];
  }

  lemma DetourSteps()
    ensures Step(DETOUR, Node("tinkerfin-desktop", None), Node("wrapper", None))
    ensures Step(DETOUR, Node("wrapper", None), Node("tinkerfin", None))
  {
    DetourRecords();
    var first, second := Edge("wrapper", []), Edge("tinkerfin", []);
    assert DETOUR[0] in [DETOUR[0]] && first in DETOUR[0].dependencies;
    assert HasEdge(DETOUR, Node("tinkerfin-desktop", None), first) && Requests(first, Node("wrapper", None));
    assert DETOUR[1] in [DETOUR[1]] && second in DETOUR[1].dependencies;
    assert HasEdge(DETOUR, Node("wrapper", None), second) && Requests(second, Node("tinkerfin", None));
  }

  lemma DetourIsFollowed()
    ensures Reached(DETOUR, [Edge("tinkerfin-desktop", [])], Node("tinkerfin", None))
  {
    var start := [Edge("tinkerfin-desktop", [])];
    assert start[0] in start && Requests(start[0], Node("tinkerfin-desktop", None));
    DetourSteps();
    hide Step, Reached;
    StartIsReached(DETOUR, start, Node("tinkerfin-desktop", None));
    StepIsReached(DETOUR, start, Node("tinkerfin-desktop", None), Node("wrapper", None));
    StepIsReached(DETOUR, start, Node("wrapper", None), Node("tinkerfin", None));
  }

  /** The incremental closure stops at the registry package. */
  lemma DetourIsSkipped(node: Node)
    requires Reached(Workspace(DETOUR), [Edge("tinkerfin-desktop", [])], node)
    ensures node.name != "tinkerfin"
  {
    var ws, start := Workspace(DETOUR), [Edge("tinkerfin-desktop", [])];
    var nodes := iset n: Node | n.name == "tinkerfin-desktop" || n.name == "wrapper";
    forall a, b | a in nodes && Step(ws, a, b) ensures b in nodes {
      var edge :| HasEdge(ws, a, edge) && Requests(edge, b);
      DetourEdges(a, edge);
    }
    var path :| IsPath(ws, start, path) && path[|path| - 1] == node;
    ReachedIsLeast(ws, start, nodes, path);
  }

  lemma DetourEdges(a: Node, edge: Edge)
    requires a.name == "tinkerfin-desktop" || a.name == "wrapper"
    requires HasEdge(Workspace(DETOUR), a, edge)
    ensures edge.name == "wrapper"
  {
    WorkspaceMatches(DETOUR, a.name);
    DetourRecords();
    MatchesContents(DETOUR, a.name);
    var record :| record in Matches(Workspace(DETOUR), a.name) && Contributes(record, a.extra, edge);
    assert record in Matches(DETOUR, a.name);
  }

  lemma OnlyOneHasThePath(name: string)
    requires name != "tinkerfin" && LastEditable(DETOUR, name).Some?
    ensures LastEditable(DETOUR, name).value.editable != Some("packages/tinkerfin")
  {
    hide Workspace, LastEditable;
    WorkspaceMatches(DETOUR, name);
  }

  lemma DetourIsNotNeeded()
    ensures !Needs(DETOUR, "tinkerfin-desktop", "packages/tinkerfin")
  {
    hide Reached, Workspace, LastEditable;
    var start := [Edge("tinkerfin-desktop", [])];
    forall name | Reached(Workspace(DETOUR), start, Node(name, None)) && LastEditable(DETOUR, name).Some?
      ensures LastEditable(DETOUR, name).value.editable != Some("packages/tinkerfin")
    {
      DetourIsSkipped(Node(name, None));
      OnlyOneHasThePath(name);
    }
  }

  /** A workspace package behind a registry package is in the scope, but not among the selected paths. */
  lemma ClosuresDifferBehindARegistryPackage(scope: map<string, seq<Record>>)
    requires IsScope(scope, DETOUR, StartEdges(DETOUR, ["tinkerfin-desktop"], []))
    ensures SourcePath(scope, "packages/tinkerfin") && !Needs(DETOUR, "tinkerfin-desktop", "packages/tinkerfin")
  {
    hide Reached, Needs, Workspace, LastEditable;
    StartWithOneRoot(DETOUR, "tinkerfin-desktop");
    DetourIsFollowed();
    DetourIsNotNeeded();
    DetourRecords();
    assert ScopedAt(scope, DETOUR, [Edge("tinkerfin-desktop", [])], "tinkerfin");
    assert DETOUR[2] in scope["tinkerfin"];
  }
}
