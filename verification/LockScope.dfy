/**
 The reference closure: the records of everything reachable from some roots.

 Its work list holds packages with the whole tuple of extras that was asked for.
 */
module LockScope {
  import opened LockGraph
  import opened Options

  const HARNESS: string := "tinkerfin-harness"

  function RootEdges(roots: seq<string>): seq<Edge> {
    if roots == [] then [] else [Edge(roots[0], [])] + RootEdges(roots[1..])
  }

  function GroupsOf(record: Record, groups: seq<string>): seq<Edge> {
    if groups == [] then []
    else (if groups[0] in record.dev then record.dev[groups[0]] else []) + GroupsOf(record, groups[1..])
  }

  function GroupEdges(lock: Lock, groups: seq<string>): seq<Edge> {
    if lock == [] then []
    else (if lock[0].name == HARNESS then GroupsOf(lock[0], groups) else []) + GroupEdges(lock[1..], groups)
  }

  /** What is asked for at the beginning: the roots, and the tooling groups of the harness. */
  function StartEdges(lock: Lock, roots: seq<string>, groups: seq<string>): seq<Edge> {
    RootEdges(roots) + GroupEdges(lock, groups)
  }

  /** All records of exactly the reachable packages. */
  ghost predicate IsScope(selected: map<string, seq<Record>>, lock: Lock, start: seq<Edge>) {
    forall name :: ScopedAt(selected, lock, start, name)
  }

  ghost predicate ScopedAt(selected: map<string, seq<Record>>, lock: Lock, start: seq<Edge>, name: string) {
    && (name in selected <==> Reached(lock, start, Node(name, None)) && Matches(lock, name) != [])
    && (name in selected ==> selected[name] == Matches(lock, name))
  }

  // ---- A finite supply of edges ----------------------------------------------

  function Elements(edges: seq<Edge>): set<Edge> { set e | e in edges }

  function EdgesOf(record: Record): set<Edge> {
    Elements(record.dependencies) + set extra, e | extra in record.optional && e in record.optional[extra] :: e
  }

  function AllEdges(lock: Lock): set<Edge> {
    if lock == [] then {} else EdgesOf(lock[0]) + AllEdges(lock[1..])
  }

  lemma {:induction false} EdgesAreListed(lock: Lock, record: Record)
    requires record in lock
    ensures EdgesOf(record) <= AllEdges(lock)
  {
    if record != lock[0] {
      assert record in lock[1..];
      EdgesAreListed(lock[1..], record);
    }
  }

  // ---- Expanding one package -------------------------------------------------

  function ExtrasOf(record: Record, extras: seq<string>): seq<Edge>
    decreases |extras|
  {
    if extras == [] then [] else ExtraEdges(record, extras[0]) + ExtrasOf(record, extras[1..])
  }

  function Expansion(records: seq<Record>, extras: seq<string>): seq<Edge>
    decreases |records|
  {
    if records == [] then []
    else records[0].dependencies + ExtrasOf(records[0], extras) + Expansion(records[1..], extras)
  }

  lemma {:induction false} ExtrasContents(record: Record, extras: seq<string>, edge: Edge)
    ensures edge in ExtrasOf(record, extras) <==> exists extra :: extra in extras && edge in ExtraEdges(record, extra)
    decreases |extras|
  {
    if extras != [] {
      ExtrasContents(record, extras[1..], edge);
      assert extras == [extras[0]] + extras[1..];
    }
  }

  /** One record in the expansion of a request: the edges of all nodes the request asks for. */
  ghost predicate Asked(record: Record, extras: seq<string>, edge: Edge) {
    edge in record.dependencies || exists extra :: extra in extras && edge in ExtraEdges(record, extra)
  }

  lemma {:induction false} ExpansionContents(records: seq<Record>, extras: seq<string>, edge: Edge)
    ensures edge in Expansion(records, extras) <==> exists record :: record in records && Asked(record, extras, edge)
    decreases |records|
  {
    if records != [] {
      ExpansionContents(records[1..], extras, edge);
      ExtrasContents(records[0], extras, edge);
      assert records == [records[0]] + records[1..];
      assert edge in Expansion(records, extras) <==> Asked(records[0], extras, edge) || edge in Expansion(records[1..], extras);
      if Asked(records[0], extras, edge) { assert records[0] in records; }
      if r :| r in records[1..] && Asked(r, extras, edge) { assert r in records; }
    }
  }

  /** The expansion of a request holds exactly the edges of the nodes it asks for. */
  lemma ExpansionIsEdges(lock: Lock, request: Edge, edge: Edge)
    ensures edge in Expansion(Matches(lock, request.name), request.extras) <==>
            exists node :: Requests(request, node) && HasEdge(lock, node, edge)
  {
    ExpansionContents(Matches(lock, request.name), request.extras, edge);
    if record :| record in Matches(lock, request.name) && Asked(record, request.extras, edge) {
      if edge in record.dependencies {
        assert Contributes(record, None, edge);
        assert Requests(request, Node(request.name, None)) && HasEdge(lock, Node(request.name, None), edge);
      } else {
        var extra :| extra in request.extras && edge in ExtraEdges(record, extra);
        assert Contributes(record, Some(extra), edge);
        assert Requests(request, Node(request.name, Some(extra))) && HasEdge(lock, Node(request.name, Some(extra)), edge);
      }
    }
    if node :| Requests(request, node) && HasEdge(lock, node, edge) {
      var record :| record in Matches(lock, node.name) && Contributes(record, node.extra, edge);
      assert Asked(record, request.extras, edge);
    }
  }

  lemma ExpansionIsListed(lock: Lock, name: string, extras: seq<string>)
    ensures Elements(Expansion(Matches(lock, name), extras)) <= AllEdges(lock)
  {
    forall edge | edge in Expansion(Matches(lock, name), extras) ensures edge in AllEdges(lock) {
      ExpansionContents(Matches(lock, name), extras, edge);
      var record :| record in Matches(lock, name) && Asked(record, extras, edge);
      MatchesContents(lock, name);
      EdgesAreListed(lock, record);
      assert edge in EdgesOf(record);
    }
  }

  // ---- The work list ---------------------------------------------------------

  /** Everything the request asks for is reachable. */
  ghost predicate Sound(lock: Lock, start: seq<Edge>, request: Edge) {
    forall node | Requests(request, node) :: Reached(lock, start, node)
  }

  lemma ExpansionIsSound(lock: Lock, start: seq<Edge>, request: Edge)
    requires Sound(lock, start, request)
    ensures forall edge | edge in Expansion(Matches(lock, request.name), request.extras) :: Sound(lock, start, edge)
  {
    forall edge, b | edge in Expansion(Matches(lock, request.name), request.extras) && Requests(edge, b)
      ensures Reached(lock, start, b)
    {
      ExpansionIsEdges(lock, request, edge);
      var node :| Requests(request, node) && HasEdge(lock, node, edge);
      assert Step(lock, node, b);
      StepIsReached(lock, start, node, b);
    }
  }

  /** What a visited request leads to has been visited or waits. */
  ghost predicate Followed(lock: Lock, visited: set<Edge>, pending: seq<Edge>, request: Edge) {
    forall edge | edge in Expansion(Matches(lock, request.name), request.extras) :: edge in visited || edge in pending
  }

  ghost predicate SelectedAt(selected: map<string, seq<Record>>, lock: Lock, visited: set<Edge>, name: string) {
    && (name in selected <==> (exists e :: e in visited && e.name == name) && Matches(lock, name) != [])
    && (name in selected ==> selected[name] == Matches(lock, name))
  }

  lemma SelectMore(selected: map<string, seq<Record>>, lock: Lock, visited: set<Edge>, request: Edge)
    requires forall name :: SelectedAt(selected, lock, visited, name)
    ensures var found := Matches(lock, request.name);
            var next := if found == [] then selected else selected[request.name := found];
            forall name :: SelectedAt(next, lock, visited + {request}, name)
  {
    var found := Matches(lock, request.name);
    var next := if found == [] then selected else selected[request.name := found];
    forall name ensures SelectedAt(next, lock, visited + {request}, name) {
      assert SelectedAt(selected, lock, visited, name);
      if name == request.name { assert request in visited + {request}; }
      if e :| e in visited && e.name == name { assert e in visited + {request}; }
    }
  }

  ghost predicate AskedFor(visited: set<Edge>, node: Node) {
    exists e :: e in visited && Requests(e, node)
  }

  /** When nothing waits any more, the visited requests ask for everything reachable. */
  lemma AllVisited(lock: Lock, start: seq<Edge>, visited: set<Edge>, name: string)
    requires forall e | e in start :: e in visited
    requires forall e | e in visited :: Sound(lock, start, e) && Followed(lock, visited, [], e)
    ensures Reached(lock, start, Node(name, None)) <==> exists e :: e in visited && e.name == name
  {
    if e :| e in visited && e.name == name {
      assert Requests(e, Node(name, None));
    }
    var nodes := iset node | AskedFor(visited, node);
    assert Closed(lock, nodes) by {
      forall a, b | a in nodes && Step(lock, a, b) ensures b in nodes {
        var request :| request in visited && Requests(request, a);
        var edge :| HasEdge(lock, a, edge) && Requests(edge, b);
        ExpansionIsEdges(lock, request, edge);
        assert edge in visited;
      }
    }
    if Reached(lock, start, Node(name, None)) {
      var path :| IsPath(lock, start, path) && path[|path| - 1] == Node(name, None);
      ReachedIsLeast(lock, start, nodes, path);
    }
  }

  lemma Fewer(all: set<Edge>, visited: set<Edge>, e: Edge)
    requires e in all && e !in visited
    ensures |all - (visited + {e})| < |all - visited|
  {
    assert all - (visited + {e}) == (all - visited) - {e};
  }

  method Expand(records: seq<Record>, extras: seq<string>) returns (edges: seq<Edge>)
    ensures edges == Expansion(records, extras)
  {
    edges := [];
    for i := 0 to |records|
      invariant Expansion(records, extras) == edges + Expansion(records[i..], extras)
    {
      var record := records[i];
      assert records[i..][0] == record && records[i..][1..] == records[i + 1..];
      var found := record.dependencies;
      for j := 0 to |extras|
        invariant record.dependencies + ExtrasOf(record, extras) == found + ExtrasOf(record, extras[j..])
      {
        assert extras[j..][0] == extras[j] && extras[j..][1..] == extras[j + 1..];
        Regroup(found, ExtraEdges(record, extras[j]), ExtrasOf(record, extras[j + 1..]));
        found := found + ExtraEdges(record, extras[j]);
      }
      Regroup(edges, found, Expansion(records[i + 1..], extras));
      edges := edges + found;
    }
  }

  lemma Regroup(a: seq<Edge>, b: seq<Edge>, c: seq<Edge>)
    ensures (a + b) + c == a + (b + c)
  {
  }

  method StartWithRoots(roots: seq<string>) returns (pending: seq<Edge>)
    ensures pending == RootEdges(roots)
  {
    pending := [];
    for i := 0 to |roots|
      invariant RootEdges(roots) == pending + RootEdges(roots[i..])
    {
      assert roots[i..][0] == roots[i] && roots[i..][1..] == roots[i + 1..];
      Regroup(pending, [Edge(roots[i], [])], RootEdges(roots[i + 1..]));
      pending := pending + [Edge(roots[i], [])];
    }
    assert pending + [] == pending;
  }

  method StartWithGroups(lock: Lock, groups: seq<string>) returns (pending: seq<Edge>)
    ensures pending == GroupEdges(lock, groups)
  {
    pending := [];
    hide GroupsOf;
    for i := 0 to |lock|
      invariant GroupEdges(lock, groups) == pending + GroupEdges(lock[i..], groups)
    {
      assert lock[i..][0] == lock[i] && lock[i..][1..] == lock[i + 1..];
      if lock[i].name == HARNESS {
        var found := GroupsOf(lock[i], groups);
        Regroup(pending, found, GroupEdges(lock[i + 1..], groups));
        pending := pending + found;
      } else {
        assert [] + GroupEdges(lock[i + 1..], groups) == GroupEdges(lock[i + 1..], groups);
      }
    }
    assert pending + [] == pending;
  }

  /** The state of the search between two steps. */
  ghost predicate Working(lock: Lock, start: seq<Edge>, visited: set<Edge>, pending: seq<Edge>) {
    && (forall e | e in pending :: Sound(lock, start, e))
    && (forall e | e in start :: e in visited || e in pending)
    && (forall e | e in visited :: Sound(lock, start, e) && Followed(lock, visited, pending, e))
  }

  lemma WorkStarts(lock: Lock, start: seq<Edge>)
    ensures Working(lock, start, {}, start)
  {
    forall e, node | e in start && Requests(e, node) ensures Reached(lock, start, node) {
      StartIsReached(lock, start, node);
    }
  }

  lemma WorkSkips(lock: Lock, start: seq<Edge>, visited: set<Edge>, rest: seq<Edge>, request: Edge)
    requires Working(lock, start, visited, rest + [request]) && request in visited
    ensures Working(lock, start, visited, rest)
  {
    forall e | e in visited ensures Followed(lock, visited, rest, e) {
      assert Followed(lock, visited, rest + [request], e);
    }
  }

  lemma WorkExpands(lock: Lock, start: seq<Edge>, visited: set<Edge>, rest: seq<Edge>, request: Edge)
    requires Working(lock, start, visited, rest + [request])
    ensures Working(lock, start, visited + {request}, rest + Expansion(Matches(lock, request.name), request.extras))
  {
    var edges := Expansion(Matches(lock, request.name), request.extras);
    assert request in rest + [request];
    ExpansionIsSound(lock, start, request);
    forall e | e in visited + {request} ensures Followed(lock, visited + {request}, rest + edges, e) {
      if e in visited { assert Followed(lock, visited, rest + [request], e); }
    }
    forall e | e in rest + edges ensures Sound(lock, start, e) {
      if e in rest { assert e in rest + [request]; }
    }
  }

  lemma ElementsOfConcat(a: seq<Edge>, b: seq<Edge>)
    ensures Elements(a + b) == Elements(a) + Elements(b)
    ensures |b| == 1 ==> b[0] in Elements(b)
  {
  }

  ghost predicate Searching(lock: Lock, start: seq<Edge>, all: set<Edge>, visited: set<Edge>, pending: seq<Edge>,
                            selected: map<string, seq<Record>>) {
    && visited <= all && Elements(pending) <= all && AllEdges(lock) <= all
    && Working(lock, start, visited, pending)
    && forall name :: SelectedAt(selected, lock, visited, name)
  }

  lemma SearchStep(lock: Lock, start: seq<Edge>, all: set<Edge>, visited: set<Edge>, rest: seq<Edge>, request: Edge,
                   selected: map<string, seq<Record>>)
    requires Searching(lock, start, all, visited, rest + [request], selected)
    ensures request in visited ==> Searching(lock, start, all, visited, rest, selected)
    ensures request !in visited ==>
      var found := Matches(lock, request.name);
      && |all - (visited + {request})| < |all - visited|
      && Searching(lock, start, all, visited + {request}, rest + Expansion(found, request.extras),
                   if found == [] then selected else selected[request.name := found])
  {
    ElementsOfConcat(rest, [request]);
    if request in visited {
      WorkSkips(lock, start, visited, rest, request);
    } else {
      Fewer(all, visited, request);
      WorkExpands(lock, start, visited, rest, request);
      SelectMore(selected, lock, visited, request);
      ExpansionIsListed(lock, request.name, request.extras);
      ElementsOfConcat(rest, Expansion(Matches(lock, request.name), request.extras));
    }
    hide Working, SelectedAt, Matches, Expansion, Elements, AllEdges;
  }

  lemma SearchStarts(lock: Lock, start: seq<Edge>)
    ensures Searching(lock, start, AllEdges(lock) + Elements(start), {}, start, map[])
  {
    WorkStarts(lock, start);
    NothingSelected(lock);
  }

  lemma StartIsBoth(lock: Lock, roots: seq<string>, groups: seq<string>)
    ensures StartEdges(lock, roots, groups) == RootEdges(roots) + GroupEdges(lock, groups)
  {
  }

  /** The work list ends, and collects the records of exactly the reachable packages. */
  method Select(lock: Lock, roots: seq<string>, groups: seq<string>) returns (selected: map<string, seq<Record>>)
    ensures IsScope(selected, lock, StartEdges(lock, roots, groups))
  {
    hide *;
    var pending := StartWithRoots(roots);
    var grouped := StartWithGroups(lock, groups);
    pending := pending + grouped;
    ghost var start := pending;
    StartIsBoth(lock, roots, groups);
    ghost var all := AllEdges(lock) + Elements(start);
    var visited: set<Edge> := {};
    selected := map[];
    SearchStarts(lock, start);
    while pending != []
      invariant Searching(lock, start, all, visited, pending, selected)
      decreases |all - visited|, |pending|
    {
      var request, rest := pending[|pending| - 1], pending[..|pending| - 1];
      assert pending == rest + [request];
      SearchStep(lock, start, all, visited, rest, request, selected);
      if request in visited {
        pending := rest;
        continue;
      }
      visited := visited + {request};
      var found := Matches(lock, request.name);
      var edges := Expand(found, request.extras);
      if found != [] {
        selected := selected[request.name := found];
      }
      pending := rest + edges;
    }
    SearchEnds(lock, start, all, visited, selected);
  }

  lemma SearchEnds(lock: Lock, start: seq<Edge>, all: set<Edge>, visited: set<Edge>, selected: map<string, seq<Record>>)
    requires Searching(lock, start, all, visited, [], selected)
    ensures IsScope(selected, lock, start)
  {
    SelectedIsScope(lock, start, visited, selected);
  }

  lemma NothingSelected(lock: Lock)
    ensures forall name :: SelectedAt(map[], lock, {}, name)
  {
  }

  lemma SelectedIsScope(lock: Lock, start: seq<Edge>, visited: set<Edge>, selected: map<string, seq<Record>>)
    requires Working(lock, start, visited, []) && forall name :: SelectedAt(selected, lock, visited, name)
    ensures IsScope(selected, lock, start)
  {
    forall name ensures ScopedAt(selected, lock, start, name) {
      AllVisited(lock, start, visited, name);
      assert SelectedAt(selected, lock, visited, name);
    }
  }

  // ---- What a change of the lockfile means -----------------------------------

  /** Both lockfiles hold the same records for every package that the first one reaches. */
  ghost predicate AgreeOnReached(before: Lock, after: Lock, start: seq<Edge>) {
    forall name | Reached(before, start, Node(name, None)) :: Matches(before, name) == Matches(after, name)
  }

  lemma StepSame(one: Lock, other: Lock, a: Node, b: Node)
    requires Step(one, a, b) && Matches(one, a.name) == Matches(other, a.name)
    ensures Step(other, a, b)
  {
    var edge :| HasEdge(one, a, edge) && Requests(edge, b);
    assert HasEdge(other, a, edge);
  }

  lemma PathExtends(lock: Lock, start: seq<Edge>, path: seq<Node>, b: Node)
    requires IsPath(lock, start, path) && Step(lock, path[|path| - 1], b)
    ensures IsPath(lock, start, path + [b])
  {
  }

  lemma PathShrinks(lock: Lock, start: seq<Edge>, path: seq<Node>)
    requires IsPath(lock, start, path) && |path| > 1
    ensures var shorter, a := path[..|path| - 1], path[|path| - 2];
            && IsPath(lock, start, shorter) && shorter[|shorter| - 1] == a && path == shorter + [path[|path| - 1]]
            && Reached(lock, start, a) && Step(lock, a, path[|path| - 1])
  {
    assert path[..|path| - 1][|path| - 2] == path[|path| - 2];
  }

  lemma {:induction false} SamePath(before: Lock, after: Lock, start: seq<Edge>, path: seq<Node>)
    requires AgreeOnReached(before, after, start) && IsPath(before, start, path)
    ensures IsPath(after, start, path)
    decreases |path|
  {
    if |path| > 1 {
      PathShrinks(before, start, path);
      hide Step;
      var shorter, a, b := path[..|path| - 1], path[|path| - 2], path[|path| - 1];
      SamePath(before, after, start, shorter);
      ReachedWithoutExtra(before, start, a);
      StepSame(before, after, a, b);
      PathExtends(after, start, shorter, b);
    }
  }

  lemma {:induction false} SamePathBack(before: Lock, after: Lock, start: seq<Edge>, path: seq<Node>)
    requires AgreeOnReached(before, after, start) && IsPath(after, start, path)
    ensures IsPath(before, start, path)
    decreases |path|
  {
    if |path| > 1 {
      PathShrinks(after, start, path);
      hide Step;
      var shorter, a, b := path[..|path| - 1], path[|path| - 2], path[|path| - 1];
      SamePathBack(before, after, start, shorter);
      assert Reached(before, start, a);
      ReachedWithoutExtra(before, start, a);
      StepSame(after, before, a, b);
      PathExtends(before, start, shorter, b);
    }
  }

  lemma AgreementKeepsScope(before: Lock, after: Lock, start: seq<Edge>, a: map<string, seq<Record>>, b: map<string, seq<Record>>)
    requires IsScope(a, before, start) && IsScope(b, after, start) && AgreeOnReached(before, after, start)
    ensures a == b
  {
    forall name ensures (name in a <==> name in b) && (name in a ==> a[name] == b[name]) {
      assert ScopedAt(a, before, start, name) && ScopedAt(b, after, start, name);
      if Reached(before, start, Node(name, None)) {
        var path :| IsPath(before, start, path) && path[|path| - 1] == Node(name, None);
        SamePath(before, after, start, path);
      }
      if Reached(after, start, Node(name, None)) {
        var path :| IsPath(after, start, path) && path[|path| - 1] == Node(name, None);
        SamePathBack(before, after, start, path);
      }
    }
  }

  /** Equal scopes hold equal records along every path. */
  lemma {:induction false} ScopeKeepsPath(before: Lock, after: Lock, start: seq<Edge>, scope: map<string, seq<Record>>, path: seq<Node>)
    requires IsScope(scope, before, start) && IsScope(scope, after, start) && IsPath(before, start, path)
    ensures IsPath(after, start, path)
    decreases |path|
  {
    if |path| > 1 {
      PathShrinks(before, start, path);
      var shorter, a, b := path[..|path| - 1], path[|path| - 2], path[|path| - 1];
      assert Matches(before, a.name) != [] by {
        var edge :| HasEdge(before, a, edge) && Requests(edge, b);
      }
      hide Step;
      ScopeKeepsPath(before, after, start, scope, shorter);
      ReachedWithoutExtra(before, start, a);
      assert ScopedAt(scope, before, start, a.name) && ScopedAt(scope, after, start, a.name);
      StepSame(before, after, a, b);
      PathExtends(after, start, shorter, b);
    }
  }

  lemma SameScopeAgrees(before: Lock, after: Lock, start: seq<Edge>, scope: map<string, seq<Record>>)
    requires IsScope(scope, before, start) && IsScope(scope, after, start)
    ensures AgreeOnReached(before, after, start)
  {
    forall name | Reached(before, start, Node(name, None)) ensures Matches(before, name) == Matches(after, name) {
      var path :| IsPath(before, start, path) && path[|path| - 1] == Node(name, None);
      ScopeKeepsPath(before, after, start, scope, path);
      assert Reached(after, start, Node(name, None));
      assert ScopedAt(scope, before, start, name) && ScopedAt(scope, after, start, name);
    }
  }

  /** With the same requests, the scope changes exactly when a record inside the closure changes. */
  lemma RecordsChangeScopeIff(before: Lock, after: Lock, start: seq<Edge>, a: map<string, seq<Record>>, b: map<string, seq<Record>>)
    requires IsScope(a, before, start) && IsScope(b, after, start)
    ensures a == b <==> AgreeOnReached(before, after, start)
  {
    if a == b { SameScopeAgrees(before, after, start, a); }
    if AgreeOnReached(before, after, start) { AgreementKeepsScope(before, after, start, a, b); }
  }

  ghost predicate Installed(lock: Lock, start: seq<Edge>, name: string) {
    Reached(lock, start, Node(name, None)) && Matches(lock, name) != []
  }

  /** The same packages are reached from either list of requests. */
  ghost predicate SameReach(lock: Lock, one: seq<Edge>, other: seq<Edge>) {
    forall name :: Installed(lock, one, name) <==> Installed(lock, other, name)
  }

  lemma {:induction false} GroupsComeFromTheHarness(lock: Lock, groups: seq<string>)
    ensures GroupEdges(lock, groups) == GroupEdges(Matches(lock, HARNESS), groups)
    decreases |lock|
  {
    if lock != [] {
      GroupsComeFromTheHarness(lock[1..], groups);
      hide GroupsOf;
      if lock[0].name == HARNESS {
        var rest := Matches(lock[1..], HARNESS);
        assert ([lock[0]] + rest)[0] == lock[0] && ([lock[0]] + rest)[1..] == rest;
      } else {
        assert [] + Matches(lock[1..], HARNESS) == Matches(lock[1..], HARNESS);
      }
    }
  }

  /** An unchanged harness record asks for the same groups. */
  lemma SameHarnessSameStart(before: Lock, after: Lock, roots: seq<string>, groups: seq<string>)
    requires Matches(before, HARNESS) == Matches(after, HARNESS)
    ensures StartEdges(before, roots, groups) == StartEdges(after, roots, groups)
  {
    hide GroupEdges, RootEdges, Matches;
    GroupsComeFromTheHarness(before, groups);
    GroupsComeFromTheHarness(after, groups);
  }

  /** While no reached record changes, new requests change the scope exactly when they reach other packages. */
  lemma RequestsChangeScopeIff(before: Lock, after: Lock, one: seq<Edge>, other: seq<Edge>,
                               a: map<string, seq<Record>>, b: map<string, seq<Record>>)
    requires IsScope(a, before, one) && IsScope(b, after, other) && AgreeOnReached(before, after, one)
    ensures a == b <==> SameReach(after, one, other)
  {
    AgreementKeepsReach(before, after, one);
    hide Reached, Matches, AgreeOnReached;
    forall name ensures name in a <==> Installed(after, one, name) {
      assert ScopedAt(a, before, one, name);
      InstalledByBoth(before, after, one, name);
    }
    forall name ensures name in b <==> Installed(after, other, name) {
      assert ScopedAt(b, after, other, name);
    }
    if SameReach(after, one, other) {
      forall name ensures (name in a <==> name in b) && (name in a ==> a[name] == b[name]) {
        assert Installed(after, one, name) <==> Installed(after, other, name);
        assert ScopedAt(a, before, one, name) && ScopedAt(b, after, other, name);
        InstalledByBoth(before, after, one, name);
      }
    }
    if a == b {
      forall name ensures Installed(after, one, name) <==> Installed(after, other, name) {
        assert name in a <==> name in b;
      }
    }
  }

  lemma InstalledByBoth(before: Lock, after: Lock, start: seq<Edge>, name: string)
    requires AgreeOnReached(before, after, start)
    requires Reached(before, start, Node(name, None)) <==> Reached(after, start, Node(name, None))
    ensures Installed(before, start, name) <==> Installed(after, start, name)
    ensures Installed(before, start, name) ==> Matches(before, name) == Matches(after, name)
  {
  }

  lemma AgreementKeepsReach(before: Lock, after: Lock, start: seq<Edge>)
    requires AgreeOnReached(before, after, start)
    ensures forall name :: Reached(before, start, Node(name, None)) <==> Reached(after, start, Node(name, None))
  {
    hide Step;
    forall name ensures Reached(before, start, Node(name, None)) <==> Reached(after, start, Node(name, None)) {
      if Reached(before, start, Node(name, None)) {
        var path :| IsPath(before, start, path) && path[|path| - 1] == Node(name, None);
        SamePath(before, after, start, path);
      }
      if Reached(after, start, Node(name, None)) {
        var path :| IsPath(after, start, path) && path[|path| - 1] == Node(name, None);
        SamePathBack(before, after, start, path);
      }
    }
  }

  /**
   Two lockfiles, each asked with the requests it lists itself, have one scope exactly when every
   package installed by either is installed by both, with the same records. An unchanged harness
   record leaves only changed records to look for.
   */
  lemma ScopeChangesIff(before: Lock, after: Lock, roots: seq<string>, groups: seq<string>,
                        a: map<string, seq<Record>>, b: map<string, seq<Record>>)
    requires IsScope(a, before, StartEdges(before, roots, groups)) && IsScope(b, after, StartEdges(after, roots, groups))
    ensures a == b <==> forall name |
              Installed(before, StartEdges(before, roots, groups), name) || Installed(after, StartEdges(after, roots, groups), name) ::
              && Installed(before, StartEdges(before, roots, groups), name) && Installed(after, StartEdges(after, roots, groups), name)
              && Matches(before, name) == Matches(after, name)
    ensures groups == [] || Matches(before, HARNESS) == Matches(after, HARNESS) ==>
              (a == b <==> AgreeOnReached(before, after, StartEdges(before, roots, groups)))
  {
    var one, other := StartEdges(before, roots, groups), StartEdges(after, roots, groups);
    if groups == [] || Matches(before, HARNESS) == Matches(after, HARNESS) {
      if groups == [] { NoGroupsSameStart(before, after, roots); } else { SameHarnessSameStart(before, after, roots, groups); }
      RecordsChangeScopeIff(before, after, one, a, b);
    }
    hide StartEdges, Matches, Reached, AgreeOnReached;
    forall name ensures ScopedAt(a, before, one, name) && ScopedAt(b, after, other, name) {
    }
    if forall name | Installed(before, one, name) || Installed(after, other, name) ::
         Installed(before, one, name) && Installed(after, other, name) && Matches(before, name) == Matches(after, name)
    {
      forall name ensures (name in a <==> name in b) && (name in a ==> a[name] == b[name]) {
        assert ScopedAt(a, before, one, name) && ScopedAt(b, after, other, name);
        assert name in a <==> Installed(before, one, name);
        assert name in b <==> Installed(after, other, name);
      }
    }
    if a == b {
      forall name | Installed(before, one, name) || Installed(after, other, name)
        ensures Installed(before, one, name) && Installed(after, other, name) && Matches(before, name) == Matches(after, name)
      {
        assert ScopedAt(a, before, one, name) && ScopedAt(b, after, other, name);
      }
    }
  }

  lemma {:induction false} NoGroupsNoEdges(lock: Lock)
    ensures GroupEdges(lock, []) == []
    decreases |lock|
  {
    if lock != [] { NoGroupsNoEdges(lock[1..]); }
  }

  lemma NoGroupsSameStart(before: Lock, after: Lock, roots: seq<string>)
    ensures StartEdges(before, roots, []) == StartEdges(after, roots, [])
  {
    NoGroupsNoEdges(before);
    NoGroupsNoEdges(after);
  }
}
