/**
 The dependency graph of a lockfile, and what can be reached in it.

 A node is a package, or a package together with one of its extras. A package leads to
 its dependencies; an extra leads to the dependencies it adds.
 */
module LockGraph {
  import opened Options

  datatype Edge = Edge(name: string, extras: seq<string>)

  /**
   One record of the lockfile; `editable` is the path of a workspace package, and `rest`
   stands for everything else it says: the version, the source and the files.
   */
  datatype Record = Record(name: string, editable: Option<string>, dependencies: seq<Edge>,
                           optional: map<string, seq<Edge>>, dev: map<string, seq<Edge>>, rest: string)

  type Lock = seq<Record>

  datatype Node = Node(name: string, extra: Option<string>)

  function Matches(lock: Lock, name: string): seq<Record> {
    if lock == [] then []
    else (if lock[0].name == name then [lock[0]] else []) + Matches(lock[1..], name)
  }

  function ExtraEdges(record: Record, extra: string): seq<Edge> {
    if extra in record.optional then record.optional[extra] else []
  }

  /** The edges that a record contributes to a node. */
  predicate Contributes(record: Record, extra: Option<string>, edge: Edge) {
    if extra.None? then edge in record.dependencies else edge in ExtraEdges(record, extra.value)
  }

  predicate HasEdge(lock: Lock, node: Node, edge: Edge) {
    exists record :: record in Matches(lock, node.name) && Contributes(record, node.extra, edge)
  }

  /** An edge requests a package, and each of the extras it lists. */
  predicate Requests(edge: Edge, node: Node) {
    edge.name == node.name && (node.extra.None? || node.extra.value in edge.extras)
  }

  ghost predicate Step(lock: Lock, a: Node, b: Node) {
    exists edge :: HasEdge(lock, a, edge) && Requests(edge, b)
  }

  ghost predicate Starts(start: seq<Edge>, node: Node) {
    exists edge :: edge in start && Requests(edge, node)
  }

  ghost predicate IsPath(lock: Lock, start: seq<Edge>, path: seq<Node>) {
    && path != [] && Starts(start, path[0])
    && forall i | 0 <= i < |path| - 1 :: Step(lock, path[i], path[i + 1])
  }

  /** The node can be reached from the requested packages. */
  ghost predicate Reached(lock: Lock, start: seq<Edge>, node: Node) {
    exists path :: IsPath(lock, start, path) && path[|path| - 1] == node
  }

  // ---- Least fixpoint --------------------------------------------------------

  lemma StartIsReached(lock: Lock, start: seq<Edge>, node: Node)
    requires Starts(start, node)
    ensures Reached(lock, start, node)
  {
    assert IsPath(lock, start, [node]);
  }

  lemma StepIsReached(lock: Lock, start: seq<Edge>, a: Node, b: Node)
    requires Reached(lock, start, a) && Step(lock, a, b)
    ensures Reached(lock, start, b)
  {
    var path :| IsPath(lock, start, path) && path[|path| - 1] == a;
    assert IsPath(lock, start, path + [b]);
  }

  ghost predicate Closed(lock: Lock, nodes: iset<Node>) {
    forall a, b | a in nodes && Step(lock, a, b) :: b in nodes
  }

  /** What is reached lies in every closed set that holds the start: it is the least such set. */
  lemma {:induction false} ReachedIsLeast(lock: Lock, start: seq<Edge>, nodes: iset<Node>, path: seq<Node>)
    requires Closed(lock, nodes) && (forall node | Starts(start, node) :: node in nodes)
    requires IsPath(lock, start, path)
    ensures path[|path| - 1] in nodes
    decreases |path|
  {
    if |path| > 1 {
      var before := path[..|path| - 1];
      ReachedIsLeast(lock, start, nodes, before);
      assert Step(lock, path[|path| - 2], path[|path| - 1]);
    }
  }

  /** A reached package is reached without extras too. */
  lemma ReachedWithoutExtra(lock: Lock, start: seq<Edge>, node: Node)
    requires Reached(lock, start, node)
    ensures Reached(lock, start, Node(node.name, None))
  {
    var path :| IsPath(lock, start, path) && path[|path| - 1] == node;
    var plain := Node(node.name, None);
    if |path| == 1 {
      var edge :| edge in start && Requests(edge, node);
      assert Requests(edge, plain);
      StartIsReached(lock, start, plain);
    } else {
      var before := path[..|path| - 1];
      var previous := path[|path| - 2];
      assert IsPath(lock, start, before);
      assert Reached(lock, start, previous);
      assert Step(lock, previous, node);
      var edge :| HasEdge(lock, previous, edge) && Requests(edge, node);
      assert Requests(edge, plain);
      StepIsReached(lock, start, previous, plain);
    }
  }

  lemma {:induction false} MatchesContents(lock: Lock, name: string)
    ensures forall record :: record in Matches(lock, name) <==> record in lock && record.name == name
  {
    if lock != [] {
      MatchesContents(lock[1..], name);
      assert lock == [lock[0]] + lock[1..];
    }
  }
}
