/** Projection of upstream snapshots into a graph of business facts (app/conversation/business_memory).
    A node is named by its identity key; the hash that turns keys into ids is taken to be injective. */
module BusinessMemory {
  import opened Wrappers

  datatype Node = Node(key: string, isBusiness: bool, value: string, createdTurn: string, updatedTurn: string, archived: bool)

  datatype Edge = Edge(source: string, target: string)

  datatype Limits = Limits(maxNodes: nat, maxRelationships: nat, maxArchived: nat)
  {
    predicate InBounds() { maxNodes >= 1 && maxRelationships >= 1 && maxArchived >= 1 }
  }

  datatype Graph = Graph(nodes: seq<Node>, edges: seq<Edge>, archived: seq<Node>)

  const ROOT := "business"

  // ----- Cycles -----

  function Targets(graph: map<string, set<string>>, node: string): set<string> {
    if node in graph then graph[node] else {}
  }

  /** Going one node down leaves fewer nodes off the path. */
  lemma FewerLeft(graph: map<string, set<string>>, node: string, path: set<string>)
    requires node in graph && node !in path
    ensures |graph.Keys - (path + {node})| < |graph.Keys - path|
  {
    assert node in graph.Keys - path;
    assert graph.Keys - (path + {node}) == (graph.Keys - path) - {node};
  }

  /** The depth-first search below `node` meets a node that is on the path to it. */
  predicate Raises(graph: map<string, set<string>>, node: string, path: set<string>)
    decreases |graph.Keys - path|
  {
    if node in path then true
    else if node !in graph then false
    else
      FewerLeft(graph, node, path);
      exists t | t in graph[node] :: Raises(graph, t, path + {node})
  }

  ghost predicate Walk(graph: map<string, set<string>>, w: seq<string>) {
    w != [] && forall i :: 0 <= i < |w| - 1 ==> w[i + 1] in Targets(graph, w[i])
  }

  ghost predicate Cycle(graph: map<string, set<string>>, w: seq<string>) {
    Walk(graph, w) && |w| > 1 && w[0] == w[|w| - 1]
  }

  ghost predicate HasCycle(graph: map<string, set<string>>) { exists w :: Cycle(graph, w) }

  ghost predicate Closes(w: seq<string>, path: set<string>) {
    w != [] && (w[|w| - 1] in path || w[|w| - 1] in w[..|w| - 1])
  }

  /** Where the search raises, a walk down from the node comes back to itself or to the path. */
  lemma {:induction false} RaisesHasWalk(graph: map<string, set<string>>, node: string, path: set<string>) returns (w: seq<string>)
    requires Raises(graph, node, path)
    ensures Walk(graph, w) && w[0] == node && Closes(w, path)
    decreases |graph.Keys - path|
  {
    if node in path {
      w := [node];
    } else {
      var t :| t in graph[node] && Raises(graph, t, path + {node});
      FewerLeft(graph, node, path);
      var rest := RaisesHasWalk(graph, t, path + {node});
      w := [node] + rest;
      assert w[..|w| - 1] == [node] + rest[..|rest| - 1];
    }
  }

  /** Where it does not, no walk ever does. */
  lemma {:induction false} QuietHasNoWalk(graph: map<string, set<string>>, node: string, path: set<string>, w: seq<string>)
    requires !Raises(graph, node, path) && Walk(graph, w) && w[0] == node
    ensures !Closes(w, path)
    decreases |w|
  {
    if |w| > 1 {
      var t := w[1];
      assert t in graph[node];
      var rest := w[1..];
      assert forall i :: 0 <= i < |rest| ==> rest[i] == w[i + 1];
      QuietHasNoWalk(graph, t, path + {node}, rest);
      assert w[..|w| - 1] == [node] + rest[..|rest| - 1];
    }
  }

  lemma FoundIsCycle(graph: map<string, set<string>>, n: string)
    requires Raises(graph, n, {})
    ensures HasCycle(graph)
  {
    var w := RaisesHasWalk(graph, n, {});
    var last := |w| - 1;
    var i :| 0 <= i < last && w[i] == w[last];
    TailIsCycle(graph, w, i);
  }

  lemma TailIsCycle(graph: map<string, set<string>>, w: seq<string>, i: nat)
    requires Walk(graph, w) && i < |w| - 1 && w[i] == w[|w| - 1]
    ensures Cycle(graph, w[i..])
  {
    var c := w[i..];
    assert forall k :: 0 <= k < |c| ==> c[k] == w[i + k];
  }

  lemma CycleIsFound(graph: map<string, set<string>>, w: seq<string>)
    requires Cycle(graph, w)
    ensures w[0] in graph && Raises(graph, w[0], {})
  {
    assert w[1] in Targets(graph, w[0]) && w[..|w| - 1][0] == w[|w| - 1];
    if !Raises(graph, w[0], {}) {
      QuietHasNoWalk(graph, w[0], {}, w);
    }
  }

  /** The search over all nodes raises exactly when the graph has a directed cycle. */
  lemma RejectsExactly(graph: map<string, set<string>>)
    ensures (exists n :: n in graph && Raises(graph, n, {})) <==> HasCycle(graph)
  {
    if n :| n in graph && Raises(graph, n, {}) {
      FoundIsCycle(graph, n);
    }
    if HasCycle(graph) {
      var w :| Cycle(graph, w);
      CycleIsFound(graph, w);
    }
  }

  function GraphOf(edges: seq<Edge>): map<string, set<string>> {
    if edges == [] then map[]
    else
      var g, e := GraphOf(edges[..|edges| - 1]), edges[|edges| - 1];
      g[e.source := Targets(g, e.source) + {e.target}]
  }

  lemma {:induction false} GraphOfEdges(edges: seq<Edge>, a: string, b: string)
    ensures b in Targets(GraphOf(edges), a) <==> Edge(a, b) in edges
  {
    if edges != [] {
      GraphOfEdges(edges[..|edges| - 1], a, b);
      assert edges == edges[..|edges| - 1] + [edges[|edges| - 1]];
    }
  }

  method Visit(graph: map<string, set<string>>, node: string, path: set<string>) returns (raised: bool)
    ensures raised == Raises(graph, node, path)
    decreases |graph.Keys - path|
  {
    if node in path { return true; }
    if node !in graph { return false; }
    FewerLeft(graph, node, path);
    var left := graph[node];
    while left != {}
      invariant left <= graph[node]
      invariant forall t :: t in graph[node] - left ==> !Raises(graph, t, path + {node})
      decreases |left|
    {
      var t :| t in left;
      var deeper := Visit(graph, t, path + {node});
      if deeper { return true; }
      left := left - {t};
    }
    raised := false;
  }

  /** The search terminates and raises exactly on a directed cycle. */
  method RejectCycles(edges: seq<Edge>) returns (raised: bool)
    ensures raised <==> HasCycle(GraphOf(edges))
  {
    var graph: map<string, set<string>> := map[];
    var i := 0;
    while i < |edges|
      invariant 0 <= i <= |edges|
      invariant graph == GraphOf(edges[..i])
    {
      assert edges[..i + 1][..i] == edges[..i];
      graph := graph[edges[i].source := Targets(graph, edges[i].source) + {edges[i].target}];
      i := i + 1;
    }
    assert edges[..i] == edges;
    RejectsExactly(graph);
    var left := graph.Keys;
    while left != {}
      invariant left <= graph.Keys
      invariant forall n :: n in graph.Keys - left ==> !Raises(graph, n, {})
      decreases |left|
    {
      var n :| n in left;
      var found := Visit(graph, n, {});
      if found { return true; }
      left := left - {n};
    }
    raised := false;
  }

  // ----- Reconciliation -----

  /** The position of the node with this key. */
  function IndexOf(nodes: seq<Node>, key: string): (i: nat)
    ensures i <= |nodes|
    ensures i < |nodes| ==> nodes[i].key == key
    ensures forall j :: 0 <= j < i ==> nodes[j].key != key
  {
    if nodes == [] || nodes[0].key == key then 0 else 1 + IndexOf(nodes[1..], key)
  }

  predicate Has(nodes: seq<Node>, key: string) { IndexOf(nodes, key) < |nodes| }

  function Get(nodes: seq<Node>, key: string): Node
    requires Has(nodes, key)
  {
    nodes[IndexOf(nodes, key)]
  }

  /** Assignment to an insertion-ordered dictionary. */
  function Put(nodes: seq<Node>, n: Node): seq<Node> {
    var i := IndexOf(nodes, n.key);
    if i < |nodes| then nodes[i := n] else nodes + [n]
  }

  function Current(candidates: seq<Node>): seq<Node> {
    if candidates == [] then []
    else Put(Current(candidates[..|candidates| - 1]), candidates[|candidates| - 1])
  }

  /** A prior node that is gone, or whose value has changed. */
  predicate Superseded(current: seq<Node>, was: Node) {
    !Has(current, was.key) || Get(current, was.key).value != was.value
  }

  function Carried(current: seq<Node>, was: Node): seq<Node> {
    if Superseded(current, was) && Has(current, was.key)
    then Put(current, Get(current, was.key).(createdTurn := was.createdTurn)) else current
  }

  function CarriedAll(current: seq<Node>, prior: seq<Node>): seq<Node>
    decreases prior
  {
    if prior == [] then current else CarriedAll(Carried(current, prior[0]), prior[1..])
  }

  function Retired(current: seq<Node>, prior: seq<Node>): seq<Node>
    decreases prior
  {
    if prior == [] then []
    else
      (if Superseded(current, prior[0]) then [prior[0].(archived := true)] else [])
      + Retired(Carried(current, prior[0]), prior[1..])
  }

  function ReconciledNodes(candidates: seq<Node>, prior: Option<Graph>): seq<Node> {
    CarriedAll(Current(candidates), if prior.None? then [] else prior.value.nodes)
  }

  function ReconciledArchive(candidates: seq<Node>, prior: Option<Graph>, limits: Limits): seq<Node> {
    if prior.None? then []
    else Last(prior.value.archived + Retired(Current(candidates), prior.value.nodes), limits.maxArchived)
  }

  method CollectCurrent(candidates: seq<Node>) returns (current: seq<Node>)
    ensures current == Current(candidates)
  {
    current := [];
    var i := 0;
    while i < |candidates|
      invariant 0 <= i <= |candidates|
      invariant current == Current(candidates[..i])
    {
      assert candidates[..i + 1][..i] == candidates[..i];
      current := Put(current, candidates[i]);
      i := i + 1;
    }
    assert candidates[..i] == candidates;
  }

  lemma RetiredUnfolds(nodes: seq<Node>, olds: seq<Node>, i: nat)
    requires i < |olds|
    ensures Retired(nodes, olds[i..]) ==
              (if Superseded(nodes, olds[i]) then [olds[i].(archived := true)] else [])
              + Retired(Carried(nodes, olds[i]), olds[i + 1..])
    ensures CarriedAll(nodes, olds[i..]) == CarriedAll(Carried(nodes, olds[i]), olds[i + 1..])
  {
    assert olds[i..][1..] == olds[i + 1..];
  }

  lemma Regroup<T>(a: seq<T>, b: seq<T>, c: seq<T>)
    ensures a + (b + c) == (a + b) + c
  {
  }

  method CarryOne(current: seq<Node>, was: Node) returns (nodes: seq<Node>, retired: seq<Node>)
    ensures nodes == Carried(current, was)
    ensures retired == if Superseded(current, was) then [was.(archived := true)] else []
  {
    nodes, retired := current, [];
    if Superseded(current, was) {
      retired := [was.(archived := true)];
      if Has(current, was.key) {
        nodes := Put(current, Get(current, was.key).(createdTurn := was.createdTurn));
      }
    }
  }

  method CarryOver(current: seq<Node>, olds: seq<Node>) returns (nodes: seq<Node>, retired: seq<Node>)
    ensures nodes == CarriedAll(current, olds) && retired == Retired(current, olds)
  {
    nodes, retired := current, [];
    var i := 0;
    while i < |olds|
      invariant 0 <= i <= |olds|
      invariant CarriedAll(current, olds) == CarriedAll(nodes, olds[i..])
      invariant Retired(current, olds) == retired + Retired(nodes, olds[i..])
    {
      RetiredUnfolds(nodes, olds, i);
      var one;
      nodes, one := CarryOne(nodes, olds[i]);
      Regroup(retired, one, Retired(nodes, olds[i + 1..]));
      retired := retired + one;
      i := i + 1;
    }
  }

  method Reconcile(candidates: seq<Node>, prior: Option<Graph>, limits: Limits)
    returns (nodes: seq<Node>, archived: seq<Node>, raised: bool)
    requires limits.InBounds()
    ensures nodes == ReconciledNodes(candidates, prior)
    ensures archived == ReconciledArchive(candidates, prior, limits)
    ensures raised <==> |nodes| > limits.maxNodes
  {
    archived := [];
    nodes := CollectCurrent(candidates);
    if prior.Some? {
      var retired;
      nodes, retired := CarryOver(nodes, prior.value.nodes);
      archived := Last(prior.value.archived + retired, limits.maxArchived);
    }
    raised := |nodes| > limits.maxNodes;
  }

  // ----- Relationships -----

  function Root(nodes: seq<Node>): Option<Node> {
    if nodes == [] then None
    else if nodes[0].isBusiness && nodes[0].key == ROOT then Some(nodes[0])
    else Root(nodes[1..])
  }

  function EdgesTo(nodes: seq<Node>, root: string): seq<Edge> {
    if nodes == [] then []
    else
      var last := nodes[|nodes| - 1];
      EdgesTo(nodes[..|nodes| - 1], root) + if last.key == root then [] else [Edge(last.key, root)]
  }

  method StructuralRelationships(nodes: seq<Node>, limits: Limits) returns (edges: seq<Edge>, raised: bool)
    requires Root(nodes).Some?
    ensures edges == EdgesTo(nodes, Root(nodes).value.key)
    ensures raised <==> |edges| > limits.maxRelationships
  {
    var root := Root(nodes).value;
    edges := [];
    var i := 0;
    while i < |nodes|
      invariant 0 <= i <= |nodes|
      invariant edges == EdgesTo(nodes[..i], root.key)
    {
      assert nodes[..i + 1][..i] == nodes[..i];
      if nodes[i].key != root.key {
        edges := edges + [Edge(nodes[i].key, root.key)];
      }
      i := i + 1;
    }
    assert nodes[..i] == nodes;
    raised := |edges| > limits.maxRelationships;
  }

  /** The relationships are those of every other node to the root. */
  lemma {:induction false} EdgesExactly(nodes: seq<Node>, root: string, e: Edge)
    ensures e in EdgesTo(nodes, root) <==> e.target == root && e.source != root && exists i :: 0 <= i < |nodes| && nodes[i].key == e.source
  {
    if nodes != [] {
      var front, last := nodes[..|nodes| - 1], nodes[|nodes| - 1];
      EdgesExactly(front, root, e);
      assert nodes[|front|] == last;
      if i :| 0 <= i < |front| && front[i].key == e.source {
        assert nodes[i].key == e.source;
      }
      if i :| 0 <= i < |nodes| && nodes[i].key == e.source {
        assert i < |front| ==> front[i].key == e.source;
      }
    }
  }

  lemma {:induction false} EdgesAreAStar(nodes: seq<Node>, root: string)
    ensures forall e :: e in EdgesTo(nodes, root) ==> e.target == root && e.source != root
    ensures |EdgesTo(nodes, root)| <= |nodes|
  {
    if nodes != [] {
      EdgesAreAStar(nodes[..|nodes| - 1], root);
    }
  }

  /** A star into the root has no cycle: nothing leaves the root. */
  lemma StarHasNoCycle(nodes: seq<Node>, root: string)
    ensures !HasCycle(GraphOf(EdgesTo(nodes, root)))
  {
    var edges := EdgesTo(nodes, root);
    EdgesAreAStar(nodes, root);
    forall w ensures !Cycle(GraphOf(edges), w) {
      if Cycle(GraphOf(edges), w) {
        GraphOfEdges(edges, w[0], w[1]);
        assert w[1] == root && w[0] != root;
        if |w| > 2 {
          GraphOfEdges(edges, w[1], w[2]);
        }
      }
    }
  }

  // ----- Projection -----

  ghost predicate DistinctKeys(nodes: seq<Node>) {
    forall i, j :: 0 <= i < j < |nodes| ==> nodes[i].key != nodes[j].key
  }

  lemma IndexIsUnique(nodes: seq<Node>, i: nat)
    requires DistinctKeys(nodes) && i < |nodes|
    ensures IndexOf(nodes, nodes[i].key) == i
  {
  }

  lemma PutKeeps(nodes: seq<Node>, n: Node)
    requires DistinctKeys(nodes)
    ensures DistinctKeys(Put(nodes, n))
    ensures Has(Put(nodes, n), n.key) && Get(Put(nodes, n), n.key) == n
    ensures forall key :: key != n.key ==>
              (Has(Put(nodes, n), key) <==> Has(nodes, key)) && (Has(nodes, key) ==> Get(Put(nodes, n), key) == Get(nodes, key))
  {
    var q := Put(nodes, n);
    var i := IndexOf(nodes, n.key);
    IndexIsUnique(q, i);
    forall key | key != n.key
      ensures Has(q, key) <==> Has(nodes, key)
      ensures Has(nodes, key) ==> Get(q, key) == Get(nodes, key)
    {
      if Has(nodes, key) {
        assert q[IndexOf(nodes, key)].key == key;
        IndexIsUnique(q, IndexOf(nodes, key));
      }
      if Has(q, key) {
        assert nodes[IndexOf(q, key)].key == key;
      }
    }
  }

  /** The last candidate with a key. */
  function LastWith(candidates: seq<Node>, key: string): Option<Node> {
    if candidates == [] then None
    else if candidates[|candidates| - 1].key == key then Some(candidates[|candidates| - 1])
    else LastWith(candidates[..|candidates| - 1], key)
  }

  lemma {:induction false} CurrentIsLast(candidates: seq<Node>, key: string)
    ensures DistinctKeys(Current(candidates))
    ensures Has(Current(candidates), key) <==> LastWith(candidates, key).Some?
    ensures Has(Current(candidates), key) ==> Get(Current(candidates), key) == LastWith(candidates, key).value
  {
    if candidates != [] {
      CurrentIsLast(candidates[..|candidates| - 1], key);
      PutKeeps(Current(candidates[..|candidates| - 1]), candidates[|candidates| - 1]);
    }
  }

  lemma CarriedOnce(current: seq<Node>, was: Node, key: string)
    requires DistinctKeys(current)
    ensures DistinctKeys(Carried(current, was))
    ensures Has(Carried(current, was), key) <==> Has(current, key)
    ensures Has(current, key) && was.key == key && was.value != Get(current, key).value ==>
              Get(Carried(current, was), key) == Get(current, key).(createdTurn := was.createdTurn)
    ensures Has(current, key) && !(was.key == key && was.value != Get(current, key).value) ==>
              Get(Carried(current, was), key) == Get(current, key)
  {
    if Has(current, was.key) {
      PutKeeps(current, Get(current, was.key).(createdTurn := was.createdTurn));
    }
  }

  lemma FirstOrRest(nodes: seq<Node>, key: string)
    requires nodes != [] && DistinctKeys(nodes)
    ensures DistinctKeys(nodes[1..])
    ensures nodes[0].key == key ==> Has(nodes, key) && Get(nodes, key) == nodes[0] && !Has(nodes[1..], key)
    ensures nodes[0].key != key ==> Has(nodes, key) == Has(nodes[1..], key)
    ensures nodes[0].key != key && Has(nodes, key) ==> Get(nodes, key) == Get(nodes[1..], key)
  {
    assert forall i :: 0 <= i < |nodes[1..]| ==> nodes[1..][i] == nodes[i + 1];
    if Has(nodes[1..], key) {
      assert nodes[1..][IndexOf(nodes[1..], key)].key == key;
    }
  }

  /** What carrying over prior nodes does to one key: its value never changes, and its creation turn only
      where the value did. */
  lemma {:induction false} CarriedExactly(current: seq<Node>, prior: seq<Node>, key: string)
    requires DistinctKeys(current) && DistinctKeys(prior)
    ensures DistinctKeys(CarriedAll(current, prior))
    ensures Has(CarriedAll(current, prior), key) <==> Has(current, key)
    ensures Has(current, key) ==>
      var n := Get(current, key);
      Get(CarriedAll(current, prior), key) ==
        if Has(prior, key) && Get(prior, key).value != n.value then n.(createdTurn := Get(prior, key).createdTurn) else n
    decreases prior
  {
    if prior != [] {
      CarriedOnce(current, prior[0], key);
      FirstOrRest(prior, key);
      CarriedExactly(Carried(current, prior[0]), prior[1..], key);
    }
  }

  lemma CarriedMatchesNothing(current: seq<Node>, was: Node, n: Node)
    requires DistinctKeys(current) && was.key != n.key
    ensures Superseded(Carried(current, was), n) <==> Superseded(current, n)
  {
    if Has(current, was.key) {
      PutKeeps(current, Get(current, was.key).(createdTurn := was.createdTurn));
    }
  }

  /** The retired nodes are the prior nodes that are gone or have changed, in their order. */
  lemma {:induction false} RetiredExactly(current: seq<Node>, prior: seq<Node>, n: Node)
    requires DistinctKeys(current) && DistinctKeys(prior)
    requires forall p :: p in prior ==> !p.archived
    ensures n in Retired(current, prior) <==> n.archived && exists p :: p in prior && n == p.(archived := true) && Superseded(current, p)
    decreases prior
  {
    if prior != [] {
      var was, rest := prior[0], prior[1..];
      var carried := Carried(current, was);
      if Has(current, was.key) {
        PutKeeps(current, Get(current, was.key).(createdTurn := was.createdTurn));
      }
      assert forall i :: 0 <= i < |rest| ==> rest[i] == prior[i + 1];
      RetiredExactly(carried, rest, n);
      forall p | p in rest ensures Superseded(carried, p) <==> Superseded(current, p) {
        CarriedMatchesNothing(current, was, p);
      }
      assert prior == [was] + rest;
    }
  }

  /** The root is in the projection, and stays the root: no other source of nodes uses its key. */
  lemma {:induction false} RootFound(nodes: seq<Node>)
    requires Has(nodes, ROOT) && forall n :: n in nodes && n.key == ROOT ==> n.isBusiness
    ensures Root(nodes).Some? && Root(nodes).value.key == ROOT
  {
    if !(nodes[0].isBusiness && nodes[0].key == ROOT) {
      RootFound(nodes[1..]);
    }
  }

  lemma {:induction false} OnlyRootIsDropped(nodes: seq<Node>)
    requires DistinctKeys(nodes)
    ensures |EdgesTo(nodes, ROOT)| == |nodes| - if Has(nodes, ROOT) then 1 else 0
  {
    if nodes != [] {
      var front, last := nodes[..|nodes| - 1], nodes[|nodes| - 1];
      OnlyRootIsDropped(front);
      IndexIsUnique(nodes, |nodes| - 1);
      if Has(front, ROOT) {
        assert nodes[IndexOf(front, ROOT)].key == ROOT;
        IndexIsUnique(nodes, IndexOf(front, ROOT));
      }
      if Has(nodes, ROOT) && IndexOf(nodes, ROOT) < |front| {
        assert front[IndexOf(nodes, ROOT)].key == ROOT;
      }
    }
  }

  /** A projection raises exactly when a bound is exceeded, never over a cycle; otherwise every candidate
      key has one active node with the last candidate's value, joined to the root. */
  method Project(root: Node, others: seq<Node>, prior: Option<Graph>, limits: Limits) returns (graph: Option<Graph>)
    requires limits.InBounds() && root.key == ROOT && root.isBusiness
    requires forall n :: n in others ==> n.key != ROOT
    requires prior.Some? ==> DistinctKeys(prior.value.nodes)
    ensures var nodes := ReconciledNodes([root] + others, prior);
      && (graph.None? <==> |nodes| > limits.maxNodes || |nodes| - 1 > limits.maxRelationships)
      && graph == Projection([root] + others, prior, limits)
  {
    var candidates := [root] + others;
    ProjectedNodes(root, others, prior);
    var nodes, archived, full := Reconcile(candidates, prior, limits);
    if full { return None; }
    RootFound(nodes);
    OnlyRootIsDropped(nodes);
    var edges, many := StructuralRelationships(nodes, limits);
    if many { return None; }
    StarHasNoCycle(nodes, ROOT);
    var cyclic := RejectCycles(edges);
    if cyclic { return None; }
    return Some(Graph(nodes, edges, archived));
  }

  lemma ProjectedNodes(root: Node, others: seq<Node>, prior: Option<Graph>)
    requires root.key == ROOT && root.isBusiness && forall n :: n in others ==> n.key != ROOT
    requires prior.Some? ==> DistinctKeys(prior.value.nodes)
    ensures var nodes := ReconciledNodes([root] + others, prior);
      && DistinctKeys(nodes) && Has(nodes, ROOT)
      && (forall n :: n in nodes && n.key == ROOT ==> n.isBusiness)
      && forall key :: Has(nodes, key) <==> LastWith([root] + others, key).Some?
  {
    var candidates, olds := [root] + others, if prior.None? then [] else prior.value.nodes;
    var nodes := ReconciledNodes(candidates, prior);
    forall key
      ensures DistinctKeys(nodes)
      ensures Has(nodes, key) <==> LastWith(candidates, key).Some?
      ensures Has(nodes, key) && key == ROOT ==> Get(nodes, key).isBusiness
    {
      CurrentIsLast(candidates, key);
      CarriedExactly(Current(candidates), olds, key);
      LastOfRoot(root, others);
    }
    LastOfRoot(root, others);
    forall n | n in nodes && n.key == ROOT ensures n.isBusiness {
      var i :| 0 <= i < |nodes| && nodes[i] == n;
      IndexIsUnique(nodes, i);
    }
  }

  lemma {:induction false} LastOfRoot(root: Node, others: seq<Node>)
    requires root.key == ROOT && forall n :: n in others ==> n.key != ROOT
    ensures LastWith([root] + others, ROOT) == Some(root)
    decreases others
  {
    var candidates := [root] + others;
    if others != [] {
      assert candidates[..|candidates| - 1] == [root] + others[..|others| - 1];
      LastOfRoot(root, others[..|others| - 1]);
    }
  }

  /** What a projection keeps of the one before it. A key whose value has changed keeps its creation turn
      and its old node is archived; a key whose value has not changed takes the creation turn of its new
      candidate; a key that is gone is archived. */
  lemma ProjectionExactly(candidates: seq<Node>, prior: Graph, key: string)
    requires DistinctKeys(prior.nodes) && forall p :: p in prior.nodes ==> !p.archived
    ensures var nodes := ReconciledNodes(candidates, Some(prior));
      var last := LastWith(candidates, key);
      && DistinctKeys(nodes) && (Has(nodes, key) <==> last.Some?)
      && (last.Some? ==>
            Get(nodes, key) == (if Has(prior.nodes, key) && Get(prior.nodes, key).value != last.value.value
                                then last.value.(createdTurn := Get(prior.nodes, key).createdTurn)
                                else last.value))
      && (Has(prior.nodes, key) ==>
            (Get(prior.nodes, key).(archived := true) in Retired(Current(candidates), prior.nodes)
             <==> last.None? || last.value.value != Get(prior.nodes, key).value))
  {
    CurrentIsLast(candidates, key);
    CarriedExactly(Current(candidates), prior.nodes, key);
    if Has(prior.nodes, key) {
      var was := Get(prior.nodes, key);
      RetiredExactly(Current(candidates), prior.nodes, was.(archived := true));
      forall p | p in prior.nodes && p.(archived := true) == was.(archived := true) ensures p == was {
        var i :| 0 <= i < |prior.nodes| && prior.nodes[i] == p;
      }
    }
  }

  // ----- The archive -----

  /** No candidate has the key of the node any more, or the last that has it has another value. */
  predicate Outdated(candidates: seq<Node>, was: Node) {
    LastWith(candidates, was.key).None? || LastWith(candidates, was.key).value.value != was.value
  }

  /** The outdated nodes, in their order, marked as archived. */
  function Outgoing(candidates: seq<Node>, nodes: seq<Node>): seq<Node> {
    if nodes == [] then []
    else (if Outdated(candidates, nodes[0]) then [nodes[0].(archived := true)] else []) + Outgoing(candidates, nodes[1..])
  }

  lemma {:induction false} RetiredIsOutgoing(current: seq<Node>, prior: seq<Node>, candidates: seq<Node>)
    requires DistinctKeys(current) && DistinctKeys(prior)
    requires forall p :: p in prior ==> (Superseded(current, p) <==> Outdated(candidates, p))
    ensures Retired(current, prior) == Outgoing(candidates, prior)
    decreases prior
  {
    if prior != [] {
      var was, rest := prior[0], prior[1..];
      var carried := Carried(current, was);
      assert forall i :: 0 <= i < |rest| ==> rest[i] == prior[i + 1];
      CarriedOnce(current, was, was.key);
      forall p | p in rest ensures Superseded(carried, p) <==> Outdated(candidates, p) {
        CarriedMatchesNothing(current, was, p);
        assert p in prior;
      }
      RetiredIsOutgoing(carried, rest, candidates);
    }
  }

  /** What a projection archives: after what was archived before, every prior node that is gone or has changed;
      of all this the latest, up to the limit. */
  lemma ArchiveExactly(candidates: seq<Node>, prior: Graph, limits: Limits)
    requires DistinctKeys(prior.nodes) && limits.InBounds()
    ensures var (archive, outgoing) := (ReconciledArchive(candidates, Some(prior), limits), Outgoing(candidates, prior.nodes));
      var all := prior.archived + outgoing;
      && |archive| == (if |all| <= limits.maxArchived then |all| else limits.maxArchived)
      && archive == all[|all| - |archive|..]
      && (|outgoing| <= limits.maxArchived ==> |archive| >= |outgoing| && archive[|archive| - |outgoing|..] == outgoing)
  {
    var outgoing := Outgoing(candidates, prior.nodes);
    RetiredAre(candidates, prior.nodes);
    assert ReconciledArchive(candidates, Some(prior), limits) == Last(prior.archived + outgoing, limits.maxArchived);
    LastExactly(prior.archived, outgoing, limits.maxArchived);
  }

  lemma RetiredAre(candidates: seq<Node>, nodes: seq<Node>)
    requires DistinctKeys(nodes)
    ensures Retired(Current(candidates), nodes) == Outgoing(candidates, nodes)
  {
    forall p | p in nodes ensures Superseded(Current(candidates), p) <==> Outdated(candidates, p) {
      CurrentIsLast(candidates, p.key);
    }
    CurrentIsLast(candidates, ROOT);
    RetiredIsOutgoing(Current(candidates), nodes, candidates);
  }

  lemma LastExactly<T>(a: seq<T>, b: seq<T>, n: nat)
    ensures var (all, r) := (a + b, Last(a + b, n));
      && |r| == (if |all| <= n then |all| else n)
      && r == all[|all| - |r|..]
      && (|b| <= n ==> |r| >= |b| && r[|r| - |b|..] == b)
  {
  }

  /** In the archive is every outdated node, where these are no more than it holds. */
  lemma {:induction false} OutgoingHolds(candidates: seq<Node>, nodes: seq<Node>, n: Node)
    ensures n in Outgoing(candidates, nodes) <==> exists was :: was in nodes && Outdated(candidates, was) && n == was.(archived := true)
  {
    if nodes != [] {
      OutgoingHolds(candidates, nodes[1..], n);
      assert nodes == [nodes[0]] + nodes[1..];
    }
  }

  lemma SupersededIsArchived(candidates: seq<Node>, prior: Graph, limits: Limits, was: Node)
    requires DistinctKeys(prior.nodes) && limits.InBounds() && |Outgoing(candidates, prior.nodes)| <= limits.maxArchived
    requires was in prior.nodes && Outdated(candidates, was)
    ensures was.(archived := true) in ReconciledArchive(candidates, Some(prior), limits)
  {
    var archive, outgoing := ReconciledArchive(candidates, Some(prior), limits), Outgoing(candidates, prior.nodes);
    ArchiveExactly(candidates, prior, limits);
    OutgoingHolds(candidates, prior.nodes, was.(archived := true));
    var i :| 0 <= i < |outgoing| && outgoing[i] == was.(archived := true);
    assert archive[|archive| - |outgoing| + i] == archive[|archive| - |outgoing|..][i];
  }

  // ----- Over a run of projections -----

  /** A projection as a function; None where it raises. */
  function Projection(candidates: seq<Node>, prior: Option<Graph>, limits: Limits): Option<Graph> {
    var nodes := ReconciledNodes(candidates, prior);
    if |nodes| > limits.maxNodes || |nodes| - 1 > limits.maxRelationships then None
    else Some(Graph(nodes, EdgesTo(nodes, ROOT), ReconciledArchive(candidates, prior, limits)))
  }

  /** The graph after projections one upon the other; None before the first, and once one has raised. */
  function Memory(runs: seq<seq<Node>>, limits: Limits): Option<Graph> {
    if runs == [] then None
    else
      var front := runs[..|runs| - 1];
      if front != [] && Memory(front, limits).None? then None
      else Projection(runs[|runs| - 1], Memory(front, limits), limits)
  }

  /** Everything the projections have made outdated, in order. */
  function EverOutgoing(runs: seq<seq<Node>>, limits: Limits): seq<Node> {
    if runs == [] then []
    else
      var front := runs[..|runs| - 1];
      EverOutgoing(front, limits)
      + (if Memory(front, limits).None? then [] else Outgoing(runs[|runs| - 1], Memory(front, limits).value.nodes))
  }

  lemma ProjectionKeepsKeys(candidates: seq<Node>, prior: Option<Graph>)
    requires prior.Some? ==> DistinctKeys(prior.value.nodes)
    ensures DistinctKeys(ReconciledNodes(candidates, prior))
  {
    CurrentIsLast(candidates, ROOT);
    CarriedExactly(Current(candidates), if prior.None? then [] else prior.value.nodes, ROOT);
  }

  lemma LastOfLast<T>(a: seq<T>, b: seq<T>, n: nat)
    ensures Last(Last(a, n) + b, n) == Last(a + b, n)
  {
  }

  /** Over any run of projections the archive is the latest part of everything that was ever outdated. */
  lemma {:induction false} ArchiveOverRuns(runs: seq<seq<Node>>, limits: Limits)
    requires limits.InBounds() && Memory(runs, limits).Some?
    ensures DistinctKeys(Memory(runs, limits).value.nodes)
    ensures Memory(runs, limits).value.archived == Last(EverOutgoing(runs, limits), limits.maxArchived)
  {
    var front, last := runs[..|runs| - 1], runs[|runs| - 1];
    if front != [] {
      var prior := Memory(front, limits).value;
      ArchiveOverRuns(front, limits);
      RetiredAre(last, prior.nodes);
      LastOfLast(EverOutgoing(front, limits), Outgoing(last, prior.nodes), limits.maxArchived);
    }
    ProjectionKeepsKeys(last, Memory(front, limits));
  }
}
