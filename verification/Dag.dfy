/** Workflow graphs: nodes identified by key, edges by keys, validated and ordered by Kahn's algorithm. */
module Dag {
  import opened Wrappers
  import opened Sorting
  import opened DagKahn

  datatype TaskKind = Ingest | Parse | Normalize | Chunk | Embed | Index

  datatype DagNode = DagNode(key: string, kind: TaskKind, caption: Option<string>)

  /** `fromKey` must complete before `toKey` can be scheduled. */
  datatype DagEdge = DagEdge(fromKey: string, toKey: string)

  datatype DagError = DuplicateNodeKey(key: string) | MissingNode(fromKey: string, toKey: string) | Cycle

  // ----- what the operations are about -----

  /** Node i repeats the key of an earlier node. */
  ghost predicate Repeats(nodes: seq<DagNode>, i: nat) {
    i < |nodes| && exists j :: 0 <= j < i && nodes[j].key == nodes[i].key
  }

  ghost predicate UniqueKeys(nodes: seq<DagNode>) {
    forall i, j :: 0 <= i < j < |nodes| ==> nodes[i].key != nodes[j].key
  }

  ghost predicate HasKey(nodes: seq<DagNode>, key: string) {
    exists i :: 0 <= i < |nodes| && nodes[i].key == key
  }

  ghost predicate EndpointsKnown(nodes: seq<DagNode>, e: DagEdge) {
    HasKey(nodes, e.fromKey) && HasKey(nodes, e.toKey)
  }

  ghost predicate AllKnown(nodes: seq<DagNode>, edges: seq<DagEdge>) {
    forall e :: e in edges ==> EndpointsKnown(nodes, e)
  }

  /** Some key reaches itself along at least one edge. */
  ghost predicate KeyCycle(edges: seq<DagEdge>) {
    exists path: seq<string> :: IsKeyWalk(edges, path) && |path| > 1 && path[0] == path[|path| - 1]
  }

  ghost predicate IsKeyWalk(edges: seq<DagEdge>, path: seq<string>) {
    |path| > 0 && forall i :: 0 <= i < |path| - 1 ==> DagEdge(path[i], path[i + 1]) in edges
  }

  /** e is the error of a graph: the first repeated key, else the first edge with an unknown endpoint, else a cycle.
      The empty node list is never rejected, whatever the edges. */
  ghost predicate IsErrorOf(nodes: seq<DagNode>, edges: seq<DagEdge>, e: DagError) {
    && nodes != []
    && match e
       case DuplicateNodeKey(key) =>
         exists i: nat :: Repeats(nodes, i) && nodes[i].key == key && forall j :: 0 <= j < i ==> !Repeats(nodes, j)
       case MissingNode(f, t) =>
         && UniqueKeys(nodes)
         && exists i :: 0 <= i < |edges| && edges[i] == DagEdge(f, t) && !EndpointsKnown(nodes, edges[i])
              && forall j :: 0 <= j < i ==> EndpointsKnown(nodes, edges[j])
       case Cycle => UniqueKeys(nodes) && AllKnown(nodes, edges) && KeyCycle(edges)
  }

  ghost predicate IsValid(nodes: seq<DagNode>, edges: seq<DagEdge>) {
    nodes == [] || (UniqueKeys(nodes) && AllKnown(nodes, edges) && !KeyCycle(edges))
  }

  /** A graph is valid or has exactly one error. */
  lemma OneVerdict(nodes: seq<DagNode>, edges: seq<DagEdge>, e: DagError, f: DagError)
    ensures IsErrorOf(nodes, edges, e) ==> !IsValid(nodes, edges)
    ensures IsErrorOf(nodes, edges, e) && IsErrorOf(nodes, edges, f) ==> e == f
  {
  }

  // ----- keys and indices -----

  ghost function IndexOf(nodes: seq<DagNode>, key: string): (i: nat)
    requires HasKey(nodes, key)
    ensures i < |nodes| && nodes[i].key == key
  {
    var i :| 0 <= i < |nodes| && nodes[i].key == key;
    i
  }

  ghost function IndexEdges(nodes: seq<DagNode>, edges: seq<DagEdge>): (r: seq<Edge>)
    requires AllKnown(nodes, edges)
    ensures |r| == |edges|
    ensures forall i :: 0 <= i < |edges| ==>
              edges[i] in edges && r[i] == (IndexOf(nodes, edges[i].fromKey), IndexOf(nodes, edges[i].toKey))
  {
    seq(|edges|, i requires 0 <= i < |edges| =>
      (assert edges[i] in edges; (IndexOf(nodes, edges[i].fromKey), IndexOf(nodes, edges[i].toKey))))
  }

  lemma IndexEdgesInRange(nodes: seq<DagNode>, edges: seq<DagEdge>)
    requires AllKnown(nodes, edges)
    ensures InRange(|nodes|, IndexEdges(nodes, edges))
  {
  }

  /** With unique keys, edges between keys and edges between their indices are the same thing. */
  lemma SameEdges(nodes: seq<DagNode>, edges: seq<DagEdge>, a: nat, b: nat)
    requires AllKnown(nodes, edges) && UniqueKeys(nodes) && a < |nodes| && b < |nodes|
    ensures (a, b) in IndexEdges(nodes, edges) <==> DagEdge(nodes[a].key, nodes[b].key) in edges
  {
    var ix := IndexEdges(nodes, edges);
    if DagEdge(nodes[a].key, nodes[b].key) in edges {
      var i :| 0 <= i < |edges| && edges[i] == DagEdge(nodes[a].key, nodes[b].key);
      assert ix[i] == (a, b);
    }
  }

  lemma CycleOfKeys(nodes: seq<DagNode>, edges: seq<DagEdge>)
    requires AllKnown(nodes, edges) && UniqueKeys(nodes)
    ensures HasCycle(IndexEdges(nodes, edges)) <==> KeyCycle(edges)
  {
    hide IndexEdges, IsWalk, IsKeyWalk, UniqueKeys, AllKnown;
    if HasCycle(IndexEdges(nodes, edges)) {
      var path :| IsWalk(IndexEdges(nodes, edges), path) && |path| > 1 && path[0] == path[|path| - 1];
      var keys := WalkOfKeys(nodes, edges, path);
    }
    if KeyCycle(edges) {
      var keys :| IsKeyWalk(edges, keys) && |keys| > 1 && keys[0] == keys[|keys| - 1];
      var path := WalkOfIndices(nodes, edges, keys);
    }
  }

  lemma WalkOfKeys(nodes: seq<DagNode>, edges: seq<DagEdge>, path: seq<nat>) returns (keys: seq<string>)
    requires AllKnown(nodes, edges) && UniqueKeys(nodes) && IsWalk(IndexEdges(nodes, edges), path) && |path| > 1
    ensures IsKeyWalk(edges, keys) && |keys| == |path|
    ensures forall i :: 0 <= i < |path| ==> path[i] < |nodes| && keys[i] == nodes[path[i]].key
  {
    hide IndexEdges;
    var ix := IndexEdges(nodes, edges);
    IndexEdgesInRange(nodes, edges);
    WalkInRange(|nodes|, ix, path);
    keys := seq(|path|, i requires 0 <= i < |path| => (assert path[i] in path; nodes[path[i]].key));
    forall i | 0 <= i < |keys| - 1 ensures DagEdge(keys[i], keys[i + 1]) in edges {
      assert path[i] in path && path[i + 1] in path && (path[i], path[i + 1]) in ix;
      SameEdges(nodes, edges, path[i], path[i + 1]);
    }
    assert forall i :: 0 <= i < |path| ==> path[i] in path;
  }

  lemma WalkOfIndices(nodes: seq<DagNode>, edges: seq<DagEdge>, keys: seq<string>) returns (path: seq<nat>)
    requires AllKnown(nodes, edges) && UniqueKeys(nodes) && IsKeyWalk(edges, keys) && |keys| > 1
    ensures IsWalk(IndexEdges(nodes, edges), path) && |path| == |keys|
    ensures forall i :: 0 <= i < |path| ==> path[i] < |nodes| && keys[i] == nodes[path[i]].key
    ensures keys[0] == keys[|keys| - 1] ==> path[0] == path[|path| - 1]
  {
    hide IndexEdges;
    KeysKnown(nodes, edges, keys);
    path := seq(|keys|, i requires 0 <= i < |keys| => IndexOf(nodes, keys[i]));
    forall i | 0 <= i < |path| - 1 ensures (path[i], path[i + 1]) in IndexEdges(nodes, edges) {
      assert DagEdge(keys[i], keys[i + 1]) in edges;
      SameEdges(nodes, edges, path[i], path[i + 1]);
    }
  }

  lemma WalkInRange(n: nat, ix: seq<Edge>, path: seq<nat>)
    requires InRange(n, ix) && IsWalk(ix, path) && |path| > 1
    ensures forall u :: u in path ==> u < n
  {
    forall u | u in path ensures u < n {
      var i :| 0 <= i < |path| && path[i] == u;
      assert if i < |path| - 1 then (path[i], path[i + 1]) in ix else (path[i - 1], path[i - 1 + 1]) in ix;
    }
  }

  lemma KeysKnown(nodes: seq<DagNode>, edges: seq<DagEdge>, keys: seq<string>)
    requires AllKnown(nodes, edges) && |keys| > 1 && IsKeyWalk(edges, keys)
    ensures forall i :: 0 <= i < |keys| ==> HasKey(nodes, keys[i])
  {
    forall i | 0 <= i < |keys| ensures HasKey(nodes, keys[i]) {
      if i < |keys| - 1 {
        assert EndpointsKnown(nodes, DagEdge(keys[i], keys[i + 1]));
      } else {
        assert EndpointsKnown(nodes, DagEdge(keys[i - 1], keys[i - 1 + 1]));
      }
    }
  }

  // ----- the operations -----

  datatype Graph = Graph(name: string, version: int, nodes: seq<DagNode>, edges: seq<DagEdge>)
  {
    ghost predicate Linkable() { UniqueKeys(nodes) && AllKnown(nodes, edges) }

    ghost function Links(): seq<Edge>
      requires Linkable()
    {
      IndexEdges(nodes, edges)
    }

    method BuildIndex() returns (r: Result<map<string, nat>, DagError>)
      ensures r.Ok? ==> UniqueKeys(nodes)
                        && (forall i :: 0 <= i < |nodes| ==> nodes[i].key in r.value && r.value[nodes[i].key] == i)
                        && (forall k :: k in r.value ==> HasKey(nodes, k))
      ensures r.Err? ==> r.error.DuplicateNodeKey? && IsErrorOf(nodes, edges, r.error) && !UniqueKeys(nodes)
    {
      var idx: map<string, nat> := map[];
      for i := 0 to |nodes|
        invariant UniqueKeys(nodes[..i]) && forall j :: 0 <= j < i ==> !Repeats(nodes, j)
        invariant forall j :: 0 <= j < i ==> nodes[j].key in idx && idx[nodes[j].key] == j
        invariant forall k :: k in idx ==> idx[k] < i && nodes[idx[k]].key == k
      {
        if nodes[i].key in idx {
          assert nodes[idx[nodes[i].key]].key == nodes[i].key;
          assert Repeats(nodes, i);
          return Err(DuplicateNodeKey(nodes[i].key));
        }
        idx := idx[nodes[i].key := i];
      }
      assert nodes[..|nodes|] == nodes;
      return Ok(idx);
    }

    /** Adjacency lists and indegrees, or the first edge whose endpoint is unknown. */
    method Link(index: map<string, nat>) returns (missing: Option<DagError>, adj: array<seq<nat>>, indegree: array<nat>)
      requires nodes != [] && UniqueKeys(nodes)
      requires forall i :: 0 <= i < |nodes| ==> nodes[i].key in index && index[nodes[i].key] == i
      requires forall k :: k in index ==> HasKey(nodes, k)
      ensures fresh(adj) && fresh(indegree) && adj.Length == indegree.Length == |nodes|
      ensures missing.Some? ==> missing.value.MissingNode? && IsErrorOf(nodes, edges, missing.value)
      ensures missing.None? ==>
                && Linkable()
                && (forall u :: 0 <= u < |nodes| ==> adj[u] == Targets(Links(), u))
                && (forall v :: 0 <= v < |nodes| ==> indegree[v] == Waiting(Links(), [], v))
    {
      hide UniqueKeys, AllKnown, EndpointsKnown, IndexEdges, Targets, Waiting, IsErrorOf;
      var n := |nodes|;
      adj := new seq<nat>[n](_ => []);
      indegree := new nat[n](_ => 0);
      NoLinks(nodes);
      assert edges[..0] == [];
      for i := 0 to |edges|
        invariant AllKnown(nodes, edges[..i])
        invariant forall u :: 0 <= u < n ==> adj[u] == Targets(IndexEdges(nodes, edges[..i]), u)
        invariant forall v :: 0 <= v < n ==> indegree[v] == Waiting(IndexEdges(nodes, edges[..i]), [], v)
      {
        var edge := edges[i];
        if edge.fromKey !in index || edge.toKey !in index {
          FirstUnknown(nodes, edges, index, i);
          return Some(MissingNode(edge.fromKey, edge.toKey)), adj, indegree;
        }
        var fromIx, toIx := index[edge.fromKey], index[edge.toKey];
        OneMoreLink(nodes, edges, index, i);
        adj[fromIx] := adj[fromIx] + [toIx];
        indegree[toIx] := indegree[toIx] + 1;
      }
      assert edges[..|edges|] == edges;
      missing := None;
    }

    /** Removes the edges of the popped node u and enqueues the nodes that this frees. */
    static method PopNode(ghost links: seq<Edge>, ghost popped: seq<nat>, u: nat, targets: seq<nat>, indegree: array<nat>, queue: seq<nat>)
      returns (queue': seq<nat>)
      requires InRange(indegree.Length, links) && u !in popped && targets == Targets(links, u)
      requires forall v :: 0 <= v < indegree.Length ==> indegree[v] == Waiting(links, popped, v)
      modifies indegree
      ensures forall v :: 0 <= v < indegree.Length ==> indegree[v] == Waiting(links, popped + [u], v)
      ensures queue' == queue + Freed(links, popped, u, |targets|)
    {
      hide Waiting, Targets;
      queue' := queue;
      for j := 0 to |targets|
        invariant queue' == queue + Freed(links, popped, u, j)
        invariant forall v :: 0 <= v < indegree.Length ==> indegree[v] + Count(targets[..j], v) == Waiting(links, popped, v)
      {
        var v := targets[j];
        TargetsAreEdges(links, u, v);
        WaitingPop(links, popped, u, v);
        forall x ensures Count(targets[..j + 1], x) == Count(targets[..j], x) + (if v == x then 1 else 0) {
          CountSplit(targets, j + 1, x);
        }
        CountSplit(targets, j + 1, v);
        indegree[v] := indegree[v] - 1;
        if indegree[v] == 0 {
          queue' := queue' + [v];
        }
      }
      assert targets[..|targets|] == targets;
      forall v | 0 <= v < indegree.Length ensures indegree[v] == Waiting(links, popped + [u], v) {
        WaitingPop(links, popped, u, v);
      }
    }

    static method InitialQueue(ghost links: seq<Edge>, indegree: array<nat>) returns (queue: seq<nat>)
      requires forall v :: 0 <= v < indegree.Length ==> indegree[v] == Waiting(links, [], v)
      ensures queue == RootsBelow(links, indegree.Length)
    {
      queue := [];
      for i := 0 to indegree.Length
        invariant queue == RootsBelow(links, i)
      {
        if indegree[i] == 0 {
          queue := queue + [i];
        }
      }
    }

    method Validate() returns (r: Option<DagError>)
      ensures r.None? ==> IsValid(nodes, edges)
      ensures r.Some? ==> IsErrorOf(nodes, edges, r.value)
    {
      hide UniqueKeys, AllKnown, KeyCycle, HasCycle, IndexEdges, InRange, Repeats, EndpointsKnown, IsErrorOf,
        Enqueued, Waiting, Targets, Freed, RootsBelow, KeysAt;
      if nodes == [] {
        return None;
      }
      var index := BuildIndex();
      if index.Err? {
        return Some(index.error);
      }
      var missing, adj, indegree := Link(index.value);
      if missing.Some? {
        return missing;
      }
      ghost var links := Links();
      var n := |nodes|;
      IndexEdgesInRange(nodes, edges);
      var queue := InitialQueue(links, indegree);
      var seen := 0;
      FirstQueue(n, links);
      while queue != []
        invariant seen <= |Enqueued(n, links, seen)| && seen <= n && queue == Enqueued(n, links, seen)[seen..]
        invariant forall v :: 0 <= v < n ==> indegree[v] == Waiting(links, Enqueued(n, links, seen)[..seen], v)
        invariant forall u :: 0 <= u < n ==> adj[u] == Targets(links, u)
        decreases n - seen
      {
        NextPop(n, links, seen);
        var u := queue[0];
        queue := PopNode(links, Enqueued(n, links, seen)[..seen], u, adj[u], indegree, queue[1..]);
        seen := seen + 1;
      }
      QueueEmpty(n, links, seen);
      OrderVerdict(nodes, edges);
      if seen != n {
        return Some(Cycle);
      }
      return None;
    }

    /** The keys in topological order. */
    ghost function Topological(): (keys: seq<string>)
      requires nodes == [] || Linkable()
    {
      if nodes == [] then [] else KeysAt(nodes, Order(|nodes|, Links()))
    }

    method TopoOrder() returns (r: Result<seq<string>, DagError>)
      ensures r.Ok? ==> IsValid(nodes, edges) && r.value == Topological()
      ensures r.Err? ==> IsErrorOf(nodes, edges, r.error)
    {
      hide UniqueKeys, AllKnown, KeyCycle, HasCycle, IndexEdges, InRange, Repeats, EndpointsKnown, IsErrorOf,
        Enqueued, Waiting, Targets, Freed, RootsBelow, KeysAt;
      if nodes == [] {
        return Ok([]);
      }
      var index := BuildIndex();
      if index.Err? {
        return Err(index.error);
      }
      var missing, adj, indegree := Link(index.value);
      if missing.Some? {
        return Err(missing.value);
      }
      ghost var links := Links();
      var n := |nodes|;
      IndexEdgesInRange(nodes, edges);
      var queue := InitialQueue(links, indegree);
      var orderIx: seq<nat> := [];
      FirstQueue(n, links);
      while queue != []
        invariant |orderIx| <= |Enqueued(n, links, |orderIx|)| && |orderIx| <= n
        invariant orderIx == Enqueued(n, links, |orderIx|)[..|orderIx|] && queue == Enqueued(n, links, |orderIx|)[|orderIx|..]
        invariant forall v :: 0 <= v < n ==> indegree[v] == Waiting(links, orderIx, v)
        invariant forall u :: 0 <= u < n ==> adj[u] == Targets(links, u)
        decreases n - |orderIx|
      {
        NextPop(n, links, |orderIx|);
        var u := queue[0];
        queue := PopNode(links, orderIx, u, adj[u], indegree, queue[1..]);
        orderIx := orderIx + [u];
      }
      QueueEmpty(n, links, |orderIx|);
      OrderVerdict(nodes, edges);
      if |orderIx| != n {
        return Err(Cycle);
      }
      OrderProperty(n, links);
      var result := KeysInOrder(orderIx);
      return Ok(result);
    }

    method KeysInOrder(orderIx: seq<nat>) returns (result: seq<string>)
      requires forall i :: i in orderIx ==> i < |nodes|
      ensures result == KeysAt(nodes, orderIx)
    {
      result := [];
      for k := 0 to |orderIx|
        invariant result == KeysAt(nodes, orderIx[..k])
      {
        assert orderIx[k] in orderIx;
        assert orderIx[..k + 1] == orderIx[..k] + [orderIx[k]];
        result := result + [nodes[orderIx[k]].key];
      }
      assert orderIx[..|orderIx|] == orderIx;
    }

    /** Nodes with no edge into their key; none at all when keys repeat. */
    method Roots() returns (r: seq<DagNode>)
      ensures r == if UniqueKeys(nodes) then RootNodes(nodes, edges) else []
    {
      if nodes == [] {
        return [];
      }
      var index := BuildIndex();
      if index.Err? {
        return [];
      }
      var hasIncoming := MarkIncoming(index.value);
      r := [];
      for i := 0 to |nodes|
        invariant r == RootNodes(nodes[..i], edges)
      {
        assert nodes[..i + 1] == nodes[..i] + [nodes[i]];
        if !hasIncoming[i] {
          r := r + [nodes[i]];
        }
      }
      assert nodes[..|nodes|] == nodes;
    }

    /** Edges with an unknown target are skipped here. */
    method MarkIncoming(index: map<string, nat>) returns (hasIncoming: array<bool>)
      requires UniqueKeys(nodes)
      requires forall i :: 0 <= i < |nodes| ==> nodes[i].key in index && index[nodes[i].key] == i
      requires forall k :: k in index ==> HasKey(nodes, k)
      ensures fresh(hasIncoming) && hasIncoming.Length == |nodes|
      ensures forall v :: 0 <= v < |nodes| ==> hasIncoming[v] == HasIncoming(edges, nodes[v].key)
    {
      hide UniqueKeys;
      hasIncoming := new bool[|nodes|](_ => false);
      for i := 0 to |edges|
        invariant forall v :: 0 <= v < |nodes| ==> hasIncoming[v] == HasIncoming(edges[..i], nodes[v].key)
      {
        assert edges[..i + 1] == edges[..i] + [edges[i]];
        forall key ensures HasIncoming(edges[..i + 1], key) <==> HasIncoming(edges[..i], key) || edges[i].toKey == key {
          NextIncoming(edges, i, key);
        }
        if edges[i].toKey in index {
          var toIx := index[edges[i].toKey];
          hasIncoming[toIx] := true;
        }
      }
      assert edges[..|edges|] == edges;
    }
  }

  ghost function KeysAt(nodes: seq<DagNode>, order: seq<nat>): (keys: seq<string>)
    ensures |keys| == |order|
    ensures forall i :: 0 <= i < |order| && order[i] < |nodes| ==> keys[i] == nodes[order[i]].key
  {
    if order == [] then []
    else KeysAt(nodes, order[..|order| - 1])
         + (if order[|order| - 1] < |nodes| then [nodes[order[|order| - 1]].key] else [""])
  }

  ghost predicate HasIncoming(edges: seq<DagEdge>, key: string) {
    exists j :: 0 <= j < |edges| && edges[j].toKey == key
  }

  ghost function RootNodes(nodes: seq<DagNode>, edges: seq<DagEdge>): seq<DagNode> {
    if nodes == [] then []
    else RootNodes(nodes[..|nodes| - 1], edges)
         + (if HasIncoming(edges, nodes[|nodes| - 1].key) then [] else [nodes[|nodes| - 1]])
  }

  // ----- steps of the methods' proofs -----

  lemma NextIncoming(edges: seq<DagEdge>, i: nat, key: string)
    requires i < |edges|
    ensures HasIncoming(edges[..i + 1], key) <==> HasIncoming(edges[..i], key) || edges[i].toKey == key
  {
    if HasIncoming(edges[..i], key) {
      var j :| 0 <= j < i && edges[..i][j].toKey == key;
      assert edges[..i + 1][j].toKey == key;
    }
    assert edges[..i + 1][i] == edges[i];
  }

  lemma NoLinks(nodes: seq<DagNode>)
    ensures AllKnown(nodes, [])
    ensures forall u: nat :: Targets(IndexEdges(nodes, []), u) == [] && Waiting(IndexEdges(nodes, []), [], u) == 0
  {
  }

  /** The first edge with an endpoint that is no node. */
  lemma FirstUnknown(nodes: seq<DagNode>, edges: seq<DagEdge>, index: map<string, nat>, i: nat)
    requires nodes != [] && UniqueKeys(nodes) && i < |edges| && AllKnown(nodes, edges[..i])
    requires forall j :: 0 <= j < |nodes| ==> nodes[j].key in index
    requires edges[i].fromKey !in index || edges[i].toKey !in index
    ensures IsErrorOf(nodes, edges, MissingNode(edges[i].fromKey, edges[i].toKey))
  {
    hide UniqueKeys;
    assert !EndpointsKnown(nodes, edges[i]);
    forall j | 0 <= j < i ensures EndpointsKnown(nodes, edges[j]) {
      assert edges[j] == edges[..i][j] && edges[..i][j] in edges[..i];
    }
  }

  lemma KnownSnoc(nodes: seq<DagNode>, edges: seq<DagEdge>, e: DagEdge)
    requires AllKnown(nodes, edges) && EndpointsKnown(nodes, e)
    ensures AllKnown(nodes, edges + [e])
    ensures IndexEdges(nodes, edges + [e]) == IndexEdges(nodes, edges) + [(IndexOf(nodes, e.fromKey), IndexOf(nodes, e.toKey))]
  {
    hide EndpointsKnown;
    forall x | x in edges + [e] ensures EndpointsKnown(nodes, x) {
      assert x in edges || x == e;
    }
    IndexEdgesSnoc(nodes, edges, e);
  }

  lemma IndexEdgesSnoc(nodes: seq<DagNode>, edges: seq<DagEdge>, e: DagEdge)
    requires AllKnown(nodes, edges) && EndpointsKnown(nodes, e) && AllKnown(nodes, edges + [e])
    ensures IndexEdges(nodes, edges + [e]) == IndexEdges(nodes, edges) + [(IndexOf(nodes, e.fromKey), IndexOf(nodes, e.toKey))]
  {
    hide AllKnown, HasKey;
    assert forall i :: 0 <= i < |edges| ==> (edges + [e])[i] == edges[i];
  }

  lemma LinkSnoc(links: seq<Edge>, e: Edge)
    ensures forall u: nat :: Targets(links + [e], u) == Targets(links, u) + (if e.0 == u then [e.1] else [])
    ensures forall v: nat :: Waiting(links + [e], [], v) == Waiting(links, [], v) + (if e.1 == v then 1 else 0)
  {
    assert (links + [e])[..|links|] == links;
  }

  /** One more edge: its target joins the source's list, and its indegree grows by one. */
  lemma OneMoreLink(nodes: seq<DagNode>, edges: seq<DagEdge>, index: map<string, nat>, i: nat)
    requires UniqueKeys(nodes) && i < |edges| && AllKnown(nodes, edges[..i])
    requires forall j :: 0 <= j < |nodes| ==> nodes[j].key in index && index[nodes[j].key] == j
    requires forall k :: k in index ==> HasKey(nodes, k)
    requires edges[i].fromKey in index && edges[i].toKey in index
    ensures AllKnown(nodes, edges[..i + 1])
    ensures var f, t := index[edges[i].fromKey], index[edges[i].toKey];
            var links, links' := IndexEdges(nodes, edges[..i]), IndexEdges(nodes, edges[..i + 1]);
            && f < |nodes| && t < |nodes|
            && (forall u: nat :: Targets(links', u) == Targets(links, u) + (if f == u then [t] else []))
            && (forall v: nat :: Waiting(links', [], v) == Waiting(links, [], v) + (if t == v then 1 else 0))
  {
    hide UniqueKeys, AllKnown, IndexEdges, Targets, Waiting, HasKey;
    var e := edges[i];
    assert edges[..i + 1] == edges[..i] + [e];
    assert EndpointsKnown(nodes, e);
    IndexAgrees(nodes, index, e.fromKey);
    IndexAgrees(nodes, index, e.toKey);
    KnownSnoc(nodes, edges[..i], e);
    LinkSnoc(IndexEdges(nodes, edges[..i]), (IndexOf(nodes, e.fromKey), IndexOf(nodes, e.toKey)));
  }

  lemma IndexAgrees(nodes: seq<DagNode>, index: map<string, nat>, key: string)
    requires forall j :: 0 <= j < |nodes| ==> nodes[j].key in index && index[nodes[j].key] == j
    requires HasKey(nodes, key)
    ensures key in index && index[key] == IndexOf(nodes, key) < |nodes|
  {
  }

  /** The node at the front of the queue is new, and popping it appends what it frees. */
  lemma NextPop(n: nat, links: seq<Edge>, p: nat)
    requires InRange(n, links) && p < |Enqueued(n, links, p)|
    ensures var now := Enqueued(n, links, p);
            && now[p] < n && now[p] !in now[..p] && p < n
            && Enqueued(n, links, p + 1) == now + Freed(links, now[..p], now[p], |Targets(links, now[p])|)
            && Enqueued(n, links, p + 1)[..p + 1] == now[..p] + [now[p]]
            && Enqueued(n, links, p + 1)[p + 1..] == now[p..][1..] + Freed(links, now[..p], now[p], |Targets(links, now[p])|)
  {
    hide Waiting, Targets, Freed;
    EnqueuedProperty(n, links, p);
    EnqueuedBounded(n, links, p);
    assert Enqueued(n, links, p)[p] in Enqueued(n, links, p);
  }

  /** All nodes ordered: a valid graph; else a cycle. */
  lemma OrderVerdict(nodes: seq<DagNode>, edges: seq<DagEdge>)
    requires nodes != [] && UniqueKeys(nodes) && AllKnown(nodes, edges)
    ensures if |Order(|nodes|, IndexEdges(nodes, edges))| == |nodes| then IsValid(nodes, edges) else IsErrorOf(nodes, edges, Cycle)
  {
    hide UniqueKeys, AllKnown, KeyCycle, HasCycle, IndexEdges, Order;
    IndexEdgesInRange(nodes, edges);
    CompleteIffAcyclic(|nodes|, IndexEdges(nodes, edges));
    CycleOfKeys(nodes, edges);
  }

  /** Before the first pop the queue holds the roots. */
  lemma FirstQueue(n: nat, links: seq<Edge>)
    ensures Enqueued(n, links, 0)[..0] == [] && Enqueued(n, links, 0)[0..] == RootsBelow(links, n)
  {
  }

  lemma QueueEmpty(n: nat, links: seq<Edge>, p: nat)
    requires p <= n && p == |Enqueued(n, links, p)|
    ensures Order(n, links) == Enqueued(n, links, p) == Enqueued(n, links, p)[..p]
  {
    EmptyQueueStays(n, links, p, n);
  }

  // ----- what the topological order is -----

  lemma OrderIsComplete(g: Graph)
    requires g.nodes != [] && IsValid(g.nodes, g.edges)
    ensures InRange(|g.nodes|, g.Links())
    ensures var order := Order(|g.nodes|, g.Links());
            && |order| == |g.nodes| && Distinct(order) && forall u: nat :: u in order <==> u < |g.nodes|
  {
    hide UniqueKeys, AllKnown, KeyCycle, IndexEdges;
    var n, links := |g.nodes|, g.Links();
    IndexEdgesInRange(g.nodes, g.edges);
    CompleteIffAcyclic(n, links);
    CycleOfKeys(g.nodes, g.edges);
    OrderProperty(n, links);
    forall u: nat | u < n ensures u in Order(n, links) {
      AllOrdered(n, Order(n, links), u);
    }
  }

  lemma TopologicalAt(g: Graph, i: nat)
    requires IsValid(g.nodes, g.edges) && i < |g.nodes|
    ensures |g.Topological()| == |g.nodes| == |Order(|g.nodes|, g.Links())|
    ensures Order(|g.nodes|, g.Links())[i] < |g.nodes|
    ensures g.Topological()[i] == g.nodes[Order(|g.nodes|, g.Links())[i]].key
  {
    OrderIsComplete(g);
    assert Order(|g.nodes|, g.Links())[i] in Order(|g.nodes|, g.Links());
  }

  /** Every node's key appears, and appears once. */
  lemma TopologicalIsPermutation(g: Graph)
    requires IsValid(g.nodes, g.edges)
    ensures |g.Topological()| == |g.nodes|
    ensures forall i, j :: 0 <= i < j < |g.nodes| ==> g.Topological()[i] != g.Topological()[j]
    ensures forall key :: key in g.Topological() <==> HasKey(g.nodes, key)
  {
    hide KeyCycle, IndexEdges, KeysAt, InRange;
    if g.nodes != [] {
      OrderIsComplete(g);
      forall i | 0 <= i < |g.nodes|
        ensures |g.Topological()| == |g.nodes| && Order(|g.nodes|, g.Links())[i] < |g.nodes|
                && g.Topological()[i] == g.nodes[Order(|g.nodes|, g.Links())[i]].key
      {
        TopologicalAt(g, i);
      }
      KeysInOrderProperty(g.nodes, Order(|g.nodes|, g.Links()), g.Topological());
    }
  }

  lemma KeysInOrderProperty(nodes: seq<DagNode>, order: seq<nat>, keys: seq<string>)
    requires |keys| == |nodes| == |order| && UniqueKeys(nodes) && Distinct(order) && forall u: nat :: u in order <==> u < |nodes|
    requires forall i :: 0 <= i < |nodes| ==> order[i] < |nodes| && keys[i] == nodes[order[i]].key
    ensures forall i, j :: 0 <= i < j < |nodes| ==> keys[i] != keys[j]
    ensures forall key :: key in keys <==> HasKey(nodes, key)
  {
    forall i, j | 0 <= i < j < |nodes| ensures keys[i] != keys[j] {
      assert order[i] < order[j] || order[j] < order[i];
    }
    forall key | HasKey(nodes, key) ensures key in keys {
      var u: nat :| u < |nodes| && nodes[u].key == key;
      assert u in order;
      var i :| 0 <= i < |order| && order[i] == u;
      assert keys[i] == key;
    }
  }

  /** Dependencies come first. */
  lemma SourcePrecedesTarget(g: Graph, i: nat, j: nat)
    requires IsValid(g.nodes, g.edges) && i < |g.Topological()| && j < |g.Topological()|
    requires DagEdge(g.Topological()[i], g.Topological()[j]) in g.edges
    ensures i < j
  {
    TopologicalIsPermutation(g);
    OrderIsComplete(g);
    TopologicalAt(g, i);
    TopologicalAt(g, j);
    var n, links := |g.nodes|, g.Links();
    var order := Order(n, links);
    SameEdges(g.nodes, g.edges, order[i], order[j]);
    PredecessorsFirst(n, links, n, j, order[i]);
    EarlierOnly(order, j, i);
  }

  /** The longest chain of dependencies that ends in `key` has d edges. */
  ghost predicate IsKeyDepth(edges: seq<DagEdge>, key: string, d: nat) {
    && (exists path :: IsKeyWalk(edges, path) && path[|path| - 1] == key && |path| == d + 1)
    && (forall path :: IsKeyWalk(edges, path) && path[|path| - 1] == key ==> |path| <= d + 1)
  }

  lemma DepthOfKey(g: Graph, u: nat, d: nat)
    requires g.Linkable() && u < |g.nodes|
    ensures IsDepth(g.Links(), u, d) <==> IsKeyDepth(g.edges, g.nodes[u].key, d)
  {
    var nodes, edges, links, key := g.nodes, g.edges, g.Links(), g.nodes[u].key;
    forall path | IsWalk(links, path) && path[|path| - 1] == u
      ensures exists keys :: IsKeyWalk(edges, keys) && keys[|keys| - 1] == key && |keys| == |path|
    {
      MatchingKeyWalk(g, path);
    }
    forall keys | IsKeyWalk(edges, keys) && keys[|keys| - 1] == key
      ensures exists path :: IsWalk(links, path) && path[|path| - 1] == u && |path| == |keys|
    {
      MatchingWalk(g, u, keys);
    }
  }

  lemma MatchingKeyWalk(g: Graph, path: seq<nat>)
    requires g.Linkable() && IsWalk(g.Links(), path) && path[|path| - 1] < |g.nodes|
    ensures exists keys :: IsKeyWalk(g.edges, keys) && keys[|keys| - 1] == g.nodes[path[|path| - 1]].key && |keys| == |path|
  {
    if |path| > 1 {
      var keys := WalkOfKeys(g.nodes, g.edges, path);
    } else {
      assert IsKeyWalk(g.edges, [g.nodes[path[0]].key]);
    }
  }

  lemma MatchingWalk(g: Graph, u: nat, keys: seq<string>)
    requires g.Linkable() && u < |g.nodes| && IsKeyWalk(g.edges, keys) && keys[|keys| - 1] == g.nodes[u].key
    ensures exists path :: IsWalk(g.Links(), path) && path[|path| - 1] == u && |path| == |keys|
  {
    if |keys| > 1 {
      var path := WalkOfIndices(g.nodes, g.edges, keys);
      assert path[|path| - 1] == u;
    } else {
      assert IsWalk(g.Links(), [u]);
    }
  }

  /** First in, first out gives layers: every key has a depth, and depths never decrease along the order. */
  lemma TopologicalIsLayered(g: Graph, i: nat, j: nat) returns (d: nat, e: nat)
    requires IsValid(g.nodes, g.edges) && i < j < |g.Topological()|
    ensures IsKeyDepth(g.edges, g.Topological()[i], d) && IsKeyDepth(g.edges, g.Topological()[j], e) && d <= e
  {
    hide UniqueKeys, AllKnown, KeyCycle, IsDepth, IsKeyDepth;
    TopologicalIsPermutation(g);
    OrderIsComplete(g);
    TopologicalAt(g, i);
    TopologicalAt(g, j);
    var n, links := |g.nodes|, g.Links();
    var order := Order(n, links);
    d, e := Levels(n, links, n)[i], Levels(n, links, n)[j];
    LevelIsDepth(n, links, i);
    LevelIsDepth(n, links, j);
    OrderIsLayered(n, links, i, j, d, e);
    DepthOfKey(g, order[i], d);
    DepthOfKey(g, order[j], e);
  }

  /** The depth of a key is unique, so the depths above are the depths. */
  lemma KeyDepthUnique(edges: seq<DagEdge>, key: string, d: nat, e: nat)
    requires IsKeyDepth(edges, key, d) && IsKeyDepth(edges, key, e)
    ensures d == e
  {
  }

  /** Position p holds the last of the dependencies of the key at position i. */
  ghost predicate LastDependency(edges: seq<DagEdge>, order: seq<string>, i: nat, p: nat) {
    && i < |order| && p < |order| && DagEdge(order[p], order[i]) in edges
    && forall j :: 0 <= j < |order| && DagEdge(order[j], order[i]) in edges ==> j <= p
  }

  /** Within a layer: of two keys the one whose last dependency is done earlier stands first; if it is the same one, the order is
      that of its edges to the two, the last of each counting. */
  lemma TieBreak(g: Graph, i: nat, j: nat, p: nat, q: nat)
    requires IsValid(g.nodes, g.edges) && i < j
    requires LastDependency(g.edges, g.Topological(), i, p) && LastDependency(g.edges, g.Topological(), j, q)
    ensures p <= q
    ensures p == q ==>
              var keys := g.Topological();
              exists y :: 0 <= y < |g.edges| && g.edges[y] == DagEdge(keys[p], keys[j])
                          && forall x :: 0 <= x < |g.edges| && g.edges[x] == DagEdge(keys[p], keys[i]) ==> x < y
  {
    hide UniqueKeys, AllKnown, KeyCycle, IndexEdges, KeysAt, LastEdgeBefore, LastPredecessor;
    TopologicalIsPermutation(g);
    OrderIsComplete(g);
    var n, links := |g.nodes|, g.Links();
    var order := Order(n, links);
    LastInOrder(g, i, p);
    LastInOrder(g, j, q);
    OrderTieBreak(n, links, i, j, p, q);
    if p == q {
      EdgesAlike(g, p, i, j);
    }
  }

  lemma LastInOrder(g: Graph, i: nat, p: nat)
    requires IsValid(g.nodes, g.edges) && g.nodes != [] && LastDependency(g.edges, g.Topological(), i, p)
    requires |g.Topological()| == |g.nodes| == |Order(|g.nodes|, g.Links())|
    ensures LastPredecessor(g.Links(), Order(|g.nodes|, g.Links()), i, p)
  {
    hide UniqueKeys, AllKnown, KeyCycle, IndexEdges, KeysAt, Order;
    var n, links := |g.nodes|, g.Links();
    var order := Order(n, links);
    TopologicalAt(g, i);
    forall j | 0 <= j < n ensures (order[j], order[i]) in links <==> DagEdge(g.Topological()[j], g.Topological()[i]) in g.edges {
      TopologicalAt(g, j);
      SameEdges(g.nodes, g.edges, order[j], order[i]);
    }
  }

  lemma EdgesAlike(g: Graph, p: nat, i: nat, j: nat)
    requires IsValid(g.nodes, g.edges) && g.nodes != [] && p < |g.nodes| && i < |g.nodes| && j < |g.nodes|
    requires |g.Topological()| == |g.nodes| == |Order(|g.nodes|, g.Links())|
    requires var order := Order(|g.nodes|, g.Links()); LastEdgeBefore(g.Links(), order[p], order[i], order[j])
    ensures var keys := g.Topological();
            exists y :: 0 <= y < |g.edges| && g.edges[y] == DagEdge(keys[p], keys[j])
                        && forall x :: 0 <= x < |g.edges| && g.edges[x] == DagEdge(keys[p], keys[i]) ==> x < y
  {
    hide KeyCycle, KeysAt, Order;
    var links := g.Links();
    var order := Order(|g.nodes|, links);
    TopologicalAt(g, p);
    TopologicalAt(g, i);
    TopologicalAt(g, j);
    var y :| 0 <= y < |links| && links[y] == (order[p], order[j])
             && forall x :: 0 <= x < |links| && links[x] == (order[p], order[i]) ==> x < y;
    LinkAt(g, y);
    forall x | 0 <= x < |g.edges| && g.edges[x] == DagEdge(g.Topological()[p], g.Topological()[i]) ensures x < y {
      LinkAt(g, x);
      SameIndex(g.nodes, links[x].0, order[p]);
      SameIndex(g.nodes, links[x].1, order[i]);
    }
  }

  /** A link stands where its edge does. */
  lemma LinkAt(g: Graph, x: nat)
    requires g.Linkable() && x < |g.edges|
    ensures |g.Links()| == |g.edges| && g.Links()[x].0 < |g.nodes| && g.Links()[x].1 < |g.nodes|
    ensures g.edges[x] == DagEdge(g.nodes[g.Links()[x].0].key, g.nodes[g.Links()[x].1].key)
  {
    assert g.edges[x] in g.edges;
  }

  lemma SameIndex(nodes: seq<DagNode>, a: nat, b: nat)
    requires UniqueKeys(nodes) && a < |nodes| && b < |nodes| && nodes[a].key == nodes[b].key
    ensures a == b
  {
  }

  lemma {:induction false} RootKeys(g: Graph, k: nat)
    requires g.Linkable() && k <= |g.nodes|
    ensures var roots, keyed := RootsBelow(g.Links(), k), RootNodes(g.nodes[..k], g.edges);
            |roots| == |keyed| && forall i :: 0 <= i < |roots| ==> roots[i] < |g.nodes| && keyed[i] == g.nodes[roots[i]]
  {
    if k > 0 {
      hide IndexEdges, HasIncoming, Waiting, AllKnown, UniqueKeys;
      RootKeys(g, k - 1);
      LastRoot(g, k);
      hide RootsBelow, RootNodes;
    }
  }

  /** The k-th node is a root for both, or for neither. */
  lemma LastRoot(g: Graph, k: nat)
    requires g.Linkable() && 0 < k <= |g.nodes|
    ensures RootsBelow(g.Links(), k)
            == RootsBelow(g.Links(), k - 1) + (if HasIncoming(g.edges, g.nodes[k - 1].key) then [] else [k - 1])
    ensures RootNodes(g.nodes[..k], g.edges)
            == RootNodes(g.nodes[..k - 1], g.edges) + (if HasIncoming(g.edges, g.nodes[k - 1].key) then [] else [g.nodes[k - 1]])
  {
    hide IndexEdges, HasIncoming, Waiting, AllKnown, UniqueKeys;
    assert g.nodes[..k][..k - 1] == g.nodes[..k - 1];
    WaitingZero(g.Links(), [], k - 1);
    RootWaitsForNone(g, k - 1);
  }

  lemma RootWaitsForNone(g: Graph, v: nat)
    requires g.Linkable() && v < |g.nodes|
    ensures (forall e :: e in g.Links() ==> e.1 != v) <==> !HasIncoming(g.edges, g.nodes[v].key)
  {
    if HasIncoming(g.edges, g.nodes[v].key) {
      var j :| 0 <= j < |g.edges| && g.edges[j].toKey == g.nodes[v].key;
      assert g.Links()[j] in g.Links() && g.Links()[j].1 == v;
    }
  }

  /** The order starts with the keys of `Roots()`, in node order. */
  lemma RootsLead(g: Graph)
    requires IsValid(g.nodes, g.edges)
    ensures var roots := RootNodes(g.nodes, g.edges);
            |roots| <= |g.Topological()| && forall i :: 0 <= i < |roots| ==> g.Topological()[i] == roots[i].key
  {
    TopologicalIsPermutation(g);
    if g.nodes != [] {
      var n, links := |g.nodes|, g.Links();
      OrderIsComplete(g);
      RootKeys(g, n);
      assert g.nodes[..n] == g.nodes;
      RootsFirst(n, links);
      forall i | 0 <= i < |RootNodes(g.nodes, g.edges)| ensures g.Topological()[i] == RootNodes(g.nodes, g.edges)[i].key {
        TopologicalAt(g, i);
        assert Order(n, links)[i] == RootsBelow(links, n)[i];
      }
    }
  }
}
