/**
  Kahn's algorithm with a FIFO queue, on node indices 0..n and a list of index edges, as a function: `Enqueued(n, edges, p)`
  is everything ever put on the queue by the time p nodes have been popped, so its first p elements are the popped ones.
*/
module DagKahn {
  import opened Sorting

  type Edge = (nat, nat)

  ghost predicate InRange(n: nat, edges: seq<Edge>) {
    forall e :: e in edges ==> e.0 < n && e.1 < n
  }

  /** Copies of edges into v whose source is not among `popped`. */
  ghost function Waiting(edges: seq<Edge>, popped: seq<nat>, v: nat): nat {
    if edges == [] then 0
    else Waiting(edges[..|edges| - 1], popped, v)
         + (if edges[|edges| - 1].1 == v && edges[|edges| - 1].0 !in popped then 1 else 0)
  }

  /** Targets of the edges leaving u, in edge order, copies included. */
  function Targets(edges: seq<Edge>, u: nat): seq<nat> {
    if edges == [] then []
    else Targets(edges[..|edges| - 1], u) + (if edges[|edges| - 1].0 == u then [edges[|edges| - 1].1] else [])
  }

  function Count(s: seq<nat>, v: nat): nat { multiset(s)[v] }

  /** Nodes 0..k without incoming edges, ascending. */
  ghost function RootsBelow(edges: seq<Edge>, k: nat): seq<nat> {
    if k == 0 then []
    else RootsBelow(edges, k - 1) + (if Waiting(edges, [], k - 1) == 0 then [k - 1] else [])
  }

  /** Among the first j targets of u, those whose last waiting edge is removed there, when `popped` are done and u is being popped. */
  ghost function Freed(edges: seq<Edge>, popped: seq<nat>, u: nat, j: nat): seq<nat>
    requires j <= |Targets(edges, u)|
  {
    if j == 0 then []
    else
      var v := Targets(edges, u)[j - 1];
      Freed(edges, popped, u, j - 1)
      + (if Waiting(edges, popped, v) == Count(Targets(edges, u)[..j], v) then [v] else [])
  }

  ghost function Enqueued(n: nat, edges: seq<Edge>, p: nat): seq<nat> {
    if p == 0 then RootsBelow(edges, n)
    else
      var before := Enqueued(n, edges, p - 1);
      if p <= |before| then
        before + Freed(edges, before[..p - 1], before[p - 1], |Targets(edges, before[p - 1])|)
      else before
  }

  // ----- counting -----

  lemma {:induction false} WaitingZero(edges: seq<Edge>, popped: seq<nat>, v: nat)
    ensures Waiting(edges, popped, v) == 0 <==> forall e :: e in edges && e.1 == v ==> e.0 in popped
  {
    if edges != [] {
      var front, last := edges[..|edges| - 1], edges[|edges| - 1];
      assert edges == front + [last];
      WaitingZero(front, popped, v);
    }
  }

  /** Popping u removes exactly u's edges from what v waits for. */
  lemma {:induction false} WaitingPop(edges: seq<Edge>, popped: seq<nat>, u: nat, v: nat)
    requires u !in popped
    ensures Waiting(edges, popped, v) == Waiting(edges, popped + [u], v) + Count(Targets(edges, u), v)
  {
    if edges != [] {
      WaitingPop(edges[..|edges| - 1], popped, u, v);
    }
  }

  lemma {:induction false} TargetsAreEdges(edges: seq<Edge>, u: nat, v: nat)
    ensures v in Targets(edges, u) <==> (u, v) in edges
  {
    if edges != [] {
      var front, last := edges[..|edges| - 1], edges[|edges| - 1];
      assert edges == front + [last];
      TargetsAreEdges(front, u, v);
      if last == (u, v) {
        assert v in Targets(edges, u);
      }
    }
  }

  lemma CountSplit(s: seq<nat>, j: nat, v: nat)
    requires 0 < j <= |s|
    ensures Count(s[..j], v) == Count(s[..j - 1], v) + (if s[j - 1] == v then 1 else 0)
    ensures Count(s[..j], v) <= Count(s, v)
  {
    assert s[..j] == s[..j - 1] + [s[j - 1]];
    assert s == s[..j] + s[j..];
  }

  // ----- what is enqueued -----

  lemma {:induction false} RootsProperty(edges: seq<Edge>, k: nat)
    ensures forall i :: 0 <= i < |RootsBelow(edges, k)| ==> RootsBelow(edges, k)[i] < k
    ensures forall i, j :: 0 <= i < j < |RootsBelow(edges, k)| ==> RootsBelow(edges, k)[i] < RootsBelow(edges, k)[j]
    ensures forall v: nat :: v in RootsBelow(edges, k) <==> v < k && Waiting(edges, [], v) == 0
  {
    if k > 0 {
      RootsProperty(edges, k - 1);
    }
  }

  /** u's targets are freed exactly when nothing else is waited for, each once. */
  lemma {:induction false} FreedProperty(edges: seq<Edge>, popped: seq<nat>, u: nat, j: nat)
    requires j <= |Targets(edges, u)|
    ensures forall v :: v in Freed(edges, popped, u, j) <==>
              v in Targets(edges, u)[..j] && Waiting(edges, popped, v) <= Count(Targets(edges, u)[..j], v) && Waiting(edges, popped, v) > 0
    ensures Distinct(Freed(edges, popped, u, j))
  {
    if j > 0 {
      var t := Targets(edges, u);
      var v := t[j - 1];
      FreedProperty(edges, popped, u, j - 1);
      assert t[..j] == t[..j - 1] + [v];
      forall x ensures x in Freed(edges, popped, u, j) <==>
                         x in t[..j] && Waiting(edges, popped, x) <= Count(t[..j], x) && Waiting(edges, popped, x) > 0
      {
        CountSplit(t, j, x);
        if x == v {
          assert Count(t[..j], v) > 0;
        }
      }
    }
  }

  // ----- the queue -----

  /** Seen holds exactly the nodes below n that wait for none but the popped ones, each once. */
  ghost predicate Frontier(n: nat, edges: seq<Edge>, popped: seq<nat>, seen: seq<nat>) {
    && Distinct(seen)
    && forall v: nat :: v in seen <==> v < n && Waiting(edges, popped, v) == 0
  }

  /** Popping u and appending what it frees keeps the frontier. */
  lemma FrontierStep(n: nat, edges: seq<Edge>, popped: seq<nat>, seen: seq<nat>, u: nat)
    requires InRange(n, edges) && Frontier(n, edges, popped, seen) && u !in popped
    ensures Frontier(n, edges, popped + [u], seen + Freed(edges, popped, u, |Targets(edges, u)|))
  {
    hide Waiting, Targets, Freed;
    var t := Targets(edges, u);
    var freed := Freed(edges, popped, u, |t|);
    FreedProperty(edges, popped, u, |t|);
    assert t[..|t|] == t;
    forall v: nat ensures v in seen + freed <==> v < n && Waiting(edges, popped + [u], v) == 0 {
      WaitingPop(edges, popped, u, v);
      TargetsAreEdges(edges, u, v);
    }
    DistinctConcat(seen, freed);
  }

  lemma DistinctConcat(a: seq<nat>, b: seq<nat>)
    requires Distinct(a) && Distinct(b) && forall v :: v in a ==> v !in b
    ensures Distinct(a + b)
  {
    forall i, j | 0 <= i < j < |a + b| ensures (a + b)[i] != (a + b)[j] {
      if i < |a| <= j {
        assert a[i] in a && b[j - |a|] in b;
      }
    }
  }

  /** Every node is enqueued at most once, exactly when all its predecessors have been popped. */
  lemma {:induction false} EnqueuedProperty(n: nat, edges: seq<Edge>, p: nat)
    requires InRange(n, edges) && p <= |Enqueued(n, edges, p)|
    ensures Frontier(n, edges, Enqueued(n, edges, p)[..p], Enqueued(n, edges, p))
  {
    hide Waiting, Targets, Freed;
    if p == 0 {
      RootsProperty(edges, n);
      assert Enqueued(n, edges, 0)[..0] == [];
    } else {
      var before := Enqueued(n, edges, p - 1);
      PoppedExisted(n, edges, p);
      EnqueuedProperty(n, edges, p - 1);
      FrontierStep(n, edges, before[..p - 1], before, before[p - 1]);
      assert Enqueued(n, edges, p)[..p] == before[..p - 1] + [before[p - 1]];
    }
  }

  /** If p nodes can be popped, the p-th was already enqueued when p-1 had been. */
  lemma PoppedExisted(n: nat, edges: seq<Edge>, p: nat)
    requires 0 < p <= |Enqueued(n, edges, p)|
    ensures p <= |Enqueued(n, edges, p - 1)|
  {
  }

  lemma {:induction false} EnqueuedGrows(n: nat, edges: seq<Edge>, p: nat, q: nat)
    requires p <= q
    ensures |Enqueued(n, edges, p)| <= |Enqueued(n, edges, q)|
    ensures Enqueued(n, edges, q)[..|Enqueued(n, edges, p)|] == Enqueued(n, edges, p)
    decreases q - p
  {
    if p < q {
      EnqueuedGrows(n, edges, p, q - 1);
    }
  }

  lemma {:induction false} DistinctBounded(n: nat, s: seq<nat>)
    requires Distinct(s) && forall v :: v in s ==> v < n
    ensures |s| <= n
  {
    assert s != [] ==> s[0] in s;
    if n == 0 {
    } else if n - 1 in s {
      var i :| 0 <= i < |s| && s[i] == n - 1;
      var rest := s[..i] + s[i + 1..];
      forall v | v in rest ensures v < n - 1 {
        assert v in s;
      }
      DistinctBounded(n - 1, rest);
    } else {
      DistinctBounded(n - 1, s);
    }
  }

  /** The order in which nodes are popped until the queue is empty. */
  ghost function Order(n: nat, edges: seq<Edge>): seq<nat> { Enqueued(n, edges, n) }

  /** Once the queue is empty nothing is enqueued any more. */
  lemma {:induction false} EmptyQueueStays(n: nat, edges: seq<Edge>, p: nat, q: nat)
    requires p <= q && |Enqueued(n, edges, p)| == p
    ensures Enqueued(n, edges, q) == Enqueued(n, edges, p)
    decreases q - p
  {
    if p < q {
      EmptyQueueStays(n, edges, p, q - 1);
    }
  }

  lemma EnqueuedBounded(n: nat, edges: seq<Edge>, p: nat)
    requires InRange(n, edges) && p <= |Enqueued(n, edges, p)|
    ensures |Enqueued(n, edges, p)| <= n
  {
    EnqueuedProperty(n, edges, p);
    DistinctBounded(n, Enqueued(n, edges, p));
  }

  /** The queue empties after at most n pops; the order is then all that was enqueued. */
  lemma {:induction false} QueueEmpties(n: nat, edges: seq<Edge>, p: nat) returns (stop: nat)
    requires InRange(n, edges) && p <= |Enqueued(n, edges, p)| && p <= n
    ensures p <= stop <= n && |Enqueued(n, edges, stop)| == stop && Enqueued(n, edges, stop) == Order(n, edges)
    decreases n - p
  {
    EnqueuedBounded(n, edges, p);
    if p == |Enqueued(n, edges, p)| {
      stop := p;
      EmptyQueueStays(n, edges, p, n);
    } else {
      EnqueuedGrows(n, edges, p, p + 1);
      stop := QueueEmpties(n, edges, p + 1);
    }
  }

  lemma OrderProperty(n: nat, edges: seq<Edge>)
    requires InRange(n, edges)
    ensures Distinct(Order(n, edges))
    ensures forall v: nat :: v in Order(n, edges) <==> v < n && forall e :: e in edges && e.1 == v ==> e.0 in Order(n, edges)
    ensures |Order(n, edges)| <= n
  {
    var stop := QueueEmpties(n, edges, 0);
    EnqueuedProperty(n, edges, stop);
    EnqueuedBounded(n, edges, stop);
    assert Order(n, edges)[..stop] == Order(n, edges);
    forall v: nat ensures v in Order(n, edges) <==> v < n && forall e :: e in edges && e.1 == v ==> e.0 in Order(n, edges) {
      WaitingZero(edges, Order(n, edges), v);
    }
  }

  // ----- predecessors first -----

  /** Whatever stands at position i was enqueued after all its predecessors had been popped, which stand before i. */
  lemma {:induction false} PredecessorsFirst(n: nat, edges: seq<Edge>, p: nat, i: nat, a: nat)
    requires InRange(n, edges) && p <= |Enqueued(n, edges, p)| && i < |Enqueued(n, edges, p)|
    requires (a, Enqueued(n, edges, p)[i]) in edges
    ensures a in Enqueued(n, edges, p)[..i]
  {
    var now := Enqueued(n, edges, p);
    EnqueuedProperty(n, edges, p);
    WaitingZero(edges, now[..p], now[i]);
    assert now[i] in now;
    assert a in now[..p];
    if i < p {
      assert p > 0;
      PoppedExisted(n, edges, p);
      PredecessorsFirst(n, edges, p - 1, i, a);
      assert Enqueued(n, edges, p - 1)[..i] == now[..i];
    } else {
      assert now[..p] <= now[..i];
    }
  }

  // ----- cycles -----

  ghost predicate IsWalk(edges: seq<Edge>, path: seq<nat>) {
    |path| > 0 && forall i :: 0 <= i < |path| - 1 ==> (path[i], path[i + 1]) in edges
  }

  /** Some node reaches itself along at least one edge. */
  ghost predicate HasCycle(edges: seq<Edge>) {
    exists path :: IsWalk(edges, path) && |path| > 1 && path[0] == path[|path| - 1]
  }

  /** An order of all nodes has room for no cycle: positions grow along edges. */
  lemma {:induction false} WalkAdvances(n: nat, edges: seq<Edge>, path: seq<nat>, i: nat) returns (j: nat)
    requires InRange(n, edges) && |Order(n, edges)| == n
    requires IsWalk(edges, path) && |path| > 1 && i < n && Order(n, edges)[i] == path[|path| - 1]
    ensures j < i && Order(n, edges)[j] == path[0]
    decreases |path|
  {
    hide Order, IsWalk, InRange;
    WalkPrefix(edges, path, |path| - 1);
    j := StepBack(n, edges, path, i);
    if |path| > 2 {
      j := WalkAdvances(n, edges, path[..|path| - 1], j);
    }
  }

  /** The last but one node of a walk stands before the last. */
  lemma StepBack(n: nat, edges: seq<Edge>, path: seq<nat>, i: nat) returns (j: nat)
    requires InRange(n, edges) && |Order(n, edges)| == n
    requires IsWalk(edges, path) && |path| > 1 && i < n && Order(n, edges)[i] == path[|path| - 1]
    ensures j < i && Order(n, edges)[j] == path[|path| - 2]
  {
    var prev := path[|path| - 2];
    assert (path[|path| - 2], path[|path| - 2 + 1]) in edges;
    PredecessorsFirst(n, edges, n, i, prev);
    hide Enqueued, InRange, IsWalk;
    j :| 0 <= j < i && Order(n, edges)[..i][j] == prev;
  }

  lemma CompleteOrderIsAcyclic(n: nat, edges: seq<Edge>)
    requires InRange(n, edges) && |Order(n, edges)| == n
    ensures !HasCycle(edges)
  {
    OrderProperty(n, edges);
    if path :| IsWalk(edges, path) && |path| > 1 && path[0] == path[|path| - 1] {
      assert (path[0], path[0 + 1]) in edges;
      AllOrdered(n, Order(n, edges), path[0]);
      var i :| 0 <= i < n && Order(n, edges)[i] == path[0];
      var j := WalkAdvances(n, edges, path, i);
    }
  }

  /** n distinct numbers below n are all of them. */
  lemma {:induction false} AllOrdered(n: nat, s: seq<nat>, v: nat)
    requires Distinct(s) && |s| == n && v < n && forall x :: x in s ==> x < n
    ensures v in s
  {
    if v !in s {
      var longer := s + [v];
      DistinctBounded(n, longer);
    }
  }

  /** Nodes that never become free wait for one another; following them backwards closes a cycle. */
  lemma {:induction false} StuckNodesCycle(n: nat, edges: seq<Edge>, path: seq<nat>)
    requires InRange(n, edges) && IsWalk(edges, path) && Distinct(path)
    requires forall v :: v in path ==> v < n && v !in Order(n, edges)
    ensures HasCycle(edges)
    decreases n - |path|
  {
    hide Order;
    OrderProperty(n, edges);
    assert path[0] in path;
    var e :| e in edges && e.1 == path[0] && e.0 !in Order(n, edges);
    assert (e.0, path[0]) in edges by { assert e == (e.0, path[0]); }
    WalkCons(edges, e.0, path);
    if e.0 in path {
      var j :| 0 <= j < |path| && path[j] == e.0;
      var cycle := ([e.0] + path)[..j + 2];
      WalkPrefix(edges, [e.0] + path, j + 2);
      assert cycle[|cycle| - 1] == e.0 == cycle[0];
    } else {
      var longer := [e.0] + path;
      DistinctCons(e.0, path);
      DistinctBounded(n, longer);
      StuckNodesCycle(n, edges, longer);
    }
  }

  lemma WalkCons(edges: seq<Edge>, u: nat, path: seq<nat>)
    requires IsWalk(edges, path) && (u, path[0]) in edges
    ensures IsWalk(edges, [u] + path)
  {
    var longer := [u] + path;
    forall i | 0 <= i < |longer| - 1 ensures (longer[i], longer[i + 1]) in edges {
      if i > 0 {
        assert (path[i - 1], path[i - 1 + 1]) in edges;
      }
    }
  }

  lemma WalkPrefix(edges: seq<Edge>, path: seq<nat>, k: nat)
    requires IsWalk(edges, path) && 0 < k <= |path|
    ensures IsWalk(edges, path[..k])
  {
    forall i | 0 <= i < k - 1 ensures (path[..k][i], path[..k][i + 1]) in edges {
      assert (path[i], path[i + 1]) in edges;
    }
  }

  lemma DistinctCons(u: nat, s: seq<nat>)
    requires Distinct(s) && u !in s
    ensures Distinct([u] + s)
  {
  }

  lemma {:induction false} NodeLeftOut(n: nat, s: seq<nat>) returns (v: nat)
    requires Distinct(s) && |s| < n
    ensures v < n && v !in s
  {
    if v' :| 0 <= v' < n && v' !in s {
      v := v';
    } else {
      AllBelowIn(n, s);
    }
  }

  lemma {:induction false} AllBelowIn(n: nat, s: seq<nat>)
    requires Distinct(s) && forall v: nat :: v < n ==> v in s
    ensures |s| >= n
  {
    if n > 0 {
      var top: nat := n - 1;
      assert top in s;
      var i :| 0 <= i < |s| && s[i] == top;
      var rest := s[..i] + s[i + 1..];
      forall v: nat | v < n - 1 ensures v in rest {
        assert v in s;
        var k :| 0 <= k < |s| && s[k] == v;
        assert if k < i then rest[k] == v else rest[k - 1] == v;
      }
      AllBelowIn(n - 1, rest);
    }
  }

  /** The order is complete exactly when the edges have no cycle. */
  lemma CompleteIffAcyclic(n: nat, edges: seq<Edge>)
    requires InRange(n, edges)
    ensures |Order(n, edges)| == n <==> !HasCycle(edges)
  {
    OrderProperty(n, edges);
    if |Order(n, edges)| == n {
      CompleteOrderIsAcyclic(n, edges);
    } else {
      var v := NodeLeftOut(n, Order(n, edges));
      StuckNodesCycle(n, edges, [v]);
    }
  }

  // ----- layers -----

  /** For each enqueued node, one more than the level of the node whose popping freed it; roots have level 0. */
  ghost function Levels(n: nat, edges: seq<Edge>, p: nat): (levels: seq<nat>)
    ensures |levels| == |Enqueued(n, edges, p)|
  {
    if p == 0 then seq(|RootsBelow(edges, n)|, i => 0)
    else
      var before, levels := Enqueued(n, edges, p - 1), Levels(n, edges, p - 1);
      if p <= |before| then
        var freed := Freed(edges, before[..p - 1], before[p - 1], |Targets(edges, before[p - 1])|);
        levels + seq(|freed|, i => levels[p - 1] + 1)
      else levels
  }

  /** Because the queue is first in, first out, levels never decrease and the queue spans two of them at most. */
  lemma {:induction false} LevelsSorted(n: nat, edges: seq<Edge>, p: nat)
    requires p <= |Enqueued(n, edges, p)|
    ensures var levels := Levels(n, edges, p);
            && (forall i, j :: 0 <= i < j < |levels| ==> levels[i] <= levels[j])
            && (p < |levels| ==> forall i :: 0 <= i < |levels| ==> levels[i] <= levels[p] + 1)
            && (p > 0 ==> forall i :: 0 <= i < |levels| ==> levels[i] <= levels[p - 1] + 1)
  {
    hide Freed, Targets, RootsBelow;
    if p > 0 {
      PoppedExisted(n, edges, p);
      LevelsSorted(n, edges, p - 1);
    }
  }

  /** A node's predecessors have lower levels, and above level 0 one of them is exactly one level lower. */
  lemma {:induction false} LevelStep(n: nat, edges: seq<Edge>, p: nat, i: nat)
    requires InRange(n, edges) && p <= |Enqueued(n, edges, p)| && i < |Enqueued(n, edges, p)|
    ensures var now, levels := Enqueued(n, edges, p), Levels(n, edges, p);
            && (forall j :: 0 <= j < |now| && (now[j], now[i]) in edges ==> levels[j] < levels[i])
            && (levels[i] > 0 ==> exists j :: 0 <= j < |now| && (now[j], now[i]) in edges && levels[j] == levels[i] - 1)
  {
    hide Waiting, Targets, Freed;
    var now, levels := Enqueued(n, edges, p), Levels(n, edges, p);
    EnqueuedProperty(n, edges, p);
    LevelsSorted(n, edges, p);
    assert now[i] in now;
    if p == 0 {
      forall j | 0 <= j < |now| && (now[j], now[i]) in edges ensures false {
        PredecessorsFirst(n, edges, 0, i, now[j]);
        EarlierOnly(now, i, j);
        WaitingZero(edges, now[..0], now[i]);
      }
    } else {
      PoppedExisted(n, edges, p);
      var before := Enqueued(n, edges, p - 1);
      if i < |before| {
        LevelStep(n, edges, p - 1, i);
        forall j | 0 <= j < |now| && (now[j], now[i]) in edges ensures levels[j] < levels[i] {
          PredecessorsFirst(n, edges, p, i, now[j]);
          EarlierOnly(now, i, j);
          assert before[j] == now[j];
        }
        if levels[i] > 0 {
          var j :| 0 <= j < |before| && (before[j], before[i]) in edges && Levels(n, edges, p - 1)[j] == levels[i] - 1;
          assert now[j] == before[j] && levels[j] == levels[i] - 1;
        }
      } else {
        FreedByPopped(n, edges, p, i);
      }
    }
  }

  lemma EarlierOnly(s: seq<nat>, i: nat, j: nat)
    requires Distinct(s) && i < |s| && j < |s| && s[j] in s[..i]
    ensures j < i
  {
    var k :| 0 <= k < i && s[..i][k] == s[j];
    assert s[k] == s[j];
  }

  /** A node enqueued by the p-th pop has that node as a predecessor, and all its predecessors among the first p. */
  lemma FreedByPopped(n: nat, edges: seq<Edge>, p: nat, i: nat)
    requires InRange(n, edges) && 0 < p <= |Enqueued(n, edges, p)|
    requires |Enqueued(n, edges, p - 1)| <= i < |Enqueued(n, edges, p)|
    ensures var now, levels := Enqueued(n, edges, p), Levels(n, edges, p);
            && (now[p - 1], now[i]) in edges && levels[p - 1] == levels[i] - 1
            && (forall j :: 0 <= j < |now| && (now[j], now[i]) in edges ==> levels[j] < levels[i])
  {
    hide Waiting, Targets, Freed;
    PoppedExisted(n, edges, p);
    var now, before := Enqueued(n, edges, p), Enqueued(n, edges, p - 1);
    var u, levels := before[p - 1], Levels(n, edges, p);
    var freed := Freed(edges, before[..p - 1], u, |Targets(edges, u)|);
    FreedProperty(edges, before[..p - 1], u, |Targets(edges, u)|);
    assert now[i] == freed[i - |before|] && now[i] in freed;
    assert Targets(edges, u)[..|Targets(edges, u)|] == Targets(edges, u);
    TargetsAreEdges(edges, u, now[i]);
    EnqueuedProperty(n, edges, p);
    LevelsSorted(n, edges, p);
    WaitingZero(edges, now[..p], now[i]);
    assert now[i] in now;
    forall j | 0 <= j < |now| && (now[j], now[i]) in edges ensures levels[j] < levels[i] {
      assert now[j] in now[..p];
      EarlierOnly(now, p, j);
    }
  }

  /** Node v is reached by a walk of d edges and by none longer. */
  ghost predicate IsDepth(edges: seq<Edge>, v: nat, d: nat) {
    && (exists path :: IsWalk(edges, path) && path[|path| - 1] == v && |path| == d + 1)
    && (forall path :: IsWalk(edges, path) && path[|path| - 1] == v ==> |path| <= d + 1)
  }

  lemma {:induction false} WalkBelowLevel(n: nat, edges: seq<Edge>, i: nat, path: seq<nat>)
    requires InRange(n, edges) && |Order(n, edges)| == n && i < n
    requires IsWalk(edges, path) && path[|path| - 1] == Order(n, edges)[i]
    ensures |path| <= Levels(n, edges, n)[i] + 1
    decreases |path|
  {
    hide Enqueued, Levels;
    if |path| > 1 {
      var prev := path[|path| - 2];
      assert (path[|path| - 2], path[|path| - 2 + 1]) in edges;
      PredecessorsFirst(n, edges, n, i, prev);
      var j :| 0 <= j < i && Order(n, edges)[..i][j] == prev;
      LevelStep(n, edges, n, i);
      assert Order(n, edges)[j] == prev;
      var shorter := path[..|path| - 1];
      WalkPrefix(edges, path, |path| - 1);
      WalkBelowLevel(n, edges, j, shorter);
    }
  }

  lemma {:induction false} WalkOfLevel(n: nat, edges: seq<Edge>, i: nat) returns (path: seq<nat>)
    requires InRange(n, edges) && |Order(n, edges)| == n && i < n
    ensures IsWalk(edges, path) && path[|path| - 1] == Order(n, edges)[i] && |path| == Levels(n, edges, n)[i] + 1
    decreases Levels(n, edges, n)[i]
  {
    hide Enqueued, Levels;
    LevelStep(n, edges, n, i);
    if Levels(n, edges, n)[i] == 0 {
      path := [Order(n, edges)[i]];
    } else {
      var j :| 0 <= j < n && (Order(n, edges)[j], Order(n, edges)[i]) in edges
               && Levels(n, edges, n)[j] == Levels(n, edges, n)[i] - 1;
      var front := WalkOfLevel(n, edges, j);
      path := front + [Order(n, edges)[i]];
      assert IsWalk(edges, path) by {
        forall k | 0 <= k < |path| - 1 ensures (path[k], path[k + 1]) in edges {
          if k < |front| - 1 {
            assert (front[k], front[k + 1]) in edges;
          }
        }
      }
    }
  }

  lemma LevelIsDepth(n: nat, edges: seq<Edge>, i: nat)
    requires InRange(n, edges) && |Order(n, edges)| == n && i < n
    ensures IsDepth(edges, Order(n, edges)[i], Levels(n, edges, n)[i])
  {
    var path := WalkOfLevel(n, edges, i);
    forall other | IsWalk(edges, other) && other[|other| - 1] == Order(n, edges)[i]
      ensures |other| <= Levels(n, edges, n)[i] + 1
    {
      WalkBelowLevel(n, edges, i, other);
    }
  }

  /** Nodes come in layers: in non-decreasing order of their longest walk from a root. */
  lemma OrderIsLayered(n: nat, edges: seq<Edge>, i: nat, j: nat, d: nat, e: nat)
    requires InRange(n, edges) && |Order(n, edges)| == n && i < j < n
    requires IsDepth(edges, Order(n, edges)[i], d) && IsDepth(edges, Order(n, edges)[j], e)
    ensures d <= e
  {
    LevelIsDepth(n, edges, i);
    LevelIsDepth(n, edges, j);
    LevelsSorted(n, edges, n);
    DepthUnique(edges, Order(n, edges)[i], d, Levels(n, edges, n)[i]);
    DepthUnique(edges, Order(n, edges)[j], e, Levels(n, edges, n)[j]);
  }

  lemma DepthUnique(edges: seq<Edge>, v: nat, d: nat, e: nat)
    requires IsDepth(edges, v, d) && IsDepth(edges, v, e)
    ensures d == e
  {
  }

  /** The order starts with the nodes without incoming edges, ascending. */
  lemma RootsFirst(n: nat, edges: seq<Edge>)
    ensures |RootsBelow(edges, n)| <= |Order(n, edges)|
    ensures Order(n, edges)[..|RootsBelow(edges, n)|] == RootsBelow(edges, n)
  {
    EnqueuedGrows(n, edges, 0, n);
  }

  // ----- the order within a layer -----

  /** The places among the first j targets t at which nodes are freed: the last copy of each. */
  ghost predicate FreedAt(t: seq<nat>, freed: seq<nat>, j: nat, at: seq<nat>) {
    && |at| == |freed| && (forall x, y :: 0 <= x < y < |at| ==> at[x] < at[y])
    && (forall x :: 0 <= x < |at| ==> at[x] < j && at[x] < |t| && t[at[x]] == freed[x])
    && (forall x, a :: 0 <= x < |at| && at[x] < a < |t| ==> t[a] != freed[x])
  }

  lemma FreedAtSnoc(t: seq<nat>, freed: seq<nat>, j: nat, at: seq<nat>, v: nat)
    requires 0 < j <= |t| && FreedAt(t, freed, j - 1, at) && t[j - 1] == v && forall a :: j <= a < |t| ==> t[a] != v
    ensures FreedAt(t, freed + [v], j, at + [j - 1])
  {
  }

  lemma FreedAtSkip(t: seq<nat>, freed: seq<nat>, j: nat, at: seq<nat>)
    requires 0 < j <= |t| && FreedAt(t, freed, j - 1, at)
    ensures FreedAt(t, freed + [], j, at)
  {
    assert freed + [] == freed;
  }

  lemma {:induction false} FreedPlaces(edges: seq<Edge>, popped: seq<nat>, u: nat, j: nat) returns (at: seq<nat>)
    requires u !in popped && j <= |Targets(edges, u)|
    ensures FreedAt(Targets(edges, u), Freed(edges, popped, u, j), j, at)
  {
    at := [];
    if j > 0 {
      var t := Targets(edges, u);
      at := FreedPlaces(edges, popped, u, j - 1);
      var v := t[j - 1];
      LastFreed(edges, popped, u, j);
      hide Freed, Targets, Waiting, Count, FreedAt;
      if Waiting(edges, popped, v) == Count(t[..j], v) {
        WaitingPop(edges, popped, u, v);
        NoneAfter(t, j, v);
        FreedAtSnoc(t, Freed(edges, popped, u, j - 1), j, at, v);
        at := at + [j - 1];
      } else {
        FreedAtSkip(t, Freed(edges, popped, u, j - 1), j, at);
      }
    }
  }

  lemma LastFreed(edges: seq<Edge>, popped: seq<nat>, u: nat, j: nat)
    requires 0 < j <= |Targets(edges, u)|
    ensures var v := Targets(edges, u)[j - 1];
            Freed(edges, popped, u, j)
            == Freed(edges, popped, u, j - 1)
               + (if Waiting(edges, popped, v) == Count(Targets(edges, u)[..j], v) then [v] else [])
  {
  }

  lemma NoneAfter(t: seq<nat>, j: nat, v: nat)
    requires j <= |t| && Count(t, v) <= Count(t[..j], v)
    ensures forall a :: j <= a < |t| ==> t[a] != v
  {
    forall a | j <= a < |t| ensures t[a] != v {
      assert t == t[..j] + t[j..a] + [t[a]] + t[a + 1..];
    }
  }

  /** The places of u's edges. */
  lemma {:induction false} TargetPlaces(edges: seq<Edge>, u: nat) returns (at: seq<nat>)
    ensures |at| == |Targets(edges, u)| && forall x, y :: 0 <= x < y < |at| ==> at[x] < at[y]
    ensures forall x :: 0 <= x < |at| ==> at[x] < |edges| && edges[at[x]] == (u, Targets(edges, u)[x])
    ensures forall e :: 0 <= e < |edges| && edges[e].0 == u ==> e in at
  {
    at := [];
    if edges == [] {
      assert Targets(edges, u) == [];
    } else {
      var last := |edges| - 1;
      at := TargetPlaces(edges[..last], u);
      LastTarget(edges, u);
      hide Targets;
      var before := at;
      if edges[last].0 == u {
        at := at + [last];
      }
      forall e | 0 <= e < |edges| && edges[e].0 == u ensures e in at {
        if e < last {
          assert edges[..last][e] == edges[e];
          assert e in before;
        }
      }
    }
  }

  lemma LastTarget(edges: seq<Edge>, u: nat)
    requires edges != []
    ensures Targets(edges, u) == Targets(edges[..|edges| - 1], u) + (if edges[|edges| - 1].0 == u then [edges[|edges| - 1].1] else [])
  {
  }

  /** The last copy of edge (u, v) comes before the last copy of (u, w). */
  ghost predicate LastEdgeBefore(edges: seq<Edge>, u: nat, v: nat, w: nat) {
    exists y :: 0 <= y < |edges| && edges[y] == (u, w) && forall x :: 0 <= x < |edges| && edges[x] == (u, v) ==> x < y
  }

  /** What one pop frees is in the order of the edges. */
  lemma FreedInEdgeOrder(edges: seq<Edge>, popped: seq<nat>, u: nat, x: nat, y: nat)
    requires u !in popped && x < y < |Freed(edges, popped, u, |Targets(edges, u)|)|
    ensures var freed := Freed(edges, popped, u, |Targets(edges, u)|); LastEdgeBefore(edges, u, freed[x], freed[y])
  {
    hide Targets, Freed;
    var t := Targets(edges, u);
    var freed := Freed(edges, popped, u, |t|);
    var at := FreedPlaces(edges, popped, u, |t|);
    var places := TargetPlaces(edges, u);
    var last := places[at[y]];
    forall e | 0 <= e < |edges| && edges[e] == (u, freed[x]) ensures e < last {
      assert e in places;
      var a :| 0 <= a < |places| && places[a] == e;
      assert t[a] == freed[x];
      assert a <= at[x];
    }
    assert edges[last] == (u, freed[y]);
  }

  /** Position p holds the last predecessor of the node at position i. */
  ghost predicate LastPredecessor(edges: seq<Edge>, order: seq<nat>, i: nat, p: nat) {
    && i < |order| && p < |order| && (order[p], order[i]) in edges
    && forall j :: 0 <= j < |order| && (order[j], order[i]) in edges ==> j <= p
  }

  /** The pop that enqueued the node at position i is the one of its last predecessor. */
  lemma {:induction false} EnqueuedBy(n: nat, edges: seq<Edge>, p: nat, i: nat, q: nat)
    requires InRange(n, edges) && p <= |Enqueued(n, edges, p)| && LastPredecessor(edges, Enqueued(n, edges, p), i, q)
    ensures q < p && q + 1 <= |Enqueued(n, edges, q + 1)|
    ensures |Enqueued(n, edges, q)| <= i < |Enqueued(n, edges, q + 1)|
    decreases p
  {
    hide Waiting, Targets, Freed, RootsBelow;
    var now := Enqueued(n, edges, p);
    EnqueuedProperty(n, edges, p);
    WaitingZero(edges, now[..p], now[i]);
    assert now[i] in now;
    assert now[q] in now[..p];
    InPrefix(now, p, q);
    PoppedExisted(n, edges, p);
    var before := Enqueued(n, edges, p - 1);
    if i < |before| {
      PredecessorsFirst(n, edges, p, i, now[q]);
      EarlierOnly(now, i, q);
      assert forall j :: 0 <= j < |before| ==> before[j] == now[j];
      EnqueuedBy(n, edges, p - 1, i, q);
    } else {
      FreedByPopped(n, edges, p, i);
      assert p - 1 <= q;
    }
  }

  lemma InPrefix(s: seq<nat>, p: nat, q: nat)
    requires Distinct(s) && p <= |s| && q < |s| && s[q] in s[..p]
    ensures q < p
  {
    var k :| 0 <= k < p && s[..p][k] == s[q];
    assert s[k] == s[q];
  }

  /** Within the order: a node freed by an earlier pop stands first, and nodes freed by the same pop stand in the order of the
      edges that freed them. */
  lemma OrderTieBreak(n: nat, edges: seq<Edge>, i: nat, j: nat, p: nat, q: nat)
    requires InRange(n, edges) && |Order(n, edges)| == n && i < j
    requires LastPredecessor(edges, Order(n, edges), i, p) && LastPredecessor(edges, Order(n, edges), j, q)
    ensures p <= q
    ensures p == q ==> LastEdgeBefore(edges, Order(n, edges)[p], Order(n, edges)[i], Order(n, edges)[j])
  {
    hide Waiting, Targets, Freed, RootsBelow, LastPredecessor, LastEdgeBefore;
    EnqueuedBy(n, edges, n, i, p);
    EnqueuedBy(n, edges, n, j, q);
    if q < p {
      EnqueuedGrows(n, edges, q + 1, p);
    } else if p == q {
      EnqueuedGrows(n, edges, q + 1, n);
      SamePop(n, edges, i, j, p);
    }
  }

  lemma SamePop(n: nat, edges: seq<Edge>, i: nat, j: nat, p: nat)
    requires InRange(n, edges) && |Order(n, edges)| == n && i < j && p < n && p + 1 <= |Enqueued(n, edges, p + 1)|
    requires |Enqueued(n, edges, p)| <= i && j < |Enqueued(n, edges, p + 1)| && j < n
    ensures LastEdgeBefore(edges, Order(n, edges)[p], Order(n, edges)[i], Order(n, edges)[j])
  {
    hide Waiting, Targets, Freed, RootsBelow, LastEdgeBefore;
    var before, after := Enqueued(n, edges, p), Enqueued(n, edges, p + 1);
    PoppedExisted(n, edges, p + 1);
    EnqueuedGrows(n, edges, p + 1, n);
    EnqueuedGrows(n, edges, p, p + 1);
    EnqueuedProperty(n, edges, p);
    NotAmongEarlier(n, edges, before, p);
    var u := before[p];
    assert Order(n, edges)[p] == after[p] == u && Order(n, edges)[i] == after[i] && Order(n, edges)[j] == after[j];
    FreedInEdgeOrder(edges, before[..p], u, i - |before|, j - |before|);
  }

  // ----- parallel chains -----

  ghost function Flat<T>(layers: seq<seq<T>>): seq<T> {
    if layers == [] then [] else Flat(layers[..|layers| - 1]) + layers[|layers| - 1]
  }

  ghost predicate IsCell(layers: seq<seq<nat>>, v: nat, s: nat, a: nat) {
    s < |layers| && a < |layers[s]| && layers[s][a] == v
  }

  ghost predicate InTable(layers: seq<seq<nat>>, v: nat) {
    exists s: nat, a: nat :: IsCell(layers, v, s, a)
  }

  /** x is directly above y. */
  ghost predicate IsStep(layers: seq<seq<nat>>, x: nat, y: nat) {
    exists s: nat, a: nat :: IsCell(layers, x, s, a) && IsCell(layers, y, s + 1, a)
  }

  /** The nodes stand in a table whose columns are chains: the edges lead from each cell to the one below. */
  ghost predicate Columns(n: nat, edges: seq<Edge>, layers: seq<seq<nat>>, m: nat) {
    && InRange(n, edges) && layers != []
    && (forall s :: 0 <= s < |layers| ==> |layers[s]| == m)
    && (forall i, j :: 0 <= i < j < |layers[0]| ==> layers[0][i] < layers[0][j])
    && (forall v: nat :: v < n <==> InTable(layers, v))
    && (forall v: nat, s: nat, a: nat, t: nat, b: nat :: IsCell(layers, v, s, a) && IsCell(layers, v, t, b) ==> s == t && a == b)
    && (forall x: nat, y: nat {:trigger IsStep(layers, x, y)} :: (x, y) in edges <==> IsStep(layers, x, y))
  }

  /** Popping u frees the nodes that u leads to and whose other predecessors have all been popped. */
  lemma FreedExactly(edges: seq<Edge>, popped: seq<nat>, u: nat, v: nat)
    requires u !in popped
    ensures v in Freed(edges, popped, u, |Targets(edges, u)|)
            <==> (u, v) in edges && forall e :: e in edges && e.1 == v ==> e.0 in popped + [u]
  {
    var t := Targets(edges, u);
    FreedProperty(edges, popped, u, |t|);
    assert t[..|t|] == t;
    TargetsAreEdges(edges, u, v);
    WaitingPop(edges, popped, u, v);
    WaitingZero(edges, popped + [u], v);
  }

  lemma {:induction false} AscendingUnique(a: seq<nat>, b: seq<nat>)
    requires forall i, j :: 0 <= i < j < |a| ==> a[i] < a[j]
    requires forall i, j :: 0 <= i < j < |b| ==> b[i] < b[j]
    requires forall v :: v in a <==> v in b
    ensures a == b
  {
    var head := if b == [] then 0 else b[0];
    assert b == [] || head in b;
    if a != [] {
      assert a[0] in b && b[0] in a;
      assert a == [a[0]] + a[1..] && b == [b[0]] + b[1..];
      assert a[0] == b[0];
      forall v ensures v in a[1..] <==> v in b[1..] {
        assert v in a[1..] <==> v in a && v != a[0];
        assert v in b[1..] <==> v in b && v != b[0];
      }
      AscendingUnique(a[1..], b[1..]);
    }
  }

  lemma ColumnRoots(n: nat, edges: seq<Edge>, layers: seq<seq<nat>>, m: nat)
    requires Columns(n, edges, layers, m)
    ensures RootsBelow(edges, n) == layers[0]
  {
    RootsProperty(edges, n);
    forall v: nat ensures v in RootsBelow(edges, n) <==> v in layers[0] {
      WaitingZero(edges, [], v);
      if v in layers[0] {
        var a: nat :| a < |layers[0]| && layers[0][a] == v;
        assert IsCell(layers, v, 0, a);
        assert InTable(layers, v);
        forall e | e in edges && e.1 == v ensures false {
          assert IsStep(layers, e.0, v) by { assert e == (e.0, v); }
        }
      } else if v < n {
        assert InTable(layers, v);
        var s: nat, a: nat :| IsCell(layers, v, s, a);
        assert IsCell(layers, layers[s - 1][a], s - 1, a);
        assert IsStep(layers, layers[s - 1][a], v);
      }
    }
    AscendingUnique(RootsBelow(edges, n), layers[0]);
  }

  /** Popping a cell frees exactly the one below it. */
  lemma ColumnStep(n: nat, edges: seq<Edge>, layers: seq<seq<nat>>, m: nat, popped: seq<nat>, s: nat, a: nat)
    requires Columns(n, edges, layers, m) && s < |layers| && a < m && layers[s][a] !in popped
    ensures var u := layers[s][a];
            Freed(edges, popped, u, |Targets(edges, u)|) == if s + 1 < |layers| then [layers[s + 1][a]] else []
  {
    hide Freed, Targets;
    var u := layers[s][a];
    var freed := Freed(edges, popped, u, |Targets(edges, u)|);
    assert IsCell(layers, u, s, a);
    FreedProperty(edges, popped, u, |Targets(edges, u)|);
    forall v: nat ensures v in freed <==> s + 1 < |layers| && v == layers[s + 1][a] {
      FreedExactly(edges, popped, u, v);
      assert IsStep(layers, u, v) <==> (u, v) in edges;
      if s + 1 < |layers| && v == layers[s + 1][a] {
        assert IsCell(layers, v, s + 1, a);
        forall e | e in edges && e.1 == v ensures e.0 == u {
          assert IsStep(layers, e.0, v) by { assert e == (e.0, v); }
        }
      }
    }
    AtMostOne(freed, s + 1 < |layers|, if s + 1 < |layers| then layers[s + 1][a] else 0);
  }

  lemma AtMostOne(s: seq<nat>, present: bool, w: nat)
    requires Distinct(s) && forall v: nat :: v in s <==> present && v == w
    ensures s == if present then [w] else []
  {
    var first := if |s| > 0 then s[0] else w;
    assert |s| == 0 || first in s;
    var second := if |s| > 1 then s[1] else w;
    assert |s| <= 1 || second in s;
    assert present ==> w in s;
  }

  /** After the first s rows and j cells of row s have been popped, row s and j cells of the row below are enqueued as well. */
  lemma {:induction false} ColumnOrder(n: nat, edges: seq<Edge>, layers: seq<seq<nat>>, m: nat, s: nat, j: nat)
    requires Columns(n, edges, layers, m) && s < |layers| && j <= m
    ensures Enqueued(n, edges, |Flat(layers[..s])| + j)
            == Flat(layers[..s + 1]) + (if s + 1 < |layers| then layers[s + 1][..j] else [])
    decreases s, j
  {
    hide Freed, Targets, RootsBelow, Columns, Frontier, Flat;
    FlatSnoc(layers, s);
    EmptyFlat<nat>();
    if j == 0 && s == 0 {
      ColumnRoots(n, edges, layers, m);
      assert layers[..0] == [] && layers[..1] == [layers[0]];
    } else if j == 0 {
      ColumnShape(n, edges, layers, m, s);
      ColumnOrder(n, edges, layers, m, s - 1, m);
      FlatSnoc(layers, s - 1);
    } else {
      ColumnShape(n, edges, layers, m, s);
      ColumnOrder(n, edges, layers, m, s, j - 1);
      NextCell(n, edges, layers, m, s, j);
    }
  }

  /** Popping the j-th cell of row s enqueues the cell below it. */
  lemma NextCell(n: nat, edges: seq<Edge>, layers: seq<seq<nat>>, m: nat, s: nat, j: nat)
    requires Columns(n, edges, layers, m) && s < |layers| && 0 < j <= m == |layers[s]|
    requires s + 1 < |layers| ==> |layers[s + 1]| == m
    requires Flat(layers[..s + 1]) == Flat(layers[..s]) + layers[s]
    requires Enqueued(n, edges, |Flat(layers[..s])| + j - 1)
             == Flat(layers[..s + 1]) + (if s + 1 < |layers| then layers[s + 1][..j - 1] else [])
    ensures Enqueued(n, edges, |Flat(layers[..s])| + j)
            == Flat(layers[..s + 1]) + (if s + 1 < |layers| then layers[s + 1][..j] else [])
  {
    hide Freed, Targets, RootsBelow, Columns, Frontier, Flat;
    ColumnShape(n, edges, layers, m, s);
    var p := |Flat(layers[..s])| + j;
    var before := Enqueued(n, edges, p - 1);
    assert before[p - 1] == layers[s][j - 1];
    EnqueuedProperty(n, edges, p - 1);
    NotAmongEarlier(n, edges, before, p - 1);
    ColumnStep(n, edges, layers, m, before[..p - 1], s, j - 1);
    assert Enqueued(n, edges, p) == before + (if s + 1 < |layers| then [layers[s + 1][j - 1]] else []);
  }

  lemma NotAmongEarlier(n: nat, edges: seq<Edge>, seen: seq<nat>, k: nat)
    requires k < |seen| && Frontier(n, edges, seen[..k], seen)
    ensures seen[k] !in seen[..k]
  {
  }

  lemma ColumnShape(n: nat, edges: seq<Edge>, layers: seq<seq<nat>>, m: nat, s: nat)
    requires Columns(n, edges, layers, m)
    ensures InRange(n, edges)
    ensures forall t :: 0 <= t < |layers| ==> |layers[t]| == m
  {
  }

  lemma EmptyFlat<T>()
    ensures Flat<T>([]) == []
  {
  }

  lemma FlatSnoc<T>(layers: seq<seq<T>>, s: nat)
    requires s < |layers|
    ensures Flat(layers[..s + 1]) == Flat(layers[..s]) + layers[s]
  {
    assert layers[..s + 1][..s] == layers[..s];
  }

  /** Parallel chains are ordered row by row. */
  lemma ColumnsInRows(n: nat, edges: seq<Edge>, layers: seq<seq<nat>>, m: nat)
    requires Columns(n, edges, layers, m)
    ensures Order(n, edges) == Flat(layers) && |Order(n, edges)| == n
  {
    hide Frontier, Freed, Targets, RootsBelow;
    var last := |layers| - 1;
    ColumnOrder(n, edges, layers, m, last, m);
    FlatSnoc(layers, last);
    assert layers[..|layers|] == layers;
    var p := |Flat(layers)|;
    EnqueuedBounded(n, edges, p);
    EmptyQueueStays(n, edges, p, n);
    OrderProperty(n, edges);
    forall v: nat | v < n ensures v in Order(n, edges) {
      assert InTable(layers, v);
      var s: nat, a: nat :| IsCell(layers, v, s, a);
      FlatHolds(layers, s, a);
    }
    AllBelowIn(n, Order(n, edges));
  }

  lemma {:induction false} FlatHolds(layers: seq<seq<nat>>, s: nat, a: nat)
    requires s < |layers| && a < |layers[s]|
    ensures layers[s][a] in Flat(layers)
  {
    if s < |layers| - 1 {
      FlatHolds(layers[..|layers| - 1], s, a);
    }
  }
}
