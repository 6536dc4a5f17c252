/** The financial component graph (src/lib/engine/graph.ts): the per-day
    aggregate `DayState`, the deterministic Kahn topological sort over the
    components' declared dependencies, initial-state construction, the deep
    clone and the day snapshot. */
module Graph {
  import opened Types
  import opened Sums
  import opened Strings

  // ───────────────────────── Component declarations ─────────────────────────

  /** What the sort sees of a component: its id and the ids it depends on. */
  datatype NodeDecl = NodeDecl(id: string, deps: seq<string>)

  /** The two exceptions `topologicalSort` throws. */
  datatype DagError = UnknownNode(nodeId: string, dep: string) | CycleDetected

  datatype Result<T> = Ok(value: T) | Err(error: DagError)

  /** An edge (dependency, dependent). */
  type Edge = (string, string)

  /** Edges (d, id) for the dependencies d of one node, in declaration order. */
  function DepEdges(id: string, deps: seq<string>): seq<Edge>
  {
    if deps == [] then [] else DepEdges(id, deps[..|deps| - 1]) + [(deps[|deps| - 1], id)]
  }

  function NodeEdges(n: NodeDecl): seq<Edge> {
    DepEdges(n.id, n.deps)
  }

  /** All edges, in the order the edge-building loop visits them. */
  function Edges(nodes: seq<NodeDecl>): seq<Edge>
  {
    if nodes == [] then [] else Edges(nodes[..|nodes| - 1]) + NodeEdges(nodes[|nodes| - 1])
  }

  /** The ids of a node list. */
  function IdSet(nodes: seq<NodeDecl>): set<string>
  {
    set k | 0 <= k < |nodes| :: nodes[k].id
  }

  predicate DistinctIds(nodes: seq<NodeDecl>) {
    forall i, j :: 0 <= i < j < |nodes| ==> nodes[i].id != nodes[j].id
  }

  /** Every dependency declared for id `v`, by any node with that id, is in `done`. */
  predicate DepsDone(nodes: seq<NodeDecl>, done: set<string>, v: string) {
    forall n :: n in nodes && n.id == v ==> forall d :: d in n.deps ==> d in done
  }

  /** `v` is a node not yet emitted whose dependencies have all been emitted. */
  predicate Ready(nodes: seq<NodeDecl>, done: set<string>, v: string) {
    v in IdSet(nodes) && v !in done && DepsDone(nodes, done, v)
  }

  /** `v` is the smallest ready id. */
  ghost predicate IsNextReady(nodes: seq<NodeDecl>, done: set<string>, v: string) {
    && Ready(nodes, done, v)
    && forall u :: Ready(nodes, done, u) ==> u == v || LexLess(v, u)
  }

  /** What a successful sort returns: every node exactly once, and at each
      position the smallest id among those whose dependencies are all earlier. */
  ghost predicate IsKahnOrder(nodes: seq<NodeDecl>, s: seq<NodeDecl>) {
    && |s| == |nodes|
    && DistinctIds(nodes)
    && DistinctIds(s)
    && (forall k :: 0 <= k < |s| ==> s[k] in nodes)
    && (forall n :: n in nodes ==> n in s)
    && (forall k :: 0 <= k < |s| ==> IsNextReady(nodes, IdSet(s[..k]), s[k].id))
  }

  /** A non-empty set of known ids each of which depends on a member of the set:
      no order can put all of them after their dependencies. */
  ghost predicate CycleCore(nodes: seq<NodeDecl>, stuck: set<string>) {
    && stuck != {}
    && stuck <= IdSet(nodes)
    && forall v {:trigger DependsWithin(nodes, stuck, v)} :: v in stuck ==> DependsWithin(nodes, stuck, v)
  }

  /** Some node with id `v` declares a dependency in `s`. */
  ghost predicate DependsWithin(nodes: seq<NodeDecl>, s: set<string>, v: string) {
    exists n, d :: n in nodes && n.id == v && d in n.deps && d in s
  }

  // ───────────────────────── Facts about the edge list ─────────────────────────

  lemma IdSetMember(nodes: seq<NodeDecl>, x: string)
    ensures x in IdSet(nodes) <==> exists k :: 0 <= k < |nodes| && nodes[k].id == x
  {
  }

  lemma IdSetSnoc(nodes: seq<NodeDecl>)
    requires nodes != []
    ensures IdSet(nodes) == IdSet(nodes[..|nodes| - 1]) + {nodes[|nodes| - 1].id}
  {
    var p := nodes[..|nodes| - 1];
    forall x ensures x in IdSet(nodes) <==> x in IdSet(p) + {nodes[|nodes| - 1].id} {
      if x in IdSet(p) {
        var k :| 0 <= k < |p| && p[k].id == x;
        assert nodes[k].id == x;
      }
    }
  }

  lemma {:induction false} IdSetCard(nodes: seq<NodeDecl>)
    ensures |IdSet(nodes)| <= |nodes|
    ensures |IdSet(nodes)| == |nodes| <==> DistinctIds(nodes)
    decreases |nodes|
  {
    if nodes != [] {
      var p := nodes[..|nodes| - 1];
      var x := nodes[|nodes| - 1].id;
      IdSetCard(p);
      IdSetSnoc(nodes);
      if x in IdSet(p) {
        var k :| 0 <= k < |p| && p[k].id == x;
        assert nodes[k].id == nodes[|nodes| - 1].id;
      } else {
        if DistinctIds(nodes) {
          assert DistinctIds(p) by {
            forall i, j | 0 <= i < j < |p| ensures p[i].id != p[j].id {
              assert p[i] == nodes[i] && p[j] == nodes[j];
            }
          }
        }
        if DistinctIds(p) {
          forall i, j | 0 <= i < j < |nodes| ensures nodes[i].id != nodes[j].id {
            if j < |p| {
              assert p[i] == nodes[i] && p[j] == nodes[j];
            } else {
              assert nodes[i] == p[i];
            }
          }
        }
      }
    }
  }

  lemma {:induction false} DepEdgesMember(id: string, deps: seq<string>, e: Edge)
    ensures e in DepEdges(id, deps) <==> e.1 == id && e.0 in deps
    decreases |deps|
  {
    if deps != [] {
      var p := deps[..|deps| - 1];
      DepEdgesMember(id, p, e);
      assert deps == p + [deps[|deps| - 1]];
    }
  }

  lemma {:induction false} DepEdgesPrefix(id: string, deps: seq<string>, j: nat)
    requires j <= |deps|
    ensures DepEdges(id, deps[..j]) <= DepEdges(id, deps)
    decreases |deps| - j
  {
    if j < |deps| {
      DepEdgesPrefix(id, deps, j + 1);
      assert deps[..j + 1][..j] == deps[..j];
    } else {
      assert deps[..j] == deps;
    }
  }

  lemma {:induction false} EdgesMember(nodes: seq<NodeDecl>, e: Edge)
    ensures e in Edges(nodes) <==> exists n :: n in nodes && n.id == e.1 && e.0 in n.deps
    decreases |nodes|
  {
    if nodes != [] {
      var p := nodes[..|nodes| - 1];
      var last := nodes[|nodes| - 1];
      EdgesMember(p, e);
      assert nodes == p + [last];
      DepEdgesMember(last.id, last.deps, e);
    }
  }

  /** Targets of the edges leaving `x`, in edge order: the adjacency list of `x`. */
  function Targets(edges: seq<Edge>, x: string): seq<string>
  {
    if edges == [] then []
    else Targets(edges[..|edges| - 1], x)
         + (if edges[|edges| - 1].0 == x then [edges[|edges| - 1].1] else [])
  }

  /** Number of edges into `v` whose source is not in `done`: the in-degree
      after the nodes of `done` have been emitted. */
  function Pending(edges: seq<Edge>, v: string, done: set<string>): nat
  {
    if edges == [] then 0
    else Pending(edges[..|edges| - 1], v, done)
         + (if edges[|edges| - 1].1 == v && edges[|edges| - 1].0 !in done then 1 else 0)
  }

  lemma {:induction false} TargetsMember(edges: seq<Edge>, x: string, v: string)
    ensures v in Targets(edges, x) <==> (x, v) in edges
    decreases |edges|
  {
    if edges != [] {
      var p := edges[..|edges| - 1];
      TargetsMember(p, x, v);
      assert edges == p + [edges[|edges| - 1]];
    }
  }

  lemma {:induction false} PendingZero(edges: seq<Edge>, v: string, done: set<string>)
    ensures Pending(edges, v, done) == 0 <==> forall e :: e in edges && e.1 == v ==> e.0 in done
    decreases |edges|
  {
    if edges != [] {
      var p := edges[..|edges| - 1];
      PendingZero(p, v, done);
      assert edges == p + [edges[|edges| - 1]];
    }
  }

  /** Emitting `x` removes exactly the edges leaving `x` from every in-degree. */
  lemma {:induction false} PendingEmit(edges: seq<Edge>, v: string, done: set<string>, x: string)
    requires x !in done
    ensures Pending(edges, v, done) == Pending(edges, v, done + {x}) + multiset(Targets(edges, x))[v]
    decreases |edges|
  {
    if edges != [] {
      PendingEmit(edges[..|edges| - 1], v, done, x);
    }
  }

  lemma {:induction false} EdgesAppend(a: seq<NodeDecl>, b: seq<NodeDecl>)
    ensures Edges(a + b) == Edges(a) + Edges(b)
    decreases |b|
  {
    if b == [] {
      assert a + b == a;
    } else {
      var b' := b[..|b| - 1];
      var last := b[|b| - 1];
      EdgesAppend(a, b');
      assert a + b == (a + b') + [last];
      assert (a + b)[..|a + b| - 1] == a + b';
      assert Edges(a + b) == Edges(a + b') + NodeEdges(last);
      assert Edges(b) == Edges(b') + NodeEdges(last);
    }
  }

  /** The edge built by inner step `j` of outer step `i` sits at index
      |Edges(nodes[..i])| + j, and every edge before it was built earlier. */
  lemma EdgesPrefix(nodes: seq<NodeDecl>, i: nat, j: nat)
    requires i < |nodes| && j <= |nodes[i].deps|
    ensures Edges(nodes[..i]) + DepEdges(nodes[i].id, nodes[i].deps[..j]) <= Edges(nodes)
  {
    assert nodes == nodes[..i] + ([nodes[i]] + nodes[i + 1..]);
    EdgesAppend(nodes[..i], [nodes[i]] + nodes[i + 1..]);
    EdgesAppend([nodes[i]], nodes[i + 1..]);
    assert [nodes[i]][..0] == [];
    DepEdgesPrefix(nodes[i].id, nodes[i].deps, j);
  }

  // ───────────────────────── The ready queue ─────────────────────────

  /** `queue.findIndex(q => q > x)` followed by `splice` (or `push` when there is
      no such index): insert `x` into an ascending queue at its sorted place. */
  method InsertSorted(queue: seq<string>, x: string) returns (r: seq<string>)
    requires StrictlySorted(queue) && x !in queue
    ensures StrictlySorted(r)
    ensures forall v :: v in r <==> v in queue || v == x
  {
    var k := 0;
    while k < |queue| && !LexLess(x, queue[k])
      invariant 0 <= k <= |queue|
      invariant forall t :: 0 <= t < k ==> LexLess(queue[t], x)
    {
      LexLessTotal(x, queue[k]);
      k := k + 1;
    }
    forall m | k < m < |queue| ensures LexLess(x, queue[m]) {
      LexLessTransitive(x, queue[k], queue[m]);
    }
    r := queue[..k] + [x] + queue[k..];
    forall i, j | 0 <= i < j < |r| ensures LexLess(r[i], r[j]) {
      if i < k && j > k {
        LexLessTransitive(r[i], x, r[j]);
      }
    }
    assert forall v :: v in r <==> v in queue[..k] || v == x || v in queue[k..];
    assert queue == queue[..k] + queue[k..];
  }

  /** `queue.sort()`: the initial ready ids in ascending order. */
  method SortIds(ids: seq<string>) returns (r: seq<string>)
    requires forall i, j :: 0 <= i < j < |ids| ==> ids[i] != ids[j]
    ensures StrictlySorted(r)
    ensures forall v :: v in r <==> v in ids
  {
    r := [];
    var i := 0;
    while i < |ids|
      invariant 0 <= i <= |ids|
      invariant StrictlySorted(r)
      invariant forall v :: v in r <==> v in ids[..i]
    {
      r := InsertSorted(r, ids[i]);
      assert ids[..i + 1] == ids[..i] + [ids[i]];
      i := i + 1;
    }
    assert ids[..i] == ids;
  }

  lemma SubsetSameSize(a: set<string>, b: set<string>)
    requires a <= b && |a| == |b|
    ensures a == b
  {
    assert a + (b - a) == b;
    assert |b - a| == 0;
  }

  // ───────────────────────── Kahn's algorithm ─────────────────────────

  /** The first loop of `topologicalSort`: every id gets its node (the last
      one declared with that id), in-degree 0 and an empty adjacency list. */
  method InitMaps(nodes: seq<NodeDecl>)
    returns (nodeMap: map<string, NodeDecl>, inDegree: map<string, int>, adjacency: map<string, seq<string>>)
    ensures nodeMap.Keys == inDegree.Keys == adjacency.Keys == IdSet(nodes)
    ensures forall x :: x in nodeMap ==> nodeMap[x] in nodes && nodeMap[x].id == x
    ensures forall x :: x in inDegree ==> inDegree[x] == 0 && adjacency[x] == []
  {
    nodeMap, inDegree, adjacency := map[], map[], map[];
    var i := 0;
    while i < |nodes|
      invariant 0 <= i <= |nodes|
      invariant nodeMap.Keys == inDegree.Keys == adjacency.Keys == IdSet(nodes[..i])
      invariant forall x :: x in nodeMap ==> nodeMap[x] in nodes && nodeMap[x].id == x
      invariant forall x :: x in inDegree ==> inDegree[x] == 0 && adjacency[x] == []
    {
      var n := nodes[i];
      nodeMap := nodeMap[n.id := n];
      inDegree := inDegree[n.id := 0];
      adjacency := adjacency[n.id := []];
      assert nodes[..i + 1][..i] == nodes[..i];
      IdSetSnoc(nodes[..i + 1]);
      i := i + 1;
    }
    assert nodes[..i] == nodes;
  }

  /** The in-degree of every id counts the edges into it, and its adjacency
      list holds the targets of the edges leaving it, in edge order. */
  ghost predicate Counts(ids: set<string>, edges: seq<Edge>,
                         inDegree: map<string, int>, adjacency: map<string, seq<string>>) {
    && inDegree.Keys == ids && adjacency.Keys == ids
    && forall x :: x in ids ==> inDegree[x] == Pending(edges, x, {}) && adjacency[x] == Targets(edges, x)
  }

  /** Recording one more edge (dep, id): the in-degree of `id` and the adjacency
      list of `dep` grow accordingly. */
  lemma AddEdgeStep(built: seq<Edge>, e: Edge, ids: set<string>,
                    inDegree: map<string, int>, adjacency: map<string, seq<string>>)
    requires e.0 in ids && e.1 in ids
    requires Counts(ids, built, inDegree, adjacency)
    ensures Counts(ids, built + [e], inDegree[e.1 := inDegree[e.1] + 1], adjacency[e.0 := adjacency[e.0] + [e.1]])
  {
    assert (built + [e])[..|built|] == built;
  }

  lemma EdgesSnoc(nodes: seq<NodeDecl>, i: nat)
    requires i < |nodes|
    ensures Edges(nodes[..i + 1]) == Edges(nodes[..i]) + NodeEdges(nodes[i])
  {
    assert nodes[..i + 1][..i] == nodes[..i];
  }

  lemma DepEdgesSnoc(id: string, deps: seq<string>, j: nat)
    requires j < |deps|
    ensures DepEdges(id, deps[..j + 1]) == DepEdges(id, deps[..j]) + [(deps[j], id)]
  {
    assert deps[..j + 1][..j] == deps[..j];
  }

  lemma {:induction false} DepEdgesIndex(id: string, deps: seq<string>)
    ensures |DepEdges(id, deps)| == |deps|
    ensures forall t :: 0 <= t < |deps| ==> DepEdges(id, deps)[t] == (deps[t], id)
    decreases |deps|
  {
    if deps != [] {
      DepEdgesIndex(id, deps[..|deps| - 1]);
    }
  }

  lemma SliceSnoc<T>(s: seq<T>, j: nat)
    requires j < |s|
    ensures s[..j + 1] == s[..j] + [s[j]]
  {
  }

  /** `deps[j]` is the first dependency outside `ids`. */
  predicate FirstUnknown(deps: seq<string>, ids: set<string>, j: int) {
    && 0 <= j < |deps|
    && deps[j] !in ids
    && forall t :: 0 <= t < j ==> deps[t] in ids
  }

  /** After `j` dependencies of `node`: the edges recorded so far, all known. */
  ghost predicate NodeProgress(ids: set<string>, prefix: seq<Edge>, node: NodeDecl, j: nat, built: seq<Edge>,
                               inDegree: map<string, int>, adjacency: map<string, seq<string>>) {
    && j <= |node.deps|
    && built == prefix + DepEdges(node.id, node.deps[..j])
    && (forall d :: d in node.deps[..j] ==> d in ids)
    && Counts(ids, built, inDegree, adjacency)
  }

  lemma NodeStep(ids: set<string>, prefix: seq<Edge>, node: NodeDecl, j: nat, built: seq<Edge>,
                 inDegree: map<string, int>, adjacency: map<string, seq<string>>)
    requires j < |node.deps| && node.id in ids && node.deps[j] in ids
    requires NodeProgress(ids, prefix, node, j, built, inDegree, adjacency)
    ensures NodeProgress(ids, prefix, node, j + 1, built + [(node.deps[j], node.id)],
                         inDegree[node.id := inDegree[node.id] + 1],
                         adjacency[node.deps[j] := adjacency[node.deps[j]] + [node.id]])
  {
    SliceSnoc(node.deps, j);
    DepEdgesSnoc(node.id, node.deps, j);
    AddEdgeStep(built, (node.deps[j], node.id), ids, inDegree, adjacency);
  }

  /** The inner loop of the edge-building pass, over one node's dependencies. */
  method AddNodeEdges(node: NodeDecl, nodeMap: map<string, NodeDecl>, ghost ids: set<string>,
                      ghost prefix: seq<Edge>,
                      inDegree0: map<string, int>, adjacency0: map<string, seq<string>>)
    returns (unknown: Option<Edge>, ghost at: int, inDegree: map<string, int>, adjacency: map<string, seq<string>>)
    requires node.id in ids && nodeMap.Keys == ids
    requires Counts(ids, prefix, inDegree0, adjacency0)
    ensures unknown.Some? ==> FirstUnknown(node.deps, ids, at) && unknown.value == (node.deps[at], node.id)
    ensures unknown.None? ==>
              (forall d :: d in node.deps ==> d in ids) && Counts(ids, prefix + NodeEdges(node), inDegree, adjacency)
  {
    inDegree, adjacency := inDegree0, adjacency0;
    ghost var built := prefix;
    var j := 0;
    while j < |node.deps|
      invariant 0 <= j <= |node.deps|
      invariant NodeProgress(ids, prefix, node, j, built, inDegree, adjacency)
    {
      var dep := node.deps[j];
      if dep !in nodeMap {
        unknown, at := Some((dep, node.id)), j;
        assert forall t :: 0 <= t < j ==> node.deps[t] in node.deps[..j];
        return;
      }
      NodeStep(ids, prefix, node, j, built, inDegree, adjacency);
      adjacency := adjacency[dep := adjacency[dep] + [node.id]];
      inDegree := inDegree[node.id := inDegree[node.id] + 1];
      built := built + [(dep, node.id)];
      j := j + 1;
    }
    assert node.deps[..j] == node.deps;
    unknown, at := None, 0;
  }

  /** The dependency found unknown is the first unknown one in edge order. */
  lemma UnknownAt(nodes: seq<NodeDecl>, i: nat, j: int, ids: set<string>)
    requires i < |nodes| && FirstUnknown(nodes[i].deps, ids, j)
    requires forall e :: e in Edges(nodes[..i]) ==> e.0 in ids
    ensures exists k :: 0 <= k < |Edges(nodes)| && Edges(nodes)[k] == (nodes[i].deps[j], nodes[i].id)
              && forall t :: 0 <= t < k ==> Edges(nodes)[t].0 in ids
  {
    var pre := Edges(nodes[..i]);
    var node := nodes[i];
    EdgesPrefix(nodes, i, j + 1);
    DepEdgesIndex(node.id, node.deps[..j + 1]);
    var k := |pre| + j;
    assert Edges(nodes)[k] == (node.deps[j], node.id);
    forall t | 0 <= t < k ensures Edges(nodes)[t].0 in ids {
      if t < |pre| {
        assert Edges(nodes)[t] == pre[t];
      } else {
        assert Edges(nodes)[t] == (node.deps[t - |pre|], node.id);
      }
    }
  }

  /** The edge-building loop: stops at the first dependency on an unknown id;
      otherwise every in-degree counts the edges into the id and every
      adjacency list holds the targets of the edges leaving it, in order. */
  method AddEdges(nodes: seq<NodeDecl>, nodeMap: map<string, NodeDecl>,
                  inDegree0: map<string, int>, adjacency0: map<string, seq<string>>)
    returns (unknown: Option<Edge>, inDegree: map<string, int>, adjacency: map<string, seq<string>>)
    requires nodeMap.Keys == inDegree0.Keys == adjacency0.Keys == IdSet(nodes)
    requires forall x :: x in inDegree0 ==> inDegree0[x] == 0 && adjacency0[x] == []
    ensures unknown.Some? <==> exists e :: e in Edges(nodes) && e.0 !in IdSet(nodes)
    ensures unknown.Some? ==>
              exists k :: 0 <= k < |Edges(nodes)| && Edges(nodes)[k] == unknown.value
                && unknown.value.0 !in IdSet(nodes)
                && forall t :: 0 <= t < k ==> Edges(nodes)[t].0 in IdSet(nodes)
    ensures unknown.None? ==>
              && inDegree.Keys == adjacency.Keys == IdSet(nodes)
              && forall x :: x in IdSet(nodes) ==>
                   inDegree[x] == Pending(Edges(nodes), x, {}) && adjacency[x] == Targets(Edges(nodes), x)
  {
    ghost var ids := IdSet(nodes);
    inDegree, adjacency := inDegree0, adjacency0;
    var i := 0;
    while i < |nodes|
      invariant 0 <= i <= |nodes|
      invariant forall e :: e in Edges(nodes[..i]) ==> e.0 in ids
      invariant Counts(ids, Edges(nodes[..i]), inDegree, adjacency)
    {
      var node := nodes[i];
      assert node.id in ids by { IdSetMember(nodes, node.id); }
      ghost var at;
      unknown, at, inDegree, adjacency := AddNodeEdges(node, nodeMap, ids, Edges(nodes[..i]), inDegree, adjacency);
      if unknown.Some? {
        UnknownAt(nodes, i, at, ids);
        return;
      }
      EdgesSnoc(nodes, i);
      forall e | e in NodeEdges(node) ensures e.0 in ids {
        DepEdgesMember(node.id, node.deps, e);
      }
      i := i + 1;
    }
    assert nodes[..i] == nodes;
    unknown := None;
  }

  /** The initial queue: the ids of in-degree 0 (collected in any order, then sorted). */
  method InitialQueue(inDegree: map<string, int>) returns (queue: seq<string>)
    ensures StrictlySorted(queue)
    ensures forall v :: v in queue <==> v in inDegree && inDegree[v] == 0
  {
    queue := [];
    var keys := inDegree.Keys;
    while keys != {}
      invariant keys <= inDegree.Keys
      invariant forall v :: v in queue <==> v in inDegree.Keys - keys && inDegree[v] == 0
      invariant forall a, b :: 0 <= a < b < |queue| ==> queue[a] != queue[b]
      decreases keys
    {
      var id :| id in keys;
      if inDegree[id] == 0 {
        queue := queue + [id];
      }
      keys := keys - {id};
    }
    queue := SortIds(queue);
  }

  /** The inner loop over the emitted node's adjacency list: decrement each
      neighbour's in-degree and insert it into the queue when it reaches 0. */
  method Release(queue0: seq<string>, inDegree0: map<string, int>, adj: seq<string>,
                 ghost edges: seq<Edge>, ghost ids: set<string>, ghost done: set<string>)
    returns (queue: seq<string>, inDegree: map<string, int>)
    requires StrictlySorted(queue0) && inDegree0.Keys == ids
    requires forall x :: x in ids ==> inDegree0[x] == Pending(edges, x, done) + multiset(adj)[x]
    requires forall v :: v in queue0 <==> v in ids && v !in done && inDegree0[v] == 0
    requires forall nb :: nb in adj ==> nb in ids && nb !in done
    ensures StrictlySorted(queue) && inDegree.Keys == ids
    ensures forall x :: x in ids ==> inDegree[x] == Pending(edges, x, done)
    ensures forall v :: v in queue <==> v in ids && v !in done && inDegree[v] == 0
  {
    queue, inDegree := queue0, inDegree0;
    var j := 0;
    while j < |adj|
      invariant 0 <= j <= |adj|
      invariant StrictlySorted(queue) && inDegree.Keys == ids
      invariant forall x :: x in ids ==> inDegree[x] == Pending(edges, x, done) + multiset(adj[j..])[x]
      invariant forall v :: v in queue <==> v in ids && v !in done && inDegree[v] == 0
    {
      var nb := adj[j];
      assert adj[j..] == [nb] + adj[j + 1..];
      var newDegree := inDegree[nb] - 1;
      inDegree := inDegree[nb := newDegree];
      if newDegree == 0 {
        queue := InsertSorted(queue, nb);
      }
      j := j + 1;
    }
  }
  /** Emitting a ready node: its outgoing edges never point back to an emitted
      node, because each emitted node's dependencies were emitted before it. */
  lemma NoEdgeBack(nodes: seq<NodeDecl>, before: set<string>, id: string, nb: string)
    requires Ready(nodes, before, id)
    requires forall u :: u in before ==> DepsDone(nodes, before, u)
    requires (id, nb) in Edges(nodes)
    ensures nb in IdSet(nodes) && nb !in before + {id}
  {
    EdgesMember(nodes, (id, nb));
    var n :| n in nodes && n.id == nb && id in n.deps;
    IdSetMember(nodes, nb);
  }

  /** In-degree zero is readiness. */
  lemma ReadyIffNoPending(nodes: seq<NodeDecl>, done: set<string>, v: string)
    ensures (v in IdSet(nodes) && v !in done && Pending(Edges(nodes), v, done) == 0)
            <==> Ready(nodes, done, v)
  {
    PendingZero(Edges(nodes), v, done);
    forall e | e in Edges(nodes) && e.1 == v ensures DepsDone(nodes, done, v) ==> e.0 in done {
      EdgesMember(nodes, e);
    }
    forall n, d | n in nodes && n.id == v && d in n.deps
      ensures (forall e :: e in Edges(nodes) && e.1 == v ==> e.0 in done) ==> d in done
    {
      EdgesMember(nodes, (d, n.id));
    }
  }

  /** When the queue runs dry before every node is emitted and the ids are
      distinct, the ids left over form a cycle core. */
  lemma StuckIsCycle(nodes: seq<NodeDecl>, stuck: set<string>, x: string)
    requires x in stuck && stuck <= IdSet(nodes)
    requires forall v {:trigger DependsWithin(nodes, stuck, v)} :: v in stuck ==> DependsWithin(nodes, stuck, v)
    ensures CycleCore(nodes, stuck)
  {
  }

  lemma StuckAllDepend(nodes: seq<NodeDecl>, done: set<string>)
    requires forall e :: e in Edges(nodes) ==> e.0 in IdSet(nodes)
    requires forall v :: !Ready(nodes, done, v)
    ensures forall v {:trigger DependsWithin(nodes, IdSet(nodes) - done, v)} ::
              v in IdSet(nodes) - done ==> DependsWithin(nodes, IdSet(nodes) - done, v)
  {
    forall v | v in IdSet(nodes) - done ensures DependsWithin(nodes, IdSet(nodes) - done, v) {
      StuckDep(nodes, done, v);
    }
  }

  lemma StuckDep(nodes: seq<NodeDecl>, done: set<string>, v: string)
    requires forall e :: e in Edges(nodes) ==> e.0 in IdSet(nodes)
    requires v in IdSet(nodes) - done
    requires !Ready(nodes, done, v)
    ensures DependsWithin(nodes, IdSet(nodes) - done, v)
  {
    var n, d :| n in nodes && n.id == v && d in n.deps && d !in done;
    EdgesMember(nodes, (d, v));
    assert (d, v) in Edges(nodes);
    assert d in IdSet(nodes) - done;
  }

  /** Everything emitted, ids distinct: the emitted sequence holds every node. */
  lemma AllEmitted(nodes: seq<NodeDecl>, sorted: seq<NodeDecl>)
    requires DistinctIds(nodes)
    requires IdSet(sorted) == IdSet(nodes)
    requires forall k :: 0 <= k < |sorted| ==> sorted[k] in nodes
    ensures forall n :: n in nodes ==> n in sorted
  {
    forall n | n in nodes ensures n in sorted {
      IdSetMember(sorted, n.id);
      IdSetMember(nodes, n.id);
      var k :| 0 <= k < |sorted| && sorted[k].id == n.id;
      var a :| 0 <= a < |nodes| && nodes[a] == sorted[k];
      var b :| 0 <= b < |nodes| && nodes[b] == n;
    }
  }

  /** The maps built before the main loop: the node of each id and the
      adjacency lists of the whole edge list. */
  ghost predicate Tables(nodes: seq<NodeDecl>, nodeMap: map<string, NodeDecl>,
                         adjacency: map<string, seq<string>>) {
    && nodeMap.Keys == IdSet(nodes) && adjacency.Keys == IdSet(nodes)
    && (forall x :: x in nodeMap ==> nodeMap[x] in nodes && nodeMap[x].id == x)
    && (forall x :: x in adjacency ==> adjacency[x] == Targets(Edges(nodes), x))
  }

  /** What the emitted prefix satisfies: distinct nodes of the input, each the
      smallest ready id at its turn, and closed under dependencies. */
  ghost predicate Emitted(nodes: seq<NodeDecl>, sorted: seq<NodeDecl>) {
    && DistinctIds(sorted)
    && (forall k :: 0 <= k < |sorted| ==> sorted[k] in nodes)
    && (forall k :: 0 <= k < |sorted| ==> IsNextReady(nodes, IdSet(sorted[..k]), sorted[k].id))
    && (forall u :: u in IdSet(sorted) ==> DepsDone(nodes, IdSet(sorted), u))
  }

  /** The queue holds exactly the ready ids, ascending, and every in-degree
      counts the edges into the id from nodes not yet emitted. */
  ghost predicate Frontier(nodes: seq<NodeDecl>, queue: seq<string>, inDegree: map<string, int>,
                           done: set<string>) {
    && StrictlySorted(queue)
    && (forall v :: v in queue <==> Ready(nodes, done, v))
    && inDegree.Keys == IdSet(nodes)
    && forall x :: x in IdSet(nodes) ==> inDegree[x] == Pending(Edges(nodes), x, done)
  }

  lemma EmittedEmpty(nodes: seq<NodeDecl>)
    ensures Emitted(nodes, []) && IdSet([]) == {}
  {
  }

  /** Emitting the smallest ready node keeps the emitted prefix well formed. */
  lemma EmittedSnoc(nodes: seq<NodeDecl>, sorted: seq<NodeDecl>, n: NodeDecl)
    requires Emitted(nodes, sorted) && n in nodes
    requires IsNextReady(nodes, IdSet(sorted), n.id)
    ensures Emitted(nodes, sorted + [n])
    ensures IdSet(sorted + [n]) == IdSet(sorted) + {n.id}
  {
    var s := sorted + [n];
    assert s[..|s| - 1] == sorted;
    IdSetSnoc(s);
    forall k | 0 <= k < |sorted| ensures s[..k] == sorted[..k] {
    }
    forall i, j | 0 <= i < j < |s| ensures s[i].id != s[j].id {
      if j == |sorted| {
        IdSetMember(sorted, s[i].id);
      }
    }
    forall u | u in IdSet(s) ensures DepsDone(nodes, IdSet(s), u) {
      assert DepsDone(nodes, IdSet(sorted), u) || u == n.id;
    }
  }

  /** The head of the queue is the smallest ready id. */
  lemma HeadIsNext(nodes: seq<NodeDecl>, queue: seq<string>, done: set<string>)
    requires |queue| > 0 && StrictlySorted(queue)
    requires forall v :: v in queue <==> Ready(nodes, done, v)
    ensures IsNextReady(nodes, done, queue[0])
  {
    forall u | Ready(nodes, done, u) ensures u == queue[0] || LexLess(queue[0], u) {
      var i :| 0 <= i < |queue| && queue[i] == u;
    }
  }

  /** What `Release` needs after `id`, the head of the queue, is emitted. */
  lemma BeforeRelease(nodes: seq<NodeDecl>, queue: seq<string>, inDegree: map<string, int>,
                      done: set<string>, adj: seq<string>)
    requires |queue| > 0 && Frontier(nodes, queue, inDegree, done)
    requires forall u :: u in done ==> DepsDone(nodes, done, u)
    requires adj == Targets(Edges(nodes), queue[0])
    ensures forall x :: x in IdSet(nodes) ==>
              inDegree[x] == Pending(Edges(nodes), x, done + {queue[0]}) + multiset(adj)[x]
    ensures forall v :: v in queue[1..] <==>
              v in IdSet(nodes) && v !in done + {queue[0]} && inDegree[v] == 0
    ensures forall nb :: nb in adj ==> nb in IdSet(nodes) && nb !in done + {queue[0]}
  {
    var id := queue[0];
    assert Ready(nodes, done, id);
    forall x | x in IdSet(nodes)
      ensures inDegree[x] == Pending(Edges(nodes), x, done + {id}) + multiset(adj)[x]
    {
      PendingEmit(Edges(nodes), x, done, id);
    }
    forall v ensures v in queue[1..] <==> v in IdSet(nodes) && v !in done + {id} && inDegree[v] == 0 {
      ReadyIffNoPending(nodes, done, v);
      if v in queue[1..] {
        var i :| 1 <= i < |queue| && queue[i] == v;
        LexLessIrreflexive(v);
      }
    }
    forall nb | nb in adj ensures nb in IdSet(nodes) && nb !in done + {id} {
      TargetsMember(Edges(nodes), id, nb);
      NoEdgeBack(nodes, done, id, nb);
    }
  }

  /** One turn of the main loop: shift the smallest ready id, emit its node,
      and release its dependents. */
  method EmitNext(nodes: seq<NodeDecl>, nodeMap: map<string, NodeDecl>, adjacency: map<string, seq<string>>,
                  queue0: seq<string>, inDegree0: map<string, int>, sorted0: seq<NodeDecl>)
    returns (queue: seq<string>, inDegree: map<string, int>, sorted: seq<NodeDecl>)
    requires Tables(nodes, nodeMap, adjacency)
    requires Emitted(nodes, sorted0) && IdSet(sorted0) <= IdSet(nodes)
    requires |queue0| > 0 && Frontier(nodes, queue0, inDegree0, IdSet(sorted0))
    ensures Emitted(nodes, sorted) && IdSet(sorted) <= IdSet(nodes)
    ensures Frontier(nodes, queue, inDegree, IdSet(sorted))
    ensures IdSet(sorted0) < IdSet(sorted)
  {
    ghost var done := IdSet(sorted0);
    var id := queue0[0];
    HeadIsNext(nodes, queue0, done);
    BeforeRelease(nodes, queue0, inDegree0, done, adjacency[id]);
    var n := nodeMap[id];
    EmittedSnoc(nodes, sorted0, n);
    sorted := sorted0 + [n];
    queue, inDegree := Release(queue0[1..], inDegree0, adjacency[id], Edges(nodes), IdSet(nodes), done + {id});
    forall v ensures v in queue <==> Ready(nodes, IdSet(sorted), v) {
      ReadyIffNoPending(nodes, IdSet(sorted), v);
    }
  }

  /** `topologicalSort`: Kahn's algorithm with a ready queue kept in ascending
      id order, so that ties are broken alphabetically. */
  method TopologicalSort(nodes: seq<NodeDecl>) returns (r: Result<seq<NodeDecl>>)
    ensures (r.Err? && r.error.UnknownNode?)
            <==> exists e :: e in Edges(nodes) && e.0 !in IdSet(nodes)
    ensures r.Err? && r.error.UnknownNode? ==>
              exists k :: 0 <= k < |Edges(nodes)|
                && Edges(nodes)[k] == (r.error.dep, r.error.nodeId)
                && r.error.dep !in IdSet(nodes)
                && forall t :: 0 <= t < k ==> Edges(nodes)[t].0 in IdSet(nodes)
    ensures r.Err? && r.error.CycleDetected? ==>
              !DistinctIds(nodes) || exists stuck :: CycleCore(nodes, stuck)
    ensures r.Ok? ==> IsKahnOrder(nodes, r.value)
  {
    var nodeMap, inDegree0, adjacency0 := InitMaps(nodes);
    var unknown, inDegree, adjacency := AddEdges(nodes, nodeMap, inDegree0, adjacency0);
    if unknown.Some? {
      return Err(UnknownNode(unknown.value.1, unknown.value.0));
    }
    assert Tables(nodes, nodeMap, adjacency);

    var queue := InitialQueue(inDegree);
    forall v ensures v in queue <==> Ready(nodes, {}, v) {
      ReadyIffNoPending(nodes, {}, v);
    }
    var sorted: seq<NodeDecl> := [];
    EmittedEmpty(nodes);
    while |queue| > 0
      invariant Emitted(nodes, sorted) && IdSet(sorted) <= IdSet(nodes)
      invariant Frontier(nodes, queue, inDegree, IdSet(sorted))
      decreases IdSet(nodes) - IdSet(sorted)
    {
      queue, inDegree, sorted := EmitNext(nodes, nodeMap, adjacency, queue, inDegree, sorted);
    }
    if |sorted| != |nodes| {
      if DistinctIds(nodes) {
        FinishCycle(nodes, sorted);
      }
      return Err(CycleDetected);
    }
    FinishOk(nodes, sorted);
    r := Ok(sorted);
  }

  /** A smaller subset leaves something out. */
  lemma Outside(a: set<string>, b: set<string>) returns (x: string)
    requires a <= b && |a| < |b|
    ensures x in b && x !in a
  {
    assert b == a + (b - a);
    x :| x in b - a;
  }

  lemma SubsetCard(a: set<string>, b: set<string>)
    requires a <= b
    ensures |a| <= |b|
  {
    assert b == a + (b - a);
  }

  /** The queue ran dry early over distinct ids: the ids left over form a cycle core. */
  lemma FinishCycle(nodes: seq<NodeDecl>, sorted: seq<NodeDecl>)
    requires Emitted(nodes, sorted) && IdSet(sorted) <= IdSet(nodes)
    requires forall v :: !Ready(nodes, IdSet(sorted), v)
    requires forall e :: e in Edges(nodes) ==> e.0 in IdSet(nodes)
    requires DistinctIds(nodes) && |sorted| != |nodes|
    ensures exists stuck :: CycleCore(nodes, stuck)
  {
    IdSetCard(sorted);
    IdSetCard(nodes);
    SubsetCard(IdSet(sorted), IdSet(nodes));
    var x := Outside(IdSet(sorted), IdSet(nodes));
    StuckAllDepend(nodes, IdSet(sorted));
    StuckIsCycle(nodes, IdSet(nodes) - IdSet(sorted), x);
  }

  /** Everything was emitted: the emitted sequence is the Kahn order. */
  lemma FinishOk(nodes: seq<NodeDecl>, sorted: seq<NodeDecl>)
    requires Emitted(nodes, sorted) && IdSet(sorted) <= IdSet(nodes)
    requires |sorted| == |nodes|
    ensures IsKahnOrder(nodes, sorted)
  {
    IdSetCard(sorted);
    IdSetCard(nodes);
    SubsetCard(IdSet(sorted), IdSet(nodes));
    SubsetSameSize(IdSet(sorted), IdSet(nodes));
    AllEmitted(nodes, sorted);
  }

  // ───────────────────────── What a Kahn order guarantees ─────────────────────────

  /** Every dependency of every emitted node was emitted earlier. */
  ghost predicate RespectsDeps(s: seq<NodeDecl>) {
    forall k, d :: 0 <= k < |s| && d in s[k].deps ==> d in IdSet(s[..k])
  }

  lemma KahnRespectsDeps(nodes: seq<NodeDecl>, s: seq<NodeDecl>)
    requires IsKahnOrder(nodes, s)
    ensures RespectsDeps(s)
  {
    forall k, d | 0 <= k < |s| && d in s[k].deps ensures d in IdSet(s[..k]) {
      assert IsNextReady(nodes, IdSet(s[..k]), s[k].id);
      assert s[k] in nodes;
    }
  }

  /** With distinct ids there is only one node per id. */
  lemma SameIdSameNode(nodes: seq<NodeDecl>, a: NodeDecl, b: NodeDecl)
    requires DistinctIds(nodes) && a in nodes && b in nodes && a.id == b.id
    ensures a == b
  {
    var i :| 0 <= i < |nodes| && nodes[i] == a;
    var j :| 0 <= j < |nodes| && nodes[j] == b;
  }

  /** The smallest ready id is unique. */
  lemma NextReadyUnique(nodes: seq<NodeDecl>, done: set<string>, v: string, w: string)
    requires IsNextReady(nodes, done, v) && IsNextReady(nodes, done, w)
    ensures v == w
  {
    LexLessAsymmetric(v, w);
  }

  /** There is exactly one Kahn order: the sort is deterministic. */
  lemma KahnOrderUnique(nodes: seq<NodeDecl>, s: seq<NodeDecl>, t: seq<NodeDecl>)
    requires IsKahnOrder(nodes, s) && IsKahnOrder(nodes, t)
    ensures s == t
  {
    var k := 0;
    while k < |s|
      invariant 0 <= k <= |s|
      invariant s[..k] == t[..k]
    {
      NextReadyUnique(nodes, IdSet(s[..k]), s[k].id, t[k].id);
      SameIdSameNode(nodes, s[k], t[k]);
      SliceSnoc(s, k);
      SliceSnoc(t, k);
      k := k + 1;
    }
    assert s == s[..k] && t == t[..k];
  }

  /** A cycle core rules out every dependency-respecting arrangement of the
      nodes with distinct ids: whichever member of the core comes first
      would need another member before it. */
  lemma CycleExcludesOrder(nodes: seq<NodeDecl>, stuck: set<string>, s: seq<NodeDecl>)
    requires CycleCore(nodes, stuck)
    requires forall n :: n in nodes ==> n in s
    requires DistinctIds(s)
    ensures !RespectsDeps(s)
  {
    if RespectsDeps(s) {
      var x :| x in stuck;
      var f := FirstStuck(nodes, stuck, s, x);
      var d := StuckDepOf(nodes, stuck, s, f);
      var c := DepBefore(s, f, d);
    }
  }

  /** The first position of `s` holding a member of the core. */
  lemma FirstStuck(nodes: seq<NodeDecl>, stuck: set<string>, s: seq<NodeDecl>, x: string) returns (f: nat)
    requires x in stuck && x in IdSet(nodes)
    requires forall n :: n in nodes ==> n in s
    ensures f < |s| && s[f].id in stuck
    ensures forall i :: 0 <= i < f ==> s[i].id !in stuck
  {
    IdSetMember(nodes, x);
    var a :| 0 <= a < |nodes| && nodes[a].id == x;
    assert nodes[a] in s;
    f := FirstIn(s, stuck, 0, |s|);
  }

  /** The node at a core position declares a dependency inside the core. */
  lemma StuckDepOf(nodes: seq<NodeDecl>, stuck: set<string>, s: seq<NodeDecl>, f: nat) returns (d: string)
    requires CycleCore(nodes, stuck)
    requires forall n :: n in nodes ==> n in s
    requires DistinctIds(s) && f < |s| && s[f].id in stuck
    ensures d in s[f].deps && d in stuck
  {
    assert DependsWithin(nodes, stuck, s[f].id);
    var n, d' :| n in nodes && n.id == s[f].id && d' in n.deps && d' in stuck;
    var b :| 0 <= b < |s| && s[b] == n;
    assert b == f;
    d := d';
  }

  lemma DepBefore(s: seq<NodeDecl>, f: nat, d: string) returns (c: nat)
    requires RespectsDeps(s) && f < |s| && d in s[f].deps
    ensures c < f && s[c].id == d
  {
    assert d in IdSet(s[..f]);
    var c' :| 0 <= c' < f && s[..f][c'].id == d;
    c := c';
  }

  /** The first index in [lo, hi) whose id is in `ids`, given one exists. */
  lemma {:induction false} FirstIn(s: seq<NodeDecl>, ids: set<string>, lo: nat, hi: nat) returns (f: nat)
    requires lo <= hi <= |s|
    requires exists i :: lo <= i < hi && s[i].id in ids
    ensures lo <= f < hi && s[f].id in ids
    ensures forall i :: lo <= i < f ==> s[i].id !in ids
    decreases hi - lo
  {
    if s[lo].id in ids {
      f := lo;
    } else {
      f := FirstIn(s, ids, lo + 1, hi);
    }
  }

  // ───────────────────────── The day state ─────────────────────────

  /** The state all components read and write during one day. */
  datatype DayState = DayState(
    day: int,
    balance: real,
    assets: map<string, real>,          // asset id -> current value
    debts: map<string, real>,           // debt id -> current principal
    assetLots: map<string, seq<Lot>>,   // asset id -> FIFO lots, oldest first
    fxRates: Rates,
    creditScore: real,
    totalIncome: real,
    totalExpenses: real,
    totalDebtPayments: real,
    missedPayments: int,
    realizedGains: real,
    taxesPaid: real,
    shockImpact: real)

  /** The credit score every run starts from. */
  const StartingCreditScore: real := 650.0

  /** The lots an asset starts with: a non-empty override, else one lot whose
      cost basis is the asset's value. */
  function InitialLots(a: Asset, opts: RuntimeOptions): seq<Lot> {
    if a.id in opts.initialAssetLots && |opts.initialAssetLots[a.id]| > 0
    then opts.initialAssetLots[a.id]
    else [Lot(a.value, a.value)]
  }

  /** Asset id -> value, a later asset overwriting an earlier one with the same id. */
  function AssetValues(assets: seq<Asset>): map<string, real> {
    if assets == [] then map[]
    else AssetValues(assets[..|assets| - 1])[assets[|assets| - 1].id := assets[|assets| - 1].value]
  }

  function AssetLotsMap(assets: seq<Asset>, opts: RuntimeOptions): map<string, seq<Lot>> {
    if assets == [] then map[]
    else AssetLotsMap(assets[..|assets| - 1], opts)[assets[|assets| - 1].id := InitialLots(assets[|assets| - 1], opts)]
  }

  function DebtPrincipals(debts: seq<Debt>): map<string, real> {
    if debts == [] then map[]
    else DebtPrincipals(debts[..|debts| - 1])[debts[|debts| - 1].id := debts[|debts| - 1].principal]
  }

  /** The state before day 0. */
  function InitialState(input: SimulationInput, opts: RuntimeOptions): DayState {
    DayState(0, input.startingCash, AssetValues(input.assets), DebtPrincipals(input.debts),
             AssetLotsMap(input.assets, opts), input.fx.baseRates, StartingCreditScore,
             0.0, 0.0, 0.0, 0, 0.0, 0.0, 0.0)
  }

  /** `createInitialState`: the two filling loops. */
  method CreateInitialState(input: SimulationInput, opts: RuntimeOptions) returns (st: DayState)
    ensures st == InitialState(input, opts)
  {
    var assets: map<string, real> := map[];
    var assetLots: map<string, seq<Lot>> := map[];
    var i := 0;
    while i < |input.assets|
      invariant 0 <= i <= |input.assets|
      invariant assets == AssetValues(input.assets[..i])
      invariant assetLots == AssetLotsMap(input.assets[..i], opts)
    {
      var a := input.assets[i];
      assets := assets[a.id := a.value];
      var overridden := if a.id in opts.initialAssetLots then opts.initialAssetLots[a.id] else [];
      if |overridden| > 0 {
        assetLots := assetLots[a.id := overridden];
      } else {
        assetLots := assetLots[a.id := [Lot(a.value, a.value)]];
      }
      assert input.assets[..i + 1][..i] == input.assets[..i];
      i := i + 1;
    }
    assert input.assets[..i] == input.assets;
    var debts: map<string, real> := map[];
    i := 0;
    while i < |input.debts|
      invariant 0 <= i <= |input.debts|
      invariant debts == DebtPrincipals(input.debts[..i])
    {
      debts := debts[input.debts[i].id := input.debts[i].principal];
      assert input.debts[..i + 1][..i] == input.debts[..i];
      i := i + 1;
    }
    assert input.debts[..i] == input.debts;
    st := DayState(0, input.startingCash, assets, debts, assetLots, input.fx.baseRates, StartingCreditScore,
                   0.0, 0.0, 0.0, 0, 0.0, 0.0, 0.0);
  }

  /** `k` is the last position holding its id. */
  predicate LastOfId(ids: seq<string>, k: int) {
    0 <= k < |ids| && forall j :: k < j < |ids| ==> ids[j] != ids[k]
  }

  function AssetIds(assets: seq<Asset>): seq<string> {
    seq(|assets|, k requires 0 <= k < |assets| => assets[k].id)
  }

  function DebtIds(debts: seq<Debt>): seq<string> {
    seq(|debts|, k requires 0 <= k < |debts| => debts[k].id)
  }

  lemma {:induction false} AssetValuesLookup(assets: seq<Asset>)
    ensures AssetValues(assets).Keys == set a | a in assets :: a.id
    ensures forall k :: LastOfId(AssetIds(assets), k) ==> AssetValues(assets)[assets[k].id] == assets[k].value
    decreases |assets|
  {
    if assets != [] {
      var p := assets[..|assets| - 1];
      var last := assets[|assets| - 1];
      AssetValuesLookup(p);
      assert assets == p + [last];
      forall k | LastOfId(AssetIds(assets), k) ensures AssetValues(assets)[assets[k].id] == assets[k].value {
        if k < |p| {
          LastOfIdPrefix(AssetIds(assets), AssetIds(p), k);
        }
      }
    }
  }

  lemma {:induction false} AssetLotsLookup(assets: seq<Asset>, opts: RuntimeOptions)
    ensures AssetLotsMap(assets, opts).Keys == set a | a in assets :: a.id
    ensures forall k :: LastOfId(AssetIds(assets), k) ==>
              AssetLotsMap(assets, opts)[assets[k].id] == InitialLots(assets[k], opts)
    decreases |assets|
  {
    if assets != [] {
      var p := assets[..|assets| - 1];
      var last := assets[|assets| - 1];
      AssetLotsLookup(p, opts);
      assert assets == p + [last];
      forall k | LastOfId(AssetIds(assets), k)
        ensures AssetLotsMap(assets, opts)[assets[k].id] == InitialLots(assets[k], opts)
      {
        if k < |p| {
          LastOfIdPrefix(AssetIds(assets), AssetIds(p), k);
        }
      }
    }
  }

  /** A last position that is not the very last is a last position of the prefix,
      and its id differs from the final one. */
  lemma LastOfIdPrefix(ids: seq<string>, p: seq<string>, k: int)
    requires |ids| > 0 && p == ids[..|ids| - 1]
    requires LastOfId(ids, k) && k < |p|
    ensures LastOfId(p, k) && ids[k] != ids[|ids| - 1]
  {
  }

  lemma {:induction false} DebtMapLookup(debts: seq<Debt>)
    ensures DebtPrincipals(debts).Keys == set d | d in debts :: d.id
    ensures forall k :: LastOfId(DebtIds(debts), k) ==> DebtPrincipals(debts)[debts[k].id] == debts[k].principal
    decreases |debts|
  {
    if debts != [] {
      var p := debts[..|debts| - 1];
      var last := debts[|debts| - 1];
      DebtMapLookup(p);
      assert debts == p + [last];
      forall k | LastOfId(DebtIds(debts), k) ensures DebtPrincipals(debts)[debts[k].id] == debts[k].principal {
        if k < |p| {
          LastOfIdPrefix(DebtIds(debts), DebtIds(p), k);
        }
      }
    }
  }

  /** What `createInitialState` produces: day 0, the starting cash, a credit
      score of 650, every counter at zero, the base rates, and per asset (the
      last one declared with its id) its value and its initial lots. */
  lemma InitialStateFacts(input: SimulationInput, opts: RuntimeOptions)
    ensures var st := InitialState(input, opts);
      && st.day == 0 && st.balance == input.startingCash && st.creditScore == 650.0
      && st.totalIncome == st.totalExpenses == st.totalDebtPayments == 0.0
      && st.missedPayments == 0 && st.realizedGains == st.taxesPaid == st.shockImpact == 0.0
      && st.fxRates == input.fx.baseRates
      && st.assets.Keys == st.assetLots.Keys == (set a | a in input.assets :: a.id)
      && st.debts.Keys == (set d | d in input.debts :: d.id)
      && (forall k :: LastOfId(AssetIds(input.assets), k) ==>
            && st.assets[input.assets[k].id] == input.assets[k].value
            && st.assetLots[input.assets[k].id] == InitialLots(input.assets[k], opts))
      && (forall k :: LastOfId(DebtIds(input.debts), k) ==>
            st.debts[input.debts[k].id] == input.debts[k].principal)
  {
    AssetValuesLookup(input.assets);
    AssetLotsLookup(input.assets, opts);
    DebtMapLookup(input.debts);
  }

  /** An asset without a non-empty override starts with a single lot whose cost
      basis and value are both the asset's value; otherwise with the override. */
  lemma InitialLotsCases(a: Asset, opts: RuntimeOptions)
    ensures (a.id !in opts.initialAssetLots || opts.initialAssetLots[a.id] == [])
            ==> InitialLots(a, opts) == [Lot(a.value, a.value)]
    ensures (a.id in opts.initialAssetLots && opts.initialAssetLots[a.id] != [])
            ==> InitialLots(a, opts) == opts.initialAssetLots[a.id]
  {
  }

  function CopyLots(lots: seq<Lot>): seq<Lot> {
    seq(|lots|, i requires 0 <= i < |lots| => Lot(lots[i].costBasis, lots[i].value))
  }

  /** `cloneState`: fresh maps and fresh lot records.  With value semantics the
      copy is equal to the original, and no later update of either can reach
      the other. */
  function CloneState(s: DayState): (r: DayState)
    ensures r == s
  {
    CopiesEqual(s);
    s.(assets := map k | k in s.assets :: s.assets[k],
       debts := map k | k in s.debts :: s.debts[k],
       assetLots := map k | k in s.assetLots :: CopyLots(s.assetLots[k]))
  }

  lemma CopiesEqual(s: DayState)
    ensures (map k | k in s.assets :: s.assets[k]) == s.assets
    ensures (map k | k in s.debts :: s.debts[k]) == s.debts
    ensures (map k | k in s.assetLots :: CopyLots(s.assetLots[k])) == s.assetLots
  {
    forall k | k in s.assetLots ensures CopyLots(s.assetLots[k]) == s.assetLots[k] {
    }
  }

  /** Net asset value: cash plus asset values minus debt principals. */
  ghost function Nav(s: DayState): real {
    s.balance + SumValues(s.assets) - SumValues(s.debts)
  }

  /** `stateToSnapshot`: nav accumulated over the two maps, the other fields copied. */
  method StateToSnapshot(s: DayState, balanceP5: real, balanceP95: real, navP5: real, navP95: real)
    returns (snap: DaySnapshot)
    ensures snap.nav == s.balance + SumValues(s.assets) - SumValues(s.debts)
    ensures snap == DaySnapshot(s.day, s.balance, Nav(s), s.creditScore, balanceP5, balanceP95, navP5, navP95)
  {
    var totalAssets := SumMap(s.assets);
    var totalDebts := SumMap(s.debts);
    var nav := s.balance + totalAssets - totalDebts;
    snap := DaySnapshot(s.day, s.balance, nav, s.creditScore, balanceP5, balanceP95, navP5, navP95);
  }

  /** Changing one asset's value by delta changes nav by delta. */
  lemma NavAssetUpdate(s: DayState, id: string, v: real)
    requires id in s.assets
    ensures Nav(s.(assets := s.assets[id := v])) == Nav(s) + (v - s.assets[id])
  {
    SumValuesUpdate(s.assets, id, v);
  }

  /** Changing one principal by delta changes nav by minus delta. */
  lemma NavDebtUpdate(s: DayState, id: string, v: real)
    requires id in s.debts
    ensures Nav(s.(debts := s.debts[id := v])) == Nav(s) - (v - s.debts[id])
  {
    SumValuesUpdate(s.debts, id, v);
  }
}
