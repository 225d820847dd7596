/** Dependency graphs, and the cycle search that plan validation runs on them. */
module DependencyGraph {
  type StepId = string

  /** Adjacency lists; a node without an entry has no successor. */
  type Edges = map<StepId, seq<StepId>>

  function Successors(edges: Edges, u: StepId): seq<StepId> {
    if u in edges then edges[u] else []
  }

  /** Edges leaving the node set are ignored, as the search ignores them. */
  ghost predicate IsEdge(ids: set<StepId>, edges: Edges, u: StepId, v: StepId) {
    u in ids && v in ids && v in Successors(edges, u)
  }

  ghost predicate IsPath(ids: set<StepId>, edges: Edges, p: seq<StepId>) {
    forall i | 0 <= i < |p| - 1 :: IsEdge(ids, edges, p[i], p[i + 1])
  }

  ghost predicate IsCycle(ids: set<StepId>, edges: Edges, c: seq<StepId>) {
    |c| > 0 && IsPath(ids, edges, c) && IsEdge(ids, edges, c[|c| - 1], c[0])
  }

  ghost predicate Acyclic(ids: set<StepId>, edges: Edges) {
    forall c :: !IsCycle(ids, edges, c)
  }

  /** Every edge goes down in rank. */
  ghost predicate Ranked(ids: set<StepId>, edges: Edges, rank: map<StepId, nat>) {
    && ids <= rank.Keys
    && forall u, v | IsEdge(ids, edges, u, v) :: rank[v] < rank[u]
  }

  lemma {:induction false} PathDescends(ids: set<StepId>, edges: Edges, rank: map<StepId, nat>, p: seq<StepId>, i: nat)
    requires Ranked(ids, edges, rank) && IsPath(ids, edges, p) && i < |p| && p[0] in ids
    ensures p[i] in ids && rank[p[i]] <= rank[p[0]]
  {
    if i > 0 {
      PathDescends(ids, edges, rank, p, i - 1);
      assert IsEdge(ids, edges, p[i - 1], p[i]);
    }
  }

  lemma RankedIsAcyclic(ids: set<StepId>, edges: Edges, rank: map<StepId, nat>)
    requires Ranked(ids, edges, rank)
    ensures Acyclic(ids, edges)
  {
    forall c ensures !IsCycle(ids, edges, c) {
      if IsCycle(ids, edges, c) {
        PathDescends(ids, edges, rank, c, |c| - 1);
      }
    }
  }

  function Reverse(p: seq<StepId>): (r: seq<StepId>)
    ensures |r| == |p|
    ensures forall i | 0 <= i < |p| :: r[i] == p[|p| - 1 - i]
  {
    if p == [] then [] else Reverse(p[1..]) + [p[0]]
  }

  /** One adjacency map holds exactly the edges of the other, turned around. */
  ghost predicate Opposite(ids: set<StepId>, edges: Edges, flipped: Edges) {
    forall u, v :: IsEdge(ids, edges, u, v) <==> IsEdge(ids, flipped, v, u)
  }

  lemma ReversedCycle(ids: set<StepId>, edges: Edges, flipped: Edges, c: seq<StepId>)
    requires Opposite(ids, edges, flipped) && IsCycle(ids, edges, c)
    ensures IsCycle(ids, flipped, Reverse(c))
  {
    var r := Reverse(c);
    forall i | 0 <= i < |r| - 1 ensures IsEdge(ids, flipped, r[i], r[i + 1]) {
      var j := |c| - 2 - i;
      assert IsEdge(ids, edges, c[j], c[j + 1]);
    }
  }

  /** The two searches walk opposite directions; acyclicity does not depend on which. */
  lemma OppositeAcyclic(ids: set<StepId>, edges: Edges, flipped: Edges)
    requires Opposite(ids, edges, flipped)
    ensures Acyclic(ids, edges) <==> Acyclic(ids, flipped)
  {
    forall c | IsCycle(ids, edges, c) ensures !Acyclic(ids, flipped) {
      ReversedCycle(ids, edges, flipped, c);
    }
    forall c | IsCycle(ids, flipped, c) ensures !Acyclic(ids, edges) {
      ReversedCycle(ids, flipped, edges, c);
    }
  }

  ghost predicate NoDuplicates<T(!new)>(s: seq<T>) {
    forall i, j | 0 <= i < j < |s| :: s[i] != s[j]
  }

  function Elements<T(==)>(s: seq<T>): set<T> {
    set x | x in s
  }

  lemma {:induction false} DistinctCount<T(!new)>(s: seq<T>)
    ensures |Elements(s)| <= |s|
    ensures |Elements(s)| == |s| <==> NoDuplicates(s)
  {
    if s != [] {
      var init, last := s[..|s| - 1], s[|s| - 1];
      DistinctCount(init);
      assert s == init + [last];
      if last in init {
        assert Elements(s) == Elements(init);
      } else {
        assert Elements(s) == Elements(init) + {last};
      }
    }
  }

  datatype Color = White | Gray | Black

  /** Grey nodes are the path on the stack; black nodes are ranked, all their edges leading to lower black nodes. */
  ghost predicate Consistent(ids: set<StepId>, edges: Edges, color: map<StepId, Color>, stack: seq<StepId>,
                             rank: map<StepId, nat>, clock: nat)
  {
    && color.Keys == ids
    && NoDuplicates(stack) && IsPath(ids, edges, stack)
    && (forall u :: u in stack <==> u in ids && color[u] == Gray)
    && (forall u :: u in rank <==> u in ids && color[u] == Black)
    && (forall u | u in rank :: rank[u] < clock)
    && (forall u, v | u in rank && IsEdge(ids, edges, u, v) :: v in rank && rank[v] < rank[u])
  }

  ghost function WhiteNodes(color: map<StepId, Color>): set<StepId> {
    set u | u in color && color[u] == White
  }

  lemma PopConsistent(ids: set<StepId>, edges: Edges, color: map<StepId, Color>, below: seq<StepId>, u: StepId,
                      rank: map<StepId, nat>, clock: nat)
    requires Consistent(ids, edges, color, below + [u], rank, clock)
    requires forall v | IsEdge(ids, edges, u, v) :: v in rank
    ensures u in ids && Consistent(ids, edges, color[u := Black], below, rank[u := clock], clock + 1)
    ensures WhiteNodes(color[u := Black]) == WhiteNodes(color) && u !in rank
  {
    var stack := below + [u];
    assert stack[|below|] == u && u in stack;
    assert forall x :: x in stack <==> x in below || x == u;
    assert forall i | 0 <= i < |below| :: below[i] == stack[i];
  }

  /** The colour map, the grey stack and the captured `cycle_nodes` list of the search. */
  class CycleSearch {
    const ids: set<StepId>
    const edges: Edges
    var color: map<StepId, Color>
    var stack: seq<StepId>
    var cycleNodes: seq<StepId>
    // Finishing times of the black nodes.
    ghost var rank: map<StepId, nat>
    ghost var clock: nat

    constructor (ids: set<StepId>, edges: Edges)
      ensures this.ids == ids && this.edges == edges
      ensures Valid() && stack == [] && Whites() == ids
    {
      this.ids, this.edges := ids, edges;
      color := map i | i in ids :: White;
      stack, cycleNodes := [], [];
      rank, clock := map[], 0;
    }

    ghost predicate Valid()
      reads this
    {
      Consistent(ids, edges, color, stack, rank, clock) && cycleNodes == []
    }

    ghost function Whites(): set<StepId>
      reads this
    {
      WhiteNodes(color)
    }

    /** Colours `u` grey and pushes it. */
    method Enter(u: StepId)
      requires Valid() && u in Whites()
      requires stack == [] || IsEdge(ids, edges, stack[|stack| - 1], u)
      modifies this`color, this`stack
      ensures Valid() && u in ids && stack == old(stack) + [u] && Whites() == old(Whites()) - {u}
    {
      assert u !in stack;
      color := color[u := Gray];
      stack := stack + [u];
    }

    /** Pops `u` and colours it black; all its successors are black by now. */
    method Leave(u: StepId, ghost below: seq<StepId>)
      requires Valid() && stack == below + [u]
      requires forall v | IsEdge(ids, edges, u, v) :: v in rank
      modifies this`color, this`stack, this`rank, this`clock
      ensures Valid() && stack == below && Whites() == old(Whites())
      ensures rank == old(rank)[u := old(clock)] && u !in old(rank)
    {
      PopConsistent(ids, edges, color, below, u, rank, clock);
      stack := stack[..|stack| - 1];
      assert stack == below;
      color := color[u := Black];
      rank, clock := rank[u := clock], clock + 1;
    }

    /** The stack from the grey node `v` on is the cycle found. */
    method ReportCycle(v: StepId)
      requires Valid() && v in stack && IsEdge(ids, edges, stack[|stack| - 1], v)
      modifies this`cycleNodes
      ensures IsCycle(ids, edges, cycleNodes)
    {
      var idx :| 0 <= idx < |stack| && stack[idx] == v;
      CloseCycle(ids, edges, stack, idx);
      cycleNodes := cycleNodes + stack[idx..];
    }

    /** `dfs`: true when a cycle was found, and then `cycleNodes` is one. */
    method Dfs(u: StepId) returns (found: bool)
      requires Valid() && u in Whites()
      requires stack == [] || IsEdge(ids, edges, stack[|stack| - 1], u)
      modifies this
      ensures found ==> IsCycle(ids, edges, cycleNodes)
      ensures !found ==> Valid() && stack == old(stack) && Whites() <= old(Whites()) - {u}
      ensures !found ==> u in rank && old(rank).Keys <= rank.Keys
      decreases Whites(), 0
    {
      hide Consistent;
      Enter(u);
      ghost var entered := stack;
      var successors := Successors(edges, u);
      for k := 0 to |successors|
        invariant Valid() && stack == entered && Whites() <= old(Whites()) - {u}
        invariant forall j | 0 <= j < k && successors[j] in ids :: successors[j] in rank
        invariant old(rank).Keys <= rank.Keys
      {
        var inner := Follow(u, successors[k]);
        if inner {
          return true;
        }
      }
      forall v | IsEdge(ids, edges, u, v) ensures v in rank {
        var j :| 0 <= j < |successors| && successors[j] == v;
      }
      Leave(u, old(stack));
      found := false;
    }

    /** One turn of the loop over the successors of `u`. */
    method Follow(u: StepId, v: StepId) returns (found: bool)
      requires Valid() && u in ids && stack != [] && stack[|stack| - 1] == u && v in Successors(edges, u)
      modifies this
      ensures found ==> IsCycle(ids, edges, cycleNodes)
      ensures !found ==> Valid() && stack == old(stack) && Whites() <= old(Whites())
      ensures !found ==> old(rank).Keys <= rank.Keys && (v in ids ==> v in rank)
      decreases Whites(), 1
    {
      if v !in ids {
        return false;
      }
      assert IsEdge(ids, edges, u, v);
      if color[v] == Gray {
        ReportCycle(v);
        return true;
      }
      if color[v] == White {
        found := Dfs(v);
        return;
      }
      found := false;
    }
  }

  /** The stack from a grey node onwards closes when its top points back at that node. */
  lemma CloseCycle(ids: set<StepId>, edges: Edges, stack: seq<StepId>, idx: nat)
    requires IsPath(ids, edges, stack) && idx < |stack|
    requires IsEdge(ids, edges, stack[|stack| - 1], stack[idx])
    ensures IsCycle(ids, edges, stack[idx..])
  {
    var c := stack[idx..];
    forall i | 0 <= i < |c| - 1 ensures IsEdge(ids, edges, c[i], c[i + 1]) {
      assert IsEdge(ids, edges, stack[idx + i], stack[idx + i + 1]);
    }
  }

  lemma WalkToSink(ids: set<StepId>, edges: Edges, open: set<StepId>, walk: seq<StepId>) returns (u: StepId)
    requires Acyclic(ids, edges) && open <= ids
    requires walk != [] && IsPath(ids, edges, walk) && NoDuplicates(walk) && forall x | x in walk :: x in open
    ensures u in open && forall v | v in open :: !IsEdge(ids, edges, u, v)
    decreases open - set x | x in walk
  {
    u := walk[|walk| - 1];
    if v :| v in open && IsEdge(ids, edges, u, v) {
      if k :| 0 <= k < |walk| && walk[k] == v {
        CloseCycle(ids, edges, walk, k);
        assert false;
      }
      assert v !in walk;
      var further := walk + [v];
      assert v in further && (forall x | x in walk :: x in further);
      assert forall i | 0 <= i < |walk| :: further[i] == walk[i];
      assert v in open - (set x | x in walk) && v !in open - (set x | x in further);
      u := WalkToSink(ids, edges, open, further);
    }
  }

  /** In an acyclic graph some node of any nonempty set points at no node of that set. */
  lemma AcyclicHasSink(ids: set<StepId>, edges: Edges, open: set<StepId>) returns (u: StepId)
    requires Acyclic(ids, edges) && open <= ids && open != {}
    ensures u in open && forall v | v in open :: !IsEdge(ids, edges, u, v)
  {
    var start :| start in open;
    u := WalkToSink(ids, edges, open, [start]);
  }

  /** `_graph_has_cycle`, for whatever order the node set is iterated in. */
  method GraphHasCycle(ids: set<StepId>, edges: Edges) returns (cycle: seq<StepId>)
    ensures cycle == [] <==> Acyclic(ids, edges)
    ensures cycle != [] ==> IsCycle(ids, edges, cycle)
  {
    var search := new CycleSearch(ids, edges);
    var todo := ids;
    while todo != {}
      invariant search.ids == ids && search.edges == edges
      invariant search.Valid() && search.stack == [] && todo <= ids
      invariant forall u | u in ids - todo :: u in search.rank
      decreases |todo|
    {
      var node :| node in todo;
      todo := todo - {node};
      if search.color[node] == White {
        var found := search.Dfs(node);
        if found {
          return search.cycleNodes;
        }
      }
      assert search.color[node] == Black;
    }
    RankedIsAcyclic(ids, edges, search.rank);
    return [];
  }
}
