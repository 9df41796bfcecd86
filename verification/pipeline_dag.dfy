/** The stage dependency graph (src/pipeline/dag.rs). Node `i` stands for
    the `i`-th declared stage; an edge `Edge(u, v)` says stage `u` must run
    before stage `v`. Parallel edges are kept, as the graph library does. */
module Dag {
  import opened Wrappers
  import opened Strings
  import opened Errors
  import opened Definition
  import Seqs

  datatype Edge = Edge(src: nat, dst: nat)

  /** The built graph and the two name lookups kept beside it. */
  datatype DagBuilder = DagBuilder(
    nodeCount: nat,
    edges: seq<Edge>,
    nameToIndex: map<string, nat>,
    indexToName: map<nat, string>)

  function Nodes(n: nat): (r: set<nat>)
    ensures forall v: nat :: v in r <==> v < n
  {
    if n == 0 then {} else Nodes(n - 1) + {n - 1}
  }

  predicate HasEdge(edges: seq<Edge>, u: nat, v: nat) {
    Edge(u, v) in edges
  }

  predicate EdgesWithin(edges: seq<Edge>, n: nat) {
    forall k :: 0 <= k < |edges| ==> edges[k].src < n && edges[k].dst < n
  }

  /** Consecutive elements of `p` are joined by edges. */
  ghost predicate IsPath(edges: seq<Edge>, p: seq<nat>) {
    |p| >= 1 && forall i :: 0 <= i < |p| - 1 ==> HasEdge(edges, p[i], p[i + 1])
  }

  /** `b` can be reached from `a`; every node reaches itself. */
  ghost predicate Reaches(edges: seq<Edge>, a: nat, b: nat) {
    exists p :: IsPath(edges, p) && p[0] == a && p[|p| - 1] == b
  }

  /** Some node reaches itself along at least one edge. */
  ghost predicate HasCycle(edges: seq<Edge>) {
    exists p :: IsPath(edges, p) && |p| >= 2 && p[0] == p[|p| - 1]
  }

  // ---------------------------------------------------------------------
  // Paths

  lemma PathExtend(edges: seq<Edge>, a: nat, u: nat, v: nat)
    requires Reaches(edges, a, u) && HasEdge(edges, u, v)
    ensures Reaches(edges, a, v)
  {
    var p :| IsPath(edges, p) && p[0] == a && p[|p| - 1] == u;
    var q := p + [v];
    assert IsPath(edges, q);
  }

  lemma PathConcat(edges: seq<Edge>, p: seq<nat>, q: seq<nat>)
    requires IsPath(edges, p) && IsPath(edges, q) && p[|p| - 1] == q[0]
    ensures IsPath(edges, p + q[1..]) && |p + q[1..]| == |p| + |q| - 1
  {
    var r := p + q[1..];
    forall i | 0 <= i < |r| - 1 ensures HasEdge(edges, r[i], r[i + 1]) {
      if i < |p| - 1 {
        assert r[i] == p[i] && r[i + 1] == p[i + 1];
      } else {
        assert r[i] == q[i - |p| + 1] && r[i + 1] == q[i - |p| + 2];
      }
    }
  }

  lemma ReachesTrans(edges: seq<Edge>, a: nat, b: nat, c: nat)
    requires Reaches(edges, a, b) && Reaches(edges, b, c)
    ensures Reaches(edges, a, c)
  {
    var p :| IsPath(edges, p) && p[0] == a && p[|p| - 1] == b;
    var q :| IsPath(edges, q) && q[0] == b && q[|q| - 1] == c;
    PathConcat(edges, p, q);
    var r := p + q[1..];
    assert r[0] == a && r[|r| - 1] == c;
  }

  lemma PathFirstEdge(edges: seq<Edge>, p: seq<nat>)
    requires IsPath(edges, p) && |p| >= 2
    ensures Edge(p[0], p[1]) in edges
  {
    assert HasEdge(edges, p[0], p[1]);
  }

  /** A graph without edges has no cycle. */
  lemma NoEdgesNoCycle()
    ensures !HasCycle([])
  {
    forall p | IsPath([], p) && |p| >= 2 ensures false {
      PathFirstEdge([], p);
    }
  }

  // ---------------------------------------------------------------------
  // Topological sorting (the graph library's `toposort`, as Kahn's method)

  /** Every edge into `v` starts in `placed`. */
  predicate Ready(edges: seq<Edge>, placed: set<nat>, v: nat) {
    forall k :: 0 <= k < |edges| && edges[k].dst == v ==> edges[k].src in placed
  }

  /** Every dependency of `order[i]` occurs before it. */
  predicate PredsBefore(edges: seq<Edge>, order: seq<nat>, i: nat)
    requires i < |order|
  {
    forall k :: 0 <= k < |edges| && edges[k].dst == order[i] ==> edges[k].src in order[..i]
  }

  /** `order` lists every node exactly once, each after all its dependencies. */
  predicate IsTopoOrder(order: seq<nat>, n: nat, edges: seq<Edge>) {
    (forall i :: 0 <= i < |order| ==> order[i] < n)
    && (forall i, j :: 0 <= i < j < |order| ==> order[i] != order[j])
    && (forall v: nat :: v < n ==> v in order)
    && (forall i :: 0 <= i < |order| ==> PredsBefore(edges, order, i))
  }

  /** Every node of `r` has an edge into it from `r`. */
  predicate Stuck(edges: seq<Edge>, r: set<nat>) {
    forall v {:trigger HasPredIn(edges, r, v)} :: v in r ==> HasPredIn(edges, r, v)
  }

  /** Some edge into `v` starts in `r`. */
  predicate HasPredIn(edges: seq<Edge>, r: set<nat>, v: nat) {
    exists k :: 0 <= k < |edges| && edges[k].dst == v && edges[k].src in r
  }

  function FirstReady(n: nat, edges: seq<Edge>, placed: set<nat>, from: nat): (r: Option<nat>)
    ensures r.Some? ==> from <= r.value < n && r.value !in placed && Ready(edges, placed, r.value)
    ensures r.None? ==> forall v: nat :: from <= v < n && v !in placed ==> !Ready(edges, placed, v)
    decreases n - from
  {
    if from >= n then None
    else if from !in placed && Ready(edges, placed, from) then Some(from)
    else FirstReady(n, edges, placed, from + 1)
  }

  function FirstUnplaced(n: nat, placed: set<nat>, from: nat): (r: Option<nat>)
    ensures r.Some? ==> from <= r.value < n && r.value !in placed
    ensures r.None? ==> forall v: nat :: from <= v < n ==> v in placed
    decreases n - from
  {
    if from >= n then None
    else if from !in placed then Some(from)
    else FirstUnplaced(n, placed, from + 1)
  }

  /** Kahn's method: repeatedly place a node all of whose dependencies are
      placed. It ends either with a topological order or with the set of
      nodes that could not be placed, each of which waits on another. */
  function Kahn(n: nat, edges: seq<Edge>, order: seq<nat>, placed: set<nat>): (r: Result<seq<nat>, set<nat>>)
    requires EdgesWithin(edges, n)
    requires forall v :: v in placed <==> v in order
    requires forall i :: 0 <= i < |order| ==> order[i] < n
    requires forall i, j :: 0 <= i < j < |order| ==> order[i] != order[j]
    requires forall i :: 0 <= i < |order| ==> PredsBefore(edges, order, i)
    ensures r.Ok? ==> IsTopoOrder(r.value, n, edges)
    ensures r.Err? ==> r.error != {} && r.error <= Nodes(n) && Stuck(edges, r.error)
    decreases Nodes(n) - placed
  {
    match FirstReady(n, edges, placed, 0)
    case None =>
      if FirstUnplaced(n, placed, 0).None? then Ok(order)
      else
        var rest := Nodes(n) - placed;
        assert FirstUnplaced(n, placed, 0).value in rest;
        assert Stuck(edges, rest) by {
          forall v | v in rest ensures HasPredIn(edges, rest, v) {
            assert !Ready(edges, placed, v);
          }
        }
        Err(rest)
    case Some(v) =>
      var order' := order + [v];
      assert forall i :: 0 <= i < |order| ==> order'[..i] == order[..i];
      assert order'[..|order|] == order;
      assert forall i :: 0 <= i < |order'| ==> PredsBefore(edges, order', i) by {
        forall i | 0 <= i < |order'| ensures PredsBefore(edges, order', i) {
          if i < |order| { assert PredsBefore(edges, order, i); }
        }
      }
      assert v in Nodes(n) - placed;
      Kahn(n, edges, order', placed + {v})
  }

  /** A topological order of the nodes `0..n-1`, or the nodes on or behind
      a cycle; which order is returned among the valid ones is not fixed. */
  function TopoSort(n: nat, edges: seq<Edge>): (r: Result<seq<nat>, set<nat>>)
    requires EdgesWithin(edges, n)
    ensures r.Ok? ==> IsTopoOrder(r.value, n, edges)
    ensures r.Err? ==> r.error != {} && r.error <= Nodes(n)
    ensures r.Ok? <==> !HasCycle(edges)
  {
    var r := Kahn(n, edges, [], {});
    if r.Ok? then TopoOrderAcyclic(r.value, n, edges); r
    else StuckHasCycle(edges, r.error); r
  }

  function IndexOf(order: seq<nat>, v: nat): (i: nat)
    requires v in order
    ensures i < |order| && order[i] == v
    ensures forall j :: 0 <= j < i ==> order[j] != v
  {
    if order[0] == v then 0 else 1 + IndexOf(order[1..], v)
  }

  lemma EdgeGoesForward(order: seq<nat>, n: nat, edges: seq<Edge>, u: nat, v: nat)
    requires IsTopoOrder(order, n, edges) && EdgesWithin(edges, n) && HasEdge(edges, u, v)
    ensures u in order && v in order && IndexOf(order, u) < IndexOf(order, v)
  {
    var k :| 0 <= k < |edges| && edges[k] == Edge(u, v);
    assert u < n && v < n;
    var iv := IndexOf(order, v);
    assert PredsBefore(edges, order, iv);
    assert u in order[..iv];
    var j :| 0 <= j < iv && order[j] == u;
    var iu := IndexOf(order, u);
    assert order[iu] == order[j];
  }

  lemma {:induction false} PathGoesForward(order: seq<nat>, n: nat, edges: seq<Edge>, p: seq<nat>)
    requires IsTopoOrder(order, n, edges) && EdgesWithin(edges, n)
    requires IsPath(edges, p) && |p| >= 2
    ensures p[0] in order && p[|p| - 1] in order
    ensures IndexOf(order, p[0]) < IndexOf(order, p[|p| - 1])
    decreases |p|
  {
    assert HasEdge(edges, p[0], p[1]);
    EdgeGoesForward(order, n, edges, p[0], p[1]);
    if |p| > 2 {
      var q := p[1..];
      assert IsPath(edges, q) by {
        forall i | 0 <= i < |q| - 1 ensures HasEdge(edges, q[i], q[i + 1]) {
          assert q[i] == p[i + 1] && q[i + 1] == p[i + 2];
        }
      }
      PathGoesForward(order, n, edges, q);
    }
  }

  /** A graph with a topological order has no cycle. */
  lemma TopoOrderAcyclic(order: seq<nat>, n: nat, edges: seq<Edge>)
    requires IsTopoOrder(order, n, edges) && EdgesWithin(edges, n)
    ensures !HasCycle(edges)
  {
    if HasCycle(edges) {
      var p :| IsPath(edges, p) && |p| >= 2 && p[0] == p[|p| - 1];
      PathGoesForward(order, n, edges, p);
    }
  }

  lemma StuckPred(edges: seq<Edge>, r: set<nat>, v: nat) returns (u: nat)
    requires Stuck(edges, r) && v in r
    ensures u in r && HasEdge(edges, u, v)
  {
    assert HasPredIn(edges, r, v);
    var e :| 0 <= e < |edges| && edges[e].dst == v && edges[e].src in r;
    u := edges[e].src;
    assert edges[e] == Edge(u, v);
  }

  /** Walking edges backwards inside a stuck set never has to stop. */
  lemma {:induction false} BackWalk(edges: seq<Edge>, r: set<nat>, k: nat) returns (w: seq<nat>)
    requires r != {} && Stuck(edges, r)
    ensures |w| == k + 1
    ensures forall i :: 0 <= i < |w| ==> w[i] in r
    ensures forall i :: 0 <= i < k ==> HasEdge(edges, w[i + 1], w[i])
  {
    if k == 0 {
      var v :| v in r;
      w := [v];
    } else {
      var w' := BackWalk(edges, r, k - 1);
      var u := StuckPred(edges, r, w'[k - 1]);
      w := w' + [u];
      forall i | 0 <= i < k ensures HasEdge(edges, w[i + 1], w[i]) {
        if i < k - 1 {
          assert w[i] == w'[i] && w[i + 1] == w'[i + 1];
        }
      }
    }
  }

  /** A sequence longer than the set it draws from repeats an element. */
  lemma {:induction false} Repeats(w: seq<nat>, r: set<nat>) returns (i: nat, j: nat)
    requires forall x :: 0 <= x < |w| ==> w[x] in r
    requires |w| > |r|
    ensures i < j < |w| && w[i] == w[j]
    decreases |w|
  {
    if w[0] in w[1..] {
      var x :| 0 <= x < |w[1..]| && w[1..][x] == w[0];
      i, j := 0, x + 1;
    } else {
      var r' := r - {w[0]};
      assert |r'| == |r| - 1;
      forall x | 0 <= x < |w[1..]| ensures w[1..][x] in r' {
        assert w[1..][x] == w[x + 1];
        assert w[x + 1] in w[1..];
      }
      var i', j' := Repeats(w[1..], r');
      i, j := i' + 1, j' + 1;
    }
  }

  /** A backward walk read from `w[j]` down to `w[i]` is a forward path. */
  lemma ReversedWalk(edges: seq<Edge>, w: seq<nat>, i: nat, j: nat) returns (p: seq<nat>)
    requires i < j < |w|
    requires forall x :: 0 <= x < |w| - 1 ==> HasEdge(edges, w[x + 1], w[x])
    ensures IsPath(edges, p) && |p| == j - i + 1 && p[0] == w[j] && p[|p| - 1] == w[i]
  {
    p := seq(j - i + 1, t requires 0 <= t <= j - i => w[j - t]);
    forall t | 0 <= t < |p| - 1 ensures HasEdge(edges, p[t], p[t + 1]) {
      var x := j - t - 1;
      assert HasEdge(edges, w[x + 1], w[x]);
    }
  }

  /** A non-empty stuck set lies on a cycle. */
  lemma StuckHasCycle(edges: seq<Edge>, r: set<nat>)
    requires r != {} && Stuck(edges, r)
    ensures HasCycle(edges)
  {
    var w := BackWalk(edges, r, |r|);
    var i, j := Repeats(w, r);
    var p := ReversedWalk(edges, w, i, j);
    assert IsPath(edges, p) && |p| >= 2 && p[0] == p[|p| - 1];
  }

  // ---------------------------------------------------------------------
  // Building the graph from the declared stages

  /** `i` is the last stage declared with `name`. */
  predicate LastNamed(stages: seq<Stage>, name: string, i: nat) {
    i < |stages| && stages[i].name == name && forall j :: i < j < |stages| ==> stages[j].name != name
  }

  /** Name lookup filled in declaration order, so that a repeated name ends
      up mapped to the last stage declared with it. */
  function NameIndex(stages: seq<Stage>): (m: map<string, nat>)
    ensures m.Keys == set i | 0 <= i < |stages| :: stages[i].name
    ensures forall name :: name in m ==> LastNamed(stages, name, m[name])
  {
    if stages == [] then map[]
    else
      var prev := stages[..|stages| - 1];
      assert forall i :: 0 <= i < |prev| ==> prev[i] == stages[i];
      NameIndex(prev)[stages[|stages| - 1].name := |stages| - 1]
  }

  function IndexNames(stages: seq<Stage>): (m: map<nat, string>)
    ensures m.Keys == Nodes(|stages|)
    ensures forall i :: 0 <= i < |stages| ==> m[i] == stages[i].name
  {
    map i: nat | i in Nodes(|stages|) :: stages[i].name
  }

  /** The edges a stage's `depends_on` list contributes, in list order, or
      `UnknownDependency` for the first entry that names no stage. */
  function DepEdges(deps: seq<string>, nti: map<string, nat>, stageName: string, target: nat): (r: Result<seq<Edge>, ConflowError>)
    ensures r.Ok? <==> forall j :: 0 <= j < |deps| ==> deps[j] in nti
    ensures r.Ok? ==> |r.value| == |deps|
    ensures r.Ok? ==> forall j :: 0 <= j < |deps| ==> deps[j] in nti && r.value[j] == Edge(nti[deps[j]], target)
    ensures r.Err? ==> exists j :: FirstUnknown(deps, nti, j) && r.error == UnknownDependency(stageName, deps[j])
  {
    if deps == [] then Ok([])
    else
      var prev := deps[..|deps| - 1];
      var d := deps[|deps| - 1];
      assert forall j :: 0 <= j < |prev| ==> prev[j] == deps[j];
      var r :- DepEdges(prev, nti, stageName, target);
      if d in nti then Ok(r + [Edge(nti[d], target)])
      else
        assert FirstUnknown(deps, nti, |deps| - 1);
        Err(UnknownDependency(stageName, d))
  }

  /** `deps[j]` is the first entry of `deps` that names no stage. */
  predicate FirstUnknown(deps: seq<string>, nti: map<string, nat>, j: int) {
    0 <= j < |deps| && deps[j] !in nti && forall i :: 0 <= i < j ==> deps[i] in nti
  }

  /** Stage `s` names stage `d` as something it needs. */
  predicate RefersTo(s: Stage, d: string) {
    d in s.dependsOn || s.input.ReferencesStage() == Some(d)
  }

  /** One stage's contribution: its `depends_on` edges, then an edge from
      its `from_stage` producer unless that exact edge is already present. */
  function StageEdges(acc: seq<Edge>, nti: map<string, nat>, s: Stage): (r: Result<seq<Edge>, ConflowError>)
    requires s.name in nti
    ensures r.Ok? ==> acc <= r.value
    ensures r.Ok? && EdgesNamed(acc, nti) ==> EdgesNamed(r.value, nti)
    ensures r.Ok? <==> forall d :: RefersTo(s, d) ==> d in nti
    ensures r.Ok? ==> forall d :: RefersTo(s, d) ==> HasEdge(r.value, nti[d], nti[s.name])
    ensures r.Err? ==> r.error.UnknownDependency? && r.error.dependent == s.name
    ensures r.Err? ==> RefersTo(s, r.error.dependency) && r.error.dependency !in nti
  {
    var target := nti[s.name];
    var de :- DepEdges(s.dependsOn, nti, s.name, target);
    var withDeps := acc + de;
    match s.input.ReferencesStage()
    case None => Ok(withDeps)
    case Some(f) =>
      if f in nti then
        if HasEdge(withDeps, nti[f], target) then Ok(withDeps)
        else Ok(withDeps + [Edge(nti[f], target)])
      else Err(UnknownDependency(s.name, f))
  }

  /** Every stage's contribution, in declaration order; the first unknown
      reference stops the build. */
  function BuildEdges(stages: seq<Stage>, nti: map<string, nat>): (r: Result<seq<Edge>, ConflowError>)
    requires forall i :: 0 <= i < |stages| ==> stages[i].name in nti
    ensures r.Ok? ==> EdgesNamed(r.value, nti)
  {
    if stages == [] then Ok([])
    else
      var acc :- BuildEdges(stages[..|stages| - 1], nti);
      StageEdges(acc, nti, stages[|stages| - 1])
  }

  /** Every edge joins two nodes that the name lookup points at. */
  predicate EdgesNamed(edges: seq<Edge>, nti: map<string, nat>) {
    forall k :: 0 <= k < |edges| ==> edges[k].src in nti.Values && edges[k].dst in nti.Values
  }

  /** What holds of every graph `build` returns: edges stay among the
      nodes, and the two lookups agree on every node a name points at. */
  predicate Valid(dag: DagBuilder) {
    EdgesWithin(dag.edges, dag.nodeCount)
    && dag.indexToName.Keys == Nodes(dag.nodeCount)
    && (forall name :: name in dag.nameToIndex ==>
          dag.nameToIndex[name] < dag.nodeCount && dag.indexToName[dag.nameToIndex[name]] == name)
    && EdgesNamed(dag.edges, dag.nameToIndex)
  }

  lemma NamedEdgesWithin(edges: seq<Edge>, nti: map<string, nat>, n: nat)
    requires EdgesNamed(edges, nti)
    requires forall name :: name in nti ==> nti[name] < n
    ensures EdgesWithin(edges, n)
  {
    forall k | 0 <= k < |edges| ensures edges[k].src < n && edges[k].dst < n {
      assert edges[k].src in nti.Values && edges[k].dst in nti.Values;
      var a :| a in nti && nti[a] == edges[k].src;
      var b :| b in nti && nti[b] == edges[k].dst;
    }
  }

  /** The nodes of `r` below `n`, by name, in index order. */
  function NamesIn(itn: map<nat, string>, r: set<nat>, n: nat): (names: seq<string>)
    requires Nodes(n) <= itn.Keys
    ensures (exists v :: v in r && v < n) ==> names != []
  {
    if n == 0 then []
    else
      assert Nodes(n - 1) <= itn.Keys;
      NamesIn(itn, r, n - 1) + (if n - 1 in r then [itn[n - 1]] else [])
  }

  /** `Ok` exactly when the graph has no cycle; otherwise the error names
      the stages that could not be ordered, which is never empty. */
  function ValidateAcyclic(dag: DagBuilder): (r: Result<(), ConflowError>)
    requires Valid(dag)
    ensures r.Ok? <==> !HasCycle(dag.edges)
    ensures r.Err? ==> r.error.CircularDependency? && r.error.stages != []
  {
    match TopoSort(dag.nodeCount, dag.edges)
    case Ok(_) => Ok(())
    case Err(stuck) =>
      var v :| v in stuck;
      Err(CircularDependency(NamesIn(dag.indexToName, stuck, dag.nodeCount)))
  }

  /** `DagBuilder::build`: nodes for every stage, edges for every reference,
      then the acyclicity check. */
  function BuildSpec(stages: seq<Stage>): (r: Result<DagBuilder, ConflowError>)
    ensures r.Ok? ==> Valid(r.value) && !HasCycle(r.value.edges)
    ensures r.Ok? ==> r.value.nodeCount == |stages| && r.value.nameToIndex == NameIndex(stages)
  {
    var nti := NameIndex(stages);
    assert forall i :: 0 <= i < |stages| ==> stages[i].name in nti;
    var edges :- BuildEdges(stages, nti);
    var dag := DagBuilder(|stages|, edges, nti, IndexNames(stages));
    NamedEdgesWithin(edges, nti, |stages|);
    assert Valid(dag);
    var _ :- ValidateAcyclic(dag);
    Ok(dag)
  }

  lemma {:induction false} BuildEdgesPrefixErr(stages: seq<Stage>, nti: map<string, nat>, k: nat)
    requires forall i :: 0 <= i < |stages| ==> stages[i].name in nti
    requires k <= |stages| && BuildEdges(stages[..k], nti).Err?
    ensures BuildEdges(stages, nti) == BuildEdges(stages[..k], nti)
    decreases |stages|
  {
    if k < |stages| {
      var prev := stages[..|stages| - 1];
      assert prev[..k] == stages[..k];
      BuildEdgesPrefixErr(prev, nti, k);
    } else {
      assert stages[..k] == stages;
    }
  }

  /** Appends one stage's edges: each `depends_on` entry in order, then the
      `from_stage` producer unless that edge is already there. */
  method AddStageEdges(acc: seq<Edge>, nti: map<string, nat>, s: Stage) returns (r: Result<seq<Edge>, ConflowError>)
    requires s.name in nti
    ensures r == StageEdges(acc, nti, s)
  {
    var target := nti[s.name];
    var edges := acc;
    var j := 0;
    while j < |s.dependsOn|
      invariant 0 <= j <= |s.dependsOn|
      invariant forall x :: 0 <= x < j ==> s.dependsOn[x] in nti
      invariant |edges| == |acc| + j
      invariant edges[..|acc|] == acc
      invariant forall x :: 0 <= x < j ==> edges[|acc| + x] == Edge(nti[s.dependsOn[x]], target)
    {
      var d := s.dependsOn[j];
      if d !in nti {
        assert FirstUnknown(s.dependsOn, nti, j);
        return Err(UnknownDependency(s.name, d));
      }
      edges := edges + [Edge(nti[d], target)];
      j := j + 1;
    }
    assert edges == acc + DepEdges(s.dependsOn, nti, s.name, target).value;
    if s.input.FromStage? {
      var f := s.input.fromStage;
      if f !in nti {
        return Err(UnknownDependency(s.name, f));
      }
      if Edge(nti[f], target) !in edges {
        edges := edges + [Edge(nti[f], target)];
      }
    }
    return Ok(edges);
  }

  lemma LookupStep(stages: seq<Stage>, i: nat)
    requires i < |stages|
    ensures NameIndex(stages[..i + 1]) == NameIndex(stages[..i])[stages[i].name := i]
    ensures IndexNames(stages[..i + 1]) == IndexNames(stages[..i])[i := stages[i].name]
  {
    assert stages[..i + 1][..i] == stages[..i];
  }

  /** The node-adding loop: one node per stage, and both name lookups. */
  method IndexStages(stages: seq<Stage>) returns (nti: map<string, nat>, itn: map<nat, string>)
    ensures nti == NameIndex(stages) && itn == IndexNames(stages)
  {
    nti, itn := map[], map[];
    var i := 0;
    while i < |stages|
      invariant 0 <= i <= |stages|
      invariant nti == NameIndex(stages[..i])
      invariant itn == IndexNames(stages[..i])
    {
      LookupStep(stages, i);
      nti := nti[stages[i].name := i];
      itn := itn[i := stages[i].name];
      i := i + 1;
    }
    assert stages[..|stages|] == stages;
  }

  /** The edge-adding loop over the stages in declaration order. */
  method AddAllEdges(stages: seq<Stage>, nti: map<string, nat>) returns (r: Result<seq<Edge>, ConflowError>)
    requires forall i :: 0 <= i < |stages| ==> stages[i].name in nti
    ensures r == BuildEdges(stages, nti)
  {
    var edges: seq<Edge> := [];
    var k := 0;
    while k < |stages|
      invariant 0 <= k <= |stages|
      invariant BuildEdges(stages[..k], nti) == Ok(edges)
    {
      assert stages[..k + 1][..k] == stages[..k];
      var next := AddStageEdges(edges, nti, stages[k]);
      if next.Err? {
        BuildEdgesPrefixErr(stages, nti, k + 1);
        return Err(next.error);
      }
      edges := next.value;
      k := k + 1;
    }
    assert stages[..k] == stages;
    return Ok(edges);
  }

  /** `DagBuilder::build`: add the nodes, add the edges (stopping at the
      first unknown reference), then reject a cyclic graph. */
  method Build(p: Pipeline) returns (r: Result<DagBuilder, ConflowError>)
    ensures r == BuildSpec(p.stages)
  {
    var nti, itn := IndexStages(p.stages);
    assert forall x :: 0 <= x < |p.stages| ==> p.stages[x].name in nti;
    var edges := AddAllEdges(p.stages, nti);
    if edges.Err? {
      return Err(edges.error);
    }
    var dag := DagBuilder(|p.stages|, edges.value, nti, itn);
    NamedEdgesWithin(edges.value, nti, |p.stages|);
    var checked := ValidateAcyclic(dag);
    if checked.Err? {
      return Err(checked.error);
    }
    return Ok(dag);
  }

  // ---------------------------------------------------------------------
  // Queries on a built graph

  /** Topologically sorted stage indices. */
  function TopologicalOrder(dag: DagBuilder): (r: Result<seq<nat>, ConflowError>)
    requires Valid(dag)
    ensures r.Ok? ==> IsTopoOrder(r.value, dag.nodeCount, dag.edges)
    ensures r.Ok? <==> !HasCycle(dag.edges)
    ensures r.Err? ==> r.error.CircularDependency? && r.error.stages != []
  {
    match TopoSort(dag.nodeCount, dag.edges)
    case Ok(order) => Ok(order)
    case Err(stuck) =>
      var v :| v in stuck;
      Err(CircularDependency(NamesIn(dag.indexToName, stuck, dag.nodeCount)))
  }

  /** `names` spells out the topological order `order` by stage name. */
  ghost predicate NamesFollow(dag: DagBuilder, order: seq<nat>, names: seq<string>) {
    IsTopoOrder(order, dag.nodeCount, dag.edges) && |order| == |names|
    && forall i :: 0 <= i < |order| ==> order[i] in dag.indexToName && names[i] == dag.indexToName[order[i]]
  }

  /** Topologically sorted stage names. */
  function TopologicalOrderNames(dag: DagBuilder): (r: Result<seq<string>, ConflowError>)
    requires Valid(dag)
    ensures r.Ok? <==> !HasCycle(dag.edges)
    ensures r.Ok? ==> |r.value| == dag.nodeCount
    ensures r.Ok? ==> exists order :: NamesFollow(dag, order, r.value)
  {
    var order :- TopologicalOrder(dag);
    TopoOrderLength(order, dag.nodeCount, dag.edges);
    var names := seq(|order|, i requires 0 <= i < |order| => dag.indexToName[order[i]]);
    assert NamesFollow(dag, order, names);
    Ok(names)
  }

  /** A topological order of `n` nodes has exactly `n` entries. */
  lemma TopoOrderLength(order: seq<nat>, n: nat, edges: seq<Edge>)
    requires IsTopoOrder(order, n, edges)
    ensures |order| == n
  {
    var elems := set i | 0 <= i < |order| :: order[i];
    forall v ensures v in elems <==> v in Nodes(n) {
      if v in Nodes(n) {
        assert v < n && v in order;
        var i :| 0 <= i < |order| && order[i] == v;
      }
    }
    assert elems == Nodes(n);
    NodesCard(n);
    DistinctCard(order);
  }

  lemma {:induction false} NodesCard(n: nat)
    ensures |Nodes(n)| == n
  {
    if n > 0 {
      NodesCard(n - 1);
      assert n - 1 !in Nodes(n - 1);
    }
  }

  lemma {:induction false} DistinctCard(s: seq<nat>)
    requires forall i, j :: 0 <= i < j < |s| ==> s[i] != s[j]
    ensures |set i | 0 <= i < |s| :: s[i]| == |s|
  {
    if s != [] {
      var t := s[..|s| - 1];
      DistinctCard(t);
      var a := set i | 0 <= i < |t| :: t[i];
      var b := set i | 0 <= i < |s| :: s[i];
      assert b == a + {s[|s| - 1]};
      assert s[|s| - 1] !in a;
    }
  }

  /** Sources of the edges into `v`, in edge insertion order. The graph
      library hands neighbours out the other way round, most recently
      added edge first (see `Dependencies`). */
  function IncomingSources(edges: seq<Edge>, v: nat): (r: seq<nat>)
    ensures forall u :: u in r <==> HasEdge(edges, u, v)
  {
    if edges == [] then []
    else
      var e := edges[|edges| - 1];
      var prev := edges[..|edges| - 1];
      assert edges == prev + [e];
      IncomingSources(prev, v) + (if e.dst == v then [e.src] else [])
  }

  /** Targets of the edges out of `u`, in edge insertion order. */
  function OutgoingTargets(edges: seq<Edge>, u: nat): (r: seq<nat>)
    ensures forall v :: v in r <==> HasEdge(edges, u, v)
  {
    if edges == [] then []
    else
      var e := edges[|edges| - 1];
      var prev := edges[..|edges| - 1];
      assert edges == prev + [e];
      OutgoingTargets(prev, u) + (if e.src == u then [e.dst] else [])
  }

  function NamesOf(itn: map<nat, string>, nodes: seq<nat>): (names: seq<string>)
    requires forall i :: 0 <= i < |nodes| ==> nodes[i] in itn
    ensures |names| == |nodes| && forall i :: 0 <= i < |nodes| ==> names[i] == itn[nodes[i]]
  {
    seq(|nodes|, i requires 0 <= i < |nodes| => itn[nodes[i]])
  }

  /** On a valid graph, a node an edge touches is named by exactly one
      name, and that name maps back to it. */
  lemma NamedNode(dag: DagBuilder, u: nat)
    requires Valid(dag) && u in dag.nameToIndex.Values
    ensures u in dag.indexToName && dag.indexToName[u] in dag.nameToIndex
    ensures dag.nameToIndex[dag.indexToName[u]] == u
  {
    var z :| z in dag.nameToIndex && dag.nameToIndex[z] == u;
  }

  /** Stages that must run before `name`: one entry per incoming edge,
      the most recently added edge first. `None` when no stage has that
      name. */
  function Dependencies(dag: DagBuilder, name: string): (r: Option<seq<string>>)
    requires Valid(dag)
    ensures r.None? <==> name !in dag.nameToIndex
    ensures r.Some? ==> forall d :: d in r.value <==>
      d in dag.nameToIndex && HasEdge(dag.edges, dag.nameToIndex[d], dag.nameToIndex[name])
  {
    if name !in dag.nameToIndex then None
    else
      var v := dag.nameToIndex[name];
      var srcs := Seqs.Reverse(IncomingSources(dag.edges, v));
      assert forall u :: u in srcs <==> HasEdge(dag.edges, u, v) by {
        Seqs.ReverseMultiset(IncomingSources(dag.edges, v));
      }
      assert forall i :: 0 <= i < |srcs| ==> srcs[i] in dag.nameToIndex.Values && srcs[i] in dag.indexToName by {
        forall i | 0 <= i < |srcs| ensures srcs[i] in dag.nameToIndex.Values && srcs[i] in dag.indexToName {
          assert srcs[i] in srcs;
          NamedNode(dag, srcs[i]);
        }
      }
      var names := NamesOf(dag.indexToName, srcs);
      assert forall d :: d in names <==> d in dag.nameToIndex && HasEdge(dag.edges, dag.nameToIndex[d], v) by {
        forall d ensures d in names <==> d in dag.nameToIndex && HasEdge(dag.edges, dag.nameToIndex[d], v) {
          if d in names {
            var i :| 0 <= i < |names| && names[i] == d;
            NamedNode(dag, srcs[i]);
          }
          if d in dag.nameToIndex && HasEdge(dag.edges, dag.nameToIndex[d], v) {
            var i :| 0 <= i < |srcs| && srcs[i] == dag.nameToIndex[d];
            assert names[i] == d;
          }
        }
      }
      Some(names)
  }

  /** Stages that must run after `name`: one entry per outgoing edge,
      the most recently added edge first. `None` when no stage has that
      name. */
  function Dependents(dag: DagBuilder, name: string): (r: Option<seq<string>>)
    requires Valid(dag)
    ensures r.None? <==> name !in dag.nameToIndex
    ensures r.Some? ==> forall d :: d in r.value <==>
      d in dag.nameToIndex && HasEdge(dag.edges, dag.nameToIndex[name], dag.nameToIndex[d])
  {
    if name !in dag.nameToIndex then None
    else
      var u := dag.nameToIndex[name];
      var dsts := Seqs.Reverse(OutgoingTargets(dag.edges, u));
      assert forall w :: w in dsts <==> HasEdge(dag.edges, u, w) by {
        Seqs.ReverseMultiset(OutgoingTargets(dag.edges, u));
      }
      assert forall i :: 0 <= i < |dsts| ==> dsts[i] in dag.nameToIndex.Values && dsts[i] in dag.indexToName by {
        forall i | 0 <= i < |dsts| ensures dsts[i] in dag.nameToIndex.Values && dsts[i] in dag.indexToName {
          assert dsts[i] in dsts;
          NamedNode(dag, dsts[i]);
        }
      }
      var names := NamesOf(dag.indexToName, dsts);
      assert forall d :: d in names <==> d in dag.nameToIndex && HasEdge(dag.edges, u, dag.nameToIndex[d]) by {
        forall d ensures d in names <==> d in dag.nameToIndex && HasEdge(dag.edges, u, dag.nameToIndex[d]) {
          if d in names {
            var i :| 0 <= i < |names| && names[i] == d;
            NamedNode(dag, dsts[i]);
          }
          if d in dag.nameToIndex && HasEdge(dag.edges, u, dag.nameToIndex[d]) {
            var i :| 0 <= i < |dsts| && dsts[i] == dag.nameToIndex[d];
            assert names[i] == d;
          }
        }
      }
      Some(names)
  }

  /** `x` is among the dependents of `y` exactly when `y` is among the
      dependencies of `x`. */
  lemma DependentsMirrorDependencies(dag: DagBuilder, x: string, y: string)
    requires Valid(dag) && x in dag.nameToIndex && y in dag.nameToIndex
    ensures x in Dependents(dag, y).value <==> y in Dependencies(dag, x).value
  {
  }

  // ---------------------------------------------------------------------
  // Reachability (the graph library's `has_path_connecting`)

  /** Targets of edges leaving `frontier`. */
  function Step(edges: seq<Edge>, frontier: set<nat>): set<nat> {
    set k | 0 <= k < |edges| && edges[k].src in frontier :: edges[k].dst
  }

  /** Every edge leaving `r` ends in `r`. */
  predicate Closed(edges: seq<Edge>, r: set<nat>) {
    forall k :: 0 <= k < |edges| && edges[k].src in r ==> edges[k].dst in r
  }

  /** Every edge leaving a visited node outside the frontier ends in a
      visited node. */
  predicate ClosedOutside(edges: seq<Edge>, visited: set<nat>, frontier: set<nat>) {
    forall k :: 0 <= k < |edges| && edges[k].src in visited && edges[k].src !in frontier ==> edges[k].dst in visited
  }

  /** Breadth-first search from the nodes already visited. */
  function Explore(edges: seq<Edge>, n: nat, visited: set<nat>, frontier: set<nat>): (r: set<nat>)
    requires EdgesWithin(edges, n) && visited <= Nodes(n) && frontier <= visited
    requires ClosedOutside(edges, visited, frontier)
    ensures visited <= r <= Nodes(n)
    ensures Closed(edges, r)
    decreases Nodes(n) - visited, |frontier|
  {
    if frontier == {} then visited
    else
      var next := Step(edges, frontier) - visited;
      assert next <= Nodes(n) by {
        forall v | v in next ensures v in Nodes(n) {
          var k :| 0 <= k < |edges| && edges[k].src in frontier && edges[k].dst == v;
        }
      }
      if next == {} then
        Explore(edges, n, visited, {})
      else
        var w :| w in next;
        assert w in Nodes(n) - visited && w !in Nodes(n) - (visited + next);
        Explore(edges, n, visited + next, next)
  }

  /** Everything the search collects is reachable from `a` when everything
      it started from is. */
  lemma {:induction false} ExploreSound(edges: seq<Edge>, n: nat, visited: set<nat>, frontier: set<nat>, a: nat)
    requires EdgesWithin(edges, n) && visited <= Nodes(n) && frontier <= visited
    requires ClosedOutside(edges, visited, frontier)
    requires forall v :: v in visited ==> Reaches(edges, a, v)
    ensures forall v :: v in Explore(edges, n, visited, frontier) ==> Reaches(edges, a, v)
    decreases Nodes(n) - visited, |frontier|
  {
    if frontier != {} {
      var next := Step(edges, frontier) - visited;
      forall v | v in next ensures Reaches(edges, a, v) {
        var k :| 0 <= k < |edges| && edges[k].src in frontier && edges[k].dst == v;
        assert HasEdge(edges, edges[k].src, v);
        PathExtend(edges, a, edges[k].src, v);
      }
      if next == {} {
        ExploreSound(edges, n, visited, {}, a);
      } else {
        var w :| w in next;
        assert w in Nodes(n) - visited && w !in Nodes(n) - (visited + next);
        ExploreSound(edges, n, visited + next, next, a);
      }
    }
  }

  /** A set closed under edges holds everything reachable from its members. */
  lemma {:induction false} ClosedHoldsReachable(edges: seq<Edge>, r: set<nat>, p: seq<nat>)
    requires Closed(edges, r) && IsPath(edges, p) && p[0] in r
    ensures p[|p| - 1] in r
    decreases |p|
  {
    if |p| > 1 {
      var q := p[..|p| - 1];
      assert IsPath(edges, q) by {
        forall i | 0 <= i < |q| - 1 ensures HasEdge(edges, q[i], q[i + 1]) {
          assert q[i] == p[i] && q[i + 1] == p[i + 1];
        }
      }
      ClosedHoldsReachable(edges, r, q);
      assert HasEdge(edges, p[|p| - 2], p[|p| - 1]);
      var k :| 0 <= k < |edges| && edges[k] == Edge(p[|p| - 2], p[|p| - 1]);
    }
  }

  /** The nodes reachable from `start`. */
  function ReachableFrom(edges: seq<Edge>, n: nat, start: nat): (r: set<nat>)
    requires EdgesWithin(edges, n) && start < n
    ensures forall v :: v in r <==> Reaches(edges, start, v)
  {
    var r := Explore(edges, n, {start}, {start});
    assert Reaches(edges, start, start) by {
      assert IsPath(edges, [start]);
    }
    ExploreSound(edges, n, {start}, {start}, start);
    assert forall v :: Reaches(edges, start, v) ==> v in r by {
      forall v | Reaches(edges, start, v) ensures v in r {
        var p :| IsPath(edges, p) && p[0] == start && p[|p| - 1] == v;
        ClosedHoldsReachable(edges, r, p);
      }
    }
    r
  }

  /** `a` depends on `b`, directly or through other stages: both names are
      declared and `b` reaches `a` along dependency edges. As in the graph
      library's path search, a declared stage reaches itself. */
  function DependsOn(dag: DagBuilder, a: string, b: string): (r: bool)
    requires Valid(dag)
    ensures r <==> (a in dag.nameToIndex && b in dag.nameToIndex &&
      Reaches(dag.edges, dag.nameToIndex[b], dag.nameToIndex[a]))
  {
    if a !in dag.nameToIndex || b !in dag.nameToIndex then false
    else dag.nameToIndex[a] in ReachableFrom(dag.edges, dag.nodeCount, dag.nameToIndex[b])
  }

  /** Dependency is transitive. */
  lemma DependsOnTransitive(dag: DagBuilder, a: string, b: string, c: string)
    requires Valid(dag) && DependsOn(dag, a, b) && DependsOn(dag, b, c)
    ensures DependsOn(dag, a, c)
  {
    ReachesTrans(dag.edges, dag.nameToIndex[c], dag.nameToIndex[b], dag.nameToIndex[a]);
  }

  /** In an acyclic graph two distinct stages never depend on each other. */
  lemma DependsOnAntisymmetric(dag: DagBuilder, a: string, b: string)
    requires Valid(dag) && !HasCycle(dag.edges)
    requires DependsOn(dag, a, b) && DependsOn(dag, b, a)
    ensures dag.nameToIndex[a] == dag.nameToIndex[b]
  {
    var ia, ib := dag.nameToIndex[a], dag.nameToIndex[b];
    if ia != ib {
      var p :| IsPath(dag.edges, p) && p[0] == ib && p[|p| - 1] == ia;
      var q :| IsPath(dag.edges, q) && q[0] == ia && q[|q| - 1] == ib;
      PathConcat(dag.edges, p, q);
    }
  }

  // ---------------------------------------------------------------------
  // What `build` accepts and what it rejects

  /** `build` fails with `UnknownDependency` exactly when some stage refers
      to a name no stage declares; the error names such a stage and name. */
  lemma BuildEdgesUnknown(stages: seq<Stage>, nti: map<string, nat>)
    requires forall i :: 0 <= i < |stages| ==> stages[i].name in nti
    ensures BuildEdges(stages, nti).Err? <==>
      exists i, d :: 0 <= i < |stages| && RefersTo(stages[i], d) && d !in nti
    ensures BuildEdges(stages, nti).Err? ==>
      var e := BuildEdges(stages, nti).error;
      e.UnknownDependency? && e.dependency !in nti &&
      exists i :: 0 <= i < |stages| && stages[i].name == e.dependent && RefersTo(stages[i], e.dependency)
  {
    BuildEdgesFails(stages, nti);
    BuildEdgesError(stages, nti);
  }

  lemma {:induction false} BuildEdgesFails(stages: seq<Stage>, nti: map<string, nat>)
    requires forall i :: 0 <= i < |stages| ==> stages[i].name in nti
    ensures BuildEdges(stages, nti).Err? <==>
      exists i, d :: 0 <= i < |stages| && RefersTo(stages[i], d) && d !in nti
    decreases |stages|
  {
    if stages != [] {
      var prev := stages[..|stages| - 1];
      var last := stages[|stages| - 1];
      BuildEdgesFails(prev, nti);
      assert forall i :: 0 <= i < |prev| ==> prev[i] == stages[i];
      if exists i, d :: 0 <= i < |stages| && RefersTo(stages[i], d) && d !in nti {
        var i, d :| 0 <= i < |stages| && RefersTo(stages[i], d) && d !in nti;
        if i < |prev| {
          assert RefersTo(prev[i], d);
        }
      }
    }
  }

  lemma {:induction false} BuildEdgesError(stages: seq<Stage>, nti: map<string, nat>)
    requires forall i :: 0 <= i < |stages| ==> stages[i].name in nti
    ensures BuildEdges(stages, nti).Err? ==>
      var e := BuildEdges(stages, nti).error;
      e.UnknownDependency? && e.dependency !in nti &&
      exists i :: 0 <= i < |stages| && stages[i].name == e.dependent && RefersTo(stages[i], e.dependency)
    decreases |stages|
  {
    if stages != [] {
      var prev := stages[..|stages| - 1];
      var last := stages[|stages| - 1];
      BuildEdgesError(prev, nti);
      assert forall i :: 0 <= i < |prev| ==> prev[i] == stages[i];
      if BuildEdges(prev, nti).Ok? && StageEdges(BuildEdges(prev, nti).value, nti, last).Err? {
        var e := StageEdges(BuildEdges(prev, nti).value, nti, last).error;
        assert RefersTo(stages[|stages| - 1], e.dependency);
      }
    }
  }

  /** Every reference of a stage whose build succeeds becomes an edge into
      the node its name looks up to. */
  lemma {:induction false} ReferenceGivesEdge(stages: seq<Stage>, nti: map<string, nat>, i: nat, d: string)
    requires forall j :: 0 <= j < |stages| ==> stages[j].name in nti
    requires BuildEdges(stages, nti).Ok? && i < |stages| && RefersTo(stages[i], d)
    ensures d in nti && HasEdge(BuildEdges(stages, nti).value, nti[d], nti[stages[i].name])
    decreases |stages|
  {
    var prev := stages[..|stages| - 1];
    assert forall j :: 0 <= j < |prev| ==> prev[j] == stages[j];
    var acc := BuildEdges(prev, nti).value;
    var all := BuildEdges(stages, nti).value;
    assert acc <= all;
    if i < |prev| {
      ReferenceGivesEdge(prev, nti, i, d);
      var k :| 0 <= k < |acc| && acc[k] == Edge(nti[d], nti[stages[i].name]);
      assert all[k] == acc[k];
    }
  }

  /** The graph `build` returns, for pipelines it accepts. */
  lemma BuildShape(stages: seq<Stage>)
    requires BuildSpec(stages).Ok?
    ensures forall i :: 0 <= i < |stages| ==> stages[i].name in NameIndex(stages)
    ensures BuildEdges(stages, NameIndex(stages)).Ok?
    ensures BuildSpec(stages).value ==
      DagBuilder(|stages|, BuildEdges(stages, NameIndex(stages)).value, NameIndex(stages), IndexNames(stages))
  {
    assert forall i :: 0 <= i < |stages| ==> stages[i].name in NameIndex(stages);
  }

  /** `build` succeeds exactly when every reference names a declared stage
      and the resulting graph has no cycle. */
  lemma BuildOutcome(stages: seq<Stage>)
    ensures forall i :: 0 <= i < |stages| ==> stages[i].name in NameIndex(stages)
    ensures BuildSpec(stages).Ok? <==>
      BuildEdges(stages, NameIndex(stages)).Ok? && !HasCycle(BuildEdges(stages, NameIndex(stages)).value)
    ensures BuildSpec(stages).Err? && BuildSpec(stages).error.UnknownDependency? <==>
      exists i, d :: 0 <= i < |stages| && RefersTo(stages[i], d) && d !in NameIndex(stages)
    ensures BuildSpec(stages).Err? && BuildSpec(stages).error.CircularDependency? ==>
      BuildSpec(stages).error.stages != []
  {
    var nti := NameIndex(stages);
    assert forall i :: 0 <= i < |stages| ==> stages[i].name in nti;
    BuildEdgesUnknown(stages, nti);
    if BuildEdges(stages, nti).Ok? {
      var edges := BuildEdges(stages, nti).value;
      NamedEdgesWithin(edges, nti, |stages|);
    }
  }

  /** A cycle among the edges makes `build` fail. */
  lemma CycleRejected(stages: seq<Stage>)
    requires forall i :: 0 <= i < |stages| ==> stages[i].name in NameIndex(stages)
    requires BuildEdges(stages, NameIndex(stages)).Ok? && HasCycle(BuildEdges(stages, NameIndex(stages)).value)
    ensures BuildSpec(stages).Err?
  {
    if BuildSpec(stages).Ok? {
      BuildShape(stages);
    }
  }

  /** A stage that depends on itself, directly or through `from_stage`,
      makes `build` fail. */
  lemma SelfReferenceRejected(stages: seq<Stage>, i: nat)
    requires i < |stages| && RefersTo(stages[i], stages[i].name)
    ensures BuildSpec(stages).Err?
  {
    var nti := NameIndex(stages);
    assert forall j :: 0 <= j < |stages| ==> stages[j].name in nti;
    if BuildEdges(stages, nti).Ok? {
      var edges := BuildEdges(stages, nti).value;
      ReferenceGivesEdge(stages, nti, i, stages[i].name);
      var v := nti[stages[i].name];
      assert IsPath(edges, [v, v]);
      CycleRejected(stages);
    }
  }

  /** Two stages that refer to each other make `build` fail. */
  lemma MutualReferenceRejected(stages: seq<Stage>, i: nat, j: nat)
    requires i < |stages| && j < |stages|
    requires RefersTo(stages[i], stages[j].name) && RefersTo(stages[j], stages[i].name)
    ensures BuildSpec(stages).Err?
  {
    var nti := NameIndex(stages);
    assert forall k :: 0 <= k < |stages| ==> stages[k].name in nti;
    if BuildEdges(stages, nti).Ok? {
      var edges := BuildEdges(stages, nti).value;
      ReferenceGivesEdge(stages, nti, i, stages[j].name);
      ReferenceGivesEdge(stages, nti, j, stages[i].name);
      var vi, vj := nti[stages[i].name], nti[stages[j].name];
      assert HasEdge(edges, vj, vi) && HasEdge(edges, vi, vj);
      assert IsPath(edges, [vi, vj, vi]);
      CycleRejected(stages);
    }
  }

  /** With a repeated name, lookups go to the last stage declared with it. */
  lemma LastDeclarationWins(stages: seq<Stage>, i: nat, j: nat)
    requires i < j < |stages| && stages[i].name == stages[j].name
    ensures NameIndex(stages)[stages[i].name] != i
  {
    assert stages[i].name in NameIndex(stages).Keys;
  }

  // ---------------------------------------------------------------------
  // The incoming edges of one stage

  /** No two stages share a name. */
  predicate DistinctNames(stages: seq<Stage>) {
    forall i, j :: 0 <= i < j < |stages| ==> stages[i].name != stages[j].name
  }

  /** Every name stage `s` refers to is a declared stage. */
  predicate RefsKnown(s: Stage, nti: map<string, nat>) {
    (forall j :: 0 <= j < |s.dependsOn| ==> s.dependsOn[j] in nti)
    && (s.input.ReferencesStage().Some? ==> s.input.ReferencesStage().value in nti)
  }

  /** The producer a `from_stage` input adds on top of `depends_on`: none
      when `depends_on` already names it. */
  function ExtraProducer(s: Stage): (r: seq<string>)
    ensures |r| <= 1
    ensures r != [] <==> s.input.ReferencesStage().Some? && s.input.ReferencesStage().value !in s.dependsOn
  {
    match s.input.ReferencesStage()
    case Some(f) => if f in s.dependsOn then [] else [f]
    case None => []
  }

  /** The nodes stage `s` draws edges from: one per `depends_on` entry, in
      order, then its `from_stage` producer unless already named. */
  function ExpectedSources(s: Stage, nti: map<string, nat>): (r: seq<nat>)
    requires RefsKnown(s, nti)
    ensures |r| == |s.dependsOn| + |ExtraProducer(s)|
  {
    var refs := s.dependsOn + ExtraProducer(s);
    seq(|refs|, j requires 0 <= j < |refs| => nti[refs[j]])
  }

  lemma {:induction false} IncomingConcat(a: seq<Edge>, b: seq<Edge>, v: nat)
    ensures IncomingSources(a + b, v) == IncomingSources(a, v) + IncomingSources(b, v)
    decreases |b|
  {
    if b == [] {
      assert a + b == a;
    } else {
      var bp := b[..|b| - 1];
      assert (a + b)[..|a + b| - 1] == a + bp;
      IncomingConcat(a, bp, v);
    }
  }

  lemma {:induction false} IncomingAllInto(es: seq<Edge>, v: nat)
    requires forall k :: 0 <= k < |es| ==> es[k].dst == v
    ensures IncomingSources(es, v) == seq(|es|, k requires 0 <= k < |es| => es[k].src)
    decreases |es|
  {
    if es != [] {
      var prev := es[..|es| - 1];
      IncomingAllInto(prev, v);
    }
  }

  lemma IncomingNoneInto(es: seq<Edge>, v: nat)
    requires forall k :: 0 <= k < |es| ==> es[k].dst != v
    ensures IncomingSources(es, v) == []
  {
  }

  /** The `from_stage` edge a stage adds after its `depends_on` edges. */
  function FromEdge(withDeps: seq<Edge>, nti: map<string, nat>, t: Stage): (r: seq<Edge>)
    requires t.name in nti
    ensures forall k :: 0 <= k < |r| ==> r[k].dst == nti[t.name]
  {
    match t.input.ReferencesStage()
    case Some(f) =>
      if f in nti && !HasEdge(withDeps, nti[f], nti[t.name]) then [Edge(nti[f], nti[t.name])] else []
    case None => []
  }

  lemma StageEdgesShape(acc: seq<Edge>, nti: map<string, nat>, t: Stage)
    requires t.name in nti && StageEdges(acc, nti, t).Ok?
    ensures RefsKnown(t, nti)
    ensures DepEdges(t.dependsOn, nti, t.name, nti[t.name]).Ok?
    ensures var withDeps := acc + DepEdges(t.dependsOn, nti, t.name, nti[t.name]).value;
      StageEdges(acc, nti, t).value == withDeps + FromEdge(withDeps, nti, t)
  {
  }

  /** A stage's contribution adds no edge into another stage's node. */
  lemma StageEdgesOtherNode(acc: seq<Edge>, nti: map<string, nat>, t: Stage, v: nat)
    requires t.name in nti && StageEdges(acc, nti, t).Ok? && v != nti[t.name]
    ensures IncomingSources(StageEdges(acc, nti, t).value, v) == IncomingSources(acc, v)
  {
    StageEdgesShape(acc, nti, t);
    var de := DepEdges(t.dependsOn, nti, t.name, nti[t.name]).value;
    var withDeps := acc + de;
    IncomingConcat(acc, de, v);
    IncomingNoneInto(de, v);
    IncomingConcat(withDeps, FromEdge(withDeps, nti, t), v);
    IncomingNoneInto(FromEdge(withDeps, nti, t), v);
  }

  /** The nodes of a list of known names, in order. */
  function NodesOf(names: seq<string>, nti: map<string, nat>): (r: seq<nat>)
    requires forall j :: 0 <= j < |names| ==> names[j] in nti
    ensures |r| == |names| && forall j :: 0 <= j < |names| ==> r[j] == nti[names[j]]
  {
    seq(|names|, j requires 0 <= j < |names| => nti[names[j]])
  }

  /** The expected sources: the dependencies' nodes, then the producer's
      node when it is extra. */
  lemma ExpectedSourcesSplit(s: Stage, nti: map<string, nat>)
    requires RefsKnown(s, nti)
    ensures ExpectedSources(s, nti)
         == NodesOf(s.dependsOn, nti)
            + (if ExtraProducer(s) == [] then [] else [nti[ExtraProducer(s)[0]]])
  {
  }

  /** The `depends_on` edges enter their target from the dependencies'
      nodes, in list order. */
  lemma DepSources(deps: seq<string>, nti: map<string, nat>, stageName: string, v: nat)
    requires DepEdges(deps, nti, stageName, v).Ok?
    ensures IncomingSources(DepEdges(deps, nti, stageName, v).value, v)
         == NodesOf(deps, nti)
  {
    var de := DepEdges(deps, nti, stageName, v).value;
    IncomingAllInto(de, v);
    assert forall k :: 0 <= k < |de| ==> de[k].src == nti[deps[k]];
  }

  /** Into a stage's own node, its contribution adds exactly its expected
      sources, provided nothing entered that node before. */
  lemma StageEdgesOwnNode(acc: seq<Edge>, nti: map<string, nat>, t: Stage)
    requires t.name in nti && StageEdges(acc, nti, t).Ok?
    requires IncomingSources(acc, nti[t.name]) == []
    requires forall a, b :: a in nti && b in nti && nti[a] == nti[b] ==> a == b
    ensures RefsKnown(t, nti)
    ensures IncomingSources(StageEdges(acc, nti, t).value, nti[t.name]) == ExpectedSources(t, nti)
  {
    StageEdgesShape(acc, nti, t);
    var v := nti[t.name];
    var deps := t.dependsOn;
    var de := DepEdges(deps, nti, t.name, v).value;
    var withDeps := acc + de;
    IncomingConcat(acc, de, v);
    DepSources(deps, nti, t.name, v);
    var depSrc := NodesOf(deps, nti);
    assert IncomingSources(withDeps, v) == depSrc;
    var extra := FromEdge(withDeps, nti, t);
    IncomingConcat(withDeps, extra, v);
    ExpectedSourcesSplit(t, nti);
    var tail := if ExtraProducer(t) == [] then [] else [nti[ExtraProducer(t)[0]]];
    ExtraSources(withDeps, nti, t);
    assert StageEdges(acc, nti, t).value == withDeps + extra;
    assert IncomingSources(withDeps + extra, v) == depSrc + tail;
  }

  /** The `from_stage` edge enters a stage's node from its producer exactly
      when the producer is extra. */
  lemma ExtraSources(withDeps: seq<Edge>, nti: map<string, nat>, t: Stage)
    requires t.name in nti && RefsKnown(t, nti)
    requires forall a, b :: a in nti && b in nti && nti[a] == nti[b] ==> a == b
    requires IncomingSources(withDeps, nti[t.name])
          == NodesOf(t.dependsOn, nti)
    ensures IncomingSources(FromEdge(withDeps, nti, t), nti[t.name])
         == (if ExtraProducer(t) == [] then [] else [nti[ExtraProducer(t)[0]]])
  {
    var v := nti[t.name];
    match t.input.ReferencesStage()
    case None =>
    case Some(f) =>
      SourceNamesDependency(t.dependsOn, nti, f);
      if f in t.dependsOn {
        assert nti[f] in IncomingSources(withDeps, v);
        assert HasEdge(withDeps, nti[f], v);
      } else {
        assert FromEdge(withDeps, nti, t) == [Edge(nti[f], v)];
        assert IncomingSources([Edge(nti[f], v)], v) == IncomingSources([], v) + [nti[f]];
      }
  }

  /** Under injective names a dependency source names a dependency. */
  lemma SourceNamesDependency(deps: seq<string>, nti: map<string, nat>, f: string)
    requires forall j :: 0 <= j < |deps| ==> deps[j] in nti
    requires forall a, b :: a in nti && b in nti && nti[a] == nti[b] ==> a == b
    requires f in nti
    ensures nti[f] in NodesOf(deps, nti) <==> f in deps
  {
    var depSrc := NodesOf(deps, nti);
    if f in deps {
      var j :| 0 <= j < |deps| && deps[j] == f;
      assert depSrc[j] == nti[f];
    }
    if nti[f] in depSrc {
      var j :| 0 <= j < |deps| && depSrc[j] == nti[f];
      assert deps[j] == f;
    }
  }

  /** Under distinct names each stage's name looks up its own index, and
      different names look up different indices. */
  lemma DistinctLookup(stages: seq<Stage>)
    requires DistinctNames(stages)
    ensures forall j :: 0 <= j < |stages| ==> stages[j].name in NameIndex(stages) && NameIndex(stages)[stages[j].name] == j
    ensures forall a, b :: a in NameIndex(stages) && b in NameIndex(stages) && NameIndex(stages)[a] == NameIndex(stages)[b] ==> a == b
  {
    var nti := NameIndex(stages);
    forall j | 0 <= j < |stages| ensures stages[j].name in nti && nti[stages[j].name] == j {
      assert stages[j].name in nti;
      assert LastNamed(stages, stages[j].name, nti[stages[j].name]);
    }
    forall a, b | a in nti && b in nti && nti[a] == nti[b] ensures a == b {
      assert LastNamed(stages, a, nti[a]) && LastNamed(stages, b, nti[b]);
    }
  }

  /** The edges into stage `i`'s node after the first `k` stages: its
      expected sources once it has been added, and none before. */
  lemma {:induction false} IncomingOfPrefix(stages: seq<Stage>, nti: map<string, nat>, k: nat, i: nat)
    requires i < |stages| && k <= |stages|
    requires forall j :: 0 <= j < |stages| ==> stages[j].name in nti && nti[stages[j].name] == j
    requires forall a, b :: a in nti && b in nti && nti[a] == nti[b] ==> a == b
    requires BuildEdges(stages[..k], nti).Ok?
    ensures i < k ==> RefsKnown(stages[i], nti)
    ensures IncomingSources(BuildEdges(stages[..k], nti).value, i)
      == if i < k then ExpectedSources(stages[i], nti) else []
  {
    if k > 0 {
      var pre := stages[..k][..k - 1];
      assert pre == stages[..k - 1];
      IncomingOfPrefix(stages, nti, k - 1, i);
      var acc := BuildEdges(pre, nti).value;
      var t := stages[k - 1];
      assert BuildEdges(stages[..k], nti) == StageEdges(acc, nti, t);
      if i == k - 1 {
        StageEdgesOwnNode(acc, nti, t);
      } else {
        StageEdgesOtherNode(acc, nti, t, i);
      }
    }
  }

  lemma DependenciesAre(dag: DagBuilder, name: string)
    requires Valid(dag) && name in dag.nameToIndex
    ensures forall i :: 0 <= i < |Seqs.Reverse(IncomingSources(dag.edges, dag.nameToIndex[name]))| ==>
      Seqs.Reverse(IncomingSources(dag.edges, dag.nameToIndex[name]))[i] in dag.indexToName
    ensures Dependencies(dag, name) == Some(NamesOf(dag.indexToName, Seqs.Reverse(IncomingSources(dag.edges, dag.nameToIndex[name]))))
  {
    var srcs := Seqs.Reverse(IncomingSources(dag.edges, dag.nameToIndex[name]));
    Seqs.ReverseMultiset(IncomingSources(dag.edges, dag.nameToIndex[name]));
    forall i | 0 <= i < |srcs| ensures srcs[i] in dag.indexToName {
      assert srcs[i] in srcs;
      NamedNode(dag, srcs[i]);
    }
  }

  /** The dependencies of a stage whose incoming edges come from the
      nodes of `refs`, in order: the references, last first. */
  lemma NamedSources(dag: DagBuilder, name: string, refs: seq<string>)
    requires Valid(dag) && name in dag.nameToIndex
    requires forall j :: 0 <= j < |refs| ==> refs[j] in dag.nameToIndex
    requires IncomingSources(dag.edges, dag.nameToIndex[name]) == seq(|refs|, j requires 0 <= j < |refs| => dag.nameToIndex[refs[j]])
    ensures Dependencies(dag, name) == Some(Seqs.Reverse(refs))
  {
    var inc := IncomingSources(dag.edges, dag.nameToIndex[name]);
    ReversedLookups(inc, dag.nameToIndex, refs);
    NamesOfReversed(dag.indexToName, dag.nameToIndex, refs, Seqs.Reverse(inc));
    DependenciesAre(dag, name);
  }

  /** The nodes of a list of references, taken last first. */
  lemma ReversedLookups(nodes: seq<nat>, nti: map<string, nat>, refs: seq<string>)
    requires forall j :: 0 <= j < |refs| ==> refs[j] in nti
    requires nodes == seq(|refs|, j requires 0 <= j < |refs| => nti[refs[j]])
    ensures |Seqs.Reverse(nodes)| == |refs|
    ensures forall j :: 0 <= j < |refs| ==> Seqs.Reverse(nodes)[j] == nti[refs[|refs| - 1 - j]]
  {
    forall j | 0 <= j < |refs| ensures Seqs.Reverse(nodes)[j] == nti[refs[|refs| - 1 - j]] {
      assert nodes[|refs| - 1 - j] == nti[refs[|refs| - 1 - j]];
    }
  }

  /** Naming the nodes of a list of references, taken last first, gives
      the references last first. */
  lemma NamesOfReversed(itn: map<nat, string>, nti: map<string, nat>, refs: seq<string>, srcs: seq<nat>)
    requires forall j :: 0 <= j < |refs| ==> refs[j] in nti && nti[refs[j]] in itn && itn[nti[refs[j]]] == refs[j]
    requires |srcs| == |refs| && forall j :: 0 <= j < |srcs| ==> srcs[j] == nti[refs[|refs| - 1 - j]]
    ensures forall j :: 0 <= j < |srcs| ==> srcs[j] in itn
    ensures NamesOf(itn, srcs) == Seqs.Reverse(refs)
  {
    var names := NamesOf(itn, srcs);
    var expected := Seqs.Reverse(refs);
    forall j | 0 <= j < |refs| ensures names[j] == expected[j] {
      assert srcs[j] == nti[refs[|refs| - 1 - j]];
    }
  }

  /** Every name a stage refers to is known, in the order listed. */
  lemma RefsKnownAll(s: Stage, nti: map<string, nat>)
    requires RefsKnown(s, nti)
    ensures forall j :: 0 <= j < |s.dependsOn + ExtraProducer(s)| ==> (s.dependsOn + ExtraProducer(s))[j] in nti
  {
    var refs := s.dependsOn + ExtraProducer(s);
    forall j | 0 <= j < |refs| ensures refs[j] in nti {
      if j < |s.dependsOn| {
        assert refs[j] == s.dependsOn[j];
      }
    }
  }

  /** With distinct names, the edges `build` draws into stage `i` come
      from its references' nodes, in order. */
  lemma IncomingOfStage(stages: seq<Stage>, i: nat)
    requires DistinctNames(stages) && i < |stages| && BuildSpec(stages).Ok?
    ensures RefsKnown(stages[i], NameIndex(stages))
    ensures forall j :: 0 <= j < |stages| ==> stages[j].name in NameIndex(stages) && NameIndex(stages)[stages[j].name] == j
    ensures BuildSpec(stages).value.indexToName == IndexNames(stages)
    ensures IncomingSources(BuildSpec(stages).value.edges, i)
         == ExpectedSources(stages[i], NameIndex(stages))
  {
    BuildShape(stages);
    DistinctLookup(stages);
    assert stages[..|stages|] == stages;
    IncomingOfPrefix(stages, NameIndex(stages), |stages|, i);
  }

  /** With distinct names, the dependencies `build` records for a stage are
      its `depends_on` entries, repeats included, followed by its
      `from_stage` producer unless `depends_on` already names it, listed
      from the last of these to the first. */
  lemma DependenciesOfStage(stages: seq<Stage>, i: nat)
    requires DistinctNames(stages) && i < |stages| && BuildSpec(stages).Ok?
    ensures Dependencies(BuildSpec(stages).value, stages[i].name) == Some(Seqs.Reverse(stages[i].dependsOn + ExtraProducer(stages[i])))
    ensures multiset(Dependencies(BuildSpec(stages).value, stages[i].name).value)
      == multiset(stages[i].dependsOn) + multiset(ExtraProducer(stages[i]))
  {
    IncomingOfStage(stages, i);
    var nti := NameIndex(stages);
    var dag := BuildSpec(stages).value;
    var s := stages[i];
    var refs := s.dependsOn + ExtraProducer(s);
    RefsKnownAll(s, nti);
    assert Valid(dag) && dag.nameToIndex == nti;
    assert IncomingSources(dag.edges, i) == seq(|refs|, j requires 0 <= j < |refs| => nti[refs[j]]);
    NamedSources(dag, s.name, refs);
    Seqs.ReverseMultiset(refs);
  }

  // ---------------------------------------------------------------------
  // The execution-order listing (`to_text`)

  /** One line of the listing, without its newline: position, name and
      tool, then the dependencies when there are any. */
  function OrderLine(position: nat, s: Stage, deps: seq<string>): (line: string)
    ensures StartsWith(line, NatToString(position) + ". " + s.name + " (" + ToolName(s.tool) + ")")
    ensures deps == [] <==> |line| == |NatToString(position) + ". " + s.name + " (" + ToolName(s.tool) + ")"|
    ensures line[|line| - 1] in ")]"
  {
    var head := NatToString(position) + ". " + s.name + " (" + ToolName(s.tool) + ")";
    if deps == [] then head else head + " [depends: " + Join(deps, ", ") + "]"
  }

  /** The dependencies listed for a stage: none when its name is unknown. */
  function ListedDeps(dag: DagBuilder, name: string): (deps: seq<string>)
    requires Valid(dag)
    ensures forall d :: d in deps ==> d in dag.nameToIndex
  {
    Dependencies(dag, name).UnwrapOr([])
  }

  /** The listing's lines for the stages at `order`, numbered from 1. */
  function OrderLines(dag: DagBuilder, stages: seq<Stage>, order: seq<nat>): (lines: seq<string>)
    requires Valid(dag)
    requires forall k :: 0 <= k < |order| ==> order[k] < |stages|
    ensures |lines| == |order|
  {
    if order == [] then []
    else
      var last := stages[order[|order| - 1]];
      OrderLines(dag, stages, order[..|order| - 1]) + [OrderLine(|order|, last, ListedDeps(dag, last.name))]
  }

  lemma {:induction false} OrderLinesAt(dag: DagBuilder, stages: seq<Stage>, order: seq<nat>, k: nat)
    requires Valid(dag)
    requires forall j :: 0 <= j < |order| ==> order[j] < |stages|
    requires k < |order|
    ensures OrderLines(dag, stages, order)[k] == OrderLine(k + 1, stages[order[k]], ListedDeps(dag, stages[order[k]].name))
    decreases |order|
  {
    if k < |order| - 1 {
      OrderLinesAt(dag, stages, order[..|order| - 1], k);
    }
  }

  lemma OrderLinesSnoc(dag: DagBuilder, stages: seq<Stage>, order: seq<nat>, i: nat)
    requires Valid(dag)
    requires forall j :: 0 <= j < |order| ==> order[j] < |stages|
    requires i < |order|
    ensures OrderLines(dag, stages, order[..i + 1])
         == OrderLines(dag, stages, order[..i]) + [OrderLine(i + 1, stages[order[i]], ListedDeps(dag, stages[order[i]].name))]
  {
    assert order[..i + 1][..i] == order[..i];
  }

  /** Appending stage `i`'s line extends the listing of the stages
      before it to the listing up to it. */
  lemma RenderStep(dag: DagBuilder, stages: seq<Stage>, order: seq<nat>, i: nat, out: string, line: string)
    requires Valid(dag)
    requires forall j :: 0 <= j < |order| ==> order[j] < |stages|
    requires i < |order|
    requires out == Terminated(OrderLines(dag, stages, order[..i]))
    requires line == OrderLine(i + 1, stages[order[i]], ListedDeps(dag, stages[order[i]].name))
    ensures out + line + "\n" == Terminated(OrderLines(dag, stages, order[..i + 1]))
  {
    OrderLinesSnoc(dag, stages, order, i);
    TerminatedSnoc(OrderLines(dag, stages, order[..i]), line);
  }

  /** The body of the loop of `to_text`: one stage's line. */
  method RenderLine(dag: DagBuilder, position: nat, stage: Stage) returns (line: string)
    requires Valid(dag)
    ensures line == OrderLine(position, stage, ListedDeps(dag, stage.name))
  {
    var deps := ListedDeps(dag, stage.name);
    line := NatToString(position) + ". " + stage.name + " (" + ToolName(stage.tool) + ")";
    if deps != [] {
      line := line + " [depends: " + Join(deps, ", ") + "]";
    }
  }

  /** The loop of `to_text`: the listing for the stages at `order`. */
  method RenderOrder(dag: DagBuilder, stages: seq<Stage>, order: seq<nat>) returns (out: string)
    requires Valid(dag) && forall k :: 0 <= k < |order| ==> order[k] < |stages|
    ensures out == Terminated(OrderLines(dag, stages, order))
  {
    out := "";
    var i := 0;
    while i < |order|
      invariant 0 <= i <= |order|
      invariant out == Terminated(OrderLines(dag, stages, order[..i]))
    {
      var line := RenderLine(dag, i + 1, stages[order[i]]);
      RenderStep(dag, stages, order, i, out, line);
      out := out + line + "\n";
      i := i + 1;
    }
    assert order[..i] == order;
  }

  /** `to_text`: one line per stage, in topological order, each ended by a
      newline; fails as `topological_order` does on a cycle. */
  method ToText(dag: DagBuilder, p: Pipeline) returns (r: Result<string, ConflowError>)
    requires Valid(dag) && |p.stages| == dag.nodeCount
    ensures r.Ok? <==> !HasCycle(dag.edges)
    ensures r.Err? ==> r == Err(TopologicalOrder(dag).error)
    ensures r.Ok? ==> IsTopoOrder(TopologicalOrder(dag).value, dag.nodeCount, dag.edges)
    ensures r.Ok? ==> r.value == Terminated(OrderLines(dag, p.stages, TopologicalOrder(dag).value))
  {
    var ordered := TopologicalOrder(dag);
    if ordered.Err? {
      return Err(ordered.error);
    }
    var out := RenderOrder(dag, p.stages, ordered.value);
    return Ok(out);
  }

  lemma OrderLineShape(position: nat, s: Stage, deps: seq<string>)
    requires '\n' !in s.name && forall j :: 0 <= j < |deps| ==> '\n' !in deps[j]
    ensures '\n' !in OrderLine(position, s, deps)
    ensures StartsWith(OrderLine(position, s, deps), NatToString(position) + ". " + s.name + " (")
  {
    var pre := NatToString(position) + ". " + s.name + " (";
    var head := pre + ToolName(s.tool) + ")";
    JoinAvoids(deps, ", ", '\n');
    assert '\n' !in head;
    assert head[..|pre|] == pre;
  }

  lemma OrderLineAtShape(dag: DagBuilder, stages: seq<Stage>, order: seq<nat>, k: nat)
    requires Valid(dag) && forall j :: 0 <= j < |order| ==> order[j] < |stages|
    requires k < |order| && '\n' !in stages[order[k]].name
    requires forall name :: name in dag.nameToIndex ==> '\n' !in name
    ensures '\n' !in OrderLines(dag, stages, order)[k]
    ensures |OrderLines(dag, stages, order)[k]| > 0
    ensures OrderLines(dag, stages, order)[k][|OrderLines(dag, stages, order)[k]| - 1] != '\r'
    ensures StartsWith(OrderLines(dag, stages, order)[k], NatToString(k + 1) + ". " + stages[order[k]].name + " (")
  {
    var s := stages[order[k]];
    var deps := ListedDeps(dag, s.name);
    assert forall j :: 0 <= j < |deps| ==> deps[j] in deps;
    OrderLinesAt(dag, stages, order, k);
    OrderLineShape(k + 1, s, deps);
  }

  /** When no stage name holds a newline, the listing splits into exactly
      one line per stage, the `k`-th numbered `k + 1` and naming the `k`-th
      stage of the order. */
  lemma ListingLines(dag: DagBuilder, stages: seq<Stage>, order: seq<nat>)
    requires Valid(dag) && forall k :: 0 <= k < |order| ==> order[k] < |stages|
    requires forall k :: 0 <= k < |stages| ==> '\n' !in stages[k].name
    requires forall name :: name in dag.nameToIndex ==> '\n' !in name
    ensures Lines(Terminated(OrderLines(dag, stages, order))) == OrderLines(dag, stages, order)
    ensures |Lines(Terminated(OrderLines(dag, stages, order)))| == |order|
    ensures forall k :: 0 <= k < |order| ==>
      StartsWith(Lines(Terminated(OrderLines(dag, stages, order)))[k],
                 NatToString(k + 1) + ". " + stages[order[k]].name + " (")
  {
    var lines := OrderLines(dag, stages, order);
    forall k | 0 <= k < |lines|
      ensures '\n' !in lines[k] && (lines[k] == [] || lines[k][|lines[k]| - 1] != '\r')
      ensures StartsWith(lines[k], NatToString(k + 1) + ". " + stages[order[k]].name + " (")
    {
      OrderLineAtShape(dag, stages, order, k);
    }
    LinesOfTerminated(lines);
  }
}
