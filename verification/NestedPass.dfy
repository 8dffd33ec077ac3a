/** The pass on the loop of `NestedIfs`: the greedy schedule leaves it no choice of threads, and it gets through, or gives
    up, accordingly. Where it gets through, every condition of the theorem about the pass can be met. */
module NestedPass {
  import opened Ir
  import opened PostDominance
  import opened PeeledLoop
  import opened ControlDependence
  import opened DependenceGraph
  import opened BuildPdg
  import opened Reachability
  import Scc
  import opened Partition
  import opened Slicing
  import opened Plan
  import opened Split
  import opened Closure
  import opened Sync
  import opened Handover
  import opened Assembly
  import opened Pass
  import opened Sequential
  import opened Trace
  import opened Pipeline
  import opened NestedIfs

  // ---- its components ----

  ghost predicate NestedScc(both: bool, g: Digraph, es: seq<Edge>, ids: map<Inst, nat>, n: nat) {
    NestedEdges(both, es) && Mirrors(g, es) && g.nodes == Nested().parent.Keys && Scc.Numbered(g, g.nodes, ids, n)
  }

  lemma NestedStep(both: bool, g: Digraph, es: seq<Edge>, a: Inst, b: Inst)
    requires NestedEdges(both, es) && Mirrors(g, es)
    ensures g.Step(a, b) <==> exists ty :: IsNestedEdge(both, Edge(a, b, ty))
  {
    hide IsNestedEdge, Mirrors, Digraph.Step;
    StepIsEdge(g, es, a, b);
    assert forall e :: e in es <==> IsNestedEdge(both, e);
  }

  lemma NestedSteps(both: bool, g: Digraph, es: seq<Edge>)
    requires NestedEdges(both, es) && Mirrors(g, es)
    ensures g.Step(0, 1) && g.Step(1, 2) && g.Step(2, 3) && g.Step(3, 4) && g.Step(4, 5) && g.Step(5, 0)
    ensures g.Step(0, 6) && g.Step(4, 7)
    ensures forall b :: g.Step(6, b) ==> b == 6
    ensures forall b :: !g.Step(7, b)
  {
    hide Mirrors, Digraph.Step, NestedEdges, IsNestedEdge;
    NestedStep(both, g, es, 0, 1);
    NestedStep(both, g, es, 1, 2);
    NestedStep(both, g, es, 2, 3);
    NestedStep(both, g, es, 3, 4);
    NestedStep(both, g, es, 4, 5);
    NestedStep(both, g, es, 5, 0);
    NestedStep(both, g, es, 0, 6);
    NestedStep(both, g, es, 4, 7);
    NestedListed(both);
    forall b ensures (g.Step(6, b) ==> b == 6) && !g.Step(7, b) {
      NestedStep(both, g, es, 6, b);
      NestedStep(both, g, es, 7, b);
      if ty :| IsNestedEdge(both, Edge(6, b, ty)) { NestedOut(both, Edge(6, b, ty)); }
      if ty :| IsNestedEdge(both, Edge(7, b, ty)) { NestedOut(both, Edge(7, b, ty)); }
    }
  }

  lemma NestedOut(both: bool, e: Edge)
    requires IsNestedEdge(both, e)
    ensures e.u == 6 ==> e.v == 6
    ensures e.u != 7
  {
  }

  lemma NestedListed(both: bool)
    ensures IsNestedEdge(both, Edge(0, 1, REG)) && IsNestedEdge(both, Edge(1, 2, CONTROL))
    ensures IsNestedEdge(both, Edge(2, 3, REG))
    ensures IsNestedEdge(both, Edge(3, 4, CONTROL)) && IsNestedEdge(both, Edge(4, 5, CONTROL))
    ensures IsNestedEdge(both, Edge(5, 0, DANTI))
    ensures IsNestedEdge(both, Edge(0, 6, REG)) && IsNestedEdge(both, Edge(4, 7, CONTROL))
  {
    var ds := NestedData(both);
    assert ds[0] == Edge(0, 1, REG) && ds[1] == Edge(0, 6, REG) && ds[2] == Edge(2, 3, REG) && ds[4] == Edge(5, 0, DANTI);
  }

  /** What has no edge out but to itself is in no other component. */
  lemma Alone(g: Digraph, a: Inst, b: Inst)
    requires a != b && forall c :: g.Step(a, c) ==> c == a
    ensures !g.Mutual(a, b)
  {
    if g.Reach(a, b) { var c, d := g.Crossing(a, b, {a}); }
  }

  lemma NestedNodes(both: bool, g: Digraph, es: seq<Edge>, ids: map<Inst, nat>, n: nat)
    requires NestedScc(both, g, es, ids, n)
    ensures forall x: Inst :: x in ids <==> x < 8
    ensures forall x :: x in ids ==> ids[x] < n
  {
    hide Nested, NestedEdges, Mirrors, Digraph.Step, Digraph.Mutual, Scc.Inhabited;
    forall x: Inst ensures x in ids <==> x < 8 { NestedParents(x); }
  }

  lemma StepRises(g: Digraph, ids: map<Inst, nat>, n: nat, a: Inst, b: Inst)
    requires Scc.Numbered(g, g.nodes, ids, n) && b in ids && g.Step(a, b)
    ensures a in ids && ids[a] <= ids[b]
  {
    hide Digraph.Step, Digraph.Mutual, Scc.Inhabited;
  }

  lemma ApartIds(g: Digraph, ids: map<Inst, nat>, n: nat, a: Inst, b: Inst)
    requires Scc.Numbered(g, g.nodes, ids, n) && a in ids && b in ids && a != b && forall c :: g.Step(a, c) ==> c == a
    ensures ids[a] != ids[b]
  {
    hide Digraph.Step, Digraph.Mutual, Scc.Inhabited;
    Alone(g, a, b);
  }

  /** The loop but for `v` and the jump behind it is the first component; each of those is one of the other two. */
  lemma NestedIds(both: bool, g: Digraph, es: seq<Edge>, ids: map<Inst, nat>, n: nat)
    requires NestedScc(both, g, es, ids, n)
    ensures forall x: Inst :: x in ids <==> x < 8
    ensures ids[0] == ids[1] == ids[2] == ids[3] == ids[4] == ids[5] == 0 && n == 3
    ensures (ids[6] == 1 && ids[7] == 2) || (ids[6] == 2 && ids[7] == 1)
  {
    hide Nested, NestedEdges, Mirrors, Digraph.Step, Digraph.Mutual, Scc.Numbered;
    NestedNodes(both, g, es, ids, n);
    NestedSteps(both, g, es);
    StepRises(g, ids, n, 0, 1);
    StepRises(g, ids, n, 1, 2);
    StepRises(g, ids, n, 2, 3);
    StepRises(g, ids, n, 3, 4);
    StepRises(g, ids, n, 4, 5);
    StepRises(g, ids, n, 5, 0);
    StepRises(g, ids, n, 0, 6);
    StepRises(g, ids, n, 4, 7);
    ApartIds(g, ids, n, 6, 0);
    ApartIds(g, ids, n, 7, 0);
    ApartIds(g, ids, n, 7, 6);
    forall j: nat | j < 4 && j < n ensures j in [ids[0], ids[6], ids[7]] { NestedValue(g, ids, n, j); }
    ThreeValues(ids[0], ids[6], ids[7], n);
  }

  lemma NestedValue(g: Digraph, ids: map<Inst, nat>, n: nat, j: nat)
    requires Scc.Numbered(g, g.nodes, ids, n) && j < n && (forall x: Inst :: x in ids <==> x < 8)
    requires ids[0] == ids[1] == ids[2] == ids[3] == ids[4] == ids[5]
    ensures j in [ids[0], ids[6], ids[7]]
  {
    hide Digraph.Step, Digraph.Mutual;
    assert Scc.Inhabited(ids, j);
    hide Scc.Numbered;
    var x :| x in ids && ids[x] == j;
  }

  lemma ThreeValues(a: nat, b: nat, c: nat, n: nat)
    requires a < n && b < n && c < n && a < b && a < c && b != c
    requires forall j: nat :: j < 4 && j < n ==> j in [a, b, c]
    ensures n == 3 && a == 0 && ((b == 1 && c == 2) || (b == 2 && c == 1))
  {
    assert 0 in [a, b, c] && 1 in [a, b, c] && 2 in [a, b, c];
    assert n > 3 ==> 3 in [a, b, c];
  }

  // ---- its schedule ----

  lemma LatencySnoc(ids: map<Inst, nat>, xs: seq<Inst>, x: Inst, j: nat)
    requires (forall y :: y in xs ==> y in ids) && x in ids
    ensures Latency(ids, NestedLatency, xs + [x], j) == Latency(ids, NestedLatency, xs, j) + if ids[x] == j then NestedLatency(x) else 0
  {
    assert (xs + [x])[..|xs|] == xs;
  }

  lemma LoopLatencySnoc(ids: map<Inst, nat>, bs: seq<Block>, b: Block, j: nat)
    requires Nested().Valid() && (forall x :: x in Nested().parent ==> x in ids)
    requires (forall c :: c in bs ==> c in Nested().blocks) && b in Nested().blocks
    ensures forall x :: x in Nested().body[b] ==> x in ids
    ensures LoopLatency(Nested(), ids, NestedLatency, bs + [b], j) ==
              LoopLatency(Nested(), ids, NestedLatency, bs, j) + Latency(ids, NestedLatency, Nested().body[b], j)
  {
    hide Nested;
    assert (bs + [b])[..|bs|] == bs;
  }

  lemma LatencyOne(ids: map<Inst, nat>, x: Inst, j: nat)
    requires x in ids
    ensures Latency(ids, NestedLatency, [x], j) == if ids[x] == j then NestedLatency(x) else 0
  {
    LatencySnoc(ids, [], x, j);
    assert [] + [x] == [x];
  }

  lemma LatencyTwo(ids: map<Inst, nat>, x: Inst, y: Inst, j: nat)
    requires x in ids && y in ids
    ensures Latency(ids, NestedLatency, [x, y], j) ==
              (if ids[x] == j then NestedLatency(x) else 0) + if ids[y] == j then NestedLatency(y) else 0
  {
    hide Latency;
    LatencyOne(ids, x, j);
    LatencySnoc(ids, [x], y, j);
    assert [x] + [y] == [x, y];
  }

  lemma NestedBlockLatency(ids: map<Inst, nat>, b: Block, j: nat)
    requires Nested().Valid() && (forall x: Inst :: x < 8 ==> x in ids) && b in Nested().blocks
    requires forall x :: x in Nested().body[b] ==> x in ids
    ensures b == 0 ==> Latency(ids, NestedLatency, Nested().body[b], j) == if ids[0] == j then 2 else 0
    ensures b == 1 ==> Latency(ids, NestedLatency, Nested().body[b], j) == if ids[2] == j then 2 else 0
    ensures b == 2 ==> Latency(ids, NestedLatency, Nested().body[b], j) == 0
    ensures b == 3 ==> Latency(ids, NestedLatency, Nested().body[b], j) == (if ids[5] == j then 2 else 0) + if ids[6] == j then 2 else 0
  {
    hide Nested, Loop.Valid, Latency;
    NestedKeys();
    NestedBodies(b);
    if b == 0 {
      LatencyTwo(ids, 0, 1, j);
    } else if b == 1 {
      LatencyTwo(ids, 2, 3, j);
    } else if b == 2 {
      LatencyOne(ids, 4, j);
    } else {
      LatencyTwo(ids, 5, 6, j);
      LatencySnoc(ids, [5, 6], 7, j);
      assert [5, 6] + [7] == [5, 6, 7];
    }
  }

  lemma NestedLoopLatency(ids: map<Inst, nat>, j: nat)
    requires Nested().Valid() && (forall x :: x in Nested().parent ==> x in ids) && forall x: Inst :: x < 8 ==> x in ids
    ensures LoopLatency(Nested(), ids, NestedLatency, Nested().blocks, j) ==
              (if ids[0] == j then 2 else 0) + (if ids[2] == j then 2 else 0) + (if ids[5] == j then 2 else 0) + if ids[6] == j then 2 else 0
  {
    hide Nested, Latency, LoopLatency, Loop.Valid;
    NestedKeys();
    FirstTwoBlocks(ids, j);
    LoopLatencySnoc(ids, [0, 1], 2, j);
    LoopLatencySnoc(ids, [0, 1, 2], 3, j);
    NestedBlockLatency(ids, 2, j);
    NestedBlockLatency(ids, 3, j);
    assert [0, 1] + [2] == [0, 1, 2] && [0, 1, 2] + [3] == [0, 1, 2, 3];
  }

  lemma FirstTwoBlocks(ids: map<Inst, nat>, j: nat)
    requires Nested().Valid() && (forall x :: x in Nested().parent ==> x in ids) && forall x: Inst :: x < 8 ==> x in ids
    ensures 0 in Nested().blocks && 1 in Nested().blocks
    ensures LoopLatency(Nested(), ids, NestedLatency, [0, 1], j) == (if ids[0] == j then 2 else 0) + if ids[2] == j then 2 else 0
  {
    hide Nested, Latency, LoopLatency, Loop.Valid;
    NestedKeys();
    LoopLatencySnoc(ids, [], 0, j);
    LoopLatencySnoc(ids, [0], 1, j);
    NestedBlockLatency(ids, 0, j);
    NestedBlockLatency(ids, 1, j);
    assert [] + [0] == [0] && [0] + [1] == [0, 1];
    NoBlocks(ids, j);
  }

  lemma NoBlocks(ids: map<Inst, nat>, j: nat)
    requires Nested().Valid() && (forall x :: x in Nested().parent ==> x in ids)
    ensures LoopLatency(Nested(), ids, NestedLatency, [], j) == 0
  {
  }

  lemma SumThree(s: seq<nat>)
    requires |s| == 3
    ensures Sum(s) == s[0] + s[1] + s[2]
  {
    SumSnoc(s[..2], s[2]);
    SumSnoc(s[..1], s[1]);
    SumSnoc([], s[0]);
    hide Sum;
    assert [] + [s[0]] == s[..1] && s[..1] + [s[1]] == s[..2] && s[..2] + [s[2]] == s;
  }

  lemma SumSnoc(s: seq<nat>, x: nat)
    ensures Sum(s + [x]) == Sum(s) + x && Sum([]) == 0
  {
    assert (s + [x])[..|s|] == s;
  }

  /** The first component weighs 6 of 8. */
  lemma NestedWeights(ids: map<Inst, nat>, lat: seq<nat>)
    requires Nested().Valid() && |lat| == 3 && forall x :: x in Nested().parent ==> x in ids
    requires forall j :: 0 <= j < |lat| ==> lat[j] == LoopLatency(Nested(), ids, NestedLatency, Nested().blocks, j)
    requires (forall x: Inst :: x < 8 ==> x in ids) && ids[0] == ids[2] == ids[5] == 0 && (ids[6] == 1 || ids[6] == 2)
    ensures lat[0] == 6 && Sum(lat) == 8
  {
    hide Nested, LoopLatency, Sum, Loop.Valid;
    NestedLoopLatency(ids, 0);
    NestedLoopLatency(ids, 1);
    NestedLoopLatency(ids, 2);
    SumThree(lat);
  }

  /** When the component taken first fills the first of two threads, the rest goes to the second. */
  lemma {:induction false} FirstFills(lat: seq<nat>, aver: nat, taken: seq<nat>)
    requires (forall k :: 0 <= k < |taken| ==> taken[k] < |lat|) && |taken| > 0 && aver <= lat[taken[0]]
    ensures SlotAfter(lat, 2, aver, taken).t == 1
  {
    if |taken| > 1 { FirstFills(lat, aver, taken[..|taken| - 1]); }
  }

  lemma FirstAndRest(g: Dag, lat: seq<nat>, placed: seq<int>, order: seq<nat>, v: nat)
    requires Greedy(g, lat, 2, placed, order) && 0 < g.n && v < g.n && Sum(lat) / 2 <= lat[0]
    requires forall u :: 0 < u < g.n ==> g.Pars(u) != []
    ensures placed[v] == if v == 0 then 0 else 1
  {
    hide Sum, Dag.Pars, SlotAfter;
    var aver := Sum(lat) / 2;
    assert 0 in order && v in order;
    var k :| 0 <= k < |order| && order[k] == v;
    FirstTaken(g, lat, aver, placed, order);
    hide Best;
    assert TakenAt(g, lat, 2, aver, placed, order, k);
    if k > 0 {
      assert order[..k][0] == order[0];
      FirstFills(lat, aver, order[..k]);
    } else {
      NothingTaken(lat, aver, order[..0]);
    }
  }

  lemma NothingTaken(lat: seq<nat>, aver: nat, taken: seq<nat>)
    requires taken == []
    ensures SlotAfter(lat, 2, aver, taken).t == 0
  {
  }

  lemma FirstTaken(g: Dag, lat: seq<nat>, aver: nat, placed: seq<int>, order: seq<nat>)
    requires Taken(g, lat, 2, aver, placed, order) && |order| > 0
    requires forall u :: 0 < u < g.n ==> g.Pars(u) != []
    ensures order[0] == 0
  {
    hide Dag.Pars, SlotAfter;
    assert TakenAt(g, lat, 2, aver, placed, order, 0);
    assert Candidate(g, order[..0], order[0]);
    if order[0] != 0 { NoCandidate(g, order[..0], order[0]); }
  }

  lemma NoCandidate(g: Dag, before: seq<nat>, v: nat)
    requires before == [] && g.Pars(v) != []
    ensures !Candidate(g, before, v)
  {
    assert g.Pars(v)[0] in g.Pars(v);
  }

  /** Each later component depends on the first. */
  lemma NestedParentsOf(both: bool, g: Digraph, es: seq<Edge>, sch: Schedule, v: nat)
    requires NestedScc(both, g, es, sch.sccId, sch.n) && 0 < v < 3
    requires Scc.Condensed(g, sch.sccId, sch.members, sch.dag, sch.dependents, sch.parents, sch.n)
    ensures Dag(sch.n, sch.dependents, sch.parents).Pars(v) != []
  {
    hide Scc.Numbered, Scc.Listed, NestedScc, Digraph.Step, NestedEdges, Mirrors, ListAt;
    NestedIds(both, g, es, sch.sccId, sch.n);
    assert g.Step(0, 6) && g.Step(4, 7) by { SccEdges(both, g, es, sch.sccId, sch.n); }
    var b := if sch.sccId[6] == v then 6 else 7;
    assert Scc.Owed(g, sch.sccId, 0, v);
    assert (0, v) in sch.dag;
    assert 0 in ListAt(sch.parents, v);
  }

  lemma SccEdges(both: bool, g: Digraph, es: seq<Edge>, ids: map<Inst, nat>, n: nat)
    requires NestedScc(both, g, es, ids, n)
    ensures NestedEdges(both, es) && Mirrors(g, es) && g.Step(0, 6) && g.Step(4, 7)
  {
    NestedSteps(both, g, es);
  }

  /** The greedy schedule leaves no choice. */
  lemma OwnerForced(both: bool, g: Digraph, es: seq<Edge>, sch: Schedule, owner: map<Inst, nat>)
    requires NestedEdges(both, es) && Mirrors(g, es) && g.nodes == Nested().parent.Keys
    requires Scheduled(Nested(), g, NestedLatency, 2, sch, owner)
    ensures owner == NestedOwner()
  {
    hide Nested, NestedEdges, Mirrors, Scheduled, Greedy;
    PlacesForced(both, g, es, sch, owner);
    OwnersAre(sch, owner);
  }

  /** The first component goes to the first thread and the others to the second. */
  lemma PlacesForced(both: bool, g: Digraph, es: seq<Edge>, sch: Schedule, owner: map<Inst, nat>)
    requires NestedEdges(both, es) && Mirrors(g, es) && g.nodes == Nested().parent.Keys
    requires Scheduled(Nested(), g, NestedLatency, 2, sch, owner)
    ensures OwnerTable(Nested(), sch.sccId, sch.placed, owner) && (forall x: Inst :: x in sch.sccId <==> x < 8)
    ensures forall x: Inst :: x < 6 ==> sch.sccId[x] == 0
    ensures sch.sccId[6] in {1, 2} && sch.sccId[7] in {1, 2} && |sch.placed| == 3
    ensures forall k :: 0 <= k < 3 ==> sch.placed[k] == if k == 0 then 0 else 1
  {
    hide Nested, NestedEdges, Mirrors, Scc.Numbered, Scc.Listed, Scc.Recorded, Scc.Mirrored, Greedy, Sum;
    hide LoopLatency, Loop.Valid;
    hide OwnerTable;
    var ids, d := sch.sccId, Dag(sch.n, sch.dependents, sch.parents);
    assert NestedScc(both, g, es, ids, sch.n);
    NestedIds(both, g, es, ids, sch.n);
    GreedySizes(d, sch.lat, 2, sch.placed, sch.order);
    IdsInside(ids);
    NestedWeights(ids, sch.lat);
    forall u | 0 < u < d.n ensures d.Pars(u) != [] { NestedParentsOf(both, g, es, sch, u); }
    forall k | 0 <= k < 3 ensures sch.placed[k] == if k == 0 then 0 else 1 {
      FirstAndRest(d, sch.lat, sch.placed, sch.order, k);
    }
  }

  lemma IdsInside(ids: map<Inst, nat>)
    requires forall x: Inst :: x in ids <==> x < 8
    ensures forall x :: x in Nested().parent ==> x in ids
  {
  }

  lemma OwnersAre(sch: Schedule, owner: map<Inst, nat>)
    requires OwnerTable(Nested(), sch.sccId, sch.placed, owner) && (forall x: Inst :: x in sch.sccId <==> x < 8)
    requires forall x: Inst :: x < 6 ==> sch.sccId[x] == 0
    requires sch.sccId[6] in {1, 2} && sch.sccId[7] in {1, 2} && |sch.placed| == 3
    requires forall k :: 0 <= k < 3 ==> sch.placed[k] == if k == 0 then 0 else 1
    ensures owner == NestedOwner()
  {
    hide Nested;
    forall x: Inst ensures x in owner <==> x < 8 { NestedParents(x); }
    forall x: Inst | x < 8 ensures owner[x] == if x < 6 then 0 else 1 { NestedParents(x); }
  }

  lemma GreedySizes(g: Dag, lat: seq<nat>, threads: nat, placed: seq<int>, order: seq<nat>)
    requires Greedy(g, lat, threads, placed, order)
    ensures |lat| == |placed| == g.n
  {
  }

  // ---- the end of the pass ----

  lemma NestedActive(both: bool, es: seq<Edge>)
    requires NestedEdges(both, es)
    ensures EdgesInside(Nested(), es) && |Active(Nested(), NestedOwner(), es, 2)| == 2
    ensures 0 in Active(Nested(), NestedOwner(), es, 2)[0]
    ensures Active(Nested(), NestedOwner(), es, 2)[1] == NestedKept(both)
  {
    hide Nested, NestedOwner, NestedEdges, EdgesInside, Relevant;
    NestedRelevant(both, es);
    FirstKeeps(es);
    ActiveIs(Nested(), NestedOwner(), es, 2);
  }

  lemma FirstKeeps(es: seq<Edge>)
    requires EdgesInside(Nested(), es)
    ensures 0 in Relevant(Nested(), NestedOwner(), es, 0)
  {
    OwnRelevant(Nested(), NestedOwner(), es, 0, 0);
  }

  /** The token of the outer test has no place in the second thread. */
  lemma NestedUnwired(es: seq<Edge>, kept: seq<set<Block>>)
    requires Nested().Valid() && NestedEdges(false, es) && EdgesInside(Nested(), es) && |kept| == 2
    requires kept[1] == NestedKept(false)
    requires forall x :: x in Nested().parent ==> x in NestedOwner()
    ensures !Wireable(Nested(), NestedOwner(), es, kept)
  {
    hide Nested, NestedOwner, NestedEdges, IsNestedEdge, EdgesInside, AllServed, Served;
    OuterToken(es);
    var p, e := Sliced(Nested(), NestedOwner(), kept), Edge(3, 4, CONTROL);
    if AllServed(p, es, |es|) {
      ServedEdge(p, es, e);
      ServedAt(p, e, 1);
    }
  }

  lemma OuterToken(es: seq<Edge>)
    requires Nested().Valid() && NestedEdges(false, es)
    ensures Edge(3, 4, CONTROL) in es && 3 in NestedOwner() && NestedOwner()[3] == 0
    ensures 3 in Nested().parent && Nested().parent[3] == 1 && 4 in Nested().parent && Nested().parent[4] == 2
    ensures Nested().IsTerm(4)
  {
    hide IsNestedEdge, Nested, NestedOwner;
    NestedHolds(false);
    NestedOwnedBy();
    NestedParents(3);
    NestedParents(4);
    NestedKeys();
    NestedBody(2, 4);
    NestedTerm(2);
  }

  /** With every block kept every receive has a place. */
  lemma NestedWired(es: seq<Edge>, kept: seq<set<Block>>)
    requires Nested().Valid() && EdgesInside(Nested(), es) && |kept| == 2 && kept[1] == NestedKept(true)
    requires forall x :: x in Nested().parent ==> x in NestedOwner()
    ensures Wireable(Nested(), NestedOwner(), es, kept)
  {
    var p := Sliced(Nested(), NestedOwner(), kept);
    hide Nested, NestedOwner;
    forall e, to: nat | e in es && p.owner[e.u] < to ensures Placeable(p, e, to) { NestedParents(e.u); }
  }

  /** The pass gets through exactly when `v` uses `x`. */
  lemma NestedSurvives(both: bool, es: seq<Edge>)
    requires Nested().Valid() && NestedEdges(both, es) && Setting(Nested(), NestedOwner(), es)
    ensures EdgesInside(Nested(), es) && (Survives(Nested(), NestedOwner(), es, 2) <==> both)
  {
    hide Nested, NestedOwner, NestedEdges, Setting, Loop.Valid, Wireable, EdgesInside, Relevant, Active;
    SettingFacts(Nested(), NestedOwner(), es);
    NestedKeys();
    NestedActive(both, es);
    var kept := Active(Nested(), NestedOwner(), es, 2);
    if both { NestedWired(es, kept); } else { NestedUnwired(es, kept); }
  }

  /** Whatever schedule the greedy order allows, the pass does not get past this loop unless `v` uses `x`. */
  lemma PassGivesUp(both: bool, g: Digraph, es: seq<Edge>, sch: Schedule, owner: map<Inst, nat>)
    requires Nested().Valid() && Usable(LoopGraph(Nested())) && ControlOf(Nested(), NestedData(both), es)
    requires Mirrors(g, es) && g.nodes == Nested().parent.Keys && Scheduled(Nested(), g, NestedLatency, 2, sch, owner)
    ensures owner == NestedOwner() && Setting(Nested(), owner, es) && (Survives(Nested(), owner, es, 2) <==> both)
  {
    hide Nested, NestedOwner, NestedEdges, Mirrors, Scheduled, Setting, ControlOf, Survives, Loop.Valid, Usable;
    NestedSetting(both, es);
    OwnerForced(both, g, es, sch, owner);
    NestedSurvives(both, es);
  }

  /** runOnLoop on this loop: an error unless `v` uses `x`, whichever way ties are broken. */
  method RunNested(both: bool, postidom: map<Block, Block>, trees: map<Block, nat> -> PostDomTree)
    returns (o: Outcome, ghost es: seq<Edge>)
    requires Nested().Valid() && Usable(LoopGraph(Nested())) && IsIPDom(LoopGraph(Nested()), postidom)
    requires TreesOf(Nested(), trees)
    ensures NestedEdges(both, es)
    ensures !both ==> o == Error
    ensures both ==> o.Parallel? && Output(Nested(), o.plan, es, postidom) && o.plan.owner == NestedOwner()
  {
    hide Nested, NestedData, NestedOwner, Usable, IsIPDom, TreesOf, Loop.Valid, Pdg.Valid, Before, ControlOf;
    hide Mirrors, Scheduled;
    hide Survives, Output, Digraph.Mutual, NestedEdges;
    var l, data := Nested(), NestedData(both);
    var pdg := new Pdg();
    NestedDataIs(both);
    for i := 0 to |data|
      invariant fresh(pdg) && pdg.Valid() && pdg.allEdges == data[..i]
    {
      assert data[i] !in data[..i];
      pdg.AddEdge(data[i].u, data[i].v, data[i].dtype);
      assert data[..i + 1] == data[..i] + [data[i]];
    }
    assert data[..|data|] == data;
    NestedBefore(both);
    ghost var sch, owner;
    o, sch, owner := RunOnLoop(l, pdg, trees, postidom, 2, NestedLatency);
    es := pdg.allEdges;
    NestedEdgesForced(both, es);
    var g := GraphOf(l, pdg.pdg, pdg.rev);
    if o.Unmodified? {
      NestedApart(both, g, es);
    } else {
      PassGivesUp(both, g, es, sch, owner);
    }
  }

  lemma NestedDataIs(both: bool)
    ensures NoDups(NestedData(both))
  {
  }

  lemma NestedBefore(both: bool)
    requires Nested().Valid()
    ensures Before(Nested(), NestedData(both))
  {
    hide Nested, Loop.Valid;
    NestedKeys();
    NestedParents(0);
    NestedParents(1);
    NestedParents(2);
    NestedParents(3);
    NestedParents(5);
    NestedParents(6);
    NestedBody(0, 0);
    NestedBody(1, 0);
    NestedTerm(0);
    NestedTerm(1);
  }

  lemma NestedApart(both: bool, g: Digraph, es: seq<Edge>)
    requires NestedEdges(both, es) && Mirrors(g, es)
    ensures 6 in Nested().parent && 0 in Nested().parent && !g.Mutual(6, 0)
  {
    hide Nested, NestedData, NestedEdges, Mirrors, Digraph.Mutual, Digraph.Step;
    NestedParents(0);
    NestedParents(6);
    NestedSteps(both, g, es);
    Alone(g, 6, 0);
  }

  // ---- a run of the loop ----

  /** What the instructions do: `flag` is cell 0, `out` cell 1, `limit` cell 2. */
  function NestedEffect(x: Inst, ops: seq<int>, mem: Memory): Effect {
    if x == 0 || x == 2 then Effect(Lookup(mem, x), {x}, map[])
    else if x == 5 then Effect(0, {}, map[0 := 0])
    else if x == 6 then Effect(0, {}, map[1 := if |ops| == 2 then ops[0] - ops[1] else 0])
    else Effect(0, {}, map[])
  }

  function NestedMachine(): Machine {
    Machine(map[1 := [0], 3 := [2], 6 := [0, 2]],
            (x: Inst, ops: seq<int>, mem: Memory) => NestedEffect(x, ops, mem),
            (x: Inst, ops: seq<int>) => if (x == 1 || x == 3) && (|ops| == 0 || ops[0] == 0) then 1 else 0)
  }

  /** The loop runs once through both tests and then finds the flag down. */
  function NestedRun(): Run {
    Run(Nested(), NestedMachine(), Store(map[], map[0 := 5, 2 := 3]))
  }

  lemma ReadsOnly(x: Inst, ops: seq<int>, mem: Memory, mem': Memory)
    requires forall a :: a in NestedEffect(x, ops, mem).loads ==> SameAt(mem, mem', a)
    ensures NestedEffect(x, ops, mem') == NestedEffect(x, ops, mem)
  {
    if x == 0 || x == 2 { assert x in NestedEffect(x, ops, mem).loads; }
  }

  lemma ChoiceInside(b: Block, ops: seq<int>)
    requires Nested().Valid() && b in Nested().blocks
    ensures NestedMachine().choose(Nested().Term(b), ops) < |Nested().succ[b]|
  {
    hide Nested, Loop.Valid;
    NestedKeys();
    NestedBody(b, 0);
    NestedTerm(b);
    NestedSuccs(b);
  }

  lemma MachineValid()
    requires Nested().Valid()
    ensures NestedMachine().Valid(Nested())
  {
    hide Nested, NestedEffect;
    var m := NestedMachine();
    forall x, ops, mem, mem' | forall a :: a in m.effect(x, ops, mem).loads ==> SameAt(mem, mem', a)
      ensures m.effect(x, ops, mem') == m.effect(x, ops, mem)
    {
      ReadsOnly(x, ops, mem, mem');
    }
    forall b, ops | b in Nested().blocks ensures m.choose(Nested().Term(b), ops) < |Nested().succ[b]| { ChoiceInside(b, ops); }
  }

  lemma VisitTo(t: nat, b: Block, st: Store, st': Store, s: Block)
    requires NestedRun().Valid() && NestedRun().Conf(t) == (b, st) && b in Nested().blocks
    requires NestedMachine().ExecAll(NestedRun().Work(b), st) == st'
    requires var c := NestedMachine().choose(Nested().Term(b), NestedMachine().Operands(Nested().Term(b), st'.regs));
             c < |Nested().succ[b]| && Nested().succ[b][c] == s
    ensures NestedRun().Conf(t + 1) == (s, st')
  {
    hide Nested, NestedMachine, Machine.Operands, Machine.ExecAll, Run.Work;
  }

  lemma WorkIs(b: Block)
    requires Nested().Valid() && b in Nested().blocks
    ensures b == 0 ==> NestedRun().Work(b) == [0]
    ensures b == 1 ==> NestedRun().Work(b) == [2]
    ensures b == 2 ==> NestedRun().Work(b) == []
    ensures b == 3 ==> NestedRun().Work(b) == [5, 6]
  {
    hide Nested, NestedMachine;
    NestedKeys();
    NestedBodies(b);
  }

  lemma ExecOne(m: Machine, x: Inst, st: Store)
    ensures m.ExecAll([], st) == st && m.ExecAll([x], st) == m.Exec(x, st)
  {
    assert [x][..0] == [];
  }

  lemma ExecTwo(m: Machine, x: Inst, z: Inst, st: Store)
    ensures m.ExecAll([x, z], st) == m.Exec(z, m.Exec(x, st))
  {
    ExecOne(m, x, st);
    assert [x, z][..1] == [x];
  }

  /** A load of the cell `c` by `x`. */
  lemma LoadsCell(x: Inst, c: int, st: Store)
    requires (x == 0 && c == 0) || (x == 2 && c == 2)
    ensures NestedMachine().Exec(x, st) == Store(st.regs[x := Lookup(st.mem, c)], st.mem)
  {
    assert st.mem + map[] == st.mem;
  }

  lemma Stores(st: Store)
    ensures NestedMachine().Exec(5, st).regs == st.regs[5 := 0] && Lookup(NestedMachine().Exec(5, st).mem, 0) == 0
    ensures Lookup(NestedMachine().Exec(6, st).mem, 0) == Lookup(st.mem, 0)
    ensures Lookup(NestedMachine().Exec(6, st).mem, 1) == Lookup(st.regs, 0) - Lookup(st.regs, 2)
  {
  }

  /** A test reads the register that its block has loaded. */
  lemma Chooses(x: Inst, u: Inst, regs: Regs)
    requires (x == 1 && u == 0) || (x == 3 && u == 2)
    ensures NestedMachine().choose(x, NestedMachine().Operands(x, regs)) == if Lookup(regs, u) == 0 then 1 else 0
  {
  }

  lemma Jumps(x: Inst, regs: Regs)
    requires x == 4 || x == 7
    ensures NestedMachine().choose(x, NestedMachine().Operands(x, regs)) == 0
  {
  }

  /** From the header the loop goes in while the flag is up, and out when it is down. */
  lemma VisitHeader(t: nat, st: Store)
    requires NestedRun().Valid() && NestedRun().Conf(t) == (0, st)
    ensures NestedRun().Conf(t + 1) == (if Lookup(st.mem, 0) == 0 then 4 else 1, Store(st.regs[0 := Lookup(st.mem, 0)], st.mem))
  {
    hide Nested, NestedMachine, NestedRun, Machine.Operands, Machine.ExecAll, Run.Work, Run.Conf, Run.Valid;
    var st' := Store(st.regs[0 := Lookup(st.mem, 0)], st.mem);
    RunIs();
    NestedKeys();
    NestedSuccs(0);
    NestedBody(0, 0);
    NestedTerm(0);
    WorkIs(0);
    ExecOne(NestedMachine(), 0, st);
    LoadsCell(0, 0, st);
    Chooses(1, 0, st'.regs);
    VisitTo(t, 0, st, st', if Lookup(st.mem, 0) == 0 then 4 else 1);
  }

  lemma RunIs()
    ensures NestedRun().l == Nested() && NestedRun().m == NestedMachine()
    ensures NestedRun().init == Store(map[], map[0 := 5, 2 := 3])
    ensures NestedRun().Valid() ==> Nested().Valid()
  {
  }

  lemma VisitOuter(t: nat, st: Store)
    requires NestedRun().Valid() && NestedRun().Conf(t) == (1, st) && Lookup(st.mem, 2) != 0
    ensures NestedRun().Conf(t + 1) == (2, Store(st.regs[2 := Lookup(st.mem, 2)], st.mem))
  {
    hide Nested, NestedMachine, NestedRun, Machine.Operands, Machine.ExecAll, Run.Work, Run.Conf, Run.Valid;
    var st' := Store(st.regs[2 := Lookup(st.mem, 2)], st.mem);
    RunIs();
    NestedKeys();
    NestedSuccs(1);
    NestedBody(1, 0);
    NestedTerm(1);
    WorkIs(1);
    ExecOne(NestedMachine(), 2, st);
    LoadsCell(2, 2, st);
    Chooses(3, 2, st'.regs);
    VisitTo(t, 1, st, st', 2);
  }

  lemma VisitInner(t: nat, st: Store)
    requires NestedRun().Valid() && NestedRun().Conf(t) == (2, st)
    ensures NestedRun().Conf(t + 1) == (3, st)
  {
    hide Nested, NestedMachine, NestedRun, Machine.Operands, Machine.ExecAll, Run.Work, Run.Conf, Run.Valid;
    RunIs();
    NestedKeys();
    NestedSuccs(2);
    NestedBody(2, 0);
    NestedTerm(2);
    WorkIs(2);
    ExecOne(NestedMachine(), 0, st);
    Jumps(4, st.regs);
    VisitTo(t, 2, st, st, 3);
  }

  lemma VisitLatch(t: nat, st: Store) returns (st': Store)
    requires NestedRun().Valid() && NestedRun().Conf(t) == (3, st)
    ensures NestedRun().Conf(t + 1) == (0, st') && Lookup(st'.mem, 0) == 0
    ensures Lookup(st'.mem, 1) == Lookup(st.regs, 0) - Lookup(st.regs, 2)
  {
    hide Nested, NestedMachine, NestedRun, Machine.Operands, Machine.ExecAll, Machine.Exec, Run.Work, Run.Conf;
    hide Run.Valid;
    RunIs();
    NestedKeys();
    NestedSuccs(3);
    NestedBody(3, 0);
    NestedTerm(3);
    WorkIs(3);
    var m := NestedMachine();
    var mid := m.Exec(5, st);
    st' := m.Exec(6, mid);
    ExecTwo(m, 5, 6, st);
    Stores(st);
    Stores(mid);
    Jumps(7, st'.regs);
    VisitTo(t, 3, st, st', 0);
  }

  lemma RunStarts()
    ensures NestedRun().Valid() && NestedRun().Conf(0) == (0, NestedRun().init)
  {
    NestedValid();
    MachineValid();
    hide Nested, NestedMachine, Machine.Valid, Loop.Valid;
    NestedKeys();
  }

  lemma EndsFive(r: Run)
    requires r.Valid() && r.Conf(0).0 != r.l.exit && r.Conf(1).0 != r.l.exit && r.Conf(2).0 != r.l.exit
    requires r.Conf(3).0 != r.l.exit && r.Conf(4).0 != r.l.exit && r.Conf(5).0 == r.l.exit
    ensures Runs(r, 5)
  {
    hide Run.Conf, Run.Valid;
    forall t | 0 <= t < 5 ensures r.Blk(t) != r.l.exit {
      if t == 0 {} else if t == 1 {} else if t == 2 {} else if t == 3 {} else { assert t == 4; }
    }
  }

  lemma NestedRuns()
    ensures NestedRun().Valid() && Runs(NestedRun(), 5) && Lookup(NestedRun().At(5).mem, 1) == 2
  {
    hide Nested, NestedMachine, NestedRun, Machine.Valid, Loop.Valid, Run.Conf, Run.Valid, Runs;
    RunStarts();
    RunIs();
    NestedKeys();
    var init := NestedRun().init;
    VisitHeader(0, init);
    var st := Store(init.regs[0 := 5], init.mem);
    VisitOuter(1, st);
    var st2 := Store(st.regs[2 := 3], st.mem);
    VisitInner(2, st2);
    var st4 := VisitLatch(3, st2);
    VisitHeader(4, st4);
    EndsFive(NestedRun());
  }

  // ---- the conditions of the theorem ----

  function NestedSystem(p: Plan, es: seq<Edge>, cap: nat, ip: map<Block, Block>): System {
    System(p, NestedRun(), cap, es, ip)
  }

  lemma NestedUses(y: System)
    requires Nested().Valid() && y.r == NestedRun() && NestedEdges(true, y.edges)
    ensures y.r.l.Valid() && UsesCovered(y)
  {
    hide Nested, NestedMachine, NestedRun, NestedEdges, Loop.Valid, Loop.IsTerm;
    RunIs();
    forall x, u | x in y.r.l.parent && u in y.r.m.Uses(x) ensures u in y.r.l.parent && !y.r.l.IsTerm(u) && Edge(u, x, REG) in y.edges {
      UseIs(x, u);
      UseListed(y.edges, x, u);
    }
  }

  lemma UseListed(es: seq<Edge>, x: Inst, u: Inst)
    requires Nested().Valid() && NestedEdges(true, es)
    requires ((x == 1 && u == 0) || (x == 3 && u == 2) || (x == 6 && (u == 0 || u == 2)))
    ensures u in Nested().parent && !Nested().IsTerm(u) && Edge(u, x, REG) in es
  {
    hide Nested, IsNestedEdge;
    NestedHolds(true);
    NestedListed(true);
    NestedParents(u);
    NestedKeys();
    NestedBody(0, 0);
    NestedBody(1, 0);
    NestedTerm(0);
    NestedTerm(1);
  }

  lemma UseIs(x: Inst, u: Inst)
    requires u in NestedMachine().Uses(x)
    ensures (x == 1 && u == 0) || (x == 3 && u == 2) || (x == 6 && (u == 0 || u == 2))
  {
  }

  /** What touches a common cell is in one thread. */
  lemma SameThread(x: Inst, z: Inst, ops: seq<int>, ops': seq<int>, mem: Memory, mem': Memory)
    requires var a, b := NestedMachine().effect(x, ops, mem), NestedMachine().effect(z, ops', mem');
             a.stores.Keys * b.stores.Keys != {} || a.stores.Keys * b.loads != {} || a.loads * b.stores.Keys != {}
    ensures (x in {0, 5} && z in {0, 5}) || x == z == 6
  {
  }

  lemma NestedCovers(y: System)
    requires y.r == NestedRun() && Runs(y.r, 5) && y.p.owner == NestedOwner()
    ensures ConflictsCovered(y, 5)
  {
    hide EffectOf, InstOf, NestedRun, NestedOwner, Clash, Run.Conf, Run.Valid;
    NestedOwned(y);
    forall d, e | Occurs(y.r, 5, d) && Occurs(y.r, 5, e) && Clash(y.r, 5, d, e)
      ensures var u, v := InstOf(y.r, d), InstOf(y.r, e);
              u in y.p.owner && v in y.p.owner && y.p.owner[u] == y.p.owner[v]
    {
      ClashTogether(y, d, e);
    }
    DirectEdgesCover(y, 5);
  }

  lemma NestedOwned(y: System)
    requires y.r == NestedRun() && y.p.owner == NestedOwner()
    ensures forall x :: x in y.r.l.parent ==> x in y.p.owner
  {
  }

  lemma ClashTogether(y: System, d: Event, e: Event)
    requires y.r == NestedRun() && Runs(y.r, 5) && y.p.owner == NestedOwner() && Occurs(y.r, 5, d) && Occurs(y.r, 5, e)
    requires Clash(y.r, 5, d, e)
    ensures var u, v := InstOf(y.r, d), InstOf(y.r, e); u in y.p.owner && v in y.p.owner && y.p.owner[u] == y.p.owner[v]
  {
    hide Run.Mid, Run.Conf, Run.Work, NestedMachine, Nested, Loop.Valid;
    RunIs();
    var m, a, b := NestedMachine(), y.r.Mid(d.t, d.k), y.r.Mid(e.t, e.k);
    var u, v := InstOf(y.r, d), InstOf(y.r, e);
    SameThread(u, v, m.Operands(u, a.regs), m.Operands(v, b.regs), a.mem, b.mem);
  }

  /** The flag is 5 and the limit 3 when they are loaded: however the threads interleave, `out` ends up with the difference. */
  lemma NestedResult(y: System, ss: seq<State>, who: seq<nat>)
    requires y.r == NestedRun() && Output(y.r.l, y.p, y.edges, y.ip) && y.cap > 0 && Runs(y.r, 5)
    requires y.r.Valid() && y.r.init.regs == map[] && UsesCovered(y) && ConflictsCovered(y, 5)
    requires IsRun(y, ss, who) && |ss| == |who| + 1 && Finished(y, ss[|who|])
    ensures Lookup(ss[|who|].mem, 1) == 2
  {
    hide Nested, NestedRun, Output, UsesCovered, ConflictsCovered, Runs, Run.Valid, Run.At, IsRun, Finished;
    NestedRuns();
    PassCorrect(y, 5, ss, who);
  }

  /** What the pass makes of the loop meets every condition of the theorem, with any capacity of the channels, and every
      finished run of its threads leaves in `out` what the loop does. */
  method NestedSound(cap: nat, postidom: map<Block, Block>, trees: map<Block, nat> -> PostDomTree)
    returns (p: Plan, ghost es: seq<Edge>)
    requires Nested().Valid() && Usable(LoopGraph(Nested())) && IsIPDom(LoopGraph(Nested()), postidom)
    requires TreesOf(Nested(), trees)
    requires cap > 0
    ensures var y := NestedSystem(p, es, cap, postidom);
            && Output(y.r.l, y.p, y.edges, y.ip) && y.cap > 0 && Runs(y.r, 5) && y.r.Valid() && y.r.init.regs == map[]
            && UsesCovered(y) && ConflictsCovered(y, 5)
            && (forall ss: seq<State>, who: seq<nat> :: IsRun(y, ss, who) && |ss| == |who| + 1 && Finished(y, ss[|who|]) ==> Lookup(ss[|who|].mem, 1) == 2)
  {
    hide Nested, NestedOwner, NestedRun, NestedEdges, Usable, IsIPDom, TreesOf, Loop.Valid, Output, UsesCovered;
    hide ConflictsCovered, Runs, Run.Valid, IsRun, Finished;
    NestedRuns();
    RunIs();
    var o;
    o, es := RunNested(true, postidom, trees);
    p := o.plan;
    ghost var y := NestedSystem(p, es, cap, postidom);
    NestedUses(y);
    NestedCovers(y);
    forall ss: seq<State>, who: seq<nat> | IsRun(y, ss, who) && |ss| == |who| + 1 && Finished(y, ss[|who|]) ensures Lookup(ss[|who|].mem, 1) == 2 {
      NestedResult(y, ss, who);
    }
  }
}
