/** What each phase of the pass hands to the next (DSWP_0.cpp:153-174): the conditions that one phase needs follow
    from what the phases before it establish. */
module Handover {
  import opened Ir
  import opened PostDominance
  import opened PeeledLoop
  import opened ControlDependence
  import opened DependenceGraph
  import opened BuildPdg
  import opened Reachability
  import opened Scc
  import opened Partition
  import opened Split
  import opened Closure

  // ---- dependence graph to components ----

  /** The two adjacency maps of the edge table `es`. */
  ghost predicate Mirrors(g: Digraph, es: seq<Edge>) {
    && (forall u :: g.Out(u) == OutEdges(es, u))
    && (forall v :: g.In(v) == InEdges(es, v))
  }

  lemma StepIsEdge(g: Digraph, es: seq<Edge>, a: Inst, b: Inst)
    requires Mirrors(g, es)
    ensures g.Step(a, b) <==> exists ty :: Edge(a, b, ty) in es
    ensures g.Step(a, b) <==> exists e :: e in g.In(b) && e.v == a
  {
    forall e ensures e in g.Out(a) <==> e in es && e.u == a { OutEdgesMembers(es, a, e); }
    forall e ensures e in g.In(b) <==> e.u == b && Edge(e.v, b, e.dtype) in es { InEdgesMembers(es, b, e); }
    if g.Step(a, b) {
      var e :| e in g.Out(a) && e.v == b;
      assert Edge(a, b, e.dtype) in es;
    }
    if ty :| Edge(a, b, ty) in es {
      assert Edge(a, b, ty) in g.Out(a);
      assert Edge(b, a, ty) in g.In(b);
    }
    if e :| e in g.In(b) && e.v == a { assert Edge(a, b, e.dtype) in es; }
  }

  lemma GraphValid(l: Loop, g: Digraph, es: seq<Edge>)
    requires Mirrors(g, es) && EdgesInside(l, es) && forall x :: x in g.nodes <==> x in l.parent
    ensures g.Valid()
  {
    forall a, b ensures g.Step(a, b) <==> exists e :: e in g.In(b) && e.v == a { StepIsEdge(g, es, a, b); }
    forall a, b | g.Step(a, b) ensures a in g.nodes && b in g.nodes {
      StepIsEdge(g, es, a, b);
      var ty :| Edge(a, b, ty) in es;
    }
  }

  // ---- components to partition ----

  lemma DagValid(g: Digraph, sccId: map<Inst, nat>, members: seq<seq<Inst>>, dag: set<(nat, nat)>,
                 dependents: map<nat, seq<nat>>, parents: map<nat, seq<nat>>, n: nat)
    requires Condensed(g, sccId, members, dag, dependents, parents, n)
    ensures Dag(n, dependents, parents).Valid()
  {
    var d := Dag(n, dependents, parents);
    hide Owed, Numbered, Listed;
    forall u: nat, v: nat ensures v in d.Deps(u) <==> u in d.Pars(v) {
      assert (u, v) in dag <==> v in ListAt(dependents, u);
    }
    forall u: nat, v: nat | u in d.Pars(v) ensures u < v < n {
      assert (u, v) in dag;
      OwedRises(g, sccId, u, v);
    }
    forall u: nat ensures NoDups(d.Deps(u)) { assert NoDups(ListAt(dependents, u)); }
  }

  lemma OwedRises(g: Digraph, sccId: map<Inst, nat>, u: nat, k: nat)
    requires Owed(g, sccId, u, k)
    ensures u < k
  {
  }

  /** getInstAssigned as a table. */
  ghost predicate OwnerTable(l: Loop, sccId: map<Inst, nat>, placed: seq<int>, owner: map<Inst, nat>) {
    && (forall x :: x in owner <==> x in l.parent)
    && (forall x :: x in l.parent ==> x in sccId && sccId[x] < |placed| && placed[sccId[x]] == owner[x])
  }

  lemma ComponentsRise(g: Digraph, sccId: map<Inst, nat>, members: seq<seq<Inst>>, dag: set<(nat, nat)>,
                       dependents: map<nat, seq<nat>>, parents: map<nat, seq<nat>>, n: nat, a: Inst, b: Inst)
    requires Condensed(g, sccId, members, dag, dependents, parents, n) && g.Step(a, b) && a in g.nodes && b in g.nodes
    ensures a in sccId && b in sccId && sccId[a] <= sccId[b] < n
    ensures sccId[a] == sccId[b] || sccId[a] in ListAt(parents, sccId[b])
  {
    hide Digraph.Step, Digraph.Mutual, Inhabited, Listed, ListAt;
    var u, k := sccId[a], sccId[b];
    assert u <= k;
    if u < k {
      assert Owed(g, sccId, u, k);
      hide Numbered, Owed;
      assert (u, k) in dag;
    }
  }

  /** Pipeline monotonicity: no dependence leads to an earlier thread, so skipping such edges loses none. */
  lemma Monotone(l: Loop, g: Digraph, es: seq<Edge>, sccId: map<Inst, nat>, members: seq<seq<Inst>>, dag: set<(nat, nat)>,
                 dependents: map<nat, seq<nat>>, parents: map<nat, seq<nat>>, n: nat,
                 lat: seq<nat>, threads: nat, placed: seq<int>, owner: map<Inst, nat>)
    requires Mirrors(g, es) && EdgesInside(l, es) && (forall x :: x in g.nodes <==> x in l.parent)
    requires Condensed(g, sccId, members, dag, dependents, parents, n)
    requires Partitioned(Dag(n, dependents, parents), lat, threads, placed) && OwnerTable(l, sccId, placed, owner)
    ensures Rising(es, owner)
  {
    hide Condensed, Mirrors, Digraph.Step, ListAt;
    forall e | e in es ensures e.u in owner && e.v in owner && owner[e.u] <= owner[e.v] {
      StepIsEdge(g, es, e.u, e.v);
      assert Edge(e.u, e.v, e.dtype) in es;
      ComponentsRise(g, sccId, members, dag, dependents, parents, n, e.u, e.v);
      assert sccId[e.u] != sccId[e.v] ==> sccId[e.u] in Dag(n, dependents, parents).Pars(sccId[e.v]);
    }
  }

  /** The first thread without instructions is followed by none with any. */
  lemma OwnersActive(l: Loop, g: Digraph, sccId: map<Inst, nat>, n: nat, d: Dag, lat: seq<nat>, threads: nat,
                     placed: seq<int>, owner: map<Inst, nat>, edges: seq<Edge>, m: nat)
    requires Numbered(g, g.nodes, sccId, n) && (forall x :: x in g.nodes <==> x in l.parent) && d.n == n
    requires Partitioned(d, lat, threads, placed) && OwnerTable(l, sccId, placed, owner) && EdgesInside(l, edges)
    requires m == threads || Relevant(l, owner, edges, m) == {}
    ensures forall x :: x in l.parent ==> owner[x] < m
  {
    forall x | x in l.parent ensures owner[x] < m {
      if owner[x] >= m {
        assert placed[sccId[x]] == owner[x];
        assert Nonempty(placed, owner[x]);
        assert Nonempty(placed, m);
        UsedIsRelevant(l, g, sccId, n, placed, owner, edges, m);
      }
    }
  }

  lemma UsedIsRelevant(l: Loop, g: Digraph, sccId: map<Inst, nat>, n: nat, placed: seq<int>, owner: map<Inst, nat>,
                       edges: seq<Edge>, m: nat)
    requires Numbered(g, g.nodes, sccId, n) && (forall x :: x in g.nodes <==> x in l.parent) && |placed| == n
    requires OwnerTable(l, sccId, placed, owner) && EdgesInside(l, edges) && Nonempty(placed, m)
    ensures Relevant(l, owner, edges, m) != {}
  {
    var v :| 0 <= v < |placed| && placed[v] == m;
    assert Inhabited(sccId, v);
    var y :| y in sccId && sccId[y] == v;
    assert y in Owned(l, owner, m);
    assert l.parent[y] in Relevant(l, owner, edges, m);
  }

  // ---- control edges to slicing ----

  lemma DepInside(l: Loop, num: map<Block, nat>, x: Block, v: Inst)
    requires l.Valid() && NumberedBy(l, num) && Usable(LoopGraph(l)) && WellFormed(Peeled(l, num))
    requires x in l.blocks && v in l.parent && ControlDep(LoopGraph(l), x, l.parent[v])
    ensures IsControlEdge(l, PeeledDeps(l, num), Edge(l.Term(x), v, CONTROL))
  {
    ControlDepIsPeeled(l, num, x, l.parent[v]);
    hide ControlDep, Usable, PeeledDep;
    assert (x, l.parent[v]) in PeeledDeps(l, num);
  }

  lemma ControlEdgesComplete(l: Loop, num: map<Block, nat>, before: seq<Edge>, es: seq<Edge>)
    requires l.Valid() && NumberedBy(l, num) && Usable(LoopGraph(l)) && WellFormed(Peeled(l, num))
    requires Extends(l, before, es, PeeledDeps(l, num))
    ensures ControlComplete(l, es)
  {
    hide ControlDep, PeeledDeps, IsControlEdge, Peeled, LoopGraph;
    forall x, y, v | x in l.blocks && y in l.blocks && ControlDep(LoopGraph(l), x, y) && v in l.body[y]
      ensures Edge(l.Term(x), v, CONTROL) in es
    {
      DepInside(l, num, x, v);
    }
  }

  lemma ControlEdgesInside(l: Loop, num: map<Block, nat>, before: seq<Edge>, es: seq<Edge>)
    requires l.Valid() && NumberedBy(l, num) && WellFormed(Peeled(l, num)) && EdgesInside(l, before)
    requires Extends(l, before, es, PeeledDeps(l, num))
    ensures EdgesInside(l, es)
  {
    hide PeeledDeps, Peeled, WellFormed, Loop.Valid, IsControlEdge;
    forall e | e in es ensures e.u in l.parent && e.v in l.parent {
      if e !in before { ControlEdgeInside(l, PeeledDeps(l, num), e); }
    }
  }

  lemma ControlEdgeInside(l: Loop, deps: set<(Block, Block)>, e: Edge)
    requires l.Valid() && IsControlEdge(l, deps, e)
    ensures e.u in l.parent && e.v in l.parent && l.IsTerm(e.u)
  {
    var x :| x in l.blocks && e.u == l.Term(x) && (x, l.parent[e.v]) in deps;
    l.IdxIs(x, |l.body[x]| - 1);
  }

  /** Control edges are made for whole blocks, and by this half only. */
  lemma ControlByBlocks(l: Loop, num: map<Block, nat>, before: seq<Edge>, es: seq<Edge>)
    requires l.Valid() && NumberedBy(l, num) && WellFormed(Peeled(l, num)) && EdgesInside(l, es)
    requires Extends(l, before, es, PeeledDeps(l, num)) && forall e :: e in before ==> e.dtype != CONTROL
    ensures ControlBlocks(l, es)
  {
    hide PeeledDeps, Peeled, WellFormed;
    var deps := PeeledDeps(l, num);
    forall c, v | c in es && c.dtype == CONTROL && v in l.parent && l.parent[v] == l.parent[c.v]
      ensures l.IsTerm(c.u) && Edge(c.u, v, CONTROL) in es
    {
      ControlEdgeInside(l, deps, c);
      assert IsControlEdge(l, deps, Edge(c.u, v, CONTROL));
    }
  }

  /** One component means that everything depends on everything. */
  lemma SingleComponent(l: Loop, g: Digraph, sccId: map<Inst, nat>, n: nat)
    requires l.Valid() && Numbered(g, g.nodes, sccId, n) && forall x :: x in g.nodes <==> x in l.parent
    ensures n > 0 && (n == 1 <==> forall a, b :: a in l.parent && b in l.parent ==> g.Mutual(a, b))
  {
    l.IdxIs(l.header, 0);
    if n > 1 {
      assert Inhabited(sccId, 0) && Inhabited(sccId, 1);
      var a :| a in sccId && sccId[a] == 0;
      var b :| b in sccId && sccId[b] == 1;
      assert !g.Mutual(a, b);
    }
  }
}
