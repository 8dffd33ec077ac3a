/** Which threads keep, with a block, the branches it is control dependent on; and why a branch that a thread really
    decides has its condition at hand (DSWP_4.cpp:207-228, 304-348). */
module Closure {
  import opened Ir
  import opened PostDominance
  import opened PeeledLoop
  import opened Slicing
  import opened Split

  /** Dependences never lead to an earlier thread. */
  ghost predicate Rising(edges: seq<Edge>, owner: map<Inst, nat>) {
    forall e :: e in edges ==> e.u in owner && e.v in owner && owner[e.u] <= owner[e.v]
  }

  /** Every control dependence between blocks is an edge from the branch to each instruction of the block. */
  ghost predicate ControlComplete(l: Loop, edges: seq<Edge>)
    requires l.Valid() && WellFormed(LoopGraph(l))
  {
    forall x, y, v :: x in l.blocks && y in l.blocks && ControlDep(LoopGraph(l), x, y) && v in l.body[y] ==>
      Edge(l.Term(x), v, CONTROL) in edges
  }

  ghost predicate Setting(l: Loop, owner: map<Inst, nat>, edges: seq<Edge>) {
    && l.Valid() && Usable(LoopGraph(l)) && EdgesInside(l, edges) && Rising(edges, owner) && ControlComplete(l, edges)
    && forall x :: x in l.parent ==> x in owner
  }

  /** A relevant block holds an instruction of the thread or an earlier one. */
  lemma RelevantHolds(l: Loop, owner: map<Inst, nat>, edges: seq<Edge>, i: nat, b: Block) returns (x: Inst)
    requires Setting(l, owner, edges) && b in Relevant(l, owner, edges, i)
    ensures x in l.parent && l.parent[x] == b && b in l.blocks && owner[x] <= i
    ensures x in Owned(l, owner, i) || exists e :: e in edges && e.u == x && e.v in Owned(l, owner, i)
  {
    if y :| y in Owned(l, owner, i) && l.parent[y] == b {
      x := y;
    } else {
      var e :| e in edges && e.v in Owned(l, owner, i) && l.parent[e.u] == b;
      x := e.u;
    }
  }

  /** The branch that something of block `y` is control dependent on is owned by no later thread. */
  lemma ControllerEarlier(l: Loop, owner: map<Inst, nat>, edges: seq<Edge>, x: Block, y: Block, v: Inst)
    requires Setting(l, owner, edges) && y in l.blocks && ControlDep(LoopGraph(l), x, y) && v in l.parent
    requires l.parent[v] == y
    ensures x in l.blocks && l.Term(x) in l.parent && Edge(l.Term(x), v, CONTROL) in edges
    ensures owner[l.Term(x)] <= owner[v]
  {
    assert x in l.blocks;
    assert Edge(l.Term(x), v, CONTROL) in edges;
  }

  /** A block that holds an instruction of the thread brings the branches it depends on. */
  lemma ControllerKept(l: Loop, owner: map<Inst, nat>, edges: seq<Edge>, i: nat, x: Block, y: Block, v: Inst)
    requires Setting(l, owner, edges) && y in l.blocks && ControlDep(LoopGraph(l), x, y)
    requires v in Owned(l, owner, i) && l.parent[v] == y
    ensures x in Relevant(l, owner, edges, i)
  {
    ControllerEarlier(l, owner, edges, x, y, v);
    var e := Edge(l.Term(x), v, CONTROL);
    assert e in edges && e.v in Owned(l, owner, i) && l.parent[e.u] == x;
  }

  /** The first thread always keeps its controlling branches. */
  lemma FirstClosed(l: Loop, owner: map<Inst, nat>, edges: seq<Edge>)
    requires Setting(l, owner, edges)
    ensures ControlClosed(LoopGraph(l), Relevant(l, owner, edges, 0))
  {
    forall x, y | y in Relevant(l, owner, edges, 0) && ControlDep(LoopGraph(l), x, y)
      ensures x in Relevant(l, owner, edges, 0)
    {
      var v := RelevantHolds(l, owner, edges, 0, y);
      ControllerKept(l, owner, edges, 0, x, y, v);
    }
  }

  // ---- when a later thread does ----

  /** A control edge leads from a terminator to an instruction, and then to every instruction of its block. */
  ghost predicate ControlBlocks(l: Loop, edges: seq<Edge>)
    requires l.Valid() && EdgesInside(l, edges)
  {
    forall c, v :: c in edges && c.dtype == CONTROL && v in l.parent && l.parent[v] == l.parent[c.v] ==>
      l.IsTerm(c.u) && Edge(c.u, v, CONTROL) in edges
  }

  /** Every control edge stands for a control dependence. */
  ghost predicate ControlExact(l: Loop, edges: seq<Edge>)
    requires l.Valid() && EdgesInside(l, edges) && WellFormed(LoopGraph(l))
  {
    forall c :: c in edges && c.dtype == CONTROL ==> ControlDep(LoopGraph(l), l.parent[c.u], l.parent[c.v])
  }

  /** Thread `i` keeps with a block the sources of all control edges into it. */
  ghost predicate EdgeClosed(l: Loop, owner: map<Inst, nat>, edges: seq<Edge>, i: nat)
    requires EdgesInside(l, edges)
  {
    forall c :: c in edges && c.dtype == CONTROL && l.parent[c.v] in Relevant(l, owner, edges, i) ==>
      l.parent[c.u] in Relevant(l, owner, edges, i)
  }

  /** Block `b` holds an instruction of thread `i`. */
  ghost predicate Holds(l: Loop, owner: map<Inst, nat>, i: nat, b: Block) {
    exists x :: x in Owned(l, owner, i) && l.parent[x] == b
  }

  /** Block `b` holds an instruction that one of thread `i` depends on directly. */
  ghost predicate Feeds(l: Loop, owner: map<Inst, nat>, edges: seq<Edge>, i: nat, b: Block)
    requires EdgesInside(l, edges)
  {
    exists e :: e in edges && l.parent[e.u] == b && e.v in Owned(l, owner, i)
  }

  /** For everything that an instruction of thread `i` depends on directly and that stands in a block without instructions
      of the thread, the branches with a control edge to it stand in blocks with an instruction of the thread or a direct
      source of one. */
  ghost predicate SourcesControlled(l: Loop, owner: map<Inst, nat>, edges: seq<Edge>, i: nat)
    requires EdgesInside(l, edges)
  {
    forall e, c :: e in edges && e.v in Owned(l, owner, i) && !Holds(l, owner, i, l.parent[e.u]) &&
                   c in edges && c.dtype == CONTROL && c.v == e.u ==>
      Holds(l, owner, i, l.parent[c.u]) || Feeds(l, owner, edges, i, l.parent[c.u])
  }

  lemma RelevantIff(l: Loop, owner: map<Inst, nat>, edges: seq<Edge>, i: nat, b: Block)
    requires EdgesInside(l, edges)
    ensures b in Relevant(l, owner, edges, i) <==> Holds(l, owner, i, b) || Feeds(l, owner, edges, i, b)
  {
  }

  /** A thread keeps the sources of the control edges into its blocks exactly when those into the direct sources of its
      instructions come from blocks of its own or of such sources. */
  lemma EdgeClosedIff(l: Loop, owner: map<Inst, nat>, edges: seq<Edge>, i: nat)
    requires l.Valid() && EdgesInside(l, edges) && ControlBlocks(l, edges)
    ensures EdgeClosed(l, owner, edges, i) <==> SourcesControlled(l, owner, edges, i)
  {
    hide Relevant;
    forall b ensures b in Relevant(l, owner, edges, i) <==> Holds(l, owner, i, b) || Feeds(l, owner, edges, i, b) {
      RelevantIff(l, owner, edges, i, b);
    }
    if EdgeClosed(l, owner, edges, i) { SourcesFromClosed(l, owner, edges, i); }
    if SourcesControlled(l, owner, edges, i) { ClosedFromSources(l, owner, edges, i); }
  }

  lemma SourcesFromClosed(l: Loop, owner: map<Inst, nat>, edges: seq<Edge>, i: nat)
    requires l.Valid() && EdgesInside(l, edges) && EdgeClosed(l, owner, edges, i)
    ensures SourcesControlled(l, owner, edges, i)
  {
    hide Relevant, Loop.Valid, Owned;
    forall e, c | e in edges && e.v in Owned(l, owner, i) && c in edges && c.dtype == CONTROL && c.v == e.u
      ensures Holds(l, owner, i, l.parent[c.u]) || Feeds(l, owner, edges, i, l.parent[c.u])
    {
      assert Feeds(l, owner, edges, i, l.parent[e.u]);
      RelevantIff(l, owner, edges, i, l.parent[e.u]);
      RelevantIff(l, owner, edges, i, l.parent[c.u]);
    }
  }

  lemma ClosedFromSources(l: Loop, owner: map<Inst, nat>, edges: seq<Edge>, i: nat)
    requires l.Valid() && EdgesInside(l, edges) && ControlBlocks(l, edges) && SourcesControlled(l, owner, edges, i)
    ensures EdgeClosed(l, owner, edges, i)
  {
    hide Relevant, Loop.Valid, Loop.IsTerm;
    forall c | c in edges && c.dtype == CONTROL && l.parent[c.v] in Relevant(l, owner, edges, i)
      ensures l.parent[c.u] in Relevant(l, owner, edges, i)
    {
      var y := l.parent[c.v];
      RelevantIff(l, owner, edges, i, y);
      RelevantIff(l, owner, edges, i, l.parent[c.u]);
      if x :| x in Owned(l, owner, i) && l.parent[x] == y {
        var e := Edge(c.u, x, CONTROL);
        assert e in edges && e.v in Owned(l, owner, i);
      } else {
        var e :| e in edges && l.parent[e.u] == y && e.v in Owned(l, owner, i);
        var c' := Edge(c.u, e.u, CONTROL);
        assert c' in edges && c'.v == e.u;
      }
    }
  }

  /** That gives control closure, since every control dependence is an edge; and it is control closure when every control
      edge is a dependence. */
  lemma EdgeClosedCloses(l: Loop, owner: map<Inst, nat>, edges: seq<Edge>, i: nat)
    requires Setting(l, owner, edges)
    ensures EdgeClosed(l, owner, edges, i) ==> ControlClosed(LoopGraph(l), Relevant(l, owner, edges, i))
    ensures ControlExact(l, edges) && ControlClosed(LoopGraph(l), Relevant(l, owner, edges, i)) ==> EdgeClosed(l, owner, edges, i)
  {
    hide ControlDep, Usable, ControlComplete, Rising, LoopGraph, Loop.Valid, Relevant, WellFormed;
    UsableFormed(LoopGraph(l));
    if EdgeClosed(l, owner, edges, i) {
      forall x, y | y in Relevant(l, owner, edges, i) && ControlDep(LoopGraph(l), x, y)
        ensures x in Relevant(l, owner, edges, i)
      {
        var z := RelevantHolds(l, owner, edges, i, y);
        ControllerEarlier(l, owner, edges, x, y, z);
        TermOf(l, x);
        var c := Edge(l.Term(x), z, CONTROL);
        assert c in edges && l.parent[c.v] == y && l.parent[c.u] == x;
      }
    }
  }

  lemma TermOf(l: Loop, x: Block)
    requires l.Valid() && x in l.blocks
    ensures x in l.body && |l.body[x]| > 0 && l.Term(x) in l.parent && l.parent[l.Term(x)] == x
  {
    l.IdxIs(x, |l.body[x]| - 1);
  }

  /** So a later thread keeps what its blocks are control dependent on if the sources of its instructions are controlled from
      blocks it keeps, and, where every control edge is a control dependence, only if. The one direction rests on there being
      an edge for every control dependence, the other on there being no more. */
  lemma ClosedIff(l: Loop, owner: map<Inst, nat>, edges: seq<Edge>, i: nat)
    requires Setting(l, owner, edges) && ControlBlocks(l, edges)
    ensures SourcesControlled(l, owner, edges, i) ==> ControlClosed(LoopGraph(l), Relevant(l, owner, edges, i))
    ensures ControlExact(l, edges) ==>
              (ControlClosed(LoopGraph(l), Relevant(l, owner, edges, i)) <==> SourcesControlled(l, owner, edges, i))
  {
    EdgeClosedIff(l, owner, edges, i);
    EdgeClosedCloses(l, owner, edges, i);
    hide *;
  }

  /** In every thread, closed or not, a branch whose redirected targets differ is owned by no later thread. */
  lemma BranchAvailable(l: Loop, owner: map<Inst, nat>, edges: seq<Edge>, ip: map<Block, Block>, i: nat, b: Block, s1: Block, s2: Block)
    requires Setting(l, owner, edges) && IsIPDom(LoopGraph(l), ip) && b in l.blocks && s1 in l.succ[b]
    requires s2 in l.succ[b]
    requires s1 in LoopGraph(l).nodes && s2 in LoopGraph(l).nodes
    requires Climb(LoopGraph(l), ip, Relevant(l, owner, edges, i), s1) != Climb(LoopGraph(l), ip, Relevant(l, owner, edges, i), s2)
    ensures l.Term(b) in l.parent && owner[l.Term(b)] <= i
  {
    var y := DifferingTargets(LoopGraph(l), ip, Relevant(l, owner, edges, i), b, s1, s2);
    var v := RelevantHolds(l, owner, edges, i, y);
    ControllerEarlier(l, owner, edges, b, y, v);
  }
}
