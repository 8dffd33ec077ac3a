/** A loop with an `if` inside an `if`. However ties are broken, its second thread gets the store `v` alone; whether it then
    keeps what it is control dependent on, and the pass gets through, hangs on one use of a register. */
module NestedIfs {
  import opened Ir
  import opened PostDominance
  import opened PeeledLoop
  import opened ControlDependence
  import opened DependenceGraph
  import opened BuildPdg
  import opened Slicing
  import opened Split
  import opened Closure
  import opened Handover
  import opened Assembly
  import opened Pass

  /** `while (w = *flag) { if (x = *limit) if (p) { s: *flag = 0; v: *out = ...; } }`, each block ended by its branch. */
  function Nested(): Loop {
    Loop(0, 4, [0, 1, 2, 3],
         map[0 := [0, 1], 1 := [2, 3], 2 := [4], 3 := [5, 6, 7]],
         map[0 := [1, 4], 1 := [2, 0], 2 := [3, 0], 3 := [0]],
         map[0 := 0, 1 := 0, 2 := 1, 3 := 1, 4 := 2, 5 := 3, 6 := 3, 7 := 3])
  }

  /** The latencies of the source: a load or a store costs 2, a branch nothing. */
  function NestedLatency(x: Inst): nat {
    if x in {0, 2, 5, 6} then 2 else 0
  }

  /** The branches use `w` and `x`; `w` and `s` touch one cell, `v` another. What `v` writes is `w`, or, if `both`, made of
      `w` and `x`. */
  function NestedData(both: bool): seq<Edge> {
    [Edge(0, 1, REG), Edge(0, 6, REG), Edge(2, 3, REG), Edge(0, 5, DANTI), Edge(5, 0, DANTI), Edge(6, 6, DANTI)] +
    if both then [Edge(2, 6, REG)] else []
  }

  /** `v` and the jump behind it go to the second thread. */
  function NestedOwner(): map<Inst, nat> {
    map[0 := 0, 1 := 0, 2 := 0, 3 := 0, 4 := 0, 5 := 0, 6 := 1, 7 := 1]
  }

  // ---- the loop ----

  lemma NestedBlocks(b: Block)
    requires b in Nested().blocks
    ensures b == 0 || b == 1 || b == 2 || b == 3
  {
  }

  lemma NestedBodies(b: Block)
    requires b in Nested().blocks && b in Nested().body
    ensures b == 0 ==> Nested().body[b] == [0, 1]
    ensures b == 1 ==> Nested().body[b] == [2, 3]
    ensures b == 2 ==> Nested().body[b] == [4]
    ensures b == 3 ==> Nested().body[b] == [5, 6, 7]
  {
    NestedBlocks(b);
  }

  lemma NestedSuccs(b: Block)
    requires b in Nested().blocks && b in Nested().succ
    ensures b == 0 ==> Nested().succ[b] == [1, 4]
    ensures b == 1 ==> Nested().succ[b] == [2, 0]
    ensures b == 2 ==> Nested().succ[b] == [3, 0]
    ensures b == 3 ==> Nested().succ[b] == [0]
  {
    NestedBlocks(b);
  }

  lemma NestedParents(x: Inst)
    ensures x in Nested().parent <==> x < 8
    ensures x < 8 ==> Nested().parent[x] == if x < 2 then 0 else if x < 4 then 1 else if x == 4 then 2 else 3
  {
  }

  lemma NestedKeys()
    ensures var l := Nested();
            && (forall b :: b in l.body <==> b in l.blocks) && (forall b :: b in l.succ <==> b in l.blocks)
            && (forall b: Block :: b in l.blocks <==> b < 4) && l.header == 0 && l.exit == 4 && NoDups(l.blocks)
            && l.blocks == [0, 1, 2, 3]
  {
    var bs := Nested().blocks;
    forall b: Block ensures b in bs <==> b < 4 {
      if b < 4 { assert bs[b] == b; }
    }
  }

  lemma NestedBody(b: Block, x: Inst)
    requires b in Nested().blocks && b in Nested().body
    ensures x in Nested().body[b] <==> x in Nested().parent && Nested().parent[x] == b
    ensures |Nested().body[b]| > 0 && NoDups(Nested().body[b])
  {
    NestedBlocks(b);
    NestedBodies(b);
    NestedParents(x);
    hide Nested;
  }

  lemma NestedSucc(b: Block, s: Block)
    requires b in Nested().blocks && b in Nested().succ
    ensures |Nested().succ[b]| > 0 && (s in Nested().succ[b] ==> s < 5)
  {
    NestedBlocks(b);
    NestedSuccs(b);
    hide Nested;
  }

  lemma NestedValid()
    ensures Nested().Valid()
  {
    var l := Nested();
    hide Nested;
    NestedKeys();
    forall b | b in l.blocks
      ensures |l.body[b]| > 0 && NoDups(l.body[b]) && |l.succ[b]| > 0
      ensures forall x :: x in l.body[b] <==> x in l.parent && l.parent[x] == b
      ensures forall s :: s in l.succ[b] ==> s in l.blocks || s == l.exit
    {
      NestedBody(b, 0);
      NestedSucc(b, 0);
      forall x ensures x in l.body[b] <==> x in l.parent && l.parent[x] == b { NestedBody(b, x); }
      forall s | s in l.succ[b] ensures s in l.blocks || s == l.exit { NestedSucc(b, s); }
    }
    forall x | x in l.parent ensures l.parent[x] in l.blocks { NestedParents(x); }
  }

  lemma NestedTerm(b: Block)
    requires b < 4 && b in Nested().body && |Nested().body[b]| > 0
    ensures Nested().Term(b) == if b == 0 then 1 else if b == 1 then 3 else if b == 2 then 4 else 7
  {
    NestedKeys();
    NestedBodies(b);
  }

  // ---- its control dependences ----

  function NestedGraph(): Graph<Block> {
    Graph({0, 1, 2, 3, 4}, 4, map[0 := [1, 4], 1 := [2, 0], 2 := [3, 0], 3 := [0], 4 := []])
  }

  lemma NestedIsGraph()
    ensures LoopGraph(Nested()) == NestedGraph() && WellFormed(NestedGraph())
  {
    assert (set b: Block | b in [0, 1, 2, 3]) == {0, 1, 2, 3};
  }

  lemma NestedUsable()
    ensures Usable(NestedGraph()) && WellFormed(NestedGraph())
  {
    NestedIsGraph();
    hide ExitPath, WellFormed;
    forall s | s in NestedGraph().nodes ensures exists p: seq<Block> :: ExitPath(NestedGraph(), s, p) { var p := WayOut(s); }
  }

  lemma WayOut(s: Block) returns (p: seq<Block>)
    requires WellFormed(NestedGraph()) && s in NestedGraph().nodes
    ensures ExitPath(NestedGraph(), s, p)
  {
    p := if s == 4 then [4] else if s == 0 then [0, 4] else [s, 0, 4];
  }

  lemma OnPath(g: Graph<Block>, y: Block, p: seq<Block>)
    requires WellFormed(g) && IsPath(g, p) && p[|p| - 1] == g.exit && PDom(g, y, p[0])
    ensures y in p
  {
    assert ExitPath(g, p[0], p);
  }

  /** What post-dominates a block: itself, the header and the exit at most. */
  lemma FromBlock(y: Block, s: Block)
    requires WellFormed(NestedGraph()) && PDom(NestedGraph(), y, s)
    ensures y == s || y == 4 || (y == 0 && s < 4)
  {
    var g := NestedGraph();
    assert s in g.nodes;
    hide PDom;
    if s == 0 { OnPath(g, y, [0, 4]); }
    else if s == 1 { OnPath(g, y, [1, 0, 4]); }
    else if s == 2 { OnPath(g, y, [2, 0, 4]); }
    else if s == 3 { OnPath(g, y, [3, 0, 4]); }
    else if s == 4 { OnPath(g, y, [4]); }
  }

  /** The header stands on every path to the exit. */
  lemma ThroughHeader(s: Block)
    requires WellFormed(NestedGraph()) && s < 4
    ensures PDom(NestedGraph(), 0, s)
  {
    var g := NestedGraph();
    forall p: seq<Block> | ExitPath(g, s, p) ensures 0 in p {
      assert p[|p| - 1] in g.succ[p[|p| - 2]];
    }
  }

  function NestedDeps(): set<(Block, Block)> {
    {(0, 0), (0, 1), (1, 2), (2, 3)}
  }

  lemma NestedControlDep(x: Block, y: Block)
    requires WellFormed(NestedGraph()) && (x, y) in NestedDeps()
    ensures ControlDep(NestedGraph(), x, y)
  {
    var g := NestedGraph();
    PDomRefl(g, y);
    if x == 0 && y == 0 {
      ThroughHeader(1);
      assert 1 in g.succ[0];
    } else {
      assert y == x + 1 && y in g.succ[x];
      if PDom(g, y, x) { FromBlock(y, x); }
    }
  }

  // ---- the peeled graph ----

  /** The blocks before `b`. */
  ghost function Above(b: Block): set<Block> {
    set x | x in Nested().blocks && x < b
  }

  /** The blocks from the innermost up to `b`. */
  function Down(b: Block): seq<Block>
    requires b < 4
    decreases 4 - b
  {
    if b == 3 then [3] else Down(b + 1) + [b]
  }

  /** The depth-first search goes down the ifs and leaves the header last. */
  lemma {:induction false} NestedVisit(b: Block)
    requires Nested().Valid() && b < 4 && b in Nested().blocks
    ensures Visit(Nested(), b, Dfs(Above(b), [])) == Dfs(Above(4), Down(b))
    decreases 4 - b
  {
    hide Nested, Visit, VisitAll, Loop.Valid;
    NestedKeys();
    NestedSuccs(b);
    assert Above(b) + {b} == Above(b + 1);
    if b == 3 {
      Innermost(Nested(), 3, [0], Dfs(Above(3), []));
    } else {
      NestedVisit(b + 1);
      Outside(Nested(), b, b + 1, [if b == 0 then 4 else 0], Dfs(Above(b), []), Dfs(Above(4), Down(b + 1)));
    }
  }

  lemma NestedOrder()
    requires Nested().Valid()
    ensures PostOrder(Nested()) == [3, 2, 1, 0]
  {
    hide Visit, VisitAll, Loop.Valid;
    NestedVisit(0);
    assert Above(0) == {};
    Outermost(Nested(), 0, [1, 2, 3], Dfs(Above(4), Down(0)));
  }

  lemma Innermost(l: Loop, b: Block, ss: seq<Block>, d: Dfs)
    requires l.Valid() && b in l.blocks && b !in d.vis && l.succ[b] == ss
    requires forall s :: s in ss ==> s in d.vis + {b} || s !in l.blocks
    ensures Visit(l, b, d) == Dfs(d.vis + {b}, d.ord + [b])
  {
    AlreadyIn(l, ss, Dfs(d.vis + {b}, d.ord));
  }

  lemma Outside(l: Loop, b: Block, s: Block, ss: seq<Block>, d: Dfs, inner: Dfs)
    requires l.Valid() && b in l.blocks && b !in d.vis && l.succ[b] == [s] + ss && s in l.blocks && s !in d.vis + {b}
    requires Visit(l, s, Dfs(d.vis + {b}, d.ord)) == inner && forall t :: t in ss ==> t in inner.vis || t !in l.blocks
    ensures Visit(l, b, d) == Dfs(inner.vis, inner.ord + [b])
  {
    AlreadyIn(l, ss, inner);
    assert ([s] + ss)[1..] == ss;
  }

  lemma Outermost(l: Loop, b: Block, ss: seq<Block>, r: Dfs)
    requires l.Valid() && l.blocks == [b] + ss && Visit(l, b, Dfs({}, [])) == r && forall s :: s in ss ==> s in r.vis
    ensures PostOrder(l) == r.ord
  {
    AlreadyIn(l, ss, r);
    assert ([b] + ss)[1..] == ss;
  }

  lemma {:induction false} AlreadyIn(l: Loop, ss: seq<Block>, d: Dfs)
    requires l.Valid() && forall s :: s in ss ==> s in d.vis || s !in l.blocks
    ensures VisitAll(l, ss, d) == d
  {
    if ss != [] { AlreadyIn(l, ss[1..], d); }
  }

  lemma NestedNumbers()
    requires Nested().Valid()
    ensures forall b: Block :: b in Numbering(Nested()) <==> b < 4
    ensures forall b :: b in Numbering(Nested()) ==> Numbering(Nested())[b] == b
  {
    hide Nested, PostOrder, Numbering, IndexOf, Loop.Valid;
    NestedKeys();
    NestedOrder();
    var ord := PostOrder(Nested());
    forall b | b in Numbering(Nested()) ensures Numbering(Nested())[b] == b {
      assert ord[3 - b] == b;
      NumberIs(Nested(), b);
      var k := IndexOf(ord, b);
      assert ord[k] == b;
    }
  }

  /** Only copies of the header lead to the exit, and none of its edges leads to its top copy. */
  lemma ExitByHeader(num: map<Block, nat>, d: Dummy)
    requires Nested().Valid() && num == Numbering(Nested()) && WellFormed(Peeled(Nested(), num))
    requires d in DummyNodes(Nested()) && !d.DummyExit? && d.b != 0
    ensures PDom(Peeled(Nested(), num), Bottom(0), d)
  {
    hide Nested, Numbering, Loop.Valid, WellFormed, ExitPath, DummySucc;
    NestedKeys();
    var g := Peeled(Nested(), num);
    assert d in g.nodes && Bottom(0) in g.nodes;
    hide Peeled, DummyNodes;
    forall q: seq<Dummy> | ExitPath(g, d, q) ensures Bottom(0) in q { PathByHeader(num, d, q); }
  }

  lemma PathByHeader(num: map<Block, nat>, d: Dummy, q: seq<Dummy>)
    requires Nested().Valid() && num == Numbering(Nested()) && WellFormed(Peeled(Nested(), num))
    requires d in DummyNodes(Nested()) && !d.DummyExit? && d.b != 0 && ExitPath(Peeled(Nested(), num), d, q)
    ensures Bottom(0) in q
  {
    hide Nested, Numbering, Loop.Valid, DummySucc, ExitPath, Peeled, WellFormed, DummyNodes, NumberedBy;
    LastStep(Nested(), num, d, q);
    NestedKeys();
    NestedNumber(num, 0);
    NestedNumber(num, d.b);
    var c := q[|q| - 2];
    OnlyHeaderExits(num, c);
    TopsIncrease(Nested(), num, 0, d, q, |q| - 2);
    assert c == Bottom(0) && c in q;
  }

  lemma NestedNumber(num: map<Block, nat>, b: Block)
    requires Nested().Valid() && num == Numbering(Nested()) && b < 4
    ensures b in num && num[b] == b
  {
    hide Nested, Numbering;
    NestedNumbers();
  }

  lemma OnlyHeaderExits(num: map<Block, nat>, d: Dummy)
    requires Nested().Valid() && NumberedBy(Nested(), num) && d in DummyNodes(Nested())
    requires DummyExit in DummySucc(Nested(), num, d)
    ensures !d.DummyExit? && d.b == 0
  {
    hide Nested, Loop.Valid, DummySucc;
    NestedKeys();
    StepDown(Nested(), num, d, DummyExit);
    NestedSuccs(d.b);
  }

  lemma LastStep(l: Loop, num: map<Block, nat>, d: Dummy, q: seq<Dummy>)
    requires l.Valid() && NumberedBy(l, num) && WellFormed(Peeled(l, num)) && ExitPath(Peeled(l, num), d, q)
    requires !d.DummyExit?
    ensures |q| > 1 && q[|q| - 2] in DummyNodes(l) && q[|q| - 1] == DummyExit
    ensures DummyExit in DummySucc(l, num, q[|q| - 2])
  {
    hide DummySucc;
    var k := |q| - 2;
    assert q[k + 1] in Peeled(l, num).succ[q[k]];
  }

  /** The top copy of the header is never reached from elsewhere. */
  lemma NeverToTop(num: map<Block, nat>, x: Dummy, s: Dummy)
    requires Nested().Valid() && num == Numbering(Nested()) && Usable(Peeled(Nested(), num))
    requires x in DummyNodes(Nested()) && s in DummySucc(Nested(), num, x)
    ensures !PDom(Peeled(Nested(), num), Top(0), s)
  {
    var l, g := Nested(), Peeled(Nested(), num);
    NestedNumbers();
    NestedKeys();
    hide Nested, Numbering, Loop.Valid;
    StepDown(l, num, x, s);
    if PDom(g, Top(0), s) {
      var q: seq<Dummy> :| ExitPath(g, s, q);
      var i := Position(q, Top(0));
      TopsIncrease(l, num, 0, s, q, i);
    }
  }

  lemma NestedDummyDep(num: map<Block, nat>, x: Dummy, y: Dummy)
    requires Nested().Valid() && num == Numbering(Nested()) && WellFormed(NestedGraph())
    requires WellFormed(Peeled(Nested(), num)) && Usable(Peeled(Nested(), num)) && DummyDep(Peeled(Nested(), num), x, y)
    ensures !x.DummyExit? && !y.DummyExit? && (x.b, y.b) in NestedDeps()
  {
    hide Nested, NestedGraph, Numbering, PostOrder, Loop.Valid, DummySucc, Peeled, PDom, WellFormed, LoopGraph;
    hide DummyNodes;
    hide DummyDep, Usable;
    var s := DummyDepEdge(Nested(), num, x, y);
    NestedKeys();
    NestedIsGraph();
    StepDown(Nested(), num, x, s);
    ProjectPDom(Nested(), num, y, s);
    FromBlock(y.b, Real(Nested(), s));
    NestedSuccs(x.b);
    if y.b == 0 && x.b != 0 {
      if y.Top? { NeverToTop(num, x, s); } else { ExitByHeader(num, x); }
    }
  }

  lemma DummyDepEdge(l: Loop, num: map<Block, nat>, x: Dummy, y: Dummy) returns (s: Dummy)
    requires l.Valid() && NumberedBy(l, num) && WellFormed(Peeled(l, num)) && DummyDep(Peeled(l, num), x, y)
    ensures x in DummyNodes(l) && s in DummySucc(l, num, x) && PDom(Peeled(l, num), y, s) && !PDom(Peeled(l, num), y, x)
    ensures !x.DummyExit? && !y.DummyExit? && x.b in l.blocks && y.b in l.blocks
  {
    s :| s in Peeled(l, num).succ[x] && PDom(Peeled(l, num), y, s);
    hide PDom;
  }

  /** The peeled graph of this loop has exactly the control dependences of the loop. */
  lemma NestedPeeled()
    requires Nested().Valid() && WellFormed(LoopGraph(Nested()))
    requires WellFormed(Peeled(Nested(), Numbering(Nested()))) && Usable(Peeled(Nested(), Numbering(Nested())))
    ensures PeeledDeps(Nested(), Numbering(Nested())) == NestedDeps()
  {
    hide Nested, NestedDeps, Numbering, PeeledDep, Loop.Valid, Peeled, LoopGraph, Usable, WellFormed;
    var l, num := Nested(), Numbering(Nested());
    forall p: (Block, Block) ensures p in PeeledDeps(l, num) <==> p in NestedDeps() {
      if p in PeeledDeps(l, num) { PeeledToNested(num, p.0, p.1); }
      if p in NestedDeps() { NestedToPeeled(num, p.0, p.1); }
    }
  }

  lemma PeeledToNested(num: map<Block, nat>, x: Block, y: Block)
    requires Nested().Valid() && WellFormed(LoopGraph(Nested())) && num == Numbering(Nested())
    requires WellFormed(Peeled(Nested(), num)) && Usable(Peeled(Nested(), num)) && PeeledDep(Nested(), num, x, y)
    ensures (x, y) in NestedDeps()
  {
    hide Nested, NestedGraph, NestedDeps, Numbering, DummyDep, Loop.Valid, Peeled, LoopGraph, Usable, WellFormed;
    NestedIsGraph();
    var x', y' :| DummyDep(Peeled(Nested(), num), x', y') && Real(Nested(), x') == x && Real(Nested(), y') == y;
    NestedDummyDep(num, x', y');
  }

  lemma NestedToPeeled(num: map<Block, nat>, x: Block, y: Block)
    requires Nested().Valid() && WellFormed(LoopGraph(Nested())) && num == Numbering(Nested())
    requires WellFormed(Peeled(Nested(), num)) && (x, y) in NestedDeps()
    ensures x in Nested().blocks && y in Nested().blocks && PeeledDep(Nested(), num, x, y)
  {
    hide Nested, NestedGraph, Numbering, PeeledDep, Loop.Valid, Peeled, LoopGraph, Usable, WellFormed;
    NestedKeys();
    NestedIsGraph();
    NestedUsable();
    NestedControlDep(x, y);
    ControlDepIsPeeled(Nested(), num, x, y);
  }

  // ---- its dependence graph ----

  function NestedControls(): set<(Inst, Inst)> {
    {(1, 0), (1, 1), (1, 2), (1, 3), (3, 4), (4, 5), (4, 6), (4, 7)}
  }

  predicate IsNestedEdge(both: bool, e: Edge) {
    e in NestedData(both) || (e.dtype == CONTROL && (e.u, e.v) in NestedControls())
  }

  /** `es` are the edges that the pass has for this loop. */
  ghost predicate NestedEdges(both: bool, es: seq<Edge>) {
    forall e :: e in es <==> IsNestedEdge(both, e)
  }

  lemma NestedControlEdge(e: Edge)
    requires Nested().Valid()
    ensures IsControlEdge(Nested(), NestedDeps(), e) <==> e.dtype == CONTROL && (e.u, e.v) in NestedControls()
  {
    hide Nested, NestedDeps, NestedControls, IsControlEdge, Loop.Valid;
    if e.dtype == CONTROL && (e.u, e.v) in NestedControls() { ControlIsEdge(e); }
    if IsControlEdge(Nested(), NestedDeps(), e) { EdgeIsControl(e); }
  }

  lemma ControlIsEdge(e: Edge)
    requires Nested().Valid() && e.dtype == CONTROL && (e.u, e.v) in NestedControls()
    ensures IsControlEdge(Nested(), NestedDeps(), e)
  {
    hide Nested, Loop.Term, Loop.Valid;
    NestedKeys();
    NestedParents(e.v);
    var x := if e.u == 1 then 0 else e.u - 2;
    NestedBody(x, 0);
    NestedTerm(x);
  }

  lemma EdgeIsControl(e: Edge)
    requires Nested().Valid() && IsControlEdge(Nested(), NestedDeps(), e)
    ensures e.dtype == CONTROL && (e.u, e.v) in NestedControls()
  {
    hide Nested, Loop.Term, NestedDeps, NestedControls;
    var x :| x in Nested().blocks && e.u == Nested().Term(x) && (x, Nested().parent[e.v]) in NestedDeps();
    hide Loop.Valid;
    ControlFrom(x, e.v);
  }

  lemma ControlFrom(x: Block, v: Inst)
    requires x in Nested().blocks && x in Nested().body && |Nested().body[x]| > 0 && v in Nested().parent
    requires (x, Nested().parent[v]) in NestedDeps()
    ensures (Nested().Term(x), v) in NestedControls()
  {
    hide Nested, Loop.Term;
    NestedKeys();
    NestedParents(v);
    NestedTerm(x);
  }

  /** The control half of buildPDG finds them. */
  lemma NestedEdgesForced(both: bool, es: seq<Edge>)
    requires Nested().Valid() && Usable(LoopGraph(Nested())) && ControlOf(Nested(), NestedData(both), es)
    ensures NestedEdges(both, es)
  {
    hide Nested, NestedData, NestedDeps, NestedControls, Numbering, Loop.Valid, Usable, Peeled, LoopGraph;
    hide WellFormed, PeeledDeps, IsControlEdge;
    PeeledUsable(Nested(), Numbering(Nested()));
    UsableFormed(Peeled(Nested(), Numbering(Nested())));
    UsableFormed(LoopGraph(Nested()));
    NestedPeeled();
    forall e ensures e in es <==> IsNestedEdge(both, e) { NestedControlEdge(e); }
  }

  lemma NestedInside(both: bool, es: seq<Edge>)
    requires NestedEdges(both, es)
    ensures EdgesInside(Nested(), es)
  {
    forall e | e in es ensures e.u in Nested().parent && e.v in Nested().parent { assert IsNestedEdge(both, e); }
  }

  lemma NestedRise(both: bool, e: Edge)
    requires IsNestedEdge(both, e)
    ensures e.u in NestedOwner() && e.v in NestedOwner() && NestedOwner()[e.u] <= NestedOwner()[e.v]
  {
  }

  /** What the code generation rests on holds of this loop. */
  lemma NestedSetting(both: bool, es: seq<Edge>)
    requires Nested().Valid() && Usable(LoopGraph(Nested())) && ControlOf(Nested(), NestedData(both), es)
    ensures NestedEdges(both, es) && Setting(Nested(), NestedOwner(), es)
  {
    hide Nested, NestedData, NestedOwner, Loop.Valid, Usable, LoopGraph, WellFormed, ControlComplete, Extends;
    hide PeeledDeps, Peeled;
    hide IsNestedEdge, Numbering, RegFromWork;
    NestedEdgesForced(both, es);
    NestedInside(both, es);
    forall e | e in es ensures e.u in NestedOwner() && e.v in NestedOwner() && NestedOwner()[e.u] <= NestedOwner()[e.v] {
      NestedRise(both, e);
    }
    PeeledUsable(Nested(), Numbering(Nested()));
    UsableFormed(Peeled(Nested(), Numbering(Nested())));
    UsableFormed(LoopGraph(Nested()));
    ControlEdgesComplete(Nested(), Numbering(Nested()), NestedData(both), es);
    NestedOwnerAll();
  }

  lemma NestedOwnerAll()
    ensures forall x :: x in Nested().parent ==> x in NestedOwner()
  {
  }

  lemma NestedOwned()
    ensures forall x :: x in Owned(Nested(), NestedOwner(), 1) <==> x == 6 || x == 7
  {
  }

  lemma NestedSources(both: bool, e: Edge)
    requires IsNestedEdge(both, e) && (e.v == 6 || e.v == 7)
    ensures e.u == 0 || e.u == 4 || e.u == 6 || (e.u == 2 && both)
  {
  }

  lemma NestedHolds(both: bool)
    ensures IsNestedEdge(both, Edge(0, 6, REG)) && IsNestedEdge(both, Edge(4, 6, CONTROL))
    ensures IsNestedEdge(both, Edge(3, 4, CONTROL))
    ensures both ==> IsNestedEdge(both, Edge(2, 6, REG))
  {
    assert NestedData(both)[1] == Edge(0, 6, REG);
    assert both ==> NestedData(both)[6] == Edge(2, 6, REG);
  }

  function NestedKept(both: bool): set<Block> {
    {0, 2, 3} + if both then {1} else {}
  }

  /** The second thread keeps the blocks of `v`, of `w` and of the inner test; that of the outer test only if `v` uses `x`. */
  lemma NestedRelevant(both: bool, es: seq<Edge>)
    requires NestedEdges(both, es)
    ensures EdgesInside(Nested(), es) && Relevant(Nested(), NestedOwner(), es, 1) == NestedKept(both)
  {
    hide Nested, NestedOwner, NestedEdges, Relevant, EdgesInside;
    NestedInside(both, es);
    forall b ensures b in Relevant(Nested(), NestedOwner(), es, 1) <==> b in NestedKept(both) {
      if b in Relevant(Nested(), NestedOwner(), es, 1) { RelevantKept(both, es, b); }
      if b in NestedKept(both) { KeptRelevant(both, es, b); }
    }
  }

  lemma RelevantKept(both: bool, es: seq<Edge>, b: Block)
    requires NestedEdges(both, es) && EdgesInside(Nested(), es) && b in Relevant(Nested(), NestedOwner(), es, 1)
    ensures b in NestedKept(both)
  {
    var l, owner := Nested(), NestedOwner();
    hide Nested, NestedOwner, IsNestedEdge, Relevant;
    NestedOwned();
    RelevantIff(l, owner, es, 1, b);
    if x :| x in Owned(l, owner, 1) && l.parent[x] == b {
      NestedParents(x);
    } else {
      var e :| e in es && l.parent[e.u] == b && e.v in Owned(l, owner, 1);
      NestedSources(both, e);
      NestedParents(e.u);
    }
  }

  lemma KeptRelevant(both: bool, es: seq<Edge>, b: Block)
    requires NestedEdges(both, es) && EdgesInside(Nested(), es) && b in NestedKept(both)
    ensures b in Relevant(Nested(), NestedOwner(), es, 1)
  {
    hide Nested, NestedOwner, IsNestedEdge, Owned, Relevant;
    NestedHolds(both);
    NestedOwnedBy();
    if b == 3 {
      OwnRelevant(Nested(), NestedOwner(), es, 1, 6);
    } else {
      SourceRelevant(Nested(), NestedOwner(), es, 1, if b == 0 then Edge(0, 6, REG) else if b == 1 then Edge(2, 6, REG) else Edge(4, 6, CONTROL));
    }
  }

  lemma NestedOwnedBy()
    ensures 6 in NestedOwner() && NestedOwner()[6] == 1 && 6 in Nested().parent && Nested().parent[6] == 3
    ensures 3 in NestedOwner() && NestedOwner()[3] == 0
    ensures Nested().parent[0] == 0 && Nested().parent[2] == 1 && Nested().parent[4] == 2
  {
  }

  lemma ClimbsBack(ip: map<Block, Block>, kept: set<Block>)
    requires Usable(NestedGraph()) && IsIPDom(NestedGraph(), ip) && kept == {0, 2, 3}
    ensures Climb(NestedGraph(), ip, kept, 1) == 0
  {
    var g := NestedGraph();
    NestedIsGraph();
    ThroughHeader(1);
    TreePath(g, ip, 0, 1);
    FromBlock(ip[1], 1);
    assert g.nodes == {0, 1, 2, 3, 4};
    hide IsIPDom, PDom, Usable;
    FromBlock(0, ip[1]);
  }

  /** The second thread keeps the header, yet it keeps block 2 without block 1, on which block 2 is control dependent: its
      branch at 0 climbs from 1 straight back to 0, and it never comes to the blocks 2 and 3 although the first thread may. */
  lemma SecondNotClosed(es: seq<Edge>)
    requires Nested().Valid() && Usable(LoopGraph(Nested())) && ControlOf(Nested(), NestedData(false), es)
    ensures Setting(Nested(), NestedOwner(), es)
    ensures Nested().header in Relevant(Nested(), NestedOwner(), es, 1)
    ensures !ControlClosed(LoopGraph(Nested()), Relevant(Nested(), NestedOwner(), es, 1))
    ensures forall ip :: IsIPDom(LoopGraph(Nested()), ip) ==>
              Climb(LoopGraph(Nested()), ip, Relevant(Nested(), NestedOwner(), es, 1), 1) == 0
  {
    hide Nested, NestedGraph, NestedData, NestedOwner, NestedEdges, Relevant, Setting, Loop.Valid, Usable;
    hide ControlOf, ControlDep, IsIPDom;
    NestedSetting(false, es);
    NestedRelevant(false, es);
    NestedKeys();
    NestedIsGraph();
    var kept := Relevant(Nested(), NestedOwner(), es, 1);
    NestedControlDep(1, 2);
    assert 2 in kept && ControlDep(NestedGraph(), 1, 2) && 1 !in kept;
    forall ip | IsIPDom(NestedGraph(), ip) ensures Climb(NestedGraph(), ip, kept, 1) == 0 { ClimbsBack(ip, kept); }
  }
}
