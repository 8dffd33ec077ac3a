/** The two-copy graph that control dependences are computed on (DSWP_1.cpp:232-430). The top half
    is one acyclic pass over the loop, the bottom half a whole copy of it. */
module PeeledLoop {
  import opened Ir
  import opened PostDominance

  datatype Dummy = Top(b: Block) | Bottom(b: Block) | DummyExit

  /** The loop as a graph: its blocks and the exit block, which has no successors here. */
  function LoopGraph(l: Loop): Graph<Block> {
    Graph((set b | b in l.blocks) + {l.exit}, l.exit, l.succ[l.exit := []])
  }

  ghost predicate NumberedBy(l: Loop, num: map<Block, nat>) {
    forall b :: b in l.blocks ==> b in num
  }

  /** Where the edge from `d`, a copy of a block, to the loop block `s` goes. */
  function Target(num: map<Block, nat>, d: Dummy, s: Block): Dummy
    requires d.DummyExit? || (d.b in num && s in num)
  {
    if d.Top? && num[s] > num[d.b] then Top(s) else Bottom(s)
  }

  /** The switch cases made for the in-loop successors, in order. */
  function Cases(l: Loop, num: map<Block, nat>, d: Dummy, ss: seq<Block>): (r: seq<Dummy>)
    requires NumberedBy(l, num) && !d.DummyExit? && d.b in l.blocks
  {
    if ss == [] then []
    else
      var front := Cases(l, num, d, ss[..|ss| - 1]);
      var s := ss[|ss| - 1];
      if s in l.blocks then front + [Target(num, d, s)] else front
  }

  /** The successor list of a switch: its default, then its cases. */
  function Switch(exits: bool, cases: seq<Dummy>): seq<Dummy> {
    if exits then [DummyExit, DummyExit] + cases
    else if cases == [] then []
    else [cases[0]] + cases
  }

  function DummySucc(l: Loop, num: map<Block, nat>, d: Dummy): seq<Dummy>
    requires l.Valid() && NumberedBy(l, num) && (d.DummyExit? || d.b in l.blocks)
  {
    if d.DummyExit? then [] else Switch(l.exit in l.succ[d.b], Cases(l, num, d, l.succ[d.b]))
  }

  function DummyNodes(l: Loop): (ds: set<Dummy>)
    ensures forall d :: d in ds <==> d.DummyExit? || d.b in l.blocks
  {
    var tops := set b | b in l.blocks :: Top(b);
    var bottoms := set b | b in l.blocks :: Bottom(b);
    assert forall d: Dummy :: d.Top? ==> d == Top(d.b);
    assert forall d: Dummy :: d.Bottom? ==> d == Bottom(d.b);
    tops + bottoms + {DummyExit}
  }

  ghost function Peeled(l: Loop, num: map<Block, nat>): Graph<Dummy>
    requires l.Valid() && NumberedBy(l, num)
  {
    Graph(DummyNodes(l), DummyExit, map d | d in DummyNodes(l) :: DummySucc(l, num, d))
  }

  /** `dummytoreal`, with the dummy exit standing for the exit block. */
  function Real(l: Loop, d: Dummy): Block {
    if d.DummyExit? then l.exit else d.b
  }

  lemma {:induction false} CasesMembers(l: Loop, num: map<Block, nat>, d: Dummy, ss: seq<Block>, c: Dummy)
    requires NumberedBy(l, num) && !d.DummyExit? && d.b in l.blocks
    ensures c in Cases(l, num, d, ss) <==> exists s :: s in ss && s in l.blocks && c == Target(num, d, s)
  {
    if ss != [] {
      CasesMembers(l, num, d, ss[..|ss| - 1], c);
      assert ss == ss[..|ss| - 1] + [ss[|ss| - 1]];
    }
  }

  /** The successors of a dummy block are the targets of the block's successors. */
  lemma DummySuccMembers(l: Loop, num: map<Block, nat>, d: Dummy, c: Dummy)
    requires l.Valid() && NumberedBy(l, num) && !d.DummyExit? && d.b in l.blocks
    ensures c in DummySucc(l, num, d) <==>
              || (c == DummyExit && l.exit in l.succ[d.b])
              || (exists s :: s in l.succ[d.b] && s in l.blocks && c == Target(num, d, s))
  {
    CasesMembers(l, num, d, l.succ[d.b], c);
  }

  lemma GraphsWellFormed(l: Loop, num: map<Block, nat>)
    requires l.Valid() && NumberedBy(l, num)
    ensures WellFormed(LoopGraph(l)) && WellFormed(Peeled(l, num))
  {
    var g := Peeled(l, num);
    forall d, c | d in g.nodes && c in g.succ[d] ensures c in g.nodes {
      if !d.DummyExit? { DummySuccMembers(l, num, d, c); }
    }
  }

  /** An edge of the loop between blocks stays in the top half exactly when it leads to a larger number; otherwise it leads
      to the bottom half, and there every edge stays. */
  lemma EdgeCopies(l: Loop, num: map<Block, nat>, u: Block, v: Block)
    requires l.Valid() && NumberedBy(l, num) && u in l.blocks && v in l.succ[u] && v in l.blocks
    ensures Top(v) in DummySucc(l, num, Top(u)) <==> num[u] < num[v]
    ensures Bottom(v) in DummySucc(l, num, Top(u)) <==> num[v] <= num[u]
    ensures Bottom(v) in DummySucc(l, num, Bottom(u)) && Top(v) !in DummySucc(l, num, Bottom(u))
  {
    DummySuccMembers(l, num, Top(u), Top(v));
    DummySuccMembers(l, num, Top(u), Bottom(v));
    DummySuccMembers(l, num, Bottom(u), Top(v));
    DummySuccMembers(l, num, Bottom(u), Bottom(v));
  }

  // ---- paths of the peeled graph and paths of the loop ----

  function Project(l: Loop, q: seq<Dummy>): (p: seq<Block>)
    ensures |p| == |q| && forall i :: 0 <= i < |q| ==> p[i] == Real(l, q[i])
  {
    seq(|q|, i requires 0 <= i < |q| => Real(l, q[i]))
  }

  lemma StepDown(l: Loop, num: map<Block, nat>, d: Dummy, c: Dummy)
    requires l.Valid() && NumberedBy(l, num) && d in DummyNodes(l) && c in DummySucc(l, num, d)
    ensures !d.DummyExit? && Real(l, c) in l.succ[d.b]
    ensures c in DummyNodes(l)
    ensures d.Bottom? ==> !c.Top?
    ensures d.Top? && c.Top? ==> num[d.b] < num[c.b]
  {
    DummySuccMembers(l, num, d, c);
  }

  lemma StepUp(l: Loop, num: map<Block, nat>, d: Dummy, s: Block)
    requires l.Valid() && NumberedBy(l, num) && d in DummyNodes(l) && !d.DummyExit? && s in l.succ[d.b]
    ensures (if s == l.exit then DummyExit else Target(num, d, s)) in DummySucc(l, num, d)
  {
    DummySuccMembers(l, num, d, if s == l.exit then DummyExit else Target(num, d, s));
  }

  lemma ProjectStep(l: Loop, num: map<Block, nat>, d: Dummy, c: Dummy)
    requires l.Valid() && NumberedBy(l, num) && WellFormed(Peeled(l, num))
    requires d in Peeled(l, num).nodes && c in Peeled(l, num).succ[d]
    ensures Real(l, d) in l.blocks && Real(l, c) in LoopGraph(l).succ[Real(l, d)]
  {
    assert d in DummyNodes(l);
    StepDown(l, num, d, c);
  }

  lemma ProjectPath(l: Loop, num: map<Block, nat>, d: Dummy, q: seq<Dummy>)
    requires l.Valid() && NumberedBy(l, num)
    requires WellFormed(LoopGraph(l)) && WellFormed(Peeled(l, num))
    requires ExitPath(Peeled(l, num), d, q)
    ensures ExitPath(LoopGraph(l), Real(l, d), Project(l, q))
  {
    var g, p := Peeled(l, num), Project(l, q);
    forall i, j | 0 <= i && j == i + 1 && j < |p| ensures p[j] in LoopGraph(l).succ[p[i]] {
      ProjectStep(l, num, q[i], q[j]);
    }
    forall i | 0 <= i < |p| ensures p[i] in LoopGraph(l).nodes {
      if i + 1 < |p| { ProjectStep(l, num, q[i], q[i + 1]); }
    }
  }

  /** The path of the peeled graph that starts in `d` and takes the branches of `p`. */
  function Lift(l: Loop, num: map<Block, nat>, d: Dummy, p: seq<Block>): (q: seq<Dummy>)
    requires |p| > 0 && NumberedBy(l, num) && l.exit !in l.blocks
    requires forall b :: b in p ==> b in l.blocks || b == l.exit
    requires Real(l, d) == p[0] && (d.DummyExit? || d.b in l.blocks)
    ensures |q| == |p| && forall i :: 0 <= i < |q| ==> Real(l, q[i]) == p[i]
    ensures q[0] == d
    decreases |p|
  {
    if |p| == 1 then [d]
    else
      assert p[1] in p;
      var next := if p[1] == l.exit then DummyExit
                  else if d.DummyExit? then Bottom(p[1])
                  else Target(num, d, p[1]);
      [d] + Lift(l, num, next, p[1..])
  }

  lemma {:induction false} LiftPath(l: Loop, num: map<Block, nat>, d: Dummy, p: seq<Block>)
    requires l.Valid() && NumberedBy(l, num)
    requires WellFormed(LoopGraph(l)) && WellFormed(Peeled(l, num))
    requires d in DummyNodes(l) && ExitPath(LoopGraph(l), Real(l, d), p)
    ensures ExitPath(Peeled(l, num), d, Lift(l, num, d, p))
    decreases |p|
  {
    if |p| > 1 {
      assert p[1] in LoopGraph(l).succ[p[0]];
      StepUp(l, num, d, p[1]);
      SuffixPath(LoopGraph(l), p[0], p, 1);
      var next := if p[1] == l.exit then DummyExit else Target(num, d, p[1]);
      LiftPath(l, num, next, p[1..]);
      Prepend(Peeled(l, num), d, next, Lift(l, num, next, p[1..]));
    }
  }

  /** Every dummy block reaches the dummy exit because every block reaches the exit. */
  lemma PeeledUsable(l: Loop, num: map<Block, nat>)
    requires l.Valid() && NumberedBy(l, num) && Usable(LoopGraph(l))
    ensures Usable(Peeled(l, num))
  {
    GraphsWellFormed(l, num);
    var g := Peeled(l, num);
    forall d | d in g.nodes ensures exists q: seq<Dummy> :: ExitPath(g, d, q) {
      var s := Real(l, d);
      assert s in LoopGraph(l).nodes;
      var p: seq<Block> :| ExitPath(LoopGraph(l), s, p);
      LiftPath(l, num, d, p);
    }
  }

  /** From the bottom half no path returns to the top half. */
  lemma {:induction false} BottomStays(l: Loop, num: map<Block, nat>, d: Dummy, q: seq<Dummy>, i: nat)
    requires l.Valid() && NumberedBy(l, num) && WellFormed(Peeled(l, num))
    requires ExitPath(Peeled(l, num), d, q) && !d.Top? && i < |q|
    ensures !q[i].Top?
  {
    if i > 0 {
      BottomStays(l, num, d, q, i - 1);
      StepDown(l, num, q[i - 1], q[i]);
    }
  }

  /** Edges of the top half strictly increase the number, so a path never comes back to a top copy it left. */
  lemma {:induction false} TopsIncrease(l: Loop, num: map<Block, nat>, x: Block, d: Dummy, q: seq<Dummy>, i: nat)
    requires l.Valid() && NumberedBy(l, num) && WellFormed(Peeled(l, num)) && x in l.blocks
    requires ExitPath(Peeled(l, num), d, q) && i < |q|
    requires d.Top? ==> num[x] < num[d.b]
    ensures q[i].Top? ==> num[x] < num[q[i].b]
  {
    if i > 0 {
      TopsIncrease(l, num, x, d, q, i - 1);
      StepDown(l, num, q[i - 1], q[i]);
    }
  }
}
