/** Control dependences (DSWP_1.cpp:8-16, 264-493): the peeled graph is built, and from each branch of it the
    post-dominator tree is climbed up to the nearest common post-dominator of the branch's two ends. */
module ControlDependence {
  import opened Ir
  import opened PostDominance
  import opened PeeledLoop
  import opened DependenceGraph

  /** A climb from some successor of `x` meets `y`. */
  ghost predicate DummyDep(g: Graph<Dummy>, x: Dummy, y: Dummy)
    requires WellFormed(g)
  {
    && x in g.nodes && y in g.nodes && y != DummyExit
    && !PDom(g, y, x)
    && exists s :: s in g.succ[x] && PDom(g, y, s)
  }

  ghost predicate PeeledDep(l: Loop, num: map<Block, nat>, x: Block, y: Block)
    requires l.Valid() && NumberedBy(l, num) && WellFormed(Peeled(l, num))
  {
    exists x', y' :: DummyDep(Peeled(l, num), x', y') && Real(l, x') == x && Real(l, y') == y
  }

  /** Every control dependence of the loop, a branch's dependence on itself included, is one of the peeled graph. */
  lemma ControlDepIsPeeled(l: Loop, num: map<Block, nat>, x: Block, y: Block)
    requires l.Valid() && NumberedBy(l, num) && Usable(LoopGraph(l)) && WellFormed(Peeled(l, num))
    requires ControlDep(LoopGraph(l), x, y) && y != l.exit
    ensures PeeledDep(l, num, x, y)
  {
    var g := LoopGraph(l);
    var s :| s in g.succ[x] && PDom(g, y, s);
    NotAtExit(g, y, s);
    if x == y {
      SelfDep(l, num, x, s);
    } else {
      BottomDep(l, num, x, y, s);
    }
  }

  /** Bottom copies reproduce the loop, so a post-dominator's bottom copy post-dominates there. */
  lemma BottomPDom(l: Loop, num: map<Block, nat>, y: Block, d: Dummy)
    requires l.Valid() && NumberedBy(l, num) && Usable(LoopGraph(l)) && WellFormed(Peeled(l, num))
    requires d in DummyNodes(l) && y in l.blocks && PDom(LoopGraph(l), y, Real(l, d))
    requires !d.Top? || num[y] < num[d.b]
    ensures PDom(Peeled(l, num), Bottom(y), d)
  {
    forall q: seq<Dummy> | ExitPath(Peeled(l, num), d, q) ensures Bottom(y) in q {
      ProjectPath(l, num, d, q);
      var i := Position(Project(l, q), y);
      TopsIncrease(l, num, y, d, q, i);
    }
  }

  lemma BottomDep(l: Loop, num: map<Block, nat>, x: Block, y: Block, s: Block)
    requires l.Valid() && NumberedBy(l, num) && Usable(LoopGraph(l)) && WellFormed(Peeled(l, num))
    requires x in l.blocks && y in l.blocks && x != y && s in l.succ[x] && s in l.blocks
    requires PDom(LoopGraph(l), y, s) && !PDom(LoopGraph(l), y, x)
    ensures PeeledDep(l, num, x, y)
  {
    StepUp(l, num, Bottom(x), s);
    BottomPDom(l, num, y, Bottom(s));
    var p: seq<Block> :| ExitPath(LoopGraph(l), x, p) && y !in p;
    LiftPath(l, num, Bottom(x), p);
    assert Bottom(y) !in Lift(l, num, Bottom(x), p);
    assert DummyDep(Peeled(l, num), Bottom(x), Bottom(y));
  }

  /** Some path leaves `x` for good, so the bottom copy of `x` does not post-dominate the top copy. */
  lemma BottomMissesTop(l: Loop, num: map<Block, nat>, x: Block)
    requires l.Valid() && NumberedBy(l, num) && Usable(LoopGraph(l)) && WellFormed(Peeled(l, num))
    requires x in l.blocks
    ensures !PDom(Peeled(l, num), Bottom(x), Top(x))
  {
    assert x in LoopGraph(l).nodes;
    var p: seq<Block> :| ExitPath(LoopGraph(l), x, p);
    assert p[0] == x;
    var k := LastPosition(p, x);
    var r := p[k..];
    SuffixPath(LoopGraph(l), x, p, k);
    LiftPath(l, num, Top(x), r);
    var q := Lift(l, num, Top(x), r);
    forall i | 0 <= i < |q| ensures q[i] != Bottom(x) {
      if i > 0 { assert r[i] == p[k + i]; }
    }
  }

  /** A branch that decides its own repetition: the top copy depends on the bottom copy. */
  lemma SelfDep(l: Loop, num: map<Block, nat>, x: Block, s: Block)
    requires l.Valid() && NumberedBy(l, num) && Usable(LoopGraph(l)) && WellFormed(Peeled(l, num))
    requires x in l.blocks && s in l.succ[x] && s in l.blocks && PDom(LoopGraph(l), x, s)
    ensures PeeledDep(l, num, x, x)
  {
    StepUp(l, num, Top(x), s);
    BottomPDom(l, num, x, Target(num, Top(x), s));
    BottomMissesTop(l, num, x);
    assert DummyDep(Peeled(l, num), Top(x), Bottom(x));
  }

  lemma ProjectPDom(l: Loop, num: map<Block, nat>, y: Dummy, s: Dummy)
    requires l.Valid() && NumberedBy(l, num) && WellFormed(LoopGraph(l)) && WellFormed(Peeled(l, num))
    requires PDom(Peeled(l, num), y, s)
    ensures PDom(LoopGraph(l), Real(l, y), Real(l, s))
  {
    forall p: seq<Block> | ExitPath(LoopGraph(l), Real(l, s), p) ensures Real(l, y) in p {
      LiftPath(l, num, s, p);
      var i := Position(Lift(l, num, s, p), y);
      assert p[i] == Real(l, y);
    }
  }

  /** Nothing is added without cause: the dependent block post-dominates a successor of the branch. */
  lemma PeeledDepHasBranch(l: Loop, num: map<Block, nat>, x: Block, y: Block)
    requires l.Valid() && NumberedBy(l, num) && WellFormed(LoopGraph(l)) && WellFormed(Peeled(l, num))
    requires PeeledDep(l, num, x, y)
    ensures x in l.blocks && y in l.blocks && exists s :: s in l.succ[x] && PDom(LoopGraph(l), y, s)
  {
    var g := Peeled(l, num);
    var x', y' :| DummyDep(g, x', y') && Real(l, x') == x && Real(l, y') == y;
    var s' :| s' in g.succ[x'] && PDom(g, y', s');
    StepDown(l, num, x', s');
    ProjectPDom(l, num, y', s');
  }

  // ---- exactly which dependences are found ----

  /** The path `p` of the loop rises as far as its place `i`: it runs through blocks of ever larger numbers. */
  ghost predicate Ascends(l: Loop, num: map<Block, nat>, p: seq<Block>, i: nat)
    requires NumberedBy(l, num)
  {
    && i < |p| && (forall j :: 0 <= j <= i ==> p[j] in l.blocks)
    && (forall j, k :: 0 <= j && k == j + 1 && k <= i ==> num[p[j]] < num[p[k]])
  }

  /** Every path from `s` to the exit meets `y` while it rises. */
  ghost predicate Early(l: Loop, num: map<Block, nat>, y: Block, s: Block)
    requires NumberedBy(l, num) && WellFormed(LoopGraph(l))
  {
    forall p: seq<Block> :: ExitPath(LoopGraph(l), s, p) ==> exists i: nat :: i < |p| && p[i] == y && Ascends(l, num, p, i)
  }

  /** Every path from `s` to the exit meets `y` when it no longer rises. */
  ghost predicate Late(l: Loop, num: map<Block, nat>, y: Block, s: Block)
    requires NumberedBy(l, num) && WellFormed(LoopGraph(l))
  {
    forall p: seq<Block> :: ExitPath(LoopGraph(l), s, p) ==> exists i: nat :: i < |p| && p[i] == y && !Ascends(l, num, p, i)
  }

  lemma AscendsTail(l: Loop, num: map<Block, nat>, p: seq<Block>, i: nat)
    requires NumberedBy(l, num) && |p| > 1 && 0 < i < |p| && p[0] in l.blocks
    ensures Ascends(l, num, p, i) <==> p[1] in l.blocks && num[p[0]] < num[p[1]] && Ascends(l, num, p[1..], i - 1)
  {
    var t := p[1..];
    if Ascends(l, num, p, i) {
      forall j, k | 0 <= j && k == j + 1 && k <= i - 1 ensures num[t[j]] < num[t[k]] { assert t[j] == p[j + 1] && t[k] == p[k + 1]; }
    }
    if p[1] in l.blocks && num[p[0]] < num[p[1]] && Ascends(l, num, t, i - 1) {
      forall j | 0 <= j <= i ensures p[j] in l.blocks { if j > 0 { assert p[j] == t[j - 1]; } }
      forall j, k | 0 <= j && k == j + 1 && k <= i ensures num[p[j]] < num[p[k]] {
        if j > 0 { assert p[j] == t[j - 1] && p[k] == t[k - 1]; }
      }
    }
  }

  lemma PathInside(l: Loop, p: seq<Block>)
    requires WellFormed(LoopGraph(l)) && IsPath(LoopGraph(l), p)
    ensures forall b :: b in p ==> b in l.blocks || b == l.exit
  {
    forall b | b in p ensures b in LoopGraph(l).nodes { var k := Position(p, b); }
  }

  lemma OnLoop(l: Loop, p: seq<Block>)
    requires l.Valid() && WellFormed(LoopGraph(l)) && |p| > 1 && p[0] in l.blocks && ExitPath(LoopGraph(l), p[0], p)
    ensures p[1] in l.succ[p[0]] && (p[1] in l.blocks || p[1] == l.exit) && ExitPath(LoopGraph(l), p[1], p[1..])
  {
    SuffixPath(LoopGraph(l), p[0], p, 1);
    assert p[1] in LoopGraph(l).succ[p[0]];
  }

  /** The place of a path in the peeled graph after its first step from `d`. */
  function After(l: Loop, num: map<Block, nat>, d: Dummy, s: Block): Dummy
    requires NumberedBy(l, num) && !d.DummyExit? && d.b in l.blocks && (s in l.blocks || s == l.exit)
  {
    if s == l.exit then DummyExit else Target(num, d, s)
  }

  lemma AfterTop(l: Loop, num: map<Block, nat>, b: Block, s: Block)
    requires NumberedBy(l, num) && b in l.blocks && (s in l.blocks || s == l.exit) && l.exit !in l.blocks
    ensures var c := After(l, num, Top(b), s);
            && (c.Top? <==> s in l.blocks && num[b] < num[s]) && (c.Top? ==> c == Top(s))
            && Real(l, c) == s && c in DummyNodes(l)
  {
  }

  lemma LiftTail(l: Loop, num: map<Block, nat>, d: Dummy, p: seq<Block>)
    requires |p| > 1 && NumberedBy(l, num) && l.exit !in l.blocks && !d.DummyExit? && d.b in l.blocks && d.b == p[0]
    requires forall b :: b in p ==> b in l.blocks || b == l.exit
    ensures p[1] in p && (forall b :: b in p[1..] ==> b in l.blocks || b == l.exit)
    ensures Lift(l, num, d, p) == [d] + Lift(l, num, After(l, num, d, p[1]), p[1..])
  {
  }

  lemma LiftAt(l: Loop, num: map<Block, nat>, d: Dummy, p: seq<Block>, i: nat)
    requires 0 < i < |p| && NumberedBy(l, num) && l.exit !in l.blocks && !d.DummyExit? && d.b in l.blocks && d.b == p[0]
    requires forall b :: b in p ==> b in l.blocks || b == l.exit
    ensures p[1] in p && (forall b :: b in p[1..] ==> b in l.blocks || b == l.exit)
    ensures Lift(l, num, d, p)[i] == Lift(l, num, After(l, num, d, p[1]), p[1..])[i - 1]
  {
    LiftTail(l, num, d, p);
    hide Lift, After;
  }

  lemma ExitOutside(l: Loop)
    requires l.Valid()
    ensures l.exit !in l.blocks
  {
  }

  /** Started in the bottom half a path never comes up. */
  lemma LiftBottom(l: Loop, num: map<Block, nat>, d: Dummy, p: seq<Block>, i: nat)
    requires l.Valid() && NumberedBy(l, num) && WellFormed(LoopGraph(l)) && WellFormed(Peeled(l, num))
    requires d in DummyNodes(l) && !d.Top? && ExitPath(LoopGraph(l), Real(l, d), p) && i < |p|
    ensures l.exit !in l.blocks && forall b :: b in p ==> b in l.blocks || b == l.exit
    ensures !Lift(l, num, d, p)[i].Top?
  {
    hide ExitPath, Peeled, Lift, LoopGraph, WellFormed;
    ExitPathIs(l, Real(l, d), p);
    PathInside(l, p);
    LiftPath(l, num, d, p);
    BottomStays(l, num, d, Lift(l, num, d, p), i);
  }

  lemma ExitPathIs(l: Loop, s: Block, p: seq<Block>)
    requires WellFormed(LoopGraph(l)) && ExitPath(LoopGraph(l), s, p)
    ensures IsPath(LoopGraph(l), p) && |p| > 0 && p[0] == s && p[|p| - 1] == l.exit
  {
  }

  /** Started in the top half, a path is there exactly while it rises. */
  lemma {:induction false} LiftTop(l: Loop, num: map<Block, nat>, p: seq<Block>, i: nat)
    requires l.Valid() && NumberedBy(l, num) && WellFormed(LoopGraph(l)) && WellFormed(Peeled(l, num))
    requires |p| > 0 && p[0] in l.blocks && ExitPath(LoopGraph(l), p[0], p) && i < |p|
    ensures forall b :: b in p ==> b in l.blocks || b == l.exit
    ensures l.exit !in l.blocks && (Lift(l, num, Top(p[0]), p)[i].Top? <==> Ascends(l, num, p, i))
    decreases |p|
  {
    hide ExitPath, Peeled, Lift, LoopGraph, WellFormed, Ascends, Loop.Valid, After, DummyNodes;
    ExitOutside(l);
    ExitPathIs(l, p[0], p);
    PathInside(l, p);
    if i == 0 {
      LiftStart(l, num, p);
    } else {
      OnLoop(l, p);
      AscendsTail(l, num, p, i);
      var next := After(l, num, Top(p[0]), p[1]);
      AfterTop(l, num, p[0], p[1]);
      LiftAt(l, num, Top(p[0]), p, i);
      if next.Top? {
        LiftTop(l, num, p[1..], i - 1);
      } else {
        LiftBottom(l, num, next, p[1..], i - 1);
      }
    }
  }

  lemma LiftStart(l: Loop, num: map<Block, nat>, p: seq<Block>)
    requires |p| > 0 && NumberedBy(l, num) && l.exit !in l.blocks && p[0] in l.blocks
    requires forall b :: b in p ==> b in l.blocks || b == l.exit
    ensures Lift(l, num, Top(p[0]), p)[0].Top? && Ascends(l, num, p, 0)
  {
  }

  /** A step of the peeled graph is determined by the loop's. */
  lemma StepIs(l: Loop, num: map<Block, nat>, d: Dummy, c: Dummy)
    requires l.Valid() && NumberedBy(l, num) && d in DummyNodes(l) && c in DummySucc(l, num, d)
    ensures !d.DummyExit? && d.b in l.blocks && (Real(l, c) in l.blocks || Real(l, c) == l.exit)
    ensures c == After(l, num, d, Real(l, c))
  {
    DummySuccMembers(l, num, d, c);
  }

  lemma PeeledStep(l: Loop, num: map<Block, nat>, d: Dummy, q: seq<Dummy>)
    requires l.Valid() && NumberedBy(l, num) && WellFormed(Peeled(l, num)) && ExitPath(Peeled(l, num), d, q)
    ensures |q| > 0 && q[0] == d && d in DummyNodes(l)
    ensures |q| > 1 ==>
              q[1] in DummyNodes(l) && q[1] in DummySucc(l, num, d) && ExitPath(Peeled(l, num), q[1], q[1..])
  {
    hide DummySucc;
    if |q| > 1 {
      assert q[1] in Peeled(l, num).succ[q[0]];
      SuffixPath(Peeled(l, num), d, q, 1);
    }
  }

  /** Every path of the peeled graph is the lift of the path of the loop that it projects to. */
  lemma {:induction false} PathLifted(l: Loop, num: map<Block, nat>, d: Dummy, q: seq<Dummy>)
    requires l.Valid() && NumberedBy(l, num) && WellFormed(LoopGraph(l)) && WellFormed(Peeled(l, num))
    requires d in DummyNodes(l) && ExitPath(Peeled(l, num), d, q)
    ensures l.exit !in l.blocks && |q| > 0 && q[0] == d && |Project(l, q)| == |q| && Project(l, q)[0] == Real(l, d)
    ensures forall b :: b in Project(l, q) ==> b in l.blocks || b == l.exit
    ensures q == Lift(l, num, d, Project(l, q))
    decreases |q|
  {
    hide ExitPath, Peeled, LoopGraph, WellFormed, DummySucc, Lift;
    PeeledStep(l, num, d, q);
    ProjectPath(l, num, d, q);
    var p := Project(l, q);
    ExitPathIs(l, Real(l, d), p);
    PathInside(l, p);
    if |q| == 1 {
      LiftOne(l, num, d, p);
    } else {
      StepIs(l, num, d, q[1]);
      PathLifted(l, num, q[1], q[1..]);
      LiftTail(l, num, d, p);
      assert p[1..] == Project(l, q[1..]);
    }
  }

  lemma LiftOne(l: Loop, num: map<Block, nat>, d: Dummy, p: seq<Block>)
    requires |p| == 1 && NumberedBy(l, num) && l.exit !in l.blocks && Real(l, d) == p[0] && (d.DummyExit? || d.b in l.blocks)
    requires forall b :: b in p ==> b in l.blocks || b == l.exit
    ensures Lift(l, num, d, p) == [d]
  {
  }

  /** The copies of `y` that a path meets, started in the top half. */
  lemma MeetsCopy(l: Loop, num: map<Block, nat>, y: Block, p: seq<Block>)
    requires l.Valid() && NumberedBy(l, num) && WellFormed(LoopGraph(l)) && WellFormed(Peeled(l, num))
    requires |p| > 0 && p[0] in l.blocks && ExitPath(LoopGraph(l), p[0], p) && y in l.blocks
    ensures l.exit !in l.blocks && forall b :: b in p ==> b in l.blocks || b == l.exit
    ensures Top(y) in Lift(l, num, Top(p[0]), p) <==> exists i: nat :: i < |p| && p[i] == y && Ascends(l, num, p, i)
    ensures Bottom(y) in Lift(l, num, Top(p[0]), p) <==> exists i: nat :: i < |p| && p[i] == y && !Ascends(l, num, p, i)
  {
    hide ExitPath, Peeled, LoopGraph, WellFormed, Lift, Ascends;
    LiftTop(l, num, p, 0);
    var q := Lift(l, num, Top(p[0]), p);
    forall i: nat | i < |p| ensures Real(l, q[i]) == p[i] && (q[i].Top? <==> Ascends(l, num, p, i)) { LiftTop(l, num, p, i); }
    if Top(y) in q { var k := Position(q, Top(y)); }
    if Bottom(y) in q { var k := Position(q, Bottom(y)); }
  }

  lemma LiftExits(l: Loop, num: map<Block, nat>, s: Block, p: seq<Block>)
    requires l.Valid() && NumberedBy(l, num) && WellFormed(LoopGraph(l)) && WellFormed(Peeled(l, num))
    requires s in l.blocks && ExitPath(LoopGraph(l), s, p)
    ensures |p| > 0 && p[0] == s && l.exit !in l.blocks && forall b :: b in p ==> b in l.blocks || b == l.exit
    ensures ExitPath(Peeled(l, num), Top(s), Lift(l, num, Top(s), p))
  {
    hide ExitPath, Peeled, LoopGraph, WellFormed, Lift;
    ExitPathIs(l, s, p);
    PathInside(l, p);
    LiftPath(l, num, Top(s), p);
  }

  /** What a top copy is post-dominated by, read off the loop's paths. */
  lemma TopMeets(l: Loop, num: map<Block, nat>, y: Block, s: Block)
    requires l.Valid() && NumberedBy(l, num) && WellFormed(LoopGraph(l)) && WellFormed(Peeled(l, num))
    requires s in l.blocks && y in l.blocks
    ensures PDom(Peeled(l, num), Top(y), Top(s)) <==> Early(l, num, y, s)
    ensures PDom(Peeled(l, num), Bottom(y), Top(s)) <==> Late(l, num, y, s)
  {
    var g := Peeled(l, num);
    assert Top(y) in g.nodes && Bottom(y) in g.nodes && Top(s) in g.nodes;
    hide ExitPath, Peeled, LoopGraph, WellFormed, Lift, Ascends;
    forall p: seq<Block> | ExitPath(LoopGraph(l), s, p)
      ensures PDom(g, Top(y), Top(s)) ==> exists i: nat :: i < |p| && p[i] == y && Ascends(l, num, p, i)
      ensures PDom(g, Bottom(y), Top(s)) ==> exists i: nat :: i < |p| && p[i] == y && !Ascends(l, num, p, i)
    {
      LiftExits(l, num, s, p);
      MeetsCopy(l, num, y, p);
    }
    forall q: seq<Dummy> | ExitPath(g, Top(s), q)
      ensures Early(l, num, y, s) ==> Top(y) in q
      ensures Late(l, num, y, s) ==> Bottom(y) in q
    {
      var p := Project(l, q);
      PathLifted(l, num, Top(s), q);
      ProjectPath(l, num, Top(s), q);
      MeetsCopy(l, num, y, p);
    }
  }

  /** The bottom half is the loop itself. */
  lemma BottomMeets(l: Loop, num: map<Block, nat>, y: Block, s: Block)
    requires l.Valid() && NumberedBy(l, num) && Usable(LoopGraph(l)) && WellFormed(LoopGraph(l)) && WellFormed(Peeled(l, num))
    requires s in l.blocks && y in l.blocks
    ensures PDom(Peeled(l, num), Bottom(y), Bottom(s)) <==> PDom(LoopGraph(l), y, s)
    ensures !PDom(Peeled(l, num), Top(y), Bottom(s))
  {
    if PDom(LoopGraph(l), y, s) { BottomPDom(l, num, y, Bottom(s)); }
    if PDom(Peeled(l, num), Bottom(y), Bottom(s)) { ProjectPDom(l, num, Bottom(y), Bottom(s)); }
    assert s in LoopGraph(l).nodes;
    var p: seq<Block> :| ExitPath(LoopGraph(l), s, p);
    LiftPath(l, num, Bottom(s), p);
    NoTops(l, num, y, Bottom(s), Lift(l, num, Bottom(s), p));
  }

  lemma NoTops(l: Loop, num: map<Block, nat>, y: Block, d: Dummy, q: seq<Dummy>)
    requires l.Valid() && NumberedBy(l, num) && WellFormed(Peeled(l, num)) && !d.Top? && ExitPath(Peeled(l, num), d, q)
    ensures !PDom(Peeled(l, num), Top(y), d)
  {
    hide Peeled, WellFormed;
    if PDom(Peeled(l, num), Top(y), d) {
      var i := Position(q, Top(y));
      BottomStays(l, num, d, q, i);
    }
  }

  /** What the branch of `x` decides about `y` through its successor `s`: in a pass over the whole loop; in a first pass that
      only rises, while it rises or after; or, `s` not being a larger block, after that first pass has ended. */
  ghost predicate Decided(l: Loop, num: map<Block, nat>, x: Block, y: Block, s: Block)
    requires NumberedBy(l, num) && WellFormed(LoopGraph(l)) && x in num && s in num
  {
    || (PDom(LoopGraph(l), y, s) && !PDom(LoopGraph(l), y, x))
    || (num[x] < num[s] && Early(l, num, y, s) && !Early(l, num, y, x))
    || (num[x] < num[s] && Late(l, num, y, s) && !Late(l, num, y, x))
    || (num[s] <= num[x] && PDom(LoopGraph(l), y, s) && !Late(l, num, y, x))
  }

  /** The dependences found, said of the loop's own paths. */
  ghost predicate LoopDep(l: Loop, num: map<Block, nat>, x: Block, y: Block)
    requires l.Valid() && NumberedBy(l, num) && WellFormed(LoopGraph(l))
  {
    x in l.blocks && y in l.blocks && exists s :: s in l.succ[x] && s in l.blocks && Decided(l, num, x, y, s)
  }

  /** A dependence from a copy of `x` to a copy of `y` through a copy of `s` is one of the four. */
  lemma CopyDecides(l: Loop, num: map<Block, nat>, d: Dummy, c: Dummy, e: Dummy)
    requires l.Valid() && NumberedBy(l, num) && Usable(LoopGraph(l)) && WellFormed(LoopGraph(l)) && WellFormed(Peeled(l, num))
    requires !d.DummyExit? && !c.DummyExit? && !e.DummyExit? && d.b in l.blocks && c.b in l.blocks && e.b in l.blocks
    requires c in DummySucc(l, num, d) && PDom(Peeled(l, num), e, c) && !PDom(Peeled(l, num), e, d)
    ensures c.b in l.succ[d.b] && Decided(l, num, d.b, e.b, c.b)
  {
    hide PDom, Early, Late, WellFormed, Peeled, LoopGraph, Usable, DummySucc, Loop.Valid;
    StepDown(l, num, d, c);
    EdgeCopies(l, num, d.b, c.b);
    TopMeets(l, num, e.b, d.b);
    TopMeets(l, num, e.b, c.b);
    BottomMeets(l, num, e.b, d.b);
    BottomMeets(l, num, e.b, c.b);
  }

  /** Conversely each of the four is a dependence between copies. */
  lemma DecidedCopies(l: Loop, num: map<Block, nat>, x: Block, y: Block, s: Block) returns (d: Dummy, c: Dummy, e: Dummy)
    requires l.Valid() && NumberedBy(l, num) && Usable(LoopGraph(l)) && WellFormed(LoopGraph(l)) && WellFormed(Peeled(l, num))
    requires x in l.blocks && y in l.blocks && s in l.succ[x] && s in l.blocks && Decided(l, num, x, y, s)
    ensures !d.DummyExit? && !c.DummyExit? && !e.DummyExit? && d.b == x && c.b == s && e.b == y
    ensures c in DummySucc(l, num, d) && PDom(Peeled(l, num), e, c) && !PDom(Peeled(l, num), e, d)
  {
    hide PDom, Early, Late, WellFormed, Peeled, LoopGraph, Usable, DummySucc, Loop.Valid;
    EdgeCopies(l, num, x, s);
    TopMeets(l, num, y, x);
    TopMeets(l, num, y, s);
    BottomMeets(l, num, y, x);
    BottomMeets(l, num, y, s);
    if PDom(LoopGraph(l), y, s) && !PDom(LoopGraph(l), y, x) {
      d, c, e := Bottom(x), Bottom(s), Bottom(y);
    } else if num[s] <= num[x] {
      d, c, e := Top(x), Bottom(s), Bottom(y);
    } else if Early(l, num, y, s) && !Early(l, num, y, x) {
      d, c, e := Top(x), Top(s), Top(y);
    } else {
      d, c, e := Top(x), Top(s), Bottom(y);
    }
  }

  /** Exactly which dependences the peeled graph has, in terms of the loop and the numbering alone. */
  lemma PeeledDepIff(l: Loop, num: map<Block, nat>, x: Block, y: Block)
    requires l.Valid() && NumberedBy(l, num) && Usable(LoopGraph(l)) && WellFormed(LoopGraph(l)) && WellFormed(Peeled(l, num))
    requires x in l.blocks && y in l.blocks
    ensures PeeledDep(l, num, x, y) <==> LoopDep(l, num, x, y)
  {
    hide Decided, PDom, WellFormed, Usable, LoopGraph, Peeled, DummySucc, DummyNodes;
    if PeeledDep(l, num, x, y) {
      var d, e :| DummyDep(Peeled(l, num), d, e) && Real(l, d) == x && Real(l, e) == y;
      var c := DepStep(l, num, d, e);
      CopyDecides(l, num, d, c, e);
    }
    if LoopDep(l, num, x, y) {
      var s :| s in l.succ[x] && s in l.blocks && Decided(l, num, x, y, s);
      var d, c, e := DecidedCopies(l, num, x, y, s);
      StepDep(l, num, d, c, e);
    }
  }

  lemma DepStep(l: Loop, num: map<Block, nat>, d: Dummy, e: Dummy) returns (c: Dummy)
    requires l.Valid() && NumberedBy(l, num) && WellFormed(LoopGraph(l)) && WellFormed(Peeled(l, num))
    requires DummyDep(Peeled(l, num), d, e)
    ensures !d.DummyExit? && !c.DummyExit? && !e.DummyExit? && d.b in l.blocks && c.b in l.blocks && e.b in l.blocks
    ensures c in DummySucc(l, num, d) && PDom(Peeled(l, num), e, c) && !PDom(Peeled(l, num), e, d)
  {
    hide DummySucc;
    var g := Peeled(l, num);
    c :| c in g.succ[d] && PDom(g, e, c);
    StepDown(l, num, d, c);
    NotAtExit(g, e, c);
  }

  lemma StepDep(l: Loop, num: map<Block, nat>, d: Dummy, c: Dummy, e: Dummy)
    requires l.Valid() && NumberedBy(l, num) && WellFormed(Peeled(l, num))
    requires !d.DummyExit? && !e.DummyExit? && d.b in l.blocks && e.b in l.blocks
    requires c in DummySucc(l, num, d) && PDom(Peeled(l, num), e, c) && !PDom(Peeled(l, num), e, d)
    ensures DummyDep(Peeled(l, num), d, e)
  {
    hide DummySucc, PDom;
    assert d in DummyNodes(l) && e in DummyNodes(l);
  }

  /** A branch back, or to itself, from which the loop can be left by a path that only rises: whatever post-dominates where it
      leads is found to depend on it, though it need not be control dependent on it. */
  lemma BackDep(l: Loop, num: map<Block, nat>, x: Block, y: Block, s: Block, p: seq<Block>)
    requires l.Valid() && NumberedBy(l, num) && Usable(LoopGraph(l)) && WellFormed(LoopGraph(l)) && WellFormed(Peeled(l, num))
    requires x in l.blocks && y in l.blocks && s in l.succ[x] && s in l.blocks && num[s] <= num[x] && PDom(LoopGraph(l), y, s)
    requires ExitPath(LoopGraph(l), x, p) && (|p| > 1 ==> Ascends(l, num, p, |p| - 2))
    ensures PeeledDep(l, num, x, y)
  {
    forall i: nat | i < |p| && p[i] == y ensures Ascends(l, num, p, i) {}
    assert !Late(l, num, y, x);
    hide Late, Ascends;
    assert Decided(l, num, x, y, s);
    PeeledDepIff(l, num, x, y);
  }
}
