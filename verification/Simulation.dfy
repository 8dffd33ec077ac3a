/** The relation between the running pipeline and the sequential loop: every thread is somewhere in its projection
    of the one block trace, and registers, channels and memory hold what that position implies. */
module Simulation {
  import opened Ir
  import opened PostDominance
  import opened PeeledLoop
  import opened Slicing
  import opened Plan
  import opened Sequential
  import opened Conflicts
  import opened Trace
  import opened Pipeline

  /** `vis[i]` is the visit of the sequential run that thread `i` is in; `n` when it has returned. */
  ghost predicate Placed(y: System, n: nat, s: State, vis: seq<nat>)
    requires Sound(y, n)
  {
    && |s.threads| == |vis| == |y.p.kept| && |s.queues| == |y.p.chans|
    && (forall i :: 0 <= i < |vis| ==> vis[i] <= n && s.threads[i].block == y.r.Blk(vis[i]))
    && (forall i :: 0 <= i < |vis| && vis[i] == n ==> s.threads[i].pc == 0)
    && (forall i :: 0 <= i < |vis| && vis[i] < n ==>
          y.p.Keeps(i, s.threads[i].block) && s.threads[i].pc < |y.p.Code(i, s.threads[i].block)|)
  }

  /** Thread `i` has executed `op` in its present visit. */
  ghost predicate Did(y: System, s: State, i: nat, op: Op) {
    && i < |s.threads| && s.threads[i].pc <= |y.p.Code(i, s.threads[i].block)|
    && op in y.p.Code(i, s.threads[i].block)[..s.threads[i].pc]
  }

  ghost predicate Past(y: System, s: State, vis: seq<nat>, i: nat, t: nat, op: Op) {
    i < |vis| && (t < vis[i] || (t == vis[i] && Did(y, s, i, op)))
  }

  // ---- registers ----

  ghost predicate OwnReg(y: System, s: State, vis: seq<nat>, i: nat, u: Inst)
    requires y.r.Valid() && i < |vis| == |s.threads|
  {
    SameAt(s.threads[i].regs, y.r.RegAt(vis[i], u, Did(y, s, i, Clone(u))), u)
  }

  ghost predicate CopiedReg(y: System, s: State, vis: seq<nat>, c: nat)
    requires y.r.Valid() && c < |y.p.chans| && y.p.chans[c].to < |vis| == |s.threads|
  {
    var ch := y.p.chans[c];
    SameAt(s.threads[ch.to].regs, y.r.RegAt(vis[ch.to], ch.u, Did(y, s, ch.to, Consume(c))), ch.u)
  }

  ghost predicate RegsHold(y: System, n: nat, s: State, vis: seq<nat>)
    requires Sound(y, n) && Placed(y, n, s, vis)
  {
    && (forall u :: u in y.r.l.parent && !y.r.l.IsTerm(u) ==> OwnReg(y, s, vis, y.p.owner[u], u))
    && (forall c :: 0 <= c < |y.p.chans| && FirstReg(y.p, c) ==> ToThread(y, c) && CopiedReg(y, s, vis, c))
  }

  ghost predicate ToThread(y: System, c: nat) {
    c < |y.p.chans| && y.p.chans[c].to < |y.p.kept|
  }

  // ---- order of the operations in a block ----

  /** What was executed in this visit belongs to the block and is not ranked after the next operation. */
  lemma DidRank(y: System, n: nat, s: State, vis: seq<nat>, i: nat, op: Op)
    requires Sound(y, n) && Placed(y, n, s, vis) && i < |vis| && vis[i] < n && Did(y, s, i, op)
    ensures y.p.Belongs(i, s.threads[i].block, op) && op != OpAt(y, s, i)
    ensures y.p.Belongs(i, s.threads[i].block, OpAt(y, s, i)) && y.p.Rank(op) <= y.p.Rank(OpAt(y, s, i))
  {
    hide GoodBranches, Runs, UsesCovered, ConflictsCovered;
    var b, pc := s.threads[i].block, s.threads[i].pc;
    var ops := y.p.Code(i, b);
    var q :| 0 <= q < pc && ops[q] == op;
    y.p.NotYet(i, b, pc, ops[pc]);
    assert op in ops;
  }

  lemma DidBefore(y: System, n: nat, s: State, vis: seq<nat>, i: nat, op: Op)
    requires Sound(y, n) && Placed(y, n, s, vis) && i < |vis| && vis[i] < n
    requires y.p.Belongs(i, s.threads[i].block, op)
    ensures y.p.Belongs(i, s.threads[i].block, OpAt(y, s, i))
    ensures y.p.Rank(op) < y.p.Rank(OpAt(y, s, i)) ==> Did(y, s, i, op)
  {
    hide GoodBranches, Runs, UsesCovered, ConflictsCovered;
    var b, pc := s.threads[i].block, s.threads[i].pc;
    y.p.NotYet(i, b, pc, y.p.Code(i, b)[pc]);
    if y.p.Rank(op) < y.p.Rank(OpAt(y, s, i)) { y.p.Before(i, b, pc, op); }
  }

  lemma AtCopy(y: System, n: nat, s: State, vis: seq<nat>, i: nat, x: Inst)
    requires Sound(y, n) && Placed(y, n, s, vis) && i < |vis| && vis[i] < n && OpAt(y, s, i) == Clone(x)
    ensures y.p.Shape() && y.p.l == y.r.l && i < |s.threads| && y.p.Belongs(i, s.threads[i].block, Clone(x))
  {
    hide GoodBranches, Runs, UsesCovered, ConflictsCovered, Plan.Belongs, Plan.Rank;
    y.p.NotYet(i, s.threads[i].block, s.threads[i].pc, Clone(x));
  }

  lemma BelongsInside(p: Plan, i: nat, b: Block, x: Inst)
    requires p.Shape() && p.Belongs(i, b, Clone(x))
    ensures x in p.l.parent && p.l.parent[x] == b
  {
  }

  lemma CopyPlaces(p: Plan, i: nat, b: Block, x: Inst, u: Inst)
    requires p.Shape() && p.Belongs(i, b, Clone(x)) && u in p.l.parent && p.owner[u] == i
    ensures p.Belongs(i, b, Clone(u)) <==> p.l.parent[u] == b
    ensures p.Rank(Clone(u)) < p.Rank(Clone(x)) <==> p.l.Idx(u) < p.l.Idx(x)
    ensures p.l.parent[u] == b && p.Rank(Clone(u)) <= p.Rank(Clone(x)) && u != x ==> p.l.Idx(u) < p.l.Idx(x)
  {
  }

  lemma GetPlaces(p: Plan, i: nat, b: Block, x: Inst, c: nat)
    requires p.Shape() && p.Belongs(i, b, Clone(x)) && c < |p.chans| && p.chans[c].to == i
    ensures p.chans[c].u in p.l.parent && (p.Belongs(i, b, Consume(c)) <==> p.l.parent[p.chans[c].u] == b)
    ensures p.l.parent[p.chans[c].u] == b ==>
              (p.Rank(Consume(c)) < p.Rank(Clone(x)) <==> p.l.Idx(p.chans[c].u) <= p.l.Idx(x)) &&
              p.Rank(Consume(c)) != p.Rank(Clone(x))
  {
    var u := p.chans[c].u;
    assert p.chans[c] in p.chans;
    if p.l.parent[u] == b {
      var m := p.NextCloned(i, b, p.l.Idx(u));
      assert p.l.Idx(u) <= p.l.Idx(x) ==> m <= p.l.Idx(x);
    }
  }

  /** When thread `i` comes to the copy of `x`, the own instructions it has executed here are those before `x`. */
  lemma DidClone(y: System, n: nat, s: State, vis: seq<nat>, i: nat, x: Inst, u: Inst)
    requires Sound(y, n) && Placed(y, n, s, vis) && i < |vis| && vis[i] < n && OpAt(y, s, i) == Clone(x)
    requires u in y.r.l.parent && u in y.p.owner && y.p.owner[u] == i
    ensures x in y.r.l.parent && y.r.l.parent[x] == s.threads[i].block
    ensures Did(y, s, i, Clone(u)) <==> y.r.l.parent[u] == s.threads[i].block && y.r.l.Idx(u) < y.r.l.Idx(x)
  {
    hide Sound, Placed, Did;
    AtCopy(y, n, s, vis, i, x);
    var b := s.threads[i].block;
    CopyPlaces(y.p, i, b, x, u);
    BelongsInside(y.p, i, b, x);
    hide Plan.Rank, Plan.Belongs, Plan.Shape, OpAt;
    if Did(y, s, i, Clone(u)) { DidRank(y, n, s, vis, i, Clone(u)); }
    if y.r.l.parent[u] == b { DidBefore(y, n, s, vis, i, Clone(u)); }
  }

  /** Likewise the receives it has executed are those for instructions before `x`: a receive stands right
      before the first copy that follows the instruction it stands for. */
  lemma DidConsume(y: System, n: nat, s: State, vis: seq<nat>, i: nat, x: Inst, c: nat)
    requires Sound(y, n) && Placed(y, n, s, vis) && i < |vis| && vis[i] < n && OpAt(y, s, i) == Clone(x)
    requires c < |y.p.chans| && y.p.chans[c].to == i
    ensures x in y.r.l.parent && y.r.l.parent[x] == s.threads[i].block && y.p.chans[c].u in y.r.l.parent
    ensures Did(y, s, i, Consume(c)) <==>
              y.r.l.parent[y.p.chans[c].u] == s.threads[i].block && y.r.l.Idx(y.p.chans[c].u) <= y.r.l.Idx(x)
  {
    hide Sound, Placed, Did;
    AtCopy(y, n, s, vis, i, x);
    var b := s.threads[i].block;
    GetPlaces(y.p, i, b, x, c);
    BelongsInside(y.p, i, b, x);
    hide Plan.Rank, Plan.Belongs, Plan.Shape, OpAt;
    if Did(y, s, i, Consume(c)) { DidRank(y, n, s, vis, i, Consume(c)); }
    if y.r.l.parent[y.p.chans[c].u] == b { DidBefore(y, n, s, vis, i, Consume(c)); }
  }

  /** Among the channels that bring `u` to thread `to` there is a first one. */
  lemma {:induction false} FirstRegExists(p: Plan, c: nat) returns (d: nat)
    requires c < |p.chans| && p.chans[c].dtype == REG
    ensures d <= c && FirstReg(p, d) && p.chans[d].u == p.chans[c].u && p.chans[d].to == p.chans[c].to
    decreases c
  {
    if FirstReg(p, c) {
      d := c;
    } else {
      var b :| 0 <= b < c && p.chans[b].dtype == REG && p.chans[b].u == p.chans[c].u && p.chans[b].to == p.chans[c].to;
      d := FirstRegExists(p, b);
    }
  }

  lemma UseEdge(y: System, n: nat, x: Inst, u: Inst)
    requires Sound(y, n) && x in y.r.l.parent && u in y.r.m.Uses(x)
    ensures y.p.Shape() && u in y.r.l.parent && !y.r.l.IsTerm(u) && Edge(u, x, REG) in y.edges
    ensures y.p.owner[u] <= y.p.owner[x]
  {
    hide GoodBranches, ConflictsCovered, Runs;
    var e := Edge(u, x, REG);
    assert e in y.edges;
  }

  lemma EdgeChannel(y: System, n: nat, e: Edge, i: nat) returns (c: nat)
    requires Sound(y, n) && e in y.edges && e.u in y.r.l.parent && e.v in y.r.l.parent
    requires y.p.owner[e.u] < i < |y.p.kept| && y.p.HasCopy(i, e.v)
    ensures c < |y.p.chans| && y.p.chans[c] == Channel(e.u, e.v, e.dtype, y.p.owner[e.u], i)
  {
    hide GoodBranches, ConflictsCovered, UsesCovered, Runs;
    assert ChannelFor(y.p, e, i);
    c :| 0 <= c < |y.p.chans| && y.p.chans[c] == Channel(e.u, e.v, e.dtype, y.p.owner[e.u], i);
  }

  /** The channel that brings the operand `u` of a copy of `x` in thread `i`, when `u` is not thread `i`'s own. */
  lemma OperandChannel(y: System, n: nat, i: nat, x: Inst, u: Inst) returns (c: nat)
    requires Sound(y, n) && i < |y.p.kept| && x in y.r.l.parent && y.p.HasCopy(i, x) && y.p.owner[x] <= i
    requires u in y.r.m.Uses(x) && u in y.p.owner && y.p.owner[u] != i
    ensures c < |y.p.chans| && FirstReg(y.p, c) && y.p.chans[c].u == u && y.p.chans[c].to == i
  {
    UseEdge(y, n, x, u);
    hide Sound, Plan.Shape;
    var d := EdgeChannel(y, n, Edge(u, x, REG), i);
    c := FirstRegExists(y.p, d);
  }

  /** What the sequential run has in register `u` when it comes to `x`. */
  lemma SequentialReg(y: System, n: nat, t: nat, x: Inst, u: Inst)
    requires Sound(y, n) && t < n && x in y.r.l.parent && y.r.l.parent[x] == y.r.Blk(t)
    requires u in y.r.l.parent && !y.r.l.IsTerm(u)
    ensures y.r.Blk(t) != y.r.l.exit && y.r.l.Idx(x) <= |y.r.Work(y.r.Blk(t))|
    ensures SameAt(y.r.Mid(t, y.r.l.Idx(x)).regs,
                   y.r.RegAt(t, u, y.r.l.parent[u] == y.r.Blk(t) && y.r.l.Idx(u) < y.r.l.Idx(x)), u)
  {
    y.r.MidReg(t, y.r.l.Idx(x), u);
  }

  /** A copy of `x` reads in thread `i` exactly what `x` reads in the sequential run. */
  lemma OperandRight(y: System, n: nat, s: State, vis: seq<nat>, i: nat, x: Inst, u: Inst)
    requires Sound(y, n) && Placed(y, n, s, vis) && RegsHold(y, n, s, vis)
    requires i < |vis| && vis[i] < n && OpAt(y, s, i) == Clone(x)
    requires x in y.r.l.parent && y.r.l.parent[x] == y.r.Blk(vis[i]) && y.p.owner[x] <= i && u in y.r.m.Uses(x)
    ensures y.r.Blk(vis[i]) != y.r.l.exit && y.r.l.Idx(x) <= |y.r.Work(y.r.Blk(vis[i]))|
    ensures SameAt(s.threads[i].regs, y.r.Mid(vis[i], y.r.l.Idx(x)).regs, u)
  {
    hide GoodBranches, ConflictsCovered, UsesCovered, Machine.Valid, Run.Conf, Run.Mid, Plan.GoodList, Plan.Rank, Did;
    hide Loop.Valid, Plan.Belongs, Plan.GoodCode, FirstReg;
    UseEdge(y, n, x, u);
    SequentialReg(y, n, vis[i], x, u);
    if y.p.owner[u] == i {
      DidClone(y, n, s, vis, i, x, u);
      assert OwnReg(y, s, vis, i, u);
    } else {
      CopyAt(y, n, s, vis, i, x);
      var c := OperandChannel(y, n, i, x, u);
      DidConsume(y, n, s, vis, i, x, c);
      assert CopiedReg(y, s, vis, c);
    }
  }

  lemma CopyAt(y: System, n: nat, s: State, vis: seq<nat>, i: nat, x: Inst)
    requires Sound(y, n) && Placed(y, n, s, vis) && i < |vis| && vis[i] < n && OpAt(y, s, i) == Clone(x)
    ensures x in y.r.l.parent && y.r.l.parent[x] == s.threads[i].block && y.p.HasCopy(i, x)
  {
    hide GoodBranches, ConflictsCovered, UsesCovered, Runs;
    y.p.NotYet(i, s.threads[i].block, s.threads[i].pc, Clone(x));
  }
}
