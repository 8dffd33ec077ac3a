/** The step by which a thread leaves a block: it lands on the next block it keeps of the sequential trace. */
module BlockEnd {
  import opened Ir
  import opened PostDominance
  import opened PeeledLoop
  import opened Slicing
  import opened Plan
  import opened Sequential
  import opened Conflicts
  import opened Trace
  import opened Pipeline
  import opened Simulation
  import opened Channels
  import opened Execution
  import opened Steps

  /** Thread `i` stands at the copy of its block's terminator. */
  ghost predicate Leaving(y: System, n: nat, s: State, vis: seq<nat>, i: nat) {
    Sound(y, n) && Placed(y, n, s, vis) && i < |vis| && vis[i] < n && AtTerm(y, s, i)
  }

  lemma LeavingFacts(y: System, n: nat, s: State, vis: seq<nat>, i: nat)
    requires Leaving(y, n, s, vis, i)
    ensures y.r.Valid() && y.p.Shape() && |vis| == |s.threads| == |y.p.kept|
    ensures s.threads[i].block == y.r.Blk(vis[i]) && y.r.Blk(vis[i]) in y.r.l.blocks && y.p.Keeps(i, y.r.Blk(vis[i]))
    ensures OpAt(y, s, i) == Clone(y.r.l.Term(y.r.Blk(vis[i]))) && vis[i] < n
  {
    OpFacts(y, n, s, vis, i);
    hide GoodBranches, UsesCovered, ConflictsCovered, Run.Conf, Plan.GoodList;
  }

  /** By then everything else that belongs to the block has been executed. */
  lemma LeavingDid(y: System, n: nat, s: State, vis: seq<nat>, i: nat, op: Op)
    requires Leaving(y, n, s, vis, i) && y.p.Shape() && y.p.Belongs(i, y.r.Blk(vis[i]), op)
    requires y.r.Blk(vis[i]) in y.r.l.blocks && op != Clone(y.r.l.Term(y.r.Blk(vis[i])))
    ensures Did(y, s, i, op)
  {
    LeavingFacts(y, n, s, vis, i);
    hide GoodBranches, UsesCovered, ConflictsCovered, Runs, Did, Plan.Belongs, Plan.Rank;
    y.p.RankBelowTerm(i, y.r.Blk(vis[i]), op);
    DidBefore(y, n, s, vis, i, op);
  }

  // ---- the next visit of a kept block ----

  /** The first visit not before `t` whose block thread `i` keeps, or `n`. */
  ghost function NextKept(y: System, n: nat, i: nat, t: nat): (t': nat)
    requires y.r.Valid() && t <= n
    ensures t <= t' <= n && (t' < n ==> y.p.Keeps(i, y.r.Blk(t')))
    ensures forall k :: t <= k < t' ==> !y.p.Keeps(i, y.r.Blk(k))
    decreases n - t
  {
    if t == n || y.p.Keeps(i, y.r.Blk(t)) then t else NextKept(y, n, i, t + 1)
  }

  ghost function Blocks(r: Run, t: nat, t': nat): (p: seq<Block>)
    requires r.Valid() && t <= t'
    ensures |p| == t' - t + 1 && forall k :: 0 <= k < |p| ==> p[k] == r.Blk(t + k)
  {
    seq<Block>(t' - t + 1, k requires 0 <= k < t' - t + 1 => r.Blk(t + k))
  }

  lemma TraceStep(r: Run, n: nat, t: nat)
    requires Runs(r, n) && t < n
    ensures r.Blk(t) in r.l.blocks && r.Blk(t) != r.l.exit && r.Blk(t + 1) in r.l.succ[r.Blk(t)]
    ensures r.Blk(t + 1) in LoopGraph(r.l).nodes && r.Blk(t) in LoopGraph(r.l).nodes
  {
    r.NextVisit(t);
  }

  /** The visited blocks are a path of the loop's graph. */
  lemma TracePath(r: Run, n: nat, t: nat, t': nat)
    requires Runs(r, n) && t <= t' <= n && WellFormed(LoopGraph(r.l)) && r.Blk(t) in LoopGraph(r.l).nodes
    ensures IsPath(LoopGraph(r.l), Blocks(r, t, t'))
  {
    hide Run.Conf, Machine.Valid;
    var p := Blocks(r, t, t');
    forall k | 0 <= k < |p| ensures p[k] in LoopGraph(r.l).nodes { if k > 0 { TraceStep(r, n, t + k - 1); } }
    forall k, k' | 0 <= k && k' == k + 1 && k' < |p| ensures p[k] != r.l.exit && p[k'] in LoopGraph(r.l).succ[p[k]] { TraceStep(r, n, t + k); }
  }

  lemma KeptFacts(y: System, n: nat, i: nat)
    requires Sound(y, n) && i < |y.p.kept|
    ensures Usable(LoopGraph(y.r.l)) && IsIPDom(LoopGraph(y.r.l), y.ip) && ControlClosed(LoopGraph(y.r.l), y.p.kept[i])
    ensures Runs(y.r, n) && LoopGraph(y.r.l).exit == y.r.l.exit
  {
    hide GoodPlan, UsesCovered, ConflictsCovered, Runs;
  }

  lemma NoneBetween(y: System, n: nat, i: nat, t: nat)
    requires Runs(y.r, n) && i < |y.p.kept| && t <= n
    ensures var p := Blocks(y.r, t, NextKept(y, n, i, t));
            && (p[|p| - 1] in y.p.kept[i] || p[|p| - 1] == y.r.l.exit)
            && p[0] == y.r.Blk(t) && p[|p| - 1] == y.r.Blk(NextKept(y, n, i, t))
            && forall k :: 0 <= k < |p| - 1 ==> p[k] !in y.p.kept[i] && p[k] != y.r.l.exit
  {
    hide Run.Conf, Run.Valid;
  }

  /** Climbing from the block the sequential loop goes to ends at the next kept block of the trace. */
  lemma ClimbIsNext(y: System, n: nat, i: nat, t: nat)
    requires Sound(y, n) && i < |y.p.kept| && t < n && y.r.Valid() && Usable(LoopGraph(y.r.l))
    requires IsIPDom(LoopGraph(y.r.l), y.ip)
    ensures y.r.Blk(t + 1) in LoopGraph(y.r.l).nodes
    ensures Climb(LoopGraph(y.r.l), y.ip, y.p.kept[i], y.r.Blk(t + 1)) == y.r.Blk(NextKept(y, n, i, t + 1))
  {
    KeptFacts(y, n, i);
    hide Sound, Run.Conf, Usable, IsIPDom, ControlClosed, LoopGraph, Machine.Valid, Climb;
    TraceStep(y.r, n, t);
    var t' := NextKept(y, n, i, t + 1);
    assert WellFormed(LoopGraph(y.r.l)) by { UsableFormed(LoopGraph(y.r.l)); }
    TracePath(y.r, n, t + 1, t');
    NoneBetween(y, n, i, t + 1);
    hide NextKept, Run.Blk;
    Projection(LoopGraph(y.r.l), y.ip, y.p.kept[i], Blocks(y.r, t + 1, t'));
  }

  // ---- which way the copy of the branch goes ----

  /** The copy of a branch decides as the branch does, or it has one target. */
  lemma NextTarget(targets: seq<Block>, choice: nat, exit: Block, j: nat)
    requires j < |targets| && (choice == j || forall t :: t in targets ==> t == targets[0])
    ensures Next(targets, choice, exit) == targets[j]
  {
    assert targets[j] in targets;
    if choice != j { assert forall k :: 0 <= k < |targets| ==> targets[k] in targets; }
  }

  /** The sequential decision at the end of visit `t`. */
  ghost function Choice(r: Run, t: nat): (j: nat)
    requires r.Valid() && r.Blk(t) in r.l.blocks
    ensures j < |r.l.succ[r.Blk(t)]| && r.Blk(t + 1) == r.l.succ[r.Blk(t)][j]
  {
    r.NextVisit(t);
    r.m.choose(r.l.Term(r.Blk(t)), r.m.Operands(r.l.Term(r.Blk(t)), r.At(t + 1).regs))
  }

  lemma TermFacts(r: Run, n: nat, t: nat)
    requires Runs(r, n) && t < n
    ensures r.Blk(t) in r.l.blocks && r.Blk(t) != r.l.exit
    ensures var x := r.l.Term(r.Blk(t));
            x in r.l.parent && r.l.parent[x] == r.Blk(t) && r.l.Idx(x) == |r.Work(r.Blk(t))| &&
            r.Mid(t, r.l.Idx(x)) == r.At(t + 1)
  {
    r.NextVisit(t);
    r.l.IdxIs(r.Blk(t), |r.l.body[r.Blk(t)]| - 1);
  }

  /** A branch whose terminator is owned by no later thread finds its operands as the sequential loop has them. */
  lemma DecidesRight(y: System, n: nat, s: State, vis: seq<nat>, i: nat)
    requires Leaving(y, n, s, vis, i) && RegsHold(y, n, s, vis)
    requires y.r.Blk(vis[i]) in y.r.l.blocks
    requires y.r.l.Term(y.r.Blk(vis[i])) in y.p.owner && y.p.owner[y.r.l.Term(y.r.Blk(vis[i]))] <= i
    ensures var x := y.r.l.Term(y.r.Blk(vis[i]));
            y.r.m.choose(x, y.r.m.Operands(x, s.threads[i].regs)) == Choice(y.r, vis[i])
  {
    LeavingFacts(y, n, s, vis, i);
    TermFacts(y.r, n, vis[i]);
    var x := y.r.l.Term(y.r.Blk(vis[i]));
    hide GoodPlan, GoodBranches, UsesCovered, ConflictsCovered, Run.Conf, RegsHold, Placed, Run.Mid, AtTerm;
    forall u | u in y.r.m.Uses(x) ensures SameAt(s.threads[i].regs, y.r.At(vis[i] + 1).regs, u) {
      OperandRight(y, n, s, vis, i, x, u);
    }
    y.r.m.OperandsAgree(x, s.threads[i].regs, y.r.At(vis[i] + 1).regs);
  }

  lemma BranchFacts(y: System, n: nat, i: nat, b: Block, j: nat)
    requires Sound(y, n) && y.p.Shape() && y.p.Keeps(i, b) && b in y.r.l.blocks && j < |y.r.l.succ[b]|
    ensures Usable(LoopGraph(y.r.l)) && IsIPDom(LoopGraph(y.r.l), y.ip) && y.r.l.succ[b][j] in LoopGraph(y.r.l).nodes
    ensures j < |y.p.Targets(i, b)|
    ensures y.p.Targets(i, b)[j] == Climb(LoopGraph(y.r.l), y.ip, y.p.kept[i], y.r.l.succ[b][j])
    ensures y.r.l.Term(b) in y.p.owner
    ensures y.p.owner[y.r.l.Term(b)] <= i || forall t :: t in y.p.Targets(i, b) ==> t == y.p.Targets(i, b)[0]
  {
    y.r.l.IdxIs(b, |y.r.l.body[b]| - 1);
    hide UsesCovered, ConflictsCovered, Runs, Climb, ControlClosed, Plan.GoodCode;
  }

  /** So the thread lands on the next block it keeps. */
  lemma LandsRight(y: System, n: nat, s: State, vis: seq<nat>, i: nat)
    requires Leaving(y, n, s, vis, i) && RegsHold(y, n, s, vis) && y.r.Valid() && y.r.Blk(vis[i]) in y.r.l.blocks
    ensures var x := y.r.l.Term(y.r.Blk(vis[i]));
            Next(y.p.Targets(i, y.r.Blk(vis[i])), y.r.m.choose(x, y.r.m.Operands(x, s.threads[i].regs)), y.r.l.exit) ==
            y.r.Blk(NextKept(y, n, i, vis[i] + 1))
  {
    hide RegsHold, AtTerm, Run.Conf, Usable, IsIPDom, GoodPlan, GoodBranches, UsesCovered, ConflictsCovered, Climb;
    hide Placed, Runs, Machine.Valid;
    LeavingFacts(y, n, s, vis, i);
    var b, j := y.r.Blk(vis[i]), Choice(y.r, vis[i]);
    BranchFacts(y, n, i, b, j);
    ClimbIsNext(y, n, i, vis[i]);
    if y.p.owner[y.r.l.Term(b)] <= i { DecidesRight(y, n, s, vis, i); }
    NextTarget(y.p.Targets(i, b), y.r.m.choose(y.r.l.Term(b), y.r.m.Operands(y.r.l.Term(b), s.threads[i].regs)), y.r.l.exit, j);
  }

  // ---- the relation at the next visit ----

  /** Thread `i` has gone from the end of its visit to the start of its next kept one. */
  ghost predicate Left(y: System, n: nat, s: State, s': State, vis: seq<nat>, vis': seq<nat>, i: nat) {
    && y.r.Valid() && i < |vis| == |s.threads| && vis[i] < n && vis' == vis[i := NextKept(y, n, i, vis[i] + 1)]
    && s' == s.(threads := s.threads[i := Thread(y.r.Blk(NextKept(y, n, i, vis[i] + 1)), 0, s.threads[i].regs)])
  }

  lemma LeftPlaced(y: System, n: nat, s: State, s': State, vis: seq<nat>, vis': seq<nat>, i: nat)
    requires Leaving(y, n, s, vis, i) && Left(y, n, s, s', vis, vis', i)
    ensures Placed(y, n, s', vis')
  {
    hide GoodPlan, GoodBranches, UsesCovered, ConflictsCovered, Runs, Run.Conf, Run.Valid, Run.Blk, AtTerm, Plan.Code;
    SystemFacts(y, n, s, vis);
    var t' := NextKept(y, n, i, vis[i] + 1);
    CodeNonempty(y, n, i, y.r.Blk(t'));
  }

  lemma CodeNonempty(y: System, n: nat, i: nat, b: Block)
    requires Sound(y, n)
    ensures y.p.Keeps(i, b) ==> |y.p.Code(i, b)| > 0
  {
    hide GoodBranches, UsesCovered, ConflictsCovered, Plan.GoodList, Plan.Code, Runs;
    if y.p.Keeps(i, b) { y.p.TermLast(i, b); }
  }

  lemma LeftDid(y: System, n: nat, s: State, s': State, vis: seq<nat>, vis': seq<nat>, i: nat, j: nat, op: Op)
    requires Left(y, n, s, s', vis, vis', i)
    ensures j != i ==> (Did(y, s', j, op) <==> Did(y, s, j, op))
    ensures !Did(y, s', i, op)
  {
    hide NextKept, Run.Valid;
  }

  /** What is executed in a visit is, at its end, everything that belongs to its block. */
  lemma LeavingDidIff(y: System, n: nat, s: State, vis: seq<nat>, i: nat, op: Op)
    requires Leaving(y, n, s, vis, i) && y.r.Valid() && y.p.Shape() && y.r.Blk(vis[i]) in y.r.l.blocks
    requires op != Clone(y.r.l.Term(y.r.Blk(vis[i])))
    ensures Did(y, s, i, op) <==> y.p.Belongs(i, y.r.Blk(vis[i]), op)
  {
    hide Sound, Placed, AtTerm, Did, Plan.Belongs;
    if y.p.Belongs(i, y.r.Blk(vis[i]), op) { LeavingDid(y, n, s, vis, i, op); }
    if Did(y, s, i, op) { DidBelongs(y, n, s, vis, i, op); }
  }

  /** Registers of instructions outside the visited blocks do not change. */
  lemma {:induction false} RegCarried(r: Run, n: nat, t: nat, t': nat, u: Inst)
    requires Runs(r, n) && t <= t' <= n && u in r.l.parent && !r.l.IsTerm(u)
    requires forall k :: t <= k < t' ==> r.Blk(k) != r.l.parent[u]
    ensures SameAt(r.At(t).regs, r.At(t').regs, u)
    decreases t' - t
  {
    hide Run.Conf, Run.Mid, Machine.Valid, Run.Blk, Run.At, Loop.Valid, Loop.IsTerm;
    if t < t' {
      RegCarried(r, n, t, t' - 1, u);
      VisitFrame(r, n, t' - 1, u);
    }
  }

  /** A visit to another block leaves the register alone. */
  lemma VisitFrame(r: Run, n: nat, t: nat, u: Inst)
    requires Runs(r, n) && t < n && u in r.l.parent && !r.l.IsTerm(u) && r.Blk(t) != r.l.parent[u]
    ensures SameAt(r.At(t).regs, r.At(t + 1).regs, u)
  {
    hide Run.Conf, Run.Mid, Machine.Valid, Run.Blk, Run.Work, Loop.Valid, Loop.IsTerm, Run.At;
    TermFacts(r, n, t);
    r.NextVisit(t);
    r.MidReg(t, |r.Work(r.Blk(t))|, u);
  }

  lemma RegAtEnd(r: Run, n: nat, t: nat, u: Inst)
    requires Runs(r, n) && t < n && u in r.l.parent && !r.l.IsTerm(u)
    ensures SameAt(r.RegAt(t, u, r.l.parent[u] == r.Blk(t)), r.At(t + 1).regs, u)
  {
    hide Run.Conf, Machine.Valid, Run.Mid, Run.Blk, Run.Work, Run.At, Loop.IsTerm, Loop.Valid;
    TermFacts(r, n, t);
    if r.l.parent[u] != r.Blk(t) { RegCarried(r, n, t, t + 1, u); }
  }

  /** A register of an instruction of a kept block, across the end of a visit and the visits skipped. */
  lemma RegAtNext(y: System, n: nat, i: nat, t: nat, u: Inst)
    requires Runs(y.r, n) && t < n && u in y.r.l.parent && !y.r.l.IsTerm(u) && y.p.Keeps(i, y.r.l.parent[u])
    ensures SameAt(y.r.RegAt(t, u, y.r.l.parent[u] == y.r.Blk(t)), y.r.At(NextKept(y, n, i, t + 1)).regs, u)
  {
    hide Run.Conf, Run.Valid, Run.Mid, Run.Blk, Run.At, Run.RegAt, Loop.IsTerm, Plan.Keeps;
    RegAtEnd(y.r, n, t, u);
    RegCarried(y.r, n, t + 1, NextKept(y, n, i, t + 1), u);
  }

  lemma OwnerKeeps(y: System, n: nat, u: Inst)
    requires Sound(y, n) && u in y.r.l.parent
    ensures u in y.p.owner && y.p.Shape() && y.p.Keeps(y.p.owner[u], y.r.l.parent[u])
  {
    hide GoodBranches, UsesCovered, ConflictsCovered, Runs, Plan.GoodList;
  }

  /** A register of the leaving thread. */
  lemma RegLeft(y: System, n: nat, s: State, s': State, vis: seq<nat>, vis': seq<nat>, i: nat, u: Inst, op: Op)
    requires Runs(y.r, n) && u in y.r.l.parent && !y.r.l.IsTerm(u) && y.p.Keeps(i, y.r.l.parent[u])
    requires Left(y, n, s, s', vis, vis', i) && (Did(y, s, i, op) <==> y.r.l.parent[u] == y.r.Blk(vis[i]))
    requires SameAt(s.threads[i].regs, y.r.RegAt(vis[i], u, Did(y, s, i, op)), u)
    ensures |s'.threads| == |vis'| == |vis| && SameAt(s'.threads[i].regs, y.r.RegAt(vis'[i], u, Did(y, s', i, op)), u)
  {
    hide Did, Run.Conf, Machine.Valid, NextKept, Loop.Valid, Run.At, Run.Blk, Plan.Keeps, Loop.IsTerm;
    LeftDid(y, n, s, s', vis, vis', i, i, op);
    RegAtNext(y, n, i, vis[i], u);
  }

  lemma LeftOwn(y: System, n: nat, s: State, s': State, vis: seq<nat>, vis': seq<nat>, i: nat, u: Inst)
    requires Leaving(y, n, s, vis, i) && Left(y, n, s, s', vis, vis', i) && y.r.Valid() && u in y.r.l.parent
    requires !y.r.l.IsTerm(u)
    requires u in y.p.owner && y.p.owner[u] < |vis| == |s.threads| == |s'.threads| == |vis'|
    requires OwnReg(y, s, vis, y.p.owner[u], u)
    ensures OwnReg(y, s', vis', y.p.owner[u], u)
  {
    hide Sound, Placed, AtTerm, Did, Run.RegAt, NextKept, Run.Conf;
    LeftDid(y, n, s, s', vis, vis', i, y.p.owner[u], Clone(u));
    if y.p.owner[u] == i {
      LeavingOwn(y, n, s, vis, i, u);
      RegLeft(y, n, s, s', vis, vis', i, u, Clone(u));
    }
  }

  lemma LeavingOwn(y: System, n: nat, s: State, vis: seq<nat>, i: nat, u: Inst)
    requires Leaving(y, n, s, vis, i) && y.r.Valid() && u in y.r.l.parent && !y.r.l.IsTerm(u) && u in y.p.owner
    requires y.p.owner[u] == i
    ensures Runs(y.r, n) && y.p.Keeps(i, y.r.l.parent[u])
    ensures Did(y, s, i, Clone(u)) <==> y.r.l.parent[u] == y.r.Blk(vis[i])
  {
    LeavingFacts(y, n, s, vis, i);
    OwnerKeeps(y, n, u);
    hide GoodPlan, GoodBranches, UsesCovered, ConflictsCovered, Placed, AtTerm, Did, Run.Conf;
    y.r.l.IdxIs(y.r.Blk(vis[i]), |y.r.l.body[y.r.Blk(vis[i])]| - 1);
    LeavingDidIff(y, n, s, vis, i, Clone(u));
  }

  lemma LeavingGot(y: System, n: nat, s: State, vis: seq<nat>, i: nat, c: nat)
    requires Leaving(y, n, s, vis, i) && c < |y.p.chans| && y.p.chans[c].to == i && Chan(y, c)
    ensures Runs(y.r, n) && y.p.Keeps(i, y.r.l.parent[y.p.chans[c].u])
    ensures Did(y, s, i, Consume(c)) <==> Visits(y, c, vis[i])
  {
    LeavingFacts(y, n, s, vis, i);
    ChanFacts(y, n, c);
    hide GoodPlan, GoodBranches, UsesCovered, ConflictsCovered, Placed, AtTerm, Did, Run.Conf;
    LeavingDidIff(y, n, s, vis, i, Consume(c));
  }

  lemma LeavingSent(y: System, n: nat, s: State, vis: seq<nat>, i: nat, c: nat)
    requires Leaving(y, n, s, vis, i) && c < |y.p.chans| && y.p.chans[c].from == i && Chan(y, c)
    ensures y.p.Keeps(i, y.r.l.parent[y.p.chans[c].u])
    ensures Did(y, s, i, Produce(c)) <==> Visits(y, c, vis[i])
  {
    LeavingFacts(y, n, s, vis, i);
    ChanFacts(y, n, c);
    hide GoodPlan, GoodBranches, UsesCovered, ConflictsCovered, Placed, AtTerm, Did, Run.Conf;
    LeavingDidIff(y, n, s, vis, i, Produce(c));
  }

  lemma LeftCopied(y: System, n: nat, s: State, s': State, vis: seq<nat>, vis': seq<nat>, i: nat, c: nat)
    requires Leaving(y, n, s, vis, i) && Left(y, n, s, s', vis, vis', i) && c < |y.p.chans| && FirstReg(y.p, c)
    requires y.p.chans[c].to < |vis| == |s.threads| == |s'.threads| == |vis'| && CopiedReg(y, s, vis, c)
    ensures CopiedReg(y, s', vis', c)
  {
    ChanFacts(y, n, c);
    FirstIsReg(y.p, c);
    hide Sound, Placed, AtTerm, Did, Run.RegAt, NextKept, Run.Conf, FirstReg;
    LeftDid(y, n, s, s', vis, vis', i, y.p.chans[c].to, Consume(c));
    if y.p.chans[c].to == i {
      LeavingGot(y, n, s, vis, i, c);
      RegLeft(y, n, s, s', vis, vis', i, y.p.chans[c].u, Consume(c));
    }
  }

  lemma LeftOwnAll(y: System, n: nat, s: State, s': State, vis: seq<nat>, vis': seq<nat>, i: nat)
    requires Inv(y, n, s, vis) && Leaving(y, n, s, vis, i) && Left(y, n, s, s', vis, vis', i)
    requires y.r.l.Valid() && y.r.Valid() && |s'.threads| == |vis'| == |vis|
    ensures OwnRegs(y, s', vis')
  {
    hide Sound, OwnReg, Leaving, RegsHold, Inv, Left, Run.RegAt, Placed, Run.Valid, Loop.Valid;
    forall u | u in y.r.l.parent && !y.r.l.IsTerm(u)
      ensures u in y.p.owner && y.p.owner[u] < |vis'| == |s'.threads| && OwnReg(y, s', vis', y.p.owner[u], u)
    {
      OwnRegOf(y, n, s, vis, u);
      LeftOwn(y, n, s, s', vis, vis', i, u);
    }
  }

  lemma LeftCopiedAll(y: System, n: nat, s: State, s': State, vis: seq<nat>, vis': seq<nat>, i: nat)
    requires Inv(y, n, s, vis) && Leaving(y, n, s, vis, i) && Left(y, n, s, s', vis, vis', i)
    requires y.r.Valid() && |s'.threads| == |vis'| == |vis|
    ensures CopiedRegs(y, s', vis')
  {
    hide Sound, CopiedReg, Leaving, RegsHold, Inv, Left, Run.RegAt, FirstReg, Placed, Run.Valid;
    forall c: nat | c < |y.p.chans| && FirstReg(y.p, c)
      ensures y.p.chans[c].to < |vis'| == |s'.threads| && CopiedReg(y, s', vis', c)
    {
      CopiedRegOf(y, n, s, vis, c);
      LeftCopied(y, n, s, s', vis, vis', i, c);
    }
  }

  lemma LeftRegs(y: System, n: nat, s: State, s': State, vis: seq<nat>, vis': seq<nat>, i: nat)
    requires Inv(y, n, s, vis) && Leaving(y, n, s, vis, i) && Left(y, n, s, s', vis, vis', i) && Placed(y, n, s', vis')
    ensures RegsHold(y, n, s', vis')
  {
    hide GoodPlan, GoodBranches, UsesCovered, ConflictsCovered, OwnRegs, CopiedRegs, RegsHold, ChansHold, MemHolds;
    hide Left, Placed, AtTerm;
    SystemFacts(y, n, s, vis);
    SystemFacts(y, n, s', vis');
    LeftOwnAll(y, n, s, s', vis, vis', i);
    LeftCopiedAll(y, n, s, s', vis, vis', i);
    RegsBack(y, n, s', vis');
  }

  /** Values are owed only for visits of the source's block, which both ends keep. */
  lemma CountLeft(y: System, n: nat, i: nat, t: nat, c: nat)
    requires Chan(y, c) && t < n && y.p.Keeps(i, y.r.l.parent[y.p.chans[c].u])
    ensures Vals(y, c, NextKept(y, n, i, t + 1)) == Vals(y, c, t) + if Visits(y, c, t) then [ValueAt(y, c, t)] else []
  {
    hide Visits, ValueAt, NextKept, Vals, Plan.Keeps, Run.Blk, Run.Valid;
    NoVisits(y, n, i, t + 1, c);
    ValsSkip(y, c, t + 1, NextKept(y, n, i, t + 1));
    ValsStep(y, c, t);
  }

  lemma NoVisits(y: System, n: nat, i: nat, t: nat, c: nat)
    requires Chan(y, c) && t <= n && y.p.Keeps(i, y.r.l.parent[y.p.chans[c].u])
    ensures forall k :: t <= k < NextKept(y, n, i, t) ==> !Visits(y, c, k)
  {
    hide Run.Valid, Run.Blk;
  }

  lemma ValsStep(y: System, c: nat, t: nat)
    requires Chan(y, c)
    ensures Vals(y, c, t + 1) == Vals(y, c, t) + if Visits(y, c, t) then [ValueAt(y, c, t)] else []
  {
    hide Visits, ValueAt, Chan;
  }

  lemma LeftSent(y: System, n: nat, s: State, s': State, vis: seq<nat>, vis': seq<nat>, i: nat, c: nat)
    requires Leaving(y, n, s, vis, i) && Left(y, n, s, s', vis, vis', i) && Chan(y, c)
    requires c < |y.p.chans| && y.p.chans[c].from < |vis| == |vis'|
    ensures SentNo(y, s', vis', c) == SentNo(y, s, vis, c)
  {
    hide Sound, Placed, AtTerm, Did, NextKept, Chan, Vals, Visits, ValueAt, Leaving;
    LeftDid(y, n, s, s', vis, vis', i, y.p.chans[c].from, Produce(c));
    if y.p.chans[c].from == i {
      LeavingSent(y, n, s, vis, i, c);
      CountLeft(y, n, i, vis[i], c);
    }
  }

  lemma LeftGot(y: System, n: nat, s: State, s': State, vis: seq<nat>, vis': seq<nat>, i: nat, c: nat)
    requires Leaving(y, n, s, vis, i) && Left(y, n, s, s', vis, vis', i) && Chan(y, c)
    requires c < |y.p.chans| && y.p.chans[c].to < |vis| == |vis'|
    ensures GotNo(y, s', vis', c) == GotNo(y, s, vis, c)
  {
    hide Sound, Placed, AtTerm, Did, NextKept, Chan, Vals, Visits, ValueAt, Leaving;
    LeftDid(y, n, s, s', vis, vis', i, y.p.chans[c].to, Consume(c));
    if y.p.chans[c].to == i {
      LeavingGot(y, n, s, vis, i, c);
      CountLeft(y, n, i, vis[i], c);
    }
  }

  lemma LeftChans(y: System, n: nat, s: State, s': State, vis: seq<nat>, vis': seq<nat>, i: nat)
    requires Inv(y, n, s, vis) && Leaving(y, n, s, vis, i) && Left(y, n, s, s', vis, vis', i) && Placed(y, n, s', vis')
    requires |vis'| == |vis| && s'.queues == s.queues
    ensures ChansHold(y, n, s', vis')
  {
    hide Sound, Moving, Inv, Left, Leaving, Chan, Placed, SentNo, GotNo, Vals;
    forall c: nat | c < |y.p.chans|
      ensures Chan(y, c) && ToThread(y, c) && y.p.chans[c].from < |vis'| && y.p.chans[c].to < |vis'|
      ensures c < |s'.queues| && ChanHolds(y, n, s', vis', c)
    {
      ChanOf(y, n, s, vis, c);
      LeftSent(y, n, s, s', vis, vis', i, c);
      LeftGot(y, n, s, s', vis, vis', i, c);
    }
  }

  lemma LeftPast(y: System, n: nat, s: State, s': State, vis: seq<nat>, vis': seq<nat>, i: nat, d: Event)
    requires Leaving(y, n, s, vis, i) && Left(y, n, s, s', vis, vis', i) && Occurs(y.r, n, d)
    ensures PastEvent(y, n, s', vis', d) <==> PastEvent(y, n, s, vis, d)
  {
    hide GoodPlan, GoodBranches, UsesCovered, ConflictsCovered, Placed, Did, AtTerm, InstOf, NextKept, Past, Left;
    hide Run.Conf, Loop.Valid, Machine.Valid;
    EventFacts(y, n, d);
    var x := InstOf(y.r, d);
    var j := y.p.owner[x];
    LeftDid(y, n, s, s', vis, vis', i, j, Clone(x));
    if j == i {
      LeavingOwn(y, n, s, vis, i, x);
      LeftPastOwn(y, n, s, s', vis, vis', i, d.t, Clone(x));
    } else {
      LeftPastOther(y, n, s, s', vis, vis', i, j, d.t, Clone(x));
    }
  }

  lemma LeftPastOther(y: System, n: nat, s: State, s': State, vis: seq<nat>, vis': seq<nat>, i: nat, j: nat, t: nat, op: Op)
    requires Left(y, n, s, s', vis, vis', i) && j != i
    ensures Past(y, s', vis', j, t, op) <==> Past(y, s, vis, j, t, op)
  {
    hide Run.Valid, NextKept;
  }

  lemma LeftPastOwn(y: System, n: nat, s: State, s': State, vis: seq<nat>, vis': seq<nat>, i: nat, t: nat, op: Op)
    requires Left(y, n, s, s', vis, vis', i) && y.p.Keeps(i, y.r.Blk(t)) && (t == vis[i] ==> Did(y, s, i, op))
    requires !Did(y, s', i, op)
    ensures Past(y, s', vis', i, t, op) <==> Past(y, s, vis, i, t, op)
  {
    hide Did, Run.Valid, Run.Blk;
    if t > vis[i] { NotSkipped(y, n, i, vis[i] + 1, t); }
  }

  /** No visit of a kept block is skipped. */
  lemma NotSkipped(y: System, n: nat, i: nat, t: nat, k: nat)
    requires y.r.Valid() && t <= k && t <= n && y.p.Keeps(i, y.r.Blk(k))
    ensures NextKept(y, n, i, t) <= k
  {
    hide Run.Valid, Run.Blk;
  }

  lemma LeftMem(y: System, n: nat, s: State, s': State, vis: seq<nat>, vis': seq<nat>, i: nat)
    requires Inv(y, n, s, vis) && Leaving(y, n, s, vis, i) && Left(y, n, s, s', vis, vis', i) && s'.mem == s.mem
    ensures MemHolds(y, n, s', vis')
  {
    hide GoodPlan, GoodBranches, UsesCovered, ConflictsCovered, PastEvent, Leaving, Left, HistoryOf, History.Partial;
    hide RegsHold, ChansHold, Placed;
    forall a: nat | a < Base(Widths(y.r, n), n)
      ensures PastEvent(y, n, s', vis', EventNo(y.r, n, a)) == PastEvent(y, n, s, vis, EventNo(y.r, n, a))
    {
      LeftPast(y, n, s, s', vis, vis', i, EventNo(y.r, n, a));
    }
    assert DoneSet(y, n, s', vis') == DoneSet(y, n, s, vis);
  }

  lemma FireTerm(y: System, s: State, i: nat)
    requires y.r.l.Valid() && Enabled(y, s, i) && AtTerm(y, s, i)
    ensures var b := s.threads[i].block; var x := y.r.l.Term(b); var next :=
              Next(y.p.Targets(i, b), y.r.m.choose(x, y.r.m.Operands(x, s.threads[i].regs)), y.r.l.exit);
            Fire(y, s, i) == s.(threads := s.threads[i := Thread(next, 0, s.threads[i].regs)])
  {
    hide Next;
  }

  lemma FiresLeft(y: System, n: nat, s: State, s': State, vis: seq<nat>, vis': seq<nat>, i: nat)
    requires Leaving(y, n, s, vis, i) && RegsHold(y, n, s, vis) && y.r.l.Valid() && Enabled(y, s, i)
    requires s' == Fire(y, s, i)
    requires y.r.Valid() && vis' == vis[i := NextKept(y, n, i, vis[i] + 1)]
    ensures Left(y, n, s, s', vis, vis', i)
  {
    LeavingFacts(y, n, s, vis, i);
    FireTerm(y, s, i);
    hide RegsHold, Placed, GoodPlan, GoodBranches, UsesCovered, ConflictsCovered, Runs, Fire, AtTerm, Next, NextKept;
    LandsRight(y, n, s, vis, i);
  }

  /** Leaving a block keeps the relation. */
  lemma TermStep(y: System, n: nat, s: State, s': State, vis: seq<nat>, vis': seq<nat>, i: nat)
    requires Inv(y, n, s, vis) && Leaving(y, n, s, vis, i) && y.r.l.Valid() && Enabled(y, s, i) && s' == Fire(y, s, i)
    requires y.r.Valid() && vis' == vis[i := NextKept(y, n, i, vis[i] + 1)]
    ensures Inv(y, n, s', vis')
  {
    hide RegsHold, ChansHold, MemHolds, Placed, GoodPlan, GoodBranches, UsesCovered, ConflictsCovered, Runs, Fire;
    hide AtTerm, Left, NextKept;
    FiresLeft(y, n, s, s', vis, vis', i);
    FireTerm(y, s, i);
    hide Enabled;
    LeftPlaced(y, n, s, s', vis, vis', i);
    LeftRegs(y, n, s, s', vis, vis', i);
    LeftChans(y, n, s, s', vis, vis', i);
    LeftMem(y, n, s, s', vis, vis', i);
  }
}
