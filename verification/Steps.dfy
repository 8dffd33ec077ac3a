/** Every step of every thread keeps the simulation relation. */
module Steps {
  import opened Ir
  import opened PostDominance
  import opened PeeledLoop
  import opened Slicing
  import opened Plan
  import opened Sequential
  import opened Conflicts
  import opened Trace
  import opened Pipeline
  import opened Simulation
  import opened Channels
  import opened Execution

  ghost predicate Inv(y: System, n: nat, s: State, vis: seq<nat>) {
    Sound(y, n) && Placed(y, n, s, vis) && RegsHold(y, n, s, vis) && ChansHold(y, n, s, vis) && MemHolds(y, n, s, vis)
  }

  /** Thread `i` has moved past one operation within its block. */
  ghost predicate Ticked(s: State, s': State, i: nat) {
    && |s'.threads| == |s.threads| && |s'.queues| == |s.queues| && i < |s.threads|
    && (forall j :: 0 <= j < |s.threads| && j != i ==> s'.threads[j] == s.threads[j])
    && s'.threads[i].block == s.threads[i].block && s'.threads[i].pc == s.threads[i].pc + 1
  }

  /** The next operation is the copy of the block's terminator. */
  ghost predicate AtTerm(y: System, s: State, i: nat)
    requires i < |s.threads| && s.threads[i].pc < |y.p.Code(i, s.threads[i].block)|
  {
    var b := s.threads[i].block;
    b in y.r.l.body && |y.r.l.body[b]| > 0 && OpAt(y, s, i) == Clone(y.r.l.Term(b))
  }

  ghost predicate Moving(y: System, n: nat, s: State, vis: seq<nat>, i: nat) {
    Sound(y, n) && Placed(y, n, s, vis) && i < |vis| && vis[i] < n && !AtTerm(y, s, i)
  }

  lemma NotLast(y: System, n: nat, s: State, vis: seq<nat>, i: nat)
    requires Moving(y, n, s, vis, i)
    ensures s.threads[i].pc + 1 < |y.p.Code(i, s.threads[i].block)|
  {
    hide GoodBranches, UsesCovered, ConflictsCovered, Runs, Plan.GoodList;
    y.p.TermLast(i, s.threads[i].block);
  }

  lemma TickPlaced(y: System, n: nat, s: State, s': State, vis: seq<nat>, i: nat)
    requires Moving(y, n, s, vis, i) && Ticked(s, s', i)
    ensures Placed(y, n, s', vis)
  {
    NotLast(y, n, s, vis, i);
    hide GoodBranches, UsesCovered, ConflictsCovered, GoodPlan, AtTerm;
  }

  lemma TickDid(y: System, n: nat, s: State, s': State, vis: seq<nat>, i: nat, j: nat, op: Op)
    requires Moving(y, n, s, vis, i) && Ticked(s, s', i)
    ensures Did(y, s', j, op) <==> Did(y, s, j, op) || (j == i && op == OpAt(y, s, i))
  {
    hide Sound, AtTerm;
    var ops, pc := y.p.Code(i, s.threads[i].block), s.threads[i].pc;
    hide Plan.Code;
    assert ops[..pc + 1] == ops[..pc] + [ops[pc]];
  }

  // ---- a copy of an own instruction ----

  lemma OwnCopy(y: System, n: nat, s: State, vis: seq<nat>, i: nat, x: Inst)
    requires Moving(y, n, s, vis, i) && OpAt(y, s, i) == Clone(x)
    ensures x in y.r.l.parent && !y.r.l.IsTerm(x) && y.r.l.parent[x] == y.r.Blk(vis[i])
    ensures y.r.Blk(vis[i]) in y.r.l.blocks
    ensures x in y.p.owner && y.p.owner[x] == i && y.r.l.Idx(x) < |y.r.l.body[y.r.Blk(vis[i])]| - 1
  {
    hide GoodBranches, UsesCovered, ConflictsCovered, Machine.Valid, Run.Conf, Plan.GoodList;
    CopyAt(y, n, s, vis, i, x);
  }

  lemma CopyOccurs(y: System, n: nat, s: State, vis: seq<nat>, i: nat, x: Inst)
    requires Moving(y, n, s, vis, i) && OpAt(y, s, i) == Clone(x)
    ensures Runs(y.r, n) && x in y.r.l.parent && Occurs(y.r, n, Event(vis[i], y.r.l.Idx(x)))
    ensures InstOf(y.r, Event(vis[i], y.r.l.Idx(x))) == x
  {
    hide GoodBranches, UsesCovered, ConflictsCovered, GoodPlan, Run.Ends, Machine.Valid, AtTerm, Placed, Occurs;
    hide InstOf, Loop.Valid;
    OwnCopy(y, n, s, vis, i, x);
    EventAt(y.r, n, vis[i], x);
  }

  lemma EventAt(r: Run, n: nat, t: nat, x: Inst)
    requires Runs(r, n) && t < n && r.l.Valid() && x in r.l.parent && r.l.parent[x] == r.Blk(t)
    requires r.Blk(t) in r.l.blocks
    requires r.l.Idx(x) < |r.l.body[r.Blk(t)]| - 1
    ensures Occurs(r, n, Event(t, r.l.Idx(x))) && r.Blk(t) != r.l.exit && InstOf(r, Event(t, r.l.Idx(x))) == x
  {
    hide Machine.Valid, Run.Conf, Run.Blk;
  }

  /** The instance that a copy of the own instruction `x` stands for. */
  ghost function EventOf(y: System, n: nat, s: State, vis: seq<nat>, i: nat, x: Inst): (e: Event)
    requires Moving(y, n, s, vis, i) && OpAt(y, s, i) == Clone(x)
    ensures Occurs(y.r, n, e) && InstOf(y.r, e) == x && NextEvent(y, n, s, vis, e) && e.t == vis[i]
    ensures x in y.r.l.parent && e.k == y.r.l.Idx(x)
  {
    hide GoodBranches, UsesCovered, ConflictsCovered, GoodPlan, Run.Valid, AtTerm, Plan.Code, Loop.Valid, Occurs;
    hide InstOf;
    CopyOccurs(y, n, s, vis, i, x);
    OwnCopy(y, n, s, vis, i, x);
    Event(vis[i], y.r.l.Idx(x))
  }

  /** After its own instruction a register holds, to the end of the visit, the value computed. */
  lemma NewReg(r: Run, n: nat, e: Event)
    requires Runs(r, n) && Occurs(r, n, e) && InstOf(r, e) in r.l.parent && !r.l.IsTerm(InstOf(r, e))
    requires r.l.parent[InstOf(r, e)] == r.Blk(e.t) && r.l.Idx(InstOf(r, e)) == e.k
    ensures InstOf(r, e) in r.RegAt(e.t, InstOf(r, e), true)
    ensures r.RegAt(e.t, InstOf(r, e), true)[InstOf(r, e)] == EffectOf(r, e).value
  {
    hide Machine.Valid, Run.Conf, Run.Mid;
    r.NextMid(e.t, e.k);
    r.MidReg(e.t, e.k + 1, InstOf(r, e));
  }

  /** A register that is not written keeps its place in the relation. */
  lemma RegKept(y: System, s: State, s': State, vis: seq<nat>, i: nat, j: nat, u: Inst, op: Op)
    requires y.r.Valid() && Ticked(s, s', i) && j < |vis| == |s.threads|
    requires SameAt(s.threads[j].regs, y.r.RegAt(vis[j], u, Did(y, s, j, op)), u)
    requires Did(y, s', j, op) <==> Did(y, s, j, op)
    requires j == i ==> SameAt(s'.threads[i].regs, s.threads[i].regs, u)
    ensures SameAt(s'.threads[j].regs, y.r.RegAt(vis[j], u, Did(y, s', j, op)), u)
  {
    hide Did, Run.RegAt, Run.Valid;
  }

  /** Thread `i` executes its next operation and writes at most the register `w`. */
  ghost predicate Writes(s: State, s': State, i: nat, w: Inst, v: int) {
    Ticked(s, s', i) && s'.threads[i].regs == s.threads[i].regs[w := v]
  }

  /** The clone step seen by one register: what it knew of `op`, and what it finds in the register file. */
  lemma CloneSees(y: System, n: nat, s: State, s': State, vis: seq<nat>, i: nat, x: Inst, v: int, j: nat, u: Inst, op: Op)
    requires Moving(y, n, s, vis, i) && OpAt(y, s, i) == Clone(x) && Writes(s, s', i, x, v)
    requires (op.Clone? ==> op == Clone(u)) && !op.Produce?
    ensures y.r.Valid() && Ticked(s, s', i) && |s'.threads| == |vis| == |s.threads|
    ensures (op == Clone(x) && j == i) || (Did(y, s', j, op) <==> Did(y, s, j, op))
    ensures u != x ==> SameAt(s'.threads[i].regs, s.threads[i].regs, u)
    ensures x in s'.threads[i].regs && s'.threads[i].regs[x] == v && (j == i && op == Clone(x) ==> Did(y, s', j, op))
  {
    hide GoodPlan, GoodBranches, UsesCovered, ConflictsCovered, Run.Valid, OpAt, Did, AtTerm;
    TickDid(y, n, s, s', vis, i, j, op);
  }

  lemma CloneOwn(y: System, n: nat, s: State, s': State, vis: seq<nat>, i: nat, x: Inst, v: int, u: Inst)
    requires Moving(y, n, s, vis, i) && OpAt(y, s, i) == Clone(x) && Writes(s, s', i, x, v) && x in y.p.owner
    requires y.p.owner[x] == i
    requires SameAt(map[x := v], y.r.RegAt(vis[i], x, true), x)
    requires u in y.p.owner && y.p.owner[u] < |vis| && OwnReg(y, s, vis, y.p.owner[u], u)
    ensures |s'.threads| == |vis| && OwnReg(y, s', vis, y.p.owner[u], u)
  {
    hide Moving, Writes, Did, Run.RegAt, Run.Valid, OpAt, Ticked;
    CloneSees(y, n, s, s', vis, i, x, v, y.p.owner[u], u, Clone(u));
    if u != x { RegKept(y, s, s', vis, i, y.p.owner[u], u, Clone(u)); }
  }

  lemma CloneCopied(y: System, n: nat, s: State, s': State, vis: seq<nat>, i: nat, x: Inst, v: int, c: nat)
    requires Moving(y, n, s, vis, i) && OpAt(y, s, i) == Clone(x) && Writes(s, s', i, x, v) && x in y.p.owner
    requires y.p.owner[x] == i
    requires c < |y.p.chans| && y.p.chans[c].to < |vis| && CopiedReg(y, s, vis, c)
    requires y.p.chans[c].to == i ==> y.p.chans[c].u != x
    ensures |s'.threads| == |vis| && CopiedReg(y, s', vis, c)
  {
    hide Moving, Writes, Did, Run.RegAt, Run.Valid, OpAt, Ticked;
    CloneSees(y, n, s, s', vis, i, x, v, y.p.chans[c].to, y.p.chans[c].u, Consume(c));
    RegKept(y, s, s', vis, i, y.p.chans[c].to, y.p.chans[c].u, Consume(c));
  }

  lemma SystemFacts(y: System, n: nat, s: State, vis: seq<nat>)
    requires Sound(y, n) && Placed(y, n, s, vis)
    ensures y.r.Valid() && |vis| == |s.threads| == |y.p.kept| && |s.queues| == |y.p.chans|
    ensures forall u :: u in y.r.l.parent ==> u in y.p.owner && y.p.owner[u] < |vis|
  {
    hide GoodBranches, UsesCovered, ConflictsCovered, Plan.GoodList, Machine.Valid, Run.Ends;
  }

  lemma OwnRegOf(y: System, n: nat, s: State, vis: seq<nat>, u: Inst)
    requires Inv(y, n, s, vis) && u in y.r.l.parent && !y.r.l.IsTerm(u)
    ensures u in y.p.owner && y.p.owner[u] < |vis| == |s.threads| && OwnReg(y, s, vis, y.p.owner[u], u)
  {
    hide GoodBranches, UsesCovered, ConflictsCovered, Runs, MemHolds, ChansHold, OwnReg, Plan.GoodList;
  }

  lemma CopiedRegOf(y: System, n: nat, s: State, vis: seq<nat>, c: nat)
    requires Inv(y, n, s, vis) && c < |y.p.chans| && FirstReg(y.p, c)
    ensures y.p.chans[c].to < |vis| == |s.threads| && CopiedReg(y, s, vis, c)
    ensures y.p.chans[c].u in y.p.owner && y.p.owner[y.p.chans[c].u] < y.p.chans[c].to
  {
    ChanFacts(y, n, c);
    hide GoodBranches, UsesCovered, ConflictsCovered, Runs, MemHolds, ChansHold, CopiedReg, Plan.GoodList, FirstReg;
  }

  /** The value that the copy of `x` computes is the one its register has from there to the end of the visit. */
  lemma CopyValue(y: System, n: nat, s: State, vis: seq<nat>, i: nat, x: Inst) returns (v: int)
    requires Inv(y, n, s, vis) && Moving(y, n, s, vis, i) && OpAt(y, s, i) == Clone(x)
    ensures x in y.p.owner && y.p.owner[x] == i
    ensures y.r.m.effect(x, y.r.m.Operands(x, s.threads[i].regs), s.mem).value == v
    ensures SameAt(map[x := v], y.r.RegAt(vis[i], x, true), x)
  {
    var e := EventOf(y, n, s, vis, i, x);
    OwnCopy(y, n, s, vis, i, x);
    EventFacts(y, n, e);
    NewReg(y.r, n, e);
    EffectRight(y, n, s, vis, e);
    v := EffectOf(y.r, e).value;
    hide *;
  }

  ghost predicate OwnRegs(y: System, s: State, vis: seq<nat>)
    requires y.r.l.Valid()
  {
    forall u :: u in y.r.l.parent && !y.r.l.IsTerm(u) ==>
      y.r.Valid() && u in y.p.owner && y.p.owner[u] < |vis| == |s.threads| && OwnReg(y, s, vis, y.p.owner[u], u)
  }

  ghost predicate CopiedRegs(y: System, s: State, vis: seq<nat>) {
    forall c :: 0 <= c < |y.p.chans| && FirstReg(y.p, c) ==>
      y.r.Valid() && y.p.chans[c].to < |vis| == |s.threads| && CopiedReg(y, s, vis, c)
  }

  lemma RegsBack(y: System, n: nat, s: State, vis: seq<nat>)
    requires Sound(y, n) && Placed(y, n, s, vis) && y.r.l.Valid() && OwnRegs(y, s, vis) && CopiedRegs(y, s, vis)
    ensures RegsHold(y, n, s, vis)
  {
    SystemFacts(y, n, s, vis);
    hide GoodBranches, GoodPlan, UsesCovered, ConflictsCovered, Runs, OwnReg, CopiedReg, FirstReg, Run.Valid;
  }

  lemma CloneAllOwn(y: System, n: nat, s: State, s': State, vis: seq<nat>, i: nat, x: Inst, v: int)
    requires Inv(y, n, s, vis) && Moving(y, n, s, vis, i) && OpAt(y, s, i) == Clone(x) && Writes(s, s', i, x, v)
    requires y.r.Valid() && x in y.p.owner && y.p.owner[x] == i && SameAt(map[x := v], y.r.RegAt(vis[i], x, true), x)
    ensures OwnRegs(y, s', vis)
  {
    hide Sound, OwnReg, Moving, RegsHold, Inv, Writes, Run.RegAt;
    forall u | u in y.r.l.parent && !y.r.l.IsTerm(u)
      ensures u in y.p.owner && y.p.owner[u] < |vis| == |s'.threads| && OwnReg(y, s', vis, y.p.owner[u], u)
    {
      OwnRegOf(y, n, s, vis, u);
      CloneOwn(y, n, s, s', vis, i, x, v, u);
    }
  }

  lemma CloneAllCopied(y: System, n: nat, s: State, s': State, vis: seq<nat>, i: nat, x: Inst, v: int)
    requires Inv(y, n, s, vis) && Moving(y, n, s, vis, i) && OpAt(y, s, i) == Clone(x) && Writes(s, s', i, x, v)
    requires y.r.Valid() && x in y.p.owner && y.p.owner[x] == i
    ensures CopiedRegs(y, s', vis)
  {
    hide Sound, CopiedReg, Moving, RegsHold, Inv, Writes, FirstReg;
    forall c | 0 <= c < |y.p.chans| && FirstReg(y.p, c)
      ensures y.p.chans[c].to < |vis| == |s'.threads| && CopiedReg(y, s', vis, c)
    {
      CopiedRegOf(y, n, s, vis, c);
      CloneCopied(y, n, s, s', vis, i, x, v, c);
    }
  }

  lemma CloneRegs(y: System, n: nat, s: State, s': State, vis: seq<nat>, i: nat, x: Inst, v: int)
    requires Inv(y, n, s, vis) && Moving(y, n, s, vis, i) && OpAt(y, s, i) == Clone(x) && Placed(y, n, s', vis)
    requires v == y.r.m.effect(x, y.r.m.Operands(x, s.threads[i].regs), s.mem).value && Writes(s, s', i, x, v)
    ensures RegsHold(y, n, s', vis)
  {
    hide Moving, Writes, OwnRegs, CopiedRegs, RegsHold, GoodPlan, GoodBranches, UsesCovered, ConflictsCovered, Runs;
    hide ChansHold, MemHolds, Placed;
    var v' := CopyValue(y, n, s, vis, i, x);
    SystemFacts(y, n, s', vis);
    CloneAllOwn(y, n, s, s', vis, i, x, v);
    CloneAllCopied(y, n, s, s', vis, i, x, v);
    RegsBack(y, n, s', vis);
  }

  // ---- channels and memory ----

  /** A channel that the step neither sends on nor receives from. */
  lemma ChanKept(y: System, n: nat, s: State, s': State, vis: seq<nat>, i: nat, c: nat)
    requires Moving(y, n, s, vis, i) && Ticked(s, s', i) && OpAt(y, s, i) != Produce(c) && OpAt(y, s, i) != Consume(c)
    requires Chan(y, c) && y.p.chans[c].from < |vis| && y.p.chans[c].to < |vis|
    requires c < |s.queues| == |s'.queues| == |y.p.chans|
    requires s'.queues[c] == s.queues[c] && ChanHolds(y, n, s, vis, c)
    ensures ChanHolds(y, n, s', vis, c)
  {
    hide Sound, Did, Chan, Vals, Moving, Ticked;
    TickDid(y, n, s, s', vis, i, y.p.chans[c].from, Produce(c));
    TickDid(y, n, s, s', vis, i, y.p.chans[c].to, Consume(c));
  }

  lemma ChanOf(y: System, n: nat, s: State, vis: seq<nat>, c: nat)
    requires Inv(y, n, s, vis) && c < |y.p.chans|
    ensures Chan(y, c) && ToThread(y, c) && y.p.chans[c].from < |vis| && y.p.chans[c].to < |vis|
    ensures c < |s.queues| == |y.p.chans| && ChanHolds(y, n, s, vis, c)
  {
    ChanFacts(y, n, c);
    hide Sound, ChanHolds, RegsHold, MemHolds;
  }

  lemma ChansKept(y: System, n: nat, s: State, s': State, vis: seq<nat>, i: nat)
    requires Inv(y, n, s, vis) && Moving(y, n, s, vis, i) && Ticked(s, s', i) && OpAt(y, s, i).Clone?
    requires s'.queues == s.queues
    requires Placed(y, n, s', vis)
    ensures ChansHold(y, n, s', vis)
  {
    hide Sound, ChanHolds, Moving, Inv, Ticked, Chan, Placed;
    forall c: nat | c < |y.p.chans|
      ensures Chan(y, c) && ToThread(y, c) && y.p.chans[c].from < |vis| && y.p.chans[c].to < |vis|
      ensures c < |s'.queues| && ChanHolds(y, n, s', vis, c)
    {
      ChanOf(y, n, s, vis, c);
      TickedSizes(s, s', i);
      ChanKept(y, n, s, s', vis, i, c);
    }
  }

  lemma TickedSizes(s: State, s': State, i: nat)
    requires Ticked(s, s', i)
    ensures |s'.queues| == |s.queues|
  {
  }

  /** A step that is not a copy of an own instruction adds no instance. */
  lemma PastKept(y: System, n: nat, s: State, s': State, vis: seq<nat>, i: nat, d: Event)
    requires Moving(y, n, s, vis, i) && Ticked(s, s', i) && Occurs(y.r, n, d)
    ensures PastEvent(y, n, s', vis, d) <==>
              PastEvent(y, n, s, vis, d) ||
              (InstOf(y.r, d) in y.p.owner && y.p.owner[InstOf(y.r, d)] == i && d.t == vis[i] && OpAt(y, s, i) == Clone(InstOf(y.r, d)))
  {
    EventFacts(y, n, d);
    TickDid(y, n, s, s', vis, i, y.p.owner[InstOf(y.r, d)], Clone(InstOf(y.r, d)));
    hide GoodPlan, GoodBranches, UsesCovered, ConflictsCovered, Runs, Did, InstOf, AtTerm;
  }

  lemma MemKept(y: System, n: nat, s: State, s': State, vis: seq<nat>, i: nat)
    requires Inv(y, n, s, vis) && Moving(y, n, s, vis, i) && Ticked(s, s', i) && !OpAt(y, s, i).Clone?
    requires s'.mem == s.mem
    ensures MemHolds(y, n, s', vis)
  {
    hide GoodPlan, GoodBranches, UsesCovered, ConflictsCovered, PastEvent, Moving, HistoryOf, History.Partial;
    hide RegsHold, ChansHold, Placed;
    forall a: nat | a < Base(Widths(y.r, n), n)
      ensures PastEvent(y, n, s', vis, EventNo(y.r, n, a)) == PastEvent(y, n, s, vis, EventNo(y.r, n, a))
    {
      PastKept(y, n, s, s', vis, i, EventNo(y.r, n, a));
    }
    assert DoneSet(y, n, s', vis) == DoneSet(y, n, s, vis);
  }

  lemma SameEvent(y: System, n: nat, d: Event, e: Event)
    requires Sound(y, n) && Occurs(y.r, n, d) && Occurs(y.r, n, e) && d.t == e.t && InstOf(y.r, d) == InstOf(y.r, e)
    ensures d == e
  {
    EventFacts(y, n, d);
    EventFacts(y, n, e);
  }

  lemma DoneAfter(y: System, n: nat, s: State, s': State, vis: seq<nat>, i: nat, x: Inst, e: Event, a: nat)
    requires Moving(y, n, s, vis, i) && Ticked(s, s', i) && OpAt(y, s, i) == Clone(x)
    requires Occurs(y.r, n, e) && InstOf(y.r, e) == x && e.t == vis[i]
    requires a < Base(Widths(y.r, n), n)
    ensures a in DoneSet(y, n, s', vis) <==> a in DoneSet(y, n, s, vis) || a == Num(Widths(y.r, n), e)
  {
    OwnCopy(y, n, s, vis, i, x);
    HistoryAt(y.r, n, e);
    var d := EventNo(y.r, n, a);
    PastKept(y, n, s, s', vis, i, d);
    if d.t == e.t && InstOf(y.r, d) == x { SameEvent(y, n, d, e); }
    hide GoodPlan, GoodBranches, UsesCovered, ConflictsCovered, PastEvent, AtTerm, HistoryOf, Placed, Base, Num;
    hide Run.Valid;
  }

  lemma CopyStores(y: System, n: nat, s: State, vis: seq<nat>, i: nat, x: Inst) returns (e: Event)
    requires Inv(y, n, s, vis) && Moving(y, n, s, vis, i) && OpAt(y, s, i) == Clone(x)
    ensures Occurs(y.r, n, e) && InstOf(y.r, e) == x && e.t == vis[i]
    ensures Num(Widths(y.r, n), e) < Base(Widths(y.r, n), n)
    ensures s.mem + y.r.m.effect(x, y.r.m.Operands(x, s.threads[i].regs), s.mem).stores ==
              HistoryOf(y.r, n).Partial(DoneSet(y, n, s, vis) + {Num(Widths(y.r, n), e)}, Base(Widths(y.r, n), n))
  {
    e := EventOf(y, n, s, vis, i, x);
    OwnCopy(y, n, s, vis, i, x);
    EffectRight(y, n, s, vis, e);
    MemoryAfter(y, n, s, vis, e);
    NextNotDone(y, n, s, vis, e);
    hide *;
  }

  lemma DoneBounded(y: System, n: nat, s: State, vis: seq<nat>)
    requires Sound(y, n)
    ensures forall a :: a in DoneSet(y, n, s, vis) ==> a < Base(Widths(y.r, n), n)
  {
    hide Sound, Base;
  }

  /** A copy of an own instruction adds its instance. */
  lemma MemCopied(y: System, n: nat, s: State, s': State, vis: seq<nat>, i: nat, x: Inst)
    requires Inv(y, n, s, vis) && Moving(y, n, s, vis, i) && Ticked(s, s', i) && OpAt(y, s, i) == Clone(x)
    requires s'.mem == s.mem + y.r.m.effect(x, y.r.m.Operands(x, s.threads[i].regs), s.mem).stores
    ensures MemHolds(y, n, s', vis)
  {
    hide GoodPlan, GoodBranches, UsesCovered, ConflictsCovered, PastEvent, Moving, HistoryOf, History.Partial;
    hide RegsHold, ChansHold, Placed, EffectOf, EventOf, Base, Num, DoneSet;
    var e := CopyStores(y, n, s, vis, i, x);
    var size := Base(Widths(y.r, n), n);
    forall a | 0 <= a < size
      ensures a in DoneSet(y, n, s', vis) <==> a in DoneSet(y, n, s, vis) || a == Num(Widths(y.r, n), e)
    {
      DoneAfter(y, n, s, s', vis, i, x, e, a);
    }
    DoneBounded(y, n, s', vis);
    DoneBounded(y, n, s, vis);
    assert DoneSet(y, n, s', vis) == DoneSet(y, n, s, vis) + {Num(Widths(y.r, n), e)};
  }

  // ---- the three kinds of steps within a block ----

  /** `s'` is what firing thread `i` in `s` gives. */
  ghost predicate Fires(y: System, s: State, s': State, i: nat) {
    y.r.l.Valid() && Enabled(y, s, i) && s' == Fire(y, s, i)
  }

  lemma FireClone(y: System, s: State, i: nat, x: Inst)
    requires y.r.l.Valid() && Enabled(y, s, i) && OpAt(y, s, i) == Clone(x) && !AtTerm(y, s, i)
    ensures var e := y.r.m.effect(x, y.r.m.Operands(x, s.threads[i].regs), s.mem);
            Writes(s, Fire(y, s, i), i, x, e.value) && Fire(y, s, i).queues == s.queues && Fire(y, s, i).mem == s.mem + e.stores
  {
    hide Machine.Operands;
  }

  lemma FiresClone(y: System, n: nat, s: State, s': State, vis: seq<nat>, i: nat, x: Inst)
    requires Moving(y, n, s, vis, i) && OpAt(y, s, i) == Clone(x) && Fires(y, s, s', i)
    ensures var e := y.r.m.effect(x, y.r.m.Operands(x, s.threads[i].regs), s.mem);
            Writes(s, s', i, x, e.value) && s'.queues == s.queues && s'.mem == s.mem + e.stores
  {
    hide Sound, Placed, Fire, Loop.Valid, Enabled, OpAt, Writes, AtTerm;
    FireClone(y, s, i, x);
  }

  lemma CloneStep(y: System, n: nat, s: State, s': State, vis: seq<nat>, i: nat, x: Inst)
    requires Inv(y, n, s, vis) && Moving(y, n, s, vis, i) && OpAt(y, s, i) == Clone(x) && Fires(y, s, s', i)
    ensures Inv(y, n, s', vis)
  {
    hide Moving, Fires, RegsHold, ChansHold, MemHolds, Placed, GoodPlan, GoodBranches, UsesCovered, ConflictsCovered;
    hide Runs;
    FiresClone(y, n, s, s', vis, i, x);
    TickPlaced(y, n, s, s', vis, i);
    CloneRegs(y, n, s, s', vis, i, x, y.r.m.effect(x, y.r.m.Operands(x, s.threads[i].regs), s.mem).value);
    ChansKept(y, n, s, s', vis, i);
    MemCopied(y, n, s, s', vis, i, x);
  }

  /** The operation a thread comes to belongs to its block and has not been executed. */
  lemma OpFacts(y: System, n: nat, s: State, vis: seq<nat>, i: nat)
    requires Sound(y, n) && Placed(y, n, s, vis) && i < |vis| && vis[i] < n
    ensures |s.threads| == |vis|
    ensures y.p.Shape() && y.p.Belongs(i, s.threads[i].block, OpAt(y, s, i)) && !Did(y, s, i, OpAt(y, s, i))
    ensures s.threads[i].block == y.r.Blk(vis[i]) && y.r.Blk(vis[i]) != y.r.l.exit
  {
    hide GoodBranches, UsesCovered, ConflictsCovered, Plan.Belongs, Run.Conf;
    y.p.NotYet(i, s.threads[i].block, s.threads[i].pc, OpAt(y, s, i));
  }

  lemma SendFacts(y: System, n: nat, s: State, vis: seq<nat>, i: nat, c: nat)
    requires Sound(y, n) && Placed(y, n, s, vis) && i < |vis| && vis[i] < n && OpAt(y, s, i) == Produce(c)
    ensures Chan(y, c) && y.p.chans[c].from == i && y.p.chans[c].to != i && Visits(y, c, vis[i])
    ensures !Did(y, s, i, Produce(c))
    ensures y.p.chans[c].to < |vis| && y.r.Blk(vis[i]) != y.r.l.exit
  {
    OpFacts(y, n, s, vis, i);
    assert c < |y.p.chans|;
    ChanFacts(y, n, c);
    hide Sound, Did, Run.Conf;
  }

  lemma GetFacts(y: System, n: nat, s: State, vis: seq<nat>, i: nat, c: nat)
    requires Sound(y, n) && Placed(y, n, s, vis) && i < |vis| && vis[i] < n && OpAt(y, s, i) == Consume(c)
    ensures Chan(y, c) && y.p.chans[c].to == i && y.p.chans[c].from < i && Visits(y, c, vis[i])
    ensures !Did(y, s, i, Consume(c))
    ensures y.r.Blk(vis[i]) != y.r.l.exit
  {
    OpFacts(y, n, s, vis, i);
    assert c < |y.p.chans|;
    ChanFacts(y, n, c);
    hide Sound, Did, Run.Conf;
  }

  lemma SourceFirst(y: System, n: nat, s: State, vis: seq<nat>, i: nat, c: nat)
    requires Sound(y, n) && Placed(y, n, s, vis) && i < |vis| && vis[i] < n && OpAt(y, s, i) == Produce(c)
    requires c < |y.p.chans| && y.p.chans[c].u in y.r.l.parent && !y.r.l.IsTerm(y.p.chans[c].u)
    ensures Did(y, s, i, Clone(y.p.chans[c].u))
  {
    hide Sound, Did, Placed, Run.Valid, OpAt;
    OpFacts(y, n, s, vis, i);
    ChanFacts(y, n, c);
    SamePlan(y, n);
    SendRank(y.p, c);
    SendBelongs(y.p, i, s.threads[i].block, c);
    hide Plan.Rank, Plan.Shape, Plan.Belongs;
    RankOrder(y, n, s, vis, i, Clone(y.p.chans[c].u), Produce(c));
  }

  /** What is sent is the value the channel owes for this visit. */
  lemma SendValue(y: System, n: nat, s: State, vis: seq<nat>, i: nat, c: nat)
    requires Inv(y, n, s, vis) && i < |vis| && vis[i] < n && OpAt(y, s, i) == Produce(c) && c < |y.p.chans|
    requires Chan(y, c)
    ensures Sent(y.p, c, s.threads[i].regs) == ValueAt(y, c, vis[i])
  {
    hide Sound, Placed, RegsHold, ChansHold, MemHolds, Did, OpAt, Run.Conf, Run.At;
    assert Sound(y, n) && Placed(y, n, s, vis);
    hide Inv;
    if y.p.chans[c].dtype == REG {
      SendFacts(y, n, s, vis, i, c);
      ChanFacts(y, n, c);
      SourceFirst(y, n, s, vis, i, c);
      OwnRegOf(y, n, s, vis, y.p.chans[c].u);
    }
  }

  /** The channel sent on holds one value more. */
  lemma ChanSent(y: System, n: nat, s: State, s': State, vis: seq<nat>, i: nat, c: nat)
    requires Inv(y, n, s, vis) && Moving(y, n, s, vis, i) && Ticked(s, s', i) && OpAt(y, s, i) == Produce(c)
    requires c < |y.p.chans|
    requires i < |vis| && vis[i] < n && c < |s.queues| == |s'.queues|
    requires s'.queues[c] == s.queues[c] + [Sent(y.p, c, s.threads[i].regs)]
    requires Chan(y, c) && y.p.chans[c].from < |vis| && y.p.chans[c].to < |vis|
    ensures ChanHolds(y, n, s', vis, c)
  {
    hide Sound, Placed, RegsHold, ChansHold, MemHolds, Chan, Did, Vals, Visits, ValueAt, Moving, Ticked, Sent;
    SendFacts(y, n, s, vis, i, c);
    SendValue(y, n, s, vis, i, c);
    ChanOf(y, n, s, vis, c);
    TickDid(y, n, s, s', vis, i, i, Produce(c));
    TickDid(y, n, s, s', vis, i, y.p.chans[c].to, Consume(c));
    ValsAt(y, c, vis[i], n);
  }

  /** The channel received from holds one value less, and what was taken is the value owed for this visit. */
  lemma ChanGot(y: System, n: nat, s: State, s': State, vis: seq<nat>, i: nat, c: nat)
    requires Inv(y, n, s, vis) && Moving(y, n, s, vis, i) && Ticked(s, s', i) && OpAt(y, s, i) == Consume(c)
    requires c < |y.p.chans|
    requires i < |vis| && vis[i] < n && c < |s.queues| == |s'.queues| && |s.queues[c]| > 0
    requires s'.queues[c] == s.queues[c][1..]
    requires Chan(y, c) && y.p.chans[c].from < |vis| && y.p.chans[c].to < |vis|
    ensures ChanHolds(y, n, s', vis, c) && s.queues[c][0] == ValueAt(y, c, vis[i])
  {
    hide Sound, Placed, RegsHold, ChansHold, MemHolds, Chan, Did, Vals, Visits, ValueAt, Moving, Ticked, Sent;
    GetFacts(y, n, s, vis, i, c);
    ChanOf(y, n, s, vis, c);
    TickDid(y, n, s, s', vis, i, i, Consume(c));
    TickDid(y, n, s, s', vis, i, y.p.chans[c].from, Produce(c));
    ValsAt(y, c, vis[i], n);
  }

  lemma ChansAfter(y: System, n: nat, s: State, s': State, vis: seq<nat>, i: nat, c: nat)
    requires Inv(y, n, s, vis) && Moving(y, n, s, vis, i) && Ticked(s, s', i) && Placed(y, n, s', vis)
    requires OpAt(y, s, i) == Produce(c) || OpAt(y, s, i) == Consume(c)
    requires c < |y.p.chans| == |s.queues| && Chan(y, c) && y.p.chans[c].from < |vis| && y.p.chans[c].to < |vis|
    requires |s'.queues| == |s.queues| && ChanHolds(y, n, s', vis, c)
    requires forall d :: 0 <= d < |s.queues| && d != c ==> s'.queues[d] == s.queues[d]
    ensures ChansHold(y, n, s', vis)
  {
    hide Sound, ChanHolds, Moving, Inv, Ticked, Chan, Placed;
    forall d: nat | d < |y.p.chans|
      ensures Chan(y, d) && ToThread(y, d) && y.p.chans[d].from < |vis| && y.p.chans[d].to < |vis|
      ensures d < |s'.queues| && ChanHolds(y, n, s', vis, d)
    {
      ChanOf(y, n, s, vis, d);
      if d != c { ChanKept(y, n, s, s', vis, i, d); }
    }
  }

  // ---- registers when nothing is computed ----

  /** Thread `i` sends or receives; at most the register of what it receives changes. */
  ghost predicate Moves(y: System, s: State, s': State, i: nat, c: nat, v: int) {
    && Ticked(s, s', i) && c < |y.p.chans| && s.threads[i].pc < |y.p.Code(i, s.threads[i].block)|
    && (OpAt(y, s, i) == Produce(c) || OpAt(y, s, i) == Consume(c))
    && (s'.threads[i].regs == if OpAt(y, s, i) == Consume(c) && FirstReg(y.p, c) then s.threads[i].regs[y.p.chans[c].u := v] else s.threads[i].regs)
  }

  /** Sending and receiving touch no register but that of a received value. */
  lemma MoveFrame(y: System, s: State, s': State, i: nat, c: nat, v: int, u: Inst)
    requires Moves(y, s, s', i, c, v)
    requires OpAt(y, s, i) == Consume(c) && FirstReg(y.p, c) ==> y.p.chans[c].u != u
    ensures Ticked(s, s', i) && SameAt(s'.threads[i].regs, s.threads[i].regs, u)
  {
    hide OpAt, FirstReg;
  }

  lemma MoveDid(y: System, n: nat, s: State, s': State, vis: seq<nat>, i: nat, c: nat, v: int, j: nat, op: Op)
    requires Moving(y, n, s, vis, i) && Moves(y, s, s', i, c, v) && (op.Consume? ==> OpAt(y, s, i) != op)
    requires !op.Produce?
    ensures y.r.Valid() && |vis| == |s.threads| && (Did(y, s', j, op) <==> Did(y, s, j, op))
  {
    hide GoodPlan, GoodBranches, UsesCovered, ConflictsCovered, Run.Valid, OpAt, Did, FirstReg;
    TickDid(y, n, s, s', vis, i, j, op);
  }

  lemma MoveOwn(y: System, n: nat, s: State, s': State, vis: seq<nat>, i: nat, c: nat, v: int, u: Inst)
    requires Moving(y, n, s, vis, i) && Moves(y, s, s', i, c, v)
    requires OpAt(y, s, i) == Consume(c) ==> y.p.chans[c].u in y.p.owner && y.p.owner[y.p.chans[c].u] != i
    requires y.r.Valid() && |vis| == |s.threads| == |s'.threads|
    requires u in y.p.owner && y.p.owner[u] < |vis| && OwnReg(y, s, vis, y.p.owner[u], u)
    ensures OwnReg(y, s', vis, y.p.owner[u], u)
  {
    hide Moving, Moves, Did, Run.RegAt, Run.Valid, OpAt, Ticked;
    MoveDid(y, n, s, s', vis, i, c, v, y.p.owner[u], Clone(u));
    if y.p.owner[u] == i { MoveFrame(y, s, s', i, c, v, u); }
    hide FirstReg;
    MoveTicked(y, s, s', i, c, v);
    RegKept(y, s, s', vis, i, y.p.owner[u], u, Clone(u));
  }

  lemma MoveTicked(y: System, s: State, s': State, i: nat, c: nat, v: int)
    requires Moves(y, s, s', i, c, v)
    ensures Ticked(s, s', i)
  {
  }

  lemma FirstRegUnique(p: Plan, c: nat, d: nat)
    requires c < |p.chans| && d < |p.chans| && FirstReg(p, c) && FirstReg(p, d)
    requires p.chans[c].u == p.chans[d].u && p.chans[c].to == p.chans[d].to
    ensures c == d
  {
  }

  /** A received register value takes the place of all uses of that instruction (DSWP_5.cpp:148-154). */
  lemma MoveFirst(y: System, s: State, s': State, i: nat, c: nat, v: int)
    requires Moves(y, s, s', i, c, v) && OpAt(y, s, i) == Consume(c) && FirstReg(y.p, c)
    ensures y.p.chans[c].u in s'.threads[i].regs && s'.threads[i].regs[y.p.chans[c].u] == v
  {
    hide OpAt, FirstReg;
  }

  lemma MoveCopied(y: System, n: nat, s: State, s': State, vis: seq<nat>, i: nat, c: nat, v: int, d: nat)
    requires Moving(y, n, s, vis, i) && Moves(y, s, s', i, c, v)
    requires c < |y.p.chans| && d < |y.p.chans| && FirstReg(y.p, d) && y.p.chans[d].to < |vis|
    requires OpAt(y, s, i) == Consume(c) ==> y.p.chans[c].to == i
    requires OpAt(y, s, i) != Consume(d) && i < |s.threads| && s.threads[i].pc < |y.p.Code(i, s.threads[i].block)|
    requires y.r.Valid() && |vis| == |s.threads| == |s'.threads| && CopiedReg(y, s, vis, d)
    ensures CopiedReg(y, s', vis, d)
  {
    hide Moving, Moves, Did, Run.RegAt, Run.Valid, OpAt, Ticked, FirstReg;
    var to, u := y.p.chans[d].to, y.p.chans[d].u;
    MoveDid(y, n, s, s', vis, i, c, v, to, Consume(d));
    if to == i {
      if OpAt(y, s, i) == Consume(c) && FirstReg(y.p, c) && u == y.p.chans[c].u { FirstRegUnique(y.p, c, d); }
      MoveFrame(y, s, s', i, c, v, u);
    }
    MoveTicked(y, s, s', i, c, v);
    RegKept(y, s, s', vis, i, to, u, Consume(d));
  }

  lemma MoveReceived(y: System, n: nat, s: State, s': State, vis: seq<nat>, i: nat, c: nat, v: int)
    requires Moving(y, n, s, vis, i) && Moves(y, s, s', i, c, v) && OpAt(y, s, i) == Consume(c) && FirstReg(y.p, c)
    requires c < |y.p.chans| && y.p.chans[c].to == i && i < |vis| == |s'.threads| && y.r.Valid()
    requires SameAt(map[y.p.chans[c].u := v], y.r.RegAt(vis[i], y.p.chans[c].u, true), y.p.chans[c].u)
    ensures CopiedReg(y, s', vis, c)
  {
    hide Moving, Moves, Did, Run.RegAt, Run.Valid, OpAt, Ticked, FirstReg;
    MoveTicked(y, s, s', i, c, v);
    TickDid(y, n, s, s', vis, i, i, Consume(c));
    MoveFirst(y, s, s', i, c, v);
  }

  /** In a visit of its block every instruction but the terminator defines its register. */
  lemma DefinedAfter(y: System, n: nat, t: nat, u: Inst)
    requires Sound(y, n) && t < n && u in y.r.l.parent && !y.r.l.IsTerm(u) && y.r.Blk(t) == y.r.l.parent[u]
    ensures u in y.r.RegAt(t, u, true) && y.r.RegAt(t, u, true) == y.r.At(t + 1).regs
  {
    hide GoodPlan, GoodBranches, UsesCovered, ConflictsCovered, Run.Conf, EffectOf;
    var e := Event(t, y.r.l.Idx(u));
    assert Occurs(y.r, n, e) && InstOf(y.r, e) == u;
    NewReg(y.r, n, e);
  }

  lemma ReceivedReg(y: System, n: nat, s: State, vis: seq<nat>, i: nat, c: nat, v: int)
    requires Sound(y, n) && Placed(y, n, s, vis) && i < |vis| && vis[i] < n && OpAt(y, s, i) == Consume(c)
    requires Chan(y, c) && v == ValueAt(y, c, vis[i]) && FirstReg(y.p, c)
    ensures SameAt(map[y.p.chans[c].u := v], y.r.RegAt(vis[i], y.p.chans[c].u, true), y.p.chans[c].u)
  {
    hide Sound, Placed, Run.Conf, Did, FirstReg, Run.RegAt, Run.At, Run.Blk, Run.Valid, Loop.Valid, Loop.IsTerm, Plan.Code, OpAt;
    GetFacts(y, n, s, vis, i, c);
    ChanFacts(y, n, c);
    assert y.p.chans[c].dtype == REG by { FirstIsReg(y.p, c); }
    DefinedAfter(y, n, vis[i], y.p.chans[c].u);
  }

  lemma FirstIsReg(p: Plan, c: nat)
    requires c < |p.chans| && FirstReg(p, c)
    ensures p.chans[c].dtype == REG
  {
  }

  lemma MoveAllOwn(y: System, n: nat, s: State, s': State, vis: seq<nat>, i: nat, c: nat, v: int)
    requires Inv(y, n, s, vis) && Moving(y, n, s, vis, i) && Moves(y, s, s', i, c, v) && Placed(y, n, s', vis)
    requires OpAt(y, s, i) == Consume(c) ==> y.p.chans[c].u in y.p.owner && y.p.owner[y.p.chans[c].u] != i
    requires y.r.Valid() && |vis| == |s.threads| == |s'.threads|
    ensures OwnRegs(y, s', vis)
  {
    hide Sound, OwnReg, Moving, Moves, RegsHold, Inv, Run.RegAt, OpAt, Placed;
    forall u | u in y.r.l.parent && !y.r.l.IsTerm(u)
      ensures u in y.p.owner && y.p.owner[u] < |vis| == |s'.threads| && OwnReg(y, s', vis, y.p.owner[u], u)
    {
      OwnRegOf(y, n, s, vis, u);
      MoveOwn(y, n, s, s', vis, i, c, v, u);
    }
  }

  lemma MoveAllCopied(y: System, n: nat, s: State, s': State, vis: seq<nat>, i: nat, c: nat, v: int)
    requires Inv(y, n, s, vis) && Moving(y, n, s, vis, i) && Moves(y, s, s', i, c, v) && Placed(y, n, s', vis)
    requires OpAt(y, s, i) == Consume(c) ==> y.p.chans[c].to == i
    requires OpAt(y, s, i) == Consume(c) && FirstReg(y.p, c) ==>
               y.r.Valid() && SameAt(map[y.p.chans[c].u := v], y.r.RegAt(vis[i], y.p.chans[c].u, true), y.p.chans[c].u)
    requires y.r.Valid() && |vis| == |s.threads| == |s'.threads| && i < |vis| && c < |y.p.chans|
    requires s.threads[i].pc < |y.p.Code(i, s.threads[i].block)|
    requires (OpAt(y, s, i) == Produce(c) || OpAt(y, s, i) == Consume(c))
    ensures CopiedRegs(y, s', vis)
  {
    hide Sound, CopiedReg, Moving, Moves, RegsHold, Inv, Run.RegAt, OpAt, Placed, FirstReg;
    forall d: nat | d < |y.p.chans| && FirstReg(y.p, d)
      ensures y.p.chans[d].to < |vis| == |s'.threads| && CopiedReg(y, s', vis, d)
    {
      CopiedRegOf(y, n, s, vis, d);
      if OpAt(y, s, i) == Consume(d) {
        MoveReceived(y, n, s, s', vis, i, c, v);
      } else {
        MoveCopied(y, n, s, s', vis, i, c, v, d);
      }
    }
  }

  lemma MoveRegs(y: System, n: nat, s: State, s': State, vis: seq<nat>, i: nat, c: nat, v: int)
    requires Inv(y, n, s, vis) && Moving(y, n, s, vis, i) && Moves(y, s, s', i, c, v) && Placed(y, n, s', vis)
    requires OpAt(y, s, i) == Consume(c) ==> Chan(y, c) && v == ValueAt(y, c, vis[i])
    ensures RegsHold(y, n, s', vis)
  {
    SystemFacts(y, n, s, vis);
    SystemFacts(y, n, s', vis);
    ChanFacts(y, n, c);
    if OpAt(y, s, i) == Consume(c) {
      GetFacts(y, n, s, vis, i, c);
      if FirstReg(y.p, c) { ReceivedReg(y, n, s, vis, i, c, v); }
    }
    hide RegsHold, OwnRegs, CopiedRegs, Placed, GoodPlan, GoodBranches, UsesCovered, ConflictsCovered, FirstReg;
    hide Run.RegAt;
    MoveAllOwn(y, n, s, s', vis, i, c, v);
    MoveAllCopied(y, n, s, s', vis, i, c, v);
    RegsBack(y, n, s', vis);
  }

  lemma FireSend(y: System, s: State, i: nat, c: nat)
    requires y.r.l.Valid() && Enabled(y, s, i) && OpAt(y, s, i) == Produce(c)
    ensures c < |y.p.chans| && c < |s.queues|
    ensures var s' := Fire(y, s, i);
            Moves(y, s, s', i, c, 0) && s'.mem == s.mem && s'.queues == s.queues[c := s.queues[c] + [Sent(y.p, c, s.threads[i].regs)]]
  {
  }

  lemma FireGet(y: System, s: State, i: nat, c: nat)
    requires y.r.l.Valid() && Enabled(y, s, i) && OpAt(y, s, i) == Consume(c)
    ensures c < |y.p.chans| && c < |s.queues| && |s.queues[c]| > 0
    ensures var s' := Fire(y, s, i);
            Moves(y, s, s', i, c, s.queues[c][0]) && s'.mem == s.mem && s'.queues == s.queues[c := s.queues[c][1..]]
  {
    hide FirstReg;
  }

  lemma SendStep(y: System, n: nat, s: State, s': State, vis: seq<nat>, i: nat, c: nat)
    requires Inv(y, n, s, vis) && Moving(y, n, s, vis, i) && OpAt(y, s, i) == Produce(c) && Fires(y, s, s', i)
    ensures Inv(y, n, s', vis)
  {
    hide RegsHold, ChansHold, MemHolds, Placed, GoodPlan, GoodBranches, UsesCovered, ConflictsCovered, Runs, FirstReg;
    hide Fire, ChanHolds;
    FireSend(y, s, i, c);
    SystemFacts(y, n, s, vis);
    SendFacts(y, n, s, vis, i, c);
    MoveTicked(y, s, s', i, c, 0);
    TickPlaced(y, n, s, s', vis, i);
    MoveRegs(y, n, s, s', vis, i, c, 0);
    ChanSent(y, n, s, s', vis, i, c);
    ChansAfter(y, n, s, s', vis, i, c);
    MemKept(y, n, s, s', vis, i);
  }

  lemma GetStep(y: System, n: nat, s: State, s': State, vis: seq<nat>, i: nat, c: nat)
    requires Inv(y, n, s, vis) && Moving(y, n, s, vis, i) && OpAt(y, s, i) == Consume(c) && Fires(y, s, s', i)
    ensures Inv(y, n, s', vis)
  {
    hide RegsHold, ChansHold, MemHolds, Placed, GoodPlan, GoodBranches, UsesCovered, ConflictsCovered, Runs, FirstReg;
    hide Fire, ChanHolds;
    FireGet(y, s, i, c);
    SystemFacts(y, n, s, vis);
    GetFacts(y, n, s, vis, i, c);
    MoveTicked(y, s, s', i, c, s.queues[c][0]);
    TickPlaced(y, n, s, s', vis, i);
    ChanGot(y, n, s, s', vis, i, c);
    MoveRegs(y, n, s, s', vis, i, c, s.queues[c][0]);
    ChansAfter(y, n, s, s', vis, i, c);
    MemKept(y, n, s, s', vis, i);
  }
}
