/** The worker threads at run time: a transition system over their blocks, registers, the bounded channels between
    them and the shared memory, and the simulation relation that ties it to the sequential loop. */
module Pipeline {
  import opened Ir
  import opened PostDominance
  import opened PeeledLoop
  import opened Slicing
  import opened Plan
  import opened Sequential
  import opened Conflicts
  import opened Trace

  datatype Thread = Thread(block: Block, pc: nat, regs: Regs)

  datatype State = State(mem: Memory, queues: seq<seq<int>>, threads: seq<Thread>)

  /** `cap` is the capacity of a channel, `edges` the dependence graph the split was made from. */
  datatype System = System(p: Plan, r: Run, cap: nat, edges: seq<Edge>, ip: map<Block, Block>)

  // ---- steps ----

  /** Of several register channels that bring `u` to one thread only the first one's value is used. */
  predicate FirstReg(p: Plan, c: nat)
    requires c < |p.chans|
  {
    && p.chans[c].dtype == REG
    && forall d :: 0 <= d < c ==> p.chans[d].dtype != REG || p.chans[d].u != p.chans[c].u || p.chans[d].to != p.chans[c].to
  }

  function OpAt(y: System, s: State, i: nat): Op
    requires i < |s.threads| && s.threads[i].pc < |y.p.Code(i, s.threads[i].block)|
  {
    y.p.Code(i, s.threads[i].block)[s.threads[i].pc]
  }

  /** Thread `i` has not returned and its next operation does not block. */
  ghost predicate Enabled(y: System, s: State, i: nat) {
    && i < |s.threads| && s.threads[i].block != y.r.l.exit
    && s.threads[i].pc < |y.p.Code(i, s.threads[i].block)|
    && match OpAt(y, s, i)
       case Clone(x) => s.threads[i].block in y.r.l.blocks
       case Produce(c) => c < |s.queues| && c < |y.p.chans| && |s.queues[c]| < y.cap
       case Consume(c) => c < |s.queues| && c < |y.p.chans| && |s.queues[c]| > 0
  }

  function Sent(p: Plan, c: nat, regs: Regs): int
    requires c < |p.chans|
  {
    if p.chans[c].dtype == REG then Lookup(regs, p.chans[c].u) else 0
  }

  /** A terminator whose redirected targets agree has become unconditional. */
  function Next(targets: seq<Block>, choice: nat, exit: Block): Block {
    if targets == [] then exit
    else if forall j :: 0 <= j < |targets| ==> targets[j] == targets[0] then targets[0]
    else if choice < |targets| then targets[choice] else targets[0]
  }

  ghost function Fire(y: System, s: State, i: nat): State
    requires y.r.l.Valid() && Enabled(y, s, i)
  {
    var th := s.threads[i];
    match OpAt(y, s, i)
    case Clone(x) =>
      if x == y.r.l.Term(th.block) then
        var next := Next(y.p.Targets(i, th.block), y.r.m.choose(x, y.r.m.Operands(x, th.regs)), y.r.l.exit);
        s.(threads := s.threads[i := Thread(next, 0, th.regs)])
      else
        var e := y.r.m.effect(x, y.r.m.Operands(x, th.regs), s.mem);
        s.(mem := s.mem + e.stores, threads := s.threads[i := Thread(th.block, th.pc + 1, th.regs[x := e.value])])
    case Produce(c) =>
      s.(queues := s.queues[c := s.queues[c] + [Sent(y.p, c, th.regs)]],
         threads := s.threads[i := th.(pc := th.pc + 1)])
    case Consume(c) =>
      var regs := if FirstReg(y.p, c) then th.regs[y.p.chans[c].u := s.queues[c][0]] else th.regs;
      s.(queues := s.queues[c := s.queues[c][1..]],
         threads := s.threads[i := Thread(th.block, th.pc + 1, regs)])
  }

  /** All threads at the header, all channels empty, no register of the loop defined. */
  function Initial(y: System): State {
    State(y.r.init.mem,
          seq(|y.p.chans|, c => []),
          seq(|y.p.kept|, i => Thread(y.r.l.header, 0, map[])))
  }

  ghost predicate CanMove(y: System, s: State) {
    exists i: nat :: Enabled(y, s, i)
  }

  ghost predicate Finished(y: System, s: State) {
    forall i :: 0 <= i < |s.threads| ==> s.threads[i].block == y.r.l.exit
  }

  /** Some interleaving from the start: `who[k]` moves in the `k`-th step. */
  ghost predicate IsRun(y: System, ss: seq<State>, who: seq<nat>)
    requires y.r.l.Valid()
  {
    && |ss| == |who| + 1 && ss[0] == Initial(y)
    && forall k {:trigger who[k]} :: 0 <= k < |who| ==> Enabled(y, ss[k], who[k]) && ss[k + 1] == Fire(y, ss[k], who[k])
  }

  // ---- what the pass guarantees and what it is given ----

  ghost predicate ChannelFor(p: Plan, e: Edge, to: nat)
    requires p.Shape() && e.u in p.l.parent
  {
    exists c :: 0 <= c < |p.chans| && p.chans[c] == Channel(e.u, e.v, e.dtype, p.owner[e.u], to)
  }

  ghost predicate GoodPlan(y: System) {
    && y.p.GoodCode() && y.p.l == y.r.l && y.cap > 0
    && (forall x :: x in y.r.l.parent ==> y.p.owner[x] < |y.p.kept|)
    && (forall i :: 0 <= i < |y.p.kept| ==> y.p.Keeps(i, y.r.l.header))
    && (forall e :: e in y.edges ==> e.u in y.r.l.parent && e.v in y.r.l.parent && y.p.owner[e.u] <= y.p.owner[e.v])
    && (forall x :: x in y.r.l.parent ==> y.p.Keeps(y.p.owner[x], y.r.l.parent[x]))
    && (forall e, to :: e in y.edges && y.p.owner[e.u] < to < |y.p.kept| && y.p.HasCopy(to, e.v) ==> ChannelFor(y.p, e, to))
    && (forall c :: c in y.p.chans && c.dtype == REG ==> !y.r.l.IsTerm(c.u))
  }

  /** The copy of `b`'s branch has its operands or needs none. */
  ghost predicate Decides(p: Plan, i: nat, b: Block)
    requires p.l.Valid()
  {
    && b in p.l.blocks && p.l.Term(b) in p.owner
    && (p.owner[p.l.Term(b)] <= i || forall t :: t in p.Targets(i, b) ==> t == p.Targets(i, b)[0])
  }

  ghost predicate GoodBranches(y: System)
    requires GoodPlan(y)
  {
    && Usable(LoopGraph(y.r.l)) && IsIPDom(LoopGraph(y.r.l), y.ip) && y.p.GoodTargets(y.ip)
    && (forall i :: 0 <= i < |y.p.kept| ==> ControlClosed(LoopGraph(y.r.l), y.p.kept[i]))
    && (forall i: nat, b :: y.p.Keeps(i, b) ==> Decides(y.p, i, b))
  }

  ghost predicate UsesCovered(y: System)
    requires y.r.l.Valid()
  {
    forall x, u :: x in y.r.l.parent && u in y.r.m.Uses(x) ==>
      u in y.r.l.parent && !y.r.l.IsTerm(u) && Edge(u, x, REG) in y.edges
  }

  /** `d` comes before `e` in the sequential run. */
  predicate Precedes(d: Event, e: Event) {
    d.t < e.t || (d.t == e.t && d.k < e.k)
  }

  /** `d` comes before `e` in the sequential run, and one of them writes a cell the other reads or writes. */
  ghost predicate Clash(r: Run, n: nat, d: Event, e: Event)
    requires Runs(r, n) && Occurs(r, n, d) && Occurs(r, n, e)
  {
    var a, b := EffectOf(r, d), EffectOf(r, e);
    && Precedes(d, e)
    && (a.stores.Keys * b.stores.Keys != {} || a.stores.Keys * b.loads != {} || a.loads * b.stores.Keys != {})
  }

  /** `d` comes before `e`, and the two are in one thread or joined by a dependence. */
  ghost predicate Linked(y: System, n: nat, d: Event, e: Event)
    requires Runs(y.r, n) && Occurs(y.r, n, d) && Occurs(y.r, n, e)
  {
    var u, v := InstOf(y.r, d), InstOf(y.r, e);
    && Precedes(d, e) && u in y.p.owner && v in y.p.owner
    && (y.p.owner[u] == y.p.owner[v] || exists ty :: Edge(u, v, ty) in y.edges)
  }

  ghost predicate Chain(y: System, n: nat, es: seq<Event>)
    requires Runs(y.r, n)
  {
    && |es| > 0 && (forall i :: 0 <= i < |es| ==> Occurs(y.r, n, es[i]))
    && (forall i, j :: 0 <= i && j == i + 1 && j < |es| ==> Linked(y, n, es[i], es[j]))
  }

  /** Whatever clashes is joined by a chain of instances. */
  ghost predicate ConflictsCovered(y: System, n: nat)
    requires Runs(y.r, n)
  {
    forall d, e :: Occurs(y.r, n, d) && Occurs(y.r, n, e) && Clash(y.r, n, d, e) ==>
      exists es :: Chain(y, n, es) && es[0] == d && es[|es| - 1] == e
  }

  lemma EventInst(r: Run, n: nat, e: Event)
    requires Runs(r, n) && Occurs(r, n, e)
    ensures InstOf(r, e) in r.l.parent
  {
    hide Machine.Valid, Run.Conf;
    assert InstOf(r, e) in r.l.body[r.Blk(e.t)];
  }

  /** An edge of any type for each clash between threads is enough. */
  lemma DirectEdgesCover(y: System, n: nat)
    requires Runs(y.r, n) && forall x :: x in y.r.l.parent ==> x in y.p.owner
    requires forall d, e :: Occurs(y.r, n, d) && Occurs(y.r, n, e) && Clash(y.r, n, d, e) ==>
               var u, v := InstOf(y.r, d), InstOf(y.r, e);
               (u in y.p.owner && v in y.p.owner && y.p.owner[u] == y.p.owner[v]) || exists ty :: Edge(u, v, ty) in y.edges
    ensures ConflictsCovered(y, n)
  {
    hide Runs, Occurs, EffectOf, InstOf;
    forall d, e | Occurs(y.r, n, d) && Occurs(y.r, n, e) && Clash(y.r, n, d, e)
      ensures exists es :: Chain(y, n, es) && es[0] == d && es[|es| - 1] == e
    {
      EventInst(y.r, n, d);
      EventInst(y.r, n, e);
      assert Linked(y, n, d, e);
      assert Chain(y, n, [d, e]);
    }
  }

  /** Everything the meaning of the pipeline rests on. */
  ghost predicate Sound(y: System, n: nat) {
    && GoodPlan(y) && GoodBranches(y) && Runs(y.r, n) && y.r.init.regs == map[]
    && UsesCovered(y) && ConflictsCovered(y, n)
  }
}
