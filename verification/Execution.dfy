/** Which instruction instances have taken place, and why conflicting ones take place in program order. */
module Execution {
  import opened Ir
  import opened PeeledLoop
  import opened Plan
  import opened Sequential
  import opened Conflicts
  import opened Trace
  import opened Pipeline
  import opened Simulation
  import opened Channels

  lemma EventFacts(y: System, n: nat, e: Event)
    requires Sound(y, n) && Occurs(y.r, n, e)
    ensures y.r.Blk(e.t) in y.r.l.blocks && e.t < n && e.k < Width(y.r, e.t)
    ensures InstOf(y.r, e) in y.r.l.parent && y.r.l.parent[InstOf(y.r, e)] == y.r.Blk(e.t)
    ensures y.r.l.Idx(InstOf(y.r, e)) == e.k && !y.r.l.IsTerm(InstOf(y.r, e))
    ensures InstOf(y.r, e) in y.p.owner && y.p.owner[InstOf(y.r, e)] < |y.p.kept|
  {
    hide GoodBranches, UsesCovered, ConflictsCovered, Machine.Valid, Run.Conf, Plan.GoodList;
    y.r.l.IdxIs(y.r.Blk(e.t), e.k);
    y.r.l.IdxIs(y.r.Blk(e.t), |y.r.l.body[y.r.Blk(e.t)]| - 1);
  }

  /** The instance has taken place, in the thread that owns the instruction. */
  ghost predicate PastEvent(y: System, n: nat, s: State, vis: seq<nat>, e: Event)
    requires Sound(y, n) && Occurs(y.r, n, e)
  {
    InstOf(y.r, e) in y.p.owner && Past(y, s, vis, y.p.owner[InstOf(y.r, e)], e.t, Clone(InstOf(y.r, e)))
  }

  /** The instance has taken place or is its thread's next operation. */
  ghost predicate PastOrNext(y: System, n: nat, s: State, vis: seq<nat>, e: Event)
    requires Sound(y, n) && Occurs(y.r, n, e) && Placed(y, n, s, vis)
  {
    var x := InstOf(y.r, e);
    x in y.p.owner && y.p.owner[x] < |vis| &&
    (e.t < vis[y.p.owner[x]] ||
     (e.t == vis[y.p.owner[x]] && (Did(y, s, y.p.owner[x], Clone(x)) || OpAt(y, s, y.p.owner[x]) == Clone(x))))
  }

  /** Within one thread and one visit, operations of smaller rank come first. */
  lemma RankOrder(y: System, n: nat, s: State, vis: seq<nat>, i: nat, op: Op, op': Op)
    requires Sound(y, n) && Placed(y, n, s, vis) && i < |vis| && vis[i] < n
    requires y.p.Belongs(i, s.threads[i].block, op) && y.p.Belongs(i, s.threads[i].block, op')
    requires y.p.Rank(op) < y.p.Rank(op') && (Did(y, s, i, op') || OpAt(y, s, i) == op')
    ensures Did(y, s, i, op)
  {
    hide GoodBranches, Runs, UsesCovered, ConflictsCovered;
    if Did(y, s, i, op') { DidRank(y, n, s, vis, i, op'); }
    DidBefore(y, n, s, vis, i, op);
  }

  lemma CloneOrder(y: System, n: nat, s: State, vis: seq<nat>, i: nat, u: Inst, v: Inst)
    requires Sound(y, n) && Placed(y, n, s, vis) && i < |vis| && vis[i] < n
    requires u in y.r.l.parent && v in y.r.l.parent && y.r.l.parent[u] == s.threads[i].block == y.r.l.parent[v]
    requires u in y.p.owner && v in y.p.owner && y.p.owner[u] == i == y.p.owner[v] && y.r.l.Idx(u) < y.r.l.Idx(v)
    requires Did(y, s, i, Clone(v)) || OpAt(y, s, i) == Clone(v)
    ensures Did(y, s, i, Clone(u))
  {
    hide GoodBranches, Runs, UsesCovered, ConflictsCovered, Did;
    RankOrder(y, n, s, vis, i, Clone(u), Clone(v));
  }

  /** The same for an instance of a later instruction of the same thread. */
  lemma OwnOrder(y: System, n: nat, s: State, vis: seq<nat>, d: Event, e: Event)
    requires Sound(y, n) && Placed(y, n, s, vis) && Occurs(y.r, n, d) && Occurs(y.r, n, e)
    requires d.t < e.t || (d.t == e.t && d.k < e.k)
    requires InstOf(y.r, d) in y.p.owner && InstOf(y.r, e) in y.p.owner
    requires y.p.owner[InstOf(y.r, d)] == y.p.owner[InstOf(y.r, e)] && PastOrNext(y, n, s, vis, e)
    ensures PastEvent(y, n, s, vis, d)
  {
    EventFacts(y, n, d);
    EventFacts(y, n, e);
    hide GoodBranches, GoodPlan, Runs, UsesCovered, ConflictsCovered, Did, Run.Valid;
    var i, u, v := y.p.owner[InstOf(y.r, e)], InstOf(y.r, d), InstOf(y.r, e);
    hide InstOf;
    if d.t == vis[i] { CloneOrder(y, n, s, vis, i, u, v); }
  }

  lemma GetRank(p: Plan, c: nat, v: Inst)
    requires p.Shape() && c < |p.chans| && p.chans[c].u in p.l.parent && v in p.l.parent
    requires p.l.parent[p.chans[c].u] == p.l.parent[v] && p.owner[v] == p.chans[c].to
    requires p.l.Idx(p.chans[c].u) < p.l.Idx(v)
    ensures p.Rank(Consume(c)) < p.Rank(Clone(v))
  {
    var u := p.chans[c].u;
    var m := p.NextCloned(p.chans[c].to, p.l.parent[u], p.l.Idx(u));
    assert m <= p.l.Idx(v);
  }

  lemma GetBelongs(p: Plan, i: nat, b: Block, c: nat, v: Inst)
    requires p.Shape() && c < |p.chans| && p.chans[c].to == i && p.chans[c].u in p.l.parent
    requires p.l.parent[p.chans[c].u] == b
    requires v in p.l.parent && p.l.parent[v] == b && p.owner[v] == i
    ensures p.Belongs(i, b, Consume(c)) && p.Belongs(i, b, Clone(v))
  {
  }

  lemma SamePlan(y: System, n: nat)
    requires Sound(y, n)
    ensures y.p.l == y.r.l && y.r.Valid()
  {
    hide GoodBranches, UsesCovered, ConflictsCovered, Plan.GoodCode;
  }

  /** A receive for `u` comes before every copy of a later instruction of the block. */
  lemma GetBeforeClone(y: System, n: nat, s: State, vis: seq<nat>, i: nat, c: nat, v: Inst)
    requires Sound(y, n) && Placed(y, n, s, vis) && i < |vis| && vis[i] < n
    requires c < |y.p.chans| && y.p.chans[c].to == i && y.p.chans[c].u in y.r.l.parent && v in y.r.l.parent
    requires y.r.l.parent[y.p.chans[c].u] == s.threads[i].block == y.r.l.parent[v]
    requires v in y.p.owner && y.p.owner[v] == i && y.r.l.Idx(y.p.chans[c].u) < y.r.l.Idx(v)
    requires Did(y, s, i, Clone(v)) || OpAt(y, s, i) == Clone(v)
    ensures Did(y, s, i, Consume(c))
  {
    ShapeOf(y, n);
    SamePlan(y, n);
    hide Sound, Did, Placed, Run.Valid;
    GetRank(y.p, c, v);
    GetBelongs(y.p, i, s.threads[i].block, c, v);
    hide Plan.Rank, Plan.Shape, Plan.Belongs;
    RankOrder(y, n, s, vis, i, Consume(c), Clone(v));
  }

  lemma SendRank(p: Plan, c: nat)
    requires p.Shape() && c < |p.chans| && p.chans[c].u in p.l.parent && !p.l.IsTerm(p.chans[c].u)
    ensures p.Rank(Clone(p.chans[c].u)) < p.Rank(Produce(c))
  {
  }

  lemma SendBelongs(p: Plan, i: nat, b: Block, c: nat)
    requires p.Shape() && p.Belongs(i, b, Produce(c)) && p.chans[c].u in p.l.parent
    ensures p.Belongs(i, b, Clone(p.chans[c].u))
  {
    assert p.chans[c] in p.chans;
  }

  lemma DidInside(y: System, n: nat, s: State, vis: seq<nat>, i: nat, op: Op)
    requires Sound(y, n) && Placed(y, n, s, vis) && i < |vis| && Did(y, s, i, op)
    ensures y.p.Shape() && y.p.l == y.r.l && i < |s.threads| && vis[i] < n && y.p.Belongs(i, s.threads[i].block, op)
  {
    hide GoodBranches, UsesCovered, ConflictsCovered, Plan.Rank;
    DidRank(y, n, s, vis, i, op);
  }

  /** A send of `u`'s token follows `u`. */
  lemma SendAfterClone(y: System, n: nat, s: State, vis: seq<nat>, c: nat)
    requires Sound(y, n) && Placed(y, n, s, vis) && c < |y.p.chans|
    requires Chan(y, c) && !y.r.l.IsTerm(y.p.chans[c].u) && Did(y, s, y.p.chans[c].from, Produce(c))
    requires y.p.chans[c].from < |vis|
    ensures Did(y, s, y.p.chans[c].from, Clone(y.p.chans[c].u))
  {
    hide Sound, Did, Placed, Run.Valid;
    var i, u := y.p.chans[c].from, y.p.chans[c].u;
    DidInside(y, n, s, vis, i, Produce(c));
    ChanFacts(y, n, c);
    SendRank(y.p, c);
    SendBelongs(y.p, i, s.threads[i].block, c);
    hide Plan.Rank, Plan.Shape, Plan.Belongs;
    RankOrder(y, n, s, vis, i, Clone(u), Produce(c));
  }

  /** An instance in an earlier thread, ordered by a channel. */
  lemma CrossOrder(y: System, n: nat, s: State, vis: seq<nat>, d: Event, e: Event, c: nat)
    requires Sound(y, n) && Placed(y, n, s, vis) && ChansHold(y, n, s, vis) && Occurs(y.r, n, d) && Occurs(y.r, n, e)
    requires d.t < e.t || (d.t == e.t && d.k < e.k)
    requires InstOf(y.r, d) in y.p.owner && InstOf(y.r, e) in y.p.owner && PastOrNext(y, n, s, vis, e)
    requires c < |y.p.chans| && Chan(y, c) && y.p.chans[c].u == InstOf(y.r, d)
    requires y.p.chans[c].from == y.p.owner[InstOf(y.r, d)] && y.p.chans[c].to == y.p.owner[InstOf(y.r, e)]
    ensures PastEvent(y, n, s, vis, d)
  {
    EventFacts(y, n, d);
    EventFacts(y, n, e);
    hide GoodBranches, GoodPlan, Runs, UsesCovered, ConflictsCovered, Did, Run.Valid;
    var i, u, v := y.p.owner[InstOf(y.r, e)], InstOf(y.r, d), InstOf(y.r, e);
    hide InstOf;
    if d.t == vis[i] { GetBeforeClone(y, n, s, vis, i, c, v); }
    assert Past(y, s, vis, i, d.t, Consume(c));
    ReceivedWasSent(y, n, s, vis, c, d.t);
    if Did(y, s, y.p.chans[c].from, Produce(c)) { SendAfterClone(y, n, s, vis, c); }
  }

  lemma PastIsPastOrNext(y: System, n: nat, s: State, vis: seq<nat>, d: Event)
    requires Sound(y, n) && Placed(y, n, s, vis) && Occurs(y.r, n, d) && PastEvent(y, n, s, vis, d)
    ensures PastOrNext(y, n, s, vis, d)
  {
    EventFacts(y, n, d);
    hide GoodPlan, GoodBranches, UsesCovered, ConflictsCovered, Did;
  }

  lemma LinkEdge(y: System, n: nat, d: Event, e: Event) returns (ty: DType)
    requires Sound(y, n) && Occurs(y.r, n, d) && Occurs(y.r, n, e) && Linked(y, n, d, e)
    requires InstOf(y.r, d) in y.p.owner && InstOf(y.r, e) in y.p.owner
    requires y.p.owner[InstOf(y.r, d)] != y.p.owner[InstOf(y.r, e)]
    ensures y.p.Shape() && Edge(InstOf(y.r, d), InstOf(y.r, e), ty) in y.edges
    ensures y.p.owner[InstOf(y.r, d)] <= y.p.owner[InstOf(y.r, e)] < |y.p.kept|
    ensures InstOf(y.r, e) in y.r.l.parent && y.p.HasCopy(y.p.owner[InstOf(y.r, e)], InstOf(y.r, e))
  {
    EventFacts(y, n, d);
    EventFacts(y, n, e);
    hide GoodBranches, UsesCovered, ConflictsCovered, Plan.GoodList, Machine.Valid, Run.Conf;
    var u, v := InstOf(y.r, d), InstOf(y.r, e);
    ty :| Edge(u, v, ty) in y.edges;
    hide Runs;
    assert Edge(u, v, ty) in y.edges;
  }

  /** Whenever an instance is executed, what it is linked to has been. */
  lemma LinkOrder(y: System, n: nat, s: State, vis: seq<nat>, d: Event, e: Event)
    requires Sound(y, n) && Placed(y, n, s, vis) && ChansHold(y, n, s, vis) && Occurs(y.r, n, d) && Occurs(y.r, n, e)
    requires Linked(y, n, d, e) && PastOrNext(y, n, s, vis, e)
    ensures PastEvent(y, n, s, vis, d)
  {
    EventFacts(y, n, d);
    EventFacts(y, n, e);
    hide GoodBranches, GoodPlan, Runs, UsesCovered, ConflictsCovered, Did, Run.Valid, ChansHold, Placed;
    var u, v := InstOf(y.r, d), InstOf(y.r, e);
    if y.p.owner[u] == y.p.owner[v] {
      OwnOrder(y, n, s, vis, d, e);
    } else {
      var ty := LinkEdge(y, n, d, e);
      var c := EdgeChannel(y, n, Edge(u, v, ty), y.p.owner[v]);
      ChanFacts(y, n, c);
      CrossOrder(y, n, s, vis, d, e, c);
    }
  }

  lemma {:induction false} ChainOrder(y: System, n: nat, s: State, vis: seq<nat>, es: seq<Event>, k: nat)
    requires Sound(y, n) && Placed(y, n, s, vis) && ChansHold(y, n, s, vis) && Chain(y, n, es)
    requires PastOrNext(y, n, s, vis, es[|es| - 1]) && k + 1 < |es|
    ensures PastEvent(y, n, s, vis, es[k])
    decreases |es| - k
  {
    hide GoodBranches, GoodPlan, Runs, UsesCovered, ConflictsCovered, ChansHold, Placed, PastEvent, PastOrNext, Occurs, Linked;
    if k + 2 < |es| {
      ChainOrder(y, n, s, vis, es, k + 1);
      PastIsPastOrNext(y, n, s, vis, es[k + 1]);
    }
    LinkOrder(y, n, s, vis, es[k], es[k + 1]);
  }

  /** Whenever an instance is executed, every earlier instance it conflicts with has been. */
  lemma ConflictOrder(y: System, n: nat, s: State, vis: seq<nat>, d: Event, e: Event)
    requires Sound(y, n) && Placed(y, n, s, vis) && ChansHold(y, n, s, vis) && Occurs(y.r, n, d) && Occurs(y.r, n, e)
    requires Clash(y.r, n, d, e) && PastOrNext(y, n, s, vis, e)
    ensures PastEvent(y, n, s, vis, d)
  {
    hide GoodBranches, GoodPlan, Runs, UsesCovered, ChansHold, Placed, PastEvent, PastOrNext, Occurs, Linked;
    var es :| Chain(y, n, es) && es[0] == d && es[|es| - 1] == e;
    assert d != e;
    ChainOrder(y, n, s, vis, es, 0);
  }

  // ---- memory ----

  /** The numbers of the instances that have taken place. */
  ghost function DoneSet(y: System, n: nat, s: State, vis: seq<nat>): set<nat>
    requires Sound(y, n)
  {
    set a | 0 <= a < Base(Widths(y.r, n), n) && PastEvent(y, n, s, vis, EventNo(y.r, n, a))
  }

  /** Memory is what the instances that have taken place would leave if executed in program order. */
  ghost predicate MemHolds(y: System, n: nat, s: State, vis: seq<nat>)
    requires Sound(y, n)
  {
    s.mem == HistoryOf(y.r, n).Partial(DoneSet(y, n, s, vis), Base(Widths(y.r, n), n))
  }

  /** The instance that thread `i` executes next, when the next operation is a copy of one of its own instructions. */
  ghost predicate NextEvent(y: System, n: nat, s: State, vis: seq<nat>, e: Event)
    requires Sound(y, n) && Placed(y, n, s, vis) && Occurs(y.r, n, e)
  {
    var x := InstOf(y.r, e);
    x in y.p.owner && y.p.owner[x] < |vis| && e.t == vis[y.p.owner[x]] && OpAt(y, s, y.p.owner[x]) == Clone(x)
  }

  lemma NumberedClash(r: Run, n: nat, d: Event, e: Event)
    requires Runs(r, n) && Occurs(r, n, d) && Occurs(r, n, e)
    ensures Num(Widths(r, n), d) < |HistoryOf(r, n).loads| && Num(Widths(r, n), e) < |HistoryOf(r, n).loads|
    ensures Clash(r, n, d, e) <==>
              && Num(Widths(r, n), d) < Num(Widths(r, n), e)
              && HistoryOf(r, n).Conflict(Num(Widths(r, n), d), Num(Widths(r, n), e))
  {
    hide Run.Valid, Run.Ends, EffectOf, Events, Base, Num;
    HistoryAt(r, n, d);
    HistoryAt(r, n, e);
    NumOrder(Widths(r, n), d, e);
  }

  lemma NextNotDone(y: System, n: nat, s: State, vis: seq<nat>, e: Event)
    requires Sound(y, n) && Placed(y, n, s, vis) && Occurs(y.r, n, e) && NextEvent(y, n, s, vis, e)
    ensures !PastEvent(y, n, s, vis, e) && PastOrNext(y, n, s, vis, e)
    ensures Num(Widths(y.r, n), e) < Base(Widths(y.r, n), n) && Num(Widths(y.r, n), e) !in DoneSet(y, n, s, vis)
  {
    EventFacts(y, n, e);
    HistoryAt(y.r, n, e);
    hide GoodBranches, Runs, UsesCovered, ConflictsCovered, Plan.GoodList, Base, Num;
    var i := y.p.owner[InstOf(y.r, e)];
    if Did(y, s, i, Clone(InstOf(y.r, e))) { DidRank(y, n, s, vis, i, Clone(InstOf(y.r, e))); }
  }

  lemma NextClashes(y: System, n: nat, s: State, vis: seq<nat>, e: Event, d: Event)
    requires Sound(y, n) && Placed(y, n, s, vis) && ChansHold(y, n, s, vis) && Occurs(y.r, n, e) && Occurs(y.r, n, d)
    requires NextEvent(y, n, s, vis, e)
    ensures Clash(y.r, n, d, e) ==> PastEvent(y, n, s, vis, d)
    ensures Clash(y.r, n, e, d) ==> !PastEvent(y, n, s, vis, d)
  {
    NextNotDone(y, n, s, vis, e);
    hide Sound, ChansHold, Placed, Clash, NextEvent, PastEvent, PastOrNext, Occurs;
    if Clash(y.r, n, d, e) { ConflictOrder(y, n, s, vis, d, e); }
    if Clash(y.r, n, e, d) && PastEvent(y, n, s, vis, d) {
      PastIsPastOrNext(y, n, s, vis, d);
      ConflictOrder(y, n, s, vis, e, d);
    }
  }

  /** The next instance conflicts with nothing later that has taken place, and with nothing earlier that has not. */
  lemma NextConflicts(y: System, n: nat, s: State, vis: seq<nat>, e: Event, a: nat, at: nat)
    requires Sound(y, n) && Placed(y, n, s, vis) && ChansHold(y, n, s, vis) && Occurs(y.r, n, e)
    requires NextEvent(y, n, s, vis, e) && at == Num(Widths(y.r, n), e)
    requires a < Base(Widths(y.r, n), n) && at < Base(Widths(y.r, n), n)
    ensures a in DoneSet(y, n, s, vis) ==> a != at && (at < a ==> !HistoryOf(y.r, n).Conflict(at, a))
    ensures a < at && HistoryOf(y.r, n).Conflict(a, at) ==> a in DoneSet(y, n, s, vis)
  {
    hide GoodPlan, GoodBranches, UsesCovered, ConflictsCovered, Base, Num, ChansHold, Placed, History.Conflict, Clash;
    hide PastEvent, NextEvent, HistoryOf;
    NextNotDone(y, n, s, vis, e);
    var d := EventNo(y.r, n, a);
    NumberedClash(y.r, n, d, e);
    NumberedClash(y.r, n, e, d);
    NextClashes(y, n, s, vis, e, d);
  }

  /** So it finds in memory what the sequential run had there. */
  lemma LoadsRight(y: System, n: nat, s: State, vis: seq<nat>, e: Event, c: int)
    requires Sound(y, n) && Placed(y, n, s, vis) && ChansHold(y, n, s, vis) && MemHolds(y, n, s, vis)
    requires Occurs(y.r, n, e) && NextEvent(y, n, s, vis, e) && c in EffectOf(y.r, e).loads
    ensures y.r.Blk(e.t) != y.r.l.exit && e.k <= Width(y.r, e.t)
    ensures SameAt(s.mem, y.r.Mid(e.t, e.k).mem, c)
  {
    EventFacts(y, n, e);
    HistoryAt(y.r, n, e);
    NextNotDone(y, n, s, vis, e);
    FullAtEvent(y.r, n, e);
    var h, at, size, done := HistoryOf(y.r, n), Num(Widths(y.r, n), e), Base(Widths(y.r, n), n), DoneSet(y, n, s, vis);
    assert s.mem == h.Partial(done, size) && h.Full(at) == y.r.Mid(e.t, e.k).mem;
    assert h.Valid() && |h.stores| == size && c in h.loads[at];
    hide DoneSet, HistoryOf, Base, Num, ChansHold, Placed, Run.Mid, EffectOf, History.Partial, History.Full;
    hide PastEvent, MemHolds;
    forall a | 0 <= a < size
      ensures a < at && c in h.stores[a] ==> a in done
      ensures at <= a && a in done ==> c !in h.stores[a]
    {
      NextConflicts(y, n, s, vis, e, a, at);
      h.SharedCell(a, at, c);
    }
    hide Sound;
    h.ReadsAgree(done, at, size, c);
  }

  /** The next copy of an own instruction has the effect its instance has in the sequential run. */
  lemma EffectRight(y: System, n: nat, s: State, vis: seq<nat>, e: Event)
    requires Sound(y, n) && Placed(y, n, s, vis) && RegsHold(y, n, s, vis) && ChansHold(y, n, s, vis)
    requires MemHolds(y, n, s, vis) && Occurs(y.r, n, e) && NextEvent(y, n, s, vis, e)
    ensures var x := InstOf(y.r, e);
            y.r.m.effect(x, y.r.m.Operands(x, s.threads[y.p.owner[x]].regs), s.mem) == EffectOf(y.r, e)
  {
    EventFacts(y, n, e);
    var x := InstOf(y.r, e);
    var i, seqSt := y.p.owner[x], y.r.Mid(e.t, e.k);
    forall u | u in y.r.m.Uses(x) ensures SameAt(s.threads[i].regs, seqSt.regs, u) { OperandRight(y, n, s, vis, i, x, u); }
    forall c | c in EffectOf(y.r, e).loads ensures SameAt(seqSt.mem, s.mem, c) { LoadsRight(y, n, s, vis, e, c); }
    hide GoodPlan, GoodBranches, UsesCovered, ConflictsCovered, RegsHold, ChansHold, MemHolds, Placed, Run.Mid;
    hide Run.Conf;
    y.r.m.OperandsAgree(x, s.threads[i].regs, seqSt.regs);
  }

  /** Executing it keeps the memory invariant. */
  lemma MemoryAfter(y: System, n: nat, s: State, vis: seq<nat>, e: Event)
    requires Sound(y, n) && Placed(y, n, s, vis) && ChansHold(y, n, s, vis) && MemHolds(y, n, s, vis)
    requires Occurs(y.r, n, e) && NextEvent(y, n, s, vis, e)
    ensures s.mem + EffectOf(y.r, e).stores ==
              HistoryOf(y.r, n).Partial(DoneSet(y, n, s, vis) + {Num(Widths(y.r, n), e)}, Base(Widths(y.r, n), n))
  {
    HistoryAt(y.r, n, e);
    NextNotDone(y, n, s, vis, e);
    var h, at, size, done := HistoryOf(y.r, n), Num(Widths(y.r, n), e), Base(Widths(y.r, n), n), DoneSet(y, n, s, vis);
    assert s.mem == h.Partial(done, size) && h.stores[at] == EffectOf(y.r, e).stores;
    assert h.Valid() && |h.stores| == size && at < size && at !in done;
    hide DoneSet, HistoryOf, Base, Num, ChansHold, Placed, EffectOf, History.Partial, PastEvent, MemHolds;
    hide History.Conflict;
    forall a | at < a < size && a in done ensures !h.Conflict(at, a) { NextConflicts(y, n, s, vis, e, a, at); }
    hide Sound;
    h.AddEvent(done, at, size);
  }
}
