/** The order of the phases in runOnLoop (DSWP_0.cpp:138-178) and what the whole pass guarantees. */
module Pass {
  import opened Ir
  import opened PostDominance
  import opened PeeledLoop
  import opened ControlDependence
  import opened DependenceGraph
  import opened BuildPdg
  import opened Reachability
  import Scc
  import opened Partition
  import opened Slicing
  import opened Plan
  import opened Split
  import opened Closure
  import opened Sync
  import opened Handover
  import opened Assembly
  import opened Sequential
  import opened Trace
  import opened Pipeline
  import opened Steps
  import opened BlockEnd
  import opened Correctness
  import Runtime

  /** Unmodified: there was one component only. Error: the pass gave up in the middle. */
  datatype Outcome = Unmodified | Error | Parallel(plan: Plan)

  /** Values come from non-terminators. */
  ghost predicate RegFromWork(l: Loop, es: seq<Edge>)
    requires l.Valid()
  {
    forall e :: e in es && e.dtype == REG && e.u in l.parent ==> !l.IsTerm(e.u)
  }

  /** What the pass produces: everything that the theorems about the pipeline ask of a plan. */
  ghost predicate Output(l: Loop, p: Plan, edges: seq<Edge>, ip: map<Block, Block>) {
    && p.l == l && p.GoodCode() && Usable(LoopGraph(l)) && IsIPDom(LoopGraph(l), ip) && p.GoodTargets(ip)
    && Owners(l, p.owner, p.kept) && Setting(l, p.owner, edges)
    && (forall i :: 0 <= i < |p.kept| ==> p.kept[i] == Relevant(l, p.owner, edges, i) && l.header in p.kept[i])
    && p.chans == AllChans(Sliced(l, p.owner, p.kept), edges, |edges|)
    && AllServed(Sliced(l, p.owner, p.kept), edges, |edges|)
    && RegFromWork(l, edges)
  }

  lemma OutputFacts(l: Loop, p: Plan, edges: seq<Edge>, ip: map<Block, Block>)
    requires Output(l, p, edges, ip)
    ensures p.l == l && l.Valid() && p.Shape() && Owns(Sliced(l, p.owner, p.kept)) && EdgesInside(l, edges)
    ensures p.chans == AllChans(Sliced(l, p.owner, p.kept), edges, |edges|) && RegFromWork(l, edges)
  {
    hide Usable, IsIPDom, Plan.GoodTargets, Plan.GoodList, AllChans, ControlComplete, Relevant, LoopGraph, RegFromWork;
  }

  lemma CopySliced(l: Loop, p: Plan, to: nat, x: Inst)
    requires p.l == l && p.Shape() && x in l.parent && p.HasCopy(to, x) && Owns(Sliced(l, p.owner, p.kept))
    ensures Sliced(l, p.owner, p.kept).HasCopy(to, x)
  {
    hide Plan.Shape;
  }

  lemma OutputChannels(l: Loop, p: Plan, edges: seq<Edge>, ip: map<Block, Block>, e: Edge, to: nat)
    requires Output(l, p, edges, ip) && e in edges && e.u in p.owner && p.owner[e.u] < to < |p.kept|
    requires e.v in l.parent && p.HasCopy(to, e.v)
    ensures p.Shape() && e.u in l.parent && ChannelFor(p, e, to)
  {
    hide Output, AllChans, Plan.Shape, Plan.HasCopy, Owns, Loop.Valid;
    var s := Sliced(l, p.owner, p.kept);
    OutputFacts(l, p, edges, ip);
    assert e.u in l.parent;
    CopySliced(l, p, to, e.v);
    ChannelMade(s, edges, e, to);
    var c :| 0 <= c < |p.chans| && p.chans[c] == Channel(e.u, e.v, e.dtype, p.owner[e.u], to);
  }

  lemma OutputReg(l: Loop, p: Plan, edges: seq<Edge>, ip: map<Block, Block>, ch: Channel)
    requires Output(l, p, edges, ip) && ch in p.chans && ch.dtype == REG
    ensures l.Valid() && ch.u in l.parent && !l.IsTerm(ch.u)
  {
    hide Output, AllChans, Plan.Shape, Owns, Loop.Valid;
    OutputFacts(l, p, edges, ip);
    var e := ChannelEdge(Sliced(l, p.owner, p.kept), edges, ch);
  }

  lemma OutputOwners(l: Loop, p: Plan, edges: seq<Edge>, ip: map<Block, Block>)
    requires Output(l, p, edges, ip)
    ensures p.l == l && p.GoodCode()
    ensures forall x :: x in l.parent ==> x in p.owner && p.owner[x] < |p.kept| && p.Keeps(p.owner[x], l.parent[x])
    ensures forall i :: 0 <= i < |p.kept| ==> p.Keeps(i, l.header)
    ensures forall e :: e in edges ==> e.u in l.parent && e.v in l.parent && e.u in p.owner && e.v in p.owner && p.owner[e.u] <= p.owner[e.v]
  {
    hide Usable, IsIPDom, Plan.GoodTargets, Plan.GoodCode, AllChans, ControlComplete, Relevant, LoopGraph;
    hide RegFromWork, Loop.Valid;
  }

  lemma OutputPlan(y: System)
    requires Output(y.r.l, y.p, y.edges, y.ip) && y.cap > 0
    ensures GoodPlan(y)
  {
    hide Output, Plan.GoodCode, AllChans, ChannelFor, Plan.HasCopy, Owns, Plan.Shape, Loop.Valid, Plan.Keeps;
    hide RegFromWork;
    hide EdgesInside, Sliced;
    OutputFacts(y.r.l, y.p, y.edges, y.ip);
    OutputOwners(y.r.l, y.p, y.edges, y.ip);
    forall e, to: nat | e in y.edges && y.p.owner[e.u] < to < |y.p.kept| && y.p.HasCopy(to, e.v)
      ensures ChannelFor(y.p, e, to)
    {
      OutputChannels(y.r.l, y.p, y.edges, y.ip, e, to);
    }
    forall c | c in y.p.chans && c.dtype == REG ensures c.u in y.r.l.parent && !y.r.l.IsTerm(c.u) {
      OutputReg(y.r.l, y.p, y.edges, y.ip, c);
    }
  }

  lemma OutputBranch(l: Loop, p: Plan, edges: seq<Edge>, ip: map<Block, Block>, i: nat, b: Block)
    requires Output(l, p, edges, ip) && p.Keeps(i, b)
    ensures p.l.Valid() && Decides(p, i, b)
  {
    hide Usable, IsIPDom, Plan.GoodTargets, Plan.GoodList, AllChans, ControlComplete, Relevant;
    FinalBranches(l, p.owner, edges, ip, p, i, b);
  }

  lemma OutputGraph(l: Loop, p: Plan, edges: seq<Edge>, ip: map<Block, Block>)
    requires Output(l, p, edges, ip)
    ensures Usable(LoopGraph(l)) && IsIPDom(LoopGraph(l), ip) && p.Shape() && p.GoodTargets(ip)
  {
    hide Usable, IsIPDom, Plan.GoodTargets, Plan.GoodList, AllChans, AllServed, ControlComplete, Relevant;
  }

  /** Every thread of a finished pass keeps what its blocks are control dependent on. */
  lemma OutputClosed(l: Loop, p: Plan, edges: seq<Edge>, ip: map<Block, Block>, i: nat)
    requires Output(l, p, edges, ip) && i < |p.kept|
    ensures Usable(LoopGraph(l)) && ControlClosed(LoopGraph(l), p.kept[i])
  {
    hide Usable, IsIPDom, Plan.GoodTargets, Plan.GoodList, AllChans, AllServed, ControlComplete, Relevant;
    hide ControlClosed;
    assert Owns(Sliced(l, p.owner, p.kept));
    ServedClosed(l, p.owner, edges, Sliced(l, p.owner, p.kept), i);
  }

  lemma OutputDecides(l: Loop, p: Plan, edges: seq<Edge>, ip: map<Block, Block>)
    requires Output(l, p, edges, ip)
    ensures p.l == l && l.Valid() && forall i: nat, b :: p.Keeps(i, b) ==> Decides(p, i, b)
  {
    assert p.l == l && l.Valid();
    hide Output, Decides, Plan.Keeps, Loop.Valid;
    forall i: nat, b | p.Keeps(i, b) ensures Decides(p, i, b) { OutputBranch(l, p, edges, ip, i, b); }
  }

  lemma OutputBranches(y: System)
    requires Output(y.r.l, y.p, y.edges, y.ip) && GoodPlan(y)
    ensures GoodBranches(y)
  {
    hide Output, GoodPlan, Usable, IsIPDom, Plan.GoodTargets, ControlClosed, Plan.Keeps, Decides, LoopGraph;
    hide Plan.Shape, Loop.Valid;
    OutputGraph(y.r.l, y.p, y.edges, y.ip);
    UsableFormed(LoopGraph(y.r.l));
    hide WellFormed;
    forall i: nat | i < |y.p.kept| ensures ControlClosed(LoopGraph(y.r.l), y.p.kept[i]) {
      OutputClosed(y.r.l, y.p, y.edges, y.ip, i);
    }
    OutputDecides(y.r.l, y.p, y.edges, y.ip);
  }

  lemma PassSound(y: System, n: nat)
    requires Output(y.r.l, y.p, y.edges, y.ip) && y.cap > 0
    requires Runs(y.r, n) && y.r.init.regs == map[] && UsesCovered(y) && ConflictsCovered(y, n)
    ensures Sound(y, n) && y.r.l.Valid()
  {
    hide Output, GoodPlan, GoodBranches, UsesCovered, ConflictsCovered, Runs, Loop.Valid;
    OutputPlan(y);
    OutputBranches(y);
    OutputFacts(y.r.l, y.p, y.edges, y.ip);
  }

  /** The main result: what the pass makes of a loop computes what the loop computes. Given that the dependence analysis
      covers every use and every memory conflict, no interleaving of the worker threads deadlocks, every one ends, and
      then memory and all registers are as the sequential loop leaves them. */
  lemma PassCorrect(y: System, n: nat, ss: seq<State>, who: seq<nat>)
    requires Output(y.r.l, y.p, y.edges, y.ip) && y.cap > 0
    requires Runs(y.r, n) && y.r.Valid() && y.r.init.regs == map[] && UsesCovered(y) && ConflictsCovered(y, n)
    requires IsRun(y, ss, who) && |ss| == |who| + 1
    ensures Finished(y, ss[|who|]) || CanMove(y, ss[|who|])
    ensures |who| <= AllWork(y, n, |y.p.kept|)
    ensures Finished(y, ss[|who|]) ==>
              && ss[|who|].mem == y.r.At(n).mem
              && (forall u :: u in y.r.l.parent && !y.r.l.IsTerm(u) ==>
                    u in y.p.owner && y.p.owner[u] < |ss[|who|].threads| &&
                    SameAt(ss[|who|].threads[y.p.owner[u]].regs, y.r.At(n).regs, u))
              && (forall c :: 0 <= c < |ss[|who|].queues| ==> ss[|who|].queues[c] == [])
  {
    hide Output, GoodPlan, GoodBranches, UsesCovered, ConflictsCovered, Runs, Run.At, IsRun, Run.Valid, AllWork;
    hide Finished, CanMove, Sound;
    PassSound(y, n);
    NoDeadlock(y, n, ss, who);
    RunsEnd(y, n, ss, who);
    if Finished(y, ss[|who|]) { SameMeaning(y, n, ss, who); }
  }

  /** The same when every send and receive is a call of the runtime, with its locks, waits, signals and wakeups. */
  lemma PassAtRuntime(y: System, n: nat, ws: seq<Runtime.World>, mvs: seq<Runtime.Move>)
    requires Output(y.r.l, y.p, y.edges, y.ip) && y.cap > 0
    requires Runs(y.r, n) && y.r.Valid() && y.r.init.regs == map[] && UsesCovered(y) && ConflictsCovered(y, n)
    requires Runtime.WorldRun(y, ws, mvs)
    ensures var w := ws[|mvs|];
            && Runtime.Queues(w) && (Finished(y, Runtime.Abs(w)) || exists mv :: Runtime.CanGo(y, w, mv))
            && Runtime.Shown(mvs, |mvs|) <= AllWork(y, n, |y.p.kept|)
            && (Finished(y, Runtime.Abs(w)) ==>
                  && w.mem == y.r.At(n).mem
                  && (forall u :: u in y.r.l.parent && !y.r.l.IsTerm(u) ==>
                        u in y.p.owner && y.p.owner[u] < |w.threads| && SameAt(w.threads[y.p.owner[u]].regs, y.r.At(n).regs, u))
                  && forall c :: 0 <= c < |w.monitors| ==> w.monitors[c].ring.Contents() == [])
  {
    hide Output, GoodPlan, GoodBranches, UsesCovered, ConflictsCovered, Runs, Run.At, Run.Valid, AllWork, Finished;
    hide Sound;
    hide Runtime.WorldRun, Runtime.CanGo, Runtime.Shown;
    PassSound(y, n);
    Runtime.RuntimeCorrect(y, n, ws, mvs);
  }

  // ---- the phases ----

  /** What LLVM's post-dominator analysis answers for the dummy function built from a numbering of the blocks. */
  ghost predicate TreesOf(l: Loop, trees: map<Block, nat> -> PostDomTree)
    requires l.Valid()
  {
    forall num :: NumberedBy(l, num) && WellFormed(Peeled(l, num)) ==> IsTree(Peeled(l, num), trees(num))
  }

  ghost function DummyTreeOf(l: Loop, num: map<Block, nat>): (t: PostDomTree)
    requires l.Valid() && Usable(LoopGraph(l)) && NumberedBy(l, num)
    ensures WellFormed(Peeled(l, num)) && IsTree(Peeled(l, num), t)
  {
    PeeledUsable(l, num);
    assert exists t :: IsTree(Peeled(l, num), t) by { var t := DummyTree(Peeled(l, num)); }
    var t :| IsTree(Peeled(l, num), t);
    t
  }

  /** What the pass expects of LLVM's analyses can be met for every loop whose blocks reach its exit. */
  lemma TreesExist(l: Loop) returns (postidom: map<Block, Block>, trees: map<Block, nat> -> PostDomTree)
    requires l.Valid() && Usable(LoopGraph(l))
    ensures IsIPDom(LoopGraph(l), postidom) && TreesOf(l, trees)
  {
    postidom := TreeExists(LoopGraph(l));
    hide IsTree, Peeled, WellFormed, Usable, Loop.Valid, LoopGraph;
    trees := num => if l.Valid() && Usable(LoopGraph(l)) && NumberedBy(l, num) then DummyTreeOf(l, num) else PostDomTree(map[], map[]);
  }

  /** What the data-dependence half of buildPDG leaves. */
  ghost predicate Before(l: Loop, es: seq<Edge>)
    requires l.Valid()
  {
    EdgesInside(l, es) && RegFromWork(l, es)
  }

  lemma ControlAdded(l: Loop, num: map<Block, nat>, before: seq<Edge>, es: seq<Edge>)
    requires l.Valid() && NumberedBy(l, num) && Usable(LoopGraph(l)) && WellFormed(Peeled(l, num)) && Before(l, before)
    requires Extends(l, before, es, PeeledDeps(l, num))
    ensures Before(l, es) && ControlComplete(l, es)
  {
    ControlEdgesComplete(l, num, before, es);
    ControlEdgesInside(l, num, before, es);
    hide Usable, Peeled, ControlComplete, PeeledDeps, LoopGraph, WellFormed;
  }

  /** `after` holds the edges `before`, and the control edges of the loop peeled in depth-first order. */
  ghost predicate ControlOf(l: Loop, before: seq<Edge>, after: seq<Edge>)
    requires l.Valid() && Usable(LoopGraph(l))
  {
    PeeledUsable(l, Numbering(l));
    Extends(l, before, after, PeeledDeps(l, Numbering(l)))
  }

  /** The control half of buildPDG. */
  method AddControl(l: Loop, pdg: Pdg, trees: map<Block, nat> -> PostDomTree)
    requires l.Valid() && Usable(LoopGraph(l)) && TreesOf(l, trees) && pdg.Valid() && Before(l, pdg.allEdges)
    modifies pdg
    ensures pdg.Valid() && Before(l, pdg.allEdges) && ControlComplete(l, pdg.allEdges)
    ensures ControlOf(l, old(pdg.allEdges), pdg.allEdges)
  {
    var b := new Builder(l);
    b.Prepare();
    PeeledUsable(l, b.instnum);
    ghost var before := pdg.allEdges;
    hide Usable, ControlComplete, IsTree, Peeled, PeeledDeps, Before, Extends;
    b.ControlEdges(pdg, trees(b.instnum));
    ControlAdded(l, b.instnum, before, pdg.allEdges);
  }

  lemma {:induction false} LatencyBound(l: Loop, sccId: map<Inst, nat>, latency: Inst -> nat, n: nat) returns (m: nat)
    requires l.Valid() && forall x :: x in l.parent ==> x in sccId
    ensures forall j :: 0 <= j < n ==> LoopLatency(l, sccId, latency, l.blocks, j) <= m
  {
    m := 0;
    if n > 0 {
      m := LatencyBound(l, sccId, latency, n - 1);
      if m < LoopLatency(l, sccId, latency, l.blocks, n - 1) { m := LoopLatency(l, sccId, latency, l.blocks, n - 1); }
    }
  }

  /** threadPartition. */
  method Divide(l: Loop, d: Dag, sccId: map<Inst, nat>, threads: nat, latency: Inst -> nat)
    returns (ghost lat: seq<nat>, ghost order: seq<nat>, placed: seq<int>, part: seq<seq<nat>>)
    requires l.Valid() && d.Valid() && threads > 0 && forall x :: x in l.parent ==> x in sccId && sccId[x] < d.n
    ensures Partitioned(d, lat, threads, placed) && Greedy(d, lat, threads, placed, order) && |part| == threads
    ensures forall j :: 0 <= j < |lat| ==> lat[j] == LoopLatency(l, sccId, latency, l.blocks, j)
    ensures forall t, v: nat {:trigger v in part[t]} :: 0 <= t < threads ==> (v in part[t] <==> v < d.n && placed[v] == t)
  {
    hide LoopLatency, LoadBounds, Greedy;
    ghost var m := LatencyBound(l, sccId, latency, d.n);
    var p := new Partitioner(threads, d);
    p.ThreadPartition(l, sccId, latency, m);
    lat, order, placed, part := p.sccLatency, p.order, p.placed, p.part;
    forall t, v: nat | 0 <= t < threads ensures v in part[t] <==> v < d.n && placed[v] == t {
      assert v in p.part[t] <==> v < d.n && placed[v] == t;
    }
  }

  /** What findSCC and threadPartition leave for the split: the tables of who owns what. */
  ghost predicate Tables(l: Loop, allEdges: seq<Edge>, rev: map<Inst, seq<Edge>>, sccId: map<Inst, nat>, placed: seq<int>,
                         part: seq<seq<nat>>, members: seq<seq<Inst>>, threads: nat, owner: map<Inst, nat>) {
    && OwnerTable(l, sccId, placed, owner) && (forall x :: x in sccId ==> x in l.parent) && |members| == |placed|
    && |part| == threads && (forall v :: 0 <= v < |placed| ==> 0 <= placed[v] < threads)
    && (forall t, v: nat {:trigger v in part[t]} :: 0 <= t < threads ==> (v in part[t] <==> v < |placed| && placed[v] == t))
    && (forall k, x :: 0 <= k < |members| ==> (x in members[k] <==> x in sccId && sccId[x] == k))
    && (forall v, e :: e in ListAt(rev, v) <==> e.u == v && Edge(e.v, v, e.dtype) in allEdges)
  }

  lemma SplitterGiven(sp: Splitter, owner: map<Inst, nat>)
    requires sp.l.Valid() && EdgesInside(sp.l, sp.edges)
    requires Tables(sp.l, sp.edges, sp.rev, sp.sccId, sp.placed, sp.part, sp.instInScc, sp.threads, owner)
    ensures sp.Given()
  {
    hide Loop.Valid, EdgesInside;
    forall v, e ensures e in sp.In(v) <==> e.u == v && Edge(e.v, v, e.dtype) in sp.edges {}
    forall v | 0 <= v < |sp.placed| ensures 0 <= sp.placed[v] < sp.threads {}
  }

  lemma SplitterOwner(sp: Splitter, owner: map<Inst, nat>)
    requires sp.Given() && OwnerTable(sp.l, sp.sccId, sp.placed, owner)
    ensures sp.Owner() == owner
  {
    hide Loop.Valid, EdgesInside;
  }

  lemma SplitterMade(sp: Splitter, owner: map<Inst, nat>)
    requires sp.Made(|sp.kept|) && sp.Owner() == owner && EdgesInside(sp.l, sp.edges)
    requires sp.kept == Active(sp.l, owner, sp.edges, sp.threads)
    requires forall m: nat :: m == sp.threads || Relevant(sp.l, owner, sp.edges, m) == {} ==> forall x :: x in sp.l.parent ==> owner[x] < m
    ensures AllMade(sp.l, owner, sp.postidom, sp.kept, sp.code, sp.targets, sp.placeEquivalents, sp.instMap)
    ensures forall i :: 0 <= i < |sp.kept| ==> sp.kept[i] == Relevant(sp.l, owner, sp.edges, i) && sp.l.header in sp.kept[i]
  {
    hide Usable, IsIPDom, ThreadSplit, Relevant, Loop.Valid;
    ActiveIs(sp.l, owner, sp.edges, sp.threads);
    hide ActiveFrom;
    forall i | 0 <= i < |sp.kept|
      ensures sp.kept[i] == Relevant(sp.l, owner, sp.edges, i) && sp.l.header in sp.kept[i]
      ensures ThreadSplit(Bare(sp.l, owner), sp.postidom, i, sp.kept[i], sp.kept[i], sp.code[i], sp.targets[i], sp.placeEquivalents[i], sp.instMap[i])
    {
      assert sp.MadeOne(i, sp.kept[i], sp.code[i], sp.targets[i], sp.placeEquivalents[i], sp.instMap[i]);
    }
    forall x | x in sp.l.parent ensures x in owner && owner[x] < |sp.kept| && sp.l.parent[x] in sp.kept[owner[x]] {
      OwnBlock(sp.l, owner, sp.edges, x);
    }
  }

  lemma OwnBlock(l: Loop, owner: map<Inst, nat>, edges: seq<Edge>, x: Inst)
    requires EdgesInside(l, edges) && x in l.parent && x in owner
    ensures l.parent[x] in Relevant(l, owner, edges, owner[x])
  {
    assert x in Owned(l, owner, owner[x]);
  }

  lemma SyncGiven(sy: Synchronizer, ip: map<Block, Block>, kept: seq<set<Block>>, code: seq<map<Block, seq<Op>>>,
                  targets: seq<map<Block, seq<Block>>>)
    requires AllMade(sy.l, sy.owner, ip, kept, code, targets, sy.placeEquivalents, sy.instMap) && |kept| <= sy.threads
    requires sy.p == Sliced(sy.l, sy.owner, kept) && sy.code == code && sy.chans == []
    ensures sy.Valid()
  {
    var l, owner, places, inst := sy.l, sy.owner, sy.placeEquivalents, sy.instMap;
    SlicedShape(l, owner, ip, kept, code, targets, places, inst);
    SlicedMaps(l, owner, ip, kept, code, targets, places, inst);
    SlicedCode(l, owner, ip, kept, code, targets, places, inst);
    assert sy.Now() == sy.p;
    hide Usable, IsIPDom, ThreadSplit, Maps, PreCode, Plan.Shape;
  }

  lemma OutputHolds(l: Loop, owner: map<Inst, nat>, ip: map<Block, Block>, kept: seq<set<Block>>, before: seq<map<Block, seq<Op>>>,
                    targets: seq<map<Block, seq<Block>>>, places: seq<map<Inst, Inst>>, inst: seq<set<Inst>>,
                    allEdges: seq<Edge>, now: Plan, plan: Plan)
    requires AllMade(l, owner, ip, kept, before, targets, places, inst) && Setting(l, owner, allEdges)
    requires Before(l, allEdges)
    requires forall i :: 0 <= i < |kept| ==> kept[i] == Relevant(l, owner, allEdges, i) && l.header in kept[i]
    requires Owns(Sliced(l, owner, kept)) && AllServed(Sliced(l, owner, kept), allEdges, |allEdges|)
    requires now == Sliced(l, owner, kept).(chans := AllChans(Sliced(l, owner, kept), allEdges, |allEdges|))
    requires now.Shape() && |plan.code| == |kept| && plan == now.(code := plan.code, targets := targets)
    requires forall i: nat, b :: now.Keeps(i, b) ==> i < |plan.code| && b in plan.code[i] && now.GoodList(i, b, plan.code[i][b])
    ensures Output(l, plan, allEdges, ip)
  {
    hide Usable, IsIPDom, ThreadSplit, Plan.GoodList, Plan.GoodTargets, AllChans, AllServed, Relevant, ControlComplete;
    FinalCode(now, plan, plan.code);
    hide Plan.Keeps;
    FinalTargets(l, owner, ip, kept, before, targets, places, inst, plan);
  }

  /** Every receive has a place. */
  ghost predicate Wireable(l: Loop, owner: map<Inst, nat>, edges: seq<Edge>, kept: seq<set<Block>>)
    requires l.Valid() && EdgesInside(l, edges) && forall x :: x in l.parent ==> x in owner
  {
    AllServed(Sliced(l, owner, kept), edges, |edges|)
  }

  /** The pass gets through: every thread with blocks keeps the header, and every receive has a place. */
  ghost predicate Survives(l: Loop, owner: map<Inst, nat>, edges: seq<Edge>, threads: nat)
    requires l.Valid() && EdgesInside(l, edges) && forall x :: x in l.parent ==> x in owner
  {
    var kept := Active(l, owner, edges, threads);
    Headed(l, kept) && Wireable(l, owner, edges, kept)
  }

  /** The pass gets through exactly when every thread with blocks keeps the header, each of them keeps the sources of what
      its terminators depend on otherwise than by control, and the control edges into what its instructions depend on
      directly come from blocks that it keeps. */
  lemma SurvivesIff(l: Loop, owner: map<Inst, nat>, edges: seq<Edge>, threads: nat)
    requires Setting(l, owner, edges) && ControlBlocks(l, edges)
    ensures var kept := Active(l, owner, edges, threads);
            Survives(l, owner, edges, threads) <==>
              && Headed(l, kept) && Owns(Sliced(l, owner, kept)) && TermsFed(Sliced(l, owner, kept), edges)
              && forall i :: 0 <= i < |kept| ==> SourcesControlled(l, owner, edges, i)
  {
    hide Setting, ControlBlocks, Relevant, KeepsRelevant, Headed, AllServed, TermsFed, Active, EdgeClosed;
    hide SourcesControlled;
    hide EdgesInside, Owns, Loop.Valid;
    SettingFacts(l, owner, edges);
    var p := Sliced(l, owner, Active(l, owner, edges, threads));
    ActiveRelevant(l, owner, edges, threads);
    ServedIff(p, edges);
    forall i: nat ensures EdgeClosed(l, owner, edges, i) <==> SourcesControlled(l, owner, edges, i) { EdgeClosedIff(l, owner, edges, i); }
  }

  lemma SettingFacts(l: Loop, owner: map<Inst, nat>, edges: seq<Edge>)
    requires Setting(l, owner, edges)
    ensures l.Valid() && EdgesInside(l, edges) && forall x :: x in l.parent ==> x in owner
  {
  }

  lemma ActiveRelevant(l: Loop, owner: map<Inst, nat>, edges: seq<Edge>, threads: nat)
    requires l.Valid() && EdgesInside(l, edges) && forall x :: x in l.parent ==> x in owner
    ensures var p := Sliced(l, owner, Active(l, owner, edges, threads)); Owns(p) && KeepsRelevant(p, edges)
  {
    hide Relevant;
    ActiveIs(l, owner, edges, threads);
  }

  /** insertSynchronization and cleanup. */
  method Wire(l: Loop, owner: map<Inst, nat>, ghost ip: map<Block, Block>, kept: seq<set<Block>>, code: seq<map<Block, seq<Op>>>,
              targets: seq<map<Block, seq<Block>>>, places: seq<map<Inst, Inst>>, inst: seq<set<Inst>>,
              allEdges: seq<Edge>, threads: nat) returns (o: Outcome)
    requires AllMade(l, owner, ip, kept, code, targets, places, inst) && Setting(l, owner, allEdges)
    requires Before(l, allEdges)
    requires forall i :: 0 <= i < |kept| ==> kept[i] == Relevant(l, owner, allEdges, i) && l.header in kept[i]
    requires |kept| <= threads
    ensures !o.Unmodified? && (o.Parallel? <==> Wireable(l, owner, allEdges, kept))
    ensures o.Parallel? ==> Output(l, o.plan, allEdges, ip) && o.plan.owner == owner && o.plan.kept == kept
    ensures o.Parallel? && NoDups(allEdges) ==> EdgeOrder(allEdges, o.plan.chans)
  {
    ghost var p := Sliced(l, owner, kept);
    var sy := new Synchronizer(p, l, owner, inst, places, threads, code);
    SyncGiven(sy, ip, kept, code, targets);
    assert Owns(p) && EdgesInside(l, allEdges);
    hide AllMade, Setting, Before, Relevant, PreCode, Owns, AllChans, AllServed, EdgesInside, Output, Plan.GoodList, Arranged;
    hide EdgeOrder, NoDups, Plan.Shape, Synchronizer.Given, Synchronizer.Valid, Plan.Keeps;
    var ok := sy.InsertSynchronization(allEdges);
    if !ok { return Error; }
    ghost var now := sy.Now();
    WiredShape(sy);
    var final := Tidy(sy, now);
    var plan := Plan(l, owner, kept, sy.chans, final, targets);
    OutputHolds(l, owner, ip, kept, code, targets, places, inst, allEdges, now, plan);
    o := Parallel(plan);
  }

  /** cleanup, for a loop without phi nodes. */
  method Tidy(sy: Synchronizer, ghost now: Plan) returns (code: seq<map<Block, seq<Op>>>)
    requires sy.Valid() && now == sy.Now() && now.Shape()
    modifies sy`code
    ensures |code| == |sy.p.kept|
    ensures forall i: nat, b :: now.Keeps(i, b) ==> i < |code| && b in code[i] && now.GoodList(i, b, code[i][b])
  {
    hide Plan.GoodList, Arranged, Plan.Shape, Plan.Keeps, Synchronizer.Given, Synchronizer.Valid;
    WiredShape(sy);
    var ok := sy.Cleanup({});
    CleanGood(sy);
    code := sy.code;
  }

  lemma WiredShape(sy: Synchronizer)
    requires sy.Valid()
    ensures sy.Now().Shape() && |sy.code| == |sy.p.kept| && forall i: nat, b :: sy.Now().Keeps(i, b) <==> sy.p.Keeps(i, b)
  {
    hide Maps, PreList, Plan.Shape;
  }

  lemma CleanGood(sy: Synchronizer)
    requires sy.Now().Shape() && forall i: nat, b :: sy.Now().Keeps(i, b) <==> sy.p.Keeps(i, b)
    requires forall i: nat, b :: sy.p.Keeps(i, b) ==>
               i < |sy.code| && b in sy.code[i] && sy.Now().Keeps(i, b) && Arranged(sy.Now(), i, b, {}, sy.code[i][b])
    ensures forall i: nat, b :: sy.Now().Keeps(i, b) ==> i < |sy.code| && b in sy.code[i] && sy.Now().GoodList(i, b, sy.code[i][b])
  {
    hide Plan.GoodList, Arranged, Plan.Shape;
    forall i: nat, b | sy.Now().Keeps(i, b) ensures i < |sy.code| && b in sy.code[i] && sy.Now().GoodList(i, b, sy.code[i][b]) {
      ArrangedGood(sy.Now(), i, b, sy.code[i][b]);
    }
  }

  /** loopSplit, insertSynchronization and cleanup. */
  method Generate(l: Loop, rev: map<Inst, seq<Edge>>, allEdges: seq<Edge>, sccId: map<Inst, nat>, placed: seq<int>,
                  part: seq<seq<nat>>, members: seq<seq<Inst>>, postidom: map<Block, Block>, threads: nat,
                  ghost owner: map<Inst, nat>) returns (o: Outcome)
    requires l.Valid() && Usable(LoopGraph(l)) && IsIPDom(LoopGraph(l), postidom) && Setting(l, owner, allEdges)
    requires Before(l, allEdges)
    requires Tables(l, allEdges, rev, sccId, placed, part, members, threads, owner)
    requires forall m: nat :: m == threads || Relevant(l, owner, allEdges, m) == {} ==> forall x :: x in l.parent ==> owner[x] < m
    ensures !o.Unmodified? && (o.Parallel? <==> Survives(l, owner, allEdges, threads))
    ensures o.Parallel? ==> Output(l, o.plan, allEdges, postidom) && o.plan.owner == owner
    ensures o.Parallel? ==> o.plan.kept == Active(l, owner, allEdges, threads)
    ensures o.Parallel? && NoDups(allEdges) ==> EdgeOrder(allEdges, o.plan.chans)
  {
    var sp := new Splitter(l, rev, sccId, placed, part, members, postidom, threads, allEdges);
    SplitterGiven(sp, owner);
    SplitterOwner(sp, owner);
    assert EdgesInside(l, allEdges);
    hide Usable, IsIPDom, Setting, Before, Tables, Relevant, AllMade, Output, Wireable, Active, Headed, EdgesInside;
    hide EdgeOrder, NoDups;
    var ok := sp.LoopSplit();
    if !ok { return Error; }
    SplitterMade(sp, owner);
    o := Wire(l, sp.Owner(), postidom, sp.kept, sp.code, sp.targets, sp.placeEquivalents, sp.instMap, allEdges, threads);
  }

  /** The graph that findSCC works on. */
  function GraphOf(l: Loop, pdg: map<Inst, seq<Edge>>, rev: map<Inst, seq<Edge>>): Digraph {
    Digraph(l.parent.Keys, pdg, rev)
  }

  lemma PdgGraph(l: Loop, pdg: Pdg)
    requires pdg.Valid() && EdgesInside(l, pdg.allEdges)
    ensures Mirrors(GraphOf(l, pdg.pdg, pdg.rev), pdg.allEdges) && GraphOf(l, pdg.pdg, pdg.rev).Valid()
    ensures NoDups(pdg.allEdges)
  {
    var g := GraphOf(l, pdg.pdg, pdg.rev);
    forall u ensures g.Out(u) == OutEdges(pdg.allEdges, u) { assert ListAt(pdg.pdg, u) == OutEdges(pdg.allEdges, u); }
    forall v ensures g.In(v) == InEdges(pdg.allEdges, v) { assert ListAt(pdg.rev, v) == InEdges(pdg.allEdges, v); }
    GraphValid(l, g, pdg.allEdges);
  }

  lemma RevOf(g: Digraph, es: seq<Edge>, v: Inst, e: Edge)
    requires Mirrors(g, es)
    ensures e in ListAt(g.rev, v) <==> e.u == v && Edge(e.v, v, e.dtype) in es
  {
    assert g.In(v) == InEdges(es, v);
    InEdgesMembers(es, v, e);
  }

  ghost function OwnerOf(l: Loop, sccId: map<Inst, nat>, placed: seq<int>): (owner: map<Inst, nat>)
    requires forall x :: x in l.parent ==> x in sccId && sccId[x] < |placed| && 0 <= placed[sccId[x]]
    ensures OwnerTable(l, sccId, placed, owner)
  {
    map x | x in l.parent :: placed[sccId[x]]
  }

  /** The tables that findSCC and threadPartition leave fit together. */
  lemma TablesHold(l: Loop, g: Digraph, es: seq<Edge>, sccId: map<Inst, nat>, members: seq<seq<Inst>>, n: nat, d: Dag,
                   lat: seq<nat>, threads: nat, placed: seq<int>, part: seq<seq<nat>>) returns (owner: map<Inst, nat>)
    requires Mirrors(g, es) && g.nodes == l.parent.Keys && Scc.Numbered(g, g.nodes, sccId, n)
    requires Scc.Listed(members, sccId) && |members| == n && d.n == n && Partitioned(d, lat, threads, placed)
    requires |part| == threads
    requires forall t, v: nat {:trigger v in part[t]} :: 0 <= t < threads ==> (v in part[t] <==> v < n && placed[v] == t)
    ensures OwnerTable(l, sccId, placed, owner) && Tables(l, es, g.rev, sccId, placed, part, members, threads, owner)
  {
    hide Mirrors, Scc.Numbered, OwnerTable;
    PlacedInside(l, g, sccId, n, placed, d, lat, threads);
    owner := OwnerOf(l, sccId, placed);
    assert |placed| == n && forall v :: 0 <= v < |placed| ==> 0 <= placed[v] < threads;
    hide Partitioned;
    forall v, e ensures e in ListAt(g.rev, v) <==> e.u == v && Edge(e.v, v, e.dtype) in es { RevOf(g, es, v, e); }
  }

  /** With the edges that the pass has by then, everything the code generation asks for holds. */
  lemma SettingHolds(l: Loop, g: Digraph, es: seq<Edge>, sccId: map<Inst, nat>, members: seq<seq<Inst>>, dag: set<(nat, nat)>,
                     dependents: map<nat, seq<nat>>, parents: map<nat, seq<nat>>, n: nat,
                     lat: seq<nat>, threads: nat, placed: seq<int>, owner: map<Inst, nat>)
    requires l.Valid() && Usable(LoopGraph(l)) && Before(l, es) && ControlComplete(l, es)
    requires Mirrors(g, es) && g.nodes == l.parent.Keys && Scc.Condensed(g, sccId, members, dag, dependents, parents, n)
    requires Partitioned(Dag(n, dependents, parents), lat, threads, placed) && OwnerTable(l, sccId, placed, owner)
    ensures Setting(l, owner, es)
    ensures forall m: nat :: m == threads || Relevant(l, owner, es, m) == {} ==> forall x :: x in l.parent ==> owner[x] < m
  {
    Monotone(l, g, es, sccId, members, dag, dependents, parents, n, lat, threads, placed, owner);
    hide Usable, ControlComplete, Scc.Recorded, Scc.Mirrored, Scc.Numbered, Mirrors, Relevant, RegFromWork, LoopGraph;
    hide Partitioned;
    forall m: nat | m == threads || Relevant(l, owner, es, m) == {} ensures forall x :: x in l.parent ==> owner[x] < m {
      OwnersActive(l, g, sccId, n, Dag(n, dependents, parents), lat, threads, placed, owner, es, m);
    }
  }

  lemma PlacedInside(l: Loop, g: Digraph, sccId: map<Inst, nat>, n: nat, placed: seq<int>, d: Dag, lat: seq<nat>, threads: nat)
    requires Scc.Numbered(g, g.nodes, sccId, n) && g.nodes == l.parent.Keys && d.n == n
    requires Partitioned(d, lat, threads, placed)
    ensures forall x :: x in l.parent <==> x in sccId
    ensures forall x :: x in l.parent ==> sccId[x] < |placed| && 0 <= placed[sccId[x]] < threads
  {
  }

  /** findSCC. */
  method Components(l: Loop, g: Digraph)
    returns (sccId: map<Inst, nat>, members: seq<seq<Inst>>, ghost dag: set<(nat, nat)>,
             dependents: map<nat, seq<nat>>, parents: map<nat, seq<nat>>, n: nat)
    requires l.Valid() && g.Valid() && g.nodes == l.parent.Keys
    ensures Scc.Condensed(g, sccId, members, dag, dependents, parents, n)
    ensures n == 1 <==> forall a, b :: a in l.parent && b in l.parent ==> g.Mutual(a, b)
  {
    hide Scc.Numbered, Scc.Recorded, Scc.Mirrored, Scc.Listed;
    var f := new Scc.SccFinder(l, g);
    f.FindScc();
    sccId, members, dag, dependents, parents, n := f.sccId, f.instInScc, f.dagAdded, f.dependents, f.parents, f.sccNum;
    SingleComponent(l, g, sccId, n);
  }

  /** The components of the dependence graph and the schedule that spreads them over the threads. */
  datatype Schedule = Schedule(sccId: map<Inst, nat>, members: seq<seq<Inst>>, dag: set<(nat, nat)>,
                               dependents: map<nat, seq<nat>>, parents: map<nat, seq<nat>>, n: nat,
                               lat: seq<nat>, placed: seq<int>, order: seq<nat>)

  /** `owner` says where the greedy schedule of the components puts each instruction. */
  ghost predicate Scheduled(l: Loop, g: Digraph, latency: Inst -> nat, threads: nat, sch: Schedule, owner: map<Inst, nat>) {
    && l.Valid() && Scc.Condensed(g, sch.sccId, sch.members, sch.dag, sch.dependents, sch.parents, sch.n)
    && OwnerTable(l, sch.sccId, sch.placed, owner)
    && (forall j :: 0 <= j < |sch.lat| ==> sch.lat[j] == LoopLatency(l, sch.sccId, latency, l.blocks, j))
    && Greedy(Dag(sch.n, sch.dependents, sch.parents), sch.lat, threads, sch.placed, sch.order)
  }

  /** `runOnLoop`, from the data dependences on: a loop that is one component stays as it is; of every other the components
      are spread over the threads greedily, and it becomes a plan, of which all the results about the pipeline hold, exactly
      when the pass gets through with that. */
  method RunOnLoop(l: Loop, pdg: Pdg, trees: map<Block, nat> -> PostDomTree, postidom: map<Block, Block>, threads: nat,
                   latency: Inst -> nat) returns (o: Outcome, ghost sch: Schedule, ghost owner: map<Inst, nat>)
    requires l.Valid() && Usable(LoopGraph(l)) && IsIPDom(LoopGraph(l), postidom) && TreesOf(l, trees) && threads > 0
    requires pdg.Valid() && Before(l, pdg.allEdges)
    modifies pdg
    ensures pdg.Valid() && Before(l, pdg.allEdges) && ControlComplete(l, pdg.allEdges)
    ensures ControlOf(l, old(pdg.allEdges), pdg.allEdges)
    ensures Mirrors(GraphOf(l, pdg.pdg, pdg.rev), pdg.allEdges)
    ensures o.Unmodified? <==>
              forall a, b :: a in l.parent && b in l.parent ==> GraphOf(l, pdg.pdg, pdg.rev).Mutual(a, b)
    ensures !o.Unmodified? ==> Scheduled(l, GraphOf(l, pdg.pdg, pdg.rev), latency, threads, sch, owner)
    ensures !o.Unmodified? ==> (o.Parallel? <==> Survives(l, owner, pdg.allEdges, threads))
    ensures o.Parallel? ==> Output(l, o.plan, pdg.allEdges, postidom) && o.plan.owner == owner
    ensures o.Parallel? ==> o.plan.kept == Active(l, owner, pdg.allEdges, threads) && EdgeOrder(pdg.allEdges, o.plan.chans)
  {
    hide Usable, IsIPDom, ControlComplete, Setting, Tables, Relevant, Output, Mirrors, TreesOf, LoopGraph, Loop.Valid;
    hide Scc.Numbered, Scc.Recorded, Scc.Mirrored, Scc.Listed, Digraph.Valid, Digraph.Mutual, Partitioned, Pdg.Valid;
    hide RegFromWork, ControlOf, Scheduled, Survives, Active;
    AddControl(l, pdg, trees);
    var g := GraphOf(l, pdg.pdg, pdg.rev);
    PdgGraph(l, pdg);
    var sccId, members, dependents, parents, n;
    ghost var dag;
    sccId, members, dag, dependents, parents, n := Components(l, g);
    sch, owner := Schedule(map[], [], {}, map[], map[], 0, [], [], []), map[];
    if n == 1 { return Unmodified, sch, owner; }
    o, sch, owner := Parallelize(l, g, pdg.allEdges, sccId, members, dag, dependents, parents, n, postidom, threads, latency);
  }

  /** The phases from threadPartition on. */
  method Parallelize(l: Loop, g: Digraph, es: seq<Edge>, sccId: map<Inst, nat>, members: seq<seq<Inst>>, ghost dag: set<(nat, nat)>,
                     dependents: map<nat, seq<nat>>, parents: map<nat, seq<nat>>, n: nat, postidom: map<Block, Block>, threads: nat,
                     latency: Inst -> nat) returns (o: Outcome, ghost sch: Schedule, ghost owner: map<Inst, nat>)
    requires l.Valid() && Usable(LoopGraph(l)) && IsIPDom(LoopGraph(l), postidom) && threads > 0
    requires Before(l, es) && ControlComplete(l, es)
    requires Mirrors(g, es) && g.nodes == l.parent.Keys && Scc.Condensed(g, sccId, members, dag, dependents, parents, n)
    ensures !o.Unmodified? && Scheduled(l, g, latency, threads, sch, owner) && EdgesInside(l, es)
    ensures o.Parallel? <==> Survives(l, owner, es, threads)
    ensures o.Parallel? ==> Output(l, o.plan, es, postidom) && o.plan.owner == owner
    ensures o.Parallel? ==> o.plan.kept == Active(l, owner, es, threads)
    ensures o.Parallel? && NoDups(es) ==> EdgeOrder(es, o.plan.chans)
  {
    DagValid(g, sccId, members, dag, dependents, parents, n);
    assert forall x :: x in l.parent ==> x in sccId && sccId[x] < n;
    hide Usable, IsIPDom, ControlComplete, Setting, Tables, Relevant, Output, Mirrors, LoopGraph, Loop.Valid, Dag.Valid;
    hide Scc.Numbered, Scc.Recorded, Scc.Mirrored, Scc.Listed, Partitioned, OwnerTable, Before, Greedy, Survives;
    hide Active, EdgeOrder, NoDups, EdgesInside;
    ghost var lat, order;
    var placed, part;
    lat, order, placed, part := Divide(l, Dag(n, dependents, parents), sccId, threads, latency);
    owner := TablesHold(l, g, es, sccId, members, n, Dag(n, dependents, parents), lat, threads, placed, part);
    SettingHolds(l, g, es, sccId, members, dag, dependents, parents, n, lat, threads, placed, owner);
    sch := Schedule(sccId, members, dag, dependents, parents, n, lat, placed, order);
    o := Generate(l, g.rev, es, sccId, placed, part, members, postidom, threads, owner);
  }
}
