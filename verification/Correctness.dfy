/** What holds of every run of the pipeline: it never deadlocks, it ends, and it ends with the memory and the
    register values of the sequential loop and with every channel empty. */
module Correctness {
  import opened Ir
  import opened PostDominance
  import opened PeeledLoop
  import opened Slicing
  import opened Plan
  import opened Sequential
  import opened Conflicts
  import opened Trace
  import opened Pipeline
  import opened Simulation
  import opened Channels
  import opened Execution
  import opened Steps
  import opened BlockEnd

  lemma EnabledInside(y: System, n: nat, s: State, vis: seq<nat>, i: nat)
    requires Sound(y, n) && Placed(y, n, s, vis) && i < |s.threads| && s.threads[i].block != y.r.l.exit
    ensures y.r.Valid() && i < |vis| && vis[i] < n && s.threads[i].pc < |y.p.Code(i, s.threads[i].block)|
  {
    hide GoodPlan, GoodBranches, UsesCovered, ConflictsCovered, Run.Conf, Plan.Code;
  }

  /** Every step keeps the relation to the sequential run. */
  lemma StepKeeps(y: System, n: nat, s: State, vis: seq<nat>, i: nat) returns (vis': seq<nat>)
    requires Inv(y, n, s, vis) && y.r.l.Valid() && Enabled(y, s, i)
    ensures Inv(y, n, Fire(y, s, i), vis')
    ensures y.r.Valid() && i < |vis| == |vis'| && vis[i] < n && s.threads[i].pc < |y.p.Code(i, s.threads[i].block)|
    ensures vis' == if AtTerm(y, s, i) then vis[i := NextKept(y, n, i, vis[i] + 1)] else vis
  {
    EnabledInside(y, n, s, vis, i);
    hide RegsHold, ChansHold, MemHolds, Placed, GoodPlan, GoodBranches, UsesCovered, ConflictsCovered, Runs, AtTerm;
    hide Fire;
    var s' := Fire(y, s, i);
    if AtTerm(y, s, i) {
      vis' := vis[i := NextKept(y, n, i, vis[i] + 1)];
      TermStep(y, n, s, s', vis, vis', i);
    } else {
      vis' := vis;
      assert Moving(y, n, s, vis, i) && Fires(y, s, s', i);
      hide Moving, Fires, Inv;
      match OpAt(y, s, i)
      case Clone(x) => CloneStep(y, n, s, s', vis, i, x);
      case Produce(c) => SendStep(y, n, s, s', vis, i, c);
      case Consume(c) => GetStep(y, n, s, s', vis, i, c);
    }
  }

  // ---- the start ----

  ghost function Start(y: System): (vis: seq<nat>)
    ensures |vis| == |y.p.kept| && forall i :: 0 <= i < |vis| ==> vis[i] == 0
  {
    seq(|y.p.kept|, i => 0)
  }

  lemma {:induction false} PartialEmpty(h: History, n: nat)
    requires n <= |h.stores|
    ensures h.Partial({}, n) == h.init
  {
    if n > 0 { PartialEmpty(h, n - 1); }
  }

  lemma StartPlaced(y: System, n: nat)
    requires Sound(y, n)
    ensures Placed(y, n, Initial(y), Start(y)) && y.r.Valid() && n > 0
  {
    assert y.r.Blk(0) == y.r.l.header;
    forall i: nat | i < |y.p.kept| ensures y.p.Keeps(i, y.r.l.header) && |y.p.Code(i, y.r.l.header)| > 0 {
      HeaderKept(y, n, i);
      CodeNonempty(y, n, i, y.r.l.header);
    }
    hide GoodPlan, GoodBranches, UsesCovered, ConflictsCovered, Run.Conf, Plan.Code, Plan.Keeps;
  }

  lemma HeaderKept(y: System, n: nat, i: nat)
    requires Sound(y, n) && i < |y.p.kept|
    ensures y.p.Keeps(i, y.r.l.header)
  {
    hide GoodBranches, UsesCovered, ConflictsCovered, Plan.GoodCode, Runs;
  }

  lemma NothingDid(y: System, i: nat, op: Op)
    ensures !Did(y, Initial(y), i, op)
  {
  }

  lemma StartRegs(y: System, n: nat)
    requires Sound(y, n) && Placed(y, n, Initial(y), Start(y))
    ensures RegsHold(y, n, Initial(y), Start(y))
  {
    SystemFacts(y, n, Initial(y), Start(y));
    assert y.r.At(0).regs == map[] by { AtStart(y.r); }
    hide GoodPlan, GoodBranches, UsesCovered, ConflictsCovered, Run.Conf, Did, Placed, FirstReg, Machine.Valid;
    forall u | u in y.r.l.parent && !y.r.l.IsTerm(u) ensures OwnReg(y, Initial(y), Start(y), y.p.owner[u], u) {
      NothingDid(y, y.p.owner[u], Clone(u));
    }
    forall c: nat | c < |y.p.chans| && FirstReg(y.p, c)
      ensures y.p.chans[c].to < |Start(y)| && CopiedReg(y, Initial(y), Start(y), c)
    {
      ChanFacts(y, n, c);
      NothingDid(y, y.p.chans[c].to, Consume(c));
    }
    RegsBack(y, n, Initial(y), Start(y));
  }

  lemma StartChans(y: System, n: nat)
    requires Sound(y, n) && Placed(y, n, Initial(y), Start(y))
    ensures ChansHold(y, n, Initial(y), Start(y))
  {
    hide Sound, Did, Placed, Chan, ChanHolds, Initial;
    SystemFacts(y, n, Initial(y), Start(y));
    forall c: nat | c < |y.p.chans|
      ensures Chan(y, c) && ToThread(y, c) && y.p.chans[c].from < |Start(y)| && y.p.chans[c].to < |Start(y)|
      ensures ChanHolds(y, n, Initial(y), Start(y), c)
    {
      ChanFacts(y, n, c);
      StartChan(y, n, c);
    }
  }

  lemma StartChan(y: System, n: nat, c: nat)
    requires Chan(y, c) && c < |y.p.chans| && y.p.chans[c].from < |Start(y)| && y.p.chans[c].to < |Start(y)|
    ensures c < |Initial(y).queues| && ChanHolds(y, n, Initial(y), Start(y), c)
  {
    hide Chan, Did;
    NothingDid(y, y.p.chans[c].from, Produce(c));
    NothingDid(y, y.p.chans[c].to, Consume(c));
  }

  lemma StartMem(y: System, n: nat)
    requires Sound(y, n) && Placed(y, n, Initial(y), Start(y))
    ensures MemHolds(y, n, Initial(y), Start(y))
  {
    hide GoodPlan, GoodBranches, UsesCovered, ConflictsCovered, Run.Conf, Did, Placed, Base, History.Partial;
    forall a: nat | a < Base(Widths(y.r, n), n) ensures !PastEvent(y, n, Initial(y), Start(y), EventNo(y.r, n, a)) {
      var x := InstOf(y.r, EventNo(y.r, n, a));
      if x in y.p.owner { NothingDid(y, y.p.owner[x], Clone(x)); }
    }
    assert DoneSet(y, n, Initial(y), Start(y)) == {};
    PartialEmpty(HistoryOf(y.r, n), Base(Widths(y.r, n), n));
  }

  lemma StartInv(y: System, n: nat)
    requires Sound(y, n)
    ensures Inv(y, n, Initial(y), Start(y))
  {
    hide Sound, Placed, RegsHold, ChansHold, MemHolds;
    StartPlaced(y, n);
    StartRegs(y, n);
    StartChans(y, n);
    StartMem(y, n);
  }

  // ---- deadlock freedom ----

  /** Thread `i` is behind thread `j`: earlier in the trace, or at the same visit and earlier in the pipeline. */
  ghost predicate Behind(vis: seq<nat>, i: nat, j: nat)
    requires i < |vis| && j < |vis|
  {
    vis[i] < vis[j] || (vis[i] == vis[j] && i < j)
  }

  lemma {:induction false} LastThread(vis: seq<nat>, m: nat) returns (i: nat)
    requires 0 < m <= |vis|
    ensures i < m && forall j: nat :: j < m && j != i ==> Behind(vis, i, j)
  {
    if m == 1 {
      i := 0;
    } else {
      var k := LastThread(vis, m - 1);
      i := if vis[m - 1] < vis[k] then m - 1 else k;
      forall j: nat | j < m && j != i ensures Behind(vis, i, j) {
        if j != k && j != m - 1 { assert Behind(vis, k, j); }
      }
    }
  }

  /** When a send finds the channel full the receiver is behind. */
  lemma FullBehind(y: System, n: nat, s: State, vis: seq<nat>, i: nat, c: nat)
    requires Inv(y, n, s, vis) && i < |vis| && vis[i] < n && s.threads[i].pc < |y.p.Code(i, s.threads[i].block)|
    requires OpAt(y, s, i) == Produce(c) && c < |s.queues| && |s.queues[c]| > 0
    ensures c < |y.p.chans| && y.p.chans[c].to < |vis| && y.p.chans[c].to != i && !Behind(vis, i, y.p.chans[c].to)
  {
    hide Sound, Placed, RegsHold, ChansHold, MemHolds, Did, Chan, Visits, Vals;
    SendFacts(y, n, s, vis, i, c);
    ChanInRange(y, c);
    ChanOf(y, n, s, vis, c);
    if vis[i] <= vis[y.p.chans[c].to] { ValsPrefix(y, c, vis[i], vis[y.p.chans[c].to]); }
  }

  lemma ChanInRange(y: System, c: nat)
    requires Chan(y, c)
    ensures c < |y.p.chans|
  {
  }

  /** When a receive finds the channel empty the sender is behind. */
  lemma EmptyBehind(y: System, n: nat, s: State, vis: seq<nat>, i: nat, c: nat)
    requires Inv(y, n, s, vis) && i < |vis| && vis[i] < n && s.threads[i].pc < |y.p.Code(i, s.threads[i].block)|
    requires OpAt(y, s, i) == Consume(c) && c < |s.queues| && |s.queues[c]| == 0
    ensures c < |y.p.chans| && y.p.chans[c].from < |vis| && y.p.chans[c].from != i && !Behind(vis, i, y.p.chans[c].from)
  {
    hide Sound, Placed, RegsHold, ChansHold, MemHolds, Did, Chan, Visits, Vals;
    GetFacts(y, n, s, vis, i, c);
    ChanInRange(y, c);
    ChanOf(y, n, s, vis, c);
    if vis[i] < vis[y.p.chans[c].from] {
      ValsAt(y, c, vis[i], n);
      ValsPrefix(y, c, vis[i] + 1, vis[y.p.chans[c].from]);
    }
  }

  /** The thread that is furthest behind can always move. */
  lemma LastMoves(y: System, n: nat, s: State, vis: seq<nat>, i: nat)
    requires Inv(y, n, s, vis) && i < |vis| && vis[i] < n && forall j: nat :: j < |vis| && j != i ==> Behind(vis, i, j)
    ensures Enabled(y, s, i)
  {
    hide GoodPlan, GoodBranches, UsesCovered, ConflictsCovered, Runs, RegsHold, ChansHold, MemHolds, Placed, Run.Conf;
    hide OpAt, Behind;
    SystemFacts(y, n, s, vis);
    InsideFacts(y, n, s, vis, i);
    hide Sound, Run.Valid, Chan;
    match OpAt(y, s, i)
    case Clone(x) =>
    case Produce(c) =>
      SendFacts(y, n, s, vis, i, c);
      ChanInRange(y, c);
      if |s.queues[c]| > 0 { FullBehind(y, n, s, vis, i, c); }
    case Consume(c) =>
      GetFacts(y, n, s, vis, i, c);
      ChanInRange(y, c);
      if |s.queues[c]| == 0 { EmptyBehind(y, n, s, vis, i, c); }
  }

  lemma InsideFacts(y: System, n: nat, s: State, vis: seq<nat>, i: nat)
    requires Inv(y, n, s, vis) && i < |vis| && vis[i] < n
    ensures Sound(y, n) && Placed(y, n, s, vis) && y.cap > 0
    ensures s.threads[i].block in y.r.l.blocks && s.threads[i].block != y.r.l.exit
    ensures s.threads[i].pc < |y.p.Code(i, s.threads[i].block)|
  {
    OpFacts(y, n, s, vis, i);
    hide UsesCovered, ConflictsCovered, GoodBranches, RegsHold, ChansHold, MemHolds, Plan.GoodCode, Plan.Code, Run.Conf;
  }

  // ---- how many steps there are ----

  /** Operations of thread `i` in the visits before `t`. */
  ghost function WorkTo(y: System, i: nat, t: nat): nat
    requires y.r.Valid()
  {
    if t == 0 then 0
    else WorkTo(y, i, t - 1) + if y.p.Keeps(i, y.r.Blk(t - 1)) then |y.p.Code(i, y.r.Blk(t - 1))| else 0
  }

  /** Operations of the first `m` threads in the whole run. */
  ghost function AllWork(y: System, n: nat, m: nat): nat
    requires y.r.Valid()
  {
    if m == 0 then 0 else AllWork(y, n, m - 1) + WorkTo(y, m - 1, n)
  }

  ghost function Done(y: System, s: State, vis: seq<nat>, i: nat): nat
    requires y.r.Valid() && i < |vis| == |s.threads|
  {
    WorkTo(y, i, vis[i]) + s.threads[i].pc
  }

  /** Operations that the first `m` threads have executed. */
  ghost function AllDone(y: System, s: State, vis: seq<nat>, m: nat): nat
    requires y.r.Valid() && m <= |vis| == |s.threads|
  {
    if m == 0 then 0 else AllDone(y, s, vis, m - 1) + Done(y, s, vis, m - 1)
  }

  lemma {:induction false} WorkSkipped(y: System, n: nat, i: nat, t: nat)
    requires y.r.Valid() && t <= n
    ensures WorkTo(y, i, NextKept(y, n, i, t)) == WorkTo(y, i, t)
    decreases n - t
  {
    hide Run.Valid, Run.Blk, Plan.Keeps, Plan.Code;
    if t < n && !y.p.Keeps(i, y.r.Blk(t)) { WorkSkipped(y, n, i, t + 1); }
  }

  lemma {:induction false} WorkGrows(y: System, i: nat, t: nat, t': nat)
    requires y.r.Valid() && t <= t'
    ensures WorkTo(y, i, t) <= WorkTo(y, i, t')
    decreases t' - t
  {
    hide Run.Valid, Run.Blk, Plan.Keeps, Plan.Code;
    if t < t' { WorkGrows(y, i, t, t' - 1); }
  }

  lemma TermIsLast(y: System, n: nat, s: State, vis: seq<nat>, i: nat)
    requires Leaving(y, n, s, vis, i)
    ensures y.r.Valid() && y.p.Keeps(i, y.r.Blk(vis[i])) && s.threads[i].pc + 1 == |y.p.Code(i, y.r.Blk(vis[i]))|
  {
    LeavingFacts(y, n, s, vis, i);
    hide GoodBranches, UsesCovered, ConflictsCovered, Run.Conf, Plan.Code;
    y.p.TermLast(i, y.r.Blk(vis[i]));
  }

  lemma {:induction false} OthersDone(y: System, s: State, s': State, vis: seq<nat>, vis': seq<nat>, i: nat, m: nat)
    requires y.r.Valid() && m <= |vis| == |s.threads| == |s'.threads| == |vis'|
    requires forall j :: 0 <= j < |vis| && j != i ==> vis'[j] == vis[j] && s'.threads[j] == s.threads[j]
    requires i < |vis| && Done(y, s', vis', i) == Done(y, s, vis, i) + 1
    ensures AllDone(y, s', vis', m) == AllDone(y, s, vis, m) + if i < m then 1 else 0
  {
    hide Run.Valid, WorkTo;
    if m > 0 { OthersDone(y, s, s', vis, vis', i, m - 1); }
  }

  lemma FireLocal(y: System, s: State, i: nat)
    requires y.r.l.Valid() && Enabled(y, s, i)
    ensures |Fire(y, s, i).threads| == |s.threads| && i < |s.threads|
    ensures forall j :: 0 <= j < |s.threads| && j != i ==> Fire(y, s, i).threads[j] == s.threads[j]
    ensures s.threads[i].pc < |y.p.Code(i, s.threads[i].block)|
    ensures Fire(y, s, i).threads[i].pc == if AtTerm(y, s, i) then 0 else s.threads[i].pc + 1
  {
    hide Next, FirstReg, Machine.Operands;
  }

  lemma DoneStays(y: System, s: State, s': State, vis: seq<nat>, i: nat)
    requires y.r.Valid() && i < |vis| == |s.threads| == |s'.threads| && s'.threads[i].pc == s.threads[i].pc + 1
    ensures Done(y, s', vis, i) == Done(y, s, vis, i) + 1
  {
    hide WorkTo, Run.Valid;
  }

  lemma DoneLeaves(y: System, n: nat, s: State, s': State, vis: seq<nat>, vis': seq<nat>, i: nat)
    requires Leaving(y, n, s, vis, i) && y.r.Valid() && i < |vis| == |s.threads| == |s'.threads| && vis[i] < n
    requires vis' == vis[i := NextKept(y, n, i, vis[i] + 1)] && s'.threads[i].pc == 0
    ensures Done(y, s', vis', i) == Done(y, s, vis, i) + 1
  {
    hide Sound, Placed, AtTerm, Leaving, Run.Valid, NextKept, Run.Blk, Plan.Code, Plan.Keeps;
    TermIsLast(y, n, s, vis, i);
    WorkSkipped(y, n, i, vis[i] + 1);
  }

  lemma StepCounts(y: System, n: nat, s: State, vis: seq<nat>, i: nat) returns (vis': seq<nat>)
    requires Inv(y, n, s, vis) && y.r.l.Valid() && y.r.Valid() && Enabled(y, s, i) && |s.threads| == |vis|
    ensures Inv(y, n, Fire(y, s, i), vis') && |vis'| == |vis| == |Fire(y, s, i).threads|
    ensures AllDone(y, Fire(y, s, i), vis', |vis|) == AllDone(y, s, vis, |vis|) + 1
  {
    hide RegsHold, ChansHold, MemHolds, Placed, GoodPlan, GoodBranches, UsesCovered, ConflictsCovered, Runs, AtTerm;
    hide Fire, Enabled, NextKept, AllDone;
    hide Run.Valid, Loop.Valid, Done;
    vis' := StepKeeps(y, n, s, vis, i);
    FireLocal(y, s, i);
    if AtTerm(y, s, i) {
      DoneLeaves(y, n, s, Fire(y, s, i), vis, vis', i);
    } else {
      DoneStays(y, s, Fire(y, s, i), vis, i);
    }
    OthersDone(y, s, Fire(y, s, i), vis, vis', i, |vis|);
  }

  lemma RunStep(y: System, ss: seq<State>, who: seq<nat>, k: nat)
    requires y.r.l.Valid() && IsRun(y, ss, who) && 0 < k < |ss|
    ensures k - 1 < |who| && Enabled(y, ss[k - 1], who[k - 1]) && ss[k] == Fire(y, ss[k - 1], who[k - 1])
  {
    hide Enabled, Fire, Loop.Valid, Initial;
  }

  lemma RunFirst(y: System, ss: seq<State>, who: seq<nat>)
    requires y.r.l.Valid() && IsRun(y, ss, who)
    ensures |ss| == |who| + 1 && ss[0] == Initial(y)
  {
  }

  /** After every step of every run the relation holds and the count of executed operations is the number of steps. */
  lemma {:induction false} RunKeeps(y: System, n: nat, ss: seq<State>, who: seq<nat>, k: nat) returns (vis: seq<nat>)
    requires Sound(y, n) && y.r.l.Valid() && y.r.Valid() && IsRun(y, ss, who) && k < |ss|
    ensures Inv(y, n, ss[k], vis) && |vis| == |ss[k].threads| == |y.p.kept| && AllDone(y, ss[k], vis, |vis|) == k
  {
    hide Sound, Run.Valid, Loop.Valid, Inv, Fire, Enabled, AllDone, Initial, IsRun;
    if k == 0 {
      vis := Start(y);
      RunFirst(y, ss, who);
      StartInv(y, n);
      NothingDone(y, |vis|);
    } else {
      var was := RunKeeps(y, n, ss, who, k - 1);
      RunStep(y, ss, who, k);
      vis := StepCounts(y, n, ss[k - 1], was, who[k - 1]);
    }
  }

  lemma {:induction false} NothingDone(y: System, m: nat)
    requires y.r.Valid() && m <= |y.p.kept|
    ensures |Initial(y).threads| == |Start(y)| && AllDone(y, Initial(y), Start(y), m) == 0
  {
    hide Run.Valid;
    if m > 0 { NothingDone(y, m - 1); }
  }

  // ---- the main results ----

  lemma InvPlaced(y: System, n: nat, s: State, vis: seq<nat>)
    requires Inv(y, n, s, vis)
    ensures y.r.Valid() && y.r.l.Valid() && |vis| == |s.threads| == |y.p.kept| && |s.queues| == |y.p.chans|
    ensures forall i :: 0 <= i < |vis| ==> vis[i] <= n && (s.threads[i].block == y.r.l.exit <==> vis[i] == n)
    ensures forall i :: 0 <= i < |vis| && vis[i] == n ==> s.threads[i].pc == 0
    ensures forall i :: 0 <= i < |vis| && vis[i] < n ==>
              y.p.Keeps(i, y.r.Blk(vis[i])) && s.threads[i].pc < |y.p.Code(i, y.r.Blk(vis[i]))|
  {
    SystemFacts(y, n, s, vis);
    hide GoodPlan, GoodBranches, UsesCovered, ConflictsCovered, Run.Conf, RegsHold, ChansHold, MemHolds, Plan.Code;
  }

  /** No run deadlocks: while some thread has not returned, some thread can move. */
  lemma NoDeadlock(y: System, n: nat, ss: seq<State>, who: seq<nat>)
    requires Sound(y, n) && y.r.l.Valid() && IsRun(y, ss, who)
    ensures Finished(y, ss[|ss| - 1]) || CanMove(y, ss[|ss| - 1])
  {
    hide Run.Valid, Loop.Valid, Inv, Fire, Enabled, Initial, IsRun, GoodPlan, GoodBranches, UsesCovered;
    hide ConflictsCovered, Runs;
    RunFirst(y, ss, who);
    var s := ss[|ss| - 1];
    SystemValid(y, n);
    var vis := RunKeeps(y, n, ss, who, |ss| - 1);
    InvPlaced(y, n, s, vis);
    if !Finished(y, s) {
      var i := LastThread(vis, |vis|);
      LastUnfinished(n, vis, i);
      LastMoves(y, n, s, vis, i);
    }
  }

  lemma SystemValid(y: System, n: nat)
    requires Sound(y, n)
    ensures y.r.Valid() && y.r.l.Valid()
  {
    hide GoodPlan, GoodBranches, UsesCovered, ConflictsCovered;
  }

  lemma LastUnfinished(n: nat, vis: seq<nat>, i: nat)
    requires i < |vis| && (forall j: nat :: j < |vis| && j != i ==> Behind(vis, i, j))
    requires exists j :: 0 <= j < |vis| && vis[j] < n
    ensures vis[i] < n
  {
    var j :| 0 <= j < |vis| && vis[j] < n;
    if j != i { assert Behind(vis, i, j); }
  }

  lemma {:induction false} DoneBound(y: System, n: nat, s: State, vis: seq<nat>, m: nat)
    requires y.r.Valid() && m <= |vis| == |s.threads| && Inv(y, n, s, vis)
    ensures AllDone(y, s, vis, m) <= AllWork(y, n, m)
    ensures AllDone(y, s, vis, m) == AllWork(y, n, m) <==> forall i :: 0 <= i < m ==> vis[i] == n
  {
    hide Inv, Run.Valid, WorkTo, Plan.Code, Plan.Keeps;
    if m > 0 {
      DoneBound(y, n, s, vis, m - 1);
      OneBound(y, n, s, vis, m - 1);
    }
  }

  lemma OneBound(y: System, n: nat, s: State, vis: seq<nat>, i: nat)
    requires y.r.Valid() && i < |vis| == |s.threads| && Inv(y, n, s, vis)
    ensures Done(y, s, vis, i) <= WorkTo(y, i, n)
    ensures Done(y, s, vis, i) == WorkTo(y, i, n) <==> vis[i] == n
  {
    hide Inv, Run.Valid, Run.Blk, Plan.Code, Plan.Keeps, WorkTo;
    InvPlaced(y, n, s, vis);
    if vis[i] < n { WorkLeft(y, i, vis[i], n); }
  }

  lemma WorkLeft(y: System, i: nat, t: nat, n: nat)
    requires y.r.Valid() && y.p.Keeps(i, y.r.Blk(t)) && t < n
    ensures WorkTo(y, i, t) + |y.p.Code(i, y.r.Blk(t))| <= WorkTo(y, i, n)
  {
    hide Run.Valid, Run.Blk, Plan.Code, Plan.Keeps;
    WorkGrows(y, i, t + 1, n);
  }

  /** Every run ends: it has at most as many steps as there are operations, and has returned everywhere exactly
      when it has that many. With `NoDeadlock`, every run that is not cut short finishes. */
  lemma RunsEnd(y: System, n: nat, ss: seq<State>, who: seq<nat>)
    requires Sound(y, n) && y.r.l.Valid() && y.r.Valid() && IsRun(y, ss, who)
    ensures |who| <= AllWork(y, n, |y.p.kept|)
    ensures |who| == AllWork(y, n, |y.p.kept|) <==> Finished(y, ss[|ss| - 1])
  {
    hide Sound, Run.Valid, Loop.Valid, Inv, Fire, Enabled, Initial, AllWork, AllDone;
    var vis := RunKeeps(y, n, ss, who, |ss| - 1);
    InvPlaced(y, n, ss[|ss| - 1], vis);
    DoneBound(y, n, ss[|ss| - 1], vis, |vis|);
  }

  lemma AllPast(y: System, n: nat, s: State, vis: seq<nat>, e: Event)
    requires Inv(y, n, s, vis) && (forall i :: 0 <= i < |vis| ==> vis[i] == n) && Occurs(y.r, n, e)
    ensures PastEvent(y, n, s, vis, e)
  {
    EventFacts(y, n, e);
    SystemFacts(y, n, s, vis);
    hide Sound, RegsHold, ChansHold, MemHolds, Placed, InstOf, Did;
  }

  lemma MemoryAtEnd(y: System, n: nat, s: State, vis: seq<nat>)
    requires Inv(y, n, s, vis) && y.r.Valid() && (forall i :: 0 <= i < |vis| ==> vis[i] == n)
    ensures s.mem == y.r.At(n).mem
  {
    hide GoodPlan, GoodBranches, UsesCovered, ConflictsCovered, RegsHold, ChansHold, Placed, PastEvent, HistoryOf;
    hide History.Partial, Base;
    var size := Base(Widths(y.r, n), n);
    forall a: nat | a < size ensures PastEvent(y, n, s, vis, EventNo(y.r, n, a)) { AllPast(y, n, s, vis, EventNo(y.r, n, a)); }
    HistoryOf(y.r, n).AllDone(DoneSet(y, n, s, vis), size);
    FullAtEnd(y.r, n);
  }

  lemma NothingAtEnd(y: System, n: nat, s: State, vis: seq<nat>, i: nat, op: Op)
    requires Inv(y, n, s, vis) && i < |vis| && vis[i] == n
    ensures !Did(y, s, i, op)
  {
    InvPlaced(y, n, s, vis);
    hide Inv;
  }

  lemma OwnAtEnd(y: System, n: nat, s: State, vis: seq<nat>, u: Inst)
    requires Inv(y, n, s, vis) && y.r.Valid() && (forall i :: 0 <= i < |vis| ==> vis[i] == n) && u in y.r.l.parent
    requires !y.r.l.IsTerm(u)
    ensures u in y.p.owner && y.p.owner[u] < |s.threads| && SameAt(s.threads[y.p.owner[u]].regs, y.r.At(n).regs, u)
  {
    OwnRegOf(y, n, s, vis, u);
    NothingAtEnd(y, n, s, vis, y.p.owner[u], Clone(u));
    hide Inv, Did, Run.At, Run.Valid;
  }

  lemma ChannelAtEnd(y: System, n: nat, s: State, vis: seq<nat>, c: nat)
    requires Inv(y, n, s, vis) && (forall i :: 0 <= i < |vis| ==> vis[i] == n) && c < |y.p.chans|
    ensures c < |s.queues| && s.queues[c] == []
    ensures Chan(y, c) && y.p.chans[c].from < |vis| && y.p.chans[c].to < |vis|
    ensures GotNo(y, s, vis, c) == SentNo(y, s, vis, c) == |Vals(y, c, n)|
  {
    hide Inv, Did, Chan, Vals;
    ChanOf(y, n, s, vis, c);
    NothingAtEnd(y, n, s, vis, y.p.chans[c].from, Produce(c));
    NothingAtEnd(y, n, s, vis, y.p.chans[c].to, Consume(c));
  }

  /** The pipeline computes what the loop computes: whatever the interleaving, when all threads have returned memory is
      what the sequential loop leaves, every instruction's register has its final value in the thread that owns the
      instruction, and every channel is empty. */
  lemma SameMeaning(y: System, n: nat, ss: seq<State>, who: seq<nat>)
    requires Sound(y, n) && y.r.l.Valid() && y.r.Valid() && IsRun(y, ss, who) && Finished(y, ss[|ss| - 1])
    ensures var s := ss[|ss| - 1];
      && s.mem == y.r.At(n).mem
      && (forall u :: u in y.r.l.parent && !y.r.l.IsTerm(u) ==>
            u in y.p.owner && y.p.owner[u] < |s.threads| && SameAt(s.threads[y.p.owner[u]].regs, y.r.At(n).regs, u))
      && (forall c :: 0 <= c < |s.queues| ==> s.queues[c] == [])
  {
    RunFirst(y, ss, who);
    var s := ss[|ss| - 1];
    hide Sound, Run.Valid, Loop.Valid, Inv, Fire, Enabled, Initial, AllDone, IsRun, Run.At;
    var vis := RunKeeps(y, n, ss, who, |ss| - 1);
    InvPlaced(y, n, s, vis);
    MemoryAtEnd(y, n, s, vis);
    forall u | u in y.r.l.parent && !y.r.l.IsTerm(u)
      ensures u in y.p.owner && y.p.owner[u] < |s.threads| && SameAt(s.threads[y.p.owner[u]].regs, y.r.At(n).regs, u)
    {
      OwnAtEnd(y, n, s, vis, u);
    }
    forall c: nat | c < |s.queues| ensures s.queues[c] == [] { ChannelAtEnd(y, n, s, vis, c); }
  }

  // ---- channel histories ----

  /** What has been sent on channel `c` in the first `k` steps, in order. */
  ghost function SentOn(y: System, ss: seq<State>, who: seq<nat>, k: nat, c: nat): seq<int>
    requires y.r.l.Valid() && IsRun(y, ss, who) && k <= |who|
  {
    if k == 0 then []
    else
      var s, i := ss[k - 1], who[k - 1];
      RunStep(y, ss, who, k);
      SentOn(y, ss, who, k - 1, c) + if OpAt(y, s, i) == Produce(c) then [Sent(y.p, c, s.threads[i].regs)] else []
  }

  /** What has been received from channel `c` in the first `k` steps, in order. */
  ghost function GotFrom(y: System, ss: seq<State>, who: seq<nat>, k: nat, c: nat): seq<int>
    requires y.r.l.Valid() && IsRun(y, ss, who) && k <= |who|
  {
    if k == 0 then []
    else
      var s, i := ss[k - 1], who[k - 1];
      RunStep(y, ss, who, k);
      GotFrom(y, ss, who, k - 1, c) + if OpAt(y, s, i) == Consume(c) then [s.queues[c][0]] else []
  }

  lemma QueueStep(y: System, s: State, i: nat, c: nat)
    requires y.r.l.Valid() && Enabled(y, s, i) && c < |s.queues|
    ensures |Fire(y, s, i).queues| == |s.queues|
    ensures OpAt(y, s, i) == Produce(c) ==> c < |y.p.chans| && Fire(y, s, i).queues[c] == s.queues[c] + [Sent(y.p, c, s.threads[i].regs)]
    ensures OpAt(y, s, i) == Consume(c) ==> |s.queues[c]| > 0 && [s.queues[c][0]] + Fire(y, s, i).queues[c] == s.queues[c]
    ensures OpAt(y, s, i) != Produce(c) && OpAt(y, s, i) != Consume(c) ==> Fire(y, s, i).queues[c] == s.queues[c]
  {
    hide Next, FirstReg, Machine.Operands;
  }

  /** A channel is a bounded queue: what was sent is what was received followed by what it holds. */
  lemma {:induction false} Conserved(y: System, ss: seq<State>, who: seq<nat>, k: nat, c: nat)
    requires y.r.l.Valid() && IsRun(y, ss, who) && k <= |who| && c < |y.p.chans|
    ensures |ss[k].queues| == |y.p.chans| && SentOn(y, ss, who, k, c) == GotFrom(y, ss, who, k, c) + ss[k].queues[c]
  {
    hide Enabled, Fire, Loop.Valid, IsRun;
    RunFirst(y, ss, who);
    if k > 0 {
      Conserved(y, ss, who, k - 1, c);
      RunStep(y, ss, who, k);
      QueueStep(y, ss[k - 1], who[k - 1], c);
    }
  }

  lemma FireTicks(y: System, s: State, i: nat)
    requires y.r.l.Valid() && Enabled(y, s, i) && !AtTerm(y, s, i)
    ensures Ticked(s, Fire(y, s, i), i)
  {
    hide Next, FirstReg, Machine.Operands;
  }

  /** The number of values taken from a channel counts its receives. */
  lemma GotStep(y: System, n: nat, s: State, vis: seq<nat>, vis': seq<nat>, i: nat, c: nat)
    requires Inv(y, n, s, vis) && y.r.l.Valid() && y.r.Valid() && Enabled(y, s, i) && i < |vis| == |vis'| && vis[i] < n
    requires vis' == if AtTerm(y, s, i) then vis[i := NextKept(y, n, i, vis[i] + 1)] else vis
    requires c < |y.p.chans| && Chan(y, c) && y.p.chans[c].to < |vis|
    ensures GotNo(y, Fire(y, s, i), vis', c) == GotNo(y, s, vis, c) + if OpAt(y, s, i) == Consume(c) then 1 else 0
  {
    hide RegsHold, ChansHold, MemHolds, Placed, GoodPlan, GoodBranches, UsesCovered, ConflictsCovered, Runs, AtTerm;
    hide Fire, NextKept;
    hide Chan, Did, Vals, Run.Valid, Loop.Valid, Left, Enabled, OpAt;
    var s' := Fire(y, s, i);
    FireLocal(y, s, i);
    if AtTerm(y, s, i) {
      FiresLeft(y, n, s, s', vis, vis', i);
      LeftGot(y, n, s, s', vis, vis', i, c);
      TermIsClone(y, s, i);
    } else {
      FireTicks(y, s, i);
      TickDid(y, n, s, s', vis, i, y.p.chans[c].to, Consume(c));
      if OpAt(y, s, i) == Consume(c) { GetFacts(y, n, s, vis, i, c); }
    }
  }

  lemma TermIsClone(y: System, s: State, i: nat)
    requires i < |s.threads| && s.threads[i].pc < |y.p.Code(i, s.threads[i].block)| && AtTerm(y, s, i)
    ensures OpAt(y, s, i).Clone?
  {
  }

  /** At every point of every run the receiver has taken, in order, the first values that the source has in the
      visits of its block; the sender is ahead of it by what the channel holds. */
  lemma {:induction false} InOrder(y: System, n: nat, ss: seq<State>, who: seq<nat>, k: nat, c: nat) returns (vis: seq<nat>)
    requires Sound(y, n) && y.r.l.Valid() && y.r.Valid() && IsRun(y, ss, who) && k <= |who| && c < |y.p.chans|
    ensures |ss| == |who| + 1 && Inv(y, n, ss[k], vis)
    ensures Chan(y, c) && y.p.chans[c].to < |vis| && GotNo(y, ss[k], vis, c) <= |Vals(y, c, n)|
    ensures GotFrom(y, ss, who, k, c) == Vals(y, c, n)[..GotNo(y, ss[k], vis, c)]
  {
    hide Sound, Run.Valid, Loop.Valid, Inv, Fire, Enabled, Initial, IsRun, Chan, GotNo, Vals, OpAt;
    RunFirst(y, ss, who);
    if k == 0 {
      vis := Start(y);
      StartInv(y, n);
      ChanOf(y, n, ss[0], vis, c);
      StartGot(y, c);
    } else {
      var was := InOrder(y, n, ss, who, k - 1, c);
      RunStep(y, ss, who, k);
      vis := StepKeeps(y, n, ss[k - 1], was, who[k - 1]);
      ChanOf(y, n, ss[k], vis, c);
      ChanOf(y, n, ss[k - 1], was, c);
      GotStep(y, n, ss[k - 1], was, vis, who[k - 1], c);
      FireLocal(y, ss[k - 1], who[k - 1]);
      QueueStep(y, ss[k - 1], who[k - 1], c);
      GotSnoc(y, ss, who, k, c);
    }
  }

  lemma GotSnoc(y: System, ss: seq<State>, who: seq<nat>, k: nat, c: nat)
    requires y.r.l.Valid() && IsRun(y, ss, who) && 0 < k <= |who| && |ss| == |who| + 1
    requires Enabled(y, ss[k - 1], who[k - 1])
    ensures OpAt(y, ss[k - 1], who[k - 1]) == Consume(c) ==> c < |ss[k - 1].queues| && |ss[k - 1].queues[c]| > 0
    ensures GotFrom(y, ss, who, k, c) == GotFrom(y, ss, who, k - 1, c) +
              if OpAt(y, ss[k - 1], who[k - 1]) == Consume(c) then [ss[k - 1].queues[c][0]] else []
  {
    hide IsRun, Loop.Valid;
  }

  lemma StartGot(y: System, c: nat)
    requires Chan(y, c) && c < |y.p.chans| && y.p.chans[c].to < |Start(y)|
    ensures GotNo(y, Initial(y), Start(y), c) == 0
  {
    NothingDid(y, y.p.chans[c].to, Consume(c));
  }

  /** Both ends of a channel agree over a whole run: the `k`-th value received is the `k`-th value sent, and it is the
      value of the source in the `k`-th visit of its block. */
  lemma ChannelsMatch(y: System, n: nat, ss: seq<State>, who: seq<nat>, c: nat)
    requires Sound(y, n) && y.r.l.Valid() && y.r.Valid() && IsRun(y, ss, who) && c < |y.p.chans| && |ss| == |who| + 1
    requires Finished(y, ss[|who|])
    ensures Chan(y, c)
    ensures GotFrom(y, ss, who, |who|, c) == SentOn(y, ss, who, |who|, c) == Vals(y, c, n)
  {
    hide Sound, Run.Valid, Loop.Valid, Inv, Fire, Enabled, Initial, IsRun, Chan, GotNo, SentNo, Vals, GotFrom, SentOn;
    var vis := InOrder(y, n, ss, who, |who|, c);
    InvPlaced(y, n, ss[|who|], vis);
    ChannelAtEnd(y, n, ss[|who|], vis, c);
    Conserved(y, ss, who, |who|, c);
  }
}
