/** What the runtime leaves to the scheduler: at every point of every run whoever may take a mutex can, whoever sleeps can be
    woken, and so every run on atomic channels happens on the real queues as well (runtime/queue.c:19-45). */
module Realization {
  import opened Ir
  import opened Plan
  import opened Sequential
  import opened Pipeline
  import opened Correctness
  import opened Queue
  import opened M = Monitor
  import opened Runtime

  /** Thread `i` waits at no condition variable, for no mutex, and holds none. */
  ghost predicate Outside(w: World, i: nat) {
    forall c :: 0 <= c < |w.monitors| ==>
      var m := w.monitors[c]; i !in m.asleepP + m.wokenP + m.asleepC + m.wokenC && !(m.holder.Held? && m.holder.t == i)
  }

  /** A thread outside all calls can execute the instruction that it has come to, whatever goes on at the queues. */
  lemma InstructionGoes(y: System, w: World, i: nat) returns (w': World)
    requires y.r.l.Valid() && Queues(w) && Outside(w, i) && i < |w.threads|
    requires var th := w.threads[i];
             th.block in y.r.l.blocks && th.pc < |y.p.Code(i, th.block)| && y.p.Code(i, th.block)[th.pc].Clone?
    ensures Follows(y, w, Local(i), w') && w'.monitors == w.monitors && Queues(w') && Enabled(y, Abs(w), i) && Abs(w') == Fire(y, Abs(w), i)
  {
    assert Idle(w, i) && Enabled(y, Abs(w), i);
    hide Enabled, Fire, Loop.Valid, Monitor.Busy;
    QueuesSame(y, Abs(w), i);
    w' := World(Fire(y, Abs(w), i).mem, Fire(y, Abs(w), i).threads, w.monitors);
  }

  /** Whoever comes to a send finds the way in when the mutex is free, whoever sleeps or has been woken at that queue. */
  lemma SenderEnters(y: System, w: World, i: nat, c: nat) returns (w': World)
    requires y.r.l.Valid() && Sane(y, w) && c < |w.monitors| && w.monitors[c].holder.Free? && Outside(w, i) && i < |w.threads|
    requires var th := w.threads[i];
             th.block != y.r.l.exit && th.pc < |y.p.Code(i, th.block)| && y.p.Code(i, th.block)[th.pc] == Produce(c)
    ensures Follows(y, w, Enter(i), w') && c < |y.p.chans|
    ensures var ch, regs := y.p.chans[c], w.threads[i].regs;
            var v := if ch.dtype == REG && ch.u in regs then regs[ch.u] else 0;
            w' == w.(monitors := w.monitors[c := w.monitors[c].(holder := Held(i, Producer, Test), elem := w.monitors[c].elem[i := v])])
  {
    hide Inv, InCall, Loop.Valid;
    SaneQueues(y, w);
    assert Idle(w, i);
    assert MayEnter(y, w, i, c, Producer);
    w' := Entered(y, w, i, c, Producer);
  }

  /** So does whoever comes to a receive. */
  lemma ReceiverEnters(y: System, w: World, i: nat, c: nat) returns (w': World)
    requires y.r.l.Valid() && Sane(y, w) && c < |w.monitors| && w.monitors[c].holder.Free? && Outside(w, i) && i < |w.threads|
    requires var th := w.threads[i];
             th.block != y.r.l.exit && th.pc < |y.p.Code(i, th.block)| && y.p.Code(i, th.block)[th.pc] == Consume(c)
    ensures Follows(y, w, Enter(i), w')
    ensures w' == w.(monitors := w.monitors[c := w.monitors[c].(holder := Held(i, Consumer, Test))])
  {
    hide Inv, InCall, Loop.Valid;
    SaneQueues(y, w);
    assert Idle(w, i);
    assert MayEnter(y, w, i, c, Consumer);
    w' := Entered(y, w, i, c, Consumer);
  }

  /** `act` at queue `c` can come next, and leaves the queue as `m'`. */
  ghost predicate Leads(y: System, w: World, c: nat, act: Action, m': Monitor) {
    c < |w.monitors| && Follows(y, w, Act(c, act), w.(monitors := w.monitors[c := m']))
  }

  /** At the test the holder goes to sleep or on, as the buffer is full, or empty, or not. */
  lemma TestActs(y: System, w: World, c: nat)
    requires y.r.l.Valid() && Sane(y, w) && c < |w.monitors| && w.monitors[c].holder.Held? && w.monitors[c].holder.at == Test
    ensures var m := w.monitors[c]; var t := m.holder.t;
            && |m.ring.Contents()| <= y.cap
            && (m.holder.role.Producer? && |m.ring.Contents()| == y.cap ==>
                  Leads(y, w, c, Wait, m.(holder := Free, asleepP := m.asleepP + {t})))
            && (m.holder.role.Consumer? && m.ring.Contents() == [] ==>
                  Leads(y, w, c, Wait, m.(holder := Free, asleepC := m.asleepC + {t})))
            && (m.holder.role.Producer? && |m.ring.Contents()| < y.cap ==>
                  Leads(y, w, c, Go, m.(holder := Held(t, Producer, Update))))
            && (m.holder.role.Consumer? && m.ring.Contents() != [] ==>
                  Leads(y, w, c, Go, m.(holder := Held(t, Consumer, Update))))
  {
    hide InCall, Loop.Valid, NoneLost;
    SaneQueues(y, w);
    assert Inv(w.monitors[c]);
  }

  /** Once past the test, the holder sends or receives. */
  lemma ChangeActs(y: System, w: World, c: nat) returns (w': World)
    requires y.r.l.Valid() && Sane(y, w) && c < |w.monitors| && w.monitors[c].holder.Held? && w.monitors[c].holder.at == Update
    ensures Follows(y, w, Act(c, Change), w') && Queues(w) && Queues(w') && |w'.monitors| == |w.monitors|
    ensures Enabled(y, Abs(w), w.monitors[c].holder.t) && Abs(w') == Fire(y, Abs(w), w.monitors[c].holder.t)
    ensures forall d :: 0 <= d < |w.monitors| && d != c ==> w'.monitors[d] == w.monitors[d]
    ensures var m, m' := w.monitors[c], w'.monitors[c];
            && m'.holder == m.holder.(at := Signal) && m'.elem == m.elem
            && m'.asleepP == m.asleepP && m'.wokenP == m.wokenP && m'.asleepC == m.asleepC && m'.wokenC == m.wokenC
  {
    hide Sane, Loop.Valid, Enabled, Fire, Abs, MayAct, Acted, Queues;
    SaneQueues(y, w);
    MayChange(y, w, c);
    ChangeFires(y, w, c);
    ChangedParts(y, w, c);
    w' := Acted(y, w, c, Change);
  }

  lemma MayChange(y: System, w: World, c: nat)
    requires Sane(y, w) && c < |w.monitors| && w.monitors[c].holder.Held? && w.monitors[c].holder.at == Update
    ensures MayAct(y, w, c, Change)
  {
    hide InCall, NoneLost, Ring.Contents;
    HolderInside(y, w, c);
    assert Inv(w.monitors[c]);
  }

  lemma ChangedParts(y: System, w: World, c: nat)
    requires MayAct(y, w, c, Change)
    ensures var w' := Acted(y, w, c, Change);
            && |w'.monitors| == |w.monitors| && (forall d :: 0 <= d < |w.monitors| && d != c ==> w'.monitors[d] == w.monitors[d])
            && var m, m' := w.monitors[c], w'.monitors[c];
               && m'.holder == m.holder.(at := Signal) && m'.elem == m.elem
               && m'.asleepP == m.asleepP && m'.wokenP == m.wokenP && m'.asleepC == m.asleepC && m'.wokenC == m.wokenC
  {
    hide Ring.Contents, Ring.Valid, Ring.Push, Ring.Pop, Changed;
  }

  /** Then it wakes any sleepers of the other side, one at least if there are any. */
  lemma SignalActs(y: System, w: World, c: nat, some: set<Tid>)
    requires y.r.l.Valid() && Sane(y, w) && c < |w.monitors| && w.monitors[c].holder.Held? && w.monitors[c].holder.at == Signal
    requires var m := w.monitors[c];
             if m.holder.role.Producer? then some <= m.asleepC && (some == {} ==> m.asleepC == {})
             else some <= m.asleepP && (some == {} ==> m.asleepP == {})
    ensures var m := w.monitors[c]; var t := m.holder.t;
            Leads(y, w, c, Wake(some),
                  if m.holder.role.Producer? then
                    m.(asleepC := m.asleepC - some, wokenC := m.wokenC + some, holder := Held(t, Producer, Leave))
                  else m.(asleepP := m.asleepP - some, wokenP := m.wokenP + some, holder := Held(t, Consumer, Leave)))
  {
    hide Inv, InCall, Loop.Valid;
    SaneQueues(y, w);
  }

  /** And gives the mutex back. */
  lemma LeaveActs(y: System, w: World, c: nat)
    requires y.r.l.Valid() && Sane(y, w) && c < |w.monitors| && w.monitors[c].holder.Held? && w.monitors[c].holder.at == Leave
    ensures Leads(y, w, c, Unlock, w.monitors[c].(holder := Free))
  {
    hide Inv, InCall, Loop.Valid;
    SaneQueues(y, w);
  }

  /** Any woken thread may be the next to get the free mutex, and any sleeper may be woken for no reason at any time. */
  lemma SleeperActs(y: System, w: World, c: nat, t: Tid)
    requires y.r.l.Valid() && Sane(y, w) && c < |w.monitors|
    ensures var m := w.monitors[c];
            && (m.holder.Free? && t in m.wokenP ==> Leads(y, w, c, Relock(t), m.(holder := Held(t, Producer, Test), wokenP := m.wokenP - {t})))
            && (m.holder.Free? && t in m.wokenC ==> Leads(y, w, c, Relock(t), m.(holder := Held(t, Consumer, Test), wokenC := m.wokenC - {t})))
            && (t in m.asleepP ==> Leads(y, w, c, Spurious(t), m.(asleepP := m.asleepP - {t}, wokenP := m.wokenP + {t})))
            && (t in m.asleepC ==> Leads(y, w, c, Spurious(t), m.(asleepC := m.asleepC - {t}, wokenC := m.wokenC + {t})))
  {
    hide InCall, Loop.Valid, NoneLost, Fifo;
    SaneQueues(y, w);
    assert Inv(w.monitors[c]) && Apart(w.monitors[c]);
  }

  // ---- whole calls ----

  /** Every buffer's mutex is free and nobody sleeps or has been woken. */
  ghost predicate Calm(w: World) {
    forall c :: 0 <= c < |w.monitors| ==>
      var m := w.monitors[c]; m.holder.Free? && m.asleepP == m.wokenP == m.asleepC == m.wokenC == {}
  }

  /** The moves `mvs` lead through the worlds `ws`. */
  ghost predicate Moves(y: System, ws: seq<World>, mvs: seq<Move>) {
    && |ws| == |mvs| + 1
    && forall k {:trigger mvs[k]} :: 0 <= k < |mvs| ==> Follows(y, ws[k], mvs[k], ws[k + 1])
  }

  /** Everybody who is about the queue, asleep or awake. */
  function Crowd(m: Monitor): set<Tid> {
    m.asleepP + m.wokenP + m.asleepC + m.wokenC
  }

  /** Only the queue `c` may differ, and there the same are about. */
  ghost predicate SameElse(w: World, w': World, c: nat) {
    && c < |w.monitors| == |w'.monitors| && (forall d :: 0 <= d < |w.monitors| && d != c ==> w'.monitors[d] == w.monitors[d])
    && Crowd(w'.monitors[c]) == Crowd(w.monitors[c])
  }

  /** The call that `op` makes can begin: it locks and passes the test. */
  lemma CallBegins(y: System, w: World, i: nat, c: nat, op: Op) returns (w1: World, w2: World)
    requires y.r.l.Valid() && Sane(y, w) && Queues(w) && Enabled(y, Abs(w), i) && Outside(w, i)
    requires OpAt(y, Abs(w), i) == op && op in {Produce(c), Consume(c)} && c < |w.monitors| && w.monitors[c].holder.Free?
    ensures Follows(y, w, Enter(i), w1) && Follows(y, w1, Act(c, Go), w2)
    ensures Sane(y, w2) && Queues(w2) && Abs(w2) == Abs(w) && SameElse(w, w2, c)
    ensures w2.monitors[c].holder == Held(i, if op.Produce? then Producer else Consumer, Update)
  {
    hide Sane, Follows, Loop.Valid, Queues, Outside, Enabled, Abs, OpAt, Crowd;
    w1 := CallEnters(y, w, i, c, op);
    TestActs(y, w1, c);
    var m := w1.monitors[c];
    w2 := w1.(monitors := w1.monitors[c := m.(holder := Held(i, if op.Produce? then Producer else Consumer, Update))]);
    assert Crowd(w2.monitors[c]) == Crowd(m) by { AboutSame(m, w2.monitors[c].holder); }
    var b := MoveRefines(y, w1, Act(c, Go), w2);
  }

  lemma AboutSame(m: Monitor, h: Holder)
    ensures Crowd(m.(holder := h)) == Crowd(m)
  {
  }

  lemma CallEnters(y: System, w: World, i: nat, c: nat, op: Op) returns (w1: World)
    requires y.r.l.Valid() && Sane(y, w) && Queues(w) && Enabled(y, Abs(w), i) && Outside(w, i)
    requires OpAt(y, Abs(w), i) == op && op in {Produce(c), Consume(c)} && c < |w.monitors| && w.monitors[c].holder.Free?
    ensures Follows(y, w, Enter(i), w1) && Sane(y, w1) && Queues(w1) && Abs(w1) == Abs(w) && SameElse(w, w1, c)
    ensures w1.monitors[c].holder == Held(i, if op.Produce? then Producer else Consumer, Test)
    ensures w1.monitors[c].ring.Valid() && if op.Produce? then |w1.monitors[c].ring.Contents()| < y.cap else w1.monitors[c].ring.Contents() != []
  {
    hide Sane, Follows, Loop.Valid, Outside;
    AbsAt(w, c);
    if op.Produce? { w1 := SenderEnters(y, w, i, c); } else { w1 := ReceiverEnters(y, w, i, c); }
    hide Abs, Enabled, Ring.Contents, Ring.Valid;
    var a := MoveRefines(y, w, Enter(i), w1);
  }

  lemma AbsAt(w: World, c: nat)
    requires Queues(w) && c < |w.monitors|
    ensures w.monitors[c].ring.Valid() && |Abs(w).queues| == |w.monitors| && Abs(w).queues[c] == w.monitors[c].ring.Contents()
  {
  }

  /** What is left of a call after the change can be done: it wakes whoever sleeps on the other side and unlocks. */
  lemma CallFinishes(y: System, w: World, c: nat) returns (w1: World, w2: World, act: Action)
    requires y.r.l.Valid() && Sane(y, w) && Queues(w) && c < |w.monitors|
    requires w.monitors[c].holder.Held? && w.monitors[c].holder.at == Signal
    ensures act.Wake? && Follows(y, w, Act(c, act), w1) && Follows(y, w1, Act(c, Unlock), w2)
    ensures Sane(y, w2) && Queues(w2) && Abs(w2) == Abs(w) && SameElse(w, w2, c) && w2.monitors[c].holder.Free?
  {
    hide Sane, Follows, Loop.Valid, Queues, Abs, Crowd;
    var m := w.monitors[c];
    var some := if m.holder.role.Producer? then m.asleepC else m.asleepP;
    var m1 := Signalled(m);
    act := Wake(some);
    w1 := w.(monitors := w.monitors[c := m1]);
    w2 := w1.(monitors := w1.monitors[c := m1.(holder := Free)]);
    SignalActs(y, w, c, some);
    SignalledCrowd(m);
    hide Signalled;
    var a := MoveRefines(y, w, Act(c, act), w1);
    LeaveActs(y, w1, c);
    var b := MoveRefines(y, w1, Act(c, Unlock), w2);
  }

  /** All sleepers of the other side woken. */
  function Signalled(m: Monitor): Monitor
    requires m.holder.Held?
  {
    if m.holder.role.Producer? then
      m.(asleepC := m.asleepC - m.asleepC, wokenC := m.wokenC + m.asleepC, holder := Held(m.holder.t, Producer, Leave))
    else m.(asleepP := m.asleepP - m.asleepP, wokenP := m.wokenP + m.asleepP, holder := Held(m.holder.t, Consumer, Leave))
  }

  lemma SignalledCrowd(m: Monitor)
    requires m.holder.Held?
    ensures Crowd(Signalled(m)) == Crowd(m) && Crowd(Signalled(m).(holder := Free)) == Crowd(m)
    ensures Signalled(m).holder.Held? && Signalled(m).holder.at == Leave
  {
  }

  /** The worlds that a call leads through. */
  lemma CallRuns(y: System, w: World, i: nat, c: nat) returns (w1: World, w2: World, w3: World, w4: World, w5: World, act: Action)
    requires y.r.l.Valid() && Sane(y, w) && Queues(w) && Enabled(y, Abs(w), i) && Outside(w, i)
    requires OpAt(y, Abs(w), i) in {Produce(c), Consume(c)} && c < |w.monitors| && w.monitors[c].holder.Free?
    ensures Follows(y, w, Enter(i), w1) && Follows(y, w1, Act(c, Go), w2) && Follows(y, w2, Act(c, Change), w3)
    ensures act.Wake? && Follows(y, w3, Act(c, act), w4) && Follows(y, w4, Act(c, Unlock), w5)
    ensures Sane(y, w5) && Queues(w5) && Abs(w5) == Fire(y, Abs(w), i) && SameElse(w, w5, c) && w5.monitors[c].holder.Free?
  {
    var op := OpAt(y, Abs(w), i);
    hide Sane, Follows, Loop.Valid, Queues, Enabled, Abs, Fire, OpAt, SameElse, Crowd, Outside;
    w1, w2 := CallBegins(y, w, i, c, op);
    SameElseIs(w, w2, c);
    w3 := ChangeActs(y, w2, c);
    var a := MoveRefines(y, w2, Act(c, Change), w3);
    SameAbout(w2, w3, c);
    w4, w5, act := CallFinishes(y, w3, c);
    SameElseIs(w3, w5, c);
    SameThrough(w, w2, w3, c);
    SameThrough(w, w3, w5, c);
  }

  /** A thread that is in no call and could send or receive on atomic channels can make its whole call as soon as the mutex is
      free, ahead of all who sleep or have been woken there, and then it has sent or received. */
  lemma CallCompletes(y: System, w: World, i: nat, c: nat) returns (ws: seq<World>, mvs: seq<Move>)
    requires y.r.l.Valid() && Sane(y, w) && Queues(w) && Enabled(y, Abs(w), i) && Outside(w, i)
    requires OpAt(y, Abs(w), i) in {Produce(c), Consume(c)} && c < |w.monitors| && w.monitors[c].holder.Free?
    ensures Moves(y, ws, mvs) && ws[0] == w && Shown(mvs, |mvs|) == 1
    ensures var w' := ws[|mvs|];
            && Sane(y, w') && Queues(w') && Abs(w') == Fire(y, Abs(w), i)
            && SameElse(w, w', c) && w'.monitors[c].holder.Free? && Outside(w', i)
  {
    hide Sane, Follows, Loop.Valid, Queues, Enabled, Abs, Fire, OpAt, Moves, Shown, SameElse, Crowd, Outside;
    var w1, w2, w3, w4, w5, act := CallRuns(y, w, i, c);
    ws, mvs := [w, w1, w2, w3, w4, w5], [Enter(i), Act(c, Go), Act(c, Change), Act(c, act), Act(c, Unlock)];
    MovesFive(y, ws, mvs);
    ShownFive(Enter(i), Act(c, Go), Act(c, Change), Act(c, act), Act(c, Unlock));
    StaysOutside(w, w5, i, c);
  }

  lemma SameElseIs(w: World, w': World, c: nat)
    requires SameElse(w, w', c)
    ensures c < |w.monitors| == |w'.monitors|
  {
  }

  lemma SameAbout(w: World, w': World, c: nat)
    requires c < |w.monitors| == |w'.monitors| && forall d :: 0 <= d < |w.monitors| && d != c ==> w'.monitors[d] == w.monitors[d]
    requires var m, m' := w.monitors[c], w'.monitors[c];
             m'.asleepP == m.asleepP && m'.wokenP == m.wokenP && m'.asleepC == m.asleepC && m'.wokenC == m.wokenC
    ensures SameElse(w, w', c)
  {
  }

  lemma SameThrough(w: World, w': World, w'': World, c: nat)
    requires SameElse(w, w', c) && SameElse(w', w'', c)
    ensures SameElse(w, w'', c)
  {
    hide Crowd;
  }

  lemma MovesFive(y: System, ws: seq<World>, mvs: seq<Move>)
    requires |ws| == 6 && |mvs| == 5
    requires Follows(y, ws[0], mvs[0], ws[1]) && Follows(y, ws[1], mvs[1], ws[2]) && Follows(y, ws[2], mvs[2], ws[3])
    requires Follows(y, ws[3], mvs[3], ws[4]) && Follows(y, ws[4], mvs[4], ws[5])
    ensures Moves(y, ws, mvs)
  {
    hide Follows;
    forall k {:trigger mvs[k]} | 0 <= k < |mvs| ensures Follows(y, ws[k], mvs[k], ws[k + 1]) {
      if k == 0 {} else if k == 1 {} else if k == 2 {} else if k == 3 {} else { assert k == 4; }
    }
  }

  lemma StaysOutside(w: World, w': World, i: nat, c: nat)
    requires SameElse(w, w', c) && Outside(w, i) && w'.monitors[c].holder.Free?
    ensures Outside(w', i)
  {
    forall d: nat | d < |w'.monitors|
      ensures i !in Crowd(w'.monitors[d]) && !(w'.monitors[d].holder.Held? && w'.monitors[d].holder.t == i)
    {
      assert i !in Crowd(w.monitors[d]);
    }
  }

  lemma ShownFive(a: Move, b: Move, c: Move, d: Move, e: Move)
    ensures Shown([a, b, c, d, e], 5) == (if Shows(a) then 1 else 0) + (if Shows(b) then 1 else 0) + (if Shows(c) then 1 else 0) +
                                           (if Shows(d) then 1 else 0) + if Shows(e) then 1 else 0
  {
    hide Shows;
    var s := [a, b, c, d, e];
    assert Shown(s, 3) == Shown(s, 0) + (if Shows(a) then 1 else 0) + (if Shows(b) then 1 else 0) + if Shows(c) then 1 else 0 by {
      assert Shown(s, 1) == Shown(s, 0) + if Shows(a) then 1 else 0;
      assert Shown(s, 2) == Shown(s, 1) + if Shows(b) then 1 else 0;
    }
    assert Shown(s, 4) == Shown(s, 3) + if Shows(d) then 1 else 0;
  }

  // ---- whole runs ----

  lemma {:induction false} ShownJoin(mvs: seq<Move>, more: seq<Move>, k: nat)
    requires k <= |more|
    ensures Shown(mvs + more, |mvs| + k) == Shown(mvs, |mvs|) + Shown(more, k)
  {
    if k > 0 {
      ShownJoin(mvs, more, k - 1);
    } else {
      ShownFront(mvs, more, |mvs|);
    }
  }

  lemma {:induction false} ShownFront(mvs: seq<Move>, more: seq<Move>, k: nat)
    requires k <= |mvs|
    ensures Shown(mvs + more, k) == Shown(mvs, k)
  {
    if k > 0 { ShownFront(mvs, more, k - 1); }
  }

  lemma RunOn(y: System, ws: seq<World>, mvs: seq<Move>, vs: seq<World>, more: seq<Move>)
    requires WorldRun(y, ws, mvs) && Moves(y, vs, more) && vs[0] == ws[|mvs|]
    ensures WorldRun(y, ws + vs[1..], mvs + more) && (ws + vs[1..])[|mvs + more|] == vs[|more|]
  {
    hide Follows, WorldStart;
    var us, all := ws + vs[1..], mvs + more;
    forall k {:trigger all[k]} | 0 <= k < |all| ensures Follows(y, us[k], all[k], us[k + 1]) {
      if k < |mvs| {
        assert all[k] == mvs[k];
      } else {
        assert all[k] == more[k - |mvs|] && us[k] == vs[k - |mvs|] && us[k + 1] == vs[k + 1 - |mvs|];
      }
    }
  }

  /** One step on atomic channels, done by the real threads when all is calm, after which it is calm again. */
  lemma StepRealized(y: System, w: World, i: nat) returns (ws: seq<World>, mvs: seq<Move>)
    requires y.r.l.Valid() && Sane(y, w) && Queues(w) && Calm(w) && Enabled(y, Abs(w), i)
    ensures Moves(y, ws, mvs) && |ws| == |mvs| + 1 && ws[0] == w && Shown(mvs, |mvs|) == 1
    ensures var w' := ws[|mvs|]; Sane(y, w') && Queues(w') && Abs(w') == Fire(y, Abs(w), i) && Calm(w')
  {
    var op := OpAt(y, Abs(w), i);
    assert Outside(w, i);
    if op.Clone? {
      var w' := InstructionGoes(y, w, i);
      hide Sane, Queues, Enabled, Abs, Fire, Loop.Valid, Follows;
      LocalKeeps(y, w, i, w');
      ws, mvs := [w, w'], [Local(i)];
    } else {
      assert op.chan < |w.monitors|;
      hide Sane, Queues, Enabled, Abs, Fire, Loop.Valid, Moves;
      ws, mvs := CallCompletes(y, w, i, op.chan);
      StaysCalm(w, ws[|mvs|], op.chan);
    }
  }

  lemma StaysCalm(w: World, w': World, c: nat)
    requires SameElse(w, w', c) && Calm(w) && w'.monitors[c].holder.Free?
    ensures Calm(w')
  {
    assert Crowd(w.monitors[c]) == {};
  }

  function AnyQueue(cap: nat): Monitor {
    Monitor(Ring(seq(cap, _ => 0), 0, 0, 0), Free, {}, {}, {}, {}, map[], [], [])
  }

  lemma StartExists(y: System) returns (w: World)
    requires y.cap > 0
    ensures WorldStart(y, w) && Calm(w) && Sane(y, w) && Queues(w) && Abs(w) == Initial(y)
  {
    w := World(Initial(y).mem, Initial(y).threads, seq(|y.p.chans|, _ => AnyQueue(y.cap)));
    StartSane(y, w);
  }

  /** Every run on atomic channels is one of the runs on the real queues. */
  lemma {:induction false} RunRealized(y: System, ss: seq<State>, who: seq<nat>, k: nat) returns (ws: seq<World>, mvs: seq<Move>)
    requires y.r.l.Valid() && y.cap > 0 && IsRun(y, ss, who) && k < |ss|
    ensures WorldRun(y, ws, mvs) && Sane(y, ws[|mvs|]) && Queues(ws[|mvs|]) && Abs(ws[|mvs|]) == ss[k] && Calm(ws[|mvs|])
    ensures Shown(mvs, |mvs|) == k
  {
    hide Sane, Queues, Enabled, Abs, Fire, Loop.Valid, Follows, Initial, Calm, WorldStart, Moves;
    if k == 0 {
      var w := StartExists(y);
      ws, mvs := [w], [];
    } else {
      ws, mvs := RunRealized(y, ss, who, k - 1);
      hide WorldRun;
      var vs, more := StepRealized(y, ws[|mvs|], who[k - 1]);
      RunOn(y, ws, mvs, vs, more);
      ShownJoin(mvs, more, |more|);
      ws, mvs := ws + vs[1..], mvs + more;
    }
  }
}
