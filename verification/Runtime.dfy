/** The worker threads on the queues that they really use: each channel is a monitor, each send and receive a call of
    queue_push or queue_pop that locks, waits, is woken, changes the buffer, signals and unlocks (runtime/queue.c:19-45,
    runtime/simple_sync.c:10-22). Every interleaving of all that does what the atomic channels of `Pipeline` allow. */
module Runtime {
  import opened Ir
  import opened Plan
  import opened Sequential
  import opened Trace
  import opened Pipeline
  import opened Correctness
  import opened Queue
  import opened M = Monitor

  /** Thread numbers are the threads' names at the monitors. A thread's registers are its own, so they change with the
      buffer, not only when the call returns. */
  datatype World = World(mem: Memory, threads: seq<Thread>, monitors: seq<Monitor>)

  /** Local: an instruction. Enter: the lock at the start of a call. Act: whatever comes after it, and spurious wakeups. */
  datatype Move = Local(i: nat) | Enter(i: nat) | Act(c: nat, act: Action)

  /** Every buffer is a queue. */
  ghost predicate Queues(w: World) {
    forall c :: 0 <= c < |w.monitors| ==> w.monitors[c].ring.Valid()
  }

  /** What is in the buffers, as the atomic channels hold it. */
  ghost function Abs(w: World): State
    requires Queues(w)
  {
    State(w.mem, seq(|w.monitors|, c requires 0 <= c < |w.monitors| => w.monitors[c].ring.Contents()), w.threads)
  }

  /** Thread `i` is in no call. */
  ghost predicate Idle(w: World, i: nat) {
    forall c :: 0 <= c < |w.monitors| ==> !w.monitors[c].Busy(i)
  }

  /** The next operation of thread `i` is `op`. */
  ghost predicate Calls(y: System, w: World, i: nat, op: Op) {
    && i < |w.threads| && w.threads[i].block != y.r.l.exit && w.threads[i].pc < |y.p.Code(i, w.threads[i].block)|
    && y.p.Code(i, w.threads[i].block)[w.threads[i].pc] == op
  }

  /** The call that thread `i` is about to make at channel `c`. */
  ghost predicate MayEnter(y: System, w: World, i: nat, c: nat, role: Role) {
    && Idle(w, i) && Calls(y, w, i, if role.Producer? then Produce(c) else Consume(c))
    && c < |w.monitors| && c < |y.p.chans| && w.monitors[c].holder.Free?
  }

  ghost function Entered(y: System, w: World, i: nat, c: nat, role: Role): World
    requires MayEnter(y, w, i, c, role)
  {
    w.(monitors := w.monitors[c := Step(w.monitors[c], Lock(i, role, Sent(y.p, c, w.threads[i].regs)))])
  }

  /** The holder's thread when it has changed the buffer. */
  ghost function Changed(y: System, c: nat, m: Monitor, th: Thread): Thread
    requires m.holder.Held? && c < |y.p.chans| && m.ring.Valid()
  {
    if m.holder.role.Producer? then th.(pc := th.pc + 1)
    else
      Thread(th.block, th.pc + 1, if FirstReg(y.p, c) then th.regs[y.p.chans[c].u := m.ring.arr[m.ring.head]] else th.regs)
  }

  ghost predicate MayAct(y: System, w: World, c: nat, act: Action) {
    && c < |w.monitors| && c < |y.p.chans| && !act.Lock? && Can(w.monitors[c], act)
    && (act.Change? ==> w.monitors[c].holder.t < |w.threads|)
  }

  ghost function Acted(y: System, w: World, c: nat, act: Action): World
    requires MayAct(y, w, c, act)
  {
    var m := w.monitors[c];
    var w' := w.(monitors := w.monitors[c := Step(m, act)]);
    if act.Change? then w'.(threads := w.threads[m.holder.t := Changed(y, c, m, w.threads[m.holder.t])]) else w'
  }

  /** `w'` follows `w` by the move `mv`. */
  ghost predicate Follows(y: System, w: World, mv: Move, w': World) {
    y.r.l.Valid() && Queues(w) &&
    match mv
    case Local(i) =>
      && Idle(w, i) && Enabled(y, Abs(w), i) && OpAt(y, Abs(w), i).Clone?
      && w' == World(Fire(y, Abs(w), i).mem, Fire(y, Abs(w), i).threads, w.monitors)
    case Enter(i) =>
      exists c, role :: MayEnter(y, w, i, c, role) && w' == Entered(y, w, i, c, role)
    case Act(c, act) =>
      MayAct(y, w, c, act) && w' == Acted(y, w, c, act)
  }

  ghost predicate WorldStart(y: System, w: World) {
    && w.mem == Initial(y).mem && w.threads == Initial(y).threads && |w.monitors| == |y.p.chans|
    && forall c :: 0 <= c < |w.monitors| ==> AtRest(w.monitors[c]) && w.monitors[c].MaxLen() == y.cap
  }

  ghost predicate WorldRun(y: System, ws: seq<World>, mvs: seq<Move>) {
    && |ws| == |mvs| + 1 && WorldStart(y, ws[0])
    && forall k {:trigger mvs[k]} :: 0 <= k < |mvs| ==> Follows(y, ws[k], mvs[k], ws[k + 1])
  }

  // ---- what every move keeps ----

  predicate Holding(m: Monitor, t: Tid, role: Role) {
    m.holder.Held? && m.holder.t == t && m.holder.role == role && m.holder.at in {Test, Update}
  }

  /** `t` is in a call at `m` that has not changed the buffer yet. */
  predicate Pushing(m: Monitor, t: Tid) {
    t in m.asleepP || t in m.wokenP || Holding(m, t, Producer)
  }

  predicate Popping(m: Monitor, t: Tid) {
    t in m.asleepC || t in m.wokenC || Holding(m, t, Consumer)
  }

  /** Whoever is in a call at channel `c` has its send or receive as next operation, with the value it will push. */
  ghost predicate InCall(y: System, w: World, c: nat, t: Tid)
    requires c < |w.monitors|
  {
    && (w.monitors[c].Busy(t) ==> t < |w.threads|)
    && (Pushing(w.monitors[c], t) ==>
          && c < |y.p.chans| && Calls(y, w, t, Produce(c))
          && t in w.monitors[c].elem && w.monitors[c].elem[t] == Sent(y.p, c, w.threads[t].regs))
    && (Popping(w.monitors[c], t) ==> c < |y.p.chans| && Calls(y, w, t, Consume(c)))
  }

  ghost predicate Sane(y: System, w: World) {
    && |w.monitors| == |y.p.chans|
    && (forall c :: 0 <= c < |w.monitors| ==> Inv(w.monitors[c]) && w.monitors[c].MaxLen() == y.cap)
    && (forall c, t :: 0 <= c < |w.monitors| ==> InCall(y, w, c, t))
    && (forall c, d, t :: 0 <= c < |w.monitors| && 0 <= d < |w.monitors| && w.monitors[c].Busy(t) && w.monitors[d].Busy(t) ==> c == d)
  }

  lemma SaneQueues(y: System, w: World)
    requires Sane(y, w)
    ensures Queues(w)
  {
  }

  /** At one monitor nobody comes to push or pop, or gets another value, but by the lock. */
  lemma ActFrame(m: Monitor, act: Action, t: Tid)
    requires Inv(m) && Can(m, act) && !act.Lock?
    ensures Step(m, act).elem == m.elem && (Step(m, act).Busy(t) ==> m.Busy(t))
    ensures Pushing(Step(m, act), t) ==> Pushing(m, t) && (act.Change? ==> t != m.holder.t)
    ensures Popping(Step(m, act), t) ==> Popping(m, t) && (act.Change? ==> t != m.holder.t)
  {
    hide Fifo, NoneLost, Ring.Push, Ring.Pop, Ring.Contents;
  }

  lemma LockFrame(m: Monitor, i: Tid, role: Role, v: int, t: Tid)
    requires Inv(m) && Can(m, Lock(i, role, v))
    ensures var m' := Step(m, Lock(i, role, v));
            && (m'.Busy(t) <==> m.Busy(t) || t == i)
            && (Pushing(m', t) ==> if t == i then role.Producer? && i in m'.elem && m'.elem[i] == v else Pushing(m, t))
            && (Popping(m', t) ==> if t == i then role.Consumer? else Popping(m, t))
            && (t != i && t in m.elem ==> t in m'.elem && m'.elem[t] == m.elem[t])
  {
    hide Fifo, NoneLost;
  }

  lemma InCallSame(y: System, w: World, w': World, c: nat, t: Tid)
    requires c < |w.monitors| == |w'.monitors| && w'.monitors[c] == w.monitors[c] && InCall(y, w, c, t)
    requires |w'.threads| == |w.threads|
    requires (t < |w.threads| ==> w'.threads[t] == w.threads[t] || !w.monitors[c].Busy(t))
    ensures InCall(y, w', c, t)
  {
  }

  lemma QueuesSame(y: System, s: State, i: nat)
    requires y.r.l.Valid() && Enabled(y, s, i) && OpAt(y, s, i).Clone?
    ensures Fire(y, s, i).queues == s.queues
  {
    hide Loop.Valid;
  }

  /** An instruction concerns no call. */
  lemma LocalKeeps(y: System, w: World, i: nat, w': World)
    requires Sane(y, w) && Follows(y, w, Local(i), w')
    ensures Sane(y, w') && Queues(w') && Abs(w') == Fire(y, Abs(w), i)
  {
    hide Inv, InCall, Enabled, Monitor.Busy, FirstReg, Fire, OpAt, Loop.Valid;
    QueuesSame(y, Abs(w), i);
    FireLocal(y, Abs(w), i);
    forall c: nat, t | c < |w'.monitors| ensures InCall(y, w', c, t) { InCallSame(y, w, w', c, t); }
  }

  /** One monitor changes, and with it perhaps the thread that holds it. */
  ghost predicate OneMonitor(w: World, w': World, c: nat) {
    && c < |w.monitors| == |w'.monitors| && |w'.threads| == |w.threads|
    && (forall d :: 0 <= d < |w.monitors| && d != c ==> w'.monitors[d] == w.monitors[d])
    && (forall t :: 0 <= t < |w.threads| ==> w'.threads[t] == w.threads[t] || Idle(w, t) || w.monitors[c].Busy(t))
  }

  /** Then it is enough that that monitor is right, and that no one is in another call already who comes to it. */
  lemma OneKeeps(y: System, w: World, w': World, c: nat)
    requires Sane(y, w) && OneMonitor(w, w', c) && Inv(w'.monitors[c]) && w'.monitors[c].MaxLen() == y.cap
    requires forall t: Tid :: InCall(y, w', c, t)
    requires forall t: Tid :: w'.monitors[c].Busy(t) ==> w.monitors[c].Busy(t) || Idle(w, t)
    ensures Sane(y, w')
  {
    hide Inv, InCall, Monitor.Busy;
    forall d: nat, t | d < |w'.monitors| ensures InCall(y, w', d, t) {
      if d != c { InCallSame(y, w, w', d, t); }
    }
  }

  lemma EnterKeeps(y: System, w: World, i: nat, w': World)
    requires Sane(y, w) && Follows(y, w, Enter(i), w')
    ensures Sane(y, w') && Queues(w') && Abs(w') == Abs(w)
  {
    hide Inv, InCall, Monitor.Busy, Calls, Step, Can, Pushing, Popping, Loop.Valid;
    var c, role :| MayEnter(y, w, i, c, role) && w' == Entered(y, w, i, c, role);
    EnterOne(y, w, i, c, role);
  }

  lemma EnterOne(y: System, w: World, i: nat, c: nat, role: Role)
    requires Sane(y, w) && MayEnter(y, w, i, c, role)
    ensures var w' := Entered(y, w, i, c, role); Sane(y, w') && Queues(w') && Queues(w) && Abs(w') == Abs(w)
  {
    var w', m, v := Entered(y, w, i, c, role), w.monitors[c], Sent(y.p, c, w.threads[i].regs);
    hide Inv, Calls, Loop.Valid, Sent, Pushing, Popping;
    assert Inv(m) && Can(m, Lock(i, role, v));
    M.StepKeeps(m, Lock(i, role, v));
    forall t: Tid ensures InCall(y, w', c, t) && (w'.monitors[c].Busy(t) ==> m.Busy(t) || Idle(w, t)) {
      LockFrame(m, i, role, v, t);
      assert InCall(y, w, c, t);
    }
    hide InCall, Monitor.Busy;
    OneKeeps(y, w, w', c);
    assert w'.monitors[c].ring == m.ring;
  }

  lemma ActOne(y: System, w: World, c: nat, act: Action)
    requires Sane(y, w) && MayAct(y, w, c, act)
    ensures Sane(y, Acted(y, w, c, act)) && Queues(Acted(y, w, c, act))
  {
    var w', m := Acted(y, w, c, act), w.monitors[c];
    hide Inv, Calls, Changed, Loop.Valid, Sent, Pushing, Popping, Step;
    M.StepKeeps(m, act);
    assert act.Change? ==> m.Busy(m.holder.t);
    forall t: Tid ensures InCall(y, w', c, t) && (w'.monitors[c].Busy(t) ==> m.Busy(t)) {
      assert InCall(y, w, c, t);
      ActFrame(m, act, t);
      if t < |w.threads| && !(act.Change? && t == m.holder.t) { CallsSame(y, w, w', c, t); }
    }
    hide InCall, Monitor.Busy;
    OneKeeps(y, w, w', c);
  }

  lemma CallsSame(y: System, w: World, w': World, c: nat, t: nat)
    requires t < |w.threads| == |w'.threads| && w'.threads[t] == w.threads[t]
    ensures Calls(y, w', t, Produce(c)) <==> Calls(y, w, t, Produce(c))
    ensures Calls(y, w', t, Consume(c)) <==> Calls(y, w, t, Consume(c))
  {
  }

  lemma RingSame(m: Monitor, act: Action)
    requires Can(m, act) && !act.Change?
    ensures Step(m, act).ring == m.ring
  {
  }

  /** Whatever does not change the buffer does not show in the channels. */
  lemma ActHidden(y: System, w: World, c: nat, act: Action)
    requires Sane(y, w) && MayAct(y, w, c, act) && !act.Change?
    ensures Queues(w) && Queues(Acted(y, w, c, act)) && Abs(Acted(y, w, c, act)) == Abs(w)
  {
    hide Sane, Inv, InCall, Can, Step, Monitor.Busy, Ring.Contents;
    SaneQueues(y, w);
    ActOne(y, w, c, act);
    RingSame(w.monitors[c], act);
  }

  /** The change of the buffer is the send or the receive. */
  lemma ChangeFires(y: System, w: World, c: nat)
    requires Sane(y, w) && MayAct(y, w, c, Change) && y.r.l.Valid()
    ensures Queues(w) && Queues(Acted(y, w, c, Change)) && c < |w.monitors| && w.monitors[c].holder.Held?
    ensures Enabled(y, Abs(w), w.monitors[c].holder.t)
    ensures Abs(Acted(y, w, c, Change)) == Fire(y, Abs(w), w.monitors[c].holder.t)
  {
    hide Sane, Inv, InCall, Step, Monitor.Busy, Ring.Contents, Ring.Valid, Loop.Valid;
    SaneQueues(y, w);
    ActOne(y, w, c, Change);
    var m := w.monitors[c];
    ChangeCalls(y, w, c);
    ChangeContents(m);
    var s, s' := Abs(w), Abs(Acted(y, w, c, Change));
    assert s.queues[c] == m.ring.Contents() && s'.queues[c] == Step(m, Change).ring.Contents();
    assert forall d :: 0 <= d < |s.queues| && d != c ==> s'.queues[d] == s.queues[d];
    if m.holder.role.Producer? {
      assert s'.queues == s.queues[c := s.queues[c] + [m.elem[m.holder.t]]];
    } else {
      assert s'.queues == s.queues[c := s.queues[c][1..]];
    }
  }

  /** What the holder is about to do, and that it does not block. */
  lemma ChangeCalls(y: System, w: World, c: nat)
    requires Sane(y, w) && MayAct(y, w, c, Change)
    ensures var m := w.monitors[c]; var t := m.holder.t;
            && Inv(m) && |m.ring.Contents()| == m.ring.size
            && (m.holder.role.Producer? ==>
                  Calls(y, w, t, Produce(c)) && t in m.elem && m.elem[t] == Sent(y.p, c, w.threads[t].regs) && m.ring.size < y.cap)
            && (m.holder.role.Consumer? ==> Calls(y, w, t, Consume(c)) && m.ring.size > 0)
  {
    hide Calls, Sent, NoneLost;
    assert InCall(y, w, c, w.monitors[c].holder.t);
  }

  lemma ChangeContents(m: Monitor)
    requires Inv(m) && Can(m, Change)
    ensures m.holder.role.Producer? ==>
              Step(m, Change).ring.Valid() && Step(m, Change).ring.Contents() == m.ring.Contents() + [m.elem[m.holder.t]]
    ensures m.holder.role.Consumer? ==>
              Step(m, Change).ring.Valid() && m.ring.Contents() == [m.ring.arr[m.ring.head]] + Step(m, Change).ring.Contents()
  {
    hide Ring.Contents, Ring.Push, Ring.Pop;
    if m.holder.role.Producer? { m.ring.PushAppends(m.elem[m.holder.t]); } else { m.ring.PopTakes(); }
  }

  // ---- runs ----

  lemma StartSane(y: System, w: World)
    requires WorldStart(y, w)
    ensures Sane(y, w) && Queues(w) && Abs(w) == Initial(y)
  {
    forall c: nat | c < |w.monitors|
      ensures Inv(w.monitors[c]) && w.monitors[c].ring.Contents() == [] && forall t: Tid :: InCall(y, w, c, t) && !w.monitors[c].Busy(t)
    {
      M.StartKeeps(w.monitors[c]);
    }
    hide Inv, InCall, Monitor.Busy, AtRest, Ring.Contents, Ring.Valid;
    SaneQueues(y, w);
  }

  /** The move is an instruction or changes a buffer. */
  predicate Shows(mv: Move) {
    mv.Local? || (mv.Act? && mv.act.Change?)
  }

  /** How many of the first `k` moves show. */
  function Shown(mvs: seq<Move>, k: nat): nat
    requires k <= |mvs|
  {
    if k == 0 then 0 else Shown(mvs, k - 1) + if Shows(mvs[k - 1]) then 1 else 0
  }

  /** A move that shows is one step of the threads on atomic channels; any other is none. */
  lemma MoveRefines(y: System, w: World, mv: Move, w': World) returns (i: nat)
    requires Sane(y, w) && Follows(y, w, mv, w')
    ensures Sane(y, w') && Queues(w') && Queues(w)
    ensures if Shows(mv) then Enabled(y, Abs(w), i) && Abs(w') == Fire(y, Abs(w), i) else Abs(w') == Abs(w)
  {
    hide Sane, Enabled, Fire, MayAct, Acted, Abs, Loop.Valid;
    SaneQueues(y, w);
    i := 0;
    match mv
    case Local(t) =>
      LocalKeeps(y, w, t, w');
      i := t;
    case Enter(t) =>
      EnterKeeps(y, w, t, w');
    case Act(c, act) =>
      ActOne(y, w, c, act);
      if act.Change? {
        ChangeFires(y, w, c);
        i := w.monitors[c].holder.t;
      } else {
        ActHidden(y, w, c, act);
      }
  }

  lemma RunSnoc(y: System, ss: seq<State>, who: seq<nat>, i: nat, s: State)
    requires y.r.l.Valid() && IsRun(y, ss, who) && Enabled(y, ss[|who|], i) && s == Fire(y, ss[|who|], i)
    ensures IsRun(y, ss + [s], who + [i])
  {
    hide Enabled, Fire, Loop.Valid, Initial;
    var ss', who' := ss + [s], who + [i];
    forall k {:trigger who'[k]} | 0 <= k < |who'| ensures Enabled(y, ss'[k], who'[k]) && ss'[k + 1] == Fire(y, ss'[k], who'[k]) {
      if k < |who| { assert who'[k] == who[k] && ss'[k] == ss[k] && ss'[k + 1] == ss[k + 1]; }
    }
  }

  /** Every run on the real queues is one on atomic channels. */
  lemma {:induction false} RunRefines(y: System, ws: seq<World>, mvs: seq<Move>, k: nat) returns (ss: seq<State>, who: seq<nat>)
    requires y.r.l.Valid() && WorldRun(y, ws, mvs) && k < |ws|
    ensures Sane(y, ws[k]) && Queues(ws[k]) && IsRun(y, ss, who) && |ss| == |who| + 1 && ss[|who|] == Abs(ws[k])
    ensures |who| == Shown(mvs, k)
  {
    hide Sane, Follows, Enabled, Fire, Abs, Loop.Valid, Initial, Queues;
    if k == 0 {
      StartSane(y, ws[0]);
      ss, who := [Abs(ws[0])], [];
    } else {
      ss, who := RunRefines(y, ws, mvs, k - 1);
      assert Follows(y, ws[k - 1], mvs[k - 1], ws[k]);
      var i := MoveRefines(y, ws[k - 1], mvs[k - 1], ws[k]);
      if Shows(mvs[k - 1]) {
        RunSnoc(y, ss, who, i, Abs(ws[k]));
        ss, who := ss + [Abs(ws[k])], who + [i];
      }
    }
  }

  // ---- progress ----

  /** The move is possible, and is not the system's waking somebody for no reason. */
  ghost predicate CanGo(y: System, w: World, mv: Move) {
    !(mv.Act? && mv.act.Spurious?) && exists w' :: Follows(y, w, mv, w')
  }

  /** Nobody holds a mutex or is on the way to one. */
  ghost predicate Quiet(w: World) {
    forall c :: 0 <= c < |w.monitors| ==> w.monitors[c].holder.Free? && w.monitors[c].wokenP + w.monitors[c].wokenC == {}
  }

  /** Where a call is under way, it goes on. */
  lemma CallGoes(y: System, w: World) returns (mv: Move)
    requires y.r.l.Valid() && Sane(y, w) && !Quiet(w)
    ensures CanGo(y, w, mv)
  {
    hide Inv, InCall, Loop.Valid, Monitor.Busy, Step;
    var c: nat :| c < |w.monitors| && !(w.monitors[c].holder.Free? && w.monitors[c].wokenP + w.monitors[c].wokenC == {});
    hide Quiet;
    SaneQueues(y, w);
    var act := M.HolderCan(w.monitors[c]);
    mv := Act(c, act);
    if act.Change? { HolderInside(y, w, c); }
    assert Follows(y, w, mv, Acted(y, w, c, act));
  }

  lemma HolderInside(y: System, w: World, c: nat)
    requires Sane(y, w) && c < |w.monitors| && w.monitors[c].holder.Held?
    ensures w.monitors[c].holder.t < |w.threads|
  {
    assert InCall(y, w, c, w.monitors[c].holder.t);
  }

  /** Whoever sleeps when all is quiet could not go on with atomic channels either: no wakeup is lost. */
  lemma SleeperBlocked(y: System, w: World, c: nat, i: nat)
    requires Sane(y, w) && Quiet(w) && Queues(w) && c < |w.monitors| && w.monitors[c].Busy(i)
    ensures !Enabled(y, Abs(w), i)
  {
    assert InCall(y, w, c, i);
    var m := w.monitors[c];
    assert m.holder.Free? && m.wokenP + m.wokenC == {};
    assert NoneLost(m) && m.MaxLen() == y.cap;
    assert |Abs(w).queues[c]| == m.ring.size;
  }

  lemma IdleGoes(y: System, w: World, i: nat) returns (mv: Move)
    requires y.r.l.Valid() && Sane(y, w) && Quiet(w) && Queues(w) && Enabled(y, Abs(w), i)
    ensures CanGo(y, w, mv)
  {
    forall c | 0 <= c < |w.monitors| ensures !w.monitors[c].Busy(i) {
      if w.monitors[c].Busy(i) { SleeperBlocked(y, w, c, i); }
    }
    hide Monitor.Busy, Inv, InCall, Loop.Valid;
    assert Idle(w, i);
    match OpAt(y, Abs(w), i)
    case Clone(x) =>
      mv := Local(i);
      assert Follows(y, w, mv, World(Fire(y, Abs(w), i).mem, Fire(y, Abs(w), i).threads, w.monitors));
    case Produce(c) =>
      mv := Enter(i);
      assert MayEnter(y, w, i, c, Producer);
      assert Follows(y, w, mv, Entered(y, w, i, c, Producer));
    case Consume(c) =>
      mv := Enter(i);
      assert MayEnter(y, w, i, c, Consumer);
      assert Follows(y, w, mv, Entered(y, w, i, c, Consumer));
  }

  /** On the real queues too the threads never deadlock, the instructions, sends and receives they get done are bounded, and
      when all have returned memory and all registers are as the sequential loop leaves them. */
  lemma RuntimeCorrect(y: System, n: nat, ws: seq<World>, mvs: seq<Move>)
    requires Sound(y, n) && y.r.l.Valid() && y.r.Valid() && WorldRun(y, ws, mvs)
    ensures var w := ws[|mvs|];
            && Queues(w) && (Finished(y, Abs(w)) || exists mv :: CanGo(y, w, mv))
            && Shown(mvs, |mvs|) <= AllWork(y, n, |y.p.kept|)
            && (Finished(y, Abs(w)) ==>
                  && w.mem == y.r.At(n).mem
                  && (forall u :: u in y.r.l.parent && !y.r.l.IsTerm(u) ==>
                        u in y.p.owner && y.p.owner[u] < |w.threads| && SameAt(w.threads[y.p.owner[u]].regs, y.r.At(n).regs, u))
                  && forall c :: 0 <= c < |w.monitors| ==> w.monitors[c].ring.Contents() == [])
  {
    hide Sound, Sane, Enabled, Fire, Loop.Valid, Run.Valid, Initial, IsRun, Shown, AllWork, Follows, Quiet, CanGo;
    hide Run.At, Ring.Contents, Ring.Valid;
    var w := ws[|mvs|];
    var ss, who := RunRefines(y, ws, mvs, |mvs|);
    NoDeadlock(y, n, ss, who);
    RunsEnd(y, n, ss, who);
    if Finished(y, Abs(w)) {
      SameMeaning(y, n, ss, who);
      assert forall c :: 0 <= c < |w.monitors| ==> Abs(w).queues[c] == w.monitors[c].ring.Contents();
    } else if Quiet(w) {
      var i: nat :| Enabled(y, Abs(w), i);
      var mv := IdleGoes(y, w, i);
    } else {
      var mv := CallGoes(y, w);
    }
  }
}
