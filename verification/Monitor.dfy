/** queue_push and queue_pop (runtime/queue.c:19-45) as a monitor: any number of threads, one mutex, two condition
    variables with the wakeups that IEEE Std 1003.1-2017 allows, that is, at least one thread per signal, spurious ones,
    and others getting the mutex before a woken thread does. */
module Monitor {
  import opened Queue

  type Tid = nat

  datatype Role = Producer | Consumer

  /** Where the holder of the mutex is: before the loop test, before the update, before the signal, before the unlock. */
  datatype Point = Test | Update | Signal | Leave

  datatype Holder = Free | Held(t: Tid, role: Role, at: Point)

  /** `asleepP` wait on `full_cvar`, `asleepC` on `empty_cvar`; the woken ones have not got the mutex back yet.
      `pushed` and `popped` record every element that has gone in or out. */
  datatype Monitor = Monitor(
    ring: Ring, holder: Holder,
    asleepP: set<Tid>, wokenP: set<Tid>, asleepC: set<Tid>, wokenC: set<Tid>,
    elem: map<Tid, int>, pushed: seq<int>, popped: seq<int>)
  {
    function MaxLen(): nat { |ring.arr| }

    predicate Busy(t: Tid) {
      t in asleepP || t in wokenP || t in asleepC || t in wokenC || (holder.Held? && holder.t == t)
    }

    /** The condition of the wait loop. */
    predicate Blocked(role: Role) {
      match role
      case Producer => ring.size == MaxLen()
      case Consumer => ring.size == 0
    }
  }

  datatype Action =
    | Lock(t: Tid, role: Role, v: int)
    | Relock(t: Tid)
    | Wait
    | Go
    | Change
    | Wake(w: set<Tid>)
    | Unlock
    | Spurious(t: Tid)

  predicate Can(m: Monitor, act: Action) {
    match act
    case Lock(t, role, v) => m.holder.Free? && !m.Busy(t)
    case Relock(t) => m.holder.Free? && (t in m.wokenP || t in m.wokenC)
    case Wait => m.holder.Held? && m.holder.at == Test && m.Blocked(m.holder.role)
    case Go => m.holder.Held? && m.holder.at == Test && !m.Blocked(m.holder.role)
    case Change =>
      m.holder.Held? && m.holder.at == Update && m.ring.Valid() && !m.Blocked(m.holder.role) &&
      (m.holder.role.Producer? ==> m.holder.t in m.elem)
    case Wake(w) =>
      m.holder.Held? && m.holder.at == Signal &&
      var sleepers := if m.holder.role.Producer? then m.asleepC else m.asleepP;
      w <= sleepers && (sleepers != {} ==> w != {})
    case Unlock => m.holder.Held? && m.holder.at == Leave
    case Spurious(t) => t in m.asleepP || t in m.asleepC
  }

  function Step(m: Monitor, act: Action): Monitor
    requires Can(m, act)
  {
    match act
    case Lock(t, role, v) =>
      m.(holder := Held(t, role, Test), elem := if role.Producer? then m.elem[t := v] else m.elem)
    case Relock(t) =>
      if t in m.wokenP then m.(holder := Held(t, Producer, Test), wokenP := m.wokenP - {t})
      else m.(holder := Held(t, Consumer, Test), wokenC := m.wokenC - {t})
    case Wait =>
      if m.holder.role.Producer? then m.(holder := Free, asleepP := m.asleepP + {m.holder.t})
      else m.(holder := Free, asleepC := m.asleepC + {m.holder.t})
    case Go => m.(holder := m.holder.(at := Update))
    case Change =>
      if m.holder.role.Producer? then
        var v := m.elem[m.holder.t];
        m.(ring := m.ring.Push(v), pushed := m.pushed + [v], holder := m.holder.(at := Signal))
      else
        m.(ring := m.ring.Pop(), popped := m.popped + [m.ring.arr[m.ring.head]], holder := m.holder.(at := Signal))
    case Wake(w) =>
      if m.holder.role.Producer? then
        m.(asleepC := m.asleepC - w, wokenC := m.wokenC + w, holder := m.holder.(at := Leave))
      else
        m.(asleepP := m.asleepP - w, wokenP := m.wokenP + w, holder := m.holder.(at := Leave))
    case Unlock => m.(holder := Free)
    case Spurious(t) =>
      if t in m.asleepP then m.(asleepP := m.asleepP - {t}, wokenP := m.wokenP + {t})
      else m.(asleepC := m.asleepC - {t}, wokenC := m.wokenC + {t})
  }

  predicate AtRest(m: Monitor) {
    && m.ring.Valid() && m.ring.size == 0 && m.holder.Free?
    && m.asleepP == m.wokenP == m.asleepC == m.wokenC == {} && m.pushed == m.popped == []
  }

  ghost predicate Interleaved(ms: seq<Monitor>, acts: seq<Action>) {
    && |ms| == |acts| + 1 && AtRest(ms[0])
    && forall k {:trigger acts[k]} :: 0 <= k < |acts| ==> Can(ms[k], acts[k]) && ms[k + 1] == Step(ms[k], acts[k])
  }

  // ---- what every step keeps ----

  /** The elements in the buffer that the mutex holder is about to answer for: a consumer that will take one, or a
      producer that will still signal one. */
  function CreditC(h: Holder): nat {
    if h.Held? && ((h.role.Consumer? && h.at in {Test, Update}) || (h.role.Producer? && h.at == Signal)) then 1 else 0
  }

  /** Likewise the free places. */
  function CreditP(h: Holder): nat {
    if h.Held? && ((h.role.Producer? && h.at in {Test, Update}) || (h.role.Consumer? && h.at == Signal)) then 1 else 0
  }

  /** No wakeup is lost. */
  predicate NoneLost(m: Monitor) {
    && (m.asleepC != {} ==> m.ring.size <= |m.wokenC| + CreditC(m.holder))
    && (m.asleepP != {} ==> m.MaxLen() - m.ring.size <= |m.wokenP| + CreditP(m.holder))
  }

  predicate Apart(m: Monitor) {
    && m.asleepP !! m.wokenP !! m.asleepC !! m.wokenC
    && (m.holder.Held? ==> m.holder.t !in m.asleepP + m.wokenP + m.asleepC + m.wokenC)
    && (forall t :: t in m.asleepP + m.wokenP ==> t in m.elem)
    && (m.holder.Held? && m.holder.role.Producer? ==> m.holder.t in m.elem)
    && (m.holder.Held? && m.holder.at == Update ==> !m.Blocked(m.holder.role))
  }

  /** Whatever has been pushed has been popped or is in the buffer, in order. */
  predicate Fifo(m: Monitor) {
    m.ring.Valid() && m.pushed == m.popped + m.ring.Contents()
  }

  predicate Inv(m: Monitor) {
    Fifo(m) && Apart(m) && NoneLost(m)
  }

  lemma StepFifo(m: Monitor, act: Action)
    requires Inv(m) && Can(m, act)
    ensures Fifo(Step(m, act)) && Step(m, act).MaxLen() == m.MaxLen()
  {
    if act.Change? {
      if m.holder.role.Producer? { m.ring.PushAppends(m.elem[m.holder.t]); } else { m.ring.PopTakes(); }
    }
  }

  lemma StepApart(m: Monitor, act: Action)
    requires Inv(m) && Can(m, act)
    ensures Apart(Step(m, act))
  {
    hide Fifo, NoneLost, Ring.Push, Ring.Pop;
  }

  lemma Added<T>(a: set<T>, b: set<T>)
    requires a !! b
    ensures |a + b| == |a| + |b|
  {
  }

  lemma Removed<T>(a: set<T>, x: T)
    requires x in a
    ensures |a - {x}| == |a| - 1
  {
  }

  /** Waking at least one sleeper pays for the signal owed. */
  lemma WakeCounts(size: int, asleep: set<Tid>, woken: set<Tid>, w: set<Tid>)
    requires asleep !! woken && w <= asleep && (asleep != {} ==> w != {}) && (asleep != {} ==> size <= |woken| + 1)
    ensures asleep - w != {} ==> size <= |woken + w|
  {
    Added(woken, w);
    if w != {} { HasSome(w); }
  }

  lemma PushWakes(m: Monitor, w: set<Tid>)
    requires Apart(m) && NoneLost(m) && Can(m, Wake(w)) && m.holder.role.Producer?
    ensures NoneLost(Step(m, Wake(w)))
  {
    WakeCounts(m.ring.size, m.asleepC, m.wokenC, w);
    hide Apart;
  }

  lemma PopWakes(m: Monitor, w: set<Tid>)
    requires Apart(m) && NoneLost(m) && Can(m, Wake(w)) && m.holder.role.Consumer?
    ensures NoneLost(Step(m, Wake(w)))
  {
    WakeCounts(m.MaxLen() - m.ring.size, m.asleepP, m.wokenP, w);
    hide Apart;
  }

  lemma SpuriousNoneLost(m: Monitor, t: Tid)
    requires Apart(m) && NoneLost(m) && Can(m, Spurious(t))
    ensures NoneLost(Step(m, Spurious(t)))
  {
    if t in m.asleepP { Added(m.wokenP, {t}); } else { Added(m.wokenC, {t}); }
  }

  lemma RelockNoneLost(m: Monitor, t: Tid)
    requires Apart(m) && NoneLost(m) && Can(m, Relock(t))
    ensures NoneLost(Step(m, Relock(t)))
  {
    hide Ring.Contents, Ring.Valid;
    if t in m.wokenP { RelockProducer(m, t); } else { RelockConsumer(m, t); }
  }

  lemma RelockProducer(m: Monitor, t: Tid)
    requires NoneLost(m) && Can(m, Relock(t)) && t in m.wokenP
    ensures NoneLost(Step(m, Relock(t)))
  {
    hide Ring.Contents, Ring.Valid;
    Removed(m.wokenP, t);
  }

  lemma RelockConsumer(m: Monitor, t: Tid)
    requires NoneLost(m) && Can(m, Relock(t)) && t !in m.wokenP
    ensures NoneLost(Step(m, Relock(t)))
  {
    hide Ring.Contents, Ring.Valid;
    Removed(m.wokenC, t);
  }

  lemma StepNoneLost(m: Monitor, act: Action)
    requires Inv(m) && Can(m, act)
    ensures NoneLost(Step(m, act))
  {
    if act.Wake? { if m.holder.role.Producer? { PushWakes(m, act.w); } else { PopWakes(m, act.w); } }
    else if act.Spurious? { SpuriousNoneLost(m, act.t); }
    else if act.Relock? { RelockNoneLost(m, act.t); }
    else if act.Change? { ChangeNoneLost(m); }
    else if act.Wait? { WaitNoneLost(m); }
    else { OtherNoneLost(m, act); }
  }

  lemma ChangeNoneLost(m: Monitor)
    requires NoneLost(m) && Can(m, Change)
    ensures NoneLost(Step(m, Change))
  {
    hide Ring.Contents;
  }

  lemma WaitNoneLost(m: Monitor)
    requires NoneLost(m) && Can(m, Wait)
    ensures NoneLost(Step(m, Wait))
  {
    hide Ring.Contents, Ring.Valid;
  }

  lemma OtherNoneLost(m: Monitor, act: Action)
    requires NoneLost(m) && Can(m, act) && (act.Lock? || act.Go? || act.Unlock?)
    ensures NoneLost(Step(m, act))
  {
    hide Ring.Contents, Ring.Valid;
  }

  lemma HasSome<T>(a: set<T>)
    requires a != {}
    ensures |a| > 0
  {
  }

  lemma StepKeeps(m: Monitor, act: Action)
    requires Inv(m) && Can(m, act)
    ensures Inv(Step(m, act)) && Step(m, act).MaxLen() == m.MaxLen()
  {
    StepFifo(m, act);
    StepApart(m, act);
    StepNoneLost(m, act);
  }

  /** After every step of every interleaving. */
  lemma {:induction false} RunKeeps(ms: seq<Monitor>, acts: seq<Action>, k: nat)
    requires Interleaved(ms, acts) && k < |ms|
    ensures Inv(ms[k]) && ms[k].MaxLen() == ms[0].MaxLen()
  {
    hide Can, Step, Inv;
    if k == 0 {
      StartKeeps(ms[0]);
    } else {
      RunKeeps(ms, acts, k - 1);
      var act := acts[k - 1];
      StepKeeps(ms[k - 1], act);
    }
  }

  lemma StartKeeps(m: Monitor)
    requires AtRest(m)
    ensures Inv(m)
  {
  }

  // ---- what it means ----

  /** When the mutex is free, sleeping consumers leave at most as many elements in the buffer as there are woken consumers
      on their way, and sleeping producers at most as many free places as there are woken producers. */
  lemma SleepersCovered(ms: seq<Monitor>, acts: seq<Action>, k: nat)
    requires Interleaved(ms, acts) && k < |ms| && ms[k].holder.Free?
    ensures ms[k].asleepC != {} ==> ms[k].ring.size <= |ms[k].wokenC|
    ensures ms[k].asleepP != {} ==> ms[k].MaxLen() - ms[k].ring.size <= |ms[k].wokenP|
  {
    RunKeeps(ms, acts, k);
  }

  /** Producers and consumers are never all asleep together: if nobody holds the mutex or is on the way to it, the
      sleepers are consumers of an empty buffer or producers of a full one, not both. */
  lemma NeverAllAsleep(ms: seq<Monitor>, acts: seq<Action>, k: nat)
    requires Interleaved(ms, acts) && k < |ms|
    requires ms[k].holder.Free? && ms[k].wokenP == ms[k].wokenC == {}
    ensures ms[k].asleepC == {} || ms[k].asleepP == {}
    ensures ms[k].asleepC != {} ==> ms[k].ring.size == 0
    ensures ms[k].asleepP != {} ==> ms[k].ring.size == ms[k].MaxLen()
  {
    RunKeeps(ms, acts, k);
  }

  /** Under every interleaving the buffer is a first-in first-out queue that never exceeds its length. */
  lemma AlwaysFifo(ms: seq<Monitor>, acts: seq<Action>, k: nat)
    requires Interleaved(ms, acts) && k < |ms|
    ensures ms[k].ring.Valid() && ms[k].ring.size <= ms[0].MaxLen()
    ensures ms[k].pushed == ms[k].popped + ms[k].ring.Contents()
    ensures ms[k].popped <= ms[k].pushed
  {
    RunKeeps(ms, acts, k);
  }

  /** Whoever holds the mutex can go on to give it back, and a woken thread can take it when it is free. */
  lemma HolderMoves(ms: seq<Monitor>, acts: seq<Action>, k: nat) returns (act: Action)
    requires Interleaved(ms, acts) && k < |ms| && (ms[k].holder.Held? || ms[k].wokenP + ms[k].wokenC != {})
    ensures Can(ms[k], act) && !act.Spurious? && !act.Lock?
  {
    RunKeeps(ms, acts, k);
    act := HolderCan(ms[k]);
  }

  lemma HolderCan(m: Monitor) returns (act: Action)
    requires Inv(m) && (m.holder.Held? || m.wokenP + m.wokenC != {})
    ensures Can(m, act) && !act.Spurious? && !act.Lock?
  {
    if m.holder.Free? {
      var t :| t in m.wokenP + m.wokenC;
      act := Relock(t);
    } else {
      match m.holder.at
      case Test => act := if m.Blocked(m.holder.role) then Wait else Go;
      case Update => act := Change;
      case Signal => act := Wake(if m.holder.role.Producer? then m.asleepC else m.asleepP);
      case Leave => act := Unlock;
    }
  }
}
