/** The instruction instances of a terminating run, in program order. */
module Trace {
  import opened Ir
  import opened Sequential
  import opened Conflicts

  /** Visit `t`, instruction number `k` of its block. */
  datatype Event = Event(t: nat, k: nat)

  // ---- numbering: visit `t` has `ws[t]` events ----

  ghost predicate Exists(ws: seq<nat>, e: Event) {
    e.t < |ws| && e.k < ws[e.t]
  }

  ghost function Row(t: nat, w: nat): seq<Event> {
    seq(w, k requires 0 <= k < w => Event(t, k))
  }

  ghost function Events(ws: seq<nat>, t: nat): seq<Event>
    requires t <= |ws|
  {
    if t == 0 then [] else Events(ws, t - 1) + Row(t - 1, ws[t - 1])
  }

  ghost function Base(ws: seq<nat>, t: nat): nat
    requires t <= |ws|
  {
    |Events(ws, t)|
  }

  ghost function Num(ws: seq<nat>, e: Event): nat
    requires Exists(ws, e)
  {
    Base(ws, e.t) + e.k
  }

  lemma {:induction false} EventsPrefix(ws: seq<nat>, s: nat, t: nat)
    requires s <= t <= |ws|
    ensures Base(ws, s) <= Base(ws, t) && Events(ws, t)[..Base(ws, s)] == Events(ws, s)
    decreases t - s
  {
    if s < t {
      EventsPrefix(ws, s, t - 1);
      assert Events(ws, t)[..Base(ws, t - 1)] == Events(ws, t - 1);
    }
  }

  lemma NumIndexes(ws: seq<nat>, e: Event)
    requires Exists(ws, e)
    ensures Num(ws, e) < Base(ws, |ws|) && Events(ws, |ws|)[Num(ws, e)] == e
  {
    EventsPrefix(ws, e.t + 1, |ws|);
    RowEnd(ws, e);
    hide Events;
    assert Events(ws, |ws|)[..Base(ws, e.t + 1)][Num(ws, e)] == e;
  }

  lemma RowEnd(ws: seq<nat>, e: Event)
    requires Exists(ws, e)
    ensures Num(ws, e) < Base(ws, e.t + 1) && Events(ws, e.t + 1)[Num(ws, e)] == e
  {
  }

  lemma {:induction false} AtNum(ws: seq<nat>, t: nat, a: nat)
    requires t <= |ws| && a < Base(ws, t)
    ensures Exists(ws, Events(ws, t)[a]) && Num(ws, Events(ws, t)[a]) == a && Events(ws, t)[a].t < t
  {
    if a < Base(ws, t - 1) { AtNum(ws, t - 1, a); }
  }

  /** Numbers order events by visit, then by place in the block. */
  lemma NumOrder(ws: seq<nat>, d: Event, e: Event)
    requires Exists(ws, d) && Exists(ws, e)
    ensures Num(ws, d) < Num(ws, e) <==> d.t < e.t || (d.t == e.t && d.k < e.k)
  {
    if d.t < e.t { EventsPrefix(ws, d.t + 1, e.t); }
    if e.t < d.t { EventsPrefix(ws, e.t + 1, d.t); }
  }

  // ---- the events of a run that ends after `n` visits ----

  ghost predicate Runs(r: Run, n: nat) {
    r.Valid() && r.Ends(n)
  }

  ghost function Width(r: Run, t: nat): nat
    requires r.Valid() && r.Blk(t) != r.l.exit
  {
    |r.Work(r.Blk(t))|
  }

  ghost function Widths(r: Run, n: nat): (ws: seq<nat>)
    requires Runs(r, n)
    ensures |ws| == n && forall t :: 0 <= t < n ==> ws[t] == Width(r, t)
  {
    seq(n, t requires 0 <= t < n => Width(r, t))
  }

  ghost function InstOf(r: Run, e: Event): Inst
    requires r.Valid() && r.Blk(e.t) != r.l.exit && e.k < Width(r, e.t)
  {
    r.Work(r.Blk(e.t))[e.k]
  }

  ghost function EffectOf(r: Run, e: Event): Effect
    requires r.Valid() && r.Blk(e.t) != r.l.exit && e.k < Width(r, e.t)
  {
    r.m.EffectAt(InstOf(r, e), r.Mid(e.t, e.k))
  }

  ghost predicate Occurs(r: Run, n: nat, e: Event)
    requires Runs(r, n)
  {
    Exists(Widths(r, n), e)
  }

  ghost function EventNo(r: Run, n: nat, a: nat): (e: Event)
    requires Runs(r, n) && a < Base(Widths(r, n), n)
    ensures Occurs(r, n, e) && Num(Widths(r, n), e) == a
  {
    AtNum(Widths(r, n), n, a);
    Events(Widths(r, n), n)[a]
  }

  ghost function HistoryOf(r: Run, n: nat): (h: History)
    requires Runs(r, n)
    ensures h.Valid() && |h.loads| == Base(Widths(r, n), n) && h.init == r.init.mem
  {
    hide Machine.Valid, Events, Run.Conf, EffectOf, EventNo, Run.Blk, Run.Work, Loop.Valid;
    var size := Base(Widths(r, n), n);
    History(r.init.mem,
            seq(size, a requires 0 <= a < size => EffectOf(r, EventNo(r, n, a)).loads),
            seq(size, a requires 0 <= a < size => EffectOf(r, EventNo(r, n, a)).stores))
  }

  lemma HistoryAt(r: Run, n: nat, e: Event)
    requires Runs(r, n) && Occurs(r, n, e)
    ensures var a := Num(Widths(r, n), e);
            a < |HistoryOf(r, n).loads| && HistoryOf(r, n).loads[a] == EffectOf(r, e).loads &&
            HistoryOf(r, n).stores[a] == EffectOf(r, e).stores && EventNo(r, n, a) == e
  {
    NumIndexes(Widths(r, n), e);
  }

  lemma MidZero(r: Run, t: nat)
    requires r.Valid() && r.Blk(t) != r.l.exit
    ensures r.Mid(t, 0) == r.At(t) && (t == 0 ==> r.At(t) == r.init)
  {
  }

  lemma MidMem(r: Run, t: nat, k: nat)
    requires r.Valid() && r.Blk(t) != r.l.exit && k < Width(r, t)
    ensures r.Mid(t, k + 1).mem == r.Mid(t, k).mem + EffectOf(r, Event(t, k)).stores
  {
    r.NextMid(t, k);
  }

  lemma MidEnd(r: Run, t: nat)
    requires r.Valid() && r.Blk(t) != r.l.exit
    ensures r.At(t + 1) == r.Mid(t, Width(r, t))
  {
    r.NextVisit(t);
  }

  lemma BaseZero(ws: seq<nat>)
    ensures Base(ws, 0) == 0
  {
  }

  lemma BaseStep(ws: seq<nat>, t: nat)
    requires t < |ws|
    ensures Base(ws, t + 1) == Base(ws, t) + ws[t] <= Base(ws, |ws|)
  {
    EventsPrefix(ws, t + 1, |ws|);
  }

  lemma FullStep(r: Run, n: nat, e: Event)
    requires Runs(r, n) && Occurs(r, n, e)
    ensures Base(Widths(r, n), e.t) + e.k + 1 <= |HistoryOf(r, n).stores|
    ensures HistoryOf(r, n).Full(Base(Widths(r, n), e.t) + e.k + 1) ==
              HistoryOf(r, n).Full(Base(Widths(r, n), e.t) + e.k) + EffectOf(r, e).stores
  {
    hide Run.Valid, Run.Conf, Run.Mid, Run.Work, Events;
    HistoryAt(r, n, e);
  }

  lemma FullZero(r: Run, n: nat)
    requires Runs(r, n)
    ensures HistoryOf(r, n).Full(0) == r.init.mem
  {
  }

  /** The memory inside a visit is what all earlier events have written. */
  lemma {:induction false} FullIsMid(r: Run, n: nat, t: nat, k: nat)
    requires Runs(r, n) && t < n && k <= Width(r, t)
    ensures Base(Widths(r, n), t) + k <= |HistoryOf(r, n).stores|
    ensures HistoryOf(r, n).Full(Base(Widths(r, n), t) + k) == r.Mid(t, k).mem
    decreases t, k
  {
    hide Run.Valid, Run.Conf, Run.Mid, Run.Work, Run.Blk, Run.At, Events, Base, History.Full, HistoryOf, Width;
    BaseStep(Widths(r, n), t);
    BaseZero(Widths(r, n));
    FullZero(r, n);
    if k > 0 {
      FullIsMid(r, n, t, k - 1);
      FullStep(r, n, Event(t, k - 1));
      MidMem(r, t, k - 1);
    } else {
      MidZero(r, t);
      if t > 0 {
        BaseStep(Widths(r, n), t - 1);
        FullIsMid(r, n, t - 1, Width(r, t - 1));
        MidEnd(r, t - 1);
      }
    }
  }

  lemma FullAtEvent(r: Run, n: nat, e: Event)
    requires Runs(r, n) && Occurs(r, n, e)
    ensures r.Blk(e.t) != r.l.exit && e.k <= Width(r, e.t) && Num(Widths(r, n), e) <= |HistoryOf(r, n).stores|
    ensures HistoryOf(r, n).Full(Num(Widths(r, n), e)) == r.Mid(e.t, e.k).mem
  {
    hide Run.Valid, Run.Conf, Run.Mid, Run.Work, Run.Blk, Run.At, Events, Base, History.Full, HistoryOf, Width;
    FullIsMid(r, n, e.t, e.k);
  }

  lemma FullAtEnd(r: Run, n: nat)
    requires Runs(r, n)
    ensures HistoryOf(r, n).Full(Base(Widths(r, n), n)) == r.At(n).mem
  {
    hide Run.Valid, Run.Conf, Run.Mid, Run.Work, Run.Blk, Run.At, Events, History.Full, HistoryOf, Width;
    FullZero(r, n);
    if n == 0 {
      AtStart(r);
      BaseZero(Widths(r, n));
    } else {
      BaseStep(Widths(r, n), n - 1);
      FullIsMid(r, n, n - 1, Width(r, n - 1));
      MidEnd(r, n - 1);
    }
  }

  lemma AtStart(r: Run)
    requires r.Valid()
    ensures r.At(0) == r.init && r.Blk(0) == r.l.header
  {
  }
}
