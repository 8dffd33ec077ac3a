/** Thread partition (DSWP_3.cpp:8-109): a greedy list schedule of the components over the threads. */
module Partition {
  import opened Ir

  datatype QNode = QNode(u: nat, latency: nat)

  /** The graph of `n` components: converse lists without repetition, edges towards larger numbers. */
  datatype Dag = Dag(n: nat, dependents: map<nat, seq<nat>>, parents: map<nat, seq<nat>>) {
    function Deps(u: nat): seq<nat> { ListAt(dependents, u) }

    function Pars(v: nat): seq<nat> { ListAt(parents, v) }

    ghost predicate Valid() {
      && (forall u: nat, v: nat :: v in Deps(u) <==> u in Pars(v))
      && (forall u: nat, v: nat :: u in Pars(v) ==> u < v < n)
      && (forall u: nat :: NoDups(Deps(u)))
    }
  }

  /** Total latency of the components with a number below `k` that thread `i` holds. */
  function LoadTo(placed: seq<int>, lat: seq<nat>, i: int, k: nat): nat
    requires k <= |placed| == |lat|
  {
    if k == 0 then 0 else LoadTo(placed, lat, i, k - 1) + if placed[k - 1] == i then lat[k - 1] else 0
  }

  function Load(placed: seq<int>, lat: seq<nat>, i: int): nat
    requires |placed| == |lat|
  {
    LoadTo(placed, lat, i, |lat|)
  }

  function Sum(s: seq<nat>): nat {
    if s == [] then 0 else Sum(s[..|s| - 1]) + s[|s| - 1]
  }

  lemma {:induction false} LoadToAssign(placed: seq<int>, lat: seq<nat>, v: nat, t: int, i: int, k: nat)
    requires k <= |placed| == |lat| && v < |placed| && placed[v] < 0 <= t && 0 <= i
    ensures LoadTo(placed[v := t], lat, i, k) ==
              LoadTo(placed, lat, i, k) + if v < k && i == t then lat[v] else 0
  {
    if k > 0 { LoadToAssign(placed, lat, v, t, i, k - 1); }
  }

  ghost predicate Done(placed: seq<int>, u: nat) {
    u < |placed| && 0 <= placed[u]
  }

  /** All parents of `v` have a thread. */
  ghost predicate Ready(g: Dag, placed: seq<int>, v: nat) {
    forall u :: u in g.Pars(v) ==> Done(placed, u)
  }

  ghost predicate Queued(q: seq<QNode>, v: nat) {
    exists k :: 0 <= k < |q| && q[k].u == v
  }

  /** What the schedule keeps. Of the components that could be scheduled, only those in `late` may be
      missing from the queue. */
  ghost predicate Sched(g: Dag, lat: seq<nat>, placed: seq<int>, q: seq<QNode>, pushed: seq<nat>, late: seq<nat>) {
    && |placed| == |lat| == g.n
    && (forall v :: 0 <= v < g.n ==> placed[v] == -2 || 0 <= placed[v])
    && (forall k :: 0 <= k < |q| ==> q[k].u < g.n && placed[q[k].u] == -2 && q[k].latency == lat[q[k].u])
    && (forall k :: 0 <= k < |q| ==> Ready(g, placed, q[k].u))
    && (forall j, k :: 0 <= j < k < |q| ==> q[j].u != q[k].u)
    && (forall v :: 0 <= v < g.n && placed[v] == -2 && Ready(g, placed, v) ==> Queued(q, v) || v in late)
    && (forall u, v :: 0 <= v < g.n && 0 <= placed[v] && u in g.Pars(v) ==> Done(placed, u) && placed[u] <= placed[v])
    && NoDups(pushed)
    && (forall v: nat :: v in pushed <==> v < g.n && (0 <= placed[v] || Queued(q, v)))
  }

  /** An empty queue means that everything has a thread: the least unassigned component would be ready. */
  lemma {:induction false} AllDone(g: Dag, lat: seq<nat>, placed: seq<int>, pushed: seq<nat>, v: nat)
    requires g.Valid() && Sched(g, lat, placed, [], pushed, []) && v < g.n
    ensures 0 <= placed[v]
  {
    assert !Queued([], v);
    if placed[v] == -2 {
      forall u | u in g.Pars(v) ensures Done(placed, u) { AllDone(g, lat, placed, pushed, u); }
    }
  }

  function Without<T>(s: seq<T>, k: nat): seq<T>
    requires k < |s|
  {
    s[..k] + s[k + 1..]
  }

  lemma WithoutQueue(q: seq<QNode>, k: nat)
    requires k < |q| && forall i, j :: 0 <= i < j < |q| ==> q[i].u != q[j].u
    ensures forall i, j :: 0 <= i < j < |Without(q, k)| ==> Without(q, k)[i].u != Without(q, k)[j].u
    ensures forall w: nat :: Queued(Without(q, k), w) <==> Queued(q, w) && w != q[k].u
    ensures forall j :: 0 <= j < |Without(q, k)| ==> Without(q, k)[j] in q && Without(q, k)[j].u != q[k].u
  {
    var q' := Without(q, k);
    forall j | 0 <= j < |q'| ensures q'[j] == q[if j < k then j else j + 1] {}
    forall w: nat ensures Queued(q', w) <==> Queued(q, w) && w != q[k].u {
      if Queued(q, w) && w != q[k].u {
        var j :| 0 <= j < |q| && q[j].u == w;
        assert q'[if j < k then j else j - 1].u == w;
      }
    }
  }

  /** Giving `v` a thread makes ready only what depends on it. */
  lemma ReadyAfter(g: Dag, placed: seq<int>, v: nat, t: nat, w: nat)
    requires g.Valid() && v < |placed|
    ensures Ready(g, placed, w) ==> Ready(g, placed[v := t], w)
    ensures Ready(g, placed[v := t], w) && v !in g.Pars(w) ==> Ready(g, placed, w)
  {
    var a' := placed[v := t];
    forall u | u in g.Pars(w) && Done(placed, u) ensures Done(a', u) {}
    forall u | u in g.Pars(w) && Done(a', u) && u != v ensures Done(placed, u) {}
  }

  /** Taking `q[k]` off the queue into thread `t`: only its dependents may become ready. */
  lemma TakeKeeps(g: Dag, lat: seq<nat>, placed: seq<int>, q: seq<QNode>, pushed: seq<nat>, k: nat, t: nat)
    requires g.Valid() && Sched(g, lat, placed, q, pushed, []) && k < |q|
    requires forall v :: 0 <= v < g.n ==> placed[v] <= t
    ensures Sched(g, lat, placed[q[k].u := t], Without(q, k), pushed, g.Deps(q[k].u))
    ensures forall w :: w in g.Deps(q[k].u) ==> !Queued(Without(q, k), w) && w < g.n
  {
    var v, q', a' := q[k].u, Without(q, k), placed[q[k].u := t];
    WithoutQueue(q, k);
    assert Queued(q, v);
    forall w: nat ensures (Ready(g, placed, w) ==> Ready(g, a', w)) && (Ready(g, a', w) && v !in g.Pars(w) ==> Ready(g, placed, w)) {
      ReadyAfter(g, placed, v, t, w);
    }
    forall w | w in g.Deps(v) ensures !Queued(q', w) && w < g.n {
      assert v in g.Pars(w) && !Done(placed, v) && !Ready(g, placed, w);
    }
    forall u, w | 0 <= w < g.n && 0 <= a'[w] && u in g.Pars(w) ensures Done(a', u) && a'[u] <= a'[w] {
      assert Ready(g, placed, v);
      assert Done(placed, u);
    }
  }

  /** Pushing a ready dependent, or passing over one that is not ready. */
  lemma PushKeeps(g: Dag, lat: seq<nat>, placed: seq<int>, q: seq<QNode>, pushed: seq<nat>, late: seq<nat>)
    requires g.Valid() && Sched(g, lat, placed, q, pushed, late) && |late| > 0 && late[0] < g.n
    requires placed[late[0]] == -2 && Ready(g, placed, late[0]) && !Queued(q, late[0])
    ensures Sched(g, lat, placed, q + [QNode(late[0], lat[late[0]])], pushed + [late[0]], late[1..])
    ensures forall w :: Queued(q + [QNode(late[0], lat[late[0]])], w) <==> Queued(q, w) || w == late[0]
  {
    var v := late[0];
    var q' := q + [QNode(v, lat[v])];
    forall w ensures Queued(q', w) <==> Queued(q, w) || w == v {
      if Queued(q, w) {
        var j :| 0 <= j < |q| && q[j].u == w;
        assert q'[j].u == w;
      }
      assert q'[|q|].u == v;
    }
    assert late == [v] + late[1..];
  }

  lemma PassKeeps(g: Dag, lat: seq<nat>, placed: seq<int>, q: seq<QNode>, pushed: seq<nat>, late: seq<nat>)
    requires g.Valid() && Sched(g, lat, placed, q, pushed, late) && |late| > 0
    requires late[0] < g.n ==> placed[late[0]] != -2 || !Ready(g, placed, late[0])
    ensures Sched(g, lat, placed, q, pushed, late[1..])
  {
    assert late == [late[0]] + late[1..];
  }

  // ---- loads ----

  function Loads(placed: seq<int>, lat: seq<nat>, threads: nat, k: nat): seq<nat>
    requires k <= |placed| == |lat|
  {
    seq(threads, t requires 0 <= t < threads => LoadTo(placed, lat, t, k))
  }

  lemma {:induction false} SumUpdate(s: seq<nat>, i: nat, x: nat)
    requires i < |s|
    ensures Sum(s[i := s[i] + x]) == Sum(s) + x
  {
    var s' := s[i := s[i] + x];
    if i == |s| - 1 {
      assert s'[..i] == s[..i];
    } else {
      assert s'[..|s| - 1] == s[..|s| - 1][i := s[i] + x];
      SumUpdate(s[..|s| - 1], i, x);
    }
  }

  lemma {:induction false} SumAtLeast(s: seq<nat>, a: nat)
    requires forall j :: 0 <= j < |s| ==> a <= s[j]
    ensures |s| * a <= Sum(s)
  {
    if s != [] { SumAtLeast(s[..|s| - 1], a); }
  }

  lemma {:induction false} SumZero(s: seq<nat>)
    requires forall j :: 0 <= j < |s| ==> s[j] == 0
    ensures Sum(s) == 0
  {
    if s != [] { SumZero(s[..|s| - 1]); }
  }

  /** The loads of the threads add up to the latency of what has been scheduled. */
  lemma {:induction false} LoadsAddUp(placed: seq<int>, lat: seq<nat>, threads: nat, k: nat)
    requires k <= |placed| == |lat| && forall v :: 0 <= v < |placed| ==> 0 <= placed[v] < threads
    ensures Sum(Loads(placed, lat, threads, k)) == Sum(lat[..k])
  {
    if k == 0 {
      SumZero(Loads(placed, lat, threads, 0));
    } else {
      LoadsAddUp(placed, lat, threads, k - 1);
      var before, t := Loads(placed, lat, threads, k - 1), placed[k - 1];
      SumUpdate(before, t, lat[k - 1]);
      assert Loads(placed, lat, threads, k) == before[t := before[t] + lat[k - 1]];
      assert lat[..k][..k - 1] == lat[..k - 1];
    }
  }

  ghost predicate Nonempty(placed: seq<int>, t: int) {
    exists v :: 0 <= v < |placed| && placed[v] == t
  }

  /** The balance kept by the threads before `t`: each is as full as the queue allowed, and none much fuller. */
  ghost predicate Balanced(placed: seq<int>, lat: seq<nat>, aver: nat, maxLat: nat, more: bool, t: nat)
    requires |placed| == |lat|
  {
    && (forall j :: 0 <= j < t ==> Load(placed, lat, j) <= aver + maxLat)
    && (more ==> forall j :: 0 <= j < t ==> aver <= Load(placed, lat, j) && Nonempty(placed, j))
  }

  /** What a run of the partition leaves. */
  ghost predicate Partitioned(g: Dag, lat: seq<nat>, threads: nat, placed: seq<int>) {
    && |placed| == |lat| == g.n
    && (forall v :: 0 <= v < g.n ==> 0 <= placed[v] < threads)
    && (forall u, v :: 0 <= v < g.n && u in g.Pars(v) ==> u < g.n && placed[u] <= placed[v])
    && (forall j, k :: 0 <= j < k && Nonempty(placed, k) ==> Nonempty(placed, j))
  }

  /** With `total` spread over the threads, no thread but the last exceeds the average by more than one component,
      and the last exceeds it by no more than the remainder. */
  ghost predicate LoadBounds(lat: seq<nat>, threads: nat, placed: seq<int>, maxLat: nat)
    requires |placed| == |lat| && threads > 0
  {
    var total := Sum(lat);
    && Sum(Loads(placed, lat, threads, |lat|)) == total
    && (forall t :: 0 <= t < threads - 1 ==> Load(placed, lat, t) <= total / threads + maxLat)
    && Load(placed, lat, threads - 1) <= total / threads + total % threads
  }

  lemma {:induction false} EmptyLoad(placed: seq<int>, lat: seq<nat>, t: int, k: nat)
    requires k <= |placed| == |lat| && !Nonempty(placed, t)
    ensures LoadTo(placed, lat, t, k) == 0
  {
    if k > 0 { EmptyLoad(placed, lat, t, k - 1); }
  }

  lemma LastLoadBound(loads: seq<nat>, threads: nat, aver: nat)
    requires threads > 0 && |loads| == threads && aver == Sum(loads) / threads
    requires forall j :: 0 <= j < threads - 1 ==> aver <= loads[j]
    ensures loads[threads - 1] <= aver + Sum(loads) % threads
  {
    SumAtLeast(loads[..threads - 1], aver);
    LastShare(Sum(loads), threads, aver, loads[threads - 1]);
  }

  lemma LastLoad(placed: seq<int>, lat: seq<nat>, threads: nat, aver: nat, maxLat: nat)
    requires |placed| == |lat| && threads > 0 && forall v :: 0 <= v < |placed| ==> 0 <= placed[v] < threads
    requires aver == Sum(lat) / threads
    requires Balanced(placed, lat, aver, maxLat, Nonempty(placed, threads - 1), threads - 1)
    ensures LoadBounds(lat, threads, placed, maxLat)
  {
    var loads := Loads(placed, lat, threads, |lat|);
    LoadsAddUp(placed, lat, threads, |lat|);
    assert lat[..|lat|] == lat;
    if Nonempty(placed, threads - 1) {
      hide Sum, LoadTo;
      forall j | 0 <= j < threads - 1 ensures aver <= loads[j] { assert aver <= Load(placed, lat, j); }
      LastLoadBound(loads, threads, aver);
    } else {
      EmptyLoad(placed, lat, threads - 1, |lat|);
    }
  }

  lemma LastShare(total: nat, threads: nat, aver: nat, last: nat)
    requires threads > 0 && aver == total / threads && (threads - 1) * aver + last <= total
    ensures last <= aver + total % threads
  {
    assert total == threads * aver + total % threads;
    assert threads * aver == (threads - 1) * aver + aver;
  }

  /** Only thread `t` received components. */
  ghost predicate Filled(before: seq<int>, after: seq<int>, t: nat) {
    && |before| == |after|
    && forall v :: 0 <= v < |after| ==> after[v] == before[v] || (before[v] < 0 && after[v] == t)
  }

  ghost function Unplaced(placed: seq<int>): set<nat> {
    set v: nat | v < |placed| && placed[v] < 0
  }

  lemma Initial(g: Dag, lat: seq<nat>, placed: seq<int>, all: seq<nat>)
    requires g.Valid() && |lat| == g.n && placed == seq(g.n, v => -2)
    requires |all| == g.n && forall v :: 0 <= v < g.n ==> all[v] == v
    ensures Sched(g, lat, placed, [], [], all)
  {
    forall v | 0 <= v < g.n ensures v in all { assert all[v] == v; }
  }

  /** Empty threads come last. */
  ghost predicate Prefix(placed: seq<int>) {
    forall j, k :: 0 <= j < k && Nonempty(placed, k) ==> Nonempty(placed, j)
  }

  lemma {:induction false} FilledLoad(before: seq<int>, after: seq<int>, lat: seq<nat>, t: nat, j: nat, k: nat)
    requires k <= |before| == |lat| && Filled(before, after, t) && j != t
    ensures LoadTo(after, lat, j, k) == LoadTo(before, lat, j, k)
  {
    if k > 0 { FilledLoad(before, after, lat, t, j, k - 1); }
  }

  /** Filling thread `t` keeps the balance of the threads before it. */
  lemma FilledKeeps(before: seq<int>, after: seq<int>, lat: seq<nat>, t: nat, aver: nat, maxLat: nat,
                    more: bool, more': bool, threads: nat)
    requires |before| == |lat| && Filled(before, after, t) && t < threads
    requires forall v :: 0 <= v < |before| ==> before[v] < t
    requires Prefix(before) && Balanced(before, lat, aver, maxLat, more, t)
    requires if more then Nonempty(after, t) else after == before && !more'
    requires t < threads - 1 ==> Load(after, lat, t) <= aver + maxLat
    requires more' ==> t < threads - 1 && aver <= Load(after, lat, t)
    ensures Prefix(after)
    ensures t < threads - 1 ==> Balanced(after, lat, aver, maxLat, more', t + 1)
    ensures t == threads - 1 ==> Balanced(after, lat, aver, maxLat, Nonempty(after, t), t)
  {
    forall j: nat | j < t ensures Load(after, lat, j) == Load(before, lat, j) { FilledLoad(before, after, lat, t, j, |lat|); }
    forall j: nat | j != t ensures Nonempty(after, j) <==> Nonempty(before, j) {
      if Nonempty(before, j) {
        var v :| 0 <= v < |before| && before[v] == j;
        assert after[v] == j;
      }
    }
  }

  function Latency(sccId: map<Inst, nat>, latency: Inst -> nat, xs: seq<Inst>, j: nat): nat
    requires forall x :: x in xs ==> x in sccId
  {
    if xs == [] then 0
    else
      var x := xs[|xs| - 1];
      Latency(sccId, latency, xs[..|xs| - 1], j) + if sccId[x] == j then latency(x) else 0
  }

  lemma LatencyStep(sccId: map<Inst, nat>, latency: Inst -> nat, xs: seq<Inst>, k: nat, n: nat)
    requires k < |xs| && forall x :: x in xs ==> x in sccId
    ensures forall j: nat :: Latency(sccId, latency, xs[..k + 1], j) ==
              Latency(sccId, latency, xs[..k], j) + if sccId[xs[k]] == j then latency(xs[k]) else 0
  {
    assert xs[..k + 1][..k] == xs[..k];
  }

  /** The latency of component `j` within the blocks `bs`. */
  function LoopLatency(l: Loop, sccId: map<Inst, nat>, latency: Inst -> nat, bs: seq<Block>, j: nat): nat
    requires l.Valid() && (forall b :: b in bs ==> b in l.blocks) && forall x :: x in l.parent ==> x in sccId
  {
    if bs == [] then 0
    else LoopLatency(l, sccId, latency, bs[..|bs| - 1], j) + Latency(sccId, latency, l.body[bs[|bs| - 1]], j)
  }

  lemma NoLatency(l: Loop, sccId: map<Inst, nat>, latency: Inst -> nat)
    requires l.Valid() && forall x :: x in l.parent ==> x in sccId
    ensures forall j: nat :: LoopLatency(l, sccId, latency, l.blocks[..0], j) == 0
  {
  }

  /** `lat` holds the latencies within the first `i` blocks. */
  ghost predicate LatencyTo(l: Loop, sccId: map<Inst, nat>, latency: Inst -> nat, lat: seq<nat>, i: nat)
    requires l.Valid() && forall x :: x in l.parent ==> x in sccId
  {
    i <= |l.blocks| && forall j :: 0 <= j < |lat| ==> lat[j] == LoopLatency(l, sccId, latency, l.blocks[..i], j)
  }

  lemma LatencyNone(l: Loop, sccId: map<Inst, nat>, latency: Inst -> nat, lat: seq<nat>)
    requires l.Valid() && (forall x :: x in l.parent ==> x in sccId) && forall j :: 0 <= j < |lat| ==> lat[j] == 0
    ensures LatencyTo(l, sccId, latency, lat, 0)
  {
    hide LoopLatency;
    NoLatency(l, sccId, latency);
  }

  lemma LatencyToStep(l: Loop, sccId: map<Inst, nat>, latency: Inst -> nat, lat: seq<nat>, lat': seq<nat>, i: nat)
    requires l.Valid() && forall x :: x in l.parent ==> x in sccId
    requires LatencyTo(l, sccId, latency, lat, i) && i < |l.blocks| && |lat'| == |lat|
    requires l.blocks[i] in l.body && forall x :: x in l.body[l.blocks[i]] ==> x in sccId
    requires forall j :: 0 <= j < |lat| ==> lat'[j] == lat[j] + Latency(sccId, latency, l.body[l.blocks[i]], j)
    ensures LatencyTo(l, sccId, latency, lat', i + 1)
  {
    hide Latency;
    assert l.blocks[..i + 1][..i] == l.blocks[..i];
  }

  lemma AllLatency(l: Loop, sccId: map<Inst, nat>, latency: Inst -> nat, lat: seq<nat>)
    requires l.Valid() && forall x :: x in l.parent ==> x in sccId
    requires LatencyTo(l, sccId, latency, lat, |l.blocks|)
    ensures forall j :: 0 <= j < |lat| ==> lat[j] == LoopLatency(l, sccId, latency, l.blocks, j)
  {
    hide LoopLatency;
    assert l.blocks[..|l.blocks|] == l.blocks;
  }

  /** Nothing left in the queue: everything is scheduled and was queued exactly once. */
  lemma Complete(g: Dag, lat: seq<nat>, placed: seq<int>, pushed: seq<nat>)
    requires g.Valid() && Sched(g, lat, placed, [], pushed, [])
    ensures forall v :: 0 <= v < g.n ==> 0 <= placed[v]
    ensures forall u, v :: 0 <= v < g.n && u in g.Pars(v) ==> u < g.n && placed[u] <= placed[v]
    ensures NoDups(pushed) && forall v: nat :: v in pushed <==> v < g.n
  {
    forall v | 0 <= v < g.n ensures 0 <= placed[v] { AllDone(g, lat, placed, pushed, v); }
    assert forall v: nat :: !Queued([], v);
  }

  predicate IsTop(q: seq<QNode>, k: nat) {
    k < |q| && forall j :: 0 <= j < |q| ==> q[j].latency <= q[k].latency
  }

  lemma {:induction false} TopExists(q: seq<QNode>) returns (k: nat)
    requires |q| > 0
    ensures IsTop(q, k)
  {
    if |q| == 1 {
      k := 0;
    } else {
      var front := q[..|q| - 1];
      var m := TopExists(front);
      k := if q[m].latency < q[|q| - 1].latency then |q| - 1 else m;
      assert forall j :: 0 <= j < |q| ==> j == |q| - 1 || q[j] == front[j];
    }
  }

  lemma SchedHead(g: Dag, lat: seq<nat>, placed: seq<int>, q: seq<QNode>, pushed: seq<nat>, late: seq<nat>, k: nat)
    requires Sched(g, lat, placed, q, pushed, late) && k < |q|
    ensures |placed| == |lat| == g.n
    ensures q[k].u < g.n && placed[q[k].u] == -2 && q[k].latency == lat[q[k].u]
  {
  }

  lemma LoadsAfter(placed: seq<int>, lat: seq<nat>, v: nat, t: nat, threads: nat, est: seq<nat>)
    requires |placed| == |lat| && v < |placed| && placed[v] < 0 && t < threads == |est|
    requires forall j :: 0 <= j < threads ==> est[j] == Load(placed, lat, j)
    ensures forall j :: 0 <= j < threads ==> Load(placed[v := t], lat, j) == est[j] + if j == t then lat[v] else 0
  {
    forall j | 0 <= j < threads ensures Load(placed[v := t], lat, j) == Load(placed, lat, j) + if j == t then lat[v] else 0 {
      LoadToAssign(placed, lat, v, t, j, |lat|);
    }
  }

  lemma SchedLength(g: Dag, lat: seq<nat>, placed: seq<int>, q: seq<QNode>, pushed: seq<nat>, late: seq<nat>)
    requires Sched(g, lat, placed, q, pushed, late)
    ensures |placed| == |lat| == g.n
  {
  }

  /** `s` lists, once each, the components below `k` that thread `t` holds. */
  ghost predicate PartTo(placed: seq<int>, s: seq<nat>, t: int, k: nat) {
    k <= |placed| && NoDups(s) && forall v: nat :: v in s <==> v < k && placed[v] == t
  }

  lemma PartStep(placed: seq<int>, s: seq<nat>, t: int, k: nat)
    requires PartTo(placed, s, t, k) && k < |placed|
    ensures PartTo(placed, if t == placed[k] then s + [k] else s, t, k + 1)
  {
  }

  // ---- the order in which components are taken ----

  /** `v` can be taken once `before` have been: it has not been yet, and everything it depends on has. */
  ghost predicate Candidate(g: Dag, before: seq<nat>, v: nat) {
    v < g.n && v !in before && forall u :: u in g.Pars(v) ==> u in before
  }

  /** `v` is a candidate of greatest latency. */
  ghost predicate Best(g: Dag, lat: seq<nat>, before: seq<nat>, v: nat)
    requires |lat| == g.n
  {
    Candidate(g, before, v) && forall w: nat :: Candidate(g, before, w) ==> lat[w] <= lat[v]
  }

  /** The thread that takes the next component, and what it holds so far. */
  datatype Slot = Slot(t: nat, load: nat)

  ghost function SlotAfter(lat: seq<nat>, threads: nat, aver: nat, taken: seq<nat>): Slot
    requires forall k :: 0 <= k < |taken| ==> taken[k] < |lat|
  {
    if taken == [] then Slot(0, 0)
    else
      var s, v := SlotAfter(lat, threads, aver, taken[..|taken| - 1]), taken[|taken| - 1];
      NextSlot(s, lat[v], aver, threads)
  }

  /** The check of the load balance (lines 81-85). */
  function NextSlot(s: Slot, latency: nat, aver: nat, threads: nat): Slot {
    var load := s.load + latency;
    if load >= aver && s.t != threads - 1 then Slot(s.t + 1, 0) else Slot(s.t, load)
  }

  /** The component taken at `k` was a best candidate and went into the thread being filled. */
  ghost predicate TakenAt(g: Dag, lat: seq<nat>, threads: nat, aver: nat, placed: seq<int>, order: seq<nat>, k: nat)
    requires |placed| == |lat| == g.n && k < |order| && forall j :: 0 <= j < |order| ==> order[j] < |lat|
  {
    Best(g, lat, order[..k], order[k]) && placed[order[k]] == SlotAfter(lat, threads, aver, order[..k]).t
  }

  /** `order` are the components that have a thread, in the order in which they were taken. */
  ghost predicate Taken(g: Dag, lat: seq<nat>, threads: nat, aver: nat, placed: seq<int>, order: seq<nat>) {
    && |placed| == |lat| == g.n && NoDups(order)
    && (forall v: nat :: v in order <==> v < |placed| && 0 <= placed[v])
    && (forall k :: 0 <= k < |order| ==> order[k] < |lat|)
    && (forall k :: 0 <= k < |order| ==> TakenAt(g, lat, threads, aver, placed, order, k))
  }

  /** The schedule of a finished partition: it determines the thread of every component. */
  ghost predicate Greedy(g: Dag, lat: seq<nat>, threads: nat, placed: seq<int>, order: seq<nat>) {
    threads > 0 && Taken(g, lat, threads, Sum(lat) / threads, placed, order) && forall v: nat :: v in order <==> v < g.n
  }

  /** What thread `t` holds of the components in `taken`. */
  function Holds(lat: seq<nat>, placed: seq<int>, taken: seq<nat>, t: int): nat
    requires |placed| == |lat| && forall k :: 0 <= k < |taken| ==> taken[k] < |lat|
  {
    if taken == [] then 0
    else
      var v := taken[|taken| - 1];
      Holds(lat, placed, taken[..|taken| - 1], t) + if placed[v] == t then lat[v] else 0
  }

  /** Where component `k` of the order goes: to the first thread; or where the one before it went, unless that thread has
      reached the average and is not the last, and then to the next one. */
  ghost predicate FillsInTurn(lat: seq<nat>, threads: nat, aver: nat, placed: seq<int>, order: seq<nat>, k: nat)
    requires |placed| == |lat| && (forall j :: 0 <= j < |order| ==> order[j] < |lat|) && k < |order|
  {
    placed[order[k]] ==
      if k == 0 then 0
      else
        var t := placed[order[k - 1]];
        if Holds(lat, placed, order[..k], t) >= aver && t != threads - 1 then t + 1 else t
  }

  lemma HoldsStep(lat: seq<nat>, placed: seq<int>, order: seq<nat>, k: nat, t: int)
    requires |placed| == |lat| && (forall j :: 0 <= j < |order| ==> order[j] < |lat|) && k < |order|
    ensures Holds(lat, placed, order[..k + 1], t) ==
              Holds(lat, placed, order[..k], t) + if placed[order[k]] == t then lat[order[k]] else 0
  {
    assert order[..k + 1][..k] == order[..k];
  }

  lemma SlotAt(lat: seq<nat>, threads: nat, aver: nat, order: seq<nat>, k: nat)
    requires (forall j :: 0 <= j < |order| ==> order[j] < |lat|) && k < |order|
    ensures SlotAfter(lat, threads, aver, order[..k + 1]) ==
              NextSlot(SlotAfter(lat, threads, aver, order[..k]), lat[order[k]], aver, threads)
  {
    assert order[..k + 1] == order[..k] + [order[k]];
    SlotStep(lat, threads, aver, order[..k], order[k]);
  }

  /** The slot is the thread that would be next, with what that thread holds; later threads hold nothing yet. */
  lemma {:induction false} SlotIs(g: Dag, lat: seq<nat>, threads: nat, aver: nat, placed: seq<int>, order: seq<nat>, k: nat)
    requires Taken(g, lat, threads, aver, placed, order) && k <= |order|
    ensures forall j :: 0 <= j < |order| ==> order[j] < |lat|
    ensures var s := SlotAfter(lat, threads, aver, order[..k]);
            && s.load == Holds(lat, placed, order[..k], s.t) && (forall t: int :: s.t < t ==> Holds(lat, placed, order[..k], t) == 0)
            && (k == 0 ==> s.t == 0)
            && (k > 0 ==>
                  var t := placed[order[k - 1]];
                  s.t == if Holds(lat, placed, order[..k], t) >= aver && t != threads - 1 then t + 1 else t)
  {
    hide Taken, Holds, SlotAfter, Best;
    TakenFacts(g, lat, threads, aver, placed, order);
    if k == 0 {
      assert order[..0] == [];
      SlotNone(lat, threads, aver, placed);
    } else {
      SlotIs(g, lat, threads, aver, placed, order, k - 1);
      SlotAt(lat, threads, aver, order, k - 1);
      assert TakenAt(g, lat, threads, aver, placed, order, k - 1);
      forall t: int ensures Holds(lat, placed, order[..k], t) ==
                      Holds(lat, placed, order[..k - 1], t) + if placed[order[k - 1]] == t then lat[order[k - 1]] else 0
      {
        HoldsStep(lat, placed, order, k - 1, t);
      }
    }
  }

  lemma TakenFacts(g: Dag, lat: seq<nat>, threads: nat, aver: nat, placed: seq<int>, order: seq<nat>)
    requires Taken(g, lat, threads, aver, placed, order)
    ensures |placed| == |lat| == g.n && forall j :: 0 <= j < |order| ==> order[j] < |lat|
    ensures forall j :: 0 <= j < |order| ==> TakenAt(g, lat, threads, aver, placed, order, j)
  {
    hide TakenAt;
  }

  lemma SlotNone(lat: seq<nat>, threads: nat, aver: nat, placed: seq<int>)
    requires |placed| == |lat|
    ensures SlotAfter(lat, threads, aver, []) == Slot(0, 0) && forall t: int :: Holds(lat, placed, [], t) == 0
  {
  }

  /** The rule of the load balance, said of the threads themselves. */
  lemma GreedyThread(g: Dag, lat: seq<nat>, threads: nat, placed: seq<int>, order: seq<nat>, k: nat)
    requires Greedy(g, lat, threads, placed, order) && k < |order|
    ensures |placed| == |lat| && (forall j :: 0 <= j < |order| ==> order[j] < |lat|)
    ensures FillsInTurn(lat, threads, Sum(lat) / threads, placed, order, k)
  {
    hide SlotAfter, Holds, Best, Sum;
    SlotIs(g, lat, threads, Sum(lat) / threads, placed, order, k);
    assert TakenAt(g, lat, threads, Sum(lat) / threads, placed, order, k);
  }

  /** Of two components that could be taken, one of greater latency is taken first. */
  lemma GreedyBest(g: Dag, lat: seq<nat>, threads: nat, placed: seq<int>, order: seq<nat>, k: nat, j: nat)
    requires Greedy(g, lat, threads, placed, order) && k < j < |order| && forall u :: u in g.Pars(order[j]) ==> u in order[..k]
    ensures |placed| == |lat| && order[k] < |lat| && order[j] < |lat| && lat[order[j]] <= lat[order[k]]
    ensures forall u :: u in g.Pars(order[k]) ==> u in order[..k]
  {
    hide SlotAfter, Sum, Dag.Pars;
    TakenFacts(g, lat, threads, Sum(lat) / threads, placed, order);
    assert TakenAt(g, lat, threads, Sum(lat) / threads, placed, order, k);
    assert order[j] !in order[..k];
    assert Candidate(g, order[..k], order[j]);
  }

  lemma TakenStep(g: Dag, lat: seq<nat>, threads: nat, aver: nat, placed: seq<int>, order: seq<nat>, v: nat)
    requires Taken(g, lat, threads, aver, placed, order) && Best(g, lat, order, v)
    ensures (forall k :: 0 <= k < |order| ==> order[k] < |lat|) && v < |placed|
    ensures Taken(g, lat, threads, aver, placed[v := SlotAfter(lat, threads, aver, order).t], order + [v])
    ensures forall k :: 0 <= k < |order + [v]| ==> (order + [v])[k] < |lat|
    ensures SlotAfter(lat, threads, aver, order + [v]) == NextSlot(SlotAfter(lat, threads, aver, order), lat[v], aver, threads)
  {
    var order', t := order + [v], SlotAfter(lat, threads, aver, order).t;
    var placed' := placed[v := t];
    BestNew(g, lat, order, v);
    SlotStep(lat, threads, aver, order, v);
    hide Best, SlotAfter, Dag.Pars, TakenAt, NextSlot;
    forall k | 0 <= k < |order'| ensures TakenAt(g, lat, threads, aver, placed', order', k) {
      if k < |order| {
        assert order[k] in order;
        TakenKeeps(g, lat, threads, aver, placed, order, v, t, k);
      } else {
        TakenNew(g, lat, threads, aver, placed, order, v);
      }
    }
  }

  lemma SlotStep(lat: seq<nat>, threads: nat, aver: nat, order: seq<nat>, v: nat)
    requires (forall k :: 0 <= k < |order| ==> order[k] < |lat|) && v < |lat|
    ensures SlotAfter(lat, threads, aver, order + [v]) == NextSlot(SlotAfter(lat, threads, aver, order), lat[v], aver, threads)
  {
    assert (order + [v])[..|order|] == order;
  }

  lemma TakenKeeps(g: Dag, lat: seq<nat>, threads: nat, aver: nat, placed: seq<int>, order: seq<nat>, v: nat, t: nat, k: nat)
    requires |placed| == |lat| == g.n && (forall j :: 0 <= j < |order| ==> order[j] < |lat|) && v < |lat|
    requires k < |order| && order[k] != v && TakenAt(g, lat, threads, aver, placed, order, k)
    ensures TakenAt(g, lat, threads, aver, placed[v := t], order + [v], k)
  {
    hide Best, SlotAfter;
    assert (order + [v])[..k] == order[..k];
  }

  lemma TakenNew(g: Dag, lat: seq<nat>, threads: nat, aver: nat, placed: seq<int>, order: seq<nat>, v: nat)
    requires |placed| == |lat| == g.n && (forall j :: 0 <= j < |order| ==> order[j] < |lat|) && v < |lat|
    requires Best(g, lat, order, v)
    ensures TakenAt(g, lat, threads, aver, placed[v := SlotAfter(lat, threads, aver, order).t], order + [v], |order|)
  {
    hide Best, SlotAfter;
    assert (order + [v])[..|order|] == order;
  }

  lemma BestNew(g: Dag, lat: seq<nat>, before: seq<nat>, v: nat)
    requires |lat| == g.n && Best(g, lat, before, v)
    ensures v < g.n && v !in before
  {
  }

  /** The top of the queue is a best candidate. */
  lemma TopIsBest(g: Dag, lat: seq<nat>, threads: nat, aver: nat, placed: seq<int>, order: seq<nat>, q: seq<QNode>,
                  pushed: seq<nat>, k: nat)
    requires Sched(g, lat, placed, q, pushed, []) && IsTop(q, k) && Taken(g, lat, threads, aver, placed, order)
    ensures Best(g, lat, order, q[k].u)
  {
    hide Dag.Pars, SlotAfter, Best;
    assert Ready(g, placed, q[k].u);
    BestIs(g, lat, placed, q, order, k);
  }

  lemma BestIs(g: Dag, lat: seq<nat>, placed: seq<int>, q: seq<QNode>, order: seq<nat>, k: nat)
    requires |placed| == |lat| == g.n && IsTop(q, k) && q[k].u < g.n && placed[q[k].u] < 0 && Ready(g, placed, q[k].u)
    requires forall j :: 0 <= j < |q| ==> q[j].u < g.n && q[j].latency == lat[q[j].u]
    requires forall v: nat :: v in order <==> v < |placed| && 0 <= placed[v]
    requires forall v :: 0 <= v < g.n ==> placed[v] == -2 || 0 <= placed[v]
    requires forall v :: 0 <= v < g.n && placed[v] == -2 && Ready(g, placed, v) ==> Queued(q, v)
    ensures Best(g, lat, order, q[k].u)
  {
    hide Dag.Pars;
    assert Candidate(g, order, q[k].u);
    forall w: nat | Candidate(g, order, w) ensures lat[w] <= lat[q[k].u] {
      assert Ready(g, placed, w);
      var j :| 0 <= j < |q| && q[j].u == w;
    }
  }

  class Partitioner {
    const threads: nat
    const g: Dag
    var sccLatency: seq<nat>
    var placed: seq<int>        // the source's `assigned`
    var estLatency: seq<nat>
    var q: seq<QNode>           // the priority queue, as a bag
    var part: seq<seq<nat>>
    ghost var pushed: seq<nat>  // every push, in order
    ghost var order: seq<nat>   // every pop, in order

    constructor (threads: nat, g: Dag)
      ensures this.threads == threads && this.g == g
    {
      this.threads, this.g := threads, g;
      sccLatency, placed, estLatency, q, part, pushed, order := [], [], [], [], [], [], [];
    }

    ghost predicate Scheduling(late: seq<nat>)
      reads this
    {
      && g.Valid() && Sched(g, sccLatency, placed, q, pushed, late)
      && |estLatency| == threads && |placed| == |sccLatency| == g.n
      && forall t :: 0 <= t < threads ==> estLatency[t] == Load(placed, sccLatency, t)
    }

    /** The order of the pops so far explains where everything is; `t` is being filled. */
    ghost predicate Tracking(aver: nat)
      reads this
    {
      Taken(g, sccLatency, threads, aver, placed, order)
    }

    ghost function Filling(aver: nat): Slot
      reads this
      requires Tracking(aver)
    {
      SlotAfter(sccLatency, threads, aver, order)
    }

    method Enqueue(v: nat, ghost late: seq<nat>)
      requires Scheduling([v] + late) && v < g.n && placed[v] == -2 && Ready(g, placed, v) && !Queued(q, v)
      modifies this`q, this`pushed
      ensures Scheduling(late) && forall w: nat :: Queued(q, w) <==> old(Queued(q, w)) || w == v
      ensures q == old(q) + [QNode(v, sccLatency[v])]
    {
      PushKeeps(g, sccLatency, placed, q, pushed, [v] + late);
      assert ([v] + late)[1..] == late;
      q := q + [QNode(v, sccLatency[v])];
      pushed := pushed + [v];
    }

    /** The test of lines 64-73. */
    method CanSchedule(v: nat) returns (can: bool)
      requires g.Valid() && |placed| == g.n
      ensures can <==> Ready(g, placed, v)
    {
      can := true;
      var pars := g.Pars(v);
      for k := 0 to |pars|
        invariant can && forall j :: 0 <= j < k ==> Done(placed, pars[j])
      {
        assert pars[k] in g.Pars(v);
        if placed[pars[k]] < 0 {
          assert !Done(placed, pars[k]);
          can := false;
          break;
        }
      }
    }

    /** Queues the dependents of `u` that have become ready (lines 57-78). */
    method Release(u: nat)
      requires Scheduling(g.Deps(u)) && forall w :: w in g.Deps(u) ==> !Queued(q, w) && w < g.n
      modifies this`q, this`pushed
      ensures Scheduling([])
    {
      hide Sched;
      var deps := g.Deps(u);
      assert deps[0..] == deps;
      assert forall k :: 0 <= k < |deps| ==> deps[k] in deps;
      for j := 0 to |deps|
        invariant Scheduling(deps[j..])
        invariant forall k :: j <= k < |deps| ==> deps[k] < g.n && !Queued(q, deps[k])
      {
        var v := deps[j];
        assert deps[j..] == [v] + deps[j + 1..];
        SchedLength(g, sccLatency, placed, q, pushed, deps[j..]);
        var can := CanSchedule(v);
        if placed[v] == -2 && can {
          assert forall k :: j < k < |deps| ==> deps[k] != v;
          Enqueue(v, deps[j + 1..]);
        } else {
          PassKeeps(g, sccLatency, placed, q, pushed, deps[j..]);
          assert deps[j..][1..] == deps[j + 1..];
        }
      }
    }

    /** `Q.top()`: a queued component of greatest latency; ties are broken arbitrarily. */
    method Top() returns (k: nat)
      requires |q| > 0
      ensures IsTop(q, k)
    {
      ghost var m := TopExists(q);
      hide IsTop;
      k :| 0 <= k < |q| && IsTop(q, k);
    }

    /** Takes the top of the queue, the component `v`, into thread `t`. */
    method Take(t: nat, ghost aver: nat) returns (v: nat)
      requires Scheduling([]) && |q| > 0 && t < threads && forall v :: 0 <= v < g.n ==> placed[v] <= t
      requires Tracking(aver) && Filling(aver) == Slot(t, estLatency[t])
      modifies this`q, this`pushed, this`placed, this`estLatency, this`order
      ensures Scheduling([]) && Tracking(aver) && order == old(order) + [v]
      ensures Filling(aver) == if estLatency[t] >= aver && t != threads - 1 then Slot(t + 1, 0) else Slot(t, estLatency[t])
      ensures v < g.n && old(placed[v]) == -2 && placed == old(placed)[v := t]
      ensures estLatency == old(estLatency)[t := old(estLatency)[t] + sccLatency[v]]
      ensures exists k :: 0 <= k < |old(q)| && old(q)[k] == QNode(v, sccLatency[v]) &&
                          forall j :: 0 <= j < |old(q)| ==> old(q)[j].latency <= sccLatency[v]
    {
      hide Sched, LoadTo, Without, Taken, Best, SlotAfter;
      var k := Top();
      v := q[k].u;
      SchedHead(g, sccLatency, placed, q, pushed, [], k);
      TakeKeeps(g, sccLatency, placed, q, pushed, k, t);
      LoadsAfter(placed, sccLatency, v, t, threads, estLatency);
      TopIsBest(g, sccLatency, threads, aver, placed, order, q, pushed, k);
      TakenStep(g, sccLatency, threads, aver, placed, order, v);
      order := order + [v];
      q := Without(q, k);
      placed := placed[v := t];
      estLatency := estLatency[t := estLatency[t] + sccLatency[v]];
      Release(v);
    }

    /** Fills thread `t` from the queue until it holds its share; the last thread takes everything (lines 52-90). */
    method RunThread(t: nat, aver: nat, ghost maxLat: nat)
      requires Scheduling([]) && t < threads && (forall v :: 0 <= v < g.n ==> placed[v] < t) && estLatency[t] == 0
      requires forall v :: 0 <= v < |sccLatency| ==> sccLatency[v] <= maxLat
      requires Tracking(aver) && (|q| > 0 ==> Filling(aver) == Slot(t, 0))
      modifies this`q, this`pushed, this`placed, this`estLatency, this`order
      ensures Scheduling([]) && Filled(old(placed), placed, t)
      ensures Tracking(aver) && (|q| > 0 ==> Filling(aver) == Slot(t + 1, 0))
      ensures forall j :: 0 <= j < threads && j != t ==> estLatency[j] == old(estLatency[j])
      ensures q == [] || (t < threads - 1 && aver <= estLatency[t])
      ensures |old(q)| > 0 ==> Nonempty(placed, t)
      ensures old(q) == [] ==> placed == old(placed) && q == []
      ensures t < threads - 1 ==> estLatency[t] <= aver + maxLat
    {
      hide Sched, LoadTo, Taken, SlotAfter;
      while |q| > 0
        invariant Scheduling([]) && Filled(old(placed), placed, t)
        invariant Tracking(aver) && (|q| > 0 ==> Filling(aver) == Slot(t, estLatency[t]))
        invariant forall j :: 0 <= j < threads && j != t ==> estLatency[j] == old(estLatency[j])
        invariant placed != old(placed) ==> Nonempty(placed, t)
        invariant placed == old(placed) ==> q == old(q)
        invariant old(q) == [] ==> placed == old(placed)
        invariant t < threads - 1 ==> estLatency[t] < aver || estLatency[t] == 0
        decreases Unplaced(placed)
      {
        ghost var before := placed;
        var v := Take(t, aver);
        assert v in Unplaced(before) && v !in Unplaced(placed);
        assert old(placed)[v] < t;
        if estLatency[t] >= aver && t != threads - 1 { break; }
      }
    }

    /** Spreads the queue over the threads (lines 51-91). */
    method RunThreads(aver: nat, ghost maxLat: nat)
      requires Scheduling([]) && threads > 0 && (forall v :: 0 <= v < g.n ==> placed[v] < 0)
      requires (forall t :: 0 <= t < threads ==> estLatency[t] == 0) && aver == Sum(sccLatency) / threads
      requires forall v :: 0 <= v < |sccLatency| ==> sccLatency[v] <= maxLat
      requires Tracking(aver) && order == []
      modifies this`q, this`pushed, this`placed, this`estLatency, this`order
      ensures Scheduling([]) && q == [] && Tracking(aver)
      ensures Prefix(placed)
      ensures forall v :: 0 <= v < g.n ==> placed[v] < threads
      ensures Balanced(placed, sccLatency, aver, maxLat, Nonempty(placed, threads - 1), threads - 1)
    {
      assert Filling(aver) == Slot(0, 0);
      hide Sched, LoadTo, Taken, SlotAfter, Ready, Queued, Dag.Valid;
      for t := 0 to threads
        invariant Scheduling([]) && Tracking(aver) && (|q| > 0 ==> Filling(aver) == Slot(t, 0))
        invariant forall v :: 0 <= v < g.n ==> placed[v] < t
        invariant forall j :: t <= j < threads ==> estLatency[j] == 0
        invariant Prefix(placed)
        invariant t < threads ==> Balanced(placed, sccLatency, aver, maxLat, |q| > 0, t)
        invariant t == threads ==> q == []
        invariant t == threads ==> Balanced(placed, sccLatency, aver, maxLat, Nonempty(placed, threads - 1), threads - 1)
      {
        ghost var before, more := placed, |q| > 0;
        RunThread(t, aver, maxLat);
        FilledKeeps(before, placed, sccLatency, t, aver, maxLat, more, |q| > 0, threads);
      }
    }

    /** Queues the components without parents (lines 45-49). */
    method EnqueueRoots(ghost all: seq<nat>)
      requires |all| == g.n && Scheduling(all) && q == [] && forall v :: 0 <= v < g.n ==> all[v] == v && placed[v] == -2
      modifies this`q, this`pushed
      ensures Scheduling([])
    {
      hide Sched, LoadTo;
      assert all[0..] == all;
      for scc := 0 to g.n
        invariant Scheduling(all[scc..])
        invariant forall w: nat :: Queued(q, w) ==> w < scc
      {
        assert all[scc..] == [scc] + all[scc + 1..];
        if g.Pars(scc) == [] {
          Enqueue(scc, all[scc + 1..]);
        } else {
          var u := g.Pars(scc)[0];
          assert u in g.Pars(scc) && !Done(placed, u);
          PassKeeps(g, sccLatency, placed, q, pushed, all[scc..]);
          assert all[scc..][1..] == all[scc + 1..];
        }
      }
    }

    method InitQueue()
      requires g.Valid() && |sccLatency| == g.n
      modifies this`placed, this`estLatency, this`q, this`pushed, this`order
      ensures Scheduling([]) && placed == seq(g.n, v => -2) && order == []
      ensures forall t :: 0 <= t < threads ==> estLatency[t] == 0
    {
      placed := seq(g.n, v => -2);
      estLatency := seq(threads, t => 0);
      q, pushed, order := [], [], [];
      ghost var all := seq(g.n, v requires 0 <= v < g.n => v);
      forall t | 0 <= t < threads ensures Load(placed, sccLatency, t) == 0 { EmptyLoad(placed, sccLatency, t, g.n); }
      Initial(g, sccLatency, placed, all);
      EnqueueRoots(all);
    }

    method BlockLatencies(l: Loop, sccId: map<Inst, nat>, latency: Inst -> nat, b: Block, before: nat) returns (total: nat)
      requires l.Valid() && b in l.blocks && forall x :: x in l.parent ==> x in sccId && sccId[x] < g.n
      requires |sccLatency| == g.n && before == Sum(sccLatency)
      modifies this`sccLatency
      ensures |sccLatency| == g.n && total == Sum(sccLatency)
      ensures forall j :: 0 <= j < g.n ==> sccLatency[j] == old(sccLatency)[j] + Latency(sccId, latency, l.body[b], j)
    {
      hide Sum;
      total := before;
      var body := l.body[b];
      for k := 0 to |body|
        invariant |sccLatency| == g.n && total == Sum(sccLatency)
        invariant forall j :: 0 <= j < g.n ==> sccLatency[j] == old(sccLatency)[j] + Latency(sccId, latency, body[..k], j)
      {
        var inst := body[k];
        assert inst in l.body[b];
        LatencyStep(sccId, latency, body, k, g.n);
        SumUpdate(sccLatency, sccId[inst], latency(inst));
        sccLatency := sccLatency[sccId[inst] := sccLatency[sccId[inst]] + latency(inst)];
        total := total + latency(inst);
      }
      assert body[..|body|] == body;
    }

    /** Adds up the latency of each component, and in all (lines 10-25). */
    method Latencies(l: Loop, sccId: map<Inst, nat>, latency: Inst -> nat) returns (total: nat)
      requires l.Valid() && forall x :: x in l.parent ==> x in sccId && sccId[x] < g.n
      modifies this`sccLatency
      ensures |sccLatency| == g.n && total == Sum(sccLatency)
      ensures forall j :: 0 <= j < g.n ==> sccLatency[j] == LoopLatency(l, sccId, latency, l.blocks, j)
    {
      hide Sum, Latency, LoopLatency, LatencyTo;
      sccLatency, total := seq(g.n, v => 0), 0;
      SumZero(sccLatency);
      LatencyNone(l, sccId, latency, sccLatency);
      for i := 0 to |l.blocks|
        invariant |sccLatency| == g.n && total == Sum(sccLatency) && LatencyTo(l, sccId, latency, sccLatency, i)
      {
        ghost var was := sccLatency;
        assert l.blocks[i] in l.blocks;
        total := BlockLatencies(l, sccId, latency, l.blocks[i], total);
        LatencyToStep(l, sccId, latency, was, sccLatency, i);
      }
      AllLatency(l, sccId, latency, sccLatency);
    }

    /** Lists the components of each thread (lines 93-103); the error branch is never taken. */
    method FillParts() returns (ok: bool)
      requires forall v :: 0 <= v < |placed| ==> 0 <= placed[v] < threads
      modifies this`part
      ensures ok && |part| == threads
      ensures forall t :: 0 <= t < threads ==> NoDups(part[t])
      ensures forall t, v: nat {:trigger v in part[t]} :: 0 <= t < threads ==> (v in part[t] <==> v < |placed| && placed[v] == t)
    {
      ok := true;
      part := seq(threads, t => []);
      for i := 0 to |placed|
        invariant ok && |part| == threads
        invariant forall t :: 0 <= t < threads ==> PartTo(placed, part[t], t, i)
      {
        if placed[i] < 0 || placed[i] >= threads {
          ok := false;
        } else {
          forall t | 0 <= t < threads
            ensures PartTo(placed, if t == placed[i] then part[t] + [i] else part[t], t, i + 1)
          {
            PartStep(placed, part[t], t, i);
          }
          hide PartTo;
          part := part[placed[i] := part[placed[i]] + [i]];
        }
      }
    }

    method Schedule(aver: nat, ghost maxLat: nat)
      requires g.Valid() && threads > 0 && |sccLatency| == g.n && aver == Sum(sccLatency) / threads
      requires forall v :: 0 <= v < |sccLatency| ==> sccLatency[v] <= maxLat
      modifies this`placed, this`estLatency, this`q, this`pushed, this`order
      ensures Partitioned(g, sccLatency, threads, placed)
      ensures Greedy(g, sccLatency, threads, placed, order)
      ensures LoadBounds(sccLatency, threads, placed, maxLat)
      ensures NoDups(pushed) && forall v: nat :: v in pushed <==> v < g.n
    {
      hide Sched, LoadTo, Sum, Balanced, LoadBounds;
      InitQueue();
      hide SlotAfter;
      RunThreads(aver, maxLat);
      Complete(g, sccLatency, placed, pushed);
      LastLoad(placed, sccLatency, threads, aver, maxLat);
    }

    /** `threadPartition`: every component gets a thread, each is queued exactly once, no edge of the component
        graph goes to a smaller thread, empty threads come last, and the loads are bounded. */
    method ThreadPartition(l: Loop, sccId: map<Inst, nat>, latency: Inst -> nat, ghost maxLat: nat)
      requires l.Valid() && g.Valid() && threads > 0 && forall x :: x in l.parent ==> x in sccId && sccId[x] < g.n
      requires forall j :: 0 <= j < g.n ==> LoopLatency(l, sccId, latency, l.blocks, j) <= maxLat
      modifies this
      ensures Partitioned(g, sccLatency, threads, placed)
      ensures Greedy(g, sccLatency, threads, placed, order)
      ensures LoadBounds(sccLatency, threads, placed, maxLat)
      ensures forall j :: 0 <= j < g.n ==> sccLatency[j] == LoopLatency(l, sccId, latency, l.blocks, j)
      ensures NoDups(pushed) && forall v: nat :: v in pushed <==> v < g.n
      ensures |part| == threads
      ensures forall t, v: nat {:trigger v in part[t]} :: 0 <= t < threads ==> (v in part[t] <==> v < g.n && placed[v] == t)
    {
      hide Sched, LoadTo, Sum, LoopLatency, Balanced, LoadBounds, Ready, Greedy;
      var total := Latencies(l, sccId, latency);
      Schedule(total / threads, maxLat);
      var ok := FillParts();
      assert |placed| == g.n;
      forall t, v: nat | 0 <= t < threads ensures v in part[t] <==> v < g.n && placed[v] == t {}
    }
  }
}
