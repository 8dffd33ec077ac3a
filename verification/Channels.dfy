/** What a channel holds: of the values its source takes over the whole run, those sent and not yet received. */
module Channels {
  import opened Ir
  import opened PeeledLoop
  import opened PostDominance
  import opened Plan
  import opened Sequential
  import opened Trace
  import opened Pipeline
  import opened Simulation

  ghost predicate Chan(y: System, c: nat) {
    y.r.Valid() && c < |y.p.chans| && y.p.chans[c].u in y.r.l.parent
  }

  /** Visit `t` is one of the block of the channel's source. */
  ghost predicate Visits(y: System, c: nat, t: nat)
    requires Chan(y, c)
  {
    y.r.Blk(t) == y.r.l.parent[y.p.chans[c].u]
  }

  ghost function ValueAt(y: System, c: nat, t: nat): int
    requires Chan(y, c)
  {
    if y.p.chans[c].dtype == REG then Lookup(y.r.At(t + 1).regs, y.p.chans[c].u) else 0
  }

  /** The values owed for the visits before `t`, in order. */
  ghost function Vals(y: System, c: nat, t: nat): seq<int>
    requires Chan(y, c)
  {
    if t == 0 then []
    else Vals(y, c, t - 1) + if Visits(y, c, t - 1) then [ValueAt(y, c, t - 1)] else []
  }

  lemma {:induction false} ValsPrefix(y: System, c: nat, a: nat, b: nat)
    requires Chan(y, c) && a <= b
    ensures |Vals(y, c, a)| <= |Vals(y, c, b)| && Vals(y, c, b)[..|Vals(y, c, a)|] == Vals(y, c, a)
    decreases b - a
  {
    hide Visits, ValueAt, Chan;
    if a < b { ValsPrefix(y, c, a, b - 1); }
  }

  lemma ValsAt(y: System, c: nat, t: nat, n: nat)
    requires Chan(y, c) && t < n && Visits(y, c, t)
    ensures |Vals(y, c, t)| < |Vals(y, c, n)| && Vals(y, c, n)[|Vals(y, c, t)|] == ValueAt(y, c, t)
    ensures Vals(y, c, t + 1) == Vals(y, c, t) + [ValueAt(y, c, t)]
  {
    hide ValueAt, Chan, Run.Conf;
    ValsPrefix(y, c, t + 1, n);
    assert Vals(y, c, n)[..|Vals(y, c, t + 1)|][|Vals(y, c, t)|] == ValueAt(y, c, t);
  }

  lemma {:induction false} ValsSkip(y: System, c: nat, a: nat, b: nat)
    requires Chan(y, c) && a <= b && forall t :: a <= t < b ==> !Visits(y, c, t)
    ensures Vals(y, c, a) == Vals(y, c, b)
    decreases b - a
  {
    hide Visits, ValueAt, Chan;
    if a < b { ValsSkip(y, c, a, b - 1); }
  }

  ghost function SentNo(y: System, s: State, vis: seq<nat>, c: nat): nat
    requires Chan(y, c) && y.p.chans[c].from < |vis|
  {
    |Vals(y, c, vis[y.p.chans[c].from])| + if Did(y, s, y.p.chans[c].from, Produce(c)) then 1 else 0
  }

  ghost function GotNo(y: System, s: State, vis: seq<nat>, c: nat): nat
    requires Chan(y, c) && y.p.chans[c].to < |vis|
  {
    |Vals(y, c, vis[y.p.chans[c].to])| + if Did(y, s, y.p.chans[c].to, Consume(c)) then 1 else 0
  }

  /** The first values have been received, the queue holds the next ones, the rest has not been sent. */
  ghost predicate ChanHolds(y: System, n: nat, s: State, vis: seq<nat>, c: nat)
    requires Chan(y, c) && y.p.chans[c].from < |vis| && y.p.chans[c].to < |vis| && c < |s.queues|
  {
    && GotNo(y, s, vis, c) <= SentNo(y, s, vis, c) <= |Vals(y, c, n)|
    && s.queues[c] == Vals(y, c, n)[GotNo(y, s, vis, c)..SentNo(y, s, vis, c)]
  }

  lemma ChanFacts(y: System, n: nat, c: nat)
    requires Sound(y, n) && c < |y.p.chans|
    ensures Chan(y, c) && y.p.chans[c].from == y.p.owner[y.p.chans[c].u]
    ensures y.p.chans[c].from < y.p.chans[c].to < |y.p.kept|
    ensures y.p.Keeps(y.p.chans[c].from, y.r.l.parent[y.p.chans[c].u])
    ensures y.p.Keeps(y.p.chans[c].to, y.r.l.parent[y.p.chans[c].u])
    ensures y.p.chans[c].dtype == REG ==> !y.r.l.IsTerm(y.p.chans[c].u)
  {
    hide GoodBranches, UsesCovered, ConflictsCovered, Plan.GoodCode;
    assert y.p.chans[c] in y.p.chans;
    assert y.p.Shape() by { ShapeOf(y, n); }
  }

  lemma ShapeOf(y: System, n: nat)
    requires Sound(y, n)
    ensures y.p.Shape()
  {
    hide GoodBranches, UsesCovered, ConflictsCovered;
  }

  ghost predicate ChansHold(y: System, n: nat, s: State, vis: seq<nat>)
    requires Sound(y, n) && Placed(y, n, s, vis)
  {
    forall c :: 0 <= c < |y.p.chans| ==> Chan(y, c) && ToThread(y, c) && y.p.chans[c].from < |vis| && ChanHolds(y, n, s, vis, c)
  }

  /** An operation executed in this visit belongs to the block of the visit. */
  lemma DidBelongs(y: System, n: nat, s: State, vis: seq<nat>, i: nat, op: Op)
    requires Sound(y, n) && Placed(y, n, s, vis) && i < |vis| && Did(y, s, i, op)
    ensures y.p.Shape() && vis[i] < n && y.p.Belongs(i, y.r.Blk(vis[i]), op)
  {
    hide GoodBranches, UsesCovered, ConflictsCovered, Plan.Rank;
    DidRank(y, n, s, vis, i, op);
  }

  lemma SendVisits(y: System, n: nat, s: State, vis: seq<nat>, c: nat)
    requires Sound(y, n) && Placed(y, n, s, vis) && c < |y.p.chans| && Chan(y, c) && y.p.chans[c].from < |vis|
    requires Did(y, s, y.p.chans[c].from, Produce(c))
    ensures vis[y.p.chans[c].from] < n && Visits(y, c, vis[y.p.chans[c].from])
  {
    DidBelongs(y, n, s, vis, y.p.chans[c].from, Produce(c));
  }

  lemma TokenCount(y: System, n: nat, s: State, vis: seq<nat>, c: nat, t: nat)
    requires Chan(y, c) && c < |y.p.chans| && y.p.chans[c].from < |vis| && y.p.chans[c].to < |vis|
    requires GotNo(y, s, vis, c) <= SentNo(y, s, vis, c) && t < n && Visits(y, c, t)
    requires Past(y, s, vis, y.p.chans[c].to, t, Consume(c))
    requires Did(y, s, y.p.chans[c].from, Produce(c)) ==> vis[y.p.chans[c].from] < n && Visits(y, c, vis[y.p.chans[c].from])
    ensures Past(y, s, vis, y.p.chans[c].from, t, Produce(c))
  {
    hide Did, Vals, Visits, Chan;
    var i, j := y.p.chans[c].from, y.p.chans[c].to;
    ValsAt(y, c, t, n);
    if t < vis[j] { ValsPrefix(y, c, t + 1, vis[j]); }
    if vis[i] < t {
      if Did(y, s, i, Produce(c)) {
        ValsAt(y, c, vis[i], n);
        ValsPrefix(y, c, vis[i] + 1, t);
      } else {
        ValsPrefix(y, c, vis[i], t);
      }
    }
  }

  /** The token: what has been received for a visit had been sent for that visit. */
  lemma ReceivedWasSent(y: System, n: nat, s: State, vis: seq<nat>, c: nat, t: nat)
    requires Sound(y, n) && Placed(y, n, s, vis) && ChansHold(y, n, s, vis) && c < |y.p.chans|
    requires Chan(y, c) && t < n && Visits(y, c, t) && Past(y, s, vis, y.p.chans[c].to, t, Consume(c))
    ensures Past(y, s, vis, y.p.chans[c].from, t, Produce(c))
  {
    ChanFacts(y, n, c);
    assert ChanHolds(y, n, s, vis, c);
    hide Sound, Did, ChansHold, Run.Conf, Vals, Placed, Visits, Chan, GotNo, SentNo;
    if Did(y, s, y.p.chans[c].from, Produce(c)) { SendVisits(y, n, s, vis, c); }
    TokenCount(y, n, s, vis, c, t);
  }
}
