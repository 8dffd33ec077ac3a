/** From the output of the code-generating phases to the plan that the pipeline executes. */
module Assembly {
  import opened Ir
  import opened PostDominance
  import opened PeeledLoop
  import opened Slicing
  import opened Plan
  import opened Split
  import opened Closure
  import opened Sync

  /** The split, still without channels. */
  ghost function Sliced(l: Loop, owner: map<Inst, nat>, kept: seq<set<Block>>): Plan {
    Plan(l, owner, kept, [], [], [])
  }

  ghost predicate Owners(l: Loop, owner: map<Inst, nat>, kept: seq<set<Block>>) {
    forall x :: x in l.parent ==> x in owner && owner[x] < |kept| && l.parent[x] in kept[owner[x]]
  }

  /** What loopSplit leaves for each thread. */
  ghost predicate AllMade(l: Loop, owner: map<Inst, nat>, ip: map<Block, Block>, kept: seq<set<Block>>,
                          code: seq<map<Block, seq<Op>>>, targets: seq<map<Block, seq<Block>>>,
                          places: seq<map<Inst, Inst>>, inst: seq<set<Inst>>)
  {
    && l.Valid() && Usable(LoopGraph(l)) && IsIPDom(LoopGraph(l), ip) && Owners(l, owner, kept)
    && |kept| == |code| == |targets| == |places| == |inst|
    && forall i :: 0 <= i < |kept| ==> ThreadSplit(Bare(l, owner), ip, i, kept[i], kept[i], code[i], targets[i], places[i], inst[i])
  }

  lemma {:induction false} CopiesSame(p: Plan, p': Plan, i: nat, xs: seq<Inst>)
    requires p.l == p'.l && p.owner == p'.owner && p.l.Valid()
    requires forall x :: x in xs ==> x in p.l.parent && x in p.owner
    ensures Copies(p, i, xs) == Copies(p', i, xs)
  {
    if xs != [] { CopiesSame(p, p', i, xs[..|xs| - 1]); }
  }

  lemma SlicedShape(l: Loop, owner: map<Inst, nat>, ip: map<Block, Block>, kept: seq<set<Block>>, code: seq<map<Block, seq<Op>>>,
                    targets: seq<map<Block, seq<Block>>>, places: seq<map<Inst, Inst>>, inst: seq<set<Inst>>)
    requires AllMade(l, owner, ip, kept, code, targets, places, inst)
    ensures Sliced(l, owner, kept).Shape()
  {
    var p := Sliced(l, owner, kept);
    hide Usable, IsIPDom, BlockCopied, Retargeted;
    forall i: nat, b | p.Keeps(i, b) ensures b in l.blocks {
      assert ThreadSplit(Bare(l, owner), ip, i, kept[i], kept[i], code[i], targets[i], places[i], inst[i]);
    }
  }

  lemma OneMap(l: Loop, owner: map<Inst, nat>, ip: map<Block, Block>, i: nat, relbb: set<Block>, code: map<Block, seq<Op>>,
               targets: map<Block, seq<Block>>, place: map<Inst, Inst>, inst: set<Inst>, p: Plan, x: Inst)
    requires l.Valid() && Usable(LoopGraph(l)) && IsIPDom(LoopGraph(l), ip) && p.Shape() && p.l == l && p.owner == owner
    requires ThreadSplit(Bare(l, owner), ip, i, relbb, relbb, code, targets, place, inst)
    requires i < |p.kept| && p.kept[i] == relbb
    ensures x in inst <==> x in l.parent && p.Keeps(i, l.parent[x]) && p.Cloned(i, x)
    ensures x in place <==> x in l.parent && p.Keeps(i, l.parent[x]) && !p.Cloned(i, x)
    ensures x in place && x in l.parent ==> place[x] == PlaceOf(p, i, x)
  {
    hide Usable, IsIPDom, Retargeted, Copies;
    if x in l.parent && p.Keeps(i, l.parent[x]) && !p.Cloned(i, x) {
      var b := l.parent[x];
      assert BlockCopied(Bare(l, owner), i, b, code[b], place);
      assert StandsFor(Bare(l, owner), i, b, l.Idx(x), place);
      NextSame(Bare(l, owner), p, i, b, l.Idx(x));
    }
  }

  lemma SlicedMaps(l: Loop, owner: map<Inst, nat>, ip: map<Block, Block>, kept: seq<set<Block>>, code: seq<map<Block, seq<Op>>>,
                   targets: seq<map<Block, seq<Block>>>, places: seq<map<Inst, Inst>>, inst: seq<set<Inst>>)
    requires AllMade(l, owner, ip, kept, code, targets, places, inst) && Sliced(l, owner, kept).Shape()
    ensures Maps(Sliced(l, owner, kept), inst, places)
  {
    var p := Sliced(l, owner, kept);
    hide Usable, IsIPDom, ThreadSplit, PlaceOf, Plan.Shape, Plan.Cloned;
    forall i: nat, x | i < |kept|
      ensures x in inst[i] <==> x in l.parent && p.Keeps(i, l.parent[x]) && p.Cloned(i, x)
      ensures x in places[i] <==> x in l.parent && p.Keeps(i, l.parent[x]) && !p.Cloned(i, x)
      ensures x in places[i] && x in l.parent ==> places[i][x] == PlaceOf(p, i, x)
    {
      OneMap(l, owner, ip, i, kept[i], code[i], targets[i], places[i], inst[i], p, x);
    }
  }

  lemma SlicedCode(l: Loop, owner: map<Inst, nat>, ip: map<Block, Block>, kept: seq<set<Block>>, code: seq<map<Block, seq<Op>>>,
                   targets: seq<map<Block, seq<Block>>>, places: seq<map<Inst, Inst>>, inst: seq<set<Inst>>)
    requires AllMade(l, owner, ip, kept, code, targets, places, inst) && Sliced(l, owner, kept).Shape()
    ensures PreCode(Sliced(l, owner, kept), code)
  {
    var p := Sliced(l, owner, kept);
    forall i: nat, b | i < |kept| ensures b in code[i] <==> p.Keeps(i, b) {
      assert ThreadSplit(Bare(l, owner), ip, i, kept[i], kept[i], code[i], targets[i], places[i], inst[i]);
    }
    forall i: nat, b | p.Keeps(i, b) ensures b in code[i] && PreList(p, i, b, code[i][b]) {
      assert ThreadSplit(Bare(l, owner), ip, i, kept[i], kept[i], code[i], targets[i], places[i], inst[i]);
      CopiesGood(p, i, b);
      CopiesSame(p, Bare(l, owner), i, l.body[b]);
      assert BlockCopied(Bare(l, owner), i, b, code[i][b], places[i]);
      hide Usable, IsIPDom, Retargeted, Copies, PreList, Plan.Shape, StandsFor;
    }
  }

  // ---- channels ----

  lemma {:induction false} EdgeChansMembers(p: Plan, e: Edge, hi: nat, ch: Channel)
    requires Owns(p) && e.u in p.l.parent
    ensures ch in EdgeChans(p, e, hi) <==>
              ch == Channel(e.u, e.v, e.dtype, p.owner[e.u], ch.to) && p.owner[e.u] < ch.to < hi && p.HasCopy(ch.to, e.v)
  {
    hide Plan.HasCopy;
    assert hi > 0 ==> (ch in EdgeChan(p, e, hi - 1) <==>
      p.HasCopy(hi - 1, e.v) && ch == Channel(e.u, e.v, e.dtype, p.owner[e.u], hi - 1));
    if hi > p.owner[e.u] + 1 { EdgeChansMembers(p, e, hi - 1, ch); }
  }

  /** Exactly one kind of channel: from the source of an edge to each later thread that has a copy of its target. */
  lemma {:induction false} AllChansMembers(p: Plan, es: seq<Edge>, n: nat, ch: Channel)
    requires Owns(p) && EdgesInside(p.l, es) && n <= |es|
    ensures ch in AllChans(p, es, n) <==>
              exists j :: 0 <= j < n && es[j] in es && ch in EdgeChans(p, es[j], |p.kept|)
  {
    hide Owns, EdgeChans;
    if n > 0 {
      AllChansMembers(p, es, n - 1, ch);
      AllChansStep(p, es, n - 1);
      assert es[n - 1] in es;
      if ch in AllChans(p, es, n - 1) {
        var j :| 0 <= j < n - 1 && es[j] in es && ch in EdgeChans(p, es[j], |p.kept|);
      }
      if j :| 0 <= j < n && es[j] in es && ch in EdgeChans(p, es[j], |p.kept|) {
        if j < n - 1 { assert ch in AllChans(p, es, n - 1); }
      }
    }
  }

  lemma ChannelMade(p: Plan, es: seq<Edge>, e: Edge, to: nat)
    requires Owns(p) && EdgesInside(p.l, es) && e in es && p.owner[e.u] < to < |p.kept| && p.HasCopy(to, e.v)
    ensures Channel(e.u, e.v, e.dtype, p.owner[e.u], to) in AllChans(p, es, |es|)
  {
    var ch := Channel(e.u, e.v, e.dtype, p.owner[e.u], to);
    var j :| 0 <= j < |es| && es[j] == e;
    EdgeChansMembers(p, e, |p.kept|, ch);
    AllChansMembers(p, es, |es|, ch);
    hide EdgeChans, AllChans, Plan.HasCopy, Owns;
    assert ch in EdgeChans(p, es[j], |p.kept|);
  }

  lemma NotTwice(es: seq<Edge>, chans: seq<Channel>, c: nat, d: nat)
    requires EdgeOrder(es, chans) && c < d < |chans|
    ensures EdgeOf(chans[c]) != EdgeOf(chans[d]) || chans[c].to != chans[d].to
  {
  }

  /** For an edge and a later thread with a copy of its target there is exactly one channel. */
  lemma OneChannel(p: Plan, es: seq<Edge>, e: Edge, to: nat) returns (c: nat)
    requires Owns(p) && EdgesInside(p.l, es) && NoDups(es)
    requires e in es && p.owner[e.u] < to < |p.kept| && p.HasCopy(to, e.v)
    ensures var chans := AllChans(p, es, |es|);
            && c < |chans| && chans[c] == Channel(e.u, e.v, e.dtype, p.owner[e.u], to)
            && forall d :: 0 <= d < |chans| && EdgeOf(chans[d]) == e && chans[d].to == to ==> d == c
  {
    var made := Channel(e.u, e.v, e.dtype, p.owner[e.u], to);
    hide Owns, EdgesInside, AllChans, Plan.HasCopy, NoDups, EdgeOrder;
    ChannelMade(p, es, e, to);
    AllChansOrdered(p, es, |es|);
    var chans := AllChans(p, es, |es|);
    c :| 0 <= c < |chans| && chans[c] == made;
    forall d | 0 <= d < |chans| && EdgeOf(chans[d]) == e && chans[d].to == to ensures d == c {
      if c < d { NotTwice(es, chans, c, d); }
      if d < c { NotTwice(es, chans, d, c); }
    }
  }

  lemma ChannelEdge(p: Plan, es: seq<Edge>, ch: Channel) returns (e: Edge)
    requires Owns(p) && EdgesInside(p.l, es) && ch in AllChans(p, es, |es|)
    ensures e in es && ch == Channel(e.u, e.v, e.dtype, p.owner[e.u], ch.to) && p.owner[e.u] < ch.to < |p.kept|
  {
    AllChansMembers(p, es, |es|, ch);
    var j :| 0 <= j < |es| && es[j] in es && ch in EdgeChans(p, es[j], |p.kept|);
    e := es[j];
    EdgeChansMembers(p, e, |p.kept|, ch);
  }

  // ---- closure ----

  /** A branch that something kept is control dependent on is kept, or its receive has no place. */
  lemma ServedKeeps(l: Loop, owner: map<Inst, nat>, edges: seq<Edge>, p: Plan, i: nat, x: Block, y: Block)
    requires Setting(l, owner, edges) && Owns(p) && p.l == l && p.owner == owner && i < |p.kept|
    requires p.kept[i] == Relevant(l, owner, edges, i) && AllServed(p, edges, |edges|)
    requires y in p.kept[i] && ControlDep(LoopGraph(l), x, y)
    ensures x in p.kept[i]
  {
    hide Usable, ControlComplete, ControlDep, Rising, LoopGraph, Relevant, AllServed, Served, WellFormed;
    var z := RelevantHolds(l, owner, edges, i, y);
    TermOf(l, y);
    ControllerEarlier(l, owner, edges, x, y, z);
    ControllerEarlier(l, owner, edges, x, y, l.Term(y));
    TermOf(l, x);
    var e := Edge(l.Term(x), l.Term(y), CONTROL);
    if owner[e.u] == i {
      OwnRelevant(l, owner, edges, i, e.u);
    } else {
      ServedEdge(p, edges, e);
      ServedAt(p, e, i);
    }
  }

  lemma ServedEdge(p: Plan, es: seq<Edge>, e: Edge)
    requires Owns(p) && EdgesInside(p.l, es) && e in es && AllServed(p, es, |es|)
    ensures e.u in p.l.parent && Served(p, e)
  {
    var j :| 0 <= j < |es| && es[j] == e;
    hide Served, Owns;
    assert es[j] in es && Served(p, es[j]);
  }

  /** So when every receive has a place, every thread keeps what its blocks are control dependent on. */
  lemma ServedClosed(l: Loop, owner: map<Inst, nat>, edges: seq<Edge>, p: Plan, i: nat)
    requires Setting(l, owner, edges) && Owns(p) && p.l == l && p.owner == owner && i < |p.kept|
    requires p.kept[i] == Relevant(l, owner, edges, i) && AllServed(p, edges, |edges|)
    ensures ControlClosed(LoopGraph(l), p.kept[i])
  {
    assert WellFormed(LoopGraph(l));
    hide Setting, Relevant, AllServed, ControlDep, WellFormed, Owns, LoopGraph;
    forall x, y | y in p.kept[i] && ControlDep(LoopGraph(l), x, y) ensures x in p.kept[i] {
      ServedKeeps(l, owner, edges, p, i, x, y);
    }
  }

  /** Every later thread that keeps the block of a terminator keeps the blocks of what the terminator depends on otherwise
      than by control. */
  ghost predicate TermsFed(p: Plan, edges: seq<Edge>)
    requires Owns(p) && EdgesInside(p.l, edges)
  {
    forall e, to: nat ::
      e in edges && e.dtype != CONTROL && p.l.IsTerm(e.v) && p.owner[e.u] < to && p.Keeps(to, p.l.parent[e.v]) ==>
      p.Keeps(to, p.l.parent[e.u])
  }

  /** Thread `i` keeps the blocks that are relevant to it. */
  ghost predicate KeepsRelevant(p: Plan, edges: seq<Edge>)
    requires EdgesInside(p.l, edges)
  {
    forall i :: 0 <= i < |p.kept| ==> p.kept[i] == Relevant(p.l, p.owner, edges, i)
  }

  /** The receives all have a place exactly when the threads keep the sources of the control edges into their blocks, and
      those of the other edges into the terminators that they copy. */
  lemma ServedIff(p: Plan, edges: seq<Edge>)
    requires Setting(p.l, p.owner, edges) && Owns(p) && ControlBlocks(p.l, edges) && KeepsRelevant(p, edges)
    ensures AllServed(p, edges, |edges|) <==>
              TermsFed(p, edges) && forall i :: 0 <= i < |p.kept| ==> EdgeClosed(p.l, p.owner, edges, i)
  {
    assert EdgesInside(p.l, edges);
    hide Setting, Owns, ControlBlocks, KeepsRelevant, AllServed, TermsFed, EdgeClosed, EdgesInside;
    if AllServed(p, edges, |edges|) {
      ServedTerms(p, edges);
      forall i: nat | i < |p.kept| ensures EdgeClosed(p.l, p.owner, edges, i) { ServedEdgeClosed(p, edges, i); }
    }
    if TermsFed(p, edges) && forall i :: 0 <= i < |p.kept| ==> EdgeClosed(p.l, p.owner, edges, i) { FedServed(p, edges); }
  }

  lemma ServedTerms(p: Plan, edges: seq<Edge>)
    requires Owns(p) && EdgesInside(p.l, edges) && AllServed(p, edges, |edges|)
    ensures TermsFed(p, edges)
  {
    hide AllServed;
    forall e, to: nat | e in edges && p.l.IsTerm(e.v) && p.owner[e.u] < to && p.Keeps(to, p.l.parent[e.v])
      ensures p.Keeps(to, p.l.parent[e.u])
    {
      ServedEdge(p, edges, e);
      assert Placeable(p, e, to);
    }
  }

  /** When every receive has a place, every thread keeps the sources of the control edges into its blocks. */
  lemma ServedEdgeClosed(p: Plan, edges: seq<Edge>, i: nat)
    requires Setting(p.l, p.owner, edges) && Owns(p) && ControlBlocks(p.l, edges) && KeepsRelevant(p, edges)
    requires AllServed(p, edges, |edges|) && i < |p.kept|
    ensures EdgeClosed(p.l, p.owner, edges, i)
  {
    assert EdgesInside(p.l, edges);
    hide Setting, Owns, ControlBlocks, KeepsRelevant, AllServed, Relevant;
    forall c | c in edges && c.dtype == CONTROL && p.l.parent[c.v] in Relevant(p.l, p.owner, edges, i)
      ensures p.l.parent[c.u] in Relevant(p.l, p.owner, edges, i)
    {
      ServedControl(p, edges, i, c);
    }
  }

  lemma ServedControl(p: Plan, edges: seq<Edge>, i: nat, c: Edge)
    requires Setting(p.l, p.owner, edges) && Owns(p) && ControlBlocks(p.l, edges) && KeepsRelevant(p, edges)
    requires AllServed(p, edges, |edges|) && i < |p.kept|
    requires c in edges && c.dtype == CONTROL && p.l.parent[c.v] in Relevant(p.l, p.owner, edges, i)
    ensures p.l.parent[c.u] in Relevant(p.l, p.owner, edges, i)
  {
    hide Usable, ControlComplete, LoopGraph, AllServed, Served, Relevant;
    var l, owner, y := p.l, p.owner, p.l.parent[c.v];
    var z := RelevantHolds(l, owner, edges, i, y);
    TermOf(l, y);
    var d, e := Edge(c.u, z, CONTROL), Edge(c.u, l.Term(y), CONTROL);
    assert d in edges && e in edges && owner[c.u] <= owner[z];
    hide Rising, EdgesInside, ControlBlocks;
    if owner[c.u] == i {
      OwnRelevant(l, owner, edges, i, c.u);
    } else {
      ServedEdge(p, edges, e);
      ServedAt(p, e, i);
    }
  }

  lemma OwnRelevant(l: Loop, owner: map<Inst, nat>, edges: seq<Edge>, i: nat, x: Inst)
    requires EdgesInside(l, edges) && x in l.parent && x in owner && owner[x] == i
    ensures l.parent[x] in Relevant(l, owner, edges, i)
  {
    assert x in Owned(l, owner, i);
  }

  lemma ServedAt(p: Plan, e: Edge, to: nat)
    requires Owns(p) && e.u in p.l.parent && Served(p, e) && p.owner[e.u] < to && p.HasCopy(to, e.v)
    ensures p.Keeps(to, p.l.parent[e.u])
  {
    assert Placeable(p, e, to);
  }

  lemma FedServed(p: Plan, edges: seq<Edge>)
    requires Owns(p) && EdgesInside(p.l, edges) && KeepsRelevant(p, edges) && TermsFed(p, edges)
    requires forall i :: 0 <= i < |p.kept| ==> EdgeClosed(p.l, p.owner, edges, i)
    ensures AllServed(p, edges, |edges|)
  {
    hide Relevant, Placeable, KeepsRelevant, TermsFed, EdgeClosed;
    forall j | 0 <= j < |edges| ensures edges[j] in edges && Served(p, edges[j]) {
      var e := edges[j];
      assert e in edges;
      forall to: nat | p.owner[e.u] < to ensures Placeable(p, e, to) { FedPlace(p, edges, e, to); }
    }
  }

  lemma FedPlace(p: Plan, edges: seq<Edge>, e: Edge, to: nat)
    requires Owns(p) && EdgesInside(p.l, edges) && KeepsRelevant(p, edges) && TermsFed(p, edges) && e in edges
    requires to < |p.kept| ==> EdgeClosed(p.l, p.owner, edges, to)
    requires p.owner[e.u] < to
    ensures Placeable(p, e, to)
  {
    hide Relevant;
    if p.HasCopy(to, e.v) && p.owner[e.v] == to { SourceRelevant(p.l, p.owner, edges, to, e); }
  }

  lemma SourceRelevant(l: Loop, owner: map<Inst, nat>, edges: seq<Edge>, i: nat, e: Edge)
    requires EdgesInside(l, edges) && e in edges && e.v in owner && owner[e.v] == i
    ensures l.parent[e.u] in Relevant(l, owner, edges, i)
  {
    assert e.v in Owned(l, owner, i);
  }

  // ---- the final plan ----

  lemma RankSame(p: Plan, p': Plan, op: Op)
    requires p.Shape() && p'.Shape() && p.l == p'.l && p.owner == p'.owner && p.kept == p'.kept && p.chans == p'.chans
    requires p.Known(op)
    ensures p'.Known(op) && p.Rank(op) == p'.Rank(op)
  {
    if op.Consume? {
      assert p.chans[op.chan] in p.chans;
      var u := p.chans[op.chan].u;
      NextSame(p, p', p.chans[op.chan].to, p.l.parent[u], p.l.Idx(u));
    }
  }

  lemma GoodListSame(p: Plan, p': Plan, i: nat, b: Block, ops: seq<Op>)
    requires p.Shape() && p'.Shape() && p.l == p'.l && p.owner == p'.owner && p.kept == p'.kept && p.chans == p'.chans
    requires p.GoodList(i, b, ops)
    ensures p'.GoodList(i, b, ops)
  {
    forall op ensures p.Belongs(i, b, op) <==> p'.Belongs(i, b, op) {}
    forall x: nat, y: nat | x < y < |ops| && p'.Known(ops[x]) && p'.Known(ops[y]) ensures p'.Rank(ops[x]) <= p'.Rank(ops[y]) {
      RankSame(p, p', ops[x]);
      RankSame(p, p', ops[y]);
    }
  }

  lemma FinalCode(now: Plan, final: Plan, code: seq<map<Block, seq<Op>>>)
    requires now.Shape() && final.l == now.l && final.owner == now.owner && final.kept == now.kept
    requires final.chans == now.chans
    requires final.code == code && |code| == |now.kept|
    requires forall i: nat, b :: now.Keeps(i, b) ==> i < |code| && b in code[i] && now.GoodList(i, b, code[i][b])
    ensures final.GoodCode()
  {
    forall i: nat, b | final.Keeps(i, b) ensures b in final.l.blocks { assert now.Keeps(i, b); }
    assert final.Shape();
    hide Plan.Shape, Plan.GoodList;
    forall i: nat, b | final.Keeps(i, b) ensures final.GoodList(i, b, final.Code(i, b)) {
      assert now.Keeps(i, b);
      GoodListSame(now, final, i, b, code[i][b]);
    }
  }

  lemma FinalTargets(l: Loop, owner: map<Inst, nat>, ip: map<Block, Block>, kept: seq<set<Block>>, code: seq<map<Block, seq<Op>>>,
                     targets: seq<map<Block, seq<Block>>>, places: seq<map<Inst, Inst>>, inst: seq<set<Inst>>, final: Plan)
    requires AllMade(l, owner, ip, kept, code, targets, places, inst)
    requires final.l == l && final.kept == kept && final.targets == targets && final.Shape()
    ensures final.GoodTargets(ip)
  {
    hide Climb, Usable, IsIPDom;
    forall i: nat, b | final.Keeps(i, b)
      ensures b in l.blocks && b in targets[i] && Retargeted(l, ip, kept[i], b, targets[i][b])
    {
      assert ThreadSplit(Bare(l, owner), ip, i, kept[i], kept[i], code[i], targets[i], places[i], inst[i]);
    }
  }

  /** A thread decides only branches whose terminator is its own or an earlier thread's. */
  lemma FinalBranches(l: Loop, owner: map<Inst, nat>, edges: seq<Edge>, ip: map<Block, Block>, final: Plan, i: nat, b: Block)
    requires Setting(l, owner, edges) && IsIPDom(LoopGraph(l), ip) && final.l == l && final.Shape()
    requires final.GoodTargets(ip)
    requires final.owner == owner && final.Keeps(i, b) && final.kept[i] == Relevant(l, owner, edges, i)
    ensures b in l.blocks && l.Term(b) in owner
    ensures owner[l.Term(b)] <= i || forall t :: t in final.Targets(i, b) ==> t == final.Targets(i, b)[0]
  {
    assert b in l.blocks;
    l.IdxIs(b, |l.body[b]| - 1);
    hide Usable, IsIPDom, ControlComplete, Relevant, Climb, Rising, EdgesInside;
    var ts := final.Targets(i, b);
    if t :| t in ts && t != ts[0] {
      var j :| 0 <= j < |ts| && ts[j] == t;
      assert l.succ[b][0] in l.succ[b] && l.succ[b][j] in l.succ[b];
      BranchAvailable(l, owner, edges, ip, i, b, l.succ[b][0], l.succ[b][j]);
    }
  }
}
