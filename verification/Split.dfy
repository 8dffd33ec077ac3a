/** Splitting the loop into the worker functions (DSWP_4.cpp:194-394): which blocks a thread keeps, what it copies
    into them, where its branches go, and where things that it does not copy would have stood. */
module Split {
  import opened Ir
  import opened PostDominance
  import opened PeeledLoop
  import opened Slicing
  import opened Plan

  /** Blocks of the instructions `xs` and, one level up the dependence graph, of what they depend on. */
  ghost function BlocksFor(l: Loop, edges: seq<Edge>, xs: set<Inst>): set<Block>
    requires forall x :: x in xs ==> x in l.parent
    requires forall e :: e in edges ==> e.u in l.parent
  {
    (set x | x in xs :: l.parent[x]) + (set e | e in edges && e.v in xs :: l.parent[e.u])
  }

  lemma BlocksForMore(l: Loop, edges: seq<Edge>, xs: set<Inst>, x: Inst)
    requires (forall y :: y in xs ==> y in l.parent) && x in l.parent
    requires forall e :: e in edges ==> e.u in l.parent
    ensures BlocksFor(l, edges, xs + {x}) ==
              BlocksFor(l, edges, xs) + {l.parent[x]} + set e | e in edges && e.v == x :: l.parent[e.u]
  {
  }

  ghost function Owned(l: Loop, owner: map<Inst, nat>, i: nat): set<Inst> {
    set x | x in l.parent && x in owner && owner[x] == i
  }

  ghost predicate EdgesInside(l: Loop, edges: seq<Edge>) {
    forall e :: e in edges ==> e.u in l.parent && e.v in l.parent
  }

  /** The blocks relevant to thread `i`. */
  ghost function Relevant(l: Loop, owner: map<Inst, nat>, edges: seq<Edge>, i: nat): set<Block>
    requires EdgesInside(l, edges)
  {
    BlocksFor(l, edges, Owned(l, owner, i))
  }

  /** The blocks of the threads from `i` on, as far as the first thread that has none. */
  ghost function ActiveFrom(l: Loop, owner: map<Inst, nat>, edges: seq<Edge>, threads: nat, i: nat): seq<set<Block>>
    requires EdgesInside(l, edges)
    decreases threads - i
  {
    if i >= threads || Relevant(l, owner, edges, i) == {} then []
    else [Relevant(l, owner, edges, i)] + ActiveFrom(l, owner, edges, threads, i + 1)
  }

  /** The blocks of each thread that gets a function. */
  ghost function Active(l: Loop, owner: map<Inst, nat>, edges: seq<Edge>, threads: nat): seq<set<Block>>
    requires EdgesInside(l, edges)
  {
    ActiveFrom(l, owner, edges, threads, 0)
  }

  lemma {:induction false} ActiveAt(l: Loop, owner: map<Inst, nat>, edges: seq<Edge>, threads: nat, i: nat, k: nat)
    requires EdgesInside(l, edges) && k < |ActiveFrom(l, owner, edges, threads, i)|
    ensures ActiveFrom(l, owner, edges, threads, i)[k] == Relevant(l, owner, edges, i + k) != {}
    decreases k
  {
    hide Relevant, EdgesInside;
    if k > 0 { ActiveAt(l, owner, edges, threads, i + 1, k - 1); }
  }

  lemma {:induction false} ActiveSize(l: Loop, owner: map<Inst, nat>, edges: seq<Edge>, threads: nat, i: nat)
    requires EdgesInside(l, edges) && i <= threads
    ensures var m := i + |ActiveFrom(l, owner, edges, threads, i)|;
            m == threads || (m < threads && Relevant(l, owner, edges, m) == {})
    decreases threads - i
  {
    hide Relevant, EdgesInside;
    if i < threads && Relevant(l, owner, edges, i) != {} { ActiveSize(l, owner, edges, threads, i + 1); }
  }

  /** The threads with blocks, in order, up to the first without. */
  lemma ActiveIs(l: Loop, owner: map<Inst, nat>, edges: seq<Edge>, threads: nat)
    requires EdgesInside(l, edges)
    ensures var r := Active(l, owner, edges, threads);
            && |r| <= threads
            && (forall k :: 0 <= k < |r| ==> r[k] == Relevant(l, owner, edges, k) != {})
            && (|r| == threads || Relevant(l, owner, edges, |r|) == {})
  {
    hide Relevant, EdgesInside, ActiveFrom;
    ActiveSize(l, owner, edges, threads, 0);
    forall k: nat | k < |Active(l, owner, edges, threads)|
      ensures Active(l, owner, edges, threads)[k] == Relevant(l, owner, edges, k) != {}
    {
      ActiveAt(l, owner, edges, threads, 0, k);
    }
  }

  /** `kept` are the blocks of the first threads. */
  ghost predicate ActiveSoFar(l: Loop, owner: map<Inst, nat>, edges: seq<Edge>, threads: nat, kept: seq<set<Block>>)
    requires EdgesInside(l, edges)
  {
    |kept| <= threads && Active(l, owner, edges, threads) == kept + ActiveFrom(l, owner, edges, threads, |kept|)
  }

  /** Every thread keeps the loop header. */
  predicate Headed(l: Loop, kept: seq<set<Block>>) {
    forall i :: 0 <= i < |kept| ==> l.header in kept[i]
  }

  lemma Headless(l: Loop, kept: seq<set<Block>>, i: nat)
    requires i < |kept| && l.header !in kept[i]
    ensures !Headed(l, kept)
  {
  }

  lemma ActiveStart(l: Loop, owner: map<Inst, nat>, edges: seq<Edge>, threads: nat)
    requires EdgesInside(l, edges)
    ensures ActiveSoFar(l, owner, edges, threads, [])
  {
  }

  lemma ActiveNext(l: Loop, owner: map<Inst, nat>, edges: seq<Edge>, threads: nat, kept: seq<set<Block>>)
    requires EdgesInside(l, edges) && ActiveSoFar(l, owner, edges, threads, kept) && |kept| < threads
    ensures var r, all := Relevant(l, owner, edges, |kept|), Active(l, owner, edges, threads);
            && (r == {} ==> all == kept)
            && (r != {} ==> |kept| < |all| && all[|kept|] == r && ActiveSoFar(l, owner, edges, threads, kept + [r]))
  {
    hide Relevant, Active;
  }

  lemma ActiveAll(l: Loop, owner: map<Inst, nat>, edges: seq<Edge>, threads: nat, kept: seq<set<Block>>)
    requires EdgesInside(l, edges) && ActiveSoFar(l, owner, edges, threads, kept) && |kept| == threads
    ensures Active(l, owner, edges, threads) == kept
  {
    hide Relevant, Active;
  }

  /** The copies of thread `i` among the instructions `xs`, in their order. */
  ghost function Copies(p: Plan, i: nat, xs: seq<Inst>): seq<Op>
    requires p.l.Valid() && forall x :: x in xs ==> x in p.l.parent && x in p.owner
  {
    if xs == [] then []
    else Copies(p, i, xs[..|xs| - 1]) + if p.Cloned(i, xs[|xs| - 1]) then [Clone(xs[|xs| - 1])] else []
  }

  /** What copying the first `k` instructions of block `b` into thread `i` leaves: the copies, the instructions since
      the last copy pending, and each earlier one that was left out standing for the next copy. */
  ghost predicate CopiedTo(p: Plan, i: nat, b: Block, k: nat, ops: seq<Op>, place: map<Inst, Inst>, pending: seq<Inst>)
    requires p.l.Valid() && b in p.l.blocks && k <= |p.l.body[b]| && forall x :: x in p.l.parent ==> x in p.owner
  {
    var xs := p.l.body[b];
    && ops == Copies(p, i, xs[..k])
    && |pending| <= k && pending == xs[k - |pending|..k] && (forall x :: x in pending ==> !p.Cloned(i, x))
    && (forall j :: 0 <= j < k - |pending| ==> StandsFor(p, i, b, j, place))
  }

  /** If the instruction with index `j` is left out, the place where it would have stood is the next copy. */
  ghost predicate StandsFor(p: Plan, i: nat, b: Block, j: nat, place: map<Inst, Inst>)
    requires p.l.Valid() && b in p.l.blocks && j < |p.l.body[b]| && forall x :: x in p.l.parent ==> x in p.owner
  {
    var xs := p.l.body[b];
    p.Cloned(i, xs[j]) || (xs[j] in place && place[xs[j]] == xs[p.NextCloned(i, b, j)])
  }

  /** Thread `i`'s copy of block `b` is complete. */
  ghost predicate BlockCopied(p: Plan, i: nat, b: Block, ops: seq<Op>, place: map<Inst, Inst>)
    requires p.l.Valid() && b in p.l.blocks && forall x :: x in p.l.parent ==> x in p.owner
  {
    ops == Copies(p, i, p.l.body[b]) && forall j :: 0 <= j < |p.l.body[b]| ==> StandsFor(p, i, b, j, place)
  }

  /** A plan that has only the loop and the owners: enough to say what is copied where. */
  ghost function Bare(l: Loop, owner: map<Inst, nat>): Plan {
    Plan(l, owner, [], [], [], [])
  }

  function PointAll(place: map<Inst, Inst>, xs: seq<Inst>, x: Inst): map<Inst, Inst> {
    place + map y | y in xs :: x
  }

  lemma CopiedSkip(p: Plan, i: nat, b: Block, k: nat, ops: seq<Op>, place: map<Inst, Inst>, pending: seq<Inst>)
    requires p.l.Valid() && b in p.l.blocks && k < |p.l.body[b]| && forall x :: x in p.l.parent ==> x in p.owner
    requires CopiedTo(p, i, b, k, ops, place, pending) && p.l.body[b][k] in p.l.parent && !p.Cloned(i, p.l.body[b][k])
    ensures CopiedTo(p, i, b, k + 1, ops, place, pending + [p.l.body[b][k]])
  {
    var xs := p.l.body[b];
    hide StandsFor, Loop.Valid, Plan.Cloned, Copies;
    CopiesSkip(p, i, xs, k);
    StretchOn(xs, k - |pending|, k);
    var pending' := pending + [xs[k]];
    assert k + 1 - |pending'| == k - |pending|;
  }

  lemma StretchOn<T>(xs: seq<T>, j: nat, k: nat)
    requires j <= k < |xs|
    ensures xs[j..k] + [xs[k]] == xs[j..k + 1]
  {
  }

  lemma CopiesSkip(p: Plan, i: nat, xs: seq<Inst>, k: nat)
    requires p.l.Valid() && k < |xs| && (forall x :: x in xs ==> x in p.l.parent && x in p.owner) && !p.Cloned(i, xs[k])
    ensures Copies(p, i, xs[..k + 1]) == Copies(p, i, xs[..k])
  {
    hide Loop.Valid, Plan.Cloned;
    assert xs[..k + 1][..k] == xs[..k];
  }

  /** An instruction left out with no copy up to `k` stands for the copy at `k`. */
  lemma NextIs(p: Plan, i: nat, b: Block, j: nat, k: nat)
    requires p.l.Valid() && b in p.l.blocks && j <= k < |p.l.body[b]| && forall x :: x in p.l.parent ==> x in p.owner
    requires forall m :: j <= m < k ==> p.l.body[b][m] in p.l.parent && !p.Cloned(i, p.l.body[b][m])
    requires p.l.body[b][k] in p.l.parent && p.Cloned(i, p.l.body[b][k])
    ensures p.NextCloned(i, b, j) == k
  {
  }

  lemma CopiedCopy(p: Plan, i: nat, b: Block, k: nat, ops: seq<Op>, place: map<Inst, Inst>, pending: seq<Inst>)
    requires p.l.Valid() && b in p.l.blocks && k < |p.l.body[b]| && forall x :: x in p.l.parent ==> x in p.owner
    requires CopiedTo(p, i, b, k, ops, place, pending) && p.l.body[b][k] in p.l.parent && p.Cloned(i, p.l.body[b][k])
    ensures CopiedTo(p, i, b, k + 1, ops + [Clone(p.l.body[b][k])], PointAll(place, pending, p.l.body[b][k]), [])
  {
    var xs := p.l.body[b];
    var place' := PointAll(place, pending, xs[k]);
    assert xs[..k + 1][..k] == xs[..k];
    forall j: nat | j < k + 1 ensures StandsFor(p, i, b, j, place') {
      if k - |pending| <= j < k {
        PendingStands(p, i, b, j, k, place, pending);
      } else if j < k {
        EarlierStands(p, i, b, j, k, place, pending);
      }
    }
    hide StandsFor, Loop.Valid, Plan.Cloned, PointAll;
  }

  lemma PendingStands(p: Plan, i: nat, b: Block, j: nat, k: nat, place: map<Inst, Inst>, pending: seq<Inst>)
    requires p.l.Valid() && b in p.l.blocks && k < |p.l.body[b]| && forall x :: x in p.l.parent ==> x in p.owner
    requires |pending| <= k && pending == p.l.body[b][k - |pending|..k]
    requires (forall x :: x in pending ==> x in p.l.parent && !p.Cloned(i, x))
    requires p.l.body[b][k] in p.l.parent && p.Cloned(i, p.l.body[b][k]) && k - |pending| <= j < k
    ensures StandsFor(p, i, b, j, PointAll(place, pending, p.l.body[b][k]))
  {
    var xs := p.l.body[b];
    forall m | j <= m < k ensures xs[m] in pending { assert xs[m] == pending[m - (k - |pending|)]; }
    NextIs(p, i, b, j, k);
  }

  lemma EarlierStands(p: Plan, i: nat, b: Block, j: nat, k: nat, place: map<Inst, Inst>, pending: seq<Inst>)
    requires p.l.Valid() && b in p.l.blocks && k < |p.l.body[b]| && forall x :: x in p.l.parent ==> x in p.owner
    requires |pending| <= k && pending == p.l.body[b][k - |pending|..k] && j < k - |pending|
    requires StandsFor(p, i, b, j, place)
    ensures StandsFor(p, i, b, j, PointAll(place, pending, p.l.body[b][k]))
  {
    var xs := p.l.body[b];
    forall m | 0 <= m < |pending| ensures pending[m] != xs[j] { assert pending[m] == xs[k - |pending| + m]; }
  }

  /** The last instruction is copied, so at the end nothing is pending. */
  lemma CopiedAll(p: Plan, i: nat, b: Block, ops: seq<Op>, place: map<Inst, Inst>, pending: seq<Inst>)
    requires p.l.Valid() && b in p.l.blocks && forall x :: x in p.l.parent ==> x in p.owner
    requires CopiedTo(p, i, b, |p.l.body[b]|, ops, place, pending)
    ensures pending == [] && BlockCopied(p, i, b, ops, place)
  {
    var xs := p.l.body[b];
    assert xs[..|xs|] == xs;
    assert |pending| > 0 ==> pending[|pending| - 1] == xs[|xs| - 1];
    p.l.IdxIs(b, |xs| - 1);
  }

  /** Where thread `i`'s copy of the branch of `b` leads. */
  ghost predicate Retargeted(l: Loop, ip: map<Block, Block>, relbb: set<Block>, b: Block, ts: seq<Block>)
    requires l.Valid() && Usable(LoopGraph(l)) && IsIPDom(LoopGraph(l), ip) && b in l.blocks
  {
    && |ts| == |l.succ[b]|
    && forall j :: 0 <= j < |ts| ==>
         && l.succ[b][j] in LoopGraph(l).nodes
         && ts[j] == Climb(LoopGraph(l), ip, relbb, l.succ[b][j])
  }

  /** The instructions of `b` that thread `i` copies. */
  ghost function CopiedOf(p: Plan, i: nat, b: Block): set<Inst>
    requires p.l.Valid() && b in p.l.blocks && forall x :: x in p.l.parent ==> x in p.owner
  {
    set x | x in p.l.body[b] && p.Cloned(i, x)
  }

  /** Thread `i`'s function as far as the blocks `done` go. */
  ghost predicate ThreadSplit(p: Plan, ip: map<Block, Block>, i: nat, relbb: set<Block>, done: set<Block>,
                              lists: map<Block, seq<Op>>, ts: map<Block, seq<Block>>, place: map<Inst, Inst>, inst: set<Inst>)
    requires p.l.Valid() && Usable(LoopGraph(p.l)) && IsIPDom(LoopGraph(p.l), ip)
    requires forall x :: x in p.l.parent ==> x in p.owner
  {
    && (forall b :: b in done <==> b in lists) && (forall b :: b in done <==> b in ts)
    && (forall b :: b in done ==> b in p.l.blocks)
    && (forall b :: b in done ==> BlockCopied(p, i, b, lists[b], place))
    && (forall b :: b in done ==> Retargeted(p.l, ip, relbb, b, ts[b]))
    && (forall x :: x in inst <==> x in p.l.parent && p.l.parent[x] in done && p.Cloned(i, x))
    && (forall x :: x in place ==> x in p.l.parent && p.l.parent[x] in done && !p.Cloned(i, x))
  }

  /** Only instructions of `b` that are left out have been added. */
  ghost predicate PlacesAdded(p: Plan, i: nat, b: Block, place: map<Inst, Inst>, place': map<Inst, Inst>)
    requires p.l.Valid() && b in p.l.blocks && forall x :: x in p.l.parent ==> x in p.owner
  {
    && (forall x :: x !in p.l.body[b] ==> SamePlace(place, place', x))
    && forall x :: x in place' ==> x in place || (x in p.l.parent && p.l.parent[x] == b && !p.Cloned(i, x))
  }

  lemma PlacesTrans(p: Plan, i: nat, b: Block, place: map<Inst, Inst>, place': map<Inst, Inst>, place'': map<Inst, Inst>)
    requires p.l.Valid() && b in p.l.blocks && forall x :: x in p.l.parent ==> x in p.owner
    requires PlacesAdded(p, i, b, place, place') && PlacesAdded(p, i, b, place', place'')
    ensures PlacesAdded(p, i, b, place, place'')
  {
    hide Plan.Cloned;
    forall x | x !in p.l.body[b] ensures SamePlace(place, place'', x) {
      assert SamePlace(place, place', x) && SamePlace(place', place'', x);
    }
  }

  lemma BlockFrame(p: Plan, i: nat, b: Block, ops: seq<Op>, place: map<Inst, Inst>, place': map<Inst, Inst>)
    requires p.l.Valid() && b in p.l.blocks && forall x :: x in p.l.parent ==> x in p.owner
    requires BlockCopied(p, i, b, ops, place) && forall x :: x in p.l.body[b] ==> SamePlace(place, place', x)
    ensures BlockCopied(p, i, b, ops, place')
  {
    hide Plan.Cloned, Plan.NextCloned, Copies, SamePlace, StandsFor;
    forall j: nat | j < |p.l.body[b]| ensures StandsFor(p, i, b, j, place') {
      assert p.l.body[b][j] in p.l.body[b];
      StandsStill(p, i, b, j, place, place');
    }
  }

  lemma StandsStill(p: Plan, i: nat, b: Block, j: nat, place: map<Inst, Inst>, place': map<Inst, Inst>)
    requires p.l.Valid() && b in p.l.blocks && j < |p.l.body[b]| && forall x :: x in p.l.parent ==> x in p.owner
    requires StandsFor(p, i, b, j, place) && SamePlace(place, place', p.l.body[b][j])
    ensures StandsFor(p, i, b, j, place')
  {
  }

  /** Adding one more block. */
  lemma ThreadStep(p: Plan, ip: map<Block, Block>, i: nat, relbb: set<Block>, done: set<Block>, lists: map<Block, seq<Op>>,
                   ts: map<Block, seq<Block>>, place: map<Inst, Inst>, inst: set<Inst>, b: Block, ops: seq<Op>,
                   t: seq<Block>, place': map<Inst, Inst>)
    requires p.l.Valid() && Usable(LoopGraph(p.l)) && IsIPDom(LoopGraph(p.l), ip)
    requires forall x :: x in p.l.parent ==> x in p.owner
    requires ThreadSplit(p, ip, i, relbb, done, lists, ts, place, inst) && b !in done && b in p.l.blocks
    requires BlockCopied(p, i, b, ops, place') && PlacesAdded(p, i, b, place, place')
    requires Retargeted(p.l, ip, relbb, b, t)
    ensures ThreadSplit(p, ip, i, relbb, done + {b}, lists[b := ops], ts[b := t], place', inst + CopiedOf(p, i, b))
  {
    hide Retargeted, BlockCopied, Usable, IsIPDom, Plan.Cloned, CopiedOf, SamePlace, Loop.Valid;
    CopiedOfIs(p, i, b);
    forall b' | b' in done ensures BlockCopied(p, i, b', lists[b'], place') {
      OtherBlock(p.l, b, b');
      BlockFrame(p, i, b', lists[b'], place, place');
    }
  }

  lemma ThreadStart(p: Plan, ip: map<Block, Block>, i: nat, relbb: set<Block>)
    requires p.l.Valid() && Usable(LoopGraph(p.l)) && IsIPDom(LoopGraph(p.l), ip)
    requires forall x :: x in p.l.parent ==> x in p.owner
    ensures ThreadSplit(p, ip, i, relbb, {}, map[], map[], map[], {})
  {
    hide Usable, IsIPDom, Loop.Valid;
  }

  lemma OtherBlock(l: Loop, b: Block, b': Block)
    requires l.Valid() && b in l.blocks && b' in l.blocks && b != b'
    ensures forall x :: x in l.body[b'] ==> x !in l.body[b]
  {
    forall x | x in l.body[b'] ensures x !in l.body[b] { assert l.parent[x] == b'; }
  }

  lemma CopiedOfIs(p: Plan, i: nat, b: Block)
    requires p.l.Valid() && b in p.l.blocks && forall x :: x in p.l.parent ==> x in p.owner
    ensures forall x :: x in CopiedOf(p, i, b) <==> x in p.l.parent && p.l.parent[x] == b && p.Cloned(i, x)
  {
    hide Plan.Cloned;
  }

  ghost function CopiedFirst(p: Plan, i: nat, b: Block, k: nat): set<Inst>
    requires p.l.Valid() && b in p.l.blocks && k <= |p.l.body[b]| && forall x :: x in p.l.parent ==> x in p.owner
  {
    set x | x in p.l.body[b][..k] && p.Cloned(i, x)
  }

  lemma CopiedFirstStep(p: Plan, i: nat, b: Block, k: nat)
    requires p.l.Valid() && b in p.l.blocks && k < |p.l.body[b]| && forall x :: x in p.l.parent ==> x in p.owner
    ensures p.l.body[b][k] in p.l.parent
    ensures CopiedFirst(p, i, b, k + 1) == CopiedFirst(p, i, b, k) + if p.Cloned(i, p.l.body[b][k]) then {p.l.body[b][k]} else {}
    ensures CopiedFirst(p, i, b, |p.l.body[b]|) == CopiedOf(p, i, b) && CopiedFirst(p, i, b, 0) == {}
  {
    var xs := p.l.body[b];
    p.l.IdxIs(b, k);
    hide Loop.Valid, Plan.Cloned;
    assert xs[..k + 1] == xs[..k] + [xs[k]] && xs[..|xs|] == xs;
  }

  /** Everything that holds after the first `k` instructions. */
  ghost predicate CopyState(p: Plan, i: nat, b: Block, k: nat, place0: map<Inst, Inst>,
                            ops: seq<Op>, place: map<Inst, Inst>, pending: seq<Inst>, copied: set<Inst>)
    requires p.l.Valid() && b in p.l.blocks && k <= |p.l.body[b]| && forall x :: x in p.l.parent ==> x in p.owner
  {
    CopiedTo(p, i, b, k, ops, place, pending) && copied == CopiedFirst(p, i, b, k) && PlacesAdded(p, i, b, place0, place)
  }

  lemma CopyStart(p: Plan, i: nat, b: Block, place0: map<Inst, Inst>)
    requires p.l.Valid() && b in p.l.blocks && forall x :: x in p.l.parent ==> x in p.owner
    ensures CopyState(p, i, b, 0, place0, [], place0, [], {})
  {
  }

  lemma CopyStep(p: Plan, i: nat, b: Block, k: nat, place0: map<Inst, Inst>,
                 ops: seq<Op>, place: map<Inst, Inst>, pending: seq<Inst>, copied: set<Inst>)
    requires p.l.Valid() && b in p.l.blocks && k < |p.l.body[b]| && forall x :: x in p.l.parent ==> x in p.owner
    requires CopyState(p, i, b, k, place0, ops, place, pending, copied)
    ensures var x := p.l.body[b][k];
      && x in p.l.parent
      && (!p.Cloned(i, x) ==> CopyState(p, i, b, k + 1, place0, ops, place, pending + [x], copied))
      && (p.Cloned(i, x) ==> CopyState(p, i, b, k + 1, place0, ops + [Clone(x)], PointAll(place, pending, x), [], copied + {x}))
  {
    var x := p.l.body[b][k];
    hide CopiedTo, Plan.Cloned, PointAll, PlacesAdded, CopiedFirst, Loop.Valid;
    CopiedFirstStep(p, i, b, k);
    if p.Cloned(i, x) {
      CopiedCopy(p, i, b, k, ops, place, pending);
      PointFrame(p, i, b, k, ops, place, pending);
      PlacesTrans(p, i, b, place0, place, PointAll(place, pending, x));
    } else {
      CopiedSkip(p, i, b, k, ops, place, pending);
    }
  }

  lemma CopyEnd(p: Plan, i: nat, b: Block, place0: map<Inst, Inst>,
                ops: seq<Op>, place: map<Inst, Inst>, pending: seq<Inst>, copied: set<Inst>)
    requires p.l.Valid() && b in p.l.blocks && forall x :: x in p.l.parent ==> x in p.owner
    requires CopyState(p, i, b, |p.l.body[b]|, place0, ops, place, pending, copied)
    ensures BlockCopied(p, i, b, ops, place) && copied == CopiedOf(p, i, b) && PlacesAdded(p, i, b, place0, place)
  {
    hide CopiedTo, Plan.Cloned, PlacesAdded, BlockCopied;
    CopiedAll(p, i, b, ops, place, pending);
    CopiedFirstStep(p, i, b, 0);
  }

  class Splitter {
    const l: Loop
    const rev: map<Inst, seq<Edge>>
    const sccId: map<Inst, nat>
    const placed: seq<int>
    const part: seq<seq<nat>>
    const instInScc: seq<seq<Inst>>
    const postidom: map<Block, Block>
    const threads: nat
    ghost const edges: seq<Edge>

    var instMap: seq<set<Inst>>
    var placeEquivalents: seq<map<Inst, Inst>>
    var kept: seq<set<Block>>
    var code: seq<map<Block, seq<Op>>>
    var targets: seq<map<Block, seq<Block>>>

    constructor (l: Loop, rev: map<Inst, seq<Edge>>, sccId: map<Inst, nat>, placed: seq<int>, part: seq<seq<nat>>,
                 instInScc: seq<seq<Inst>>, postidom: map<Block, Block>, threads: nat, ghost edges: seq<Edge>)
      ensures this.l == l && this.rev == rev && this.sccId == sccId && this.placed == placed && this.part == part
      ensures this.instInScc == instInScc && this.postidom == postidom && this.threads == threads && this.edges == edges
      ensures instMap == [] && placeEquivalents == [] && kept == [] && code == [] && targets == []
    {
      this.l, this.rev, this.sccId, this.placed, this.part := l, rev, sccId, placed, part;
      this.instInScc, this.postidom, this.threads, this.edges := instInScc, postidom, threads, edges;
      instMap, placeEquivalents, kept, code, targets := [], [], [], [], [];
    }

    function In(v: Inst): seq<Edge> { ListAt(rev, v) }

    /** What the earlier phases hand over. */
    ghost predicate Given() {
      && l.Valid() && EdgesInside(l, edges)
      && (forall x :: x in l.parent <==> x in sccId)
      && (forall x :: x in sccId ==> sccId[x] < |placed|)
      && |instInScc| == |placed| && |part| == threads
      && (forall v :: 0 <= v < |placed| ==> 0 <= placed[v] < threads)
      && (forall t, v: nat {:trigger v in part[t]} :: 0 <= t < threads ==> (v in part[t] <==> v < |placed| && placed[v] == t))
      && (forall k, x :: 0 <= k < |instInScc| ==> (x in instInScc[k] <==> x in sccId && sccId[x] == k))
      && (forall v, e :: e in In(v) <==> e.u == v && Edge(e.v, v, e.dtype) in edges)
    }

    /** getInstAssigned (DSWP_3.cpp:190-192). */
    function Owner(): (m: map<Inst, nat>)
      requires forall x :: x in l.parent ==> x in sccId && sccId[x] < |placed| && 0 <= placed[sccId[x]]
      ensures forall x :: x in m <==> x in l.parent
    {
      map x | x in l.parent :: placed[sccId[x]]
    }

    lemma PartMember(i: nat, a: nat)
      requires Given() && i < threads && a < |part[i]|
      ensures part[i][a] < |placed| && placed[part[i][a]] == i
    {
      assert part[i][a] in part[i];
    }

    /** `seen` are the instructions of the first `a` components of thread `i`. */
    ghost predicate SeenTo(i: nat, a: nat, seen: set<Inst>)
      requires Given() && i < threads && a <= |part[i]|
    {
      forall x :: x in seen <==> x in l.parent && sccId[x] in part[i][..a]
    }

    lemma SeenStep(i: nat, a: nat, seen: set<Inst>)
      requires Given() && i < threads && a < |part[i]| && SeenTo(i, a, seen)
      ensures part[i][a] < |instInScc| && SeenTo(i, a + 1, seen + set x | x in instInScc[part[i][a]])
      ensures forall x :: x in instInScc[part[i][a]] ==> x in l.parent
    {
      PartMember(i, a);
      assert part[i][..a + 1] == part[i][..a] + [part[i][a]];
    }

    lemma SeenAll(i: nat, seen: set<Inst>)
      requires Given() && i < threads && SeenTo(i, |part[i]|, seen)
      ensures seen == Owned(l, Owner(), i)
    {
      assert part[i][..|part[i]|] == part[i];
    }

    method RelevantBlocks(i: nat) returns (relbb: set<Block>)
      requires Given() && i < threads
      ensures relbb == Relevant(l, Owner(), edges, i)
    {
      relbb := {};
      ghost var seen: set<Inst> := {};
      assert BlocksFor(l, edges, seen) == {};
      hide BlocksFor;
      for a := 0 to |part[i]|
        invariant SeenTo(i, a, seen) && (forall x :: x in seen ==> x in l.parent) && relbb == BlocksFor(l, edges, seen)
      {
        SeenStep(i, a, seen);
        hide Given, SeenTo;
        var insts := instInScc[part[i][a]];
        relbb := RelateAll(insts, relbb, seen);
        seen := seen + set x | x in insts;
      }
      SeenAll(i, seen);
    }

    method RelateAll(insts: seq<Inst>, relbb: set<Block>, ghost seen: set<Inst>) returns (r: set<Block>)
      requires Given() && (forall y :: y in seen ==> y in l.parent) && relbb == BlocksFor(l, edges, seen)
      requires forall x :: x in insts ==> x in l.parent
      ensures r == BlocksFor(l, edges, seen + set x | x in insts)
    {
      r := relbb;
      hide BlocksFor, Loop.Valid;
      ghost var all := seen;
      for c := 0 to |insts|
        invariant forall y :: y in all <==> y in seen || y in insts[..c]
        invariant r == BlocksFor(l, edges, all)
      {
        assert insts[c] in insts && insts[..c + 1] == insts[..c] + [insts[c]];
        RelatedTo(insts[c], all);
        r := RelateInst(insts[c], r);
        all := all + {insts[c]};
      }
      assert insts[..|insts|] == insts;
      assert all == seen + set x | x in insts;
    }

    /** `rev` gives the blocks of what `x` depends on. */
    lemma RevBlocks(x: Inst)
      requires Given()
      ensures forall e :: e in In(x) ==> e.v in l.parent
      ensures (set e | e in In(x) :: l.parent[e.v]) == (set e | e in edges && e.v == x :: l.parent[e.u])
    {
      var es := In(x);
      forall e | e in es ensures e.v in l.parent { assert Edge(e.v, x, e.dtype) in edges; }
      forall e | e in edges && e.v == x ensures l.parent[e.u] in set e | e in es :: l.parent[e.v] {
        assert Edge(x, e.u, e.dtype) in es;
      }
      forall e | e in es ensures l.parent[e.v] in set e | e in edges && e.v == x :: l.parent[e.u] {
        assert Edge(e.v, x, e.dtype) in edges;
      }
    }

    ghost function FirstBlocks(es: seq<Edge>, k: nat): set<Block>
      requires k <= |es| && forall e :: e in es ==> e.v in l.parent
    {
      set e | e in es[..k] :: l.parent[e.v]
    }

    method RelateInst(x: Inst, relbb: set<Block>) returns (r: set<Block>)
      requires x in l.parent && forall e :: e in In(x) ==> e.v in l.parent
      ensures r == relbb + {l.parent[x]} + FirstBlocks(In(x), |In(x)|)
    {
      var es := In(x);
      r := relbb + {l.parent[x]};
      for k := 0 to |es|
        invariant r == relbb + {l.parent[x]} + FirstBlocks(es, k)
      {
        assert es[..k + 1] == es[..k] + [es[k]];
        assert es[k] in es;
        r := r + {l.parent[es[k].v]};
      }
    }

    lemma RelatedTo(x: Inst, seen: set<Inst>)
      requires Given() && x in l.parent && (forall y :: y in seen ==> y in l.parent)
      ensures forall e :: e in In(x) ==> e.v in l.parent
      ensures BlocksFor(l, edges, seen + {x}) == BlocksFor(l, edges, seen) + {l.parent[x]} + FirstBlocks(In(x), |In(x)|)
    {
      RevBlocks(x);
      BlocksForMore(l, edges, seen, x);
      assert In(x)[..|In(x)|] == In(x);
      hide BlocksFor, Given;
    }

    /** Follows the post-dominator tree from `s` to a block of this thread. */
    method Redirect(relbb: set<Block>, s: Block) returns (z: Block)
      requires l.Valid() && Usable(LoopGraph(l)) && IsIPDom(LoopGraph(l), postidom) && s in LoopGraph(l).nodes
      ensures z == Climb(LoopGraph(l), postidom, relbb, s)
    {
      ghost var g := LoopGraph(l);
      z := s;
      while z !in relbb && z != l.exit
        invariant z in g.nodes && Climb(g, postidom, relbb, z) == Climb(g, postidom, relbb, s)
        decreases Depth(g, z)
      {
        DepthDecreases(g, postidom[z], z);
        z := postidom[z];
      }
    }

    method Retarget(relbb: set<Block>, b: Block) returns (ts: seq<Block>)
      requires l.Valid() && Usable(LoopGraph(l)) && IsIPDom(LoopGraph(l), postidom) && b in l.blocks
      ensures Retargeted(l, postidom, relbb, b, ts)
    {
      hide Climb, Usable, IsIPDom;
      ts := [];
      for j := 0 to |l.succ[b]|
        invariant |ts| == j
        invariant forall k :: 0 <= k < j ==>
                    && l.succ[b][k] in LoopGraph(l).nodes
                    && ts[k] == Climb(LoopGraph(l), postidom, relbb, l.succ[b][k])
      {
        assert l.succ[b][j] in l.succ[b];
        var z := Redirect(relbb, l.succ[b][j]);
        ts := ts + [z];
      }
    }

    /** Copies the instructions of `b`; `place` tells where the others would have stood. */
    method CopyBlock(i: nat, b: Block, place0: map<Inst, Inst>) returns (ops: seq<Op>, place: map<Inst, Inst>, copied: set<Inst>)
      requires Given() && b in l.blocks
      ensures BlockCopied(Bare(l, Owner()), i, b, ops, place) && copied == CopiedOf(Bare(l, Owner()), i, b)
      ensures PlacesAdded(Bare(l, Owner()), i, b, place0, place)
    {
      hide CopyState, PointAll, Loop.Valid, Given, BlockCopied, PlacesAdded, CopiedOf;
      GivenFacts();
      ghost var p := Bare(l, Owner());
      BlockFull(b);
      var xs := l.body[b];
      var pending: seq<Inst> := [];
      ops, place, copied := [], place0, {};
      CopyStart(p, i, b, place0);
      for k := 0 to |xs|
        invariant CopyState(p, i, b, k, place0, ops, place, pending, copied)
      {
        CopyTest(i, b, k);
        CopyStep(p, i, b, k, place0, ops, place, pending, copied);
        if placed[sccId[xs[k]]] != i && xs[k] != l.Term(b) {
          pending := pending + [xs[k]];
        } else {
          ops := ops + [Clone(xs[k])];
          copied := copied + {xs[k]};
          place := PointAll(place, pending, xs[k]);
          pending := [];
        }
      }
      CopyEnd(p, i, b, place0, ops, place, pending, copied);
    }

    /** The function of thread `i`. */
    method CopyBlocks(i: nat, relbb: set<Block>)
      returns (lists: map<Block, seq<Op>>, ts: map<Block, seq<Block>>, place: map<Inst, Inst>, inst: set<Inst>)
      requires Given() && Usable(LoopGraph(l)) && IsIPDom(LoopGraph(l), postidom)
      requires forall b :: b in relbb ==> b in l.blocks
      ensures ThreadSplit(Bare(l, Owner()), postidom, i, relbb, relbb, lists, ts, place, inst)
    {
      hide ThreadSplit, Usable, IsIPDom, Given, Retargeted, BlockCopied, CopiedOf, Loop.Valid;
      GivenFacts();
      ghost var p := Bare(l, Owner());
      lists, ts, place, inst := map[], map[], map[], {};
      var todo := relbb;
      ghost var done: set<Block> := {};
      ThreadStart(p, postidom, i, relbb);
      while todo != {}
        invariant ThreadSplit(p, postidom, i, relbb, done, lists, ts, place, inst)
        invariant todo <= relbb && (forall b :: b in relbb <==> b in done || b in todo) && (forall b :: b in todo ==> b !in done)
        decreases |todo|
      {
        var b :| b in todo;
        var t := Retarget(relbb, b);
        var ops, place', copied := CopyBlock(i, b, place);
        ThreadStep(p, postidom, i, relbb, done, lists, ts, place, inst, b, ops, t, place');
        lists, ts, place, inst, todo := lists[b := ops], ts[b := t], place', inst + copied, todo - {b};
        done := done + {b};
      }
      assert done == relbb;
    }

    /** The function of thread `i` is as it should be. */
    ghost predicate MadeOne(i: nat, relbb: set<Block>, lists: map<Block, seq<Op>>, ts: map<Block, seq<Block>>,
                            place: map<Inst, Inst>, inst: set<Inst>)
      requires Given() && Usable(LoopGraph(l)) && IsIPDom(LoopGraph(l), postidom)
    {
      && relbb == Relevant(l, Owner(), edges, i) && l.header in relbb
      && ThreadSplit(Bare(l, Owner()), postidom, i, relbb, relbb, lists, ts, place, inst)
    }

    /** The threads made so far. */
    ghost predicate Made(m: nat)
      reads this
    {
      && Given() && Usable(LoopGraph(l)) && IsIPDom(LoopGraph(l), postidom)
      && m == |instMap| == |placeEquivalents| == |kept| == |code| == |targets| <= threads
      && (forall i :: 0 <= i < m ==> MadeOne(i, kept[i], code[i], targets[i], placeEquivalents[i], instMap[i]))
    }

    lemma RelevantInside(i: nat)
      requires Given()
      ensures forall b :: b in Relevant(l, Owner(), edges, i) ==> b in l.blocks
    {
    }

    /** Stops at the first thread without instructions; a thread without the loop header is an error. */
    method LoopSplit() returns (ok: bool)
      requires Made(0)
      modifies this
      ensures Made(|kept|)
      ensures ok ==> kept == Active(l, Owner(), edges, threads)
      ensures ok <==> Headed(l, Active(l, Owner(), edges, threads))
    {
      hide MadeOne, Usable, IsIPDom, Given, Relevant, ThreadSplit, EdgesInside, ActiveSoFar, Active, Headed, Loop.Valid;
      ok := true;
      GivenFacts();
      ActiveStart(l, Owner(), edges, threads);
      for i := 0 to threads
        invariant Made(i) && ok && ActiveSoFar(l, Owner(), edges, threads, kept)
      {
        ActiveNext(l, Owner(), edges, threads, kept);
        RelevantInside(i);
        var relbb := RelevantBlocks(i);
        if relbb == {} {
          HeadersKept();
          return;
        }
        if l.header !in relbb {
          Headless(l, Active(l, Owner(), edges, threads), i);
          return false;
        }
        var lists, ts, place, inst := CopyBlocks(i, relbb);
        MadeIs(i, relbb, lists, ts, place, inst);
        instMap, placeEquivalents, kept := instMap + [inst], placeEquivalents + [place], kept + [relbb];
        code, targets := code + [lists], targets + [ts];
      }
      ActiveAll(l, Owner(), edges, threads, kept);
      HeadersKept();
    }

    lemma BlockFull(b: Block)
      requires Given() && b in l.blocks
      ensures b in l.body && |l.body[b]| > 0
    {
    }

    lemma GivenFacts()
      requires Given()
      ensures l.Valid() && EdgesInside(l, edges) && forall x :: x in l.parent ==> x in sccId && sccId[x] < |placed| && 0 <= placed[sccId[x]]
    {
    }

    lemma HeadersKept()
      requires Made(|kept|)
      ensures Headed(l, kept)
    {
      hide Usable, IsIPDom, Given, Relevant, ThreadSplit;
      forall i | 0 <= i < |kept| ensures l.header in kept[i] {
        assert MadeOne(i, kept[i], code[i], targets[i], placeEquivalents[i], instMap[i]);
      }
    }

    lemma MadeIs(i: nat, relbb: set<Block>, lists: map<Block, seq<Op>>, ts: map<Block, seq<Block>>,
                 place: map<Inst, Inst>, inst: set<Inst>)
      requires Given() && Usable(LoopGraph(l)) && IsIPDom(LoopGraph(l), postidom)
      requires relbb == Relevant(l, Owner(), edges, i) && l.header in relbb
      requires ThreadSplit(Bare(l, Owner()), postidom, i, relbb, relbb, lists, ts, place, inst)
      ensures MadeOne(i, relbb, lists, ts, place, inst)
    {
    }

    /** The test of DSWP_4.cpp:289. */
    lemma CopyTest(i: nat, b: Block, k: nat)
      requires Given() && b in l.blocks && k < |l.body[b]|
      ensures l.body[b][k] in l.parent && l.body[b][k] in sccId && sccId[l.body[b][k]] < |placed|
      ensures Bare(l, Owner()).Cloned(i, l.body[b][k]) <==> placed[sccId[l.body[b][k]]] == i || l.body[b][k] == l.Term(b)
    {
      l.IdxIs(b, k);
    }
  }

  predicate SamePlace(place: map<Inst, Inst>, place': map<Inst, Inst>, x: Inst) {
    (x in place <==> x in place') && (x in place ==> place[x] == place'[x])
  }

  lemma PointFrame(p: Plan, i: nat, b: Block, k: nat, ops: seq<Op>, place: map<Inst, Inst>, pending: seq<Inst>)
    requires p.l.Valid() && b in p.l.blocks && k < |p.l.body[b]| && forall x :: x in p.l.parent ==> x in p.owner
    requires CopiedTo(p, i, b, k, ops, place, pending)
    ensures PlacesAdded(p, i, b, place, PointAll(place, pending, p.l.body[b][k]))
  {
    hide CopiedTo, Loop.Valid, Plan.Cloned;
    PendingInside(p, i, b, k, ops, place, pending);
  }

  lemma PendingInside(p: Plan, i: nat, b: Block, k: nat, ops: seq<Op>, place: map<Inst, Inst>, pending: seq<Inst>)
    requires p.l.Valid() && b in p.l.blocks && k < |p.l.body[b]| && forall x :: x in p.l.parent ==> x in p.owner
    requires CopiedTo(p, i, b, k, ops, place, pending)
    ensures forall x :: x in pending ==> x in p.l.body[b] && x in p.l.parent && p.l.parent[x] == b && !p.Cloned(i, x)
  {
    hide StandsFor, Copies, Plan.Cloned;
    var xs := p.l.body[b];
    forall x | x in pending ensures x in xs && x in p.l.parent && p.l.parent[x] == b {
      var j :| 0 <= j < |pending| && pending[j] == x;
      assert xs[k - |pending| + j] == x;
    }
  }
}
