/** Synchronization of the worker threads (DSWP_5.cpp:8-198): a channel for each dependence that crosses threads, its
    send right behind the copy of its source, its receive where the source would have stood. */
module Sync {
  import opened Ir
  import opened Plan
  import opened Split
  import opened Cleanup

  // ---- the order of a list before cleanup ----

  /** As `Rank`, but with the sends of a terminator still behind it. */
  ghost function PreRank(p: Plan, op: Op): int
    requires p.Shape() && p.Known(op)
  {
    match op
    case Clone(x) => 8 * p.l.Idx(x)
    case Produce(c) =>
      assert p.chans[c] in p.chans;
      8 * p.l.Idx(p.chans[c].u) + 2
    case Consume(c) => p.Rank(op)
  }

  ghost predicate PreList(p: Plan, i: nat, b: Block, ops: seq<Op>)
    requires p.Shape()
  {
    && NoDups(ops)
    && (forall op :: op in ops <==> p.Belongs(i, b, op))
    && PreOrdered(p, ops)
  }

  ghost predicate PreOrdered(p: Plan, ops: seq<Op>)
    requires p.Shape()
  {
    forall j, k :: 0 <= j < k < |ops| && p.Known(ops[j]) && p.Known(ops[k]) ==> PreRank(p, ops[j]) <= PreRank(p, ops[k])
  }

  ghost predicate PreCode(p: Plan, code: seq<map<Block, seq<Op>>>) {
    && p.Shape() && |code| == |p.kept|
    && (forall i: nat, b :: i < |code| ==> (b in code[i] <==> p.Keeps(i, b)))
    && (forall i: nat, b :: p.Keeps(i, b) ==> b in code[i] && PreList(p, i, b, code[i][b]))
  }

  function InsertAt<T>(s: seq<T>, k: nat, x: T): seq<T>
    requires k <= |s|
  {
    s[..k] + [x] + s[k..]
  }

  /** An operation put where its rank allows. */
  lemma InsertKeeps(p: Plan, ops: seq<Op>, k: nat, op: Op)
    requires p.Shape() && PreOrdered(p, ops) && NoDups(ops) && k <= |ops| && op !in ops && p.Known(op)
    requires forall o :: o in ops ==> p.Known(o)
    requires forall j :: 0 <= j < k ==> PreRank(p, ops[j]) <= PreRank(p, op)
    requires forall j :: k <= j < |ops| ==> PreRank(p, op) <= PreRank(p, ops[j])
    ensures PreOrdered(p, InsertAt(ops, k, op)) && NoDups(InsertAt(ops, k, op))
    ensures forall o :: o in InsertAt(ops, k, op) <==> o in ops || o == op
  {
    hide Plan.Shape, Plan.Known, PreRank, InsertAt;
    InsertedIn(ops, k, op);
    var r := InsertAt(ops, k, op);
    forall a: nat, b: nat | a < b < |r|
      ensures r[a] != r[b] && p.Known(r[a]) && p.Known(r[b]) && PreRank(p, r[a]) <= PreRank(p, r[b])
    {
      InsertedAt(ops, k, op, a);
      InsertedAt(ops, k, op, b);
    }
  }

  lemma InsertedAt<T>(s: seq<T>, k: nat, x: T, j: nat)
    requires k <= |s| && j < |InsertAt(s, k, x)|
    ensures |InsertAt(s, k, x)| == |s| + 1
    ensures j < k ==> InsertAt(s, k, x)[j] == s[j] && s[j] in s
    ensures j == k ==> InsertAt(s, k, x)[j] == x
    ensures j > k ==> InsertAt(s, k, x)[j] == s[j - 1] && s[j - 1] in s
  {
  }

  lemma InsertedIn<T>(s: seq<T>, k: nat, x: T)
    requires k <= |s|
    ensures forall o :: o in InsertAt(s, k, x) <==> o in s || o == x
  {
    assert s == s[..k] + s[k..];
    assert forall o :: o in s <==> o in s[..k] || o in s[k..];
  }

  // ---- one channel more ----

  ghost function Grow(p: Plan, ch: Channel): Plan {
    p.(chans := p.chans + [ch])
  }

  ghost predicate Fits(p: Plan, ch: Channel) {
    && p.Shape() && ch.u in p.l.parent && ch.from == p.owner[ch.u] && ch.from < ch.to < |p.kept|
    && p.Keeps(ch.from, p.l.parent[ch.u]) && p.Keeps(ch.to, p.l.parent[ch.u])
  }

  lemma {:induction false} NextSame(p: Plan, p': Plan, i: nat, b: Block, k: nat)
    requires p.l == p'.l && p.owner == p'.owner && p.l.Valid() && b in p.l.blocks && k < |p.l.body[b]|
    requires forall x :: x in p.l.parent ==> x in p.owner
    ensures p.NextCloned(i, b, k) == p'.NextCloned(i, b, k)
    decreases |p.l.body[b]| - k
  {
    p.l.IdxIs(b, k);
    if !p.Cloned(i, p.l.body[b][k]) { NextSame(p, p', i, b, k + 1); }
  }

  lemma GrowShape(p: Plan, ch: Channel)
    requires Fits(p, ch)
    ensures Grow(p, ch).Shape()
  {
    forall i: nat, b | Grow(p, ch).Keeps(i, b) ensures b in p.l.blocks { assert p.Keeps(i, b); }
  }

  lemma GrowRank(p: Plan, ch: Channel, op: Op)
    requires Fits(p, ch) && p.Known(op)
    ensures Grow(p, ch).Shape() && Grow(p, ch).Known(op) && PreRank(Grow(p, ch), op) == PreRank(p, op)
  {
    GrowShape(p, ch);
    if op.Consume? {
      assert p.chans[op.chan] in p.chans;
      var u := p.chans[op.chan].u;
      NextSame(p, Grow(p, ch), p.chans[op.chan].to, p.l.parent[u], p.l.Idx(u));
    }
  }

  lemma GrowBelongs(p: Plan, ch: Channel, i: nat, b: Block, op: Op)
    requires Fits(p, ch)
    ensures Grow(p, ch).Shape()
    ensures Grow(p, ch).Belongs(i, b, op) <==>
              || p.Belongs(i, b, op)
              || (op == Produce(|p.chans|) && i == ch.from && b == p.l.parent[ch.u])
              || (op == Consume(|p.chans|) && i == ch.to && b == p.l.parent[ch.u])
    ensures p.Belongs(i, b, op) ==> p.Known(op)
    ensures op == Produce(|p.chans|) || op == Consume(|p.chans|) ==> !p.Known(op)
  {
    GrowShape(p, ch);
  }

  lemma GrowOrdered(p: Plan, ch: Channel, ops: seq<Op>)
    requires Fits(p, ch) && PreOrdered(p, ops) && forall o :: o in ops ==> p.Known(o)
    ensures Grow(p, ch).Shape() && PreOrdered(Grow(p, ch), ops)
  {
    GrowShape(p, ch);
    hide Fits, PreRank, Plan.Shape, Plan.Known, Grow;
    forall k: nat | k < |ops|
      ensures Grow(p, ch).Known(ops[k]) && p.Known(ops[k]) && PreRank(Grow(p, ch), ops[k]) == PreRank(p, ops[k])
    {
      assert ops[k] in ops;
      GrowRank(p, ch, ops[k]);
    }
  }

  /** The list of another thread or block. */
  lemma GrowOther(p: Plan, ch: Channel, i: nat, b: Block, ops: seq<Op>)
    requires Fits(p, ch) && PreList(p, i, b, ops) && (b != p.l.parent[ch.u] || (i != ch.from && i != ch.to))
    ensures Grow(p, ch).Shape() && PreList(Grow(p, ch), i, b, ops)
  {
    forall op ensures Grow(p, ch).Shape() && (Grow(p, ch).Belongs(i, b, op) <==> p.Belongs(i, b, op)) && (p.Belongs(i, b, op) ==> p.Known(op)) {
      GrowBelongs(p, ch, i, b, op);
    }
    GrowOrdered(p, ch, ops);
    hide PreOrdered, Plan.Belongs, Plan.Known, Fits, Grow;
  }

  /** Ranks leave gaps: nothing but a copy ranks with or right behind a copy, and nothing comes between a receive's place
      and the copy it precedes. */
  lemma RankGaps(p: Plan, op: Op, m: nat)
    requires p.Shape() && p.Known(op)
    ensures 8 * m <= PreRank(p, op) < 8 * m + 2 ==> op.Clone? && p.l.Idx(op.inst) == m
    ensures 8 * m - 4 < PreRank(p, op) <= 8 * m ==> op.Clone? && p.l.Idx(op.inst) == m
  {
    if op.Consume? { assert p.chans[op.chan] in p.chans; }
  }

  lemma AfterCopy(p: Plan, i: nat, b: Block, ops: seq<Op>, x: Inst, k: nat, j: nat)
    requires p.Shape() && PreList(p, i, b, ops) && k < |ops| && j < |ops| && ops[k] == Clone(x) && p.Known(Clone(x))
    requires p.Known(ops[j])
    ensures k < j ==> 8 * p.l.Idx(x) + 2 <= PreRank(p, ops[j])
    ensures j < k ==> PreRank(p, ops[j]) <= 8 * p.l.Idx(x) - 4
    ensures j <= k ==> PreRank(p, ops[j]) <= 8 * p.l.Idx(x)
    ensures k <= j ==> 8 * p.l.Idx(x) <= PreRank(p, ops[j])
  {
    var o := ops[j];
    assert o in ops && Clone(x) in ops;
    RankGaps(p, o, p.l.Idx(x));
    assert PreRank(p, Clone(x)) == 8 * p.l.Idx(x);
  }

  /** The send goes behind the copy of its source. */
  lemma GrowSend(p: Plan, ch: Channel, ops: seq<Op>, k: nat)
    requires Fits(p, ch) && PreList(p, ch.from, p.l.parent[ch.u], ops) && k < |ops| && ops[k] == Clone(ch.u)
    ensures Grow(p, ch).Shape()
    ensures PreList(Grow(p, ch), ch.from, p.l.parent[ch.u], InsertAt(ops, k + 1, Produce(|p.chans|)))
  {
    hide PreRank, Plan.Shape, Plan.Belongs, Plan.Known, Grow, PreOrdered, PreList, Fits;
    SendRankIs(p, ch);
    var p', b, op := Grow(p, ch), p.l.parent[ch.u], Produce(|p.chans|);
    KnownAll(p, ch.from, b, ops);
    GrowOrdered(p, ch, ops);
    forall j: nat | j < |ops|
      ensures p'.Known(ops[j]) && (j <= k ==> PreRank(p', ops[j]) <= 8 * p.l.Idx(ch.u) + 2)
      ensures k < j ==> 8 * p.l.Idx(ch.u) + 2 <= PreRank(p', ops[j])
    {
      assert ops[j] in ops;
      GrowRank(p, ch, ops[j]);
      AfterCopy(p, ch.from, b, ops, ch.u, k, j);
    }
    GrowEnds(p, ch);
    InsertMembers(p, ch, ch.from, b, ops, k + 1, op);
  }

  lemma SendRankIs(p: Plan, ch: Channel)
    requires Fits(p, ch)
    ensures p.Shape() && ch.u in p.l.parent && p.Known(Clone(ch.u))
    ensures Grow(p, ch).Shape() && Grow(p, ch).Known(Produce(|p.chans|))
    ensures PreRank(Grow(p, ch), Produce(|p.chans|)) == 8 * p.l.Idx(ch.u) + 2
  {
    GrowShape(p, ch);
  }

  lemma KnownAll(p: Plan, i: nat, b: Block, ops: seq<Op>)
    requires p.Shape() && PreList(p, i, b, ops)
    ensures PreOrdered(p, ops) && forall o :: o in ops ==> p.Known(o)
  {
    hide PreOrdered;
  }

  lemma InsertMembers(p: Plan, ch: Channel, i: nat, b: Block, ops: seq<Op>, k: nat, op: Op)
    requires Fits(p, ch) && PreList(p, i, b, ops) && k <= |ops| && b == p.l.parent[ch.u] && ch.from != ch.to
    requires (op == Produce(|p.chans|) && i == ch.from) || (op == Consume(|p.chans|) && i == ch.to)
    requires Grow(p, ch).Shape() && PreOrdered(Grow(p, ch), ops) && Grow(p, ch).Known(op)
    requires forall j :: 0 <= j < |ops| ==> Grow(p, ch).Known(ops[j])
    requires forall j :: 0 <= j < k ==> PreRank(Grow(p, ch), ops[j]) <= PreRank(Grow(p, ch), op)
    requires forall j :: k <= j < |ops| ==> PreRank(Grow(p, ch), op) <= PreRank(Grow(p, ch), ops[j])
    ensures PreList(Grow(p, ch), i, b, InsertAt(ops, k, op))
  {
    GrowBelongs(p, ch, i, b, op);
    forall o ensures Grow(p, ch).Belongs(i, b, o) <==> o in ops || o == op { GrowBelongs(p, ch, i, b, o); }
    hide Fits, Grow, PreRank, Plan.Shape, Plan.Known, Plan.Belongs;
    InsertKeeps(Grow(p, ch), ops, k, op);
  }

  /** Where the receive for `u` stands in thread `i`: at the next copy. */
  ghost function PlaceOf(p: Plan, i: nat, u: Inst): (x: Inst)
    requires p.Shape() && u in p.l.parent
    ensures x in p.l.parent && p.l.parent[x] == p.l.parent[u] && p.Cloned(i, x)
    ensures p.l.Idx(x) == p.NextCloned(i, p.l.parent[u], p.l.Idx(u))
  {
    var b := p.l.parent[u];
    p.l.IdxIs(b, p.NextCloned(i, b, p.l.Idx(u)));
    p.l.body[b][p.NextCloned(i, b, p.l.Idx(u))]
  }

  lemma GetRankIs(p: Plan, ch: Channel)
    requires Fits(p, ch)
    ensures Grow(p, ch).Shape() && Grow(p, ch).Known(Consume(|p.chans|))
    ensures PreRank(Grow(p, ch), Consume(|p.chans|)) == 8 * p.l.Idx(PlaceOf(p, ch.to, ch.u)) - 4
  {
    GrowShape(p, ch);
    NextSame(p, Grow(p, ch), ch.to, p.l.parent[ch.u], p.l.Idx(ch.u));
  }

  /** The receive goes in front of the copy at its place. */
  lemma GrowGet(p: Plan, ch: Channel, ops: seq<Op>, k: nat)
    requires Fits(p, ch) && PreList(p, ch.to, p.l.parent[ch.u], ops) && k < |ops|
    requires ops[k] == Clone(PlaceOf(p, ch.to, ch.u))
    ensures Grow(p, ch).Shape()
    ensures PreList(Grow(p, ch), ch.to, p.l.parent[ch.u], InsertAt(ops, k, Consume(|p.chans|)))
  {
    var p', b, op, x := Grow(p, ch), p.l.parent[ch.u], Consume(|p.chans|), PlaceOf(p, ch.to, ch.u);
    GetRankIs(p, ch);
    KnownAll(p, ch.to, b, ops);
    GrowOrdered(p, ch, ops);
    hide Fits, PreRank, Plan.Shape, Plan.Belongs, PlaceOf, Grow, PreOrdered, PreList;
    forall j: nat | j < |ops|
      ensures p'.Known(ops[j]) && (j < k ==> PreRank(p', ops[j]) <= 8 * p.l.Idx(x) - 4)
      ensures k <= j ==> 8 * p.l.Idx(x) - 4 <= PreRank(p', ops[j])
    {
      assert ops[j] in ops;
      GrowRank(p, ch, ops[j]);
      AfterCopy(p, ch.to, b, ops, x, k, j);
    }
    GrowEnds(p, ch);
    InsertMembers(p, ch, ch.to, b, ops, k, op);
  }

  lemma GrowEnds(p: Plan, ch: Channel)
    requires Fits(p, ch)
    ensures ch.from != ch.to && ch.from < |p.kept| && ch.to < |p.kept|
    ensures p.Keeps(ch.from, p.l.parent[ch.u]) && p.Keeps(ch.to, p.l.parent[ch.u])
  {
  }

  /** `code'` is `code` with the send and the receive of a channel put in. */
  ghost predicate Wired(p: Plan, ch: Channel, code: seq<map<Block, seq<Op>>>, code': seq<map<Block, seq<Op>>>) {
    && Fits(p, ch) && |code| == |code'| == |p.kept|
    && (var b := p.l.parent[ch.u];
        && b in code[ch.from] && b in code[ch.to]
        && (exists k :: 0 <= k < |code[ch.from][b]| && code[ch.from][b][k] == Clone(ch.u) &&
             code'[ch.from] == code[ch.from][b := InsertAt(code[ch.from][b], k + 1, Produce(|p.chans|))])
        && (exists k :: 0 <= k < |code[ch.to][b]| && code[ch.to][b][k] == Clone(PlaceOf(p, ch.to, ch.u)) &&
             code'[ch.to] == code[ch.to][b := InsertAt(code[ch.to][b], k, Consume(|p.chans|))]))
    && (forall i :: 0 <= i < |code| && i != ch.from && i != ch.to ==> code'[i] == code[i])
  }

  ghost predicate SentIn(p: Plan, ch: Channel, b: Block, code: seq<map<Block, seq<Op>>>, mid: seq<map<Block, seq<Op>>>) {
    && ch.from < |code| == |mid| && b in code[ch.from] && (forall i :: 0 <= i < |code| && i != ch.from ==> mid[i] == code[i])
    && exists k :: 0 <= k < |code[ch.from][b]| && code[ch.from][b][k] == Clone(ch.u) &&
         mid[ch.from] == code[ch.from][b := InsertAt(code[ch.from][b], k + 1, Produce(|p.chans|))]
  }

  ghost predicate GotIn(p: Plan, ch: Channel, b: Block, mid: seq<map<Block, seq<Op>>>, code': seq<map<Block, seq<Op>>>)
    requires Fits(p, ch)
  {
    && ch.to < |mid| == |code'| && b in mid[ch.to] && (forall i :: 0 <= i < |mid| && i != ch.to ==> code'[i] == mid[i])
    && exists k :: 0 <= k < |mid[ch.to][b]| && mid[ch.to][b][k] == Clone(PlaceOf(p, ch.to, ch.u)) &&
         code'[ch.to] == mid[ch.to][b := InsertAt(mid[ch.to][b], k, Consume(|p.chans|))]
  }

  lemma FitsFacts(p: Plan, ch: Channel)
    requires Fits(p, ch)
    ensures ch.u in p.l.parent
  {
  }

  lemma SentAndGot(p: Plan, ch: Channel, code: seq<map<Block, seq<Op>>>, mid: seq<map<Block, seq<Op>>>, code': seq<map<Block, seq<Op>>>)
    requires Fits(p, ch) && |code| == |p.kept| && SentIn(p, ch, p.l.parent[ch.u], code, mid)
    requires GotIn(p, ch, p.l.parent[ch.u], mid, code')
    ensures Wired(p, ch, code, code')
  {
    assert ch.from != ch.to;
    hide Plan.Shape, PlaceOf;
  }

  lemma GrowCode(p: Plan, ch: Channel, code: seq<map<Block, seq<Op>>>, code': seq<map<Block, seq<Op>>>)
    requires PreCode(p, code) && Wired(p, ch, code, code')
    ensures PreCode(Grow(p, ch), code')
  {
    hide Plan.Shape, PreList, Fits, PlaceOf;
    GrowShape(p, ch);
    var p' := Grow(p, ch);
    assert |code'| == |p'.kept|;
    forall i: nat, b | i < |code'| ensures b in code'[i] <==> p'.Keeps(i, b) { WiredKeys(p, ch, code, code', i, b); }
    forall i: nat, b | p'.Keeps(i, b) ensures b in code'[i] && PreList(p', i, b, code'[i][b]) { GrowOne(p, ch, code, code', i, b); }
  }

  lemma WiredKeys(p: Plan, ch: Channel, code: seq<map<Block, seq<Op>>>, code': seq<map<Block, seq<Op>>>, i: nat, b: Block)
    requires PreCode(p, code) && Wired(p, ch, code, code') && i < |code'|
    ensures b in code'[i] <==> p.Keeps(i, b)
  {
    hide Plan.Shape, PreList, PlaceOf, InsertAt, Plan.Keeps;
    GrowEnds(p, ch);
  }

  lemma GrowOne(p: Plan, ch: Channel, code: seq<map<Block, seq<Op>>>, code': seq<map<Block, seq<Op>>>, i: nat, b: Block)
    requires PreCode(p, code) && Wired(p, ch, code, code') && Grow(p, ch).Shape() && p.Keeps(i, b)
    ensures i < |code'| && b in code'[i] && PreList(Grow(p, ch), i, b, code'[i][b])
  {
    hide Plan.Shape, PreList, PlaceOf, Fits, InsertAt, Grow;
    GrowEnds(p, ch);
    if i == ch.from && b == p.l.parent[ch.u] {
      var k :| 0 <= k < |code[i][b]| && code[i][b][k] == Clone(ch.u) &&
               code'[i] == code[i][b := InsertAt(code[i][b], k + 1, Produce(|p.chans|))];
      GrowSend(p, ch, code[i][b], k);
    } else if i == ch.to && b == p.l.parent[ch.u] {
      var k :| 0 <= k < |code[i][b]| && code[i][b][k] == Clone(PlaceOf(p, ch.to, ch.u)) &&
               code'[i] == code[i][b := InsertAt(code[i][b], k, Consume(|p.chans|))];
      GrowGet(p, ch, code[i][b], k);
    } else {
      GrowOther(p, ch, i, b, code[i][b]);
    }
  }

  // ---- the start: copies only ----

  lemma {:induction false} CopiesOrdered(p: Plan, i: nat, b: Block, k: nat)
    requires p.Shape() && b in p.l.blocks && k <= |p.l.body[b]|
    ensures forall x :: x in p.l.body[b][..k] ==> x in p.l.parent
    ensures forall op :: op in Copies(p, i, p.l.body[b][..k]) <==>
              op.Clone? && op.inst in p.l.body[b][..k] && p.Cloned(i, op.inst)
    ensures NoDups(Copies(p, i, p.l.body[b][..k])) && PreOrdered(p, Copies(p, i, p.l.body[b][..k]))
  {
    var xs := p.l.body[b];
    forall x | x in xs[..k] ensures x in p.l.parent && p.l.parent[x] == b && p.l.Idx(x) < k {
      var j :| 0 <= j < k && xs[j] == x;
      p.l.IdxIs(b, j);
    }
    if k > 0 {
      CopiesOrdered(p, i, b, k - 1);
      assert xs[..k][..k - 1] == xs[..k - 1] && xs[..k] == xs[..k - 1] + [xs[k - 1]];
      CopiesSnoc(p, i, b, k - 1);
    }
  }

  lemma CopiesSnoc(p: Plan, i: nat, b: Block, k: nat)
    requires p.Shape() && b in p.l.blocks && k < |p.l.body[b]|
    requires forall x :: x in p.l.body[b][..k + 1] ==> x in p.l.parent
    requires forall x :: x in p.l.body[b][..k] ==> x in p.l.parent
    requires forall op :: op in Copies(p, i, p.l.body[b][..k]) <==>
               op.Clone? && op.inst in p.l.body[b][..k] && p.Cloned(i, op.inst)
    requires NoDups(Copies(p, i, p.l.body[b][..k])) && PreOrdered(p, Copies(p, i, p.l.body[b][..k]))
    ensures NoDups(Copies(p, i, p.l.body[b][..k + 1])) && PreOrdered(p, Copies(p, i, p.l.body[b][..k + 1]))
  {
    var xs := p.l.body[b];
    var before := Copies(p, i, xs[..k]);
    assert xs[..k + 1][..k] == xs[..k];
    p.l.IdxIs(b, k);
    if p.Cloned(i, xs[k]) {
      assert Copies(p, i, xs[..k + 1]) == before + [Clone(xs[k])];
      hide Copies, Plan.Shape, Plan.Cloned, PreRank, Plan.Known;
      forall j: nat | j < |before| ensures p.Known(before[j]) && before[j] != Clone(xs[k]) && PreRank(p, before[j]) <= 8 * k {
        assert before[j] in before;
        CopyRank(p, b, k, before[j].inst);
      }
      CopyRank(p, b, k + 1, xs[k]);
    }
  }

  lemma CopyRank(p: Plan, b: Block, k: nat, x: Inst)
    requires p.Shape() && b in p.l.blocks && k <= |p.l.body[b]| && x in p.l.body[b][..k]
    ensures p.Known(Clone(x)) && PreRank(p, Clone(x)) <= 8 * (k - 1)
    ensures k > 0 && x == p.l.body[b][k - 1] ==> PreRank(p, Clone(x)) == 8 * (k - 1)
    ensures k < |p.l.body[b]| ==> x != p.l.body[b][k]
  {
    var m :| 0 <= m < k && p.l.body[b][m] == x;
    p.l.IdxIs(b, m);
  }

  lemma CopiesGood(p: Plan, i: nat, b: Block)
    requires p.Shape() && p.chans == [] && p.Keeps(i, b)
    ensures forall x :: x in p.l.body[b] ==> x in p.l.parent
    ensures PreList(p, i, b, Copies(p, i, p.l.body[b]))
  {
    hide Copies, PreOrdered, Plan.Cloned;
    CopiesOrdered(p, i, b, |p.l.body[b]|);
    assert p.l.body[b][..|p.l.body[b]|] == p.l.body[b];
    forall x | x in p.l.body[b] ensures x in p.l.parent && p.l.parent[x] == b { InBody(p.l, b, x); }
    forall op ensures op in Copies(p, i, p.l.body[b]) <==> p.Belongs(i, b, op) {}
  }

  lemma InBody(l: Loop, b: Block, x: Inst)
    requires l.Valid() && b in l.blocks && x in l.body[b]
    ensures x in l.parent && l.parent[x] == b
  {
  }

  // ---- the pass ----

  /** `instMap` and `placeEquivalents` as loopSplit leaves them. */
  ghost predicate Maps(p: Plan, inst: seq<set<Inst>>, places: seq<map<Inst, Inst>>)
    requires p.Shape()
  {
    && |inst| == |places| == |p.kept|
    && (forall i: nat, x :: i < |inst| ==> (x in inst[i] <==> x in p.l.parent && p.Keeps(i, p.l.parent[x]) && p.Cloned(i, x)))
    && (forall i: nat, x :: i < |places| ==>
          (x in places[i] <==> x in p.l.parent && p.Keeps(i, p.l.parent[x]) && !p.Cloned(i, x)))
    && (forall i: nat, x :: i < |places| && x in places[i] && x in p.l.parent ==> places[i][x] == PlaceOf(p, i, x))
  }

  ghost predicate Owns(p: Plan) {
    p.l.Valid() && forall x :: x in p.l.parent ==> x in p.owner
  }

  /** The channels of the edge `e` to threads before `hi`. */
  ghost function EdgeChans(p: Plan, e: Edge, hi: nat): seq<Channel>
    requires Owns(p) && e.u in p.l.parent
  {
    if hi <= p.owner[e.u] + 1 then []
    else EdgeChans(p, e, hi - 1) + EdgeChan(p, e, hi - 1)
  }

  ghost function EdgeChan(p: Plan, e: Edge, vtr: nat): seq<Channel>
    requires Owns(p) && e.u in p.l.parent
  {
    if p.HasCopy(vtr, e.v) then [Channel(e.u, e.v, e.dtype, p.owner[e.u], vtr)] else []
  }

  /** The channels of the first `n` edges, in the order of their numbers. */
  ghost function AllChans(p: Plan, es: seq<Edge>, n: nat): seq<Channel>
    requires Owns(p) && EdgesInside(p.l, es) && n <= |es|
  {
    if n == 0 then []
    else
      assert es[n - 1] in es;
      AllChans(p, es, n - 1) + EdgeChans(p, es[n - 1], |p.kept|)
  }

  // ---- the numbers of the channels ----

  function EdgeOf(ch: Channel): Edge { Edge(ch.u, ch.v, ch.dtype) }

  /** `a` is made before `d`: for an earlier edge, or for the same edge and an earlier thread. */
  predicate MadeBefore(es: seq<Edge>, a: Channel, d: Channel) {
    && EdgeOf(a) in es && EdgeOf(d) in es
    && (IndexOf(es, EdgeOf(a)) < IndexOf(es, EdgeOf(d)) || (EdgeOf(a) == EdgeOf(d) && a.to < d.to))
  }

  /** Channels are numbered by edge and then by receiving thread, so no two are for the same edge and thread. */
  ghost predicate EdgeOrder(es: seq<Edge>, chans: seq<Channel>) {
    forall c, d :: 0 <= c < d < |chans| ==> MadeBefore(es, chans[c], chans[d])
  }

  /** The channels of one edge rise with the thread. */
  lemma {:induction false} EdgeChansRise(p: Plan, e: Edge, hi: nat)
    requires Owns(p) && e.u in p.l.parent
    ensures forall c :: 0 <= c < |EdgeChans(p, e, hi)| ==> EdgeOf(EdgeChans(p, e, hi)[c]) == e && EdgeChans(p, e, hi)[c].to < hi
    ensures forall c, d :: 0 <= c < d < |EdgeChans(p, e, hi)| ==> EdgeChans(p, e, hi)[c].to < EdgeChans(p, e, hi)[d].to
  {
    var from := p.owner[e.u];
    hide Owns, Plan.HasCopy;
    if hi > from + 1 { EdgeChansRise(p, e, hi - 1); }
  }

  lemma FirstIndex<T>(s: seq<T>, k: nat)
    requires NoDups(s) && k < |s|
    ensures s[k] in s && IndexOf(s, s[k]) == k
  {
  }

  /** With no edge twice in the table, each channel is made once, in the order of edges and threads. */
  lemma {:induction false} AllChansOrdered(p: Plan, es: seq<Edge>, n: nat)
    requires Owns(p) && EdgesInside(p.l, es) && NoDups(es) && n <= |es|
    ensures forall c :: 0 <= c < |AllChans(p, es, n)| ==> EdgeOf(AllChans(p, es, n)[c]) in es && IndexOf(es, EdgeOf(AllChans(p, es, n)[c])) < n
    ensures EdgeOrder(es, AllChans(p, es, n))
  {
    hide Owns, EdgesInside, EdgeChans, IndexOf, NoDups, EdgeOf;
    if n == 0 {
      AllChansNone(p, es);
    } else {
      AllChansOrdered(p, es, n - 1);
      AllChansStep(p, es, n - 1);
      EdgeChansRise(p, es[n - 1], |p.kept|);
      FirstIndex(es, n - 1);
      hide AllChans;
    }
  }

  /** The receiver of a channel for `e` has a place for it. */
  ghost predicate Placeable(p: Plan, e: Edge, to: nat)
    requires Owns(p) && e.u in p.l.parent
  {
    p.HasCopy(to, e.v) ==> p.Keeps(to, p.l.parent[e.u])
  }

  /** So have all receivers of the edge. */
  ghost predicate Served(p: Plan, e: Edge)
    requires Owns(p) && e.u in p.l.parent
  {
    forall to: nat :: p.owner[e.u] < to ==> Placeable(p, e, to)
  }

  ghost predicate ServedTo(p: Plan, e: Edge, hi: nat)
    requires Owns(p) && e.u in p.l.parent
  {
    forall to: nat :: p.owner[e.u] < to < hi ==> Placeable(p, e, to)
  }

  /** `after` is `before` with the channels of `e` to threads before `vtr`. */
  ghost predicate Extended(p: Plan, e: Edge, vtr: nat, before: seq<Channel>, after: seq<Channel>)
    requires Owns(p) && e.u in p.l.parent
  {
    after == before + EdgeChans(p, e, vtr)
  }

  lemma EdgeStart(p: Plan, e: Edge, before: seq<Channel>)
    requires Owns(p) && e.u in p.l.parent
    ensures ServedTo(p, e, p.owner[e.u] + 1) && Extended(p, e, p.owner[e.u] + 1, before, before)
  {
  }

  lemma EdgeStep(p: Plan, e: Edge, vtr: nat, before: seq<Channel>, after: seq<Channel>)
    requires Owns(p) && e.u in p.l.parent && p.owner[e.u] < vtr && ServedTo(p, e, vtr)
    requires Extended(p, e, vtr, before, after)
    ensures Extended(p, e, vtr + 1, before, after + EdgeChan(p, e, vtr))
    ensures (p.HasCopy(vtr, e.v) ==> p.Keeps(vtr, p.l.parent[e.u])) ==> ServedTo(p, e, vtr + 1)
    ensures Served(p, e) && p.HasCopy(vtr, e.v) ==> p.Keeps(vtr, p.l.parent[e.u])
  {
    hide Plan.HasCopy, Owns;
    assert Served(p, e) ==> Placeable(p, e, vtr);
    assert (before + EdgeChans(p, e, vtr)) + EdgeChan(p, e, vtr) == before + (EdgeChans(p, e, vtr) + EdgeChan(p, e, vtr));
  }

  /** Threads that do not exist get nothing. */
  lemma NoThread(p: Plan, e: Edge, to: nat)
    requires Owns(p) && e.u in p.l.parent && |p.kept| <= to
    ensures EdgeChan(p, e, to) == [] && Placeable(p, e, to)
  {
  }

  ghost predicate AllServed(p: Plan, es: seq<Edge>, n: nat)
    requires Owns(p) && EdgesInside(p.l, es) && n <= |es|
  {
    forall j :: 0 <= j < n ==> es[j] in es && Served(p, es[j])
  }

  lemma AllChansStep(p: Plan, es: seq<Edge>, n: nat)
    requires Owns(p) && EdgesInside(p.l, es) && n < |es|
    ensures es[n].u in p.l.parent && es[n].v in p.l.parent
    ensures AllChans(p, es, n + 1) == AllChans(p, es, n) + EdgeChans(p, es[n], |p.kept|)
    ensures AllServed(p, es, n + 1) <==> AllServed(p, es, n) && Served(p, es[n])
    ensures AllServed(p, es, |es|) ==> AllServed(p, es, n + 1)
  {
    hide Owns, EdgeChans, Served;
    assert es[n] in es;
  }

  lemma AllChansNone(p: Plan, es: seq<Edge>)
    requires Owns(p) && EdgesInside(p.l, es)
    ensures AllChans(p, es, 0) == [] && AllServed(p, es, 0)
  {
  }

  // ---- cleanup ----

  predicate IsTermOp(l: Loop, op: Op) {
    op.Clone? && op.inst in l.parent && l.parent[op.inst] in l.body && |l.body[l.parent[op.inst]]| > 0 &&
    op.inst == l.Term(l.parent[op.inst])
  }

  /** The copy of a phi node, which a terminator never is. */
  predicate IsPhi(l: Loop, phis: set<Inst>, op: Op) {
    op.Clone? && op.inst in phis && !IsTermOp(l, op)
  }

  /** A list as cleanup leaves it: all that belongs into it, each once; the phi nodes at the top; both the phi nodes and the
      rest in rank order; the terminator last. */
  ghost predicate Arranged(p: Plan, i: nat, b: Block, phis: set<Inst>, r: seq<Op>)
    requires p.Shape() && p.Keeps(i, b)
  {
    && NoDups(r) && (forall op :: op in r <==> p.Belongs(i, b, op))
    && |r| > 0 && r[|r| - 1] == Clone(p.l.Term(b))
    && (forall x, y :: 0 <= x < y < |r| - 1 && r[y].Clone? && r[y].inst in phis ==> r[x].Clone? && r[x].inst in phis)
    && (forall x, y :: 0 <= x < y < |r| && p.Known(r[x]) && p.Known(r[y]) ==>
          (y == |r| - 1 || ((r[x].Clone? && r[x].inst in phis) <==> (r[y].Clone? && r[y].inst in phis))) ==>
          p.Rank(r[x]) <= p.Rank(r[y]))
  }

  /** In a list there is one terminator. */
  lemma TermAt(p: Plan, i: nat, b: Block, ops: seq<Op>) returns (k: nat)
    requires p.Shape() && p.Keeps(i, b) && PreList(p, i, b, ops)
    ensures b in p.l.blocks && k < |ops| && ops[k] == Clone(p.l.Term(b)) && IsTermOp(p.l, ops[k])
    ensures forall j :: 0 <= j < |ops| && IsTermOp(p.l, ops[j]) ==> j == k
  {
    var t := Clone(p.l.Term(b));
    p.l.IdxIs(b, |p.l.body[b]| - 1);
    assert p.Belongs(i, b, t);
    k :| 0 <= k < |ops| && ops[k] == t;
    forall j | 0 <= j < |ops| && IsTermOp(p.l, ops[j]) ensures j == k {
      assert ops[j] in ops && p.Belongs(i, b, ops[j]);
    }
  }

  /** Behind the terminator stand its own sends, before it nothing that ranks behind them. */
  lemma AroundTerm(p: Plan, i: nat, b: Block, ops: seq<Op>, k: nat, j: nat)
    requires p.Shape() && p.Keeps(i, b) && PreList(p, i, b, ops) && k < |ops| && j < |ops| && b in p.l.blocks
    requires ops[k] == Clone(p.l.Term(b))
    ensures p.Known(ops[j])
    ensures k < j ==> p.Rank(ops[j]) == 8 * (|p.l.body[b]| - 1) - 2
    ensures j < k ==> p.Rank(ops[j]) == PreRank(p, ops[j]) <= 8 * (|p.l.body[b]| - 1) - 4
    ensures j == k ==> p.Rank(ops[j]) == 8 * (|p.l.body[b]| - 1)
  {
    var last := |p.l.body[b]| - 1;
    p.l.IdxIs(b, last);
    assert ops[j] in ops && p.Belongs(i, b, ops[j]);
    AfterCopy(p, i, b, ops, p.l.Term(b), k, j);
    SendsLast(p, i, b, ops[j]);
  }

  lemma SendsLast(p: Plan, i: nat, b: Block, op: Op)
    requires p.Shape() && b in p.l.blocks && p.Belongs(i, b, op)
    ensures PreRank(p, op) >= 8 * (|p.l.body[b]| - 1) + 2 ==> p.Rank(op) == 8 * (|p.l.body[b]| - 1) - 2
    ensures PreRank(p, op) <= 8 * (|p.l.body[b]| - 1) ==> p.Rank(op) == PreRank(p, op)
  {
    p.l.IdxIs(b, |p.l.body[b]| - 1);
    if op.Produce? { assert p.chans[op.chan] in p.chans; }
    if op.Consume? { assert p.chans[op.chan] in p.chans; }
  }

  /** The list after the first pass. */
  function Tidied(ops: seq<Op>, k: nat): (r: seq<Op>)
    requires k < |ops|
  {
    ops[..k] + Reversed(ops[k + 1..]) + [ops[k]]
  }

  lemma TidiedIs(ops: seq<Op>, k: nat)
    requires k < |ops|
    ensures ops[..k] + Reversed(ops[k + 1..]) + [ops[k]] == Tidied(ops, k)
    ensures |Tidied(ops, k)| > 0 && Tidied(ops, k)[|Tidied(ops, k)| - 1] == ops[k]
    ensures multiset(Tidied(ops, k)) == multiset(ops)
  {
    MoveTrailingSame(ops, k);
  }

  lemma GoodMembers(p: Plan, i: nat, b: Block, ops: seq<Op>)
    requires p.Shape() && p.GoodList(i, b, ops)
    ensures NoDups(ops) && forall op :: op in ops <==> p.Belongs(i, b, op)
  {
  }

  lemma SameMembers<T>(s: seq<T>, r: seq<T>)
    requires multiset(r) == multiset(s)
    ensures |r| == |s| && forall x :: x in r <==> x in s
  {
    assert |multiset(r)| == |multiset(s)|;
    assert forall x :: x in r <==> x in multiset(r);
    assert forall x :: x in s <==> x in multiset(s);
  }

  lemma AheadNoDups<T>(ops: seq<T>, isPhi: T -> bool, r: seq<T>)
    requires NoDups(ops) && Ahead(ops, isPhi, r)
    ensures NoDups(r) && forall x :: x in r <==> x in ops
  {
    SameMembers(ops, r);
    forall x, y | 0 <= x < y < |r| ensures r[x] != r[y] {
      assert r[x] in r;
      var i :| 0 <= i < |ops| && ops[i] == r[x];
    }
  }

  /** What does not move ahead stays last if it was. */
  lemma AheadLast<T>(ops: seq<T>, isPhi: T -> bool, r: seq<T>)
    requires |ops| > 0 && !isPhi(ops[|ops| - 1]) && Ahead(ops, isPhi, r)
    ensures |r| > 0 && r[|r| - 1] == ops[|ops| - 1]
  {
    SameMembers(ops, r);
    var t := ops[|ops| - 1];
    assert t in r;
    var z :| 0 <= z < |r| && r[z] == t;
    var last := r[|r| - 1];
    assert last in r;
    var j :| 0 <= j < |ops| && ops[j] == last;
  }

  lemma AheadRank(p: Plan, i: nat, b: Block, phis: set<Inst>, ops: seq<Op>, r: seq<Op>, x: nat, y: nat)
    requires p.Shape() && p.GoodList(i, b, ops) && Ahead(ops, op => IsPhi(p.l, phis, op), r)
    requires x < y < |r| && p.Known(r[x]) && p.Known(r[y]) && IsPhi(p.l, phis, r[x]) == IsPhi(p.l, phis, r[y])
    ensures p.Rank(r[x]) <= p.Rank(r[y])
  {
    SameMembers(ops, r);
    hide IsPhi, Plan.Rank, Plan.Known, Plan.Belongs, Plan.Shape;
    assert r[x] in r && r[y] in r;
    var j :| 0 <= j < |ops| && ops[j] == r[x];
    var k :| 0 <= k < |ops| && ops[k] == r[y];
  }

  /** In the list of a block only the last is a terminator, so the rest are phi nodes if they are among `phis`. */
  lemma PhiIs(p: Plan, i: nat, b: Block, phis: set<Inst>, op: Op)
    requires p.Shape() && p.Keeps(i, b) && p.Belongs(i, b, op)
    ensures b in p.l.body && |p.l.body[b]| > 0
    ensures op != Clone(p.l.Term(b)) ==> (IsPhi(p.l, phis, op) <==> op.Clone? && op.inst in phis)
    ensures op == Clone(p.l.Term(b)) ==> !IsPhi(p.l, phis, op)
    ensures p.Known(Clone(p.l.Term(b))) && (p.Known(op) ==> p.Rank(op) <= p.Rank(Clone(p.l.Term(b))))
  {
    p.l.IdxIs(b, |p.l.body[b]| - 1);
    if op != Clone(p.l.Term(b)) { p.RankBelowTerm(i, b, op); }
  }

  lemma PhisOf(p: Plan, i: nat, b: Block, phis: set<Inst>, r: seq<Op>)
    requires p.Shape() && p.Keeps(i, b) && b in p.l.body && |p.l.body[b]| > 0 && NoDups(r) && forall op :: op in r ==> p.Belongs(i, b, op)
    requires |r| > 0 && r[|r| - 1] == Clone(p.l.Term(b))
    ensures forall x :: 0 <= x < |r| - 1 ==> (IsPhi(p.l, phis, r[x]) <==> r[x].Clone? && r[x].inst in phis)
    ensures forall x :: 0 <= x < |r| && p.Known(r[x]) && p.Known(r[|r| - 1]) ==> p.Rank(r[x]) <= p.Rank(r[|r| - 1])
  {
    hide IsPhi, Plan.Rank, Plan.Known, Plan.Belongs, Plan.Shape, Plan.Keeps;
    forall x: nat | x < |r|
      ensures x < |r| - 1 ==> (IsPhi(p.l, phis, r[x]) <==> r[x].Clone? && r[x].inst in phis)
      ensures p.Known(r[x]) && p.Known(r[|r| - 1]) ==> p.Rank(r[x]) <= p.Rank(r[|r| - 1])
    {
      assert r[x] in r;
      PhiIs(p, i, b, phis, r[x]);
    }
  }

  lemma ArrangedHolds(p: Plan, i: nat, b: Block, phis: set<Inst>, ops: seq<Op>, r: seq<Op>)
    requires p.Shape() && p.Keeps(i, b) && p.GoodList(i, b, ops) && Ahead(ops, op => IsPhi(p.l, phis, op), r)
    requires b in p.l.body && |p.l.body[b]| > 0 && |ops| > 0 && ops[|ops| - 1] == Clone(p.l.Term(b)) && IsTermOp(p.l, ops[|ops| - 1])
    ensures Arranged(p, i, b, phis, r)
  {
    var isPhi := op => IsPhi(p.l, phis, op);
    assert !isPhi(ops[|ops| - 1]);
    GoodMembers(p, i, b, ops);
    hide IsPhi, Plan.Rank, Plan.Known, Plan.Belongs, Plan.Shape, IsTermOp, Plan.Keeps, Plan.GoodList, NoDups;
    AheadNoDups(ops, isPhi, r);
    AheadLast(ops, isPhi, r);
    PhisOf(p, i, b, phis, r);
    AheadRanks(p, i, b, phis, ops, r);
    AheadUp(ops, isPhi, r);
    hide Ahead;
  }

  lemma AheadRanks(p: Plan, i: nat, b: Block, phis: set<Inst>, ops: seq<Op>, r: seq<Op>)
    requires p.Shape() && p.GoodList(i, b, ops) && Ahead(ops, op => IsPhi(p.l, phis, op), r)
    ensures forall x, y :: 0 <= x < y < |r| && p.Known(r[x]) && p.Known(r[y]) && IsPhi(p.l, phis, r[x]) == IsPhi(p.l, phis, r[y]) ==>
              p.Rank(r[x]) <= p.Rank(r[y])
  {
    hide IsPhi, Plan.Rank, Plan.Known, Plan.Shape, Plan.GoodList, Ahead;
    forall x: nat, y: nat | x < y < |r| && IsPhi(p.l, phis, r[x]) == IsPhi(p.l, phis, r[y]) && p.Known(r[x]) && p.Known(r[y])
      ensures p.Rank(r[x]) <= p.Rank(r[y])
    {
      AheadRank(p, i, b, phis, ops, r, x, y);
    }
  }

  lemma AheadUp(ops: seq<Op>, isPhi: Op -> bool, r: seq<Op>)
    requires Ahead(ops, isPhi, r)
    ensures forall x, y :: 0 <= x < y < |r| && isPhi(r[y]) ==> isPhi(r[x])
  {
  }

  /** Without phi nodes that is the order of execution. */
  lemma ArrangedGood(p: Plan, i: nat, b: Block, r: seq<Op>)
    requires p.Shape() && p.Keeps(i, b) && Arranged(p, i, b, {}, r)
    ensures p.GoodList(i, b, r)
  {
    hide Plan.Rank, Plan.Known, Plan.Belongs, Plan.Shape;
  }

  /** Place in the old list of what stands at `j` in the tidied one. */
  function Origin(n: nat, k: nat, j: nat): nat
    requires j < n && k < n
  {
    if j < k then j else if j == n - 1 then k else n - 1 - (j - k)
  }

  lemma TidiedAt(ops: seq<Op>, k: nat, j: nat)
    requires k < |ops| && j < |ops|
    ensures |Tidied(ops, k)| == |ops| && Tidied(ops, k)[j] == ops[Origin(|ops|, k, j)]
  {
    var back := ops[k + 1..];
    if back != [] { ReversedAt(back, if k <= j < |ops| - 1 then j - k else 0); }
  }

  /** Cleanup turns the order in which things were inserted into the order of execution. */
  lemma TidyGood(p: Plan, i: nat, b: Block, ops: seq<Op>, k: nat)
    requires p.Shape() && p.Keeps(i, b) && PreList(p, i, b, ops) && b in p.l.blocks && k < |ops|
    requires ops[k] == Clone(p.l.Term(b))
    ensures p.GoodList(i, b, Tidied(ops, k))
  {
    hide Tidied, Plan.Rank, PreRank, Plan.Shape, Plan.Known, Plan.Belongs, PreOrdered;
    var r := Tidied(ops, k);
    TidiedAt(ops, k, k);
    TidyDistinct(ops, k);
    forall o ensures o in r <==> p.Belongs(i, b, o) {
      TidiedIs(ops, k);
      assert o in r <==> o in multiset(r);
      assert o in ops <==> o in multiset(ops);
    }
    forall x: nat, y: nat | x < y < |r| ensures p.Known(r[x]) && p.Known(r[y]) && p.Rank(r[x]) <= p.Rank(r[y]) {
      TidyOrder(p, i, b, ops, k, x, y);
    }
  }

  lemma TidyDistinct(ops: seq<Op>, k: nat)
    requires NoDups(ops) && k < |ops|
    ensures NoDups(Tidied(ops, k))
  {
    hide Tidied;
    TidiedAt(ops, k, k);
    forall x: nat, y: nat | x < y < |Tidied(ops, k)| ensures Tidied(ops, k)[x] != Tidied(ops, k)[y] {
      TidiedAt(ops, k, x);
      TidiedAt(ops, k, y);
    }
  }

  lemma TidyOrder(p: Plan, i: nat, b: Block, ops: seq<Op>, k: nat, x: nat, y: nat)
    requires p.Shape() && p.Keeps(i, b) && PreList(p, i, b, ops) && b in p.l.blocks && k < |ops|
    requires ops[k] == Clone(p.l.Term(b))
    requires x < y < |ops| == |Tidied(ops, k)|
    ensures p.Known(Tidied(ops, k)[x]) && p.Known(Tidied(ops, k)[y])
    ensures p.Rank(Tidied(ops, k)[x]) <= p.Rank(Tidied(ops, k)[y])
  {
    TidiedAt(ops, k, x);
    TidiedAt(ops, k, y);
    var x', y' := Origin(|ops|, k, x), Origin(|ops|, k, y);
    AroundTerm(p, i, b, ops, k, x');
    AroundTerm(p, i, b, ops, k, y');
    hide Plan.Rank, PreRank, Tidied, Plan.Shape, Plan.Known, Plan.Belongs;
  }

  class Synchronizer {
    /** The split, without channels. */
    ghost const p: Plan
    const l: Loop
    const owner: map<Inst, nat>
    const instMap: seq<set<Inst>>
    const placeEquivalents: seq<map<Inst, Inst>>
    const threads: nat

    var chans: seq<Channel>
    var code: seq<map<Block, seq<Op>>>

    constructor (ghost p: Plan, l: Loop, owner: map<Inst, nat>, instMap: seq<set<Inst>>,
                 placeEquivalents: seq<map<Inst, Inst>>, threads: nat, code: seq<map<Block, seq<Op>>>)
      ensures this.p == p && this.l == l && this.owner == owner && this.instMap == instMap
      ensures this.placeEquivalents == placeEquivalents && this.threads == threads && this.code == code && chans == []
    {
      this.p, this.l, this.owner, this.instMap := p, l, owner, instMap;
      this.placeEquivalents, this.threads, this.code, chans := placeEquivalents, threads, code, [];
    }

    ghost predicate Given() {
      && p.Shape() && p.l == l && p.owner == owner && p.chans == [] && Maps(p, instMap, placeEquivalents)
      && |p.kept| <= threads
      && forall x :: x in l.parent ==> owner[x] < |p.kept| && p.Keeps(owner[x], l.parent[x])
    }

    ghost function Now(): Plan
      reads this
    {
      p.(chans := chans)
    }

    ghost predicate Valid()
      reads this
    {
      Given() && PreCode(Now(), code)
    }

    /** `sync_produce` immediately behind the copy of `u`. */
    method InsertProduce(utr: nat, u: Inst, c: nat, b: Block)
      requires utr < |code| && b in code[utr] && Clone(u) in code[utr][b]
      modifies this`code
      ensures |code| == |old(code)| && forall i :: 0 <= i < |code| && i != utr ==> code[i] == old(code)[i]
      ensures exists k :: 0 <= k < |old(code)[utr][b]| && old(code)[utr][b][k] == Clone(u) &&
                  code[utr] == old(code)[utr][b := InsertAt(old(code)[utr][b], k + 1, Produce(c))]
    {
      var ops := code[utr][b];
      var k := IndexOf(ops, Clone(u));
      var lists: map<Block, seq<Op>> := code[utr][b := InsertAt(ops, k + 1, Produce(c))];
      code := code[utr := lists];
    }

    /** `sync_consume` immediately in front of what stands for `u`; nowhere to put it is an error. */
    method InsertConsume(vtr: nat, u: Inst, c: nat, b: Block) returns (ok: bool)
      requires Given() && u in l.parent && l.parent[u] == b && vtr < |code| == |p.kept|
      requires p.Keeps(vtr, b) ==> b in code[vtr] && Clone(PlaceOf(p, vtr, u)) in code[vtr][b]
      modifies this`code
      ensures ok <==> p.Keeps(vtr, b)
      ensures !ok ==> code == old(code)
      ensures ok ==> |code| == |old(code)| && forall i :: 0 <= i < |code| && i != vtr ==> code[i] == old(code)[i]
      ensures ok ==>
                exists k :: 0 <= k < |old(code)[vtr][b]| && old(code)[vtr][b][k] == Clone(PlaceOf(p, vtr, u)) &&
                  code[vtr] == old(code)[vtr][b := InsertAt(old(code)[vtr][b], k, Consume(c))]
    {
      var insPos := u;
      if u in placeEquivalents[vtr] {
        insPos := placeEquivalents[vtr][u];
      } else if u !in instMap[vtr] {
        return false;
      }
      ok := true;
      PlaceIsSelf(vtr, u);
      var ops := code[vtr][b];
      var k := IndexOf(ops, Clone(insPos));
      var lists: map<Block, seq<Op>> := code[vtr][b := InsertAt(ops, k, Consume(c))];
      code := code[vtr := lists];
    }

    lemma PlaceIsSelf(i: nat, u: Inst)
      requires Given() && u in l.parent
      ensures p.Cloned(i, u) ==> PlaceOf(p, i, u) == u
    {
    }

    ghost function ChannelOf(e: Edge, vtr: nat): Channel
      requires e.u in owner
    {
      Channel(e.u, e.v, e.dtype, owner[e.u], vtr)
    }

    lemma NowFits(e: Edge, vtr: nat)
      requires Valid() && e.u in l.parent && owner[e.u] < vtr < |p.kept| && p.Keeps(vtr, l.parent[e.u])
      ensures Fits(Now(), ChannelOf(e, vtr)) && PlaceOf(Now(), vtr, e.u) == PlaceOf(p, vtr, e.u)
    {
      NextSame(p, Now(), vtr, l.parent[e.u], l.Idx(e.u));
    }

    lemma CopyListed(i: nat, b: Block, x: Inst)
      requires Valid() && p.Keeps(i, b) && x in l.parent && l.parent[x] == b && p.Cloned(i, x)
      ensures i < |code| == |p.kept| && b in code[i] && Clone(x) in code[i][b]
    {
      assert Now().Keeps(i, b);
      assert PreList(Now(), i, b, code[i][b]);
      assert Now().Belongs(i, b, Clone(x));
    }

    /** What the two insertions need. */
    lemma EndsListed(e: Edge, vtr: nat)
      requires Valid() && e.u in l.parent && owner[e.u] < vtr < |p.kept|
      ensures Given() && p.l == l && e.u in owner && |code| == |p.kept| && owner[e.u] < |code|
      ensures l.parent[e.u] in code[owner[e.u]] && Clone(e.u) in code[owner[e.u]][l.parent[e.u]]
      ensures p.Keeps(vtr, l.parent[e.u]) ==>
                && Fits(Now(), ChannelOf(e, vtr)) && PlaceOf(Now(), vtr, e.u) == PlaceOf(p, vtr, e.u)
                && l.parent[e.u] in code[vtr] && Clone(PlaceOf(p, vtr, e.u)) in code[vtr][l.parent[e.u]]
    {
      hide PreCode, PlaceOf, Maps, Fits;
      CopyListed(owner[e.u], l.parent[e.u], e.u);
      if p.Keeps(vtr, l.parent[e.u]) {
        NowFits(e, vtr);
        CopyListed(vtr, l.parent[e.u], PlaceOf(p, vtr, e.u));
      }
    }

    /** Puts in both ends of channel number `c`. */
    method PutEnds(e: Edge, vtr: nat, b: Block, c: nat) returns (ok: bool)
      requires Given() && e.u in l.parent && l.parent[e.u] == b && owner[e.u] < vtr < |p.kept| == |code|
      requires b in code[owner[e.u]] && Clone(e.u) in code[owner[e.u]][b]
      requires p.Keeps(vtr, b) ==> b in code[vtr] && Clone(PlaceOf(p, vtr, e.u)) in code[vtr][b]
      requires p.Keeps(vtr, b) ==> Fits(Now(), ChannelOf(e, vtr)) && PlaceOf(Now(), vtr, e.u) == PlaceOf(p, vtr, e.u)
      requires c == |chans| && p.l == l && e.u in owner
      modifies this`code
      ensures ok <==> p.Keeps(vtr, b)
      ensures ok ==> Wired(Now(), ChannelOf(e, vtr), old(code), code)
    {
      hide PlaceOf, Given, Fits, Wired;
      ghost var ch, before := ChannelOf(e, vtr), code;
      InsertProduce(owner[e.u], e.u, c, b);
      ghost var mid := code;
      ok := InsertConsume(vtr, e.u, c, b);
      if ok {
        assert SentIn(Now(), ch, b, before, mid);
        assert GotIn(Now(), ch, b, mid, code);
        hide SentIn, GotIn;
        FitsFacts(Now(), ch);
        SentAndGot(Now(), ch, before, mid, code);
      }
    }

    /** Both ends of the next channel. */
    method AddChannel(e: Edge, vtr: nat) returns (ok: bool)
      requires Valid() && e.u in l.parent && owner[e.u] < vtr < |p.kept|
      modifies this
      ensures ok <==> p.Keeps(vtr, l.parent[e.u])
      ensures ok ==> Valid() && chans == old(chans) + [ChannelOf(e, vtr)]
    {
      hide PreCode, PlaceOf, Given, Fits, Wired;
      EndsListed(e, vtr);
      ghost var now, before := Now(), code;
      ok := PutEnds(e, vtr, l.parent[e.u], |chans|);
      if ok {
        GrowCode(now, ChannelOf(e, vtr), before, code);
        chans := chans + [Channel(e.u, e.v, e.dtype, owner[e.u], vtr)];
      }
    }

    /** One channel per edge and later thread that has a copy of its target; an error when some receive has no place. */
    method InsertSynchronization(allEdges: seq<Edge>) returns (ok: bool)
      requires Valid() && chans == [] && EdgesInside(l, allEdges)
      modifies this
      ensures ok <==> AllServed(p, allEdges, |allEdges|)
      ensures ok ==> Valid() && chans == AllChans(p, allEdges, |allEdges|)
      ensures ok && NoDups(allEdges) ==> EdgeOrder(allEdges, chans)
    {
      assert Owns(p) && p.l == l && p.owner == owner;
      AllChansNone(p, allEdges);
      hide PreCode, Maps, Served, AllServed, EdgeChans, AllChans, Owns, EdgesInside, Plan.Shape, Loop.Valid, Given, EdgeOrder, NoDups;
      for i := 0 to |allEdges|
        invariant Valid() && chans == AllChans(p, allEdges, i)
        invariant AllServed(p, allEdges, i)
      {
        var e := allEdges[i];
        assert e in allEdges;
        AllChansStep(p, allEdges, i);
        ok := Synchronize(e);
        if !ok { return; }
      }
      ok := true;
      if NoDups(allEdges) { AllChansOrdered(p, allEdges, |allEdges|); }
    }

    method Synchronize(e: Edge) returns (ok: bool)
      requires Valid() && e.u in l.parent && e.v in l.parent
      modifies this
      ensures ok <==> Served(p, e)
      ensures ok ==> Valid() && chans == old(chans) + EdgeChans(p, e, |p.kept|)
    {
      hide PreCode, Maps, Plan.Shape, Owns, Loop.Valid, Plan.HasCopy, Given, Valid, ServedTo, EdgeChans, EdgeChan;
      hide Served;
      Basics();
      var vtr := owner[e.u] + 1;
      ghost var before := chans;
      EdgeStart(p, e, before);
      hide Extended;
      ok := true;
      while vtr < threads
        invariant owner[e.u] < vtr && ServedTo(p, e, vtr) && Valid() && Extended(p, e, vtr, before, chans)
      {
        ok := Connect(e, vtr, before);
        if !ok { return; }
        vtr := vtr + 1;
      }
      ServedEnd(e, vtr, before);
    }

    /** A channel for `e` to thread `vtr` if that has a copy of the target. */
    method Connect(e: Edge, vtr: nat, ghost before: seq<Channel>) returns (ok: bool)
      requires Valid() && e.u in l.parent && e.v in l.parent && owner[e.u] < vtr && Owns(p) && p.l == l
      requires p.owner == owner
      requires ServedTo(p, e, vtr) && Extended(p, e, vtr, before, chans)
      modifies this
      ensures ok ==> Valid() && ServedTo(p, e, vtr + 1) && Extended(p, e, vtr + 1, before, chans)
      ensures !ok ==> !Served(p, e)
    {
      var utr := owner[e.u];
      HasCopies(e, vtr);
      EdgeStep(p, e, vtr, before, chans);
      hide PreCode, Maps, Plan.Shape, Owns, Loop.Valid, Plan.HasCopy, Given, Valid, ServedTo, EdgeChans, Served;
      hide Extended;
      ok := true;
      if utr < |instMap| && vtr < |instMap| && e.u in instMap[utr] && e.v in instMap[vtr] {
        ok := AddChannel(e, vtr);
      }
    }

    lemma Basics()
      requires Valid()
      ensures Owns(p) && p.l == l && p.owner == owner
    {
    }

    lemma HasCopies(e: Edge, vtr: nat)
      requires Valid() && e.u in l.parent && e.v in l.parent
      ensures owner[e.u] < |instMap| == |p.kept| && e.u in instMap[owner[e.u]]
      ensures p.HasCopy(vtr, e.v) <==> vtr < |instMap| && e.v in instMap[vtr]
    {
    }

    lemma ServedEnd(e: Edge, vtr: nat, before: seq<Channel>)
      requires Valid() && e.u in l.parent && threads <= vtr && ServedTo(p, e, vtr) && Extended(p, e, vtr, before, chans)
      ensures Served(p, e) && chans == before + EdgeChans(p, e, |p.kept|)
    {
      EdgeChansEnd(e, vtr);
    }

    lemma {:induction false} EdgeChansEnd(e: Edge, hi: nat)
      requires Valid() && e.u in l.parent && |p.kept| <= hi
      ensures EdgeChans(p, e, hi) == EdgeChans(p, e, |p.kept|) && (ServedTo(p, e, hi) ==> Served(p, e))
      decreases hi
    {
      hide Given, PreCode, Plan.HasCopy, EdgeChan, Owns;
      Basics();
      if |p.kept| < hi {
        EdgeChansEnd(e, hi - 1);
        NoThread(p, e, hi - 1);
      }
      forall to: nat | |p.kept| <= to ensures Placeable(p, e, to) { NoThread(p, e, to); }
    }

    /** Both passes over one block's list, whatever is a phi node. */
    method Clean(ops: seq<Op>, phis: set<Inst>, ghost i: nat, ghost b: Block) returns (ok: bool, r: seq<Op>)
      requires Valid() && p.Keeps(i, b) && PreList(Now(), i, b, ops)
      ensures ok && multiset(r) == multiset(ops) && Arranged(Now(), i, b, phis, r)
    {
      ghost var now := Now();
      ghost var k := TermAt(now, i, b, ops);
      TidyGood(now, i, b, ops, k);
      GoodMembers(now, i, b, Tidied(ops, k));
      hide PreCode, Maps, Plan.Shape, PreList, Plan.GoodList, IsTermOp, Tidied, Given, Arranged, Ahead, NoDups;
      TidiedIs(ops, k);
      var moved;
      ok, moved := TermLast(ops, k);
      r := PhisFirst(moved, phis);
      ArrangedHolds(now, i, b, phis, moved, r);
    }

    method TermLast(ops: seq<Op>, ghost k: nat) returns (ok: bool, r: seq<Op>)
      requires k < |ops| && IsTermOp(l, ops[k]) && forall j :: 0 <= j < |ops| && IsTermOp(l, ops[j]) ==> j == k
      ensures ok && r == Tidied(ops, k)
    {
      hide IsTermOp, Reversed;
      var isTerm := op => IsTermOp(l, op);
      assert isTerm(ops[k]);
      ok, r := MoveTrailing(ops, isTerm);
    }

    method PhisFirst(ops: seq<Op>, phis: set<Inst>) returns (r: seq<Op>)
      requires |ops| > 0 && IsTermOp(l, ops[|ops| - 1]) && NoDups(ops)
      ensures multiset(r) == multiset(ops) && Ahead(ops, op => IsPhi(l, phis, op), r)
    {
      hide IsTermOp, Filtered, NoDups;
      var isPhi := op => IsPhi(l, phis, op);
      assert !isPhi(ops[|ops| - 1]);
      r := MovePhis(ops, isPhi);
      PhisAhead(ops, isPhi);
    }

    /** The lists of all functions in their final order. */
    method Cleanup(phis: set<Inst>) returns (ok: bool)
      requires Valid()
      modifies this`code
      ensures ok && |code| == |old(code)|
      ensures forall i, b :: 0 <= i < |code| ==> (b in code[i] <==> b in old(code)[i])
      ensures forall i, b :: 0 <= i < |code| && b in code[i] ==> multiset(code[i][b]) == multiset(old(code)[i][b])
      ensures forall i: nat, b :: p.Keeps(i, b) ==>
                i < |code| && b in code[i] && Now().Keeps(i, b) && Arranged(Now(), i, b, phis, code[i][b])
    {
      ghost var was := code;
      var done: seq<map<Block, seq<Op>>> := [];
      hide PreList, Maps, Plan.Shape, Arranged;
      for i := 0 to |code|
        invariant code == was && Valid() && |done| == i
        invariant forall j: nat, b :: j < i ==> (b in done[j] <==> b in code[j])
        invariant forall j: nat, b :: j < i && b in done[j] ==> multiset(done[j][b]) == multiset(code[j][b])
        invariant forall j: nat, b :: j < i && b in done[j] ==> Now().Keeps(j, b) && Arranged(Now(), j, b, phis, done[j][b])
      {
        var lists := CleanThread(i, phis);
        done := done + [lists];
      }
      ok := true;
      assert forall i: nat, b :: p.Keeps(i, b) ==> Now().Keeps(i, b);
      code := done;
    }

    method CleanThread(i: nat, phis: set<Inst>) returns (lists: map<Block, seq<Op>>)
      requires Valid() && i < |code|
      ensures forall b :: b in lists <==> b in code[i]
      ensures forall b :: b in lists ==> multiset(lists[b]) == multiset(code[i][b])
      ensures forall b :: b in lists ==> Now().Keeps(i, b) && Arranged(Now(), i, b, phis, lists[b])
    {
      lists := map[];
      var todo := code[i].Keys;
      assert forall b :: b in code[i] ==> Now().Keeps(i, b) && PreList(Now(), i, b, code[i][b]);
      hide PreList, Maps, Plan.Shape, PreCode, Arranged;
      while todo != {}
        invariant todo <= code[i].Keys
        invariant forall b :: b in lists <==> b in code[i] && b !in todo
        invariant forall b :: b in lists ==> multiset(lists[b]) == multiset(code[i][b])
        invariant forall b :: b in lists ==> Now().Keeps(i, b) && Arranged(Now(), i, b, phis, lists[b])
        decreases |todo|
      {
        var b :| b in todo;
        var ok, r := Clean(code[i][b], phis, i, b);
        lists := lists[b := r];
        todo := todo - {b};
      }
    }
  }
}
