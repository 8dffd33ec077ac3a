/** The code of the worker threads: for each kept block a list of cloned instructions, sends and receives. */
module Plan {
  import opened Ir
  import opened PostDominance
  import opened PeeledLoop
  import opened Slicing

  datatype Op = Clone(inst: Inst) | Produce(chan: nat) | Consume(chan: nat)

  /** One channel carries one dependence `u`-`v` from `u`'s thread to a later one. */
  datatype Channel = Channel(u: Inst, v: Inst, dtype: DType, from: nat, to: nat)

  datatype Plan = Plan(
    l: Loop,
    owner: map<Inst, nat>,
    kept: seq<set<Block>>,
    chans: seq<Channel>,
    code: seq<map<Block, seq<Op>>>,
    targets: seq<map<Block, seq<Block>>>)
  {
    function Threads(): nat { |kept| }

    predicate Keeps(i: nat, b: Block) {
      i < |kept| && b in kept[i]
    }

    function Code(i: nat, b: Block): seq<Op> {
      if i < |code| && b in code[i] then code[i][b] else []
    }

    function Targets(i: nat, b: Block): seq<Block> {
      if i < |targets| && b in targets[i] then targets[i][b] else []
    }

    /** Thread `i` gets a copy of `x`: its own instructions, and every terminator of a block it keeps. */
    ghost predicate Cloned(i: nat, x: Inst)
      requires l.Valid() && x in l.parent && x in owner
    {
      owner[x] == i || l.IsTerm(x)
    }

    /** Thread `i` has a copy of `x`. */
    ghost predicate HasCopy(i: nat, x: Inst)
      requires l.Valid() && forall y :: y in l.parent ==> y in owner
    {
      x in l.parent && Keeps(i, l.parent[x]) && Cloned(i, x)
    }

    ghost predicate Shape() {
      && l.Valid()
      && (forall x :: x in l.parent ==> x in owner)
      && (forall i, b :: Keeps(i, b) ==> b in l.blocks)
      && (forall c :: c in chans ==> c.u in l.parent && c.from == owner[c.u] && c.from < c.to < |kept|)
      && (forall c :: c in chans ==> Keeps(c.from, l.parent[c.u]) && Keeps(c.to, l.parent[c.u]))
    }

    /** Where in its block the first instruction not before `k` stands that thread `i` has a copy of. */
    ghost function NextCloned(i: nat, b: Block, k: nat): (m: nat)
      requires l.Valid() && b in l.blocks && k < |l.body[b]| && forall x :: x in l.parent ==> x in owner
      ensures k <= m < |l.body[b]| && l.body[b][m] in l.parent && Cloned(i, l.body[b][m])
      ensures forall j :: k <= j < m ==> l.body[b][j] in l.parent && !Cloned(i, l.body[b][j])
      decreases |l.body[b]| - k
    {
      l.IdxIs(b, k);
      if Cloned(i, l.body[b][k]) then k else NextCloned(i, b, k + 1)
    }

    /** Place of an operation among those of its block: sends follow their instruction (a terminator's precede it),
        receives stand before the next copy. */
    ghost function Rank(op: Op): int
      requires Shape() && Known(op)
    {
      match op
      case Clone(x) => 8 * l.Idx(x)
      case Produce(c) =>
        var u := chans[c].u;
        if l.IsTerm(u) then 8 * l.Idx(u) - 2 else 8 * l.Idx(u) + 2
      case Consume(c) =>
        var u := chans[c].u;
        8 * NextCloned(chans[c].to, l.parent[u], l.Idx(u)) - 4
    }

    ghost predicate Known(op: Op) {
      match op
      case Clone(x) => x in l.parent
      case Produce(c) => c < |chans|
      case Consume(c) => c < |chans|
    }

    /** `op` belongs into thread `i`'s copy of block `b`. */
    ghost predicate Belongs(i: nat, b: Block, op: Op)
      requires Shape()
    {
      Known(op) &&
      match op
      case Clone(x) => l.parent[x] == b && Cloned(i, x)
      case Produce(c) => chans[c].from == i && l.parent[chans[c].u] == b
      case Consume(c) => chans[c].to == i && l.parent[chans[c].u] == b
    }

    /** The list holds what belongs into it, each operation once, in rank order. */
    ghost predicate GoodList(i: nat, b: Block, ops: seq<Op>)
      requires Shape()
    {
      && NoDups(ops)
      && (forall op :: op in ops <==> Belongs(i, b, op))
      && (forall p, q :: 0 <= p < q < |ops| && Known(ops[p]) && Known(ops[q]) ==> Rank(ops[p]) <= Rank(ops[q]))
    }

    ghost predicate GoodCode() {
      Shape() && forall i, b :: Keeps(i, b) ==> GoodList(i, b, Code(i, b))
    }

    /** Branches lead to the next kept block up the post-dominator tree. */
    ghost predicate GoodTargets(ip: map<Block, Block>)
      requires Shape() && Usable(LoopGraph(l)) && IsIPDom(LoopGraph(l), ip)
    {
      forall i: nat, b :: Keeps(i, b) ==>
        && |Targets(i, b)| == |l.succ[b]|
        && forall j :: 0 <= j < |l.succ[b]| ==>
             l.succ[b][j] in LoopGraph(l).nodes &&
             Targets(i, b)[j] == Climb(LoopGraph(l), ip, kept[i], l.succ[b][j])
    }

    // ---- consequences of the order ----

    /** An operation of smaller rank stands earlier. */
    lemma Before(i: nat, b: Block, p: nat, op: Op)
      requires GoodCode() && Keeps(i, b) && p < |Code(i, b)|
      requires Belongs(i, b, op) && Known(Code(i, b)[p]) && Rank(op) < Rank(Code(i, b)[p])
      ensures op in Code(i, b)[..p]
    {
      var ops := Code(i, b);
      var q :| 0 <= q < |ops| && ops[q] == op;
    }

    lemma NotYet(i: nat, b: Block, p: nat, op: Op)
      requires GoodCode() && Keeps(i, b) && p < |Code(i, b)|
      requires op == Code(i, b)[p]
      ensures op !in Code(i, b)[..p] && Belongs(i, b, op)
    {
      assert op in Code(i, b);
    }

    /** The copy of the terminator comes last. */
    lemma TermLast(i: nat, b: Block)
      requires GoodCode() && Keeps(i, b)
      ensures |Code(i, b)| > 0 && Code(i, b)[|Code(i, b)| - 1] == Clone(l.Term(b))
    {
      hide Rank, NextCloned;
      var ops, t := Code(i, b), Clone(l.Term(b));
      l.IdxIs(b, |l.body[b]| - 1);
      assert Belongs(i, b, t) && t in ops;
      var last := ops[|ops| - 1];
      assert last in ops && Belongs(i, b, last);
      var q :| 0 <= q < |ops| && ops[q] == t;
      if last != t { RankBelowTerm(i, b, last); }
    }

    lemma RankBelowTerm(i: nat, b: Block, op: Op)
      requires Shape() && b in l.blocks && Belongs(i, b, op) && op != Clone(l.Term(b))
      ensures l.Term(b) in l.parent && Rank(op) < Rank(Clone(l.Term(b)))
    {
      l.IdxIs(b, |l.body[b]| - 1);
    }
  }
}
