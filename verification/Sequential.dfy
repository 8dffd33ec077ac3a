/** The meaning of the original loop: instructions act on registers and memory, blocks follow one another
    as the terminators decide, until the exit is reached. */
module Sequential {
  import opened Ir
  import opened PostDominance
  import opened PeeledLoop

  type Memory = map<int, int>
  type Regs = map<Inst, int>

  datatype Effect = Effect(value: int, loads: set<int>, stores: Memory)

  datatype Store = Store(regs: Regs, mem: Memory)

  function Lookup<K>(m: map<K, int>, k: K): int {
    if k in m then m[k] else 0
  }

  ghost predicate SameAt<K>(m: map<K, int>, m': map<K, int>, k: K) {
    (k in m <==> k in m') && (k in m ==> m[k] == m'[k])
  }

  /** What instructions do: the loop-defined registers they read, their effect on memory, and, for terminators,
      which successor they choose. */
  datatype Machine = Machine(
    uses: map<Inst, seq<Inst>>,
    effect: (Inst, seq<int>, Memory) -> Effect,
    choose: (Inst, seq<int>) -> nat)
  {
    function Uses(x: Inst): seq<Inst> { if x in uses then uses[x] else [] }

    function Operands(x: Inst, regs: Regs): seq<int> {
      seq(|Uses(x)|, k requires 0 <= k < |Uses(x)| => Lookup(regs, Uses(x)[k]))
    }

    /** An instruction depends on memory only through the cells it reads; a choice is one of the successors. */
    ghost predicate Valid(l: Loop)
      requires l.Valid()
    {
      && (forall x, ops, m, m' :: (forall a :: a in effect(x, ops, m).loads ==> SameAt(m, m', a)) ==>
            effect(x, ops, m') == effect(x, ops, m))
      && (forall b, ops :: b in l.blocks ==> choose(l.Term(b), ops) < |l.succ[b]|)
    }

    function EffectAt(x: Inst, st: Store): Effect {
      effect(x, Operands(x, st.regs), st.mem)
    }

    function Exec(x: Inst, st: Store): Store {
      var e := EffectAt(x, st);
      Store(st.regs[x := e.value], st.mem + e.stores)
    }

    function ExecAll(xs: seq<Inst>, st: Store): Store {
      if xs == [] then st else Exec(xs[|xs| - 1], ExecAll(xs[..|xs| - 1], st))
    }

    /** With no register defined all operands are zero; defining one changes just the operands that name it. */
    lemma OperandsSet(x: Inst, regs: Regs, u: Inst, v: int)
      ensures |Operands(x, map[])| == |Operands(x, regs)| == |Operands(x, regs[u := v])| == |Uses(x)|
      ensures forall k :: 0 <= k < |Uses(x)| ==> Operands(x, map[])[k] == 0
      ensures forall k :: 0 <= k < |Uses(x)| ==> Operands(x, regs[u := v])[k] == if Uses(x)[k] == u then v else Operands(x, regs)[k]
    {
    }

    /** Operands agree exactly when every register used has the same value. */
    lemma OperandsAgree(x: Inst, r: Regs, r': Regs)
      ensures Operands(x, r) == Operands(x, r') <==> forall u :: u in Uses(x) ==> Lookup(r, u) == Lookup(r', u)
    {
      var a, b, us := Operands(x, r), Operands(x, r'), Uses(x);
      if a == b {
        forall u | u in us ensures Lookup(r, u) == Lookup(r', u) {
          var k :| 0 <= k < |us| && us[k] == u;
          assert a[k] == Lookup(r, u) && b[k] == Lookup(r', u);
        }
      }
      if forall u :: u in us ==> Lookup(r, u) == Lookup(r', u) {
        forall k | 0 <= k < |a| ensures a[k] == b[k] { assert us[k] in us; }
      }
    }

    /** An instruction outside the list keeps its register. */
    lemma {:induction false} ExecAllFrame(xs: seq<Inst>, st: Store, u: Inst)
      requires u !in xs
      ensures SameAt(ExecAll(xs, st).regs, st.regs, u)
    {
      if xs != [] { ExecAllFrame(xs[..|xs| - 1], st, u); }
    }
  }

  /** A run of the loop from `init`. */
  datatype Run = Run(l: Loop, m: Machine, init: Store) {
    ghost predicate Valid() {
      l.Valid() && m.Valid(l)
    }

    /** The non-terminator instructions of a block. */
    function Work(b: Block): seq<Inst>
      requires l.Valid() && b in l.blocks
    {
      l.body[b][..|l.body[b]| - 1]
    }

    /** Block and store at the start of visit `t`; the exit is never left. */
    function Conf(t: nat): (c: (Block, Store))
      requires Valid()
      ensures c.0 in l.blocks || c.0 == l.exit
    {
      if t == 0 then (l.header, init)
      else
        var (b, st) := Conf(t - 1);
        if b == l.exit then (b, st)
        else
          var st' := m.ExecAll(Work(b), st);
          var s := l.succ[b][m.choose(l.Term(b), m.Operands(l.Term(b), st'.regs))];
          assert s in l.succ[b];
          (s, st')
    }

    function Blk(t: nat): Block
      requires Valid()
    {
      Conf(t).0
    }

    function At(t: nat): Store
      requires Valid()
    {
      Conf(t).1
    }

    /** The store of visit `t` after the first `k` instructions. */
    function Mid(t: nat, k: nat): Store
      requires Valid() && Blk(t) != l.exit && k <= |Work(Blk(t))|
    {
      m.ExecAll(Work(Blk(t))[..k], At(t))
    }

    /** The loop leaves after exactly `n` visits. */
    ghost predicate Ends(n: nat)
      requires Valid()
    {
      Blk(n) == l.exit && forall t :: 0 <= t < n ==> Blk(t) != l.exit
    }

    lemma NextVisit(t: nat)
      requires Valid() && Blk(t) != l.exit
      ensures Blk(t) in l.blocks
      ensures At(t + 1) == Mid(t, |Work(Blk(t))|)
      ensures m.choose(l.Term(Blk(t)), m.Operands(l.Term(Blk(t)), At(t + 1).regs)) < |l.succ[Blk(t)]|
      ensures Blk(t + 1) == l.succ[Blk(t)][m.choose(l.Term(Blk(t)), m.Operands(l.Term(Blk(t)), At(t + 1).regs))]
    {
      var w := Work(Blk(t));
      assert w[..|w|] == w;
    }

    lemma NextMid(t: nat, k: nat)
      requires Valid() && Blk(t) != l.exit && k < |Work(Blk(t))|
      ensures Mid(t, k + 1) == m.Exec(Work(Blk(t))[k], Mid(t, k))
    {
      var w := Work(Blk(t));
      assert w[..k + 1][..k] == w[..k];
    }

    /** Value of the register `u` in visit `t`, before (`done` false) or after `u`'s own instruction. */
    ghost function RegAt(t: nat, u: Inst, done: bool): Regs
      requires Valid()
    {
      if done && Blk(t) != l.exit then At(t + 1).regs else At(t).regs
    }

    /** Within a visit a register changes only at its own instruction. */
    lemma MidReg(t: nat, k: nat, u: Inst)
      requires Valid() && Blk(t) != l.exit && k <= |Work(Blk(t))| && u in l.parent && !l.IsTerm(u)
      ensures SameAt(Mid(t, k).regs, RegAt(t, u, l.parent[u] == Blk(t) && l.Idx(u) < k), u)
    {
      var b := Blk(t);
      var w := Work(b);
      NextVisit(t);
      if l.parent[u] == b && l.Idx(u) < k {
        KeepsAfter(w, k, u, At(t));
      } else {
        forall j | 0 <= j < k ensures w[j] != u { l.IdxIs(b, j); }
        m.ExecAllFrame(w[..k], At(t), u);
      }
    }

    lemma {:induction false} KeepsAfter(w: seq<Inst>, k: nat, u: Inst, st: Store)
      requires k <= |w| && u !in w[k..]
      ensures SameAt(m.ExecAll(w, st).regs, m.ExecAll(w[..k], st).regs, u)
    {
      if k == |w| {
        assert w[..k] == w;
      } else {
        var front := w[..|w| - 1];
        assert front[..k] == w[..k];
        assert forall j :: k <= j < |front| ==> front[j] == w[k..][j - k];
        KeepsAfter(front, k, u, st);
        assert w[|w| - 1] == w[k..][|w| - 1 - k];
      }
    }
  }
}
