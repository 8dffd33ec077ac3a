/** Reachability in the program dependence graph, as its two adjacency maps give it. */
module Reachability {
  import opened Ir

  datatype Digraph = Digraph(nodes: set<Inst>, pdg: map<Inst, seq<Edge>>, rev: map<Inst, seq<Edge>>) {
    function Out(u: Inst): seq<Edge> { ListAt(pdg, u) }

    function In(v: Inst): seq<Edge> { ListAt(rev, v) }

    /** Some edge leads from `a` to `b`. */
    ghost predicate Step(a: Inst, b: Inst) {
      exists e :: e in Out(a) && e.v == b
    }

    /** `rev` mirrors `pdg`, and edges stay among the nodes. */
    ghost predicate Valid() {
      && (forall a, b :: Step(a, b) <==> exists e :: e in In(b) && e.v == a)
      && (forall a, b :: Step(a, b) ==> a in nodes && b in nodes)
    }

    ghost predicate Walk(p: seq<Inst>) {
      && |p| > 0
      && forall i, j :: 0 <= i && j == i + 1 && j < |p| ==> Step(p[i], p[j])
    }

    ghost predicate Reach(a: Inst, b: Inst) {
      exists p :: Walk(p) && p[0] == a && p[|p| - 1] == b
    }

    ghost predicate Mutual(a: Inst, b: Inst) {
      Reach(a, b) && Reach(b, a)
    }

    lemma ReachRefl(a: Inst)
      ensures Reach(a, a)
    {
      assert Walk([a]);
    }

    lemma ReachStep(a: Inst, b: Inst)
      requires Step(a, b)
      ensures Reach(a, b)
    {
      assert Walk([a, b]);
    }

    lemma ReachTrans(a: Inst, b: Inst, c: Inst)
      requires Reach(a, b) && Reach(b, c)
      ensures Reach(a, c)
    {
      var p :| Walk(p) && p[0] == a && p[|p| - 1] == b;
      var q :| Walk(q) && q[0] == b && q[|q| - 1] == c;
      var r := p + q[1..];
      forall i, j | 0 <= i && j == i + 1 && j < |r| ensures Step(r[i], r[j]) {
        if j == |p| { assert r[i] == q[0] && r[j] == q[1]; }
        else if j > |p| { assert r[i] == q[i - |p| + 1] && r[j] == q[j - |p| + 1]; }
      }
      assert Walk(r);
    }

    lemma MutualTrans(a: Inst, b: Inst, c: Inst)
      requires Mutual(a, b) && Mutual(b, c)
      ensures Mutual(a, c)
    {
      ReachTrans(a, b, c);
      ReachTrans(c, b, a);
    }

    /** A walk that leaves a set has an edge that leaves it. */
    lemma Crossing(a: Inst, b: Inst, s: set<Inst>) returns (c: Inst, d: Inst)
      requires Reach(a, b) && a in s && b !in s
      ensures c in s && d !in s && Step(c, d) && Reach(a, c) && Reach(d, b)
    {
      var p :| Walk(p) && p[0] == a && p[|p| - 1] == b;
      var k := 0;
      while p[k + 1] in s
        invariant k + 1 < |p| && p[k] in s
        decreases |p| - k
      {
        k := k + 1;
      }
      c, d := p[k], p[k + 1];
      assert Walk(p[..k + 1]) && Walk(p[k + 1..]);
    }
  }
}
