/** Post-dominance in a finite graph whose every node reaches one exit, control dependence in the
    sense of Ferrante, Ottenstein and Warren, and the tree of immediate post-dominators. */
module PostDominance {

  datatype Graph<N> = Graph(nodes: set<N>, exit: N, succ: map<N, seq<N>>)

  ghost predicate WellFormed<N>(g: Graph<N>) {
    && g.exit in g.nodes
    && g.succ.Keys == g.nodes
    && g.succ[g.exit] == []
    && forall x, s :: x in g.nodes && s in g.succ[x] ==> s in g.nodes
  }

  ghost predicate IsPath<N>(g: Graph<N>, p: seq<N>)
    requires WellFormed(g)
  {
    && |p| > 0
    && (forall i :: 0 <= i < |p| ==> p[i] in g.nodes)
    && (forall i, j :: 0 <= i && j == i + 1 && j < |p| ==> p[j] in g.succ[p[i]])
  }

  /** `p` leads from `s` to the exit. */
  ghost predicate ExitPath<N>(g: Graph<N>, s: N, p: seq<N>)
    requires WellFormed(g)
  {
    IsPath(g, p) && p[0] == s && p[|p| - 1] == g.exit
  }

  ghost predicate AllReachExit<N(!new)>(g: Graph<N>)
    requires WellFormed(g)
  {
    forall s :: s in g.nodes ==> exists p: seq<N> :: ExitPath(g, s, p)
  }

  ghost predicate Usable<N(!new)>(g: Graph<N>) {
    WellFormed(g) && AllReachExit(g)
  }

  lemma UsableFormed<N(!new)>(g: Graph<N>)
    requires Usable(g)
    ensures WellFormed(g)
  {
  }

  /** `y` post-dominates `s`: it stands on every path from `s` to the exit. */
  ghost predicate PDom<N(!new)>(g: Graph<N>, y: N, s: N)
    requires WellFormed(g)
  {
    y in g.nodes && s in g.nodes && forall p: seq<N> :: ExitPath(g, s, p) ==> y in p
  }

  ghost predicate StrictPDom<N(!new)>(g: Graph<N>, y: N, s: N)
    requires WellFormed(g)
  {
    PDom(g, y, s) && y != s
  }

  /** `y` is control dependent on `x`: some successor of `x` is post-dominated by `y`, `x` is not strictly. */
  ghost predicate ControlDep<N(!new)>(g: Graph<N>, x: N, y: N)
    requires WellFormed(g)
  {
    && x in g.nodes
    && !StrictPDom(g, y, x)
    && exists s :: s in g.succ[x] && PDom(g, y, s)
  }

  // ---- paths ----

  lemma SuffixPath<N(!new)>(g: Graph<N>, s: N, p: seq<N>, k: nat)
    requires WellFormed(g) && ExitPath(g, s, p) && k < |p|
    ensures ExitPath(g, p[k], p[k..])
  {
  }

  lemma Splice<N(!new)>(g: Graph<N>, s: N, p: seq<N>, k: nat, q: seq<N>)
    requires WellFormed(g) && ExitPath(g, s, p) && k < |p| && ExitPath(g, p[k], q)
    ensures ExitPath(g, s, p[..k] + q)
  {
    var r := p[..k] + q;
    forall i, j | 0 <= i && j == i + 1 && j < |r| ensures r[j] in g.succ[r[i]] {
      if j == k { assert r[i] == p[i] && r[j] == p[j]; }
    }
  }

  lemma Prepend<N(!new)>(g: Graph<N>, x: N, s: N, p: seq<N>)
    requires WellFormed(g) && x in g.nodes && s in g.succ[x] && ExitPath(g, s, p)
    ensures ExitPath(g, x, [x] + p)
  {
  }

  /** A position of `y` in `p`. */
  lemma Position<N>(p: seq<N>, y: N) returns (k: nat)
    requires y in p
    ensures k < |p| && p[k] == y
  {
    k :| 0 <= k < |p| && p[k] == y;
  }

  lemma LastPosition<N>(p: seq<N>, y: N) returns (k: nat)
    requires y in p
    ensures k < |p| && p[k] == y && forall j :: k < j < |p| ==> p[j] != y
  {
    k := Position(p, y);
    while exists j :: k < j < |p| && p[j] == y
      invariant k < |p| && p[k] == y
      decreases |p| - k
    {
      var j :| k < j < |p| && p[j] == y;
      k := j;
    }
  }

  // ---- post-dominance is a tree order ----

  lemma PDomRefl<N(!new)>(g: Graph<N>, s: N)
    requires WellFormed(g) && s in g.nodes
    ensures PDom(g, s, s)
  {
  }

  lemma ExitPDom<N(!new)>(g: Graph<N>, s: N)
    requires WellFormed(g) && s in g.nodes
    ensures PDom(g, g.exit, s)
  {
  }

  /** Only the exit post-dominates the exit. */
  lemma NotAtExit<N(!new)>(g: Graph<N>, y: N, s: N)
    requires WellFormed(g) && PDom(g, y, s) && y != g.exit
    ensures s != g.exit
  {
    assert ExitPath(g, g.exit, [g.exit]);
  }

  lemma PDomTrans<N(!new)>(g: Graph<N>, z: N, y: N, s: N)
    requires WellFormed(g) && PDom(g, z, y) && PDom(g, y, s)
    ensures PDom(g, z, s)
  {
    forall p: seq<N> | ExitPath(g, s, p) ensures z in p {
      var k := Position(p, y);
      SuffixPath(g, s, p, k);
      assert z in p[k..];
    }
  }

  lemma PDomAntisym<N(!new)>(g: Graph<N>, y: N, s: N)
    requires Usable(g) && PDom(g, y, s) && PDom(g, s, y)
    ensures y == s
  {
    var p: seq<N> :| ExitPath(g, s, p);
    var k := LastPosition(p, s);
    SuffixPath(g, s, p, k);
    var j := Position(p[k..], y);
    SuffixPath(g, s, p, k + j);
    var i := Position(p[k + j..], s);
    assert p[k + j + i] == s;
  }

  /** The post-dominators of one node are totally ordered. */
  lemma PDomChain<N(!new)>(g: Graph<N>, y: N, z: N, s: N)
    requires Usable(g) && PDom(g, y, s) && PDom(g, z, s)
    ensures PDom(g, y, z) || PDom(g, z, y)
  {
    if !PDom(g, y, z) && !PDom(g, z, y) {
      var q: seq<N> :| ExitPath(g, y, q) && z !in q;
      var r: seq<N> :| ExitPath(g, z, r) && y !in r;
      var p: seq<N> :| ExitPath(g, s, p);
      var k := FirstOfTwo(p, y, z);
      if p[k] == y {
        Splice(g, s, p, k, q);
      } else {
        Splice(g, s, p, k, r);
      }
    }
  }

  lemma FirstOfTwo<N>(p: seq<N>, y: N, z: N) returns (k: nat)
    requires y in p
    ensures k < |p| && (p[k] == y || p[k] == z) && y !in p[..k] && z !in p[..k]
  {
    var j := Position(p, y);
    k := 0;
    while p[k] != y && p[k] != z
      invariant k <= j && y !in p[..k] && z !in p[..k]
      decreases j - k
    {
      k := k + 1;
    }
  }

  /** What strictly post-dominates a node post-dominates each of its successors. */
  lemma PDomSucc<N(!new)>(g: Graph<N>, y: N, x: N, s: N)
    requires WellFormed(g) && StrictPDom(g, y, x) && s in g.succ[x]
    ensures PDom(g, y, s)
  {
    forall p: seq<N> | ExitPath(g, s, p) ensures y in p {
      Prepend(g, x, s, p);
      assert y in [x] + p;
    }
  }

  // ---- the tree ----

  /** `ip` maps each node but the exit to its immediate post-dominator, as a post-dominator tree does. */
  ghost predicate IsIPDom<N(!new)>(g: Graph<N>, ip: map<N, N>)
    requires WellFormed(g)
  {
    && (forall x :: x in g.nodes && x != g.exit ==> x in ip)
    && (forall x :: x in g.nodes && x != g.exit ==> StrictPDom(g, ip[x], x))
    && (forall x, z :: x in g.nodes && x != g.exit && StrictPDom(g, z, x) ==> PDom(g, z, ip[x]))
  }

  ghost function PDoms<N(!new)>(g: Graph<N>, s: N): set<N>
    requires WellFormed(g)
  {
    set y | y in g.nodes && PDom(g, y, s)
  }

  /** Distance to the root: how many nodes post-dominate `s`. */
  ghost function Depth<N(!new)>(g: Graph<N>, s: N): nat
    requires WellFormed(g)
  {
    |PDoms(g, s)|
  }

  lemma SubsetSize<N>(a: set<N>, b: set<N>)
    requires a <= b
    ensures |a| <= |b|
    ensures |a| == |b| ==> a == b
  {
    assert b == a + (b - a);
    if b - a == {} { assert a == b; }
  }

  lemma DepthDecreases<N(!new)>(g: Graph<N>, y: N, s: N)
    requires Usable(g) && StrictPDom(g, y, s)
    ensures Depth(g, y) < Depth(g, s)
  {
    forall z | z in PDoms(g, y) ensures z in PDoms(g, s) { PDomTrans(g, z, y, s); }
    PDomRefl(g, s);
    assert s in PDoms(g, s);
    if s in PDoms(g, y) { PDomAntisym(g, y, s); }
    SubsetSize(PDoms(g, y), PDoms(g, s));
  }

  ghost predicate IsImmediate<N(!new)>(g: Graph<N>, y: N, x: N)
    requires WellFormed(g)
  {
    StrictPDom(g, y, x) && forall z :: StrictPDom(g, z, x) ==> PDom(g, z, y)
  }

  /** The deepest strict post-dominator is the immediate one. */
  lemma ImmediateExists<N(!new)>(g: Graph<N>, x: N)
    requires Usable(g) && x in g.nodes && x != g.exit
    ensures exists y :: IsImmediate(g, y, x)
  {
    ExitPDom(g, x);
    var y := g.exit;
    DepthDecreases(g, y, x);
    while exists z :: StrictPDom(g, z, x) && Depth(g, y) < Depth(g, z)
      invariant StrictPDom(g, y, x) && Depth(g, y) < Depth(g, x)
      decreases Depth(g, x) - Depth(g, y)
    {
      var z :| StrictPDom(g, z, x) && Depth(g, y) < Depth(g, z);
      y := z;
      DepthDecreases(g, y, x);
    }
    forall z | StrictPDom(g, z, x) ensures PDom(g, z, y) {
      PDomChain(g, y, z, x);
      if !PDom(g, z, y) { DepthDecreases(g, y, z); }
    }
    assert IsImmediate(g, y, x);
  }

  ghost function Immediate<N(!new)>(g: Graph<N>, x: N): (y: N)
    requires Usable(g) && x in g.nodes && x != g.exit
    ensures IsImmediate(g, y, x)
  {
    ImmediateExists(g, x);
    var y :| IsImmediate(g, y, x);
    y
  }

  /** A graph whose nodes all reach the exit has a post-dominator tree. */
  lemma TreeExists<N(!new)>(g: Graph<N>) returns (ip: map<N, N>)
    requires Usable(g)
    ensures IsIPDom(g, ip)
  {
    ip := map x | x in g.nodes && x != g.exit :: Immediate(g, x);
  }

  /** `dn` is the nearest node of the tree that post-dominates both `a` and `b`. */
  ghost predicate IsNearest<N(!new)>(g: Graph<N>, dn: N, a: N, b: N)
    requires WellFormed(g)
  {
    PDom(g, dn, a) && PDom(g, dn, b) && forall z :: PDom(g, z, a) && PDom(g, z, b) ==> PDom(g, z, dn)
  }

  ghost predicate Common<N(!new)>(g: Graph<N>, z: N, a: N, b: N)
    requires WellFormed(g)
  {
    PDom(g, z, a) && PDom(g, z, b)
  }

  /** The deepest common post-dominator is the nearest one. */
  lemma NearestExists<N(!new)>(g: Graph<N>, a: N, b: N)
    requires Usable(g) && a in g.nodes && b in g.nodes
    ensures exists dn :: IsNearest(g, dn, a, b)
  {
    ExitPDom(g, a);
    ExitPDom(g, b);
    var dn := g.exit;
    CommonDepth(g, dn, a, b);
    while exists z :: Common(g, z, a, b) && Depth(g, dn) < Depth(g, z)
      invariant Common(g, dn, a, b) && Depth(g, dn) <= Depth(g, a)
      decreases Depth(g, a) - Depth(g, dn)
    {
      var z :| Common(g, z, a, b) && Depth(g, dn) < Depth(g, z);
      dn := z;
      CommonDepth(g, dn, a, b);
    }
    forall z | PDom(g, z, a) && PDom(g, z, b) ensures PDom(g, z, dn) {
      assert Common(g, z, a, b);
      PDomChain(g, dn, z, a);
      if !PDom(g, z, dn) {
        PDomRefl(g, z);
        DepthDecreases(g, dn, z);
      }
    }
    assert IsNearest(g, dn, a, b);
  }

  lemma CommonDepth<N(!new)>(g: Graph<N>, z: N, a: N, b: N)
    requires Usable(g) && Common(g, z, a, b)
    ensures Depth(g, z) <= Depth(g, a)
  {
    if z != a { DepthDecreases(g, z, a); }
  }

  ghost function Nearest<N(!new)>(g: Graph<N>, a: N, b: N): (dn: N)
    requires Usable(g) && a in g.nodes && b in g.nodes
    ensures IsNearest(g, dn, a, b)
  {
    NearestExists(g, a, b);
    var dn :| IsNearest(g, dn, a, b);
    dn
  }

  /** The tree path from a node passes exactly through its post-dominators. */
  lemma TreePath<N(!new)>(g: Graph<N>, ip: map<N, N>, y: N, s: N)
    requires Usable(g) && IsIPDom(g, ip) && s in g.nodes && s != g.exit
    ensures PDom(g, y, s) <==> (y == s || PDom(g, y, ip[s]))
  {
    PDomRefl(g, s);
    if PDom(g, y, ip[s]) { PDomTrans(g, y, ip[s], s); }
  }
}
