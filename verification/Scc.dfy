/** Strongly connected components and their numbering (DSWP_2.cpp): Kosaraju's two searches, with
    the graph of the components recorded during the second. */
module Scc {
  import opened Ir
  import opened Reachability

  // ---- the first search ----

  /** Entered but not yet listed. */
  ghost predicate Open(list: seq<Inst>, used: set<Inst>, x: Inst) {
    x in used && x !in list
  }

  /** `v` is listed, and some member of `a`'s component is listed no earlier. */
  ghost predicate Outlived(g: Digraph, list: seq<Inst>, v: Inst, a: Inst) {
    exists j, k :: 0 <= j <= k < |list| && list[j] == v && g.Mutual(list[k], a)
  }

  ghost predicate Settled(g: Digraph, list: seq<Inst>, a: Inst) {
    forall v :: g.Reach(a, v) ==> Outlived(g, list, v, a)
  }

  ghost predicate Searched(g: Digraph, list: seq<Inst>, used: set<Inst>) {
    && NoDups(list) && used <= g.nodes
    && (forall a :: a in list ==> a in used)
    && (forall a, b :: a in list && g.Step(a, b) ==> b in used)
    && (forall a :: a in list ==> Settled(g, list, a) || exists h :: Open(list, used, h) && g.Mutual(a, h))
  }

  lemma OutlivedAppend(g: Digraph, list: seq<Inst>, x: Inst, v: Inst, a: Inst)
    requires Outlived(g, list, v, a)
    ensures Outlived(g, list + [x], v, a)
  {
    var j, k :| 0 <= j <= k < |list| && list[j] == v && g.Mutual(list[k], a);
    var list' := list + [x];
    assert list'[j] == v && list'[k] == list[k];
  }

  /** The last open member of a component, when it is left, has everything it reaches behind it. */
  lemma LastOpenSettles(g: Digraph, list: seq<Inst>, used: set<Inst>, x: Inst, a: Inst)
    requires g.Valid() && Searched(g, list, used) && Open(list, used, x)
    requires forall b :: g.Step(x, b) ==> b in used
    requires forall h :: Open(list, used, h) ==> g.Reach(h, x)
    requires g.Mutual(a, x) && forall h :: Open(list, used, h) && h != x ==> !g.Mutual(a, h)
    ensures Settled(g, list + [x], a)
  {
    var list' := list + [x];
    var s := set y | y in list';
    forall v | g.Reach(a, v) ensures Outlived(g, list', v, a) {
      g.ReachTrans(x, a, v);
      if v !in s {
        var c, d := g.Crossing(x, v, s);
        g.ReachStep(c, d);
        g.ReachTrans(x, c, d);
        assert Open(list, used, d);
        g.MutualTrans(a, x, d);
        assert false;
      }
      var j :| 0 <= j < |list'| && list'[j] == v;
      assert list'[|list|] == x && g.Mutual(x, a);
    }
  }

  lemma Leave(g: Digraph, list: seq<Inst>, used: set<Inst>, x: Inst)
    requires g.Valid() && Searched(g, list, used) && Open(list, used, x)
    requires forall b :: g.Step(x, b) ==> b in used
    requires forall h :: Open(list, used, h) ==> g.Reach(h, x)
    ensures Searched(g, list + [x], used)
  {
    hide Settled, Digraph.Reach, Digraph.Mutual, Digraph.Valid;
    var list' := list + [x];
    forall a | a in list' ensures Settled(g, list', a) || exists h :: Open(list', used, h) && g.Mutual(a, h) {
      LeaveOne(g, list, used, x, a);
    }
  }

  lemma SettledAppend(g: Digraph, list: seq<Inst>, x: Inst, a: Inst)
    requires Settled(g, list, a)
    ensures Settled(g, list + [x], a)
  {
    hide Outlived, Digraph.Reach;
    forall v | g.Reach(a, v) ensures Outlived(g, list + [x], v, a) { OutlivedAppend(g, list, x, v, a); }
  }

  lemma LeaveOne(g: Digraph, list: seq<Inst>, used: set<Inst>, x: Inst, a: Inst)
    requires g.Valid() && Searched(g, list, used) && Open(list, used, x) && a in list + [x]
    requires forall b :: g.Step(x, b) ==> b in used
    requires forall h :: Open(list, used, h) ==> g.Reach(h, x)
    ensures Settled(g, list + [x], a) || exists h :: Open(list + [x], used, h) && g.Mutual(a, h)
  {
    g.ReachRefl(x);
    hide Settled, Digraph.Reach, Digraph.Valid, Digraph.Step;
    if a in list && Settled(g, list, a) {
      SettledAppend(g, list, x, a);
    } else if h :| Open(list, used, h) && h != x && g.Mutual(a, h) {
      assert Open(list + [x], used, h);
    } else {
      assert g.Mutual(a, x);
      LastOpenSettles(g, list, used, x, a);
    }
  }

  /** What the first search leaves: a node that reaches another has a member of its component listed no earlier. */
  ghost predicate FinishOrder(g: Digraph, list: seq<Inst>) {
    && NoDups(list) && (forall x :: x in list <==> x in g.nodes)
    && forall i, j :: 0 <= i < |list| && 0 <= j < |list| && g.Reach(list[j], list[i]) ==>
         exists k :: i <= k < |list| && g.Mutual(list[k], list[j])
  }

  lemma SearchedAll(g: Digraph, list: seq<Inst>, used: set<Inst>)
    requires Searched(g, list, used) && used == g.nodes && forall x :: !Open(list, used, x)
    ensures FinishOrder(g, list)
  {
    forall x | x in g.nodes ensures x in list { assert !Open(list, used, x); }
    forall a | a in list ensures Settled(g, list, a) {}
    hide Searched, Open, Settled, Digraph.Reach;
    forall i, j | 0 <= i < |list| && 0 <= j < |list| && g.Reach(list[j], list[i])
      ensures exists k :: i <= k < |list| && g.Mutual(list[k], list[j])
    {
      SettledOrder(g, list, i, j);
    }
  }

  lemma SettledOrder(g: Digraph, list: seq<Inst>, i: nat, j: nat)
    requires NoDups(list) && i < |list| && j < |list| && Settled(g, list, list[j]) && g.Reach(list[j], list[i])
    ensures exists k :: i <= k < |list| && g.Mutual(list[k], list[j])
  {
    hide Digraph.Reach;
    var i', k :| 0 <= i' <= k < |list| && list[i'] == list[i] && g.Mutual(list[k], list[j]);
    assert i' == i;
  }

  lemma EnterForward(g: Digraph, list: seq<Inst>, used: set<Inst>, x: Inst)
    requires Searched(g, list, used) && x in g.nodes && x !in used
    ensures Searched(g, list, used + {x})
    ensures forall h :: Open(list, used + {x}, h) <==> Open(list, used, h) || h == x
  {
    forall a | a in list && !Settled(g, list, a) ensures exists h :: Open(list, used + {x}, h) && g.Mutual(a, h) {
      var h :| Open(list, used, h) && g.Mutual(a, h);
      assert Open(list, used + {x}, h);
    }
  }

  lemma OpenReach(g: Digraph, list: seq<Inst>, used: set<Inst>, x: Inst, next: Inst)
    requires g.Step(x, next) && forall h :: Open(list, used, h) ==> g.Reach(h, x)
    ensures forall h :: Open(list, used, h) ==> g.Reach(h, next)
  {
    g.ReachStep(x, next);
    forall h | Open(list, used, h) ensures g.Reach(h, next) { g.ReachTrans(h, x, next); }
  }

  // ---- the second search ----

  /** Visited by the current tree, number `n`: open, or numbered `n`. */
  ghost predicate Current(used: set<Inst>, sccId: map<Inst, nat>, n: nat, x: Inst) {
    x in used && (x in sccId ==> sccId[x] == n)
  }

  /** A recorded pair comes from an edge between two components, or, with source 0, from an edge inside the target. */
  ghost predicate Justified(g: Digraph, used: set<Inst>, sccId: map<Inst, nat>, n: nat, u: nat) {
    || (u < n && exists a, b :: g.Step(a, b) && a in sccId && sccId[a] == u && Current(used, sccId, n, b))
    || (u == 0 < n && exists a, b :: g.Step(a, b) && Current(used, sccId, n, a) && Current(used, sccId, n, b))
  }

  /** What the tree rooted in `r` and numbered `n` keeps. `dag` holds the recorded pairs. */
  ghost predicate Growing(g: Digraph, used: set<Inst>, sccId: map<Inst, nat>, dag: set<(nat, nat)>, n: nat, r: Inst) {
    && used <= g.nodes
    && (forall x :: x in sccId ==> x in used && sccId[x] <= n)
    && (forall x :: Current(used, sccId, n, x) ==> g.Reach(x, r))
    && (forall a, b :: b in sccId && g.Step(a, b) ==> a in used)
    && (forall a, b :: a in sccId && b in sccId && g.Step(a, b) && sccId[a] < n && sccId[b] == n ==> (sccId[a], n) in dag)
    && (forall b :: b in sccId && sccId[b] == n && g.Step(r, b) && n > 0 ==> (0, n) in dag)
    && (forall u :: (u, n) in dag ==> Justified(g, used, sccId, n, u))
  }

  /** What has been seen of the edge from `a` into the node being left. */
  ghost predicate Seen(used: set<Inst>, sccId: map<Inst, nat>, dag: set<(nat, nat)>, n: nat, r: Inst, a: Inst) {
    && a in used
    && (a in sccId && sccId[a] < n ==> (sccId[a], n) in dag)
    && (a == r && n > 0 ==> (0, n) in dag)
  }

  lemma Enter(g: Digraph, used: set<Inst>, sccId: map<Inst, nat>, dag: set<(nat, nat)>, n: nat, r: Inst, x: Inst)
    requires Growing(g, used, sccId, dag, n, r) && x in g.nodes && x !in used && g.Reach(x, r)
    ensures Growing(g, used + {x}, sccId, dag, n, r)
  {
    forall u | (u, n) in dag ensures Justified(g, used + {x}, sccId, n, u) {
      assert Justified(g, used, sccId, n, u);
      assert forall y :: Current(used, sccId, n, y) ==> Current(used + {x}, sccId, n, y);
    }
  }

  /** Recording the pair for an edge from a used `a` into the open node `x`. */
  lemma Record(g: Digraph, used: set<Inst>, sccId: map<Inst, nat>, dag: set<(nat, nat)>, n: nat, r: Inst, a: Inst, x: Inst)
    requires Growing(g, used, sccId, dag, n, r) && g.Step(a, x) && a in used && x in used && x !in sccId
    requires (if a in sccId then sccId[a] else 0) != n
    ensures Growing(g, used, sccId, dag + {(if a in sccId then sccId[a] else 0, n)}, n, r)
  {
    assert Current(used, sccId, n, x);
    if a !in sccId { assert Current(used, sccId, n, a); }
    assert Justified(g, used, sccId, n, if a in sccId then sccId[a] else 0);
  }

  lemma GiveNumber(g: Digraph, used: set<Inst>, sccId: map<Inst, nat>, dag: set<(nat, nat)>, n: nat, r: Inst, x: Inst)
    requires Growing(g, used, sccId, dag, n, r) && x in used && x !in sccId
    requires forall a :: g.Step(a, x) ==> Seen(used, sccId, dag, n, r, a)
    ensures Growing(g, used, sccId[x := n], dag, n, r)
  {
    var ids := sccId[x := n];
    forall u | (u, n) in dag ensures Justified(g, used, ids, n, u) {
      assert Justified(g, used, sccId, n, u);
      assert forall y :: Current(used, sccId, n, y) ==> Current(used, ids, n, y);
      if a, b :| u < n && g.Step(a, b) && a in sccId && sccId[a] == u && Current(used, sccId, n, b) {
        assert a in ids && ids[a] == u;
      }
    }
    forall a, b | a in ids && b in ids && g.Step(a, b) && ids[a] < n && ids[b] == n ensures (ids[a], n) in dag {
      assert a in sccId;
    }
  }

  ghost predicate Inhabited(sccId: map<Inst, nat>, j: int) {
    exists x :: x in sccId && sccId[x] == j
  }

  /** Components numbered below `n` are finished: numbers are exactly the components, in topological order. */
  ghost predicate Numbered(g: Digraph, used: set<Inst>, sccId: map<Inst, nat>, n: nat) {
    && used <= g.nodes
    && (forall x :: x in used <==> x in sccId)
    && (forall x :: x in sccId ==> sccId[x] < n)
    && (forall j :: 0 <= j < n ==> Inhabited(sccId, j))
    && (forall a, b :: a in sccId && b in sccId ==> (sccId[a] == sccId[b] <==> g.Mutual(a, b)))
    && (forall a, b :: a in sccId && g.Mutual(a, b) ==> b in sccId)
    && (forall a, b :: b in sccId && g.Step(a, b) ==> a in sccId && sccId[a] <= sccId[b])
  }

  /** The pairs owed: every edge between two components, and 0 with each later component that holds a cycle. */
  ghost predicate Owed(g: Digraph, sccId: map<Inst, nat>, u: nat, k: nat) {
    && u < k
    && exists a, b :: g.Step(a, b) && a in sccId && b in sccId && sccId[b] == k && (sccId[a] == u || (u == 0 && sccId[a] == k))
  }

  ghost predicate Recorded(g: Digraph, sccId: map<Inst, nat>, dag: set<(nat, nat)>, n: nat) {
    forall u: nat, k: nat :: (u, k) in dag <==> k < n && Owed(g, sccId, u, k)
  }

  /** A finished tree grown over the finished components `ids0`: `ids` adds the nodes numbered `n`. */
  ghost predicate Grown(g: Digraph, ids0: map<Inst, nat>, ids: map<Inst, nat>, n: nat, r: Inst) {
    && (forall x :: x in ids0 ==> x in ids && ids[x] == ids0[x] < n)
    && (forall x :: x in ids && x !in ids0 ==> ids[x] == n)
    && r in ids && r !in ids0
  }

  lemma LateMember(g: Digraph, list: seq<Inst>, i: nat, x: Inst) returns (k: nat)
    requires FinishOrder(g, list) && i < |list| && x in g.nodes && g.Reach(x, list[i])
    ensures i <= k < |list| && g.Mutual(list[k], x)
  {
    var j :| 0 <= j < |list| && list[j] == x;
    k :| i <= k < |list| && g.Mutual(list[k], list[j]);
  }

  lemma ComponentClosed(g: Digraph, used: set<Inst>, ids: map<Inst, nat>, n: nat, a: Inst, b: Inst)
    requires Numbered(g, used, ids, n) && g.Mutual(a, b) && a in used
    ensures b in used
  {
  }

  /** Every node of the tree reaches the root; were it in an earlier component the finishing order would say so. */
  lemma TreeInComponent(g: Digraph, list: seq<Inst>, i: nat, used0: set<Inst>, ids0: map<Inst, nat>, n: nat, x: Inst)
    requires g.Valid() && FinishOrder(g, list) && i < |list| && Numbered(g, used0, ids0, n)
    requires forall j :: i < j < |list| ==> list[j] in used0
    requires x in g.nodes && x !in used0 && g.Reach(x, list[i])
    ensures g.Mutual(x, list[i])
  {
    var k := LateMember(g, list, i, x);
    var y := list[k];
    if y in used0 { ComponentClosed(g, used0, ids0, n, y, x); }
  }

  /** The tree takes in the whole component of its root. */
  lemma ComponentInTree(g: Digraph, used0: set<Inst>, ids0: map<Inst, nat>,
                        used: set<Inst>, ids: map<Inst, nat>, dag: set<(nat, nat)>, n: nat, r: Inst, x: Inst)
    requires g.Valid() && Numbered(g, used0, ids0, n) && Growing(g, used, ids, dag, n, r) && Grown(g, ids0, ids, n, r)
    requires (forall y :: y in used <==> y in ids) && g.Mutual(x, r)
    ensures x in ids && x !in ids0
  {
    if x !in ids {
      var tree := set y | y in ids && y !in ids0;
      var c, d := Entering(g, x, r, tree);
      g.ReachStep(c, d);
      g.ReachTrans(c, d, r);
      g.ReachTrans(r, x, c);
      ComponentClosed(g, used0, ids0, n, c, r);
    }
  }

  /** A walk that enters a set has an edge that enters it. */
  lemma Entering(g: Digraph, a: Inst, b: Inst, s: set<Inst>) returns (c: Inst, d: Inst)
    requires g.Reach(a, b) && a !in s && b in s
    ensures c !in s && d in s && g.Step(c, d) && g.Reach(a, c) && g.Reach(d, b)
  {
    var p :| g.Walk(p) && p[0] == a && p[|p| - 1] == b;
    var k := 0;
    while p[k + 1] !in s
      invariant k + 1 < |p| && p[k] !in s
      decreases |p| - k
    {
      k := k + 1;
    }
    c, d := p[k], p[k + 1];
    assert g.Walk(p[..k + 1]) && g.Walk(p[k + 1..]);
  }

  lemma TreeIsComponent(g: Digraph, list: seq<Inst>, i: nat, used0: set<Inst>, ids0: map<Inst, nat>,
                        used: set<Inst>, ids: map<Inst, nat>, dag: set<(nat, nat)>, n: nat)
    requires g.Valid() && FinishOrder(g, list) && i < |list| && Numbered(g, used0, ids0, n)
    requires forall j :: i < j < |list| ==> list[j] in used0
    requires Growing(g, used, ids, dag, n, list[i]) && Grown(g, ids0, ids, n, list[i])
    requires forall y :: y in used <==> y in ids
    ensures forall x :: x in ids && ids[x] == n <==> g.Mutual(x, list[i])
  {
    var r := list[i];
    forall x ensures x in ids && ids[x] == n <==> g.Mutual(x, r) {
      if x in ids && ids[x] == n {
        assert Current(used, ids, n, x);
        TreeInComponent(g, list, i, used0, ids0, n, x);
      }
      if g.Mutual(x, r) { ComponentInTree(g, used0, ids0, used, ids, dag, n, r, x); }
    }
  }

  lemma TreeFinished(g: Digraph, used0: set<Inst>, ids0: map<Inst, nat>,
                     used: set<Inst>, ids: map<Inst, nat>, n: nat, r: Inst)
    requires Numbered(g, used0, ids0, n) && Grown(g, ids0, ids, n, r) && used <= g.nodes
    requires forall y :: y in used <==> y in ids
    requires forall a, b :: b in ids && g.Step(a, b) ==> a in ids
    requires forall x :: x in ids && ids[x] == n <==> g.Mutual(x, r)
    ensures Numbered(g, used, ids, n + 1)
  {
    forall j | 0 <= j < n + 1 ensures Inhabited(ids, j) {
      if j < n {
        assert Inhabited(ids0, j);
        var x :| x in ids0 && ids0[x] == j;
        assert x in ids && ids[x] == j;
      } else {
        assert r in ids && ids[r] == j;
      }
    }
    forall a, b | a in ids && g.Mutual(a, b) ensures b in ids && ids[a] == ids[b] {
      if a !in ids0 { g.MutualTrans(b, a, r); }
    }
    forall a, b | a in ids && b in ids && ids[a] == ids[b] ensures g.Mutual(a, b) {
      if a !in ids0 { g.MutualTrans(a, r, b); }
    }
    forall a, b | b in ids && g.Step(a, b) ensures a in ids && ids[a] <= ids[b] {
      if b in ids0 { assert a in ids0; }
    }
  }

  /** A component with an inner edge has one that leaves its root. */
  lemma RootEdge(g: Digraph, r: Inst, a: Inst, b: Inst) returns (x: Inst)
    requires g.Step(a, b) && g.Mutual(a, r) && g.Mutual(b, r)
    ensures g.Step(r, x) && g.Mutual(x, r)
  {
    if a == r {
      x := b;
    } else {
      var c, d := g.Crossing(r, a, {r});
      x := d;
      g.ReachStep(r, d);
      g.ReachTrans(d, a, r);
    }
  }

  lemma TreeRecorded(g: Digraph, used0: set<Inst>, ids0: map<Inst, nat>, dag0: set<(nat, nat)>,
                     used: set<Inst>, ids: map<Inst, nat>, dag: set<(nat, nat)>, n: nat, r: Inst)
    requires g.Valid() && Numbered(g, used0, ids0, n) && Recorded(g, ids0, dag0, n)
    requires Growing(g, used, ids, dag, n, r) && Grown(g, ids0, ids, n, r) && Numbered(g, used, ids, n + 1)
    requires forall x :: x in ids && ids[x] == n <==> g.Mutual(x, r)
    requires forall u, k :: k != n ==> ((u, k) in dag <==> (u, k) in dag0)
    ensures Recorded(g, ids, dag, n + 1)
  {
    forall u: nat, k: nat ensures (u, k) in dag <==> k < n + 1 && Owed(g, ids, u, k) {
      if k == n {
        if (u, k) in dag { assert Justified(g, used, ids, n, u); }
        if Owed(g, ids, u, k) {
          var a, b :| g.Step(a, b) && a in ids && b in ids && ids[b] == k && (ids[a] == u || (u == 0 && ids[a] == k));
          if ids[a] == k { var x := RootEdge(g, r, a, b); }
        }
      } else {
        OwedSame(g, ids0, ids, n, r, u, k);
      }
    }
  }

  lemma OwedSame(g: Digraph, ids0: map<Inst, nat>, ids: map<Inst, nat>, n: nat, r: Inst, u: nat, k: nat)
    requires Grown(g, ids0, ids, n, r) && k != n
    ensures k < n && Owed(g, ids0, u, k) <==> k < n && Owed(g, ids, u, k)
  {
    if k < n {
      if a, b :| g.Step(a, b) && a in ids && b in ids && ids[b] == k && (ids[a] == u || (u == 0 && ids[a] == k)) && u < k {
        assert a in ids0 && b in ids0;
      }
      if a, b :| g.Step(a, b) && a in ids0 && b in ids0 && ids0[b] == k && (ids0[a] == u || (u == 0 && ids0[a] == k)) && u < k {
        assert a in ids && b in ids;
      }
    }
  }

  // ---- the graph of the components ----

  /** `parents` is the exact converse of `dependents`; each recorded pair is in both exactly once. */
  ghost predicate Mirrored(dag: set<(nat, nat)>, dependents: map<nat, seq<nat>>, parents: map<nat, seq<nat>>) {
    && (forall u: nat, k: nat :: (u, k) in dag <==> k in ListAt(dependents, u))
    && (forall u: nat, k: nat :: (u, k) in dag <==> u in ListAt(parents, k))
    && (forall u: nat :: NoDups(ListAt(dependents, u)))
    && (forall k: nat :: NoDups(ListAt(parents, k)))
  }

  lemma MirroredAdd(dag: set<(nat, nat)>, dependents: map<nat, seq<nat>>, parents: map<nat, seq<nat>>, u: nat, k: nat)
    requires Mirrored(dag, dependents, parents) && (u, k) !in dag
    ensures Mirrored(dag + {(u, k)}, dependents[u := ListAt(dependents, u) + [k]], parents[k := ListAt(parents, k) + [u]])
  {
    hide ListAt;
    var ds, ps := dependents[u := ListAt(dependents, u) + [k]], parents[k := ListAt(parents, k) + [u]];
    assert k !in ListAt(dependents, u) && u !in ListAt(parents, k);
    forall x: nat, y: nat
      ensures (x, y) in dag + {(u, k)} <==> y in ListAt(ds, x)
      ensures (x, y) in dag + {(u, k)} <==> x in ListAt(ps, y)
    {
      ListAtAdd(dependents, u, k, x);
      ListAtAdd(parents, k, u, y);
    }
    forall x: nat ensures NoDups(ListAt(ds, x)) && NoDups(ListAt(ps, x)) {
      ListAtAdd(dependents, u, k, x);
      ListAtAdd(parents, k, u, x);
      assert NoDups(ListAt(dependents, x)) && NoDups(ListAt(parents, x));
    }
  }

  /** The members of each component, as listed. */
  ghost predicate Listed(members: seq<seq<Inst>>, ids: map<Inst, nat>) {
    && (forall j, x :: 0 <= j < |members| ==> (x in members[j] <==> x in ids && ids[x] == j))
    && (forall j :: 0 <= j < |members| ==> NoDups(members[j]))
    && (forall x :: x in ids ==> ids[x] < |members|)
  }

  lemma ListedAdd(members: seq<seq<Inst>>, ids: map<Inst, nat>, x: Inst, n: nat)
    requires Listed(members, ids) && x !in ids && n < |members|
    ensures Listed(members[n := members[n] + [x]], ids[x := n])
  {
  }

  /** A stretch of the second search only adds, and adds only the number `n`. */
  ghost predicate Only(used: set<Inst>, ids: map<Inst, nat>, dag: set<(nat, nat)>,
                       used': set<Inst>, ids': map<Inst, nat>, dag': set<(nat, nat)>, n: nat) {
    && used <= used' && dag <= dag'
    && (forall x :: x in ids ==> x in ids' && ids'[x] == ids[x])
    && (forall x :: x in ids' && x !in ids ==> x !in used && ids'[x] == n)
    && (forall p :: p in dag' && p !in dag ==> p.1 == n)
    && (forall x :: x in used' && x !in ids' <==> x in used && x !in ids)
  }

  lemma OnlyTrans(u0: set<Inst>, i0: map<Inst, nat>, d0: set<(nat, nat)>, u1: set<Inst>, i1: map<Inst, nat>,
                  d1: set<(nat, nat)>, u2: set<Inst>, i2: map<Inst, nat>, d2: set<(nat, nat)>, n: nat)
    requires Only(u0, i0, d0, u1, i1, d1, n) && Only(u1, i1, d1, u2, i2, d2, n)
    ensures Only(u0, i0, d0, u2, i2, d2, n)
  {
  }

  lemma SeenStays(used: set<Inst>, ids: map<Inst, nat>, dag: set<(nat, nat)>,
                  used': set<Inst>, ids': map<Inst, nat>, dag': set<(nat, nat)>, n: nat, r: Inst, es: seq<Edge>, k: nat)
    requires Only(used, ids, dag, used', ids', dag', n) && k <= |es|
    requires forall j :: 0 <= j < k ==> Seen(used, ids, dag, n, r, es[j].v)
    ensures forall j :: 0 <= j < k ==> Seen(used', ids', dag', n, r, es[j].v)
  {
  }

  /** The node entered first is the one numbered last. */
  lemma OnlyEnterLeave(used: set<Inst>, ids: map<Inst, nat>, dag: set<(nat, nat)>,
                       used': set<Inst>, ids': map<Inst, nat>, dag': set<(nat, nat)>, n: nat, x: Inst)
    requires x !in used && Only(used + {x}, ids, dag, used', ids', dag', n) && x !in ids
    ensures x in used' && x !in ids' && Only(used, ids, dag, used', ids'[x := n], dag', n)
  {
  }

  lemma PredReach(g: Digraph, a: Inst, x: Inst, r: Inst)
    requires g.Step(a, x) && g.Reach(x, r)
    ensures g.Reach(a, r)
  {
    g.ReachStep(a, x);
    g.ReachTrans(a, x, r);
  }

  lemma StartTree(g: Digraph, used: set<Inst>, ids: map<Inst, nat>, dag: set<(nat, nat)>,
                  members: seq<seq<Inst>>, n: nat, r: Inst)
    requires Numbered(g, used, ids, n) && Recorded(g, ids, dag, n) && Listed(members, ids) && |members| == n
    requires r !in used
    ensures Growing(g, used, ids, dag, n, r) && Listed(members + [[]], ids) && r !in ids
  {
  }

  lemma ListedNode(g: Digraph, list: seq<Inst>, i: nat)
    requires FinishOrder(g, list) && i < |list|
    ensures list[i] in g.nodes
  {
  }

  lemma OnlyGrown(g: Digraph, used0: set<Inst>, ids0: map<Inst, nat>, dag0: set<(nat, nat)>,
                  used: set<Inst>, ids: map<Inst, nat>, dag: set<(nat, nat)>, n: nat, r: Inst)
    requires Numbered(g, used0, ids0, n) && r !in used0 && r in ids && Only(used0, ids0, dag0, used, ids, dag, n)
    ensures Grown(g, ids0, ids, n, r)
    ensures forall y :: y in used ==> y in ids
    ensures forall u, k :: k != n ==> ((u, k) in dag <==> (u, k) in dag0)
  {
    forall y | y in used ensures y in ids { assert y in used0 ==> y in ids0; }
    forall u, k | k != n ensures (u, k) in dag <==> (u, k) in dag0 {
      var p := (u, k);
      assert p in dag && p !in dag0 ==> p.1 == n;
    }
  }

  /** One tree of the second search adds one finished component. */
  lemma EndTree(g: Digraph, list: seq<Inst>, i: nat, used0: set<Inst>, ids0: map<Inst, nat>, dag0: set<(nat, nat)>,
                used: set<Inst>, ids: map<Inst, nat>, dag: set<(nat, nat)>, n: nat)
    requires g.Valid() && FinishOrder(g, list) && i < |list|
    requires forall j :: i < j < |list| ==> list[j] in used0
    requires Numbered(g, used0, ids0, n) && Recorded(g, ids0, dag0, n) && list[i] !in used0
    requires Growing(g, used, ids, dag, n, list[i]) && list[i] in ids && Only(used0, ids0, dag0, used, ids, dag, n)
    ensures Numbered(g, used, ids, n + 1) && Recorded(g, ids, dag, n + 1)
    ensures list[i] in used && used0 <= used
  {
    hide Recorded, Numbered, FinishOrder, Justified;
    var r := list[i];
    OnlyGrown(g, used0, ids0, dag0, used, ids, dag, n, r);
    TreeIsComponent(g, list, i, used0, ids0, used, ids, dag, n);
    TreeFinished(g, used0, ids0, used, ids, n, r);
    TreeRecorded(g, used0, ids0, dag0, used, ids, dag, n, r);
  }

  /** What `findSCC` leaves: components, their numbering, their members and their graph. */
  ghost predicate Condensed(g: Digraph, sccId: map<Inst, nat>, members: seq<seq<Inst>>, dag: set<(nat, nat)>,
                            dependents: map<nat, seq<nat>>, parents: map<nat, seq<nat>>, n: nat) {
    && Numbered(g, g.nodes, sccId, n)
    && Listed(members, sccId) && |members| == n
    && Recorded(g, sccId, dag, n) && Mirrored(dag, dependents, parents)
  }

  /** Before either search. */
  lemma NothingSearched(g: Digraph)
    ensures Searched(g, [], {}) && Numbered(g, {}, map[], 0) && Recorded(g, map[], {}, 0)
    ensures Listed([], map[]) && Mirrored({}, map[], map[])
  {
    hide Digraph.Step, Digraph.Mutual, Settled;
  }

  lemma ListedNodes(g: Digraph, list: seq<Inst>)
    requires FinishOrder(g, list)
    ensures forall x :: x in list <==> x in g.nodes
  {
    hide Digraph.Reach, Digraph.Mutual;
  }

  lemma UsedNodes(g: Digraph, used: set<Inst>, ids: map<Inst, nat>, n: nat)
    requires Numbered(g, used, ids, n)
    ensures used <= g.nodes
  {
    hide Digraph.Step, Digraph.Mutual, Inhabited;
  }

  lemma AllListed(g: Digraph, list: seq<Inst>, used: set<Inst>)
    requires Searched(g, list, used) && (forall x :: x in g.nodes ==> x in used) && forall x :: !Open(list, used, x)
    ensures FinishOrder(g, list)
  {
    assert used == g.nodes;
    SearchedAll(g, list, used);
  }

  class SccFinder {
    const l: Loop
    const g: Digraph
    var used: set<Inst>
    var list: seq<Inst>
    var sccId: map<Inst, nat>
    var instInScc: seq<seq<Inst>>
    var dependents: map<nat, seq<nat>>
    var parents: map<nat, seq<nat>>
    var dagAdded: set<(nat, nat)>
    var sccNum: nat

    constructor (l: Loop, g: Digraph)
      ensures this.l == l && this.g == g
      ensures used == {} && list == [] && sccId == map[] && instInScc == []
      ensures dependents == map[] && parents == map[] && dagAdded == {} && sccNum == 0
    {
      this.l, this.g := l, g;
      used, list, sccId, instInScc := {}, [], map[], [];
      dependents, parents, dagAdded, sccNum := map[], map[], {}, 0;
    }

    method DfsForward(inst: Inst)
      requires g.Valid() && Searched(g, list, used) && inst in g.nodes && inst !in used
      requires forall h :: Open(list, used, h) ==> g.Reach(h, inst)
      modifies this`used, this`list
      ensures Searched(g, list, used) && old(used) + {inst} <= used
      ensures forall h :: Open(list, used, h) <==> Open(old(list), old(used), h)
      decreases g.nodes - used
    {
      used := used + {inst};
      g.ReachRefl(inst);
      EnterForward(g, list, old(used), inst);
      for k := 0 to |g.Out(inst)|
        invariant Searched(g, list, used) && old(used) + {inst} <= used
        invariant forall h :: Open(list, used, h) <==> Open(old(list), old(used), h) || h == inst
        invariant forall j :: 0 <= j < k ==> g.Out(inst)[j].v in used
      {
        var next := g.Out(inst)[k].v;
        assert g.Step(inst, next);
        if next !in used {
          OpenReach(g, list, used, inst, next);
          DfsForward(next);
        }
      }
      Leave(g, list, used, inst);
      list := list + [inst];
    }

    /** Between two steps of the second search. */
    ghost predicate Consistent(n: nat)
      reads this
    {
      |instInScc| == n && Listed(instInScc, sccId) && Mirrored(dagAdded, dependents, parents)
    }

    /** Records an edge between two components once. */
    method AddDagEdge(u: nat, k: nat)
      requires Mirrored(dagAdded, dependents, parents)
      modifies this`dagAdded, this`dependents, this`parents
      ensures Mirrored(dagAdded, dependents, parents) && dagAdded == old(dagAdded) + {(u, k)}
    {
      if (u, k) !in dagAdded {
        MirroredAdd(dagAdded, dependents, parents, u, k);
        dependents := dependents[u := ListAt(dependents, u) + [k]];
        parents := parents[k := ListAt(parents, k) + [u]];
        dagAdded := dagAdded + {(u, k)};
      }
    }

    /** `dfs_reverse`: numbers everything not yet used that reaches `inst`. */
    method DfsReverse(inst: Inst, ghost r: Inst)
      requires g.Valid() && Growing(g, used, sccId, dagAdded, sccNum, r) && Consistent(sccNum + 1)
      requires inst in g.nodes && inst !in used && inst !in sccId && g.Reach(inst, r)
      requires inst == r || (r in used && r !in sccId)
      modifies this`used, this`sccId, this`instInScc, this`dependents, this`parents, this`dagAdded
      ensures Growing(g, used, sccId, dagAdded, sccNum, r) && Consistent(sccNum + 1)
      ensures inst in sccId && Only(old(used), old(sccId), old(dagAdded), used, sccId, dagAdded, sccNum)
      decreases g.nodes - used, 1
    {
      hide Growing, Listed, Mirrored, Seen, Justified;
      Enter(g, used, sccId, dagAdded, sccNum, r, inst);
      used := used + {inst};
      Scan(inst, r);
      OnlyEnterLeave(old(used), old(sccId), old(dagAdded), used, sccId, dagAdded, sccNum, inst);
      GiveNumber(g, used, sccId, dagAdded, sccNum, r, inst);
      ListedAdd(instInScc, sccId, inst, sccNum);
      sccId := sccId[inst := sccNum];
      instInScc := instInScc[sccNum := instInScc[sccNum] + [inst]];
    }

    /** The loop of `dfs_reverse` over the edges into `inst`. */
    method Scan(inst: Inst, ghost r: Inst)
      requires g.Valid() && Growing(g, used, sccId, dagAdded, sccNum, r) && Consistent(sccNum + 1)
      requires inst in used && inst !in sccId && r in used && r !in sccId
      modifies this`used, this`sccId, this`instInScc, this`dependents, this`parents, this`dagAdded
      ensures Growing(g, used, sccId, dagAdded, sccNum, r) && Consistent(sccNum + 1)
      ensures Only(old(used), old(sccId), old(dagAdded), used, sccId, dagAdded, sccNum)
      ensures forall a :: g.Step(a, inst) ==> Seen(used, sccId, dagAdded, sccNum, r, a)
      decreases g.nodes - used, 3
    {
      hide Growing, Listed, Mirrored, Seen, Justified;
      var es := g.In(inst);
      for k := 0 to |es|
        invariant Growing(g, used, sccId, dagAdded, sccNum, r) && Consistent(sccNum + 1)
        invariant Only(old(used), old(sccId), old(dagAdded), used, sccId, dagAdded, sccNum)
        invariant forall j :: 0 <= j < k ==> Seen(used, sccId, dagAdded, sccNum, r, es[j].v)
      {
        ghost var u1, i1, d1 := used, sccId, dagAdded;
        assert g.Step(es[k].v, inst);
        Inspect(es[k].v, inst, r);
        OnlyTrans(old(used), old(sccId), old(dagAdded), u1, i1, d1, used, sccId, dagAdded, sccNum);
        SeenStays(u1, i1, d1, used, sccId, dagAdded, sccNum, r, es, k);
      }
    }

    /** One edge of the reverse search, from `next` into the open node `inst`; the map's default 0 is read for
        a node that is entered but not yet numbered. */
    method Inspect(next: Inst, inst: Inst, ghost r: Inst)
      requires g.Valid() && Growing(g, used, sccId, dagAdded, sccNum, r) && Consistent(sccNum + 1)
      requires g.Step(next, inst) && inst in used && inst !in sccId && r in used && r !in sccId
      modifies this`used, this`sccId, this`instInScc, this`dependents, this`parents, this`dagAdded
      ensures Growing(g, used, sccId, dagAdded, sccNum, r) && Consistent(sccNum + 1)
      ensures Only(old(used), old(sccId), old(dagAdded), used, sccId, dagAdded, sccNum)
      ensures Seen(used, sccId, dagAdded, sccNum, r, next)
      decreases g.nodes - used, 2
    {
      if next !in used {
        assert Current(used, sccId, sccNum, inst);
        PredReach(g, next, inst, r);
        DfsReverse(next, r);
      } else {
        var u := if next in sccId then sccId[next] else 0;
        if u != sccNum {
          Record(g, used, sccId, dagAdded, sccNum, r, next, inst);
          AddDagEdge(u, sccNum);
        }
      }
    }

    /** Searches from the unused instructions of one block. */
    method SearchBlock(b: Block)
      requires l.Valid() && g.Valid() && (forall x :: x in g.nodes <==> x in l.parent) && b in l.blocks
      requires Searched(g, list, used) && forall x :: !Open(list, used, x)
      modifies this`used, this`list
      ensures Searched(g, list, used) && forall x :: !Open(list, used, x)
      ensures old(used) <= used && forall x :: x in l.body[b] ==> x in used
    {
      hide Searched;
      for i := 0 to |l.body[b]|
        invariant Searched(g, list, used) && forall x :: !Open(list, used, x)
        invariant old(used) <= used && forall j :: 0 <= j < i ==> l.body[b][j] in used
      {
        var inst := l.body[b][i];
        if inst !in used {
          assert inst in l.body[b];
          DfsForward(inst);
        }
      }
    }

    method SearchForward()
      requires l.Valid() && g.Valid() && (forall x :: x in g.nodes <==> x in l.parent)
      requires Searched(g, list, used) && used == {} && list == []
      modifies this`used, this`list
      ensures FinishOrder(g, list)
    {
      hide Searched;
      for i := 0 to |l.blocks|
        invariant Searched(g, list, used) && forall x :: !Open(list, used, x)
        invariant forall j, x :: 0 <= j < i && x in l.body[l.blocks[j]] ==> x in used
      {
        SearchBlock(l.blocks[i]);
      }
      forall x | x in g.nodes ensures x in used { var j :| 0 <= j < |l.blocks| && l.blocks[j] == l.parent[x]; }
      AllListed(g, list, used);
    }

    /** Starts a new component at an unused node. */
    method Root(i: nat)
      requires g.Valid() && FinishOrder(g, list) && i < |list| && list[i] !in used
      requires forall j :: i < j < |list| ==> list[j] in used
      requires Numbered(g, used, sccId, sccNum) && Recorded(g, sccId, dagAdded, sccNum) && Consistent(sccNum)
      modifies this`used, this`sccId, this`instInScc, this`dependents, this`parents, this`dagAdded, this`sccNum
      ensures sccNum == old(sccNum) + 1 && old(used) <= used && list[i] in used
      ensures Numbered(g, used, sccId, sccNum) && Recorded(g, sccId, dagAdded, sccNum) && Consistent(sccNum)
    {
      hide Recorded, Growing, Mirrored, Listed, Numbered, FinishOrder, Only;
      assert list[i] in g.nodes by { ListedNode(g, list, i); }
      g.ReachRefl(list[i]);
      StartTree(g, used, sccId, dagAdded, instInScc, sccNum, list[i]);
      instInScc := instInScc + [[]];
      DfsReverse(list[i], list[i]);
      EndTree(g, list, i, old(used), old(sccId), old(dagAdded), used, sccId, dagAdded, sccNum);
      sccNum := sccNum + 1;
    }

    method SearchReverse()
      requires g.Valid() && FinishOrder(g, list)
      requires Numbered(g, used, sccId, sccNum) && Recorded(g, sccId, dagAdded, sccNum) && Consistent(sccNum)
      modifies this`used, this`sccId, this`instInScc, this`dependents, this`parents, this`dagAdded, this`sccNum
      ensures Numbered(g, used, sccId, sccNum) && Recorded(g, sccId, dagAdded, sccNum) && Consistent(sccNum)
      ensures forall x :: x in list ==> x in used
    {
      hide Numbered, Recorded, Mirrored, FinishOrder, Listed;
      var i := |list|;
      while i > 0
        invariant 0 <= i <= |list|
        invariant Numbered(g, used, sccId, sccNum) && Recorded(g, sccId, dagAdded, sccNum) && Consistent(sccNum)
        invariant forall j :: i <= j < |list| ==> list[j] in used
      {
        i := i - 1;
        if list[i] !in used { Root(i); }
      }
    }

    /** `findSCC`: equal numbers are exactly mutual reachability, numbers are a topological order, and the graph
        of the components is exact but for the edges from 0 to components with a cycle. */
    method FindScc()
      requires l.Valid() && g.Valid() && (forall x :: x in g.nodes <==> x in l.parent)
      requires used == {} && list == [] && sccId == map[] && instInScc == []
      requires dependents == map[] && parents == map[] && dagAdded == {} && sccNum == 0
      modifies this
      ensures Condensed(g, sccId, instInScc, dagAdded, dependents, parents, sccNum)
    {
      hide Searched, FinishOrder, Numbered, Recorded, Listed, Mirrored;
      NothingSearched(g);
      SearchForward();
      used := {};
      SearchReverse();
      ListedNodes(g, list);
      UsedNodes(g, used, sccId, sccNum);
      assert used == g.nodes;
    }
  }
}
