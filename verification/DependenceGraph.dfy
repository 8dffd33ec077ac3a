/** The program dependence graph of DSWP_0.cpp: an edge table with two adjacency maps that mirror it. */
module DependenceGraph {
  import opened Ir

  /** The edges leaving `u`, in table order. */
  function OutEdges(es: seq<Edge>, u: Inst): seq<Edge> {
    if es == [] then []
    else OutEdges(es[..|es| - 1], u) + if es[|es| - 1].u == u then [es[|es| - 1]] else []
  }

  /** The edges entering `v`, in table order, each turned round. */
  function InEdges(es: seq<Edge>, v: Inst): seq<Edge> {
    if es == [] then []
    else
      var e := es[|es| - 1];
      InEdges(es[..|es| - 1], v) + if e.v == v then [Edge(v, e.u, e.dtype)] else []
  }

  lemma {:induction false} OutEdgesMembers(es: seq<Edge>, u: Inst, e: Edge)
    ensures e in OutEdges(es, u) <==> e in es && e.u == u
  {
    if es != [] {
      OutEdgesMembers(es[..|es| - 1], u, e);
      assert es == es[..|es| - 1] + [es[|es| - 1]];
    }
  }

  /** `rev` is the exact transpose of `pdg`, with the same dependence types. */
  lemma {:induction false} InEdgesMembers(es: seq<Edge>, v: Inst, e: Edge)
    ensures e in InEdges(es, v) <==> e.u == v && Edge(e.v, v, e.dtype) in es
  {
    if es != [] {
      InEdgesMembers(es[..|es| - 1], v, e);
      assert es == es[..|es| - 1] + [es[|es| - 1]];
    }
  }

  lemma {:induction false} AdjacencyNoDups(es: seq<Edge>, u: Inst)
    requires NoDups(es)
    ensures NoDups(OutEdges(es, u)) && NoDups(InEdges(es, u))
  {
    if es != [] {
      var front, e := es[..|es| - 1], es[|es| - 1];
      AdjacencyNoDups(front, u);
      OutEdgesMembers(front, u, e);
      InEdgesMembers(front, u, Edge(u, e.u, e.dtype));
    }
  }

  /** The edge table `es` without repetition, and its two adjacency maps. */
  ghost predicate Mirror(pdg: map<Inst, seq<Edge>>, rev: map<Inst, seq<Edge>>, es: seq<Edge>) {
    && NoDups(es)
    && (forall u :: ListAt(pdg, u) == OutEdges(es, u))
    && (forall v :: ListAt(rev, v) == InEdges(es, v))
  }

  lemma MirrorAdd(pdg: map<Inst, seq<Edge>>, rev: map<Inst, seq<Edge>>, es: seq<Edge>, e: Edge)
    requires Mirror(pdg, rev, es) && e !in es
    ensures Mirror(pdg[e.u := ListAt(pdg, e.u) + [e]], rev[e.v := ListAt(rev, e.v) + [Edge(e.v, e.u, e.dtype)]], es + [e])
  {
    hide ListAt;
    assert (es + [e])[..|es|] == es;
    var back := Edge(e.v, e.u, e.dtype);
    forall u ensures ListAt(pdg[e.u := ListAt(pdg, e.u) + [e]], u) == OutEdges(es + [e], u) { ListAtAdd(pdg, e.u, e, u); }
    forall v ensures ListAt(rev[e.v := ListAt(rev, e.v) + [back]], v) == InEdges(es + [e], v) { ListAtAdd(rev, e.v, back, v); }
  }

  class Pdg {
    var pdg: map<Inst, seq<Edge>>
    var rev: map<Inst, seq<Edge>>
    var allEdges: seq<Edge>

    /** What every sequence of `addEdge` calls keeps. */
    ghost predicate Valid()
      reads this
    {
      Mirror(pdg, rev, allEdges)
    }

    constructor ()
      ensures Valid() && allEdges == []
    {
      pdg, rev, allEdges := map[], map[], [];
    }

    method AddEdge(u: Inst, v: Inst, dtype: DType)
      requires Valid()
      modifies this
      ensures Valid()
      ensures allEdges == if Edge(u, v, dtype) in old(allEdges) then old(allEdges)
                          else old(allEdges) + [Edge(u, v, dtype)]
    {
      var e := Edge(u, v, dtype);
      OutEdgesMembers(allEdges, u, e);
      if e !in ListAt(pdg, u) {
        MirrorAdd(pdg, rev, allEdges, e);
        hide Mirror;
        pdg := pdg[u := ListAt(pdg, u) + [e]];
        allEdges := allEdges + [e];
        rev := rev[v := ListAt(rev, v) + [Edge(v, u, dtype)]];
      }
    }
  }
}
