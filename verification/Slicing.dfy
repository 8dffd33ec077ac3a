/** Slicing a graph to a set of kept nodes by redirecting branches up the post-dominator tree
    (DSWP_4.cpp:304-348): what the redirection means for paths and for branches. */
module Slicing {
  import opened PostDominance

  /** The first kept node, or the exit, met when climbing from `s`. */
  ghost function Climb<N(!new)>(g: Graph<N>, ip: map<N, N>, kept: set<N>, s: N): (z: N)
    requires Usable(g) && IsIPDom(g, ip) && s in g.nodes
    ensures z in g.nodes && (z in kept || z == g.exit) && PDom(g, z, s)
    decreases Depth(g, s)
  {
    PDomRefl(g, s);
    if s in kept || s == g.exit then s
    else
      DepthDecreases(g, ip[s], s);
      var z := Climb(g, ip, kept, ip[s]);
      PDomTrans(g, z, ip[s], s);
      z
  }

  /** If nothing kept between `s` and its post-dominator `t`, both climb to the same place. */
  lemma {:induction false} ClimbTo<N(!new)>(g: Graph<N>, ip: map<N, N>, kept: set<N>, s: N, t: N)
    requires Usable(g) && IsIPDom(g, ip) && PDom(g, t, s)
    requires forall y :: y in kept && PDom(g, y, s) ==> PDom(g, y, t)
    ensures Climb(g, ip, kept, s) == Climb(g, ip, kept, t)
    decreases Depth(g, s)
  {
    if s != t {
      PDomRefl(g, s);
      if s in kept || s == g.exit {
        if s == g.exit { ExitPDom(g, t); }
        PDomAntisym(g, s, t);
      }
      DepthDecreases(g, ip[s], s);
      TreePath(g, ip, t, s);
      forall y | y in kept && PDom(g, y, ip[s]) ensures PDom(g, y, t) { TreePath(g, ip, y, s); }
      ClimbTo(g, ip, kept, ip[s], t);
    }
  }

  /** A branch on which nothing kept is control dependent leads to one place, whatever it decides. */
  lemma ClimbSucc<N(!new)>(g: Graph<N>, ip: map<N, N>, kept: set<N>, x: N, s: N)
    requires Usable(g) && IsIPDom(g, ip) && x in g.nodes && x != g.exit && s in g.succ[x]
    requires forall y :: y in kept ==> !ControlDep(g, x, y)
    ensures Climb(g, ip, kept, s) == Climb(g, ip, kept, ip[x])
  {
    PDomSucc(g, ip[x], x, s);
    forall y | y in kept && PDom(g, y, s) ensures PDom(g, y, ip[x]) {
      assert !ControlDep(g, x, y);
    }
    ClimbTo(g, ip, kept, s, ip[x]);
  }

  /** A branch whose redirected targets differ has a kept node control dependent on it. */
  lemma DifferingTargets<N(!new)>(g: Graph<N>, ip: map<N, N>, kept: set<N>, x: N, s1: N, s2: N) returns (y: N)
    requires Usable(g) && IsIPDom(g, ip) && x in g.nodes && x != g.exit && s1 in g.succ[x] && s2 in g.succ[x]
    requires Climb(g, ip, kept, s1) != Climb(g, ip, kept, s2)
    ensures y in kept && ControlDep(g, x, y)
  {
    if z :| z in kept && ControlDep(g, x, z) {
      y := z;
    } else {
      ClimbSucc(g, ip, kept, x, s1);
      ClimbSucc(g, ip, kept, x, s2);
      y := x;
    }
  }

  /** `kept` holds every node that something kept is control dependent on. */
  ghost predicate ControlClosed<N(!new)>(g: Graph<N>, kept: set<N>)
    requires WellFormed(g)
  {
    forall x, y :: y in kept && ControlDep(g, x, y) ==> x in kept
  }

  /** Projection: the next kept node (or the exit) on any path is the one found by climbing from the path's start. */
  lemma {:induction false} Projection<N(!new)>(g: Graph<N>, ip: map<N, N>, kept: set<N>, p: seq<N>)
    requires Usable(g) && IsIPDom(g, ip) && ControlClosed(g, kept) && IsPath(g, p)
    requires forall i :: 0 <= i < |p| - 1 ==> p[i] !in kept && p[i] != g.exit
    requires p[|p| - 1] in kept || p[|p| - 1] == g.exit
    ensures Climb(g, ip, kept, p[0]) == p[|p| - 1]
  {
    if |p| > 1 {
      ClimbSucc(g, ip, kept, p[0], p[1]);
      Projection(g, ip, kept, p[1..]);
    }
  }
}
