/** The control-dependence half of buildPDG (DSWP_1.cpp:8-16, 264-493). */
module BuildPdg {
  import opened Ir
  import opened PostDominance
  import opened PeeledLoop
  import opened DependenceGraph
  import opened ControlDependence

  /** What LLVM's post-dominator tree answers: parents and nearest common ancestors. */
  datatype PostDomTree = PostDomTree(ip: map<Dummy, Dummy>, ncd: map<(Dummy, Dummy), Dummy>)

  ghost predicate IsTree(g: Graph<Dummy>, t: PostDomTree)
    requires WellFormed(g)
  {
    && IsIPDom(g, t.ip)
    && forall x, s :: x in g.nodes && s in g.succ[x] ==> (x, s) in t.ncd && IsNearest(g, t.ncd[(x, s)], x, s)
  }

  /** Such answers exist. */
  lemma DummyTree(g: Graph<Dummy>) returns (t: PostDomTree)
    requires Usable(g)
    ensures IsTree(g, t)
  {
    var ip := TreeExists(g);
    t := PostDomTree(ip, map x, s | x in g.nodes && s in g.succ[x] :: (x, s) := Nearest(g, x, s));
  }

  /** The control edges owed to the pairs of blocks in `deps`. */
  ghost predicate IsControlEdge(l: Loop, deps: set<(Block, Block)>, e: Edge)
    requires l.Valid()
  {
    && e.dtype == CONTROL && e.v in l.parent
    && exists x :: x in l.blocks && e.u == l.Term(x) && (x, l.parent[e.v]) in deps
  }

  /** `after` holds `before` and the control edges owed to `deps`, and nothing else. */
  ghost predicate Extends(l: Loop, before: seq<Edge>, after: seq<Edge>, deps: set<(Block, Block)>)
    requires l.Valid()
  {
    forall e :: e in after <==> e in before || IsControlEdge(l, deps, e)
  }

  lemma ExtendsTrans(l: Loop, a: seq<Edge>, b: seq<Edge>, c: seq<Edge>,
                     d1: set<(Block, Block)>, d2: set<(Block, Block)>)
    requires l.Valid() && Extends(l, a, b, d1) && Extends(l, b, c, d2)
    ensures Extends(l, a, c, d1 + d2)
  {
  }

  /** The dependences on `x` of what post-dominates `s` but not `c`. */
  ghost function Below(l: Loop, g: Graph<Dummy>, x: Block, s: Dummy, c: Dummy): set<(Block, Block)>
    requires WellFormed(g)
  {
    set y | y in g.nodes && PDom(g, y, s) && !PDom(g, y, c) :: (x, Real(l, y))
  }

  /** One step up the tree leaves exactly the current node behind. */
  lemma ClimbStep(l: Loop, g: Graph<Dummy>, ip: map<Dummy, Dummy>, x: Block, s: Dummy, c: Dummy, dn: Dummy)
    requires Usable(g) && IsIPDom(g, ip) && PDom(g, c, s) && PDom(g, dn, c) && dn != c
    ensures c != g.exit && PDom(g, ip[c], s) && PDom(g, dn, ip[c]) && Depth(g, ip[c]) < Depth(g, c)
    ensures Below(l, g, x, s, ip[c]) == Below(l, g, x, s, c) + {(x, Real(l, c))}
  {
    ExitPDom(g, dn);
    if c == g.exit { PDomAntisym(g, dn, c); }
    PDomTrans(g, ip[c], c, s);
    DepthDecreases(g, ip[c], c);
    if PDom(g, c, ip[c]) { PDomAntisym(g, c, ip[c]); }
    forall y ensures PDom(g, y, c) <==> y == c || PDom(g, y, ip[c]) { TreePath(g, ip, y, c); }
  }

  /** The climb stops at the nearest common post-dominator, having left behind all that is not common. */
  lemma ClimbEnd(l: Loop, g: Graph<Dummy>, x: Block, s: Dummy, d: Dummy, dn: Dummy)
    requires WellFormed(g) && IsNearest(g, dn, d, s)
    ensures Below(l, g, x, s, dn) == Below(l, g, x, s, d)
  {
    forall y | PDom(g, y, s) ensures PDom(g, y, dn) <==> PDom(g, y, d) {
      if PDom(g, y, dn) { PDomTrans(g, y, dn, d); }
    }
  }

  ghost function BelowSome(l: Loop, g: Graph<Dummy>, d: Dummy, ss: seq<Dummy>): set<(Block, Block)>
    requires WellFormed(g) && !d.DummyExit?
  {
    set s, y | s in ss && y in g.nodes && PDom(g, y, s) && !PDom(g, y, d) :: (d.b, Real(l, y))
  }

  lemma BelowNone(l: Loop, g: Graph<Dummy>, d: Dummy, es: seq<Edge>)
    requires l.Valid() && WellFormed(g) && !d.DummyExit?
    ensures Extends(l, es, es, BelowSome(l, g, d, []))
  {
    hide PDom;
    assert BelowSome(l, g, d, []) == {};
  }

  lemma NodeListed(g: Graph<Dummy>, d: Dummy)
    requires WellFormed(g) && d in g.nodes
    ensures d in g.succ
  {
  }

  lemma BelowSomeStep(l: Loop, g: Graph<Dummy>, d: Dummy, ss: seq<Dummy>, i: nat)
    requires WellFormed(g) && !d.DummyExit? && i < |ss|
    ensures BelowSome(l, g, d, ss[..i + 1]) == BelowSome(l, g, d, ss[..i]) + Below(l, g, d.b, ss[i], d)
  {
    assert ss[..i + 1] == ss[..i] + [ss[i]];
  }

  ghost function FromAll(l: Loop, g: Graph<Dummy>, ds: seq<Dummy>): set<(Block, Block)>
    requires WellFormed(g) && forall d :: d in ds ==> d in g.nodes && !d.DummyExit?
  {
    set d, p | d in ds && p in BelowSome(l, g, d, g.succ[d]) :: p
  }

  lemma FromAllStep(l: Loop, g: Graph<Dummy>, ds: seq<Dummy>, i: nat)
    requires WellFormed(g) && (forall d :: d in ds ==> d in g.nodes && !d.DummyExit?) && i < |ds|
    ensures FromAll(l, g, ds[..i + 1]) == FromAll(l, g, ds[..i]) + BelowSome(l, g, ds[i], g.succ[ds[i]])
  {
    assert ds[..i + 1] == ds[..i] + [ds[i]];
  }

  ghost function PeeledDeps(l: Loop, num: map<Block, nat>): set<(Block, Block)>
    requires l.Valid() && NumberedBy(l, num) && WellFormed(Peeled(l, num))
  {
    set x, y | x in l.blocks && y in l.blocks && PeeledDep(l, num, x, y) :: (x, y)
  }

  lemma FoundIsDep(l: Loop, num: map<Block, nat>, d: Dummy, x: Block, y: Block)
    requires l.Valid() && NumberedBy(l, num) && WellFormed(Peeled(l, num)) && d in Peeled(l, num).nodes && !d.DummyExit?
    requires (x, y) in BelowSome(l, Peeled(l, num), d, Peeled(l, num).succ[d])
    ensures (x, y) in PeeledDeps(l, num)
  {
    var g := Peeled(l, num);
    var s, y' :| s in g.succ[d] && y' in g.nodes && PDom(g, y', s) && !PDom(g, y', d) && Real(l, y') == y;
    ExitPDom(g, d);
    assert DummyDep(g, d, y');
    hide PDom, WellFormed;
  }

  lemma DepIsFound(l: Loop, num: map<Block, nat>, x: Block, y: Block) returns (d: Dummy)
    requires l.Valid() && NumberedBy(l, num) && WellFormed(Peeled(l, num)) && (x, y) in PeeledDeps(l, num)
    ensures !d.DummyExit? && d.b in l.blocks && d in Peeled(l, num).nodes
    ensures (x, y) in BelowSome(l, Peeled(l, num), d, Peeled(l, num).succ[d])
  {
    var g := Peeled(l, num);
    var d', y' :| DummyDep(g, d', y') && Real(l, d') == x && Real(l, y') == y;
    d := d';
    assert g.succ[DummyExit] == [];
    hide PDom, WellFormed;
  }

  /** Climbing from every edge of every dummy block finds exactly the dependences of the peeled graph. */
  lemma FromAllIsPeeled(l: Loop, num: map<Block, nat>, ds: seq<Dummy>)
    requires l.Valid() && NumberedBy(l, num) && WellFormed(Peeled(l, num))
    requires forall d :: d in ds <==> !d.DummyExit? && d.b in l.blocks
    ensures (forall d :: d in ds ==> d in Peeled(l, num).nodes) && FromAll(l, Peeled(l, num), ds) == PeeledDeps(l, num)
  {
    var g := Peeled(l, num);
    assert forall d :: d in ds ==> d in g.nodes;
    hide BelowSome, PeeledDeps, Peeled, WellFormed;
    forall x, y | (x, y) in FromAll(l, g, ds) ensures (x, y) in PeeledDeps(l, num) {
      var d :| d in ds && (x, y) in BelowSome(l, g, d, g.succ[d]);
      FoundIsDep(l, num, d, x, y);
    }
    forall x, y | (x, y) in PeeledDeps(l, num) ensures (x, y) in FromAll(l, g, ds) {
      var d := DepIsFound(l, num, x, y);
      assert d in ds;
    }
  }

  /** Adds a case; the first one also becomes the switch's default when it has none yet. */
  function AddCase(sw: seq<Dummy>, dest: Dummy): seq<Dummy> {
    (if sw == [] then [dest] else sw) + [dest]
  }

  /** The switches of both copies of `b` when the first `i` successors have been dealt with. */
  ghost predicate SwitchesTo(l: Loop, num: map<Block, nat>, b: Block, ss: seq<Block>, exits: bool, i: nat, top: seq<Dummy>, bottom: seq<Dummy>) {
    && NumberedBy(l, num) && b in l.blocks && i <= |ss|
    && top == Switch(exits, Cases(l, num, Top(b), ss[..i])) && bottom == Switch(exits, Cases(l, num, Bottom(b), ss[..i]))
  }

  lemma SwitchesNone(l: Loop, num: map<Block, nat>, b: Block, ss: seq<Block>, exits: bool)
    requires NumberedBy(l, num) && b in l.blocks
    ensures SwitchesTo(l, num, b, ss, exits, 0, Switch(exits, []), Switch(exits, []))
  {
  }

  lemma SwitchesAll(l: Loop, num: map<Block, nat>, b: Block, top: seq<Dummy>, bottom: seq<Dummy>)
    requires l.Valid() && b in l.blocks && SwitchesTo(l, num, b, l.succ[b], l.exit in l.succ[b], |l.succ[b]|, top, bottom)
    ensures NumberedBy(l, num) && top == DummySucc(l, num, Top(b)) && bottom == DummySucc(l, num, Bottom(b))
  {
    hide Switch, Cases;
    assert l.succ[b][..|l.succ[b]|] == l.succ[b];
  }

  lemma SwitchStep(l: Loop, num: map<Block, nat>, exits: bool, d: Dummy, ss: seq<Block>, i: nat)
    requires NumberedBy(l, num) && !d.DummyExit? && d.b in l.blocks && i < |ss|
    ensures Switch(exits, Cases(l, num, d, ss[..i + 1])) ==
              if ss[i] in l.blocks then AddCase(Switch(exits, Cases(l, num, d, ss[..i])), Target(num, d, ss[i]))
              else Switch(exits, Cases(l, num, d, ss[..i]))
  {
    assert ss[..i + 1][..i] == ss[..i];
  }

  lemma SwitchesStep(l: Loop, num: map<Block, nat>, b: Block, ss: seq<Block>, exits: bool, i: nat, top: seq<Dummy>, bottom: seq<Dummy>)
    requires SwitchesTo(l, num, b, ss, exits, i, top, bottom) && i < |ss|
    ensures ss[i] in l.blocks ==> ss[i] in num && b in num
    ensures ss[i] in l.blocks && num[ss[i]] <= num[b] ==>
              SwitchesTo(l, num, b, ss, exits, i + 1, AddCase(top, Bottom(ss[i])), AddCase(bottom, Bottom(ss[i])))
    ensures ss[i] in l.blocks && num[ss[i]] > num[b] ==>
              SwitchesTo(l, num, b, ss, exits, i + 1, AddCase(top, Top(ss[i])), AddCase(bottom, Bottom(ss[i])))
    ensures ss[i] !in l.blocks ==> SwitchesTo(l, num, b, ss, exits, i + 1, top, bottom)
  {
    hide Switch, Cases, AddCase;
    SwitchStep(l, num, exits, Top(b), ss, i);
    SwitchStep(l, num, exits, Bottom(b), ss, i);
  }

  /** `m` holds the successors of the dummy exit and of both copies of each block in `bs`. */
  ghost predicate Switched(l: Loop, num: map<Block, nat>, m: map<Dummy, seq<Dummy>>, bs: seq<Block>)
    requires l.Valid() && NumberedBy(l, num)
  {
    && (forall b :: b in bs ==> b in l.blocks)
    && (forall d :: d in m <==> d.DummyExit? || d.b in bs)
    && (forall d :: d in m ==> m[d] == DummySucc(l, num, d))
  }

  lemma SwitchedStep(l: Loop, num: map<Block, nat>, m: map<Dummy, seq<Dummy>>, bs: seq<Block>, b: Block)
    requires l.Valid() && NumberedBy(l, num) && Switched(l, num, m, bs) && b in l.blocks
    ensures Switched(l, num,
      m[Top(b) := DummySucc(l, num, Top(b))][Bottom(b) := DummySucc(l, num, Bottom(b))], [b] + bs)
  {
  }

  /** Once every block of the loop is covered, the switches are the peeled graph. */
  lemma SwitchedAll(l: Loop, num: map<Block, nat>, m: map<Dummy, seq<Dummy>>, bs: seq<Block>)
    requires l.Valid() && NumberedBy(l, num) && Switched(l, num, m, bs)
    requires forall b :: b in bs <==> b in l.blocks
    ensures m == Peeled(l, num).succ
  {
    hide DummySucc, DummyNodes, Loop.Valid;
    assert forall d :: d in m <==> d in DummyNodes(l);
  }

  // ---- the numbering of the blocks ----

  /** The blocks entered so far, and the order in which blocks have been left. */
  datatype Dfs = Dfs(vis: set<Block>, ord: seq<Block>)

  ghost function Unseen(l: Loop, vis: set<Block>): set<Block> {
    (set b | b in l.blocks) - vis
  }

  /** A depth-first search from `b`. */
  ghost function Visit(l: Loop, b: Block, d: Dfs): (r: Dfs)
    requires l.Valid() && b in l.blocks && b !in d.vis
    ensures d.vis + {b} <= r.vis
    decreases Unseen(l, d.vis), 0
  {
    var inner := VisitAll(l, l.succ[b], Dfs(d.vis + {b}, d.ord));
    Dfs(inner.vis, inner.ord + [b])
  }

  /** Searches from each of `ss` that lies in the loop and has not been entered by then. */
  ghost function VisitAll(l: Loop, ss: seq<Block>, d: Dfs): (r: Dfs)
    requires l.Valid()
    ensures d.vis <= r.vis
    decreases Unseen(l, d.vis), |ss|
  {
    if ss == [] then d
    else VisitAll(l, ss[1..], if ss[0] in l.blocks && ss[0] !in d.vis then Visit(l, ss[0], d) else d)
  }

  ghost function PostOrder(l: Loop): seq<Block>
    requires l.Valid()
  {
    VisitAll(l, l.blocks, Dfs({}, [])).ord
  }

  /** `instnum`: the place of a block counted from the end of the order. */
  ghost function Numbering(l: Loop): (num: map<Block, nat>)
    requires l.Valid()
    ensures NumberedBy(l, num) && forall b :: b in num <==> b in l.blocks
  {
    PostOrderAll(l);
    map b | b in l.blocks :: |PostOrder(l)| - 1 - IndexOf(PostOrder(l), b)
  }

  /** The blocks from place `it` of the order on have their numbers and are listed, both copies. */
  ghost predicate NumberedTo(ord: seq<Block>, it: nat, num: map<Block, nat>, list: seq<Dummy>) {
    && it <= |ord| && NoDups(ord) && (forall b :: b in num <==> b in ord[it..])
    && (forall j :: it <= j < |ord| ==> ord[j] in num && num[ord[j]] == |ord| - 1 - j)
    && (forall d :: d in list <==> !d.DummyExit? && d.b in ord[it..])
  }

  lemma NumberedNone(ord: seq<Block>)
    requires NoDups(ord)
    ensures NumberedTo(ord, |ord|, map[], [])
  {
  }

  lemma NumberedStep(ord: seq<Block>, it: nat, num: map<Block, nat>, list: seq<Dummy>)
    requires it < |ord| && NumberedTo(ord, it + 1, num, list)
    ensures NumberedTo(ord, it, num[ord[it] := |ord| - 1 - it], list + [Top(ord[it]), Bottom(ord[it])])
  {
    assert ord[it..] == [ord[it]] + ord[it + 1..];
  }

  lemma NumberedAll(l: Loop, num: map<Block, nat>, list: seq<Dummy>)
    requires l.Valid() && NumberedTo(PostOrder(l), 0, num, list)
    ensures num == Numbering(l) && forall d :: d in list <==> !d.DummyExit? && d.b in l.blocks
  {
    hide PostOrder, Numbering, NoDups, Loop.Valid, IndexOf, NumberedTo;
    PostOrderAll(l);
    NumberedWhole(PostOrder(l), num, list);
    forall b | b in num ensures num[b] == Numbering(l)[b] { NumberIs(l, b); }
  }

  lemma NumberIs(l: Loop, b: Block)
    requires l.Valid() && b in l.blocks && b in PostOrder(l)
    ensures Numbering(l)[b] == |PostOrder(l)| - 1 - IndexOf(PostOrder(l), b)
  {
    hide PostOrder, IndexOf, Loop.Valid;
  }

  lemma NumberedWhole(ord: seq<Block>, num: map<Block, nat>, list: seq<Dummy>)
    requires NumberedTo(ord, 0, num, list)
    ensures forall b :: b in num <==> b in ord
    ensures forall b :: b in ord ==> num[b] == |ord| - 1 - IndexOf(ord, b)
    ensures forall d :: d in list <==> !d.DummyExit? && d.b in ord
  {
    assert ord[0..] == ord;
    hide IndexOf;
    forall b | b in ord ensures num[b] == |ord| - 1 - IndexOf(ord, b) {
      var j := IndexOf(ord, b);
      assert 0 <= j < |ord| && ord[j] == b;
    }
  }

  /** Entered but not yet left. */
  ghost predicate Open(d: Dfs, b: Block) {
    b in d.vis && b !in d.ord
  }

  ghost predicate Within(l: Loop, d: Dfs) {
    (forall b :: b in d.vis ==> b in l.blocks) && (forall b :: b in d.ord ==> b in d.vis) && NoDups(d.ord)
  }

  lemma {:induction false} VisitKeeps(l: Loop, b: Block, d: Dfs)
    requires l.Valid() && Within(l, d) && b in l.blocks && b !in d.vis
    ensures var r := Visit(l, b, d); Within(l, r) && b in r.ord && (forall h :: Open(r, h) <==> Open(d, h))
    decreases Unseen(l, d.vis), 0
  {
    var enter := Dfs(d.vis + {b}, d.ord);
    assert Open(enter, b);
    VisitAllKeeps(l, l.succ[b], enter);
    assert forall h :: Open(enter, h) <==> Open(d, h) || h == b;
  }

  /** A search leaves what it enters, and lists it once. */
  lemma {:induction false} VisitAllKeeps(l: Loop, ss: seq<Block>, d: Dfs)
    requires l.Valid() && Within(l, d)
    ensures var r := VisitAll(l, ss, d);
            && Within(l, r) && (forall h :: Open(r, h) <==> Open(d, h))
            && (forall s :: s in ss && s in l.blocks ==> s in r.vis)
    decreases Unseen(l, d.vis), |ss|
  {
    if ss != [] {
      if ss[0] in l.blocks && ss[0] !in d.vis {
        VisitKeeps(l, ss[0], d);
        VisitAllKeeps(l, ss[1..], Visit(l, ss[0], d));
      } else {
        VisitAllKeeps(l, ss[1..], d);
      }
    }
  }

  /** The order lists each block of the loop exactly once. */
  lemma PostOrderAll(l: Loop)
    requires l.Valid()
    ensures NoDups(PostOrder(l)) && forall b :: b in PostOrder(l) <==> b in l.blocks
  {
    var start := Dfs({}, []);
    VisitAllKeeps(l, l.blocks, start);
    var r := VisitAll(l, l.blocks, start);
    forall b | b in l.blocks ensures b in r.ord { assert !Open(start, b); }
  }

  /** Inside the loop a path leads from `a` to `b`. */
  ghost predicate Leads(l: Loop, a: Block, b: Block)
    requires l.Valid()
  {
    exists p: seq<Block> :: LoopPath(l, p) && p[0] == a && p[|p| - 1] == b
  }

  ghost predicate LoopPath(l: Loop, p: seq<Block>)
    requires l.Valid()
  {
    && |p| > 0
    && (forall i :: 0 <= i < |p| ==> p[i] in l.blocks)
    && (forall i, j :: 0 <= i && j == i + 1 && j < |p| ==> p[j] in l.succ[p[i]])
  }

  lemma LeadsOn(l: Loop, a: Block, b: Block, s: Block)
    requires l.Valid() && Leads(l, a, b) && s in l.succ[b] && s in l.blocks
    ensures Leads(l, a, s)
  {
    var p: seq<Block> :| LoopPath(l, p) && p[0] == a && p[|p| - 1] == b;
    assert LoopPath(l, p + [s]);
  }

  lemma LeadsSelf(l: Loop, a: Block)
    requires l.Valid() && a in l.blocks
    ensures Leads(l, a, a)
  {
    assert LoopPath(l, [a]);
  }

  /** Each block left has the ends of its edges in front of it, or else an edge to a block that leads back to it. */
  ghost predicate Topological(l: Loop, ord: seq<Block>)
    requires l.Valid()
  {
    forall k, s :: 0 <= k < |ord| && ord[k] in l.blocks && s in l.succ[ord[k]] && s in l.blocks ==>
      s in ord[..k] || Leads(l, s, ord[k])
  }

  ghost predicate AllLead(l: Loop, d: Dfs, ss: seq<Block>)
    requires l.Valid()
  {
    forall h, s :: Open(d, h) && s in ss && s in l.blocks ==> Leads(l, h, s)
  }

  lemma LeaveOrder(l: Loop, d: Dfs, b: Block)
    requires l.Valid() && Topological(l, d.ord) && b in l.blocks
    requires forall s :: s in l.succ[b] && s in l.blocks ==> s in d.vis
    requires forall h :: Open(d, h) ==> Leads(l, h, b)
    ensures Topological(l, d.ord + [b])
  {
    var r := d.ord + [b];
    hide Leads;
    forall k, s | 0 <= k < |r| && r[k] in l.blocks && s in l.succ[r[k]] && s in l.blocks
      ensures s in r[..k] || Leads(l, s, r[k])
    {
      if k < |d.ord| { assert r[..k] == d.ord[..k]; } else { assert r[..k] == d.ord; assert s in d.ord || Open(d, s); }
    }
  }

  lemma {:induction false} VisitOrder(l: Loop, b: Block, d: Dfs)
    requires l.Valid() && Within(l, d) && b in l.blocks && b !in d.vis && Topological(l, d.ord) && AllLead(l, d, [b])
    ensures Topological(l, Visit(l, b, d).ord)
    decreases Unseen(l, d.vis), 0
  {
    hide Leads, Topological;
    var enter, ss := Dfs(d.vis + {b}, d.ord), l.succ[b];
    LeadsSelf(l, b);
    assert forall h :: Open(enter, h) <==> Open(d, h) || h == b;
    forall h, s | Open(enter, h) && s in ss && s in l.blocks ensures Leads(l, h, s) { LeadsOn(l, h, b, s); }
    VisitAllKeeps(l, ss, enter);
    VisitAllOrder(l, ss, enter);
    var inner := VisitAll(l, ss, enter);
    forall h | Open(inner, h) ensures Leads(l, h, b) { assert Open(enter, h); }
    LeaveOrder(l, inner, b);
  }

  lemma {:induction false} VisitAllOrder(l: Loop, ss: seq<Block>, d: Dfs)
    requires l.Valid() && Within(l, d) && Topological(l, d.ord) && AllLead(l, d, ss)
    ensures Topological(l, VisitAll(l, ss, d).ord)
    decreases Unseen(l, d.vis), |ss|
  {
    hide Leads, Topological;
    if ss != [] {
      if ss[0] in l.blocks && ss[0] !in d.vis {
        VisitKeeps(l, ss[0], d);
        VisitOrder(l, ss[0], d);
        VisitAllOrder(l, ss[1..], Visit(l, ss[0], d));
      } else {
        VisitAllOrder(l, ss[1..], d);
      }
    }
  }

  /** The numbering is topological but for cycles: an edge that does not lead to a larger number closes one. So the top
      half of the peeled graph leaves out only edges that close cycles. */
  lemma NumbersRise(l: Loop, u: Block, v: Block)
    requires l.Valid() && u in l.blocks && v in l.succ[u] && v in l.blocks
    ensures Numbering(l)[u] < Numbering(l)[v] || Leads(l, v, u)
  {
    PostOrderAll(l);
    VisitAllOrder(l, l.blocks, Dfs({}, []));
    var ord := PostOrder(l);
    var k := IndexOf(ord, u);
    if v in ord[..k] {
      var j :| 0 <= j < k && ord[j] == v;
      assert IndexOf(ord, v) <= j;
    }
  }

  /** `r` goes on from `d` with blocks to which some of `ss` leads. */
  ghost predicate Onward(l: Loop, ss: seq<Block>, d: Dfs, r: Dfs)
    requires l.Valid()
  {
    d.ord <= r.ord && forall k :: |d.ord| <= k < |r.ord| ==> SomeLeads(l, ss, r.ord[k])
  }

  ghost predicate SomeLeads(l: Loop, ss: seq<Block>, b: Block)
    requires l.Valid()
  {
    exists s :: s in ss && s in l.blocks && Leads(l, s, b)
  }

  lemma {:induction false} VisitOnward(l: Loop, b: Block, d: Dfs)
    requires l.Valid() && b in l.blocks && b !in d.vis
    ensures Onward(l, [b], d, Visit(l, b, d)) && b in Visit(l, b, d).ord[|d.ord|..]
    decreases Unseen(l, d.vis), 0
  {
    hide Leads;
    var enter, r := Dfs(d.vis + {b}, d.ord), Visit(l, b, d);
    VisitAllOnward(l, l.succ[b], enter);
    LeadsSelf(l, b);
    forall k | |d.ord| <= k < |r.ord| ensures Leads(l, b, r.ord[k]) {
      if k < |r.ord| - 1 {
        assert SomeLeads(l, l.succ[b], r.ord[k]);
        var s :| s in l.succ[b] && s in l.blocks && Leads(l, s, r.ord[k]);
        LeadsFrom(l, b, s, r.ord[k]);
      }
    }
    assert b in [b] && r.ord[|d.ord|..][|r.ord| - 1 - |d.ord|] == b;
  }

  lemma LeadsFrom(l: Loop, a: Block, s: Block, b: Block)
    requires l.Valid() && a in l.blocks && s in l.succ[a] && Leads(l, s, b)
    ensures Leads(l, a, b)
  {
    assert forall b :: b in l.blocks ==> b in l.succ;
    hide Loop.Valid;
    var p: seq<Block> :| LoopPath(l, p) && p[0] == s && p[|p| - 1] == b;
    var q := [a] + p;
    forall i, j | 0 <= i && j == i + 1 && j < |q| ensures q[i] in l.blocks && q[j] in l.blocks && q[j] in l.succ[q[i]] {
      if i > 0 { assert q[i] == p[i - 1] && q[j] == p[j - 1]; }
    }
    assert LoopPath(l, q);
  }

  lemma {:induction false} VisitAllOnward(l: Loop, ss: seq<Block>, d: Dfs)
    requires l.Valid()
    ensures Onward(l, ss, d, VisitAll(l, ss, d))
    decreases Unseen(l, d.vis), |ss|
  {
    hide Leads, Onward, Loop.Valid;
    if ss == [] {
      OnwardSelf(l, d);
    } else if ss[0] in l.blocks && ss[0] !in d.vis {
      var mid := Visit(l, ss[0], d);
      VisitOnward(l, ss[0], d);
      VisitAllOnward(l, ss[1..], mid);
      OnwardBoth(l, ss, d, mid, VisitAll(l, ss, d));
    } else {
      VisitAllOnward(l, ss[1..], d);
      OnwardSelf(l, d);
      OnwardBoth(l, ss, d, d, VisitAll(l, ss, d));
    }
  }

  lemma OnwardSelf(l: Loop, d: Dfs)
    requires l.Valid()
    ensures forall ss :: Onward(l, ss, d, d)
  {
  }

  lemma OnwardBoth(l: Loop, ss: seq<Block>, d: Dfs, mid: Dfs, r: Dfs)
    requires l.Valid() && ss != [] && Onward(l, [ss[0]], d, mid) && Onward(l, ss[1..], mid, r)
    ensures Onward(l, ss, d, r)
  {
    hide Leads, Loop.Valid;
    assert forall s :: s in [ss[0]] || s in ss[1..] ==> s in ss;
    forall k | |d.ord| <= k < |r.ord| ensures SomeLeads(l, ss, r.ord[k]) {
      if k < |mid.ord| {
        assert r.ord[k] == mid.ord[k] && SomeLeads(l, [ss[0]], mid.ord[k]);
      } else {
        assert SomeLeads(l, ss[1..], r.ord[k]);
      }
    }
  }

  /** Successors are searched in their order: up to the first one listed, the search leaves only what that one leads to. */
  lemma FirstLeftFirst(l: Loop, ss: seq<Block>, d: Dfs) returns (k: nat)
    requires l.Valid() && ss != [] && ss[0] in l.blocks && ss[0] !in d.vis
    ensures var r := VisitAll(l, ss, d).ord;
            |d.ord| <= k < |r| && r[k] == ss[0] && forall j :: |d.ord| <= j <= k ==> Leads(l, ss[0], r[j])
  {
    hide Leads, Unseen;
    var mid := Visit(l, ss[0], d);
    VisitOnward(l, ss[0], d);
    VisitAllOnward(l, ss[1..], mid);
    var i :| 0 <= i < |mid.ord| - |d.ord| && mid.ord[|d.ord|..][i] == ss[0];
    k := |d.ord| + i;
    assert forall j :: 0 <= j < |mid.ord| ==> VisitAll(l, ss, d).ord[j] == mid.ord[j];
  }

  /** So everything that the header's first successor does not lead to has a smaller number than that. */
  lemma FirstBranchLast(l: Loop, s: Block, t: Block)
    requires l.Valid() && l.blocks[0] == l.header && l.succ[l.header][0] == s && s in l.blocks && s != l.header
    requires t in l.blocks && !Leads(l, s, t)
    ensures Numbering(l)[t] < Numbering(l)[s]
  {
    var ss, ord := l.succ[l.header], PostOrder(l);
    assert ss != [] && ss[0] == s;
    hide Leads, VisitAll, PostOrder, Loop.Valid, IndexOf;
    var k := FirstLeftFirst(l, ss, Dfs({l.header}, []));
    HeaderSearch(l);
    PostOrderAll(l);
    NumberIs(l, s);
    NumberIs(l, t);
    PlaceIs(ord, k);
    var i := IndexOf(ord, t);
    assert ord[i] == t;
  }

  lemma PlaceIs(s: seq<Block>, k: nat)
    requires NoDups(s) && k < |s|
    ensures s[k] in s && IndexOf(s, s[k]) == k
  {
  }

  /** The search begins at the header. */
  lemma HeaderSearch(l: Loop)
    requires l.Valid() && l.blocks[0] == l.header
    ensures VisitAll(l, l.succ[l.header], Dfs({l.header}, [])).ord <= PostOrder(l)
  {
    hide Leads;
    var h, none := l.header, Dfs({}, []);
    assert none.vis + {h} == {h};
    VisitAllOnward(l, l.blocks[1..], Visit(l, h, none));
  }

  /** `after` has gained the control edges from `ti` to the first `i` of `insts`. */
  ghost predicate EdgesAdded(before: seq<Edge>, after: seq<Edge>, ti: Inst, insts: seq<Inst>, i: nat) {
    i <= |insts| && forall e :: e in after <==> e in before || (e.u == ti && e.dtype == CONTROL && e.v in insts[..i])
  }

  lemma EdgesNone(before: seq<Edge>, ti: Inst, insts: seq<Inst>)
    ensures EdgesAdded(before, before, ti, insts, 0)
  {
  }

  lemma EdgesStep(before: seq<Edge>, was: seq<Edge>, after: seq<Edge>, ti: Inst, insts: seq<Inst>, i: nat)
    requires EdgesAdded(before, was, ti, insts, i) && i < |insts|
    requires forall e :: e in after <==> e in was || e == Edge(ti, insts[i], CONTROL)
    ensures EdgesAdded(before, after, ti, insts, i + 1)
  {
    assert insts[..i + 1] == insts[..i] + [insts[i]];
  }

  class Builder {
    const l: Loop
    var vis: set<Block>
    var ord: seq<Block>
    var instnum: map<Block, nat>
    var dummylist: seq<Dummy>
    var succ: map<Dummy, seq<Dummy>>

    constructor (l: Loop)
      ensures this.l == l && vis == {} && ord == [] && instnum == map[] && dummylist == [] && succ == map[]
    {
      this.l := l;
      vis, ord, instnum, dummylist, succ := {}, [], map[], [], map[];
    }

    method DfsVisit(bb: Block)
      requires l.Valid() && bb in l.blocks && bb !in vis
      modifies this`vis, this`ord
      ensures Dfs(vis, ord) == Visit(l, bb, Dfs(old(vis), old(ord)))
      decreases Unseen(l, vis)
    {
      ghost var enter := Dfs(vis + {bb}, ord);
      vis := vis + {bb};
      var ss := l.succ[bb];
      for i := 0 to |ss|
        invariant enter.vis <= vis && VisitAll(l, ss[i..], Dfs(vis, ord)) == VisitAll(l, ss, enter)
      {
        var s := ss[i];
        assert ss[i..][0] == s && ss[i..][1..] == ss[i + 1..];
        if s in l.blocks && s !in vis { DfsVisit(s); }
      }
      assert ss[|ss|..] == [];
      ord := ord + [bb];
    }

    /** The order in which a depth-first search leaves the blocks. */
    method Sort()
      requires l.Valid() && vis == {} && ord == []
      modifies this`vis, this`ord
      ensures ord == PostOrder(l)
    {
      assert l.blocks[0..] == l.blocks;
      for i := 0 to |l.blocks|
        invariant VisitAll(l, l.blocks[i..], Dfs(vis, ord)) == VisitAll(l, l.blocks, Dfs({}, []))
      {
        assert l.blocks[i..][0] == l.blocks[i] && l.blocks[i..][1..] == l.blocks[i + 1..];
        if l.blocks[i] !in vis { DfsVisit(l.blocks[i]); }
      }
    }

    /** Numbers the blocks from the end of the order and lists their two copies. */
    method Number()
      requires l.Valid() && instnum == map[] && dummylist == [] && ord == PostOrder(l)
      modifies this`instnum, this`dummylist
      ensures instnum == Numbering(l)
      ensures forall d :: d in dummylist <==> !d.DummyExit? && d.b in l.blocks
    {
      hide PostOrder, Numbering, Loop.Valid, NumberedTo, NoDups;
      PostOrderAll(l);
      NumberedNone(ord);
      var it, i := |ord|, 0;
      while it > 0
        invariant 0 <= it <= |ord| && i == |ord| - it && NumberedTo(ord, it, instnum, dummylist)
      {
        it := it - 1;
        NumberedStep(ord, it, instnum, dummylist);
        dummylist := dummylist + [Top(ord[it]), Bottom(ord[it])];
        instnum := instnum[ord[it] := i];
        i := i + 1;
      }
      NumberedAll(l, instnum, dummylist);
    }

    /** The two switches of one block. */
    method Switches(b: Block) returns (top: seq<Dummy>, bottom: seq<Dummy>)
      requires l.Valid() && NumberedBy(l, instnum) && b in l.blocks
      ensures top == DummySucc(l, instnum, Top(b)) && bottom == DummySucc(l, instnum, Bottom(b))
    {
      var num, ss, exits := instnum, l.succ[b], l.exit in l.succ[b];
      top, bottom := Switch(exits, []), Switch(exits, []);
      SwitchesNone(l, num, b, ss, exits);
      hide *;
      for i := 0 to |ss|
        invariant SwitchesTo(l, num, b, ss, exits, i, top, bottom)
      {
        SwitchesStep(l, num, b, ss, exits, i, top, bottom);
        if ss[i] in l.blocks {
          var dest2 := Bottom(ss[i]);
          var dest1 := if num[ss[i]] <= num[b] then Bottom(ss[i]) else Top(ss[i]);
          top, bottom := AddCase(top, dest1), AddCase(bottom, dest2);
        }
      }
      SwitchesAll(l, num, b, top, bottom);
    }

    method AddSwitches(b: Block, ghost bs: seq<Block>)
      requires l.Valid() && NumberedBy(l, instnum) && Switched(l, instnum, succ, bs) && b in l.blocks
      modifies this`succ
      ensures Switched(l, instnum, succ, [b] + bs)
    {
      SwitchedStep(l, instnum, succ, bs, b);
      var top, bottom := Switches(b);
      succ := succ[Top(b) := top][Bottom(b) := bottom];
    }

    method Branches()
      requires l.Valid() && NumberedBy(l, instnum) && succ == map[]
      requires forall b :: b in ord <==> b in l.blocks
      modifies this`succ
      ensures succ == Peeled(l, instnum).succ
    {
      succ := succ[DummyExit := []];
      var it := |ord|;
      while it > 0
        invariant 0 <= it <= |ord|
        invariant Switched(l, instnum, succ, ord[it..])
      {
        it := it - 1;
        AddSwitches(ord[it], ord[it + 1..]);
        assert ord[it..] == [ord[it]] + ord[it + 1..];
      }
      SwitchedAll(l, instnum, succ, ord[0..]);
    }

    /** One step of the climb: an edge from the branch to each instruction of the dependent block. */
    method AddBlock(pdg: Pdg, x: Block, y: Block)
      requires l.Valid() && pdg.Valid() && x in l.blocks && y in l.blocks
      modifies pdg
      ensures pdg.Valid()
      ensures Extends(l, old(pdg.allEdges), pdg.allEdges, {(x, y)})
    {
      var ti, insts := l.Term(x), l.body[y];
      hide *;
      ghost var before := pdg.allEdges;
      EdgesNone(before, ti, insts);
      for i := 0 to |insts|
        invariant pdg.Valid() && EdgesAdded(before, pdg.allEdges, ti, insts, i)
      {
        ghost var was := pdg.allEdges;
        pdg.AddEdge(ti, insts[i], CONTROL);
        EdgesStep(before, was, pdg.allEdges, ti, insts, i);
      }
      OneBlock(x, y, before, pdg.allEdges);
    }

    lemma OneBlock(x: Block, y: Block, before: seq<Edge>, after: seq<Edge>)
      requires l.Valid() && x in l.blocks && y in l.blocks && EdgesAdded(before, after, l.Term(x), l.body[y], |l.body[y]|)
      ensures Extends(l, before, after, {(x, y)})
    {
      assert l.body[y][..|l.body[y]|] == l.body[y];
      forall e ensures IsControlEdge(l, {(x, y)}, e) <==> e.u == l.Term(x) && e.dtype == CONTROL && e.v in l.body[y] {
        if e.u == l.Term(x) && e.dtype == CONTROL && e.v in l.body[y] { assert (x, l.parent[e.v]) in {(x, y)}; }
      }
    }

    /** Builds the peeled graph of the loop. */
    method Prepare()
      requires l.Valid() && vis == {} && ord == [] && instnum == map[] && dummylist == [] && succ == map[]
      modifies this
      ensures instnum == Numbering(l) && NumberedBy(l, instnum) && succ == Peeled(l, instnum).succ
      ensures forall d :: d in dummylist <==> !d.DummyExit? && d.b in l.blocks
    {
      Sort();
      PostOrderAll(l);
      hide PostOrder, Numbering, Peeled;
      Number();
      Branches();
    }

    /** Adds the dependences of one edge `d`-`s` of the peeled graph `g`. */
    method Climb(pdg: Pdg, t: PostDomTree, d: Dummy, s: Dummy, ghost g: Graph<Dummy>)
      requires l.Valid() && pdg.Valid()
      requires Usable(g) && g.nodes == DummyNodes(l) && g.exit == DummyExit && IsTree(g, t)
      requires d in g.nodes && d != DummyExit && s in g.succ[d]
      modifies pdg
      ensures pdg.Valid()
      ensures Extends(l, old(pdg.allEdges), pdg.allEdges, Below(l, g, d.b, s, d))
    {
      var dn, c := t.ncd[(d, s)], s;
      while c != dn && c != DummyExit
        invariant pdg.Valid() && PDom(g, c, s) && PDom(g, dn, c)
        invariant Extends(l, old(pdg.allEdges), pdg.allEdges, Below(l, g, d.b, s, c))
        decreases Depth(g, c)
      {
        ClimbStep(l, g, t.ip, d.b, s, c, dn);
        ghost var mid := pdg.allEdges;
        AddBlock(pdg, d.b, c.b);
        ExtendsTrans(l, old(pdg.allEdges), mid, pdg.allEdges, Below(l, g, d.b, s, c), {(d.b, c.b)});
        c := t.ip[c];
      }
      if c != dn { NotAtExit(g, dn, c); }
      ClimbEnd(l, g, d.b, s, d, dn);
    }

    method ClimbAll(pdg: Pdg, t: PostDomTree, d: Dummy, ghost g: Graph<Dummy>)
      requires l.Valid() && pdg.Valid()
      requires Usable(g) && g.nodes == DummyNodes(l) && g.exit == DummyExit && IsTree(g, t) && g.succ == succ
      requires d in g.nodes && d != DummyExit
      modifies pdg
      ensures pdg.Valid()
      ensures Extends(l, old(pdg.allEdges), pdg.allEdges, BelowSome(l, g, d, g.succ[d]))
    {
      hide PDom, Usable, IsTree, Pdg.Valid, Extends, BelowSome, Below, Loop.Valid, DummyNodes, WellFormed;
      UsableFormed(g);
      NodeListed(g, d);
      var ss := succ[d];
      BelowNone(l, g, d, pdg.allEdges);
      for i := 0 to |ss|
        invariant pdg.Valid() && Extends(l, old(pdg.allEdges), pdg.allEdges, BelowSome(l, g, d, ss[..i]))
      {
        ghost var mid := pdg.allEdges;
        Climb(pdg, t, d, ss[i], g);
        BelowSomeStep(l, g, d, ss, i);
        ExtendsTrans(l, old(pdg.allEdges), mid, pdg.allEdges, BelowSome(l, g, d, ss[..i]), Below(l, g, d.b, ss[i], d));
      }
      assert ss[..|ss|] == ss;
    }

    /** Adds to the dependence graph the control edges of the peeled loop, and only those. */
    method ControlEdges(pdg: Pdg, t: PostDomTree)
      requires l.Valid() && NumberedBy(l, instnum) && pdg.Valid()
      requires Usable(Peeled(l, instnum)) && IsTree(Peeled(l, instnum), t) && Peeled(l, instnum).succ == succ
      requires forall d :: d in dummylist <==> !d.DummyExit? && d.b in l.blocks
      modifies pdg
      ensures pdg.Valid()
      ensures Extends(l, old(pdg.allEdges), pdg.allEdges, PeeledDeps(l, instnum))
    {
      ghost var g := Peeled(l, instnum);
      for k := 0 to |dummylist|
        invariant pdg.Valid() && Extends(l, old(pdg.allEdges), pdg.allEdges, FromAll(l, g, dummylist[..k]))
      {
        ghost var mid := pdg.allEdges;
        var d := dummylist[k];
        ClimbAll(pdg, t, d, g);
        FromAllStep(l, g, dummylist, k);
        ExtendsTrans(l, old(pdg.allEdges), mid, pdg.allEdges,
                     FromAll(l, g, dummylist[..k]), BelowSome(l, g, d, g.succ[d]));
      }
      assert dummylist[..|dummylist|] == dummylist;
      FromAllIsPeeled(l, instnum, dummylist);
    }
  }
}
