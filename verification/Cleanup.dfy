/** The two list passes of cleanup (DSWP_5.cpp:209-267): what stands behind the terminator moves in front of it, then the
    phi nodes move to the top. */
module Cleanup {
  import opened Ir

  function Reversed<T>(s: seq<T>): seq<T> {
    if s == [] then [] else Reversed(s[1..]) + [s[0]]
  }

  function Filtered<T>(s: seq<T>, f: T -> bool): seq<T> {
    if s == [] then []
    else Filtered(s[..|s| - 1], f) + if f(s[|s| - 1]) then [s[|s| - 1]] else []
  }

  lemma {:induction false} ReversedAt<T>(s: seq<T>, k: nat)
    requires k < |s|
    ensures |Reversed(s)| == |s| && Reversed(s)[k] == s[|s| - 1 - k]
  {
    if |s| > 1 { ReversedAt(s[1..], if k < |s| - 1 then k else 0); }
  }

  lemma {:induction false} ReversedSame<T>(s: seq<T>)
    ensures multiset(Reversed(s)) == multiset(s)
  {
    if s != [] {
      ReversedSame(s[1..]);
      assert s == [s[0]] + s[1..];
    }
  }

  lemma FilteredSnoc<T>(s: seq<T>, f: T -> bool)
    requires s != []
    ensures Filtered(s, f) == Filtered(s[..|s| - 1], f) + if f(s[|s| - 1]) then [s[|s| - 1]] else []
  {
  }

  /** The two filters split a list. */
  lemma {:induction false} FilteredSplit<T>(s: seq<T>, f: T -> bool, g: T -> bool)
    requires forall x :: g(x) <==> !f(x)
    ensures multiset(Filtered(s, f)) + multiset(Filtered(s, g)) == multiset(s)
  {
    hide Filtered;
    if s == [] {
      NothingFiltered(f);
      NothingFiltered(g);
    } else {
      var front, x := s[..|s| - 1], s[|s| - 1];
      FilteredSplit(front, f, g);
      FilteredCounts(s, f);
      FilteredCounts(s, g);
      SnocCounts(front, x);
      assert s == front + [x];
      OneMore(multiset(Filtered(front, f)), multiset(Filtered(front, g)), multiset(front), x);
    }
  }

  lemma OneMore<T>(a: multiset<T>, b: multiset<T>, m: multiset<T>, x: T)
    requires a + b == m
    ensures (a + multiset{x}) + b == m + multiset{x} && a + (b + multiset{x}) == m + multiset{x}
    ensures a + multiset{} == a && b + multiset{} == b
  {
  }

  lemma FilteredCounts<T>(s: seq<T>, f: T -> bool)
    requires s != []
    ensures multiset(Filtered(s, f)) == multiset(Filtered(s[..|s| - 1], f)) + if f(s[|s| - 1]) then multiset{s[|s| - 1]} else multiset{}
  {
    hide Filtered;
    FilteredSnoc(s, f);
    if f(s[|s| - 1]) {
      SnocCounts(Filtered(s[..|s| - 1], f), s[|s| - 1]);
    } else {
      assert Filtered(s, f) == Filtered(s[..|s| - 1], f);
    }
  }

  lemma SnocCounts<T>(s: seq<T>, x: T)
    ensures multiset(s + [x]) == multiset(s) + multiset{x}
  {
  }

  lemma NothingFiltered<T>(f: T -> bool)
    ensures Filtered([], f) == []
  {
  }

  lemma {:induction false} FilteredNone<T>(s: seq<T>, f: T -> bool)
    requires forall k :: 0 <= k < |s| ==> !f(s[k])
    ensures Filtered(s, f) == []
  {
    if s != [] { FilteredNone(s[..|s| - 1], f); }
  }

  lemma {:induction false} FilteredAll<T>(s: seq<T>, f: T -> bool)
    requires forall k :: 0 <= k < |s| ==> f(s[k])
    ensures Filtered(s, f) == s
  {
    if s != [] { FilteredAll(s[..|s| - 1], f); }
  }

  /** The list in the middle of the first pass: of what stood behind the terminator `x`, the first `j` are still there. */
  function Halfway<T>(front: seq<T>, x: T, back: seq<T>, j: nat): seq<T>
    requires j <= |back|
  {
    front + Reversed(back[j..]) + [x] + back[..j]
  }

  /** The last element, put in front of the one at `k`. */
  function MoveLast<T>(r: seq<T>, k: nat): seq<T>
    requires k < |r|
  {
    r[..k] + [r[|r| - 1]] + r[k..|r| - 1]
  }

  lemma HalfwayStep<T>(front: seq<T>, x: T, back: seq<T>, j: nat)
    requires 0 < j <= |back|
    ensures var r, k := Halfway(front, x, back, j), |front| + |back| - j;
            |r| == |front| + 1 + |back| && MoveLast(r, k) == Halfway(front, x, back, j - 1)
  {
    var moved := Reversed(back[j..]);
    if j < |back| { ReversedAt(back[j..], 0); }
    assert |moved| == |back| - j;
    assert back[j - 1..] == [back[j - 1]] + back[j..];
    assert back[..j] == back[..j - 1] + [back[j - 1]];
    var r, k := Halfway(front, x, back, j), |front| + |back| - j;
    assert r[..k] == front + moved;
    assert r[k..|r| - 1] == [x] + back[..j - 1];
  }

  lemma HalfwayStart<T>(front: seq<T>, x: T, back: seq<T>)
    ensures Halfway(front, x, back, |back|) == front + [x] + back
  {
    assert back[|back|..] == [] && back[..|back|] == back;
    assert front + Reversed(back[|back|..]) == front;
  }

  lemma HalfwayEnd<T>(front: seq<T>, x: T, back: seq<T>)
    ensures Halfway(front, x, back, 0) == front + Reversed(back) + [x]
  {
    assert back[0..] == back && back[..0] == [];
    hide Reversed;
  }

  lemma HalfwayOf<T>(ops: seq<T>, t: nat)
    requires t < |ops|
    ensures Halfway(ops[..t], ops[t], ops[t + 1..], |ops| - t - 1) == ops
    ensures Halfway(ops[..t], ops[t], ops[t + 1..], 0) == ops[..t] + Reversed(ops[t + 1..]) + [ops[t]]
  {
    HalfwayStart(ops[..t], ops[t], ops[t + 1..]);
    HalfwayEnd(ops[..t], ops[t], ops[t + 1..]);
    hide Halfway, Reversed;
    assert ops[..t] + [ops[t]] + ops[t + 1..] == ops;
  }

  /** Moves the last element in front of the terminator `x`, at `t`, until the terminator is last. */
  method MoveBehind<T>(ops: seq<T>, t: nat, isTerm: T -> bool, ghost front: seq<T>, ghost x: T, ghost back: seq<T>)
    returns (r: seq<T>)
    requires ops == Halfway(front, x, back, |back|) && t == |front|
    requires isTerm(x) && forall m :: 0 <= m < |back| ==> !isTerm(back[m])
    ensures r == Halfway(front, x, back, 0)
  {
    r := ops;
    ghost var j: nat := |back|;
    var k := t;
    LastOf(front, x, back, isTerm, j);
    hide Halfway, Reversed, MoveLast;
    while !isTerm(r[|r| - 1])
      invariant j <= |back| && k == |front| + |back| - j && r == Halfway(front, x, back, j)
      invariant |r| > 0 && (isTerm(r[|r| - 1]) <==> j == 0)
      decreases j
    {
      HalfwayStep(front, x, back, j);
      LastOf(front, x, back, isTerm, j - 1);
      r := MoveLast(r, k);
      k, j := k + 1, j - 1;
    }
  }

  lemma LastOf<T>(front: seq<T>, x: T, back: seq<T>, isTerm: T -> bool, j: nat)
    requires j <= |back| && isTerm(x) && forall m :: 0 <= m < |back| ==> !isTerm(back[m])
    ensures var r := Halfway(front, x, back, j); |r| > 0 && (isTerm(r[|r| - 1]) <==> j == 0)
  {
    hide Reversed;
  }

  /** Brings the terminator to the end; fails when there is none. */
  method MoveTrailing<T>(ops: seq<T>, isTerm: T -> bool) returns (ok: bool, r: seq<T>)
    requires forall i, j :: 0 <= i < j < |ops| ==> !(isTerm(ops[i]) && isTerm(ops[j]))
    ensures ok <==> exists k :: 0 <= k < |ops| && isTerm(ops[k])
    ensures forall k :: 0 <= k < |ops| && isTerm(ops[k]) ==> r == ops[..k] + Reversed(ops[k + 1..]) + [ops[k]]
  {
    var t := 0;
    while t < |ops| && !isTerm(ops[t])
      invariant 0 <= t <= |ops|
      invariant forall j :: 0 <= j < t ==> !isTerm(ops[j])
    {
      t := t + 1;
    }
    if t == |ops| { return false, ops; }
    ok := true;
    HalfwayOf(ops, t);
    r := MoveBehind(ops, t, isTerm, ops[..t], ops[t], ops[t + 1..]);
  }

  /** Nothing is lost. */
  lemma MoveTrailingSame<T>(ops: seq<T>, k: nat)
    requires k < |ops|
    ensures multiset(ops[..k] + Reversed(ops[k + 1..]) + [ops[k]]) == multiset(ops)
  {
    ReversedSame(ops[k + 1..]);
    assert ops == ops[..k] + [ops[k]] + ops[k + 1..];
  }

  /** Of the first `i` elements the phi nodes stand in front. */
  function Parted<T>(ops: seq<T>, isPhi: T -> bool, i: nat): seq<T>
    requires i <= |ops|
  {
    Filtered(ops[..i], isPhi) + Filtered(ops[..i], x => !isPhi(x)) + ops[i..]
  }

  lemma {:induction false} FilteredSizes<T>(s: seq<T>, f: T -> bool, g: T -> bool)
    requires forall x :: g(x) <==> !f(x)
    ensures |Filtered(s, f)| + |Filtered(s, g)| == |s|
  {
    if s != [] { FilteredSizes(s[..|s| - 1], f, g); }
  }

  lemma MoveUp<T>(a: seq<T>, b: seq<T>, x: T, c: seq<T>)
    ensures var r := a + b + [x] + c;
            r[..|a|] + [x] + r[|a|..|a| + |b|] + r[|a| + |b| + 1..] == a + [x] + b + c
  {
  }

  lemma PartedStep<T>(ops: seq<T>, isPhi: T -> bool, i: nat)
    requires i < |ops|
    ensures var r, first := Parted(ops, isPhi, i), |Filtered(ops[..i], isPhi)|;
            && first <= i < |r| == |ops| && r[i] == ops[i]
            && (isPhi(ops[i]) ==>
                  Parted(ops, isPhi, i + 1) == r[..first] + [ops[i]] + r[first..i] + r[i + 1..] &&
                  |Filtered(ops[..i + 1], isPhi)| == first + 1)
            && (!isPhi(ops[i]) ==> Parted(ops, isPhi, i + 1) == r && |Filtered(ops[..i + 1], isPhi)| == first)
  {
    var others := x => !isPhi(x);
    FilteredSizes(ops[..i], isPhi, others);
    assert ops[..i + 1][..i] == ops[..i];
    assert ops[i..] == [ops[i]] + ops[i + 1..];
    var a, b, x, c := Filtered(ops[..i], isPhi), Filtered(ops[..i], others), ops[i], ops[i + 1..];
    FilteredSnoc(ops[..i + 1], isPhi);
    FilteredSnoc(ops[..i + 1], others);
    var r, r' := Parted(ops, isPhi, i), Parted(ops, isPhi, i + 1);
    hide Filtered;
    assert r == a + b + ([x] + c);
    assert isPhi(x) ==> r' == a + [x] + b + c;
    assert !isPhi(x) ==> r' == a + (b + [x]) + c;
    hide Parted;
    assert r == a + b + [x] + c && a + (b + [x]) + c == a + b + [x] + c;
    MoveUp(a, b, x, c);
  }

  method FirstNonPhi<T>(ops: seq<T>, isPhi: T -> bool) returns (first: nat)
    requires exists k :: 0 <= k < |ops| && !isPhi(ops[k])
    ensures first < |ops| && !isPhi(ops[first]) && forall j :: 0 <= j < first ==> isPhi(ops[j])
  {
    first := 0;
    while isPhi(ops[first])
      invariant first < |ops| && forall j :: 0 <= j < first ==> isPhi(ops[j])
      invariant exists k :: first <= k < |ops| && !isPhi(ops[k])
      decreases |ops| - first
    {
      first := first + 1;
    }
  }

  /** Moves each phi node behind the first other instruction in front of it. */
  method MovePhis<T>(ops: seq<T>, isPhi: T -> bool) returns (r: seq<T>)
    requires exists k :: 0 <= k < |ops| && !isPhi(ops[k])
    ensures r == Filtered(ops, isPhi) + Filtered(ops, x => !isPhi(x))
  {
    var first := FirstNonPhi(ops, isPhi);
    StartParted(ops, isPhi, first);
    AllParted(ops, isPhi);
    hide Filtered, Parted;
    r := ops;
    var ii := first + 1;
    while ii < |ops|
      invariant first < ii <= |ops|
      invariant r == Parted(ops, isPhi, ii) && first == |Filtered(ops[..ii], isPhi)|
    {
      PartedStep(ops, isPhi, ii);
      if isPhi(r[ii]) {
        r := r[..first] + [r[ii]] + r[first..ii] + r[ii + 1..];
        first := first + 1;
      }
      ii := ii + 1;
    }
  }

  lemma AllParted<T>(ops: seq<T>, isPhi: T -> bool)
    ensures Parted(ops, isPhi, |ops|) == Filtered(ops, isPhi) + Filtered(ops, x => !isPhi(x))
  {
    assert ops[..|ops|] == ops;
    hide Filtered;
  }

  lemma StartParted<T>(ops: seq<T>, isPhi: T -> bool, first: nat)
    requires first < |ops| && !isPhi(ops[first]) && forall j :: 0 <= j < first ==> isPhi(ops[j])
    ensures Parted(ops, isPhi, first + 1) == ops && |Filtered(ops[..first + 1], isPhi)| == first
  {
    var a, others := ops[..first], x => !isPhi(x);
    FilteredAll(a, isPhi);
    FilteredNone(a, others);
    assert ops[..first + 1][..first] == a;
    FilteredSnoc(ops[..first + 1], isPhi);
    FilteredSnoc(ops[..first + 1], others);
    var r := Parted(ops, isPhi, first + 1);
    hide Filtered;
    assert r == (a + []) + ([] + [ops[first]]) + ops[first + 1..];
    hide Parted;
  }

  /** `r` is `ops` with what `isPhi` picks moved ahead: no phi stands behind another element, and two of one kind stand as they
      stood. */
  ghost predicate Ahead<T>(ops: seq<T>, isPhi: T -> bool, r: seq<T>) {
    && multiset(r) == multiset(ops)
    && (forall x, y :: 0 <= x < y < |r| && isPhi(r[y]) ==> isPhi(r[x]))
    && (forall x, y, i, j :: 0 <= x < y < |r| && 0 <= i < |ops| && 0 <= j < |ops| && r[x] == ops[i] && r[y] == ops[j] ==>
          isPhi(r[x]) == isPhi(r[y]) ==> i < j)
  }

  lemma {:induction false} FilteredOrder<T>(s: seq<T>, f: T -> bool)
    requires NoDups(s)
    ensures forall x :: 0 <= x < |Filtered(s, f)| ==> f(Filtered(s, f)[x]) && Filtered(s, f)[x] in s
    ensures forall x, y, i, j :: 0 <= x < y < |Filtered(s, f)| && 0 <= i < |s| && 0 <= j < |s| ==>
              Filtered(s, f)[x] == s[i] && Filtered(s, f)[y] == s[j] ==> i < j
  {
    if s == [] {
    } else {
      FilteredOrder(s[..|s| - 1], f);
      FilteredSnoc(s, f);
      hide Filtered;
    }
  }

  lemma PhisAhead<T>(ops: seq<T>, isPhi: T -> bool)
    requires NoDups(ops)
    ensures Ahead(ops, isPhi, Filtered(ops, isPhi) + Filtered(ops, x => !isPhi(x)))
  {
    FilteredOrder(ops, isPhi);
    FilteredOrder(ops, x => !isPhi(x));
    MovePhisSame(ops, isPhi);
    AheadIs(ops, isPhi, Filtered(ops, isPhi), Filtered(ops, x => !isPhi(x)));
  }

  lemma AheadIs<T>(ops: seq<T>, isPhi: T -> bool, a: seq<T>, b: seq<T>)
    requires multiset(a + b) == multiset(ops)
    requires (forall x :: 0 <= x < |a| ==> isPhi(a[x])) && forall x :: 0 <= x < |b| ==> !isPhi(b[x])
    requires forall x, y, i, j :: 0 <= x < y < |a| && 0 <= i < |ops| && 0 <= j < |ops| ==> a[x] == ops[i] && a[y] == ops[j] ==> i < j
    requires forall x, y, i, j :: 0 <= x < y < |b| && 0 <= i < |ops| && 0 <= j < |ops| ==> b[x] == ops[i] && b[y] == ops[j] ==> i < j
    ensures Ahead(ops, isPhi, a + b)
  {
    var r := a + b;
    forall x, y, i, j | 0 <= x < y < |r| && 0 <= i < |ops| && 0 <= j < |ops| && r[x] == ops[i] && r[y] == ops[j] && isPhi(r[x]) == isPhi(r[y])
      ensures i < j
    {
      if y < |a| {} else if x < |a| {} else { assert r[x] == b[x - |a|] && r[y] == b[y - |a|]; }
    }
  }

  /** Both passes only reorder. */
  lemma MovePhisSame<T>(ops: seq<T>, isPhi: T -> bool)
    ensures multiset(Filtered(ops, isPhi) + Filtered(ops, x => !isPhi(x))) == multiset(ops)
  {
    FilteredSplit(ops, isPhi, x => !isPhi(x));
  }
}
