/** The part of LLVM's representation that the pass works on: blocks are lists of instructions
    ended by one terminator, and a loop is a set of blocks with a header and one exit block. */
module Ir {

  type Inst = nat
  type Block = nat

  datatype DType = REG | DTRUE | DANTI | DOUT | DSYN | CONTROL | CONTROL_LC

  datatype Edge = Edge(u: Inst, v: Inst, dtype: DType)

  /** The first index at which `x` stands in `s`. */
  function IndexOf<T(==)>(s: seq<T>, x: T): (k: nat)
    requires x in s
    ensures k < |s| && s[k] == x
    ensures forall j :: 0 <= j < k ==> s[j] != x
  {
    if s[0] == x then 0 else 1 + IndexOf(s[1..], x)
  }

  /** `m[k]`; the C++ map makes an empty list for a missing key. */
  function ListAt<K(==), V>(m: map<K, seq<V>>, k: K): seq<V> {
    if k in m then m[k] else []
  }

  lemma ListAtAdd<K, V>(m: map<K, seq<V>>, k: K, x: V, j: K)
    ensures ListAt(m[k := ListAt(m, k) + [x]], j) == ListAt(m, j) + if j == k then [x] else []
  {
  }

  predicate NoDups<T(==)>(s: seq<T>) {
    forall i, j :: 0 <= i < j < |s| ==> s[i] != s[j]
  }

  datatype Loop = Loop(
    header: Block,
    exit: Block,
    blocks: seq<Block>,
    body: map<Block, seq<Inst>>,
    succ: map<Block, seq<Block>>,
    parent: map<Inst, Block>)
  {
    /** What LLVM guarantees of a loop with a single exit block (DSWP_0.cpp:114-135). */
    ghost predicate Valid() {
      && header in blocks
      && exit !in blocks
      && NoDups(blocks)
      && (forall b :: b in body <==> b in blocks)
      && (forall b :: b in succ <==> b in blocks)
      && (forall b :: b in blocks ==> |body[b]| > 0 && NoDups(body[b]) && |succ[b]| > 0)
      && (forall b, s :: b in blocks && s in succ[b] ==> s in blocks || s == exit)
      && (forall b, x :: b in blocks && x in body[b] ==> x in parent && parent[x] == b)
      && (forall x :: x in parent ==> parent[x] in blocks && x in body[parent[x]])
    }

    function Term(b: Block): Inst
      requires b in body && |body[b]| > 0
    {
      body[b][|body[b]| - 1]
    }

    ghost predicate IsTerm(x: Inst)
      requires Valid() && x in parent
    {
      x == Term(parent[x])
    }

    /** Position of an instruction inside its block. */
    function Idx(x: Inst): (k: nat)
      requires Valid() && x in parent
      ensures k < |body[parent[x]]| && body[parent[x]][k] == x
    {
      IndexOf(body[parent[x]], x)
    }

    lemma IdxIs(b: Block, k: nat)
      requires Valid() && b in blocks && k < |body[b]|
      ensures body[b][k] in parent && parent[body[b][k]] == b && Idx(body[b][k]) == k
    {
      assert body[b][k] in body[b];
    }
  }
}
