/** Executing some of a run's events, in any order that respects conflicts, gives each event the memory it had. */
module Conflicts {
  import opened Sequential

  /** The cells each event of a run reads and what it writes, in the run's order. */
  datatype History = History(init: Memory, loads: seq<set<int>>, stores: seq<Memory>) {
    ghost predicate Valid() { |loads| == |stores| }

    /** Memory after the first `n` events when only those in `done` have taken place. */
    ghost function Partial(done: set<nat>, n: nat): Memory
      requires n <= |stores|
    {
      if n == 0 then init
      else if n - 1 in done then Partial(done, n - 1) + stores[n - 1]
      else Partial(done, n - 1)
    }

    ghost function Full(n: nat): Memory
      requires n <= |stores|
    {
      if n == 0 then init else Full(n - 1) + stores[n - 1]
    }

    /** Two events conflict when one writes a cell that the other reads or writes. */
    ghost predicate Conflict(a: nat, b: nat)
      requires Valid() && a < |loads| && b < |loads|
    {
      || stores[a].Keys * stores[b].Keys != {}
      || stores[a].Keys * loads[b] != {}
      || loads[a] * stores[b].Keys != {}
    }

    lemma SharedCell(a: nat, b: nat, c: int)
      requires Valid() && a < |loads| && b < |loads| && c in loads[b]
      ensures c in stores[a] ==> Conflict(a, b) && Conflict(b, a)
    {
      assert c in stores[a] ==> c in stores[a].Keys * loads[b] && c in loads[b] * stores[a].Keys;
    }

    static lemma SwapDisjoint(m: Memory, a: Memory, b: Memory)
      requires a.Keys * b.Keys == {}
      ensures m + a + b == m + b + a
    {
      assert forall c :: c in a.Keys * b.Keys <==> c in a && c in b;
    }

    lemma {:induction false} PartialLater(done: set<nat>, e: nat, n: nat)
      requires n <= e && n <= |stores|
      ensures Partial(done + {e}, n) == Partial(done, n)
    {
      if n > 0 { PartialLater(done, e, n - 1); }
    }

    /** An event that conflicts with no later event already done may take place now. */
    lemma {:induction false} AddEvent(done: set<nat>, e: nat, n: nat)
      requires Valid() && e < n <= |stores| && e !in done
      requires forall a :: e < a < n && a in done ==> !Conflict(e, a)
      ensures Partial(done + {e}, n) == Partial(done, n) + stores[e]
    {
      if n == e + 1 {
        PartialLater(done, e, e);
      } else {
        AddEvent(done, e, n - 1);
        if n - 1 in done {
          assert !Conflict(e, n - 1);
          SwapDisjoint(Partial(done, n - 1), stores[e], stores[n - 1]);
        }
      }
    }

    /** It then finds in each cell it reads what the sequential run had there. */
    lemma {:induction false} ReadsAgree(done: set<nat>, e: nat, n: nat, c: int)
      requires Valid() && e <= n <= |stores|
      requires forall a :: 0 <= a < e && c in stores[a] ==> a in done
      requires forall a :: e <= a < n && a in done ==> c !in stores[a]
      ensures SameAt(Partial(done, n), Full(e), c)
    {
      if n > e {
        ReadsAgree(done, e, n - 1, c);
      } else if n > 0 {
        ReadsAgree(done, e - 1, n - 1, c);
      }
    }

    lemma {:induction false} AllDone(done: set<nat>, n: nat)
      requires n <= |stores| && forall a :: 0 <= a < n ==> a in done
      ensures Partial(done, n) == Full(n)
    {
      if n > 0 { AllDone(done, n - 1); }
    }
  }
}
