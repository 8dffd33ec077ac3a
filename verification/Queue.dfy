/** The channel buffer of runtime/queue.c: a fixed array used as a ring. */
module Queue {

  /** The fields of queue_t that the critical sections read and write. */
  datatype Ring = Ring(arr: seq<int>, head: nat, tail: nat, size: nat) {
    predicate Valid() {
      && |arr| > 0 && head < |arr| && tail < |arr| && size <= |arr|
      && tail == (head + size) % |arr|
    }

    /** The elements from the head on. */
    function Contents(): (s: seq<int>)
      requires Valid()
      ensures |s| == size
    {
      seq(size, k requires 0 <= k < size => arr[(head + k) % |arr|])
    }

    /** queue.c:25-27 */
    function Push(elem: int): Ring
      requires Valid()
    {
      Ring(arr[tail := elem], head, (tail + 1) % |arr|, size + 1)
    }

    /** queue.c:38-40 */
    function Pop(): Ring
      requires Valid() && size > 0
    {
      Ring(arr, (head + 1) % |arr|, tail, size - 1)
    }

    /** A push appends. */
    lemma PushAppends(elem: int)
      requires Valid() && size < |arr|
      ensures Push(elem).Valid() && Push(elem).Contents() == Contents() + [elem]
    {
      var r, n := Push(elem), |arr|;
      Wrap(head + size, n);
      Wrap(head + size + 1, n);
      Wrap(tail + 1, n);
      var s, t := Contents(), r.Contents();
      forall k: nat | k < size ensures t[k] == s[k] { Wrap(head + k, n); }
    }

    /** A pop takes the head. */
    lemma PopTakes()
      requires Valid() && size > 0
      ensures Pop().Valid() && Contents() == [arr[head]] + Pop().Contents()
    {
      var r, n := Pop(), |arr|;
      Wrap(head, n);
      Wrap(head + 1, n);
      Wrap(head + size, n);
      Wrap(r.head + r.size, n);
      var s, t := Contents(), r.Contents();
      forall k: nat | k < size - 1 ensures t[k] == s[k + 1] {
        Wrap(head + k + 1, n);
        Wrap(r.head + k, n);
      }
    }
  }

  /** An index less than two lengths wraps round once at most. */
  lemma Wrap(a: nat, n: nat)
    requires 0 < n && a < 2 * n
    ensures a % n == if a < n then a else a - n
  {
    if a >= n { assert a == n + (a - n); }
  }

  class RingBuffer {
    const arr: array<int>
    var head: nat
    var tail: nat
    var size: nat

    ghost function View(): Ring
      reads this, arr
    {
      Ring(arr[..], head, tail, size)
    }

    /** queue_init, for a queue of length `maxLen`. */
    constructor (maxLen: nat)
      requires maxLen > 0
      ensures fresh(arr) && arr.Length == maxLen && View().Valid() && View().Contents() == []
    {
      arr := new int[maxLen](_ => 0);
      head, tail, size := 0, 0, 0;
    }

    /** The critical section of queue_push. */
    method Push(elem: int)
      requires View().Valid() && size < arr.Length
      modifies this, arr
      ensures View() == old(View()).Push(elem)
      ensures View().Valid() && View().Contents() == old(View().Contents()) + [elem]
    {
      View().PushAppends(elem);
      arr[tail] := elem;
      tail := (tail + 1) % arr.Length;
      size := size + 1;
    }

    /** The critical section of queue_pop. */
    method Pop() returns (retVal: int)
      requires View().Valid() && size > 0
      modifies this
      ensures View() == old(View()).Pop()
      ensures View().Valid() && old(View().Contents()) == [retVal] + View().Contents()
    {
      View().PopTakes();
      retVal := arr[head];
      head := (head + 1) % arr.Length;
      size := size - 1;
    }
  }
}
