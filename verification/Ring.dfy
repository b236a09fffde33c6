/** The circular buffer inside `array`: a fixed number of slots, one of which always stays unused. */
module Ring {

  /** The condition variables of an `array`. */
  datatype CondVar = NotEmpty | NotFull | ArrayEmptied | AllGettersDone

  /** The slot after slot `i` of `n`: array.c:38, 54 and 107. */
  function NextIndex(i: nat, n: nat): (j: nat)
    requires i < n
    ensures j == if i + 1 == n then 0 else i + 1
  {
    (i + 1) % n
  }

  datatype Ring<T> = Ring(slots: seq<T>, head: nat, tail: nat, shutdown: bool) {

    predicate Valid() {
      |slots| >= 2 && head < |slots| && tail < |slots|
    }

    predicate IsEmpty() {
      head == tail
    }

    predicate IsFull()
      requires Valid()
    {
      NextIndex(tail, |slots|) == head
    }

    function Capacity(): nat
      requires Valid()
    {
      |slots| - 1
    }

    /** The queued items, oldest first: from `head` up to `tail`, going round the end. */
    function Contents(): seq<T>
      requires Valid()
    {
      if head <= tail then slots[head..tail] else slots[head..] + slots[..tail]
    }

    /** array.c:53-54 */
    function Store(x: T): Ring<T>
      requires Valid()
    {
      this.(slots := slots[tail := x], tail := NextIndex(tail, |slots|))
    }

    /** array.c:106-107 */
    function Remove(): Ring<T>
      requires Valid()
    {
      this.(head := NextIndex(head, |slots|))
    }
  }

  /** The two index tests used throughout `array.c` mean what their names say, and the ring never
      holds more than `ARRAY_SIZE - 1` items. */
  lemma IndexTests<T>(r: Ring<T>)
    requires r.Valid()
    ensures r.IsEmpty() <==> r.Contents() == []
    ensures r.IsFull() <==> |r.Contents()| == r.Capacity()
    ensures |r.Contents()| <= r.Capacity()
  {
  }

  lemma StoreAppends<T>(r: Ring<T>, x: T)
    requires r.Valid() && !r.IsFull()
    ensures r.Store(x).Valid()
    ensures r.Store(x).Contents() == r.Contents() + [x]
    ensures r.Store(x).Capacity() == r.Capacity()
  {
    var n := |r.slots|;
    var r' := r.Store(x);
    if r.head <= r.tail {
      if r.tail + 1 == n {
        assert r'.Contents() == r'.slots[r.head..];
        assert r'.slots[r.head..] == r.slots[r.head..r.tail] + [x];
      } else {
        assert r'.slots[r.head..r.tail + 1] == r.slots[r.head..r.tail] + [x];
      }
    } else {
      assert r'.Contents() == r'.slots[r.head..] + r'.slots[..r.tail + 1];
      assert r'.slots[r.head..] == r.slots[r.head..];
      assert r'.slots[..r.tail + 1] == r.slots[..r.tail] + [x];
    }
  }

  lemma RemoveDropsOldest<T>(r: Ring<T>)
    requires r.Valid() && !r.IsEmpty()
    ensures r.Remove().Valid()
    ensures r.Contents() == [r.slots[r.head]] + r.Remove().Contents()
    ensures r.Remove().Capacity() == r.Capacity()
  {
    var n := |r.slots|;
    var r' := r.Remove();
    if r.head < r.tail {
      assert r.slots[r.head..r.tail] == [r.slots[r.head]] + r.slots[r.head + 1..r.tail];
    } else if r.head + 1 == n {
      assert r.slots[r.head..] == [r.slots[r.head]];
      assert r'.Contents() == r.slots[..r.tail];
    } else {
      assert r.slots[r.head..] == [r.slots[r.head]] + r.slots[r.head + 1..];
    }
  }

  /** What `array_put` does with the lock held, from the lock (or a wake-up) to the unlock (or the
      wait): array.c:33-57. Before and after a wait the same three tests decide. */
  datatype PutOutcome<T> = Stored(ring: Ring<T>) | PutWaits | Refused

  function AttemptPut<T>(r: Ring<T>, x: T): PutOutcome<T>
    requires r.Valid()
  {
    if r.shutdown then Refused
    else if r.IsFull() then PutWaits
    else Stored(r.Store(x))
  }

  /** The same for `array_get`, array.c:71-117; `emptied` says that `array_emptied` is signalled. */
  datatype GetOutcome<T> = Removed(x: T, ring: Ring<T>, emptied: bool) | GetWaits | Ended

  function AttemptGet<T>(r: Ring<T>): GetOutcome<T>
    requires r.Valid()
  {
    if !r.IsEmpty() then Removed(r.slots[r.head], r.Remove(), r.Remove().IsEmpty())
    else if r.shutdown then Ended
    else GetWaits
  }
}
