/** `array.c` as an object: a fixed array updated in place, one method per stretch of code that
    runs with the lock held. */
module BoundedQueue {
  import opened Fifo
  import opened Ring
  import opened Wrappers

  datatype Status = Success | Waiting | Shutdown

  /** What array_free does when a lock-held stretch ends. */
  datatype FreeStatus = DrainWait | GetterWait | Returned

  /** Advancing `head` hands out the oldest item. */
  lemma RemoveDelivers<T>(r: Ring<T>, accepted: seq<T>, delivered: seq<T>)
    requires r.Valid() && !r.IsEmpty() && accepted == delivered + r.Contents()
    ensures r.Remove().Valid() && accepted == delivered + [r.slots[r.head]] + r.Remove().Contents()
    ensures |delivered| < |accepted| && accepted[|delivered|] == r.slots[r.head]
    ensures r.Remove().IsEmpty() <==> delivered + [r.slots[r.head]] == accepted
  {
    RemoveDropsOldest(r);
    HandOut(accepted, delivered, r.slots[r.head], r.Remove().Contents());
    IndexTests(r.Remove());
  }

  class BoundedQueue<T(0)> {
    const storeString: array<T>
    var head: nat
    var tail: nat
    var shutdown: bool
    var activeGetters: int
    // everything array_put ever accepted, and everything array_get ever handed out
    ghost var accepted: seq<T>
    ghost var delivered: seq<T>

    /** The ring this object holds, as a value. */
    ghost function View(): Ring<T>
      reads this, storeString
    {
      Ring(storeString[..], head, tail, shutdown)
    }

    /** The queue this object stands for. */
    ghost function Abstract(): Fifo<T>
      reads this
    {
      Fifo(accepted, |delivered|, shutdown)
    }

    ghost predicate Valid()
      reads this, storeString
    {
      && View().Valid()
      && accepted == delivered + View().Contents()
    }

    /** array_init, array.c:16-27 */
    constructor (size: nat)
      requires size >= 2
      ensures Valid() && fresh(storeString) && storeString.Length == size
      ensures Abstract() == Fifo([], 0, false) && activeGetters == 0
    {
      storeString := new T[size];
      head, tail, shutdown, activeGetters := 0, 0, false, 0;
      accepted, delivered := [], [];
    }

    /** One lock-held stretch of array_put, array.c:33-57, and the condition variables it signals. `Waiting`
        is the call of pthread_cond_timedwait on `not_full`. */
    method PutSection(x: T) returns (status: Status, signalled: set<CondVar>)
      requires Valid()
      modifies this`tail, this`accepted, storeString
      ensures Valid()
      ensures match AttemptPut(old(View()), x)
              case Stored(r) => status == Success && View() == r
              case PutWaits => status == Waiting && View() == old(View())
              case Refused => status == Shutdown && View() == old(View())
      ensures FifoStep(storeString.Length - 1, old(Abstract()),
                       match status
                       case Success => Accept(x)
                       case Waiting => Silent
                       case Shutdown => Refuse, Abstract())
      ensures status == Waiting <==> !shutdown && old(Abstract()).IsFull(storeString.Length - 1)
      ensures signalled == if status == Success then {NotEmpty} else {}
    {
      IndexTests(View());
      if shutdown {
        return Shutdown, {};
      }
      if NextIndex(tail, storeString.Length) == head {
        return Waiting, {};
      }
      StoreAppends(View(), x);
      storeString[tail] := x;
      tail := NextIndex(tail, storeString.Length);
      accepted := accepted + [x];
      assert View() == old(View()).Store(x);
      return Success, {NotEmpty};
    }

    /** array.c:66 */
    method EnterGet()
      modifies this`activeGetters
      ensures activeGetters == old(activeGetters) + 1
    {
      activeGetters := activeGetters + 1;
    }

    /** One lock-held stretch of array_get, array.c:71-117, and the condition variables it signals. On
        ARRAY_SHUTDOWN the getter leaves the count here; on success it leaves it in `LeaveGet`, after the
        unlock. */
    method GetSection() returns (status: Status, item: Option<T>, signalled: set<CondVar>)
      requires Valid()
      modifies this`head, this`delivered, this`activeGetters
      ensures Valid()
      ensures match AttemptGet(old(View()))
              case Removed(x, r, _) => status == Success && View() == r && item == Some(x)
              case GetWaits => status == Waiting && View() == old(View()) && item == None
              case Ended => status == Shutdown && View() == old(View()) && item == None
      ensures FifoStep(storeString.Length - 1, old(Abstract()),
                       match status
                       case Success => Deliver(item.value)
                       case Waiting => Silent
                       case Shutdown => EndOfQueue, Abstract())
      ensures status == Waiting <==> !shutdown && old(Abstract()).IsEmpty()
      ensures activeGetters == old(activeGetters) - (if status == Shutdown then 1 else 0)
      ensures NotFull in signalled <==> status == Success
      ensures ArrayEmptied in signalled <==> status == Success && delivered == accepted
      ensures AllGettersDone in signalled <==> status == Shutdown && activeGetters == 0
      ensures NotEmpty !in signalled
    {
      IndexTests(View());
      if !shutdown && head == tail {
        return Waiting, None, {};
      }
      if shutdown && head == tail {
        activeGetters := activeGetters - 1;
        return Shutdown, None, if activeGetters == 0 then {AllGettersDone} else {};
      }
      var x, emptied := RemoveOldest();
      return Success, Some(x), if emptied then {ArrayEmptied, NotFull} else {NotFull};
    }

    /** array.c:106-112 */
    method RemoveOldest() returns (x: T, emptied: bool)
      requires Valid() && head != tail
      modifies this`head, this`delivered
      ensures Valid()
      ensures View() == old(View()).Remove() && x == old(View().slots[head])
      ensures FifoStep(storeString.Length - 1, old(Abstract()), Deliver(x), Abstract())
      ensures emptied == View().IsEmpty() && (emptied <==> delivered == accepted)
    {
      ghost var r := View();
      x := storeString[head];
      RemoveDelivers(r, accepted, delivered);
      head := NextIndex(head, storeString.Length);
      delivered := delivered + [x];
      assert View() == r.Remove();
      emptied := head == tail;
    }

    /** array.c:120 */
    method LeaveGet()
      modifies this`activeGetters
      ensures activeGetters == old(activeGetters) - 1
    {
      activeGetters := activeGetters - 1;
    }

    /** The first lock-held stretch of array_free, array.c:129-156. Whether it goes on to wait for the drain
        (lines 136-137) or not (lines 152-153), it wakes everybody who waits to put or to get. */
    method CloseSection() returns (status: FreeStatus, woken: set<CondVar>)
      requires Valid()
      modifies this`shutdown
      ensures Valid()
      ensures View() == old(View()).(shutdown := true)
      ensures FifoStep(storeString.Length - 1, old(Abstract()), Closing, Abstract())
      ensures status == DrainWait <==> !Abstract().IsEmpty()
      ensures status == Returned <==> Abstract().IsEmpty() && activeGetters <= 0
      ensures woken == {NotEmpty, NotFull}
    {
      shutdown := true;
      IndexTests(View());
      if head != tail {
        return DrainWait, {NotEmpty, NotFull};
      }
      return GetterTest(activeGetters), {NotEmpty, NotFull};
    }

    /** The stretch after a wait for `array_emptied` that returned 0 or timed out, array.c:145-156. */
    method DrainSection(signalled: bool) returns (status: FreeStatus, woken: set<CondVar>)
      requires Valid()
      ensures status == DrainWait <==> !signalled && !Abstract().IsEmpty()
      ensures status == Returned <==> (signalled || Abstract().IsEmpty()) && activeGetters <= 0
      ensures woken == {NotEmpty, NotFull}
    {
      IndexTests(View());
      if !signalled && head != tail {
        return DrainWait, {NotEmpty, NotFull};
      }
      return GetterTest(activeGetters), {NotEmpty, NotFull};
    }

    /** The stretch after a wait for `all_getters_done`, array.c:162-164 and 156. */
    method GetterSection(signalled: bool) returns (status: FreeStatus)
      ensures status == GetterWait <==> !signalled && activeGetters > 0
      ensures status == Returned <==> signalled || activeGetters <= 0
    {
      if signalled {
        return Returned;
      }
      return GetterTest(activeGetters);
    }
  }

  /** array.c:156 */
  function GetterTest(activeGetters: int): FreeStatus {
    if activeGetters > 0 then GetterWait else Returned
  }
}
