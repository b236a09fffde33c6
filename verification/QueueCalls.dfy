/** The calls of `array.c` at the level of the abstract queue: what array_put, array_get and array_free do from
    the moment they have the lock until they return, or until they wait. */
module QueueCalls {
  import opened Wrappers
  import opened BoundedQueue

  /** array_put from the moment it has the lock; it waits unless `done`. Only an open queue takes the item. */
  method ArrayPut<T(0)>(q: BoundedQueue<T>, x: T) returns (done: bool, accepted: bool)
    requires q.Valid()
    modifies q`tail, q`accepted, q.storeString
    ensures q.Valid()
    ensures done <==> old(q.Abstract()).CanPut(q.storeString.Length - 1)
    ensures accepted <==> done && !q.shutdown
    ensures q.Abstract() == if done then old(q.Abstract()).Put(x) else old(q.Abstract())
  {
    var status, _ := q.PutSection(x);
    return status != Waiting, status == Success;
  }

  /** array_get from the moment it has the lock to its return; it waits unless `done`. No item means
      ARRAY_SHUTDOWN. */
  method ArrayGet<T(0)>(q: BoundedQueue<T>) returns (done: bool, item: Option<T>)
    requires q.Valid()
    modifies q`head, q`delivered, q`activeGetters
    ensures q.Valid()
    ensures done <==> old(q.Abstract()).CanGet()
    ensures item.Some? <==> !old(q.Abstract()).IsEmpty()
    ensures item.Some? ==> item.value == old(q.Abstract()).accepted[old(q.Abstract()).taken]
    ensures q.Abstract() == if item.Some? then old(q.Abstract()).Get() else old(q.Abstract())
    ensures q.activeGetters == old(q.activeGetters) - if done then 1 else 0
  {
    var status, x, _ := q.GetSection();
    if status == Success {
      q.LeaveGet();
    }
    return status != Waiting, x;
  }

  /** Where a thread is in array_free. */
  datatype Phase = Shutting | Draining | Counting

  /** array_free from the moment it has the lock; it waits unless `done`. `early` is a wait that returned 0. */
  method ArrayFree<T(0)>(q: BoundedQueue<T>, phase: Phase, early: bool) returns (done: bool)
    requires q.Valid()
    modifies q`shutdown
    ensures q.Valid()
    ensures q.Abstract() == if phase.Shutting? then old(q.Abstract()).Close() else old(q.Abstract())
    ensures done <==> match phase
                      case Shutting => true
                      case Draining => early || q.Abstract().IsEmpty()
                      case Counting => early || q.activeGetters <= 0
  {
    match phase {
      case Shutting =>
        var _, _ := q.CloseSection();
        return true;
      case Draining =>
        var status, _ := q.DrainSection(early);
        return status != DrainWait;
      case Counting =>
        var status := q.GetterSection(early);
        return status == Returned;
    }
  }
}
