/** The closable first-in first-out queue that `array.c` implements, without its ring:
    everything ever accepted, how many of those have been handed out, and whether it was closed. */
module Fifo {

  datatype Fifo<T> = Fifo(accepted: seq<T>, taken: nat, closed: bool) {

    predicate Valid(capacity: nat) {
      && taken <= |accepted|
      && |accepted| - taken <= capacity
    }

    predicate IsEmpty() {
      taken >= |accepted|
    }

    predicate IsFull(capacity: nat) {
      |accepted| - taken >= capacity
    }

    predicate CanPut(capacity: nat) {
      closed || !IsFull(capacity)
    }

    predicate CanGet() {
      closed || !IsEmpty()
    }

    /** What `array_put` does once it no longer waits: a closed queue refuses. */
    function Put(x: T): Fifo<T> {
      if closed then this else this.(accepted := accepted + [x])
    }

    function Get(): Fifo<T>
      requires !IsEmpty()
    {
      this.(taken := taken + 1)
    }

    function Close(): Fifo<T> {
      this.(closed := true)
    }

    function Contents(): seq<T>
      requires taken <= |accepted|
    {
      accepted[taken..]
    }

    function Size(): nat {
      if taken <= |accepted| then |accepted| - taken else 0
    }
  }

  /** What a caller observes of one operation. */
  datatype Event<T> =
    | Accept(x: T)    // array_put returned ARRAY_SUCCESS
    | Refuse          // array_put returned ARRAY_SHUTDOWN
    | Deliver(x: T)   // array_get returned ARRAY_SUCCESS with x
    | EndOfQueue      // array_get returned ARRAY_SHUTDOWN
    | Closing         // array_free set the shutdown flag
    | Silent

  /** The abstract specification of the queue, one event at a time. */
  ghost predicate FifoStep<T>(capacity: nat, q: Fifo<T>, e: Event<T>, q': Fifo<T>) {
    match e
    case Accept(x) => !q.closed && !q.IsFull(capacity) && q' == q.Put(x)
    case Refuse => q.closed && q' == q
    case Deliver(x) => !q.IsEmpty() && x == q.accepted[q.taken] && q' == q.Get()
    case EndOfQueue => q.closed && q.IsEmpty() && q' == q
    case Closing => q' == q.Close()
    case Silent => q' == q
  }

  /** Handing out the oldest item moves it from the contents to what was delivered. */
  lemma HandOut<T>(accepted: seq<T>, delivered: seq<T>, x: T, rest: seq<T>)
    requires accepted == delivered + ([x] + rest)
    ensures accepted == delivered + [x] + rest
    ensures accepted[|delivered|] == x
    ensures delivered + [x] == accepted <==> rest == []
  {
    if delivered + [x] == accepted {
      assert |accepted| == |delivered| + 1 + |rest|;
    }
  }
}
