/** No wake-up of array_put or array_get is lost in the queue machine, and closing wakes all their sleepers.
    For array_free see QueueFreers. */
module QueueWakeups {
  import opened Sums
  import opened Ring
  import opened QueueMachine

  /** A getter that will look at the queue before it can sleep again on its own account. */
  function WokenGetter<T>(th: Thread<T>): nat {
    if th.pc.GetNotified? || th.pc.GetHeld? then 1 else 0
  }

  function WokenPutter<T>(th: Thread<T>): nat {
    if th.pc.PutNotified? || th.pc.PutHeld? then 1 else 0
  }

  ghost predicate GetterAsleep<T>(threads: seq<Thread<T>>) {
    exists t :: 0 <= t < |threads| && threads[t].pc.GetAsleep?
  }

  ghost predicate PutterAsleep<T>(threads: seq<Thread<T>>) {
    exists t :: 0 <= t < |threads| && threads[t].pc.PutAsleep?
  }

  /** The queue length `used` of `capacity` never outruns the threads that are awake to serve it. */
  ghost predicate Served<T>(used: int, capacity: int, shutdown: bool, threads: seq<Thread<T>>) {
    && (GetterAsleep(threads) ==> used <= Sum(WokenGetter, threads) && !shutdown)
    && (PutterAsleep(threads) ==> capacity - used <= Sum(WokenPutter, threads) && !shutdown)
  }

  ghost predicate WakeOk<T>(s: State<T>) {
    && s.ring.Valid()
    && Served(|s.ring.Contents()|, s.ring.Capacity(), s.ring.shutdown, s.threads)
  }

  /** Thread `t` moves on without touching the queue and without falling asleep, or falls asleep
      when there is nothing to get (or no room to put). */
  lemma MoveServed<T>(used: int, capacity: int, shutdown: bool, threads: seq<Thread<T>>, t: nat, th: Thread<T>)
    requires t < |threads| && Served(used, capacity, shutdown, threads)
    requires th.pc.GetAsleep? ==> used <= 0 && !shutdown
    requires th.pc.PutAsleep? ==> capacity <= used && !shutdown
    requires WokenGetter(threads[t]) <= WokenGetter(th) || used <= 0 || shutdown
    requires WokenPutter(threads[t]) <= WokenPutter(th) || capacity <= used || shutdown
    ensures Served(used, capacity, shutdown, threads[t := th])
  {
    SumUpdate(WokenGetter, threads, t, th);
    SumUpdate(WokenPutter, threads, t, th);
    var threads' := threads[t := th];
    if GetterAsleep(threads') && !th.pc.GetAsleep? {
      var u :| 0 <= u < |threads'| && threads'[u].pc.GetAsleep?;
      assert threads[u].pc.GetAsleep?;
    }
    if PutterAsleep(threads') && !th.pc.PutAsleep? {
      var u :| 0 <= u < |threads'| && threads'[u].pc.PutAsleep?;
      assert threads[u].pc.PutAsleep?;
    }
  }

  /** A signal on any condition variable keeps the balance, and on the right one it makes up for one
      more item or one more free slot. */
  lemma SignalServed<T>(used: int, capacity: int, shutdown: bool, threads: seq<Thread<T>>, cv: CondVar, w: int)
    requires Served(used, capacity, shutdown, threads) && SignalOk(threads, cv, w)
    requires cv.NotEmpty? || cv.NotFull? ==> !shutdown
    ensures Served(used, capacity, shutdown, Signal(threads, w))
    ensures cv.NotEmpty? ==>
      (GetterAsleep(Signal(threads, w)) ==> used + 1 <= Sum(WokenGetter, Signal(threads, w)))
    ensures cv.NotFull? ==>
      (PutterAsleep(Signal(threads, w)) ==> capacity - used + 1 <= Sum(WokenPutter, Signal(threads, w)))
  {
    if w >= 0 {
      MoveServed(used, capacity, shutdown, threads, w, threads[w].(pc := Notified(threads[w].pc)));
      SumUpdate(WokenGetter, threads, w, threads[w].(pc := Notified(threads[w].pc)));
      SumUpdate(WokenPutter, threads, w, threads[w].(pc := Notified(threads[w].pc)));
    }
  }

  lemma PutServed<T>(s: State<T>, t: nat, x: T, getter: int)
    requires WakeOk(s) && t < |s.threads| && s.threads[t].pc == PutHeld(x)
    requires if AttemptPut(s.ring, x).Stored? then SignalOk(s.threads, NotEmpty, getter) else getter == -1
    ensures WakeOk(PutStep(s, t, x, getter))
  {
    IndexTests(s.ring);
    var used, capacity, s' := |s.ring.Contents()|, s.ring.Capacity(), PutStep(s, t, x, getter);
    if AttemptPut(s.ring, x).Stored? {
      StoreAppends(s.ring, x);
      SignalServed(used, capacity, false, s.threads, NotEmpty, getter);
      StoreServed(used, capacity, Signal(s.threads, getter), t, s'.threads[t]);
    } else {
      MoveServed(used, capacity, s.ring.shutdown, s.threads, t, s'.threads[t]);
    }
  }

  lemma StoreServed<T>(used: int, capacity: int, threads: seq<Thread<T>>, t: nat, th: Thread<T>)
    requires t < |threads| && Served(used, capacity, false, threads)
    requires threads[t].pc.PutHeld? && th.pc.Idle?
    requires GetterAsleep(threads) ==> used + 1 <= Sum(WokenGetter, threads)
    ensures Served(used + 1, capacity, false, threads[t := th])
  {
    SumUpdate(WokenGetter, threads, t, th);
    SumUpdate(WokenPutter, threads, t, th);
    SleepersStay(threads, t, th);
  }

  lemma SleepersStay<T>(threads: seq<Thread<T>>, t: nat, th: Thread<T>)
    requires t < |threads| && !th.pc.GetAsleep? && !th.pc.PutAsleep?
    ensures GetterAsleep(threads[t := th]) ==> GetterAsleep(threads)
    ensures PutterAsleep(threads[t := th]) ==> PutterAsleep(threads)
  {
    var threads' := threads[t := th];
    if GetterAsleep(threads') {
      var u :| 0 <= u < |threads'| && threads'[u].pc.GetAsleep?;
      assert threads[u].pc.GetAsleep?;
    }
    if PutterAsleep(threads') {
      var u :| 0 <= u < |threads'| && threads'[u].pc.PutAsleep?;
      assert threads[u].pc.PutAsleep?;
    }
  }

  lemma RemoveServed<T>(used: int, capacity: int, shutdown: bool, threads: seq<Thread<T>>, t: nat, th: Thread<T>)
    requires t < |threads| && Served(used, capacity, shutdown, threads)
    requires threads[t].pc.GetHeld? && th.pc.GetLeaving?
    requires PutterAsleep(threads) ==> capacity - used + 1 <= Sum(WokenPutter, threads)
    ensures Served(used - 1, capacity, shutdown, threads[t := th])
  {
    SumUpdate(WokenGetter, threads, t, th);
    SumUpdate(WokenPutter, threads, t, th);
    SleepersStay(threads, t, th);
  }

  /** A notified waiter of array_free is neither a getter nor a putter. */
  lemma FreerSignalled<T>(threads: seq<Thread<T>>, cv: CondVar, w: int, putter: int)
    requires cv.ArrayEmptied? || cv.AllGettersDone?
    requires w == -1 || SignalOk(threads, cv, w)
    requires SignalOk(threads, NotFull, putter)
    ensures SignalOk(Signal(threads, w), NotFull, putter)
  {
  }

  lemma GetServed<T>(s: State<T>, t: nat, putter: int, freer: int)
    requires WakeOk(s) && t < |s.threads| && s.threads[t].pc.GetHeld?
    requires Enabled(s, GetBody(t, putter, freer))
    ensures WakeOk(GetStep(s, t, putter, freer))
  {
    IndexTests(s.ring);
    var used, capacity, s' := |s.ring.Contents()|, s.ring.Capacity(), GetStep(s, t, putter, freer);
    match AttemptGet(s.ring) {
      case Removed(_, ring, emptied) =>
        RemoveDropsOldest(s.ring);
        TakeServed(s, t, putter, freer, emptied, s'.threads[t]);
      case Ended =>
        if freer >= 0 {
          SignalServed(used, capacity, true, s.threads, AllGettersDone, freer);
        }
        MoveServed(used, capacity, true, Signal(s.threads, freer), t, s'.threads[t]);
      case GetWaits =>
        MoveServed(used, capacity, false, s.threads, t, s'.threads[t]);
    }
  }

  lemma TakeServed<T>(s: State<T>, t: nat, putter: int, freer: int, emptied: bool, th: Thread<T>)
    requires WakeOk(s) && t < |s.threads| && s.threads[t].pc.GetHeld? && th.pc.GetLeaving?
    requires SignalOk(s.threads, NotFull, putter)
    requires if emptied then SignalOk(s.threads, ArrayEmptied, freer) else freer == -1
    ensures Served(|s.ring.Contents()| - 1, s.ring.Capacity(), s.ring.shutdown,
                   Signal(Signal(s.threads, freer), putter)[t := th])
  {
    var used, capacity := |s.ring.Contents()|, s.ring.Capacity();
    if emptied {
      SignalServed(used, capacity, s.ring.shutdown, s.threads, ArrayEmptied, freer);
    }
    FreerSignalled(s.threads, ArrayEmptied, freer, putter);
    var threads := Signal(s.threads, freer);
    if s.ring.shutdown {
      assert putter == -1;
    } else {
      SignalServed(used, capacity, false, threads, NotFull, putter);
    }
    RemoveServed(used, capacity, s.ring.shutdown, Signal(threads, putter), t, th);
  }

  lemma AllAwake<T>(threads: seq<Thread<T>>, t: nat, th: Thread<T>)
    requires t < |threads| && !th.pc.GetAsleep? && !th.pc.PutAsleep?
    ensures !GetterAsleep(Broadcast(threads)[t := th])
    ensures !PutterAsleep(Broadcast(threads)[t := th])
  {
  }

  lemma CountServed<T>(s: State<T>, t: nat)
    requires WakeOk(s) && t < |s.threads| && s.threads[t].pc.CountHeld?
    ensures WakeOk(FreeStep(s, t))
  {
    MoveServed(|s.ring.Contents()|, s.ring.Capacity(), s.ring.shutdown, s.threads, t, FreeStep(s, t).threads[t]);
  }

  lemma FreeServed<T>(s: State<T>, t: nat)
    requires WakeOk(s) && t < |s.threads| && (s.threads[t].pc.FreeHeld? || s.threads[t].pc.DrainHeld?)
    ensures WakeOk(FreeStep(s, t))
  {
    AllAwake(s.threads, t, FreeStep(s, t).threads[t]);
  }

  lemma WakeKept<T>(s: State<T>, l: Label<T>, s': State<T>)
    requires WakeOk(s) && Next(s, l, s')
    ensures WakeOk(s')
  {
    match l {
      case PutBody(t, getter) => PutServed(s, t, s.threads[t].pc.x, getter);
      case GetBody(t, putter, freer) => GetServed(s, t, putter, freer);
      case FreeBody(t) =>
        if s.threads[t].pc.CountHeld? {
          CountServed(s, t);
        } else {
          FreeServed(s, t);
        }
      case _ => MoveServed(|s.ring.Contents()|, s.ring.Capacity(), s.ring.shutdown, s.threads, l.t, s'.threads[l.t]);
    }
  }

  // ---------------------------------------------------------------------------------------------

  function NotifiedGetter<T>(th: Thread<T>): nat {
    if th.pc.GetNotified? then 1 else 0
  }

  function NotifiedPutter<T>(th: Thread<T>): nat {
    if th.pc.PutNotified? then 1 else 0
  }

  /** Whenever the lock is free: if a getter sleeps un-notified, every queued item is matched by a
      notified getter; if a putter does, every free slot is matched by a notified putter; and once
      the queue is closed nobody sleeps un-notified on either condition. Time-outs play no part. */
  lemma NoLostWakeup<T>(s: State<T>)
    requires WakeOk(s)
    requires forall t :: 0 <= t < |s.threads| ==> !HasLock(s.threads[t].pc)
    ensures GetterAsleep(s.threads) ==> |s.ring.Contents()| <= Sum(NotifiedGetter, s.threads) && !s.ring.shutdown
    ensures PutterAsleep(s.threads) ==>
      s.ring.Capacity() - |s.ring.Contents()| <= Sum(NotifiedPutter, s.threads) && !s.ring.shutdown
  {
    SumSame(WokenGetter, NotifiedGetter, s.threads);
    SumSame(WokenPutter, NotifiedPutter, s.threads);
  }
}
