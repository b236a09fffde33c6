/** Which wake-ups array_free can rely on, when at most one thread is inside array_free. */
module QueueFreers {
  import opened Ring
  import opened QueueMachine
  import opened QueueTheorems

  predicate InFree<T>(pc: Pc<T>) {
    || pc.FreeWant? || pc.FreeHeld? || pc.DrainAsleep? || pc.DrainWant? || pc.DrainHeld?
    || pc.CountAsleep? || pc.CountWant? || pc.CountHeld?
  }

  ghost predicate OneFreer<T>(threads: seq<Thread<T>>) {
    forall t, u :: 0 <= t < |threads| && 0 <= u < |threads| ==> InFree(threads[t].pc) && InFree(threads[u].pc) ==> t == u
  }

  ghost predicate DrainSleeper<T>(threads: seq<Thread<T>>) {
    exists t :: 0 <= t < |threads| && threads[t].pc.DrainAsleep?
  }

  ghost predicate CountSleeper<T>(threads: seq<Thread<T>>) {
    exists t :: 0 <= t < |threads| && threads[t].pc.CountAsleep?
  }

  /** array_free sleeps on `all_getters_done` although no getter is left to signal it. */
  ghost predicate Stranded<T>(s: State<T>) {
    CountSleeper(s.threads) && s.active == 0
  }

  // ---------------------------------------------------------------------------------------------
  // Who sleeps after a step

  /** A signal or a broadcast puts nobody to sleep, and one on array_free's conditions wakes its one waiter. */
  lemma SignalWakes<T>(threads: seq<Thread<T>>, cv: CondVar, w: int)
    requires OneFreer(threads) && SignalOk(threads, cv, w)
    ensures cv.ArrayEmptied? ==> !DrainSleeper(Signal(threads, w))
    ensures cv.AllGettersDone? ==> !CountSleeper(Signal(threads, w))
    ensures DrainSleeper(Signal(threads, w)) ==> DrainSleeper(threads)
    ensures CountSleeper(Signal(threads, w)) ==> CountSleeper(threads)
  {
    var threads' := Signal(threads, w);
    if u :| 0 <= u < |threads'| && threads'[u].pc.DrainAsleep? {
      assert threads[u].pc.DrainAsleep?;
    }
    if u :| 0 <= u < |threads'| && threads'[u].pc.CountAsleep? {
      assert threads[u].pc.CountAsleep?;
    }
  }

  /** Thread `t` moves on. */
  lemma MoveSleeps<T>(threads: seq<Thread<T>>, t: nat, th: Thread<T>)
    requires t < |threads|
    ensures DrainSleeper(threads[t := th]) ==> DrainSleeper(threads) || th.pc.DrainAsleep?
    ensures CountSleeper(threads[t := th]) ==> CountSleeper(threads) || th.pc.CountAsleep?
    ensures CountSleeper(threads) && !threads[t].pc.CountAsleep? ==> CountSleeper(threads[t := th])
  {
    var threads' := threads[t := th];
    if u :| 0 <= u < |threads'| && threads'[u].pc.DrainAsleep? {
      assert u == t || threads[u].pc.DrainAsleep?;
    }
    if u :| 0 <= u < |threads'| && threads'[u].pc.CountAsleep? {
      assert u == t || threads[u].pc.CountAsleep?;
    }
    if u :| 0 <= u < |threads| && threads[u].pc.CountAsleep? {
      assert u != t ==> threads'[u].pc.CountAsleep?;
    }
  }

  /** While the one freer runs, nobody sleeps in array_free. */
  lemma FreerAlone<T>(threads: seq<Thread<T>>, t: nat)
    requires OneFreer(threads) && t < |threads|
    requires InFree(threads[t].pc) && !threads[t].pc.DrainAsleep? && !threads[t].pc.CountAsleep?
    ensures !DrainSleeper(threads) && !CountSleeper(threads)
  {
  }

  lemma BroadcastSleeps<T>(threads: seq<Thread<T>>)
    ensures DrainSleeper(Broadcast(threads)) ==> DrainSleeper(threads)
    ensures CountSleeper(Broadcast(threads)) ==> CountSleeper(threads)
  {
    var threads' := Broadcast(threads);
    if u :| 0 <= u < |threads'| && threads'[u].pc.DrainAsleep? {
      assert threads[u].pc.DrainAsleep?;
    }
    if u :| 0 <= u < |threads'| && threads'[u].pc.CountAsleep? {
      assert threads[u].pc.CountAsleep?;
    }
  }

  // ---------------------------------------------------------------------------------------------
  // One step

  ghost predicate DrainOk<T>(s: State<T>) {
    DrainSleeper(s.threads) ==> !s.ring.IsEmpty()
  }

  lemma PutFreers<T>(s: State<T>, t: nat, getter: int, s': State<T>)
    requires Next(s, PutBody(t, getter), s') && OneFreer(s.threads)
    ensures
      && (DrainSleeper(s'.threads) ==> DrainSleeper(s.threads))
      && (CountSleeper(s'.threads) ==> CountSleeper(s.threads))
      && s'.active == s.active && (!s.ring.IsEmpty() ==> !s'.ring.IsEmpty())
  {
    var x := s.threads[t].pc.x;
    IndexTests(s.ring);
    if AttemptPut(s.ring, x).Stored? {
      StoreAppends(s.ring, x);
      IndexTests(s'.ring);
      SignalWakes(s.threads, NotEmpty, getter);
      MoveSleeps(Signal(s.threads, getter), t, s'.threads[t]);
    } else {
      MoveSleeps(s.threads, t, s'.threads[t]);
    }
  }

  /** The get that empties the ring wakes the one thread that waits for the drain, and the last getter to be
      told of the shutdown the one that waits for the getters. */
  lemma GetFreers<T>(s: State<T>, t: nat, putter: int, freer: int, s': State<T>)
    requires Next(s, GetBody(t, putter, freer), s') && OneFreer(s.threads)
    ensures
      && (DrainSleeper(s'.threads) ==> DrainSleeper(s.threads) && (!s.ring.IsEmpty() ==> !s'.ring.IsEmpty()))
      && (CountSleeper(s'.threads) ==> CountSleeper(s.threads))
      && (CountSleeper(s'.threads) && s'.active == 0 ==> s.active == 0)
  {
    match AttemptGet(s.ring) {
      case Removed(x, ring, emptied) =>
        if emptied {
          SignalWakes(s.threads, ArrayEmptied, freer);
        }
        var threads := Signal(s.threads, freer);
        SignalMoves(threads, putter);
        MoveSleeps(Signal(threads, putter), t, s'.threads[t]);
      case Ended =>
        if s.active - 1 == 0 {
          SignalWakes(s.threads, AllGettersDone, freer);
        }
        MoveSleeps(Signal(s.threads, freer), t, s'.threads[t]);
      case GetWaits =>
        MoveSleeps(s.threads, t, s'.threads[t]);
    }
  }

  lemma SignalMoves<T>(threads: seq<Thread<T>>, w: int)
    ensures DrainSleeper(Signal(threads, w)) ==> DrainSleeper(threads)
    ensures CountSleeper(Signal(threads, w)) ==> CountSleeper(threads)
  {
    if 0 <= w < |threads| {
      MoveSleeps(threads, w, Signal(threads, w)[w]);
    }
  }

  lemma FreeFreers<T>(s: State<T>, t: nat, s': State<T>)
    requires Next(s, FreeBody(t), s') && OneFreer(s.threads)
    ensures DrainOk(s') && (CountSleeper(s'.threads) ==> s'.active > 0)
  {
    FreerAlone(s.threads, t);
    BroadcastSleeps(s.threads);
    MoveSleeps(s.threads, t, s'.threads[t]);
    MoveSleeps(Broadcast(s.threads), t, s'.threads[t]);
  }

  lemma DrainKept<T>(s: State<T>, l: Label<T>, s': State<T>)
    requires DrainOk(s) && OneFreer(s.threads) && Next(s, l, s')
    ensures DrainOk(s')
  {
    match l {
      case PutBody(t, getter) => PutFreers(s, t, getter, s');
      case GetBody(t, putter, freer) => GetFreers(s, t, putter, freer, s');
      case FreeBody(t) => FreeFreers(s, t, s');
      case _ => MoveSleeps(s.threads, l.t, s'.threads[l.t]);
    }
  }

  /** The one step that strands array_free: a getter that was successful, and is the last, leaves the count. */
  lemma StrandedStep<T>(s: State<T>, l: Label<T>, s': State<T>)
    requires Next(s, l, s') && OneFreer(s.threads) && !Stranded(s) && s.active >= 0
    ensures Stranded(s') <==> l.LeaveGet? && s.active == 1 && CountSleeper(s.threads)
  {
    match l {
      case PutBody(t, getter) => PutFreers(s, t, getter, s');
      case GetBody(t, putter, freer) => GetFreers(s, t, putter, freer, s');
      case FreeBody(t) => FreeFreers(s, t, s');
      case _ => MoveSleeps(s.threads, l.t, s'.threads[l.t]);
    }
  }

  // ---------------------------------------------------------------------------------------------
  // Every run

  /** No two threads are inside array_free at the same time. */
  ghost predicate FreesApart<T>(states: seq<State<T>>) {
    forall k :: 0 <= k < |states| ==> OneFreer(states[k].threads)
  }

  /** The wake-up at the end of the drain is never lost: array_free sleeps on `array_emptied` only while
      there is something in the ring. */
  lemma {:induction false} DrainWakeup<T>(states: seq<State<T>>, labels: seq<Label<T>>, i: nat)
    requires IsRun(states, labels) && FreesApart(states) && i < |states|
    ensures DrainSleeper(states[i].threads) ==> !states[i].ring.IsEmpty()
  {
    if i > 0 {
      DrainWakeup(states, labels, i - 1);
      DrainKept(states[i - 1], labels[i - 1], states[i]);
    }
  }

  /** The wake-up at the end of the wait for the getters is lost in exactly one way: whenever array_free
      sleeps with no getter left, the last of them had left after a successful array_get, while array_free
      slept already, and nothing has changed since. */
  lemma {:induction false} StrandedBySuccess<T>(states: seq<State<T>>, labels: seq<Label<T>>, i: nat) returns (k: nat)
    requires IsRun(states, labels) && FreesApart(states) && i < |states| && Stranded(states[i])
    ensures k < i && labels[k].LeaveGet? && states[k].active == 1 && CountSleeper(states[k].threads)
    ensures forall m :: k < m <= i ==> Stranded(states[m])
  {
    assert i > 0;
    assert Next(states[i - 1], labels[i - 1], states[i]);
    if Stranded(states[i - 1]) {
      k := StrandedBySuccess(states, labels, i - 1);
    } else {
      RunInv(states, labels, i - 1);
      StrandedStep(states[i - 1], labels[i - 1], states[i]);
      k := i - 1;
    }
  }
}
