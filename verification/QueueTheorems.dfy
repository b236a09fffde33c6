/** The main results about `array.c`, for every run of any number of threads. */
module QueueTheorems {
  import opened Sums
  import opened Fifo
  import opened Ring
  import opened QueueMachine
  import opened QueueProofs
  import opened QueueWakeups

  /** array_free is past setting the flag. */
  predicate Closing<T>(pc: Pc<T>) {
    pc.DrainAsleep? || pc.DrainWant? || pc.DrainHeld? || pc.CountAsleep? || pc.CountWant? || pc.CountHeld?
  }

  /** array_free has left its drain loop, or is about to because its wait returned 0. */
  predicate Drained<T>(pc: Pc<T>) {
    || (pc.DrainWant? && pc.ok) || (pc.DrainHeld? && pc.ok)
    || pc.CountAsleep? || pc.CountWant? || pc.CountHeld?
  }

  ghost predicate CloseOk<T>(s: State<T>) {
    && (s.told ==> s.ring.shutdown && s.ring.IsEmpty())
    && (forall t :: 0 <= t < |s.threads| && Closing(s.threads[t].pc) ==> s.ring.shutdown)
    && (!s.spurious ==> forall t :: 0 <= t < |s.threads| && Drained(s.threads[t].pc) ==> s.ring.IsEmpty())
  }

  /** Closed and empty is for ever. */
  lemma EmptyStays<T>(s: State<T>, l: Label<T>, s': State<T>)
    requires Next(s, l, s')
    ensures s.ring.shutdown ==> s'.ring.shutdown && s'.puts == s.puts
    ensures s.ring.shutdown && s.ring.IsEmpty() ==> s'.ring == s.ring && s'.gets == s.gets
    ensures s.told ==> s'.told
  {
    match l {
      case PutBody(t, getter) =>
      case GetBody(t, putter, freer) =>
      case FreeBody(t) =>
      case _ =>
    }
  }

  lemma GetClose<T>(s: State<T>, t: nat, putter: int, freer: int, s': State<T>)
    requires CloseOk(s) && s.ring.Valid() && Enabled(s, GetBody(t, putter, freer))
    requires s' == GetStep(s, t, putter, freer)
    ensures CloseOk(s')
  {
    IndexTests(s.ring);
  }

  lemma FreeClose<T>(s: State<T>, t: nat, s': State<T>)
    requires CloseOk(s) && s.ring.Valid() && Enabled(s, FreeBody(t))
    requires s' == FreeStep(s, t)
    ensures CloseOk(s')
  {
  }

  lemma PutClose<T>(s: State<T>, t: nat, getter: int, s': State<T>)
    requires CloseOk(s) && Next(s, PutBody(t, getter), s')
    ensures CloseOk(s')
  {
    EmptyStays(s, PutBody(t, getter), s');
  }

  lemma OtherClose<T>(s: State<T>, l: Label<T>, s': State<T>)
    requires CloseOk(s) && Next(s, l, s') && !l.PutBody? && !l.GetBody? && !l.FreeBody?
    ensures CloseOk(s')
  {
  }

  lemma CloseKept<T>(s: State<T>, l: Label<T>, s': State<T>)
    requires CloseOk(s) && Next(s, l, s')
    ensures CloseOk(s')
  {
    match l {
      case PutBody(t, getter) => PutClose(s, t, getter, s');
      case GetBody(t, putter, freer) => GetClose(s, t, putter, freer, s');
      case FreeBody(t) => FreeClose(s, t, s');
      case _ => OtherClose(s, l, s');
    }
  }

  // ---------------------------------------------------------------------------------------------
  // Every reachable state

  ghost predicate Inv<T>(s: State<T>) {
    LockOk(s) && RingOk(s) && LogsOk(s) && ActiveOk(s) && WakeOk(s) && CloseOk(s)
  }

  lemma InitInv<T>(s: State<T>)
    requires Init(s)
    ensures Inv(s)
  {
    SumZero(IsActive, s.threads);
  }

  lemma StepInv<T>(s: State<T>, l: Label<T>, s': State<T>)
    requires Inv(s) && Next(s, l, s')
    ensures Inv(s')
  {
    LockKept(s, l, s');
    RingKept(s, l, s');
    LogsKept(s, l, s');
    ActiveKept(s, l, s');
    WakeKept(s, l, s');
    CloseKept(s, l, s');
  }

  lemma {:induction false} RunInv<T>(states: seq<State<T>>, labels: seq<Label<T>>, i: nat)
    requires IsRun(states, labels) && i < |states|
    ensures Inv(states[i])
    ensures |states[i].ring.slots| == |states[0].ring.slots| && |states[i].threads| == |states[0].threads|
  {
    if i == 0 {
      InitInv(states[0]);
    } else {
      RunInv(states, labels, i - 1);
      StepInv(states[i - 1], labels[i - 1], states[i]);
      RingKept(states[i - 1], labels[i - 1], states[i]);
      LockKept(states[i - 1], labels[i - 1], states[i]);
    }
  }

  /** Step `l` of the machine is, on the abstract queue, the event its caller observes. */
  ghost predicate StepRefines<T>(capacity: nat, s: State<T>, l: Label<T>, s': State<T>) {
    && Next(s, l, s')
    && FifoStep(capacity, Abstract(s), EventOf(s, l), Abstract(s'))
  }

  /** The threaded ring refines the closable FIFO: in every run, each step of any thread is the event
      its caller observes, taken on the abstract queue, and the abstract queue starts out empty. */
  lemma FifoRefinement<T>(states: seq<State<T>>, labels: seq<Label<T>>)
    requires IsRun(states, labels)
    ensures Abstract(states[0]) == Fifo([], 0, false)
    ensures forall i :: 0 <= i < |labels| ==> StepRefines(|states[0].ring.slots| - 1, states[i], labels[i], states[i + 1])
  {
    forall i | 0 <= i < |labels| ensures StepRefines(|states[0].ring.slots| - 1, states[i], labels[i], states[i + 1]) {
      RunInv(states, labels, i);
      RingKept(states[i], labels[i], states[i + 1]);
    }
  }

  /** In every reachable state: what was accepted is what was delivered followed by the ring from head
      to tail; the ring holds at most ARRAY_SIZE - 1 items and the index test for "full" is exact;
      each thread's own results are exactly its entries, in order; and the count is exact. */
  lemma ReachableQueue<T>(states: seq<State<T>>, labels: seq<Label<T>>, i: nat)
    requires IsRun(states, labels) && i < |states|
    ensures var s := states[i];
      && s.ring.Valid() && |s.ring.slots| == |states[0].ring.slots|
      && Items(s.puts) == Items(s.gets) + s.ring.Contents()
      && Abstract(s).Valid(|s.ring.slots| - 1) && Abstract(s).Contents() == s.ring.Contents()
      && (s.ring.IsFull() <==> Abstract(s).IsFull(|s.ring.slots| - 1))
      && (s.ring.IsEmpty() <==> Abstract(s).IsEmpty())
      && (forall t :: 0 <= t < |s.threads| ==> s.threads[t].sent == Of(s.puts, t) && s.threads[t].got == Of(s.gets, t))
      && s.active == Sum(IsActive, s.threads)
  {
    RunInv(states, labels, i);
    IndexTests(states[i].ring);
  }

  /** No wake-up of array_put or array_get is lost in any run. For those of array_free see QueueFreers. */
  lemma RunWakeups<T>(states: seq<State<T>>, labels: seq<Label<T>>, i: nat)
    requires IsRun(states, labels) && i < |states| && states[i].holder == -1
    ensures var s := states[i];
      && s.ring.Valid()
      && (GetterAsleep(s.threads) ==> |s.ring.Contents()| <= Sum(NotifiedGetter, s.threads) && !s.ring.shutdown)
      && (PutterAsleep(s.threads) ==>
            s.ring.Capacity() - |s.ring.Contents()| <= Sum(NotifiedPutter, s.threads) && !s.ring.shutdown)
  {
    RunInv(states, labels, i);
    NoLostWakeup(states[i]);
  }

  /** Closing is final and loses nothing: nothing is accepted after the flag is set, what was accepted
      can only be delivered, and once some getter has been told ARRAY_SHUTDOWN all of it has been. */
  lemma {:induction false} CloseIsFinal<T>(states: seq<State<T>>, labels: seq<Label<T>>, i: nat, j: nat)
    requires IsRun(states, labels) && i <= j < |states|
    ensures states[i].ring.shutdown ==> states[j].ring.shutdown && states[j].puts == states[i].puts
    ensures states[i].told ==> states[j].told && Items(states[j].gets) == Items(states[j].puts)
    ensures states[i].ring.shutdown && states[i].ring.IsEmpty() ==> states[j].ring == states[i].ring
    decreases j - i
  {
    RunInv(states, labels, i);
    if i < j {
      EmptyStays(states[i], labels[i], states[i + 1]);
      CloseIsFinal(states, labels, i + 1, j);
    } else if states[i].told {
      IndexTests(states[i].ring);
    }
  }

  /** No thread is anywhere between the increment in array_get and its own decrement. */
  ghost predicate NoGetter<T>(threads: seq<Thread<T>>) {
    forall u :: 0 <= u < |threads| ==> IsActive(threads[u]) == 0
  }

  lemma ZeroSeen<T>(s: State<T>, t: nat)
    requires t < |s.threads| && FreeStep(s, t).threads[t].pc.Idle? && s.threads[t].pc != CountHeld(true)
    requires s.threads[t].pc.FreeHeld? || s.threads[t].pc.DrainHeld? || s.threads[t].pc.CountHeld?
    ensures FreeStep(s, t).active <= 0
  {
  }

  /** In every run, when array_free returns because it read zero, no getter is waiting for the lock,
      asleep under it, holding it, or still on its way out. */
  lemma FreeSawNoGetter<T>(states: seq<State<T>>, labels: seq<Label<T>>, i: nat, t: nat)
    requires IsRun(states, labels) && i < |labels| && labels[i] == FreeBody(t)
    requires t < |states[i].threads| && t < |states[i + 1].threads|
    requires states[i + 1].threads[t].pc.Idle? && states[i].threads[t].pc != CountHeld(true)
    ensures NoGetter(states[i + 1].threads)
  {
    assert Next(states[i], labels[i], states[i + 1]);
    ZeroSeen(states[i], t);
    RunInv(states, labels, i + 1);
    SumZero(IsActive, states[i + 1].threads);
  }

  lemma DrainLeft<T>(s: State<T>, t: nat, s': State<T>)
    requires CloseOk(s) && CloseOk(s') && Next(s, FreeBody(t), s')
    requires s'.threads[t].pc.Idle? || s'.threads[t].pc.CountAsleep?
    ensures s'.ring.shutdown && (!s'.spurious ==> s'.ring.IsEmpty())
    ensures !s'.ring.IsEmpty() ==>
      s.spurious && (s.threads[t].pc == DrainHeld(true) || s.threads[t].pc.CountHeld?)
  {
  }

  /** In every run, unless some wait for `array_emptied` returned 0 without a signal, array_free leaves
      its drain loop, and so returns, only with everything accepted delivered; and the queue then stays
      closed and empty for good. If it leaves it otherwise, such a wake-up is to blame. */
  lemma DrainIsComplete<T>(states: seq<State<T>>, labels: seq<Label<T>>, i: nat, t: nat, j: nat)
    requires IsRun(states, labels) && i < |labels| && labels[i] == FreeBody(t) && i < j < |states|
    requires t < |states[i].threads| && t < |states[i + 1].threads|
    requires states[i + 1].threads[t].pc.Idle? || states[i + 1].threads[t].pc.CountAsleep?
    ensures states[j].ring.shutdown && states[j].puts == states[i + 1].puts
    ensures !states[i + 1].spurious ==>
      states[j].ring == states[i + 1].ring && Items(states[i + 1].gets) == Items(states[j].puts)
    ensures !states[i + 1].ring.IsEmpty() ==>
      states[i].spurious && (states[i].threads[t].pc == DrainHeld(true) || states[i].threads[t].pc.CountHeld?)
  {
    RunInv(states, labels, i);
    RunInv(states, labels, i + 1);
    assert Next(states[i], labels[i], states[i + 1]);
    DrainLeft(states[i], t, states[i + 1]);
    CloseIsFinal(states, labels, i + 1, j);
    IndexTests(states[i + 1].ring);
  }
}
