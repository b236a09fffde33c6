/** What array_free does after each of its waits: the value a wait returned is that of the step that ended it,
    and it decides, with the ring and the count, whether array_free waits again, goes on, or returns. */
module QueueWaits {
  import opened Ring
  import opened QueueMachine
  import opened QueueTheorems

  /** Thread `t` is awake after a wait of array_free, for the drain or for the getters, that returned 0 or not. */
  predicate AfterDrainWait<T>(s: State<T>, t: nat, zero: bool) {
    t < |s.threads| && (s.threads[t].pc == DrainWant(zero) || s.threads[t].pc == DrainHeld(zero))
  }

  predicate AfterCountWait<T>(s: State<T>, t: nat, zero: bool) {
    t < |s.threads| && (s.threads[t].pc == CountWant(zero) || s.threads[t].pc == CountHeld(zero))
  }

  // ---------------------------------------------------------------------------------------------
  // How a thread gets there

  lemma SignalledFreer<T>(threads: seq<Thread<T>>, w: int, t: nat)
    requires t < |threads|
    ensures |Signal(threads, w)| == |threads|
    ensures w == t && threads[t].pc.DrainAsleep? ==> Signal(threads, w)[t].pc == DrainWant(true)
    ensures w == t && threads[t].pc.CountAsleep? ==> Signal(threads, w)[t].pc == CountWant(true)
    ensures w != t ==> Signal(threads, w)[t] == threads[t]
  {
  }

  /** What two signals and the own move of thread `u` do to thread `t`. */
  lemma SignalledTwice<T>(threads: seq<Thread<T>>, freer: int, putter: int, u: nat, th: Thread<T>, t: nat)
    requires t < |threads| && u < |threads| && t != u
    requires freer == t ==> threads[t].pc.DrainAsleep? || threads[t].pc.CountAsleep?
    requires putter == t ==> threads[t].pc.PutAsleep?
    ensures var threads' := Signal(Signal(threads, freer), putter)[u := th];
      && t < |threads'|
      && threads'[t].pc ==
         if freer == t then (if threads[t].pc.DrainAsleep? then DrainWant(true) else CountWant(true))
         else if putter == t then Notified(threads[t].pc)
         else threads[t].pc
  {
    SignalledFreer(threads, freer, t);
    SignalledFreer(Signal(threads, freer), putter, t);
  }

  lemma TakeEndsWait<T>(s: State<T>, u: nat, putter: int, freer: int, s': State<T>, t: nat, zero: bool)
    requires s.ring.Valid() && Enabled(s, GetBody(u, putter, freer)) && t < |s.threads|
    requires s' == GetStep(s, u, putter, freer) && !s.ring.IsEmpty()
    ensures AfterDrainWait(s', t, zero) && !AfterDrainWait(s, t, zero) ==>
      s.threads[t].pc.DrainAsleep? && zero && freer == t && s'.ring.IsEmpty()
    ensures AfterCountWait(s', t, zero) ==> AfterCountWait(s, t, zero)
  {
    if t != u {
      SignalledTwice(s.threads, freer, putter, u, s'.threads[u], t);
    }
  }

  lemma ToldEndsWait<T>(s: State<T>, u: nat, putter: int, freer: int, s': State<T>, t: nat, zero: bool)
    requires s.ring.Valid() && Enabled(s, GetBody(u, putter, freer)) && t < |s.threads|
    requires s' == GetStep(s, u, putter, freer) && s.ring.IsEmpty()
    ensures AfterDrainWait(s', t, zero) ==> AfterDrainWait(s, t, zero)
    ensures AfterCountWait(s', t, zero) && !AfterCountWait(s, t, zero) ==>
      s.threads[t].pc.CountAsleep? && zero && freer == t && s.active == 1 && s'.active == 0
  {
    SignalledFreer(s.threads, freer, t);
  }

  /** array_get ends a wait of array_free for the drain by taking the last item, and one for the getters by
      being the last to be told of the shutdown. */
  lemma GetEndsWait<T>(s: State<T>, u: nat, putter: int, freer: int, s': State<T>, t: nat, zero: bool)
    requires s.ring.Valid() && Enabled(s, GetBody(u, putter, freer)) && t < |s.threads|
    requires s' == GetStep(s, u, putter, freer)
    ensures AfterDrainWait(s', t, zero) && !AfterDrainWait(s, t, zero) ==>
      s.threads[t].pc.DrainAsleep? && zero && freer == t && !s.ring.IsEmpty() && s'.ring.IsEmpty()
    ensures AfterCountWait(s', t, zero) && !AfterCountWait(s, t, zero) ==>
      s.threads[t].pc.CountAsleep? && zero && freer == t && s.active == 1 && s'.active == 0
  {
    if s.ring.IsEmpty() {
      ToldEndsWait(s, u, putter, freer, s', t, zero);
    } else {
      TakeEndsWait(s, u, putter, freer, s', t, zero);
    }
  }

  /** No other lock-held stretch ends a wait of array_free. */
  lemma PutEndsNone<T>(s: State<T>, u: nat, getter: int, s': State<T>, t: nat, zero: bool)
    requires s.ring.Valid() && Enabled(s, PutBody(u, getter)) && t < |s.threads|
    requires s' == PutStep(s, u, s.threads[u].pc.x, getter)
    ensures AfterDrainWait(s', t, zero) ==> AfterDrainWait(s, t, zero)
    ensures AfterCountWait(s', t, zero) ==> AfterCountWait(s, t, zero)
  {
    SignalledFreer(s.threads, getter, t);
  }

  lemma FreeEndsNone<T>(s: State<T>, u: nat, s': State<T>, t: nat, zero: bool)
    requires s.ring.Valid() && Enabled(s, FreeBody(u)) && t < |s.threads|
    requires s' == FreeStep(s, u)
    ensures AfterDrainWait(s', t, zero) ==> AfterDrainWait(s, t, zero)
    ensures AfterCountWait(s', t, zero) ==> AfterCountWait(s, t, zero)
  {
    FreeSleeps(s, u, s');
    if s'.threads[t].pc != s.threads[t].pc {
      assert s'.threads[t].pc.Idle? || Asleep(s'.threads[t].pc) || s'.threads[t].pc == Notified(s.threads[t].pc);
    }
  }

  /** After its stretch array_free has returned or sleeps; the others stay as they are, or are notified in
      array_put or array_get. */
  lemma FreeSleeps<T>(s: State<T>, u: nat, s': State<T>)
    requires s.ring.Valid() && Enabled(s, FreeBody(u)) && s' == FreeStep(s, u)
    ensures |s'.threads| == |s.threads| && (s'.threads[u].pc.Idle? || Asleep(s'.threads[u].pc))
    ensures forall t :: 0 <= t < |s.threads| && t != u ==>
      s'.threads[t] == s.threads[t] || s.threads[t].pc.GetAsleep? || s.threads[t].pc.PutAsleep?
    ensures forall t :: 0 <= t < |s.threads| && t != u && s'.threads[t] != s.threads[t] ==>
      s'.threads[t] == s.threads[t].(pc := Notified(s.threads[t].pc))
  {
  }

  lemma OthersEndWait<T>(s: State<T>, l: Label<T>, s': State<T>, t: nat, zero: bool)
    requires Next(s, l, s') && !l.GetBody? && t < |s.threads|
    ensures AfterDrainWait(s', t, zero) && !AfterDrainWait(s, t, zero) ==>
      s.threads[t].pc.DrainAsleep? && l == Wake(t, zero)
    ensures AfterCountWait(s', t, zero) && !AfterCountWait(s, t, zero) ==>
      s.threads[t].pc.CountAsleep? && l == Wake(t, zero)
  {
    if l.PutBody? {
      PutEndsNone(s, l.t, l.getter, s', t, zero);
    } else if l.FreeBody? {
      FreeEndsNone(s, l.t, s', t, zero);
    } else {
      MoveEndsOwn(s, l, s'.threads[l.t].pc, s', t, zero);
    }
  }

  /** A step that only moves its own thread. */
  lemma MoveEndsOwn<T>(s: State<T>, l: Label<T>, pc: Pc<T>, s': State<T>, t: nat, zero: bool)
    requires Next(s, l, s') && t < |s.threads| && s'.threads == At(s.threads, l.t, pc)
    requires !l.GetBody? && !l.PutBody? && !l.FreeBody?
    ensures AfterDrainWait(s', t, zero) && !AfterDrainWait(s, t, zero) ==>
      s.threads[t].pc.DrainAsleep? && l == Wake(t, zero)
    ensures AfterCountWait(s', t, zero) && !AfterCountWait(s, t, zero) ==>
      s.threads[t].pc.CountAsleep? && l == Wake(t, zero)
  {
  }

  lemma SameThreads<T>(s: State<T>, l: Label<T>, s': State<T>)
    requires Next(s, l, s')
    ensures |s'.threads| == |s.threads|
  {
  }

  /** Whoever is awake after a wait for the drain was woken in some step of the run and has not slept since. If
      the wait returned 0, that step was a wake-up with result 0 or the delivery of the last item, and else a
      time-out. */
  lemma {:induction false} DrainWaitEnded<T>(states: seq<State<T>>, labels: seq<Label<T>>, i: nat, t: nat, zero: bool)
    returns (j: nat)
    requires IsRun(states, labels) && i < |states| && AfterDrainWait(states[i], t, zero)
    ensures j < i && t < |states[j].threads| && states[j].threads[t].pc.DrainAsleep?
    ensures forall m :: j < m <= i ==> AfterDrainWait(states[m], t, zero)
    ensures
      || labels[j] == Wake(t, zero)
      || (zero && labels[j].GetBody? && labels[j].freer == t && !states[j].ring.IsEmpty() && states[j + 1].ring.IsEmpty())
  {
    assert i > 0;
    assert Next(states[i - 1], labels[i - 1], states[i]);
    SameThreads(states[i - 1], labels[i - 1], states[i]);
    if AfterDrainWait(states[i - 1], t, zero) {
      j := DrainWaitEnded(states, labels, i - 1, t, zero);
    } else {
      j := i - 1;
      if labels[j].GetBody? {
        GetEndsWait(states[j], labels[j].t, labels[j].putter, labels[j].freer, states[i], t, zero);
      } else {
        OthersEndWait(states[j], labels[j], states[i], t, zero);
      }
    }
  }

  /** The same for the wait for the getters; the signal comes from the getter that brings the count to zero. */
  lemma {:induction false} CountWaitEnded<T>(states: seq<State<T>>, labels: seq<Label<T>>, i: nat, t: nat, zero: bool)
    returns (j: nat)
    requires IsRun(states, labels) && i < |states| && AfterCountWait(states[i], t, zero)
    ensures j < i && t < |states[j].threads| && states[j].threads[t].pc.CountAsleep?
    ensures forall m :: j < m <= i ==> AfterCountWait(states[m], t, zero)
    ensures
      || labels[j] == Wake(t, zero)
      || (zero && labels[j].GetBody? && labels[j].freer == t && states[j].active == 1 && states[j + 1].active == 0)
  {
    assert i > 0;
    assert Next(states[i - 1], labels[i - 1], states[i]);
    SameThreads(states[i - 1], labels[i - 1], states[i]);
    if AfterCountWait(states[i - 1], t, zero) {
      j := CountWaitEnded(states, labels, i - 1, t, zero);
    } else {
      j := i - 1;
      if labels[j].GetBody? {
        GetEndsWait(states[j], labels[j].t, labels[j].putter, labels[j].freer, states[i], t, zero);
      } else {
        OthersEndWait(states[j], labels[j], states[i], t, zero);
      }
    }
  }

  // ---------------------------------------------------------------------------------------------
  // What array_free does then

  /** The first stretch sets the flag; it waits for the drain exactly if something is queued, and else for the
      getters exactly if some are counted. */
  lemma AfterClosing<T>(s: State<T>, t: nat, s': State<T>)
    requires Next(s, FreeBody(t), s') && s.threads[t].pc.FreeHeld?
    ensures |s'.threads| == |s.threads| && s'.ring.shutdown && s'.active == s.active
    ensures s'.ring.Contents() == s.ring.Contents()
    ensures s'.threads[t].pc ==
      if s.ring.Contents() != [] then DrainAsleep else if s.active > 0 then CountAsleep else Idle
  {
    IndexTests(s.ring);
  }

  lemma DrainStretch<T>(s: State<T>, t: nat, zero: bool, s': State<T>)
    requires Next(s, FreeBody(t), s') && s.threads[t].pc == DrainHeld(zero)
    ensures |s'.threads| == |s.threads| && s'.ring == s.ring && s'.active == s.active
    ensures s'.threads[t].pc ==
      if !zero && s.ring.Contents() != [] then DrainAsleep else if s.active > 0 then CountAsleep else Idle
  {
    IndexTests(s.ring);
  }

  lemma CountStretch<T>(s: State<T>, t: nat, zero: bool, s': State<T>)
    requires Next(s, FreeBody(t), s') && s.threads[t].pc == CountHeld(zero)
    ensures |s'.threads| == |s.threads| && s'.ring == s.ring && s'.active == s.active
    ensures s'.threads[t].pc == if !zero && s.active > 0 then CountAsleep else Idle
  {
  }

  lemma EmptyInRun<T>(states: seq<State<T>>, labels: seq<Label<T>>, i: nat)
    requires IsRun(states, labels) && i < |states|
    ensures states[i].ring.Valid() && (states[i].ring.IsEmpty() <==> states[i].ring.Contents() == [])
  {
    RunInv(states, labels, i);
    IndexTests(states[i].ring);
  }

  /** After a wait for the drain, in every run: array_free waits for it again exactly if the wait timed out and
      something is still queued. Otherwise the drain is over, and it returns exactly if no getter is counted. */
  lemma AfterDraining<T>(states: seq<State<T>>, labels: seq<Label<T>>, i: nat, t: nat) returns (j: nat)
    requires IsRun(states, labels) && i < |labels| && labels[i] == FreeBody(t)
    requires t < |states[i].threads| && states[i].threads[t].pc.DrainHeld?
    ensures j < i && t < |states[j].threads| && states[j].threads[t].pc.DrainAsleep?
    ensures forall m :: j < m <= i ==> t < |states[m].threads| && !Asleep(states[m].threads[t].pc)
    ensures states[j].ring.Valid() && states[j + 1].ring.Valid() && states[i].ring.Valid()
    ensures
      || labels[j] == Wake(t, true) || labels[j] == Wake(t, false)
      || (labels[j].GetBody? && labels[j].freer == t
          && states[j].ring.Contents() != [] && states[j + 1].ring.Contents() == [])
    ensures t < |states[i + 1].threads|
    ensures states[i + 1].threads[t].pc ==
      if labels[j] == Wake(t, false) && states[i].ring.Contents() != [] then DrainAsleep
      else if states[i + 1].active > 0 then CountAsleep
      else Idle
  {
    var zero := states[i].threads[t].pc.ok;
    j := DrainWaitEnded(states, labels, i, t, zero);
    assert Next(states[i], labels[i], states[i + 1]);
    DrainStretch(states[i], t, zero, states[i + 1]);
    EmptyInRun(states, labels, j);
    EmptyInRun(states, labels, j + 1);
  }

  /** After a wait for the getters, in every run: array_free waits again exactly if the wait timed out and some
      getter is still counted. So if it returns although one is, the wait returned 0: it was signalled by
      a getter that brought the count to zero, or woke spuriously. */
  lemma AfterCounting<T>(states: seq<State<T>>, labels: seq<Label<T>>, i: nat, t: nat) returns (j: nat)
    requires IsRun(states, labels) && i < |labels| && labels[i] == FreeBody(t)
    requires t < |states[i].threads| && states[i].threads[t].pc.CountHeld?
    ensures j < i && t < |states[j].threads| && states[j].threads[t].pc.CountAsleep?
    ensures forall m :: j < m <= i ==> t < |states[m].threads| && !Asleep(states[m].threads[t].pc)
    ensures
      || labels[j] == Wake(t, true) || labels[j] == Wake(t, false)
      || (labels[j].GetBody? && labels[j].freer == t && states[j].active == 1 && states[j + 1].active == 0)
    ensures t < |states[i + 1].threads|
    ensures states[i + 1].threads[t].pc ==
      if labels[j] == Wake(t, false) && states[i + 1].active > 0 then CountAsleep else Idle
  {
    var zero := states[i].threads[t].pc.ok;
    j := CountWaitEnded(states, labels, i, t, zero);
    assert Next(states[i], labels[i], states[i + 1]);
    CountStretch(states[i], t, zero, states[i + 1]);
  }
}
