/** Safety of the queue machine, for every run of any number of threads. */
module QueueProofs {
  import opened Sums
  import opened Fifo
  import opened Ring
  import opened QueueMachine

  // ---------------------------------------------------------------------------------------------
  // A step of thread `t` does to another thread at most what a notification does

  ghost predicate Untouched<T>(a: Thread<T>, b: Thread<T>) {
    b == a || (Asleep(a.pc) && b == a.(pc := Notified(a.pc)))
  }

  ghost predicate Frame<T>(threads: seq<Thread<T>>, t: nat, threads': seq<Thread<T>>) {
    && t < |threads| == |threads'|
    && forall u :: 0 <= u < |threads| && u != t ==> Untouched(threads[u], threads'[u])
  }

  lemma PutFrame<T>(s: State<T>, t: nat, x: T, getter: int)
    requires s.ring.Valid() && t < |s.threads|
    ensures Frame(s.threads, t, PutStep(s, t, x, getter).threads)
  {
  }

  lemma GetFrame<T>(s: State<T>, t: nat, putter: int, freer: int)
    requires s.ring.Valid() && t < |s.threads|
    ensures Frame(s.threads, t, GetStep(s, t, putter, freer).threads)
  {
  }

  lemma FreeFrame<T>(s: State<T>, t: nat)
    requires t < |s.threads|
    ensures Frame(s.threads, t, FreeStep(s, t).threads)
  {
  }

  lemma StepFrame<T>(s: State<T>, l: Label<T>, s': State<T>)
    requires Next(s, l, s')
    ensures Frame(s.threads, l.t, s'.threads)
  {
    match l {
      case PutBody(t, getter) => PutFrame(s, t, s.threads[t].pc.x, getter);
      case GetBody(t, putter, freer) => GetFrame(s, t, putter, freer);
      case FreeBody(t) => FreeFrame(s, t);
      case _ =>
    }
  }

  // ---------------------------------------------------------------------------------------------
  // The lock

  ghost predicate LockOk<T>(s: State<T>) {
    && -1 <= s.holder < |s.threads|
    && forall t :: 0 <= t < |s.threads| ==> (HasLock(s.threads[t].pc) <==> s.holder == t)
  }

  lemma LockKeptOthers<T>(s: State<T>, t: nat, s': State<T>)
    requires LockOk(s) && Frame(s.threads, t, s'.threads)
    requires s.holder == -1 || s.holder == t || s'.holder == s.holder
    requires s'.holder == -1 || s'.holder == t || s'.holder == s.holder
    requires HasLock(s'.threads[t].pc) <==> s'.holder == t
    ensures LockOk(s')
  {
    forall u | 0 <= u < |s'.threads| ensures HasLock(s'.threads[u].pc) <==> s'.holder == u {
      if u != t {
        assert Untouched(s.threads[u], s'.threads[u]);
      }
    }
  }

  lemma LockKept<T>(s: State<T>, l: Label<T>, s': State<T>)
    requires LockOk(s) && Next(s, l, s')
    ensures LockOk(s') && |s'.threads| == |s.threads|
  {
    StepFrame(s, l, s');
    LockKeptOthers(s, l.t, s');
  }

  // ---------------------------------------------------------------------------------------------
  // First-in first-out

  ghost predicate RingOk<T>(s: State<T>) {
    && s.ring.Valid()
    && Items(s.puts) == Items(s.gets) + s.ring.Contents()
  }

  lemma ItemsAppend<T>(log: seq<(nat, T)>, e: (nat, T))
    ensures Items(log + [e]) == Items(log) + [e.1]
  {
  }

  lemma PutRing<T>(s: State<T>, t: nat, x: T, getter: int)
    requires RingOk(s) && t < |s.threads|
    ensures var s' := PutStep(s, t, x, getter);
      && RingOk(s') && |s'.ring.slots| == |s.ring.slots|
      && FifoStep(s.ring.Capacity(), Abstract(s),
                  match AttemptPut(s.ring, x) case Stored(_) => Accept(x) case PutWaits => Silent case Refused => Refuse,
                  Abstract(s'))
  {
    IndexTests(s.ring);
    if AttemptPut(s.ring, x).Stored? {
      StoreAppends(s.ring, x);
      assert Items(s.puts + [(t, x)]) == Items(s.puts) + [x];
    }
  }

  lemma GetRing<T>(s: State<T>, t: nat, putter: int, freer: int)
    requires RingOk(s) && t < |s.threads|
    ensures var s' := GetStep(s, t, putter, freer);
      && RingOk(s') && |s'.ring.slots| == |s.ring.slots|
      && FifoStep(s.ring.Capacity(), Abstract(s),
                  match AttemptGet(s.ring) case Removed(x, _, _) => Deliver(x) case GetWaits => Silent case Ended => EndOfQueue,
                  Abstract(s'))
  {
    IndexTests(s.ring);
    if AttemptGet(s.ring).Removed? {
      RemoveDropsOldest(s.ring);
      var x := s.ring.slots[s.ring.head];
      HandOut(Items(s.puts), Items(s.gets), x, s.ring.Remove().Contents());
      ItemsAppend(s.gets, (t, x));
    }
  }

  lemma FreeRing<T>(s: State<T>, t: nat, s': State<T>)
    requires RingOk(s) && Next(s, FreeBody(t), s')
    ensures RingOk(s') && |s'.ring.slots| == |s.ring.slots|
    ensures FifoStep(s.ring.Capacity(), Abstract(s), EventOf(s, FreeBody(t)), Abstract(s'))
  {
  }

  lemma OtherRing<T>(s: State<T>, l: Label<T>, s': State<T>)
    requires RingOk(s) && Next(s, l, s') && !l.PutBody? && !l.GetBody? && !l.FreeBody?
    ensures RingOk(s') && |s'.ring.slots| == |s.ring.slots|
    ensures FifoStep(s.ring.Capacity(), Abstract(s), EventOf(s, l), Abstract(s'))
  {
  }

  lemma RingKept<T>(s: State<T>, l: Label<T>, s': State<T>)
    requires RingOk(s) && Next(s, l, s')
    ensures RingOk(s') && |s'.ring.slots| == |s.ring.slots|
    ensures FifoStep(s.ring.Capacity(), Abstract(s), EventOf(s, l), Abstract(s'))
  {
    match l {
      case PutBody(t, getter) => PutRing(s, t, s.threads[t].pc.x, getter);
      case GetBody(t, putter, freer) => GetRing(s, t, putter, freer);
      case FreeBody(t) => FreeRing(s, t, s');
      case _ => OtherRing(s, l, s');
    }
  }

  // ---------------------------------------------------------------------------------------------
  // Who put and who got what

  ghost predicate LogsOk<T>(s: State<T>) {
    forall t :: 0 <= t < |s.threads| ==>
      s.threads[t].sent == Of(s.puts, t) && s.threads[t].got == Of(s.gets, t)
  }

  /** A log grows by nothing, or by one entry that its thread records too. */
  ghost predicate Recorded<T>(log: seq<(nat, T)>, own: seq<T>, t: nat, log': seq<(nat, T)>, own': seq<T>) {
    || (log' == log && own' == own)
    || (|log'| == |log| + 1 && log'[..|log|] == log && log'[|log|].0 == t && own' == own + [log'[|log|].1])
  }

  lemma PutRecords<T>(s: State<T>, l: Label<T>, s': State<T>)
    requires Next(s, l, s') && l.PutBody?
    ensures |s'.threads| == |s.threads|
    ensures Recorded(s.puts, s.threads[l.t].sent, l.t, s'.puts, s'.threads[l.t].sent)
    ensures Recorded(s.gets, s.threads[l.t].got, l.t, s'.gets, s'.threads[l.t].got)
  {
  }

  lemma GetRecords<T>(s: State<T>, l: Label<T>, s': State<T>)
    requires Next(s, l, s') && l.GetBody?
    ensures |s'.threads| == |s.threads|
    ensures Recorded(s.puts, s.threads[l.t].sent, l.t, s'.puts, s'.threads[l.t].sent)
    ensures Recorded(s.gets, s.threads[l.t].got, l.t, s'.gets, s'.threads[l.t].got)
  {
  }

  lemma OtherRecords<T>(s: State<T>, l: Label<T>, s': State<T>)
    requires Next(s, l, s') && !l.PutBody? && !l.GetBody?
    ensures |s'.threads| == |s.threads|
    ensures Recorded(s.puts, s.threads[l.t].sent, l.t, s'.puts, s'.threads[l.t].sent)
    ensures Recorded(s.gets, s.threads[l.t].got, l.t, s'.gets, s'.threads[l.t].got)
  {
    StepFrame(s, l, s');
  }

  lemma StepRecords<T>(s: State<T>, l: Label<T>, s': State<T>)
    requires Next(s, l, s')
    ensures |s'.threads| == |s.threads|
    ensures Recorded(s.puts, s.threads[l.t].sent, l.t, s'.puts, s'.threads[l.t].sent)
    ensures Recorded(s.gets, s.threads[l.t].got, l.t, s'.gets, s'.threads[l.t].got)
  {
    match l {
      case PutBody(_, _) => PutRecords(s, l, s');
      case GetBody(_, _, _) => GetRecords(s, l, s');
      case _ => OtherRecords(s, l, s');
    }
  }

  lemma LogsGrow<T>(s: State<T>, t: nat, s': State<T>)
    requires LogsOk(s) && Frame(s.threads, t, s'.threads)
    requires Recorded(s.puts, s.threads[t].sent, t, s'.puts, s'.threads[t].sent)
    requires Recorded(s.gets, s.threads[t].got, t, s'.gets, s'.threads[t].got)
    ensures LogsOk(s')
  {
    forall u | 0 <= u < |s'.threads| ensures s'.threads[u].sent == Of(s'.puts, u) && s'.threads[u].got == Of(s'.gets, u) {
      assert u != t ==> Untouched(s.threads[u], s'.threads[u]);
    }
  }

  lemma LogsKept<T>(s: State<T>, l: Label<T>, s': State<T>)
    requires LogsOk(s) && Next(s, l, s')
    ensures LogsOk(s')
  {
    StepFrame(s, l, s');
    StepRecords(s, l, s');
    LogsGrow(s, l.t, s');
  }

  // ---------------------------------------------------------------------------------------------
  // active_getters

  function IsActive<T>(th: Thread<T>): nat {
    if th.pc.GetWant? || th.pc.GetHeld? || th.pc.GetAsleep? || th.pc.GetNotified? || th.pc.GetLeaving? then 1 else 0
  }

  ghost predicate ActiveOk<T>(s: State<T>) {
    s.active == Sum(IsActive, s.threads)
  }

  lemma GetCounts<T>(s: State<T>, t: nat, putter: int, freer: int, s': State<T>)
    requires Next(s, GetBody(t, putter, freer), s')
    ensures |s'.threads| == |s.threads| && t < |s.threads|
    ensures s'.active + IsActive(s.threads[t]) == s.active + IsActive(s'.threads[t])
  {
  }

  lemma FreeCounts<T>(s: State<T>, t: nat, s': State<T>)
    requires Next(s, FreeBody(t), s')
    ensures |s'.threads| == |s.threads| && t < |s.threads|
    ensures s'.active + IsActive(s.threads[t]) == s.active + IsActive(s'.threads[t])
  {
  }

  /** Every step counts its own thread in and out exactly when it enters and leaves array_get. */
  lemma StepCounts<T>(s: State<T>, l: Label<T>, s': State<T>)
    requires Next(s, l, s')
    ensures |s'.threads| == |s.threads|
    ensures s'.active + IsActive(s.threads[l.t]) == s.active + IsActive(s'.threads[l.t])
  {
    match l {
      case GetBody(t, putter, freer) => GetCounts(s, t, putter, freer, s');
      case FreeBody(t) => FreeCounts(s, t, s');
      case _ =>
    }
  }

  lemma ActiveKept<T>(s: State<T>, l: Label<T>, s': State<T>)
    requires ActiveOk(s) && Next(s, l, s')
    ensures ActiveOk(s')
  {
    StepFrame(s, l, s');
    StepCounts(s, l, s');
    OthersActive(s.threads, l.t, s'.threads);
  }

  lemma OthersActive<T>(threads: seq<Thread<T>>, t: nat, threads': seq<Thread<T>>)
    requires Frame(threads, t, threads')
    ensures Sum(IsActive, threads') + IsActive(threads[t]) == Sum(IsActive, threads) + IsActive(threads'[t])
  {
    forall u | 0 <= u < |threads| && u != t ensures IsActive(threads[u]) == IsActive(threads'[u]) {
      assert Untouched(threads[u], threads'[u]);
    }
    SumChange(IsActive, threads, threads', t);
  }
}
