/** The queue serves whoever it can: every step that needs no new call and no time-out lowers a measure, one
    is possible unless all threads are outside or asleep, and then nobody sleeps who need not wait. */
module QueueProgress {
  import opened Sums
  import opened Ring
  import opened QueueMachine
  import opened QueueProofs
  import opened QueueWakeups
  import opened QueueTheorems
  import opened QueueFreers

  /** A step that takes the lock, runs a lock-held stretch, or leaves the count. */
  predicate Serves<T>(l: Label<T>) {
    l.Acquire? || l.PutBody? || l.GetBody? || l.FreeBody? || l.LeaveGet?
  }

  /** Every thread is outside the queue or asleep on one of its conditions. */
  ghost predicate Resting<T>(s: State<T>) {
    forall t :: 0 <= t < |s.threads| ==> s.threads[t].pc.Idle? || Asleep(s.threads[t].pc)
  }

  // ---------------------------------------------------------------------------------------------
  // At rest

  /** A getter sleeps only while there is nothing to get, a putter only while there is no room, and neither
      on a closed queue. */
  ghost predicate NobodyInVain<T>(s: State<T>) {
    && s.ring.Valid()
    && (GetterAsleep(s.threads) ==> !Abstract(s).CanGet())
    && (PutterAsleep(s.threads) ==> !Abstract(s).CanPut(s.ring.Capacity()))
  }

  /** At rest nobody waits in vain. */
  lemma RestIsJustified<T>(states: seq<State<T>>, labels: seq<Label<T>>, i: nat)
    requires IsRun(states, labels) && i < |states| && Resting(states[i])
    ensures NobodyInVain(states[i])
  {
    RunInv(states, labels, i);
    ReachableQueue(states, labels, i);
    RestSleepers(states[i]);
  }

  lemma RestSleepers<T>(s: State<T>)
    requires WakeOk(s) && Resting(s)
    ensures GetterAsleep(s.threads) ==> s.ring.IsEmpty() && !s.ring.shutdown
    ensures PutterAsleep(s.threads) ==> s.ring.IsFull() && !s.ring.shutdown
  {
    SumZero(WokenGetter, s.threads);
    SumZero(WokenPutter, s.threads);
    IndexTests(s.ring);
  }

  // ---------------------------------------------------------------------------------------------
  // Somebody is served

  /** Whom a signal wakes. */
  lemma Waiter<T>(threads: seq<Thread<T>>, cv: CondVar) returns (w: int)
    ensures SignalOk(threads, cv, w)
  {
    w := if t :| 0 <= t < |threads| && AsleepOn(cv, threads[t].pc) then t else -1;
  }

  lemma BodyRuns<T>(s: State<T>, t: nat) returns (l: Label<T>)
    requires s.ring.Valid() && t < |s.threads| && HasLock(s.threads[t].pc)
    ensures Serves(l) && Enabled(s, l)
  {
    match s.threads[t].pc {
      case PutHeld(x) =>
        var getter := Waiter(s.threads, NotEmpty);
        l := PutBody(t, if AttemptPut(s.ring, x).Stored? then getter else -1);
      case GetHeld =>
        var putter := Waiter(s.threads, NotFull);
        var drainer := Waiter(s.threads, ArrayEmptied);
        var counter := Waiter(s.threads, AllGettersDone);
        match AttemptGet(s.ring) {
          case Removed(_, _, emptied) => l := GetBody(t, putter, if emptied then drainer else -1);
          case Ended => l := GetBody(t, -1, if s.active - 1 == 0 then counter else -1);
          case GetWaits => l := GetBody(t, -1, -1);
        }
      case _ => l := FreeBody(t);
    }
  }

  lemma SomeoneServes<T>(s: State<T>) returns (l: Label<T>)
    requires s.ring.Valid() && LockOk(s) && !Resting(s)
    ensures Serves(l) && Enabled(s, l)
  {
    if s.holder >= 0 {
      l := BodyRuns(s, s.holder);
    } else {
      var t :| 0 <= t < |s.threads| && !s.threads[t].pc.Idle? && !Asleep(s.threads[t].pc);
      assert !HasLock(s.threads[t].pc);
      l := if s.threads[t].pc.GetLeaving? then LeaveGet(t) else Acquire(t);
    }
  }

  // ---------------------------------------------------------------------------------------------
  // Serving comes to an end

  /** What a thread among `n` may still cost, the wake-ups it gives to others included. */
  function Rank<T>(n: nat, pc: Pc<T>): nat {
    match pc
    case Idle => 0
    case PutWant(_) => 4
    case PutNotified(_) => 4
    case PutHeld(_) => 3
    case PutAsleep(_) => 2
    case GetWant => 2 * n + 10
    case GetNotified => 2 * n + 10
    case GetHeld => 2 * n + 9
    case GetAsleep => 2 * n + 8
    case GetLeaving => 1
    case FreeWant => 2 * n + 4
    case FreeHeld => 2 * n + 3
    case DrainWant(_) => 2 * n + 4
    case DrainHeld(_) => 2 * n + 3
    case DrainAsleep => 0
    case CountWant(_) => 3
    case CountHeld(_) => 2
    case CountAsleep => 1
  }

  function Cost<T>(n: nat): Thread<T> -> nat {
    (th: Thread<T>) => Rank(n, th.pc)
  }

  ghost function Due<T>(s: State<T>): nat {
    Sum(Cost(|s.threads|), s.threads)
  }

  lemma SignalCosts<T>(n: nat, threads: seq<Thread<T>>, cv: CondVar, w: int)
    requires SignalOk(threads, cv, w)
    ensures Sum(Cost(n), Signal(threads, w)) <= Sum(Cost(n), threads) + if cv.ArrayEmptied? then 2 * n + 4 else 2
  {
    if w >= 0 {
      SumUpdate(Cost(n), threads, w, Signal(threads, w)[w]);
    }
  }

  lemma {:induction false} BroadcastCosts<T>(n: nat, threads: seq<Thread<T>>)
    ensures Sum(Cost(n), Broadcast(threads)) <= Sum(Cost(n), threads) + 2 * |threads|
  {
    if threads != [] {
      BroadcastCosts(n, threads[1..]);
      assert Broadcast(threads)[1..] == Broadcast(threads[1..]);
    }
  }

  /** Thread `t` goes on to `th`, after signals that changed the sum by at most `extra`. */
  lemma MoveCosts<T>(n: nat, threads: seq<Thread<T>>, threads': seq<Thread<T>>, t: nat, th: Thread<T>, extra: nat)
    requires t < |threads| == |threads'| && threads'[t] == threads[t]
    requires Sum(Cost(n), threads') <= Sum(Cost(n), threads) + extra
    requires Rank(n, th.pc) + extra < Rank(n, threads[t].pc)
    ensures Sum(Cost(n), threads'[t := th]) < Sum(Cost(n), threads)
  {
    SumUpdate(Cost(n), threads', t, th);
  }

  lemma PutCosts<T>(s: State<T>, t: nat, getter: int, s': State<T>)
    requires Next(s, PutBody(t, getter), s')
    ensures Due(s') < Due(s)
  {
    var n := |s.threads|;
    if AttemptPut(s.ring, s.threads[t].pc.x).Stored? {
      SignalCosts(n, s.threads, NotEmpty, getter);
      MoveCosts(n, s.threads, Signal(s.threads, getter), t, s'.threads[t], 2);
    } else {
      MoveCosts(n, s.threads, s.threads, t, s'.threads[t], 0);
    }
  }

  lemma TakeCosts<T>(n: nat, threads: seq<Thread<T>>, t: nat, putter: int, freer: int, emptied: bool, th: Thread<T>)
    requires t < |threads| && threads[t].pc.GetHeld? && th.pc.GetLeaving?
    requires SignalOk(threads, NotFull, putter)
    requires if emptied then SignalOk(threads, ArrayEmptied, freer) else freer == -1
    ensures Sum(Cost(n), Signal(Signal(threads, freer), putter)[t := th]) < Sum(Cost(n), threads)
  {
    var threads' := Signal(threads, freer);
    if emptied {
      SignalCosts(n, threads, ArrayEmptied, freer);
      FreerSignalled(threads, ArrayEmptied, freer, putter);
    }
    SignalCosts(n, threads', NotFull, putter);
    MoveCosts(n, threads, Signal(threads', putter), t, th, 2 * n + 6);
  }

  lemma GetCosts<T>(s: State<T>, t: nat, putter: int, freer: int, s': State<T>)
    requires Next(s, GetBody(t, putter, freer), s')
    ensures Due(s') < Due(s)
  {
    var n := |s.threads|;
    match AttemptGet(s.ring) {
      case Removed(x, ring, emptied) => TakeCosts(n, s.threads, t, putter, freer, emptied, s'.threads[t]);
      case Ended =>
        if s.active - 1 == 0 {
          SignalCosts(n, s.threads, AllGettersDone, freer);
        }
        MoveCosts(n, s.threads, Signal(s.threads, freer), t, s'.threads[t], 2);
      case GetWaits => MoveCosts(n, s.threads, s.threads, t, s'.threads[t], 0);
    }
  }

  lemma FreeMoves<T>(n: nat, s: State<T>, t: nat, s': State<T>, threads: seq<Thread<T>>)
    requires Next(s, FreeBody(t), s') && threads == if s.threads[t].pc.CountHeld? then s.threads else Broadcast(s.threads)
    ensures t < |s.threads| == |s'.threads| && s'.threads == threads[t := s'.threads[t]] && threads[t] == s.threads[t]
    ensures Rank(n, s'.threads[t].pc) + (if s.threads[t].pc.CountHeld? then 0 else 2 * n) < Rank(n, s.threads[t].pc)
  {
  }

  lemma FreeCosts<T>(s: State<T>, t: nat, s': State<T>)
    requires Next(s, FreeBody(t), s')
    ensures Due(s') < Due(s)
  {
    var n := |s.threads|;
    if s.threads[t].pc.CountHeld? {
      FreeMoves(n, s, t, s', s.threads);
      MoveCosts(n, s.threads, s.threads, t, s'.threads[t], 0);
    } else {
      FreeMoves(n, s, t, s', Broadcast(s.threads));
      BroadcastCosts(n, s.threads);
      MoveCosts(n, s.threads, Broadcast(s.threads), t, s'.threads[t], 2 * n);
    }
  }

  lemma ServingCosts<T>(s: State<T>, l: Label<T>, s': State<T>)
    requires Next(s, l, s') && Serves(l)
    ensures Due(s') < Due(s)
  {
    match l {
      case PutBody(t, getter) => PutCosts(s, t, getter, s');
      case GetBody(t, putter, freer) => GetCosts(s, t, putter, freer, s');
      case FreeBody(t) => FreeCosts(s, t, s');
      case Acquire(t) => MoveCosts(|s.threads|, s.threads, s.threads, t, s'.threads[t], 0);
      case LeaveGet(t) => MoveCosts(|s.threads|, s.threads, s.threads, t, s'.threads[t], 0);
      case _ =>
    }
  }

  /** However the threads are scheduled, the steps that follow without a new call or a time-out are bounded
      by what was due when they began. */
  lemma {:induction false} ServingIsBounded<T>(states: seq<State<T>>, labels: seq<Label<T>>, i: nat)
    requires IsRun(states, labels) && i <= |labels|
    requires forall k :: i <= k < |labels| ==> Serves(labels[k])
    ensures |labels| - i + Due(states[|labels|]) <= Due(states[i])
    decreases |labels| - i
  {
    if i < |labels| {
      assert Next(states[i], labels[i], states[i + 1]);
      ServingCosts(states[i], labels[i], states[i + 1]);
      ServingIsBounded(states, labels, i + 1);
    }
  }

  /** A run without new calls and time-outs that cannot go on that way has come to rest, and nobody waits in
      vain: so every array_put and array_get that need not wait any more has returned. */
  lemma ServedAtRest<T>(states: seq<State<T>>, labels: seq<Label<T>>)
    requires IsRun(states, labels)
    requires forall l, s' :: Next(states[|labels|], l, s') ==> !Serves(l)
    ensures Resting(states[|labels|])
    ensures NobodyInVain(states[|labels|])
  {
    RunInv(states, labels, |labels|);
    if !Resting(states[|labels|]) {
      var l := SomeoneServes(states[|labels|]);
      assert Next(states[|labels|], l, Apply(states[|labels|], l));
    }
    RestIsJustified(states, labels, |labels|);
  }

  /** At rest, if no two threads call array_free at once: a thread in array_free waits for the drain only while
      there are items that nobody gets, and one that waits for the getters does so in vain. */
  lemma FreeAtRest<T>(states: seq<State<T>>, labels: seq<Label<T>>, i: nat)
    requires IsRun(states, labels) && FreesApart(states) && i < |states| && Resting(states[i])
    ensures DrainSleeper(states[i].threads) ==> !states[i].ring.IsEmpty()
    ensures CountSleeper(states[i].threads) ==> Stranded(states[i])
  {
    RunInv(states, labels, i);
    DrainWakeup(states, labels, i);
    if CountSleeper(states[i].threads) {
      CountsNobody(states[i]);
    }
  }

  lemma CountsNobody<T>(s: State<T>)
    requires WakeOk(s) && CloseOk(s) && ActiveOk(s) && Resting(s) && CountSleeper(s.threads)
    ensures s.active == 0
  {
    RestSleepers(s);
    assert s.ring.shutdown;
    forall u | 0 <= u < |s.threads| ensures IsActive(s.threads[u]) == 0 {
      assert !s.threads[u].pc.GetAsleep?;
    }
    SumZero(IsActive, s.threads);
  }
}
