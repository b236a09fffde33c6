/** Runs of two threads that show what `array_free` does not promise. */
module QueueRuns {
  import opened Ring
  import opened QueueMachine
  import opened QueueTheorems

  // ---------------------------------------------------------------------------------------------
  // One item is put, nobody gets it, and the wait for the drain ends spuriously

  function SpuriousRun<T>(x: T, k: nat): State<T> {
    var outside := Thread(Idle, [], []);
    var putter := Thread(Idle, [x], []);
    match k
    case 0 => State(Ring([x, x], 0, 0, false), 0, -1, [outside, outside], [], [], false, false)
    case 1 => State(Ring([x, x], 0, 0, false), 0, -1, [Thread(PutWant(x), [], []), outside], [], [], false, false)
    case 2 => State(Ring([x, x], 0, 0, false), 0, 0, [Thread(PutHeld(x), [], []), outside], [], [], false, false)
    case 3 => State(Ring([x, x], 0, 1, false), 0, -1, [putter, outside], [(0, x)], [], false, false)
    case 4 => State(Ring([x, x], 0, 1, false), 0, -1, [putter, Thread(FreeWant, [], [])], [(0, x)], [], false, false)
    case 5 => State(Ring([x, x], 0, 1, false), 0, 1, [putter, Thread(FreeHeld, [], [])], [(0, x)], [], false, false)
    case 6 => State(Ring([x, x], 0, 1, true), 0, -1, [putter, Thread(DrainAsleep, [], [])], [(0, x)], [], false, false)
    case 7 => State(Ring([x, x], 0, 1, true), 0, -1, [putter, Thread(DrainWant(true), [], [])], [(0, x)], [], false, true)
    case 8 => State(Ring([x, x], 0, 1, true), 0, 1, [putter, Thread(DrainHeld(true), [], [])], [(0, x)], [], false, true)
    case _ => State(Ring([x, x], 0, 1, true), 0, -1, [putter, outside], [(0, x)], [], false, true)
  }

  function SpuriousLabel<T>(x: T, k: nat): Label<T> {
    match k
    case 0 => CallPut(0, x)
    case 1 => Acquire(0)
    case 2 => PutBody(0, -1)
    case 3 => CallFree(1)
    case 4 => Acquire(1)
    case 5 => FreeBody(1)
    case 6 => Wake(1, true)
    case 7 => Acquire(1)
    case _ => FreeBody(1)
  }

  lemma SpuriousPut<T>(x: T)
    ensures Next(SpuriousRun(x, 2), PutBody(0, -1), SpuriousRun(x, 3))
  {
    var s, s' := SpuriousRun(x, 2), SpuriousRun(x, 3);
    assert [x, x][0 := x] == [x, x];
    assert AttemptPut(s.ring, x) == Stored(s'.ring);
    var threads := s.threads[0 := s.threads[0].(pc := Idle, sent := s.threads[0].sent + [x])];
    assert threads[0].sent == [x];
    assert threads == s'.threads;
  }

  lemma SpuriousNext<T>(x: T, k: nat)
    requires k < 9
    ensures Next(SpuriousRun(x, k), SpuriousLabel(x, k), SpuriousRun(x, k + 1))
  {
    if k == 2 {
      SpuriousPut(x);
    }
  }

  /** A wait for `array_emptied` that returns 0 without a signal lets array_free return with an item still
      queued, so the proviso of DrainIsComplete is needed. */
  lemma SpuriousDrain<T>(x: T) returns (states: seq<State<T>>, labels: seq<Label<T>>)
    ensures IsRun(states, labels)
    ensures |labels| == 9 && labels[8] == FreeBody(1)
    ensures |states[9].threads| == 2 && states[9].threads[1].pc.Idle?
    ensures states[9].ring.shutdown && !states[9].ring.IsEmpty()
  {
    labels := seq(9, k requires 0 <= k < 9 => SpuriousLabel(x, k));
    states := seq(10, k requires 0 <= k < 10 => SpuriousRun(x, k));
    forall i | 0 <= i < |labels| ensures Next(states[i], labels[i], states[i + 1]) {
      SpuriousNext(x, i);
    }
  }

  // ---------------------------------------------------------------------------------------------
  // A getter has taken the last item but is still counted when array_free starts to wait for it

  function StrandedRun<T>(x: T, k: nat): State<T> {
    var outside := Thread(Idle, [], []);
    var putter := Thread(Idle, [x], []);
    var leaving := Thread(GetLeaving, [x], [x]);
    match k
    case 0 => State(Ring([x, x], 0, 0, false), 0, -1, [outside, outside], [], [], false, false)
    case 1 => State(Ring([x, x], 0, 0, false), 0, -1, [Thread(PutWant(x), [], []), outside], [], [], false, false)
    case 2 => State(Ring([x, x], 0, 0, false), 0, 0, [Thread(PutHeld(x), [], []), outside], [], [], false, false)
    case 3 => State(Ring([x, x], 0, 1, false), 0, -1, [putter, outside], [(0, x)], [], false, false)
    case 4 => State(Ring([x, x], 0, 1, false), 1, -1, [Thread(GetWant, [x], []), outside], [(0, x)], [], false, false)
    case 5 => State(Ring([x, x], 0, 1, false), 1, 0, [Thread(GetHeld, [x], []), outside], [(0, x)], [], false, false)
    case 6 => State(Ring([x, x], 1, 1, false), 1, -1, [leaving, outside], [(0, x)], [(0, x)], false, false)
    case 7 =>
      State(Ring([x, x], 1, 1, false), 1, -1, [leaving, Thread(FreeWant, [], [])], [(0, x)], [(0, x)], false, false)
    case 8 =>
      State(Ring([x, x], 1, 1, false), 1, 1, [leaving, Thread(FreeHeld, [], [])], [(0, x)], [(0, x)], false, false)
    case 9 =>
      State(Ring([x, x], 1, 1, true), 1, -1, [leaving, Thread(CountAsleep, [], [])], [(0, x)], [(0, x)], false, false)
    case _ =>
      State(Ring([x, x], 1, 1, true), 0, -1, [Thread(Idle, [x], [x]), Thread(CountAsleep, [], [])],
            [(0, x)], [(0, x)], false, false)
  }

  function StrandedLabel<T>(x: T, k: nat): Label<T> {
    match k
    case 0 => CallPut(0, x)
    case 1 => Acquire(0)
    case 2 => PutBody(0, -1)
    case 3 => CallGet(0)
    case 4 => Acquire(0)
    case 5 => GetBody(0, -1, -1)
    case 6 => CallFree(1)
    case 7 => Acquire(1)
    case 8 => FreeBody(1)
    case _ => LeaveGet(0)
  }

  lemma StrandedNext<T>(x: T, k: nat)
    requires k < 10
    ensures Next(StrandedRun(x, k), StrandedLabel(x, k), StrandedRun(x, k + 1))
  {
    if k == 2 {
      SpuriousPut(x);
    } else if k == 5 {
      StrandedGet(x);
    }
  }

  lemma StrandedGet<T>(x: T)
    ensures Next(StrandedRun(x, 5), GetBody(0, -1, -1), StrandedRun(x, 6))
  {
    var s, s' := StrandedRun(x, 5), StrandedRun(x, 6);
    assert AttemptGet(s.ring) == Removed(x, s'.ring, true);
    assert s.threads[0].got + [x] == [x];
  }

  /** The wake-up that array_free waits for can be lost: a successful array_get leaves the count without a
      signal (array.c:120). Here nobody is inside array_get any more, the lock is free, and array_free sleeps
      on `all_getters_done`; unless somebody calls again, only a time-out gets it out. */
  lemma StrandedFree<T>(x: T) returns (states: seq<State<T>>, labels: seq<Label<T>>)
    ensures IsRun(states, labels)
    ensures |labels| == 10 && labels[9] == LeaveGet(0) && !states[10].spurious
    ensures forall k :: 0 <= k < |labels| ==> !labels[k].Wake?
    ensures states[10].holder == -1 && states[10].active == 0
    ensures |states[10].threads| == 2 && states[10].threads[1].pc.CountAsleep?
    ensures forall l :: Enabled(states[10], l) ==> l.Wake? || l.CallPut? || l.CallGet? || l.CallFree?
  {
    labels := seq(10, k requires 0 <= k < 10 => StrandedLabel(x, k));
    states := seq(11, k requires 0 <= k < 11 => StrandedRun(x, k));
    forall i | 0 <= i < |labels| ensures Next(states[i], labels[i], states[i + 1]) {
      StrandedNext(x, i);
    }
  }

  // ---------------------------------------------------------------------------------------------
  // The last getter leaves and signals, and the next one enters before array_free has the lock back

  function LateRun<T>(x: T, k: nat): State<T> {
    var outside := Thread(Idle, [], []);
    var getter := (pc: Pc<T>) => Thread(pc, [], []);
    var r, closed := Ring([x, x], 0, 0, false), Ring([x, x], 0, 0, true);
    match k
    case 0 => State(r, 0, -1, [outside, outside], [], [], false, false)
    case 1 => State(r, 1, -1, [getter(GetWant), outside], [], [], false, false)
    case 2 => State(r, 1, 0, [getter(GetHeld), outside], [], [], false, false)
    case 3 => State(r, 1, -1, [getter(GetAsleep), outside], [], [], false, false)
    case 4 => State(r, 1, -1, [getter(GetAsleep), getter(FreeWant)], [], [], false, false)
    case 5 => State(r, 1, 1, [getter(GetAsleep), getter(FreeHeld)], [], [], false, false)
    case 6 => State(closed, 1, -1, [getter(GetNotified), getter(CountAsleep)], [], [], false, false)
    case 7 => State(closed, 1, 0, [getter(GetHeld), getter(CountAsleep)], [], [], false, false)
    case 8 => State(closed, 0, -1, [outside, getter(CountWant(true))], [], [], true, false)
    case 9 => State(closed, 1, -1, [getter(GetWant), getter(CountWant(true))], [], [], true, false)
    case 10 => State(closed, 1, 1, [getter(GetWant), getter(CountHeld(true))], [], [], true, false)
    case _ => State(closed, 1, -1, [getter(GetWant), outside], [], [], true, false)
  }

  function LateLabel<T>(k: nat): Label<T> {
    match k
    case 0 => CallGet(0)
    case 1 => Acquire(0)
    case 2 => GetBody(0, -1, -1)
    case 3 => CallFree(1)
    case 4 => Acquire(1)
    case 5 => FreeBody(1)
    case 6 => Acquire(0)
    case 7 => GetBody(0, -1, 1)
    case 8 => CallGet(0)
    case 9 => Acquire(1)
    case _ => FreeBody(1)
  }

  lemma LateStart<T>(x: T, k: nat)
    requires k < 5
    ensures Next(LateRun(x, k), LateLabel(k), LateRun(x, k + 1))
  {
  }

  lemma LateWakes<T>(x: T, k: nat)
    requires k == 5 || k == 7
    ensures Next(LateRun(x, k), LateLabel(k), LateRun(x, k + 1))
  {
  }

  lemma LateEnd<T>(x: T, k: nat)
    requires k == 6 || 8 <= k < 11
    ensures Next(LateRun(x, k), LateLabel(k), LateRun(x, k + 1))
  {
  }

  lemma LateNext<T>(x: T, k: nat)
    requires k < 11
    ensures Next(LateRun(x, k), LateLabel(k), LateRun(x, k + 1))
  {
    if k < 5 {
      LateStart(x, k);
    } else if k == 5 || k == 7 {
      LateWakes(x, k);
    } else {
      LateEnd(x, k);
    }
  }

  /** array_free can return with a getter inside, without any time-out or spurious wake-up: the signal it
      acts on does not make it look at the count again (array.c:162-164). */
  lemma LateGetter<T>(x: T) returns (states: seq<State<T>>, labels: seq<Label<T>>)
    ensures IsRun(states, labels)
    ensures |labels| == 11 && labels[10] == FreeBody(1) && !states[11].spurious
    ensures forall k :: 0 <= k < |labels| ==> !labels[k].Wake?
    ensures |states[11].threads| == 2 && states[11].threads[1].pc.Idle? && !NoGetter(states[11].threads)
  {
    labels := seq(11, k requires 0 <= k < 11 => LateLabel(k));
    states := seq(12, k requires 0 <= k < 12 => LateRun(x, k));
    forall i | 0 <= i < |labels| ensures Next(states[i], labels[i], states[i + 1]) {
      LateNext(x, i);
    }
    assert states[11].threads[0].pc.GetWant?;
  }
}
