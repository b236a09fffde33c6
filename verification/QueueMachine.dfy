/** `array.c` under any number of threads: a step relation with program counters. A thread that
    calls array_put, array_get or array_free asks for the lock, runs one lock-held stretch, and
    either returns or waits on a condition variable; a waiter is notified, times out or wakes
    spuriously, asks for the lock again and repeats the stretch. `active_getters` is changed outside
    the lock where the code does so. */
module QueueMachine {
  import opened Fifo
  import opened Ring

  datatype Pc<T> =
    | Idle
    // array_put
    | PutWant(x: T)      // wants the lock (line 30, or after a wait that was not notified)
    | PutHeld(x: T)      // has the lock (lines 33-57)
    | PutAsleep(x: T)    // waits on not_full (line 43)
    | PutNotified(x: T)  // was notified on not_full, wants the lock
    // array_get
    | GetWant            // counted in active_getters, wants the lock (line 68)
    | GetHeld            // has the lock (lines 71-117)
    | GetAsleep          // waits on not_empty (line 75)
    | GetNotified        // was notified on not_empty, wants the lock
    | GetLeaving         // released the lock with an item, still counted (line 120)
    // array_free; `ok` is whether the timed wait returned 0
    | FreeWant
    | FreeHeld           // lines 129-156
    | DrainAsleep        // waits on array_emptied (line 144)
    | DrainWant(ok: bool)
    | DrainHeld(ok: bool)
    | CountAsleep        // waits on all_getters_done (line 161)
    | CountWant(ok: bool)
    | CountHeld(ok: bool)

  /** A thread, with the items its own array_put and array_get calls succeeded with, in order. */
  datatype Thread<T> = Thread(pc: Pc<T>, sent: seq<T>, got: seq<T>)

  datatype State<T> = State(
    ring: Ring<T>,
    active: int,               // active_getters
    holder: int,               // the thread that has the lock, or -1
    threads: seq<Thread<T>>,
    // history
    puts: seq<(nat, T)>,       // every accepted item with the thread that put it
    gets: seq<(nat, T)>,       // every delivered item with the thread that got it
    told: bool,                // some array_get has returned ARRAY_SHUTDOWN
    spurious: bool             // some wait for array_emptied returned 0 without a signal
  )

  /** Steps of thread `t`. The other parameters resolve choices the threads library makes: whom a
      signal wakes (-1 for nobody), and whether a wait that nobody signalled returns 0. */
  datatype Label<T> =
    | CallPut(t: nat, x: T)
    | CallGet(t: nat)
    | CallFree(t: nat)
    | Acquire(t: nat)
    | PutBody(t: nat, getter: int)
    | GetBody(t: nat, putter: int, freer: int)
    | LeaveGet(t: nat)
    | FreeBody(t: nat)
    | Wake(t: nat, ok: bool)

  predicate AsleepOn<T>(cv: CondVar, pc: Pc<T>) {
    match cv
    case NotEmpty => pc.GetAsleep?
    case NotFull => pc.PutAsleep?
    case ArrayEmptied => pc.DrainAsleep?
    case AllGettersDone => pc.CountAsleep?
  }

  predicate Asleep<T>(pc: Pc<T>) {
    pc.GetAsleep? || pc.PutAsleep? || pc.DrainAsleep? || pc.CountAsleep?
  }

  predicate WantsLock<T>(pc: Pc<T>) {
    || pc.PutWant? || pc.PutNotified? || pc.GetWant? || pc.GetNotified?
    || pc.FreeWant? || pc.DrainWant? || pc.CountWant?
  }

  predicate HasLock<T>(pc: Pc<T>) {
    pc.PutHeld? || pc.GetHeld? || pc.FreeHeld? || pc.DrainHeld? || pc.CountHeld?
  }

  function WithLock<T>(pc: Pc<T>): Pc<T>
    requires WantsLock(pc)
  {
    match pc
    case PutWant(x) => PutHeld(x)
    case PutNotified(x) => PutHeld(x)
    case GetWant => GetHeld
    case GetNotified => GetHeld
    case FreeWant => FreeHeld
    case DrainWant(ok) => DrainHeld(ok)
    case CountWant(ok) => CountHeld(ok)
  }

  function Notified<T>(pc: Pc<T>): Pc<T> {
    match pc
    case PutAsleep(x) => PutNotified(x)
    case GetAsleep => GetNotified
    case DrainAsleep => DrainWant(true)
    case CountAsleep => CountWant(true)
    case _ => pc
  }

  /** A wait that ends without a notification: on a time-out, or spuriously. */
  function Woken<T>(pc: Pc<T>, ok: bool): Pc<T>
    requires Asleep(pc)
  {
    match pc
    case PutAsleep(x) => PutWant(x)
    case GetAsleep => GetWant
    case DrainAsleep => DrainWant(ok)
    case CountAsleep => CountWant(ok)
  }

  function At<T>(threads: seq<Thread<T>>, t: nat, pc: Pc<T>): seq<Thread<T>>
    requires t < |threads|
  {
    threads[t := threads[t].(pc := pc)]
  }

  /** pthread_cond_signal wakes one waiter if there is one. */
  ghost predicate SignalOk<T>(threads: seq<Thread<T>>, cv: CondVar, w: int) {
    if w == -1 then forall i :: 0 <= i < |threads| ==> !AsleepOn(cv, threads[i].pc)
    else 0 <= w < |threads| && AsleepOn(cv, threads[w].pc)
  }

  function Signal<T>(threads: seq<Thread<T>>, w: int): seq<Thread<T>> {
    if 0 <= w < |threads| then At(threads, w, Notified(threads[w].pc)) else threads
  }

  /** pthread_cond_broadcast on not_empty and on not_full. */
  function Broadcast<T>(threads: seq<Thread<T>>): (r: seq<Thread<T>>)
    ensures |r| == |threads|
    ensures forall i :: 0 <= i < |r| ==>
      r[i] == if threads[i].pc.GetAsleep? || threads[i].pc.PutAsleep?
              then threads[i].(pc := Notified(threads[i].pc)) else threads[i]
  {
    seq(|threads|, i requires 0 <= i < |threads| =>
      if threads[i].pc.GetAsleep? || threads[i].pc.PutAsleep?
      then threads[i].(pc := Notified(threads[i].pc)) else threads[i])
  }

  ghost predicate Enabled<T>(s: State<T>, l: Label<T>)
    requires s.ring.Valid()
  {
    l.t < |s.threads| &&
    var pc := s.threads[l.t].pc;
    match l
    case CallPut(t, x) => pc.Idle?
    case CallGet(t) => pc.Idle?
    case CallFree(t) => pc.Idle?
    case Acquire(t) => WantsLock(pc) && s.holder == -1
    case PutBody(t, getter) =>
      pc.PutHeld? && if AttemptPut(s.ring, pc.x).Stored? then SignalOk(s.threads, NotEmpty, getter) else getter == -1
    case GetBody(t, putter, freer) =>
      pc.GetHeld? && (
        match AttemptGet(s.ring)
        case Removed(_, _, emptied) =>
          && SignalOk(s.threads, NotFull, putter)
          && if emptied then SignalOk(s.threads, ArrayEmptied, freer) else freer == -1
        case Ended =>
          && putter == -1
          && if s.active - 1 == 0 then SignalOk(s.threads, AllGettersDone, freer) else freer == -1
        case GetWaits => putter == -1 && freer == -1)
    case LeaveGet(t) => pc.GetLeaving?
    case FreeBody(t) => pc.FreeHeld? || pc.DrainHeld? || pc.CountHeld?
    case Wake(t, ok) => Asleep(pc)
  }

  /** array.c:151-167, once the drain is over: wake everybody, then test the count of getters. */
  function GetterTest<T>(s: State<T>, t: nat, threads: seq<Thread<T>>): State<T>
    requires t < |threads|
  {
    s.(holder := -1, threads := At(threads, t, if s.active > 0 then CountAsleep else Idle))
  }

  function FreeStep<T>(s: State<T>, t: nat): State<T>
    requires t < |s.threads|
  {
    match s.threads[t].pc
    case FreeHeld =>
      var s1 := s.(ring := s.ring.(shutdown := true));
      if s.ring.IsEmpty() then GetterTest(s1, t, Broadcast(s.threads))
      else s1.(holder := -1, threads := At(Broadcast(s.threads), t, DrainAsleep))
    case DrainHeld(ok) =>
      if ok || s.ring.IsEmpty() then GetterTest(s, t, Broadcast(s.threads))
      else s.(holder := -1, threads := At(Broadcast(s.threads), t, DrainAsleep))
    case CountHeld(ok) =>
      if ok then s.(holder := -1, threads := At(s.threads, t, Idle))
      else GetterTest(s, t, s.threads)
    case _ => s
  }

  function PutStep<T>(s: State<T>, t: nat, x: T, getter: int): State<T>
    requires s.ring.Valid() && t < |s.threads|
  {
    match AttemptPut(s.ring, x)
    case Refused => s.(holder := -1, threads := At(s.threads, t, Idle))
    case PutWaits => s.(holder := -1, threads := At(s.threads, t, PutAsleep(x)))
    case Stored(ring) =>
      s.(ring := ring, holder := -1, puts := s.puts + [(t, x)],
         threads := Signal(s.threads, getter)[t := s.threads[t].(pc := Idle, sent := s.threads[t].sent + [x])])
  }

  function GetStep<T>(s: State<T>, t: nat, putter: int, freer: int): State<T>
    requires s.ring.Valid() && t < |s.threads|
  {
    match AttemptGet(s.ring)
    case GetWaits => s.(holder := -1, threads := At(s.threads, t, GetAsleep))
    case Ended =>
      s.(holder := -1, active := s.active - 1, told := true, threads := At(Signal(s.threads, freer), t, Idle))
    case Removed(x, ring, emptied) =>
      s.(ring := ring, holder := -1, gets := s.gets + [(t, x)],
         threads := Signal(Signal(s.threads, freer), putter)
           [t := s.threads[t].(pc := GetLeaving, got := s.threads[t].got + [x])])
  }

  ghost function Apply<T>(s: State<T>, l: Label<T>): State<T>
    requires s.ring.Valid() && Enabled(s, l)
  {
    var pc := s.threads[l.t].pc;
    match l
    case CallPut(t, x) => s.(threads := At(s.threads, t, PutWant(x)))
    case CallGet(t) => s.(active := s.active + 1, threads := At(s.threads, t, GetWant))
    case CallFree(t) => s.(threads := At(s.threads, t, FreeWant))
    case Acquire(t) => s.(holder := t, threads := At(s.threads, t, WithLock(pc)))
    case PutBody(t, getter) => PutStep(s, t, pc.x, getter)
    case GetBody(t, putter, freer) => GetStep(s, t, putter, freer)
    case LeaveGet(t) => s.(active := s.active - 1, threads := At(s.threads, t, Idle))
    case FreeBody(t) => FreeStep(s, t)
    case Wake(t, ok) =>
      s.(threads := At(s.threads, t, Woken(pc, ok)), spurious := s.spurious || (pc.DrainAsleep? && ok))
  }

  ghost predicate Next<T>(s: State<T>, l: Label<T>, s': State<T>) {
    s.ring.Valid() && Enabled(s, l) && s' == Apply(s, l)
  }

  /** After array_init, with every thread outside the queue. */
  ghost predicate Init<T>(s: State<T>) {
    && |s.ring.slots| >= 2
    && s.ring.head == s.ring.tail == 0 && !s.ring.shutdown
    && s.active == 0 && s.holder == -1
    && (forall t :: 0 <= t < |s.threads| ==> s.threads[t] == Thread(Idle, [], []))
    && s.puts == [] && s.gets == [] && !s.told && !s.spurious
  }

  ghost predicate IsRun<T>(states: seq<State<T>>, labels: seq<Label<T>>) {
    && |states| == |labels| + 1
    && Init(states[0])
    && forall i :: 0 <= i < |labels| ==> Next(states[i], labels[i], states[i + 1])
  }

  /** What the caller of array_put, array_get or array_free observes of a step. */
  ghost function EventOf<T>(s: State<T>, l: Label<T>): Event<T>
    requires s.ring.Valid() && Enabled(s, l)
  {
    match l
    case PutBody(t, _) =>
      (match AttemptPut(s.ring, s.threads[t].pc.x)
       case Stored(_) => Accept(s.threads[t].pc.x)
       case PutWaits => Silent
       case Refused => Refuse)
    case GetBody(_, _, _) =>
      (match AttemptGet(s.ring)
       case Removed(x, _, _) => Deliver(x)
       case GetWaits => Silent
       case Ended => EndOfQueue)
    case FreeBody(t) => if s.threads[t].pc.FreeHeld? then Closing else Silent
    case _ => Silent
  }

  function Items<T>(log: seq<(nat, T)>): (r: seq<T>)
    ensures |r| == |log|
    ensures forall i :: 0 <= i < |r| ==> r[i] == log[i].1
  {
    seq(|log|, i requires 0 <= i < |log| => log[i].1)
  }

  /** The entries of thread `t`, in order. */
  function Of<T>(log: seq<(nat, T)>, t: nat): seq<T> {
    if log == [] then []
    else
      var last := log[|log| - 1];
      Of(log[..|log| - 1], t) + if last.0 == t then [last.1] else []
  }

  /** The abstract queue a state of the machine stands for. */
  function Abstract<T>(s: State<T>): Fifo<T> {
    Fifo(Items(s.puts), |s.gets|, s.ring.shutdown)
  }
}
