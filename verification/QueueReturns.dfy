/** From call to return: each call of array_put or array_get takes effect on the queue in one step of its own,
    between the two, and returns only then; its waits and time-outs take no effect. */
module QueueReturns {
  import opened Fifo
  import opened QueueMachine
  import opened QueueFreers
  import QueueWaits

  /** In array_put, which was called with `pc.x`. */
  predicate InPut<T>(pc: Pc<T>) {
    pc.PutWant? || pc.PutHeld? || pc.PutAsleep? || pc.PutNotified?
  }

  /** In array_get, with no result yet. */
  predicate InGet<T>(pc: Pc<T>) {
    pc.GetWant? || pc.GetHeld? || pc.GetAsleep? || pc.GetNotified?
  }

  /** The same call: nothing but its progress within it has changed. */
  predicate SameCall<T(==)>(th: Thread<T>, th': Thread<T>) {
    && th'.sent == th.sent && th'.got == th.got
    && (InPut(th.pc) ==> InPut(th'.pc) && th'.pc.x == th.pc.x)
    && (InGet(th.pc) ==> InGet(th'.pc))
    && (InFree(th.pc) ==> InFree(th'.pc))
    && (th.pc.GetLeaving? ==> th'.pc.GetLeaving?)
    && (th.pc.Idle? ==> th'.pc.Idle?)
  }

  // ---------------------------------------------------------------------------------------------
  // Steps

  lemma SignalSameCall<T>(threads: seq<Thread<T>>, w: int, t: nat)
    requires t < |threads|
    ensures |Signal(threads, w)| == |threads| && SameCall(threads[t], Signal(threads, w)[t])
  {
  }

  /** A step leaves the other threads in the calls they are in, without effect on what those return. */
  lemma OthersSameCall<T>(s: State<T>, l: Label<T>, s': State<T>, t: nat)
    requires Next(s, l, s') && t < |s.threads| && t != l.t
    ensures |s'.threads| == |s.threads| && SameCall(s.threads[t], s'.threads[t])
  {
    match l {
      case PutBody(u, getter) => SignalSameCall(s.threads, getter, t);
      case GetBody(u, putter, freer) =>
        SignalSameCall(s.threads, freer, t);
        SignalSameCall(Signal(s.threads, freer), putter, t);
      case FreeBody(u) => FreeSameCall(s, u, s', t);
      case _ =>
    }
  }

  lemma FreeSameCall<T>(s: State<T>, u: nat, s': State<T>, t: nat)
    requires s.ring.Valid() && Enabled(s, FreeBody(u)) && s' == FreeStep(s, u) && t < |s.threads|
    ensures |s'.threads| == |s.threads|
    ensures t != u ==> SameCall(s.threads[t], s'.threads[t])
    ensures t == u ==> s'.threads[t] == s.threads[t].(pc := Idle) || SameCall(s.threads[t], s'.threads[t])
  {
    QueueWaits.FreeSleeps(s, u, s');
    if t == u {
      FreerSame(s, u, s');
    }
  }

  lemma FreerSame<T>(s: State<T>, u: nat, s': State<T>)
    requires s.ring.Valid() && Enabled(s, FreeBody(u)) && s' == FreeStep(s, u) && |s'.threads| == |s.threads|
    ensures s'.threads[u] == s.threads[u].(pc := Idle) || SameCall(s.threads[u], s'.threads[u])
  {
  }

  /** An own lock-held stretch of array_put: what the call has come to is the event. */
  lemma PutResult<T>(s: State<T>, t: nat, getter: int, s': State<T>)
    requires Next(s, PutBody(t, getter), s')
    ensures |s'.threads| == |s.threads|
    ensures match EventOf(s, PutBody(t, getter))
            case Accept(y) =>
              y == s.threads[t].pc.x && s'.threads[t] == Thread(Idle, s.threads[t].sent + [y], s.threads[t].got)
            case Refuse => s'.threads[t] == s.threads[t].(pc := Idle)
            case Silent => SameCall(s.threads[t], s'.threads[t])
            case _ => false
  {
  }

  lemma GetResult<T>(s: State<T>, t: nat, putter: int, freer: int, s': State<T>)
    requires Next(s, GetBody(t, putter, freer), s')
    ensures |s'.threads| == |s.threads|
    ensures match EventOf(s, GetBody(t, putter, freer))
            case Deliver(y) => s'.threads[t] == Thread(GetLeaving, s.threads[t].sent, s.threads[t].got + [y])
            case EndOfQueue => s'.threads[t] == s.threads[t].(pc := Idle)
            case Silent => SameCall(s.threads[t], s'.threads[t])
            case _ => false
  {
    SignalSameCall(s.threads, freer, t);
  }

  /** Taking the lock and waking up are no results. */
  lemma NoResult<T>(s: State<T>, l: Label<T>, s': State<T>)
    requires Next(s, l, s') && (l.Acquire? || l.Wake?)
    ensures |s'.threads| == |s.threads| && SameCall(s.threads[l.t], s'.threads[l.t]) && EventOf(s, l) == Silent
  {
  }

  /** What thread `t` does in its own step `l`, which takes effect on the queue as event `e`. */
  predicate OwnStep<T(==)>(th: Thread<T>, l: Label<T>, e: Event<T>, th': Thread<T>) {
    match l
    case CallPut(_, x) => th.pc.Idle? && e == Silent && th' == th.(pc := PutWant(x))
    case CallGet(_) => th.pc.Idle? && e == Silent && th' == th.(pc := GetWant)
    case CallFree(_) => th.pc.Idle? && e == Silent && th' == th.(pc := FreeWant)
    case PutBody(_, _) => InPut(th.pc) && (
      match e
      case Accept(x) => x == th.pc.x && th' == Thread(Idle, th.sent + [x], th.got)
      case Refuse => th' == th.(pc := Idle)
      case Silent => SameCall(th, th')
      case _ => false)
    case GetBody(_, _, _) => InGet(th.pc) && (
      match e
      case Deliver(x) => th' == Thread(GetLeaving, th.sent, th.got + [x])
      case EndOfQueue => th' == th.(pc := Idle)
      case Silent => SameCall(th, th')
      case _ => false)
    case LeaveGet(_) => th.pc.GetLeaving? && e == Silent && th' == th.(pc := Idle)
    case FreeBody(_) =>
      InFree(th.pc) && e == (if th.pc.FreeHeld? then Closing else Silent) && (th' == th.(pc := Idle) || SameCall(th, th'))
    case _ => e == Silent && SameCall(th, th')
  }

  /** Step `l` with event `e`, as thread `t` sees it. */
  predicate CallStep<T(==)>(threads: seq<Thread<T>>, l: Label<T>, e: Event<T>, threads': seq<Thread<T>>, t: nat) {
    && |threads'| == |threads|
    && (t < |threads| ==> if l.t == t then OwnStep(threads[t], l, e, threads'[t]) else SameCall(threads[t], threads'[t]))
  }

  lemma CallMoves<T>(s: State<T>, l: Label<T>, s': State<T>)
    requires Next(s, l, s') && (l.CallPut? || l.CallGet? || l.CallFree? || l.LeaveGet?)
    ensures |s'.threads| == |s.threads| && OwnStep(s.threads[l.t], l, EventOf(s, l), s'.threads[l.t])
  {
  }

  lemma FreeResult<T>(s: State<T>, t: nat, s': State<T>)
    requires Next(s, FreeBody(t), s')
    ensures |s'.threads| == |s.threads| && OwnStep(s.threads[t], FreeBody(t), EventOf(s, FreeBody(t)), s'.threads[t])
  {
    FreeSameCall(s, t, s', t);
  }

  /** Every step of the machine is, for each thread, a step of its call with the event that FifoRefinement takes on
      the abstract queue. */
  lemma EachCallSteps<T>(s: State<T>, l: Label<T>, s': State<T>, t: nat)
    requires Next(s, l, s')
    ensures CallStep(s.threads, l, EventOf(s, l), s'.threads, t)
  {
    if t < |s.threads| && t != l.t {
      OthersSameCall(s, l, s', t);
    } else {
      OwnMoves(s, l, s');
    }
  }

  lemma OwnMoves<T>(s: State<T>, l: Label<T>, s': State<T>)
    requires Next(s, l, s')
    ensures |s'.threads| == |s.threads| && OwnStep(s.threads[l.t], l, EventOf(s, l), s'.threads[l.t])
  {
    match l {
      case PutBody(t, getter) => PutResult(s, t, getter, s');
      case GetBody(t, putter, freer) => GetResult(s, t, putter, freer, s');
      case FreeBody(t) => FreeResult(s, t, s');
      case Acquire(_) => NoResult(s, l, s');
      case Wake(_, _) => NoResult(s, l, s');
      case _ => CallMoves(s, l, s');
    }
  }

  // ---------------------------------------------------------------------------------------------
  // Calls

  ghost function EventAt<T>(states: seq<State<T>>, labels: seq<Label<T>>, k: nat): (e: Event<T>)
    requires IsRun(states, labels) && k < |labels|
    ensures Happens(states[k], labels[k], e)
  {
    assert Next(states[k], labels[k], states[k + 1]);
    EventOf(states[k], labels[k])
  }

  ghost predicate Happens<T>(s: State<T>, l: Label<T>, e: Event<T>) {
    s.ring.Valid() && Enabled(s, l) && e == EventOf(s, l)
  }

  /** The events of a run, one for each step. */
  ghost function Events<T>(states: seq<State<T>>, labels: seq<Label<T>>): (events: seq<Event<T>>)
    requires IsRun(states, labels)
    ensures |events| == |labels|
    ensures forall k :: 0 <= k < |labels| ==> Happens(states[k], labels[k], events[k])
  {
    seq(|labels|, k requires 0 <= k < |labels| => EventAt(states, labels, k))
  }

  ghost predicate IsTrace<T>(states: seq<State<T>>, labels: seq<Label<T>>, events: seq<Event<T>>, t: nat) {
    && |states| == |labels| + 1 && |events| == |labels|
    && forall k :: 0 <= k < |labels| ==> CallStep(states[k].threads, labels[k], events[k], states[k + 1].threads, t)
  }

  lemma RunIsTrace<T>(states: seq<State<T>>, labels: seq<Label<T>>, t: nat)
    requires IsRun(states, labels)
    ensures IsTrace(states, labels, Events(states, labels), t)
  {
    var events := Events(states, labels);
    forall k | 0 <= k < |labels| ensures CallStep(states[k].threads, labels[k], events[k], states[k + 1].threads, t) {
      EachCallSteps(states[k], labels[k], states[k + 1], t);
    }
  }

  /** Thread `t` calls array_put, array_get or array_free in step `i` and is back outside in state `j`, not before. */
  ghost predicate IsCall<T>(states: seq<State<T>>, labels: seq<Label<T>>, i: nat, j: nat, t: nat) {
    && |states| == |labels| + 1 && i < j <= |labels| && labels[i].t == t && t < |states[i].threads|
    && (labels[i].CallPut? || labels[i].CallGet? || labels[i].CallFree?)
    && t < |states[j].threads| && states[j].threads[t].pc.Idle?
    && forall m :: i < m < j ==> t < |states[m].threads| && !states[m].threads[t].pc.Idle?
  }

  /** Nothing that thread `t` does from step `i` to before step `k` has an effect on the queue. */
  ghost predicate NoEffect<T>(labels: seq<Label<T>>, events: seq<Event<T>>, t: nat, i: nat, k: nat) {
    k <= |labels| == |events| && forall m :: i <= m < k && labels[m].t == t ==> events[m] == Silent
  }

  lemma {:induction false} PutPending<T>(states: seq<State<T>>, labels: seq<Label<T>>, events: seq<Event<T>>,
                                         i: nat, j: nat, k: nat, t: nat)
    requires IsTrace(states, labels, events, t) && IsCall(states, labels, i, j, t) && labels[i].CallPut? && i < k < j
    ensures t < |states[k].threads| && InPut(states[k].threads[t].pc) && states[k].threads[t].pc.x == labels[i].x
    ensures states[k].threads[t].sent == states[i].threads[t].sent && states[k].threads[t].got == states[i].threads[t].got
    ensures NoEffect(labels, events, t, i, k)
  {
    assert CallStep(states[k - 1].threads, labels[k - 1], events[k - 1], states[k - 1 + 1].threads, t);
    if i < k - 1 {
      PutPending(states, labels, events, i, j, k - 1, t);
    }
  }

  lemma {:induction false} GetPending<T>(states: seq<State<T>>, labels: seq<Label<T>>, events: seq<Event<T>>,
                                         i: nat, j: nat, k: nat, t: nat) returns (taken: nat)
    requires IsTrace(states, labels, events, t) && IsCall(states, labels, i, j, t) && labels[i].CallGet? && i < k < j
    ensures t < |states[k].threads| && states[k].threads[t].sent == states[i].threads[t].sent
    ensures InGet(states[k].threads[t].pc) || states[k].threads[t].pc.GetLeaving?
    ensures InGet(states[k].threads[t].pc) ==>
      states[k].threads[t].got == states[i].threads[t].got && NoEffect(labels, events, t, i, k)
    ensures states[k].threads[t].pc.GetLeaving? ==>
      && i < taken < k && labels[taken].t == t && events[taken].Deliver?
      && states[k].threads[t].got == states[i].threads[t].got + [events[taken].x]
      && NoEffect(labels, events, t, i, taken) && NoEffect(labels, events, t, taken + 1, k)
  {
    assert CallStep(states[k - 1].threads, labels[k - 1], events[k - 1], states[k - 1 + 1].threads, t);
    taken := 0;
    if i < k - 1 {
      taken := GetPending(states, labels, events, i, j, k - 1, t);
      if InGet(states[k - 1].threads[t].pc) && states[k].threads[t].pc.GetLeaving? {
        taken := k - 1;
      }
    }
  }

  /** What a call of array_put from step `i` to state `j` has come to. */
  ghost predicate PutEffect<T>(states: seq<State<T>>, labels: seq<Label<T>>, events: seq<Event<T>>,
                               i: nat, j: nat, t: nat)
    requires IsCall(states, labels, i, j, t) && labels[i].CallPut? && |events| == |labels|
  {
    && labels[j - 1].t == t && NoEffect(labels, events, t, i, j - 1)
    && (events[j - 1] == Accept(labels[i].x) || events[j - 1] == Refuse)
    && states[j].threads[t].got == states[i].threads[t].got
    && states[j].threads[t].sent == states[i].threads[t].sent + if events[j - 1] == Refuse then [] else [labels[i].x]
  }

  /** What a call of array_get has come to; `taken` is the step in which it takes its item, if it gets one. */
  ghost predicate GetEffect<T>(states: seq<State<T>>, labels: seq<Label<T>>, events: seq<Event<T>>,
                               i: nat, j: nat, t: nat, taken: nat)
    requires IsCall(states, labels, i, j, t) && labels[i].CallGet? && |events| == |labels|
  {
    && i < taken < j && labels[taken].t == t && states[j].threads[t].sent == states[i].threads[t].sent
    && NoEffect(labels, events, t, i, taken) && NoEffect(labels, events, t, taken + 1, j)
    && (match events[taken]
        case Deliver(x) => states[j].threads[t].got == states[i].threads[t].got + [x]
        case EndOfQueue => states[j].threads[t].got == states[i].threads[t].got
        case _ => false)
  }

  lemma NotBackAtOnce<T>(states: seq<State<T>>, labels: seq<Label<T>>, events: seq<Event<T>>, i: nat, j: nat, t: nat)
    requires IsTrace(states, labels, events, t) && IsCall(states, labels, i, j, t)
    ensures i < j - 1
    ensures CallStep(states[j - 1].threads, labels[j - 1], events[j - 1], states[j].threads, t)
  {
    assert CallStep(states[i].threads, labels[i], events[i], states[i + 1].threads, t);
    assert CallStep(states[j - 1].threads, labels[j - 1], events[j - 1], states[j - 1 + 1].threads, t);
  }

  lemma PutTrace<T>(states: seq<State<T>>, labels: seq<Label<T>>, events: seq<Event<T>>, i: nat, j: nat, t: nat)
    requires IsTrace(states, labels, events, t) && IsCall(states, labels, i, j, t) && labels[i].CallPut?
    ensures PutEffect(states, labels, events, i, j, t)
  {
    NotBackAtOnce(states, labels, events, i, j, t);
    PutPending(states, labels, events, i, j, j - 1, t);
  }

  lemma GetTrace<T>(states: seq<State<T>>, labels: seq<Label<T>>, events: seq<Event<T>>, i: nat, j: nat, t: nat)
    returns (taken: nat)
    requires IsTrace(states, labels, events, t) && IsCall(states, labels, i, j, t) && labels[i].CallGet?
    ensures GetEffect(states, labels, events, i, j, t, taken)
  {
    NotBackAtOnce(states, labels, events, i, j, t);
    taken := GetPending(states, labels, events, i, j, j - 1, t);
    if InGet(states[j - 1].threads[t].pc) {
      taken := j - 1;
    }
  }

  /** In every run, a call of array_put takes effect in exactly one of its own steps, the last: there the very item
      it was called with is accepted, or it is refused. No wait or time-out makes it return. */
  lemma PutReturns<T>(states: seq<State<T>>, labels: seq<Label<T>>, i: nat, j: nat, t: nat)
    requires IsRun(states, labels) && IsCall(states, labels, i, j, t) && labels[i].CallPut?
    ensures PutEffect(states, labels, Events(states, labels), i, j, t)
  {
    RunIsTrace(states, labels, t);
    PutTrace(states, labels, Events(states, labels), i, j, t);
  }

  /** In every run, a call of array_get takes effect in exactly one of its own steps: there it takes the oldest item,
      which is its result, or is told that the queue has ended. */
  lemma GetReturns<T>(states: seq<State<T>>, labels: seq<Label<T>>, i: nat, j: nat, t: nat) returns (taken: nat)
    requires IsRun(states, labels) && IsCall(states, labels, i, j, t) && labels[i].CallGet?
    ensures GetEffect(states, labels, Events(states, labels), i, j, t, taken)
  {
    RunIsTrace(states, labels, t);
    taken := GetTrace(states, labels, Events(states, labels), i, j, t);
  }

  // ---------------------------------------------------------------------------------------------
  // The history

  /** A wait for `array_emptied` returns 0 in this step though nobody signalled it. */
  predicate EndsSpuriously<T>(s: State<T>, l: Label<T>) {
    l.Wake? && l.ok && l.t < |s.threads| && s.threads[l.t].pc.DrainAsleep?
  }

  lemma HistoryStep<T>(s: State<T>, l: Label<T>, e: Event<T>, s': State<T>)
    requires Next(s, l, s') && e == EventOf(s, l)
    ensures s'.told <==> s.told || e == EndOfQueue
    ensures s'.spurious <==> s.spurious || EndsSpuriously(s, l)
  {
    match l {
      case PutBody(t, getter) =>
      case GetBody(t, putter, freer) =>
      case FreeBody(t) =>
      case _ =>
    }
  }

  lemma {:induction false} FlagTells(flag: seq<bool>, cause: seq<bool>, i: nat)
    requires |flag| == |cause| + 1 && i < |flag| && !flag[0]
    requires forall k :: 0 <= k < |cause| ==> (flag[k + 1] <==> flag[k] || cause[k])
    ensures flag[i] <==> exists k :: 0 <= k < i && cause[k]
  {
    if i > 0 {
      FlagTells(flag, cause, i - 1);
      assert flag[i - 1 + 1] <==> flag[i - 1] || cause[i - 1];
    }
  }

  lemma RunHistory<T>(states: seq<State<T>>, labels: seq<Label<T>>, k: nat)
    requires IsRun(states, labels) && k < |labels|
    ensures states[k + 1].told <==> states[k].told || Events(states, labels)[k] == EndOfQueue
    ensures states[k + 1].spurious <==> states[k].spurious || EndsSpuriously(states[k], labels[k])
  {
    HistoryStep(states[k], labels[k], Events(states, labels)[k], states[k + 1]);
  }

  /** `told` says that some array_get has returned ARRAY_SHUTDOWN. */
  lemma ToldMeansEnded<T>(states: seq<State<T>>, labels: seq<Label<T>>, i: nat)
    requires IsRun(states, labels) && i < |states|
    ensures states[i].told <==> exists k :: 0 <= k < i && Events(states, labels)[k] == EndOfQueue
  {
    var told, ended := Told(states), Ended(Events(states, labels));
    forall k | 0 <= k < |ended| ensures told[k + 1] <==> told[k] || ended[k] {
      RunHistory(states, labels, k);
    }
    FlagTells(told, ended, i);
    assert forall k :: 0 <= k < i ==> (ended[k] <==> Events(states, labels)[k] == EndOfQueue);
  }

  /** `spurious` says that some wait for the drain has returned 0 without a signal. */
  lemma SpuriousMeansUnsignalled<T>(states: seq<State<T>>, labels: seq<Label<T>>, i: nat)
    requires IsRun(states, labels) && i < |states|
    ensures states[i].spurious <==> exists k :: 0 <= k < i && EndsSpuriously(states[k], labels[k])
  {
    var flags, ends := Spurious(states), SpuriousEnds(states, labels);
    forall k | 0 <= k < |ends| ensures flags[k + 1] <==> flags[k] || ends[k] {
      RunHistory(states, labels, k);
    }
    FlagTells(flags, ends, i);
    assert forall k :: 0 <= k < i ==> (ends[k] <==> EndsSpuriously(states[k], labels[k]));
  }

  function Told<T>(states: seq<State<T>>): seq<bool> {
    seq(|states|, k requires 0 <= k < |states| => states[k].told)
  }

  function Ended<T(==)>(events: seq<Event<T>>): seq<bool> {
    seq(|events|, k requires 0 <= k < |events| => events[k] == EndOfQueue)
  }

  function Spurious<T>(states: seq<State<T>>): seq<bool> {
    seq(|states|, k requires 0 <= k < |states| => states[k].spurious)
  }

  function SpuriousEnds<T>(states: seq<State<T>>, labels: seq<Label<T>>): seq<bool>
    requires |states| == |labels| + 1
  {
    seq(|labels|, k requires 0 <= k < |labels| => EndsSpuriously(states[k], labels[k]))
  }
}
