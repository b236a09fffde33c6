/** Schedules that give every thread its turn again and again, and what they lead to. */
module FairSchedules {
  import opened Sequential
  import opened Pipeline
  import opened PipelineClose
  import opened PipelineResult
  import opened PipelineTermination
  import opened PipelineBound
  import opened ThreadTurns

  /** The turns of the program's threads that are not cut short by an early wake-up. */
  predicate ThreadOf(cfg: Config, l: Label) {
    match l
    case MainStep(early) => !early
    case ReqStep(i, early) => i < cfg.requesters && !early
    case ResStep(i) => i < cfg.resolvers
    case Recheck => false
    case _ => true
  }

  ghost predicate ComesUp(schedule: nat -> Label, l: Label, n: nat) {
    exists m: nat :: m >= n && schedule(m) == l
  }

  /** Every thread gets its turn again and again. Nothing else is asked: threads that must wait may be
      picked, waits may be cut short or timed out, and the order is arbitrary. */
  ghost predicate Fair(cfg: Config, schedule: nat -> Label) {
    forall l: Label, n: nat :: ThreadOf(cfg, l) ==> ComesUp(schedule, l, n)
  }

  /** The place of turn `n` in rounds of `period` turns. */
  function Slot(n: nat, period: nat): (k: nat)
    requires period > 0
    ensures k < period
  {
    if n < period then n else Slot(n - period, period)
  }

  function RoundRobin(cfg: Config): nat -> Label {
    (n: nat) =>
      var k := Slot(n, 3 + cfg.requesters + cfg.resolvers);
      if k == 0 then MainStep(false)
      else if k == 1 then ReqLogStep
      else if k == 2 then ResLogStep
      else if k < 3 + cfg.requesters then ReqStep(k - 3, false)
      else ResStep(k - 3 - cfg.requesters)
  }

  function Place(cfg: Config, l: Label): nat {
    match l
    case ReqLogStep => 1
    case ResLogStep => 2
    case ReqStep(i, _) => 3 + i
    case ResStep(i) => 3 + cfg.requesters + i
    case _ => 0
  }

  lemma {:induction false} SlotComesUp(n: nat, period: nat, k: nat) returns (m: nat)
    requires k < period
    ensures m >= n && Slot(m, period) == k
  {
    m := k;
    while m < n
      invariant Slot(m, period) == k
    {
      m := m + period;
    }
  }

  /** Fair schedules exist: taking turns is one. */
  lemma RoundRobinIsFair(cfg: Config)
    ensures Fair(cfg, RoundRobin(cfg))
  {
    forall l: Label, n: nat | ThreadOf(cfg, l) ensures ComesUp(RoundRobin(cfg), l, n) {
      var period := 3 + cfg.requesters + cfg.resolvers;
      var m := SlotComesUp(n, period, Place(cfg, l));
      assert RoundRobin(cfg)(m) == l;
    }
  }

  /** A turn at which the program moves for sure. */
  ghost predicate Works(cfg: Config, s: State, l: Label) {
    Productive(l) && Ready(cfg, s, l)
  }

  /** Under the bound the schedule sooner or later comes to a thread that can move. */
  lemma NextDue(cfg: Config, schedule: nat -> Label, s: State, turn: nat) returns (due: nat)
    requires cfg.Valid() && Fair(cfg, schedule) && Reachable(cfg, s) && !s.main.Finished?
    requires FilesThatOpen(cfg) <= cfg.ringSize - 1 + cfg.requesters
    ensures due >= turn && Works(cfg, s, schedule(due))
  {
    ProgressUnderBound(cfg, s);
    ReachableInv(cfg, s);
    var l :| Productive(l) && Ready(cfg, s, l);
    assert ThreadOf(cfg, l) && ComesUp(schedule, l, turn);
    due :| due >= turn && schedule(due) == l;
  }

  /** A turn leaves the state as it is, or leaves less work to do. */
  lemma TurnCosts(cfg: Config, s: State, l: Label)
    requires cfg.Valid() && Reachable(cfg, s)
    ensures Reachable(cfg, Try(cfg, s, l))
    ensures Try(cfg, s, l) == s || Measure(cfg, Try(cfg, s, l)) < Measure(cfg, s)
    ensures Works(cfg, s, l) ==> Measure(cfg, Try(cfg, s, l)) < Measure(cfg, s)
  {
    if Ready(cfg, s, l) {
      ReachableInv(cfg, s);
      StepMeasure(cfg, s, l);
      ReachableStep(cfg, s, l);
      if !l.Recheck? {
        assert Cheaper(cfg, s, l);
      }
    }
  }

  lemma StartIsReachable(cfg: Config)
    ensures Reachable(cfg, Initial(cfg))
  {
    var states, labels: seq<Label> := [Initial(cfg)], [];
    assert IsRun(cfg, states, labels) && states[|labels|] == Initial(cfg);
  }

  lemma StartsSafely(cfg: Config, s: State)
    requires cfg.Valid() && Reachable(cfg, s)
    ensures SpawnOk(s)
  {
    ReachableInv(cfg, s);
  }

  /** What a turn does to a run that waits for the turn `due`. */
  lemma AfterTurn(cfg: Config, schedule: nat -> Label, s: State, turn: nat, due: nat, s': State) returns (due': nat)
    requires cfg.Valid() && Fair(cfg, schedule) && FilesThatOpen(cfg) <= cfg.ringSize - 1 + cfg.requesters
    requires Reachable(cfg, s) && !s.main.Finished? && turn <= due && Works(cfg, s, schedule(due))
    requires s' == Try(cfg, s, schedule(turn))
    ensures Reachable(cfg, s')
    ensures turn + 1 <= due' && (s'.main.Finished? || Works(cfg, s', schedule(due')))
    ensures Measure(cfg, s') < Measure(cfg, s) || (s' == s && turn < due && due' == due)
  {
    TurnCosts(cfg, s, schedule(turn));
    if s' == s {
      due' := due;
    } else if s'.main.Finished? {
      due' := turn + 1;
    } else {
      due' := NextDue(cfg, schedule, s', turn + 1);
    }
  }

  /** The state after `n` turns. */
  ghost function After(cfg: Config, schedule: nat -> Label, n: nat): State {
    if n == 0 then Initial(cfg) else Try(cfg, After(cfg, schedule, n - 1), schedule(n - 1))
  }

  /** Under every fair schedule main finishes after some number of turns, with the logs of
      `ThreadedRefinesSequential`, provided that at most N - 1 + R files open. */
  lemma {:induction false} FairRunsFinish(cfg: Config, schedule: nat -> Label) returns (n: nat)
    requires cfg.Valid() && Fair(cfg, schedule)
    requires FilesThatOpen(cfg) <= cfg.ringSize - 1 + cfg.requesters
    ensures After(cfg, schedule, n).main.Finished?
    ensures multiset(Texts(After(cfg, schedule, n).resOut)) == multiset(Entries(cfg.lookup, NonBlank(AllNames(cfg.files))))
  {
    StartIsReachable(cfg);
    n := 0;
    var s := Initial(cfg);
    var due := NextDue(cfg, schedule, s, 0);
    while !s.main.Finished?
      invariant s == After(cfg, schedule, n) && Reachable(cfg, s)
      invariant n <= due && (s.main.Finished? || Works(cfg, s, schedule(due)))
      decreases Measure(cfg, s), due - n
    {
      var s' := Try(cfg, s, schedule(n));
      due := AfterTurn(cfg, schedule, s, n, due, s');
      s, n := s', n + 1;
    }
    ThreadedRefinesSequential(cfg, s);
  }
}
