/** Every run of the pipeline does a bounded amount of work: a measure that starts out linear in the
    input goes down with every step that is not a mere re-check. */
module PipelineTermination {
  import opened Sums
  import opened Pipeline
  import opened PipelineClose
  import opened PipelineFrame
  import opened PipelineFiles
  import opened PipelineResult

  function Minus(a: nat, b: nat): nat {
    if a > b then a - b else 0
  }

  function MainCost(cfg: Config, m: Main): nat {
    match m
    case SpawnRequester(i) => 16 + 2 * cfg.resolvers + cfg.requesters + 10 * |cfg.files| + Minus(cfg.requesters, i)
    case Feed(i) => 15 + 2 * cfg.resolvers + cfg.requesters + 10 * Minus(|cfg.files|, i)
    case FeedPut(i) => 14 + 2 * cfg.resolvers + cfg.requesters + 10 * Minus(|cfg.files|, i)
    case SpawnResolver(i) => 14 + cfg.resolvers + cfg.requesters + Minus(cfg.resolvers, i)
    case CloseNames => 13 + cfg.resolvers + cfg.requesters
    case DrainNames => 12 + cfg.resolvers + cfg.requesters
    case CountNames => 11 + cfg.resolvers + cfg.requesters
    case JoinRequester(i) => 10 + cfg.resolvers + Minus(cfg.requesters, i)
    case JoinResolver(i) => 9 + Minus(cfg.resolvers, i)
    case CloseReqLog => 8
    case DrainReqLog => 7
    case CountReqLog => 6
    case CloseResLog => 5
    case DrainResLog => 4
    case CountResLog => 3
    case JoinReqLogger => 2
    case JoinResLogger => 1
    case Finished => 0
  }

  function ReqCost(r: Requester): nat {
    match r
    case Unborn => 11
    case Taking => 10
    case Opening(_) => 17
    case Reading(_, _) => 16
    case LogPut(_, _, _) => 15
    case HostPut(_, _, _) => 12
    case Leaving => 8
    case CloseHosts => 7
    case DrainHosts => 6
    case CountHosts => 5
    case CloseLog => 4
    case DrainLog => 3
    case CountLog => 2
    case Left => 0
  }

  function ResCost(r: Resolver): nat {
    match r
    case Unborn => 2
    case Fetching => 1
    case Resolving(_) => 5
    case Posting(_, _) => 4
    case Left => 0
  }

  function LogCost(l: Logger): nat {
    match l
    case Awaiting => 1
    case Writing(_) => 2
    case Left => 0
  }

  /** The lines of the first `n` files that have not reached the host queue. */
  function Unsent(cfg: Config, files: seq<Progress>, n: nat): nat
    requires n <= |files|
  {
    if n == 0 then 0 else Unsent(cfg, files, n - 1) + Minus(|cfg.Names(n - 1)|, files[n - 1].sent)
  }

  lemma {:induction false} UnsentUpdate(cfg: Config, files: seq<Progress>, n: nat, f: nat, p: Progress)
    requires n <= |files| && f < |files|
    ensures f < n ==>
      Unsent(cfg, files[f := p], n) + Minus(|cfg.Names(f)|, files[f].sent)
      == Unsent(cfg, files, n) + Minus(|cfg.Names(f)|, p.sent)
    ensures f >= n ==> Unsent(cfg, files[f := p], n) == Unsent(cfg, files, n)
  {
    if n > 0 {
      UnsentUpdate(cfg, files, n - 1, f, p);
    }
  }

  ghost function Measure(cfg: Config, s: State): nat {
    MainCost(cfg, s.main) + Sum(ReqCost, s.requesters) + Sum(ResCost, s.resolvers)
    + LogCost(s.reqLogger) + LogCost(s.resLogger)
    + 8 * s.names.Size() + 2 * s.log.Size() + 5 * s.hosts.Size() + 2 * s.messages.Size()
    + 12 * Unsent(cfg, s.files, |s.files|)
  }

  /** The work there is to do for a given input. */
  function Work(cfg: Config): nat {
    18 + 4 * cfg.resolvers + 13 * cfg.requesters + 10 * |cfg.files| + 12 * LinesIn(cfg, |cfg.files|)
  }

  function LinesIn(cfg: Config, n: nat): nat {
    if n == 0 then 0 else LinesIn(cfg, n - 1) + |cfg.Names(n - 1)|
  }

  lemma {:induction false} UnsentAtStart(cfg: Config, files: seq<Progress>, n: nat)
    requires n <= |files| && forall f :: 0 <= f < |files| ==> files[f].sent == 0
    ensures Unsent(cfg, files, n) == LinesIn(cfg, n)
  {
    if n > 0 {
      UnsentAtStart(cfg, files, n - 1);
    }
  }

  lemma InitMeasure(cfg: Config, s: State)
    requires Init(cfg, s)
    ensures Measure(cfg, s) == Work(cfg)
  {
    SumAllAtLeast(ReqCost, s.requesters, 11);
    SumBounded(ReqCost, s.requesters, 11);
    SumAllAtLeast(ResCost, s.resolvers, 2);
    SumBounded(ResCost, s.resolvers, 2);
    UnsentAtStart(cfg, s.files, |s.files|);
  }

  // ---------------------------------------------------------------------------------------------
  // Requesters

  /** One requester's program counter and one file's record change. */
  lemma ReqMeasure(cfg: Config, s: State, i: nat, pc: Requester, f: nat, p: Progress, s': State)
    requires i < |s.requesters| && f < |s.files|
    requires s'.requesters == s.requesters[i := pc] && s'.files == s.files[f := p]
    requires s'.main == s.main && s'.resolvers == s.resolvers
    requires s'.reqLogger == s.reqLogger && s'.resLogger == s.resLogger && s'.messages == s.messages
    ensures Measure(cfg, s') - Measure(cfg, s) ==
      ReqCost(pc) - ReqCost(s.requesters[i])
      + 8 * (s'.names.Size() - s.names.Size()) + 2 * (s'.log.Size() - s.log.Size()) + 5 * (s'.hosts.Size() - s.hosts.Size())
      + 12 * (Minus(|cfg.Names(f)|, p.sent) - Minus(|cfg.Names(f)|, s.files[f].sent))
  {
    SumUpdate(ReqCost, s.requesters, i, pc);
    UnsentUpdate(cfg, s.files, |s.files|, f, p);
  }

  lemma TakeMeasure(cfg: Config, s: State, i: nat)
    requires FileInv(cfg, s) && i < |s.requesters| && s.requesters[i].Taking? && s.names.taken < |s.names.accepted|
    ensures Measure(cfg, TakeStep(cfg, s, i)) < Measure(cfg, s)
  {
    var f := s.names.accepted[s.names.taken];
    ReqMeasure(cfg, s, i, Opening(f), f, Progress(By(i), 0, 0), TakeStep(cfg, s, i));
  }

  lemma OpenMeasure(cfg: Config, s: State, i: nat, f: nat)
    requires ReaderAt(cfg, s.files, i, Opening(f)) && i < |s.requesters| && s.requesters[i] == Opening(f)
    ensures Measure(cfg, OpenStep(cfg, s, i, f)) < Measure(cfg, s)
  {
    assert s.files == s.files[f := s.files[f]];
    ReqMeasure(cfg, s, i, Reading(f, 0), f, s.files[f], OpenStep(cfg, s, i, f));
  }

  lemma ReadMeasure(cfg: Config, s: State, i: nat, f: nat, k: nat)
    requires ReaderAt(cfg, s.files, i, Reading(f, k)) && i < |s.requesters| && s.requesters[i] == Reading(f, k)
    ensures Measure(cfg, ReadStep(cfg, s, i, f, k)) < Measure(cfg, s)
  {
    var s' := ReadStep(cfg, s, i, f, k);
    assert s.files == s.files[f := s.files[f]];
    ReqMeasure(cfg, s, i, s'.requesters[i], f, s'.files[f], s');
  }

  lemma LogMeasure(cfg: Config, s: State, i: nat, f: nat, k: nat, copy: Str)
    requires ReaderAt(cfg, s.files, i, LogPut(f, k, copy)) && i < |s.requesters| && s.requesters[i] == LogPut(f, k, copy)
    ensures Measure(cfg, LogStep(cfg, s, i, f, k, copy)) < Measure(cfg, s)
  {
    ReqMeasure(cfg, s, i, HostPut(f, k, copy), f, Progress(By(i), k + 1, k), LogStep(cfg, s, i, f, k, copy));
  }

  lemma HostMeasure(cfg: Config, s: State, i: nat, f: nat, k: nat, copy: Str)
    requires ReaderAt(cfg, s.files, i, HostPut(f, k, copy)) && i < |s.requesters| && s.requesters[i] == HostPut(f, k, copy)
    ensures Measure(cfg, HostStep(cfg, s, i, f, k, copy)) < Measure(cfg, s)
  {
    ReqMeasure(cfg, s, i, Reading(f, k + 1), f, Progress(By(i), k + 1, k + 1), HostStep(cfg, s, i, f, k, copy));
  }

  /** Only requester `i` moves, and the queues keep their sizes. */
  lemma ReqOnly(cfg: Config, s: State, i: nat, pc: Requester, s': State)
    requires i < |s.requesters| && s'.requesters == s.requesters[i := pc] && s'.files == s.files
    requires s'.main == s.main && s'.resolvers == s.resolvers
    requires s'.reqLogger == s.reqLogger && s'.resLogger == s.resLogger && s'.messages == s.messages
    requires s'.names.Size() == s.names.Size() && s'.log.Size() == s.log.Size() && s'.hosts.Size() == s.hosts.Size()
    ensures Measure(cfg, s') - Measure(cfg, s) == ReqCost(pc) - ReqCost(s.requesters[i])
  {
    SumUpdate(ReqCost, s.requesters, i, pc);
  }

  lemma ExitMeasure(cfg: Config, s: State, i: nat, early: bool)
    requires i < |s.requesters| && !Works(s, i) && ReqReady(cfg, s, i, early)
    ensures Measure(cfg, ReqApply(cfg, s, i)) < Measure(cfg, s)
  {
    ReqOnly(cfg, s, i, ReqApply(cfg, s, i).requesters[i], ReqApply(cfg, s, i));
  }

  lemma RequesterMeasure(cfg: Config, s: State, i: nat, early: bool)
    requires FileInv(cfg, s) && ReqReady(cfg, s, i, early)
    ensures Measure(cfg, ReqApply(cfg, s, i)) < Measure(cfg, s)
  {
    if !Works(s, i) {
      ExitMeasure(cfg, s, i, early);
    } else {
      assert ReaderAt(cfg, s.files, i, s.requesters[i]);
      match s.requesters[i] {
        case Taking => TakeMeasure(cfg, s, i);
        case Opening(f) => OpenMeasure(cfg, s, i, f);
        case Reading(f, k) => ReadMeasure(cfg, s, i, f, k);
        case LogPut(f, k, copy) => LogMeasure(cfg, s, i, f, k, copy);
        case HostPut(f, k, copy) => HostMeasure(cfg, s, i, f, k, copy);
      }
    }
  }

  // ---------------------------------------------------------------------------------------------
  // The others

  /** One resolver's program counter changes. */
  lemma ResMeasure(cfg: Config, s: State, i: nat, pc: Resolver, s': State)
    requires i < |s.resolvers| && s'.resolvers == s.resolvers[i := pc]
    requires s'.main == s.main && s'.requesters == s.requesters && s'.files == s.files
    requires s'.reqLogger == s.reqLogger && s'.resLogger == s.resLogger && s'.names == s.names && s'.log == s.log
    ensures Measure(cfg, s') - Measure(cfg, s) ==
      ResCost(pc) - ResCost(s.resolvers[i])
      + 5 * (s'.hosts.Size() - s.hosts.Size()) + 2 * (s'.messages.Size() - s.messages.Size())
  {
    SumUpdate(ResCost, s.resolvers, i, pc);
  }

  lemma ResolverMeasure(cfg: Config, s: State, i: nat)
    requires ResReady(cfg, s, i)
    ensures Measure(cfg, ResApply(cfg, s, i)) < Measure(cfg, s)
  {
    ResolverCosts(cfg, s, i, ResApply(cfg, s, i));
  }

  lemma ResolverCosts(cfg: Config, s: State, i: nat, s': State)
    requires ResReady(cfg, s, i) && s' == ResApply(cfg, s, i)
    ensures Measure(cfg, s') < Measure(cfg, s)
  {
    if s.resolvers[i].Posting? {
      ResMeasure(cfg, s, i, Fetching, s');
    } else {
      ResMeasure(cfg, s, i, s'.resolvers[i], s');
    }
  }

  /** The log writers move. */
  lemma WritersMeasure(cfg: Config, s: State, s': State)
    requires s'.main == s.main && s'.requesters == s.requesters && s'.resolvers == s.resolvers
    requires s'.files == s.files && s'.names == s.names && s'.hosts == s.hosts
    ensures Measure(cfg, s') - Measure(cfg, s) ==
      LogCost(s'.reqLogger) - LogCost(s.reqLogger) + LogCost(s'.resLogger) - LogCost(s.resLogger)
      + 2 * (s'.log.Size() - s.log.Size()) + 2 * (s'.messages.Size() - s.messages.Size())
  {
  }

  lemma ReqLogMeasure(cfg: Config, s: State)
    requires LoggerReady(s.log, s.reqLogger)
    ensures Measure(cfg, ReqLogApply(s)) < Measure(cfg, s)
  {
    WritersMeasure(cfg, s, ReqLogApply(s));
  }

  lemma ResLogMeasure(cfg: Config, s: State)
    requires LoggerReady(s.messages, s.resLogger)
    ensures Measure(cfg, ResLogApply(s)) < Measure(cfg, s)
  {
    WritersMeasure(cfg, s, ResLogApply(s));
  }

  lemma SpawnMeasure(cfg: Config, s: State)
    requires SpawnOk(s) && (s.main.SpawnRequester? || s.main.SpawnResolver?)
    requires |s.requesters| == cfg.requesters && |s.resolvers| == cfg.resolvers
    ensures Measure(cfg, MainApply(cfg, s)) < Measure(cfg, s)
  {
    if s.main.SpawnRequester? && s.main.i < |s.requesters| {
      SumUpdate(ReqCost, s.requesters, s.main.i, Taking);
    } else if s.main.SpawnResolver? && s.main.i < |s.resolvers| {
      SumUpdate(ResCost, s.resolvers, s.main.i, Fetching);
    }
  }

  /** Main moves on, and may put a name on its queue or close another. */
  lemma MainOnly(cfg: Config, s: State, s': State)
    requires s'.requesters == s.requesters && s'.resolvers == s.resolvers && s'.files == s.files
    requires s'.reqLogger == s.reqLogger && s'.resLogger == s.resLogger && s'.hosts == s.hosts
    requires s'.log.Size() == s.log.Size() && s'.messages.Size() == s.messages.Size()
    ensures Measure(cfg, s') - Measure(cfg, s) ==
      MainCost(cfg, s'.main) - MainCost(cfg, s.main) + 8 * (s'.names.Size() - s.names.Size())
  {
  }

  lemma FeedMeasure(cfg: Config, s: State)
    requires FeedOk(cfg, s.main) && (s.main.Feed? || s.main.FeedPut?)
    ensures Measure(cfg, FeedStep(cfg, s)) < Measure(cfg, s)
  {
    MainOnly(cfg, s, FeedStep(cfg, s));
  }

  lemma StartMeasure(cfg: Config, s: State)
    requires SpawnOk(s) && FeedOk(cfg, s.main) && MainRank(s.main) <= 2
    requires |s.requesters| == cfg.requesters && |s.resolvers| == cfg.resolvers
    ensures Measure(cfg, MainApply(cfg, s)) < Measure(cfg, s)
  {
    if s.main.Feed? || s.main.FeedPut? {
      FeedMeasure(cfg, s);
    } else {
      SpawnMeasure(cfg, s);
    }
  }

  lemma JoinMeasure(cfg: Config, s: State, early: bool)
    requires 3 <= MainRank(s.main) <= 7 && MainReady(cfg, s, early)
    requires |s.requesters| == cfg.requesters && |s.resolvers| == cfg.resolvers
    ensures Measure(cfg, MainApply(cfg, s)) < Measure(cfg, s)
  {
    MainOnly(cfg, s, MainApply(cfg, s));
  }

  lemma EndMeasure(cfg: Config, s: State, early: bool)
    requires 8 <= MainRank(s.main) && MainReady(cfg, s, early)
    ensures Measure(cfg, MainApply(cfg, s)) < Measure(cfg, s)
  {
    MainOnly(cfg, s, MainApply(cfg, s));
  }

  // ---------------------------------------------------------------------------------------------

  lemma MainMeasure(cfg: Config, s: State, early: bool)
    requires CloseInv(cfg, s) && FeedOk(cfg, s.main) && MainReady(cfg, s, early)
    ensures Measure(cfg, MainApply(cfg, s)) < Measure(cfg, s)
  {
    if MainRank(s.main) <= 2 {
      StartMeasure(cfg, s);
    } else if MainRank(s.main) <= 7 {
      JoinMeasure(cfg, s, early);
    } else {
      EndMeasure(cfg, s, early);
    }
  }

  /** The state after `l` costs less. */
  ghost predicate Cheaper(cfg: Config, s: State, l: Label) {
    Measure(cfg, Apply(cfg, s, l)) < Measure(cfg, s)
  }

  lemma MainCheaper(cfg: Config, s: State, early: bool)
    requires CloseInv(cfg, s) && FeedOk(cfg, s.main) && MainReady(cfg, s, early)
    ensures Cheaper(cfg, s, MainStep(early))
  {
    MainMeasure(cfg, s, early);
  }

  lemma RequesterCheaper(cfg: Config, s: State, i: nat, early: bool)
    requires FileInv(cfg, s) && ReqReady(cfg, s, i, early)
    ensures Cheaper(cfg, s, ReqStep(i, early))
  {
    RequesterMeasure(cfg, s, i, early);
  }

  lemma OthersCheaper(cfg: Config, s: State, l: Label)
    requires Ready(cfg, s, l) && (l.ResStep? || l.ReqLogStep? || l.ResLogStep?)
    ensures Cheaper(cfg, s, l)
  {
    match l {
      case ResStep(i) => ResolverMeasure(cfg, s, i);
      case ReqLogStep => ReqLogMeasure(cfg, s);
      case ResLogStep => ResLogMeasure(cfg, s);
    }
  }

  /** Every step of every thread but a re-check brings the measure down; a re-check changes nothing. */
  lemma StepMeasure(cfg: Config, s: State, l: Label)
    requires CloseInv(cfg, s) && FileInv(cfg, s) && Ready(cfg, s, l)
    ensures if l.Recheck? then Apply(cfg, s, l) == s else Cheaper(cfg, s, l)
  {
    match l {
      case MainStep(early) => MainCheaper(cfg, s, early);
      case ReqStep(i, early) => RequesterCheaper(cfg, s, i, early);
      case Recheck =>
      case _ => OthersCheaper(cfg, s, l);
    }
  }

  function Steps(labels: seq<Label>): nat {
    if labels == [] then 0
    else Steps(labels[..|labels| - 1]) + if labels[|labels| - 1].Recheck? then 0 else 1
  }

  /** A step pays for itself out of the measure. */
  lemma StepPays(cfg: Config, s: State, l: Label, s': State)
    requires CloseInv(cfg, s) && FileInv(cfg, s) && Next(cfg, s, l, s')
    ensures (if l.Recheck? then 0 else 1) + Measure(cfg, s') <= Measure(cfg, s)
  {
    StepMeasure(cfg, s, l);
  }

  lemma StepsNext(labels: seq<Label>, i: nat)
    requires 0 < i <= |labels|
    ensures Steps(labels[..i]) == Steps(labels[..i - 1]) + if labels[i - 1].Recheck? then 0 else 1
  {
    assert labels[..i][..i - 1] == labels[..i - 1];
  }

  lemma {:induction false} BudgetKept(cfg: Config, states: seq<State>, labels: seq<Label>, i: nat)
    requires cfg.Valid() && IsRun(cfg, states, labels) && i <= |labels|
    ensures Steps(labels[..i]) + Measure(cfg, states[i]) <= Work(cfg)
  {
    if i == 0 {
      InitMeasure(cfg, states[0]);
    } else {
      BudgetKept(cfg, states, labels, i - 1);
      RunInv(cfg, states, labels, i - 1);
      var j := i - 1;
      assert Next(cfg, states[j], labels[j], states[j + 1]);
      StepPays(cfg, states[j], labels[j], states[j + 1]);
      StepsNext(labels, i);
    }
  }

  /** However the threads are scheduled, a run has at most `Work(cfg)` steps that are not re-checks. */
  lemma BoundedWork(cfg: Config, states: seq<State>, labels: seq<Label>)
    requires cfg.Valid() && IsRun(cfg, states, labels)
    ensures Steps(labels) + Measure(cfg, states[|labels|]) <= Work(cfg)
  {
    BudgetKept(cfg, states, labels, |labels|);
    assert labels[..|labels|] == labels;
  }
}
