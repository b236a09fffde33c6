/** The closing discipline of `dnsthreaded.c`: who may still use a queue when it is closed, and why no
    array_put is ever refused. */
module PipelineClose {
  import opened Sums
  import opened Fifo
  import opened Pipeline

  /** How far main has come. */
  function MainRank(m: Main): nat {
    match m
    case SpawnRequester(_) => 0
    case Feed(_) => 1
    case FeedPut(_) => 1
    case SpawnResolver(_) => 2
    case CloseNames => 3
    case DrainNames => 4
    case CountNames => 5
    case JoinRequester(_) => 6
    case JoinResolver(_) => 7
    case CloseReqLog => 8
    case DrainReqLog => 9
    case CountReqLog => 10
    case CloseResLog => 11
    case DrainResLog => 12
    case CountResLog => 13
    case JoinReqLogger => 14
    case JoinResLogger => 15
    case Finished => 16
  }

  /** How far a requester is on its way out; 0 while it may still take or read a file. */
  function ExitRank(r: Requester): nat {
    match r
    case Leaving => 1
    case CloseHosts => 2
    case DrainHosts => 3
    case CountHosts => 4
    case CloseLog => 5
    case DrainLog => 6
    case CountLog => 7
    case Left => 8
    case _ => 0
  }

  function StillCounted(r: Requester): nat {
    if ExitRank(r) <= 1 then 1 else 0
  }

  ghost predicate Shape(cfg: Config, s: State) {
    && |s.requesters| == |s.serviced| == cfg.requesters
    && |s.resolvers| == |s.resolved| == cfg.resolvers
    && |s.files| == |cfg.files|
    && s.names.Valid(cfg.Capacity()) && s.log.Valid(cfg.Capacity())
    && s.hosts.Valid(cfg.Capacity()) && s.messages.Valid(cfg.Capacity())
  }

  ghost predicate MainOk(s: State) {
    && (s.names.closed <==> MainRank(s.main) >= 4)
    && (s.messages.closed <==> MainRank(s.main) >= 12)
    && (MainRank(s.main) >= 9 ==> s.log.closed)
    && (MainRank(s.main) < 2 ==> s.hosts.taken == 0)
    && (MainRank(s.main) >= 15 ==> s.reqLogger.Left?)
    && (MainRank(s.main) >= 16 ==> s.resLogger.Left?)
  }

  ghost predicate SpawnOk(s: State) {
    && (forall r :: 0 <= r < |s.requesters| ==>
          (s.requesters[r].Unborn? <==> s.main.SpawnRequester? && s.main.i <= r))
    && (forall v :: 0 <= v < |s.resolvers| ==>
          (s.resolvers[v].Unborn? <==> MainRank(s.main) < 2 || (s.main.SpawnResolver? && s.main.i <= v)))
  }

  ghost predicate JoinOk(s: State) {
    && (forall r :: 0 <= r < |s.requesters| ==>
          ((s.main.JoinRequester? && r < s.main.i) || MainRank(s.main) >= 7 ==> s.requesters[r].Left?))
    && (forall v :: 0 <= v < |s.resolvers| ==>
          ((s.main.JoinResolver? && v < s.main.i) || MainRank(s.main) >= 8 ==> s.resolvers[v].Left?))
  }

  ghost predicate ReadersOk(s: State) {
    && s.readers == Sum(StillCounted, s.requesters)
    && (s.hosts.closed || s.log.closed ==> s.readers == 0)
    && (AllLeft(s.requesters) ==> s.hosts.closed)
  }

  ghost predicate AllLeft(requesters: seq<Requester>) {
    forall r :: 0 <= r < |requesters| ==> requesters[r].Left?
  }

  ghost predicate ExitOk(s: State) {
    forall r :: 0 <= r < |s.requesters| ==>
      var rank := ExitRank(s.requesters[r]);
      && (rank >= 1 ==> s.names.closed && s.names.IsEmpty())
      && (2 <= rank <= 7 ==> s.readers == 0)
      && (3 <= rank <= 7 ==> s.hosts.closed)
      && (6 <= rank <= 7 ==> s.log.closed)
  }

  ghost predicate LeftOk(s: State) {
    && (forall v :: 0 <= v < |s.resolvers| && s.resolvers[v].Left? ==> s.hosts.closed && s.hosts.IsEmpty())
    && (s.reqLogger.Left? ==> s.log.closed && s.log.IsEmpty())
    && (s.resLogger.Left? ==> s.messages.closed && s.messages.IsEmpty())
    && s.refused == 0
  }

  ghost predicate CloseInv(cfg: Config, s: State) {
    && cfg.Valid() && Shape(cfg, s)
    && MainOk(s) && SpawnOk(s) && JoinOk(s) && ReadersOk(s) && ExitOk(s) && LeftOk(s)
  }

  lemma InitClose(cfg: Config, s: State)
    requires cfg.Valid() && Init(cfg, s)
    ensures CloseInv(cfg, s)
  {
    SumAllAtLeast(StillCounted, s.requesters, 1);
    SumBounded(StillCounted, s.requesters, 1);
  }

  /** A requester that is not on its way out keeps the host and log queues open. */
  lemma OpenForReaders(cfg: Config, s: State, i: nat)
    requires CloseInv(cfg, s) && i < |s.requesters| && ExitRank(s.requesters[i]) <= 1
    ensures s.readers > 0 && !s.hosts.closed && !s.log.closed
  {
    SumAtLeast(StillCounted, s.requesters, i);
  }

  /** A resolver that is not gone keeps the message queue open. */
  lemma OpenForResolvers(cfg: Config, s: State, i: nat)
    requires CloseInv(cfg, s) && i < |s.resolvers| && !s.resolvers[i].Left?
    ensures !s.messages.closed
  {
  }

  /** What a requester may do to a queue. */
  ghost predicate Moved<T>(q: Fifo<T>, q': Fifo<T>, capacity: nat) {
    q'.Valid(capacity) && q'.closed == q.closed && (q.closed ==> q'.accepted == q.accepted && q'.taken >= q.taken)
  }

  /** Requester `i` goes on reading: the main thread, the resolvers and the log writers stand still. */
  lemma ReaderMove(cfg: Config, s: State, i: nat, s': State)
    requires CloseInv(cfg, s) && i < |s.requesters| && Shape(cfg, s')
    requires ExitRank(s.requesters[i]) == 0 && !s.requesters[i].Unborn?
    requires s'.requesters == s.requesters[i := s'.requesters[i]]
    requires ExitRank(s'.requesters[i]) == 0 && !s'.requesters[i].Unborn?
    requires s'.main == s.main && s'.readers == s.readers && s'.resolvers == s.resolvers
    requires s'.reqLogger == s.reqLogger && s'.resLogger == s.resLogger && s'.messages == s.messages
    requires Moved(s.names, s'.names, cfg.Capacity())
    requires s'.hosts.closed == s.hosts.closed && s'.hosts.taken == s.hosts.taken && s'.log.closed == s.log.closed
    requires s'.refused == 0
    ensures CloseInv(cfg, s')
  {
    SumUpdate(StillCounted, s.requesters, i, s'.requesters[i]);
    OpenForReaders(cfg, s, i);
  }

  lemma TakeClose(cfg: Config, s: State, i: nat)
    requires CloseInv(cfg, s) && i < |s.requesters| && s.requesters[i].Taking? && s.names.CanGet()
    ensures CloseInv(cfg, TakeStep(cfg, s, i))
  {
    var s' := TakeStep(cfg, s, i);
    if s.names.IsEmpty() {
      SumUpdate(StillCounted, s.requesters, i, Leaving);
      assert s'.requesters[i] == Leaving;
    } else {
      ReaderMove(cfg, s, i, s');
    }
  }

  lemma OpenClose(cfg: Config, s: State, i: nat, f: nat)
    requires CloseInv(cfg, s) && i < |s.requesters| && s.requesters[i] == Opening(f)
    ensures CloseInv(cfg, OpenStep(cfg, s, i, f))
  {
    ReaderMove(cfg, s, i, OpenStep(cfg, s, i, f));
  }

  lemma ReadClose(cfg: Config, s: State, i: nat, f: nat, k: nat)
    requires CloseInv(cfg, s) && i < |s.requesters| && s.requesters[i] == Reading(f, k)
    ensures CloseInv(cfg, ReadStep(cfg, s, i, f, k))
  {
    ReaderMove(cfg, s, i, ReadStep(cfg, s, i, f, k));
  }

  lemma PutClose(cfg: Config, s: State, i: nat)
    requires CloseInv(cfg, s) && i < |s.requesters|
    requires s.requesters[i].LogPut? ==> s.log.CanPut(cfg.Capacity())
    requires s.requesters[i].HostPut? ==> s.hosts.CanPut(cfg.Capacity())
    requires s.requesters[i].LogPut? || s.requesters[i].HostPut?
    ensures CloseInv(cfg, ReqApply(cfg, s, i))
  {
    OpenForReaders(cfg, s, i);
    ReaderMove(cfg, s, i, ReqApply(cfg, s, i));
  }

  lemma LeaveClose(cfg: Config, s: State, i: nat)
    requires CloseInv(cfg, s) && i < |s.requesters| && s.requesters[i].Leaving?
    ensures CloseInv(cfg, LeaveStep(cfg, s, i))
  {
    var s' := LeaveStep(cfg, s, i);
    SumUpdate(StillCounted, s.requesters, i, s'.requesters[i]);
    SumZero(StillCounted, s'.requesters);
    OpenForReaders(cfg, s, i);
  }

  /** Requester `i` walks through its two array_free calls. */
  lemma ExitMove(cfg: Config, s: State, i: nat, s': State)
    requires CloseInv(cfg, s) && i < |s.requesters| && Shape(cfg, s')
    requires s'.requesters == s.requesters[i := s'.requesters[i]]
    requires 2 <= ExitRank(s.requesters[i]) <= 7 && ExitRank(s'.requesters[i]) == ExitRank(s.requesters[i]) + 1
    requires s'.main == s.main && s'.readers == s.readers && s'.resolvers == s.resolvers && s'.refused == s.refused
    requires s'.reqLogger == s.reqLogger && s'.resLogger == s.resLogger && s'.messages == s.messages
    requires s'.names == s.names
    requires s'.hosts == if s.requesters[i].CloseHosts? then s.hosts.Close() else s.hosts
    requires s'.log == if s.requesters[i].CloseLog? then s.log.Close() else s.log
    ensures CloseInv(cfg, s')
  {
    SumUpdate(StillCounted, s.requesters, i, s'.requesters[i]);
  }

  lemma HostsExit(cfg: Config, s: State, i: nat)
    requires CloseInv(cfg, s) && i < |s.requesters| && 2 <= ExitRank(s.requesters[i]) <= 4
    ensures CloseInv(cfg, ReqApply(cfg, s, i))
  {
    ExitMove(cfg, s, i, ReqApply(cfg, s, i));
  }

  lemma LogExit(cfg: Config, s: State, i: nat)
    requires CloseInv(cfg, s) && i < |s.requesters| && 5 <= ExitRank(s.requesters[i]) <= 7
    ensures CloseInv(cfg, ReqApply(cfg, s, i))
  {
    ExitMove(cfg, s, i, ReqApply(cfg, s, i));
  }

  lemma ReqClose(cfg: Config, s: State, i: nat, early: bool)
    requires CloseInv(cfg, s) && ReqReady(cfg, s, i, early)
    ensures CloseInv(cfg, ReqApply(cfg, s, i))
  {
    if 2 <= ExitRank(s.requesters[i]) <= 4 {
      HostsExit(cfg, s, i);
    } else if 5 <= ExitRank(s.requesters[i]) {
      LogExit(cfg, s, i);
    } else {
      match s.requesters[i] {
        case Taking => TakeClose(cfg, s, i);
        case Opening(f) => OpenClose(cfg, s, i, f);
        case Reading(f, k) => ReadClose(cfg, s, i, f, k);
        case LogPut(_, _, _) => PutClose(cfg, s, i);
        case HostPut(_, _, _) => PutClose(cfg, s, i);
        case Leaving => LeaveClose(cfg, s, i);
      }
    }
  }

  lemma ResClose(cfg: Config, s: State, i: nat)
    requires CloseInv(cfg, s) && ResReady(cfg, s, i)
    ensures CloseInv(cfg, ResApply(cfg, s, i))
  {
    if s.resolvers[i].Posting? {
      OpenForResolvers(cfg, s, i);
    }
  }

  lemma ReqLogClose(cfg: Config, s: State)
    requires CloseInv(cfg, s) && LoggerReady(s.log, s.reqLogger)
    ensures CloseInv(cfg, ReqLogApply(s))
  {
  }

  lemma ResLogClose(cfg: Config, s: State)
    requires CloseInv(cfg, s) && LoggerReady(s.messages, s.resLogger)
    ensures CloseInv(cfg, ResLogApply(s))
  {
  }

  lemma SpawnRequesterClose(cfg: Config, s: State)
    requires CloseInv(cfg, s) && s.main.SpawnRequester?
    ensures CloseInv(cfg, MainApply(cfg, s))
  {
    if s.main.i < |s.requesters| {
      SumUpdate(StillCounted, s.requesters, s.main.i, Taking);
    }
  }

  lemma SpawnResolverClose(cfg: Config, s: State)
    requires CloseInv(cfg, s) && s.main.SpawnResolver?
    ensures CloseInv(cfg, MainApply(cfg, s))
  {
  }

  lemma FeedClose(cfg: Config, s: State)
    requires CloseInv(cfg, s) && MainRank(s.main) == 1 && (s.main.FeedPut? ==> s.names.CanPut(cfg.Capacity()))
    ensures CloseInv(cfg, MainApply(cfg, s))
  {
  }

  lemma CloseNamesClose(cfg: Config, s: State)
    requires CloseInv(cfg, s) && s.main.CloseNames?
    ensures CloseInv(cfg, MainApply(cfg, s))
  {
  }

  lemma DrainNamesClose(cfg: Config, s: State)
    requires CloseInv(cfg, s) && (s.main.DrainNames? || s.main.CountNames?)
    ensures CloseInv(cfg, MainApply(cfg, s))
  {
  }

  lemma JoinClose(cfg: Config, s: State, early: bool)
    requires CloseInv(cfg, s) && 6 <= MainRank(s.main) <= 7 && MainReady(cfg, s, early)
    ensures CloseInv(cfg, MainApply(cfg, s))
  {
  }

  lemma LastClose(cfg: Config, s: State, early: bool)
    requires CloseInv(cfg, s) && MainRank(s.main) >= 8 && MainReady(cfg, s, early)
    ensures CloseInv(cfg, MainApply(cfg, s))
  {
    SumZero(StillCounted, s.requesters);
  }

  lemma MainClose(cfg: Config, s: State, early: bool)
    requires CloseInv(cfg, s) && MainReady(cfg, s, early)
    ensures CloseInv(cfg, MainApply(cfg, s))
  {
    var rank := MainRank(s.main);
    if rank == 0 {
      SpawnRequesterClose(cfg, s);
    } else if rank == 1 {
      FeedClose(cfg, s);
    } else if rank == 2 {
      SpawnResolverClose(cfg, s);
    } else if rank == 3 {
      CloseNamesClose(cfg, s);
    } else if rank <= 5 {
      DrainNamesClose(cfg, s);
    } else if rank <= 7 {
      JoinClose(cfg, s, early);
    } else {
      LastClose(cfg, s, early);
    }
  }

  lemma CloseKept(cfg: Config, s: State, l: Label, s': State)
    requires CloseInv(cfg, s) && Next(cfg, s, l, s')
    ensures CloseInv(cfg, s')
  {
    match l {
      case MainStep(early) => MainClose(cfg, s, early);
      case ReqStep(i, early) => ReqClose(cfg, s, i, early);
      case ResStep(i) => ResClose(cfg, s, i);
      case ReqLogStep => ReqLogClose(cfg, s);
      case ResLogStep => ResLogClose(cfg, s);
      case Recheck =>
    }
  }
}
