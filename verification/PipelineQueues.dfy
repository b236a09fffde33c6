/** The two layers of the model meet here: every step of the pipeline is, on each of its four queues, one
    event of the FIFO queue that QueueTheorems.FifoRefinement proves `array.c` to be (and ThreadedProgram runs
    the pipeline on the rings themselves). And a lock that the pipeline leaves out, `file_reader_mutex`, is
    never waited for while its holder waits. */
module PipelineQueues {
  import opened Sums
  import opened Fifo
  import opened Pipeline
  import opened PipelineClose
  import opened PipelineResult

  function PutEvent<T>(q: Fifo<T>, x: T): Event<T> {
    if q.closed then Refuse else Accept(x)
  }

  function GetEvent<T>(q: Fifo<T>): Event<T> {
    if q.IsEmpty() then EndOfQueue else Deliver(q.accepted[q.taken])
  }

  /** What filename_queue sees of a step. */
  function NamesEvent(s: State, l: Label): Event<nat> {
    match l
    case MainStep(_) => (
      match s.main
      case FeedPut(i) => PutEvent(s.names, i)
      case CloseNames => Closing
      case _ => Silent)
    case ReqStep(i, _) => if i < |s.requesters| && s.requesters[i].Taking? then GetEvent(s.names) else Silent
    case _ => Silent
  }

  /** What requester_logfile_queue sees of a step. */
  function LogEvent(s: State, l: Label): Event<Str> {
    match l
    case MainStep(_) => if s.main.CloseReqLog? then Closing else Silent
    case ReqStep(i, _) =>
      if i >= |s.requesters| then Silent
      else (
        match s.requesters[i]
        case LogPut(_, _, copy) => PutEvent(s.log, copy)
        case CloseLog => Closing
        case _ => Silent)
    case ReqLogStep => if s.reqLogger.Awaiting? then GetEvent(s.log) else Silent
    case _ => Silent
  }

  /** What hostname_queue sees of a step. */
  function HostsEvent(s: State, l: Label): Event<Str> {
    match l
    case ReqStep(i, _) =>
      if i >= |s.requesters| then Silent
      else (
        match s.requesters[i]
        case HostPut(_, _, copy) => PutEvent(s.hosts, copy)
        case CloseHosts => Closing
        case _ => Silent)
    case ResStep(i) => if i < |s.resolvers| && s.resolvers[i].Fetching? then GetEvent(s.hosts) else Silent
    case _ => Silent
  }

  /** What resolver_logfile_queue sees of a step. */
  function MessagesEvent(s: State, l: Label): Event<Str> {
    match l
    case MainStep(_) => if s.main.CloseResLog? then Closing else Silent
    case ResStep(i) =>
      if i < |s.resolvers| && s.resolvers[i].Posting? then PutEvent(s.messages, s.resolvers[i].message) else Silent
    case ResLogStep => if s.resLogger.Awaiting? then GetEvent(s.messages) else Silent
    case _ => Silent
  }

  lemma MainQueues(cfg: Config, s: State, l: Label)
    requires l.MainStep? && Ready(cfg, s, l)
    ensures FifoStep(cfg.Capacity(), s.names, NamesEvent(s, l), MainApply(cfg, s).names)
    ensures FifoStep(cfg.Capacity(), s.log, LogEvent(s, l), MainApply(cfg, s).log)
    ensures FifoStep(cfg.Capacity(), s.messages, MessagesEvent(s, l), MainApply(cfg, s).messages)
    ensures MainApply(cfg, s).hosts == s.hosts
  {
  }

  lemma PutQueues(cfg: Config, s: State, l: Label)
    requires l.ReqStep? && Ready(cfg, s, l) && (s.requesters[l.i].LogPut? || s.requesters[l.i].HostPut?)
    ensures FifoStep(cfg.Capacity(), s.names, NamesEvent(s, l), ReqApply(cfg, s, l.i).names)
    ensures FifoStep(cfg.Capacity(), s.log, LogEvent(s, l), ReqApply(cfg, s, l.i).log)
    ensures FifoStep(cfg.Capacity(), s.hosts, HostsEvent(s, l), ReqApply(cfg, s, l.i).hosts)
    ensures ReqApply(cfg, s, l.i).messages == s.messages
  {
  }

  lemma RequesterQueues(cfg: Config, s: State, l: Label)
    requires l.ReqStep? && Ready(cfg, s, l)
    ensures FifoStep(cfg.Capacity(), s.names, NamesEvent(s, l), ReqApply(cfg, s, l.i).names)
    ensures FifoStep(cfg.Capacity(), s.log, LogEvent(s, l), ReqApply(cfg, s, l.i).log)
    ensures FifoStep(cfg.Capacity(), s.hosts, HostsEvent(s, l), ReqApply(cfg, s, l.i).hosts)
    ensures ReqApply(cfg, s, l.i).messages == s.messages
  {
    if s.requesters[l.i].LogPut? || s.requesters[l.i].HostPut? {
      PutQueues(cfg, s, l);
    }
  }

  lemma ResolverQueues(cfg: Config, s: State, l: Label)
    requires l.ResStep? && Ready(cfg, s, l)
    ensures FifoStep(cfg.Capacity(), s.hosts, HostsEvent(s, l), ResApply(cfg, s, l.i).hosts)
    ensures FifoStep(cfg.Capacity(), s.messages, MessagesEvent(s, l), ResApply(cfg, s, l.i).messages)
    ensures ResApply(cfg, s, l.i).names == s.names && ResApply(cfg, s, l.i).log == s.log
  {
  }

  /** Whatever step is taken, from any state: on each queue it is exactly the one event named, with the
      item and the result that the specification of the queue allows at that moment. */
  lemma QueuesAreFifos(cfg: Config, s: State, l: Label, s': State)
    requires Next(cfg, s, l, s')
    ensures FifoStep(cfg.Capacity(), s.names, NamesEvent(s, l), s'.names)
    ensures FifoStep(cfg.Capacity(), s.log, LogEvent(s, l), s'.log)
    ensures FifoStep(cfg.Capacity(), s.hosts, HostsEvent(s, l), s'.hosts)
    ensures FifoStep(cfg.Capacity(), s.messages, MessagesEvent(s, l), s'.messages)
  {
    match l {
      case MainStep(_) => MainQueues(cfg, s, l);
      case ReqStep(_, _) => RequesterQueues(cfg, s, l);
      case ResStep(_) => ResolverQueues(cfg, s, l);
      case _ =>
    }
  }

  // ---------------------------------------------------------------------------------------------
  // No array_put returns ARRAY_SHUTDOWN

  /** Some array_put is refused in this step. */
  predicate Refusal(s: State, l: Label) {
    NamesEvent(s, l) == Refuse || LogEvent(s, l) == Refuse || HostsEvent(s, l) == Refuse || MessagesEvent(s, l) == Refuse
  }

  /** `refused` counts the refusals. */
  lemma RefusalsCounted(cfg: Config, s: State, l: Label, s': State)
    requires Next(cfg, s, l, s')
    ensures s'.refused == s.refused + if Refusal(s, l) then 1 else 0
  {
    match l {
      case MainStep(_) => MainRefusals(cfg, s, l, s');
      case ReqStep(i, _) => RequesterRefusals(cfg, s, i, l, s');
      case _ =>
    }
  }

  lemma MainRefusals(cfg: Config, s: State, l: Label, s': State)
    requires l.MainStep? && s' == MainApply(cfg, s)
    ensures s'.refused == s.refused + if Refusal(s, l) then 1 else 0
  {
    if MainRank(s.main) > 2 {
      assert s'.refused == s.refused;
    }
  }

  lemma RequesterRefusals(cfg: Config, s: State, i: nat, l: Label, s': State)
    requires i < |s.requesters| && l.ReqStep? && l.i == i && s' == ReqApply(cfg, s, i)
    ensures s'.refused == s.refused + if Refusal(s, l) then 1 else 0
  {
    if ExitRank(s.requesters[i]) > 0 {
      assert s'.refused == s.refused;
    }
  }

  lemma OpenForPuts(cfg: Config, s: State, l: Label)
    requires CloseInv(cfg, s)
    ensures !Refusal(s, l)
  {
    match l {
      case ReqStep(i, _) =>
        if i < |s.requesters| && ExitRank(s.requesters[i]) == 0 {
          OpenForReaders(cfg, s, i);
        }
      case ResStep(i) =>
        if i < |s.resolvers| && s.resolvers[i].Posting? {
          OpenForResolvers(cfg, s, i);
        }
      case _ =>
    }
  }

  /** In no step of any run is an array_put refused. */
  lemma NoRefusals(cfg: Config, states: seq<State>, labels: seq<Label>, i: nat)
    requires cfg.Valid() && IsRun(cfg, states, labels) && i < |labels|
    ensures !Refusal(states[i], labels[i])
  {
    RunInv(cfg, states, labels, i);
    OpenForPuts(cfg, states[i], labels[i]);
  }

  // ---------------------------------------------------------------------------------------------
  // The last requester out

  predicate Closes(r: Requester) {
    2 <= ExitRank(r) <= 7
  }

  ghost predicate OneCloser(requesters: seq<Requester>) {
    forall i, j :: 0 <= i < |requesters| && 0 <= j < |requesters| ==>
      Closes(requesters[i]) && Closes(requesters[j]) ==> i == j
  }

  lemma CloserMoves(requesters: seq<Requester>, i: nat, pc: Requester)
    requires OneCloser(requesters) && i < |requesters|
    requires Closes(pc) ==> Closes(requesters[i]) || forall j :: 0 <= j < |requesters| ==> !Closes(requesters[j])
    ensures OneCloser(requesters[i := pc])
  {
  }

  lemma NobodyCloses(cfg: Config, s: State, i: nat)
    requires CloseInv(cfg, s) && i < |s.requesters| && s.requesters[i].Leaving?
    ensures forall j :: 0 <= j < |s.requesters| ==> !Closes(s.requesters[j])
  {
    OpenForReaders(cfg, s, i);
  }

  /** Only requester `i` moves, and it does not begin to close unless it was leaving. */
  ghost predicate OnlyMoves(requesters: seq<Requester>, i: nat, requesters': seq<Requester>)
    requires i < |requesters|
  {
    && |requesters'| == |requesters| && requesters' == requesters[i := requesters'[i]]
    && (Closes(requesters'[i]) ==> Closes(requesters[i]) || requesters[i].Leaving?)
  }

  lemma PutMoves(cfg: Config, s: State, i: nat)
    requires i < |s.requesters| && (s.requesters[i].LogPut? || s.requesters[i].HostPut?)
    ensures OnlyMoves(s.requesters, i, ReqApply(cfg, s, i).requesters)
  {
  }

  lemma ReadMoves(cfg: Config, s: State, i: nat)
    requires i < |s.requesters| && (s.requesters[i].Taking? || s.requesters[i].Opening? || s.requesters[i].Reading?)
    ensures OnlyMoves(s.requesters, i, ReqApply(cfg, s, i).requesters)
  {
  }

  lemma ExitMoves(cfg: Config, s: State, i: nat)
    requires i < |s.requesters| && (ExitRank(s.requesters[i]) > 0 || s.requesters[i].Unborn?)
    ensures OnlyMoves(s.requesters, i, ReqApply(cfg, s, i).requesters)
  {
  }

  lemma ReqCloser(cfg: Config, s: State, i: nat)
    requires CloseInv(cfg, s) && OneCloser(s.requesters) && i < |s.requesters|
    ensures OneCloser(ReqApply(cfg, s, i).requesters)
  {
    if s.requesters[i].Leaving? {
      NobodyCloses(cfg, s, i);
    }
    if s.requesters[i].LogPut? || s.requesters[i].HostPut? {
      PutMoves(cfg, s, i);
    } else if ExitRank(s.requesters[i]) > 0 || s.requesters[i].Unborn? {
      ExitMoves(cfg, s, i);
    } else {
      ReadMoves(cfg, s, i);
    }
    CloserMoves(s.requesters, i, ReqApply(cfg, s, i).requesters[i]);
  }

  lemma MainCloser(cfg: Config, s: State)
    requires OneCloser(s.requesters)
    ensures OneCloser(MainApply(cfg, s).requesters)
  {
    if s.main.SpawnRequester? && s.main.i < |s.requesters| {
      CloserMoves(s.requesters, s.main.i, Taking);
    }
  }

  lemma CloserKept(cfg: Config, s: State, l: Label, s': State)
    requires CloseInv(cfg, s) && OneCloser(s.requesters) && Next(cfg, s, l, s')
    ensures OneCloser(s'.requesters)
  {
    match l {
      case ReqStep(i, _) => ReqCloser(cfg, s, i);
      case MainStep(_) => MainCloser(cfg, s);
      case _ =>
    }
  }

  lemma CloserInv(cfg: Config, s: State)
    requires cfg.Valid() && Reachable(cfg, s)
    ensures CloseInv(cfg, s) && OneCloser(s.requesters)
  {
    var states: seq<State>, labels: seq<Label> :| IsRun(cfg, states, labels) && states[|labels|] == s;
    var inv := (s: State) => Inv(cfg, s) && OneCloser(s.requesters);
    InitInv(cfg, states[0]);
    forall s, l, s' | inv(s) && Next(cfg, s, l, s') ensures inv(s') {
      StepInv(cfg, s, l, s');
      CloserKept(cfg, s, l, s');
    }
    RunInduction(cfg, states, labels, inv, |labels|);
    assert inv(s);
  }

  /** While a requester closes the two queues, with `file_reader_mutex` held, every other requester is
      gone: exactly one of them closes, it is the last, and nobody can be waiting for the mutex. */
  lemma LastReaderIsAlone(cfg: Config, s: State, i: nat, j: nat)
    requires cfg.Valid() && Reachable(cfg, s) && i < |s.requesters| && Closes(s.requesters[i])
    requires j < |s.requesters| && j != i
    ensures s.requesters[j].Left?
  {
    CloserInv(cfg, s);
    if ExitRank(s.requesters[j]) <= 1 {
      SumAtLeast(StillCounted, s.requesters, j);
    }
  }
}
