/** What one turn of a thread comes to, waits included: the thread moves if it need not wait and stays where it
    is otherwise. This is what the methods of ThreadedProgram promise, and a step of the pipeline or none. */
module ThreadTurns {
  import opened Sums
  import opened Pipeline
  import opened PipelineClose
  import opened QueueCalls

  /** The state after `l` had its turn: a step if it is ready for one, and nothing otherwise. */
  ghost function Try(cfg: Config, s: State, l: Label): State {
    if Ready(cfg, s, l) then Apply(cfg, s, l) else s
  }

  function IsTaking(r: Requester): nat {
    if r.Taking? then 1 else 0
  }

  function IsFetching(r: Resolver): nat {
    if r.Fetching? then 1 else 0
  }

  function IsAwaiting(l: Logger): nat {
    if l.Awaiting? then 1 else 0
  }

  /** What the fields of the program do not say: the history of the transition system. */
  datatype History = History(refused: nat, files: seq<Progress>, mallocs: multiset<Block>, frees: multiset<Block>)

  function HistoryOf(s: State): History {
    History(s.refused, s.files, s.mallocs, s.frees)
  }

  /** `s` with the history `h`. */
  function Recorded(s: State, h: History): State {
    s.(refused := h.refused, files := h.files, mallocs := h.mallocs, frees := h.frees)
  }

  // ---------------------------------------------------------------------------------------------
  // What the turns of the threads come to, when the history becomes `h`

  function At(s: State, i: nat, pc: Requester, h: History): State
    requires i < |s.requesters|
  {
    Recorded(s.(requesters := s.requesters[i := pc]), h)
  }

  function Taken(s: State, i: nat, h: History): State
    requires i < |s.requesters|
  {
    if !s.names.CanGet() then s
    else if s.names.IsEmpty() then At(s, i, Leaving, h)
    else At(s.(names := s.names.Get()), i, Opening(s.names.accepted[s.names.taken]), h)
  }

  function Opened(cfg: Config, s: State, i: nat, f: nat, h: History): State
    requires i < |s.requesters|
  {
    if cfg.Opens(f) then At(s.(serviced := Bump(s.serviced, i)), i, Reading(f, 0), h) else At(s, i, Taking, h)
  }

  function LineRead(cfg: Config, s: State, i: nat, f: nat, k: nat, h: History): State
    requires i < |s.requesters|
  {
    var lines := cfg.Names(f);
    if k >= |lines| then At(s, i, Taking, h)
    else if lines[k] == "" then At(s, i, Reading(f, k + 1), h)
    else At(s, i, LogPut(f, k, Str(f, k, lines[k])), h)
  }

  function LinePut(cfg: Config, s: State, i: nat, next: Requester, copy: Str, h: History): State
    requires i < |s.requesters|
  {
    if s.log.CanPut(cfg.Capacity()) then At(s.(log := s.log.Put(copy)), i, next, h) else s
  }

  function HostSent(cfg: Config, s: State, i: nat, next: Requester, copy: Str, h: History): State
    requires i < |s.requesters|
  {
    if s.hosts.CanPut(cfg.Capacity()) then At(s.(hosts := s.hosts.Put(copy)), i, next, h) else s
  }

  function Gone(s: State, i: nat, h: History): State
    requires i < |s.requesters|
  {
    At(s.(readers := s.readers - 1), i, if s.readers == 1 then CloseHosts else Requester.Left, h)
  }

  ghost function HostsFreed(s: State, i: nat, phase: Phase, early: bool, h: History): State
    requires i < |s.requesters|
  {
    match phase
    case Shutting => At(s.(hosts := s.hosts.Close()), i, DrainHosts, h)
    case Draining => if early || s.hosts.IsEmpty() then At(s, i, CountHosts, h) else s
    case Counting => if early || Sum(IsFetching, s.resolvers) == 0 then At(s, i, CloseLog, h) else s
  }

  function LogFreed(s: State, i: nat, phase: Phase, early: bool, h: History): State
    requires i < |s.requesters|
  {
    match phase
    case Shutting => At(s.(log := s.log.Close()), i, DrainLog, h)
    case Draining => if early || s.log.IsEmpty() then At(s, i, CountLog, h) else s
    case Counting => if early || !s.reqLogger.Awaiting? then At(s, i, Requester.Left, h) else s
  }

  function ResolverAt(s: State, i: nat, pc: Resolver, h: History): State
    requires i < |s.resolvers|
  {
    Recorded(s.(resolvers := s.resolvers[i := pc]), h)
  }

  function Fetched(s: State, i: nat, h: History): State
    requires i < |s.resolvers|
  {
    if !s.hosts.CanGet() then s
    else if s.hosts.IsEmpty() then ResolverAt(s, i, Resolver.Left, h)
    else ResolverAt(s.(hosts := s.hosts.Get()), i, Resolving(s.hosts.accepted[s.hosts.taken]), h)
  }

  function Posted(cfg: Config, s: State, i: nat, message: Str, h: History): State
    requires i < |s.resolvers|
  {
    if !s.messages.CanPut(cfg.Capacity()) then s
    else
      var resolved := if s.messages.closed then s.resolved else Bump(s.resolved, i);
      ResolverAt(s.(messages := s.messages.Put(message), resolved := resolved), i, Fetching, h)
  }

  function LogTaken(s: State, h: History): State {
    if !s.log.CanGet() then s
    else if s.log.IsEmpty() then Recorded(s.(reqLogger := Logger.Left), h)
    else Recorded(s.(log := s.log.Get(), reqLogger := Writing(s.log.accepted[s.log.taken])), h)
  }

  function MessageTaken(s: State, h: History): State {
    if !s.messages.CanGet() then s
    else if s.messages.IsEmpty() then Recorded(s.(resLogger := Logger.Left), h)
    else Recorded(s.(messages := s.messages.Get(), resLogger := Writing(s.messages.accepted[s.messages.taken])), h)
  }

  function NameFed(cfg: Config, s: State, i: nat, h: History): State {
    if s.names.CanPut(cfg.Capacity()) then Recorded(s.(names := s.names.Put(i), main := Feed(i + 1)), h) else s
  }

  ghost function NamesFreed(s: State, phase: Phase, early: bool, h: History): State {
    match phase
    case Shutting => Recorded(s.(names := s.names.Close(), main := DrainNames), h)
    case Draining => if early || s.names.IsEmpty() then Recorded(s.(main := CountNames), h) else s
    case Counting =>
      if early || Sum(IsTaking, s.requesters) == 0 then Recorded(s.(main := JoinRequester(0)), h) else s
  }

  function LogFreedAgain(s: State, phase: Phase, early: bool, h: History): State {
    match phase
    case Shutting => Recorded(s.(log := s.log.Close(), main := DrainReqLog), h)
    case Draining => if early || s.log.IsEmpty() then Recorded(s.(main := CountReqLog), h) else s
    case Counting => if early || !s.reqLogger.Awaiting? then Recorded(s.(main := CloseResLog), h) else s
  }

  function MessagesFreed(s: State, phase: Phase, early: bool, h: History): State {
    match phase
    case Shutting => Recorded(s.(messages := s.messages.Close(), main := DrainResLog), h)
    case Draining => if early || s.messages.IsEmpty() then Recorded(s.(main := CountResLog), h) else s
    case Counting => if early || !s.resLogger.Awaiting? then Recorded(s.(main := JoinReqLogger), h) else s
  }

  /** Where main is after a turn without a queue: the loop tests of lines 420, 438 and 459, a file that does
      not open (lines 438-445), and the joins of lines 478, 489, 503 and 504, which wait for a thread to be gone. */
  function NextMain(cfg: Config, main: Main, requesters: seq<Requester>, resolvers: seq<Resolver>,
                    reqLogger: Logger, resLogger: Logger): Main
  {
    match main
    case SpawnRequester(i) => if i < |requesters| then main else Feed(0)
    case Feed(i) => if i >= |cfg.files| then SpawnResolver(0) else if cfg.Opens(i) then FeedPut(i) else Feed(i + 1)
    case SpawnResolver(i) => if i < |resolvers| then main else CloseNames
    case JoinRequester(i) =>
      if i >= |requesters| then JoinResolver(0) else if requesters[i].Left? then JoinRequester(i + 1) else main
    case JoinResolver(i) =>
      if i >= |resolvers| then CloseReqLog else if resolvers[i].Left? then JoinResolver(i + 1) else main
    case JoinReqLogger => if reqLogger.Left? then JoinResLogger else main
    case JoinResLogger => if resLogger.Left? then Finished else main
    case _ => main
  }

  function MovedOn(cfg: Config, s: State, h: History): State {
    var next := NextMain(cfg, s.main, s.requesters, s.resolvers, s.reqLogger, s.resLogger);
    if next == s.main then s else Recorded(s.(main := next), h)
  }

  // ---------------------------------------------------------------------------------------------
  // Every turn is a step of the pipeline or none

  /** `s'` is what the turn of requester `i` comes to while it takes and reads files. */
  ghost predicate ReadsTurn(cfg: Config, s: State, i: nat, s': State)
    requires i < |s.requesters|
  {
    var h := HistoryOf(s');
    s' == match s.requesters[i]
          case Taking => Taken(s, i, h)
          case Opening(f) => Opened(cfg, s, i, f, h)
          case Reading(f, k) => LineRead(cfg, s, i, f, k, h)
          case _ => s
  }

  /** ... and on its way out. */
  ghost predicate ExitsTurn(s: State, i: nat, early: bool, s': State)
    requires i < |s.requesters|
  {
    var h := HistoryOf(s');
    s' == match s.requesters[i]
          case Leaving => Gone(s, i, h)
          case CloseHosts => HostsFreed(s, i, Shutting, early, h)
          case DrainHosts => HostsFreed(s, i, Draining, early, h)
          case CountHosts => HostsFreed(s, i, Counting, early, h)
          case CloseLog => LogFreed(s, i, Shutting, early, h)
          case DrainLog => LogFreed(s, i, Draining, early, h)
          case CountLog => LogFreed(s, i, Counting, early, h)
          case _ => s
  }

  lemma TakerTurns(cfg: Config, s: State, i: nat, early: bool)
    requires i < |s.requesters| && (s.requesters[i].Taking? || s.requesters[i].Unborn?)
    ensures ReadsTurn(cfg, s, i, Try(cfg, s, ReqStep(i, early)))
  {
  }

  lemma ReaderTurns(cfg: Config, s: State, i: nat, early: bool)
    requires i < |s.requesters| && (s.requesters[i].Opening? || s.requesters[i].Reading?)
    ensures ReadsTurn(cfg, s, i, Try(cfg, s, ReqStep(i, early)))
  {
  }

  lemma FileTurns(cfg: Config, s: State, i: nat, early: bool, s': State)
    requires i < |s.requesters| && ExitRank(s.requesters[i]) == 0 && s' == Try(cfg, s, ReqStep(i, early))
    requires !s.requesters[i].LogPut? && !s.requesters[i].HostPut?
    ensures ReadsTurn(cfg, s, i, s')
  {
    if s.requesters[i].Opening? || s.requesters[i].Reading? {
      ReaderTurns(cfg, s, i, early);
    } else {
      TakerTurns(cfg, s, i, early);
    }
  }

  lemma LogPutterTurns(cfg: Config, s: State, i: nat, early: bool, f: nat, k: nat, copy: Str, s': State)
    requires i < |s.requesters| && s.requesters[i] == LogPut(f, k, copy) && s' == Try(cfg, s, ReqStep(i, early))
    ensures s' == LinePut(cfg, s, i, HostPut(f, k, copy), copy, HistoryOf(s'))
  {
  }

  lemma HostPutterTurns(cfg: Config, s: State, i: nat, early: bool, f: nat, k: nat, copy: Str, s': State)
    requires i < |s.requesters| && s.requesters[i] == HostPut(f, k, copy) && s' == Try(cfg, s, ReqStep(i, early))
    ensures s' == HostSent(cfg, s, i, Reading(f, k + 1), copy, HistoryOf(s'))
  {
  }

  lemma ExitTurns(cfg: Config, s: State, i: nat, early: bool)
    requires i < |s.requesters| && ExitRank(s.requesters[i]) > 0
    ensures ExitsTurn(s, i, early, Try(cfg, s, ReqStep(i, early)))
  {
    SumZero(IsFetching, s.resolvers);
  }

  /** `s'` is what the turn of resolver `i` comes to. */
  ghost predicate ResolverTurn(cfg: Config, s: State, i: nat, s': State)
    requires i < |s.resolvers|
  {
    s' == match s.resolvers[i]
          case Unborn => s
          case Fetching => Fetched(s, i, HistoryOf(s'))
          case Resolving(host) => ResolverAt(s, i, Posting(host, Message(cfg, host)), HistoryOf(s'))
          case Posting(_, message) => Posted(cfg, s, i, message, HistoryOf(s'))
          case Left => s
  }

  lemma ResolverTurns(cfg: Config, s: State, i: nat)
    requires i < |s.resolvers|
    ensures ResolverTurn(cfg, s, i, Try(cfg, s, ResStep(i)))
  {
  }

  ghost predicate LogWriterTurn(s: State, s': State) {
    s' == match s.reqLogger
          case Awaiting => LogTaken(s, HistoryOf(s'))
          case Writing(m) => Recorded(s.(reqOut := s.reqOut + [m], reqLogger := Awaiting), HistoryOf(s'))
          case Left => s
  }

  ghost predicate MessageWriterTurn(s: State, s': State) {
    s' == match s.resLogger
          case Awaiting => MessageTaken(s, HistoryOf(s'))
          case Writing(m) => Recorded(s.(resOut := s.resOut + [m], resLogger := Awaiting), HistoryOf(s'))
          case Left => s
  }

  lemma LogWriterTurns(cfg: Config, s: State)
    ensures LogWriterTurn(s, Try(cfg, s, ReqLogStep))
    ensures MessageWriterTurn(s, Try(cfg, s, ResLogStep))
  {
  }

  /** `s'` is what main's turn comes to while it closes queues and waits for threads. */
  ghost predicate EndsTurn(cfg: Config, s: State, early: bool, s': State) {
    var h := HistoryOf(s');
    s' == match s.main
          case CloseNames => NamesFreed(s, Shutting, early, h)
          case DrainNames => NamesFreed(s, Draining, early, h)
          case CountNames => NamesFreed(s, Counting, early, h)
          case CloseReqLog => LogFreedAgain(s, Shutting, early, h)
          case DrainReqLog => LogFreedAgain(s, Draining, early, h)
          case CountReqLog => LogFreedAgain(s, Counting, early, h)
          case CloseResLog => MessagesFreed(s, Shutting, early, h)
          case DrainResLog => MessagesFreed(s, Draining, early, h)
          case CountResLog => MessagesFreed(s, Counting, early, h)
          case _ => MovedOn(cfg, s, h)
  }

  lemma SpawnRequesterTurns(cfg: Config, s: State, i: nat, early: bool, s': State)
    requires s.main == SpawnRequester(i) && i < |s.requesters| && s' == Try(cfg, s, MainStep(early))
    ensures s' == At(s.(main := SpawnRequester(i + 1)), i, Taking, HistoryOf(s'))
  {
  }

  lemma SpawnResolverTurns(cfg: Config, s: State, i: nat, early: bool, s': State)
    requires s.main == SpawnResolver(i) && i < |s.resolvers| && s' == Try(cfg, s, MainStep(early))
    ensures s' == ResolverAt(s.(main := SpawnResolver(i + 1)), i, Fetching, HistoryOf(s'))
  {
  }

  lemma FeedTurns(cfg: Config, s: State, i: nat, early: bool, s': State)
    requires s.main == FeedPut(i) && s' == Try(cfg, s, MainStep(early))
    ensures s' == NameFed(cfg, s, i, HistoryOf(s'))
  {
  }

  lemma StartMoves(cfg: Config, s: State, early: bool, s': State)
    requires MainRank(s.main) <= 2 && !s.main.FeedPut? && s' == Try(cfg, s, MainStep(early))
    requires s.main.SpawnRequester? ==> s.main.i >= |s.requesters|
    requires s.main.SpawnResolver? ==> s.main.i >= |s.resolvers|
    ensures s' == MovedOn(cfg, s, HistoryOf(s'))
  {
  }

  lemma NamesTurns(cfg: Config, s: State, early: bool)
    requires 3 <= MainRank(s.main) <= 7
    ensures EndsTurn(cfg, s, early, Try(cfg, s, MainStep(early)))
  {
    SumZero(IsTaking, s.requesters);
  }

  lemma LogsTurns(cfg: Config, s: State, early: bool)
    requires MainRank(s.main) > 7
    ensures EndsTurn(cfg, s, early, Try(cfg, s, MainStep(early)))
  {
  }

  lemma EndTurns(cfg: Config, s: State, early: bool)
    requires MainRank(s.main) > 2
    ensures EndsTurn(cfg, s, early, Try(cfg, s, MainStep(early)))
  {
    if MainRank(s.main) <= 7 {
      NamesTurns(cfg, s, early);
    } else {
      LogsTurns(cfg, s, early);
    }
  }
}
