/** `dnsthreaded.c` as a transition system: main, the requesters, the resolvers and the two log
    writers move one at a time, in any order, over four closable FIFO queues. A queue operation is
    one step, taken when it no longer has to wait: QueueTheorems.FifoRefinement says that it does what such a
    step does, and QueueProgress.ServedAtRest that it completes once it need not wait. */
module Pipeline {
  import opened Fifo
  import opened Sequential

  datatype Config = Config(
    ringSize: nat,                 // ARRAY_SIZE
    requesters: nat,
    resolvers: nat,
    files: seq<Names>,             // argv[5..]: the names on the lines, or None if fopen fails
    lookup: Lookup
  ) {
    predicate Valid() {
      ringSize >= 2 && requesters >= 1 && resolvers >= 1
    }

    function Capacity(): nat {
      if ringSize >= 1 then ringSize - 1 else 0
    }

    predicate Opens(f: nat) {
      f < |files| && files[f].Some?
    }

    /** The names the getline loop finds in file `f`. */
    function Names(f: nat): seq<string> {
      if f < |files| then NamesIn(files[f]) else []
    }
  }

  /** A string on a queue, with the file and line it stems from. */
  datatype Str = Str(file: nat, pos: nat, text: string)

  /** The line of resolver log for a host name, as resolve_then_log builds it (lines 191-213). */
  function Message(cfg: Config, host: Str): Str {
    host.(text := Entry(cfg.lookup, host.text))
  }

  /** Heap blocks that travel through queues. */
  datatype Block =
    | NameCopy(file: nat)
    | LogCopy(file: nat, pos: nat)
    | HostCopy(file: nat, pos: nat)
    | MessageCopy(file: nat, pos: nat)

  /** process_files_from_queue, lines 48-139 */
  datatype Requester =
    | Unborn
    | Taking                                   // in array_get(&filename_queue), line 58
    | Opening(f: nat)                          // line 69
    | Reading(f: nat, k: nat)                  // line 83, the next line is number k
    | LogPut(f: nat, k: nat, copy: Str)        // in array_put(&requester_logfile_queue), line 96
    | HostPut(f: nat, k: nat, copy: Str)       // in array_put(&hostname_queue), line 115
    | Leaving                                  // line 128
    | CloseHosts | DrainHosts | CountHosts     // array_free(&hostname_queue), line 131
    | CloseLog | DrainLog | CountLog           // array_free(&requester_logfile_queue), line 132
    | Left

  /** resolver_thread, lines 256-281 */
  datatype Resolver =
    | Unborn
    | Fetching                                 // in array_get(&hostname_queue), line 264
    | Resolving(host: Str)                     // line 193
    | Posting(host: Str, message: Str)         // in array_put(&resolver_logfile_queue), line 216
    | Left

  /** The two log threads, lines 228-253 */
  datatype Logger =
    | Awaiting                                 // in array_get, line 232 or 246
    | Writing(message: Str)                    // line 235 or 249
    | Left

  /** main, lines 420-504 */
  datatype Main =
    | SpawnRequester(i: nat)                   // line 420
    | Feed(i: nat)                             // line 438
    | FeedPut(i: nat)                          // in array_put(&filename_queue), line 451
    | SpawnResolver(i: nat)                    // line 459
    | CloseNames | DrainNames | CountNames     // array_free(&filename_queue), line 474
    | JoinRequester(i: nat)                    // line 478
    | JoinResolver(i: nat)                     // line 489
    | CloseReqLog | DrainReqLog | CountReqLog  // array_free(&requester_logfile_queue), line 499
    | CloseResLog | DrainResLog | CountResLog  // array_free(&resolver_logfile_queue), line 500
    | JoinReqLogger | JoinResLogger            // lines 503 and 504
    | Finished

  /** The part of the files' history that says who has each file open and how far it was read. */
  datatype Owner = Nobody | By(r: nat) | Closed
  datatype Progress = Progress(owner: Owner, logged: nat, sent: nat)

  datatype State = State(
    main: Main,
    readers: int,                  // active_file_readers
    requesters: seq<Requester>,
    resolvers: seq<Resolver>,
    reqLogger: Logger,
    resLogger: Logger,
    names: Fifo<nat>,              // filename_queue
    log: Fifo<Str>,                // requester_logfile_queue
    hosts: Fifo<Str>,              // hostname_queue
    messages: Fifo<Str>,           // resolver_logfile_queue
    reqOut: seq<Str>,              // the requester log file
    resOut: seq<Str>,              // the resolver log file
    serviced: seq<nat>,            // files_serviced of each requester
    resolved: seq<nat>,            // hosts_resolved of each resolver
    // history
    refused: nat,                  // how many array_put calls returned ARRAY_SHUTDOWN
    files: seq<Progress>,
    mallocs: multiset<Block>,
    frees: multiset<Block>
  )

  /** `early` is an array_free wait that ends before its condition holds: a spurious wake-up, or the
      signal at array.c:162 overtaken by a new getter. `Recheck` is a timed wait that looks again. */
  datatype Label =
    | MainStep(early: bool)
    | ReqStep(i: nat, early: bool)
    | ResStep(i: nat)
    | ReqLogStep
    | ResLogStep
    | Recheck

  /** The state after lines 351-417. */
  function Initial(cfg: Config): State {
    State(SpawnRequester(0), cfg.requesters,
      seq(cfg.requesters, i => Requester.Unborn), seq(cfg.resolvers, i => Resolver.Unborn), Awaiting, Awaiting,
      Fifo([], 0, false), Fifo([], 0, false), Fifo([], 0, false), Fifo([], 0, false), [], [],
      seq(cfg.requesters, i => 0), seq(cfg.resolvers, i => 0),
      0, seq(|cfg.files|, i => Progress(Nobody, 0, 0)), multiset{}, multiset{})
  }

  ghost predicate Init(cfg: Config, s: State) {
    s == Initial(cfg)
  }

  // ---------------------------------------------------------------------------------------------
  // Requesters

  function SetReq(s: State, i: nat, pc: Requester): State
    requires i < |s.requesters|
  {
    s.(requesters := s.requesters[i := pc])
  }

  function SetFile(s: State, f: nat, p: Progress): State {
    if f < |s.files| then s.(files := s.files[f := p]) else s
  }

  function Malloc(s: State, b: Block): State {
    s.(mallocs := s.mallocs + multiset{b})
  }

  function Free(s: State, b: Block): State {
    s.(frees := s.frees + multiset{b})
  }

  function Bump(counts: seq<nat>, i: nat): seq<nat> {
    if i < |counts| then counts[i := counts[i] + 1] else counts
  }

  ghost predicate ReqReady(cfg: Config, s: State, i: nat, early: bool) {
    i < |s.requesters| &&
    match s.requesters[i]
    case Unborn => false
    case Taking => s.names.CanGet()
    case Opening(_) => true
    case Reading(_, _) => true
    case LogPut(_, _, _) => s.log.CanPut(cfg.Capacity())
    case HostPut(_, _, _) => s.hosts.CanPut(cfg.Capacity())
    case Leaving => true
    case CloseHosts => true
    case DrainHosts => early || s.hosts.IsEmpty()
    case CountHosts => early || forall j :: 0 <= j < |s.resolvers| ==> !s.resolvers[j].Fetching?
    case CloseLog => true
    case DrainLog => early || s.log.IsEmpty()
    case CountLog => early || !s.reqLogger.Awaiting?
    case Left => false
  }

  /** Lines 56-74 */
  function TakeStep(cfg: Config, s: State, i: nat): State
    requires i < |s.requesters|
  {
    if !s.names.IsEmpty() then
      var f := s.names.accepted[s.names.taken];
      SetFile(SetReq(s.(names := s.names.Get()), i, Opening(f)), f, Progress(By(i), 0, 0))
    else SetReq(s, i, Leaving)
  }

  function OpenStep(cfg: Config, s: State, i: nat, f: nat): State
    requires i < |s.requesters|
  {
    if cfg.Opens(f) then SetReq(s.(serviced := Bump(s.serviced, i)), i, Reading(f, 0))
    else SetFile(SetReq(Free(s, NameCopy(f)), i, Taking), f, Progress(Closed, 0, 0))
  }

  /** Lines 83-94 and 123-125 */
  function ReadStep(cfg: Config, s: State, i: nat, f: nat, k: nat): State
    requires i < |s.requesters|
  {
    if k >= |cfg.Names(f)| then
      SetFile(SetReq(Free(s, NameCopy(f)), i, Taking), f, Progress(Closed, k, k))
    else if cfg.Names(f)[k] == "" then
      SetFile(SetReq(s, i, Reading(f, k + 1)), f, Progress(By(i), k + 1, k + 1))
    else
      SetReq(Malloc(s, LogCopy(f, k)), i, LogPut(f, k, Str(f, k, cfg.Names(f)[k])))
  }

  /** Lines 96-108; the copy of a refused line is freed, and the line goes on to the resolvers. */
  function LogStep(cfg: Config, s: State, i: nat, f: nat, k: nat, copy: Str): State
    requires i < |s.requesters|
  {
    var s1 := s.(log := s.log.Put(copy));
    var s2 := if s.log.closed then Free(s1, LogCopy(f, k)).(refused := s.refused + 1) else s1;
    SetFile(SetReq(Malloc(s2, HostCopy(f, k)), i, HostPut(f, k, copy)), f, Progress(By(i), k + 1, k))
  }

  /** Lines 115-120 */
  function HostStep(cfg: Config, s: State, i: nat, f: nat, k: nat, copy: Str): State
    requires i < |s.requesters|
  {
    var s1 := s.(hosts := s.hosts.Put(copy));
    var s2 := if s.hosts.closed then Free(s1, HostCopy(f, k)).(refused := s.refused + 1) else s1;
    SetFile(SetReq(s2, i, Reading(f, k + 1)), f, Progress(By(i), k + 1, k + 1))
  }

  /** Lines 128-134. The last one out closes two queues while it holds `file_reader_mutex`; everybody
      else has let go of that mutex by then. */
  function LeaveStep(cfg: Config, s: State, i: nat): State
    requires i < |s.requesters|
  {
    SetReq(s.(readers := s.readers - 1), i, if s.readers - 1 == 0 then CloseHosts else Requester.Left)
  }

  function ReqApply(cfg: Config, s: State, i: nat): State
    requires i < |s.requesters|
  {
    match s.requesters[i]
    case Taking => TakeStep(cfg, s, i)
    case Opening(f) => OpenStep(cfg, s, i, f)
    case Reading(f, k) => ReadStep(cfg, s, i, f, k)
    case LogPut(f, k, copy) => LogStep(cfg, s, i, f, k, copy)
    case HostPut(f, k, copy) => HostStep(cfg, s, i, f, k, copy)
    case Leaving => LeaveStep(cfg, s, i)
    case CloseHosts => SetReq(s.(hosts := s.hosts.Close()), i, DrainHosts)
    case DrainHosts => SetReq(s, i, CountHosts)
    case CountHosts => SetReq(s, i, CloseLog)
    case CloseLog => SetReq(s.(log := s.log.Close()), i, DrainLog)
    case DrainLog => SetReq(s, i, CountLog)
    case CountLog => SetReq(s, i, Requester.Left)
    case _ => s
  }

  // ---------------------------------------------------------------------------------------------
  // Resolvers

  function SetRes(s: State, i: nat, pc: Resolver): State
    requires i < |s.resolvers|
  {
    s.(resolvers := s.resolvers[i := pc])
  }

  ghost predicate ResReady(cfg: Config, s: State, i: nat) {
    i < |s.resolvers| &&
    match s.resolvers[i]
    case Unborn => false
    case Fetching => s.hosts.CanGet()
    case Resolving(_) => true
    case Posting(_, _) => s.messages.CanPut(cfg.Capacity())
    case Left => false
  }

  /** Lines 216-223 and 272 */
  function PostStep(cfg: Config, s: State, i: nat, host: Str, message: Str): State
    requires i < |s.resolvers|
  {
    var s1 := s.(messages := s.messages.Put(message));
    var s2 :=
      if s.messages.closed then Free(s1, MessageCopy(message.file, message.pos)).(refused := s.refused + 1)
      else s1.(resolved := Bump(s.resolved, i));
    SetRes(Free(s2, HostCopy(host.file, host.pos)), i, Fetching)
  }

  function ResApply(cfg: Config, s: State, i: nat): State
    requires i < |s.resolvers|
  {
    match s.resolvers[i]
    case Fetching =>
      if !s.hosts.IsEmpty() then
        SetRes(s.(hosts := s.hosts.Get()), i, Resolving(s.hosts.accepted[s.hosts.taken]))
      else SetRes(s, i, Resolver.Left)
    case Resolving(host) =>
      SetRes(Malloc(s, MessageCopy(host.file, host.pos)), i, Posting(host, Message(cfg, host)))
    case Posting(host, message) => PostStep(cfg, s, i, host, message)
    case _ => s
  }

  // ---------------------------------------------------------------------------------------------
  // Log writers

  predicate LoggerReady(q: Fifo<Str>, pc: Logger) {
    match pc
    case Awaiting => q.CanGet()
    case Writing(_) => true
    case Left => false
  }

  function ReqLogApply(s: State): State {
    match s.reqLogger
    case Awaiting =>
      if !s.log.IsEmpty() then s.(log := s.log.Get(), reqLogger := Writing(s.log.accepted[s.log.taken]))
      else s.(reqLogger := Logger.Left)
    case Writing(m) => Free(s, LogCopy(m.file, m.pos)).(reqOut := s.reqOut + [m], reqLogger := Awaiting)
    case Left => s
  }

  function ResLogApply(s: State): State {
    match s.resLogger
    case Awaiting =>
      if !s.messages.IsEmpty() then
        s.(messages := s.messages.Get(), resLogger := Writing(s.messages.accepted[s.messages.taken]))
      else s.(resLogger := Logger.Left)
    case Writing(m) => Free(s, MessageCopy(m.file, m.pos)).(resOut := s.resOut + [m], resLogger := Awaiting)
    case Left => s
  }

  // ---------------------------------------------------------------------------------------------
  // Main

  ghost predicate MainReady(cfg: Config, s: State, early: bool) {
    match s.main
    case FeedPut(_) => s.names.CanPut(cfg.Capacity())
    case DrainNames => early || s.names.IsEmpty()
    case CountNames => early || forall i :: 0 <= i < |s.requesters| ==> !s.requesters[i].Taking?
    case JoinRequester(i) => i < |s.requesters| ==> s.requesters[i].Left?
    case JoinResolver(i) => i < |s.resolvers| ==> s.resolvers[i].Left?
    case DrainReqLog => early || s.log.IsEmpty()
    case CountReqLog => early || !s.reqLogger.Awaiting?
    case DrainResLog => early || s.messages.IsEmpty()
    case CountResLog => early || !s.resLogger.Awaiting?
    case JoinReqLogger => s.reqLogger.Left?
    case JoinResLogger => s.resLogger.Left?
    case Finished => false
    case _ => true
  }

  /** Lines 438-456 */
  function FeedStep(cfg: Config, s: State): State
    requires s.main.Feed? || s.main.FeedPut?
  {
    match s.main
    case Feed(i) =>
      if i >= |cfg.files| then s.(main := SpawnResolver(0))
      else if !cfg.Opens(i) then s.(main := Feed(i + 1))
      else Malloc(s, NameCopy(i)).(main := FeedPut(i))
    case FeedPut(i) =>
      var s1 := s.(names := s.names.Put(i), main := Feed(i + 1));
      if s.names.closed then Free(s1, NameCopy(i)).(refused := s.refused + 1) else s1
  }

  function MainApply(cfg: Config, s: State): State {
    match s.main
    case SpawnRequester(i) =>
      if i < |s.requesters| then SetReq(s, i, Taking).(main := SpawnRequester(i + 1)) else s.(main := Feed(0))
    case Feed(_) => FeedStep(cfg, s)
    case FeedPut(_) => FeedStep(cfg, s)
    case SpawnResolver(i) =>
      if i < |s.resolvers| then SetRes(s, i, Fetching).(main := SpawnResolver(i + 1)) else s.(main := CloseNames)
    case CloseNames => s.(names := s.names.Close(), main := DrainNames)
    case DrainNames => s.(main := CountNames)
    case CountNames => s.(main := JoinRequester(0))
    case JoinRequester(i) => s.(main := if i < |s.requesters| then JoinRequester(i + 1) else JoinResolver(0))
    case JoinResolver(i) => s.(main := if i < |s.resolvers| then JoinResolver(i + 1) else CloseReqLog)
    case CloseReqLog => s.(log := s.log.Close(), main := DrainReqLog)
    case DrainReqLog => s.(main := CountReqLog)
    case CountReqLog => s.(main := CloseResLog)
    case CloseResLog => s.(messages := s.messages.Close(), main := DrainResLog)
    case DrainResLog => s.(main := CountResLog)
    case CountResLog => s.(main := JoinReqLogger)
    case JoinReqLogger => s.(main := JoinResLogger)
    case JoinResLogger => s.(main := Finished)
    case Finished => s
  }

  // ---------------------------------------------------------------------------------------------

  ghost predicate Ready(cfg: Config, s: State, l: Label) {
    match l
    case MainStep(early) => MainReady(cfg, s, early)
    case ReqStep(i, early) => ReqReady(cfg, s, i, early)
    case ResStep(i) => ResReady(cfg, s, i)
    case ReqLogStep => LoggerReady(s.log, s.reqLogger)
    case ResLogStep => LoggerReady(s.messages, s.resLogger)
    case Recheck => true
  }

  function Apply(cfg: Config, s: State, l: Label): State {
    match l
    case MainStep(_) => MainApply(cfg, s)
    case ReqStep(i, _) => if i < |s.requesters| then ReqApply(cfg, s, i) else s
    case ResStep(i) => if i < |s.resolvers| then ResApply(cfg, s, i) else s
    case ReqLogStep => ReqLogApply(s)
    case ResLogStep => ResLogApply(s)
    case Recheck => s
  }

  ghost predicate Next(cfg: Config, s: State, l: Label, s': State) {
    Ready(cfg, s, l) && s' == Apply(cfg, s, l)
  }

  ghost predicate IsRun(cfg: Config, states: seq<State>, labels: seq<Label>) {
    && |states| == |labels| + 1
    && Init(cfg, states[0])
    && forall i :: 0 <= i < |labels| ==> Next(cfg, states[i], labels[i], states[i + 1])
  }

  /** `s` is the last state of some run. */
  ghost predicate Reachable(cfg: Config, s: State) {
    exists states: seq<State>, labels: seq<Label> :: IsRun(cfg, states, labels) && states[|labels|] == s
  }

  /** What holds at the start and is kept by every step holds throughout every run. */
  lemma {:induction false} RunInduction(cfg: Config, states: seq<State>, labels: seq<Label>, inv: State -> bool, i: nat)
    requires IsRun(cfg, states, labels) && i < |states|
    requires inv(states[0])
    requires forall s, l, s' :: inv(s) && Next(cfg, s, l, s') ==> inv(s')
    ensures inv(states[i])
  {
    if i > 0 {
      RunInduction(cfg, states, labels, inv, i - 1);
      var j := i - 1;
      assert Next(cfg, states[j], labels[j], states[j + 1]);
    }
  }

  /** A step that does something, and that array_free does not owe to an early wake-up. */
  predicate Productive(l: Label) {
    match l
    case MainStep(early) => !early
    case ReqStep(_, early) => !early
    case Recheck => false
    case _ => true
  }
}
