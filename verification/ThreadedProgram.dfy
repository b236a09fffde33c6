/** `dnsthreaded.c` as an object: shared fields, four queues that are the rings of `array.c`, and methods for
    what a thread does between two waits. Each takes as a ghost the state it is to reach (see ThreadTurns); a
    thread whose turn comes while it must wait finds that out from the ring and stays where it is. */
module ThreadedProgram {
  import opened Sums
  import opened Sequential
  import opened Pipeline
  import opened PipelineClose
  import opened PipelineFiles
  import opened PipelineResult
  import opened PipelineTermination
  import opened PipelineBound
  import opened QueueCalls
  import opened ThreadTurns
  import opened FairSchedules
  import Q = BoundedQueue

  class DnsThreaded {
    const cfg: Config
    const filenameQueue: Q.BoundedQueue<nat>
    const requesterLogfileQueue: Q.BoundedQueue<Str>
    const hostnameQueue: Q.BoundedQueue<Str>
    const resolverLogfileQueue: Q.BoundedQueue<Str>
    var main: Main
    var activeFileReaders: int
    var requesters: seq<Requester>
    var resolvers: seq<Resolver>
    var reqLogger: Logger
    var resLogger: Logger
    var reqOut: seq<Str>
    var resOut: seq<Str>
    var filesServiced: seq<nat>
    var hostsResolved: seq<nat>
    ghost var history: History

    ghost function Footprint(): set<object> {
      {this, filenameQueue, filenameQueue.storeString,
       requesterLogfileQueue, requesterLogfileQueue.storeString,
       hostnameQueue, hostnameQueue.storeString,
       resolverLogfileQueue, resolverLogfileQueue.storeString}
    }

    /** The state of the transition system that this object is in. */
    ghost function Model(): State
      reads this, filenameQueue, requesterLogfileQueue, hostnameQueue, resolverLogfileQueue
    {
      State(main, activeFileReaders, requesters, resolvers, reqLogger, resLogger,
        filenameQueue.Abstract(), requesterLogfileQueue.Abstract(),
        hostnameQueue.Abstract(), resolverLogfileQueue.Abstract(),
        reqOut, resOut, filesServiced, hostsResolved,
        history.refused, history.files, history.mallocs, history.frees)
    }

    /** The four queues share nothing. */
    ghost predicate Apart() {
      && requesterLogfileQueue != hostnameQueue && requesterLogfileQueue != resolverLogfileQueue
      && hostnameQueue != resolverLogfileQueue
      && requesterLogfileQueue.storeString != hostnameQueue.storeString
      && requesterLogfileQueue.storeString != resolverLogfileQueue.storeString
      && hostnameQueue.storeString != resolverLogfileQueue.storeString
      && filenameQueue.storeString.Length == requesterLogfileQueue.storeString.Length == cfg.ringSize
      && hostnameQueue.storeString.Length == resolverLogfileQueue.storeString.Length == cfg.ringSize
    }

    /** Each queue counts the threads that are inside its array_get. */
    ghost predicate GettersCounted()
      reads this, filenameQueue, requesterLogfileQueue, hostnameQueue, resolverLogfileQueue
    {
      filenameQueue.activeGetters == Sum(IsTaking, requesters) && OthersCounted()
    }

    ghost predicate OthersCounted()
      reads this, requesterLogfileQueue, hostnameQueue, resolverLogfileQueue
    {
      && requesterLogfileQueue.activeGetters == IsAwaiting(reqLogger)
      && hostnameQueue.activeGetters == Sum(IsFetching, resolvers)
      && resolverLogfileQueue.activeGetters == IsAwaiting(resLogger)
    }

    ghost predicate QueuesOk()
      reads filenameQueue, filenameQueue.storeString, requesterLogfileQueue, requesterLogfileQueue.storeString
      reads hostnameQueue, hostnameQueue.storeString, resolverLogfileQueue, resolverLogfileQueue.storeString
    {
      && Apart() && filenameQueue.Valid() && requesterLogfileQueue.Valid()
      && hostnameQueue.Valid() && resolverLogfileQueue.Valid()
    }

    ghost predicate Valid()
      reads Footprint()
    {
      cfg.Valid() && QueuesOk() && GettersCounted()
    }

    /** Lines 351-365: the queues are initialised. */
    constructor (cfg: Config)
      requires cfg.Valid()
      ensures this.cfg == cfg && QueuesOk() && Model() == Initial(cfg)
      ensures filenameQueue.activeGetters == requesterLogfileQueue.activeGetters == 0
      ensures hostnameQueue.activeGetters == resolverLogfileQueue.activeGetters == 0
      ensures fresh(filenameQueue) && fresh(requesterLogfileQueue) && fresh(hostnameQueue) && fresh(resolverLogfileQueue)
      ensures fresh(filenameQueue.storeString) && fresh(requesterLogfileQueue.storeString)
      ensures fresh(hostnameQueue.storeString) && fresh(resolverLogfileQueue.storeString)
    {
      this.cfg := cfg;
      filenameQueue := new Q.BoundedQueue(cfg.ringSize);
      requesterLogfileQueue := new Q.BoundedQueue(cfg.ringSize);
      hostnameQueue := new Q.BoundedQueue(cfg.ringSize);
      resolverLogfileQueue := new Q.BoundedQueue(cfg.ringSize);
      main, activeFileReaders := SpawnRequester(0), cfg.requesters;
      requesters, resolvers := seq(cfg.requesters, i => Requester.Unborn), seq(cfg.resolvers, i => Resolver.Unborn);
      reqLogger, resLogger := Awaiting, Awaiting;
      reqOut, resOut := [], [];
      filesServiced, hostsResolved := seq(cfg.requesters, i => 0), seq(cfg.resolvers, i => 0);
      history := HistoryOf(Initial(cfg));
    }

    /** Lines 367-391: the log threads are created, and each calls array_get. */
    method StartLogThreads()
      requires cfg.Valid() && QueuesOk() && Model() == Initial(cfg)
      requires filenameQueue.activeGetters == requesterLogfileQueue.activeGetters == 0
      requires hostnameQueue.activeGetters == resolverLogfileQueue.activeGetters == 0
      modifies requesterLogfileQueue`activeGetters, resolverLogfileQueue`activeGetters
      ensures Valid() && Model() == Initial(cfg)
    {
      requesterLogfileQueue.EnterGet();
      resolverLogfileQueue.EnterGet();
      assert QueuesOk();
      SumZero(IsTaking, requesters);
      SumZero(IsFetching, resolvers);
    }

    // -------------------------------------------------------------------------------------------
    // Requesters

    /** Requester `i` goes on to `next`; if that takes it into array_get on filename_queue, or out of it, it
        is counted there already. */
    method Advance(i: nat, next: Requester, ghost h: History)
      requires cfg.Valid() && QueuesOk() && OthersCounted() && i < |requesters|
      requires filenameQueue.activeGetters + IsTaking(requesters[i]) == Sum(IsTaking, requesters) + IsTaking(next)
      modifies this`requesters, this`history
      ensures Valid() && Model() == At(old(Model()), i, next, h)
    {
      SumUpdate(IsTaking, requesters, i, next);
      requesters := requesters[i := next];
      history := h;
    }

    /** Lines 56-74: array_get on filename_queue. */
    method TakeFile(i: nat, ghost s': State)
      requires Valid() && i < |requesters| && requesters[i].Taking?
      requires s' == Taken(Model(), i, HistoryOf(s'))
      modifies this`requesters, this`history
      modifies filenameQueue`head, filenameQueue`delivered, filenameQueue`activeGetters
      ensures Valid() && Model() == s'
    {
      var done, f := ArrayGet(filenameQueue);
      assert QueuesOk();
      if done {
        Advance(i, if f.Some? then Opening(f.value) else Leaving, HistoryOf(s'));
      }
    }

    /** Line 58: back for the next file. */
    method NextName(i: nat, ghost h: History)
      requires Valid() && i < |requesters| && !requesters[i].Taking?
      modifies this`requesters, this`history, filenameQueue`activeGetters
      ensures Valid() && Model() == At(old(Model()), i, Taking, h)
    {
      filenameQueue.EnterGet();
      assert QueuesOk();
      Advance(i, Taking, h);
    }

    /** Lines 69-78 */
    method OpenFile(i: nat, f: nat, ghost s': State)
      requires Valid() && i < |requesters| && requesters[i] == Opening(f)
      requires s' == Opened(cfg, Model(), i, f, HistoryOf(s'))
      modifies this`requesters, this`filesServiced, this`history, filenameQueue`activeGetters
      ensures Valid() && Model() == s'
    {
      if f < |cfg.files| && cfg.files[f].Some? {
        filesServiced := Bump(filesServiced, i);
        Advance(i, Reading(f, 0), HistoryOf(s'));
      } else {
        NextName(i, HistoryOf(s'));
      }
    }

    /** Lines 83-94 and 123-125: the next line of the file, or its end. */
    method ReadLine(i: nat, f: nat, k: nat, ghost s': State)
      requires Valid() && i < |requesters| && requesters[i] == Reading(f, k)
      requires s' == LineRead(cfg, Model(), i, f, k, HistoryOf(s'))
      modifies this`requesters, this`history, filenameQueue`activeGetters
      ensures Valid() && Model() == s'
    {
      var lines := cfg.Names(f);
      if k >= |lines| {
        NextName(i, HistoryOf(s'));
      } else if |lines[k]| == 0 {
        Advance(i, Reading(f, k + 1), HistoryOf(s'));
      } else {
        Advance(i, LogPut(f, k, Str(f, k, lines[k])), HistoryOf(s'));
      }
    }

    /** Lines 96-108: array_put on requester_logfile_queue. */
    method PutLog(i: nat, f: nat, k: nat, copy: Str, ghost s': State)
      requires Valid() && i < |requesters| && requesters[i] == LogPut(f, k, copy)
      requires s' == LinePut(cfg, Model(), i, HostPut(f, k, copy), copy, HistoryOf(s'))
      modifies this`requesters, this`history
      modifies requesterLogfileQueue`tail, requesterLogfileQueue`accepted, requesterLogfileQueue.storeString
      ensures Valid() && Model() == s'
    {
      var done, _ := ArrayPut(requesterLogfileQueue, copy);
      assert QueuesOk();
      if done {
        Advance(i, HostPut(f, k, copy), HistoryOf(s'));
      }
    }

    /** Lines 115-120: array_put on hostname_queue. */
    method PutHost(i: nat, f: nat, k: nat, copy: Str, ghost s': State)
      requires Valid() && i < |requesters| && requesters[i] == HostPut(f, k, copy)
      requires s' == HostSent(cfg, Model(), i, Reading(f, k + 1), copy, HistoryOf(s'))
      modifies this`requesters, this`history
      modifies hostnameQueue`tail, hostnameQueue`accepted, hostnameQueue.storeString
      ensures Valid() && Model() == s'
    {
      var done, _ := ArrayPut(hostnameQueue, copy);
      assert QueuesOk();
      if done {
        Advance(i, Reading(f, k + 1), HistoryOf(s'));
      }
    }

    /** Lines 128-130 and 134 */
    method Leave(i: nat, ghost s': State)
      requires Valid() && i < |requesters| && requesters[i].Leaving?
      requires s' == Gone(Model(), i, HistoryOf(s'))
      modifies this`requesters, this`activeFileReaders, this`history
      ensures Valid() && Model() == s'
    {
      activeFileReaders := activeFileReaders - 1;
      Advance(i, if activeFileReaders == 0 then CloseHosts else Requester.Left, HistoryOf(s'));
    }

    /** Line 131: array_free on hostname_queue. */
    method FreeHosts(i: nat, phase: Phase, early: bool, ghost s': State)
      requires Valid() && i < |requesters|
      requires requesters[i] == match phase case Shutting => CloseHosts case Draining => DrainHosts case Counting => CountHosts
      requires s' == HostsFreed(Model(), i, phase, early, HistoryOf(s'))
      modifies this`requesters, this`history, hostnameQueue`shutdown
      ensures Valid() && Model() == s'
    {
      var done := ArrayFree(hostnameQueue, phase, early);
      assert QueuesOk();
      if done {
        var next :=
          match phase case Shutting => DrainHosts case Draining => CountHosts case Counting => CloseLog;
        Advance(i, next, HistoryOf(s'));
      }
    }

    /** Line 132: array_free on requester_logfile_queue. */
    method FreeLog(i: nat, phase: Phase, early: bool, ghost s': State)
      requires Valid() && i < |requesters|
      requires requesters[i] == match phase case Shutting => CloseLog case Draining => DrainLog case Counting => CountLog
      requires s' == LogFreed(Model(), i, phase, early, HistoryOf(s'))
      modifies this`requesters, this`history, requesterLogfileQueue`shutdown
      ensures Valid() && Model() == s'
    {
      var done := ArrayFree(requesterLogfileQueue, phase, early);
      assert QueuesOk();
      if done {
        var next :=
          match phase case Shutting => DrainLog case Draining => CountLog case Counting => Requester.Left;
        Advance(i, next, HistoryOf(s'));
      }
    }

    // -------------------------------------------------------------------------------------------
    // Resolvers

    /** Resolver `i` goes on to `next`; if that takes it into array_get on hostname_queue, or out of it, it is
        counted there already. */
    method AdvanceResolver(i: nat, next: Resolver, ghost h: History)
      requires cfg.Valid() && QueuesOk() && i < |resolvers|
      requires filenameQueue.activeGetters == Sum(IsTaking, requesters)
      requires requesterLogfileQueue.activeGetters == IsAwaiting(reqLogger)
      requires resolverLogfileQueue.activeGetters == IsAwaiting(resLogger)
      requires hostnameQueue.activeGetters + IsFetching(resolvers[i]) == Sum(IsFetching, resolvers) + IsFetching(next)
      modifies this`resolvers, this`history
      ensures Valid() && Model() == ResolverAt(old(Model()), i, next, h)
    {
      SumUpdate(IsFetching, resolvers, i, next);
      resolvers := resolvers[i := next];
      history := h;
    }

    /** Lines 262-268: array_get on hostname_queue. */
    method Fetch(i: nat, ghost s': State)
      requires Valid() && i < |resolvers| && resolvers[i].Fetching?
      requires s' == Fetched(Model(), i, HistoryOf(s'))
      modifies this`resolvers, this`history
      modifies hostnameQueue`head, hostnameQueue`delivered, hostnameQueue`activeGetters
      ensures Valid() && Model() == s'
    {
      var done, host := ArrayGet(hostnameQueue);
      assert QueuesOk();
      if done {
        AdvanceResolver(i, if host.Some? then Resolving(host.value) else Resolver.Left, HistoryOf(s'));
      }
    }

    /** Lines 191-213 */
    method Resolve(i: nat, host: Str, ghost s': State)
      requires Valid() && i < |resolvers| && resolvers[i] == Resolving(host)
      requires s' == ResolverAt(Model(), i, Posting(host, Message(cfg, host)), HistoryOf(s'))
      modifies this`resolvers, this`history
      ensures Valid() && Model() == s'
    {
      var ip := cfg.lookup(host.text);
      var text := host.text + ", NOT_RESOLVED";
      if ip.Some? {
        text := host.text + ", " + ip.value;
      }
      AdvanceResolver(i, Posting(host, Str(host.file, host.pos, text)), HistoryOf(s'));
    }

    /** Line 264: back for the next host name. */
    method NextHost(i: nat, ghost h: History)
      requires Valid() && i < |resolvers| && !resolvers[i].Fetching?
      modifies this`resolvers, this`history, hostnameQueue`activeGetters
      ensures Valid() && Model() == ResolverAt(old(Model()), i, Fetching, h)
    {
      hostnameQueue.EnterGet();
      assert QueuesOk();
      AdvanceResolver(i, Fetching, h);
    }

    /** Lines 215-224: array_put on resolver_logfile_queue; then back for the next host name. */
    method Post(i: nat, host: Str, message: Str, ghost s': State)
      requires Valid() && i < |resolvers| && resolvers[i] == Posting(host, message)
      requires s' == Posted(cfg, Model(), i, message, HistoryOf(s'))
      modifies this`resolvers, this`hostsResolved, this`history, hostnameQueue`activeGetters
      modifies resolverLogfileQueue`tail, resolverLogfileQueue`accepted, resolverLogfileQueue.storeString
      ensures Valid() && Model() == s'
    {
      var done, accepted := ArrayPut(resolverLogfileQueue, message);
      assert QueuesOk();
      if done {
        hostsResolved := if accepted then Bump(hostsResolved, i) else hostsResolved;
        NextHost(i, HistoryOf(s'));
      }
    }

    // -------------------------------------------------------------------------------------------
    // Log writers

    method AdvanceReqLogger(next: Logger, ghost h: History)
      requires cfg.Valid() && QueuesOk() && filenameQueue.activeGetters == Sum(IsTaking, requesters)
      requires hostnameQueue.activeGetters == Sum(IsFetching, resolvers)
      requires requesterLogfileQueue.activeGetters == IsAwaiting(next)
      requires resolverLogfileQueue.activeGetters == IsAwaiting(resLogger)
      modifies this`reqLogger, this`history
      ensures Valid() && Model() == Recorded(old(Model()).(reqLogger := next), h)
    {
      reqLogger := next;
      history := h;
    }

    method AdvanceResLogger(next: Logger, ghost h: History)
      requires cfg.Valid() && QueuesOk() && filenameQueue.activeGetters == Sum(IsTaking, requesters)
      requires hostnameQueue.activeGetters == Sum(IsFetching, resolvers)
      requires resolverLogfileQueue.activeGetters == IsAwaiting(next)
      requires requesterLogfileQueue.activeGetters == IsAwaiting(reqLogger)
      modifies this`resLogger, this`history
      ensures Valid() && Model() == Recorded(old(Model()).(resLogger := next), h)
    {
      resLogger := next;
      history := h;
    }

    /** Line 232: array_get on requester_logfile_queue. */
    method AwaitLog(ghost s': State)
      requires Valid() && reqLogger.Awaiting?
      requires s' == LogTaken(Model(), HistoryOf(s'))
      modifies this`reqLogger, this`history
      modifies requesterLogfileQueue`head, requesterLogfileQueue`delivered, requesterLogfileQueue`activeGetters
      ensures Valid() && Model() == s'
    {
      var done, message := ArrayGet(requesterLogfileQueue);
      assert QueuesOk();
      if done {
        AdvanceReqLogger(if message.Some? then Writing(message.value) else Logger.Left, HistoryOf(s'));
      }
    }

    /** Lines 235-236, and back for the next message. */
    method WriteLog(ghost s': State)
      requires Valid() && reqLogger.Writing?
      requires s' == Recorded(Model().(reqOut := reqOut + [reqLogger.message], reqLogger := Awaiting), HistoryOf(s'))
      modifies this`reqLogger, this`reqOut, this`history, requesterLogfileQueue`activeGetters
      ensures Valid() && Model() == s'
    {
      requesterLogfileQueue.EnterGet();
      assert QueuesOk();
      reqOut := reqOut + [reqLogger.message];
      AdvanceReqLogger(Awaiting, HistoryOf(s'));
    }

    /** Line 246: array_get on resolver_logfile_queue. */
    method AwaitMessage(ghost s': State)
      requires Valid() && resLogger.Awaiting?
      requires s' == MessageTaken(Model(), HistoryOf(s'))
      modifies this`resLogger, this`history
      modifies resolverLogfileQueue`head, resolverLogfileQueue`delivered, resolverLogfileQueue`activeGetters
      ensures Valid() && Model() == s'
    {
      var done, message := ArrayGet(resolverLogfileQueue);
      assert QueuesOk();
      if done {
        AdvanceResLogger(if message.Some? then Writing(message.value) else Logger.Left, HistoryOf(s'));
      }
    }

    /** Lines 249-250, and back for the next message. */
    method WriteMessage(ghost s': State)
      requires Valid() && resLogger.Writing?
      requires s' == Recorded(Model().(resOut := resOut + [resLogger.message], resLogger := Awaiting), HistoryOf(s'))
      modifies this`resLogger, this`resOut, this`history, resolverLogfileQueue`activeGetters
      ensures Valid() && Model() == s'
    {
      resolverLogfileQueue.EnterGet();
      assert QueuesOk();
      resOut := resOut + [resLogger.message];
      AdvanceResLogger(Awaiting, HistoryOf(s'));
    }

    // -------------------------------------------------------------------------------------------
    // Main

    method AdvanceMain(next: Main, ghost h: History)
      requires Valid()
      modifies this`main, this`history
      ensures Valid() && Model() == Recorded(old(Model()).(main := next), h)
    {
      main := next;
      history := h;
    }

    /** Lines 420-435 */
    method CreateRequester(i: nat, ghost s': State)
      requires Valid() && i < |requesters| && requesters[i].Unborn?
      requires s' == At(Model().(main := SpawnRequester(i + 1)), i, Taking, HistoryOf(s'))
      modifies this`main, this`requesters, this`history, filenameQueue`activeGetters
      ensures Valid() && Model() == s'
    {
      main := SpawnRequester(i + 1);
      NextName(i, HistoryOf(s'));
    }

    /** Lines 451-455: array_put on filename_queue. */
    method PutFile(i: nat, ghost s': State)
      requires Valid() && main == FeedPut(i)
      requires s' == NameFed(cfg, Model(), i, HistoryOf(s'))
      modifies this`main, this`history, filenameQueue`tail, filenameQueue`accepted, filenameQueue.storeString
      ensures Valid() && Model() == s'
    {
      var done, _ := ArrayPut(filenameQueue, i);
      assert QueuesOk();
      if done {
        AdvanceMain(Feed(i + 1), HistoryOf(s'));
      }
    }

    /** Lines 459-471 */
    method CreateResolver(i: nat, ghost s': State)
      requires Valid() && i < |resolvers| && resolvers[i].Unborn?
      requires s' == ResolverAt(Model().(main := SpawnResolver(i + 1)), i, Fetching, HistoryOf(s'))
      modifies this`main, this`resolvers, this`history, hostnameQueue`activeGetters
      ensures Valid() && Model() == s'
    {
      main := SpawnResolver(i + 1);
      NextHost(i, HistoryOf(s'));
    }

    /** Line 474: array_free on filename_queue. */
    method FreeNames(phase: Phase, early: bool, ghost s': State)
      requires Valid()
      requires main == match phase case Shutting => CloseNames case Draining => DrainNames case Counting => CountNames
      requires s' == NamesFreed(Model(), phase, early, HistoryOf(s'))
      modifies this`main, this`history, filenameQueue`shutdown
      ensures Valid() && Model() == s'
    {
      var done := ArrayFree(filenameQueue, phase, early);
      assert QueuesOk();
      if done {
        var next :=
          match phase case Shutting => DrainNames case Draining => CountNames case Counting => JoinRequester(0);
        AdvanceMain(next, HistoryOf(s'));
      }
    }

    /** Line 499: array_free on requester_logfile_queue. */
    method FreeLogAgain(phase: Phase, early: bool, ghost s': State)
      requires Valid()
      requires main == match phase case Shutting => CloseReqLog case Draining => DrainReqLog case Counting => CountReqLog
      requires s' == LogFreedAgain(Model(), phase, early, HistoryOf(s'))
      modifies this`main, this`history, requesterLogfileQueue`shutdown
      ensures Valid() && Model() == s'
    {
      var done := ArrayFree(requesterLogfileQueue, phase, early);
      assert QueuesOk();
      if done {
        var next :=
          match phase case Shutting => DrainReqLog case Draining => CountReqLog case Counting => CloseResLog;
        AdvanceMain(next, HistoryOf(s'));
      }
    }

    /** Line 500: array_free on resolver_logfile_queue. */
    method FreeMessages(phase: Phase, early: bool, ghost s': State)
      requires Valid()
      requires main == match phase case Shutting => CloseResLog case Draining => DrainResLog case Counting => CountResLog
      requires s' == MessagesFreed(Model(), phase, early, HistoryOf(s'))
      modifies this`main, this`history, resolverLogfileQueue`shutdown
      ensures Valid() && Model() == s'
    {
      var done := ArrayFree(resolverLogfileQueue, phase, early);
      assert QueuesOk();
      if done {
        var next :=
          match phase case Shutting => DrainResLog case Draining => CountResLog case Counting => JoinReqLogger;
        AdvanceMain(next, HistoryOf(s'));
      }
    }

    method MoveOn(ghost s': State)
      requires Valid() && s' == MovedOn(cfg, Model(), HistoryOf(s'))
      modifies this`main, this`history
      ensures Valid() && Model() == s'
    {
      var next := NextMain(cfg, main, requesters, resolvers, reqLogger, resLogger);
      if next != main {
        AdvanceMain(next, HistoryOf(s'));
      }
    }

    // -------------------------------------------------------------------------------------------
    // Whose turn it is

    method ReaderTurn(i: nat, ghost s': State)
      requires Valid() && i < |requesters|
      requires requesters[i].Unborn? || requesters[i].Taking? || requesters[i].Opening? || requesters[i].Reading?
      requires ReadsTurn(cfg, Model(), i, s')
      modifies Footprint()
      ensures Valid() && Model() == s'
    {
      match requesters[i] {
        case Unborn =>
        case Taking => TakeFile(i, s');
        case Opening(f) => OpenFile(i, f, s');
        case Reading(f, k) => ReadLine(i, f, k, s');
      }
    }

    method LogTurn(i: nat, early: bool)
      requires Valid() && i < |requesters| && requesters[i].LogPut?
      modifies Footprint()
      ensures Valid() && Model() == Try(cfg, old(Model()), ReqStep(i, early))
    {
      ghost var s' := Try(cfg, Model(), ReqStep(i, early));
      var f, k, copy := requesters[i].f, requesters[i].k, requesters[i].copy;
      LogPutterTurns(cfg, Model(), i, early, f, k, copy, s');
      PutLog(i, f, k, copy, s');
    }

    method HostTurn(i: nat, early: bool)
      requires Valid() && i < |requesters| && requesters[i].HostPut?
      modifies Footprint()
      ensures Valid() && Model() == Try(cfg, old(Model()), ReqStep(i, early))
    {
      ghost var s' := Try(cfg, Model(), ReqStep(i, early));
      var f, k, copy := requesters[i].f, requesters[i].k, requesters[i].copy;
      HostPutterTurns(cfg, Model(), i, early, f, k, copy, s');
      PutHost(i, f, k, copy, s');
    }

    method ExitTurn(i: nat, early: bool, ghost s': State)
      requires Valid() && i < |requesters| && ExitRank(requesters[i]) > 0
      requires ExitsTurn(Model(), i, early, s')
      modifies Footprint()
      ensures Valid() && Model() == s'
    {
      match requesters[i] {
        case Leaving => Leave(i, s');
        case CloseHosts => FreeHosts(i, Shutting, early, s');
        case DrainHosts => FreeHosts(i, Draining, early, s');
        case CountHosts => FreeHosts(i, Counting, early, s');
        case CloseLog => FreeLog(i, Shutting, early, s');
        case DrainLog => FreeLog(i, Draining, early, s');
        case CountLog => FreeLog(i, Counting, early, s');
        case Left =>
      }
    }

    method FileTurn(i: nat, early: bool)
      requires Valid() && i < |requesters| && ExitRank(requesters[i]) == 0
      requires !requesters[i].LogPut? && !requesters[i].HostPut?
      modifies Footprint()
      ensures Valid() && Model() == Try(cfg, old(Model()), ReqStep(i, early))
    {
      ghost var s' := Try(cfg, Model(), ReqStep(i, early));
      FileTurns(cfg, Model(), i, early, s');
      ReaderTurn(i, s');
    }

    method LeaveTurn(i: nat, early: bool)
      requires Valid() && i < |requesters| && ExitRank(requesters[i]) > 0
      modifies Footprint()
      ensures Valid() && Model() == Try(cfg, old(Model()), ReqStep(i, early))
    {
      ExitTurns(cfg, Model(), i, early);
      ExitTurn(i, early, Try(cfg, Model(), ReqStep(i, early)));
    }

    /** process_files_from_queue, lines 48-139, from one wait to the next. */
    method ProcessFilesFromQueue(i: nat, early: bool)
      requires Valid() && i < |requesters|
      modifies Footprint()
      ensures Valid() && Model() == Try(cfg, old(Model()), ReqStep(i, early))
    {
      if requesters[i].LogPut? {
        LogTurn(i, early);
      } else if requesters[i].HostPut? {
        HostTurn(i, early);
      } else if ExitRank(requesters[i]) > 0 {
        LeaveTurn(i, early);
      } else {
        FileTurn(i, early);
      }
    }

    method ServeResolver(i: nat, ghost s': State)
      requires Valid() && i < |resolvers| && ResolverTurn(cfg, Model(), i, s')
      modifies Footprint()
      ensures Valid() && Model() == s'
    {
      match resolvers[i] {
        case Unborn =>
        case Fetching => Fetch(i, s');
        case Resolving(host) => Resolve(i, host, s');
        case Posting(host, message) => Post(i, host, message, s');
        case Left =>
      }
    }

    /** resolver_thread, lines 256-281, from one wait to the next. */
    method ResolverThread(i: nat)
      requires Valid() && i < |resolvers|
      modifies Footprint()
      ensures Valid() && Model() == Try(cfg, old(Model()), ResStep(i))
    {
      ResolverTurns(cfg, Model(), i);
      ServeResolver(i, Try(cfg, Model(), ResStep(i)));
    }

    method ServeLogWriters(first: bool, ghost s': State)
      requires Valid() && (if first then LogWriterTurn(Model(), s') else MessageWriterTurn(Model(), s'))
      modifies Footprint()
      ensures Valid() && Model() == s'
    {
      if first {
        match reqLogger {
          case Awaiting => AwaitLog(s');
          case Writing(_) => WriteLog(s');
          case Left =>
        }
      } else {
        match resLogger {
          case Awaiting => AwaitMessage(s');
          case Writing(_) => WriteMessage(s');
          case Left =>
        }
      }
    }

    /** requester_logfile_thread_func, lines 228-239, from one wait to the next. */
    method RequesterLogfileThread()
      requires Valid()
      modifies Footprint()
      ensures Valid() && Model() == Try(cfg, old(Model()), ReqLogStep)
    {
      LogWriterTurns(cfg, Model());
      ServeLogWriters(true, Try(cfg, Model(), ReqLogStep));
    }

    /** resolver_logfile_thread_func, lines 242-253, from one wait to the next. */
    method ResolverLogfileThread()
      requires Valid()
      modifies Footprint()
      ensures Valid() && Model() == Try(cfg, old(Model()), ResLogStep)
    {
      LogWriterTurns(cfg, Model());
      ServeLogWriters(false, Try(cfg, Model(), ResLogStep));
    }

    method EndTurn(early: bool, ghost s': State)
      requires Valid() && MainRank(main) > 2 && EndsTurn(cfg, Model(), early, s')
      modifies Footprint()
      ensures Valid() && Model() == s'
    {
      match main {
        case CloseNames => FreeNames(Shutting, early, s');
        case DrainNames => FreeNames(Draining, early, s');
        case CountNames => FreeNames(Counting, early, s');
        case CloseReqLog => FreeLogAgain(Shutting, early, s');
        case DrainReqLog => FreeLogAgain(Draining, early, s');
        case CountReqLog => FreeLogAgain(Counting, early, s');
        case CloseResLog => FreeMessages(Shutting, early, s');
        case DrainResLog => FreeMessages(Draining, early, s');
        case CountResLog => FreeMessages(Counting, early, s');
        case JoinRequester(_) => MoveOn(s');
        case JoinResolver(_) => MoveOn(s');
        case JoinReqLogger => MoveOn(s');
        case JoinResLogger => MoveOn(s');
        case Finished => MoveOn(s');
      }
    }

    method SpawnRequesterTurn(i: nat, early: bool)
      requires Valid() && main == SpawnRequester(i) && i < |requesters| && requesters[i].Unborn?
      modifies Footprint()
      ensures Valid() && Model() == Try(cfg, old(Model()), MainStep(early))
    {
      ghost var s' := Try(cfg, Model(), MainStep(early));
      SpawnRequesterTurns(cfg, Model(), i, early, s');
      CreateRequester(i, s');
    }

    method SpawnResolverTurn(i: nat, early: bool)
      requires Valid() && main == SpawnResolver(i) && i < |resolvers| && resolvers[i].Unborn?
      modifies Footprint()
      ensures Valid() && Model() == Try(cfg, old(Model()), MainStep(early))
    {
      ghost var s' := Try(cfg, Model(), MainStep(early));
      SpawnResolverTurns(cfg, Model(), i, early, s');
      CreateResolver(i, s');
    }

    method FeedTurn(i: nat, early: bool)
      requires Valid() && main == FeedPut(i)
      modifies Footprint()
      ensures Valid() && Model() == Try(cfg, old(Model()), MainStep(early))
    {
      ghost var s' := Try(cfg, Model(), MainStep(early));
      FeedTurns(cfg, Model(), i, early, s');
      PutFile(i, s');
    }

    method LoopTurn(early: bool)
      requires Valid() && MainRank(main) <= 2 && !main.FeedPut?
      requires main.SpawnRequester? ==> main.i >= |requesters|
      requires main.SpawnResolver? ==> main.i >= |resolvers|
      modifies Footprint()
      ensures Valid() && Model() == Try(cfg, old(Model()), MainStep(early))
    {
      ghost var s' := Try(cfg, Model(), MainStep(early));
      StartMoves(cfg, Model(), early, s');
      MoveOn(s');
    }

    method StartTurn(early: bool)
      requires Valid() && SpawnOk(Model()) && MainRank(main) <= 2
      modifies Footprint()
      ensures Valid() && Model() == Try(cfg, old(Model()), MainStep(early))
    {
      if main.SpawnRequester? && main.i < |requesters| {
        SpawnRequesterTurn(main.i, early);
      } else if main.SpawnResolver? && main.i < |resolvers| {
        SpawnResolverTurn(main.i, early);
      } else if main.FeedPut? {
        FeedTurn(main.i, early);
      } else {
        LoopTurn(early);
      }
    }

    /** main, lines 420-504, from one wait to the next. */
    method MainThread(early: bool)
      requires Valid() && SpawnOk(Model())
      modifies Footprint()
      ensures Valid() && Model() == Try(cfg, old(Model()), MainStep(early))
    {
      if MainRank(main) <= 2 {
        StartTurn(early);
      } else {
        EndTurns(cfg, Model(), early);
        EndTurn(early, Try(cfg, Model(), MainStep(early)));
      }
    }

    /** One turn of whatever thread it is: a step of the pipeline if the thread need not wait, and nothing if it
        must. */
    method Turn(l: Label)
      requires Valid() && SpawnOk(Model())
      modifies Footprint()
      ensures Valid() && Model() == Try(cfg, old(Model()), l)
    {
      match l {
        case MainStep(early) => MainThread(early);
        case ReqStep(i, early) =>
          if i < |requesters| {
            ProcessFilesFromQueue(i, early);
          }
        case ResStep(i) =>
          if i < |resolvers| {
            ResolverThread(i);
          }
        case ReqLogStep => RequesterLogfileThread();
        case ResLogStep => ResolverLogfileThread();
        case Recheck =>
      }
    }

    /** Turn by turn to the end of main. */
    method Run(schedule: nat -> Label)
      requires Valid() && Model() == Initial(cfg) && Fair(cfg, schedule)
      requires FilesThatOpen(cfg) <= cfg.ringSize - 1 + cfg.requesters
      modifies Footprint()
      ensures Valid() && Reachable(cfg, Model()) && Model().main.Finished?
    {
      StartIsReachable(cfg);
      var turn := 0;
      ghost var s := Model();
      ghost var due := NextDue(cfg, schedule, s, 0);
      while !main.Finished?
        invariant Valid() && Model() == s && Reachable(cfg, s)
        invariant turn <= due && (s.main.Finished? || Works(cfg, s, schedule(due)))
        decreases Measure(cfg, s), due - turn
      {
        StartsSafely(cfg, s);
        Turn(schedule(turn));
        due := AfterTurn(cfg, schedule, s, turn, due, Model());
        s := Model();
        turn := turn + 1;
      }
    }

    /** Total correctness: from the initialised queues on, under every fair schedule, the whole program, rings
        and all, comes to its end, and its logs are those of `ThreadedRefinesSequential`, provided that at most
        N - 1 + R files open. */
    method RunToTheEnd(schedule: nat -> Label)
      requires cfg.Valid() && QueuesOk() && Model() == Initial(cfg)
      requires filenameQueue.activeGetters == requesterLogfileQueue.activeGetters == 0
      requires hostnameQueue.activeGetters == resolverLogfileQueue.activeGetters == 0
      requires Fair(cfg, schedule) && FilesThatOpen(cfg) <= cfg.ringSize - 1 + cfg.requesters
      modifies Footprint()
      ensures main.Finished?
      ensures multiset(Texts(resOut)) == multiset(Entries(cfg.lookup, NonBlank(AllNames(cfg.files))))
      ensures multiset(Texts(reqOut)) == multiset(NonBlank(AllNames(cfg.files)))
      ensures forall f: nat :: f < |cfg.files| ==> Texts(OfFile(reqOut, f)) == NonBlank(NamesIn(cfg.files[f]))
    {
      StartLogThreads();
      Run(schedule);
      ThreadedRefinesSequential(cfg, Model());
    }
  }
}
