/** Heap blocks in the threaded program: every block that travels through a queue has exactly one owner
    until it is freed, is freed once, and none is left at the end. */
module PipelineOwnership {
  import opened Sums
  import opened Fifo
  import opened Wrappers
  import opened Pipeline
  import opened PipelineClose
  import opened PipelineFrame
  import opened PipelineFiles
  import opened PipelineResult

  // ---------------------------------------------------------------------------------------------
  // Who owns what

  /** What to count: the copies of one block, or all blocks. */
  datatype Which = One(block: Block) | All

  function Unit(w: Which, b: Block): nat {
    if w.All? || w.block == b then 1 else 0
  }

  function Count(w: Which, m: multiset<Block>): nat {
    match w
    case One(b) => m[b]
    case All => |m|
  }

  lemma CountAdd(w: Which, m: multiset<Block>, b: Block)
    ensures Count(w, m + multiset{b}) == Count(w, m) + Unit(w, b)
  {
  }

  function MainOwns(w: Which, m: Main): nat {
    if m.FeedPut? then Unit(w, NameCopy(m.i)) else 0
  }

  function ReqOwns(w: Which): Requester -> nat {
    (r: Requester) =>
      match r
      case Opening(f) => Unit(w, NameCopy(f))
      case Reading(f, _) => Unit(w, NameCopy(f))
      case LogPut(f, k, _) => Unit(w, NameCopy(f)) + Unit(w, LogCopy(f, k))
      case HostPut(f, k, _) => Unit(w, NameCopy(f)) + Unit(w, HostCopy(f, k))
      case _ => 0
  }

  function ResOwns(w: Which): Resolver -> nat {
    (r: Resolver) =>
      match r
      case Resolving(host) => Unit(w, HostCopy(host.file, host.pos))
      case Posting(host, message) => Unit(w, HostCopy(host.file, host.pos)) + Unit(w, MessageCopy(message.file, message.pos))
      case _ => 0
  }

  function IsName(w: Which): nat -> nat {
    (f: nat) => Unit(w, NameCopy(f))
  }

  function IsLog(w: Which): Str -> nat {
    (x: Str) => Unit(w, LogCopy(x.file, x.pos))
  }

  function IsHost(w: Which): Str -> nat {
    (x: Str) => Unit(w, HostCopy(x.file, x.pos))
  }

  function IsMessage(w: Which): Str -> nat {
    (x: Str) => Unit(w, MessageCopy(x.file, x.pos))
  }

  function HandOwns(l: Logger, unit: Str -> nat): nat {
    if l.Writing? then unit(l.message) else 0
  }

  function Queued<T>(q: Fifo<T>): seq<T> {
    if q.taken <= |q.accepted| then q.accepted[q.taken..] else []
  }

  /** How often the blocks `w` have an owner: main, a requester, a resolver, a log writer or a queue. */
  ghost function Owners(w: Which, s: State): nat {
    MainOwns(w, s.main) + Sum(ReqOwns(w), s.requesters) + Sum(ResOwns(w), s.resolvers)
    + HandOwns(s.reqLogger, IsLog(w)) + HandOwns(s.resLogger, IsMessage(w))
    + Sum(IsName(w), Queued(s.names)) + Sum(IsLog(w), Queued(s.log))
    + Sum(IsHost(w), Queued(s.hosts)) + Sum(IsMessage(w), Queued(s.messages))
  }

  /** Whatever was allocated has an owner or was freed. */
  ghost predicate Accounted(w: Which, s: State) {
    Count(w, s.mallocs) == Owners(w, s) + Count(w, s.frees)
  }

  lemma QueuedPut<T>(f: T -> nat, q: Fifo<T>, x: T)
    requires q.taken <= |q.accepted| && !q.closed
    ensures Sum(f, Queued(q.Put(x))) == Sum(f, Queued(q)) + f(x)
  {
    assert Queued(q.Put(x)) == Queued(q) + [x];
    SumAppend(f, Queued(q), x);
  }

  lemma QueuedGet<T>(f: T -> nat, q: Fifo<T>)
    requires !q.IsEmpty()
    ensures Sum(f, Queued(q)) == f(q.accepted[q.taken]) + Sum(f, Queued(q.Get()))
  {
    assert Queued(q)[1..] == Queued(q.Get());
  }

  lemma InitOwners(w: Which, cfg: Config, s: State)
    requires Init(cfg, s)
    ensures Owners(w, s) == 0
  {
    SumZero(ReqOwns(w), s.requesters);
    SumZero(ResOwns(w), s.resolvers);
  }

  lemma InitAccounted(w: Which, cfg: Config, s: State)
    requires Init(cfg, s)
    ensures Accounted(w, s)
  {
    InitOwners(w, cfg, s);
  }

  lemma QuietReqOwns(w: Which, a: seq<Requester>, b: seq<Requester>)
    requires QuietRequesters(a, b)
    ensures Sum(ReqOwns(w), a) == Sum(ReqOwns(w), b)
  {
    SumPointwise(ReqOwns(w), a, b);
  }

  lemma QuietResOwns(w: Which, a: seq<Resolver>, b: seq<Resolver>)
    requires QuietResolvers(a, b)
    ensures Sum(ResOwns(w), a) == Sum(ResOwns(w), b)
  {
    SumPointwise(ResOwns(w), a, b);
  }

  lemma SameQueued<T>(q: Fifo<T>, q': Fifo<T>)
    requires q'.accepted == q.accepted && q'.taken == q.taken
    ensures Queued(q') == Queued(q)
  {
  }

  lemma QuietAccounted(w: Which, cfg: Config, s: State, s': State)
    requires Accounted(w, s) && Quiet(cfg, s, s')
    ensures Accounted(w, s')
  {
    QuietReqOwns(w, s.requesters, s'.requesters);
    QuietResOwns(w, s.resolvers, s'.resolvers);
    SameQueued(s.names, s'.names);
    SameQueued(s.log, s'.log);
    SameQueued(s.hosts, s'.hosts);
    SameQueued(s.messages, s'.messages);
  }

  // ---------------------------------------------------------------------------------------------
  // Requesters

  /** Requester `i` moves on; the name, log and host queues may change. */
  lemma RequesterMove(w: Which, s: State, i: nat, pc: Requester, s': State)
    requires i < |s.requesters| && s'.requesters == s.requesters[i := pc]
    requires s'.main == s.main && s'.resolvers == s.resolvers && s'.messages == s.messages
    requires s'.reqLogger == s.reqLogger && s'.resLogger == s.resLogger
    ensures Owners(w, s') - Owners(w, s) ==
      ReqOwns(w)(pc) - ReqOwns(w)(s.requesters[i])
      + Sum(IsName(w), Queued(s'.names)) - Sum(IsName(w), Queued(s.names))
      + Sum(IsLog(w), Queued(s'.log)) - Sum(IsLog(w), Queued(s.log))
      + Sum(IsHost(w), Queued(s'.hosts)) - Sum(IsHost(w), Queued(s.hosts))
  {
    SumUpdate(ReqOwns(w), s.requesters, i, pc);
  }

  lemma TakeBlocks(w: Which, cfg: Config, s: State, i: nat)
    requires Accounted(w, s) && i < |s.requesters| && s.requesters[i].Taking? && !s.names.IsEmpty()
    ensures Accounted(w, TakeStep(cfg, s, i))
  {
    var f := s.names.accepted[s.names.taken];
    RequesterMove(w, s, i, Opening(f), TakeStep(cfg, s, i));
    QueuedGet(IsName(w), s.names);
  }

  lemma EndBlocks(w: Which, cfg: Config, s: State, i: nat, f: nat, k: nat)
    requires Accounted(w, s) && i < |s.requesters| && s.requesters[i] == Reading(f, k) && k >= |cfg.Names(f)|
    ensures Accounted(w, ReadStep(cfg, s, i, f, k))
  {
    RequesterMove(w, s, i, Taking, ReadStep(cfg, s, i, f, k));
    CountAdd(w, s.frees, NameCopy(f));
  }

  /** Requester `i` goes on to `pc`, the queues stand still, and `more` blocks are allocated and not freed. */
  lemma OwnedMove(w: Which, s: State, i: nat, pc: Requester, s': State, more: int)
    requires Accounted(w, s) && i < |s.requesters| && s'.requesters == s.requesters[i := pc]
    requires s'.main == s.main && s'.resolvers == s.resolvers && s'.messages == s.messages
    requires s'.reqLogger == s.reqLogger && s'.resLogger == s.resLogger
    requires s'.names == s.names && s'.log == s.log && s'.hosts == s.hosts
    requires ReqOwns(w)(pc) - ReqOwns(w)(s.requesters[i]) == more
    requires Count(w, s'.mallocs) - Count(w, s.mallocs) == Count(w, s'.frees) - Count(w, s.frees) + more
    ensures Accounted(w, s')
  {
    RequesterMove(w, s, i, pc, s');
  }

  lemma OpenBlocks(w: Which, cfg: Config, s: State, i: nat, f: nat, s': State)
    requires Accounted(w, s) && i < |s.requesters| && s.requesters[i] == Opening(f) && cfg.Opens(f)
    requires s' == OpenStep(cfg, s, i, f)
    ensures Accounted(w, s')
  {
    OwnedMove(w, s, i, Reading(f, 0), s', 0);
  }

  lemma BlankBlocks(w: Which, cfg: Config, s: State, i: nat, f: nat, k: nat, s': State)
    requires Accounted(w, s) && i < |s.requesters| && s.requesters[i] == Reading(f, k) && k < |cfg.Names(f)|
    requires cfg.Names(f)[k] == "" && s' == ReadStep(cfg, s, i, f, k)
    ensures Accounted(w, s')
  {
    OwnedMove(w, s, i, Reading(f, k + 1), s', 0);
  }

  lemma LineBlocks(w: Which, cfg: Config, s: State, i: nat, f: nat, k: nat, s': State)
    requires Accounted(w, s) && i < |s.requesters| && s.requesters[i] == Reading(f, k) && k < |cfg.Names(f)|
    requires cfg.Names(f)[k] != "" && s' == ReadStep(cfg, s, i, f, k)
    ensures Accounted(w, s')
  {
    CountAdd(w, s.mallocs, LogCopy(f, k));
    OwnedMove(w, s, i, LogPut(f, k, Str(f, k, cfg.Names(f)[k])), s', Unit(w, LogCopy(f, k)));
  }

  lemma ReadBlocks(w: Which, cfg: Config, s: State, i: nat, f: nat, k: nat, s': State)
    requires Accounted(w, s) && i < |s.requesters| && s.requesters[i] == Reading(f, k) && k < |cfg.Names(f)|
    requires s' == ReadStep(cfg, s, i, f, k)
    ensures Accounted(w, s')
  {
    if cfg.Names(f)[k] == "" {
      BlankBlocks(w, cfg, s, i, f, k, s');
    } else {
      LineBlocks(w, cfg, s, i, f, k, s');
    }
  }

  /** Requester `i` puts `x` on the log queue. */
  lemma LogMove(w: Which, s: State, i: nat, pc: Requester, x: Str, s': State)
    requires i < |s.requesters| && s'.requesters == s.requesters[i := pc]
    requires s'.main == s.main && s'.resolvers == s.resolvers && s'.messages == s.messages
    requires s'.reqLogger == s.reqLogger && s'.resLogger == s.resLogger
    requires s'.names == s.names && s'.hosts == s.hosts && s'.log == s.log.Put(x)
    requires !s.log.closed && s.log.taken <= |s.log.accepted|
    ensures Owners(w, s') - Owners(w, s) == ReqOwns(w)(pc) - ReqOwns(w)(s.requesters[i]) + IsLog(w)(x)
  {
    RequesterMove(w, s, i, pc, s');
    QueuedPut(IsLog(w), s.log, x);
  }

  lemma LogBlocks(w: Which, cfg: Config, s: State, i: nat, f: nat, k: nat, copy: Str)
    requires Accounted(w, s) && i < |s.requesters| && s.requesters[i] == LogPut(f, k, copy)
    requires copy.file == f && copy.pos == k && !s.log.closed && s.log.taken <= |s.log.accepted|
    ensures Accounted(w, LogStep(cfg, s, i, f, k, copy))
  {
    LogMove(w, s, i, HostPut(f, k, copy), copy, LogStep(cfg, s, i, f, k, copy));
    CountAdd(w, s.mallocs, HostCopy(f, k));
  }

  /** Requester `i` puts `x` on the host queue. */
  lemma HostMove(w: Which, s: State, i: nat, pc: Requester, x: Str, s': State)
    requires i < |s.requesters| && s'.requesters == s.requesters[i := pc]
    requires s'.main == s.main && s'.resolvers == s.resolvers && s'.messages == s.messages
    requires s'.reqLogger == s.reqLogger && s'.resLogger == s.resLogger
    requires s'.names == s.names && s'.log == s.log && s'.hosts == s.hosts.Put(x)
    requires !s.hosts.closed && s.hosts.taken <= |s.hosts.accepted|
    ensures Owners(w, s') - Owners(w, s) == ReqOwns(w)(pc) - ReqOwns(w)(s.requesters[i]) + IsHost(w)(x)
  {
    RequesterMove(w, s, i, pc, s');
    QueuedPut(IsHost(w), s.hosts, x);
  }

  lemma HostBlocks(w: Which, cfg: Config, s: State, i: nat, f: nat, k: nat, copy: Str, s': State)
    requires Accounted(w, s) && i < |s.requesters| && s.requesters[i] == HostPut(f, k, copy)
    requires copy.file == f && copy.pos == k && !s.hosts.closed && s.hosts.taken <= |s.hosts.accepted|
    requires s' == HostStep(cfg, s, i, f, k, copy)
    ensures Accounted(w, s')
  {
    HostMove(w, s, i, Reading(f, k + 1), copy, s');
  }

  lemma WorkBlocks(w: Which, cfg: Config, s: State, i: nat)
    requires Accounted(w, s) && FileInv(cfg, s) && Works(s, i)
    requires !s.log.closed && !s.hosts.closed && s.log.taken <= |s.log.accepted| && s.hosts.taken <= |s.hosts.accepted|
    ensures Accounted(w, ReqApply(cfg, s, i))
  {
    assert ReaderAt(cfg, s.files, i, s.requesters[i]);
    match s.requesters[i] {
      case Taking => TakeBlocks(w, cfg, s, i);
      case Opening(f) => OpenBlocks(w, cfg, s, i, f, OpenStep(cfg, s, i, f));
      case Reading(f, k) =>
        if k >= |cfg.Names(f)| {
          EndBlocks(w, cfg, s, i, f, k);
        } else {
          ReadBlocks(w, cfg, s, i, f, k, ReadStep(cfg, s, i, f, k));
        }
      case LogPut(f, k, copy) => LogBlocks(w, cfg, s, i, f, k, copy);
      case HostPut(f, k, copy) => HostBlocks(w, cfg, s, i, f, k, copy, HostStep(cfg, s, i, f, k, copy));
    }
  }

  lemma ReqAccounted(w: Which, cfg: Config, s: State, i: nat)
    requires Accounted(w, s) && CloseInv(cfg, s) && FileInv(cfg, s) && i < |s.requesters|
    ensures Accounted(w, ReqApply(cfg, s, i))
  {
    if Works(s, i) {
      OpenForReaders(cfg, s, i);
      WorkBlocks(w, cfg, s, i);
    } else {
      QuietReq(cfg, s, i);
      QuietAccounted(w, cfg, s, ReqApply(cfg, s, i));
    }
  }

  // ---------------------------------------------------------------------------------------------
  // Resolvers, log writers, main

  lemma ResolverMove(w: Which, s: State, i: nat, pc: Resolver, s': State)
    requires i < |s.resolvers| && s'.resolvers == s.resolvers[i := pc]
    requires s'.main == s.main && s'.requesters == s.requesters && s'.names == s.names && s'.log == s.log
    requires s'.reqLogger == s.reqLogger && s'.resLogger == s.resLogger
    ensures Owners(w, s') - Owners(w, s) ==
      ResOwns(w)(pc) - ResOwns(w)(s.resolvers[i])
      + Sum(IsHost(w), Queued(s'.hosts)) - Sum(IsHost(w), Queued(s.hosts))
      + Sum(IsMessage(w), Queued(s'.messages)) - Sum(IsMessage(w), Queued(s.messages))
  {
    SumUpdate(ResOwns(w), s.resolvers, i, pc);
  }

  lemma FetchBlocks(w: Which, cfg: Config, s: State, i: nat)
    requires Accounted(w, s) && i < |s.resolvers| && s.resolvers[i].Fetching? && !s.hosts.IsEmpty()
    ensures Accounted(w, ResApply(cfg, s, i))
  {
    ResolverMove(w, s, i, Resolving(s.hosts.accepted[s.hosts.taken]), ResApply(cfg, s, i));
    QueuedGet(IsHost(w), s.hosts);
  }

  lemma ResolveBlocks(w: Which, cfg: Config, s: State, i: nat, host: Str)
    requires Accounted(w, s) && i < |s.resolvers| && s.resolvers[i] == Resolving(host)
    ensures Accounted(w, ResApply(cfg, s, i))
  {
    ResolverMove(w, s, i, Posting(host, Message(cfg, host)), ResApply(cfg, s, i));
    CountAdd(w, s.mallocs, MessageCopy(host.file, host.pos));
  }

  lemma PostBlocks(w: Which, cfg: Config, s: State, i: nat, host: Str, message: Str)
    requires Accounted(w, s) && i < |s.resolvers| && s.resolvers[i] == Posting(host, message)
    requires !s.messages.closed && s.messages.taken <= |s.messages.accepted|
    ensures Accounted(w, PostStep(cfg, s, i, host, message))
  {
    ResolverMove(w, s, i, Fetching, PostStep(cfg, s, i, host, message));
    QueuedPut(IsMessage(w), s.messages, message);
    CountAdd(w, s.frees, HostCopy(host.file, host.pos));
  }

  lemma ResAccounted(w: Which, cfg: Config, s: State, i: nat)
    requires Accounted(w, s) && CloseInv(cfg, s) && i < |s.resolvers|
    ensures Accounted(w, ResApply(cfg, s, i))
  {
    match s.resolvers[i] {
      case Resolving(host) => ResolveBlocks(w, cfg, s, i, host);
      case Posting(host, message) =>
        OpenForResolvers(cfg, s, i);
        PostBlocks(w, cfg, s, i, host, message);
      case _ =>
        if s.resolvers[i].Fetching? && !s.hosts.IsEmpty() {
          FetchBlocks(w, cfg, s, i);
        } else {
          QuietRes(cfg, s, i);
          QuietAccounted(w, cfg, s, ResApply(cfg, s, i));
        }
    }
  }

  lemma LogWritten(w: Which, s: State, s': State)
    requires Accounted(w, s) && s.reqLogger.Writing? && s' == ReqLogApply(s)
    ensures Accounted(w, s')
  {
    CountAdd(w, s.frees, LogCopy(s.reqLogger.message.file, s.reqLogger.message.pos));
  }

  lemma ReqLogAccounted(w: Which, s: State)
    requires Accounted(w, s)
    ensures Accounted(w, ReqLogApply(s))
  {
    if s.reqLogger.Writing? {
      LogWritten(w, s, ReqLogApply(s));
    } else if !s.log.IsEmpty() {
      QueuedGet(IsLog(w), s.log);
    }
  }

  lemma MessageWritten(w: Which, s: State, s': State)
    requires Accounted(w, s) && s.resLogger.Writing? && s' == ResLogApply(s)
    ensures Accounted(w, s')
  {
    CountAdd(w, s.frees, MessageCopy(s.resLogger.message.file, s.resLogger.message.pos));
  }

  lemma ResLogAccounted(w: Which, s: State)
    requires Accounted(w, s)
    ensures Accounted(w, ResLogApply(s))
  {
    if s.resLogger.Writing? {
      MessageWritten(w, s, ResLogApply(s));
    } else if !s.messages.IsEmpty() {
      QueuedGet(IsMessage(w), s.messages);
    }
  }

  /** Main moves on, and may put a name on its queue. */
  lemma MainMove(w: Which, s: State, s': State)
    requires s'.requesters == s.requesters && s'.resolvers == s.resolvers && s'.log == s.log && s'.hosts == s.hosts
    requires s'.messages == s.messages && s'.reqLogger == s.reqLogger && s'.resLogger == s.resLogger
    ensures Owners(w, s') - Owners(w, s) ==
      MainOwns(w, s'.main) - MainOwns(w, s.main) + Sum(IsName(w), Queued(s'.names)) - Sum(IsName(w), Queued(s.names))
  {
  }

  lemma FeedPutAccounted(w: Which, cfg: Config, s: State)
    requires Accounted(w, s) && !s.names.closed && s.names.taken <= |s.names.accepted|
    requires s.main.FeedPut?
    ensures Accounted(w, FeedStep(cfg, s))
  {
    MainMove(w, s, FeedStep(cfg, s));
    QueuedPut(IsName(w), s.names, s.main.i);
  }

  /** Main moves on without touching a queue, with `more` blocks allocated. */
  lemma OwnedMain(w: Which, s: State, s': State, more: nat)
    requires Accounted(w, s) && s'.requesters == s.requesters && s'.resolvers == s.resolvers && s'.names == s.names
    requires s'.log == s.log && s'.hosts == s.hosts && s'.messages == s.messages
    requires s'.reqLogger == s.reqLogger && s'.resLogger == s.resLogger && s'.frees == s.frees
    requires MainOwns(w, s'.main) == MainOwns(w, s.main) + more
    requires Count(w, s'.mallocs) == Count(w, s.mallocs) + more
    ensures Accounted(w, s')
  {
    MainMove(w, s, s');
  }

  lemma FeedAccounted(w: Which, cfg: Config, s: State, s': State)
    requires Accounted(w, s) && s.main.Feed? && s' == FeedStep(cfg, s)
    ensures Accounted(w, s')
  {
    CountAdd(w, s.mallocs, NameCopy(s.main.i));
    OwnedMain(w, s, s', if s'.main.FeedPut? then Unit(w, NameCopy(s.main.i)) else 0);
  }

  lemma MainAccounted(w: Which, cfg: Config, s: State)
    requires Accounted(w, s) && CloseInv(cfg, s) && FeedOk(cfg, s.main)
    ensures Accounted(w, MainApply(cfg, s))
  {
    if s.main.Feed? {
      FeedAccounted(w, cfg, s, FeedStep(cfg, s));
    } else if s.main.FeedPut? {
      FeedPutAccounted(w, cfg, s);
    } else {
      QuietMainStep(cfg, s);
      QuietAccounted(w, cfg, s, MainApply(cfg, s));
    }
  }

  lemma AccountedKept(w: Which, cfg: Config, s: State, l: Label, s': State)
    requires Accounted(w, s) && CloseInv(cfg, s) && FileInv(cfg, s) && Next(cfg, s, l, s')
    ensures Accounted(w, s')
  {
    match l {
      case MainStep(_) => MainAccounted(w, cfg, s);
      case ReqStep(i, _) => ReqAccounted(w, cfg, s, i);
      case ResStep(i) => ResAccounted(w, cfg, s, i);
      case ReqLogStep => ReqLogAccounted(w, s);
      case ResLogStep => ResLogAccounted(w, s);
      case Recheck =>
    }
  }

  // ---------------------------------------------------------------------------------------------
  // The error paths

  /** A file that a requester cannot open, or a string that a closed queue refuses. */
  predicate ErrorPath(cfg: Config, s: State, l: Label) {
    match l
    case MainStep(_) => s.main.FeedPut? && s.names.closed
    case ReqStep(i, _) =>
      i < |s.requesters| && (
        match s.requesters[i]
        case Opening(f) => !cfg.Opens(f)
        case LogPut(_, _, _) => s.log.closed
        case HostPut(_, _, _) => s.hosts.closed
        case _ => false)
    case ResStep(i) => i < |s.resolvers| && s.resolvers[i].Posting? && s.messages.closed
    case _ => false
  }

  /** Requester `i` goes on to `pc`, the queues stand still, `made` is allocated and `freed` is freed. */
  ghost predicate Drops(s: State, i: nat, pc: Requester, made: multiset<Block>, freed: Block, s': State) {
    && i < |s.requesters| && s'.requesters == s.requesters[i := pc]
    && s'.main == s.main && s'.resolvers == s.resolvers
    && s'.reqLogger == s.reqLogger && s'.resLogger == s.resLogger
    && s'.names == s.names && s'.log == s.log && s'.hosts == s.hosts && s'.messages == s.messages
    && s'.mallocs == s.mallocs + made && s'.frees == s.frees + multiset{freed}
  }

  lemma DropAccounted(w: Which, s: State, i: nat, pc: Requester, made: multiset<Block>, freed: Block, s': State)
    requires Accounted(w, s) && Drops(s, i, pc, made, freed, s')
    requires ReqOwns(w)(pc) + Unit(w, freed) == ReqOwns(w)(s.requesters[i]) + Count(w, made)
    ensures Accounted(w, s')
  {
    RequesterMove(w, s, i, pc, s');
    CountAdd(w, s.frees, freed);
    assert Count(w, s'.mallocs) == Count(w, s.mallocs) + Count(w, made);
  }

  lemma FileErrorFrees(w: Which, cfg: Config, s: State, i: nat, f: nat, s': State)
    requires Accounted(w, s) && i < |s.requesters| && s.requesters[i] == Opening(f) && !cfg.Opens(f)
    requires s' == OpenStep(cfg, s, i, f)
    ensures Accounted(w, s')
  {
    assert Drops(s, i, Taking, multiset{}, NameCopy(f), s');
    DropAccounted(w, s, i, Taking, multiset{}, NameCopy(f), s');
  }

  lemma LineErrorFrees(w: Which, cfg: Config, s: State, i: nat, f: nat, k: nat, copy: Str, s': State)
    requires Accounted(w, s) && i < |s.requesters| && s.requesters[i] == LogPut(f, k, copy) && s.log.closed
    requires s' == LogStep(cfg, s, i, f, k, copy)
    ensures Accounted(w, s')
  {
    assert Drops(s, i, HostPut(f, k, copy), multiset{HostCopy(f, k)}, LogCopy(f, k), s');
    DropAccounted(w, s, i, HostPut(f, k, copy), multiset{HostCopy(f, k)}, LogCopy(f, k), s');
  }

  lemma HostErrorFrees(w: Which, cfg: Config, s: State, i: nat, f: nat, k: nat, copy: Str, s': State)
    requires Accounted(w, s) && i < |s.requesters| && s.requesters[i] == HostPut(f, k, copy) && s.hosts.closed
    requires s' == HostStep(cfg, s, i, f, k, copy)
    ensures Accounted(w, s')
  {
    assert Drops(s, i, Reading(f, k + 1), multiset{}, HostCopy(f, k), s');
    DropAccounted(w, s, i, Reading(f, k + 1), multiset{}, HostCopy(f, k), s');
  }

  lemma RequesterErrorFrees(w: Which, cfg: Config, s: State, i: nat, s': State)
    requires Accounted(w, s) && ErrorPath(cfg, s, ReqStep(i, false)) && s' == ReqApply(cfg, s, i)
    ensures Accounted(w, s')
  {
    match s.requesters[i] {
      case Opening(f) => FileErrorFrees(w, cfg, s, i, f, s');
      case LogPut(f, k, copy) => LineErrorFrees(w, cfg, s, i, f, k, copy, s');
      case HostPut(f, k, copy) => HostErrorFrees(w, cfg, s, i, f, k, copy, s');
    }
  }

  lemma PostsWhenPosting(cfg: Config, s: State, i: nat)
    requires i < |s.resolvers| && s.resolvers[i].Posting?
    ensures ResApply(cfg, s, i) == PostStep(cfg, s, i, s.resolvers[i].host, s.resolvers[i].message)
  {
  }

  lemma ResolverErrorFrees(w: Which, cfg: Config, s: State, i: nat, s': State)
    requires Accounted(w, s) && i < |s.resolvers| && s.resolvers[i].Posting? && s.messages.closed
    requires s' == PostStep(cfg, s, i, s.resolvers[i].host, s.resolvers[i].message)
    ensures Accounted(w, s')
  {
    var host, message := s.resolvers[i].host, s.resolvers[i].message;
    ResolverMove(w, s, i, Fetching, s');
    CountAdd(w, s.frees, MessageCopy(message.file, message.pos));
    CountAdd(w, s.frees + multiset{MessageCopy(message.file, message.pos)}, HostCopy(host.file, host.pos));
  }

  lemma MainErrorFrees(w: Which, cfg: Config, s: State, s': State)
    requires Accounted(w, s) && s.main.FeedPut? && s.names.closed && s' == FeedStep(cfg, s)
    ensures Accounted(w, s')
  {
    MainMove(w, s, s');
    CountAdd(w, s.frees, NameCopy(s.main.i));
  }

  /** The error paths free what they drop: in whatever state one is taken, reachable or not, the blocks stay
      accounted for. */
  lemma ErrorPathsFree(w: Which, cfg: Config, s: State, l: Label, s': State)
    requires Accounted(w, s) && s' == Apply(cfg, s, l) && ErrorPath(cfg, s, l)
    ensures Accounted(w, s')
  {
    match l {
      case MainStep(_) => MainErrorFrees(w, cfg, s, s');
      case ReqStep(i, _) => RequesterErrorFrees(w, cfg, s, i, s');
      case ResStep(i) =>
        PostsWhenPosting(cfg, s, i);
        ResolverErrorFrees(w, cfg, s, i, s');
    }
  }

  // ---------------------------------------------------------------------------------------------
  // Nothing is allocated twice

  function PostingHost(f: nat, k: nat): Resolver -> nat {
    (r: Resolver) => if r.Posting? && r.host.file == f && r.host.pos == k then 1 else 0
  }

  predicate LogMade(files: seq<Progress>, requesters: seq<Requester>, f: nat, k: nat) {
    && f < |files|
    && (k < files[f].logged
        || (files[f].owner.By? && files[f].owner.r < |requesters|
            && requesters[files[f].owner.r].LogPut? && requesters[files[f].owner.r].k == k))
  }

  ghost predicate NameOnce(cfg: Config, s: State, f: nat) {
    && s.mallocs[NameCopy(f)] <= 1
    && (s.mallocs[NameCopy(f)] > 0 ==> f < Fed(cfg, s.main) || s.main == FeedPut(f))
  }

  ghost predicate LineOnce(s: State, f: nat, k: nat) {
    && s.mallocs[LogCopy(f, k)] <= 1
    && (s.mallocs[LogCopy(f, k)] > 0 ==> LogMade(s.files, s.requesters, f, k))
    && s.mallocs[HostCopy(f, k)] <= 1
    && (s.mallocs[HostCopy(f, k)] > 0 ==> f < |s.files| && k < s.files[f].logged)
    && s.mallocs[MessageCopy(f, k)] == s.frees[HostCopy(f, k)] + Sum(PostingHost(f, k), s.resolvers)
  }

  lemma InitOnce(cfg: Config, s: State, f: nat, k: nat)
    requires Init(cfg, s)
    ensures NameOnce(cfg, s, f) && LineOnce(s, f, k)
  {
    SumZero(PostingHost(f, k), s.resolvers);
  }

  lemma ReqNamesAlone(cfg: Config, s: State, i: nat, f: nat)
    requires i < |s.requesters|
    ensures ReqApply(cfg, s, i).mallocs[NameCopy(f)] == s.mallocs[NameCopy(f)]
  {
  }

  /** Only main allocates file names. */
  lemma NamesAlone(cfg: Config, s: State, l: Label, f: nat)
    requires !l.MainStep?
    ensures Apply(cfg, s, l).mallocs[NameCopy(f)] == s.mallocs[NameCopy(f)]
  {
    if l.ReqStep? && l.i < |s.requesters| {
      ReqNamesAlone(cfg, s, l.i, f);
    }
  }

  lemma OthersMain(cfg: Config, s: State, l: Label)
    requires !l.MainStep?
    ensures Apply(cfg, s, l).main == s.main
  {
  }

  lemma MainNameOnce(cfg: Config, s: State, f: nat)
    requires NameOnce(cfg, s, f) && FeedOk(cfg, s.main) && !s.names.closed
    requires s.main.Feed? || s.main.FeedPut?
    ensures NameOnce(cfg, FeedStep(cfg, s), f)
  {
  }

  lemma QuietNameOnce(cfg: Config, s: State, s': State, f: nat)
    requires NameOnce(cfg, s, f) && s'.mallocs == s.mallocs && !s.main.FeedPut?
    requires Fed(cfg, s.main) <= Fed(cfg, s'.main)
    ensures NameOnce(cfg, s', f)
  {
  }

  lemma MainNameKept(cfg: Config, s: State, f: nat)
    requires NameOnce(cfg, s, f) && FeedOk(cfg, s.main) && CloseInv(cfg, s)
    ensures NameOnce(cfg, MainApply(cfg, s), f)
  {
    if s.main.Feed? || s.main.FeedPut? {
      MainNameOnce(cfg, s, f);
    } else {
      QuietNameOnce(cfg, s, MainApply(cfg, s), f);
    }
  }

  lemma NameOnceKept(cfg: Config, s: State, l: Label, s': State, f: nat)
    requires NameOnce(cfg, s, f) && FeedOk(cfg, s.main) && CloseInv(cfg, s) && Next(cfg, s, l, s')
    ensures NameOnce(cfg, s', f)
  {
    if l.MainStep? {
      MainNameKept(cfg, s, f);
    } else {
      NamesAlone(cfg, s, l, f);
      OthersMain(cfg, s, l);
    }
  }

  /** Nothing about line `k` of file `f` changes. */
  lemma LineAlone(s: State, s': State, f: nat, k: nat)
    requires LineOnce(s, f, k)
    requires s'.mallocs[LogCopy(f, k)] == s.mallocs[LogCopy(f, k)]
    requires s'.mallocs[HostCopy(f, k)] == s.mallocs[HostCopy(f, k)]
    requires s'.mallocs[MessageCopy(f, k)] == s.mallocs[MessageCopy(f, k)]
    requires s'.frees[HostCopy(f, k)] == s.frees[HostCopy(f, k)]
    requires Sum(PostingHost(f, k), s'.resolvers) == Sum(PostingHost(f, k), s.resolvers)
    requires |s'.files| == |s.files| && (f < |s.files| ==> s.files[f].logged <= s'.files[f].logged)
    requires LogMade(s.files, s.requesters, f, k) ==> LogMade(s'.files, s'.requesters, f, k)
    ensures LineOnce(s', f, k)
  {
  }

  lemma QuietLine(cfg: Config, s: State, s': State, f: nat, k: nat)
    requires LineOnce(s, f, k) && Quiet(cfg, s, s')
    ensures LineOnce(s', f, k)
  {
    SumPointwise(PostingHost(f, k), s.resolvers, s'.resolvers);
    LineAlone(s, s', f, k);
  }

  /** A file that is taken has not been read, and no other file's record changes. */
  lemma LogMadeTaking(files: seq<Progress>, requesters: seq<Requester>, i: nat, g: nat, f: nat, k: nat)
    requires i < |requesters| && requesters[i].Taking? && g < |files| && files[g] == Progress(Nobody, 0, 0)
    requires LogMade(files, requesters, f, k)
    ensures LogMade(files[g := Progress(By(i), 0, 0)], requesters[i := Opening(g)], f, k)
  {
  }

  lemma TakenIsNew(cfg: Config, s: State)
    requires FileInv(cfg, s) && s.names.taken < |s.names.accepted|
    ensures s.names.accepted[s.names.taken] < |s.files|
    ensures s.files[s.names.accepted[s.names.taken]] == Progress(Nobody, 0, 0)
  {
  }

  lemma TakeLine(cfg: Config, s: State, i: nat, f: nat, k: nat)
    requires LineOnce(s, f, k) && FileInv(cfg, s) && i < |s.requesters| && s.requesters[i].Taking?
    requires s.names.taken < |s.names.accepted|
    ensures LineOnce(TakeStep(cfg, s, i), f, k)
  {
    TakenIsNew(cfg, s);
    if LogMade(s.files, s.requesters, f, k) {
      LogMadeTaking(s.files, s.requesters, i, s.names.accepted[s.names.taken], f, k);
    }
    LineAlone(s, TakeStep(cfg, s, i), f, k);
  }

  lemma OpenLine(cfg: Config, s: State, i: nat, g: nat, f: nat, k: nat)
    requires LineOnce(s, f, k) && i < |s.requesters| && s.requesters[i] == Opening(g) && cfg.Opens(g)
    ensures LineOnce(OpenStep(cfg, s, i, g), f, k)
  {
    LineAlone(s, OpenStep(cfg, s, i, g), f, k);
  }

  lemma EndLine(cfg: Config, s: State, i: nat, g: nat, j: nat, f: nat, k: nat)
    requires LineOnce(s, f, k) && i < |s.requesters| && s.requesters[i] == Reading(g, j)
    requires ReaderAt(cfg, s.files, i, s.requesters[i])
    requires j < |cfg.Names(g)| ==> cfg.Names(g)[j] == ""
    ensures LineOnce(ReadStep(cfg, s, i, g, j), f, k)
  {
    LineAlone(s, ReadStep(cfg, s, i, g, j), f, k);
  }

  lemma ReadLine(cfg: Config, s: State, i: nat, g: nat, j: nat, f: nat, k: nat)
    requires LineOnce(s, f, k) && i < |s.requesters| && s.requesters[i] == Reading(g, j)
    requires ReaderAt(cfg, s.files, i, s.requesters[i])
    requires j < |cfg.Names(g)| && cfg.Names(g)[j] != ""
    ensures LineOnce(ReadStep(cfg, s, i, g, j), f, k)
  {
  }

  lemma LogLine(cfg: Config, s: State, i: nat, g: nat, j: nat, copy: Str, f: nat, k: nat)
    requires LineOnce(s, f, k) && i < |s.requesters| && s.requesters[i] == LogPut(g, j, copy) && !s.log.closed
    requires ReaderAt(cfg, s.files, i, s.requesters[i])
    requires f < |s.files| && s.files[f].owner == By(i) ==> f == g
    ensures LineOnce(LogStep(cfg, s, i, g, j, copy), f, k)
  {
  }

  lemma HostLine(cfg: Config, s: State, i: nat, g: nat, j: nat, copy: Str, f: nat, k: nat)
    requires LineOnce(s, f, k) && i < |s.requesters| && s.requesters[i] == HostPut(g, j, copy) && !s.hosts.closed
    requires ReaderAt(cfg, s.files, i, s.requesters[i])
    ensures LineOnce(HostStep(cfg, s, i, g, j, copy), f, k)
  {
    LineAlone(s, HostStep(cfg, s, i, g, j, copy), f, k);
  }

  lemma WorkLine(cfg: Config, s: State, i: nat, f: nat, k: nat)
    requires LineOnce(s, f, k) && FileInv(cfg, s) && Works(s, i) && !s.log.closed && !s.hosts.closed
    ensures LineOnce(ReqApply(cfg, s, i), f, k)
  {
    assert ReaderAt(cfg, s.files, i, s.requesters[i]);
    match s.requesters[i] {
      case Taking => TakeLine(cfg, s, i, f, k);
      case Opening(g) => OpenLine(cfg, s, i, g, f, k);
      case Reading(g, j) =>
        if j < |cfg.Names(g)| && cfg.Names(g)[j] != "" {
          ReadLine(cfg, s, i, g, j, f, k);
        } else {
          EndLine(cfg, s, i, g, j, f, k);
        }
      case LogPut(g, j, copy) =>
        if f < |s.files| && s.files[f].owner == By(i) {
          assert HeldFile(s.requesters[i]) == Some(f);
        }
        LogLine(cfg, s, i, g, j, copy, f, k);
      case HostPut(g, j, copy) => HostLine(cfg, s, i, g, j, copy, f, k);
    }
  }

  lemma ReqLine(cfg: Config, s: State, i: nat, f: nat, k: nat)
    requires LineOnce(s, f, k) && CloseInv(cfg, s) && FileInv(cfg, s) && i < |s.requesters|
    ensures LineOnce(ReqApply(cfg, s, i), f, k)
  {
    if Works(s, i) {
      OpenForReaders(cfg, s, i);
      WorkLine(cfg, s, i, f, k);
    } else {
      QuietReq(cfg, s, i);
      QuietLine(cfg, s, ReqApply(cfg, s, i), f, k);
    }
  }

  /** A resolver fetches, resolves or leaves. */
  lemma ResolveLine(cfg: Config, s: State, i: nat, f: nat, k: nat, s': State)
    requires LineOnce(s, f, k) && i < |s.resolvers| && !s.resolvers[i].Posting? && s' == ResApply(cfg, s, i)
    ensures LineOnce(s', f, k)
  {
    SumUpdate(PostingHost(f, k), s.resolvers, i, s'.resolvers[i]);
  }

  lemma PostLine(cfg: Config, s: State, i: nat, f: nat, k: nat, s': State)
    requires LineOnce(s, f, k) && i < |s.resolvers| && s.resolvers[i].Posting? && !s.messages.closed
    requires s' == ResApply(cfg, s, i)
    ensures LineOnce(s', f, k)
  {
    SumUpdate(PostingHost(f, k), s.resolvers, i, s'.resolvers[i]);
  }

  lemma ResLine(cfg: Config, s: State, i: nat, f: nat, k: nat)
    requires LineOnce(s, f, k) && CloseInv(cfg, s) && i < |s.resolvers|
    ensures LineOnce(ResApply(cfg, s, i), f, k)
  {
    if s.resolvers[i].Posting? {
      OpenForResolvers(cfg, s, i);
      PostLine(cfg, s, i, f, k, ResApply(cfg, s, i));
    } else {
      ResolveLine(cfg, s, i, f, k, ResApply(cfg, s, i));
    }
  }

  lemma MainLine(cfg: Config, s: State, f: nat, k: nat)
    requires LineOnce(s, f, k) && CloseInv(cfg, s) && FeedOk(cfg, s.main)
    ensures LineOnce(MainApply(cfg, s), f, k)
  {
    if s.main.Feed? || s.main.FeedPut? {
      LineAlone(s, FeedStep(cfg, s), f, k);
    } else {
      QuietMainStep(cfg, s);
      QuietLine(cfg, s, MainApply(cfg, s), f, k);
    }
  }

  lemma WriterLine(cfg: Config, s: State, l: Label, s': State, f: nat, k: nat)
    requires LineOnce(s, f, k) && Next(cfg, s, l, s') && (l.ReqLogStep? || l.ResLogStep? || l.Recheck?)
    ensures LineOnce(s', f, k)
  {
    LineAlone(s, s', f, k);
  }

  lemma LineOnceKept(cfg: Config, s: State, l: Label, s': State, f: nat, k: nat)
    requires LineOnce(s, f, k) && CloseInv(cfg, s) && FileInv(cfg, s) && Next(cfg, s, l, s')
    ensures LineOnce(s', f, k)
  {
    match l {
      case MainStep(_) => MainLine(cfg, s, f, k);
      case ReqStep(i, _) => ReqLine(cfg, s, i, f, k);
      case ResStep(i) => ResLine(cfg, s, i, f, k);
      case _ => WriterLine(cfg, s, l, s', f, k);
    }
  }

  // ---------------------------------------------------------------------------------------------
  // Every run

  ghost predicate OwnInv(cfg: Config, s: State) {
    && (forall w :: Accounted(w, s))
    && (forall f :: NameOnce(cfg, s, f))
    && (forall f, k :: LineOnce(s, f, k))
  }

  lemma StepOwn(cfg: Config, s: State, l: Label, s': State)
    requires Inv(cfg, s) && OwnInv(cfg, s) && Next(cfg, s, l, s')
    ensures OwnInv(cfg, s')
  {
    forall w ensures Accounted(w, s') {
      AccountedKept(w, cfg, s, l, s');
    }
    forall f ensures NameOnce(cfg, s', f) {
      NameOnceKept(cfg, s, l, s', f);
    }
    forall f, k ensures LineOnce(s', f, k) {
      LineOnceKept(cfg, s, l, s', f, k);
    }
  }

  lemma InitOwn(cfg: Config, s: State)
    requires Init(cfg, s)
    ensures OwnInv(cfg, s)
  {
    forall w ensures Accounted(w, s) {
      InitAccounted(w, cfg, s);
    }
    forall f, k ensures NameOnce(cfg, s, f) && LineOnce(s, f, k) {
      InitOnce(cfg, s, f, k);
    }
  }

  lemma ReachableOwn(cfg: Config, s: State)
    requires cfg.Valid() && Reachable(cfg, s)
    ensures OwnInv(cfg, s)
  {
    var states: seq<State>, labels: seq<Label> :| IsRun(cfg, states, labels) && states[|labels|] == s;
    var inv := (s: State) => Inv(cfg, s) && OwnInv(cfg, s);
    InitInv(cfg, states[0]);
    InitOwn(cfg, states[0]);
    forall s, l, s' | inv(s) && Next(cfg, s, l, s') ensures inv(s') {
      StepInv(cfg, s, l, s');
      StepOwn(cfg, s, l, s');
    }
    RunInduction(cfg, states, labels, inv, |labels|);
    assert inv(s);
  }

  lemma {:induction false} SumBelow<T>(f: T -> nat, g: T -> nat, s: seq<T>)
    requires forall i :: 0 <= i < |s| ==> f(s[i]) <= g(s[i])
    ensures Sum(f, s) <= Sum(g, s)
  {
    if |s| > 0 {
      SumBelow(f, g, s[1..]);
    }
  }

  lemma MessageOnce(s: State, f: nat, k: nat)
    requires Accounted(One(HostCopy(f, k)), s) && LineOnce(s, f, k)
    ensures s.mallocs[MessageCopy(f, k)] <= 1
  {
    SumBelow(PostingHost(f, k), ResOwns(One(HostCopy(f, k))), s.resolvers);
  }

  lemma OnceAndAccounted(cfg: Config, s: State, b: Block)
    requires OwnInv(cfg, s)
    ensures s.mallocs[b] <= 1 && Accounted(One(b), s)
  {
    match b {
      case NameCopy(f) => assert NameOnce(cfg, s, f);
      case LogCopy(f, k) => assert LineOnce(s, f, k);
      case HostCopy(f, k) => assert LineOnce(s, f, k);
      case MessageCopy(f, k) => MessageOnce(s, f, k);
    }
  }

  /** In every reachable state each block that was allocated for a queue has either exactly one owner (a
      thread or a place in a queue) or has been freed exactly once, and never both. */
  lemma LinearOwnership(cfg: Config, s: State, b: Block)
    requires cfg.Valid() && Reachable(cfg, s)
    ensures s.mallocs[b] <= 1
    ensures Owners(One(b), s) + s.frees[b] == s.mallocs[b]
  {
    ReachableOwn(cfg, s);
    OnceAndAccounted(cfg, s, b);
  }

  lemma NobodyOwns(w: Which, s: State)
    requires s.main.Finished? && !s.reqLogger.Writing? && !s.resLogger.Writing?
    requires forall r :: 0 <= r < |s.requesters| ==> s.requesters[r].Left?
    requires forall v :: 0 <= v < |s.resolvers| ==> s.resolvers[v].Left?
    requires s.names.IsEmpty() && s.log.IsEmpty() && s.hosts.IsEmpty() && s.messages.IsEmpty()
    ensures Owners(w, s) == 0
  {
    SumZero(ReqOwns(w), s.requesters);
    SumZero(ResOwns(w), s.resolvers);
  }

  lemma FreedInTheEnd(cfg: Config, s: State, b: Block)
    requires cfg.Valid() && Reachable(cfg, s) && s.main.Finished?
    ensures s.frees[b] == s.mallocs[b]
  {
    ReachableInv(cfg, s);
    AllIsDrained(cfg, s);
    NobodyOwns(One(b), s);
    LinearOwnership(cfg, s, b);
  }

  /** At the end nothing is left: whatever was allocated has been freed. */
  lemma NothingLeaks(cfg: Config, s: State)
    requires cfg.Valid() && Reachable(cfg, s) && s.main.Finished?
    ensures s.frees == s.mallocs
  {
    forall b: Block ensures s.frees[b] == s.mallocs[b] {
      FreedInTheEnd(cfg, s, b);
    }
  }

  lemma QueueHolds<T>(unit: T -> nat, q: Fifo<T>, capacity: nat)
    requires q.Valid(capacity) && forall x :: unit(x) <= 1
    ensures Sum(unit, Queued(q)) <= capacity
  {
    SumBounded(unit, Queued(q), 1);
  }

  /** While main holds a name there are no resolvers yet. */
  lemma MainOrResolvers(cfg: Config, s: State)
    requires cfg.Valid() && |s.resolvers| == cfg.resolvers && SpawnOk(s)
    ensures MainOwns(All, s.main) + Sum(ResOwns(All), s.resolvers) <= 2 * cfg.resolvers
  {
    if s.main.FeedPut? {
      SumZero(ResOwns(All), s.resolvers);
    } else {
      SumBounded(ResOwns(All), s.resolvers, 2);
    }
  }

  lemma OwnersBound(cfg: Config, s: State)
    requires cfg.Valid() && Shape(cfg, s) && SpawnOk(s)
    ensures Owners(All, s) <= 4 * (cfg.ringSize - 1) + 2 * cfg.requesters + 2 * cfg.resolvers + 2
  {
    SumBounded(ReqOwns(All), s.requesters, 2);
    MainOrResolvers(cfg, s);
    QueueHolds(IsName(All), s.names, cfg.Capacity());
    QueueHolds(IsLog(All), s.log, cfg.Capacity());
    QueueHolds(IsHost(All), s.hosts, cfg.Capacity());
    QueueHolds(IsMessage(All), s.messages, cfg.Capacity());
  }

  lemma AllAccounted(cfg: Config, s: State, bound: int)
    requires OwnInv(cfg, s) && Owners(All, s) <= bound
    ensures |s.mallocs| - |s.frees| <= bound
  {
    assert Accounted(All, s);
  }

  /** However large the input, the blocks in flight never number more than this. */
  lemma BoundedInFlight(cfg: Config, s: State)
    requires cfg.Valid() && Reachable(cfg, s)
    ensures |s.mallocs| - |s.frees| <= 4 * (cfg.ringSize - 1) + 2 * cfg.requesters + 2 * cfg.resolvers + 2
  {
    ReachableInv(cfg, s);
    OwnersBound(cfg, s);
    ReachableOwn(cfg, s);
    AllAccounted(cfg, s, 4 * (cfg.ringSize - 1) + 2 * cfg.requesters + 2 * cfg.resolvers + 2);
  }
}
