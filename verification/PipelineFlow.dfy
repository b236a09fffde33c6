/** Conservation: nothing that enters a queue is lost, duplicated or changed on its way to the log
    files, except that a resolver turns a host name into its message. */
module PipelineFlow {
  import opened Sums
  import opened Fifo
  import opened Pipeline
  import opened PipelineClose
  import opened PipelineFrame

  function Messages(cfg: Config, hosts: seq<Str>): (r: seq<Str>)
    ensures |r| == |hosts|
    ensures forall i :: 0 <= i < |r| ==> r[i] == Message(cfg, hosts[i])
  {
    seq(|hosts|, i requires 0 <= i < |hosts| => Message(cfg, hosts[i]))
  }

  /** The message a resolver owes or holds. */
  function HeldMessage(cfg: Config): Resolver -> multiset<Str> {
    (r: Resolver) =>
      match r
      case Resolving(host) => multiset{Message(cfg, host)}
      case Posting(_, message) => multiset{message}
      case _ => multiset{}
  }

  function InHand(l: Logger): seq<Str> {
    if l.Writing? then [l.message] else []
  }

  function InHostPut(r: Requester): nat {
    if r.HostPut? then 1 else 0
  }

  function IsOpening(r: Requester): nat {
    if r.Opening? then 1 else 0
  }

  predicate HasOpened(r: Requester) {
    r.Reading? || r.LogPut? || r.HostPut?
  }

  function Id(n: nat): nat {
    n
  }

  /** A log file holds what its writer took from its queue, in order, except for what it has in hand. */
  ghost predicate WrittenOk(q: Fifo<Str>, out: seq<Str>, l: Logger) {
    q.taken <= |q.accepted| && out + InHand(l) == q.accepted[..q.taken]
  }

  /** Every host name handed to a resolver is in its hands, or its message was posted. */
  ghost predicate ResolvedOk(cfg: Config, hosts: Fifo<Str>, messages: seq<Str>, resolvers: seq<Resolver>) {
    && hosts.taken <= |hosts.accepted|
    && multiset(Messages(cfg, hosts.accepted[..hosts.taken])) == multiset(messages) + Bag(HeldMessage(cfg), resolvers)
  }

  ghost predicate PostingOk(cfg: Config, resolvers: seq<Resolver>) {
    forall v :: 0 <= v < |resolvers| && resolvers[v].Posting? ==>
      resolvers[v].message == Message(cfg, resolvers[v].host)
  }

  /** How far the host queue may lag behind the log queue. */
  ghost predicate LagOk(log: seq<Str>, hosts: seq<Str>, requesters: seq<Requester>) {
    |log| == |hosts| + Sum(InHostPut, requesters)
  }

  ghost predicate CountOk(resolved: seq<nat>, messages: seq<Str>, resolvers: seq<Resolver>) {
    Sum(Id, resolved) == |messages| && |resolved| == |resolvers|
  }

  ghost predicate ServicedOk(serviced: seq<nat>, requesters: seq<Requester>, taken: nat) {
    && |serviced| == |requesters|
    && Sum(Id, serviced) + Sum(IsOpening, requesters) == taken
    && forall r :: 0 <= r < |requesters| && HasOpened(requesters[r]) ==> serviced[r] >= 1
  }

  ghost predicate FlowInv(cfg: Config, s: State) {
    && WrittenOk(s.log, s.reqOut, s.reqLogger)
    && WrittenOk(s.messages, s.resOut, s.resLogger)
    && ResolvedOk(cfg, s.hosts, s.messages.accepted, s.resolvers)
    && PostingOk(cfg, s.resolvers)
    && LagOk(s.log.accepted, s.hosts.accepted, s.requesters)
    && CountOk(s.resolved, s.messages.accepted, s.resolvers)
    && ServicedOk(s.serviced, s.requesters, s.names.taken)
  }

  lemma InitFlow(cfg: Config, s: State)
    requires cfg.Valid() && Init(cfg, s)
    ensures FlowInv(cfg, s)
  {
    BagEmpty(HeldMessage(cfg), s.resolvers);
    SumZero(InHostPut, s.requesters);
    SumZero(IsOpening, s.requesters);
    SumZero(Id, s.resolved);
    SumZero(Id, s.serviced);
  }

  lemma QuietSums(a: seq<Requester>, b: seq<Requester>, serviced: seq<nat>, taken: nat)
    requires QuietRequesters(a, b)
    ensures Sum(InHostPut, a) == Sum(InHostPut, b)
    ensures ServicedOk(serviced, a, taken) ==> ServicedOk(serviced, b, taken)
  {
    SumPointwise(InHostPut, a, b);
    SumPointwise(IsOpening, a, b);
  }

  lemma QuietFlow(cfg: Config, s: State, s': State)
    requires FlowInv(cfg, s) && Quiet(cfg, s, s')
    ensures FlowInv(cfg, s')
  {
    BagPointwise(HeldMessage(cfg), s.resolvers, s'.resolvers);
    QuietSums(s.requesters, s'.requesters, s.serviced, s.names.taken);
  }

  // ---------------------------------------------------------------------------------------------
  // Requesters

  /** Requester `i` goes on to `pc` without taking or opening a file. */
  lemma RequesterGoesOn(log: seq<Str>, hosts: seq<Str>, serviced: seq<nat>, taken: nat,
                        requesters: seq<Requester>, i: nat, pc: Requester)
    requires i < |requesters| && ServicedOk(serviced, requesters, taken) && LagOk(log, hosts, requesters)
    requires !requesters[i].Opening? && !pc.Opening? && (HasOpened(pc) ==> HasOpened(requesters[i]))
    ensures ServicedOk(serviced, requesters[i := pc], taken)
    ensures Sum(InHostPut, requesters[i := pc]) + InHostPut(requesters[i]) == Sum(InHostPut, requesters) + InHostPut(pc)
  {
    SumUpdate(InHostPut, requesters, i, pc);
    SumUpdate(IsOpening, requesters, i, pc);
  }

  lemma OpenFlow(cfg: Config, s: State, i: nat, f: nat)
    requires FlowInv(cfg, s) && i < |s.requesters| && s.requesters[i] == Opening(f) && cfg.Opens(f)
    ensures FlowInv(cfg, OpenStep(cfg, s, i, f))
  {
    SumUpdate(InHostPut, s.requesters, i, Reading(f, 0));
    OpenServiced(s.serviced, s.requesters, i, Reading(f, 0), s.names.taken);
  }

  lemma OpenServiced(serviced: seq<nat>, requesters: seq<Requester>, i: nat, pc: Requester, taken: nat)
    requires ServicedOk(serviced, requesters, taken) && i < |requesters| && requesters[i].Opening? && pc.Reading?
    ensures ServicedOk(Bump(serviced, i), requesters[i := pc], taken)
  {
    SumUpdate(IsOpening, requesters, i, pc);
    SumUpdate(Id, serviced, i, serviced[i] + 1);
  }

  lemma TakeFlow(cfg: Config, s: State, i: nat)
    requires FlowInv(cfg, s) && i < |s.requesters| && s.requesters[i].Taking? && !s.names.IsEmpty()
    ensures FlowInv(cfg, TakeStep(cfg, s, i))
  {
    var pc := Opening(s.names.accepted[s.names.taken]);
    SumUpdate(InHostPut, s.requesters, i, pc);
    SumUpdate(IsOpening, s.requesters, i, pc);
  }

  /** Requester `i` goes on without touching a queue or a file's count. */
  lemma ReaderFlow(cfg: Config, s: State, i: nat, pc: Requester, s': State)
    requires FlowInv(cfg, s) && i < |s.requesters| && s.requesters[i].Reading? && s'.requesters == s.requesters[i := pc]
    requires pc.Taking? || pc.Reading? || pc.LogPut?
    requires s'.log == s.log && s'.hosts == s.hosts && s'.messages == s.messages && s'.names == s.names
    requires s'.reqOut == s.reqOut && s'.resOut == s.resOut && s'.resolvers == s.resolvers
    requires s'.reqLogger == s.reqLogger && s'.resLogger == s.resLogger
    requires s'.serviced == s.serviced && s'.resolved == s.resolved
    ensures FlowInv(cfg, s')
  {
    RequesterGoesOn(s.log.accepted, s.hosts.accepted, s.serviced, s.names.taken, s.requesters, i, pc);
  }

  /** Reading a line touches neither the queues nor the logs. */
  lemma ReadAlone(cfg: Config, s: State, i: nat, f: nat, k: nat, s': State)
    requires i < |s.requesters| && s' == ReadStep(cfg, s, i, f, k)
    ensures |s'.requesters| == |s.requesters| && s'.requesters == s.requesters[i := s'.requesters[i]]
    ensures s'.requesters[i].Taking? || s'.requesters[i].Reading? || s'.requesters[i].LogPut?
    ensures s'.log == s.log && s'.hosts == s.hosts && s'.messages == s.messages && s'.names == s.names
    ensures s'.reqOut == s.reqOut && s'.resOut == s.resOut && s'.resolvers == s.resolvers
    ensures s'.reqLogger == s.reqLogger && s'.resLogger == s.resLogger
    ensures s'.serviced == s.serviced && s'.resolved == s.resolved
  {
  }

  lemma ReadFlow(cfg: Config, s: State, i: nat, f: nat, k: nat, s': State)
    requires FlowInv(cfg, s) && i < |s.requesters| && s.requesters[i] == Reading(f, k)
    requires s' == ReadStep(cfg, s, i, f, k)
    ensures FlowInv(cfg, s')
  {
    ReadAlone(cfg, s, i, f, k, s');
    ReaderFlow(cfg, s, i, s'.requesters[i], s');
  }

  lemma PutKeeps(cfg: Config, q: Fifo<Str>, x: Str, out: seq<Str>, l: Logger, messages: seq<Str>, resolvers: seq<Resolver>)
    ensures WrittenOk(q, out, l) ==> WrittenOk(q.Put(x), out, l)
    ensures ResolvedOk(cfg, q, messages, resolvers) ==> ResolvedOk(cfg, q.Put(x), messages, resolvers)
  {
    if q.taken <= |q.accepted| {
      assert q.Put(x).accepted[..q.taken] == q.accepted[..q.taken];
    }
  }

  lemma LogPutFlow(cfg: Config, s: State, i: nat, f: nat, k: nat, copy: Str)
    requires FlowInv(cfg, s) && i < |s.requesters| && s.requesters[i] == LogPut(f, k, copy) && !s.log.closed
    ensures FlowInv(cfg, LogStep(cfg, s, i, f, k, copy))
  {
    RequesterGoesOn(s.log.accepted, s.hosts.accepted, s.serviced, s.names.taken, s.requesters, i, HostPut(f, k, copy));
    PutKeeps(cfg, s.log, copy, s.reqOut, s.reqLogger, [], []);
  }

  lemma HostPutFlow(cfg: Config, s: State, i: nat, f: nat, k: nat, copy: Str)
    requires FlowInv(cfg, s) && i < |s.requesters| && s.requesters[i] == HostPut(f, k, copy) && !s.hosts.closed
    ensures FlowInv(cfg, HostStep(cfg, s, i, f, k, copy))
  {
    RequesterGoesOn(s.log.accepted, s.hosts.accepted, s.serviced, s.names.taken, s.requesters, i, Reading(f, k + 1));
    PutKeeps(cfg, s.hosts, copy, [], Awaiting, s.messages.accepted, s.resolvers);
  }

  // ---------------------------------------------------------------------------------------------
  // Resolvers

  lemma MessagesAppend(cfg: Config, hosts: seq<Str>, taken: nat)
    requires taken < |hosts|
    ensures Messages(cfg, hosts[..taken + 1]) == Messages(cfg, hosts[..taken]) + [Message(cfg, hosts[taken])]
  {
  }

  /** The balance of `ResolvedOk` when resolver `i` takes the next host, resolves it, or posts. */
  lemma FetchResolved(cfg: Config, hosts: Fifo<Str>, messages: seq<Str>, resolvers: seq<Resolver>, i: nat)
    requires ResolvedOk(cfg, hosts, messages, resolvers) && i < |resolvers| && resolvers[i].Fetching? && !hosts.IsEmpty()
    ensures ResolvedOk(cfg, hosts.Get(), messages, resolvers[i := Resolving(hosts.accepted[hosts.taken])])
  {
    var host := hosts.accepted[hosts.taken];
    MessagesAppend(cfg, hosts.accepted, hosts.taken);
    HeldMore(cfg, resolvers, i, host);
    FetchBalance(cfg, hosts.accepted[..hosts.taken], hosts.accepted[..hosts.taken + 1], messages,
                 resolvers, resolvers[i := Resolving(host)], host);
  }

  lemma HeldMore(cfg: Config, resolvers: seq<Resolver>, i: nat, host: Str)
    requires i < |resolvers| && resolvers[i].Fetching?
    ensures
      Bag(HeldMessage(cfg), resolvers[i := Resolving(host)]) ==
      Bag(HeldMessage(cfg), resolvers) + multiset{Message(cfg, host)}
  {
    BagUpdate(HeldMessage(cfg), resolvers, i, Resolving(host));
    assert HeldMessage(cfg)(resolvers[i]) == multiset{};
  }

  lemma FetchBalance(cfg: Config, done: seq<Str>, done': seq<Str>, messages: seq<Str>,
                     resolvers: seq<Resolver>, resolvers': seq<Resolver>, host: Str)
    requires multiset(Messages(cfg, done)) == multiset(messages) + Bag(HeldMessage(cfg), resolvers)
    requires Messages(cfg, done') == Messages(cfg, done) + [Message(cfg, host)]
    requires Bag(HeldMessage(cfg), resolvers') == Bag(HeldMessage(cfg), resolvers) + multiset{Message(cfg, host)}
    ensures multiset(Messages(cfg, done')) == multiset(messages) + Bag(HeldMessage(cfg), resolvers')
  {
  }

  lemma SameBag(a: multiset<Str>, b: multiset<Str>, x: Str)
    requires a + multiset{x} == b + multiset{x}
    ensures a == b
  {
    assert a == a + multiset{x} - multiset{x};
    assert b == b + multiset{x} - multiset{x};
  }

  lemma ResolveResolved(cfg: Config, hosts: Fifo<Str>, messages: seq<Str>, resolvers: seq<Resolver>, i: nat, host: Str)
    requires ResolvedOk(cfg, hosts, messages, resolvers) && i < |resolvers| && resolvers[i] == Resolving(host)
    ensures ResolvedOk(cfg, hosts, messages, resolvers[i := Posting(host, Message(cfg, host))])
  {
    var message := Message(cfg, host);
    BagUpdate(HeldMessage(cfg), resolvers, i, Posting(host, message));
    SameBag(Bag(HeldMessage(cfg), resolvers[i := Posting(host, message)]), Bag(HeldMessage(cfg), resolvers), message);
  }

  lemma PostResolved(cfg: Config, hosts: Fifo<Str>, messages: seq<Str>, resolvers: seq<Resolver>,
                     i: nat, host: Str, message: Str)
    requires ResolvedOk(cfg, hosts, messages, resolvers) && i < |resolvers| && resolvers[i] == Posting(host, message)
    ensures ResolvedOk(cfg, hosts, messages + [message], resolvers[i := Fetching])
  {
    BagUpdate(HeldMessage(cfg), resolvers, i, Fetching);
    assert Bag(HeldMessage(cfg), resolvers) == Bag(HeldMessage(cfg), resolvers[i := Fetching]) + multiset{message};
    assert multiset(messages + [message]) == multiset(messages) + multiset{message};
  }

  lemma FetchFlow(cfg: Config, s: State, i: nat)
    requires FlowInv(cfg, s) && i < |s.resolvers| && s.resolvers[i].Fetching? && !s.hosts.IsEmpty()
    ensures FlowInv(cfg, ResApply(cfg, s, i))
  {
    FetchResolved(cfg, s.hosts, s.messages.accepted, s.resolvers, i);
  }

  lemma ResolveFlow(cfg: Config, s: State, i: nat, host: Str)
    requires FlowInv(cfg, s) && i < |s.resolvers| && s.resolvers[i] == Resolving(host)
    ensures FlowInv(cfg, ResApply(cfg, s, i))
  {
    ResolveResolved(cfg, s.hosts, s.messages.accepted, s.resolvers, i, host);
  }

  lemma PostFlow(cfg: Config, s: State, i: nat, host: Str, message: Str, s': State)
    requires FlowInv(cfg, s) && i < |s.resolvers| && s.resolvers[i] == Posting(host, message) && !s.messages.closed
    requires s' == PostStep(cfg, s, i, host, message)
    ensures FlowInv(cfg, s')
  {
    PostResolved(cfg, s.hosts, s.messages.accepted, s.resolvers, i, host, message);
    PutKeeps(cfg, s.messages, message, s.resOut, s.resLogger, [], []);
    SumUpdate(Id, s.resolved, i, s.resolved[i] + 1);
  }

  // ---------------------------------------------------------------------------------------------
  // Log writers

  lemma LoggerFlow(q: Fifo<Str>, out: seq<Str>, l: Logger)
    requires WrittenOk(q, out, l)
    ensures l.Awaiting? && !q.IsEmpty() ==> WrittenOk(q.Get(), out, Writing(q.accepted[q.taken]))
    ensures l.Writing? ==> WrittenOk(q, out + [l.message], Awaiting)
    ensures !l.Writing? ==> WrittenOk(q, out, Logger.Left)
  {
    if l.Writing? {
      assert out + [l.message] + [] == out + [l.message];
    }
  }

  lemma ReqLogFlow(cfg: Config, s: State)
    requires FlowInv(cfg, s) && LoggerReady(s.log, s.reqLogger)
    ensures FlowInv(cfg, ReqLogApply(s))
  {
    LoggerFlow(s.log, s.reqOut, s.reqLogger);
  }

  lemma ResLogFlow(cfg: Config, s: State)
    requires FlowInv(cfg, s) && LoggerReady(s.messages, s.resLogger)
    ensures FlowInv(cfg, ResLogApply(s))
  {
    LoggerFlow(s.messages, s.resOut, s.resLogger);
  }

  // ---------------------------------------------------------------------------------------------

  lemma WorkFlow(cfg: Config, s: State, i: nat)
    requires FlowInv(cfg, s) && Works(s, i) && !s.log.closed && !s.hosts.closed
    requires s.requesters[i].Opening? ==> cfg.Opens(s.requesters[i].f)
    ensures FlowInv(cfg, ReqApply(cfg, s, i))
  {
    match s.requesters[i] {
      case Taking => TakeFlow(cfg, s, i);
      case Opening(f) => OpenFlow(cfg, s, i, f);
      case Reading(f, k) => ReadFlow(cfg, s, i, f, k, ReadStep(cfg, s, i, f, k));
      case LogPut(f, k, copy) => LogPutFlow(cfg, s, i, f, k, copy);
      case HostPut(f, k, copy) => HostPutFlow(cfg, s, i, f, k, copy);
    }
  }

  lemma ReqFlow(cfg: Config, s: State, i: nat)
    requires CloseInv(cfg, s) && FlowInv(cfg, s) && i < |s.requesters|
    requires s.requesters[i].Opening? ==> cfg.Opens(s.requesters[i].f)
    ensures FlowInv(cfg, ReqApply(cfg, s, i))
  {
    if !Works(s, i) {
      QuietReq(cfg, s, i);
      QuietFlow(cfg, s, ReqApply(cfg, s, i));
    } else {
      OpenForReaders(cfg, s, i);
      WorkFlow(cfg, s, i);
    }
  }

  lemma ResFlow(cfg: Config, s: State, i: nat)
    requires CloseInv(cfg, s) && FlowInv(cfg, s) && i < |s.resolvers|
    ensures FlowInv(cfg, ResApply(cfg, s, i))
  {
    match s.resolvers[i] {
      case Resolving(host) => ResolveFlow(cfg, s, i, host);
      case Posting(host, message) =>
        OpenForResolvers(cfg, s, i);
        PostFlow(cfg, s, i, host, message, PostStep(cfg, s, i, host, message));
      case _ =>
        if s.resolvers[i].Fetching? && !s.hosts.IsEmpty() {
          FetchFlow(cfg, s, i);
        } else {
          QuietRes(cfg, s, i);
          QuietFlow(cfg, s, ResApply(cfg, s, i));
        }
    }
  }

  lemma FeedFlow(cfg: Config, s: State)
    requires FlowInv(cfg, s) && (s.main.Feed? || s.main.FeedPut?)
    ensures FlowInv(cfg, FeedStep(cfg, s))
  {
  }

  lemma MainFlow(cfg: Config, s: State)
    requires CloseInv(cfg, s) && FlowInv(cfg, s) && FeedOk(cfg, s.main)
    ensures FlowInv(cfg, MainApply(cfg, s))
  {
    if s.main.Feed? || s.main.FeedPut? {
      FeedFlow(cfg, s);
    } else {
      QuietMainStep(cfg, s);
      QuietFlow(cfg, s, MainApply(cfg, s));
    }
  }
}
