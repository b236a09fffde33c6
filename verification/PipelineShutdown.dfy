/** What has happened by the time a queue of the pipeline is closed, and by the time its array_free returns. */
module PipelineShutdown {
  import opened Sums
  import opened Fifo
  import opened Pipeline
  import opened PipelineClose
  import opened PipelineFrame
  import opened PipelineFiles
  import opened PipelineFlow
  import opened PipelineResult
  import opened PipelineQueues

  // ---------------------------------------------------------------------------------------------
  // No queue is closed before its producers are done

  /** Nobody reads a file any more. */
  ghost predicate NobodyReads(requesters: seq<Requester>) {
    forall r :: 0 <= r < |requesters| ==> requesters[r].Left? || ExitRank(requesters[r]) >= 2
  }

  lemma ReadersGone(s: State)
    requires ReadersOk(s) && ExitOk(s) && (s.hosts.closed || s.log.closed)
    ensures NobodyReads(s.requesters)
  {
    SumZero(StillCounted, s.requesters);
  }

  lemma SomebodyLeft(cfg: Config, s: State)
    requires CloseInv(cfg, s) && NobodyReads(s.requesters)
    ensures s.names.closed && s.names.IsEmpty()
  {
    assert ExitRank(s.requesters[0]) >= 1;
  }

  /** A file that is nobody's has been read to its end, or was never fed because it does not open. */
  lemma FileDone(cfg: Config, s: State, f: nat)
    requires CloseInv(cfg, s) && FileInv(cfg, s) && NobodyReads(s.requesters) && f < |cfg.files|
    ensures s.files[f].logged == s.files[f].sent == |cfg.Names(f)|
  {
    SomebodyLeft(cfg, s);
    OpenablesBelow(cfg, |cfg.files|);
    if cfg.Opens(f) {
      OpenablesComplete(cfg, |cfg.files|, f);
    }
  }

  lemma FilesDone(cfg: Config, s: State)
    requires CloseInv(cfg, s) && FileInv(cfg, s) && NobodyReads(s.requesters)
    ensures forall f: nat :: f < |cfg.files| ==>
      OfFile(s.hosts.accepted, f) == OfFile(s.log.accepted, f) == FileStrs(cfg, f)
  {
    forall f: nat | f < |cfg.files|
      ensures OfFile(s.hosts.accepted, f) == OfFile(s.log.accepted, f) == FileStrs(cfg, f)
    {
      FileDone(cfg, s, f);
    }
  }

  lemma ResolversDone(cfg: Config, s: State)
    requires CloseInv(cfg, s) && FlowInv(cfg, s) && s.messages.closed
    ensures forall v :: 0 <= v < |s.resolvers| ==> s.resolvers[v].Left?
    ensures s.log.closed && s.hosts.IsEmpty()
    ensures multiset(s.messages.accepted) == multiset(Messages(cfg, s.hosts.accepted))
  {
    assert s.resolvers[0].Left?;
    BagEmpty(HeldMessage(cfg), s.resolvers);
    assert s.hosts.accepted[..s.hosts.taken] == s.hosts.accepted;
  }

  // requester_logfile_queue is closed after hostname_queue

  ghost predicate LogAfterHosts(s: State) {
    s.log.closed ==> s.hosts.closed
  }

  lemma MainCloses(cfg: Config, s: State)
    requires CloseInv(cfg, s) && LogAfterHosts(s)
    ensures LogAfterHosts(MainApply(cfg, s))
  {
    if MainRank(s.main) >= 8 {
      assert AllLeft(s.requesters);
    }
  }

  lemma RequesterCloses(cfg: Config, s: State, i: nat, s': State)
    requires CloseInv(cfg, s) && LogAfterHosts(s) && i < |s.requesters| && s' == ReqApply(cfg, s, i)
    ensures LogAfterHosts(s')
  {
    if ExitRank(s.requesters[i]) > 0 {
      ExitCloses(cfg, s, i, s');
    }
  }

  lemma ExitCloses(cfg: Config, s: State, i: nat, s': State)
    requires ExitOk(s) && LogAfterHosts(s) && i < |s.requesters| && ExitRank(s.requesters[i]) > 0
    requires s' == ReqApply(cfg, s, i)
    ensures LogAfterHosts(s')
  {
  }

  lemma LogAfterHostsKept(cfg: Config, s: State, l: Label, s': State)
    requires Inv(cfg, s) && LogAfterHosts(s) && Next(cfg, s, l, s')
    ensures LogAfterHosts(s')
  {
    match l {
      case MainStep(_) => MainCloses(cfg, s);
      case ReqStep(i, _) => RequesterCloses(cfg, s, i, s');
      case ResStep(i) => ResolverClosesNothing(cfg, s, i, s');
      case _ =>
    }
  }

  lemma ResolverClosesNothing(cfg: Config, s: State, i: nat, s': State)
    requires i < |s.resolvers| && s' == ResApply(cfg, s, i)
    ensures s'.log == s.log && s'.hosts.closed == s.hosts.closed
  {
  }

  lemma LogClosedAfterHosts(cfg: Config, s: State)
    requires cfg.Valid() && Reachable(cfg, s)
    ensures s.log.closed ==> s.hosts.closed
  {
    var states: seq<State>, labels: seq<Label> :| IsRun(cfg, states, labels) && states[|labels|] == s;
    var inv := (s: State) => Inv(cfg, s) && LogAfterHosts(s);
    InitInv(cfg, states[0]);
    forall s, l, s' | inv(s) && Next(cfg, s, l, s') ensures inv(s') {
      StepInv(cfg, s, l, s');
      LogAfterHostsKept(cfg, s, l, s');
    }
    RunInduction(cfg, states, labels, inv, |labels|);
  }

  lemma ProducersDone(cfg: Config, s: State)
    requires Inv(cfg, s) && LogAfterHosts(s)
    ensures s.names.closed ==> s.names.accepted == Openables(cfg, |cfg.files|)
    ensures s.hosts.closed ==> NobodyReads(s.requesters) && s.names.closed && s.names.IsEmpty()
    ensures s.hosts.closed ==>
      forall f: nat :: f < |cfg.files| ==> OfFile(s.hosts.accepted, f) == OfFile(s.log.accepted, f) == FileStrs(cfg, f)
    ensures s.messages.closed ==> s.log.closed && s.hosts.IsEmpty()
    ensures s.messages.closed ==> forall v :: 0 <= v < |s.resolvers| ==> s.resolvers[v].Left?
    ensures s.messages.closed ==> multiset(s.messages.accepted) == multiset(Messages(cfg, s.hosts.accepted))
  {
    if s.hosts.closed {
      ReadersGone(s);
      SomebodyLeft(cfg, s);
      FilesDone(cfg, s);
    }
    if s.messages.closed {
      ResolversDone(cfg, s);
    }
  }

  /** The closing cascade, in every reachable state. A closed filename_queue has been given every file that opens.
      A closed hostname_queue or requester_logfile_queue has been given every non-empty line of every file,
      and nobody reads any more. A closed resolver_logfile_queue has been given all messages, and no
      resolver is left. */
  lemma ClosedAfterProducers(cfg: Config, s: State)
    requires cfg.Valid() && Reachable(cfg, s)
    ensures s.names.closed ==> s.names.accepted == Openables(cfg, |cfg.files|)
    ensures s.hosts.closed ==> NobodyReads(s.requesters) && s.names.closed && s.names.IsEmpty()
    ensures s.hosts.closed ==>
      forall f: nat :: f < |cfg.files| ==> OfFile(s.hosts.accepted, f) == OfFile(s.log.accepted, f) == FileStrs(cfg, f)
    ensures s.log.closed ==> s.hosts.closed
    ensures s.messages.closed ==> s.log.closed && s.hosts.IsEmpty()
    ensures s.messages.closed ==> forall v :: 0 <= v < |s.resolvers| ==> s.resolvers[v].Left?
    ensures s.messages.closed ==> multiset(s.messages.accepted) == multiset(Messages(cfg, s.hosts.accepted))
  {
    ReachableInv(cfg, s);
    LogClosedAfterHosts(cfg, s);
    ProducersDone(cfg, s);
  }

  // ---------------------------------------------------------------------------------------------
  // No array_free returns before its queue is drained

  /** No wait of array_free ends before its condition holds. */
  predicate OnTime(l: Label) {
    (l.MainStep? || l.ReqStep?) ==> !l.early
  }

  ghost predicate MainDrained(s: State) {
    && (MainRank(s.main) >= 5 ==> s.names.IsEmpty())
    && (MainRank(s.main) >= 10 ==> s.log.IsEmpty())
    && (MainRank(s.main) >= 13 ==> s.messages.IsEmpty())
  }

  predicate ExitDrained(pc: Requester, hosts: Fifo<Str>, log: Fifo<Str>) {
    && (4 <= ExitRank(pc) <= 7 ==> hosts.IsEmpty())
    && (ExitRank(pc) == 7 ==> log.IsEmpty())
  }

  ghost predicate Drained(s: State) {
    MainDrained(s) && forall r :: 0 <= r < |s.requesters| ==> ExitDrained(s.requesters[r], s.hosts, s.log)
  }

  /** Closed and empty is for ever. */
  predicate StaysEmpty<T>(q: Fifo<T>, q': Fifo<T>) {
    q.closed && q.IsEmpty() ==> q'.IsEmpty()
  }

  lemma EmptyStays(cfg: Config, s: State, l: Label, s': State)
    requires Inv(cfg, s) && Next(cfg, s, l, s')
    ensures StaysEmpty(s.names, s'.names) && StaysEmpty(s.log, s'.log)
    ensures StaysEmpty(s.hosts, s'.hosts) && StaysEmpty(s.messages, s'.messages)
  {
    QueuesAreFifos(cfg, s, l, s');
  }

  lemma MainDrains(cfg: Config, s: State, s': State)
    requires CloseInv(cfg, s) && Drained(s) && MainReady(cfg, s, false) && s' == MainApply(cfg, s)
    requires StaysEmpty(s.names, s'.names) && StaysEmpty(s.log, s'.log)
    requires StaysEmpty(s.hosts, s'.hosts) && StaysEmpty(s.messages, s'.messages)
    ensures Drained(s')
  {
    if MainRank(s.main) > 2 {
      EndDrains(cfg, s, s');
    }
  }

  lemma EndDrains(cfg: Config, s: State, s': State)
    requires MainOk(s) && ExitOk(s) && Drained(s) && MainReady(cfg, s, false) && s' == MainApply(cfg, s)
    requires MainRank(s.main) > 2
    requires StaysEmpty(s.names, s'.names) && StaysEmpty(s.log, s'.log)
    requires StaysEmpty(s.hosts, s'.hosts) && StaysEmpty(s.messages, s'.messages)
    ensures Drained(s')
  {
  }

  /** One requester moves, and what it has drained is empty. */
  lemma MoveDrains(cfg: Config, s: State, i: nat, pc: Requester, s': State)
    requires MainOk(s) && ExitOk(s) && Drained(s) && i < |s.requesters|
    requires s'.requesters == s.requesters[i := pc] && s'.main == s.main && ExitDrained(pc, s'.hosts, s'.log)
    requires StaysEmpty(s.names, s'.names) && StaysEmpty(s.log, s'.log)
    requires StaysEmpty(s.hosts, s'.hosts) && StaysEmpty(s.messages, s'.messages)
    ensures Drained(s')
  {
  }

  lemma ReaderDrains(cfg: Config, s: State, i: nat, s': State)
    requires i < |s.requesters| && ExitRank(s.requesters[i]) == 0 && s' == ReqApply(cfg, s, i)
    ensures |s'.requesters| == |s.requesters| && s'.requesters == s.requesters[i := s'.requesters[i]] && s'.main == s.main
    ensures ExitRank(s'.requesters[i]) <= 1
  {
    if s.requesters[i].LogPut? || s.requesters[i].HostPut? {
      PutterDrains(cfg, s, i, s');
    }
  }

  lemma PutterDrains(cfg: Config, s: State, i: nat, s': State)
    requires i < |s.requesters| && (s.requesters[i].LogPut? || s.requesters[i].HostPut?) && s' == ReqApply(cfg, s, i)
    ensures |s'.requesters| == |s.requesters| && s'.requesters == s.requesters[i := s'.requesters[i]] && s'.main == s.main
    ensures ExitRank(s'.requesters[i]) == 0
  {
  }

  lemma ExitDrains(cfg: Config, s: State, i: nat, s': State)
    requires ExitOk(s) && Drained(s) && ReqReady(cfg, s, i, false) && ExitRank(s.requesters[i]) > 0
    requires s' == ReqApply(cfg, s, i)
    ensures |s'.requesters| == |s.requesters| && s'.requesters == s.requesters[i := s'.requesters[i]] && s'.main == s.main
    ensures ExitDrained(s'.requesters[i], s'.hosts, s'.log)
  {
  }

  lemma ReqDrains(cfg: Config, s: State, i: nat, s': State)
    requires CloseInv(cfg, s) && Drained(s) && ReqReady(cfg, s, i, false) && s' == ReqApply(cfg, s, i)
    requires StaysEmpty(s.names, s'.names) && StaysEmpty(s.log, s'.log)
    requires StaysEmpty(s.hosts, s'.hosts) && StaysEmpty(s.messages, s'.messages)
    ensures Drained(s')
  {
    if ExitRank(s.requesters[i]) == 0 {
      ReaderDrains(cfg, s, i, s');
    } else {
      ExitDrains(cfg, s, i, s');
    }
    MoveDrains(cfg, s, i, s'.requesters[i], s');
  }

  lemma OthersDrain(s: State, s': State)
    requires MainOk(s) && ExitOk(s) && Drained(s) && s'.main == s.main && s'.requesters == s.requesters
    requires StaysEmpty(s.names, s'.names) && StaysEmpty(s.log, s'.log)
    requires StaysEmpty(s.hosts, s'.hosts) && StaysEmpty(s.messages, s'.messages)
    ensures Drained(s')
  {
  }

  lemma DrainedKept(cfg: Config, s: State, l: Label, s': State)
    requires Inv(cfg, s) && Drained(s) && Next(cfg, s, l, s') && OnTime(l)
    ensures Drained(s')
  {
    EmptyStays(cfg, s, l, s');
    match l {
      case MainStep(_) => MainDrains(cfg, s, s');
      case ReqStep(i, _) => ReqDrains(cfg, s, i, s');
      case _ => OthersDrain(s, s');
    }
  }

  lemma {:induction false} RunDrained(cfg: Config, states: seq<State>, labels: seq<Label>, i: nat)
    requires cfg.Valid() && IsRun(cfg, states, labels) && i < |states|
    requires forall k :: 0 <= k < i ==> OnTime(labels[k])
    ensures Drained(states[i])
  {
    if i > 0 {
      RunDrained(cfg, states, labels, i - 1);
      RunInv(cfg, states, labels, i - 1);
      DrainedKept(cfg, states[i - 1], labels[i - 1], states[i]);
    }
  }

  /** `q` is closed, and everything it accepted has been delivered. */
  predicate Over<T>(q: Fifo<T>) {
    q.closed && q.IsEmpty()
  }

  /** If step `l` is the return of a call of array_free, the queue it was called for is closed and drained, with
      nobody in array_get of it. */
  ghost predicate FreeIsComplete(s: State, l: Label) {
    && (l.MainStep? && s.main.CountNames? ==>
          Over(s.names) && forall r :: 0 <= r < |s.requesters| ==> !s.requesters[r].Taking?)
    && (l.ReqStep? && l.i < |s.requesters| && s.requesters[l.i].CountHosts? ==>
          Over(s.hosts) && forall v :: 0 <= v < |s.resolvers| ==> !s.resolvers[v].Fetching?)
    && (l.ReqStep? && l.i < |s.requesters| && s.requesters[l.i].CountLog? ==> Over(s.log) && !s.reqLogger.Awaiting?)
    && (l.MainStep? && s.main.CountReqLog? ==> Over(s.log) && !s.reqLogger.Awaiting?)
    && (l.MainStep? && s.main.CountResLog? ==> Over(s.messages) && !s.resLogger.Awaiting?)
  }

  lemma DrainedIsComplete(cfg: Config, s: State, l: Label)
    requires MainOk(s) && ExitOk(s) && Drained(s) && Ready(cfg, s, l) && OnTime(l)
    ensures FreeIsComplete(s, l)
  {
  }

  /** If no wait of array_free ends early, each of the five calls of array_free returns only with its queue closed
      and drained, and with nobody in array_get of it. */
  lemma FreesComplete(cfg: Config, states: seq<State>, labels: seq<Label>, i: nat)
    requires cfg.Valid() && IsRun(cfg, states, labels) && i < |labels|
    requires forall k :: 0 <= k <= i ==> OnTime(labels[k])
    ensures FreeIsComplete(states[i], labels[i])
  {
    RunDrained(cfg, states, labels, i);
    RunInv(cfg, states, labels, i);
    assert Next(cfg, states[i], labels[i], states[i + 1]);
    DrainedIsComplete(cfg, states[i], labels[i]);
  }
}
