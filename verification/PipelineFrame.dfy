/** Which steps of the pipeline move strings and files at all. The others only advance program
    counters, counters and flags. */
module PipelineFrame {
  import opened Fifo
  import opened Pipeline
  import opened PipelineClose

  /** The requester holds no file and no string. */
  predicate Empty(r: Requester) {
    !r.Opening? && !r.Reading? && !r.LogPut? && !r.HostPut?
  }

  predicate SameItems<T(==)>(q: Fifo<T>, q': Fifo<T>) {
    q'.accepted == q.accepted && q'.taken == q.taken
  }

  ghost predicate QuietRequesters(a: seq<Requester>, b: seq<Requester>) {
    |b| == |a| && forall r :: 0 <= r < |a| ==> b[r] == a[r] || (Empty(a[r]) && Empty(b[r]))
  }

  ghost predicate QuietResolvers(a: seq<Resolver>, b: seq<Resolver>) {
    |b| == |a| &&
    forall v :: 0 <= v < |a| ==>
      b[v] == a[v] || (!a[v].Resolving? && !a[v].Posting? && !b[v].Resolving? && !b[v].Posting?)
  }

  predicate QuietLogger(a: Logger, b: Logger) {
    b == a || (!a.Writing? && !b.Writing?)
  }

  /** The files below `i` that can be opened, in the order of the arguments. */
  function Openables(cfg: Config, i: nat): seq<nat> {
    if i == 0 then [] else Openables(cfg, i - 1) + if cfg.Opens(i - 1) then [i - 1] else []
  }

  lemma {:induction false} OpenablesBelow(cfg: Config, i: nat)
    ensures forall j :: 0 <= j < |Openables(cfg, i)| ==> Openables(cfg, i)[j] < i && cfg.Opens(Openables(cfg, i)[j])
  {
    if i > 0 {
      OpenablesBelow(cfg, i - 1);
    }
  }

  lemma {:induction false} OpenablesComplete(cfg: Config, i: nat, f: nat)
    requires f < i && cfg.Opens(f)
    ensures f in Openables(cfg, i)
  {
    if f < i - 1 {
      OpenablesComplete(cfg, i - 1, f);
      assert f in Openables(cfg, i - 1);
    } else {
      assert Openables(cfg, i)[|Openables(cfg, i - 1)|] == f;
    }
  }

  lemma {:induction false} OpenablesDistinct(cfg: Config, i: nat, j: nat, k: nat)
    requires j < k < |Openables(cfg, i)|
    ensures Openables(cfg, i)[j] < Openables(cfg, i)[k]
  {
    if k < |Openables(cfg, i - 1)| {
      OpenablesDistinct(cfg, i - 1, j, k);
    } else {
      OpenablesBelow(cfg, i - 1);
    }
  }

  /** How many arguments main has dealt with. */
  function Fed(cfg: Config, m: Main): nat {
    match m
    case SpawnRequester(_) => 0
    case Feed(i) => i
    case FeedPut(i) => i
    case _ => |cfg.files|
  }

  predicate FeedOk(cfg: Config, m: Main) {
    && (m.Feed? ==> m.i <= |cfg.files|)
    && (m.FeedPut? ==> cfg.Opens(m.i))
  }

  /** Main neither holds a file name nor passes by a file that opens. */
  predicate QuietMain(cfg: Config, m: Main, m': Main) {
    && !m.FeedPut? && !m'.FeedPut?
    && (FeedOk(cfg, m) ==> FeedOk(cfg, m') && Openables(cfg, Fed(cfg, m')) == Openables(cfg, Fed(cfg, m)))
  }

  ghost predicate Quiet(cfg: Config, s: State, s': State) {
    && (s'.main == s.main || QuietMain(cfg, s.main, s'.main))
    && QuietRequesters(s.requesters, s'.requesters)
    && QuietResolvers(s.resolvers, s'.resolvers)
    && QuietLogger(s.reqLogger, s'.reqLogger) && QuietLogger(s.resLogger, s'.resLogger)
    && SameItems(s.names, s'.names) && SameItems(s.log, s'.log)
    && SameItems(s.hosts, s'.hosts) && SameItems(s.messages, s'.messages)
    && s'.reqOut == s.reqOut && s'.resOut == s.resOut
    && s'.serviced == s.serviced && s'.resolved == s.resolved
    && s'.refused == s.refused && s'.files == s.files
    && s'.mallocs == s.mallocs && s'.frees == s.frees
  }

  /** The requester steps that move a file or a string. */
  predicate Works(s: State, i: nat) {
    i < |s.requesters| && (!Empty(s.requesters[i]) || (s.requesters[i].Taking? && !s.names.IsEmpty()))
  }

  lemma QuietReq(cfg: Config, s: State, i: nat)
    requires i < |s.requesters| && !Works(s, i)
    ensures Quiet(cfg, s, ReqApply(cfg, s, i))
  {
    if s.requesters[i].Leaving? || s.requesters[i].Taking? {
      QuietExit(cfg, s, i, ReqApply(cfg, s, i).requesters[i], ReqApply(cfg, s, i));
    } else {
      QuietFree(cfg, s, i, ReqApply(cfg, s, i));
    }
  }

  lemma QuietFree(cfg: Config, s: State, i: nat, s': State)
    requires i < |s.requesters| && Empty(s.requesters[i]) && !s.requesters[i].Leaving? && !s.requesters[i].Taking?
    requires s' == ReqApply(cfg, s, i)
    ensures Quiet(cfg, s, s')
  {
    QuietExit(cfg, s, i, s'.requesters[i], s');
  }

  lemma QuietExit(cfg: Config, s: State, i: nat, pc: Requester, s': State)
    requires i < |s.requesters| && Empty(s.requesters[i]) && Empty(pc)
    requires SameItems(s.hosts, s'.hosts) && SameItems(s.log, s'.log)
    requires s' == s.(requesters := s.requesters[i := pc], readers := s'.readers, hosts := s'.hosts, log := s'.log)
    ensures Quiet(cfg, s, s')
  {
  }

  lemma QuietRes(cfg: Config, s: State, i: nat)
    requires i < |s.resolvers| && !s.resolvers[i].Resolving? && !s.resolvers[i].Posting?
    requires s.resolvers[i].Fetching? ==> s.hosts.IsEmpty()
    ensures Quiet(cfg, s, ResApply(cfg, s, i))
  {
  }

  lemma QuietMainStep(cfg: Config, s: State)
    requires SpawnOk(s) && FeedOk(cfg, s.main)
    requires !s.main.FeedPut? && (s.main.Feed? ==> s.main.i >= |cfg.files| || !cfg.Opens(s.main.i))
    ensures Quiet(cfg, s, MainApply(cfg, s))
  {
    if MainRank(s.main) <= 2 {
      QuietStart(cfg, s);
    } else if MainRank(s.main) <= 7 {
      QuietJoin(cfg, s);
    } else if MainRank(s.main) <= 10 {
      QuietLog(cfg, s);
    } else {
      QuietEnd(cfg, s);
    }
  }

  lemma QuietJoin(cfg: Config, s: State)
    requires 3 <= MainRank(s.main) <= 7
    ensures Quiet(cfg, s, MainApply(cfg, s))
  {
  }

  lemma QuietLog(cfg: Config, s: State)
    requires 8 <= MainRank(s.main) <= 10
    ensures Quiet(cfg, s, MainApply(cfg, s))
  {
  }

  lemma QuietEnd(cfg: Config, s: State)
    requires MainRank(s.main) >= 11
    ensures Quiet(cfg, s, MainApply(cfg, s))
  {
  }

  lemma QuietStart(cfg: Config, s: State)
    requires SpawnOk(s) && FeedOk(cfg, s.main) && MainRank(s.main) <= 2
    requires !s.main.FeedPut? && (s.main.Feed? ==> s.main.i >= |cfg.files| || !cfg.Opens(s.main.i))
    ensures Quiet(cfg, s, MainApply(cfg, s))
  {
  }
}
