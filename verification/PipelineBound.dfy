/** The arithmetic of getting stuck: with ring size N, R requesters and F files that open, the threaded
    program always finishes if F <= N - 1 + R, and for larger F there are inputs on which it never does. */
module PipelineBound {
  import opened Sums
  import opened Sequential
  import opened Wrappers
  import opened Pipeline
  import opened PipelineClose
  import opened PipelineFrame
  import opened PipelineFiles
  import opened PipelineFlow
  import opened PipelineResult
  import opened PipelineTermination
  import opened PipelineProgress

  function FilesThatOpen(cfg: Config): nat {
    |Openables(cfg, |cfg.files|)|
  }

  lemma {:induction false} OpenablesGrow(cfg: Config, i: nat, j: nat)
    requires i <= j
    ensures |Openables(cfg, i)| <= |Openables(cfg, j)|
  {
    if i < j {
      OpenablesGrow(cfg, i, j - 1);
    }
  }

  lemma StuckTaken(cfg: Config, s: State)
    requires CloseInv(cfg, s) && FlowInv(cfg, s) && Stuck(cfg, s)
    ensures |s.names.accepted| >= s.names.taken + cfg.ringSize - 1 && s.names.taken >= cfg.requesters
  {
    SumAllAtLeast(Id, s.serviced, 1);
  }

  lemma FeedsOneMore(cfg: Config, i: nat)
    requires cfg.Opens(i)
    ensures |Openables(cfg, i)| + 1 <= FilesThatOpen(cfg)
  {
    assert |Openables(cfg, i + 1)| == |Openables(cfg, i)| + 1;
    OpenablesGrow(cfg, i + 1, |cfg.files|);
  }

  lemma FedAtFeedPut(cfg: Config, s: State)
    requires NamesOk(cfg, s) && s.main.FeedPut?
    ensures |s.names.accepted| == |Openables(cfg, s.main.i)| && cfg.Opens(s.main.i)
  {
  }

  /** Getting stuck takes a full name queue, one file in the hands of each requester, and one in main's. */
  lemma StuckNeedsFiles(cfg: Config, s: State)
    requires CloseInv(cfg, s) && NamesOk(cfg, s) && FlowInv(cfg, s) && Stuck(cfg, s)
    ensures FilesThatOpen(cfg) >= cfg.ringSize + cfg.requesters
  {
    StuckTaken(cfg, s);
    FedAtFeedPut(cfg, s);
    FeedsOneMore(cfg, s.main.i);
  }

  /** Progress: with at most N - 1 + R files, every unfinished reachable state has a productive step. */
  lemma ProgressUnderBound(cfg: Config, s: State)
    requires cfg.Valid() && Reachable(cfg, s) && !s.main.Finished?
    requires FilesThatOpen(cfg) <= cfg.ringSize - 1 + cfg.requesters
    ensures CanMove(cfg, s)
  {
    ReachableInv(cfg, s);
    StuckExactly(cfg, s);
    if Stuck(cfg, s) {
      StuckNeedsFiles(cfg, s);
    }
  }

  lemma LoggedLines(cfg: Config, s: State)
    requires FileInv(cfg, s) && |s.files| == |cfg.files|
    ensures |s.log.accepted| <= |AllStrs(cfg, |cfg.files|)|
  {
    var q, all := s.log.accepted, AllStrs(cfg, |cfg.files|);
    forall x: Str ensures multiset(q)[x] <= multiset(all)[x] {
      OfFileCounts(q, x);
      OfFileCounts(all, x);
      if x.file < |cfg.files| {
        var own := FileStrs(cfg, x.file);
        AllStrsOfFile(cfg, |cfg.files|, x.file, all, own);
        LoggedPrefix(cfg, s, x.file, own);
        PrefixCounts(OfFile(q, x.file), own, x);
      } else {
        OfFileNone(q, x.file);
      }
    }
    assert multiset(q) <= multiset(all);
    assert multiset(all) == multiset(q) + (multiset(all) - multiset(q));
  }

  lemma PrefixCounts(a: seq<Str>, b: seq<Str>, x: Str)
    requires a <= b
    ensures multiset(a)[x] <= multiset(b)[x]
  {
    assert b == a + b[|a|..];
  }

  lemma StuckNeedsLines(cfg: Config, s: State)
    requires cfg.Valid() && Inv(cfg, s) && Stuck(cfg, s)
    ensures |NonBlank(AllNames(cfg.files))| >= cfg.ringSize - 1 + cfg.requesters
  {
    SumAllAtLeast(InHostPut, s.requesters, 1);
    LoggedLines(cfg, s);
    AllStrsTexts(cfg, |cfg.files|);
    assert cfg.files[..|cfg.files|] == cfg.files;
    assert |AllStrs(cfg, |cfg.files|)| == |NonBlank(AllNames(cfg.files))|;
  }

  /** Getting stuck takes lines too: a full host queue, and one more line for each requester. So a small
      enough input never gets stuck, however many files it is spread over. */
  lemma ProgressWithFewLines(cfg: Config, s: State)
    requires cfg.Valid() && Reachable(cfg, s) && !s.main.Finished?
    requires |NonBlank(AllNames(cfg.files))| < cfg.ringSize - 1 + cfg.requesters
    ensures CanMove(cfg, s)
  {
    ReachableInv(cfg, s);
    StuckExactly(cfg, s);
    if Stuck(cfg, s) {
      StuckNeedsLines(cfg, s);
    }
  }

  // ---------------------------------------------------------------------------------------------
  // Running until nothing moves

  lemma ReachableStep(cfg: Config, s: State, l: Label)
    requires Reachable(cfg, s) && Ready(cfg, s, l)
    ensures Reachable(cfg, Apply(cfg, s, l))
  {
    var states: seq<State>, labels: seq<Label> :| IsRun(cfg, states, labels) && states[|labels|] == s;
    RunExtends(cfg, states, labels, l, Apply(cfg, s, l));
  }

  lemma RunExtends(cfg: Config, states: seq<State>, labels: seq<Label>, l: Label, s': State)
    requires IsRun(cfg, states, labels) && Next(cfg, states[|labels|], l, s')
    ensures IsRun(cfg, states + [s'], labels + [l])
    ensures (states + [s'])[|labels + [l]|] == s'
  {
    var states', labels' := states + [s'], labels + [l];
    forall i | 0 <= i < |labels'| ensures Next(cfg, states'[i], labels'[i], states'[i + 1]) {
      if i < |labels| {
        assert Next(cfg, states[i], labels[i], states[i + 1]);
      }
    }
  }

  /** Taking productive steps as long as there are any comes to an end. */
  lemma {:induction false} Quiesce(cfg: Config, s: State) returns (s': State)
    requires cfg.Valid() && Reachable(cfg, s)
    ensures Reachable(cfg, s') && !CanMove(cfg, s')
    decreases Measure(cfg, s)
  {
    if CanMove(cfg, s) {
      var l :| Productive(l) && Ready(cfg, s, l);
      ReachableInv(cfg, s);
      StepMeasure(cfg, s, l);
      assert Cheaper(cfg, s, l);
      ReachableStep(cfg, s, l);
      s' := Quiesce(cfg, Apply(cfg, s, l));
    } else {
      s' := s;
    }
  }

  /** Total correctness under the bound: whenever no thread can make progress any more, main has
      finished, with the logs of `ThreadedRefinesSequential`. `BoundedWork` says that it comes to that. */
  lemma QuietMeansFinished(cfg: Config, s: State)
    requires cfg.Valid() && Reachable(cfg, s) && !CanMove(cfg, s)
    requires FilesThatOpen(cfg) <= cfg.ringSize - 1 + cfg.requesters
    ensures s.main.Finished?
    ensures multiset(Texts(s.resOut)) == multiset(Entries(cfg.lookup, NonBlank(AllNames(cfg.files))))
  {
    if !s.main.Finished? {
      ProgressUnderBound(cfg, s);
    }
    ThreadedRefinesSequential(cfg, s);
  }

  // ---------------------------------------------------------------------------------------------
  // The bound is tight

  /** Every file that opens has at least as many non-empty lines as the ring has slots. */
  ghost predicate LongFiles(cfg: Config) {
    forall f: nat :: cfg.Opens(f) ==> |FileStrs(cfg, f)| >= cfg.ringSize
  }

  function Load(r: Requester): nat {
    if r.Unborn? || r.Taking? then 0 else 1
  }

  ghost predicate StarvedRequesters(serviced: seq<nat>, requesters: seq<Requester>) {
    && |serviced| == |requesters|
    && forall r :: 0 <= r < |requesters| ==> serviced[r] + IsOpening(requesters[r]) == Load(requesters[r])
  }

  /** No requester has ever finished a file, and main is still feeding. */
  ghost predicate Starved(cfg: Config, s: State) {
    && MainRank(s.main) <= 1
    && StarvedRequesters(s.serviced, s.requesters)
  }

  lemma {:induction false} TwoSums(serviced: seq<nat>, requesters: seq<Requester>)
    requires |serviced| == |requesters|
    requires forall r :: 0 <= r < |requesters| ==> serviced[r] + IsOpening(requesters[r]) <= 1
    ensures Sum(Id, serviced) + Sum(IsOpening, requesters) <= |requesters|
  {
    if |requesters| > 0 {
      assert forall r :: 0 <= r < |requesters| - 1 ==>
        requesters[1..][r] == requesters[r + 1] && serviced[1..][r] == serviced[r + 1];
      TwoSums(serviced[1..], requesters[1..]);
    }
  }

  lemma AtMostROut(cfg: Config, s: State)
    requires CloseInv(cfg, s) && FlowInv(cfg, s) && Starved(cfg, s)
    ensures s.names.taken <= cfg.requesters
  {
    TwoSums(s.serviced, s.requesters);
  }

  lemma {:induction false} OfFileLength(q: seq<Str>, f: nat)
    ensures |OfFile(q, f)| <= |q|
  {
    if q != [] {
      OfFileLength(q[..|q| - 1], f);
    }
  }

  lemma ShortOfTheEnd(cfg: Config, q: seq<Str>, f: nat, k: nat)
    requires LongFiles(cfg) && cfg.Opens(f) && k <= |cfg.Names(f)|
    requires |q| < cfg.ringSize && OfFile(q, f) == Strs(cfg, f, k)
    ensures k < |cfg.Names(f)|
  {
    OfFileLength(q, f);
    assert |FileStrs(cfg, f)| >= cfg.ringSize;
  }

  /** Without resolvers the host queue takes N - 1 names in all, fewer than any file has. */
  lemma NotAtTheEnd(cfg: Config, s: State, f: nat, k: nat, r: nat)
    requires CloseInv(cfg, s) && FileInv(cfg, s) && MainRank(s.main) <= 1 && LongFiles(cfg)
    requires r < |s.requesters| && s.requesters[r] == Reading(f, k)
    ensures k < |cfg.Names(f)|
  {
    assert ReaderAt(cfg, s.files, r, s.requesters[r]);
    ShortOfTheEnd(cfg, s.hosts.accepted, f, k);
  }

  lemma ReqStarved(cfg: Config, s: State, i: nat, early: bool)
    requires Inv(cfg, s) && Starved(cfg, s) && LongFiles(cfg) && ReqReady(cfg, s, i, early)
    ensures Starved(cfg, ReqApply(cfg, s, i))
  {
    var pc := s.requesters[i];
    assert ExitRank(pc) == 0 && ReaderAt(cfg, s.files, i, pc);
    if pc.Reading? {
      NotAtTheEnd(cfg, s, pc.f, pc.k, i);
    }
    RequesterStarved(cfg, s, i);
  }

  lemma StarvedMove(serviced: seq<nat>, requesters: seq<Requester>, i: nat, pc: Requester)
    requires StarvedRequesters(serviced, requesters) && i < |requesters|
    ensures Load(pc) - IsOpening(pc) == Load(requesters[i]) - IsOpening(requesters[i]) ==>
      StarvedRequesters(serviced, requesters[i := pc])
    ensures requesters[i].Opening? && pc.Reading? ==> StarvedRequesters(Bump(serviced, i), requesters[i := pc])
  {
  }

  lemma TakerStarved(cfg: Config, s: State, i: nat)
    requires Starved(cfg, s) && i < |s.requesters| && s.requesters[i].Taking? && s.names.taken < |s.names.accepted|
    ensures Starved(cfg, TakeStep(cfg, s, i))
  {
    StarvedMove(s.serviced, s.requesters, i, TakeStep(cfg, s, i).requesters[i]);
  }

  lemma ReaderStarved(cfg: Config, s: State, i: nat)
    requires Starved(cfg, s) && i < |s.requesters| && (s.requesters[i].Opening? || s.requesters[i].Reading?)
    requires s.requesters[i].Opening? ==> cfg.Opens(s.requesters[i].f)
    requires s.requesters[i].Reading? ==> s.requesters[i].k < |cfg.Names(s.requesters[i].f)|
    ensures Starved(cfg, ReqApply(cfg, s, i))
  {
    StarvedMove(s.serviced, s.requesters, i, ReqApply(cfg, s, i).requesters[i]);
  }

  lemma PutterStarved(cfg: Config, s: State, i: nat)
    requires Starved(cfg, s) && i < |s.requesters| && (s.requesters[i].LogPut? || s.requesters[i].HostPut?)
    ensures Starved(cfg, ReqApply(cfg, s, i))
  {
    StarvedMove(s.serviced, s.requesters, i, ReqApply(cfg, s, i).requesters[i]);
  }

  lemma RequesterStarved(cfg: Config, s: State, i: nat)
    requires Starved(cfg, s) && i < |s.requesters| && ExitRank(s.requesters[i]) == 0 && !s.requesters[i].Unborn?
    requires s.requesters[i].Taking? ==> s.names.taken < |s.names.accepted|
    requires s.requesters[i].Opening? ==> cfg.Opens(s.requesters[i].f)
    requires s.requesters[i].Reading? ==> s.requesters[i].k < |cfg.Names(s.requesters[i].f)|
    ensures Starved(cfg, ReqApply(cfg, s, i))
  {
    if s.requesters[i].Taking? {
      TakerStarved(cfg, s, i);
    } else if s.requesters[i].LogPut? || s.requesters[i].HostPut? {
      PutterStarved(cfg, s, i);
    } else {
      ReaderStarved(cfg, s, i);
    }
  }

  lemma NamesRoom(cfg: Config, s: State)
    requires CloseInv(cfg, s)
    ensures |s.names.accepted| <= s.names.taken + cfg.ringSize - 1
  {
  }

  lemma FedSoFar(cfg: Config, s: State, i: nat)
    requires FileInv(cfg, s) && s.main == Feed(i)
    ensures i <= |cfg.files| && (i == |cfg.files| ==> |s.names.accepted| == FilesThatOpen(cfg))
  {
  }

  /** Main has more names to feed than the requesters and the queue have room for. */
  lemma MoreToFeed(cfg: Config, s: State, open: nat)
    requires CloseInv(cfg, s) && FileInv(cfg, s) && FlowInv(cfg, s) && Starved(cfg, s)
    requires open == FilesThatOpen(cfg) && open >= cfg.ringSize + cfg.requesters
    ensures s.main.Feed? ==> s.main.i < |cfg.files|
  {
    if s.main.Feed? {
      FedSoFar(cfg, s, s.main.i);
      NamesRoom(cfg, s);
      AtMostROut(cfg, s);
    }
  }

  lemma MainStarved(cfg: Config, s: State)
    requires SpawnOk(s) && Starved(cfg, s) && (s.main.Feed? ==> s.main.i < |cfg.files|)
    ensures Starved(cfg, MainApply(cfg, s))
  {
    if s.main.SpawnRequester? && s.main.i < |s.requesters| {
      StarvedMove(s.serviced, s.requesters, s.main.i, Taking);
    }
  }

  lemma StepStarved(cfg: Config, s: State, l: Label, s': State)
    requires Inv(cfg, s) && Starved(cfg, s) && LongFiles(cfg) && Next(cfg, s, l, s')
    requires FilesThatOpen(cfg) >= cfg.ringSize + cfg.requesters
    ensures Starved(cfg, s')
  {
    match l {
      case MainStep(_) =>
        MoreToFeed(cfg, s, FilesThatOpen(cfg));
        MainStarved(cfg, s);
      case ReqStep(i, early) => ReqStarved(cfg, s, i, early);
      case _ =>
    }
  }

  lemma StarvedFacts(cfg: Config, s: State)
    requires Inv(cfg, s) && Starved(cfg, s) && LongFiles(cfg)
    ensures s.names.taken <= cfg.requesters
    ensures forall f :: 0 <= f < |s.files| ==> !s.files[f].owner.Closed?
  {
    AtMostROut(cfg, s);
    forall f | 0 <= f < |s.files| ensures !s.files[f].owner.Closed? {
      if s.files[f].owner.Closed? {
        OpenablesBelow(cfg, Fed(cfg, s.main));
        OfFileLength(s.hosts.accepted, f);
        assert false;
      }
    }
  }

  /** The bound is tight: with F >= N + R files of at least N non-empty lines each, in every run at most
      R files are ever taken, none is finished, and main never leaves its feeding loop. */
  lemma NeverLeavesFeeding(cfg: Config, s: State)
    requires cfg.Valid() && LongFiles(cfg) && FilesThatOpen(cfg) >= cfg.ringSize + cfg.requesters
    requires Reachable(cfg, s)
    ensures s.main.SpawnRequester? || s.main.Feed? || s.main.FeedPut?
    ensures s.names.taken <= cfg.requesters
    ensures forall f :: 0 <= f < |s.files| ==> !s.files[f].owner.Closed?
  {
    var states: seq<State>, labels: seq<Label> :| IsRun(cfg, states, labels) && states[|labels|] == s;
    var inv := (s: State) => Inv(cfg, s) && Starved(cfg, s);
    InitInv(cfg, states[0]);
    forall s, l, s' | inv(s) && Next(cfg, s, l, s') ensures inv(s') {
      StepInv(cfg, s, l, s');
      StepStarved(cfg, s, l, s');
    }
    RunInduction(cfg, states, labels, inv, |labels|);
    assert inv(s);
    StarvedFacts(cfg, s);
  }

  // ---------------------------------------------------------------------------------------------
  // Both directions together

  /** An input on which the program gets stuck: `files` files of `ringSize` lines each. */
  function LongInput(ringSize: nat, requesters: nat, resolvers: nat, files: nat): Config {
    Config(ringSize, requesters, resolvers, seq(files, i => Some(seq(ringSize, j => "host"))), (name: string) => None)
  }

  lemma {:induction false} AllOpen(cfg: Config, i: nat)
    requires forall f: nat :: f < i ==> cfg.Opens(f)
    ensures |Openables(cfg, i)| == i
  {
    if i > 0 {
      AllOpen(cfg, i - 1);
    }
  }

  lemma {:induction false} NoBlankLines(cfg: Config, f: nat, k: nat)
    requires k <= |cfg.Names(f)| && forall j :: 0 <= j < |cfg.Names(f)| ==> cfg.Names(f)[j] != ""
    ensures |Strs(cfg, f, k)| == k
  {
    if k > 0 {
      NoBlankLines(cfg, f, k - 1);
    }
  }

  lemma LongInputIsLong(ringSize: nat, requesters: nat, resolvers: nat, files: nat)
    ensures LongFiles(LongInput(ringSize, requesters, resolvers, files))
    ensures FilesThatOpen(LongInput(ringSize, requesters, resolvers, files)) == files
  {
    var cfg := LongInput(ringSize, requesters, resolvers, files);
    forall f: nat | cfg.Opens(f) ensures |FileStrs(cfg, f)| >= cfg.ringSize {
      NoBlankLines(cfg, f, ringSize);
    }
    AllOpen(cfg, files);
  }

  lemma Start(cfg: Config) returns (s: State)
    ensures Init(cfg, s) && Reachable(cfg, s)
  {
    s := Initial(cfg);
    var states, labels: seq<Label> := [s], [];
    assert IsRun(cfg, states, labels) && states[|labels|] == s;
  }

  /** Whatever the `files` files that open hold, no run comes to a halt before main has finished. */
  ghost predicate NeverGetsStuck(ringSize: nat, requesters: nat, resolvers: nat, files: nat) {
    forall cfg: Config, s: State ::
      (cfg.Valid() && cfg.ringSize == ringSize && cfg.requesters == requesters && cfg.resolvers == resolvers
       && FilesThatOpen(cfg) == files && Reachable(cfg, s) && !s.main.Finished?) ==> CanMove(cfg, s)
  }

  /** The exact bound: the program is free of deadlock for every content of the files if and only if
      F <= N - 1 + R. The number of resolvers plays no part. */
  lemma DeadlockFreeIff(ringSize: nat, requesters: nat, resolvers: nat, files: nat)
    requires ringSize >= 2 && requesters >= 1 && resolvers >= 1
    ensures NeverGetsStuck(ringSize, requesters, resolvers, files) <==> files <= ringSize - 1 + requesters
  {
    if files <= ringSize - 1 + requesters {
      forall cfg: Config, s: State |
        cfg.Valid() && cfg.ringSize == ringSize && cfg.requesters == requesters && cfg.resolvers == resolvers
        && FilesThatOpen(cfg) == files && Reachable(cfg, s) && !s.main.Finished?
        ensures CanMove(cfg, s)
      {
        ProgressUnderBound(cfg, s);
      }
    } else {
      var cfg := LongInput(ringSize, requesters, resolvers, files);
      LongInputIsLong(ringSize, requesters, resolvers, files);
      var s := Start(cfg);
      var stuck := Quiesce(cfg, s);
      NeverLeavesFeeding(cfg, stuck);
    }
  }
}
