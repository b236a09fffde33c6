/** Exactly which inputs can bring the program to a halt, file by file. */
module PipelineStuck {
  import opened Sums
  import opened Fifo
  import opened Pipeline
  import opened PipelineClose
  import opened PipelineFrame
  import opened PipelineFiles
  import opened PipelineResult
  import opened PipelineTermination
  import opened PipelineProgress
  import opened PipelineBound
  import opened PipelineTally

  function Kept(held: set<nat>): nat -> nat {
    (f: nat) => if f in held then 1 else 0
  }

  /** The non-empty lines of a file. */
  function Lines(cfg: Config): nat -> nat {
    (f: nat) => |FileStrs(cfg, f)|
  }

  function LinesUnless(cfg: Config, held: set<nat>): nat -> nat {
    (f: nat) => if f in held then 0 else |FileStrs(cfg, f)|
  }

  /** The input can get stuck once the files `first` have been taken, the first few of those that open: R of
      them, the last one among them, are `held` by the requesters, each with a line to go; the lines of the
      others fit into the host queue, and with all but one line of each held file they fill it; and N more files
      open, to fill the name queue and main's hands. */
  ghost predicate CanStick(cfg: Config, first: seq<nat>, held: set<nat>) {
    && first != [] && first <= Openables(cfg, |cfg.files|) && |first| + cfg.ringSize <= FilesThatOpen(cfg)
    && first[|first| - 1] in held
    && Sum(Kept(held), first) == cfg.requesters
    && (forall f :: f in held ==> f in first && |FileStrs(cfg, f)| >= 1)
    && Sum(LinesUnless(cfg, held), first) <= cfg.ringSize - 1
    && cfg.ringSize - 1 + cfg.requesters <= Sum(Lines(cfg), first)
  }

  lemma {:induction false} OpenablesPrefix(cfg: Config, i: nat, j: nat)
    requires i <= j
    ensures Openables(cfg, i) <= Openables(cfg, j)
  {
    if i < j {
      OpenablesPrefix(cfg, i, j - 1);
    }
  }

  lemma {:induction false} SumSplit(a: nat -> nat, b: nat -> nat, c: nat -> nat, fs: seq<nat>)
    requires forall i :: 0 <= i < |fs| ==> a(fs[i]) + b(fs[i]) <= c(fs[i])
    ensures Sum(a, fs) + Sum(b, fs) <= Sum(c, fs)
  {
    if fs != [] {
      SumSplit(a, b, c, fs[1..]);
    }
  }

  lemma SumLess(a: nat -> nat, b: nat -> nat, fs: seq<nat>)
    requires forall i :: 0 <= i < |fs| ==> a(fs[i]) <= b(fs[i])
    ensures Sum(a, fs) <= Sum(b, fs)
  {
    var none := (f: nat) => 0;
    SumZero(none, fs);
    SumSplit(a, none, b, fs);
  }

  // ---------------------------------------------------------------------------------------------
  // The file taken last

  ghost predicate SomebodyFree(requesters: seq<Requester>) {
    exists r :: 0 <= r < |requesters| && HeldFile(requesters[r]).None?
  }

  ghost predicate LastClosed(files: seq<Progress>, names: Fifo<nat>) {
    && 0 < names.taken <= |names.accepted|
    && names.accepted[names.taken - 1] < |files| && files[names.accepted[names.taken - 1]].owner.Closed?
  }

  /** Whoever finished the file taken last has no file. */
  ghost predicate LastOk(s: State) {
    LastClosed(s.files, s.names) ==> SomebodyFree(s.requesters)
  }

  lemma FreeStays(requesters: seq<Requester>, i: nat, pc: Requester)
    requires i < |requesters|
    ensures HeldFile(pc).None? ==> SomebodyFree(requesters[i := pc])
    ensures SomebodyFree(requesters) && HeldFile(requesters[i]).Some? ==> SomebodyFree(requesters[i := pc])
  {
    var requesters' := requesters[i := pc];
    if HeldFile(pc).None? {
      assert HeldFile(requesters'[i]).None?;
    }
    if SomebodyFree(requesters) && HeldFile(requesters[i]).Some? {
      var r :| 0 <= r < |requesters| && HeldFile(requesters[r]).None?;
      assert HeldFile(requesters'[r]).None?;
    }
  }

  lemma TakeLast(cfg: Config, s: State, i: nat)
    requires CloseInv(cfg, s) && NamesOk(cfg, s) && LastOk(s) && i < |s.requesters| && s.requesters[i].Taking?
    ensures LastOk(TakeStep(cfg, s, i))
  {
    FreeStays(s.requesters, i, TakeStep(cfg, s, i).requesters[i]);
  }

  lemma ReadLast(cfg: Config, s: State, i: nat)
    requires LastOk(s) && i < |s.requesters| && (s.requesters[i].Opening? || s.requesters[i].Reading?)
    requires ReaderAt(cfg, s.files, i, s.requesters[i])
    ensures LastOk(ReqApply(cfg, s, i))
  {
    FreeStays(s.requesters, i, ReqApply(cfg, s, i).requesters[i]);
  }

  lemma LoggerMoves(cfg: Config, s: State, i: nat, s': State)
    requires i < |s.requesters| && s.requesters[i].LogPut? && s' == ReqApply(cfg, s, i)
    requires ReaderAt(cfg, s.files, i, s.requesters[i])
    ensures |s'.requesters| == |s.requesters| && s'.requesters == s.requesters[i := s'.requesters[i]]
    ensures s'.names == s.names && LastClosed(s'.files, s'.names) ==> LastClosed(s.files, s.names)
  {
  }

  lemma SenderMoves(cfg: Config, s: State, i: nat, s': State)
    requires i < |s.requesters| && s.requesters[i].HostPut? && s' == ReqApply(cfg, s, i)
    requires ReaderAt(cfg, s.files, i, s.requesters[i])
    ensures |s'.requesters| == |s.requesters| && s'.requesters == s.requesters[i := s'.requesters[i]]
    ensures s'.names == s.names && LastClosed(s'.files, s'.names) ==> LastClosed(s.files, s.names)
  {
  }

  lemma PutLast(cfg: Config, s: State, i: nat, s': State)
    requires LastOk(s) && i < |s.requesters| && (s.requesters[i].LogPut? || s.requesters[i].HostPut?)
    requires ReaderAt(cfg, s.files, i, s.requesters[i]) && s' == ReqApply(cfg, s, i)
    ensures LastOk(s')
  {
    if s.requesters[i].LogPut? {
      LoggerMoves(cfg, s, i, s');
    } else {
      SenderMoves(cfg, s, i, s');
    }
    FreeStays(s.requesters, i, s'.requesters[i]);
  }

  lemma ExitLast(cfg: Config, s: State, i: nat)
    requires LastOk(s) && i < |s.requesters| && (ExitRank(s.requesters[i]) > 0 || s.requesters[i].Unborn?)
    ensures LastOk(ReqApply(cfg, s, i))
  {
    FreeStays(s.requesters, i, ReqApply(cfg, s, i).requesters[i]);
  }

  lemma MainLast(cfg: Config, s: State)
    requires LastOk(s) && s.names.Valid(cfg.Capacity())
    ensures LastOk(MainApply(cfg, s))
  {
    if s.main.SpawnRequester? && s.main.i < |s.requesters| {
      FreeStays(s.requesters, s.main.i, Taking);
    }
  }

  lemma ReqLast(cfg: Config, s: State, i: nat, s': State)
    requires CloseInv(cfg, s) && FileInv(cfg, s) && LastOk(s) && i < |s.requesters| && s' == ReqApply(cfg, s, i)
    ensures LastOk(s')
  {
    assert ReaderAt(cfg, s.files, i, s.requesters[i]);
    if s.requesters[i].Taking? {
      TakeLast(cfg, s, i);
    } else if s.requesters[i].Opening? || s.requesters[i].Reading? {
      ReadLast(cfg, s, i);
    } else if s.requesters[i].LogPut? || s.requesters[i].HostPut? {
      PutLast(cfg, s, i, s');
    } else {
      ExitLast(cfg, s, i);
    }
  }

  /** Resolvers and log writers leave the files, the requesters and the name queue alone. */
  lemma OthersLast(cfg: Config, s: State, l: Label, s': State)
    requires LastOk(s) && Next(cfg, s, l, s') && !l.MainStep? && !l.ReqStep?
    ensures LastOk(s')
  {
    assert s'.files == s.files && s'.names == s.names && s'.requesters == s.requesters;
  }

  lemma LastKept(cfg: Config, s: State, l: Label, s': State)
    requires CloseInv(cfg, s) && FileInv(cfg, s) && LastOk(s) && Next(cfg, s, l, s')
    ensures LastOk(s')
  {
    match l {
      case MainStep(_) => MainLast(cfg, s);
      case ReqStep(i, _) => ReqLast(cfg, s, i, s');
      case _ => OthersLast(cfg, s, l, s');
    }
  }

  lemma LastInv(cfg: Config, s: State)
    requires cfg.Valid() && Reachable(cfg, s)
    ensures Inv(cfg, s) && LastOk(s)
  {
    var states: seq<State>, labels: seq<Label> :| IsRun(cfg, states, labels) && states[|labels|] == s;
    var inv := (s: State) => Inv(cfg, s) && LastOk(s);
    InitInv(cfg, states[0]);
    forall s, l, s' | inv(s) && Next(cfg, s, l, s') ensures inv(s') {
      StepInv(cfg, s, l, s');
      LastKept(cfg, s, l, s');
    }
    RunInduction(cfg, states, labels, inv, |labels|);
    assert inv(s);
  }

  // ---------------------------------------------------------------------------------------------
  // What being stuck takes

  /** The files in the requesters' hands. */
  function InHands(files: seq<Progress>): set<nat> {
    set f | 0 <= f < |files| && files[f].owner.By?
  }

  lemma LineToGo(cfg: Config, f: nat, k: nat)
    requires k < |cfg.Names(f)| && cfg.Names(f)[k] != ""
    ensures |Strs(cfg, f, k)| + 1 <= |FileStrs(cfg, f)|
  {
    StrsPrefix(cfg, f, k + 1, |cfg.Names(f)|);
    assert Strs(cfg, f, k + 1) == Strs(cfg, f, k) + StrAt(cfg, f, k);
  }

  /** A requester that waits to send a line has that line to go. */
  lemma WaitsToSend(cfg: Config, s: State, r: nat)
    requires FileInv(cfg, s) && r < |s.requesters| && s.requesters[r].HostPut?
    ensures Sends(cfg, s.files)(s.requesters[r].f) + 1 <= |FileStrs(cfg, s.requesters[r].f)|
  {
    assert ReaderAt(cfg, s.files, r, s.requesters[r]);
    LineToGo(cfg, s.requesters[r].f, s.requesters[r].k);
  }

  /** In a stuck state the file a requester holds has been sent but for at least one line. */
  lemma StuckHolds(cfg: Config, s: State, f: nat)
    requires FileInv(cfg, s) && Stuck(cfg, s) && f in InHands(s.files)
    ensures Sends(cfg, s.files)(f) + 1 <= |FileStrs(cfg, f)|
  {
    WaitsToSend(cfg, s, s.files[f].owner.r);
  }

  lemma StuckOthers(cfg: Config, s: State, f: nat)
    requires CloseInv(cfg, s) && FileInv(cfg, s) && f in TakenFiles(s) && f !in InHands(s.files)
    ensures Sends(cfg, s.files)(f) == |FileStrs(cfg, f)|
  {
    TakenOnce(cfg, s);
  }

  lemma AllHold(cfg: Config, s: State)
    requires CloseInv(cfg, s) && FileInv(cfg, s) && Stuck(cfg, s)
    ensures Sum(Kept(InHands(s.files)), TakenFiles(s)) == cfg.requesters
  {
    var fs := TakenFiles(s);
    TakenOnce(cfg, s);
    HoldersTally(cfg, s, fs);
    SumAllAtLeast(Holding, s.requesters, 1);
    SumBounded(Holding, s.requesters, 1);
    forall i | 0 <= i < |fs| ensures Kept(InHands(s.files))(fs[i]) == OpenBelow(s.files, |s.requesters|)(fs[i]) {
    }
    SumSame(Kept(InHands(s.files)), OpenBelow(s.files, |s.requesters|), fs);
  }

  lemma StuckLines(cfg: Config, s: State, held: set<nat>)
    requires CloseInv(cfg, s) && FileInv(cfg, s) && Stuck(cfg, s) && held == InHands(s.files)
    ensures Sum(LinesUnless(cfg, held), TakenFiles(s)) <= |s.hosts.accepted|
    ensures |s.hosts.accepted| + cfg.requesters <= Sum(Lines(cfg), TakenFiles(s))
  {
    var fs := TakenFiles(s);
    HostsTally(cfg, s);
    AllHold(cfg, s);
    forall i | 0 <= i < |fs|
      ensures LinesUnless(cfg, held)(fs[i]) <= Sends(cfg, s.files)(fs[i])
      ensures Sends(cfg, s.files)(fs[i]) + Kept(held)(fs[i]) <= Lines(cfg)(fs[i])
    {
      if fs[i] in held {
        StuckHolds(cfg, s, fs[i]);
      } else {
        StuckOthers(cfg, s, fs[i]);
      }
    }
    SumLess(LinesUnless(cfg, held), Sends(cfg, s.files), fs);
    SumSplit(Sends(cfg, s.files), Kept(held), Lines(cfg), fs);
  }

  /** The names taken are the first of all, and main holds one more than were fed. */
  lemma StuckFeeds(cfg: Config, s: State, opens: seq<nat>)
    requires NamesOk(cfg, s) && s.main.FeedPut? && opens == Openables(cfg, |cfg.files|)
    ensures TakenFiles(s) <= opens && |s.names.accepted| + 1 <= |opens|
  {
    OpenablesPrefix(cfg, s.main.i, s.main.i + 1);
    OpenablesPrefix(cfg, s.main.i + 1, |cfg.files|);
  }

  lemma HoldsTaken(cfg: Config, s: State, r: nat)
    requires CloseInv(cfg, s) && FileInv(cfg, s) && r < |s.requesters| && s.requesters[r].HostPut?
    ensures s.requesters[r].f in TakenFiles(s)
  {
    assert ReaderAt(cfg, s.files, r, s.requesters[r]);
    TakenOnce(cfg, s);
  }

  lemma TakenLast(cfg: Config, s: State)
    requires NamesOk(cfg, s) && 0 < s.names.taken <= |s.names.accepted|
    ensures var f := s.names.accepted[s.names.taken - 1];
      f < |s.files| && !s.files[f].owner.Nobody? && (LastClosed(s.files, s.names) <==> s.files[f].owner.Closed?)
  {
  }

  lemma NobodyFree(s: State)
    requires forall r :: 0 <= r < |s.requesters| ==> s.requesters[r].HostPut?
    ensures !SomebodyFree(s.requesters)
  {
  }

  lemma InHandsUnlessClosed(files: seq<Progress>, f: nat)
    requires f < |files| && !files[f].owner.Nobody? && !files[f].owner.Closed?
    ensures f in InHands(files)
  {
  }

  lemma StuckLast(cfg: Config, s: State, fs: seq<nat>)
    requires CloseInv(cfg, s) && FileInv(cfg, s) && LastOk(s) && Stuck(cfg, s) && fs == TakenFiles(s)
    ensures fs != [] && |fs| == s.names.taken && fs[|fs| - 1] in InHands(s.files)
  {
    HoldsTaken(cfg, s, 0);
    TakenLast(cfg, s);
    NobodyFree(s);
    InHandsUnlessClosed(s.files, fs[|fs| - 1]);
  }

  lemma StuckHeld(cfg: Config, s: State, f: nat)
    requires CloseInv(cfg, s) && FileInv(cfg, s) && Stuck(cfg, s) && f in InHands(s.files)
    ensures f in TakenFiles(s) && |FileStrs(cfg, f)| >= 1
  {
    TakenOnce(cfg, s);
    StuckHolds(cfg, s, f);
  }

  lemma StuckFull(cfg: Config, s: State)
    requires CloseInv(cfg, s) && Stuck(cfg, s)
    ensures s.names.taken <= |s.names.accepted| == s.names.taken + cfg.ringSize - 1
    ensures |s.hosts.accepted| == cfg.ringSize - 1
  {
  }

  lemma Sticks(cfg: Config, opens: seq<nat>, first: seq<nat>, held: set<nat>)
    requires opens == Openables(cfg, |cfg.files|) && first != [] && first <= opens && |first| + cfg.ringSize <= |opens|
    requires first[|first| - 1] in held && Sum(Kept(held), first) == cfg.requesters
    requires forall f :: f in held ==> f in first && |FileStrs(cfg, f)| >= 1
    requires Sum(LinesUnless(cfg, held), first) <= cfg.ringSize - 1
    requires cfg.ringSize - 1 + cfg.requesters <= Sum(Lines(cfg), first)
    ensures CanStick(cfg, first, held)
  {
  }

  /** Every stuck state shows how the input can stick. */
  lemma StuckSticks(cfg: Config, s: State, opens: seq<nat>, fs: seq<nat>, held: set<nat>)
    requires CloseInv(cfg, s) && FileInv(cfg, s) && LastOk(s) && Stuck(cfg, s)
    requires opens == Openables(cfg, |cfg.files|) && fs == TakenFiles(s) && held == InHands(s.files)
    ensures CanStick(cfg, fs, held)
  {
    StuckFeeds(cfg, s, opens);
    StuckFull(cfg, s);
    StuckLast(cfg, s, fs);
    AllHold(cfg, s);
    StuckLines(cfg, s, held);
    forall f | f in held ensures f in fs && |FileStrs(cfg, f)| >= 1 {
      StuckHeld(cfg, s, f);
    }
    Sticks(cfg, opens, fs, held);
  }

  // ---------------------------------------------------------------------------------------------
  // How to get there

  function SendsOf(cfg: Config, files: seq<Progress>, held: set<nat>): nat -> nat {
    (f: nat) => if f < |files| && f in held then |Strs(cfg, f, files[f].sent)| else 0
  }

  /** No held file has sent its last line, and the held files leave room for all lines of the others. */
  ghost predicate Steered(cfg: Config, first: seq<nat>, held: set<nat>, s: State) {
    && MainRank(s.main) <= 1 && s.names.taken <= |first|
    && (forall f :: f in held ==> Sends(cfg, s.files)(f) < |FileStrs(cfg, f)|)
    && Sum(SendsOf(cfg, s.files, held), first) + Sum(LinesUnless(cfg, held), first) <= cfg.ringSize - 1
  }

  lemma StartSteered(cfg: Config, first: seq<nat>, held: set<nat>)
    requires cfg.Valid() && CanStick(cfg, first, held)
    ensures Steered(cfg, first, held, Initial(cfg))
  {
    SumZero(SendsOf(cfg, Initial(cfg).files, held), first);
  }

  ghost predicate SameSends(cfg: Config, files: seq<Progress>, files': seq<Progress>) {
    forall f: nat :: Sends(cfg, files')(f) == Sends(cfg, files)(f)
  }

  lemma StaySteered(cfg: Config, first: seq<nat>, held: set<nat>, s: State, s': State)
    requires Steered(cfg, first, held, s) && MainRank(s'.main) <= 1 && s'.names.taken <= |first|
    requires SameSends(cfg, s.files, s'.files)
    ensures Steered(cfg, first, held, s')
  {
    SumSame(SendsOf(cfg, s'.files, held), SendsOf(cfg, s.files, held), first);
  }

  lemma MainSteered(cfg: Config, first: seq<nat>, held: set<nat>, s: State)
    requires Inv(cfg, s) && Steered(cfg, first, held, s) && |first| + cfg.ringSize <= FilesThatOpen(cfg)
    ensures Steered(cfg, first, held, MainApply(cfg, s))
  {
    if s.main.Feed? {
      FedSoFar(cfg, s, s.main.i);
      NamesRoom(cfg, s);
    }
    MainKeepsRank(cfg, s);
    StaySteered(cfg, first, held, s, MainApply(cfg, s));
  }

  lemma MainKeepsRank(cfg: Config, s: State)
    requires MainRank(s.main) <= 1 && (s.main.Feed? ==> s.main.i < |cfg.files|)
    ensures MainRank(MainApply(cfg, s).main) <= 1 && MainApply(cfg, s).names.taken == s.names.taken
    ensures MainApply(cfg, s).files == s.files
  {
  }

  /** Opening a file, reading a line or logging it sends nothing. */
  lemma ReadSends(cfg: Config, s: State, i: nat)
    requires i < |s.requesters| && ReaderAt(cfg, s.files, i, s.requesters[i])
    requires s.requesters[i].Opening? || s.requesters[i].Reading? || s.requesters[i].LogPut?
    ensures SameSends(cfg, s.files, ReqApply(cfg, s, i).files)
    ensures ReqApply(cfg, s, i).main == s.main && ReqApply(cfg, s, i).names == s.names
  {
    if s.requesters[i].Reading? {
      assert Strs(cfg, s.requesters[i].f, s.requesters[i].k + 1) ==
        Strs(cfg, s.requesters[i].f, s.requesters[i].k) + StrAt(cfg, s.requesters[i].f, s.requesters[i].k);
    }
  }

  lemma ReadSteered(cfg: Config, first: seq<nat>, held: set<nat>, s: State, i: nat)
    requires FileInv(cfg, s) && Steered(cfg, first, held, s) && i < |s.requesters|
    requires s.requesters[i].Opening? || s.requesters[i].Reading? || s.requesters[i].LogPut?
    ensures Steered(cfg, first, held, ReqApply(cfg, s, i))
  {
    assert ReaderAt(cfg, s.files, i, s.requesters[i]);
    ReadSends(cfg, s, i);
    StaySteered(cfg, first, held, s, ReqApply(cfg, s, i));
  }

  // ---------------------------------------------------------------------------------------------
  // Sums over the first files

  lemma {:induction false} SumPlus(a: nat -> nat, b: nat -> nat, c: nat -> nat, fs: seq<nat>)
    requires forall i :: 0 <= i < |fs| ==> c(fs[i]) == a(fs[i]) + b(fs[i])
    ensures Sum(c, fs) == Sum(a, fs) + Sum(b, fs)
  {
    if fs != [] {
      SumPlus(a, b, c, fs[1..]);
    }
  }

  lemma {:induction false} SumPrefix(g: nat -> nat, a: seq<nat>, b: seq<nat>)
    requires a <= b
    ensures Sum(g, a) <= Sum(g, b)
  {
    if a != [] {
      SumPrefix(g, a[1..], b[1..]);
    }
  }

  lemma SumMissing(requesters: seq<Requester>, i: nat)
    requires i < |requesters| && HeldFile(requesters[i]).None?
    ensures Sum(Holding, requesters) < |requesters|
  {
    SumUpdate(Holding, requesters, i, Opening(0));
    SumBounded(Holding, requesters[i := Opening(0)], 1);
  }

  /** The files taken are the first of all. */
  lemma TakenFirst(cfg: Config, s: State, first: seq<nat>, opens: seq<nat>)
    requires CloseInv(cfg, s) && NamesOk(cfg, s) && opens == Openables(cfg, |cfg.files|)
    requires first <= opens && s.names.taken <= |first|
    ensures TakenFiles(s) <= first && |TakenFiles(s)| == s.names.taken
  {
    OpenablesPrefix(cfg, Fed(cfg, s.main), |cfg.files|);
  }

  lemma FirstOnce(cfg: Config, first: seq<nat>)
    requires first <= Openables(cfg, |cfg.files|)
    ensures Distinct(first)
  {
    forall i, j | 0 <= i < j < |first| ensures first[i] != first[j] {
      OpenablesDistinct(cfg, |cfg.files|, i, j);
    }
  }

  /** A held file that is taken is in a requester's hands. */
  lemma HeldInHands(cfg: Config, first: seq<nat>, held: set<nat>, s: State, f: nat)
    requires CloseInv(cfg, s) && FileInv(cfg, s) && Steered(cfg, first, held, s) && f in held && f in TakenFiles(s)
    ensures f < |s.files| && s.files[f].owner.By? && s.files[f].owner.r < |s.requesters|
  {
    TakenOnce(cfg, s);
    if f !in InHands(s.files) {
      StuckOthers(cfg, s, f);
    }
  }

  lemma HeldAreOpen(files: seq<Progress>, n: nat, held: set<nat>, fs: seq<nat>)
    requires forall f :: f in held && f in fs ==> f < |files| && files[f].owner.By? && files[f].owner.r < n
    ensures Sum(Kept(held), fs) <= Sum(OpenBelow(files, n), fs)
  {
    SumLess(Kept(held), OpenBelow(files, n), fs);
  }

  /** There are at least as many requesters with a file as held files taken. */
  lemma HeldHaveHolders(cfg: Config, first: seq<nat>, held: set<nat>, s: State)
    requires CloseInv(cfg, s) && FileInv(cfg, s) && Steered(cfg, first, held, s)
    ensures Sum(Kept(held), TakenFiles(s)) <= Sum(Holding, s.requesters)
  {
    var fs := TakenFiles(s);
    HoldersTally(cfg, s, fs);
    forall f | f in held && f in fs
      ensures f < |s.files| && s.files[f].owner.By? && s.files[f].owner.r < |s.requesters|
    {
      HeldInHands(cfg, first, held, s, f);
    }
    HeldAreOpen(s.files, |s.requesters|, held, fs);
  }

  // ---------------------------------------------------------------------------------------------
  // Taking a file

  lemma MoreToTake(cfg: Config, first: seq<nat>, held: set<nat>, s: State, i: nat)
    requires CloseInv(cfg, s) && FileInv(cfg, s) && Steered(cfg, first, held, s) && TakenFiles(s) <= first
    requires Sum(Kept(held), first) == cfg.requesters && i < |s.requesters| && s.requesters[i].Taking?
    ensures s.names.taken < |first|
  {
    if TakenFiles(s) == first {
      HeldHaveHolders(cfg, first, held, s);
      SumMissing(s.requesters, i);
    }
  }

  lemma TakeSends(cfg: Config, s: State, i: nat)
    requires CloseInv(cfg, s) && FileInv(cfg, s) && i < |s.requesters| && !s.names.IsEmpty()
    ensures SameSends(cfg, s.files, TakeStep(cfg, s, i).files)
    ensures TakeStep(cfg, s, i).main == s.main && TakeStep(cfg, s, i).names.taken == s.names.taken + 1
  {
    assert s.files[s.names.accepted[s.names.taken]].owner.Nobody?;
  }

  lemma TakeSteered(cfg: Config, first: seq<nat>, held: set<nat>, s: State, i: nat, s': State)
    requires CloseInv(cfg, s) && FileInv(cfg, s) && Steered(cfg, first, held, s) && TakenFiles(s) <= first
    requires Sum(Kept(held), first) == cfg.requesters
    requires i < |s.requesters| && s.requesters[i].Taking? && !s.names.IsEmpty() && s' == TakeStep(cfg, s, i)
    ensures Steered(cfg, first, held, s')
  {
    MoreToTake(cfg, first, held, s, i);
    TakeSends(cfg, s, i);
    StaySteered(cfg, first, held, s, s');
  }

  // ---------------------------------------------------------------------------------------------
  // Sending a line

  /** One more string of `f` has been sent. */
  ghost predicate SentOne(cfg: Config, files: seq<Progress>, files': seq<Progress>, f: nat) {
    && f < |files| == |files'|
    && Sends(cfg, files')(f) == Sends(cfg, files)(f) + 1
    && (forall g: nat :: g != f ==> Sends(cfg, files')(g) == Sends(cfg, files)(g))
  }

  lemma HostSends(cfg: Config, s: State, i: nat, f: nat, k: nat, copy: Str)
    requires i < |s.requesters| && s.requesters[i] == HostPut(f, k, copy) && ReaderAt(cfg, s.files, i, s.requesters[i])
    ensures var s' := HostStep(cfg, s, i, f, k, copy);
      SentOne(cfg, s.files, s'.files, f) && s'.main == s.main && s'.names == s.names
  {
    assert Strs(cfg, f, k + 1) == Strs(cfg, f, k) + StrAt(cfg, f, k);
  }

  lemma FreeSentOne(cfg: Config, files: seq<Progress>, files': seq<Progress>, f: nat, held: set<nat>, first: seq<nat>)
    requires SentOne(cfg, files, files', f) && f !in held
    ensures Sum(SendsOf(cfg, files', held), first) == Sum(SendsOf(cfg, files, held), first)
  {
    forall i | 0 <= i < |first| ensures SendsOf(cfg, files', held)(first[i]) == SendsOf(cfg, files, held)(first[i]) {
      assert first[i] != f ==> Sends(cfg, files')(first[i]) == Sends(cfg, files)(first[i]);
    }
    SumSame(SendsOf(cfg, files', held), SendsOf(cfg, files, held), first);
  }

  lemma HeldSentOne(cfg: Config, files: seq<Progress>, files': seq<Progress>, f: nat, held: set<nat>, first: seq<nat>)
    requires SentOne(cfg, files, files', f) && f in held && Distinct(first) && f in first
    ensures Sum(SendsOf(cfg, files', held), first) == Sum(SendsOf(cfg, files, held), first) + 1
  {
    forall i | 0 <= i < |first| && first[i] != f
      ensures SendsOf(cfg, files', held)(first[i]) == SendsOf(cfg, files, held)(first[i])
    {
      assert Sends(cfg, files')(first[i]) == Sends(cfg, files)(first[i]);
    }
    assert SendsOf(cfg, files', held)(f) == Sends(cfg, files')(f);
    SumOneMore(SendsOf(cfg, files, held), SendsOf(cfg, files', held), first, f);
  }

  /** A line of a file that is not held may be sent at any time. */
  lemma FreeSteered(cfg: Config, first: seq<nat>, held: set<nat>, s: State, f: nat, s': State)
    requires Steered(cfg, first, held, s) && SentOne(cfg, s.files, s'.files, f) && f !in held
    requires s'.main == s.main && s'.names == s.names
    ensures Steered(cfg, first, held, s')
  {
    FreeSentOne(cfg, s.files, s'.files, f, held, first);
  }

  /** A line of a held file may be sent as long as it is not the last and leaves room for the others. */
  lemma HeldSteered(cfg: Config, first: seq<nat>, held: set<nat>, s: State, f: nat, s': State)
    requires Steered(cfg, first, held, s) && SentOne(cfg, s.files, s'.files, f) && f in held
    requires s'.main == s.main && s'.names == s.names && Distinct(first) && f in first
    requires Sends(cfg, s.files)(f) + 1 < |FileStrs(cfg, f)|
    requires Sum(SendsOf(cfg, s.files, held), first) + Sum(LinesUnless(cfg, held), first) < cfg.ringSize - 1
    ensures Steered(cfg, first, held, s')
  {
    HeldSentOne(cfg, s.files, s'.files, f, held, first);
    forall g | g in held ensures Sends(cfg, s'.files)(g) < |FileStrs(cfg, g)| {
      assert g != f ==> Sends(cfg, s'.files)(g) == Sends(cfg, s.files)(g);
    }
  }

  // ---------------------------------------------------------------------------------------------
  // Room on the host queue

  function SpareAt(g: nat): nat -> nat {
    (f: nat) => if f == g then 1 else 0
  }

  /** What a file has sent, or will have sent if it is not held. */
  function Share(cfg: Config, files: seq<Progress>, held: set<nat>): nat -> nat {
    (f: nat) => if f !in held then |FileStrs(cfg, f)| else if f < |files| then |Strs(cfg, f, files[f].sent)| else 0
  }

  lemma ShareSum(cfg: Config, files: seq<Progress>, held: set<nat>, fs: seq<nat>)
    ensures Sum(Share(cfg, files, held), fs) == Sum(SendsOf(cfg, files, held), fs) + Sum(LinesUnless(cfg, held), fs)
  {
    SumPlus(SendsOf(cfg, files, held), LinesUnless(cfg, held), Share(cfg, files, held), fs);
  }

  lemma SendsAtMost(cfg: Config, s: State, f: nat)
    requires FileInv(cfg, s) && |s.files| == |cfg.files|
    ensures Sends(cfg, s.files)(f) <= |FileStrs(cfg, f)|
  {
    if f < |s.files| {
      if s.files[f].owner.By? {
        assert ReaderAt(cfg, s.files, s.files[f].owner.r, s.requesters[s.files[f].owner.r]);
      }
      StrsPrefix(cfg, f, s.files[f].sent, |cfg.Names(f)|);
    }
  }

  /** A file `g` that is not held and has a line to go leaves a gap between what was sent and the shares. */
  lemma GapAt(cfg: Config, files: seq<Progress>, held: set<nat>, fs: seq<nat>, g: nat)
    requires forall i :: 0 <= i < |fs| ==> Sends(cfg, files)(fs[i]) <= |FileStrs(cfg, fs[i])|
    requires g in fs && g !in held && Sends(cfg, files)(g) + 1 <= |FileStrs(cfg, g)|
    ensures Sum(Sends(cfg, files), fs) < Sum(Share(cfg, files, held), fs)
  {
    forall i | 0 <= i < |fs| ensures Sends(cfg, files)(fs[i]) + SpareAt(g)(fs[i]) <= Share(cfg, files, held)(fs[i]) {
      assert fs[i] == g ==> Sends(cfg, files)(fs[i]) + 1 <= |FileStrs(cfg, fs[i])|;
    }
    SumSplit(Sends(cfg, files), SpareAt(g), Share(cfg, files, held), fs);
    var j :| 0 <= j < |fs| && fs[j] == g;
    SumAtLeast(SpareAt(g), fs, j);
  }

  /** While a file that is not held has a line to go, there is room for that line. */
  lemma FreeRoom(cfg: Config, first: seq<nat>, held: set<nat>, s: State, i: nat)
    requires CloseInv(cfg, s) && FileInv(cfg, s) && Steered(cfg, first, held, s) && TakenFiles(s) <= first
    requires i < |s.requesters| && s.requesters[i].HostPut? && s.requesters[i].f !in held
    ensures |s.hosts.accepted| < cfg.ringSize - 1
  {
    var fs, share := TakenFiles(s), Share(cfg, s.files, held);
    HoldsTaken(cfg, s, i);
    WaitsToSend(cfg, s, i);
    HostsTally(cfg, s);
    forall j | 0 <= j < |fs| ensures Sends(cfg, s.files)(fs[j]) <= |FileStrs(cfg, fs[j])| {
      SendsAtMost(cfg, s, fs[j]);
    }
    GapAt(cfg, s.files, held, fs, s.requesters[i].f);
    SumPrefix(share, fs, first);
    ShareSum(cfg, s.files, held, first);
  }

  // ---------------------------------------------------------------------------------------------
  // Where the steering ends

  /** No step that goes on steering is left. */
  ghost predicate Halted(cfg: Config, first: seq<nat>, held: set<nat>, s: State) {
    forall l :: Productive(l) && Ready(cfg, s, l) ==> !Steered(cfg, first, held, Apply(cfg, s, l))
  }

  lemma GoesOn(cfg: Config, first: seq<nat>, held: set<nat>, s: State, l: Label, s': State)
    requires Productive(l) && Ready(cfg, s, l) && s' == Apply(cfg, s, l) && Steered(cfg, first, held, s')
    ensures !Halted(cfg, first, held, s)
  {
  }

  lemma MainHalted(cfg: Config, first: seq<nat>, held: set<nat>, s: State)
    requires Inv(cfg, s) && Steered(cfg, first, held, s) && Halted(cfg, first, held, s)
    requires |first| + cfg.ringSize <= FilesThatOpen(cfg)
    ensures s.main.FeedPut? && !s.names.CanPut(cfg.Capacity())
  {
    if MainReady(cfg, s, false) {
      MainSteered(cfg, first, held, s);
      GoesOn(cfg, first, held, s, MainStep(false), MainApply(cfg, s));
    }
  }

  lemma WritersHalted(cfg: Config, first: seq<nat>, held: set<nat>, s: State)
    requires Steered(cfg, first, held, s) && Halted(cfg, first, held, s)
    ensures !LoggerReady(s.log, s.reqLogger) && !LoggerReady(s.messages, s.resLogger)
  {
    if LoggerReady(s.log, s.reqLogger) {
      StaySteered(cfg, first, held, s, ReqLogApply(s));
      GoesOn(cfg, first, held, s, ReqLogStep, ReqLogApply(s));
    }
    if LoggerReady(s.messages, s.resLogger) {
      StaySteered(cfg, first, held, s, ResLogApply(s));
      GoesOn(cfg, first, held, s, ResLogStep, ResLogApply(s));
    }
  }

  lemma TakeReady(cfg: Config, first: seq<nat>, held: set<nat>, s: State, i: nat, s': State)
    requires i < |s.requesters| && s.requesters[i].Taking? && !s.names.IsEmpty()
    requires s' == TakeStep(cfg, s, i) && Steered(cfg, first, held, s')
    ensures !Halted(cfg, first, held, s)
  {
    GoesOn(cfg, first, held, s, ReqStep(i, false), s');
  }

  lemma TakeGoesOn(cfg: Config, first: seq<nat>, held: set<nat>, s: State, i: nat)
    requires CloseInv(cfg, s) && FileInv(cfg, s) && Steered(cfg, first, held, s) && TakenFiles(s) <= first
    requires Sum(Kept(held), first) == cfg.requesters
    requires i < |s.requesters| && s.requesters[i].Taking? && !s.names.IsEmpty()
    ensures !Halted(cfg, first, held, s)
  {
    TakeSteered(cfg, first, held, s, i, TakeStep(cfg, s, i));
    TakeReady(cfg, first, held, s, i, TakeStep(cfg, s, i));
  }

  lemma ReadGoesOn(cfg: Config, first: seq<nat>, held: set<nat>, s: State, i: nat)
    requires FileInv(cfg, s) && Steered(cfg, first, held, s) && i < |s.requesters|
    requires s.requesters[i].Opening? || s.requesters[i].Reading?
             || (s.requesters[i].LogPut? && s.log.CanPut(cfg.Capacity()))
    ensures !Halted(cfg, first, held, s)
  {
    ReadSteered(cfg, first, held, s, i);
    GoesOn(cfg, first, held, s, ReqStep(i, false), ReqApply(cfg, s, i));
  }

  /** A line that the host queue has room for, of a file that may send it. */
  lemma SendGoesOn(cfg: Config, first: seq<nat>, held: set<nat>, s: State, i: nat, s': State)
    requires i < |s.requesters| && s.requesters[i].HostPut? && s.hosts.CanPut(cfg.Capacity())
    requires s' == ReqApply(cfg, s, i) && Steered(cfg, first, held, s')
    ensures !Halted(cfg, first, held, s)
  {
    GoesOn(cfg, first, held, s, ReqStep(i, false), s');
  }

  lemma SendsNext(cfg: Config, s: State, i: nat, f: nat, s': State)
    requires ReadersAt(cfg, s) && i < |s.requesters| && s.requesters[i].HostPut? && f == s.requesters[i].f
    requires s' == ReqApply(cfg, s, i)
    ensures SentOne(cfg, s.files, s'.files, f) && s'.main == s.main && s'.names == s.names
  {
    var pc := s.requesters[i];
    assert ReaderAt(cfg, s.files, i, pc);
    HostSends(cfg, s, i, pc.f, pc.k, pc.copy);
  }

  lemma RoomMeansReady(cfg: Config, s: State)
    requires cfg.Valid() && s.hosts.taken == 0 && |s.hosts.accepted| < cfg.ringSize - 1
    ensures s.hosts.CanPut(cfg.Capacity())
  {
  }

  lemma FreeGoesOn(cfg: Config, first: seq<nat>, held: set<nat>, s: State, i: nat)
    requires CloseInv(cfg, s) && FileInv(cfg, s) && Steered(cfg, first, held, s)
    requires TakenFiles(s) <= first && s.hosts.taken == 0
    requires i < |s.requesters| && s.requesters[i].HostPut? && s.requesters[i].f !in held
    ensures !Halted(cfg, first, held, s)
  {
    var s' := ReqApply(cfg, s, i);
    FreeRoom(cfg, first, held, s, i);
    RoomMeansReady(cfg, s);
    SendsNext(cfg, s, i, s.requesters[i].f, s');
    FreeSteered(cfg, first, held, s, s.requesters[i].f, s');
    SendGoesOn(cfg, first, held, s, i, s');
  }

  lemma HeldGoesOn(cfg: Config, first: seq<nat>, held: set<nat>, s: State, i: nat, f: nat)
    requires FileInv(cfg, s) && Steered(cfg, first, held, s) && Distinct(first)
    requires i < |s.requesters| && s.requesters[i].HostPut? && f == s.requesters[i].f && f in held && f in first
    requires s.hosts.CanPut(cfg.Capacity()) && Sends(cfg, s.files)(f) + 1 < |FileStrs(cfg, f)|
    requires Sum(SendsOf(cfg, s.files, held), first) + Sum(LinesUnless(cfg, held), first) < cfg.ringSize - 1
    ensures !Halted(cfg, first, held, s)
  {
    var s' := ReqApply(cfg, s, i);
    SendsNext(cfg, s, i, f, s');
    HeldSteered(cfg, first, held, s, f, s');
    SendGoesOn(cfg, first, held, s, i, s');
  }

  /** While main waits to feed, a requester reads, takes or waits to put. */
  lemma WhileMainFeeds(cfg: Config, s: State, r: nat)
    requires CloseInv(cfg, s) && s.main.FeedPut? && r < |s.requesters|
    ensures !s.requesters[r].Unborn? && ExitRank(s.requesters[r]) == 0 && s.hosts.taken == 0
    ensures !s.hosts.closed && !s.log.closed && !s.messages.closed && !s.reqLogger.Left? && !s.resLogger.Left?
    ensures forall v :: 0 <= v < |s.resolvers| ==> s.resolvers[v].Unborn?
  {
    OpenForReaders(cfg, s, r);
  }

  lemma LogHasRoom(cfg: Config, s: State)
    requires cfg.Valid() && s.log.Valid(cfg.Capacity())
    requires !LoggerReady(s.log, s.reqLogger) && !s.reqLogger.Left?
    ensures s.log.CanPut(cfg.Capacity())
  {
  }

  lemma NotTaking(cfg: Config, first: seq<nat>, held: set<nat>, s: State, r: nat)
    requires CloseInv(cfg, s) && FileInv(cfg, s) && Steered(cfg, first, held, s) && TakenFiles(s) <= first
    requires !s.names.IsEmpty() && Sum(Kept(held), first) == cfg.requesters && r < |s.requesters|
    ensures Halted(cfg, first, held, s) ==> !s.requesters[r].Taking?
  {
    if s.requesters[r].Taking? {
      TakeGoesOn(cfg, first, held, s, r);
    }
  }

  lemma NotReading(cfg: Config, first: seq<nat>, held: set<nat>, s: State, r: nat)
    requires FileInv(cfg, s) && Steered(cfg, first, held, s) && s.log.CanPut(cfg.Capacity()) && r < |s.requesters|
    ensures Halted(cfg, first, held, s) ==>
      !s.requesters[r].Opening? && !s.requesters[r].Reading? && !s.requesters[r].LogPut?
  {
    if s.requesters[r].Opening? || s.requesters[r].Reading? || s.requesters[r].LogPut? {
      ReadGoesOn(cfg, first, held, s, r);
    }
  }

  lemma NotFree(cfg: Config, first: seq<nat>, held: set<nat>, s: State, r: nat)
    requires CloseInv(cfg, s) && FileInv(cfg, s) && Steered(cfg, first, held, s) && TakenFiles(s) <= first
    requires s.hosts.taken == 0 && r < |s.requesters|
    ensures Halted(cfg, first, held, s) && s.requesters[r].HostPut? ==> s.requesters[r].f in held
  {
    if s.requesters[r].HostPut? && s.requesters[r].f !in held {
      FreeGoesOn(cfg, first, held, s, r);
    }
  }

  predicate CanOnlySend(pc: Requester, held: set<nat>) {
    && !pc.Taking? && !pc.Opening? && !pc.Reading? && !pc.LogPut?
    && (pc.HostPut? ==> pc.f in held)
  }

  /** A requester that neither takes nor reads nor logs waits to send. */
  lemma WhatIsLeft(pc: Requester, held: set<nat>)
    requires CanOnlySend(pc, held) && !pc.Unborn? && ExitRank(pc) == 0
    ensures pc.HostPut? && pc.f in held
  {
  }

  lemma HaltedSends(cfg: Config, first: seq<nat>, held: set<nat>, s: State, r: nat)
    requires CloseInv(cfg, s) && FileInv(cfg, s) && Steered(cfg, first, held, s) && TakenFiles(s) <= first
    requires !s.names.IsEmpty() && s.log.CanPut(cfg.Capacity()) && s.hosts.taken == 0
    requires Sum(Kept(held), first) == cfg.requesters && r < |s.requesters|
    ensures Halted(cfg, first, held, s) ==> CanOnlySend(s.requesters[r], held)
  {
    NotTaking(cfg, first, held, s, r);
    NotReading(cfg, first, held, s, r);
    NotFree(cfg, first, held, s, r);
  }

  // ---------------------------------------------------------------------------------------------
  // All requesters wait with held files: the host queue is full

  ghost predicate AllHeld(s: State, held: set<nat>) {
    forall r :: 0 <= r < |s.requesters| ==> s.requesters[r].HostPut? && s.requesters[r].f in held
  }

  lemma OpenIsHeld(cfg: Config, s: State, held: set<nat>, f: nat)
    requires FileInv(cfg, s) && AllHeld(s, held) && f < |s.files| && s.files[f].owner.By?
    ensures f in held && s.files[f].owner.r < |s.requesters| && s.requesters[s.files[f].owner.r].f == f
  {
  }

  lemma HoldersHeld(cfg: Config, held: set<nat>, s: State)
    requires CloseInv(cfg, s) && FileInv(cfg, s) && AllHeld(s, held)
    ensures cfg.requesters <= Sum(Kept(held), TakenFiles(s))
  {
    var fs := TakenFiles(s);
    HoldersTally(cfg, s, fs);
    SumAllAtLeast(Holding, s.requesters, 1);
    forall i | 0 <= i < |fs| ensures OpenBelow(s.files, |s.requesters|)(fs[i]) <= Kept(held)(fs[i]) {
      if OpenBelow(s.files, |s.requesters|)(fs[i]) == 1 {
        OpenIsHeld(cfg, s, held, fs[i]);
      }
    }
    SumLess(OpenBelow(s.files, |s.requesters|), Kept(held), fs);
  }

  lemma LastMissing(fs: seq<nat>, first: seq<nat>, n: nat, held: set<nat>)
    requires |first| == n + 1 && fs <= first[..n] && first[n] in held
    ensures Sum(Kept(held), fs) < Sum(Kept(held), first)
  {
    SumAppend(Kept(held), first[..n], first[n]);
    assert first == first[..n] + [first[n]];
    SumPrefix(Kept(held), fs, first[..n]);
  }

  lemma NothingMissing(fs: seq<nat>, first: seq<nat>, held: set<nat>)
    requires fs <= first && first != [] && first[|first| - 1] in held && Sum(Kept(held), first) <= Sum(Kept(held), fs)
    ensures fs == first
  {
    if |fs| < |first| {
      LastMissing(fs, first, |first| - 1, held);
    }
  }

  /** As many held files have been taken as there are requesters, so all of the first files have. */
  lemma AllTaken(cfg: Config, first: seq<nat>, held: set<nat>, s: State)
    requires CloseInv(cfg, s) && FileInv(cfg, s) && AllHeld(s, held) && TakenFiles(s) <= first
    requires first != [] && first[|first| - 1] in held && Sum(Kept(held), first) == cfg.requesters
    ensures TakenFiles(s) == first
  {
    HoldersHeld(cfg, held, s);
    NothingMissing(TakenFiles(s), first, held);
  }

  /** Then the files that are not held have sent everything. */
  lemma OthersDone(cfg: Config, first: seq<nat>, held: set<nat>, s: State, f: nat)
    requires CloseInv(cfg, s) && FileInv(cfg, s) && AllHeld(s, held) && TakenFiles(s) == first && f in first
    ensures Sends(cfg, s.files)(f) == Share(cfg, s.files, held)(f)
  {
    TakenOnce(cfg, s);
    if f !in held {
      if f in InHands(s.files) {
        OpenIsHeld(cfg, s, held, f);
      } else {
        StuckOthers(cfg, s, f);
      }
    }
  }

  lemma AllShared(cfg: Config, first: seq<nat>, held: set<nat>, s: State)
    requires CloseInv(cfg, s) && FileInv(cfg, s) && AllHeld(s, held) && TakenFiles(s) == first
    ensures |s.hosts.accepted| == Sum(SendsOf(cfg, s.files, held), first) + Sum(LinesUnless(cfg, held), first)
    ensures Sum(Sends(cfg, s.files), first) == |s.hosts.accepted|
  {
    HostsTally(cfg, s);
    forall i | 0 <= i < |first| ensures Sends(cfg, s.files)(first[i]) == Share(cfg, s.files, held)(first[i]) {
      OthersDone(cfg, first, held, s, first[i]);
    }
    SumSame(Sends(cfg, s.files), Share(cfg, s.files, held), first);
    ShareSum(cfg, s.files, held, first);
  }

  lemma {:induction false} SumCover(a: nat -> nat, b: nat -> nat, c: nat -> nat, fs: seq<nat>)
    requires forall i :: 0 <= i < |fs| ==> c(fs[i]) <= a(fs[i]) + b(fs[i])
    ensures Sum(c, fs) <= Sum(a, fs) + Sum(b, fs)
  {
    if fs != [] {
      SumCover(a, b, c, fs[1..]);
    }
  }

  /** With room on the host queue every held file is down to its last line. */
  lemma LastLine(cfg: Config, first: seq<nat>, held: set<nat>, s: State, f: nat)
    requires CloseInv(cfg, s) && FileInv(cfg, s) && Steered(cfg, first, held, s) && Halted(cfg, first, held, s)
    requires AllHeld(s, held) && TakenFiles(s) == first && Distinct(first) && f in first
    requires s.hosts.CanPut(cfg.Capacity()) && |s.hosts.accepted| < cfg.ringSize - 1
    ensures |FileStrs(cfg, f)| <= Sends(cfg, s.files)(f) + Kept(held)(f)
  {
    AllShared(cfg, first, held, s);
    if f in held {
      HeldInHands(cfg, first, held, s, f);
      OpenIsHeld(cfg, s, held, f);
      if Sends(cfg, s.files)(f) + 1 < |FileStrs(cfg, f)| {
        HeldGoesOn(cfg, first, held, s, s.files[f].owner.r, f);
      }
    } else {
      OthersDone(cfg, first, held, s, f);
    }
  }

  lemma HostsFull(cfg: Config, first: seq<nat>, held: set<nat>, s: State)
    requires CloseInv(cfg, s) && FileInv(cfg, s) && Steered(cfg, first, held, s) && Halted(cfg, first, held, s)
    requires AllHeld(s, held) && TakenFiles(s) == first && Distinct(first) && s.hosts.taken == 0
    requires Sum(Kept(held), first) == cfg.requesters
    requires cfg.ringSize - 1 + cfg.requesters <= Sum(Lines(cfg), first)
    ensures s.hosts.IsFull(cfg.Capacity())
  {
    if |s.hosts.accepted| < cfg.ringSize - 1 {
      forall i | 0 <= i < |first|
        ensures Lines(cfg)(first[i]) <= Sends(cfg, s.files)(first[i]) + Kept(held)(first[i])
      {
        LastLine(cfg, first, held, s, first[i]);
      }
      SumCover(Sends(cfg, s.files), Kept(held), Lines(cfg), first);
      AllShared(cfg, first, held, s);
    }
  }

  /** When the steering ends, the program is stuck. */
  lemma HaltedIsStuck(cfg: Config, first: seq<nat>, held: set<nat>, s: State, opens: seq<nat>)
    requires Inv(cfg, s) && Steered(cfg, first, held, s) && Halted(cfg, first, held, s) && CanStick(cfg, first, held)
    requires opens == Openables(cfg, |cfg.files|) && first <= opens
    ensures Stuck(cfg, s)
  {
    MainHalted(cfg, first, held, s);
    WhileMainFeeds(cfg, s, 0);
    WritersHalted(cfg, first, held, s);
    LogHasRoom(cfg, s);
    TakenFirst(cfg, s, first, opens);
    forall r | 0 <= r < |s.requesters| ensures s.requesters[r].HostPut? && s.requesters[r].f in held {
      HaltedSends(cfg, first, held, s, r);
      WhileMainFeeds(cfg, s, r);
      WhatIsLeft(s.requesters[r], held);
    }
    AllTaken(cfg, first, held, s);
    FirstOnce(cfg, first);
    HostsFull(cfg, first, held, s);
  }

  lemma {:induction false} Steer(cfg: Config, first: seq<nat>, held: set<nat>, s: State) returns (s': State)
    requires cfg.Valid() && CanStick(cfg, first, held) && Reachable(cfg, s) && Steered(cfg, first, held, s)
    ensures Reachable(cfg, s') && Stuck(cfg, s')
    decreases Measure(cfg, s)
  {
    ReachableInv(cfg, s);
    if Halted(cfg, first, held, s) {
      HaltedIsStuck(cfg, first, held, s, Openables(cfg, |cfg.files|));
      s' := s;
    } else {
      var l :| Productive(l) && Ready(cfg, s, l) && Steered(cfg, first, held, Apply(cfg, s, l));
      StepMeasure(cfg, s, l);
      assert Cheaper(cfg, s, l);
      ReachableStep(cfg, s, l);
      s' := Steer(cfg, first, held, Apply(cfg, s, l));
    }
  }

  // ---------------------------------------------------------------------------------------------
  // The exact inputs

  ghost predicate GetsStuck(cfg: Config) {
    exists s :: Reachable(cfg, s) && !s.main.Finished? && !CanMove(cfg, s)
  }

  /** Whatever the input: some run of the program comes to a halt before main has finished if and only if the
      numbers of non-empty lines in the files allow it. */
  lemma GetsStuckIff(cfg: Config)
    requires cfg.Valid()
    ensures GetsStuck(cfg) <==> exists first, held :: CanStick(cfg, first, held)
  {
    if GetsStuck(cfg) {
      var s :| Reachable(cfg, s) && !s.main.Finished? && !CanMove(cfg, s);
      StuckExactly(cfg, s);
      LastInv(cfg, s);
      StuckSticks(cfg, s, Openables(cfg, |cfg.files|), TakenFiles(s), InHands(s.files));
    }
    if first, held :| CanStick(cfg, first, held) {
      StuckFromStart(cfg, first, held);
    }
  }

  lemma StuckFromStart(cfg: Config, first: seq<nat>, held: set<nat>)
    requires cfg.Valid() && CanStick(cfg, first, held)
    ensures GetsStuck(cfg)
  {
    var start := Start(cfg);
    StartSteered(cfg, first, held);
    var s := Steer(cfg, first, held, start);
    StuckExactly(cfg, s);
  }
}
