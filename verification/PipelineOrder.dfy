/** With one requester and one resolver the threaded program keeps the order of the sequential one. */
module PipelineOrder {
  import opened Sequential
  import opened Permutations
  import opened Pipeline
  import opened PipelineClose
  import opened PipelineFrame
  import opened PipelineFiles
  import opened PipelineFlow
  import opened PipelineResult

  // ---------------------------------------------------------------------------------------------
  // One requester

  /** What was sent of the given files, file by file. */
  function SentStrs(cfg: Config, files: seq<Progress>, taken: seq<nat>): seq<Str> {
    if taken == [] then []
    else
      var f := taken[|taken| - 1];
      SentStrs(cfg, files, taken[..|taken| - 1]) + if f < |files| then Strs(cfg, f, files[f].sent) else []
  }

  lemma {:induction false} SentElsewhere(cfg: Config, files: seq<Progress>, taken: seq<nat>, f: nat, p: Progress)
    requires f < |files| && (f !in taken || p.sent == files[f].sent)
    ensures SentStrs(cfg, files[f := p], taken) == SentStrs(cfg, files, taken)
  {
    if taken != [] {
      SentElsewhere(cfg, files, taken[..|taken| - 1], f, p);
    }
  }

  /** The host queue has had the files' strings in the order in which the files were taken, and only
      the file taken last can be unfinished. */
  ghost predicate FileByFile(cfg: Config, s: State) {
    && |s.requesters| == 1
    && s.names.taken <= |s.names.accepted|
    && s.hosts.accepted == SentStrs(cfg, s.files, s.names.accepted[..s.names.taken])
    && OthersClosed(s.files, s.names.accepted, s.names.taken - 1)
  }

  lemma OnlyLastOpen(files: seq<Progress>, accepted: seq<nat>, taken: nat, f: nat)
    requires f < |files| && files[f].owner.By? && f in accepted
    requires forall j :: 0 <= j < |accepted| ==> accepted[j] < |files|
    requires forall j :: taken <= j < |accepted| ==> files[accepted[j]].owner.Nobody?
    requires OthersClosed(files, accepted, taken - 1) && taken <= |accepted|
    ensures taken > 0 && f == accepted[taken - 1] && f !in accepted[..taken - 1]
  {
    var j :| 0 <= j < |accepted| && accepted[j] == f;
  }

  /** The one requester works on the file taken last. */
  lemma WorksOnLast(cfg: Config, s: State, f: nat)
    requires FileByFile(cfg, s) && NamesOk(cfg, s) && f < |s.files| && s.files[f].owner.By?
    ensures s.names.taken > 0 && f == s.names.accepted[s.names.taken - 1]
    ensures f !in s.names.accepted[..s.names.taken - 1]
  {
    OnlyLastOpen(s.files, s.names.accepted, s.names.taken, f);
  }

  lemma SentLast(cfg: Config, files: seq<Progress>, taken: seq<nat>, f: nat, p: Progress, put: seq<Str>)
    requires taken != [] && f == taken[|taken| - 1] && f < |files| && f !in taken[..|taken| - 1]
    requires Strs(cfg, f, p.sent) == Strs(cfg, f, files[f].sent) + put
    ensures SentStrs(cfg, files[f := p], taken) == SentStrs(cfg, files, taken) + put
  {
    SentElsewhere(cfg, files, taken[..|taken| - 1], f, p);
  }

  lemma SentNext(cfg: Config, files: seq<Progress>, taken: seq<nat>, f: nat, p: Progress, taken': seq<nat>)
    requires f < |files| && p.sent == files[f].sent == 0 && taken' == taken + [f]
    ensures SentStrs(cfg, files[f := p], taken') == SentStrs(cfg, files, taken)
  {
    SentElsewhere(cfg, files, taken, f, p);
    assert taken'[..|taken|] == taken;
  }

  ghost predicate OthersClosed(files: seq<Progress>, accepted: seq<nat>, taken: int) {
    forall j :: 0 <= j < taken && j < |accepted| ==> accepted[j] < |files| && files[accepted[j]].owner.Closed?
  }

  /** The requester moves on in its file: `f`'s record becomes `p`, and `put` is what goes to the host queue. */
  lemma AdvanceLast(cfg: Config, s: State, f: nat, p: Progress, put: seq<Str>, s': State)
    requires FileByFile(cfg, s) && FileInv(cfg, s) && f < |s.files| && s.files[f].owner.By?
    requires s'.files == s.files[f := p] && |s'.requesters| == 1
    requires s'.names == s.names && s'.hosts.accepted == s.hosts.accepted + put
    requires Strs(cfg, f, p.sent) == Strs(cfg, f, s.files[f].sent) + put
    ensures FileByFile(cfg, s')
  {
    WorksOnLast(cfg, s, f);
    var taken := s.names.accepted[..s.names.taken];
    assert taken[..|taken| - 1] == s.names.accepted[..s.names.taken - 1];
    SentLast(cfg, s.files, taken, f, p, put);
    OthersStayClosed(s.files, s.names.accepted, s.names.taken - 1, f, p);
  }

  lemma OthersStayClosed(files: seq<Progress>, accepted: seq<nat>, n: nat, f: nat, p: Progress)
    requires OthersClosed(files, accepted, n) && n <= |accepted| && f < |files| && f !in accepted[..n]
    ensures OthersClosed(files[f := p], accepted, n)
  {
    forall j | 0 <= j < n ensures accepted[j] != f {
      assert accepted[j] == accepted[..n][j];
    }
  }

  /** When the requester takes the next file, it has closed all those before. */
  lemma AllClosed(cfg: Config, s: State)
    requires NamesOk(cfg, s) && OwnersOk(cfg, s)
    requires |s.requesters| == 1 && s.requesters[0].Taking? && s.names.taken <= |s.names.accepted|
    ensures OthersClosed(s.files, s.names.accepted, s.names.taken)
  {
    forall j | 0 <= j < s.names.taken ensures s.files[s.names.accepted[j]].owner.Closed? {
      assert !s.files[s.names.accepted[j]].owner.Nobody?;
    }
  }

  lemma NextIsNew(cfg: Config, s: State)
    requires FileInv(cfg, s) && s.names.taken < |s.names.accepted|
    ensures var f := s.names.accepted[s.names.taken];
      f < |s.files| && s.files[f].sent == 0 && f !in s.names.accepted[..s.names.taken]
  {
    var f := s.names.accepted[s.names.taken];
    assert s.files[f].owner.Nobody?;
    forall j | 0 <= j < s.names.taken ensures s.names.accepted[j] != f {
    }
  }

  lemma TakeNext(cfg: Config, s: State)
    requires FileByFile(cfg, s) && FileInv(cfg, s) && s.requesters[0].Taking? && s.names.taken < |s.names.accepted|
    ensures FileByFile(cfg, TakeStep(cfg, s, 0))
  {
    NextIsNew(cfg, s);
    AllClosed(cfg, s);
    TakenNext(cfg, s, TakeStep(cfg, s, 0), s.names.accepted[s.names.taken], s.names.taken, Progress(By(0), 0, 0));
  }

  lemma TakenNext(cfg: Config, s: State, s': State, f: nat, n: nat, p: Progress)
    requires FileByFile(cfg, s) && n < |s.names.accepted| && n == s.names.taken && f == s.names.accepted[n]
    requires OthersClosed(s.files, s.names.accepted, n)
    requires f < |s.files| && s.files[f].sent == p.sent == 0 && f !in s.names.accepted[..n]
    requires s'.files == s.files[f := p] && s'.names == s.names.Get() && s'.hosts == s.hosts && |s'.requesters| == 1
    ensures FileByFile(cfg, s')
  {
    assert s.names.accepted[..n + 1] == s.names.accepted[..n] + [f];
    SentNext(cfg, s.files, s.names.accepted[..n], f, p, s.names.accepted[..n + 1]);
    OthersStayClosed(s.files, s.names.accepted, n, f, p);
  }

  lemma QuietOrder(cfg: Config, s: State, s': State)
    requires FileByFile(cfg, s)
    requires s'.files == s.files && SameItems(s.names, s'.names) && s'.hosts.accepted == s.hosts.accepted
    requires |s'.requesters| == 1
    ensures FileByFile(cfg, s')
  {
  }

  lemma EndOrder(cfg: Config, s: State, f: nat, k: nat, s': State)
    requires FileByFile(cfg, s) && FileInv(cfg, s) && s.requesters[0] == Reading(f, k) && k >= |cfg.Names(f)|
    requires s' == ReadStep(cfg, s, 0, f, k)
    ensures FileByFile(cfg, s')
  {
    assert ReaderAt(cfg, s.files, 0, s.requesters[0]);
    AdvanceLast(cfg, s, f, Progress(Closed, k, k), [], s');
  }

  lemma BlankOrder(cfg: Config, s: State, f: nat, k: nat, s': State)
    requires FileByFile(cfg, s) && FileInv(cfg, s) && s.requesters[0] == Reading(f, k)
    requires k < |cfg.Names(f)| && cfg.Names(f)[k] == "" && s' == ReadStep(cfg, s, 0, f, k)
    ensures FileByFile(cfg, s')
  {
    assert ReaderAt(cfg, s.files, 0, s.requesters[0]);
    BlankStrs(cfg, f, k);
    AdvanceLast(cfg, s, f, Progress(By(0), k + 1, k + 1), [], s');
  }

  lemma ReadOrder(cfg: Config, s: State, f: nat, k: nat, s': State)
    requires FileByFile(cfg, s) && FileInv(cfg, s) && s.requesters[0] == Reading(f, k)
    requires s' == ReadStep(cfg, s, 0, f, k)
    ensures FileByFile(cfg, s')
  {
    if k >= |cfg.Names(f)| {
      EndOrder(cfg, s, f, k, s');
    } else if cfg.Names(f)[k] == "" {
      BlankOrder(cfg, s, f, k, s');
    } else {
      QuietOrder(cfg, s, s');
    }
  }

  lemma BlankStrs(cfg: Config, f: nat, k: nat)
    requires k < |cfg.Names(f)| && cfg.Names(f)[k] == ""
    ensures Strs(cfg, f, k + 1) == Strs(cfg, f, k)
  {
    assert Strs(cfg, f, k + 1) == Strs(cfg, f, k) + StrAt(cfg, f, k);
  }

  lemma OneMoreStr(cfg: Config, f: nat, k: nat, copy: Str)
    requires k < |cfg.Names(f)| && cfg.Names(f)[k] != "" && copy == Str(f, k, cfg.Names(f)[k])
    ensures Strs(cfg, f, k + 1) == Strs(cfg, f, k) + [copy]
  {
    assert Strs(cfg, f, k + 1) == Strs(cfg, f, k) + StrAt(cfg, f, k);
  }

  lemma HostParts(cfg: Config, s: State, f: nat, k: nat, copy: Str, s': State)
    requires |s.requesters| == 1 && !s.hosts.closed && s' == HostStep(cfg, s, 0, f, k, copy)
    requires ReaderAt(cfg, s.files, 0, HostPut(f, k, copy))
    ensures f < |s.files| && s.files[f].owner.By? && s.files[f].sent == k
    ensures s'.files == s.files[f := Progress(By(0), k + 1, k + 1)] && |s'.requesters| == 1
    ensures s'.names == s.names && s'.hosts.accepted == s.hosts.accepted + [copy]
    ensures Strs(cfg, f, k + 1) == Strs(cfg, f, k) + [copy]
  {
    OneMoreStr(cfg, f, k, copy);
  }

  lemma HostOrder(cfg: Config, s: State, f: nat, k: nat, copy: Str, s': State)
    requires FileByFile(cfg, s) && FileInv(cfg, s) && s.requesters[0] == HostPut(f, k, copy) && !s.hosts.closed
    requires s' == HostStep(cfg, s, 0, f, k, copy)
    ensures FileByFile(cfg, s')
  {
    assert ReaderAt(cfg, s.files, 0, s.requesters[0]);
    HostParts(cfg, s, f, k, copy, s');
    AdvanceLast(cfg, s, f, Progress(By(0), k + 1, k + 1), [copy], s');
  }

  lemma OpenOrder(cfg: Config, s: State, f: nat)
    requires FileByFile(cfg, s) && FileInv(cfg, s) && s.requesters[0] == Opening(f)
    ensures FileByFile(cfg, OpenStep(cfg, s, 0, f))
  {
    assert ReaderAt(cfg, s.files, 0, s.requesters[0]);
    QuietOrder(cfg, s, OpenStep(cfg, s, 0, f));
  }

  lemma LogOrder(cfg: Config, s: State, f: nat, k: nat, copy: Str, s': State)
    requires FileByFile(cfg, s) && FileInv(cfg, s) && s.requesters[0] == LogPut(f, k, copy)
    requires s' == LogStep(cfg, s, 0, f, k, copy)
    ensures FileByFile(cfg, s')
  {
    assert ReaderAt(cfg, s.files, 0, s.requesters[0]);
    AdvanceLast(cfg, s, f, Progress(By(0), k + 1, k), [], s');
  }

  lemma WorkOrder(cfg: Config, s: State, s': State)
    requires FileByFile(cfg, s) && FileInv(cfg, s) && Works(s, 0) && !s.hosts.closed && s' == ReqApply(cfg, s, 0)
    ensures FileByFile(cfg, s')
  {
    match s.requesters[0] {
      case Taking => TakeNext(cfg, s);
      case Opening(f) => OpenOrder(cfg, s, f);
      case Reading(f, k) => ReadOrder(cfg, s, f, k, s');
      case LogPut(f, k, copy) => LogOrder(cfg, s, f, k, copy, s');
      case HostPut(f, k, copy) => HostOrder(cfg, s, f, k, copy, s');
    }
  }

  lemma FeedOrder(cfg: Config, s: State)
    requires FileByFile(cfg, s) && (s.main.Feed? || s.main.FeedPut?)
    ensures FileByFile(cfg, FeedStep(cfg, s))
  {
    var s' := FeedStep(cfg, s);
    assert s'.names.accepted[..s'.names.taken] == s.names.accepted[..s.names.taken];
  }

  lemma MainOrder(cfg: Config, s: State)
    requires CloseInv(cfg, s) && FeedOk(cfg, s.main) && FileByFile(cfg, s)
    ensures FileByFile(cfg, MainApply(cfg, s))
  {
    if s.main.Feed? || s.main.FeedPut? {
      FeedOrder(cfg, s);
    } else {
      QuietMainStep(cfg, s);
      QuietOrder(cfg, s, MainApply(cfg, s));
    }
  }

  lemma ReqOrder(cfg: Config, s: State, i: nat)
    requires CloseInv(cfg, s) && FileInv(cfg, s) && FileByFile(cfg, s) && i < |s.requesters|
    ensures FileByFile(cfg, ReqApply(cfg, s, i))
  {
    if Works(s, i) {
      OpenForReaders(cfg, s, i);
      WorkOrder(cfg, s, ReqApply(cfg, s, i));
    } else {
      QuietReq(cfg, s, i);
      QuietOrder(cfg, s, ReqApply(cfg, s, i));
    }
  }

  lemma ResOrder(cfg: Config, s: State, i: nat)
    requires FileByFile(cfg, s) && i < |s.resolvers|
    ensures FileByFile(cfg, ResApply(cfg, s, i))
  {
    QuietOrder(cfg, s, ResApply(cfg, s, i));
  }

  lemma RequesterOrder(cfg: Config, s: State, l: Label, s': State)
    requires CloseInv(cfg, s) && FileInv(cfg, s) && FileByFile(cfg, s) && Next(cfg, s, l, s')
    ensures FileByFile(cfg, s')
  {
    match l {
      case MainStep(_) => MainOrder(cfg, s);
      case ReqStep(i, _) => ReqOrder(cfg, s, i);
      case ResStep(i) => ResOrder(cfg, s, i);
      case _ => QuietOrder(cfg, s, s');
    }
  }

  // ---------------------------------------------------------------------------------------------
  // One resolver

  function Owed(cfg: Config, r: Resolver): seq<Str> {
    match r
    case Resolving(host) => [Message(cfg, host)]
    case Posting(_, message) => [message]
    case _ => []
  }

  /** Messages are posted in the order in which the host names were taken. */
  ghost predicate InTurn(cfg: Config, s: State) {
    && |s.resolvers| == 1
    && s.hosts.taken <= |s.hosts.accepted|
    && s.messages.accepted + Owed(cfg, s.resolvers[0]) == Messages(cfg, s.hosts.accepted[..s.hosts.taken])
  }

  lemma QuietTurn(cfg: Config, s: State, s': State)
    requires InTurn(cfg, s) && s'.resolvers == s.resolvers
    requires s'.hosts.taken == s.hosts.taken && s.hosts.accepted <= s'.hosts.accepted
    requires s'.messages.accepted == s.messages.accepted
    ensures InTurn(cfg, s')
  {
    assert s'.hosts.accepted[..s.hosts.taken] == s.hosts.accepted[..s.hosts.taken];
  }

  lemma ResolverTurn(cfg: Config, s: State)
    requires InTurn(cfg, s) && !s.messages.closed && !s.resolvers[0].Unborn? && !s.resolvers[0].Left?
    ensures InTurn(cfg, ResApply(cfg, s, 0))
  {
    if s.resolvers[0].Fetching? && !s.hosts.IsEmpty() {
      MessagesAppend(cfg, s.hosts.accepted, s.hosts.taken);
    }
  }

  lemma SpawnTurn(cfg: Config, s: State)
    requires SpawnOk(s) && InTurn(cfg, s) && s.main.SpawnResolver?
    ensures InTurn(cfg, MainApply(cfg, s))
  {
    assert s.main.i < |s.resolvers| ==> s.resolvers[s.main.i].Unborn?;
  }

  /** Main otherwise leaves the resolvers, the host queue and what the message queue has accepted alone. */
  lemma MainAlone(cfg: Config, s: State)
    requires !s.main.SpawnResolver?
    ensures MainApply(cfg, s).resolvers == s.resolvers && MainApply(cfg, s).hosts == s.hosts
    ensures MainApply(cfg, s).messages.accepted == s.messages.accepted
  {
  }

  lemma MainTurn(cfg: Config, s: State)
    requires SpawnOk(s) && InTurn(cfg, s)
    ensures InTurn(cfg, MainApply(cfg, s))
  {
    if s.main.SpawnResolver? {
      SpawnTurn(cfg, s);
    } else {
      MainAlone(cfg, s);
      QuietTurn(cfg, s, MainApply(cfg, s));
    }
  }

  lemma PutterAlone(cfg: Config, s: State, i: nat)
    requires i < |s.requesters| && (s.requesters[i].LogPut? || s.requesters[i].HostPut?)
    ensures ReqApply(cfg, s, i).resolvers == s.resolvers && ReqApply(cfg, s, i).messages == s.messages
    ensures ReqApply(cfg, s, i).hosts.taken == s.hosts.taken
    ensures s.hosts.accepted <= ReqApply(cfg, s, i).hosts.accepted
  {
  }

  lemma RequesterAlone(cfg: Config, s: State, i: nat)
    requires i < |s.requesters|
    ensures ReqApply(cfg, s, i).resolvers == s.resolvers && ReqApply(cfg, s, i).messages == s.messages
    ensures ReqApply(cfg, s, i).hosts.taken == s.hosts.taken
    ensures s.hosts.accepted <= ReqApply(cfg, s, i).hosts.accepted
  {
    if s.requesters[i].LogPut? || s.requesters[i].HostPut? {
      PutterAlone(cfg, s, i);
    }
  }

  lemma RequesterTurn(cfg: Config, s: State, i: nat)
    requires InTurn(cfg, s) && i < |s.requesters|
    ensures InTurn(cfg, ReqApply(cfg, s, i))
  {
    RequesterAlone(cfg, s, i);
    QuietTurn(cfg, s, ReqApply(cfg, s, i));
  }

  lemma ResTurn(cfg: Config, s: State, i: nat)
    requires CloseInv(cfg, s) && InTurn(cfg, s) && ResReady(cfg, s, i)
    ensures InTurn(cfg, ResApply(cfg, s, i))
  {
    OpenForResolvers(cfg, s, i);
    ResolverTurn(cfg, s);
  }

  lemma WriterTurn(cfg: Config, s: State)
    requires InTurn(cfg, s)
    ensures InTurn(cfg, ReqLogApply(s)) && InTurn(cfg, ResLogApply(s))
  {
    QuietTurn(cfg, s, ReqLogApply(s));
    QuietTurn(cfg, s, ResLogApply(s));
  }

  lemma TurnKept(cfg: Config, s: State, l: Label, s': State)
    requires CloseInv(cfg, s) && InTurn(cfg, s) && Next(cfg, s, l, s')
    ensures InTurn(cfg, s')
  {
    match l {
      case MainStep(_) => MainTurn(cfg, s);
      case ReqStep(i, _) => RequesterTurn(cfg, s, i);
      case ResStep(i) => ResTurn(cfg, s, i);
      case _ => WriterTurn(cfg, s);
    }
  }

  // ---------------------------------------------------------------------------------------------
  // Together

  /** The strings of the given files, file by file. */
  function WholeFiles(cfg: Config, files: seq<nat>): seq<Str> {
    if files == [] then [] else WholeFiles(cfg, files[..|files| - 1]) + FileStrs(cfg, files[|files| - 1])
  }

  lemma WholeAppend(cfg: Config, a: seq<nat>, f: nat)
    ensures WholeFiles(cfg, a + [f]) == WholeFiles(cfg, a) + FileStrs(cfg, f)
  {
    assert (a + [f])[..|a|] == a;
  }

  lemma NothingToRead(cfg: Config, f: nat)
    requires !cfg.Opens(f)
    ensures FileStrs(cfg, f) == []
  {
  }

  lemma OpenableStep(cfg: Config, i: nat, before: seq<nat>, after: seq<nat>)
    requires before == Openables(cfg, i) && after == Openables(cfg, i + 1)
    ensures WholeFiles(cfg, after) == WholeFiles(cfg, before) + FileStrs(cfg, i)
  {
    if cfg.Opens(i) {
      WholeAppend(cfg, before, i);
    } else {
      NothingToRead(cfg, i);
      assert after == before;
    }
  }

  lemma AllStrsNext(cfg: Config, i: nat, own: seq<Str>)
    requires own == FileStrs(cfg, i)
    ensures AllStrs(cfg, i + 1) == AllStrs(cfg, i) + own
  {
  }

  lemma {:induction false} OpenableStrs(cfg: Config, i: nat, openables: seq<nat>, all: seq<Str>)
    requires openables == Openables(cfg, i) && all == AllStrs(cfg, i)
    ensures WholeFiles(cfg, openables) == all
  {
    if i == 0 {
    } else {
      OpenableStrs(cfg, i - 1, Openables(cfg, i - 1), AllStrs(cfg, i - 1));
      OpenableStep(cfg, i - 1, Openables(cfg, i - 1), openables);
      AllStrsNext(cfg, i - 1, FileStrs(cfg, i - 1));
    }
  }

  lemma {:induction false} WholePrefix(cfg: Config, a: seq<nat>, b: seq<nat>)
    requires a <= b
    ensures WholeFiles(cfg, a) <= WholeFiles(cfg, b)
  {
    if |a| < |b| {
      WholePrefix(cfg, a, b[..|b| - 1]);
      PrefixExtends(WholeFiles(cfg, a), WholeFiles(cfg, b[..|b| - 1]), FileStrs(cfg, b[|b| - 1]));
    } else {
      assert a == b;
    }
  }

  lemma PrefixExtends<T>(a: seq<T>, b: seq<T>, c: seq<T>)
    requires a <= b
    ensures a <= b + c
  {
  }

  lemma {:induction false} AllStrsPrefix(cfg: Config, i: nat, j: nat)
    requires i <= j
    ensures AllStrs(cfg, i) <= AllStrs(cfg, j)
  {
    if i < j {
      AllStrsPrefix(cfg, i, j - 1);
      PrefixExtends(AllStrs(cfg, i), AllStrs(cfg, j - 1), FileStrs(cfg, j - 1));
    }
  }

  lemma {:induction false} ClosedSent(cfg: Config, files: seq<Progress>, taken: seq<nat>)
    requires forall j :: 0 <= j < |taken| ==> taken[j] < |files| && files[taken[j]].sent == |cfg.Names(taken[j])|
    ensures SentStrs(cfg, files, taken) == WholeFiles(cfg, taken)
  {
    if taken != [] {
      ClosedSent(cfg, files, taken[..|taken| - 1]);
    }
  }

  lemma PrefixUnder<T>(a: seq<T>, b: seq<T>, c: seq<T>)
    requires b <= c
    ensures a + b <= a + c
  {
  }

  lemma SentIsPrefix(cfg: Config, files: seq<Progress>, taken: seq<nat>)
    requires forall j :: 0 <= j < |taken| ==> taken[j] < |files| && files[taken[j]].sent <= |cfg.Names(taken[j])|
    requires forall j :: 0 <= j < |taken| - 1 ==> files[taken[j]].sent == |cfg.Names(taken[j])|
    ensures SentStrs(cfg, files, taken) <= WholeFiles(cfg, taken)
  {
    if taken != [] {
      var n := |taken| - 1;
      var f := taken[n];
      ClosedSent(cfg, files, taken[..n]);
      StrsPrefix(cfg, f, files[f].sent, |cfg.Names(f)|);
      PrefixUnder(SentStrs(cfg, files, taken[..n]), Strs(cfg, f, files[f].sent), FileStrs(cfg, f));
      assert SentStrs(cfg, files, taken) == SentStrs(cfg, files, taken[..n]) + Strs(cfg, f, files[f].sent);
      assert WholeFiles(cfg, taken) == WholeFiles(cfg, taken[..n]) + FileStrs(cfg, f);
    }
  }

  lemma SentAtMost(cfg: Config, s: State)
    requires FileInv(cfg, s) && |s.files| == |cfg.files|
    ensures forall f :: 0 <= f < |s.files| ==> s.files[f].sent <= |cfg.Names(f)|
  {
    forall f | 0 <= f < |s.files| ensures s.files[f].sent <= |cfg.Names(f)| {
      if s.files[f].owner.By? {
        assert ReaderAt(cfg, s.files, s.files[f].owner.r, s.requesters[s.files[f].owner.r]);
      }
    }
  }

  /** With one requester, what the host queue has accepted is a beginning of all strings in order. */
  lemma HostsInOrder(cfg: Config, s: State)
    requires CloseInv(cfg, s) && FileInv(cfg, s) && FileByFile(cfg, s)
    ensures s.hosts.accepted <= AllStrs(cfg, |cfg.files|)
  {
    var taken := s.names.accepted[..s.names.taken];
    TakenSent(cfg, s, taken);
    WholePrefix(cfg, taken, s.names.accepted);
    FedInOrder(cfg, s.main, s.names.accepted);
  }

  lemma TakenSent(cfg: Config, s: State, taken: seq<nat>)
    requires |s.files| == |cfg.files| && FileInv(cfg, s) && FileByFile(cfg, s)
    requires taken == s.names.accepted[..s.names.taken]
    ensures s.hosts.accepted <= WholeFiles(cfg, taken)
  {
    SentAtMost(cfg, s);
    forall j | 0 <= j < |taken| - 1 ensures s.files[taken[j]].sent == |cfg.Names(taken[j])| {
      assert taken[j] == s.names.accepted[j];
    }
    SentIsPrefix(cfg, s.files, taken);
  }

  lemma FedInOrder(cfg: Config, m: Main, accepted: seq<nat>)
    requires FeedOk(cfg, m) && accepted == Openables(cfg, Fed(cfg, m))
    ensures WholeFiles(cfg, accepted) <= AllStrs(cfg, |cfg.files|)
  {
    var i := Fed(cfg, m);
    OpenableStrs(cfg, i, accepted, AllStrs(cfg, i));
    AllStrsPrefix(cfg, i, |cfg.files|);
  }

  lemma OrderInv(cfg: Config, s: State)
    requires cfg.Valid() && cfg.requesters == 1 && Reachable(cfg, s)
    ensures FileByFile(cfg, s)
  {
    var states: seq<State>, labels: seq<Label> :| IsRun(cfg, states, labels) && states[|labels|] == s;
    var inv := (s: State) => Inv(cfg, s) && FileByFile(cfg, s);
    InitInv(cfg, states[0]);
    forall s, l, s' | inv(s) && Next(cfg, s, l, s') ensures inv(s') {
      StepInv(cfg, s, l, s');
      RequesterOrder(cfg, s, l, s');
    }
    RunInduction(cfg, states, labels, inv, |labels|);
    assert inv(s);
  }

  lemma TurnInv(cfg: Config, s: State)
    requires cfg.Valid() && cfg.resolvers == 1 && Reachable(cfg, s)
    ensures InTurn(cfg, s)
  {
    var states: seq<State>, labels: seq<Label> :| IsRun(cfg, states, labels) && states[|labels|] == s;
    var inv := (s: State) => Inv(cfg, s) && InTurn(cfg, s);
    InitInv(cfg, states[0]);
    forall s, l, s' | inv(s) && Next(cfg, s, l, s') ensures inv(s') {
      StepInv(cfg, s, l, s');
      TurnKept(cfg, s, l, s');
    }
    RunInduction(cfg, states, labels, inv, |labels|);
    assert inv(s);
  }

  lemma MapPrefix<T, U>(g: T -> U, a: seq<T>, b: seq<T>)
    requires a <= b
    ensures Map(g, a) <= Map(g, b)
  {
  }

  /** With one resolver, the resolver log is a beginning of the messages for what the host queue has
      accepted, in that order. */
  lemma LogInTurn(cfg: Config, s: State)
    requires FlowInv(cfg, s) && InTurn(cfg, s)
    ensures s.resOut <= Map(MessageOf(cfg), s.hosts.accepted)
  {
    var taken := s.hosts.accepted[..s.hosts.taken];
    assert Messages(cfg, taken) == Map(MessageOf(cfg), taken);
    assert s.resOut <= s.resOut + InHand(s.resLogger) == s.messages.accepted[..s.messages.taken] <= s.messages.accepted;
    MapPrefix(MessageOf(cfg), taken, s.hosts.accepted);
  }

  lemma TextsInOrder(cfg: Config, hosts: seq<Str>, all: seq<Str>, resOut: seq<Str>)
    requires hosts <= all && resOut <= Map(MessageOf(cfg), hosts)
    ensures Texts(resOut) <= Entries(cfg.lookup, Texts(all))
  {
    MapPrefix(MessageOf(cfg), hosts, all);
    MapPrefix(TextOf, resOut, Map(MessageOf(cfg), all));
    EntriesOfTexts(cfg, all);
  }

  lemma AllTexts(cfg: Config)
    ensures Texts(AllStrs(cfg, |cfg.files|)) == NonBlank(AllNames(cfg.files))
  {
    AllStrsTexts(cfg, |cfg.files|);
    assert cfg.files[..|cfg.files|] == cfg.files;
  }

  lemma LogIsPrefix(cfg: Config, s: State)
    requires cfg.Valid() && cfg.requesters == 1 && cfg.resolvers == 1 && Reachable(cfg, s)
    ensures s.hosts.accepted <= AllStrs(cfg, |cfg.files|) && s.resOut <= Map(MessageOf(cfg), s.hosts.accepted)
  {
    ReachableInv(cfg, s);
    OrderInv(cfg, s);
    TurnInv(cfg, s);
    HostsInOrder(cfg, s);
    LogInTurn(cfg, s);
  }

  /** With one requester and one resolver the resolver log is at every moment a prefix of what the
      sequential program logs for the same files with their empty lines left out, and in the end it is
      all of it. */
  lemma SameOrderAsSequential(cfg: Config, s: State)
    requires cfg.Valid() && cfg.requesters == 1 && cfg.resolvers == 1 && Reachable(cfg, s)
    ensures Texts(s.resOut) <= Entries(cfg.lookup, NonBlank(AllNames(cfg.files)))
    ensures s.main.Finished? ==> Texts(s.resOut) == Entries(cfg.lookup, NonBlank(AllNames(cfg.files)))
  {
    LogIsPrefix(cfg, s);
    TextsInOrder(cfg, s.hosts.accepted, AllStrs(cfg, |cfg.files|), s.resOut);
    AllTexts(cfg);
    if s.main.Finished? {
      FinishedCounts(cfg, s);
    }
  }
}
