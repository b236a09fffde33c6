/** What the two log files hold when the threaded program has finished, and how that compares with
    the sequential program. */
module PipelineResult {
  import opened Sums
  import opened Fifo
  import opened Sequential
  import opened Permutations
  import opened Wrappers
  import opened Pipeline
  import opened PipelineClose
  import opened PipelineFrame
  import opened PipelineFiles
  import opened PipelineFlow

  // ---------------------------------------------------------------------------------------------
  // Every reachable state

  ghost predicate Inv(cfg: Config, s: State) {
    CloseInv(cfg, s) && FileInv(cfg, s) && FlowInv(cfg, s)
  }

  lemma StepInv(cfg: Config, s: State, l: Label, s': State)
    requires Inv(cfg, s) && Next(cfg, s, l, s')
    ensures Inv(cfg, s')
  {
    CloseKept(cfg, s, l, s');
    FilesKept(cfg, s, l, s');
    match l {
      case MainStep(early) => MainFlow(cfg, s);
      case ReqStep(i, early) =>
        assert ReaderAt(cfg, s.files, i, s.requesters[i]);
        ReqFlow(cfg, s, i);
      case ResStep(i) => ResFlow(cfg, s, i);
      case ReqLogStep => ReqLogFlow(cfg, s);
      case ResLogStep => ResLogFlow(cfg, s);
      case Recheck =>
    }
  }

  lemma InitInv(cfg: Config, s: State)
    requires cfg.Valid() && Init(cfg, s)
    ensures Inv(cfg, s)
  {
    InitClose(cfg, s);
    InitFiles(cfg, s);
    InitFlow(cfg, s);
  }

  lemma RunInv(cfg: Config, states: seq<State>, labels: seq<Label>, i: nat)
    requires cfg.Valid() && IsRun(cfg, states, labels) && i < |states|
    ensures Inv(cfg, states[i])
  {
    InitInv(cfg, states[0]);
    var inv := (s: State) => Inv(cfg, s);
    forall s, l, s' | inv(s) && Next(cfg, s, l, s') ensures inv(s') {
      StepInv(cfg, s, l, s');
    }
    RunInduction(cfg, states, labels, inv, i);
  }

  lemma ReachableInv(cfg: Config, s: State)
    requires cfg.Valid() && Reachable(cfg, s)
    ensures Inv(cfg, s)
  {
    var states: seq<State>, labels: seq<Label> :| IsRun(cfg, states, labels) && states[|labels|] == s;
    RunInv(cfg, states, labels, |labels|);
  }

  // ---------------------------------------------------------------------------------------------
  // Sequences of strings by file

  lemma {:induction false} OfFileConcat(a: seq<Str>, b: seq<Str>, f: nat)
    ensures OfFile(a + b, f) == OfFile(a, f) + OfFile(b, f)
  {
    if b == [] {
      assert a + b == a;
    } else {
      var n := |b| - 1;
      assert (a + b)[..|a + b| - 1] == a + b[..n];
      OfFileConcat(a, b[..n], f);
    }
  }

  lemma {:induction false} OfFileCounts(q: seq<Str>, x: Str)
    ensures multiset(q)[x] == multiset(OfFile(q, x.file))[x]
  {
    if q != [] {
      var n := |q| - 1;
      OfFileCounts(q[..n], x);
      assert q == q[..n] + [q[n]];
    }
  }

  lemma {:induction false} OfFileNone(q: seq<Str>, f: nat)
    requires forall j :: 0 <= j < |q| ==> q[j].file != f
    ensures OfFile(q, f) == []
  {
    if q != [] {
      OfFileNone(q[..|q| - 1], f);
    }
  }

  /** Two sequences that agree file by file hold the same strings. */
  lemma SameByFile(a: seq<Str>, b: seq<Str>)
    requires forall f: nat :: OfFile(a, f) == OfFile(b, f)
    ensures multiset(a) == multiset(b)
  {
    forall x: Str ensures multiset(a)[x] == multiset(b)[x] {
      OfFileCounts(a, x);
      OfFileCounts(b, x);
    }
  }

  lemma StrAtOfFile(cfg: Config, f: nat, k: nat, g: nat)
    ensures OfFile(StrAt(cfg, f, k), g) == if g == f then StrAt(cfg, f, k) else []
  {
    if StrAt(cfg, f, k) != [] {
      OfFileAppend([], StrAt(cfg, f, k)[0], g);
      assert [] + [StrAt(cfg, f, k)[0]] == StrAt(cfg, f, k);
    }
  }

  lemma {:induction false} StrsOfFile(cfg: Config, f: nat, k: nat, g: nat, q: seq<Str>)
    requires q == Strs(cfg, f, k)
    ensures OfFile(q, g) == if g == f then q else []
  {
    if k > 0 {
      var a, b := Strs(cfg, f, k - 1), StrAt(cfg, f, k - 1);
      StrsOfFile(cfg, f, k - 1, g, a);
      StrAtOfFile(cfg, f, k - 1, g);
      assert q == a + b;
      PartsOfFile(a, b, g, if g == f then a else [], if g == f then b else []);
    }
  }

  lemma PartsOfFile(a: seq<Str>, b: seq<Str>, g: nat, a': seq<Str>, b': seq<Str>)
    requires OfFile(a, g) == a' && OfFile(b, g) == b'
    ensures OfFile(a + b, g) == a' + b'
    ensures b' == [] ==> OfFile(a + b, g) == a'
  {
    OfFileConcat(a, b, g);
  }

  /** All strings of the first `n` files, file by file. */
  function AllStrs(cfg: Config, n: nat): seq<Str> {
    if n == 0 then [] else AllStrs(cfg, n - 1) + FileStrs(cfg, n - 1)
  }

  /** All strings of file `f`, in order. */
  function FileStrs(cfg: Config, f: nat): seq<Str> {
    Strs(cfg, f, |cfg.Names(f)|)
  }

  lemma {:induction false} AllStrsOfFile(cfg: Config, n: nat, f: nat, q: seq<Str>, own: seq<Str>)
    requires q == AllStrs(cfg, n) && own == FileStrs(cfg, f)
    ensures OfFile(q, f) == if f < n then own else []
  {
    if n > 0 {
      var a, b := AllStrs(cfg, n - 1), FileStrs(cfg, n - 1);
      AllStrsOfFile(cfg, n - 1, f, a, own);
      StrsOfFile(cfg, n - 1, |cfg.Names(n - 1)|, f, b);
      assert q == a + b;
      PartsOfFile(a, b, f, if f < n - 1 then own else [], if f == n - 1 then own else []);
    }
  }

  // ---------------------------------------------------------------------------------------------
  // Texts

  function TextOf(x: Str): string {
    x.text
  }

  function Texts(q: seq<Str>): seq<string> {
    Map(TextOf, q)
  }

  function MessageOf(cfg: Config): Str -> Str {
    (x: Str) => Message(cfg, x)
  }

  /** The names that are not empty; the threaded program skips the others. */
  function NonBlank(names: seq<string>): seq<string> {
    if names == [] then []
    else NonBlank(names[..|names| - 1]) + if names[|names| - 1] != "" then [names[|names| - 1]] else []
  }

  lemma {:induction false} NonBlankConcat(a: seq<string>, b: seq<string>)
    ensures NonBlank(a + b) == NonBlank(a) + NonBlank(b)
  {
    if b == [] {
      assert a + b == a;
    } else {
      var n := |b| - 1;
      assert (a + b)[..|a + b| - 1] == a + b[..n];
      NonBlankConcat(a, b[..n]);
    }
  }

  lemma {:induction false} NonBlankLength(names: seq<string>)
    ensures |NonBlank(names)| <= |names|
    ensures |NonBlank(names)| == |names| <==> "" !in names
  {
    if names != [] {
      var n := |names| - 1;
      NonBlankLength(names[..n]);
      assert names == names[..n] + [names[n]];
    }
  }

  lemma {:induction false} StrsTexts(cfg: Config, f: nat, k: nat)
    requires k <= |cfg.Names(f)|
    ensures Texts(Strs(cfg, f, k)) == NonBlank(cfg.Names(f)[..k])
  {
    if k > 0 {
      StrsTexts(cfg, f, k - 1);
      assert cfg.Names(f)[..k][..k - 1] == cfg.Names(f)[..k - 1];
      MapConcat(TextOf, Strs(cfg, f, k - 1), StrAt(cfg, f, k - 1));
    }
  }

  lemma FileStrsTexts(cfg: Config, f: nat)
    ensures Texts(FileStrs(cfg, f)) == NonBlank(cfg.Names(f))
  {
    StrsTexts(cfg, f, |cfg.Names(f)|);
    assert cfg.Names(f)[..|cfg.Names(f)|] == cfg.Names(f);
  }

  lemma AllNamesNext(files: seq<Names>, n: nat)
    requires 0 < n <= |files|
    ensures AllNames(files[..n]) == AllNames(files[..n - 1]) + NamesIn(files[n - 1])
  {
    assert files[..n][..n - 1] == files[..n - 1];
  }

  lemma {:induction false} AllStrsTexts(cfg: Config, n: nat)
    requires n <= |cfg.files|
    ensures Texts(AllStrs(cfg, n)) == NonBlank(AllNames(cfg.files[..n]))
  {
    if n > 0 {
      AllStrsTexts(cfg, n - 1);
      FileStrsTexts(cfg, n - 1);
      AllNamesNext(cfg.files, n);
      NonBlankConcat(AllNames(cfg.files[..n - 1]), cfg.Names(n - 1));
      MapConcat(TextOf, AllStrs(cfg, n - 1), FileStrs(cfg, n - 1));
    }
  }

  // ---------------------------------------------------------------------------------------------
  // When main has finished

  lemma AllIsDrained(cfg: Config, s: State)
    requires Inv(cfg, s) && s.main.Finished?
    ensures forall r :: 0 <= r < |s.requesters| ==> s.requesters[r].Left?
    ensures forall v :: 0 <= v < |s.resolvers| ==> s.resolvers[v].Left?
    ensures s.names.IsEmpty() && s.hosts.IsEmpty()
    ensures s.reqOut == s.log.accepted && s.resOut == s.messages.accepted
  {
    assert s.requesters[0].Left? && s.resolvers[0].Left?;
    assert s.log.accepted[..s.log.taken] == s.log.accepted;
    assert s.messages.accepted[..s.messages.taken] == s.messages.accepted;
    assert s.reqOut + [] == s.reqOut && s.resOut + [] == s.resOut;
  }

  /** Every file that opens has been fed by then, and so has been taken. */
  lemma OpenedIsTaken(cfg: Config, s: State, f: nat)
    requires NamesOk(cfg, s) && s.main.Finished? && s.names.IsEmpty() && f < |s.files| && f < |cfg.files|
    requires cfg.Opens(f)
    ensures !s.files[f].owner.Nobody?
  {
    OpenablesComplete(cfg, |cfg.files|, f);
    var j :| 0 <= j < |s.names.accepted| && s.names.accepted[j] == f;
  }

  lemma UnopenedIsEmpty(cfg: Config, s: State, f: nat)
    requires NamesOk(cfg, s) && OwnersOk(cfg, s) && s.main.Finished? && f < |s.files| && !cfg.Opens(f)
    ensures s.files[f].logged == s.files[f].sent == |cfg.Names(f)|
  {
    OpenablesBelow(cfg, |cfg.files|);
    assert s.files[f].owner.Nobody?;
  }

  lemma FilesRead(cfg: Config, s: State, f: nat)
    requires CloseInv(cfg, s) && FileInv(cfg, s) && FlowInv(cfg, s) && s.main.Finished? && f < |cfg.files|
    ensures s.files[f].logged == s.files[f].sent == |cfg.Names(f)|
  {
    AllIsDrained(cfg, s);
    if cfg.Opens(f) {
      OpenedIsTaken(cfg, s, f);
    } else {
      UnopenedIsEmpty(cfg, s, f);
    }
  }

  lemma AllOfFile(cfg: Config, q: seq<Str>)
    requires forall j :: 0 <= j < |q| ==> q[j].file < |cfg.files|
    requires forall f: nat :: f < |cfg.files| ==> OfFile(q, f) == FileStrs(cfg, f)
    ensures multiset(q) == multiset(AllStrs(cfg, |cfg.files|))
  {
    var all := AllStrs(cfg, |cfg.files|);
    forall f: nat ensures OfFile(q, f) == OfFile(all, f) {
      AllStrsOfFile(cfg, |cfg.files|, f, all, FileStrs(cfg, f));
      if f >= |cfg.files| {
        OfFileNone(q, f);
      }
    }
    SameByFile(q, all);
  }

  lemma FinishedQueues(cfg: Config, s: State)
    requires Inv(cfg, s) && s.main.Finished?
    ensures forall f: nat :: f < |cfg.files| ==> OfFile(s.log.accepted, f) == OfFile(s.hosts.accepted, f) == FileStrs(cfg, f)
    ensures multiset(s.hosts.accepted) == multiset(s.log.accepted) == multiset(AllStrs(cfg, |cfg.files|))
  {
    forall f: nat | f < |cfg.files|
      ensures OfFile(s.log.accepted, f) == OfFile(s.hosts.accepted, f) == FileStrs(cfg, f)
    {
      FilesRead(cfg, s, f);
    }
    AllOfFile(cfg, s.hosts.accepted);
    AllOfFile(cfg, s.log.accepted);
  }

  lemma EntriesOfTexts(cfg: Config, q: seq<Str>)
    ensures Texts(Map(MessageOf(cfg), q)) == Entries(cfg.lookup, Texts(q))
  {
  }

  lemma FinishedMessages(cfg: Config, s: State)
    requires Inv(cfg, s) && s.main.Finished?
    ensures multiset(s.resOut) == multiset(Map(MessageOf(cfg), s.hosts.accepted))
  {
    AllIsDrained(cfg, s);
    BagEmpty(HeldMessage(cfg), s.resolvers);
    assert s.hosts.accepted[..s.hosts.taken] == s.hosts.accepted;
    assert Messages(cfg, s.hosts.accepted) == Map(MessageOf(cfg), s.hosts.accepted);
  }

  /** The threaded program refines the sequential one: when it has finished, whatever the numbers of
      requesters and resolvers and whatever the interleaving, its resolver log holds, in some order,
      exactly the entries that dnssimple writes for the non-empty lines of the same files; and its
      requester log holds exactly those lines, each file's in their order. */
  lemma ThreadedRefinesSequential(cfg: Config, s: State)
    requires cfg.Valid() && Reachable(cfg, s) && s.main.Finished?
    ensures multiset(Texts(s.resOut)) == multiset(Entries(cfg.lookup, NonBlank(AllNames(cfg.files))))
    ensures multiset(Texts(s.reqOut)) == multiset(NonBlank(AllNames(cfg.files)))
    ensures forall f: nat :: f < |cfg.files| ==> Texts(OfFile(s.reqOut, f)) == NonBlank(NamesIn(cfg.files[f]))
  {
    ReachableInv(cfg, s);
    AllIsDrained(cfg, s);
    FinishedQueues(cfg, s);
    FinishedMessages(cfg, s);
    var all := AllStrs(cfg, |cfg.files|);
    AllStrsTexts(cfg, |cfg.files|);
    assert cfg.files[..|cfg.files|] == cfg.files;
    MapPermutes(MessageOf(cfg), s.hosts.accepted, all);
    MapPermutes(TextOf, s.resOut, Map(MessageOf(cfg), all));
    EntriesOfTexts(cfg, all);
    MapPermutes(TextOf, s.log.accepted, all);
    forall f: nat | f < |cfg.files| ensures Texts(OfFile(s.reqOut, f)) == NonBlank(NamesIn(cfg.files[f])) {
      FileStrsTexts(cfg, f);
    }
  }

  lemma {:induction false} NonBlankAll(names: seq<string>)
    requires "" !in names
    ensures NonBlank(names) == names
  {
    if names != [] {
      NonBlankAll(names[..|names| - 1]);
    }
  }

  /** So, on the same data files, the two programs write the same entries exactly when no line is
      empty: dnssimple logs an empty line, the threaded program skips it. */
  lemma SameLogIffNoBlankLine(cfg: Config, s: State, files: seq<Option<string>>)
    requires cfg.Valid() && cfg.files == ReadAll(files)
    requires Reachable(cfg, s) && s.main.Finished?
    ensures multiset(Texts(s.resOut)) == multiset(SequentialLog(cfg.lookup, files)) <==> "" !in AllNames(ReadAll(files))
  {
    ThreadedRefinesSequential(cfg, s);
    var names := AllNames(cfg.files);
    NonBlankLength(names);
    if "" !in names {
      NonBlankAll(names);
    } else {
      assert |multiset(Texts(s.resOut))| == |NonBlank(names)|;
      assert |multiset(SequentialLog(cfg.lookup, files))| == |names|;
    }
  }

  /** At the end all the counts agree. */
  lemma FinishedCounts(cfg: Config, s: State)
    requires cfg.Valid() && Reachable(cfg, s) && s.main.Finished?
    ensures Sum(Id, s.resolved) == |s.resOut| == |s.reqOut| == |NonBlank(AllNames(cfg.files))|
    ensures Sum(Id, s.serviced) == |Openables(cfg, |cfg.files|)|
  {
    ReachableInv(cfg, s);
    AllIsDrained(cfg, s);
    ThreadedRefinesSequential(cfg, s);
    assert |multiset(Texts(s.resOut))| == |s.resOut| && |multiset(Texts(s.reqOut))| == |s.reqOut|;
    SumZero(IsOpening, s.requesters);
  }

  // ---------------------------------------------------------------------------------------------
  // At any time

  /** No array_put is refused, in any run. */
  lemma NothingIsRefused(cfg: Config, s: State)
    requires cfg.Valid() && Reachable(cfg, s)
    ensures s.refused == 0
  {
    ReachableInv(cfg, s);
  }

  lemma HostsSplit(cfg: Config, hosts: Fifo<Str>)
    requires hosts.taken <= |hosts.accepted|
    ensures multiset(Messages(cfg, hosts.accepted)) ==
      multiset(Messages(cfg, hosts.accepted[..hosts.taken])) + multiset(Messages(cfg, hosts.Contents()))
  {
    var done, queued := hosts.accepted[..hosts.taken], hosts.Contents();
    assert Messages(cfg, hosts.accepted) == Messages(cfg, done) + Messages(cfg, queued);
  }

  lemma WrittenSplit(q: Fifo<Str>, out: seq<Str>, l: Logger)
    requires WrittenOk(q, out, l)
    ensures multiset(q.accepted) == multiset(out) + multiset(InHand(l)) + multiset(q.Contents())
  {
    assert q.accepted == (out + InHand(l)) + q.Contents();
  }

  /** Conservation: the messages due for all host names ever accepted are those of the names still
      queued, the ones resolvers owe or hold, the ones queued, in the writer's hand, and written. */
  lemma Conservation(cfg: Config, s: State)
    requires cfg.Valid() && Reachable(cfg, s)
    ensures s.hosts.taken <= |s.hosts.accepted| && s.messages.taken <= |s.messages.accepted|
    ensures multiset(Messages(cfg, s.hosts.accepted)) ==
      multiset(Messages(cfg, s.hosts.Contents())) + Bag(HeldMessage(cfg), s.resolvers)
      + multiset(s.messages.Contents()) + multiset(InHand(s.resLogger)) + multiset(s.resOut)
  {
    ReachableInv(cfg, s);
    HostsSplit(cfg, s.hosts);
    WrittenSplit(s.messages, s.resOut, s.resLogger);
  }

  lemma {:induction false} PrefixChain<T>(chain: nat -> seq<T>, j: nat, k: nat)
    requires j <= k
    requires forall i: nat :: j <= i < k ==> chain(i) <= chain(i + 1)
    ensures chain(j) <= chain(k)
  {
    if j < k {
      PrefixChain(chain, j, k - 1);
      assert chain(k - 1) <= chain(k - 1 + 1);
    }
  }

  lemma StrsPrefix(cfg: Config, f: nat, j: nat, k: nat)
    requires j <= k
    ensures Strs(cfg, f, j) <= Strs(cfg, f, k)
  {
    PrefixChain((i: nat) => Strs(cfg, f, i), j, k);
  }

  lemma OfFilePrefix(a: seq<Str>, b: seq<Str>, f: nat)
    requires a <= b
    ensures OfFile(a, f) <= OfFile(b, f)
  {
    assert b == a + b[|a|..];
    OfFileConcat(a, b[|a|..], f);
  }

  /** What was logged of file `f` is some first lines of it. */
  lemma LoggedPrefix(cfg: Config, s: State, f: nat, own: seq<Str>)
    requires FileInv(cfg, s) && |s.files| == |cfg.files| && f < |cfg.files| && own == FileStrs(cfg, f)
    ensures OfFile(s.log.accepted, f) <= own
  {
    if s.files[f].owner.By? {
      assert ReaderAt(cfg, s.files, s.files[f].owner.r, s.requesters[s.files[f].owner.r]);
    }
    var k := s.files[f].logged;
    StrsPrefix(cfg, f, k, |cfg.Names(f)|);
  }

  /** The requester log, restricted to one file, is at any time a prefix of that file's non-empty lines
      in order, and the host queue lags behind the log queue by at most one line for each requester. */
  lemma RequesterLogOrder(cfg: Config, s: State, f: nat)
    requires cfg.Valid() && Reachable(cfg, s) && f < |cfg.files|
    ensures OfFile(s.reqOut, f) <= FileStrs(cfg, f)
    ensures 0 <= |s.log.accepted| - |s.hosts.accepted| <= cfg.requesters
  {
    ReachableInv(cfg, s);
    SumBounded(InHostPut, s.requesters, 1);
    assert s.reqOut <= s.reqOut + InHand(s.reqLogger) == s.log.accepted[..s.log.taken];
    OfFilePrefix(s.reqOut, s.log.accepted, f);
    LoggedPrefix(cfg, s, f, FileStrs(cfg, f));
  }
}
