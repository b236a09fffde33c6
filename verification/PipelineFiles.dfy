/** What becomes of the input files: every file that opens is fed once, taken once, read by one
    requester from its first line to its last, and each non-empty line of it is put once on the
    log queue and once on the host queue, in order. */
module PipelineFiles {
  import opened Pipeline
  import opened PipelineClose
  import opened PipelineFrame
  import opened Wrappers

  /** The strings made from the first `k` lines of file `f`: one for each line that is not empty. */
  function Strs(cfg: Config, f: nat, k: nat): seq<Str> {
    if k == 0 then [] else Strs(cfg, f, k - 1) + StrAt(cfg, f, k - 1)
  }

  function StrAt(cfg: Config, f: nat, k: nat): seq<Str> {
    if k < |cfg.Names(f)| && cfg.Names(f)[k] != "" then [Str(f, k, cfg.Names(f)[k])] else []
  }

  /** The part of a sequence of strings that stems from file `f`. */
  function OfFile(q: seq<Str>, f: nat): seq<Str> {
    if q == [] then []
    else OfFile(q[..|q| - 1], f) + if q[|q| - 1].file == f then [q[|q| - 1]] else []
  }

  lemma OfFileAppend(q: seq<Str>, x: Str, f: nat)
    ensures OfFile(q + [x], f) == OfFile(q, f) + if x.file == f then [x] else []
  {
    assert (q + [x])[..|q|] == q;
  }

  function HeldFile(pc: Requester): Option<nat> {
    match pc
    case Opening(f) => Some(f)
    case Reading(f, _) => Some(f)
    case LogPut(f, _, _) => Some(f)
    case HostPut(f, _, _) => Some(f)
    case _ => None
  }

  ghost predicate NamesOk(cfg: Config, s: State) {
    && FeedOk(cfg, s.main)
    && s.names.accepted == Openables(cfg, Fed(cfg, s.main))
    && (forall j :: 0 <= j < |s.names.accepted| ==> s.names.accepted[j] < |s.files|)
    && (forall j :: 0 <= j < |s.names.accepted| ==>
          (s.files[s.names.accepted[j]].owner.Nobody? <==> j >= s.names.taken))
    && (forall f :: 0 <= f < |s.files| && !s.files[f].owner.Nobody? ==> f in s.names.accepted)
  }

  ghost predicate OwnersOk(cfg: Config, s: State) {
    forall f :: 0 <= f < |s.files| ==>
      match s.files[f].owner
      case Nobody => s.files[f].logged == s.files[f].sent == 0
      case By(r) => r < |s.requesters| && HeldFile(s.requesters[r]) == Some(f)
      case Closed => s.files[f].logged == s.files[f].sent == |cfg.Names(f)|
  }

  /** A requester's program counter agrees with the file it reads. */
  predicate ReaderAt(cfg: Config, files: seq<Progress>, r: nat, pc: Requester) {
    match pc
    case Opening(f) => f < |files| && cfg.Opens(f) && files[f] == Progress(By(r), 0, 0)
    case Reading(f, k) => f < |files| && cfg.Opens(f) && k <= |cfg.Names(f)| && files[f] == Progress(By(r), k, k)
    case LogPut(f, k, copy) =>
      && f < |files| && cfg.Opens(f) && k < |cfg.Names(f)| && cfg.Names(f)[k] != ""
      && copy == Str(f, k, cfg.Names(f)[k]) && files[f] == Progress(By(r), k, k)
    case HostPut(f, k, copy) =>
      && f < |files| && cfg.Opens(f) && k < |cfg.Names(f)| && cfg.Names(f)[k] != ""
      && copy == Str(f, k, cfg.Names(f)[k]) && files[f] == Progress(By(r), k + 1, k)
    case _ => true
  }

  ghost predicate ReadersAt(cfg: Config, s: State) {
    forall r :: 0 <= r < |s.requesters| ==> ReaderAt(cfg, s.files, r, s.requesters[r])
  }

  ghost predicate LinesOk(cfg: Config, s: State) {
    && (forall f :: 0 <= f < |s.files| ==>
          && OfFile(s.log.accepted, f) == Strs(cfg, f, s.files[f].logged)
          && OfFile(s.hosts.accepted, f) == Strs(cfg, f, s.files[f].sent))
    && (forall j :: 0 <= j < |s.log.accepted| ==> s.log.accepted[j].file < |s.files|)
    && (forall j :: 0 <= j < |s.hosts.accepted| ==> s.hosts.accepted[j].file < |s.files|)
  }

  ghost predicate FileInv(cfg: Config, s: State) {
    NamesOk(cfg, s) && OwnersOk(cfg, s) && ReadersAt(cfg, s) && LinesOk(cfg, s)
  }

  lemma InitFiles(cfg: Config, s: State)
    requires cfg.Valid() && Init(cfg, s)
    ensures FileInv(cfg, s)
  {
  }

  // ---------------------------------------------------------------------------------------------
  // Requesters

  /** Requester `i` goes on to `pc`, and the record of file `f`, which it has or takes, becomes `p`. */
  lemma ReadersMove(cfg: Config, files: seq<Progress>, requesters: seq<Requester>, i: nat, pc: Requester, f: nat, p: Progress,
                    files': seq<Progress>, requesters': seq<Requester>)
    requires i < |requesters| && f < |files|
    requires files' == files[f := p] && requesters' == requesters[i := pc]
    requires files[f].owner.Nobody? || files[f].owner == By(i)
    requires forall r :: 0 <= r < |requesters| ==> ReaderAt(cfg, files, r, requesters[r])
    requires ReaderAt(cfg, files', i, pc)
    ensures forall r :: 0 <= r < |requesters'| ==> ReaderAt(cfg, files', r, requesters'[r])
  {
    forall r | 0 <= r < |requesters'| ensures ReaderAt(cfg, files', r, requesters'[r]) {
      if r != i {
        assert ReaderAt(cfg, files, r, requesters[r]);
      }
    }
  }

  /** Requester `i` works on the file it has. */
  lemma WorkOnFile(cfg: Config, s: State, i: nat, f: nat, pc: Requester, p: Progress, s': State)
    requires NamesOk(cfg, s) && OwnersOk(cfg, s) && ReadersAt(cfg, s)
    requires i < |s.requesters| && f < |s.files|
    requires HeldFile(s.requesters[i]) == Some(f) && s.files[f].owner == By(i)
    requires s'.requesters == s.requesters[i := pc] && s'.files == s.files[f := p]
    requires s'.names == s.names && s'.main == s.main
    requires ReaderAt(cfg, s'.files, i, pc)
    requires
      || (p.owner == By(i) && HeldFile(pc) == Some(f))
      || (p.owner == Closed && HeldFile(pc) == None && p.logged == p.sent == |cfg.Names(f)|)
    ensures NamesOk(cfg, s') && OwnersOk(cfg, s') && ReadersAt(cfg, s')
  {
    ReadersMove(cfg, s.files, s.requesters, i, pc, f, p, s'.files, s'.requesters);
  }

  lemma OpenFiles(cfg: Config, s: State, i: nat, f: nat)
    requires FileInv(cfg, s) && i < |s.requesters| && s.requesters[i] == Opening(f)
    ensures FileInv(cfg, OpenStep(cfg, s, i, f))
  {
    assert ReaderAt(cfg, s.files, i, s.requesters[i]);
    var s' := OpenStep(cfg, s, i, f);
    assert s'.files == s.files[f := s.files[f]];
    WorkOnFile(cfg, s, i, f, Reading(f, 0), s.files[f], s');
  }

  lemma BlankFiles(cfg: Config, s: State, i: nat, f: nat, k: nat)
    requires FileInv(cfg, s) && i < |s.requesters| && s.requesters[i] == Reading(f, k)
    requires k < |cfg.Names(f)| && cfg.Names(f)[k] == ""
    ensures FileInv(cfg, ReadStep(cfg, s, i, f, k))
  {
    assert ReaderAt(cfg, s.files, i, s.requesters[i]);
    assert Strs(cfg, f, k + 1) == Strs(cfg, f, k) + StrAt(cfg, f, k);
    WorkOnFile(cfg, s, i, f, Reading(f, k + 1), Progress(By(i), k + 1, k + 1), ReadStep(cfg, s, i, f, k));
  }

  lemma ReadFiles(cfg: Config, s: State, i: nat, f: nat, k: nat)
    requires FileInv(cfg, s) && i < |s.requesters| && s.requesters[i] == Reading(f, k)
    requires k < |cfg.Names(f)| ==> cfg.Names(f)[k] != ""
    ensures FileInv(cfg, ReadStep(cfg, s, i, f, k))
  {
    assert ReaderAt(cfg, s.files, i, s.requesters[i]);
    var s' := ReadStep(cfg, s, i, f, k);
    if k >= |cfg.Names(f)| {
      WorkOnFile(cfg, s, i, f, Taking, Progress(Closed, k, k), s');
    } else {
      assert s'.files == s.files[f := s.files[f]];
      WorkOnFile(cfg, s, i, f, s'.requesters[i], s.files[f], s');
    }
  }

  /** Appending line `k` of file `f` to a queue that has the first `k` lines of it. */
  lemma AppendLine(cfg: Config, q: seq<Str>, f: nat, k: nat, copy: Str, g: nat)
    requires k < |cfg.Names(f)| && cfg.Names(f)[k] != "" && copy == Str(f, k, cfg.Names(f)[k])
    ensures g != f ==> OfFile(q + [copy], g) == OfFile(q, g)
    ensures OfFile(q, f) == Strs(cfg, f, k) ==> OfFile(q + [copy], f) == Strs(cfg, f, k + 1)
  {
    OfFileAppend(q, copy, g);
    OfFileAppend(q, copy, f);
  }

  lemma LogFiles(cfg: Config, s: State, i: nat, f: nat, k: nat, copy: Str)
    requires FileInv(cfg, s) && i < |s.requesters| && s.requesters[i] == LogPut(f, k, copy) && !s.log.closed
    ensures FileInv(cfg, LogStep(cfg, s, i, f, k, copy))
  {
    assert ReaderAt(cfg, s.files, i, s.requesters[i]);
    var s' := LogStep(cfg, s, i, f, k, copy);
    WorkOnFile(cfg, s, i, f, HostPut(f, k, copy), Progress(By(i), k + 1, k), s');
    forall g: nat | g < |s'.files| ensures OfFile(s'.log.accepted, g) == Strs(cfg, g, s'.files[g].logged) {
      AppendLine(cfg, s.log.accepted, f, k, copy, g);
    }
  }

  lemma HostFiles(cfg: Config, s: State, i: nat, f: nat, k: nat, copy: Str)
    requires FileInv(cfg, s) && i < |s.requesters| && s.requesters[i] == HostPut(f, k, copy) && !s.hosts.closed
    ensures FileInv(cfg, HostStep(cfg, s, i, f, k, copy))
  {
    assert ReaderAt(cfg, s.files, i, s.requesters[i]);
    var s' := HostStep(cfg, s, i, f, k, copy);
    WorkOnFile(cfg, s, i, f, Reading(f, k + 1), Progress(By(i), k + 1, k + 1), s');
    forall g: nat | g < |s'.files| ensures OfFile(s'.hosts.accepted, g) == Strs(cfg, g, s'.files[g].sent) {
      AppendLine(cfg, s.hosts.accepted, f, k, copy, g);
    }
  }

  lemma TakeNames(cfg: Config, s: State, f: nat, p: Progress, s': State)
    requires NamesOk(cfg, s) && s.names.taken < |s.names.accepted| && f == s.names.accepted[s.names.taken]
    requires !p.owner.Nobody?
    requires s'.names == s.names.Get() && s'.files == s.files[f := p] && s'.main == s.main
    ensures NamesOk(cfg, s')
  {
    forall j: nat | j < |s.names.accepted| && j != s.names.taken ensures s.names.accepted[j] != f {
      if j < s.names.taken {
        OpenablesDistinct(cfg, Fed(cfg, s.main), j, s.names.taken);
      } else {
        OpenablesDistinct(cfg, Fed(cfg, s.main), s.names.taken, j);
      }
    }
  }

  lemma TakeFiles(cfg: Config, s: State, i: nat)
    requires FileInv(cfg, s) && i < |s.requesters| && s.requesters[i].Taking? && s.names.taken < |s.names.accepted|
    ensures FileInv(cfg, TakeStep(cfg, s, i))
  {
    var f, s', p := s.names.accepted[s.names.taken], TakeStep(cfg, s, i), Progress(By(i), 0, 0);
    OpenablesBelow(cfg, Fed(cfg, s.main));
    ReadersMove(cfg, s.files, s.requesters, i, Opening(f), f, p, s'.files, s'.requesters);
    TakeNames(cfg, s, f, p, s');
    TakeOwners(cfg, s, i, f, s');
  }

  lemma TakeOwners(cfg: Config, s: State, i: nat, f: nat, s': State)
    requires OwnersOk(cfg, s) && i < |s.requesters| && s.requesters[i].Taking?
    requires f < |s.files| && s.files[f].owner.Nobody?
    requires s'.requesters == s.requesters[i := Opening(f)] && s'.files == s.files[f := Progress(By(i), 0, 0)]
    ensures OwnersOk(cfg, s')
  {
  }

  /** Steps of the resolvers and log writers. */
  lemma FilesAlone(cfg: Config, s: State, s': State)
    requires FileInv(cfg, s)
    requires s'.main == s.main && s'.requesters == s.requesters && s'.files == s.files && s'.names == s.names
    requires s'.log.accepted == s.log.accepted && s'.hosts.accepted == s.hosts.accepted
    ensures FileInv(cfg, s')
  {
  }

  lemma QuietFiles(cfg: Config, s: State, s': State)
    requires FileInv(cfg, s) && Quiet(cfg, s, s')
    ensures FileInv(cfg, s')
  {
    forall r | 0 <= r < |s'.requesters| ensures ReaderAt(cfg, s'.files, r, s'.requesters[r]) {
      assert ReaderAt(cfg, s.files, r, s.requesters[r]);
    }
  }

  lemma FeedNames(cfg: Config, s: State, i: nat, s': State)
    requires NamesOk(cfg, s) && s.main == FeedPut(i) && i < |s.files| && s.names.taken <= |s.names.accepted|
    requires s'.names.accepted == s.names.accepted + [i] && s'.names.taken == s.names.taken
    requires s'.files == s.files && s'.main == Feed(i + 1)
    ensures |s.files| == |cfg.files| ==> NamesOk(cfg, s')
  {
    OpenablesBelow(cfg, i);
  }

  lemma FeedFiles(cfg: Config, s: State)
    requires FileInv(cfg, s) && !s.names.closed && s.names.taken <= |s.names.accepted| && |s.files| == |cfg.files|
    requires s.main.FeedPut? || (s.main.Feed? && cfg.Opens(s.main.i))
    ensures FileInv(cfg, FeedStep(cfg, s))
  {
    if s.main.FeedPut? {
      FeedNames(cfg, s, s.main.i, FeedStep(cfg, s));
    }
  }

  lemma ReqFiles(cfg: Config, s: State, i: nat, early: bool)
    requires CloseInv(cfg, s) && FileInv(cfg, s) && ReqReady(cfg, s, i, early)
    ensures FileInv(cfg, ReqApply(cfg, s, i))
  {
    if !Works(s, i) {
      QuietReq(cfg, s, i);
      QuietFiles(cfg, s, ReqApply(cfg, s, i));
    } else {
      OpenForReaders(cfg, s, i);
      WorkFiles(cfg, s, i);
    }
  }

  lemma WorkFiles(cfg: Config, s: State, i: nat)
    requires FileInv(cfg, s) && Works(s, i) && !s.log.closed && !s.hosts.closed
    ensures FileInv(cfg, ReqApply(cfg, s, i))
  {
    match s.requesters[i] {
      case Taking => TakeFiles(cfg, s, i);
      case Opening(f) => OpenFiles(cfg, s, i, f);
      case Reading(f, k) => NextLine(cfg, s, i, f, k, ReqApply(cfg, s, i));
      case LogPut(_, _, _) => PutLine(cfg, s, i, ReqApply(cfg, s, i));
      case HostPut(_, _, _) => PutLine(cfg, s, i, ReqApply(cfg, s, i));
    }
  }

  lemma NextLine(cfg: Config, s: State, i: nat, f: nat, k: nat, s': State)
    requires FileInv(cfg, s) && i < |s.requesters| && s.requesters[i] == Reading(f, k)
    requires s' == ReadStep(cfg, s, i, f, k)
    ensures FileInv(cfg, s')
  {
    if k < |cfg.Names(f)| && cfg.Names(f)[k] == "" {
      BlankFiles(cfg, s, i, f, k);
    } else {
      ReadFiles(cfg, s, i, f, k);
    }
  }

  lemma PutLine(cfg: Config, s: State, i: nat, s': State)
    requires FileInv(cfg, s) && !s.log.closed && !s.hosts.closed
    requires i < |s.requesters| && (s.requesters[i].LogPut? || s.requesters[i].HostPut?)
    requires s' == ReqApply(cfg, s, i)
    ensures FileInv(cfg, s')
  {
    match s.requesters[i] {
      case LogPut(f, k, copy) => LogFiles(cfg, s, i, f, k, copy);
      case HostPut(f, k, copy) => HostFiles(cfg, s, i, f, k, copy);
    }
  }

  lemma MainFiles(cfg: Config, s: State)
    requires CloseInv(cfg, s) && FileInv(cfg, s)
    ensures FileInv(cfg, MainApply(cfg, s))
  {
    if s.main.FeedPut? || (s.main.Feed? && cfg.Opens(s.main.i)) {
      FeedFiles(cfg, s);
    } else {
      QuietMainStep(cfg, s);
      QuietFiles(cfg, s, MainApply(cfg, s));
    }
  }

  lemma OthersFiles(cfg: Config, s: State, l: Label, s': State)
    requires FileInv(cfg, s) && Next(cfg, s, l, s') && !l.MainStep? && !l.ReqStep?
    ensures FileInv(cfg, s')
  {
    FilesAlone(cfg, s, s');
  }

  lemma FilesKept(cfg: Config, s: State, l: Label, s': State)
    requires CloseInv(cfg, s) && FileInv(cfg, s) && Next(cfg, s, l, s')
    ensures FileInv(cfg, s')
  {
    match l {
      case MainStep(early) => MainFiles(cfg, s);
      case ReqStep(i, early) => ReqFiles(cfg, s, i, early);
      case _ => OthersFiles(cfg, s, l, s');
    }
  }
}
