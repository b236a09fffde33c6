/** Counting by file: how many strings the taken files have sent, and how many of them are in someone's hands. */
module PipelineTally {
  import opened Sums
  import opened Wrappers
  import opened Pipeline
  import opened PipelineClose
  import opened PipelineFrame
  import opened PipelineFiles
  import opened PipelineResult

  ghost predicate Distinct(fs: seq<nat>) {
    forall i, j :: 0 <= i < j < |fs| ==> fs[i] != fs[j]
  }

  /** The files taken so far. */
  function TakenFiles(s: State): seq<nat> {
    if s.names.taken <= |s.names.accepted| then s.names.accepted[..s.names.taken] else []
  }

  /** How many strings of a file have reached the host queue. */
  function Sends(cfg: Config, files: seq<Progress>): nat -> nat {
    (f: nat) => if f < |files| then |Strs(cfg, f, files[f].sent)| else 0
  }

  /** Whether a file is in the hands of one of the first `n` requesters. */
  function OpenBelow(files: seq<Progress>, n: nat): nat -> nat {
    (f: nat) => if f < |files| && files[f].owner.By? && files[f].owner.r < n then 1 else 0
  }

  function Holding(pc: Requester): nat {
    if HeldFile(pc).Some? then 1 else 0
  }

  lemma {:induction false} SumOneMore(g: nat -> nat, g': nat -> nat, fs: seq<nat>, x: nat)
    requires Distinct(fs) && x in fs && g'(x) == g(x) + 1
    requires forall i :: 0 <= i < |fs| && fs[i] != x ==> g'(fs[i]) == g(fs[i])
    ensures Sum(g', fs) == Sum(g, fs) + 1
  {
    if fs[0] == x {
      SumSame(g', g, fs[1..]);
    } else {
      SumOneMore(g, g', fs[1..], x);
    }
  }

  lemma TakenOnce(cfg: Config, s: State)
    requires CloseInv(cfg, s) && NamesOk(cfg, s)
    ensures Distinct(TakenFiles(s))
    ensures forall f :: 0 <= f < |s.files| ==> (f in TakenFiles(s) <==> !s.files[f].owner.Nobody?)
    ensures forall f :: f in TakenFiles(s) ==> f < |s.files|
  {
    var fs := TakenFiles(s);
    forall i, j | 0 <= i < j < |fs| ensures fs[i] != fs[j] {
      OpenablesDistinct(cfg, Fed(cfg, s.main), i, j);
    }
    forall f | 0 <= f < |s.files| && !s.files[f].owner.Nobody? ensures f in fs {
      var j :| 0 <= j < |s.names.accepted| && s.names.accepted[j] == f;
      assert fs[j] == f;
    }
  }

  // ---------------------------------------------------------------------------------------------
  // Strings sent

  function CountOf(q: seq<Str>): nat -> nat {
    (f: nat) => |OfFile(q, f)|
  }

  lemma {:induction false} CountByFile(q: seq<Str>, fs: seq<nat>)
    requires Distinct(fs) && forall j :: 0 <= j < |q| ==> q[j].file in fs
    ensures Sum(CountOf(q), fs) == |q|
  {
    if q == [] {
      SumZero(CountOf(q), fs);
    } else {
      var n := |q| - 1;
      CountByFile(q[..n], fs);
      SumOneMore(CountOf(q[..n]), CountOf(q), fs, q[n].file);
    }
  }

  lemma SentIsTaken(cfg: Config, s: State, j: nat)
    requires CloseInv(cfg, s) && FileInv(cfg, s) && j < |s.hosts.accepted|
    ensures s.hosts.accepted[j].file in TakenFiles(s)
  {
    var q, f := s.hosts.accepted, s.hosts.accepted[j].file;
    OfFileCounts(q, q[j]);
    assert multiset(q)[q[j]] > 0;
    assert OfFile(q, f) == Strs(cfg, f, s.files[f].sent);
    assert s.files[f].sent > 0;
    TakenOnce(cfg, s);
  }

  /** What the host queue has accepted is what the taken files have sent. */
  lemma HostsTally(cfg: Config, s: State)
    requires CloseInv(cfg, s) && FileInv(cfg, s)
    ensures Sum(Sends(cfg, s.files), TakenFiles(s)) == |s.hosts.accepted|
  {
    var q, fs := s.hosts.accepted, TakenFiles(s);
    TakenOnce(cfg, s);
    forall j | 0 <= j < |q| ensures q[j].file in fs {
      SentIsTaken(cfg, s, j);
    }
    CountByFile(q, fs);
    forall i | 0 <= i < |fs| ensures Sends(cfg, s.files)(fs[i]) == CountOf(q)(fs[i]) {
      assert OfFile(q, fs[i]) == Strs(cfg, fs[i], s.files[fs[i]].sent);
    }
    SumSame(Sends(cfg, s.files), CountOf(q), fs);
  }

  // ---------------------------------------------------------------------------------------------
  // Files in hand

  /** Requester `r` owns exactly the file it holds. */
  lemma HoldsOwn(cfg: Config, s: State, r: nat)
    requires OwnersOk(cfg, s) && ReadersAt(cfg, s) && r < |s.requesters|
    ensures forall f :: 0 <= f < |s.files| ==> (s.files[f].owner == By(r) <==> HeldFile(s.requesters[r]) == Some(f))
    ensures forall f :: HeldFile(s.requesters[r]) == Some(f) ==> f < |s.files|
  {
    assert ReaderAt(cfg, s.files, r, s.requesters[r]);
  }

  lemma OneMoreOwner(files: seq<Progress>, fs: seq<nat>, r: nat, pc: Requester)
    requires forall f :: 0 <= f < |files| ==> (files[f].owner == By(r) <==> HeldFile(pc) == Some(f))
    requires HeldFile(pc).Some? ==> HeldFile(pc).value < |files| && HeldFile(pc).value in fs && Distinct(fs)
    ensures Sum(OpenBelow(files, r + 1), fs) == Sum(OpenBelow(files, r), fs) + Holding(pc)
  {
    if HeldFile(pc).Some? {
      SumOneMore(OpenBelow(files, r), OpenBelow(files, r + 1), fs, HeldFile(pc).value);
    } else {
      SumSame(OpenBelow(files, r + 1), OpenBelow(files, r), fs);
    }
  }

  ghost predicate OwnedIn(files: seq<Progress>, fs: seq<nat>) {
    Distinct(fs) && forall f :: 0 <= f < |files| && files[f].owner.By? ==> f in fs
  }

  lemma NextHolder(cfg: Config, s: State, fs: seq<nat>, r: nat)
    requires OwnersOk(cfg, s) && ReadersAt(cfg, s) && OwnedIn(s.files, fs) && r < |s.requesters|
    ensures Sum(OpenBelow(s.files, r + 1), fs) == Sum(OpenBelow(s.files, r), fs) + Holding(s.requesters[r])
  {
    HoldsOwn(cfg, s, r);
    OneMoreOwner(s.files, fs, r, s.requesters[r]);
  }

  lemma {:induction false} HoldersBelow(cfg: Config, s: State, fs: seq<nat>, n: nat)
    requires OwnersOk(cfg, s) && ReadersAt(cfg, s) && OwnedIn(s.files, fs) && n <= |s.requesters|
    ensures Sum(Holding, s.requesters[..n]) == Sum(OpenBelow(s.files, n), fs)
  {
    if n == 0 {
      SumZero(OpenBelow(s.files, 0), fs);
    } else {
      HoldersBelow(cfg, s, fs, n - 1);
      NextHolder(cfg, s, fs, n - 1);
      SumAppend(Holding, s.requesters[..n - 1], s.requesters[n - 1]);
      assert s.requesters[..n] == s.requesters[..n - 1] + [s.requesters[n - 1]];
    }
  }

  /** There are as many files in hand as requesters that hold one. */
  lemma HoldersTally(cfg: Config, s: State, fs: seq<nat>)
    requires CloseInv(cfg, s) && FileInv(cfg, s) && fs == TakenFiles(s)
    ensures Sum(Holding, s.requesters) == Sum(OpenBelow(s.files, |s.requesters|), fs)
  {
    TakenOnce(cfg, s);
    HoldersBelow(cfg, s, fs, |s.requesters|);
    assert s.requesters[..|s.requesters|] == s.requesters;
  }
}
