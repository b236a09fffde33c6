/** What the lines of the two log files of the threaded program are, at any time and in the end. */
module PipelineLogs {
  import opened Fifo
  import opened Lines
  import opened Sequential
  import opened LogEntries
  import opened Permutations
  import opened Wrappers
  import opened Pipeline
  import opened PipelineClose
  import opened PipelineFiles
  import opened PipelineFlow
  import opened PipelineResult

  /** `x` is a non-empty line of a file. */
  predicate IsLineOf(cfg: Config, x: Str) {
    && x.file < |cfg.files| && x.pos < |cfg.Names(x.file)|
    && x.text == cfg.Names(x.file)[x.pos] != ""
  }

  lemma {:induction false} StrsAreLines(cfg: Config, f: nat, k: nat, x: Str)
    requires f < |cfg.files|
    ensures x in Strs(cfg, f, k) <==> IsLineOf(cfg, x) && x.file == f && x.pos < k
  {
    if k > 0 {
      StrsAreLines(cfg, f, k - 1, x);
    }
  }

  /** Whatever is on a queue of lines is a line of a file. */
  lemma AcceptedIsLine(cfg: Config, s: State, x: Str)
    requires CloseInv(cfg, s) && FileInv(cfg, s) && (x in s.log.accepted || x in s.hosts.accepted)
    ensures IsLineOf(cfg, x)
  {
    OfFileCounts(s.log.accepted, x);
    OfFileCounts(s.hosts.accepted, x);
    StrsAreLines(cfg, x.file, s.files[x.file].logged, x);
    StrsAreLines(cfg, x.file, s.files[x.file].sent, x);
  }

  lemma PostedIsDue(cfg: Config, s: State, y: Str) returns (x: Str)
    requires FlowInv(cfg, s) && y in s.messages.accepted
    ensures x in s.hosts.accepted && y == Message(cfg, x)
  {
    var due := Messages(cfg, s.hosts.accepted[..s.hosts.taken]);
    assert y in multiset(s.messages.accepted);
    assert y in multiset(due);
    var j :| 0 <= j < |due| && due[j] == y;
    x := s.hosts.accepted[j];
  }

  lemma WrittenWasPut(q: Fifo<Str>, out: seq<Str>, l: Logger, x: Str)
    requires WrittenOk(q, out, l) && x in out
    ensures x in q.accepted
  {
    assert x in out + InHand(l);
  }

  /** At any time, every line of the resolver log is about a non-empty line of some data file, and says so. */
  lemma ResolverLogSays(cfg: Config, s: State, j: nat)
    requires cfg.Valid() && Reachable(cfg, s) && j < |s.resOut|
    ensures s.resOut[j].file < |cfg.files| && s.resOut[j].pos < |cfg.Names(s.resOut[j].file)|
    ensures var name := cfg.Names(s.resOut[j].file)[s.resOut[j].pos];
      name != "" && Says(cfg.lookup, name, s.resOut[j].text)
  {
    ReachableInv(cfg, s);
    WrittenWasPut(s.messages, s.resOut, s.resLogger, s.resOut[j]);
    var x := PostedIsDue(cfg, s, s.resOut[j]);
    AcceptedIsLine(cfg, s, x);
    EntrySays(cfg.lookup, x.text, s.resOut[j].text);
  }

  /** At any time, every line of the requester log is a non-empty line of some data file. */
  lemma RequesterLogSays(cfg: Config, s: State, j: nat)
    requires cfg.Valid() && Reachable(cfg, s) && j < |s.reqOut|
    ensures IsLineOf(cfg, s.reqOut[j])
  {
    ReachableInv(cfg, s);
    WrittenWasPut(s.log, s.reqOut, s.reqLogger, s.reqOut[j]);
    AcceptedIsLine(cfg, s, s.reqOut[j]);
  }

  // ---------------------------------------------------------------------------------------------
  // In the end, each line exactly once

  /** `j` is the one place in `q` that stems from line `k` of file `f`. */
  ghost predicate OnlyAt(q: seq<Str>, f: nat, k: nat, j: nat) {
    j < |q| && forall i :: 0 <= i < |q| ==> (q[i].file == f && q[i].pos == k <==> i == j)
  }

  lemma {:induction false} StrsOnce(cfg: Config, f: nat, k: nat, x: Str, q: seq<Str>)
    requires f < |cfg.files| && IsLineOf(cfg, x) && x.file == f && x.pos < k && q == Strs(cfg, f, k)
    ensures multiset(q)[x] == 1
  {
    var a, b := Strs(cfg, f, k - 1), StrAt(cfg, f, k - 1);
    assert q == a + b;
    CountParts(a, b, x);
    if x.pos < k - 1 {
      StrsOnce(cfg, f, k - 1, x, a);
      assert x !in b;
    } else {
      StrsAreLines(cfg, f, k - 1, x);
      assert x !in a && b == [x];
    }
  }

  lemma CountParts(a: seq<Str>, b: seq<Str>, x: Str)
    ensures x !in a ==> multiset(a + b)[x] == multiset(b)[x]
    ensures x !in b ==> multiset(a + b)[x] == multiset(a)[x]
  {
    assert multiset(a + b) == multiset(a) + multiset(b);
  }

  lemma {:induction false} MapCounts(g: Str -> Str, q: seq<Str>, x: Str)
    requires forall y :: y in q && g(y) == g(x) ==> y == x
    ensures multiset(Map(g, q))[g(x)] == multiset(q)[x]
  {
    if q != [] {
      var n := |q| - 1;
      MapCounts(g, q[..n], x);
      assert q == q[..n] + [q[n]];
      assert Map(g, q) == Map(g, q[..n]) + [g(q[n])];
      assert q[n] in q;
    }
  }

  lemma CountedOnce(q: seq<Str>, i: nat, j: nat)
    requires i < j < |q| && multiset(q)[q[i]] == 1
    ensures q[i] != q[j]
  {
    assert q == q[..j] + [q[j]] + q[j + 1..];
    assert q[..j][i] == q[i];
    assert q[i] in multiset(q[..j]);
  }

  /** A string that is counted once has one place. */
  lemma OnePlace(q: seq<Str>, x: Str) returns (j: nat)
    requires multiset(q)[x] == 1
    requires forall y :: y in q && y.file == x.file && y.pos == x.pos ==> y == x
    ensures OnlyAt(q, x.file, x.pos, j) && q[j] == x
  {
    assert x in q;
    j :| 0 <= j < |q| && q[j] == x;
    forall i | 0 <= i < |q| && i != j ensures !(q[i].file == x.file && q[i].pos == x.pos) {
      if i < j {
        if q[i] == x {
          CountedOnce(q, i, j);
        }
      } else if q[j] == q[i] {
        CountedOnce(q, j, i);
      }
    }
  }

  lemma LineAcceptedOnce(cfg: Config, s: State, x: Str)
    requires Inv(cfg, s) && s.main.Finished? && IsLineOf(cfg, x)
    ensures multiset(s.hosts.accepted)[x] == multiset(s.log.accepted)[x] == 1
  {
    FinishedQueues(cfg, s);
    OfFileCounts(s.log.accepted, x);
    OfFileCounts(s.hosts.accepted, x);
    StrsOnce(cfg, x.file, |cfg.Names(x.file)|, x, FileStrs(cfg, x.file));
  }

  /** When main has finished, each non-empty line of each file stands exactly once in the requester log, and
      exactly one line of the resolver log is about it and says what the look-up gives. */
  lemma EachLineOnce(cfg: Config, s: State, f: nat, k: nat) returns (i: nat, j: nat)
    requires cfg.Valid() && Reachable(cfg, s) && s.main.Finished?
    requires f < |cfg.files| && k < |cfg.Names(f)| && cfg.Names(f)[k] != ""
    ensures OnlyAt(s.reqOut, f, k, i) && s.reqOut[i].text == cfg.Names(f)[k]
    ensures OnlyAt(s.resOut, f, k, j) && Says(cfg.lookup, cfg.Names(f)[k], s.resOut[j].text)
  {
    ReachableInv(cfg, s);
    AllIsDrained(cfg, s);
    var x := Str(f, k, cfg.Names(f)[k]);
    LineAcceptedOnce(cfg, s, x);
    forall y | y in s.reqOut && y.file == f && y.pos == k ensures y == x {
      AcceptedIsLine(cfg, s, y);
    }
    i := OnePlace(s.reqOut, x);
    LineLoggedOnce(cfg, s, x);
    forall y | y in s.resOut && y.file == f && y.pos == k ensures y == Message(cfg, x) {
      MessageIsOf(cfg, s, y, x);
    }
    j := OnePlace(s.resOut, Message(cfg, x));
    EntrySays(cfg.lookup, x.text, s.resOut[j].text);
  }

  lemma MessageIsOf(cfg: Config, s: State, y: Str, x: Str)
    requires Inv(cfg, s) && y in s.messages.accepted && IsLineOf(cfg, x) && y.file == x.file && y.pos == x.pos
    ensures y == Message(cfg, x)
  {
    var z := PostedIsDue(cfg, s, y);
    AcceptedIsLine(cfg, s, z);
  }

  lemma LineLoggedOnce(cfg: Config, s: State, x: Str)
    requires Inv(cfg, s) && s.main.Finished? && IsLineOf(cfg, x)
    ensures multiset(s.resOut)[Message(cfg, x)] == 1
  {
    LineAcceptedOnce(cfg, s, x);
    FinishedMessages(cfg, s);
    forall y | y in s.hosts.accepted && Message(cfg, y) == Message(cfg, x) ensures y == x {
      AcceptedIsLine(cfg, s, y);
    }
    MapCounts(MessageOf(cfg), s.hosts.accepted, x);
  }

  // ---------------------------------------------------------------------------------------------
  // The log file read back

  lemma {:induction false} NamesOfFilesAreWords(files: seq<Names>)
    requires forall f :: 0 <= f < |files| ==> AllWords(NamesIn(files[f]))
    ensures AllWords(AllNames(files))
  {
    if files != [] {
      NamesOfFilesAreWords(files[..|files| - 1]);
    }
  }

  lemma {:induction false} NonBlankAreWords(names: seq<string>)
    requires AllWords(names)
    ensures AllWords(NonBlank(names))
  {
    if names != [] {
      NonBlankAreWords(names[..|names| - 1]);
    }
  }

  /** When main has finished, the resolver log, written one message to a line, reads back as it was, whatever the
      data files were, if no address has a newline or a NUL in it. */
  lemma ResolverLogReadsBack(cfg: Config, s: State, files: seq<Option<string>>)
    requires cfg.Valid() && cfg.files == ReadAll(files) && Reachable(cfg, s) && s.main.Finished?
    requires forall name: string :: cfg.lookup(name).Some? ==> IsWord(cfg.lookup(name).value)
    ensures FileNames(Text(Texts(s.resOut))) == Texts(s.resOut)
  {
    ThreadedRefinesSequential(cfg, s);
    forall f | 0 <= f < |cfg.files| ensures AllWords(NamesIn(cfg.files[f])) {
      if files[f].Some? {
        NamesAreWords(files[f].value);
      }
    }
    NamesOfFilesAreWords(cfg.files);
    NonBlankAreWords(AllNames(cfg.files));
    LogReadsBack(cfg.lookup, NonBlank(AllNames(cfg.files)), Texts(s.resOut));
  }
}
