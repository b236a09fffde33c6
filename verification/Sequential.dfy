/** `dnssimple.c`: one file after the other, one line after the other. It is the specification that
    the threaded program is measured against. */
module Sequential {
  import opened Lines
  import opened Wrappers

  type Lookup = string -> Option<string>

  /** The log entry for a name, as both programs print it. */
  function Entry(lookup: Lookup, name: string): string {
    match lookup(name)
    case Some(ip) => name + ", " + ip
    case None => name + ", NOT_RESOLVED"
  }

  /** A reader's view of a line for `name`: it begins with the name, a comma and a space, and what is left is
      the address that the look-up gives, or the word NOT_RESOLVED if it gives none. */
  predicate Says(lookup: Lookup, name: string, line: string) {
    && |line| >= |name| + 2 && line[..|name| + 2] == name + ", "
    && line[|name| + 2..] == if lookup(name).Some? then lookup(name).value else "NOT_RESOLVED"
  }

  /** The lines are those of the names, one for each and in their order. */
  ghost predicate Spells(lookup: Lookup, names: seq<string>, lines: seq<string>) {
    |lines| == |names| && forall k :: 0 <= k < |names| ==> Says(lookup, names[k], lines[k])
  }

  lemma EntrySays(lookup: Lookup, name: string, line: string)
    ensures Says(lookup, name, line) <==> line == Entry(lookup, name)
  {
    var outcome := if lookup(name).Some? then lookup(name).value else "NOT_RESOLVED";
    assert ", NOT_RESOLVED" == ", " + "NOT_RESOLVED";
    Parts(name + ", ", outcome, line);
    assert Entry(lookup, name) == (name + ", ") + outcome;
  }

  lemma Parts(head: string, tail: string, line: string)
    ensures line == head + tail <==> |line| >= |head| && line[..|head|] == head && line[|head|..] == tail
  {
    if |line| >= |head| {
      assert line == line[..|head|] + line[|head|..];
    }
  }

  lemma EntriesSpell(lookup: Lookup, names: seq<string>, lines: seq<string>)
    ensures Spells(lookup, names, lines) <==> lines == Entries(lookup, names)
  {
    forall k | 0 <= k < |names| && |lines| == |names|
      ensures Says(lookup, names[k], lines[k]) <==> lines[k] == Entry(lookup, names[k])
    {
      EntrySays(lookup, names[k], lines[k]);
    }
  }

  function Entries(lookup: Lookup, names: seq<string>): (r: seq<string>)
    ensures |r| == |names|
    ensures forall i :: 0 <= i < |r| ==> r[i] == Entry(lookup, names[i])
  {
    seq(|names|, i requires 0 <= i < |names| => Entry(lookup, names[i]))
  }

  lemma EntriesConcat(lookup: Lookup, a: seq<string>, b: seq<string>)
    ensures Entries(lookup, a + b) == Entries(lookup, a) + Entries(lookup, b)
  {
  }

  /** The names on the lines of a data file, or None if it cannot be opened. */
  type Names = Option<seq<string>>

  function Read(file: Option<string>): Names {
    match file
    case None => None
    case Some(content) => Some(FileNames(content))
  }

  function ReadAll(files: seq<Option<string>>): (r: seq<Names>)
    ensures |r| == |files|
    ensures forall i :: 0 <= i < |r| ==> r[i] == Read(files[i])
  {
    seq(|files|, i requires 0 <= i < |files| => Read(files[i]))
  }

  function NamesIn(file: Names): seq<string> {
    match file
    case None => []
    case Some(names) => names
  }

  /** All names in all files, in the order of the arguments. */
  function AllNames(files: seq<Names>): seq<string> {
    if files == [] then [] else AllNames(files[..|files| - 1]) + NamesIn(files[|files| - 1])
  }

  /** What dnssimple logs for the given files. */
  function SequentialLog(lookup: Lookup, files: seq<Option<string>>): seq<string> {
    Entries(lookup, AllNames(ReadAll(files)))
  }

  /** How many lines the first `i` files have. */
  function LinesBefore(files: seq<Names>, i: nat): nat
    requires i <= |files|
  {
    if i == 0 then 0 else LinesBefore(files, i - 1) + |NamesIn(files[i - 1])|
  }

  class DnsSimple {
    const lookup: Lookup
    var log: seq<string>

    constructor (lookup: Lookup)
      ensures this.lookup == lookup && log == []
    {
      this.lookup := lookup;
      log := [];
    }

    /** process_file, dnssimple.c:50-84 */
    method ProcessFile(file: Option<string>) returns (status: int)
      modifies this
      ensures log == old(log) + Entries(lookup, NamesIn(Read(file)))
      ensures status == if file.None? then -1 else 0
      ensures |old(log)| <= |log| && Spells(lookup, NamesIn(Read(file)), log[|old(log)|..])
    {
      if file.None? {
        assert log[|log|..] == [];
        return -1;
      }
      var rest := file.value;
      while rest != ""
        invariant log + Entries(lookup, FileNames(rest)) == old(log) + Entries(lookup, FileNames(file.value))
        decreases |rest|
      {
        NextEntry(lookup, log, rest);
        var line := Name(rest[..LineLength(rest)]);
        rest := rest[LineLength(rest)..];
        var ip := lookup(line);
        if ip.Some? {
          log := log + [line + ", " + ip.value];
        } else {
          log := log + [line + ", NOT_RESOLVED"];
        }
      }
      EntriesSpell(lookup, FileNames(file.value), log[|old(log)|..]);
      return 0;
    }

    /** The file loops of main, dnssimple.c:109-137; `exited` says that no file could be opened. */
    method Run(files: seq<Option<string>>) returns (exited: bool)
      requires log == []
      modifies this
      ensures log == SequentialLog(lookup, files)
      ensures Spells(lookup, AllNames(ReadAll(files)), log)
      ensures exited <==> forall i :: 0 <= i < |files| ==> files[i].None?
    {
      var validFiles := 0;
      for i := 0 to |files|
        invariant validFiles > 0 <==> exists j :: 0 <= j < i && files[j].Some?
      {
        if files[i].Some? {
          validFiles := validFiles + 1;
        }
      }
      EntriesSpell(lookup, AllNames(ReadAll(files)), SequentialLog(lookup, files));
      if validFiles == 0 {
        NoNames(ReadAll(files));
        return true;
      }
      for i := 0 to |files|
        invariant log == SequentialLog(lookup, files[..i])
      {
        var _ := ProcessFile(files[i]);
        NextFile(lookup, files, i);
      }
      assert files[..|files|] == files;
      return false;
    }
  }

  /** Logging the first line of what is left brings the log one entry closer to the whole file's. */
  lemma NextEntry(lookup: Lookup, log: seq<string>, input: string)
    requires input != ""
    ensures log + Entries(lookup, FileNames(input)) ==
            log + [Entry(lookup, Name(input[..LineLength(input)]))] + Entries(lookup, FileNames(input[LineLength(input)..]))
  {
    var first, rest := SplitLine(input);
    OneEntry(lookup, log, Name(first), FileNames(rest));
  }

  lemma OneEntry(lookup: Lookup, log: seq<string>, name: string, names: seq<string>)
    ensures log + Entries(lookup, [name] + names) == log + [Entry(lookup, name)] + Entries(lookup, names)
  {
    EntriesConcat(lookup, [name], names);
    assert Entries(lookup, [name]) == [Entry(lookup, name)];
  }

  lemma NextFile(lookup: Lookup, files: seq<Option<string>>, i: nat)
    requires i < |files|
    ensures SequentialLog(lookup, files[..i + 1]) ==
            SequentialLog(lookup, files[..i]) + Entries(lookup, NamesIn(Read(files[i])))
  {
    var before, upTo := ReadAll(files[..i]), ReadAll(files[..i + 1]);
    assert upTo[..i] == before && upTo[i] == Read(files[i]);
    EntriesConcat(lookup, AllNames(before), NamesIn(Read(files[i])));
  }

  lemma {:induction false} NoNames(files: seq<Names>)
    requires forall i :: 0 <= i < |files| ==> files[i].None?
    ensures AllNames(files) == []
  {
    if files != [] {
      NoNames(files[..|files| - 1]);
    }
  }

  /** The names of file `i` stay where they are while the files after it are added. */
  lemma {:induction false} NamesPosition(files: seq<Names>, n: nat, i: nat, k: nat)
    requires i < n <= |files| && k < |NamesIn(files[i])|
    ensures LinesBefore(files, i) + k < |AllNames(files[..n])|
    ensures AllNames(files[..n])[LinesBefore(files, i) + k] == NamesIn(files[i])[k]
  {
    var before, last := AllNames(files[..n - 1]), NamesIn(files[n - 1]);
    NamesUpTo(files, n - 1);
    assert files[..n][..n - 1] == files[..n - 1];
    assert AllNames(files[..n]) == before + last;
    if i < n - 1 {
      NamesPosition(files, n - 1, i, k);
      InConcat(before, last, LinesBefore(files, i) + k);
    } else {
      InConcat(before, last, |before| + k);
    }
  }

  lemma InConcat(a: seq<string>, b: seq<string>, j: nat)
    requires j < |a| + |b|
    ensures (a + b)[j] == if j < |a| then a[j] else b[j - |a|]
  {
  }

  lemma {:induction false} NamesUpTo(files: seq<Names>, n: nat)
    requires n <= |files|
    ensures |AllNames(files[..n])| == LinesBefore(files, n)
  {
    if n > 0 {
      NamesUpTo(files, n - 1);
      assert files[..n][..n - 1] == files[..n - 1];
    }
  }

  /** All names, file after file and line after line: where the name on line `k` of file `i` comes. */
  lemma NamesInOrder(files: seq<Names>, i: nat, k: nat)
    requires i < |files| && k < |NamesIn(files[i])|
    ensures |AllNames(files)| == LinesBefore(files, |files|) && LinesBefore(files, i) + k < |AllNames(files)|
    ensures AllNames(files)[LinesBefore(files, i) + k] == NamesIn(files[i])[k]
  {
    assert files[..|files|] == files;
    NamesUpTo(files, |files|);
    NamesPosition(files, |files|, i, k);
  }
}
