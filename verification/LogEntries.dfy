/** What a reader of the resolver log finds on its lines, in plain text. */
module LogEntries {
  import opened Wrappers
  import opened Lines
  import opened Sequential

  // ---------------------------------------------------------------------------------------------
  // One line

  /** Where the first comma is. */
  function CommaIndex(line: string): (i: nat)
    ensures i <= |line| && forall j :: 0 <= j < i ==> line[j] != ','
    ensures i < |line| ==> line[i] == ','
  {
    if line == "" || line[0] == ',' then 0 else 1 + CommaIndex(line[1..])
  }

  /** The name and the outcome that a reader takes a line for: the name ends at the first comma. */
  function ReadEntry(line: string): (string, Option<string>) {
    var i := CommaIndex(line);
    var outcome := if i + 2 <= |line| then line[i + 2..] else "";
    (line[..i], if outcome == "NOT_RESOLVED" then None else Some(outcome))
  }

  /** A reader recovers the name and the outcome of the look-up exactly if the name has no comma and the address
      is not the word NOT_RESOLVED. */
  lemma EntryRecovers(lookup: Lookup, name: string)
    ensures ReadEntry(Entry(lookup, name)) == (name, lookup(name)) <==>
            ',' !in name && lookup(name) != Some("NOT_RESOLVED")
  {
    var line := Entry(lookup, name);
    EntrySays(lookup, name, line);
    assert line[|name|] == (line[..|name| + 2])[|name|] == ',';
    assert line[..|name|] == name;
    if ',' !in name {
      assert forall j :: 0 <= j < |name| ==> line[j] == (line[..|name| + 2])[j];
      CommaAt(line, |name|);
    }
  }

  lemma CommaAt(line: string, i: nat)
    requires i < |line| && line[i] == ',' && forall j :: 0 <= j < i ==> line[j] != ','
    ensures CommaIndex(line) == i
  {
  }

  // ---------------------------------------------------------------------------------------------
  // The whole log

  lemma EntryIsWord(lookup: Lookup, name: string)
    requires IsWord(name) && (lookup(name).Some? ==> IsWord(lookup(name).value))
    ensures IsWord(Entry(lookup, name))
  {
  }

  predicate AllWords(lines: seq<string>) {
    forall i :: 0 <= i < |lines| ==> IsWord(lines[i])
  }

  lemma EntriesAreWords(lookup: Lookup, names: seq<string>, log: seq<string>)
    requires AllWords(names) && multiset(log) == multiset(Entries(lookup, names))
    requires forall name: string :: lookup(name).Some? ==> IsWord(lookup(name).value)
    ensures AllWords(log)
  {
    forall j | 0 <= j < |log| ensures IsWord(log[j]) {
      assert log[j] in multiset(Entries(lookup, names));
      var i :| 0 <= i < |names| && Entries(lookup, names)[i] == log[j];
      EntryIsWord(lookup, names[i]);
    }
  }

  /** Written to a file, each entry followed by a newline, a log of names in files can be read back with getline
      as it was, if no address has a newline or a NUL in it. */
  lemma LogReadsBack(lookup: Lookup, names: seq<string>, log: seq<string>)
    requires AllWords(names) && multiset(log) == multiset(Entries(lookup, names))
    requires forall name: string :: lookup(name).Some? ==> IsWord(lookup(name).value)
    ensures FileNames(Text(log)) == log
  {
    EntriesAreWords(lookup, names, log);
    WordsReadBack(log, "");
  }

  /** From the data files to the log of dnssimple: the word on line `k` of file `i` is what the line at its
      place in the log is about. */
  lemma LogOfWords(lookup: Lookup, files: seq<Option<string>>, i: nat, words: seq<string>, k: nat)
    requires i < |files| && files[i] == Some(Text(words)) && AllWords(words) && k < |words|
    ensures var at := LinesBefore(ReadAll(files), i) + k;
      at < |SequentialLog(lookup, files)| && Says(lookup, words[k], SequentialLog(lookup, files)[at])
  {
    var all := ReadAll(files);
    WordsReadBack(words, "");
    NamesInOrder(all, i, k);
    EntrySays(lookup, words[k], Entry(lookup, words[k]));
  }
}
