/** What the getline loops of both programs see of a data file. */
module Lines {

  function NewlineIndex(s: string): (i: nat)
    ensures i <= |s|
    ensures forall j :: 0 <= j < i ==> s[j] != '\n'
    ensures i < |s| ==> s[i] == '\n'
  {
    if s == "" || s[0] == '\n' then 0 else 1 + NewlineIndex(s[1..])
  }

  /** How many characters the next call of getline returns, the newline included. */
  function LineLength(rest: string): (n: nat)
    ensures n <= |rest| && (rest != "" ==> n > 0)
  {
    var i := NewlineIndex(rest);
    if i < |rest| then i + 1 else i
  }

  /** The successive results of getline. */
  function RawLines(input: string): seq<string> {
    if input == "" then []
    else [input[..LineLength(input)]] + RawLines(input[LineLength(input)..])
  }

  /** A buffer read as a C string ends at the first NUL. */
  function CString(buffer: string): string {
    if buffer == "" || buffer[0] == '\0' then "" else [buffer[0]] + CString(buffer[1..])
  }

  /** The name on a line once its final newline has been overwritten with NUL. */
  function Name(raw: string): string {
    if raw != "" && raw[|raw| - 1] == '\n' then CString(raw[|raw| - 1 := '\0']) else CString(raw)
  }

  function Names(raws: seq<string>): (r: seq<string>)
    ensures |r| == |raws|
    ensures forall i :: 0 <= i < |r| ==> r[i] == Name(raws[i])
  {
    seq(|raws|, i requires 0 <= i < |raws| => Name(raws[i]))
  }

  /** The names on the lines of a file, in order. */
  function FileNames(input: string): seq<string> {
    Names(RawLines(input))
  }

  function Join(raws: seq<string>): string {
    if raws == [] then "" else raws[0] + Join(raws[1..])
  }

  /** A non-empty piece of text whose newline, if it has one, is its last character. */
  predicate IsLine(raw: string) {
    raw != "" && forall j :: 0 <= j < |raw| - 1 ==> raw[j] != '\n'
  }

  predicate Terminated(raw: string) {
    raw != "" && raw[|raw| - 1] == '\n'
  }

  lemma FirstLine(input: string)
    requires input != ""
    ensures IsLine(input[..LineLength(input)])
    ensures LineLength(input) < |input| ==> Terminated(input[..LineLength(input)])
  {
  }

  lemma RawLinesUnfold(input: string, first: string, rest: string)
    requires input != "" && first == input[..LineLength(input)] && rest == input[LineLength(input)..]
    ensures RawLines(input) == [first] + RawLines(rest)
  {
  }

  lemma RawLinesEnd(input: string)
    ensures RawLines(input) == [] <==> input == ""
  {
  }

  lemma JoinCons(first: string, raws: seq<string>)
    ensures Join([first] + raws) == first + Join(raws)
  {
    assert ([first] + raws)[1..] == raws;
  }

  /** Splitting into lines loses nothing, each piece is a line, and only the last may lack its newline. */
  lemma {:induction false} LinesPartition(input: string)
    ensures Join(RawLines(input)) == input
    ensures forall i :: 0 <= i < |RawLines(input)| ==> IsLine(RawLines(input)[i])
    ensures forall i :: 0 <= i < |RawLines(input)| - 1 ==> Terminated(RawLines(input)[i])
    decreases |input|
  {
    if input != "" {
      var n := LineLength(input);
      var raws, rest := RawLines(input), RawLines(input[n..]);
      RawLinesUnfold(input, input[..n], input[n..]);
      RawLinesEnd(input[n..]);
      assert input == input[..n] + input[n..];
      FirstLine(input);
      LinesPartition(input[n..]);
      JoinCons(input[..n], rest);
      assert forall i :: 0 < i < |raws| ==> raws[i] == rest[i - 1];
    }
  }

  // ---------------------------------------------------------------------------------------------
  // From lines to names

  /** A string without newline and NUL. */
  predicate IsWord(word: string) {
    forall i :: 0 <= i < |word| ==> word[i] != '\n' && word[i] != '\0'
  }

  /** The text that has each word on a line of its own. */
  function Text(words: seq<string>): string {
    if words == [] then "" else words[0] + "\n" + Text(words[1..])
  }

  lemma {:induction false} CStringPrefix(buffer: string)
    ensures CString(buffer) <= buffer && '\0' !in CString(buffer)
    ensures |CString(buffer)| < |buffer| ==> buffer[|CString(buffer)|] == '\0'
  {
    if buffer != "" && buffer[0] != '\0' {
      CStringPrefix(buffer[1..]);
    }
  }

  /** The name on a line is its longest beginning that has no NUL and leaves out the final newline. */
  lemma NameIsLongest(raw: string, p: string)
    ensures p <= Name(raw) <==> p <= raw && '\0' !in p && (Terminated(raw) ==> p != raw)
  {
    var buffer := if Terminated(raw) then raw[|raw| - 1 := '\0'] else raw;
    CStringPrefix(buffer);
    var n := |CString(buffer)|;
    if p <= raw && |p| > n && (Terminated(raw) ==> p != raw) {
      assert n < |buffer| && buffer[n] == '\0';
      assert p[n] == raw[n] == buffer[n];
    }
  }

  /** So a line that getline delivers has a name without newline, and it is all of the line but the newline if
      there is no NUL on it. */
  lemma NameOfLine(raw: string)
    requires IsLine(raw)
    ensures IsWord(Name(raw))
    ensures '\0' !in raw ==> raw == if Terminated(raw) then Name(raw) + "\n" else Name(raw)
  {
    NameIsLongest(raw, Name(raw));
    NameIsLongest(raw, raw);
    NameIsLongest(raw, raw[..|raw| - 1]);
  }

  lemma NameOfWord(word: string)
    requires IsWord(word)
    ensures Name(word) == word && Name(word + "\n") == word
  {
    NameIsLongest(word, word);
    NameIsLongest(word, Name(word));
    NameIsLongest(word + "\n", word);
    NameIsLongest(word + "\n", Name(word + "\n"));
  }

  lemma {:induction false} NewlineAfter(word: string, rest: string)
    requires IsWord(word)
    ensures NewlineIndex(word + "\n" + rest) == |word| && NewlineIndex(word) == |word|
  {
    var input := word + "\n" + rest;
    assert input[|word|] == '\n';
    assert forall i :: 0 <= i < |word| ==> input[i] == word[i];
  }

  lemma FirstWord(word: string, rest: string, input: string)
    requires IsWord(word) && input == word + "\n" + rest
    ensures FileNames(input) == [word] + FileNames(rest)
  {
    NewlineAfter(word, rest);
    NameOfWord(word);
    assert input[..LineLength(input)] == word + "\n" && input[LineLength(input)..] == rest;
  }

  lemma LastWord(word: string)
    requires IsWord(word)
    ensures FileNames(word) == if word == "" then [] else [word]
  {
    NewlineAfter(word, "");
    NameOfWord(word);
    if word != "" {
      assert word[..LineLength(word)] == word && word[LineLength(word)..] == "";
      assert RawLines(word) == [word] + RawLines("");
    }
  }

  lemma TextCons(words: seq<string>, rest: string)
    requires words != []
    ensures words == [words[0]] + words[1..]
    ensures Text(words) + rest == words[0] + "\n" + (Text(words[1..]) + rest)
  {
  }

  lemma {:induction false} WordsThenRest(words: seq<string>, rest: string, input: string)
    requires (forall i :: 0 <= i < |words| ==> IsWord(words[i])) && input == Text(words) + rest
    ensures FileNames(input) == words + FileNames(rest)
  {
    if words == [] {
      assert input == rest;
    } else {
      var tail := Text(words[1..]) + rest;
      TextCons(words, rest);
      WordsThenRest(words[1..], rest, tail);
      FirstWord(words[0], tail, input);
      FirstStays(words[0], words[1..], FileNames(rest));
    }
  }

  lemma FirstStays(first: string, others: seq<string>, rest: seq<string>)
    ensures [first] + (others + rest) == ([first] + others) + rest
  {
  }

  /** Round trip: the names in a text of lines are the words it was written from, the empty ones too; a last
      word need not have a newline after it. */
  lemma WordsReadBack(words: seq<string>, last: string)
    requires (forall i :: 0 <= i < |words| ==> IsWord(words[i])) && IsWord(last)
    ensures FileNames(Text(words) + last) == words + if last == "" then [] else [last]
    ensures FileNames(Text(words)) == words
  {
    WordsThenRest(words, last, Text(words) + last);
    WordsThenRest(words, "", Text(words));
    LastWord(last);
    LastWord("");
  }

  /** The first line of a text, and the rest of it. */
  lemma SplitLine(input: string) returns (first: string, rest: string)
    requires input != ""
    ensures first == input[..LineLength(input)] && rest == input[LineLength(input)..]
    ensures input == first + rest && |rest| < |input|
    ensures IsLine(first) && (rest != "" ==> Terminated(first))
    ensures FileNames(input) == [Name(first)] + FileNames(rest)
  {
    first, rest := input[..LineLength(input)], input[LineLength(input)..];
    FirstLine(input);
    FirstName(input, first, rest);
  }

  lemma FirstName(input: string, first: string, rest: string)
    requires input != "" && first == input[..LineLength(input)] && rest == input[LineLength(input)..]
    ensures FileNames(input) == [Name(first)] + FileNames(rest)
  {
    RawLinesUnfold(input, first, rest);
    NamesOfFirst(first, RawLines(rest));
  }

  lemma NamesOfFirst(first: string, others: seq<string>)
    ensures Names([first] + others) == [Name(first)] + Names(others)
  {
  }

  lemma PartsWithout(c: char, input: string, first: string, rest: string)
    requires input == first + rest && c !in input
    ensures c !in first && c !in rest
  {
    assert forall x :: x in first ==> x in input;
    assert forall x :: x in rest ==> x in input;
  }

  lemma TextOfFirst(first: string, names: seq<string>)
    ensures Text([first] + names) == first + "\n" + Text(names)
  {
    assert ([first] + names)[1..] == names;
  }

  /** What was read of `input` when only `rest` is left, and what writing its names out again gives. */
  lemma WrittenFirst(input: string, first: string, rest: string, text: string)
    requires IsLine(first) && '\0' !in first && input == first + rest && (rest != "" ==> Terminated(first))
    requires text == rest + if rest == "" || Terminated(rest) then "" else "\n"
    ensures Name(first) + "\n" + text == input + if Terminated(input) then "" else "\n"
  {
    NameOfLine(first);
  }

  /** The other way round: writing the names of a file without NUL out again gives the file, but for a newline
      that its last line may lack. */
  lemma {:induction false} FileWrittenBack(input: string)
    requires '\0' !in input
    ensures Text(FileNames(input)) == input + if input == "" || Terminated(input) then "" else "\n"
    decreases |input|
  {
    if input != "" {
      var first, rest := SplitLine(input);
      PartsWithout('\0', input, first, rest);
      FileWrittenBack(rest);
      TextOfFirst(Name(first), FileNames(rest));
      WrittenFirst(input, first, rest, Text(FileNames(rest)));
    }
  }

  /** All names in a file are words. */
  lemma NamesAreWords(input: string)
    ensures forall i :: 0 <= i < |FileNames(input)| ==> IsWord(FileNames(input)[i])
  {
    LinesPartition(input);
    forall i | 0 <= i < |FileNames(input)| ensures IsWord(FileNames(input)[i]) {
      NameOfLine(RawLines(input)[i]);
    }
  }
}
