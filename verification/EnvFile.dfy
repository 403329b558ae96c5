/**
 The .env file of the setup wizard (scripts/wizard/writer.py): read as key/value pairs,
 and merged with new pairs line by line.

 Main results, for every file, with its comments, blank lines and repeated keys: reading
 it after a merge gives the old pairs overridden by the new (`ReadAfterWrite`), and a
 second merge of the same pairs changes nothing (`WriteTwice`).
*/
module EnvFile {
  import opened TextTrim
  import opened Wrappers

  type Pairs = map<string, string>

  /** What the host takes for whitespace, and for the end of a line. */
  datatype Host = Host(isSpace: char -> bool, isBreak: char -> bool)

  /** A newline ends a line, every such end is whitespace, and '=' and '#' are neither. */
  ghost predicate Sound(host: Host) {
    host.isBreak('\n') && (forall c :: host.isBreak(c) ==> host.isSpace(c)) && !host.isSpace('=') && !host.isSpace('#')
  }

  // ----- lines -----

  predicate OneLine(host: Host, s: string) {
    forall c <- s :: !host.isBreak(c)
  }

  function FirstBreak(host: Host, s: string): (i: nat)
    ensures i <= |s| && OneLine(host, s[..i]) && (i < |s| ==> host.isBreak(s[i]))
  {
    if s == "" || host.isBreak(s[0]) then 0
    else
      var j := FirstBreak(host, s[1..]);
      assert s[..j + 1] == [s[0]] + s[1..][..j];
      j + 1
  }

  /** The lines of a text, without their ends; an end at the very end starts no line. */
  function SplitLines(host: Host, text: string): seq<string>
    decreases |text|
  {
    if text == "" then []
    else
      var i := FirstBreak(host, text);
      if i == |text| then [text] else [text[..i]] + SplitLines(host, text[i + 1..])
  }

  function Ended(lines: seq<string>): string {
    if lines == [] then "" else lines[0] + "\n" + Ended(lines[1..])
  }

  /** The lines joined by newlines, with one at the end. */
  function FileText(lines: seq<string>): string {
    if lines == [] then "\n" else Ended(lines)
  }

  lemma {:induction false} FirstBreakIs(host: Host, line: string, rest: string)
    requires host.isBreak('\n') && OneLine(host, line)
    ensures FirstBreak(host, line + "\n" + rest) == |line|
    decreases |line|
  {
    if line != "" {
      assert (line + "\n" + rest)[1..] == line[1..] + "\n" + rest;
      FirstBreakIs(host, line[1..], rest);
      assert line[0] in line;
    }
  }

  lemma {:induction false} SplitEnded(host: Host, lines: seq<string>)
    requires host.isBreak('\n') && forall line <- lines :: OneLine(host, line)
    ensures SplitLines(host, Ended(lines)) == lines
    decreases |lines|
  {
    if lines != [] {
      var rest := Ended(lines[1..]);
      FirstBreakIs(host, lines[0], rest);
      var text := lines[0] + "\n" + rest;
      assert text[..|lines[0]|] == lines[0] && text[|lines[0]| + 1..] == rest;
      SplitEnded(host, lines[1..]);
    }
  }

  lemma {:induction false} LinesAreOneLine(host: Host, text: string)
    ensures forall line <- SplitLines(host, text) :: OneLine(host, line)
    decreases |text|
  {
    if text != "" {
      var i := FirstBreak(host, text);
      if i == |text| {
        assert text[..i] == text;
      } else {
        LinesAreOneLine(host, text[i + 1..]);
      }
    }
  }

  // ----- entries -----

  function IndexOf(s: string, c: char): (i: nat)
    requires c in s
    ensures i < |s| && s[i] == c && c !in s[..i]
  {
    if s[0] == c then 0
    else
      var j := IndexOf(s[1..], c);
      assert s[..j + 1] == [s[0]] + s[1..][..j];
      j + 1
  }

  lemma {:induction false} IndexIs(a: string, c: char, b: string)
    requires c !in a
    ensures IndexOf(a + [c] + b, c) == |a|
    decreases |a|
  {
    if a != "" {
      assert (a + [c] + b)[1..] == a[1..] + [c] + b;
      IndexIs(a[1..], c, b);
    }
  }

  /** The pair a line holds, unless it is blank, a comment or no pair. */
  function EntryOf(host: Host, line: string): Option<(string, string)> {
    var s := Strip(host.isSpace, line);
    if s == "" || s[0] == '#' || '=' !in s then None
    else
      var i := IndexOf(s, '=');
      Some((Strip(host.isSpace, s[..i]), Strip(host.isSpace, s[i + 1..])))
  }

  /** A later pair replaces an earlier one of the same key. */
  function With(pairs: Pairs, entry: Option<(string, string)>): Pairs {
    match entry
    case None => pairs
    case Some((key, value)) => pairs[key := value]
  }

  function ReadLines(host: Host, lines: seq<string>): Pairs {
    if lines == [] then map[] else With(ReadLines(host, lines[..|lines| - 1]), EntryOf(host, lines[|lines| - 1]))
  }

  /** The lines of a file; of no file, none. */
  function LinesOf(host: Host, text: Option<string>): seq<string> {
    if text.None? then [] else SplitLines(host, text.value)
  }

  /** The pairs of a file's text; of no file, none. */
  function ReadEnv(host: Host, text: Option<string>): Pairs {
    ReadLines(host, LinesOf(host, text))
  }

  function LineOf(key: string, value: string): string {
    key + "=" + value
  }

  /** A line of the merged file. */
  function Merged(host: Host, line: string, pairs: Pairs): string {
    match EntryOf(host, line)
    case None => line
    case Some((key, _)) => if key in pairs then LineOf(key, pairs[key]) else line
  }

  function MergedLines(host: Host, lines: seq<string>, pairs: Pairs): seq<string> {
    seq(|lines|, i requires 0 <= i < |lines| => Merged(host, lines[i], pairs))
  }

  /** Lines for the keys, in their order, that the file did not have. */
  function Appended(keys: seq<string>, pairs: Pairs, had: set<string>): seq<string>
    requires forall key <- keys :: key in pairs
  {
    if keys == [] then []
    else
      Appended(keys[..|keys| - 1], pairs, had)
      + if keys[|keys| - 1] in had then [] else [LineOf(keys[|keys| - 1], pairs[keys[|keys| - 1]])]
  }

  function WriteLines(host: Host, lines: seq<string>, pairs: Pairs, keys: seq<string>): seq<string>
    requires forall key <- keys :: key in pairs
  {
    MergedLines(host, lines, pairs) + Appended(keys, pairs, ReadLines(host, lines).Keys)
  }

  /** The file after a merge; `keys` is the order the new pairs come in. */
  function WriteEnv(host: Host, text: Option<string>, pairs: Pairs, keys: seq<string>): string
    requires forall key <- keys :: key in pairs
  {
    FileText(WriteLines(host, LinesOf(host, text), pairs, keys))
  }

  // ----- pairs a file can hold -----

  /** A key that reads back: something, trimmed, on one line, no comment, no '='. */
  predicate GoodKey(host: Host, key: string) {
    key != "" && IsTrimmed(host.isSpace, key) && OneLine(host, key) && key[0] != '#' && '=' !in key
  }

  predicate GoodValue(host: Host, value: string) {
    IsTrimmed(host.isSpace, value) && OneLine(host, value)
  }

  ghost predicate GoodPairs(host: Host, pairs: Pairs, keys: seq<string>) {
    && (forall key <- pairs :: GoodKey(host, key) && GoodValue(host, pairs[key]))
    && (forall key :: key in keys <==> key in pairs)
    && (forall i, j | 0 <= i < j < |keys| :: keys[i] != keys[j])
  }

  lemma EntryOfLine(host: Host, key: string, value: string)
    requires Sound(host) && GoodKey(host, key) && GoodValue(host, value)
    ensures EntryOf(host, LineOf(key, value)) == Some((key, value))
    ensures OneLine(host, LineOf(key, value))
  {
    var line := LineOf(key, value);
    assert line[0] == key[0] && line[|line| - 1] == if value == "" then '=' else value[|value| - 1];
    TrimmedStays(host.isSpace, line);
    assert line[|key|] == '=';
    IndexIs(key, '=', value);
    assert line[..|key|] == key && line[|key| + 1..] == value;
    TrimmedStays(host.isSpace, key);
    TrimmedStays(host.isSpace, value);
  }

  /** The new pairs win over the old ones where the file has them. */
  function OverriddenIn(old_: Pairs, pairs: Pairs): Pairs {
    map key | key in old_ :: if key in pairs then pairs[key] else old_[key]
  }

  lemma MergedEntry(host: Host, line: string, pairs: Pairs)
    requires Sound(host) && forall key <- pairs :: GoodKey(host, key) && GoodValue(host, pairs[key])
    ensures EntryOf(host, Merged(host, line, pairs)) == Override(EntryOf(host, line), pairs)
    ensures OneLine(host, line) ==> OneLine(host, Merged(host, line, pairs))
  {
    match EntryOf(host, line)
    case None =>
    case Some((key, _)) =>
      if key in pairs {
        EntryOfLine(host, key, pairs[key]);
      }
  }

  function Override(entry: Option<(string, string)>, pairs: Pairs): Option<(string, string)> {
    match entry
    case None => None
    case Some((key, value)) => Some((key, if key in pairs then pairs[key] else value))
  }

  lemma WithOverride(m: Pairs, entry: Option<(string, string)>, pairs: Pairs)
    ensures With(OverriddenIn(m, pairs), Override(entry, pairs)) == OverriddenIn(With(m, entry), pairs)
  {
  }

  lemma {:induction false} ReadMerged(host: Host, lines: seq<string>, pairs: Pairs)
    requires Sound(host) && forall key <- pairs :: GoodKey(host, key) && GoodValue(host, pairs[key])
    ensures ReadLines(host, MergedLines(host, lines, pairs)) == OverriddenIn(ReadLines(host, lines), pairs)
    decreases |lines|
  {
    if lines != [] {
      hide EntryOf, Merged, OverriddenIn, With, Override, GoodKey, GoodValue;
      var init, last := lines[..|lines| - 1], lines[|lines| - 1];
      ReadMerged(host, init, pairs);
      MergedEntry(host, last, pairs);
      assert MergedLines(host, lines, pairs)[..|lines| - 1] == MergedLines(host, init, pairs);
      WithOverride(ReadLines(host, init), EntryOf(host, last), pairs);
    }
  }

  /** The pairs of those of `keys` the file did not have. */
  function NewPairs(keys: seq<string>, pairs: Pairs, had: set<string>): Pairs {
    map key | key in keys && key !in had && key in pairs :: pairs[key]
  }

  lemma NewPairsStep(m: Pairs, keys: seq<string>, last: string, pairs: Pairs, had: set<string>)
    requires last in pairs
    ensures m + NewPairs(keys + [last], pairs, had)
            == if last in had then m + NewPairs(keys, pairs, had)
                else (m + NewPairs(keys, pairs, had))[last := pairs[last]]
  {
  }

  lemma ReadOneMore(host: Host, lines: seq<string>, line: string)
    ensures ReadLines(host, lines + [line]) == With(ReadLines(host, lines), EntryOf(host, line))
  {
    hide EntryOf, With;
    assert (lines + [line])[..|lines|] == lines;
  }

  lemma AppendedOneMore(lines: seq<string>, keys: seq<string>, last: string, pairs: Pairs, had: set<string>)
    requires (forall key <- keys :: key in pairs) && last in pairs
    ensures lines + Appended(keys + [last], pairs, had)
            == if last in had then lines + Appended(keys, pairs, had)
               else lines + Appended(keys, pairs, had) + [LineOf(last, pairs[last])]
  {
    hide LineOf;
    assert (keys + [last])[..|keys|] == keys;
  }

  lemma {:induction false} ReadAppended(host: Host, lines: seq<string>, keys: seq<string>, pairs: Pairs,
                                        had: set<string>)
    requires Sound(host) && forall key <- keys :: key in pairs && GoodKey(host, key) && GoodValue(host, pairs[key])
    ensures ReadLines(host, lines + Appended(keys, pairs, had)) == ReadLines(host, lines) + NewPairs(keys, pairs, had)
    decreases |keys|
  {
    if keys == [] {
      assert lines + Appended(keys, pairs, had) == lines;
      assert NewPairs(keys, pairs, had) == map[];
      return;
    }
    hide EntryOf, GoodKey, GoodValue, NewPairs, LineOf, ReadLines, Appended, Sound;
    var init, last := keys[..|keys| - 1], keys[|keys| - 1];
    assert keys == init + [last];
    ReadAppended(host, lines, init, pairs, had);
    NewPairsStep(ReadLines(host, lines), init, last, pairs, had);
    AppendedOneMore(lines, init, last, pairs, had);
    EntryOfLine(host, last, pairs[last]);
    ReadOneMore(host, lines + Appended(init, pairs, had), LineOf(last, pairs[last]));
  }

  lemma WriteLinesRead(host: Host, lines: seq<string>, pairs: Pairs, keys: seq<string>)
    requires Sound(host) && GoodPairs(host, pairs, keys)
    ensures ReadLines(host, WriteLines(host, lines, pairs, keys)) == ReadLines(host, lines) + pairs
  {
    hide GoodKey, GoodValue, EntryOf, Merged, ReadLines;
    ReadMerged(host, lines, pairs);
    ReadAppended(host, MergedLines(host, lines, pairs), keys, pairs, ReadLines(host, lines).Keys);
  }

  lemma {:induction false} AppendedOneLine(host: Host, keys: seq<string>, pairs: Pairs, had: set<string>)
    requires Sound(host) && forall key <- keys :: key in pairs && GoodKey(host, key) && GoodValue(host, pairs[key])
    ensures forall line <- Appended(keys, pairs, had) :: OneLine(host, line)
    decreases |keys|
  {
    if keys != [] {
      AppendedOneLine(host, keys[..|keys| - 1], pairs, had);
      EntryOfLine(host, keys[|keys| - 1], pairs[keys[|keys| - 1]]);
    }
  }

  lemma WriteLinesOneLine(host: Host, lines: seq<string>, pairs: Pairs, keys: seq<string>)
    requires Sound(host) && GoodPairs(host, pairs, keys) && forall line <- lines :: OneLine(host, line)
    ensures forall line <- WriteLines(host, lines, pairs, keys) :: OneLine(host, line)
  {
    AppendedOneLine(host, keys, pairs, ReadLines(host, lines).Keys);
    forall i | 0 <= i < |lines| ensures OneLine(host, MergedLines(host, lines, pairs)[i]) {
      MergedEntry(host, lines[i], pairs);
    }
  }

  lemma SplitWritten(host: Host, text: Option<string>, pairs: Pairs, keys: seq<string>)
    requires Sound(host) && GoodPairs(host, pairs, keys)
    ensures var lines := WriteLines(host, LinesOf(host, text), pairs, keys);
            SplitLines(host, WriteEnv(host, text, pairs, keys)) == if lines == [] then [""] else lines
  {
    var lines := WriteLines(host, LinesOf(host, text), pairs, keys);
    if text.Some? {
      LinesAreOneLine(host, text.value);
    }
    WriteLinesOneLine(host, LinesOf(host, text), pairs, keys);
    if lines == [] {
      assert Ended([""]) == "\n";
      SplitEnded(host, [""]);
    } else {
      SplitEnded(host, lines);
    }
  }

  /** Reading a file after a merge gives the old pairs overridden by the new. */
  lemma ReadAfterWrite(host: Host, text: Option<string>, pairs: Pairs, keys: seq<string>)
    requires Sound(host) && GoodPairs(host, pairs, keys)
    ensures ReadEnv(host, Some(WriteEnv(host, text, pairs, keys))) == ReadEnv(host, text) + pairs
  {
    SplitWritten(host, text, pairs, keys);
    WriteLinesRead(host, LinesOf(host, text), pairs, keys);
    assert ReadLines(host, [""]) == map[] by {
      assert EntryOf(host, "") == None;
      assert [""][..0] == [];
    }
  }

  lemma {:induction false} NothingAppended(keys: seq<string>, pairs: Pairs, had: set<string>)
    requires forall key <- keys :: key in pairs && key in had
    ensures Appended(keys, pairs, had) == []
    decreases |keys|
  {
    if keys != [] {
      NothingAppended(keys[..|keys| - 1], pairs, had);
    }
  }

  lemma MergedTwice(host: Host, line: string, pairs: Pairs)
    requires Sound(host) && forall key <- pairs :: GoodKey(host, key) && GoodValue(host, pairs[key])
    ensures Merged(host, Merged(host, line, pairs), pairs) == Merged(host, line, pairs)
  {
    MergedEntry(host, line, pairs);
  }

  lemma {:induction false} AppendedStay(host: Host, keys: seq<string>, pairs: Pairs, had: set<string>)
    requires Sound(host) && forall key <- keys :: key in pairs
    requires forall key <- pairs :: GoodKey(host, key) && GoodValue(host, pairs[key])
    ensures forall line <- Appended(keys, pairs, had) :: Merged(host, line, pairs) == line
    decreases |keys|
  {
    if keys != [] {
      AppendedStay(host, keys[..|keys| - 1], pairs, had);
      EntryOfLine(host, keys[|keys| - 1], pairs[keys[|keys| - 1]]);
    }
  }

  lemma WriteLinesTwice(host: Host, lines: seq<string>, pairs: Pairs, keys: seq<string>)
    requires Sound(host) && GoodPairs(host, pairs, keys)
    ensures var once := WriteLines(host, lines, pairs, keys); WriteLines(host, once, pairs, keys) == once
  {
    var once := WriteLines(host, lines, pairs, keys);
    WriteLinesRead(host, lines, pairs, keys);
    NothingAppended(keys, pairs, ReadLines(host, once).Keys);
    AppendedStay(host, keys, pairs, ReadLines(host, lines).Keys);
    forall i | 0 <= i < |once| ensures Merged(host, once[i], pairs) == once[i] {
      if i < |lines| {
        MergedTwice(host, lines[i], pairs);
      } else {
        assert once[i] in Appended(keys, pairs, ReadLines(host, lines).Keys);
      }
    }
  }

  /** A merge that leaves nothing had nothing to add, and one blank line takes none. */
  lemma NothingWritten(host: Host, lines: seq<string>, pairs: Pairs, keys: seq<string>)
    requires Sound(host) && GoodPairs(host, pairs, keys) && WriteLines(host, lines, pairs, keys) == []
    ensures WriteLines(host, [""], pairs, keys) == [""]
  {
    WriteLinesRead(host, lines, pairs, keys);
    assert forall key <- keys :: key in ReadLines(host, []);
    assert keys == [];
    assert EntryOf(host, "") == None;
  }

  /** Writing the same pairs again changes no character of the file. */
  lemma WriteTwice(host: Host, text: Option<string>, pairs: Pairs, keys: seq<string>)
    requires Sound(host) && GoodPairs(host, pairs, keys)
    ensures var once := WriteEnv(host, text, pairs, keys); WriteEnv(host, Some(once), pairs, keys) == once
  {
    hide GoodKey, GoodValue, EntryOf, Merged, ReadLines, WriteLines, SplitLines;
    var lines := WriteLines(host, LinesOf(host, text), pairs, keys);
    SplitWritten(host, text, pairs, keys);
    if lines == [] {
      NothingWritten(host, LinesOf(host, text), pairs, keys);
      assert Ended([""]) == "\n";
    } else {
      WriteLinesTwice(host, LinesOf(host, text), pairs, keys);
    }
  }

  lemma MergedOneMore(host: Host, lines: seq<string>, i: nat, pairs: Pairs)
    requires i < |lines|
    ensures MergedLines(host, lines[..i + 1], pairs)
            == MergedLines(host, lines[..i], pairs) + [Merged(host, lines[i], pairs)]
  {
    hide Merged;
  }

  lemma MergedNothing(host: Host, pairs: Pairs)
    ensures MergedLines(host, [], pairs) == []
  {
  }

  lemma {:induction false} SameAppended(keys: seq<string>, pairs: Pairs, a: set<string>, b: set<string>)
    requires (forall key <- keys :: key in pairs) && a == b * pairs.Keys
    ensures Appended(keys, pairs, a) == Appended(keys, pairs, b)
    decreases |keys|
  {
    if keys != [] {
      SameAppended(keys[..|keys| - 1], pairs, a, b);
      assert keys[|keys| - 1] in keys;
    }
  }

  // ----- the file, read and rewritten -----

  class DotEnv {
    const host: Host
    var text: Option<string>

    constructor (host: Host, text: Option<string>)
      ensures this.host == host && this.text == text
    {
      this.host, this.text := host, text;
    }

    method ReadFile() returns (pairs: Pairs)
      ensures pairs == ReadEnv(host, text)
    {
      pairs := map[];
      if text.None? {
        return;
      }
      var lines := SplitLines(host, text.value);
      for i := 0 to |lines|
        invariant pairs == ReadLines(host, lines[..i])
      {
        assert lines[..i + 1][..i] == lines[..i];
        var entry := EntryOf(host, lines[i]);
        if entry.Some? {
          pairs := pairs[entry.value.0 := entry.value.1];
        }
      }
      assert lines[..|lines|] == lines;
    }

    /** The lines with the keys they have updated in place, and which keys those are. */
    method MergeLines(lines: seq<string>, pairs: Pairs) returns (merged: seq<string>, updated: set<string>)
      ensures merged == MergedLines(host, lines, pairs)
      ensures updated == ReadLines(host, lines).Keys * pairs.Keys
    {
      hide EntryOf, LineOf, MergedLines;
      merged, updated := [], {};
      MergedNothing(host, pairs);
      for i := 0 to |lines|
        invariant merged == MergedLines(host, lines[..i], pairs)
        invariant updated == ReadLines(host, lines[..i]).Keys * pairs.Keys
      {
        assert lines[..i + 1][..i] == lines[..i];
        MergedOneMore(host, lines, i, pairs);
        var entry := EntryOf(host, lines[i]);
        if entry.Some? && entry.value.0 in pairs {
          merged := merged + [LineOf(entry.value.0, pairs[entry.value.0])];
          updated := updated + {entry.value.0};
        } else {
          merged := merged + [lines[i]];
        }
      }
      assert lines[..|lines|] == lines;
    }

    /** Lines for the keys not updated, in order. */
    method AppendLines(pairs: Pairs, keys: seq<string>, updated: set<string>) returns (lines: seq<string>)
      requires forall key <- keys :: key in pairs
      ensures lines == Appended(keys, pairs, updated)
    {
      lines := [];
      for j := 0 to |keys|
        invariant lines == Appended(keys[..j], pairs, updated)
      {
        assert keys[..j + 1][..j] == keys[..j];
        assert keys[j] in keys;
        if keys[j] !in updated {
          lines := lines + [LineOf(keys[j], pairs[keys[j]])];
        }
      }
      assert keys[..|keys|] == keys;
    }

    /** Merges the pairs into the file: keys it has are updated in place, others appended. */
    method WriteFile(pairs: Pairs, keys: seq<string>)
      requires forall key <- keys :: key in pairs
      modifies this`text
      ensures text == Some(WriteEnv(host, old(text), pairs, keys))
    {
      var lines := LinesOf(host, text);
      var merged, updated := MergeLines(lines, pairs);
      var appended := AppendLines(pairs, keys, updated);
      SameAppended(keys, pairs, updated, ReadLines(host, lines).Keys);
      text := Some(FileText(merged + appended));
    }
  }
}
