/**
 How the ledger reads the words of a call (backend/app/ledger/service.py):
 normalised titles, close titles, short ids and the argument values of a change.

 What Python and SQL know about characters is a parameter (`Runtime`), so every
 result holds for every character table.
*/
module LedgerText {
  import opened TextTrim
  import opened Wrappers

  type RowId = nat

  /** A calendar day, by its ordinal. */
  type Date = int

  /** The text of a row's id (a random hex string in the source), by its number. */
  type Naming = RowId -> string

  /** The character and date tables of the host. */
  datatype Runtime = Runtime(
    isSpace: char -> bool,
    isWord: char -> bool,
    digit: char -> Option<nat>,
    lower: string -> string,
    sqlLower: string -> string,
    parseDate: string -> Option<Date>)

  /** A JSON argument: null, text, or anything else by what str() and truth say of it. */
  datatype Arg =
    | Null
    | Text(text: string)
    | Other(shown: string, truthy: bool, ownerKind: Option<string>, ownerRef: Option<string>)

  function Str(a: Arg): string {
    match a
    case Null => "None"
    case Text(t) => t
    case Other(shown, _, _, _) => shown
  }

  predicate Blank(a: Arg) {
    a == Null || a == Text("")
  }

  predicate Truthy(a: Arg) {
    match a
    case Null => false
    case Text(t) => t != ""
    case Other(_, truthy, _, _) => truthy
  }

  /** The whole words of `s`, in order, with `word` the one being read. */
  function WordsFrom(rt: Runtime, s: string, word: string): seq<string> {
    if s == "" then
      if word == "" then [] else [word]
    else if rt.isWord(s[0]) && !rt.isSpace(s[0]) then
      WordsFrom(rt, s[1..], word + [s[0]])
    else
      (if word == "" then [] else [word]) + WordsFrom(rt, s[1..], "")
  }

  /** A title as matched: its words, with case, punctuation and spacing ignored.
      The source joins them with one space each; the list is that text's words. */
  function Norm(rt: Runtime, s: string): seq<string> {
    WordsFrom(rt, rt.lower(s), "")
  }

  /** The words without a trailing "project", or none. */
  function WithoutProjectWord(words: seq<string>): seq<string> {
    if |words| > 1 && words[|words| - 1] == "project" then words[..|words| - 1] else []
  }

  const CLOSE_MIN := 3

  function TotalLength(words: seq<string>): nat {
    if words == [] then 0 else |words[0]| + TotalLength(words[1..])
  }

  /** A close title: every word of the key is a whole word of the title. */
  predicate Close(key: seq<string>, title: seq<string>) {
    TotalLength(key) >= CLOSE_MIN && forall w <- key :: w in title
  }

  function DigitsValue(rt: Runtime, s: string, acc: nat): Option<nat> {
    if s == "" then Some(acc)
    else match rt.digit(s[0])
      case None => None
      case Some(d) => DigitsValue(rt, s[1..], 10 * acc + d)
  }

  /** The number of a short id in any spelling ("T-3", "t3", "T - 3"), or none. */
  function ShortIdOf(rt: Runtime, s: string): Option<nat> {
    var key := Strip(rt.isSpace, s);
    if key == "" || (key[0] != 'T' && key[0] != 't') then None
    else
      var afterLetter := TrimLeft(rt.isSpace, key[1..]);
      var digits := if afterLetter != "" && afterLetter[0] == '-' then TrimLeft(rt.isSpace, afterLetter[1..])
          else afterLetter;
      if digits == "" then None else DigitsValue(rt, digits, 0)
  }
}
