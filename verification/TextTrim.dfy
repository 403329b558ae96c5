/** Whitespace cut from the ends of a text; what counts as whitespace is a parameter. */
module TextTrim {

  function TrimLeft(isSpace: char -> bool, s: string): string {
    if s != "" && isSpace(s[0]) then TrimLeft(isSpace, s[1..]) else s
  }

  function TrimRight(isSpace: char -> bool, s: string): string {
    if s != "" && isSpace(s[|s| - 1]) then TrimRight(isSpace, s[..|s| - 1]) else s
  }

  function Strip(isSpace: char -> bool, s: string): string {
    TrimRight(isSpace, TrimLeft(isSpace, s))
  }

  /** Nothing to cut at either end. */
  predicate IsTrimmed(isSpace: char -> bool, s: string) {
    s != "" ==> !isSpace(s[0]) && !isSpace(s[|s| - 1])
  }

  lemma TrimmedStays(isSpace: char -> bool, s: string)
    requires IsTrimmed(isSpace, s)
    ensures Strip(isSpace, s) == s
  {
  }

  lemma {:induction false} TrimLeftShortens(isSpace: char -> bool, s: string)
    ensures |TrimLeft(isSpace, s)| <= |s|
    decreases |s|
  {
    if s != "" {
      TrimLeftShortens(isSpace, s[1..]);
    }
  }

  lemma {:induction false} TrimRightShortens(isSpace: char -> bool, s: string)
    ensures |TrimRight(isSpace, s)| <= |s|
    decreases |s|
  {
    if s != "" {
      TrimRightShortens(isSpace, s[..|s| - 1]);
    }
  }

  lemma StripShortens(isSpace: char -> bool, s: string)
    ensures |Strip(isSpace, s)| <= |s|
  {
    TrimLeftShortens(isSpace, s);
    TrimRightShortens(isSpace, TrimLeft(isSpace, s));
  }
}
