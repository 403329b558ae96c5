/**
 Long messages cut for Discord (backend/app/channels/discord.py): at the last newline
 that fits, or else at the limit, with the newlines at the cut dropped.

 Main results: a text is cut where one may cut it and nowhere else (`Split`, `OneSplit`);
 every chunk is 1 to 2000 characters, and the text is the chunks in order with only runs
 of newlines dropped at the cuts (`NothingElseDropped`).
*/
module SplitText {

  const LIMIT: nat := 2000

  /** The last newline among the first `n` characters; `n` when there is none. */
  function LastNewline(s: string, n: nat): (i: nat)
    requires n <= |s|
    ensures i <= n && (i < n ==> s[i] == '\n') && (forall j | 0 <= j < n && s[j] == '\n' :: i < n && j <= i)
  {
    if n == 0 then 0
    else if s[n - 1] == '\n' then n - 1
    else var i := LastNewline(s, n - 1); if i == n - 1 then n else i
  }

  predicate Newlines(s: string) {
    forall c <- s :: c == '\n'
  }

  /** How many newlines a text starts with. */
  function Leading(s: string): (n: nat)
    ensures n <= |s| && Newlines(s[..n]) && (n < |s| ==> s[n] != '\n')
  {
    if s == "" || s[0] != '\n' then 0
    else
      var n := Leading(s[1..]);
      assert s[..n + 1] == [s[0]] + s[1..][..n];
      n + 1
  }

  /** Where a chunk may end: at the last newline that fits; where there is none but at
      the start, at the limit; or at the end of what fits whole. */
  predicate MayCut(text: string, cut: nat) {
    && 0 < cut <= LIMIT && cut <= |text|
    && if |text| <= LIMIT then cut == |text|
       else if cut < LIMIT then text[cut] == '\n' && forall j | cut < j < LIMIT :: text[j] != '\n'
       else forall j | 0 < j < LIMIT :: text[j] != '\n'
  }

  /** What is left after a chunk, without the newlines it would start with. */
  function Rest(text: string, cut: nat): string
    requires cut <= |text|
  {
    text[cut..][Leading(text[cut..])..]
  }

  /** The chunks of a text, each a piece of it cut where one may be. */
  predicate IsSplit(text: string, chunks: seq<string>)
    decreases |chunks|
  {
    if text == "" then chunks == []
    else
      && chunks != [] && MayCut(text, |chunks[0]|) && text[..|chunks[0]|] == chunks[0]
      && IsSplit(Rest(text, |chunks[0]|), chunks[1..])
  }

  /** The chunks put back together, each with what was dropped after it. */
  function Joined(chunks: seq<string>, gaps: seq<string>): string
    requires |chunks| == |gaps|
  {
    if chunks == [] then "" else chunks[0] + gaps[0] + Joined(chunks[1..], gaps[1..])
  }

  /** Every chunk is 1 to 2000 characters, and only runs of newlines are lost between. */
  lemma {:induction false} NothingElseDropped(text: string, chunks: seq<string>) returns (gaps: seq<string>)
    requires IsSplit(text, chunks)
    ensures forall chunk <- chunks :: 0 < |chunk| <= LIMIT
    ensures |gaps| == |chunks| && Joined(chunks, gaps) == text && forall gap <- gaps :: Newlines(gap)
    decreases |chunks|
  {
    if text == "" {
      return [];
    }
    var n: nat := |chunks[0]|;
    var gap := text[n..][..Leading(text[n..])];
    var rest := NothingElseDropped(Rest(text, n), chunks[1..]);
    gaps := [gap] + rest;
    assert gaps[1..] == rest;
    assert text == chunks[0] + gap + Rest(text, n);
  }

  /** There is one way to split a text. */
  lemma {:induction false} OneSplit(text: string, a: seq<string>, b: seq<string>)
    requires IsSplit(text, a) && IsSplit(text, b)
    ensures a == b
    decreases |a|
  {
    if text != "" {
      assert |a[0]| == |b[0]|;
      OneSplit(Rest(text, |a[0]|), a[1..], b[1..]);
      assert a == [a[0]] + a[1..] && b == [b[0]] + b[1..];
    }
  }

  method Split(text: string) returns (chunks: seq<string>)
    ensures if text == "" then chunks == [""] else IsSplit(text, chunks)
  {
    if text == "" {
      return [""];
    }
    chunks := [];
    var remaining := text;
    forall tail | IsSplit(text, tail) ensures IsSplit(text, chunks + tail) {
      assert chunks + tail == tail;
    }
    while |remaining| > LIMIT
      invariant forall tail :: IsSplit(remaining, tail) ==> IsSplit(text, chunks + tail)
      decreases |remaining|
    {
      var cut: nat := LastNewline(remaining, LIMIT);
      if cut == 0 {
        cut := LIMIT;
      }
      var chunk := remaining[..cut];
      forall tail | IsSplit(Rest(remaining, cut), tail) ensures IsSplit(text, chunks + [chunk] + tail) {
        assert ([chunk] + tail)[1..] == tail;
        assert IsSplit(remaining, [chunk] + tail);
        assert chunks + [chunk] + tail == chunks + ([chunk] + tail);
      }
      chunks := chunks + [chunk];
      remaining := Rest(remaining, cut);
    }
    if remaining != "" {
      assert IsSplit(remaining, [remaining]);
      chunks := chunks + [remaining];
    } else {
      assert IsSplit(remaining, []);
      assert chunks + [] == chunks;
    }
  }
}
