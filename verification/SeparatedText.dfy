/**
 Texts put together with separators, some of them left out, and when the whole still tells
 its parts: when no part holds a separator that may follow it (`JoinedFixes`).
*/
module SeparatedText {
  import opened Wrappers

  /** A text and the separator before it, or neither. */
  datatype Part = Part(before: string, text: Option<string>)

  function TextOf(part: Part): string {
    if part.text.Some? then part.before + part.text.value else ""
  }

  function Joined(parts: seq<Part>): string {
    if parts == [] then "" else TextOf(parts[0]) + Joined(parts[1..])
  }

  predicate At(s: string, i: int, sep: string) {
    0 <= i && i + |sep| <= |s| && s[i..i + |sep|] == sep
  }

  /** The text holds none of the separators. */
  ghost predicate Clear(s: string, seps: seq<string>) {
    forall i, k | 0 <= k < |seps| :: !At(s, i, seps[k])
  }

  /** No separator starts with another or holds another's first character further on. */
  ghost predicate Separators(seps: seq<string>) {
    && (forall k | 0 <= k < |seps| :: seps[k] != "")
    && (forall k, m, i | 0 <= k < |seps| && 0 <= m < |seps| && 0 < i < |seps[k]| && seps[m] != "" ::
        seps[k][i] != seps[m][0])
    && (forall k, m | 0 <= k < |seps| && 0 <= m < |seps| && k != m :: !At(seps[k], 0, seps[m]))
  }

  /** A separator that starts with one of these characters and holds no other of them. */
  predicate Marked(sep: string, marks: set<char>) {
    |sep| > 2 && sep[0] in marks && forall i | 0 < i < |sep| :: sep[i] !in marks
  }

  /** So marked, and different in their first or third character, they are separators. */
  lemma MarkedSeparate(seps: seq<string>, marks: set<char>)
    requires forall k | 0 <= k < |seps| :: Marked(seps[k], marks)
    requires forall k, m | 0 <= k < m < |seps| && |seps[k]| > 2 && |seps[m]| > 2 ::
               seps[k][0] != seps[m][0] || seps[k][2] != seps[m][2]
    ensures Separators(seps)
  {
    forall k, m | 0 <= k < |seps| && 0 <= m < |seps| && k != m ensures !At(seps[k], 0, seps[m]) {
      assert forall n: nat | n <= |seps[k]| && n > 2 ::
               seps[k][0..n][0] == seps[k][0] && seps[k][0..n][2] == seps[k][2];
    }
  }

  /** The parts go with these separators, and none holds one that may follow it. */
  ghost predicate Legible(parts: seq<Part>, seps: seq<string>) {
    |parts| == |seps|
    && forall k | 0 <= k < |parts| ::
         parts[k].before == seps[k] && (parts[k].text.Some? ==> Clear(parts[k].text.value, seps[k + 1..]))
  }

  ghost predicate Opens(s: string, seps: seq<string>) {
    s == "" || exists k :: 0 <= k < |seps| && At(s, 0, seps[k])
  }

  lemma {:induction false} JoinedOpens(parts: seq<Part>, seps: seq<string>)
    requires Legible(parts, seps)
    ensures Opens(Joined(parts), seps)
    decreases |parts|
  {
    if parts != [] {
      if parts[0].text.Some? {
        assert At(Joined(parts), 0, seps[0]);
      } else {
        LegibleTail(parts, seps);
        JoinedOpens(parts[1..], seps[1..]);
        if k :| 0 <= k < |seps[1..]| && At(Joined(parts[1..]), 0, seps[1..][k]) {
          assert Joined(parts) == Joined(parts[1..]) && seps[k + 1] == seps[1..][k];
        }
      }
    }
  }

  lemma LegibleTail(parts: seq<Part>, seps: seq<string>)
    requires parts != [] && Legible(parts, seps)
    ensures Legible(parts[1..], seps[1..])
  {
    forall k | 0 <= k < |parts| - 1
      ensures parts[1..][k].before == seps[1..][k]
      ensures parts[1..][k].text.Some? ==> Clear(parts[1..][k].text.value, seps[1..][k + 1..])
    {
      assert seps[1..][k + 1..] == seps[k + 2..];
      assert parts[1..][k] == parts[k + 1];
    }
  }

  lemma SeparatorsTail(seps: seq<string>)
    requires seps != [] && Separators(seps)
    ensures Separators(seps[1..])
  {
    forall k, m | 0 <= k < |seps[1..]| && 0 <= m < |seps[1..]| && k != m ensures !At(seps[1..][k], 0, seps[1..][m]) {
      assert !At(seps[k + 1], 0, seps[m + 1]);
    }
  }

  /** What starts within a separator starts with none. */
  lemma InsideSeparator(r: string, k: nat, over: nat, seps: seq<string>)
    requires Separators(seps) && k < |seps| && At(r, 0, seps[k]) && 0 < over < |seps[k]|
    ensures !Opens(r[over..], seps)
  {
    assert r[over..][0] == seps[k][over];
    assert forall m | 0 <= m < |seps| :: seps[m][0] != seps[k][over];
  }

  /** A text that holds no separator does not reach past the other's end. */
  lemma NoLonger(x: string, r: string, y: string, q: string, seps: seq<string>)
    requires Separators(seps) && Clear(y, seps) && Opens(r, seps) && Opens(q, seps) && x + r == y + q
    ensures |y| <= |x|
  {
    if |y| > |x| {
      var k :| 0 <= k < |seps| && At(r, 0, seps[k]);
      var over := |y| - |x|;
      assert q == (y + q)[|y|..] == r[over..];
      if over < |seps[k]| {
        InsideSeparator(r, k, over, seps);
      } else {
        assert y == (x + r)[..|y|] == x + r[..over];
        assert y[|x|..|x| + |seps[k]|] == r[..|seps[k]|];
        assert At(y, |x|, seps[k]);
      }
    }
  }

  lemma CutAtSeparator(x: string, r: string, y: string, q: string, seps: seq<string>)
    requires Separators(seps) && Clear(x, seps) && Clear(y, seps) && Opens(r, seps) && Opens(q, seps) && x + r == y + q
    ensures x == y && r == q
  {
    NoLonger(x, r, y, q, seps);
    NoLonger(y, q, x, r, seps);
    assert x == (x + r)[..|x|] == (y + q)[..|y|] == y;
    assert r == (x + r)[|x|..] == (y + q)[|y|..] == q;
  }

  lemma TwoStarts(s: string, a: string, b: string)
    requires At(s, 0, a) && At(s, 0, b)
    ensures At(a, 0, b) || At(b, 0, a)
  {
    if |a| <= |b| {
      assert b[0..|a|] == s[0..|a|];
    } else {
      assert a[0..|b|] == s[0..|b|];
    }
  }

  /** A part that is there is not taken for one that is not. */
  lemma PresentApart(first: string, rest: string, other: string, seps: seq<string>)
    requires seps != [] && Separators(seps) && first == seps[0] && Opens(other, seps[1..])
    ensures first + rest != other
  {
    if first + rest == other {
      var k :| 0 <= k < |seps[1..]| && At(other, 0, seps[1..][k]);
      assert seps[1..][k] == seps[k + 1];
      assert At(other, 0, first);
      TwoStarts(other, first, seps[k + 1]);
    }
  }

  lemma FirstPartFixes(p: Part, rp: string, q: Part, rq: string, seps: seq<string>)
    requires seps != [] && Separators(seps) && p.before == q.before == seps[0]
    requires (p.text.Some? ==> Clear(p.text.value, seps[1..])) && (q.text.Some? ==> Clear(q.text.value, seps[1..]))
    requires Opens(rp, seps[1..]) && Opens(rq, seps[1..])
    ensures TextOf(p) + rp == TextOf(q) + rq <==> p == q && rp == rq
  {
    hide Separators, Clear, Opens;
    SeparatorsTail(seps);
    var sep := seps[0];
    if p.text.Some? && q.text.Some? {
      var x, y := p.text.value, q.text.value;
      assert TextOf(p) + rp == sep + (x + rp) && TextOf(q) + rq == sep + (y + rq);
      assert x + rp == (sep + (x + rp))[|sep|..] && y + rq == (sep + (y + rq))[|sep|..];
      if x + rp == y + rq {
        CutAtSeparator(x, rp, y, rq, seps[1..]);
      }
    } else if p.text.Some? {
      assert TextOf(p) + rp == sep + (p.text.value + rp) && TextOf(q) + rq == rq;
      PresentApart(sep, p.text.value + rp, rq, seps);
    } else if q.text.Some? {
      assert TextOf(q) + rq == sep + (q.text.value + rq) && TextOf(p) + rp == rp;
      PresentApart(sep, q.text.value + rq, rp, seps);
    } else {
      assert TextOf(p) + rp == rp && TextOf(q) + rq == rq;
    }
  }

  /** Texts joined with separators tell their parts, when each part is legible. */
  lemma {:induction false} JoinedFixes(p: seq<Part>, q: seq<Part>, seps: seq<string>)
    requires Separators(seps) && Legible(p, seps) && Legible(q, seps)
    ensures Joined(p) == Joined(q) <==> p == q
    decreases |p|
  {
    if p != [] {
      LegibleTail(p, seps);
      LegibleTail(q, seps);
      SeparatorsTail(seps);
      JoinedOpens(p[1..], seps[1..]);
      JoinedOpens(q[1..], seps[1..]);
      hide Separators, Clear, Opens, TextOf;
      JoinedFixes(p[1..], q[1..], seps[1..]);
      FirstPartFixes(p[0], Joined(p[1..]), q[0], Joined(q[1..]), seps);
      assert p == [p[0]] + p[1..] && q == [q[0]] + q[1..];
    }
  }

  /** The same of parts after a text of no separator's own. */
  lemma TextThenJoined(x: string, p: seq<Part>, y: string, q: seq<Part>, seps: seq<string>)
    requires Separators(seps) && Legible(p, seps) && Legible(q, seps) && Clear(x, seps) && Clear(y, seps)
    ensures x + Joined(p) == y + Joined(q) <==> x == y && p == q
  {
    JoinedOpens(p, seps);
    JoinedOpens(q, seps);
    JoinedFixes(p, q, seps);
    if x + Joined(p) == y + Joined(q) {
      CutAtSeparator(x, Joined(p), y, Joined(q), seps);
    }
  }

  /** The words each after its separator. */
  function Parts(seps: seq<string>, words: seq<Option<string>>): seq<Part>
    requires |seps| == |words|
  {
    if seps == [] then [] else [Part(seps[0], words[0])] + Parts(seps[1..], words[1..])
  }

  lemma {:induction false} PartsFix(seps: seq<string>, a: seq<Option<string>>, b: seq<Option<string>>)
    requires |seps| == |a| == |b|
    ensures Parts(seps, a) == Parts(seps, b) <==> a == b
    decreases |seps|
  {
    if seps != [] {
      PartsFix(seps[1..], a[1..], b[1..]);
      assert a == [a[0]] + a[1..] && b == [b[0]] + b[1..];
      assert Parts(seps, a)[1..] == Parts(seps[1..], a[1..]) && Parts(seps, b)[1..] == Parts(seps[1..], b[1..]);
    }
  }

  function After(sep: string, word: Option<string>): string {
    if word.Some? then sep + word.value else ""
  }

  lemma JoinedParts(seps: seq<string>, words: seq<Option<string>>)
    requires seps != [] && |seps| == |words|
    ensures Joined(Parts(seps, words)) == After(seps[0], words[0]) + Joined(Parts(seps[1..], words[1..]))
  {
    var parts := Parts(seps, words);
    assert parts[1..] == Parts(seps[1..], words[1..]);
  }

  lemma JoinedOne(s: seq<string>, w: seq<Option<string>>)
    requires |s| == |w| == 1
    ensures Joined(Parts(s, w)) == After(s[0], w[0])
  {
    hide After, Joined;
    JoinedParts(s, w);
    NothingJoined();
    assert s[1..] == [] && w[1..] == [];
    assert After(s[0], w[0]) + "" == After(s[0], w[0]);
  }

  lemma JoinedThree(s: seq<string>, w: seq<Option<string>>)
    requires |s| == |w| == 3
    ensures Joined(Parts(s, w)) == After(s[0], w[0]) + (After(s[1], w[1]) + After(s[2], w[2]))
  {
    hide After, Joined, Parts;
    JoinedParts(s, w);
    JoinedParts(s[1..], w[1..]);
    JoinedOne(s[1..][1..], w[1..][1..]);
    assert s[1..][0] == s[1] && w[1..][0] == w[1] && s[1..][1..][0] == s[2] && w[1..][1..][0] == w[2];
  }

  lemma JoinedFour(s: seq<string>, w: seq<Option<string>>)
    requires |s| == |w| == 4
    ensures Joined(Parts(s, w)) == After(s[0], w[0]) + (After(s[1], w[1]) + (After(s[2], w[2]) + After(s[3], w[3])))
  {
    hide After, Joined, Parts;
    JoinedParts(s, w);
    JoinedThree(s[1..], w[1..]);
  }

  lemma NothingJoined()
    ensures Joined(Parts([], [])) == ""
  {
  }
}
