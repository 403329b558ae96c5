/**
 Deciding the tier of a call (backend/app/policy/classify.py).

 The rules are looked up through an index kept per rule set, and the highest tier among
 the rules that match, their applicable exceptions and the runtime floor is taken. Main
 results: for every history of the index, the rules found are the ones a linear scan of
 the file would find, in file order (`Classifier.Candidates`, `IndexIsLinear`); the tier is the
 maximum and the deciding rule the first to reach it (`Classifier.Classify`); and what led to the
 call can only raise it (`FlagsOnlyRaise`).
*/
module Classification {
  import opened Wrappers
  import opened PolicyModel

  // ----- glob patterns, as the standard library matches them -----

  datatype Token = Any | One | Class(text: string) | Literal(c: char)

  function FindClose(p: string, from: nat): (j: nat)
    requires from <= |p|
    ensures from <= j <= |p|
    ensures j < |p| ==> p[j] == ']'
    decreases |p| - from
  {
    if from == |p| || p[from] == ']' then from else FindClose(p, from + 1)
  }

  /** Where the class after a `[` ends: a `]` right at its start, or after a `!`, is
      part of it. */
  function ClassEnd(p: string): (j: nat)
    ensures j <= |p|
  {
    var i: nat := if p != "" && p[0] == '!' then 1 else 0;
    FindClose(p, if i < |p| && p[i] == ']' then i + 1 else i)
  }

  function Tokens(p: string): seq<Token>
    decreases |p|
  {
    if p == "" then []
    else if p[0] == '*' then [Any] + Tokens(p[1..])
    else if p[0] == '?' then [One] + Tokens(p[1..])
    else if p[0] == '[' then
      var end := ClassEnd(p[1..]);
      if end == |p[1..]| then [Literal('[')] + Tokens(p[1..])
      else [Class(p[1..][..end])] + Tokens(p[1..][end + 1..])
    else [Literal(p[0])] + Tokens(p[1..])
  }

  predicate TokensMatch(host: Host, tokens: seq<Token>, name: string)
    decreases |tokens| + |name|
  {
    if tokens == [] then name == ""
    else
      match tokens[0]
      case Any => TokensMatch(host, tokens[1..], name) || (name != "" && TokensMatch(host, tokens, name[1..]))
      case One => name != "" && TokensMatch(host, tokens[1..], name[1..])
      case Class(text) => name != "" && host.inClass(text, name[0]) && TokensMatch(host, tokens[1..], name[1..])
      case Literal(c) => name != "" && name[0] == c && TokensMatch(host, tokens[1..], name[1..])
  }

  predicate GlobMatches(host: Host, pattern: string, name: string) {
    TokensMatch(host, Tokens(pattern), name)
  }

  const GLOB_CHARS := {'*', '?', '['}

  predicate IsExact(pattern: string) {
    forall c <- pattern :: c !in GLOB_CHARS
  }

  /** A pattern with no glob character matches its own name and no other. */
  lemma {:induction false} ExactMatchesItself(host: Host, pattern: string, name: string)
    requires IsExact(pattern)
    ensures GlobMatches(host, pattern, name) <==> pattern == name
    decreases |pattern|
  {
    if pattern != "" {
      assert pattern[0] in pattern;
      assert Tokens(pattern)[1..] == Tokens(pattern[1..]);
      if name != "" {
        ExactMatchesItself(host, pattern[1..], name[1..]);
        assert pattern == [pattern[0]] + pattern[1..] && name == [name[0]] + name[1..];
      }
    }
  }

  // ----- the linear scan -----

  /** The positions, below `n`, of the rules whose pattern matches. */
  function Scan(host: Host, rules: seq<Rule>, n: nat, name: string): seq<nat>
    requires n <= |rules|
  {
    if n == 0 then []
    else Scan(host, rules, n - 1, name) +
         if GlobMatches(host, host.canonical(rules[n - 1].pattern), name) then [n - 1] else []
  }

  function AtPositions(rules: seq<Rule>, positions: seq<nat>): seq<Rule>
    requires forall i | 0 <= i < |positions| :: positions[i] < |rules|
  {
    seq(|positions|, i requires 0 <= i < |positions| => rules[positions[i]])
  }

  /** Every rule of the file whose pattern matches `name`, in file order. */
  function MatchingRules(host: Host, rules: seq<Rule>, name: string): seq<Rule> {
    ScanInRange(host, rules, name);
    AtPositions(rules, Scan(host, rules, |rules|, name))
  }

  ghost predicate Ascending(s: seq<nat>) {
    forall i, j | 0 <= i < j < |s| :: s[i] < s[j]
  }

  lemma AppendAscends(s: seq<nat>, x: nat)
    requires Ascending(s) && forall y <- s :: y < x
    ensures Ascending(s + [x])
    ensures forall y :: y in s + [x] <==> y in s || y == x
  {
    forall i, j | 0 <= i < j < |s + [x]| ensures (s + [x])[i] < (s + [x])[j] {
      assert s[i] in s;
    }
  }

  /** `s` is the positions below `n` that `keep` keeps, in order. */
  ghost predicate Kept(s: seq<nat>, n: nat, keep: nat -> bool) {
    Ascending(s) && forall p: nat :: p in s <==> p < n && keep(p)
  }

  lemma NoneKept(keep: nat -> bool)
    ensures Kept([], 0, keep)
  {
  }

  lemma KeptOneMore(s: seq<nat>, n: nat, keep: nat -> bool, s': seq<nat>)
    requires Kept(s, n, keep) && s' == s + if keep(n) then [n] else []
    ensures Kept(s', n + 1, keep)
  {
    if keep(n) {
      AppendAscends(s, n);
    } else {
      assert s' == s;
    }
  }

  ghost function Matching(host: Host, rules: seq<Rule>, name: string): nat -> bool {
    (p: nat) => p < |rules| && GlobMatches(host, host.canonical(rules[p].pattern), name)
  }

  lemma {:induction false} ScanKeeps(host: Host, rules: seq<Rule>, n: nat, name: string)
    requires n <= |rules|
    ensures Kept(Scan(host, rules, n, name), n, Matching(host, rules, name))
  {
    hide GlobMatches, Kept;
    NoneKept(Matching(host, rules, name));
    if n > 0 {
      ScanKeeps(host, rules, n - 1, name);
      KeptOneMore(Scan(host, rules, n - 1, name), n - 1, Matching(host, rules, name), Scan(host, rules, n, name));
    }
  }

  lemma ScanInRange(host: Host, rules: seq<Rule>, name: string)
    ensures forall i | 0 <= i < |Scan(host, rules, |rules|, name)| :: Scan(host, rules, |rules|, name)[i] < |rules|
  {
    hide GlobMatches, Scan;
    ScanKeeps(host, rules, |rules|, name);
    forall i | 0 <= i < |Scan(host, rules, |rules|, name)| ensures Scan(host, rules, |rules|, name)[i] < |rules| {
      assert Scan(host, rules, |rules|, name)[i] in Scan(host, rules, |rules|, name);
    }
  }

  // ----- the index -----

  /** The positions of exact patterns by pattern, and the globs with theirs. */
  datatype Entry = Entry(ruleset: RuleSet, exact: map<string, seq<nat>>, globs: seq<(nat, string)>)

  function Lookup(exact: map<string, seq<nat>>, name: string): seq<nat> {
    if name in exact then exact[name] else []
  }

  function ExactPositions(host: Host, rules: seq<Rule>, n: nat, name: string): seq<nat>
    requires n <= |rules|
  {
    if n == 0 then []
    else
      var pattern := host.canonical(rules[n - 1].pattern);
      ExactPositions(host, rules, n - 1, name) + if IsExact(pattern) && pattern == name then [n - 1] else []
  }

  function Globs(host: Host, rules: seq<Rule>, n: nat): seq<(nat, string)>
    requires n <= |rules|
  {
    if n == 0 then []
    else
      var pattern := host.canonical(rules[n - 1].pattern);
      Globs(host, rules, n - 1) + if IsExact(pattern) then [] else [(n - 1, pattern)]
  }

  ghost predicate Indexes(host: Host, rules: seq<Rule>, n: nat, exact: map<string, seq<nat>>, globs: seq<(nat, string)>)
    requires n <= |rules|
  {
    (forall name :: Lookup(exact, name) == ExactPositions(host, rules, n, name)) && globs == Globs(host, rules, n)
  }

  lemma EmptyIndexes(host: Host, rules: seq<Rule>)
    ensures Indexes(host, rules, 0, map[], [])
  {
  }

  lemma IndexOneMore(host: Host, rules: seq<Rule>, n: nat, exact: map<string, seq<nat>>, globs: seq<(nat, string)>)
    requires n < |rules| && Indexes(host, rules, n, exact, globs)
    ensures var pattern := host.canonical(rules[n].pattern);
            if IsExact(pattern) then Indexes(host, rules, n + 1, exact[pattern := Lookup(exact, pattern) + [n]], globs)
            else Indexes(host, rules, n + 1, exact, globs + [(n, pattern)])
  {
    hide IsExact;
    var pattern := host.canonical(rules[n].pattern);
    if IsExact(pattern) {
      var exact' := exact[pattern := Lookup(exact, pattern) + [n]];
      forall name ensures Lookup(exact', name) == ExactPositions(host, rules, n + 1, name) {
        assert Lookup(exact, name) == ExactPositions(host, rules, n, name);
      }
    } else {
      forall name ensures Lookup(exact, name) == ExactPositions(host, rules, n + 1, name) {
      }
    }
  }

  function Hits(host: Host, globs: seq<(nat, string)>, name: string): seq<nat> {
    if globs == [] then []
    else
      var last := globs[|globs| - 1];
      Hits(host, globs[..|globs| - 1], name) + if GlobMatches(host, last.1, name) then [last.0] else []
  }

  function Insert(s: seq<nat>, x: nat): seq<nat> {
    if s == [] || s[|s| - 1] <= x then s + [x] else Insert(s[..|s| - 1], x) + [s[|s| - 1]]
  }

  function Sorted(s: seq<nat>): seq<nat> {
    if s == [] then [] else Insert(Sorted(s[..|s| - 1]), s[|s| - 1])
  }

  lemma LastIsMost(init: seq<nat>, last: nat)
    requires Ascending(init + [last])
    ensures Ascending(init) && last !in init
    ensures forall y <- init :: y < last
  {
    var s := init + [last];
    assert Ascending(init) by {
      assert forall i | 0 <= i < |init| :: s[i] == init[i];
    }
    forall y <- init ensures y < last {
      var i :| 0 <= i < |init| && init[i] == y;
      assert s[i] < s[|init|];
    }
  }

  lemma {:induction false} InsertAscends(s: seq<nat>, x: nat)
    requires Ascending(s) && x !in s
    ensures Ascending(Insert(s, x))
    ensures forall y :: y in Insert(s, x) <==> y in s || y == x
    decreases |s|
  {
    if s == [] {
    } else {
      var init, last := s[..|s| - 1], s[|s| - 1];
      assert s == init + [last];
      LastIsMost(init, last);
      if last <= x {
        AppendAscends(s, x);
        return;
      }
      InsertAscends(init, x);
      AppendAscends(Insert(init, x), last);
    }
  }

  lemma {:induction false} SortedAscends(s: seq<nat>)
    requires forall i, j | 0 <= i < j < |s| :: s[i] != s[j]
    ensures Ascending(Sorted(s))
    ensures forall y :: y in Sorted(s) <==> y in s
    decreases |s|
  {
    if s != [] {
      var init, last := s[..|s| - 1], s[|s| - 1];
      SortedAscends(init);
      assert s == init + [last] && last !in init;
      InsertAscends(Sorted(init), last);
    }
  }

  ghost predicate SameMembers(a: seq<nat>, b: seq<nat>) {
    forall z :: z in a <==> z in b
  }

  lemma SameLast(a: seq<nat>, x: nat, b: seq<nat>, y: nat)
    requires Ascending(a + [x]) && Ascending(b + [y]) && SameMembers(a + [x], b + [y])
    ensures Ascending(a) && Ascending(b) && x == y && SameMembers(a, b)
  {
    LastIsMost(a, x);
    LastIsMost(b, y);
    AppendAscends(a, x);
    AppendAscends(b, y);
    hide Ascending;
  }

  /** There is one way to put numbers in ascending order. */
  lemma {:induction false} OneOrder(a: seq<nat>, b: seq<nat>)
    requires Ascending(a) && Ascending(b) && SameMembers(a, b)
    ensures a == b
    decreases |a|
  {
    assert (a != [] ==> a[0] in b) && (b != [] ==> b[0] in a);
    if a != [] && b != [] {
      hide Ascending, SameMembers;
      var a', x, b', y := a[..|a| - 1], a[|a| - 1], b[..|b| - 1], b[|b| - 1];
      assert a == a' + [x] && b == b' + [y];
      SameLast(a', x, b', y);
      OneOrder(a', b');
    }
  }

  /** The rule names `name` outright. */
  predicate Names(host: Host, rule: Rule, name: string) {
    IsExact(host.canonical(rule.pattern)) && host.canonical(rule.pattern) == name
  }

  /** The rule's glob covers `name`. */
  predicate Globbed(host: Host, rule: Rule, name: string) {
    !IsExact(host.canonical(rule.pattern)) && GlobMatches(host, host.canonical(rule.pattern), name)
  }

  ghost function Named(host: Host, rules: seq<Rule>, name: string): nat -> bool {
    (p: nat) => p < |rules| && Names(host, rules[p], name)
  }

  lemma {:induction false} ExactPositionsKeep(host: Host, rules: seq<Rule>, n: nat, name: string)
    requires n <= |rules|
    ensures Kept(ExactPositions(host, rules, n, name), n, Named(host, rules, name))
  {
    hide IsExact, Kept;
    NoneKept(Named(host, rules, name));
    if n > 0 {
      ExactPositionsKeep(host, rules, n - 1, name);
      KeptOneMore(ExactPositions(host, rules, n - 1, name), n - 1, Named(host, rules, name),
                  ExactPositions(host, rules, n, name));
    }
  }

  ghost function GlobNamed(host: Host, rules: seq<Rule>, name: string): nat -> bool {
    (p: nat) => p < |rules| && Globbed(host, rules[p], name)
  }

  lemma HitsOneMore(host: Host, rules: seq<Rule>, n: nat, name: string)
    requires n < |rules|
    ensures Hits(host, Globs(host, rules, n + 1), name)
            == Hits(host, Globs(host, rules, n), name) + if Globbed(host, rules[n], name) then [n] else []
  {
    hide GlobMatches, IsExact;
    var before := Globs(host, rules, n);
    if IsExact(host.canonical(rules[n].pattern)) {
      assert Globs(host, rules, n + 1) == before + [] == before;
    } else {
      assert Globs(host, rules, n + 1)[..|before|] == before;
    }
  }

  lemma {:induction false} HitsKeep(host: Host, rules: seq<Rule>, n: nat, name: string)
    requires n <= |rules|
    ensures Kept(Hits(host, Globs(host, rules, n), name), n, GlobNamed(host, rules, name))
  {
    hide Globbed, Kept;
    NoneKept(GlobNamed(host, rules, name));
    if n > 0 {
      hide Hits, Globs;
      HitsKeep(host, rules, n - 1, name);
      HitsOneMore(host, rules, n - 1, name);
      KeptOneMore(Hits(host, Globs(host, rules, n - 1), name), n - 1, GlobNamed(host, rules, name),
                  Hits(host, Globs(host, rules, n), name));
    }
  }

  /** The index finds what the linear scan finds: the same rules, in file order, each once. */
  lemma IndexIsLinear(host: Host, rules: seq<Rule>, exact: map<string, seq<nat>>, globs: seq<(nat, string)>,
                      name: string)
    requires Indexes(host, rules, |rules|, exact, globs)
    ensures Sorted(Lookup(exact, name) + Hits(host, globs, name)) == Scan(host, rules, |rules|, name)
  {
    hide GlobMatches, IsExact, ExactPositions, Hits, Globs, Scan, Sorted;
    var named, hits, scan := Lookup(exact, name), Hits(host, globs, name), Scan(host, rules, |rules|, name);
    ExactPositionsKeep(host, rules, |rules|, name);
    HitsKeep(host, rules, |rules|, name);
    ScanKeeps(host, rules, |rules|, name);
    forall i, j | 0 <= i < j < |named + hits| ensures (named + hits)[i] != (named + hits)[j] {
      if i < |named| <= j {
        assert named[i] in named && hits[j - |named|] in hits;
      }
    }
    SortedAscends(named + hits);
    forall p: nat ensures p in Sorted(named + hits) <==> p in scan {
      if p < |rules| {
        NamesOrGlobs(host, rules[p], name);
      }
    }
    OneOrder(Sorted(named + hits), scan);
  }

  lemma NamesOrGlobs(host: Host, rule: Rule, name: string)
    ensures Names(host, rule, name) || Globbed(host, rule, name)
            <==> GlobMatches(host, host.canonical(rule.pattern), name)
  {
    if IsExact(host.canonical(rule.pattern)) {
      ExactMatchesItself(host, host.canonical(rule.pattern), name);
    }
  }

  // ----- the decision -----

  const UNKNOWN_TOOL_TIER: Tier := 3

  datatype Decision = Decision(tier: Tier, decidingRule: Option<Rule>, raisedBy: Option<RuleException>, refused: bool)

  /** The tier of the first `n` exceptions of a rule, and the one that set it. */
  function RaisedTier(host: Host, rule: Rule, n: nat, args: Arguments, turn: Turn): (Tier, Option<RuleException>)
    requires n <= |rule.exceptions|
  {
    if n == 0 then (rule.tier, None)
    else
      var so := RaisedTier(host, rule, n - 1, args, turn);
      var e := rule.exceptions[n - 1];
      if Matches(host, e, args, turn) && e.tier > so.0 then (e.tier, Some(e)) else so
  }

  function TierOf(host: Host, rule: Rule, args: Arguments, turn: Turn): Tier {
    RaisedTier(host, rule, |rule.exceptions|, args, turn).0
  }

  /** A tier that holds only where the tool runs. */
  function RuntimeFloor(name: string, hardened: bool): Option<Tier> {
    if name == "bash" && !hardened then Some(3) else None
  }

  /** A tier some part of the policy asks of the call: a rule's own, an applicable
      exception's, or the floor. */
  ghost predicate AskedBy(host: Host, rules: seq<Rule>, args: Arguments, turn: Turn, floor: Option<Tier>, t: Tier) {
    || (exists r <- rules :: r.tier == t)
    || (exists r <- rules, e <- r.exceptions :: Matches(host, e, args, turn) && e.tier == t)
    || floor == Some(t)
  }

  /** The highest tier anything asks for. */
  ghost predicate IsHighest(host: Host, rules: seq<Rule>, args: Arguments, turn: Turn, floor: Option<Tier>,
                            tier: Tier) {
    AskedBy(host, rules, args, turn, floor, tier)
    && forall t: Tier | AskedBy(host, rules, args, turn, floor, t) :: t <= tier
  }

  /** The first rule to reach the highest tier, with the exception that took it there. */
  ghost predicate Decides(host: Host, rules: seq<Rule>, args: Arguments, turn: Turn, k: int,
                          raisedBy: Option<RuleException>) {
    && 0 <= k < |rules|
    && (forall j | 0 <= j < |rules| :: TierOf(host, rules[j], args, turn) <= TierOf(host, rules[k], args, turn))
    && (forall j | 0 <= j < k :: TierOf(host, rules[j], args, turn) < TierOf(host, rules[k], args, turn))
    && raisedBy == RaisedTier(host, rules[k], |rules[k].exceptions|, args, turn).1
  }

  lemma {:induction false} RaisedTierIsHighest(host: Host, rule: Rule, n: nat, args: Arguments, turn: Turn)
    requires n <= |rule.exceptions|
    ensures var (tier, raiser) := RaisedTier(host, rule, n, args, turn);
            && tier >= rule.tier
            && (forall i | 0 <= i < n && Matches(host, rule.exceptions[i], args, turn) ::
                rule.exceptions[i].tier <= tier)
            && (raiser.None? ==> tier == rule.tier)
            && (raiser.Some? ==> raiser.value in rule.exceptions && Matches(host, raiser.value, args, turn)
                                 && raiser.value.tier == tier > rule.tier)
  {
    if n > 0 {
      RaisedTierIsHighest(host, rule, n - 1, args, turn);
    }
  }

  /** What decides, decides on the highest tier of all. */
  lemma DecidesHighest(host: Host, rules: seq<Rule>, args: Arguments, turn: Turn, k: int,
                       raisedBy: Option<RuleException>,
                       floor: Option<Tier>)
    requires Decides(host, rules, args, turn, k, raisedBy)
    ensures var tier := TierOf(host, rules[k], args, turn);
            IsHighest(host, rules, args, turn, floor, if floor.Some? && floor.value > tier then floor.value else tier)
  {
    var tier := TierOf(host, rules[k], args, turn);
    RaisedTierIsHighest(host, rules[k], |rules[k].exceptions|, args, turn);
    forall r <- rules ensures r.tier <= tier
      ensures forall e <- r.exceptions | Matches(host, e, args, turn) :: e.tier <= tier
    {
      var j :| 0 <= j < |rules| && rules[j] == r;
      RaisedTierIsHighest(host, r, |r.exceptions|, args, turn);
      assert TierOf(host, rules[j], args, turn) <= tier;
    }
  }

  ghost predicate NoLower(a: Turn, b: Turn) {
    (a.afterContent ==> b.afterContent) && (a.privateRead ==> b.privateRead)
  }

  /** Having read content, or private data, never lowers a call's tier. */
  lemma FlagsOnlyRaise(host: Host, rules: seq<Rule>, args: Arguments, floor: Option<Tier>, a: Turn, b: Turn, low: Tier,
                       high: Tier)
    requires NoLower(a, b)
    requires IsHighest(host, rules, args, a, floor, low) && IsHighest(host, rules, args, b, floor, high)
    ensures low <= high
  {
    assert AskedBy(host, rules, args, a, floor, low);
    assert AskedBy(host, rules, args, b, floor, low) by {
      if r: Rule, e: RuleException :| r in rules && e in r.exceptions && Matches(host, e, args, a) && e.tier == low {
        assert Matches(host, e, args, b);
      }
    }
  }

  class Classifier {
    const host: Host
    var index: map<int, Entry>

    constructor (host: Host)
      ensures this.host == host && Valid() && index == map[]
    {
      this.host := host;
      index := map[];
    }

    /** Every entry indexes the rule set it holds, and there are never more than 33. */
    ghost predicate Valid()
      reads this
    {
      && (forall key <- index :: var e := index[key];
          Indexes(host, e.ruleset.rules, |e.ruleset.rules|, e.exact, e.globs))
      && |index| <= 33
    }

    /** The rules sorted into exact patterns and globs. */
    method BuildEntry(ruleset: RuleSet) returns (e: Entry)
      ensures e.ruleset == ruleset && Indexes(host, ruleset.rules, |ruleset.rules|, e.exact, e.globs)
    {
      hide IsExact, Indexes;
      EmptyIndexes(host, ruleset.rules);
      var exact: map<string, seq<nat>> := map[];
      var globs: seq<(nat, string)> := [];
      var position := 0;
      while position < |ruleset.rules|
        invariant position <= |ruleset.rules|
        invariant Indexes(host, ruleset.rules, position, exact, globs)
      {
        IndexOneMore(host, ruleset.rules, position, exact, globs);
        var pattern := host.canonical(ruleset.rules[position].pattern);
        if IsExact(pattern) {
          exact := exact[pattern := Lookup(exact, pattern) + [position]];
        } else {
          globs := globs + [(position, pattern)];
        }
        position := position + 1;
      }
      return Entry(ruleset, exact, globs);
    }

    /** The rules that match, through the index. `id` is the number the process gives
        the rule set; nothing is assumed of it, not even that two sets differ in it. */
    method Candidates(name: string, ruleset: RuleSet, id: int) returns (found: seq<Rule>)
      requires Valid()
      modifies this
      ensures Valid()
      ensures found == MatchingRules(host, ruleset.rules, name)
      ensures id in index && index[id].ruleset == ruleset
    {
      var entry: Entry;
      if id in index && index[id].ruleset == ruleset {
        entry := index[id];
      } else {
        entry := BuildEntry(ruleset);
        if |index| > 32 {
          index := map[];
        }
        index := index[id := entry];
      }
      IndexIsLinear(host, ruleset.rules, entry.exact, entry.globs, name);
      ScanInRange(host, ruleset.rules, name);
      return AtPositions(ruleset.rules, Sorted(Lookup(entry.exact, name) + Hits(host, entry.globs, name)));
    }

    method Raised(rule: Rule, args: Arguments, turn: Turn) returns (tier: Tier, raisedBy: Option<RuleException>)
      ensures (tier, raisedBy) == RaisedTier(host, rule, |rule.exceptions|, args, turn)
    {
      tier, raisedBy := rule.tier, None;
      for i := 0 to |rule.exceptions|
        invariant (tier, raisedBy) == RaisedTier(host, rule, i, args, turn)
      {
        var e := rule.exceptions[i];
        if Matches(host, e, args, turn) && e.tier > tier {
          tier, raisedBy := e.tier, Some(e);
        }
      }
    }

    /** The first rule to reach the highest tier. */
    method Highest(rules: seq<Rule>, args: Arguments, turn: Turn)
      returns (best: Tier, k: nat, raisedBy: Option<RuleException>)
      requires rules != []
      ensures k < |rules| && Decides(host, rules, args, turn, k, raisedBy) && best == TierOf(host, rules[k], args, turn)
    {
      hide RaisedTier;
      best, raisedBy := Raised(rules[0], args, turn);
      k := 0;
      var i := 1;
      while i < |rules|
        invariant 1 <= i <= |rules|
        invariant k < i && Decides(host, rules[..i], args, turn, k, raisedBy)
                  && best == TierOf(host, rules[k], args, turn)
      {
        var tier, raiser := Raised(rules[i], args, turn);
        if tier > best {
          best, k, raisedBy := tier, i, raiser;
        }
        i := i + 1;
      }
      assert rules[..i] == rules;
    }

    /** The decision on one call. `hardened` says whether bash runs in the
        hardened sandbox. */
    method Classify(toolName: string, args: Arguments, ruleset: RuleSet, id: int, turn: Turn, hardened: bool)
      returns (d: Decision)
      requires Valid()
      modifies this
      ensures Valid()
      ensures var rules := MatchingRules(host, ruleset.rules, host.canonical(toolName));
              if rules == [] then d == Decision(UNKNOWN_TOOL_TIER, None, None, !ruleset.unreadable)
              else
                && !d.refused && IsHighest(host, rules, args, turn, RuntimeFloor(host.canonical(toolName), hardened),
                                           d.tier)
                && exists k :: Decides(host, rules, args, turn, k, d.raisedBy) && d.decidingRule == Some(rules[k])
    {
      hide MatchingRules, RaisedTier, IsHighest, Decides;
      var rules := Candidates(host.canonical(toolName), ruleset, id);
      if rules == [] {
        return Decision(UNKNOWN_TOOL_TIER, None, None, !ruleset.unreadable);
      }
      var best, k, raisedBy := Highest(rules, args, turn);
      var floor := RuntimeFloor(host.canonical(toolName), hardened);
      DecidesHighest(host, rules, args, turn, k, raisedBy, floor);
      if floor.Some? && floor.value > best {
        return Decision(floor.value, Some(rules[k]), raisedBy, false);
      }
      return Decision(best, Some(rules[k]), raisedBy, false);
    }
  }
}
