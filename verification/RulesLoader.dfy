/**
 Loading the classification rules (backend/app/policy/config.py): a file read on every
 call, parsed when its text changed, and kept at its last good version when it is bad.

 Main results: what a rules file must be to be accepted (`ParseRules`); over every
 sequence of loads and edits, the rules in force are a fresh parse of the last valid text,
 a bad file changes nothing (`RulesAreLastValid`), and every exception in force raises its
 rule's tier (`InForceOnlyRaise`); and listeners are told every text that notifying
 dispatch runs on, however many silent reads came between (`NothingUnannounced`).
*/
module Loading {
  import opened Wrappers
  import opened PolicyModel

  // ----- one rules file -----

  /** A yes-or-no field as written. */
  datatype Flag = Absent | Set(on: bool) | NotAFlag

  /** A rule and an exception as read from the file; a tier that is no tier is none. */
  datatype RawException = RawException(
    isMapping: bool,
    tier: Option<Tier>,
    when: seq<(string, Expected)>,
    unless: seq<(string, string)>,
    afterContent: Flag,
    afterPrivateRead: Flag)

  datatype RawRule = RawRule(
    isMapping: bool,
    pattern: string,
    tier: Option<Tier>,
    exceptions: seq<RawException>,
    reversible: Flag,
    readsPrivate: Flag)

  datatype ParseError =
    | NotAMapping(rule: nat)
    | NoPattern(rule: nat)
    | BadTier(rule: nat)
    | BadException(rule: nat, exception_: nat)
    | BadReversible(rule: nat)
    | BadReadsPrivate(rule: nat)

  function FlagValue(f: Flag): bool {
    f == Set(true)
  }

  function FlagLabel(f: Flag): Option<bool> {
    match f
    case Set(on) => Some(on)
    case _ => None
  }

  /** An exception that may stand on a rule of tier `tier`: it raises the tier, names
      only checks that exist, and applies on exactly one kind of condition. */
  predicate MayStand(host: Host, raw: RawException, tier: Tier) {
    && raw.isMapping && raw.tier.Some? && raw.tier.value > tier
    && (forall u <- raw.unless :: u.1 in host.checks)
    && !raw.afterContent.NotAFlag? && !raw.afterPrivateRead.NotAFlag?
    && ExactlyOne(raw.when != [] || raw.unless != [], FlagValue(raw.afterContent), FlagValue(raw.afterPrivateRead))
  }

  predicate ExactlyOne(a: bool, b: bool, c: bool) {
    (a && !b && !c) || (!a && b && !c) || (!a && !b && c)
  }

  function ExceptionOf(raw: RawException): RuleException
    requires raw.tier.Some?
  {
    RuleException(raw.tier.value, raw.when, raw.unless, FlagValue(raw.afterContent), FlagValue(raw.afterPrivateRead))
  }

  predicate WellWritten(host: Host, raw: RawRule) {
    && raw.isMapping && raw.pattern != "" && raw.tier.Some?
    && (forall e <- raw.exceptions :: MayStand(host, e, raw.tier.value))
    && !raw.reversible.NotAFlag? && !raw.readsPrivate.NotAFlag?
  }

  /** The rule is the one written, with its exceptions in order. */
  ghost predicate IsWritten(raw: RawRule, rule: Rule) {
    && rule.pattern == raw.pattern && raw.tier == Some(rule.tier)
    && |rule.exceptions| == |raw.exceptions|
    && (forall i | 0 <= i < |rule.exceptions| ::
        raw.exceptions[i].tier.Some? && rule.exceptions[i] == ExceptionOf(raw.exceptions[i]))
    && rule.reversible == FlagLabel(raw.reversible) && rule.readsPrivate == FlagLabel(raw.readsPrivate)
  }

  /** What a file's rules are read as, when it is accepted. */
  function RulesOf(host: Host, raws: seq<RawRule>): (r: Option<seq<Rule>>)
    ensures r.Some? ==> |r.value| == |raws| && forall i | 0 <= i < |raws| :: IsWritten(raws[i], r.value[i])
  {
    if forall raw <- raws :: WellWritten(host, raw)
    then Some(seq(|raws|, i requires 0 <= i < |raws| && WellWritten(host, raws[i]) => RuleOf(host, raws[i])))
    else None
  }

  function RuleOf(host: Host, raw: RawRule): (rule: Rule)
    requires WellWritten(host, raw)
    ensures IsWritten(raw, rule)
  {
    assert forall i | 0 <= i < |raw.exceptions| :: raw.exceptions[i] in raw.exceptions;
    var exceptions := seq(|raw.exceptions|, i requires 0 <= i < |raw.exceptions| && raw.exceptions[i].tier.Some? =>
                            ExceptionOf(raw.exceptions[i]));
    Rule(raw.pattern, raw.tier.value, exceptions, FlagLabel(raw.reversible), FlagLabel(raw.readsPrivate))
  }

  /** A rule is read in one way. */
  lemma WrittenOnce(raw: RawRule, a: Rule, b: Rule)
    requires IsWritten(raw, a) && IsWritten(raw, b)
    ensures a == b
  {
    assert a.exceptions == b.exceptions;
  }

  lemma AllWritten(host: Host, raws: seq<RawRule>, rules: seq<Rule>)
    requires |rules| == |raws| && forall i | 0 <= i < |raws| ::
               WellWritten(host, raws[i]) && IsWritten(raws[i], rules[i])
    ensures RulesOf(host, raws) == Some(rules)
  {
    hide WellWritten, IsWritten;
    assert forall raw <- raws :: WellWritten(host, raw);
    var read := RulesOf(host, raws).value;
    forall i | 0 <= i < |raws| ensures read[i] == rules[i] {
      WrittenOnce(raws[i], read[i], rules[i]);
    }
    assert read == rules;
  }

  method UnknownCheck(host: Host, unless: seq<(string, string)>) returns (unknown: bool)
    ensures unknown <==> exists u <- unless :: u.1 !in host.checks
  {
    for i := 0 to |unless|
      invariant forall j | 0 <= j < i :: unless[j].1 in host.checks
    {
      if unless[i].1 !in host.checks {
        return true;
      }
    }
    return false;
  }

  /** One exception, checked in the order the file's author is told of mistakes. */
  method ParseException(host: Host, raw: RawException, tier: Tier) returns (r: Option<RuleException>)
    ensures r.Some? <==> MayStand(host, raw, tier)
    ensures r.Some? ==> r.value == ExceptionOf(raw)
  {
    if !raw.isMapping || raw.tier.None? || raw.tier.value <= tier {
      return None;
    }
    var unknown := UnknownCheck(host, raw.unless);
    if unknown || raw.afterContent.NotAFlag? || raw.afterPrivateRead.NotAFlag? {
      return None;
    }
    var content, private := FlagValue(raw.afterContent), FlagValue(raw.afterPrivateRead);
    var onArguments := raw.when != [] || raw.unless != [];
    if content && private {
      return None;
    }
    if (content || private) && onArguments {
      return None;
    }
    if !(onArguments || content || private) {
      return None;
    }
    return Some(ExceptionOf(raw));
  }

  method ParseRule(host: Host, raw: RawRule, index: nat) returns (r: Result<Rule, ParseError>)
    ensures r.Ok? <==> WellWritten(host, raw)
    ensures r.Ok? ==> IsWritten(raw, r.value)
    ensures r.Err? ==> r.error.rule == index
  {
    if !raw.isMapping {
      return Err(NotAMapping(index));
    }
    if raw.pattern == "" {
      return Err(NoPattern(index));
    }
    if raw.tier.None? {
      return Err(BadTier(index));
    }
    var exceptions: seq<RuleException> := [];
    for i := 0 to |raw.exceptions|
      invariant |exceptions| == i
      invariant forall j | 0 <= j < i :: MayStand(host, raw.exceptions[j], raw.tier.value)
                                         && exceptions[j] == ExceptionOf(raw.exceptions[j])
    {
      var e := ParseException(host, raw.exceptions[i], raw.tier.value);
      if e.None? {
        return Err(BadException(index, i));
      }
      exceptions := exceptions + [e.value];
    }
    if raw.reversible.NotAFlag? {
      return Err(BadReversible(index));
    }
    if raw.readsPrivate.NotAFlag? {
      return Err(BadReadsPrivate(index));
    }
    return Ok(Rule(raw.pattern, raw.tier.value, exceptions, FlagLabel(raw.reversible), FlagLabel(raw.readsPrivate)));
  }

  /** A file is accepted exactly when every rule is well written, and then read as
      written; else the first rule that is not is named. */
  method ParseRules(host: Host, raws: seq<RawRule>) returns (r: Result<seq<Rule>, ParseError>)
    ensures RulesOf(host, raws) == if r.Ok? then Some(r.value) else None
    ensures r.Ok? <==> forall raw <- raws :: WellWritten(host, raw)
    ensures r.Ok? ==> |r.value| == |raws| && forall i | 0 <= i < |raws| :: IsWritten(raws[i], r.value[i])
    ensures r.Err? ==> r.error.rule < |raws| && !WellWritten(host, raws[r.error.rule])
                       && forall i | 0 <= i < r.error.rule :: WellWritten(host, raws[i])
  {
    var rules: seq<Rule> := [];
    for i := 0 to |raws|
      invariant |rules| == i
      invariant forall j | 0 <= j < i :: WellWritten(host, raws[j]) && IsWritten(raws[j], rules[j])
    {
      var rule := ParseRule(host, raws[i], i);
      if rule.Err? {
        assert !WellWritten(host, raws[i]);
        return Err(rule.error);
      }
      rules := rules + [rule.value];
    }
    AllWritten(host, raws, rules);
    return Ok(rules);
  }

  /** In an accepted file no exception can lower its rule's tier, and each has exactly
      one reason to apply. */
  lemma OnlyRaises(host: Host, raw: RawRule, rule: Rule, e: RuleException)
    requires WellWritten(host, raw) && IsWritten(raw, rule) && e in rule.exceptions
    ensures e.tier > rule.tier
    ensures e.afterContent || e.afterPrivateRead ==>
              e.when == [] && e.unless == [] && !(e.afterContent && e.afterPrivateRead)
    ensures ExactlyOne(e.when != [] || e.unless != [], e.afterContent, e.afterPrivateRead)
  {
    var i :| 0 <= i < |rule.exceptions| && rule.exceptions[i] == e;
    assert MayStand(host, raw.exceptions[i], rule.tier);
  }

  // ----- the loader -----

  /** What reading the file gives. */
  datatype Read = FileText(raw: string) | NotFound | NotReadable

  /** A text to the rules it lists, or nothing when it is malformed. */
  type Yaml = string -> Option<seq<RawRule>>

  /** A text to its rules, or nothing when it is malformed or refused. */
  type Parse = string -> Option<seq<Rule>>

  function ParseOf(host: Host, yaml: Yaml): Parse {
    (text: string) =>
      match yaml(text)
      case None => None
      case Some(raws) => RulesOf(host, raws)
  }

  /** The loader's memory: the last good text with its rules, the text listeners were
      last told about, and all they were ever told. */
  datatype Memory = Memory(good: Option<(string, seq<Rule>)>, notified: Option<string>, told: seq<string>)

  const FRESH := Memory(None, None, [])

  predicate IsValid(parse: Parse, read: Read) {
    read.FileText? && parse(read.raw).Some?
  }

  /** The memory after a load. */
  function Remember(parse: Parse, m: Memory, read: Read, notify: bool): Memory {
    if !IsValid(parse, read) then m
    else
      var loaded := m.(good := Some((read.raw, parse(read.raw).value)));
      if notify && m.notified != Some(read.raw)
      then loaded.(notified := Some(read.raw), told := m.told + [read.raw])
      else loaded
  }

  class ConfigLoader {
    const host: Host
    const yaml: Yaml
    var lastGood: RuleSet?
    var parsedText: Option<string>
    var notifiedText: Option<string>
    var told: seq<string>
    var failed: bool
    var keptPrevious: bool

    constructor (host: Host, yaml: Yaml)
      ensures this.host == host && this.yaml == yaml && Valid() && Contents() == FRESH
    {
      this.host, this.yaml := host, yaml;
      lastGood, parsedText, notifiedText, told := null, None, None, [];
      failed, keptPrevious := false, false;
    }

    /** The rules kept are those of the text they were parsed from. */
    ghost predicate Valid()
      reads this
    {
      match parsedText
      case None => lastGood == null
      case Some(text) => lastGood != null && ParseOf(host, yaml)(text) == Some(lastGood.rules) && !lastGood.unreadable
    }

    ghost function Contents(): Memory
      reads this
      requires Valid()
    {
      Memory(if parsedText.None? then None else Some((parsedText.value, lastGood.rules)), notifiedText, told)
    }

    /** The rules in force. A valid file's own; else the last good ones, unchanged; else
        none, and everything asks. The same set of rules as long as the text is the same. */
    method Load(read: Read, notify: bool) returns (ruleset: RuleSet)
      requires Valid()
      modifies this
      ensures Valid() && Contents() == Remember(ParseOf(host, yaml), old(Contents()), read, notify)
      ensures IsValid(ParseOf(host, yaml), read) ==>
                ParseOf(host, yaml)(read.raw) == Some(ruleset.rules) && !ruleset.unreadable
      ensures !IsValid(ParseOf(host, yaml), read) && old(lastGood) != null ==> ruleset == old(lastGood)
      ensures !IsValid(ParseOf(host, yaml), read) && old(lastGood) == null ==> ruleset.rules == [] && ruleset.unreadable
      ensures read.FileText? && old(parsedText) == Some(read.raw) ==> ruleset == old(lastGood)
      ensures failed == !IsValid(ParseOf(host, yaml), read) && keptPrevious == (failed && old(lastGood) != null)
    {
      if !read.FileText? {
        ruleset := Degrade();
        return;
      }
      if lastGood != null && parsedText == Some(read.raw) {
        ruleset := lastGood;
      } else {
        var raws := yaml(read.raw);
        if raws.None? {
          ruleset := Degrade();
          return;
        }
        var rules := ParseRules(host, raws.value);
        if rules.Err? {
          ruleset := Degrade();
          return;
        }
        ruleset := new RuleSet(rules.value, false);
        lastGood, parsedText := ruleset, Some(read.raw);
      }
      failed, keptPrevious := false, false;
      if notify && notifiedText != Some(read.raw) {
        notifiedText, told := Some(read.raw), told + [read.raw];
      }
    }

    /** A load that gave no new rules. */
    method Degrade() returns (ruleset: RuleSet)
      requires Valid()
      modifies this`failed, this`keptPrevious
      ensures Valid() && Contents() == old(Contents()) && failed && keptPrevious == (lastGood != null)
      ensures if lastGood != null then ruleset == lastGood else ruleset.rules == [] && ruleset.unreadable
    {
      failed, keptPrevious := true, lastGood != null;
      if lastGood != null {
        return lastGood;
      }
      ruleset := new RuleSet([], true);
    }
  }

  // ----- over every sequence of loads -----

  /** A load, with the file as it was then. */
  datatype Loading = Loading(read: Read, notify: bool)

  function After(parse: Parse, loads: seq<Loading>): Memory {
    if loads == [] then FRESH
    else
      var last := loads[|loads| - 1];
      Remember(parse, After(parse, loads[..|loads| - 1]), last.read, last.notify)
  }

  /** The text of the last load that found a valid file. */
  function LastValid(parse: Parse, loads: seq<Loading>): Option<string> {
    if loads == [] then None
    else
      var last := loads[|loads| - 1];
      if IsValid(parse, last.read) then Some(last.read.raw) else LastValid(parse, loads[..|loads| - 1])
  }

  /** The valid texts dispatch ran on, in order: silent loads are not dispatch. */
  function Dispatched(parse: Parse, loads: seq<Loading>): seq<string> {
    if loads == [] then []
    else
      var last := loads[|loads| - 1];
      Dispatched(parse, loads[..|loads| - 1]) + if last.notify && IsValid(parse, last.read) then [last.read.raw] else []
  }

  function LastOf(s: seq<string>): Option<string> {
    if s == [] then None else Some(s[|s| - 1])
  }

  /** The list with each run of one text said once. */
  function Changes(s: seq<string>): seq<string> {
    if s == [] then []
    else
      var init, last := s[..|s| - 1], s[|s| - 1];
      if LastOf(init) == Some(last) then Changes(init) else Changes(init) + [last]
  }

  lemma {:induction false} ChangesEnd(s: seq<string>)
    ensures LastOf(Changes(s)) == LastOf(s)
    decreases |s|
  {
    if s != [] {
      ChangesEnd(s[..|s| - 1]);
    }
  }

  /** Whatever was loaded and edited, the rules kept are a fresh parse of the last valid
      text, and there are none only if no text was ever valid. */
  lemma {:induction false} RulesAreLastValid(parse: Parse, loads: seq<Loading>)
    ensures match LastValid(parse, loads)
            case None => After(parse, loads).good == None
            case Some(text) => parse(text).Some? && After(parse, loads).good == Some((text, parse(text).value))
    decreases |loads|
  {
    if loads != [] {
      RulesAreLastValid(parse, loads[..|loads| - 1]);
    }
  }

  /** Whatever was loaded and edited, no exception of the rules kept can lower its rule's
      tier, and each has exactly one kind of reason to apply. */
  lemma InForceOnlyRaise(host: Host, yaml: Yaml, loads: seq<Loading>, rule: Rule, e: RuleException)
    requires var m := After(ParseOf(host, yaml), loads); m.good.Some? && rule in m.good.value.1 && e in rule.exceptions
    ensures e.tier > rule.tier
    ensures ExactlyOne(e.when != [] || e.unless != [], e.afterContent, e.afterPrivateRead)
  {
    RulesAreLastValid(ParseOf(host, yaml), loads);
    var (text, rules) := After(ParseOf(host, yaml), loads).good.value;
    AcceptedOnlyRaise(host, yaml(text).value, rules, rule, e);
  }

  lemma AcceptedOnlyRaise(host: Host, raws: seq<RawRule>, rules: seq<Rule>, rule: Rule, e: RuleException)
    requires RulesOf(host, raws) == Some(rules) && rule in rules && e in rule.exceptions
    ensures e.tier > rule.tier
    ensures ExactlyOne(e.when != [] || e.unless != [], e.afterContent, e.afterPrivateRead)
  {
    var k :| 0 <= k < |rules| && rules[k] == rule;
    OnlyRaises(host, raws[k], rule, e);
  }

  /** Listeners are told exactly the changes of the text dispatch ran on: each once, in
      order, and none lost to a silent load or a bad file in between. */
  lemma {:induction false} NothingUnannounced(parse: Parse, loads: seq<Loading>)
    ensures After(parse, loads).told == Changes(Dispatched(parse, loads))
    ensures After(parse, loads).notified == LastOf(Dispatched(parse, loads))
    decreases |loads|
  {
    if loads != [] {
      var init, last := loads[..|loads| - 1], loads[|loads| - 1];
      NothingUnannounced(parse, init);
      var before := Dispatched(parse, init);
      assert before + [] == before;
      if last.notify && IsValid(parse, last.read) {
        assert (before + [last.read.raw])[..|before|] == before;
      }
    }
  }

  /** After a notifying load of a valid file the last text announced is the one in force. */
  lemma AnnouncedInForce(parse: Parse, loads: seq<Loading>, text: string)
    requires parse(text).Some?
    ensures var m := After(parse, loads + [Loading(FileText(text), true)]);
            m.good == Some((text, parse(text).value)) && LastOf(m.told) == Some(text)
  {
    var all := loads + [Loading(FileText(text), true)];
    assert all[..|loads|] == loads;
    NothingUnannounced(parse, all);
    ChangesEnd(Dispatched(parse, all));
  }
}
