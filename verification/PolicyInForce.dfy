/**
 One call decided (backend/app/policy/middleware.py, `_classify`): the rules file is loaded,
 whether private data was read is looked up only for tools some exception of theirs asks
 it of, and the call is classified.

 Main results: whatever was edited and loaded before, a call gets the highest tier the last
 valid rules ask for, and everything is asked about when no file was ever valid
 (`PolicyMiddleware.Decide`); not looking for private reads never changes a decision
 (`LookupNeverMissed`); and under rules that were loaded an exception applies exactly when
 it raises the tier (`RaisedIff`).
*/
module PolicyInForce {
  import opened Wrappers
  import opened PolicyModel
  import opened Classification
  import opened Loading

  /** Some rule that names the tool raises it after a private read. */
  predicate AsksOfPrivateReads(rules: seq<Rule>) {
    exists r <- rules, e <- r.exceptions :: e.afterPrivateRead
  }

  lemma {:induction false} RaisedUnasked(host: Host, rule: Rule, n: nat, args: Arguments, a: Turn, b: Turn)
    requires n <= |rule.exceptions| && a.afterContent == b.afterContent
    requires forall e <- rule.exceptions :: !e.afterPrivateRead
    ensures RaisedTier(host, rule, n, args, a) == RaisedTier(host, rule, n, args, b)
  {
    if n > 0 {
      RaisedUnasked(host, rule, n - 1, args, a, b);
      assert rule.exceptions[n - 1] in rule.exceptions;
    }
  }

  /** What a call is decided to be, given what led to it. */
  ghost predicate DecidedAs(host: Host, rules: seq<Rule>, name: string, args: Arguments, turn: Turn, hardened: bool,
                            d: Decision) {
    var found := MatchingRules(host, rules, name);
    if found == [] then d == Decision(UNKNOWN_TOOL_TIER, None, None, true)
    else
      && !d.refused && IsHighest(host, found, args, turn, RuntimeFloor(name, hardened), d.tier)
      && exists k :: Decides(host, found, args, turn, k, d.raisedBy) && d.decidingRule == Some(found[k])
  }

  /** Where no exception asks, whether private data was read decides nothing. */
  lemma LookupNeverMissed(host: Host, rules: seq<Rule>, name: string, args: Arguments, a: Turn, b: Turn, hardened: bool,
                          d: Decision)
    requires !AsksOfPrivateReads(MatchingRules(host, rules, name)) && a.afterContent == b.afterContent
    requires DecidedAs(host, rules, name, args, a, hardened, d)
    ensures DecidedAs(host, rules, name, args, b, hardened, d)
  {
    hide MatchingRules, RaisedTier;
    var found := MatchingRules(host, rules, name);
    if found != [] {
      forall r <- found ensures RaisedTier(host, r, |r.exceptions|, args, a)
          == RaisedTier(host, r, |r.exceptions|, args, b) {
        RaisedUnasked(host, r, |r.exceptions|, args, a, b);
      }
      var k :| Decides(host, found, args, a, k, d.raisedBy) && d.decidingRule == Some(found[k]);
      assert Decides(host, found, args, b, k, d.raisedBy);
      SameAsked(host, found, args, a, b, RuntimeFloor(name, hardened));
    }
  }

  lemma SameAsked(host: Host, rules: seq<Rule>, args: Arguments, a: Turn, b: Turn, floor: Option<Tier>)
    requires !AsksOfPrivateReads(rules) && a.afterContent == b.afterContent
    ensures forall t: Tier :: AskedBy(host, rules, args, a, floor, t) <==> AskedBy(host, rules, args, b, floor, t)
  {
    forall r: Rule, e: RuleException | r in rules && e in r.exceptions
      ensures Matches(host, e, args, a) <==> Matches(host, e, args, b)
    {
    }
  }

  /** Under rules that were loaded, a rule's tier is raised exactly when one of its
      exceptions applies. */
  lemma RaisedIff(host: Host, yaml: Yaml, loads: seq<Loading>, rule: Rule, args: Arguments, turn: Turn)
    requires var m := After(ParseOf(host, yaml), loads); m.good.Some? && rule in m.good.value.1
    ensures TierOf(host, rule, args, turn) > rule.tier <==> exists e <- rule.exceptions :: Matches(host, e, args, turn)
  {
    RaisedTierIsHighest(host, rule, |rule.exceptions|, args, turn);
    forall e <- rule.exceptions ensures e.tier > rule.tier {
      InForceOnlyRaise(host, yaml, loads, rule, e);
    }
  }

  class PolicyMiddleware {
    const loader: ConfigLoader
    const classifier: Classifier
    ghost var loads: seq<Loading>

    constructor (host: Host, yaml: Yaml)
      ensures Valid() && fresh(loader) && fresh(classifier) && loads == []
      ensures loader.host == host && loader.yaml == yaml
    {
      loader := new ConfigLoader(host, yaml);
      classifier := new Classifier(host);
      loads := [];
    }

    ghost predicate Valid()
      reads this, loader, classifier
    {
      && loader.Valid() && classifier.Valid() && loader.host == classifier.host
      && loader.Contents() == After(ParseOf(loader.host, loader.yaml), loads)
    }

    /** Whether some rule in force raises this tool after a private read. A tool without
        a name is none. */
    method IsOutbound(name: string, ruleset: RuleSet, id: int) returns (outbound: bool)
      requires classifier.Valid()
      modifies classifier
      ensures classifier.Valid()
      ensures outbound == (name != "" && !ruleset.unreadable
                           && AsksOfPrivateReads(MatchingRules(classifier.host, ruleset.rules, name)))
    {
      if name == "" || ruleset.unreadable {
        return false;
      }
      var rules := classifier.Candidates(name, ruleset, id);
      return AsksOfPrivateReads(rules);
    }

    /** One call, under the file as it reads now. */
    method Decide(read: Read, toolName: string, args: Arguments, id: int, turn: Turn, hardened: bool)
      returns (d: Decision)
      requires Valid()
      modifies this, loader, classifier
      ensures Valid() && loads == old(loads) + [Loading(read, true)]
      ensures var name := loader.host.canonical(toolName);
              var parse := ParseOf(loader.host, loader.yaml);
              match LastValid(parse, loads)
              case None => d == Decision(UNKNOWN_TOOL_TIER, None, None, false)
              case Some(text) =>
                && parse(text).Some?
                && (name != "" ==> DecidedAs(loader.host, parse(text).value, name, args, turn, hardened, d))
                && (name == "" ==>
                    DecidedAs(loader.host, parse(text).value, name, args, turn.(privateRead := false), hardened, d))
    {
      hide MatchingRules, AsksOfPrivateReads, IsHighest, Decides;
      loads := loads + [Loading(read, true)];
      RulesAreLastValid(ParseOf(loader.host, loader.yaml), loads);
      var ruleset := loader.Load(read, true);
      var name := classifier.host.canonical(toolName);
      var outbound := IsOutbound(name, ruleset, id);
      var seen := turn.(privateRead := outbound && turn.privateRead);
      d := classifier.Classify(toolName, args, ruleset, id, seen, hardened);
      NothingMatches(classifier.host, name);
      if !ruleset.unreadable && !outbound && name != "" {
        LookupNeverMissed(classifier.host, ruleset.rules, name, args, seen, turn, hardened, d);
      }
    }
  }

  lemma NothingMatches(host: Host, name: string)
    ensures MatchingRules(host, [], name) == []
  {
  }
}
