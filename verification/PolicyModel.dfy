/**
 The entities of the permission policy (backend/app/policy/models.py): tiers, rules and
 their exceptions. What the process knows of characters and of argument values is a
 parameter (`Host`).
*/
module PolicyModel {
  import opened Wrappers

  type Tier = t: int | 1 <= t <= 3 witness 1

  /** An argument of a call; what a missing one reads as is `Host.none`. */
  type Value(==, !new, 0)

  type Arguments = map<string, Value>

  datatype Expected = Exactly(value: Value) | OneOf(values: seq<Value>)

  /** An exception to a rule: on named argument values, unless named safety checks
      pass, after content was read, or after private data was. */
  datatype RuleException = RuleException(
    tier: Tier,
    when: seq<(string, Expected)>,
    unless: seq<(string, string)>,
    afterContent: bool,
    afterPrivateRead: bool)

  datatype Rule = Rule(pattern: string, tier: Tier, exceptions: seq<RuleException>, reversible: Option<bool>,
                       readsPrivate: Option<bool>)

  /** A set of rules, compared by identity: it never changes once made. */
  class RuleSet {
    const rules: seq<Rule>
    const unreadable: bool

    constructor (rules: seq<Rule>, unreadable: bool)
      ensures this.rules == rules && this.unreadable == unreadable
    {
      this.rules, this.unreadable := rules, unreadable;
    }
  }

  /** `equal` is the language's equality of values; `safe` says whether a named check
      establishes that a value is safe (false where it fails); `inClass` whether the
      text between two brackets of a pattern stands for a character. */
  datatype Host = Host(
    canonical: string -> string,
    inClass: (string, char) -> bool,
    none: Value,
    equal: (Value, Value) -> bool,
    checks: set<string>,
    safe: (string, Value) -> bool)

  /** What led to a call: content somebody else wrote, private data read before it. */
  datatype Turn = Turn(afterContent: bool, privateRead: bool)

  predicate Meets(host: Host, args: Arguments, key: string, expected: Expected) {
    var actual := if key in args then args[key] else host.none;
    match expected
    case Exactly(value) => host.equal(actual, value)
    case OneOf(values) => exists v <- values :: host.equal(actual, v)
  }

  /** The named check does not exist, has no argument to look at, or does not pass. */
  predicate Unsafe(host: Host, args: Arguments, key: string, check: string) {
    check !in host.checks || key !in args || !host.safe(check, args[key])
  }

  /** Whether an exception applies to a call. */
  predicate Matches(host: Host, e: RuleException, args: Arguments, turn: Turn) {
    if e.afterPrivateRead then turn.privateRead
    else if e.afterContent then turn.afterContent
    else
      && (forall w <- e.when :: Meets(host, args, w.0, w.1))
      && ((exists u <- e.unless :: Unsafe(host, args, u.0, u.1)) || e.when != [])
  }
}
