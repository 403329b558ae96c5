/**
 Who owns the install (backend/app/gateway/ownership.py): the first account and the row
 that claims it are written in one transaction, and an older install is pinned at startup.

 A state machine of single transactions, by any number of registrations and startups at
 once, with accounts enabled and disabled in between. Main results, for every run: one
 claim at most is ever committed (`ClaimedOnce`); a fresh install has at most one account,
 the claimed one (`FreshInstallHasOne`); and from the claim on the owner is that account
 while it is enabled, and nobody otherwise (`OwnerStays`).
*/
module Ownership {
  import opened Wrappers

  type AccountId = nat
  type Process = nat

  datatype Account = Account(created: int, disabled: bool)

  type Accounts = map<AccountId, Account>

  /** What a registration or a startup pin has done so far. */
  datatype Work = Registering(id: AccountId) | PinLooking | Pinning(owner: AccountId)

  /** The accounts and the claim row; and, of the past, every claim committed. */
  datatype State = State(accounts: Accounts, claim: Option<AccountId>, work: map<Process, Work>, claims: seq<AccountId>)

  datatype Action =
    | StartRegistering(p: Process, id: AccountId)
    | CommitFirstAccount(p: Process, created: int, fails: bool)
    | StartPinning(p: Process)
    | ResolveForPin(p: Process, env: Option<AccountId>, owner: Option<AccountId>)
    | CommitPin(p: Process)
    | SetDisabled(id: AccountId, disabled: bool)
    | Crash(p: Process)

  // ----- who the owner is -----

  predicate Enabled(accounts: Accounts, id: AccountId) {
    id in accounts && !accounts[id].disabled
  }

  /** Created before, or at the same time with a lower id. */
  predicate NotAfter(accounts: Accounts, a: AccountId, b: AccountId)
    requires a in accounts && b in accounts
  {
    accounts[a].created < accounts[b].created || (accounts[a].created == accounts[b].created && a <= b)
  }

  predicate IsEarliest(accounts: Accounts, id: AccountId) {
    Enabled(accounts, id) && forall other <- accounts | !accounts[other].disabled :: NotAfter(accounts, id, other)
  }

  /** The resolved owner: the account named by the environment, else by the claim, if it
      is enabled; else, with neither, the earliest enabled account. */
  predicate IsOwner(s: State, env: Option<AccountId>, owner: Option<AccountId>) {
    var named := if env.Some? then env else s.claim;
    match named
    case Some(id) => owner == if Enabled(s.accounts, id) then Some(id) else None
    case None =>
      match owner
      case Some(id) => IsEarliest(s.accounts, id)
      case None => forall id <- s.accounts :: s.accounts[id].disabled
  }

  /** There is one answer. */
  lemma OneOwner(s: State, env: Option<AccountId>, a: Option<AccountId>, b: Option<AccountId>)
    requires IsOwner(s, env, a) && IsOwner(s, env, b)
    ensures a == b
  {
    if a.Some? && b.Some? && env.None? && s.claim.None? {
      assert NotAfter(s.accounts, a.value, b.value) && NotAfter(s.accounts, b.value, a.value);
    }
  }

  lemma {:induction false} SomeEarliest(accounts: Accounts, among: set<AccountId>) returns (id: AccountId)
    requires among != {} && forall a <- among :: a in accounts
    ensures id in among && forall other <- among :: NotAfter(accounts, id, other)
    decreases |among|
  {
    var one: AccountId :| one in among;
    var rest := among - {one};
    assert forall other <- among :: other == one || other in rest;
    id := one;
    if rest != {} {
      var first := SomeEarliest(accounts, rest);
      if NotAfter(accounts, first, one) {
        id := first;
      }
    }
  }

  /** And there always is one. */
  lemma AnOwner(s: State, env: Option<AccountId>) returns (owner: Option<AccountId>)
    ensures IsOwner(s, env, owner)
  {
    var named := if env.Some? then env else s.claim;
    var enabled := set id | id in s.accounts && !s.accounts[id].disabled;
    if named.Some? {
      return if Enabled(s.accounts, named.value) then named else None;
    }
    if enabled == {} {
      assert forall id <- s.accounts :: !s.accounts[id].disabled ==> id in enabled;
      return None;
    }
    var first := SomeEarliest(s.accounts, enabled);
    assert forall other <- s.accounts | !s.accounts[other].disabled :: other in enabled;
    return Some(first);
  }

  // ----- one transaction -----

  function Act(s: State, a: Action): State {
    match a
    case StartRegistering(p, id) =>
      if p in s.work || s.accounts != map[] || id in s.accounts then s else s.(work := s.work[p := Registering(id)])
    case CommitFirstAccount(p, created, fails) =>
      if p !in s.work || !s.work[p].Registering? then s
      else
        var id := s.work[p].id;
        var done := s.(work := s.work - {p});
        if fails || s.claim.Some? || id in s.accounts then done
        else done.(accounts := s.accounts[id := Account(created, false)], claim := Some(id), claims := s.claims + [id])
    case StartPinning(p) =>
      if p in s.work || s.claim.Some? then s else s.(work := s.work[p := PinLooking])
    case ResolveForPin(p, env, owner) =>
      if p !in s.work || s.work[p] != PinLooking || !IsOwner(s, env, owner) then s
      else if owner.None? then s.(work := s.work - {p})
      else s.(work := s.work[p := Pinning(owner.value)])
    case CommitPin(p) =>
      if p !in s.work || !s.work[p].Pinning? then s
      else
        var done := s.(work := s.work - {p});
        if s.claim.Some? then done else done.(claim := Some(s.work[p].owner), claims := s.claims + [s.work[p].owner])
    case SetDisabled(id, disabled) =>
      if id !in s.accounts then s else s.(accounts := s.accounts[id := s.accounts[id].(disabled := disabled)])
    case Crash(p) => s.(work := s.work - {p})
  }

  function After(s: State, actions: seq<Action>): State
    decreases |actions|
  {
    if actions == [] then s else After(Act(s, actions[0]), actions[1..])
  }

  // ----- what every transaction keeps -----

  /** The claim row holds the one claim committed, and names an account; so does a pin
      about to be committed. */
  ghost predicate Inv(s: State) {
    && (s.claim.None? ==> s.claims == [])
    && (s.claim.Some? ==> s.claims == [s.claim.value] && s.claim.value in s.accounts)
    && (forall p <- s.work | s.work[p].Pinning? :: s.work[p].owner in s.accounts)
  }

  /** A fresh install: the claimed account is the only one. */
  ghost predicate Fresh(s: State) {
    Inv(s) && s.accounts.Keys == if s.claim.Some? then {s.claim.value} else {}
  }

  lemma ActKeeps(s: State, a: Action)
    requires Inv(s)
    ensures Inv(Act(s, a))
    ensures s.claim.Some? ==> Act(s, a).claim == s.claim
    ensures Fresh(s) ==> Fresh(Act(s, a))
  {
  }

  lemma {:induction false} AfterKeeps(s: State, actions: seq<Action>)
    requires Inv(s)
    ensures Inv(After(s, actions))
    ensures s.claim.Some? ==> After(s, actions).claim == s.claim
    ensures Fresh(s) ==> Fresh(After(s, actions))
    decreases |actions|
  {
    if actions != [] {
      ActKeeps(s, actions[0]);
      AfterKeeps(Act(s, actions[0]), actions[1..]);
    }
  }

  // ----- over every run -----

  /** An install before any claim, with the accounts it has. */
  function Unclaimed(accounts: Accounts): State {
    State(accounts, None, map[], [])
  }

  /** However registrations and startups race, at most one claim is ever committed, and
      the claim row holds it. */
  lemma ClaimedOnce(accounts: Accounts, actions: seq<Action>)
    ensures var s := After(Unclaimed(accounts), actions);
            s.claims == if s.claim.Some? then [s.claim.value] else []
  {
    AfterKeeps(Unclaimed(accounts), actions);
  }

  /** A fresh install never has more than one account, and the claim names it. */
  lemma FreshInstallHasOne(actions: seq<Action>)
    ensures var s := After(Unclaimed(map[]), actions);
            s.accounts.Keys == if s.claim.Some? then {s.claim.value} else {}
  {
    assert Fresh(Unclaimed(map[]));
    AfterKeeps(Unclaimed(map[]), actions);
  }

  /** Once an account is claimed, whatever is enabled, disabled, registered or pinned
      after: without the environment's word the owner is that account exactly while it is
      enabled, and else nobody. */
  lemma OwnerStays(accounts: Accounts, before: seq<Action>, after: seq<Action>, owner: Option<AccountId>)
    requires After(Unclaimed(accounts), before).claim.Some?
    requires IsOwner(After(After(Unclaimed(accounts), before), after), None, owner)
    ensures var claimed := After(Unclaimed(accounts), before).claim.value;
            owner == if Enabled(After(After(Unclaimed(accounts), before), after).accounts, claimed) then Some(claimed)
                else None
  {
    AfterKeeps(Unclaimed(accounts), before);
    AfterKeeps(After(Unclaimed(accounts), before), after);
  }

  /** A first registration nobody raced makes the account, claims it, and makes it the owner. */
  lemma FirstRegistrationOwns(p: Process, id: AccountId, created: int, owner: Option<AccountId>)
    requires IsOwner(After(Unclaimed(map[]), [StartRegistering(p, id), CommitFirstAccount(p, created, false)]), None,
                     owner)
    ensures owner == Some(id)
  {
    var actions := [StartRegistering(p, id), CommitFirstAccount(p, created, false)];
    var started := Act(Unclaimed(map[]), actions[0]);
    assert actions[1..] == [actions[1]] && actions[1..][1..] == [];
    assert After(started, actions[1..]) == Act(started, actions[1]);
  }
}
