/**
 The Continue locks of confirmed actions (backend/app/gateway/resume.py and services.py,
 over backend/app/policy/pending.py): a run takes the lock of each action it resumes,
 spends it when it ends well and gives it back otherwise.

 A state machine of single file operations by any number of runs, each of which may
 crash anywhere, and by any number of recoveries, which a starting worker makes: it lists
 the locks, reads an action's record, checks its lock's owner and lease and unlinks it. Main results:
 as long as recoveries look only where they may (`MayLook`), no action is held by two live
 runs or after it was spent (`OneHolder`), an action is spent at most once, by a run that
 ended in success (`SpentOnce`), and a run that left by a handled exit left each lock it
 took free or spent (`ExitsSettle`). And `MayLook` is exact: a look anywhere else can be
 followed by a run that breaks this (`LookIsSafeIff`). The code looks anywhere, so one
 recovery can let an action be spent twice (`OneRecoverySpendsTwice`).
*/
module ContinueLocks {

  type ActionId = nat
  type RunId = nat

  datatype Stage = Taking | Running | Ending(succeeded: bool) | GivingBack

  /** A resume or a Continue: the actions still to try, whether the first one's record was
      read and not spent, the locks it holds. */
  datatype Run = Run(todo: seq<ActionId>, read: bool, held: set<ActionId>, stage: Stage)

  /** Where a recovery is with one lock: listed; its record read and not spent; its owner
      found gone. */
  datatype Recovery = Listed(action: ActionId) | Looked(action: ActionId) | FoundGone(action: ActionId)

  datatype Spending = Spending(action: ActionId, run: RunId)

  /** The actions that ran, the lock files by owner, the records, the runs and recoveries
      at work, and the runs whose process is gone; and, of the past: the runs begun, those
      that ended in success, those that left by a handled exit, and every spending. */
  datatype State = State(
    executed: set<ActionId>,
    locks: map<ActionId, RunId>,
    continued: set<ActionId>,
    runs: map<RunId, Run>,
    recovering: map<nat, Recovery>,
    dead: set<RunId>,
    begun: set<RunId>,
    succeeded: set<RunId>,
    left: set<RunId>,
    spent: seq<Spending>)

  /** One operation. A run that fails outside a handled exit leaves its process alive; one
      that crashes takes it down, and a process may exit once its run is over. */
  datatype Action =
    | Execute(action: ActionId)
    | Begin(run: RunId, candidates: seq<ActionId>)
    | ReadRecord(run: RunId)
    | LinkLock(run: RunId)
    | GiveUp(run: RunId)
    | Launch(run: RunId)
    | End(run: RunId, succeeded: bool)
    | Settle(run: RunId, action: ActionId)
    | Leave(run: RunId)
    | Fail(run: RunId)
    | Crash(run: RunId)
    | Exit(run: RunId)
    | List(worker: nat, action: ActionId)
    | Look(worker: nat)
    | CheckOwner(worker: nat, expired: bool)
    | UnlinkGone(worker: nat)
    | StopRecovery(worker: nat)

  function Initial(executed: set<ActionId>): State {
    State(executed, map[], {}, map[], map[], {}, {}, {}, {}, [])
  }

  function To(s: State, r: RunId, run: Run): State {
    s.(runs := s.runs[r := run])
  }

  /** The next candidate: read first, then linked. */
  function TakeStep(s: State, r: RunId, link: bool): State
    requires r in s.runs
  {
    var run := s.runs[r];
    if run.stage != Taking || run.todo == [] || run.read != link then s
    else
      var a := run.todo[0];
      var skipped := run.(todo := run.todo[1..], read := false);
      if !link then To(s, r, if a in s.continued then skipped else run.(read := true))
      else if a in s.locks then To(s, r, skipped)
      else To(s.(locks := s.locks[a := r]), r, skipped.(held := run.held + {a}))
  }

  /** One held lock: spent by success, given back otherwise. Giving back unlinks whatever
      lock is there. */
  function SettleStep(s: State, r: RunId, a: ActionId): State
    requires r in s.runs
  {
    var run := s.runs[r];
    if a !in run.held || run.stage == Taking || run.stage == Running then s
    else
      var settled := To(s, r, run.(held := run.held - {a}));
      if run.stage == Ending(true)
      then settled.(continued := s.continued + {a}, spent := s.spent + [Spending(a, r)])
      else settled.(locks := s.locks - {a})
  }

  function RunStep(s: State, a: Action): State
    requires a.GiveUp? || a.Launch? || a.End? || a.Leave?
    requires a.run in s.runs
  {
    var run := s.runs[a.run];
    match a
    case GiveUp(r) => if run.stage == Taking && run.todo == [] then To(s, r, run.(stage := GivingBack)) else s
    case Launch(r) =>
      if run.stage == Taking && run.todo == [] && run.held * s.executed != {} then To(s, r, run.(stage := Running))
        else s
    case End(r, succeeded) =>
      if run.stage != Running then s
      else To(if succeeded then s.(succeeded := s.succeeded + {r}) else s, r, run.(stage := Ending(succeeded)))
    case Leave(r) =>
      if (run.stage.Ending? || run.stage == GivingBack) && run.held == {}
      then s.(runs := s.runs - {r}, left := s.left + {r}) else s
  }

  function Stopped(s: State, w: nat): State {
    s.(recovering := s.recovering - {w})
  }

  function Recovers(s: State, w: nat, at: Recovery): State {
    s.(recovering := s.recovering[w := at])
  }

  /** A recovery's next step with one lock. Its owner is gone when its process is, or its
      lease has expired, live or not; a lock that is not there has no owner gone. */
  function RecoveryStep(s: State, a: Action): State
    requires a.Look? || a.CheckOwner? || a.UnlinkGone?
    requires a.worker in s.recovering
  {
    var w, at := a.worker, s.recovering[a.worker];
    match a
    case Look(_) =>
      if !at.Listed? then s else if at.action in s.continued then Stopped(s, w) else Recovers(s, w, Looked(at.action))
    case CheckOwner(_, expired) =>
      if !at.Looked? then s
      else if at.action in s.locks && (s.locks[at.action] in s.dead || expired)
        then Recovers(s, w, FoundGone(at.action))
      else Stopped(s, w)
    case UnlinkGone(_) =>
      if !at.FoundGone? then s else Stopped(s.(locks := s.locks - {at.action}), w)
  }

  /** One operation; what is not possible now leaves the state alone. */
  function Act(s: State, a: Action): State {
    match a
    case Execute(action) => s.(executed := s.executed + {action})
    case Begin(r, candidates) =>
      if r in s.begun then s
      else To(s.(begun := s.begun + {r}), r, Run(candidates, false, {}, Taking))
    case ReadRecord(r) => if r in s.runs then TakeStep(s, r, false) else s
    case LinkLock(r) => if r in s.runs then TakeStep(s, r, true) else s
    case Settle(r, action) => if r in s.runs then SettleStep(s, r, action) else s
    case Fail(r) => s.(runs := s.runs - {r})
    case Crash(r) => if r in s.begun then s.(runs := s.runs - {r}, dead := s.dead + {r}) else s
    case Exit(r) => if r in s.begun && r !in s.runs then s.(dead := s.dead + {r}) else s
    case List(w, action) => if action in s.locks && w !in s.recovering then Recovers(s, w, Listed(action)) else s
    case StopRecovery(w) => Stopped(s, w)
    case Look(w) => if w in s.recovering then RecoveryStep(s, a) else s
    case CheckOwner(w, _) => if w in s.recovering then RecoveryStep(s, a) else s
    case UnlinkGone(w) => if w in s.recovering then RecoveryStep(s, a) else s
    case _ => if a.run in s.runs then RunStep(s, a) else s
  }

  function After(s: State, actions: seq<Action>): State
    decreases |actions|
  {
    if actions == [] then s else After(Act(s, actions[0]), actions[1..])
  }

  /** Where a recovery may look: at an action that is spent, which it then leaves alone; or
      at one whose lock is there, of a run that is over, with no other recovery at it. */
  predicate MayLook(s: State, w: nat) {
    w in s.recovering && s.recovering[w].Listed? && s.recovering[w].action !in s.continued ==>
      var a := s.recovering[w].action;
      && a in s.locks && s.locks[a] !in s.runs
      && forall v <- s.recovering | v != w :: s.recovering[v].Listed? || s.recovering[v].action != a
  }

  /** Every look of the run is where it may be. */
  predicate Guarded(s: State, actions: seq<Action>)
    decreases |actions|
  {
    actions == []
    || ((actions[0].Look? ==> MayLook(s, actions[0].worker)) && Guarded(Act(s, actions[0]), actions[1..]))
  }

  // ----- what every operation keeps -----

  /** A live run's locks are there, its own, and not spent. */
  ghost predicate Holding(s: State, r: RunId)
    requires r in s.runs
  {
    var run := s.runs[r];
    && r in s.begun && r !in s.left && r !in s.dead
    && (forall a <- run.held :: a in s.locks && s.locks[a] == r && a !in s.continued)
    && (run.stage == Ending(true) ==> r in s.succeeded)
    && (run.stage == Running ==> run.todo == [] && run.held * s.executed != {})
  }

  /** A lock is held by its run while that lives, and spent once it left. */
  ghost predicate Owned(s: State, a: ActionId)
    requires a in s.locks
  {
    var r := s.locks[a];
    && r in s.begun
    && (r in s.left ==> a in s.continued)
    && (r in s.runs ==> a in s.runs[r].held || a in s.continued)
  }

  ghost predicate Spent(s: State) {
    && (forall e <- s.spent :: e.action in s.continued && e.run in s.succeeded)
    && (forall i, j | 0 <= i < j < |s.spent| :: s.spent[i].action != s.spent[j].action)
  }

  ghost predicate Past(s: State) {
    s.left <= s.begun && s.dead <= s.begun && forall a <- s.continued :: a in s.locks
  }

  /** A recovery past its look is at a lock of a run that is over, alone, and not spent. */
  ghost predicate Recovering(s: State, w: nat)
    requires w in s.recovering
  {
    var at := s.recovering[w];
    at.Listed?
    || (&& at.action in s.locks && s.locks[at.action] !in s.runs && at.action !in s.continued
        && forall v <- s.recovering | v != w :: s.recovering[v].Listed? || s.recovering[v].action != at.action)
  }

  ghost predicate Inv(s: State) {
    && (forall r <- s.runs :: Holding(s, r))
    && (forall a <- s.locks :: Owned(s, a))
    && (forall w <- s.recovering :: Recovering(s, w))
    && Spent(s) && Past(s)
  }

  predicate IsRecovery(x: Action) {
    x.List? || x.Look? || x.CheckOwner? || x.UnlinkGone? || x.StopRecovery?
  }

  /** What a recovery does leaves runs as they are, and unlinks only the lock it is at. */
  lemma RecoveryActs(s: State, x: Action)
    requires IsRecovery(x)
    ensures var s' := Act(s, x);
            && s' == s.(locks := s'.locks, recovering := s'.recovering)
            && (s'.locks == s.locks
                || (x.UnlinkGone? && x.worker in s.recovering && s.recovering[x.worker].FoundGone?
                    && s'.locks == s.locks - {s.recovering[x.worker].action}))
  {
  }

  /** A run's own operation keeps its locks its own. */
  lemma HoldingMoves(s: State, x: Action)
    requires Inv(s) && !IsRecovery(x) && !x.Execute? && x.run in Act(s, x).runs
    ensures Holding(Act(s, x), x.run)
  {
    hide Owned, Spent, Recovering, RecoveryStep, MayLook;
    assert x.run in s.runs ==> Holding(s, x.run);
  }

  /** What an operation of `r` may touch of the past and of the locks: its own, and those
      its run held. */
  ghost predicate TouchesOwn(s: State, s': State, r: RunId) {
    && s.begun <= s'.begun && s.succeeded <= s'.succeeded && s.executed <= s'.executed
    && s'.left <= s.left + {r} && s'.dead <= s.dead + {r}
    && (forall a | a in s.locks && !(r in s.runs && a in s.runs[r].held) :: a in s'.locks && s'.locks[a] == s.locks[a])
    && (forall a | a in s'.continued && a !in s.continued :: r in s.runs && a in s.runs[r].held)
  }

  lemma RunActs(s: State, x: Action, q: RunId)
    requires !IsRecovery(x) && (x.Execute? || q != x.run) && q in s.runs
    ensures q in Act(s, x).runs && Act(s, x).runs[q] == s.runs[q]
    ensures if x.Execute? then Act(s, x) == s.(executed := s.executed + {x.action}) else TouchesOwn(s, Act(s, x), x.run)
  {
    hide RecoveryStep;
  }

  /** Another run's leaves them alone. */
  lemma HoldingStays(s: State, x: Action, q: RunId)
    requires Inv(s) && !IsRecovery(x) && (x.Execute? || q != x.run) && q in s.runs
    ensures q in Act(s, x).runs && Act(s, x).runs[q] == s.runs[q] && Holding(Act(s, x), q)
  {
    hide Owned, Spent, Past, Recovering, Act;
    RunActs(s, x, q);
    assert Holding(s, q);
    assert !x.Execute? && x.run in s.runs ==> Holding(s, x.run);
  }

  lemma HoldingKept(s: State, x: Action, q: RunId)
    requires Inv(s) && q in Act(s, x).runs
    ensures Holding(Act(s, x), q)
  {
    hide Owned, Spent;
    if IsRecovery(x) {
      RecoveryActs(s, x);
      assert x.worker in s.recovering ==> Recovering(s, x.worker);
      hide Act;
      assert Holding(s, q);
      return;
    }
    hide Holding, Inv;
    if !x.Execute? && q == x.run {
      HoldingMoves(s, x);
    } else {
      hide TakeStep, SettleStep, RunStep;
      OnlyItsRun(s, x, q);
      HoldingStays(s, x, q);
    }
  }

  lemma OnlyItsRun(s: State, x: Action, q: RunId)
    requires !IsRecovery(x) && (x.Execute? || q != x.run) && q in Act(s, x).runs
    ensures q in s.runs
  {
    hide RecoveryStep;
  }

  lemma OwnedKept(s: State, x: Action, b: ActionId)
    requires Inv(s) && b in Act(s, x).locks
    ensures Owned(Act(s, x), b)
  {
    hide Recovering, Spent;
    assert b in s.locks ==> Owned(s, b);
    if IsRecovery(x) {
      RecoveryActs(s, x);
      hide Act;
    } else {
      assert !x.Execute? && x.run in s.runs ==> Holding(s, x.run);
    }
  }

  /** A recovery stays where it may be, whatever a run does. */
  lemma RecoveringStays(s: State, x: Action, w: nat)
    requires Inv(s) && !IsRecovery(x) && w in s.recovering
    ensures Act(s, x).recovering == s.recovering && Recovering(Act(s, x), w)
  {
    hide Spent, Past, MayLook, RecoveryStep;
    assert Recovering(s, w);
    assert !s.recovering[w].Listed? ==> Owned(s, s.recovering[w].action);
    assert !x.Execute? && x.run in s.runs ==> Holding(s, x.run);
  }

  lemma RecoveringKept(s: State, x: Action, w: nat)
    requires Inv(s) && (x.Look? ==> MayLook(s, x.worker)) && w in Act(s, x).recovering
    ensures Recovering(Act(s, x), w)
  {
    hide Spent, Holding, Owned;
    if !IsRecovery(x) {
      assert w in s.recovering;
      RecoveringStays(s, x, w);
      return;
    }
    hide TakeStep, SettleStep, RunStep;
    assert w in s.recovering ==> Recovering(s, w);
    assert x.worker in s.recovering ==> Recovering(s, x.worker);
  }

  lemma SpentKept(s: State, x: Action)
    requires Inv(s)
    ensures Spent(Act(s, x))
  {
    hide Owned, Recovering, Past;
    if IsRecovery(x) {
      RecoveryActs(s, x);
      hide Act;
      return;
    }
    hide RecoveryStep, TakeStep;
    assert x.Settle? && x.run in s.runs ==> Holding(s, x.run);
  }

  lemma PastKept(s: State, x: Action)
    requires Inv(s)
    ensures Past(Act(s, x))
  {
    hide Owned, Spent;
    if IsRecovery(x) {
      RecoveryActs(s, x);
      assert x.worker in s.recovering ==> Recovering(s, x.worker);
      hide Act;
      return;
    }
    hide RecoveryStep, Recovering;
    assert !x.Execute? && x.run in s.runs ==> Holding(s, x.run);
  }

  lemma ActKeeps(s: State, x: Action)
    requires Inv(s) && (x.Look? ==> MayLook(s, x.worker))
    ensures Inv(Act(s, x))
  {
    hide Act, MayLook, Holding, Owned, Recovering, Spent, Past;
    forall q <- Act(s, x).runs { HoldingKept(s, x, q); }
    forall b <- Act(s, x).locks { OwnedKept(s, x, b); }
    forall w <- Act(s, x).recovering { RecoveringKept(s, x, w); }
    SpentKept(s, x);
    PastKept(s, x);
  }

  lemma {:induction false} AfterKeeps(s: State, actions: seq<Action>)
    requires Inv(s) && Guarded(s, actions)
    ensures Inv(After(s, actions))
    decreases |actions|
  {
    if actions != [] {
      hide Inv, Act, MayLook;
      ActKeeps(s, actions[0]);
      AfterKeeps(Act(s, actions[0]), actions[1..]);
    }
  }

  // ----- over every run -----

  ghost predicate TwoHold(s: State, a: ActionId) {
    exists q, r :: q in s.runs && r in s.runs && q != r && a in s.runs[q].held && a in s.runs[r].held
  }

  /** An action held by two live runs, or by one after it was spent. */
  ghost predicate Broken(s: State) {
    || (exists a: ActionId :: TwoHold(s, a))
    || (exists r, a: ActionId :: r in s.runs && a in s.runs[r].held && a in s.continued)
  }

  lemma InvIsWhole(s: State)
    requires Inv(s)
    ensures !Broken(s)
  {
    forall r <- s.runs ensures forall a <- s.runs[r].held :: a in s.locks && s.locks[a] == r && a !in s.continued {
      assert Holding(s, r);
    }
  }

  lemma StartsWhole(executed: set<ActionId>)
    ensures Inv(Initial(executed))
  {
  }

  /** Two live runs never hold one action, and what a run holds is not spent. */
  lemma OneHolder(executed: set<ActionId>, actions: seq<Action>)
    requires Guarded(Initial(executed), actions)
    ensures !Broken(After(Initial(executed), actions))
  {
    hide After, Inv;
    StartsWhole(executed);
    AfterKeeps(Initial(executed), actions);
    InvIsWhole(After(Initial(executed), actions));
  }

  /** An action is spent at most once, by a run that ended in success. */
  lemma SpentOnce(executed: set<ActionId>, actions: seq<Action>)
    requires Guarded(Initial(executed), actions)
    ensures var s := After(Initial(executed), actions);
            && (forall e <- s.spent :: e.run in s.succeeded)
            && (forall i, j | 0 <= i < j < |s.spent| :: s.spent[i].action != s.spent[j].action)
  {
    hide After;
    StartsWhole(executed);
    AfterKeeps(Initial(executed), actions);
  }

  /** A run that left by a handled exit left each of its locks free or spent. */
  lemma ExitsSettle(executed: set<ActionId>, actions: seq<Action>, r: RunId, a: ActionId)
    requires Guarded(Initial(executed), actions)
    requires var s := After(Initial(executed), actions); r in s.left && a in s.locks && s.locks[a] == r
    ensures a in After(Initial(executed), actions).continued
  {
    hide After;
    StartsWhole(executed);
    AfterKeeps(Initial(executed), actions);
    assert Owned(After(Initial(executed), actions), a);
  }

  /** A live run that was launched resumes an action that ran. */
  lemma RunsResumeSomething(executed: set<ActionId>, actions: seq<Action>, r: RunId)
    requires Guarded(Initial(executed), actions)
    requires var s := After(Initial(executed), actions); r in s.runs && s.runs[r].stage == Running
    ensures var s := After(Initial(executed), actions); s.runs[r].held * s.executed != {}
  {
    hide After;
    StartsWhole(executed);
    AfterKeeps(Initial(executed), actions);
    assert Holding(After(Initial(executed), actions), r);
  }

  // ----- a look anywhere else -----

  /** Reached by operations of which none is a look. */
  ghost predicate Leads(s: State, t: State) {
    exists actions: seq<Action> :: (forall x <- actions :: !x.Look?) && After(s, actions) == t
  }

  lemma Stays(s: State)
    ensures Leads(s, s)
  {
    assert After(s, []) == s;
  }

  lemma {:induction false} AfterOneMore(s: State, actions: seq<Action>, x: Action)
    ensures After(s, actions + [x]) == Act(After(s, actions), x)
    decreases |actions|
  {
    hide Act;
    if actions == [] {
      assert ([] + [x])[1..] == [];
      assert After(s, [x]) == After(Act(s, x), []);
    } else {
      assert (actions + [x])[1..] == actions[1..] + [x];
      AfterOneMore(Act(s, actions[0]), actions[1..], x);
    }
  }

  lemma LeadsOn(s: State, t: State, x: Action)
    requires Leads(s, t) && !x.Look?
    ensures Leads(s, Act(t, x))
  {
    hide After, Act;
    var actions: seq<Action> :| (forall y <- actions :: !y.Look?) && After(s, actions) == t;
    AfterOneMore(s, actions, x);
    assert forall y <- actions + [x] :: !y.Look?;
  }

  lemma {:induction false} NoLooksAreGuarded(s: State, actions: seq<Action>)
    requires forall x <- actions :: !x.Look?
    ensures Guarded(s, actions)
    decreases |actions|
  {
    hide Act, MayLook;
    if actions != [] {
      NoLooksAreGuarded(Act(s, actions[0]), actions[1..]);
    }
  }

  lemma {:induction false} Above(used: set<nat>) returns (n: nat)
    ensures forall u <- used :: u < n
    decreases |used|
  {
    if used == {} {
      return 0;
    }
    var one: nat :| one in used;
    var m := Above(used - {one});
    n := if m <= one then one + 1 else m;
    assert forall u <- used :: u == one || u in used - {one};
  }

  /** A run begun and come to its first candidate, whose record it has read. */
  function Reads(s: State, q: RunId, todo: seq<ActionId>): State {
    s.(begun := s.begun + {q}, runs := s.runs[q := Run(todo, true, {}, Taking)])
  }

  lemma BeginsAndReads(s0: State, s: State, q: RunId, todo: seq<ActionId>)
    requires Leads(s0, s) && q !in s.begun && todo != [] && todo[0] !in s.continued
    ensures Leads(s0, Reads(s, q, todo))
  {
    LeadsOn(s0, s, Begin(q, todo));
    var t := Act(s, Begin(q, todo));
    LeadsOn(s0, t, ReadRecord(q));
    assert Act(t, ReadRecord(q)).runs == Reads(s, q, todo).runs;
    assert Act(t, ReadRecord(q)) == Reads(s, q, todo);
  }

  /** A run about to link the lock of its only candidate, where that is free. */
  lemma Links(s0: State, s: State, q: RunId, a: ActionId)
    requires Leads(s0, s) && q in s.runs && s.runs[q] == Run([a], true, {}, Taking) && a !in s.locks
    ensures Leads(s0, s.(locks := s.locks[a := q], runs := s.runs[q := Run([], false, {a}, Taking)]))
  {
    LeadsOn(s0, s, LinkLock(q));
    assert [a][1..] == [] && {} + {a} == {a};
    assert Act(s, LinkLock(q)) == s.(locks := s.locks[a := q], runs := s.runs[q := Run([], false, {a}, Taking)]);
  }

  predicate LooksAt(s: State, w: nat, a: ActionId) {
    w in s.recovering && (s.recovering[w] == Looked(a) || s.recovering[w] == FoundGone(a))
  }

  /** A recovery past its look comes to unlink a lock whose owner's process is gone. */
  lemma FindsGone(s0: State, s: State, w: nat, a: ActionId)
    requires Leads(s0, s) && LooksAt(s, w, a) && a in s.locks && s.locks[a] in s.dead
    ensures Leads(s0, Recovers(s, w, FoundGone(a)))
  {
    if s.recovering[w] == Looked(a) {
      LeadsOn(s0, s, CheckOwner(w, false));
    } else {
      assert s.recovering[w := FoundGone(a)] == s.recovering;
    }
  }

  lemma Unlinks(s0: State, s: State, w: nat, a: ActionId)
    requires Leads(s0, s) && w in s.recovering && s.recovering[w] == FoundGone(a)
    ensures Leads(s0, s.(locks := s.locks - {a}, recovering := s.recovering - {w}))
  {
    LeadsOn(s0, s, UnlinkGone(w));
  }

  /** A spent action whose lock is unlinked is taken by a run that read it before. */
  lemma TakesSpent(s0: State, s: State, w: nat, q: RunId, a: ActionId) returns (t: State)
    requires Leads(s0, s) && LooksAt(s, w, a) && a in s.locks && s.locks[a] in s.dead && a in s.continued
    requires q in s.runs && s.runs[q] == Run([a], true, {}, Taking)
    ensures Leads(s0, t) && Broken(t)
  {
    FindsGone(s0, s, w, a);
    var gone := Recovers(s, w, FoundGone(a));
    Unlinks(s0, gone, w, a);
    var freed := gone.(locks := gone.locks - {a}, recovering := gone.recovering - {w});
    Links(s0, freed, q, a);
    t := freed.(locks := freed.locks[a := q], runs := freed.runs[q := Run([], false, {a}, Taking)]);
    assert q in t.runs && a in t.runs[q].held && a in t.continued;
  }

  /** A run that holds an action and ends in success spends it; then its process goes. */
  lemma Spends(s0: State, s: State, r: RunId, a: ActionId)
    requires Leads(s0, s) && r in s.runs && s.runs[r].stage == Ending(true) && a in s.runs[r].held && r in s.begun
    ensures Leads(s0, s.(runs := s.runs - {r}, continued := s.continued + {a}, dead := s.dead + {r},
                         spent := s.spent + [Spending(a, r)]))
  {
    LeadsOn(s0, s, Settle(r, a));
    var t := Act(s, Settle(r, a));
    LeadsOn(s0, t, Crash(r));
    assert Act(t, Crash(r)).runs == s.runs - {r};
  }

  /** A run that takes a free action, with another that ran since, and launches. */
  lemma Launches(s0: State, s: State, r: RunId, a: ActionId, e: ActionId)
    requires Leads(s0, s) && r in s.runs && s.runs[r] == Run([a, e], true, {}, Taking)
    requires a != e && a !in s.locks && e !in s.locks && e !in s.continued && e in s.executed
    ensures Leads(s0, s.(locks := s.locks[a := r][e := r], runs := s.runs[r := Run([], false, {a, e}, Running)]))
  {
    LeadsOn(s0, s, LinkLock(r));
    var one := Act(s, LinkLock(r));
    assert [a, e][1..] == [e] && {} + {a} == {a};
    assert one == s.(locks := s.locks[a := r], runs := s.runs[r := Run([e], false, {a}, Taking)]);
    LeadsOn(s0, one, ReadRecord(r));
    var two := Act(one, ReadRecord(r));
    assert two == one.(runs := one.runs[r := Run([e], true, {a}, Taking)]);
    LeadsOn(s0, two, LinkLock(r));
    var three := Act(two, LinkLock(r));
    assert [e][1..] == [] && {a} + {e} == {a, e};
    assert three == two.(locks := two.locks[e := r], runs := two.runs[r := Run([], false, {a, e}, Taking)]);
    LeadsOn(s0, three, Launch(r));
    assert e in {a, e} * s.executed;
    assert Act(three, Launch(r)).runs == s.runs[r := Run([], false, {a, e}, Running)];
  }

  lemma Ends(s0: State, s: State, r: RunId)
    requires Leads(s0, s) && r in s.runs && s.runs[r].stage == Running
    ensures Leads(s0, s.(succeeded := s.succeeded + {r}, runs := s.runs[r := s.runs[r].(stage := Ending(true))]))
  {
    LeadsOn(s0, s, End(r, true));
  }

  ghost predicate AllBegun(s: State) {
    s.runs.Keys <= s.begun
  }

  /** A look at an action whose lock is not there, or is given back: somebody takes and
      spends it, and somebody who read it before takes it again. */
  lemma LookedAtFree(s0: State, s: State, w: nat, a: ActionId) returns (t: State)
    requires Leads(s0, s) && LooksAt(s, w, a) && a !in s.locks && a !in s.continued && AllBegun(s)
    ensures Leads(s0, t) && Broken(t)
  {
    hide Leads, Act, Broken;
    var q := Above(s.begun);
    BeginsAndReads(s0, s, q, [a]);
    var one := Reads(s, q, [a]);
    var e := Above(s.locks.Keys + s.continued + {a});
    LeadsOn(s0, one, Execute(e));
    var two := one.(executed := one.executed + {e});
    assert Act(one, Execute(e)) == two by { ExecuteIs(one, e); }
    var r := Above(two.begun);
    BeginsAndReads(s0, two, r, [a, e]);
    var three := Reads(two, r, [a, e]);
    Launches(s0, three, r, a, e);
    var four := three.(locks := three.locks[a := r][e := r], runs := three.runs[r := Run([], false, {a, e}, Running)]);
    Ends(s0, four, r);
    var five := four.(succeeded := four.succeeded + {r}, runs := four.runs[r := four.runs[r].(stage := Ending(true))]);
    Spends(s0, five, r, a);
    var six := five.(runs := five.runs - {r}, continued := five.continued + {a}, dead := five.dead + {r},
                     spent := five.spent + [Spending(a, r)]);
    t := TakesSpent(s0, six, w, q, a);
  }

  lemma ExecuteIs(s: State, e: ActionId)
    ensures Act(s, Execute(e)) == s.(executed := s.executed + {e})
  {
  }

  /** Two recoveries past their look at one dead run's lock: the second unlinks the lock
      that somebody took since the first did. */
  lemma LookedAtTwice(s0: State, s: State, v: nat, w: nat, a: ActionId) returns (t: State)
    requires Leads(s0, s) && LooksAt(s, v, a) && LooksAt(s, w, a) && v != w && a !in s.continued && AllBegun(s)
    requires a in s.locks && s.locks[a] in s.begun && s.locks[a] !in s.runs
    ensures Leads(s0, t) && TwoHold(t, a)
  {
    hide Leads, Act;
    var r := s.locks[a];
    LeadsOn(s0, s, Exit(r));
    var one := s.(dead := s.dead + {r});
    assert Act(s, Exit(r)) == one by { ExitIs(s, r); }
    FindsGone(s0, one, v, a);
    var two := Recovers(one, v, FoundGone(a));
    FindsGone(s0, two, w, a);
    var three := Recovers(two, w, FoundGone(a));
    Unlinks(s0, three, v, a);
    var four := three.(locks := three.locks - {a}, recovering := three.recovering - {v});
    var p := Above(four.begun);
    BeginsAndReads(s0, four, p, [a]);
    Links(s0, Reads(four, p, [a]), p, a);
    var five := Reads(four, p, [a]).(locks := four.locks[a := p],
                                     runs := Reads(four, p, [a]).runs[p := Run([], false, {a}, Taking)]);
    Unlinks(s0, five, w, a);
    var six := five.(locks := five.locks - {a}, recovering := five.recovering - {w});
    var q := Above(six.begun);
    BeginsAndReads(s0, six, q, [a]);
    Links(s0, Reads(six, q, [a]), q, a);
    t := Reads(six, q, [a]).(locks := six.locks[a := q],
                             runs := Reads(six, q, [a]).runs[q := Run([], false, {a}, Taking)]);
    assert p in t.runs && q in t.runs && p != q && a in t.runs[p].held && a in t.runs[q].held;
  }

  lemma ExitIs(s: State, r: RunId)
    requires r in s.begun && r !in s.runs
    ensures Act(s, Exit(r)) == s.(dead := s.dead + {r})
  {
  }

  /** A run that is still taking goes through its candidates, and keeps what it holds. */
  lemma {:induction false} Exhausts(s0: State, s: State, r: RunId, a: ActionId) returns (t: State)
    requires Leads(s0, s) && r in s.runs && s.runs[r].stage == Taking && a in s.runs[r].held
    ensures Leads(s0, t) && r in t.runs && t.runs[r].stage == Taking && t.runs[r].todo == [] && a in t.runs[r].held
    ensures t.recovering == s.recovering && t.continued == s.continued && t.begun == s.begun
            && t.runs.Keys == s.runs.Keys
    decreases |s.runs[r].todo|, !s.runs[r].read
  {
    if s.runs[r].todo == [] {
      return s;
    }
    var x := if s.runs[r].read then LinkLock(r) else ReadRecord(r);
    LeadsOn(s0, s, x);
    t := Exhausts(s0, Act(s, x), r, a);
  }

  /** A run that gives its locks back frees the action. */
  lemma GivesBack(s0: State, s: State, r: RunId, a: ActionId)
    requires Leads(s0, s) && r in s.runs && a in s.runs[r].held
    requires s.runs[r].stage == GivingBack || s.runs[r].stage == Ending(false)
    ensures var t := Act(s, Settle(r, a));
            Leads(s0, t) && a !in t.locks && t.recovering == s.recovering && t.continued == s.continued
                && t.begun == s.begun
            && t.runs.Keys == s.runs.Keys
  {
    LeadsOn(s0, s, Settle(r, a));
  }

  /** A look at the lock of a live run: it may spend the action yet, or give it back. */
  lemma LookedAtLive(s0: State, s: State, w: nat, a: ActionId) returns (t: State)
    requires Leads(s0, s) && LooksAt(s, w, a) && a !in s.continued && AllBegun(s)
    requires a in s.locks && s.locks[a] in s.runs && a in s.runs[s.locks[a]].held
    ensures Leads(s0, t) && Broken(t)
  {
    hide Leads, Act, Broken;
    var r := s.locks[a];
    match s.runs[r].stage
    case Taking =>
      var one := Exhausts(s0, s, r, a);
      LeadsOn(s0, one, GiveUp(r));
      var two := To(one, r, one.runs[r].(stage := GivingBack));
      assert Act(one, GiveUp(r)) == two by { GiveUpIs(one, r); }
      GivesBack(s0, two, r, a);
      t := LookedAtFree(s0, Act(two, Settle(r, a)), w, a);
    case Running =>
      var q := Above(s.begun);
      BeginsAndReads(s0, s, q, [a]);
      var one := Reads(s, q, [a]);
      Ends(s0, one, r);
      t := SpendsAndGoes(s0, one.(succeeded := one.succeeded + {r},
                                  runs := one.runs[r := one.runs[r].(stage := Ending(true))]), w, q, a);
    case Ending(true) =>
      var q := Above(s.begun);
      BeginsAndReads(s0, s, q, [a]);
      t := SpendsAndGoes(s0, Reads(s, q, [a]), w, q, a);
    case _ =>
      GivesBack(s0, s, r, a);
      t := LookedAtFree(s0, Act(s, Settle(r, a)), w, a);
  }

  lemma GiveUpIs(s: State, r: RunId)
    requires r in s.runs && s.runs[r].stage == Taking && s.runs[r].todo == []
    ensures Act(s, GiveUp(r)) == To(s, r, s.runs[r].(stage := GivingBack))
  {
  }

  lemma SpendsAndGoes(s0: State, s: State, w: nat, q: RunId, a: ActionId) returns (t: State)
    requires Leads(s0, s) && LooksAt(s, w, a) && AllBegun(s)
    requires a in s.locks && s.locks[a] in s.runs && q != s.locks[a]
    requires a in s.runs[s.locks[a]].held && s.runs[s.locks[a]].stage == Ending(true)
    requires q in s.runs && s.runs[q] == Run([a], true, {}, Taking)
    ensures Leads(s0, t) && Broken(t)
  {
    hide Leads, Broken;
    var r := s.locks[a];
    Spends(s0, s, r, a);
    t := TakesSpent(s0, s.(runs := s.runs - {r}, continued := s.continued + {a}, dead := s.dead + {r},
                           spent := s.spent + [Spending(a, r)]), w, q, a);
  }

  /** A look where it may not be, at an action not spent, can be followed by operations,
      none of them a look, after which the locks have failed. */
  lemma LookElsewhereBreaks(s: State, w: nat) returns (t: State)
    requires Inv(s) && w in s.recovering && s.recovering[w].Listed? && s.recovering[w].action !in s.continued
             && !MayLook(s, w)
    ensures Leads(Act(s, Look(w)), t) && Broken(t)
  {
    var a, looked := s.recovering[w].action, Recovers(s, w, Looked(s.recovering[w].action));
    assert Act(s, Look(w)) == looked;
    Stays(looked);
    assert AllBegun(s) by {
      forall r <- s.runs ensures r in s.begun { assert Holding(s, r); }
    }
    hide Act, Leads, TwoHold;
    if a !in s.locks {
      t := LookedAtFree(looked, looked, w, a);
    } else if s.locks[a] in s.runs {
      assert Owned(s, a);
      t := LookedAtLive(looked, looked, w, a);
    } else {
      assert Owned(s, a);
      var v :| v in s.recovering && v != w && !s.recovering[v].Listed? && s.recovering[v].action == a;
      t := LookedAtTwice(looked, looked, v, w, a);
    }
  }

  /** In a state where every look so far was where it may be, a look at an action not
      spent is safe, whatever happens after with looks only where they may be, exactly
      where it may be. */
  lemma LookIsSafeIff(s: State, w: nat)
    requires Inv(s) && w in s.recovering && s.recovering[w].Listed? && s.recovering[w].action !in s.continued
    ensures MayLook(s, w)
            <==> forall actions | Guarded(Act(s, Look(w)), actions) :: !Broken(After(Act(s, Look(w)), actions))
  {
    hide Act, Broken, After, Guarded;
    if MayLook(s, w) {
      ActKeeps(s, Look(w));
      forall actions | Guarded(Act(s, Look(w)), actions) ensures !Broken(After(Act(s, Look(w)), actions)) {
        AfterKeeps(Act(s, Look(w)), actions);
        InvIsWhole(After(Act(s, Look(w)), actions));
      }
    } else {
      var t := LookElsewhereBreaks(s, w);
      var actions: seq<Action> :| (forall x <- actions :: !x.Look?) && After(Act(s, Look(w)), actions) == t;
      NoLooksAreGuarded(Act(s, Look(w)), actions);
    }
  }

  /** A recovery that finds the owner's process gone before it reads the record, with no
      other recovery at the lock, looks where it may. */
  lemma GoneOwnerMayLook(s: State, w: nat)
    requires Inv(s) && w in s.recovering
    requires s.recovering[w].action in s.locks && s.locks[s.recovering[w].action] in s.dead
    requires forall v <- s.recovering | v != w :: s.recovering[v].action != s.recovering[w].action
    ensures MayLook(s, w)
  {
    var r := s.locks[s.recovering[w].action];
    assert r in s.runs ==> Holding(s, r);
  }

  // ----- two runs of the code as it is -----

  /** A fresh run that takes a free action that ran, and launches. */
  lemma TakesAndLaunches(s0: State, s: State, q: RunId, a: ActionId)
    requires Leads(s0, s) && q !in s.begun && a !in s.locks && a !in s.continued && a in s.executed
    ensures Leads(s0, s.(begun := s.begun + {q}, locks := s.locks[a := q],
                         runs := s.runs[q := Run([], false, {a}, Running)]))
  {
    BeginsAndReads(s0, s, q, [a]);
    Links(s0, Reads(s, q, [a]), q, a);
    var taken := Reads(s, q, [a]).(locks := s.locks[a := q],
                                   runs := Reads(s, q, [a]).runs[q := Run([], false, {a}, Taking)]);
    LaunchesOne(s0, taken, q, a);
    assert taken.runs[q := Run([], false, {a}, Running)] == s.runs[q := Run([], false, {a}, Running)];
  }

  lemma LaunchesOne(s0: State, s: State, q: RunId, a: ActionId)
    requires Leads(s0, s) && q in s.runs && s.runs[q] == Run([], false, {a}, Taking) && a in s.executed
    ensures Leads(s0, s.(runs := s.runs[q := Run([], false, {a}, Running)]))
  {
    LeadsOn(s0, s, Launch(q));
    assert a in {a} * s.executed;
  }

  lemma Lists(s0: State, s: State, w: nat, a: ActionId)
    requires Leads(s0, s) && a in s.locks && w !in s.recovering
    ensures Leads(s0, Recovers(s, w, Listed(a)))
  {
    LeadsOn(s0, s, List(w, a));
  }

  /** One recovery is enough. It reads action 5's record while run 0 still holds its lock,
      and so does run 1; run 0 spends the action and its process goes; the recovery then
      finds the owner gone and unlinks the very lock it looked at; and run 1 takes and
      spends the action again. */
  lemma OneRecoverySpendsTwice() returns (s: State, t: State)
    ensures Leads(Initial({5}), s) && Leads(Act(s, Look(0)), t)
    ensures t.spent == [Spending(5, 0), Spending(5, 1)]
  {
    hide Leads;
    var s0 := Initial({5});
    Stays(s0);
    TakesAndLaunches(s0, s0, 0, 5);
    var held := s0.(begun := {0}, locks := map[5 := 0], runs := map[0 := Run([], false, {5}, Running)]);
    assert {} + {0} == {0};
    Lists(s0, held, 0, 5);
    s := Recovers(held, 0, Listed(5));
    var looked := Recovers(s, 0, Looked(5));
    assert Act(s, Look(0)) == looked;
    hide Act;
    Stays(looked);
    BeginsAndReads(looked, looked, 1, [5]);
    var read := Reads(looked, 1, [5]);
    Ends(looked, read, 0);
    var ended := read.(succeeded := read.succeeded + {0}, runs := read.runs[0 := read.runs[0].(stage := Ending(true))]);
    Spends(looked, ended, 0, 5);
    var spent := ended.(runs := ended.runs - {0}, continued := ended.continued + {5}, dead := ended.dead + {0},
                        spent := ended.spent + [Spending(5, 0)]);
    FindsGone(looked, spent, 0, 5);
    var gone := Recovers(spent, 0, FoundGone(5));
    Unlinks(looked, gone, 0, 5);
    var freed := gone.(locks := gone.locks - {5}, recovering := gone.recovering - {0});
    Links(looked, freed, 1, 5);
    var again := freed.(locks := freed.locks[5 := 1], runs := freed.runs[1 := Run([], false, {5}, Taking)]);
    LaunchesOne(looked, again, 1, 5);
    var running := again.(runs := again.runs[1 := Run([], false, {5}, Running)]);
    Ends(looked, running, 1);
    var done := running.(succeeded := running.succeeded + {1},
                         runs := running.runs[1 := running.runs[1].(stage := Ending(true))]);
    Spends(looked, done, 1, 5);
    t := done.(runs := done.runs - {1}, continued := done.continued + {5}, dead := done.dead + {1},
               spent := done.spent + [Spending(5, 1)]);
  }

  /** Two workers that start at once both look at a crashed run's lock; the second unlinks
      the lock that a live run has taken since, and another run takes it again. */
  lemma RecoveriesCanCollide() returns (s: State, t: State)
    ensures Leads(Act(s, Look(1)), t) && TwoHold(t, 5)
    ensures exists before :: Leads(Initial({5}), before) && MayLook(before, 0) && s == Act(before, Look(0))
  {
    hide Leads, TwoHold;
    var s0 := Initial({5});
    Stays(s0);
    TakesAndLaunches(s0, s0, 0, 5);
    var held := s0.(begun := {0}, locks := map[5 := 0], runs := map[0 := Run([], false, {5}, Running)]);
    assert {} + {0} == {0};
    LeadsOn(s0, held, Crash(0));
    var dead := s0.(begun := {0}, locks := map[5 := 0], dead := {0});
    assert held.runs - {0} == map[];
    assert Act(held, Crash(0)) == dead;
    Lists(s0, dead, 0, 5);
    Lists(s0, Recovers(dead, 0, Listed(5)), 1, 5);
    var before := Recovers(Recovers(dead, 0, Listed(5)), 1, Listed(5));
    s := Recovers(before, 0, Looked(5));
    assert Act(before, Look(0)) == s && MayLook(before, 0);
    var twice := Recovers(s, 1, Looked(5));
    assert Act(s, Look(1)) == twice;
    Stays(twice);
    t := LookedAtTwice(twice, twice, 0, 1, 5);
  }
}
