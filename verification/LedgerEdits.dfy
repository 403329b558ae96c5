/**
 A plan edited on its card (backend/app/gateway/routers/confirmations.py,
 `_pin_edited_ledger_plan`): a change that still names the same task and project keeps
 the pin it was shown with, any other is resolved again, and the whole is checked without
 writing.

 Main result: however often a plan is edited, and in whatever ledgers it was checked, what
 is applied in the end is confined to the rows its pins name (`EditedPlanIsConfined`).
*/
module LedgerEdits {
  import opened Wrappers
  import opened LedgerText
  import opened LedgerStore
  import opened LedgerApply
  import opened LedgerPins

  /** A pin on rows that were there before the plan; one on a row the plan itself makes is
      resolved again, as the edit may have removed the change that makes it. */
  predicate MayCarry(pin: Pin) {
    pin != NO_PIN && !pin.inPlanTask && !pin.inPlanProject
  }

  predicate SameTarget(a: PlanChange, b: PlanChange) {
    a.op == b.op && Get(a, "task") == Get(b, "task") && Get(a, "project") == Get(b, "project")
  }

  function CarriedPin(original: seq<PlanChange>, c: PlanChange, i: nat): Pin {
    if i < |original| && MayCarry(original[i].pin) && SameTarget(c, original[i]) then original[i].pin else NO_PIN
  }

  /** The edited plan with the pins it keeps; a pin sent with the edit is never one. */
  function CarryPins(original: seq<PlanChange>, sent: seq<PlanChange>): (r: seq<PlanChange>)
    ensures |r| == |sent|
  {
    seq(|sent|, i requires 0 <= i < |sent| => sent[i].(pin := CarriedPin(original, sent[i], i)))
  }

  /** The plan the new card states: what kept no pin is pinned to what it resolved to. */
  function Restated(carried: seq<PlanChange>, resolutions: seq<Pin>): (r: seq<PlanChange>)
    requires |carried| == |resolutions|
    ensures |r| == |carried|
  {
    seq(|carried|, i requires 0 <= i < |carried| =>
      if carried[i].pin != NO_PIN then carried[i] else carried[i].(pin := resolutions[i]))
  }

  /** Each pin that an edit may keep holds its change by itself, whatever refs the plan has. */
  ghost predicate ServerPinned(plan: seq<PlanChange>) {
    forall c <- plan | MayCarry(c.pin) :: Holds(c, c.pin, {})
  }

  /** What a step resolves to either is of the plan's own making or holds its change by itself. */
  lemma ResolutionCarries(base: nat, call: Call, run: Run, c: PlanChange)
    requires RunInv(base, call.user, run) && Step(call, run, c).Ok?
    ensures var run' := Step(call, run, c).value;
            && |run'.resolutions| == |run.resolutions| + 1
            && (MayCarry(run'.resolutions[|run.resolutions|]) ==> Holds(c, run'.resolutions[|run.resolutions|], {}))
  {
    hide RunInv, Confined;
    var all := run.db.rows.Keys;
    if c.op == "create_project" {
      CreateProjectConfined(base, call, run, c, all, all);
      return;
    }
    var (target, task) := TargetAt(call, run, c);
    StepConfined(base, call, run, c, target, task, all, all);
    OldTasksInOldProjects(base, call.user, run, target.project, task);
  }

  /** No task from before the plan is in a project the plan made. */
  lemma OldTasksInOldProjects(base: nat, user: string, run: Run, project: RowId, task: Option<RowId>)
    requires RunInv(base, user, run) && IsProject(run.db.rows, project)
    requires task.Some? ==> IsTask(run.db.rows, task.value) && run.db.rows[task.value].project == project
    ensures task.Some? && project in run.created ==> task.value in run.created
  {
  }

  /** Of a dry run's pins each holds its change; those an edit may keep do so by themselves. */
  ghost predicate Resolves(changes: seq<PlanChange>, pins: seq<Pin>, refs: set<string>)
    requires |changes| == |pins|
    decreases |changes|
  {
    changes == []
    || (&& Holds(changes[0], pins[0], refs) && (MayCarry(pins[0]) ==> Holds(changes[0], pins[0], {}))
        && Resolves(changes[1..], pins[1..], refs + NewRefs(changes[0])))
  }

  lemma {:induction false} DryRunResolves(base: nat, call: Call, run: Run, changes: seq<PlanChange>, pins: seq<Pin>)
    requires RunInv(base, call.user, run) && Steps(call, run, changes).Ok? && |pins| == |changes|
    requires Steps(call, run, changes).value.resolutions == run.resolutions + pins
    ensures Resolves(changes, pins, run.refs.Keys)
    decreases |changes|
  {
    hide RunInv, Step, Holds;
    if changes == [] {
      return;
    }
    var next := Step(call, run, changes[0]).value;
    ProposedStep(base, call, run, changes[0]);
    ResolutionCarries(base, call, run, changes[0]);
    StepExtends(call, run, changes[0]);
    StepsExtend(call, next, changes[1..]);
    FirstPin(run, next, Steps(call, run, changes).value, pins);
    DryRunResolves(base, call, next, changes[1..], pins[1..]);
  }

  /** Every pin a plan already has may be kept, and holds its change by itself. */
  ghost predicate KeptPins(changes: seq<PlanChange>) {
    forall c <- changes | c.pin != NO_PIN :: MayCarry(c.pin) && Holds(c, c.pin, {})
  }

  lemma CarriedAreKept(original: seq<PlanChange>, sent: seq<PlanChange>)
    requires ServerPinned(original)
    ensures KeptPins(CarryPins(original, sent))
  {
    var carried := CarryPins(original, sent);
    forall c | c in carried && c.pin != NO_PIN ensures MayCarry(c.pin) && Holds(c, c.pin, {}) {
      var i :| 0 <= i < |carried| && carried[i] == c;
      assert original[i] in original;
    }
  }

  lemma {:induction false} RestatedIsHeld(changes: seq<PlanChange>, pins: seq<Pin>, refs: set<string>)
    requires |changes| == |pins| && KeptPins(changes) && Resolves(changes, pins, refs)
    ensures HeldPlan(Restated(changes, pins), refs) && ServerPinned(Restated(changes, pins))
    decreases |changes|
  {
    if changes == [] {
      return;
    }
    var plan, c := Restated(changes, pins), changes[0];
    assert c in changes && (forall later <- changes[1..] :: later in changes);
    RestatedIsHeld(changes[1..], pins[1..], refs + NewRefs(c));
    assert plan[1..] == Restated(changes[1..], pins[1..]);
    HeldAlike(c, pins[0], refs);
    HeldAlike(c, pins[0], {});
    assert forall x <- plan :: x == plan[0] || x in plan[1..];
  }

  /** What validating pins is so pinned that it may be edited. */
  lemma ValidatedIsServerPinned(proposal: Call, db0: Db, changes: seq<PlanChange>)
    requires Valid(db0) && ApplyIn(proposal, db0, StripPins(changes)).Ok?
    ensures var pins := ApplyIn(proposal, db0, StripPins(changes)).value.resolutions;
            |pins| == |changes| && ServerPinned(Pinned(changes, pins))
  {
    hide RunInv, Step, Resolves, HeldPlan;
    var stripped := StripPins(changes);
    StartInv(proposal.user, db0);
    StepsExtend(proposal, Start(db0), stripped);
    var pins := ApplyIn(proposal, db0, stripped).value.resolutions;
    assert Start(db0).resolutions + pins == pins;
    DryRunResolves(db0.issued, proposal, Start(db0), stripped, pins);
    RestatedIsHeld(stripped, pins, Start(db0).refs.Keys);
    assert Restated(stripped, pins) == Pinned(changes, pins);
  }

  /** A plan so pinned, edited in any way, checked in one ledger and applied in any other:
      the restated plan may be edited again, and what it writes is confined to what its
      pins name, the kept ones and the new. */
  lemma EditedPlanIsConfined(original: seq<PlanChange>, sent: seq<PlanChange>, check: Call, db1: Db, call: Call, db: Db)
    requires ServerPinned(original) && Valid(db1) && Valid(db)
    requires ApplyIn(check, db1, CarryPins(original, sent)).Ok?
    ensures var carried := CarryPins(original, sent);
            var pins := ApplyIn(check, db1, carried).value.resolutions;
            && |pins| == |carried|
            && var plan := Restated(carried, pins);
            var applied := ApplyIn(call, db, plan);
            && ServerPinned(plan)
            && (applied.Err? ==> Committed(db, applied) == db)
            && (applied.Ok? ==> Confined(db.issued, db, Committed(db, applied), PinnedTasks(PinsOf(plan)),
                                         PinnedProjects(PinsOf(plan))))
  {
    hide RunInv, Step, Resolves, HeldPlan, ServerPinned, KeptPins, Confined;
    var carried := CarryPins(original, sent);
    CarriedAreKept(original, sent);
    StartInv(check.user, db1);
    StepsExtend(check, Start(db1), carried);
    var pins := ApplyIn(check, db1, carried).value.resolutions;
    assert Start(db1).resolutions + pins == pins && Start(db1).refs.Keys == {};
    DryRunResolves(db1.issued, check, Start(db1), carried, pins);
    RestatedIsHeld(carried, pins, {});
    HeldPlanIsConfined(call, db, Restated(carried, pins));
  }
}
