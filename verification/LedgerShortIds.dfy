/**
 Short ids (backend/packages/harness/omniharness/persistence/ledger/sql.py, `create`): a
 task takes the next number of its project, and keeps it.

 Main result (`NumbersAreNeverReused`): over every run of writes that moves no project's
 counter back, no two tasks of a project are ever given one number, not even after undo
 removed the first. Plans are such writes (`PlansKeepCounters`), and so is the undo of what
 plans wrote (`PlanUndoKeepsNumbers`).
*/
module LedgerShortIds {
  import opened Wrappers
  import opened LedgerText
  import opened LedgerStore
  import opened LedgerApply
  import opened LedgerHistory
  import opened LedgerUndo
  import opened LedgerUndoMany

  predicate MakesTask(c: Change) {
    c.before.None? && c.after.Some? && c.after.value.TaskRow?
  }

  /** Every number given out so far is behind its project's counter, and none was given
      twice; the tasks that are there have different ones. */
  ghost predicate NumbersGiven(db: Db) {
    GivenInLog(db) && GivenInRows(db)
  }

  ghost predicate GivenInLog(db: Db) {
    && (forall i | 0 <= i < |db.log| && MakesTask(db.log[i]) :: Behind(db, db.log[i].after.value))
    && (forall i, j | 0 <= i < j < |db.log| && MakesTask(db.log[i]) && MakesTask(db.log[j]) ::
          Apart(db.log[i].after.value, db.log[j].after.value))
  }

  ghost predicate GivenInRows(db: Db) {
    && (forall t <- db.rows | db.rows[t].TaskRow? :: Behind(db, db.rows[t]))
    && (forall t, u | t in db.rows && u in db.rows && t != u && db.rows[t].TaskRow? && db.rows[u].TaskRow? ::
          Apart(db.rows[t], db.rows[u]))
  }

  predicate Behind(db: Db, task: Row)
    requires task.TaskRow?
  {
    task.project < db.issued && (IsProject(db.rows, task.project) ==> task.number < db.rows[task.project].nextTask)
  }

  predicate Apart(a: Row, b: Row)
    requires a.TaskRow? && b.TaskRow?
  {
    a.project == b.project ==> a.number != b.number
  }

  /** The write moves no project's counter back. */
  predicate CounterKept(db: Db, op: Op) {
    op.UpdateOp? && IsProject(db.rows, op.id) ==>
      var after := Patched(db.rows[op.id], op.patch); after.ProjectRow? && db.rows[op.id].nextTask <= after.nextTask
  }

  ghost predicate CountersKept(db: Db, ops: seq<Op>) {
    forall i | 0 <= i < |ops| :: WellFormed(ops[i]) && CounterKept(ExecAll(db, ops[..i]), ops[i])
  }

  lemma CreateKeepsNumbers(db: Db, row: Row, stamp: Stamp)
    requires Valid(db) && NumbersGiven(db) && Create(db, row, stamp).Ok?
    ensures NumbersGiven(Create(db, row, stamp).value)
  {
    hide Create, GivenInLog, GivenInRows;
    CreateKeepsLog(db, row, stamp);
    CreateKeepsRows(db, row, stamp);
  }

  lemma CreateKeepsLog(db: Db, row: Row, stamp: Stamp)
    requires Valid(db) && GivenInLog(db) && Create(db, row, stamp).Ok?
    ensures GivenInLog(Create(db, row, stamp).value)
  {
    var db' := Create(db, row, stamp).value;
    assert db'.log[..|db.log|] == db.log;
  }

  lemma CreateKeepsRows(db: Db, row: Row, stamp: Stamp)
    requires Valid(db) && GivenInRows(db) && Create(db, row, stamp).Ok?
    ensures GivenInRows(Create(db, row, stamp).value)
  {
  }

  lemma UpdateKeepsNumbers(db: Db, id: RowId, patch: Patch, version: Option<nat>, stamp: Stamp)
    requires Valid(db) && NumbersGiven(db) && Update(db, id, patch, version, stamp).Ok?
    requires CounterKept(db, UpdateOp(id, patch, version, stamp)) && WellFormed(UpdateOp(id, patch, version, stamp))
    ensures NumbersGiven(Update(db, id, patch, version, stamp).value)
  {
    PatchedKeepsIdentity(db.rows[id], patch);
    hide Patched;
    var db' := Update(db, id, patch, version, stamp).value;
    assert db'.log[..|db.log|] == db.log;
  }

  lemma RemoveKeepsNumbers(db: Db, id: RowId, version: Option<nat>, stamp: Stamp)
    requires NumbersGiven(db) && Remove(db, id, version, stamp).Ok?
    ensures NumbersGiven(Remove(db, id, version, stamp).value)
  {
    var db' := Remove(db, id, version, stamp).value;
    assert db'.log[..|db.log|] == db.log;
  }

  lemma ExecKeepsNumbers(db: Db, op: Op)
    requires Valid(db) && NumbersGiven(db) && CounterKept(db, op) && WellFormed(op)
    ensures NumbersGiven(Exec(db, op))
  {
    hide NumbersGiven, Valid, CounterKept, Create, Update, Remove;
    if Exec(db, op) != db {
      match op
      case CreateOp(row, stamp) => CreateKeepsNumbers(db, row, stamp);
      case UpdateOp(id, patch, version, stamp) => UpdateKeepsNumbers(db, id, patch, version, stamp);
      case RemoveOp(id, version, stamp) => RemoveKeepsNumbers(db, id, version, stamp);
    }
  }

  /** Whatever is created, changed, removed and undone, a number is given once in the
      life of a project. */
  lemma {:induction false} NumbersAreNeverReused(db: Db, ops: seq<Op>)
    requires Valid(db) && NumbersGiven(db) && CountersKept(db, ops)
    ensures Valid(ExecAll(db, ops)) && NumbersGiven(ExecAll(db, ops))
    decreases |ops|
  {
    hide NumbersGiven, Valid, CounterKept, Exec;
    if ops != [] {
      var init := ops[..|ops| - 1];
      assert forall i | 0 <= i < |init| :: init[..i] == ops[..i];
      NumbersAreNeverReused(db, init);
      assert ops[..|ops| - 1] == init;
      ExecKeepsNumbers(ExecAll(db, init), ops[|ops| - 1]);
      ExecValid(ExecAll(db, init), ops[|ops| - 1]);
    }
  }

  lemma StartsNumbered()
    ensures Valid(EMPTY) && NumbersGiven(EMPTY)
  {
  }

  lemma PlanWriteKeepsCounter(call: Call, db: Db, op: Op)
    requires PlanWrite(call, op)
    ensures WellFormed(op) && CounterKept(db, op)
  {
  }

  /** A plan, or a batch of them, keeps the numbers. */
  lemma PlansKeepCounters(call: Call, db: Db, cards: seq<(seq<PlanChange>, Option<string>)>)
    requires Valid(db) && NumbersGiven(db) && ApplyCards(call, db, cards).Ok?
    ensures NumbersGiven(ApplyCards(call, db, cards).value)
  {
    hide NumbersGiven, Valid, ApplyCards;
    var ops := PlanIsWrites(call, db, cards);
    forall i | 0 <= i < |ops| ensures WellFormed(ops[i]) && CounterKept(ExecAll(db, ops[..i]), ops[i]) {
      PlanWriteKeepsCounter(call, ExecAll(db, ops[..i]), ops[i]);
    }
    NumbersAreNeverReused(db, ops);
  }

  /** The write changed no project that was there before it. */
  ghost predicate ChangedNoProject(t: Touched) {
    forall id <- t.slots :: t.slots[id].before.Some? ==> !t.slots[id].before.value.ProjectRow?
  }

  lemma {:induction false} UndoOpsKeepCounters(t: Touched, n: nat, stamp: Stamp, db: Db)
    requires n <= |t.order| && (forall id <- t.order :: id in t.slots) && ChangedNoProject(t)
    ensures forall op <- UndoOps(t, n, stamp) :: CounterKept(db, op)
    decreases n
  {
    if n > 0 {
      UndoOpsKeepCounters(t, n - 1, stamp, db);
    }
  }

  /** Undo gives no number back: what it removes keeps its number for good. */
  lemma UndoKeepsNumbers(db: Db, user: string, write: string)
    requires Recorded(db) && Valid(db) && NumbersGiven(db) && UndoOne(db, user, write).Ok?
    requires ChangedNoProject(TouchedBy(db.log, user, write))
    ensures NumbersGiven(UndoOne(db, user, write).value)
  {
    hide NumbersGiven, Valid, Recorded, CounterKept, Exec, ChangedNoProject;
    var t, stamp := TouchedBy(db.log, user, write), UndoStamp(user, write);
    EntitiesWellformed(CausedBy(db.log, user, write));
    forall id <- t.slots { SlotIdentity(db, user, write, id); }
    UndoRowsAreWrites(db, t, |t.order|, stamp);
    UndoOpsWellFormed(t, |t.order|, stamp);
    var ops := UndoOps(t, |t.order|, stamp);
    forall i | 0 <= i < |ops| ensures WellFormed(ops[i]) && CounterKept(ExecAll(db, ops[..i]), ops[i]) {
      UndoOpsKeepCounters(t, |t.order|, stamp, ExecAll(db, ops[..i]));
    }
    NumbersAreNeverReused(db, ops);
  }

  /** What a plan may write: new rows, and new fields of tasks. */
  predicate PlanMakes(op: Op) {
    op.CreateOp? || (op.UpdateOp? && op.patch.SetTask?)
  }

  /** Of all these writes, those under the write id are plans'. */
  ghost predicate MadeByPlans(ops: seq<Op>, user: string, write: string) {
    forall op <- ops | StampOfOp(op).owner == user && StampOfOp(op).cause == Some(write) :: PlanMakes(op)
  }

  /** Every row the write changed was a task. */
  ghost predicate ChangesTasks(log: seq<Change>, user: string, write: string) {
    forall i | 0 <= i < |log| && By(log[i], user, write) && log[i].before.Some? :: log[i].before.value.TaskRow?
  }

  lemma WriteChangesTasks(db: Db, op: Op, user: string, write: string)
    requires ChangesTasks(db.log, user, write)
    requires StampOfOp(op).owner == user && StampOfOp(op).cause == Some(write) ==> PlanMakes(op)
    ensures ChangesTasks(Exec(db, op).log, user, write)
  {
    hide Patched;
  }

  lemma {:induction false} PlansChangeTasks(db: Db, ops: seq<Op>, user: string, write: string)
    requires ChangesTasks(db.log, user, write) && MadeByPlans(ops, user, write)
    ensures ChangesTasks(ExecAll(db, ops).log, user, write)
    decreases |ops|
  {
    hide ChangesTasks, Exec;
    if ops != [] {
      PlansChangeTasks(db, ops[..|ops| - 1], user, write);
      WriteChangesTasks(ExecAll(db, ops[..|ops| - 1]), ops[|ops| - 1], user, write);
    }
  }

  lemma TasksOnlyChangesNoProject(log: seq<Change>, user: string, write: string)
    requires ChangesTasks(log, user, write)
    ensures ChangedNoProject(TouchedBy(log, user, write))
  {
    var slots := TouchedBy(log, user, write).slots;
    SlotEnds(log, user, write);
    forall id <- slots ensures slots[id].before.Some? ==> !slots[id].before.value.ProjectRow? {
      var i, k :| Spans(log, user, write, i, k, id, slots[id]);
    }
  }

  /** The undo of what plans wrote under a fresh write id gives no number back, whatever
      else was written before and after by anyone. */
  lemma PlanUndoKeepsNumbers(db: Db, ops: seq<Op>, user: string, write: string)
    requires Recorded(db) && Valid(db) && NumbersGiven(db) && CountersKept(db, ops)
    requires CausedBy(db.log, user, write) == [] && MadeByPlans(ops, user, write)
    requires UndoOne(ExecAll(db, ops), user, write).Ok?
    ensures NumbersGiven(UndoOne(ExecAll(db, ops), user, write).value)
  {
    hide NumbersGiven, Valid, Recorded, CounterKept, Exec, ChangedNoProject, UndoOne;
    CausedByMembers(db.log, user, write);
    PlansChangeTasks(db, ops, user, write);
    TasksOnlyChangesNoProject(ExecAll(db, ops).log, user, write);
    NumbersAreNeverReused(db, ops);
    forall op <- ops ensures WellFormed(op) {
      var i :| 0 <= i < |ops| && ops[i] == op;
      assert WellFormed(ops[i]) && CounterKept(ExecAll(db, ops[..i]), ops[i]);
    }
    EveryStateIsRecorded(db, ops);
    UndoKeepsNumbers(ExecAll(db, ops), user, write);
  }

  /** Every plan, and every batch, is so made. */
  lemma PlansAreMadeByPlans(call: Call, ops: seq<Op>, user: string, write: string)
    requires forall op <- ops :: PlanWrite(call, op)
    ensures MadeByPlans(ops, user, write)
  {
  }
}
