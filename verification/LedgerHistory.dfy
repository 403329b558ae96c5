/**
 What the change log says of the ledger, in every state the store can reach.

 Any sequence of writes, by anyone, keeps the log a full account of the rows
 (`EveryStateIsRecorded`): a row is there exactly when its last change left it,
 and its version is the one that change recorded, greater than any before. A plan
 is such a sequence of writes (`PlanIsWrites`).
*/
module LedgerHistory {
  import opened Wrappers
  import opened LedgerText
  import opened LedgerStore
  import opened LedgerApply

  /** One write anyone may make: the assistant's, the user's own edits, an undo's. */
  datatype Op =
    | CreateOp(row: Row, stamp: Stamp)
    | UpdateOp(id: RowId, patch: Patch, version: Option<nat>, stamp: Stamp)
    | RemoveOp(id: RowId, version: Option<nat>, stamp: Stamp)

  /** The store after a write; a refused write changes nothing. */
  function Exec(db: Db, op: Op): Db {
    var r := match op
             case CreateOp(row, stamp) => Create(db, row, stamp)
             case UpdateOp(id, patch, version, stamp) => Update(db, id, patch, version, stamp)
             case RemoveOp(id, version, stamp) => Remove(db, id, version, stamp);
    if r.Ok? then r.value else db
  }

  function ExecAll(db: Db, ops: seq<Op>): Db {
    if ops == [] then db else Exec(ExecAll(db, ops[..|ops| - 1]), ops[|ops| - 1])
  }

  lemma {:induction false} ExecAppend(db: Db, a: seq<Op>, b: seq<Op>)
    ensures ExecAll(db, a + b) == ExecAll(ExecAll(db, a), b)
    decreases |b|
  {
    if b == [] {
      assert a + b == a;
    } else {
      assert (a + b)[..|a + b| - 1] == a + b[..|b| - 1];
      ExecAppend(db, a, b[..|b| - 1]);
    }
  }

  // ----- the log as an account of the rows -----

  /** The row as a change recorded it: all of it but a project's task counter. */
  ghost predicate AsLogged(row: Row, logged: Row) {
    if row.ProjectRow? && logged.ProjectRow? then row.(nextTask := logged.nextTask) == logged else row == logged
  }

  /** No later change is about the same row. */
  ghost predicate LastChange(log: seq<Change>, i: int) {
    0 <= i < |log| && forall j | i < j < |log| :: log[j].id != log[i].id
  }

  ghost predicate LeftBy(log: seq<Change>, i: int, id: RowId, row: Row) {
    LastChange(log, i) && log[i].id == id && log[i].after.Some? && AsLogged(row, log[i].after.value)
  }

  /** Every row is as some change of it, the last, left it. */
  ghost predicate RowsAccounted(rows: Rows, log: seq<Change>) {
    forall id <- rows :: exists i :: LeftBy(log, i, id, rows[id])
  }

  /** Every row whose last change left it is there. */
  ghost predicate NothingLost(rows: Rows, log: seq<Change>) {
    forall i | LastChange(log, i) && log[i].after.Some? :: log[i].id in rows
  }

  /** The changes of one row follow one another. */
  ghost predicate InOrder(log: seq<Change>) {
    forall i, j | 0 <= i < j < |log| && log[i].id == log[j].id :: Succeeds(log[i], log[j])
  }

  ghost predicate IdentityKept(log: seq<Change>) {
    forall i | 0 <= i < |log| && log[i].before.Some? && log[i].after.Some? ::
      SameIdentity(log[i].before.value, log[i].after.value)
  }

  ghost predicate AllIssued(db: Db) {
    && (forall i | 0 <= i < |db.log| :: db.log[i].id < db.issued)
    && (forall id <- db.rows :: id < db.issued)
  }

  ghost predicate Recorded(db: Db) {
    AllIssued(db) && RowsAccounted(db.rows, db.log) && NothingLost(db.rows, db.log) && InOrder(db.log)
        && IdentityKept(db.log)
  }

  /** A later change of a row found it there, and moved its version on or removed it. */
  ghost predicate Succeeds(earlier: Change, later: Change) {
    && earlier.after.Some? && later.before.Some?
    && (later.after.Some? ==> earlier.after.value.version < later.after.value.version)
    && SameIdentity(earlier.after.value, later.before.value)
  }

  lemma LastAfterAppend(log: seq<Change>, c: Change, i: int)
    ensures LastChange(log + [c], i) <==> i == |log| || (LastChange(log, i) && log[i].id != c.id)
  {
    var log' := log + [c];
    if LastChange(log', i) && i != |log| {
      forall j | i < j < |log| ensures log[j].id != log[i].id { assert log'[j].id != log'[i].id; }
      assert log'[|log|] == c;
    }
  }

  /** A row untouched, or whose counter moved, keeps the change that left it. */
  lemma LeftStays(log: seq<Change>, c: Change, i: int, id: RowId, row: Row, row': Row)
    requires LeftBy(log, i, id, row) && id != c.id && AsLogged(row', row)
    ensures LeftBy(log + [c], i, id, row')
  {
    LastAfterAppend(log, c, i);
  }

  /** `c` takes `rows` to `rows'`: it is about one row, the rest keep what was logged. */
  ghost predicate Changes(rows: Rows, c: Change, rows': Rows) {
    && (forall id <- rows' | id != c.id :: id in rows && AsLogged(rows'[id], rows[id]))
    && (forall id <- rows | id != c.id :: id in rows')
    && (c.after.Some? <==> c.id in rows')
    && (c.after.Some? ==> rows'[c.id] == c.after.value)
    && (c.before.Some? ==> c.id in rows && c.before.value == rows[c.id])
    && (c.before.Some? && c.after.Some? ==>
          c.before.value.version < c.after.value.version && SameIdentity(c.before.value, c.after.value))
  }

  lemma AppendAccounted(rows: Rows, log: seq<Change>, c: Change, rows': Rows)
    requires RowsAccounted(rows, log) && Changes(rows, c, rows')
    ensures RowsAccounted(rows', log + [c])
  {
    forall id <- rows' ensures exists i :: LeftBy(log + [c], i, id, rows'[id]) {
      if id == c.id {
        assert LeftBy(log + [c], |log|, id, rows'[id]);
      } else {
        var i :| LeftBy(log, i, id, rows[id]);
        LeftStays(log, c, i, id, rows[id], rows'[id]);
      }
    }
  }

  lemma AppendLosesNothing(rows: Rows, log: seq<Change>, c: Change, rows': Rows)
    requires NothingLost(rows, log) && Changes(rows, c, rows')
    ensures NothingLost(rows', log + [c])
  {
    var log' := log + [c];
    forall i | LastChange(log', i) && log'[i].after.Some? ensures log'[i].id in rows' {
      LastAfterAppend(log, c, i);
      if i < |log| {
        assert log'[i] == log[i];
      }
    }
  }

  lemma AppendInOrder(db: Db, c: Change, rows': Rows)
    requires Recorded(db) && Changes(db.rows, c, rows') && (c.before.None? ==> c.id >= db.issued)
    ensures InOrder(db.log + [c])
  {
    var log' := db.log + [c];
    forall i, j | 0 <= i < j < |log'| && log'[i].id == log'[j].id ensures Succeeds(log'[i], log'[j]) {
      if j == |db.log| {
        AppendSucceeds(db, c, i);
      }
    }
  }

  /** A change of a row that is there comes after all its earlier changes. */
  lemma AppendSucceeds(db: Db, c: Change, i: nat)
    requires Recorded(db) && i < |db.log| && db.log[i].id == c.id
    requires if c.before.Some? then c.id in db.rows && c.before.value == db.rows[c.id] else c.id >= db.issued
    requires c.before.Some? && c.after.Some? ==> c.before.value.version < c.after.value.version
    ensures Succeeds(db.log[i], c)
  {
    if c.before.Some? {
      var last :| LeftBy(db.log, last, c.id, db.rows[c.id]);
      if i < last {
        assert Succeeds(db.log[i], db.log[last]);
      }
    }
  }

  /** A row is put back only between recorded states of one row. */
  ghost predicate WellFormed(op: Op) {
    op.UpdateOp? && op.patch.PutBack? ==> SameIdentity(op.patch.before, op.patch.after)
  }

  lemma PatchedKeepsIdentity(row: Row, patch: Patch)
    requires patch.PutBack? ==> SameIdentity(patch.before, patch.after)
    ensures SameIdentity(row, Patched(row, patch))
  {
  }

  /** `db'` is `db` after one more change, of a row drawn by now. */
  ghost predicate Grows(db: Db, c: Change, db': Db) {
    && db'.log == db.log + [c] && Changes(db.rows, c, db'.rows) && (c.before.None? ==> c.id >= db.issued)
    && db.issued <= db'.issued && c.id < db'.issued
  }

  /** One more change of a store whose log was an account of it. */
  lemma AppendRecorded(db: Db, c: Change, db': Db)
    requires Recorded(db) && Grows(db, c, db')
    ensures Recorded(db')
  {
    AppendAccounted(db.rows, db.log, c, db'.rows);
    AppendLosesNothing(db.rows, db.log, c, db'.rows);
    AppendInOrder(db, c, db'.rows);
  }

  lemma CreateGrows(db: Db, row: Row, stamp: Stamp)
    requires AllIssued(db) && Create(db, row, stamp).Ok?
    ensures var db' := Create(db, row, stamp).value;
            db.issued in db'.rows && Grows(db, Change(stamp, db.issued, None, Some(db'.rows[db.issued])), db')
  {
  }

  lemma UpdateGrows(db: Db, id: RowId, patch: Patch, version: Option<nat>, stamp: Stamp)
    requires AllIssued(db) && Update(db, id, patch, version, stamp).Ok?
    requires patch.PutBack? ==> SameIdentity(patch.before, patch.after)
    ensures var db' := Update(db, id, patch, version, stamp).value;
            id in db.rows && id in db'.rows && Grows(db, Change(stamp, id, Some(db.rows[id]), Some(db'.rows[id])), db')
  {
    hide Patched;
    PatchedKeepsIdentity(db.rows[id], patch);
  }

  lemma RemoveGrows(db: Db, id: RowId, version: Option<nat>, stamp: Stamp)
    requires AllIssued(db) && Remove(db, id, version, stamp).Ok?
    ensures var db' := Remove(db, id, version, stamp).value;
            id in db.rows && Grows(db, Change(stamp, id, Some(db.rows[id]), None), db')
  {
  }

  lemma ExecRecorded(db: Db, op: Op)
    requires Recorded(db) && WellFormed(op)
    ensures Recorded(Exec(db, op))
  {
    hide RowsAccounted, NothingLost, InOrder, IdentityKept, Create, Update, Remove, Changes, SameIdentity;
    var db' := Exec(db, op);
    match op
    case CreateOp(row, stamp) =>
      if Create(db, row, stamp).Ok? {
        CreateGrows(db, row, stamp);
        AppendRecorded(db, Change(stamp, db.issued, None, Some(db'.rows[db.issued])), db');
      }
    case UpdateOp(id, patch, version, stamp) =>
      if Update(db, id, patch, version, stamp).Ok? {
        UpdateGrows(db, id, patch, version, stamp);
        AppendRecorded(db, Change(stamp, id, Some(db.rows[id]), Some(db'.rows[id])), db');
      }
    case RemoveOp(id, version, stamp) =>
      if Remove(db, id, version, stamp).Ok? {
        RemoveGrows(db, id, version, stamp);
        AppendRecorded(db, Change(stamp, id, Some(db.rows[id]), None), db');
      }
  }

  lemma ExecValid(db: Db, op: Op)
    requires Valid(db) && WellFormed(op)
    ensures Valid(Exec(db, op))
  {
    if op.UpdateOp? && op.id in db.rows {
      PatchedKeepsIdentity(db.rows[op.id], op.patch);
    }
  }

  /** A new ledger is recorded: so every state it can reach is. */
  lemma EmptyIsRecorded()
    ensures Recorded(EMPTY) && Valid(EMPTY)
  {
    assert RowsAccounted(EMPTY.rows, EMPTY.log) && NothingLost(EMPTY.rows, EMPTY.log);
  }

  /** Whatever was ever written, by anyone, the log is a full account of it. */
  lemma {:induction false} EveryStateIsRecorded(db: Db, ops: seq<Op>)
    requires Recorded(db) && Valid(db) && forall op <- ops :: WellFormed(op)
    ensures Recorded(ExecAll(db, ops)) && Valid(ExecAll(db, ops))
    decreases |ops|
  {
    if ops != [] {
      EveryStateIsRecorded(db, ops[..|ops| - 1]);
      ExecRecorded(ExecAll(db, ops[..|ops| - 1]), ops[|ops| - 1]);
      ExecValid(ExecAll(db, ops[..|ops| - 1]), ops[|ops| - 1]);
    }
  }

  // ----- a plan is a sequence of writes -----

  /** The writes a plan makes: new rows and new fields of tasks, under the call's
      stamp; and links, which carry no cause. It removes nothing. */
  ghost predicate PlanWrite(call: Call, op: Op) {
    match op
    case CreateOp(row, stamp) => if row.LinkRow? then stamp.cause == None else stamp == StampOf(call)
    case UpdateOp(id, patch, version, stamp) => patch.SetTask? && version == None && stamp == StampOf(call)
    case RemoveOp(_, _, _) => false
  }

  ghost predicate IsWrites(call: Call, db: Db, db': Db, ops: seq<Op>) {
    db' == ExecAll(db, ops) && forall op <- ops :: PlanWrite(call, op)
  }

  lemma OneWrite(db: Db, op: Op)
    ensures ExecAll(db, [op]) == Exec(db, op)
  {
    assert [op][..0] == [];
  }

  lemma TwoWrites(db: Db, a: Op, b: Op)
    ensures ExecAll(db, [a, b]) == Exec(Exec(db, a), b)
  {
    assert [a, b][..1] == [a];
    OneWrite(db, a);
  }

  /** A new row under the call's stamp, and perhaps a link. */
  lemma CreateIsWrites(call: Call, db: Db, row: Row, db': Db, toRef: string, caption: Option<string>,
                       todo: Option<string>)
    returns (ops: seq<Op>)
    requires !row.LinkRow? && Create(db, row, StampOf(call)).Ok?
    requires var mid := Create(db, row, StampOf(call)).value;
             db' == mid || db' == Link(mid, db.issued, toRef, caption, todo, call.user, call.actor)
    ensures IsWrites(call, db, db', ops)
  {
    var mid := Create(db, row, StampOf(call)).value;
    var create := CreateOp(row, StampOf(call));
    if db' == mid {
      ops := [create];
      OneWrite(db, create);
    } else {
      var link := CreateOp(LinkRow(db.issued, toRef, caption, todo, 1), Stamp(call.user, call.actor, None));
      ops := [create, link];
      TwoWrites(db, create, link);
    }
  }

  lemma CreateProjectIsWrites(call: Call, run: Run, c: PlanChange) returns (ops: seq<Op>)
    requires CreateProject(call, run, c).Ok?
    ensures IsWrites(call, run.db, CreateProject(call, run, c).value.db, ops)
  {
    var thread := if HasConversation(call) then call.thread.value else "";
    ops := CreateIsWrites(call, run.db, ProjectToCreate(call, c).value, CreateProject(call, run, c).value.db, thread,
                          Some("The chat it was captured in"), None);
  }

  lemma CreateTaskIsWrites(call: Call, run: Run, c: PlanChange, target: Target) returns (ops: seq<Op>)
    requires IsProject(run.db.rows, target.project) && CreateTask(call, run, c, target).Ok?
    ensures IsWrites(call, run.db, CreateTask(call, run, c, target).value.db, ops)
  {
    var thread := if HasConversation(call) then call.thread.value else "";
    ops := CreateIsWrites(call, run.db, TaskToCreate(call, run, c, target).value,
                          CreateTask(call, run, c, target).value.db,
                          thread, None, Some(Cut(Str(Get(c, "todo_ref")), 300)));
  }

  lemma CreateGoalIsWrites(call: Call, run: Run, c: PlanChange, target: Target) returns (ops: seq<Op>)
    requires CreateGoal(call, run, c, target).Ok?
    ensures IsWrites(call, run.db, CreateGoal(call, run, c, target).value.db, ops)
  {
    ops := CreateIsWrites(call, run.db, GoalToCreate(call, c, target.project).value,
                          CreateGoal(call, run, c, target).value.db, "", None, None);
  }

  lemma AddNoteIsWrites(call: Call, run: Run, c: PlanChange, target: Target) returns (ops: seq<Op>)
    requires AddNote(call, run, c, target).Ok?
    ensures IsWrites(call, run.db, AddNote(call, run, c, target).value.db, ops)
  {
    ops := CreateIsWrites(call, run.db, NoteToCreate(call, c, target.project).value,
                          AddNote(call, run, c, target).value.db, "", None, None);
  }

  lemma LinkThreadIsWrites(call: Call, run: Run, c: PlanChange, target: Target) returns (ops: seq<Op>)
    requires LinkThread(call, run, c, target).Ok?
    ensures IsWrites(call, run.db, LinkThread(call, run, c, target).value.db, ops)
  {
    var db' := LinkThread(call, run, c, target).value.db;
    if db' == run.db {
      ops := [];
    } else {
      var link := CreateOp(LinkRow(target.project, call.thread.value, OptionalText(call.rt, c, "label", 300).value,
                                   None, 1),
                           Stamp(call.user, call.actor, None));
      ops := [link];
      OneWrite(run.db, link);
    }
  }

  lemma UpdateTaskIsWrites(call: Call, run: Run, c: PlanChange, target: Target, task: RowId) returns (ops: seq<Op>)
    requires IsTask(run.db.rows, task) && UpdateTask(call, run, c, target, task).Ok?
    ensures IsWrites(call, run.db, UpdateTask(call, run, c, target, task).value.db, ops)
  {
    var update := UpdateOp(task, SetTask(ReadTaskFields(call.rt, c).value), None, StampOf(call));
    ops := [update];
    OneWrite(run.db, update);
  }

  lemma StepIsWrites(call: Call, run: Run, c: PlanChange) returns (ops: seq<Op>)
    requires Step(call, run, c).Ok?
    ensures IsWrites(call, run.db, Step(call, run, c).value.db, ops)
  {
    if c.op == "create_project" {
      ops := CreateProjectIsWrites(call, run, c);
    } else {
      var target := ResolveTarget(call, run, c).value;
      match c.op
      case "update_task" => ops := UpdateTaskIsWrites(call, run, c, target, UpdatedTaskOf(call, run, c, target).value);
      case "create_task" => ops := CreateTaskIsWrites(call, run, c, target);
      case "create_goal" => ops := CreateGoalIsWrites(call, run, c, target);
      case "add_note" => ops := AddNoteIsWrites(call, run, c, target);
      case _ => ops := LinkThreadIsWrites(call, run, c, target);
    }
  }

  lemma JoinWrites(call: Call, a: Db, b: Db, c: Db, first: seq<Op>, rest: seq<Op>)
    requires IsWrites(call, a, b, first) && IsWrites(call, b, c, rest)
    ensures IsWrites(call, a, c, first + rest)
  {
    ExecAppend(a, first, rest);
  }

  lemma {:induction false} StepsAreWrites(call: Call, run: Run, changes: seq<PlanChange>) returns (ops: seq<Op>)
    requires Steps(call, run, changes).Ok?
    ensures IsWrites(call, run.db, Steps(call, run, changes).value.db, ops)
    decreases |changes|
  {
    if changes == [] {
      ops := [];
    } else {
      var next := Step(call, run, changes[0]).value;
      var first := StepIsWrites(call, run, changes[0]);
      var rest := StepsAreWrites(call, next, changes[1..]);
      ops := first + rest;
      JoinWrites(call, run.db, next.db, Steps(call, run, changes).value.db, first, rest);
    }
  }

  /** A card is some writes under the call's stamp, and so are several in one transaction. */
  lemma {:induction false} PlanIsWrites(call: Call, db: Db, cards: seq<(seq<PlanChange>, Option<string>)>)
    returns (ops: seq<Op>)
    requires ApplyCards(call, db, cards).Ok?
    ensures IsWrites(call, db, ApplyCards(call, db, cards).value, ops)
    decreases |cards|
  {
    if cards == [] {
      ops := [];
    } else {
      var caller := call.(thread := cards[0].1);
      var mid := ApplyIn(caller, db, cards[0].0).value.db;
      var first := StepsAreWrites(caller, Start(db), cards[0].0);
      assert forall op <- first :: PlanWrite(caller, op) ==> PlanWrite(call, op);
      var rest := PlanIsWrites(call, mid, cards[1..]);
      ops := first + rest;
      JoinWrites(call, db, mid, ApplyCards(call, db, cards).value, first, rest);
    }
  }
}
