/**
 What an undo leaves behind. The ledger's foreign keys (a goal's, task's or note's
 project, a task's goal) are declared but not enforced by the SQLite engine, and an
 undo looks at no row but its own: undoing the write that created a project strands
 whatever others put under it since. Main result: exactly which rows
 (`UndoStrandsIff`).
*/
module LedgerStranded {
  import opened Wrappers
  import opened LedgerText
  import opened LedgerStore
  import opened LedgerHistory
  import opened LedgerUndo
  import opened LedgerUndoMany

  /** A goal, task or note whose project is gone. */
  predicate Stranded(rows: Rows, id: RowId) {
    id in rows && (rows[id].GoalRow? || rows[id].TaskRow? || rows[id].NoteRow?) && !IsProject(rows, rows[id].project)
  }

  predicate IsGoal(rows: Rows, id: RowId) {
    id in rows && rows[id].GoalRow?
  }

  /** A task whose goal is gone. */
  predicate GoalLost(rows: Rows, id: RowId) {
    IsTask(rows, id) && rows[id].goal.Some? && !IsGoal(rows, rows[id].goal.value)
  }

  /** The write created this row, so undoing it removes the row. */
  predicate CreatedBy(log: seq<Change>, user: string, write: string, id: RowId) {
    var slots := TouchedBy(log, user, write).slots;
    id in slots && slots[id].before.None?
  }

  /** An undo keeps every row the write did not create, as the same sort of row in
      the same place. */
  lemma RowAfterUndo(db: Db, user: string, write: string, id: RowId)
    requires Recorded(db) && UndoOne(db, user, write).Ok?
    ensures var rows := UndoOne(db, user, write).value.rows;
            && (id in rows <==> id in db.rows && !CreatedBy(db.log, user, write, id))
            && (id in rows ==> SameIdentity(db.rows[id], rows[id]))
            && (id in rows && id !in TouchedBy(db.log, user, write).slots ==> rows[id] == db.rows[id])
  {
    hide Recorded, UndoOne, TouchedBy;
    UndoIff(db, user, write);
    var t := TouchedBy(db.log, user, write);
    if id in t.slots {
      assert id in t.order;
      SlotIdentity(db, user, write, id);
      if t.slots[id].before.Some? {
        PatchedKeepsIdentity(db.rows[id], PutBack(t.slots[id].before.value, t.slots[id].after.value));
      }
    } else {
      assert id !in t.order;
    }
  }

  /** After an undo, a row's project is gone exactly when the row was there before,
      the write did not create it, and its project was already gone or is one the
      write created; and the same of a task's goal. */
  lemma UndoStrandsIff(db: Db, user: string, write: string, id: RowId)
    requires Recorded(db) && UndoOne(db, user, write).Ok?
    ensures var rows := UndoOne(db, user, write).value.rows;
            && (Stranded(rows, id)
                <==> && id in db.rows && (db.rows[id].GoalRow? || db.rows[id].TaskRow? || db.rows[id].NoteRow?)
                     && !CreatedBy(db.log, user, write, id)
                     && (Stranded(db.rows, id) || CreatedBy(db.log, user, write, db.rows[id].project)))
            && (IsTask(rows, id) ==>
                  (GoalLost(rows, id)
                   <==> && rows[id].goal.Some?
                        && (!IsGoal(db.rows, rows[id].goal.value)
                            || CreatedBy(db.log, user, write, rows[id].goal.value))))
  {
    hide Recorded, UndoOne, CreatedBy;
    RowAfterUndo(db, user, write, id);
    if id in db.rows && !db.rows[id].ProjectRow? && !db.rows[id].LinkRow? {
      RowAfterUndo(db, user, write, db.rows[id].project);
    }
    var rows := UndoOne(db, user, write).value.rows;
    if IsTask(rows, id) && rows[id].goal.Some? {
      RowAfterUndo(db, user, write, rows[id].goal.value);
    }
  }

  lemma StillUnchanged(db: Db, c: Change, user: string, write: string)
    requires AllIssued(db) && Unchanged(db.log, user, write) && c.id >= db.issued && !By(c, user, write)
    ensures Unchanged(db.log + [c], user, write)
  {
    var log := db.log + [c];
    forall i, id: RowId | LastBy(log, user, write, i, id) ensures LastChange(log, i) && log[i].after.Some? {
      assert i < |db.log|;
      assert forall j | i < j < |db.log| :: log[j] == db.log[j];
      assert LastBy(db.log, user, write, i, id);
      LastAfterAppend(db.log, c, i);
    }
  }

  predicate Foreign(stamp: Stamp, user: string, write: string) {
    stamp.owner == user ==> stamp.cause != Some(write) && stamp.cause != Some(UndoCause(write))
  }

  lemma AddedIsLogged(db: Db, row: Row, stamp: Stamp)
    requires Create(db, row, stamp).Ok?
    ensures exists after :: Create(db, row, stamp).value.log == db.log + [Change(stamp, db.issued, None, after)]
  {
  }

  lemma ForeignChange(log: seq<Change>, c: Change, user: string, write: string)
    requires Foreign(c.stamp, user, write)
    ensures CausedBy(log + [c], user, write) == CausedBy(log, user, write)
    ensures CausedBy(log + [c], user, UndoCause(write)) == CausedBy(log, user, UndoCause(write))
  {
    CausedByOneMore(log, log + [c], user, write);
    CausedByOneMore(log, log + [c], user, UndoCause(write));
  }

  /** A row somebody adds does not keep a write from being undone: it moves no version
      of the write's rows, not even its project's. */
  lemma AddedRowDoesNotRefuse(db: Db, user: string, write: string, row: Row, stamp: Stamp)
    requires Recorded(db) && UndoOne(db, user, write).Ok? && Create(db, row, stamp).Ok? && Foreign(stamp, user, write)
    ensures var db' := Create(db, row, stamp).value;
            UndoOne(db', user, write).Ok? && TouchedBy(db'.log, user, write) == TouchedBy(db.log, user, write)
  {
    hide Recorded, UndoOne, Unchanged, Create, CausedBy, Entities;
    var db' := Create(db, row, stamp).value;
    AddedRecorded(db, row, stamp);
    AddedIsLogged(db, row, stamp);
    var after :| db'.log == db.log + [Change(stamp, db.issued, None, after)];
    var c := Change(stamp, db.issued, None, after);
    UndoIff(db, user, write);
    UndoIff(db', user, write);
    StillUnchanged(db, c, user, write);
    ForeignChange(db.log, c, user, write);
  }

  lemma AddedRecorded(db: Db, row: Row, stamp: Stamp)
    requires Recorded(db) && Create(db, row, stamp).Ok?
    ensures Recorded(Create(db, row, stamp).value) && AllIssued(db)
  {
    ExecRecorded(db, CreateOp(row, stamp));
  }

  /** So a task put under a project the write created is stranded by the write's undo,
      which succeeds. */
  lemma AddedTaskIsStranded(db: Db, user: string, write: string, row: Row, stamp: Stamp)
    requires Recorded(db) && UndoOne(db, user, write).Ok? && Create(db, row, stamp).Ok?
    requires row.TaskRow? && CreatedBy(db.log, user, write, row.project) && Foreign(stamp, user, write)
    ensures var undone := UndoOne(Create(db, row, stamp).value, user, write);
            undone.Ok? && Stranded(undone.value.rows, db.issued)
  {
    hide Recorded, UndoOne, Stranded, TouchedBy;
    var db' := Create(db, row, stamp).value;
    AddedRowDoesNotRefuse(db, user, write, row, stamp);
    AddedRecorded(db, row, stamp);
    UndoStrandsIff(db', user, write, db.issued);
    NewRowIsOthers(db, user, write);
  }

  lemma NewRowIsOthers(db: Db, user: string, write: string)
    requires AllIssued(db)
    ensures db.issued !in TouchedBy(db.log, user, write).slots
  {
    TouchedByLast(db.log, user, write);
  }
}
