/**
 The ledger's store (backend/packages/harness/omniharness/persistence/ledger/sql.py):
 rows with a version each, and an append-only log of every change, with the row
 before and after it and what caused it.

 `Db` is the store as a value, with one function per write; `LedgerRepository`
 is the store the program updates in place, each method proved to do what its
 function says.
*/
module LedgerStore {
  import opened Wrappers
  import opened LedgerText

  datatype Owner = Owner(kind: string, ref: Option<string>)

  datatype Row =
    | ProjectRow(owner: string, name: string, why: Option<string>, context: Option<string>, status: string,
                 nextTask: nat, version: nat)
    | GoalRow(project: RowId, title: string, definitionOfDone: string, targetDate: Option<Date>, version: nat)
    | TaskRow(project: RowId, number: nat, title: string, status: string, assignee: Option<Owner>,
              dueDate: Option<Date>, goal: Option<RowId>, version: nat)
    | NoteRow(project: RowId, decided: string, why: Option<string>, thread: Option<string>, version: nat)
    | LinkRow(fromId: RowId, toRef: string, caption: Option<string>, todoRef: Option<string>, version: nat)

  type Rows = map<RowId, Row>

  /** Who writes, and why: the `pending_action_id` of the source is `cause`. */
  datatype Stamp = Stamp(owner: string, actor: string, cause: Option<string>)

  datatype Change = Change(stamp: Stamp, id: RowId, before: Option<Row>, after: Option<Row>)

  /** `issued` counts the ids ever drawn: an id is never drawn twice. */
  datatype Db = Db(rows: Rows, log: seq<Change>, issued: nat)

  const EMPTY := Db(map[], [], 0)

  datatype TaskFields = TaskFields(
    title: Option<string>,
    status: Option<string>,
    dueDate: Option<Option<Date>>,
    assignee: Option<Option<Owner>>)

  /** What an update sets: named fields of a task; any fields at all, as the user's
      own edits do; or every field that differs between two recorded states of the
      row, put back to the earlier one. */
  datatype Patch = SetTask(fields: TaskFields) | SetRow(to: Row) | PutBack(before: Row, after: Row)

  /** The same sort of row, in the same place: no write moves a row or renumbers it. */
  predicate SameIdentity(a: Row, b: Row) {
    match a
    case ProjectRow(owner, _, _, _, _, _, _) => b.ProjectRow? && b.owner == owner
    case GoalRow(project, _, _, _, _) => b.GoalRow? && b.project == project
    case TaskRow(project, number, _, _, _, _, _, _) => b.TaskRow? && b.project == project && b.number == number
    case NoteRow(project, _, _, _, _) => b.NoteRow? && b.project == project
    case LinkRow(from, _, _, _, _) => b.LinkRow? && b.fromId == from
  }

  function Restored<T(==)>(current: T, before: T, after: T): T {
    if before != after then before else current
  }

  /** The row's fields after a patch; the version is the caller's to move. */
  function Patched(row: Row, patch: Patch): Row {
    match patch
    case SetTask(f) =>
      if !row.TaskRow? then row
      else row.(title := if f.title.Some? then f.title.value else row.title,
                status := if f.status.Some? then f.status.value else row.status,
                dueDate := if f.dueDate.Some? then f.dueDate.value else row.dueDate,
                assignee := if f.assignee.Some? then f.assignee.value else row.assignee)
    case SetRow(to) => if SameIdentity(row, to) then to else row
    case PutBack(b, a) =>
      match row
      case ProjectRow(owner, name, why, context, status, nextTask, version) =>
        if !b.ProjectRow? || !a.ProjectRow? then row
        else ProjectRow(Restored(owner, b.owner, a.owner), Restored(name, b.name, a.name),
                        Restored(why, b.why, a.why), Restored(context, b.context, a.context),
                        Restored(status, b.status, a.status), Restored(nextTask, b.nextTask, a.nextTask), version)
      case GoalRow(project, title, definition, target, version) =>
        if !b.GoalRow? || !a.GoalRow? then row
        else GoalRow(Restored(project, b.project, a.project), Restored(title, b.title, a.title),
                     Restored(definition, b.definitionOfDone, a.definitionOfDone),
                     Restored(target, b.targetDate, a.targetDate), version)
      case TaskRow(project, number, title, status, assignee, due, goal, version) =>
        if !b.TaskRow? || !a.TaskRow? then row
        else TaskRow(Restored(project, b.project, a.project), Restored(number, b.number, a.number),
                     Restored(title, b.title, a.title), Restored(status, b.status, a.status),
                     Restored(assignee, b.assignee, a.assignee), Restored(due, b.dueDate, a.dueDate),
                     Restored(goal, b.goal, a.goal), version)
      case NoteRow(project, decided, why, thread, version) =>
        if !b.NoteRow? || !a.NoteRow? then row
        else NoteRow(Restored(project, b.project, a.project), Restored(decided, b.decided, a.decided),
                     Restored(why, b.why, a.why), Restored(thread, b.thread, a.thread), version)
      case LinkRow(from, toRef, caption, todo, version) =>
        if !b.LinkRow? || !a.LinkRow? then row
        else LinkRow(Restored(from, b.fromId, a.fromId), Restored(toRef, b.toRef, a.toRef),
                     Restored(caption, b.caption, a.caption), Restored(todo, b.todoRef, a.todoRef), version)
  }

  predicate IsProject(rows: Rows, id: RowId) {
    id in rows && rows[id].ProjectRow?
  }

  predicate IsTask(rows: Rows, id: RowId) {
    id in rows && rows[id].TaskRow?
  }

  /** Every row's id was drawn, and a task is younger than its project. */
  ghost predicate Valid(db: Db) {
    && (forall id <- db.rows :: id < db.issued)
    && (forall id <- db.rows | db.rows[id].TaskRow? :: db.rows[id].project < id)
  }

  // ----- the writes, as functions of the store -----

  datatype WriteError = NoSuchProject | RowGone | Stale

  /** A new row, under the id drawn next. A task takes its project's next number,
      and moves that counter on: an edit of the project's row that is not logged
      and does not move its version. */
  function Create(db: Db, row: Row, stamp: Stamp): Result<Db, WriteError> {
    if row.TaskRow? then
      if !IsProject(db.rows, row.project) then Err(NoSuchProject)
      else
        var project := db.rows[row.project];
        var numbered := row.(number := project.nextTask);
        Ok(Inserted(db.(rows := db.rows[row.project := project.(nextTask := project.nextTask + 1)]), numbered, stamp))
    else
      Ok(Inserted(db, row, stamp))
  }

  function Inserted(db: Db, row: Row, stamp: Stamp): Db {
    Db(db.rows[db.issued := row], db.log + [Change(stamp, db.issued, None, Some(row))], db.issued + 1)
  }

  function Update(db: Db, id: RowId, patch: Patch, version: Option<nat>, stamp: Stamp): Result<Db, WriteError> {
    if id !in db.rows || (patch.SetTask? && !db.rows[id].TaskRow?) then Err(RowGone)
    else if version.Some? && db.rows[id].version != version.value then Err(Stale)
    else
      var before := db.rows[id];
      var after := Patched(before, patch).(version := before.version + 1);
      Ok(Db(db.rows[id := after], db.log + [Change(stamp, id, Some(before), Some(after))], db.issued))
  }

  function Remove(db: Db, id: RowId, version: Option<nat>, stamp: Stamp): Result<Db, WriteError> {
    if id !in db.rows then Err(RowGone)
    else if version.Some? && db.rows[id].version != version.value then Err(Stale)
    else Ok(Db(db.rows - {id}, db.log + [Change(stamp, id, Some(db.rows[id]), None)], db.issued))
  }

  predicate Linked(db: Db, fromId: RowId, toRef: string) {
    exists id :: id in db.rows && db.rows[id].LinkRow? && db.rows[id].fromId == fromId && db.rows[id].toRef == toRef
  }

  /** Idempotent: a pair already linked stays as it is. A link is logged without a cause. */
  function Link(db: Db, fromId: RowId, toRef: string, caption: Option<string>, todoRef: Option<string>, owner: string,
                actor: string): Db {
    if Linked(db, fromId, toRef) then db
    else Inserted(db, LinkRow(fromId, toRef, caption, todoRef, 1), Stamp(owner, actor, None))
  }

  /** The changes one write recorded, oldest first. */
  function CausedBy(log: seq<Change>, owner: string, cause: string): seq<Change> {
    if log == [] then []
    else
      var last := log[|log| - 1];
      CausedBy(log[..|log| - 1], owner, cause) +
      if last.stamp.owner == owner && last.stamp.cause == Some(cause) then [last] else []
  }

  // ----- the store updated in place -----

  class LedgerRepository {
    var rows: Rows
    var log: seq<Change>
    var issued: nat

    constructor ()
      ensures Contents() == EMPTY
    {
      rows, log, issued := map[], [], 0;
    }

    function Contents(): Db
      reads this
    {
      Db(rows, log, issued)
    }

    /** Rolls the store back to what it held when a transaction began. */
    method Restore(saved: Db)
      modifies this
      ensures Contents() == saved
    {
      rows, log, issued := saved.rows, saved.log, saved.issued;
    }

    method CreateRow(row: Row, stamp: Stamp) returns (r: Result<RowId, WriteError>)
      modifies this
      ensures match Create(old(Contents()), row, stamp)
              case Err(e) => r == Err(e) && Contents() == old(Contents())
              case Ok(db) => r == Ok(old(issued)) && Contents() == db
    {
      var fields := row;
      if row.TaskRow? {
        if row.project !in rows || !rows[row.project].ProjectRow? {
          return Err(NoSuchProject);
        }
        var project := rows[row.project];
        fields := row.(number := project.nextTask);
        rows := rows[row.project := project.(nextTask := project.nextTask + 1)];
      }
      var id := issued;
      issued := issued + 1;
      rows := rows[id := fields];
      log := log + [Change(stamp, id, None, Some(fields))];
      return Ok(id);
    }

    method UpdateRow(id: RowId, patch: Patch, version: Option<nat>, stamp: Stamp) returns (r: Result<Row, WriteError>)
      modifies this
      ensures match Update(old(Contents()), id, patch, version, stamp)
              case Err(e) => r == Err(e) && Contents() == old(Contents())
              case Ok(db) => Contents() == db && id in db.rows && r == Ok(db.rows[id])
    {
      if id !in rows || (patch.SetTask? && !rows[id].TaskRow?) {
        return Err(RowGone);
      }
      var before := rows[id];
      if version.Some? && before.version != version.value {
        return Err(Stale);
      }
      var after := Patched(before, patch).(version := before.version + 1);
      rows := rows[id := after];
      log := log + [Change(stamp, id, Some(before), Some(after))];
      return Ok(after);
    }

    method RemoveRow(id: RowId, version: Option<nat>, stamp: Stamp) returns (r: Result<(), WriteError>)
      modifies this
      ensures match Remove(old(Contents()), id, version, stamp)
              case Err(e) => r == Err(e) && Contents() == old(Contents())
              case Ok(db) => r == Ok(()) && Contents() == db
    {
      if id !in rows {
        return Err(RowGone);
      }
      var before := rows[id];
      if version.Some? && before.version != version.value {
        return Err(Stale);
      }
      log := log + [Change(stamp, id, Some(before), None)];
      rows := rows - {id};
      return Ok(());
    }

    method LinkRows(fromId: RowId, toRef: string, caption: Option<string>, todoRef: Option<string>, owner: string,
                    actor: string)
      modifies this
      ensures Contents() == Link(old(Contents()), fromId, toRef, caption, todoRef, owner, actor)
    {
      if !Linked(Contents(), fromId, toRef) {
        var _ := CreateRow(LinkRow(fromId, toRef, caption, todoRef, 1), Stamp(owner, actor, None));
      }
    }

    method ChangesCausedBy(owner: string, cause: string) returns (found: seq<Change>)
      ensures found == CausedBy(log, owner, cause)
    {
      found := [];
      for i := 0 to |log|
        invariant found == CausedBy(log[..i], owner, cause)
      {
        assert log[..i + 1][..i] == log[..i];
        if log[i].stamp.owner == owner && log[i].stamp.cause == Some(cause) {
          found := found + [log[i]];
        }
      }
      assert log[..|log|] == log;
    }
  }
}
