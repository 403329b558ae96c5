/**
 The ledger service (backend/app/ledger/service.py): plans applied, checked
 without writing, applied in batches, and undone, over a store updated in place.
 Each method is proved to do what LedgerApply and LedgerUndo say.
*/
module Ledger {
  import opened Wrappers
  import opened LedgerText
  import opened LedgerStore
  import opened LedgerApply
  import opened LedgerUndo

  lemma {:induction false} StepsSnoc(call: Call, run: Run, changes: seq<PlanChange>, c: PlanChange)
    ensures Steps(call, run, changes + [c]) ==
            match Steps(call, run, changes)
            case Err(e) => Err(e)
            case Ok(mid) => Step(call, mid, c)
    decreases |changes|
  {
    hide Step;
    if changes == [] {
      assert changes + [c] == [c];
    } else {
      assert (changes + [c])[1..] == changes[1..] + [c];
      var next := Step(call, run, changes[0]);
      if next.Ok? {
        StepsSnoc(call, next.value, changes[1..], c);
      }
    }
  }

  lemma {:induction false} StepsStop(call: Call, run: Run, changes: seq<PlanChange>, i: nat)
    requires i <= |changes|
    requires Steps(call, run, changes[..i]).Err?
    ensures Steps(call, run, changes) == Steps(call, run, changes[..i])
    decreases |changes|
  {
    hide Step;
    if i > 0 {
      assert changes[..i][1..] == changes[1..][..i - 1];
      var next := Step(call, run, changes[0]);
      if next.Ok? {
        StepsStop(call, next.value, changes[1..], i - 1);
      }
    }
  }

  /** Card `i`, applied where the cards before it left the ledger. */
  function CardAt(call: Call, db: Db, cards: seq<(seq<PlanChange>, Option<string>)>, i: nat): Result<Run, LedgerError>
    requires i < |cards|
  {
    var before :- ApplyCards(call, db, cards[..i]);
    ApplyIn(call.(thread := cards[i].1), before, cards[i].0)
  }

  lemma {:induction false} CardsSnoc(call: Call, db: Db, cards: seq<(seq<PlanChange>, Option<string>)>, i: nat)
    requires i < |cards|
    ensures ApplyCards(call, db, cards[..i + 1]) ==
            match CardAt(call, db, cards, i)
            case Err(e) => Err(e)
            case Ok(run) => Ok(run.db)
    decreases |cards|
  {
    hide ApplyIn;
    assert cards[..i + 1][1..] == cards[1..][..i];
    if i > 0 {
      assert cards[..i][1..] == cards[1..][..i - 1];
      var first := ApplyIn(call.(thread := cards[0].1), db, cards[0].0);
      if first.Ok? {
        CardsSnoc(call, first.value.db, cards[1..], i - 1);
      }
    }
  }

  lemma {:induction false} CardsStop(call: Call, db: Db, cards: seq<(seq<PlanChange>, Option<string>)>, i: nat)
    requires i <= |cards| && ApplyCards(call, db, cards[..i]).Err?
    ensures ApplyCards(call, db, cards) == ApplyCards(call, db, cards[..i])
    decreases |cards|
  {
    hide ApplyIn;
    if i > 0 {
      assert cards[..i][1..] == cards[1..][..i - 1];
      var first := ApplyIn(call.(thread := cards[0].1), db, cards[0].0);
      if first.Ok? {
        CardsStop(call, first.value.db, cards[1..], i - 1);
      }
    }
  }

  class LedgerService {
    const repo: LedgerRepository

    constructor (repo: LedgerRepository)
      ensures this.repo == repo
    {
      this.repo := repo;
    }

    /** A new row, with the store's refusals said as a ledger error. */
    method CreateIn(call: Call, row: Row) returns (r: Result<RowId, LedgerError>)
      modifies repo
      ensures match Create(old(repo.Contents()), row, StampOf(call))
              case Err(_) => r == Err(WriteFailed)
              case Ok(db) => r == Ok(old(repo.issued)) && repo.Contents() == db
    {
      var made := repo.CreateRow(row, StampOf(call));
      return Written(made);
    }

    method CreateProjectIn(call: Call, run: Run, c: PlanChange) returns (r: Result<Run, LedgerError>)
      requires run.db == repo.Contents()
      modifies repo
      ensures r == CreateProject(call, run, c)
      ensures r.Ok? ==> repo.Contents() == r.value.db
    {
      var row :- ProjectToCreate(call, c);
      var made := CreateIn(call, row);
      if made.Err? {
        return Err(WriteFailed);
      }
      var id := made.value;
      var refs, refNames := run.refs, run.refNames;
      var ref := Get(c, "ref");
      if Truthy(ref) {
        refs := refs[Str(ref) := id];
        refNames := refNames[Str(ref) := row.name];
      }
      if HasConversation(call) {
        repo.LinkRows(id, call.thread.value, Some("The chat it was captured in"), None, call.user, call.actor);
      }
      return Ok(run.(db := repo.Contents(), refs := refs, refNames := refNames, created := run.created + {id},
                     done := run.done + [CreatedProject(row.name)], resolutions := run.resolutions + [NO_PIN]));
    }

    method CreateTaskIn(call: Call, run: Run, c: PlanChange, target: Target) returns (r: Result<Run, LedgerError>)
      requires run.db == repo.Contents() && IsProject(run.db.rows, target.project)
      modifies repo
      ensures r == CreateTask(call, run, c, target)
      ensures r.Ok? ==> repo.Contents() == r.value.db
    {
      var row :- TaskToCreate(call, run, c, target);
      var made := CreateIn(call, row);
      if made.Err? {
        return Err(WriteFailed);
      }
      var id := made.value;
      var todo := Get(c, "todo_ref");
      if HasConversation(call) && Truthy(todo) {
        repo.LinkRows(id, call.thread.value, None, Some(Cut(Str(todo), 300)), call.user, call.actor);
      }
      return Ok(run.(db := repo.Contents(), created := run.created + {id},
                     done := run.done + [AddedTask(row.number, row.title, target.named)]));
    }

    method UpdateTaskIn(call: Call, run: Run, c: PlanChange, target: Target, task: RowId)
      returns (r: Result<Run, LedgerError>)
      requires run.db == repo.Contents() && IsTask(run.db.rows, task)
      modifies repo
      ensures r == UpdateTask(call, run, c, target, task)
      ensures r.Ok? ==> repo.Contents() == r.value.db
    {
      var fields :- ReadTaskFields(call.rt, c);
      var changed := repo.UpdateRow(task, SetTask(fields), None, StampOf(call));
      var _ :- Written(changed);
      return Ok(run.(db := repo.Contents(), done := run.done + [UpdatedTask(run.db.rows[task].number, target.named)]));
    }

    /** Every other change: a goal, a note, a link to the conversation. */
    method AddIn(call: Call, run: Run, c: PlanChange, target: Target) returns (r: Result<Run, LedgerError>)
      requires run.db == repo.Contents()
      requires c.op in {"create_goal", "add_note", "link_thread"}
      modifies repo
      ensures r == if c.op == "create_goal" then CreateGoal(call, run, c, target)
                   else if c.op == "add_note" then AddNote(call, run, c, target)
                   else LinkThread(call, run, c, target)
      ensures r.Ok? ==> repo.Contents() == r.value.db
    {
      if c.op == "create_goal" {
        var row :- GoalToCreate(call, c, target.project);
        var made := CreateIn(call, row);
        if made.Err? {
          return Err(WriteFailed);
        }
        var id := made.value;
        var goalRefs := run.goalRefs;
        if Truthy(Get(c, "ref")) {
          goalRefs := goalRefs[Str(Get(c, "ref")) := id];
        }
        return Ok(run.(db := repo.Contents(), goalRefs := goalRefs,
                       done := run.done + [AddedGoal(row.title, target.named)]));
      } else if c.op == "add_note" {
        var row :- NoteToCreate(call, c, target.project);
        var made := CreateIn(call, row);
        if made.Err? {
          return Err(WriteFailed);
        }
        return Ok(run.(db := repo.Contents(), done := run.done + [RecordedDecision(target.named)]));
      } else {
        if !HasConversation(call) {
          return Err(NoConversation);
        }
        var caption :- OptionalText(call.rt, c, "label", 300);
        repo.LinkRows(target.project, call.thread.value, caption, None, call.user, call.actor);
        return Ok(run.(db := repo.Contents(), done := run.done + [AttachedConversation(target.named)]));
      }
    }

    method ApplyOne(call: Call, run: Run, c: PlanChange) returns (r: Result<Run, LedgerError>)
      requires run.db == repo.Contents()
      modifies repo
      ensures r == Step(call, run, c)
      ensures r.Ok? ==> repo.Contents() == r.value.db
    {
      if c.op == "create_project" {
        r := CreateProjectIn(call, run, c);
        return;
      }
      var target :- ResolveTarget(call, run, c);
      if c.pin.inPlanProject && target.project !in run.created {
        return Err(ProjectNoLongerInPlan);
      }
      if c.op == "update_task" {
        var task :- UpdatedTaskOf(call, run, c, target);
        var next :- UpdateTaskIn(call, run, c, target, task);
        return Ok(next.(resolutions := run.resolutions + [Resolution(run, c, target.project, Some(task))]));
      }
      var next: Run;
      if c.op == "create_task" {
        next :- CreateTaskIn(call, run, c, target);
      } else if c.op in {"create_goal", "add_note", "link_thread"} {
        next :- AddIn(call, run, c, target);
      } else {
        return Err(UnknownChange(c));
      }
      return Ok(next.(resolutions := run.resolutions + [Resolution(run, c, target.project, None)]));
    }

    /** The plan, change by change, inside a transaction the caller ends. */
    method ApplyPlan(call: Call, changes: seq<PlanChange>) returns (r: Result<Run, LedgerError>)
      modifies repo
      ensures r == ApplyIn(call, old(repo.Contents()), changes)
      ensures r.Ok? ==> repo.Contents() == r.value.db
    {
      hide Step;
      var _ :- Shapes(changes);
      var start := Start(repo.Contents());
      var run := start;
      var i := 0;
      while i < |changes|
        invariant i <= |changes|
        invariant Steps(call, start, changes[..i]) == Ok(run)
        invariant run.db == repo.Contents()
      {
        StepsSnoc(call, start, changes[..i], changes[i]);
        assert changes[..i + 1] == changes[..i] + [changes[i]];
        var next := ApplyOne(call, run, changes[i]);
        if next.Err? {
          StepsStop(call, start, changes, i + 1);
          return next;
        }
        run := next.value;
        i := i + 1;
      }
      assert changes[..i] == changes;
      return Ok(run);
    }

    /** All of the plan or none of it; what it reports. */
    method Apply(call: Call, changes: seq<PlanChange>) returns (r: Result<seq<Line>, LedgerError>)
      modifies repo
      ensures repo.Contents() == Committed(old(repo.Contents()), ApplyIn(call, old(repo.Contents()), changes))
      ensures r == match ApplyIn(call, old(repo.Contents()), changes)
                   case Ok(run) => Ok(run.done)
                   case Err(e) => Err(e)
    {
      var saved := repo.Contents();
      var outcome := ApplyPlan(call, changes);
      if outcome.Err? {
        repo.Restore(saved);
        return Err(outcome.error);
      }
      return Ok(outcome.value.done);
    }

    /** The plan tried and rolled back: nothing is written, and it succeeds
        exactly when applying the plan here and now would. */
    method Validate(call: Call, changes: seq<PlanChange>) returns (r: Result<seq<Pin>, LedgerError>)
      modifies repo
      ensures repo.Contents() == old(repo.Contents())
      ensures r == match ApplyIn(call, old(repo.Contents()), changes)
                   case Ok(run) => Ok(run.resolutions)
                   case Err(e) => Err(e)
    {
      var saved := repo.Contents();
      var outcome := ApplyPlan(call, changes);
      repo.Restore(saved);
      match outcome
      case Ok(run) => return Ok(run.resolutions);
      case Err(e) => return Err(e);
    }

    /** Several cards in one transaction: each card's own report, or none and the
        first card that failed, where the ones before it left the ledger. */
    method ApplyBatch(call: Call, cards: seq<(seq<PlanChange>, Option<string>)>)
      returns (r: Result<seq<seq<Line>>, (nat, LedgerError)>)
      modifies repo
      ensures match ApplyCards(call, old(repo.Contents()), cards)
              case Ok(db) =>
                && r.Ok? && |r.value| == |cards| && repo.Contents() == db
                && forall i | 0 <= i < |cards| ::
                     var run := CardAt(call, old(repo.Contents()), cards, i);
                     run.Ok? && r.value[i] == run.value.done
              case Err(e) =>
                && r.Err? && r.error.0 < |cards| && r.error.1 == e && repo.Contents() == old(repo.Contents())
                && ApplyCards(call, old(repo.Contents()), cards[..r.error.0]).Ok?
                && CardAt(call, old(repo.Contents()), cards, r.error.0) == Err(e)
    {
      hide ApplyIn;
      var saved := repo.Contents();
      var out := [];
      var i := 0;
      while i < |cards|
        invariant i <= |cards| && |out| == i
        invariant ApplyCards(call, saved, cards[..i]) == Ok(repo.Contents())
        invariant forall k | 0 <= k < i ::
                    var run := CardAt(call, saved, cards, k); run.Ok? && out[k] == run.value.done
      {
        CardsSnoc(call, saved, cards, i);
        var outcome := ApplyPlan(call.(thread := cards[i].1), cards[i].0);
        if outcome.Err? {
          CardsStop(call, saved, cards, i + 1);
          repo.Restore(saved);
          return Err((i, outcome.error));
        }
        out := out + [outcome.value.done];
        i := i + 1;
      }
      assert cards[..i] == cards;
      return Ok(out);
    }

    /** What a write touched: before its first change of each row, after its last. */
    method TouchedRows(changes: seq<Change>) returns (t: Touched)
      ensures t == Entities(changes)
    {
      t := Touched([], map[]);
      for i := 0 to |changes|
        invariant t == Entities(changes[..i])
      {
        assert changes[..i + 1][..i] == changes[..i];
        var c := changes[i];
        if c.id in t.slots {
          t := t.(slots := t.slots[c.id := t.slots[c.id].(after := c.after)]);
        } else {
          t := Touched(t.order + [c.id], t.slots[c.id := Slot(c.before, c.after)]);
        }
      }
      assert changes[..|changes|] == changes;
    }

    /** One row, removed or put back. */
    method UndoRowIn(id: RowId, slot: Slot, stamp: Stamp) returns (r: Result<(), UndoError>)
      modifies repo
      ensures match UndoRow(old(repo.Contents()), id, slot, stamp)
              case Ok(db) => r == Ok(()) && repo.Contents() == db
              case Err(e) => r == Err(e)
    {
      if slot.after.None? {
        return Err(RowsGone);
      }
      var version := Some(slot.after.value.version);
      var refused: Option<WriteError> := None;
      if slot.before.None? {
        var removed := repo.RemoveRow(id, version, stamp);
        if removed.Err? {
          refused := Some(removed.error);
        }
      } else {
        var put := repo.UpdateRow(id, PutBack(slot.before.value, slot.after.value), version, stamp);
        if put.Err? {
          refused := Some(put.error);
        }
      }
      if refused.Some? {
        return Err(if refused.value.Stale? then EditedSince else RowsGone);
      }
      return Ok(());
    }

    /** One write, row by row, newest first, inside a transaction the caller ends. */
    method UndoInPlace(user: string, write: string) returns (r: Result<(), UndoError>)
      modifies repo
      ensures match UndoOne(old(repo.Contents()), user, write)
              case Ok(db) => r == Ok(()) && repo.Contents() == db
              case Err(e) => r == Err(e)
    {
      hide UndoRow, Entities, CausedBy;
      if !StartsWith(write, "w-") {
        return Err(NoSuchWrite(write));
      }
      var changes := repo.ChangesCausedBy(user, write);
      if changes == [] || exists c <- changes :: c.stamp.actor !in UNDOABLE_ACTORS {
        return Err(NoSuchWrite(write));
      }
      var undoes := repo.ChangesCausedBy(user, UndoCause(write));
      if undoes != [] {
        return Err(AlreadyUndone);
      }
      var t := TouchedRows(changes);
      EntitiesWellformed(changes);
      var stamp := UndoStamp(user, write);
      var n: nat := |t.order|;
      ghost var undone := UndoRows(repo.Contents(), t, n, stamp);
      while n > 0
        invariant n <= |t.order|
        invariant UndoRows(repo.Contents(), t, n, stamp) == undone
      {
        var outcome := UndoRowIn(t.order[n - 1], t.slots[t.order[n - 1]], stamp);
        if outcome.Err? {
          return outcome;
        }
        n := n - 1;
      }
      return Ok(());
    }

    /** Writes one after another, the last of the list first, inside a transaction. */
    method UndoInTurn(user: string, writes: seq<string>) returns (r: Result<(), UndoError>)
      modifies repo
      ensures match UndoEach(old(repo.Contents()), user, writes, |writes|)
              case Ok(db) => r == Ok(()) && repo.Contents() == db
              case Err(e) => r == Err(e)
    {
      hide UndoOne;
      ghost var undone := UndoEach(repo.Contents(), user, writes, |writes|);
      var n: nat := |writes|;
      while n > 0
        invariant n <= |writes|
        invariant UndoEach(repo.Contents(), user, writes, n) == undone
      {
        var outcome := UndoInPlace(user, writes[n - 1]);
        if outcome.Err? {
          return outcome;
        }
        n := n - 1;
      }
      return Ok(());
    }

    /** Several writes, newest first, all or nothing. */
    method UndoAll(user: string, writes: seq<string>) returns (r: Result<(), UndoError>)
      modifies repo
      ensures match UndoWrites(old(repo.Contents()), user, writes)
              case Ok(db) => r == Ok(()) && repo.Contents() == db
              case Err(e) => r == Err(e) && repo.Contents() == old(repo.Contents())
    {
      var saved := repo.Contents();
      r := UndoInTurn(user, Distinct(writes));
      if r.Err? {
        repo.Restore(saved);
      }
    }
  }
}
