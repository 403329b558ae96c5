/**
 Undo (backend/app/ledger/service.py, `undo_writes`): a write is reverted from the
 change log, row by row, each checked against the version the write left.

 Main results, over every state the store can reach: undo succeeds exactly when
 nobody else has touched the write's rows since (`UndoIff`), and it then puts every row
 back as it was before the write (`UndoInverts`).
*/
module LedgerUndo {
  import opened Wrappers
  import opened LedgerText
  import opened LedgerStore
  import opened LedgerApply
  import opened LedgerHistory

  /** A row a write touched: before its first change, and after its last. */
  datatype Slot = Slot(before: Option<Row>, after: Option<Row>)

  /** The rows a write touched, in the order it first touched them. */
  datatype Touched = Touched(order: seq<RowId>, slots: map<RowId, Slot>)

  function Touch(t: Touched, c: Change): Touched {
    if c.id in t.slots then t.(slots := t.slots[c.id := t.slots[c.id].(after := c.after)])
    else Touched(t.order + [c.id], t.slots[c.id := Slot(c.before, c.after)])
  }

  function Entities(changes: seq<Change>): Touched {
    if changes == [] then Touched([], map[])
    else Touch(Entities(changes[..|changes| - 1]), changes[|changes| - 1])
  }

  datatype UndoError = NoSuchWrite(id: string) | AlreadyUndone | RowsGone | EditedSince

  const UNDOABLE_ACTORS := {"assistant_disclosed", "assistant_granted", "assistant_confirmed"}

  function UndoCause(write: string): string {
    "undo:" + write
  }

  function UndoStamp(user: string, write: string): Stamp {
    Stamp(user, "user", Some(UndoCause(write)))
  }

  function Undone(r: Result<Db, WriteError>): Result<Db, UndoError> {
    match r
    case Ok(db) => Ok(db)
    case Err(Stale) => Err(EditedSince)
    case Err(_) => Err(RowsGone)
  }

  /** One row: removed if the write created it, else put back; only if it is there
      with the version the write left. */
  function UndoRow(db: Db, id: RowId, slot: Slot, stamp: Stamp): Result<Db, UndoError> {
    if slot.after.None? then Err(RowsGone)
    else
      var version := Some(slot.after.value.version);
      if slot.before.None? then Undone(Remove(db, id, version, stamp))
      else Undone(Update(db, id, PutBack(slot.before.value, slot.after.value), version, stamp))
  }

  ghost predicate Wellformed(t: Touched) {
    && (forall i | 0 <= i < |t.order| :: t.order[i] in t.slots)
    && (forall id <- t.slots :: id in t.order)
    && (forall i, j | 0 <= i < j < |t.order| :: t.order[i] != t.order[j])
  }

  /** The first `n` rows of `t`, the last of them first. */
  function UndoRows(db: Db, t: Touched, n: nat, stamp: Stamp): Result<Db, UndoError>
    requires n <= |t.order| && forall id <- t.order :: id in t.slots
    decreases n
  {
    if n == 0 then Ok(db)
    else
      var mid :- UndoRow(db, t.order[n - 1], t.slots[t.order[n - 1]], stamp);
      UndoRows(mid, t, n - 1, stamp)
  }

  function StartsWith(s: string, prefix: string): bool {
    |prefix| <= |s| && s[..|prefix|] == prefix
  }

  /** Whether a write id names a write of this user's that undo may revert. */
  function Revertible(db: Db, user: string, write: string): Result<seq<Change>, UndoError> {
    var changes := CausedBy(db.log, user, write);
    if !StartsWith(write, "w-") then Err(NoSuchWrite(write))
    else if changes == [] || exists c <- changes :: c.stamp.actor !in UNDOABLE_ACTORS then Err(NoSuchWrite(write))
    else if CausedBy(db.log, user, UndoCause(write)) != [] then Err(AlreadyUndone)
    else Ok(changes)
  }

  lemma {:induction false} EntitiesWellformed(changes: seq<Change>)
    ensures Wellformed(Entities(changes))
    decreases |changes|
  {
    if changes != [] {
      EntitiesWellformed(changes[..|changes| - 1]);
    }
  }

  function UndoOne(db: Db, user: string, write: string): Result<Db, UndoError> {
    var changes :- Revertible(db, user, write);
    var t := Entities(changes);
    EntitiesWellformed(changes);
    UndoRows(db, t, |t.order|, UndoStamp(user, write))
  }

  /** The first `n` writes, the last of them first. */
  function UndoEach(db: Db, user: string, writes: seq<string>, n: nat): Result<Db, UndoError>
    requires n <= |writes|
    decreases n
  {
    if n == 0 then Ok(db)
    else
      var mid :- UndoOne(db, user, writes[n - 1]);
      UndoEach(mid, user, writes, n - 1)
  }

  /** The list without repeats, each where it first stood. */
  function Distinct(writes: seq<string>): (r: seq<string>)
    ensures forall w :: w in r <==> w in writes
    ensures forall i, j | 0 <= i < j < |r| :: r[i] != r[j]
  {
    if writes == [] then []
    else
      var rest := Distinct(writes[..|writes| - 1]);
      var last := writes[|writes| - 1];
      assert writes == writes[..|writes| - 1] + [last];
      if last in rest then rest else rest + [last]
  }

  function UndoWrites(db: Db, user: string, writes: seq<string>): Result<Db, UndoError> {
    var each := Distinct(writes);
    UndoEach(db, user, each, |each|)
  }

  // ----- what undoing the rows does -----

  /** The row is there, at the version the write left. */
  ghost predicate AsLeft(rows: Rows, id: RowId, slot: Slot) {
    slot.after.Some? && id in rows && rows[id].version == slot.after.value.version
  }

  /** What becomes of one touched row. */
  ghost predicate PutRight(before: Rows, after: Rows, id: RowId, slot: Slot)
    requires id in before && slot.after.Some?
  {
    if slot.before.None? then id !in after
    else
      && id in after
      && after[id] == Patched(before[id],
                              PutBack(slot.before.value, slot.after.value)).(version := before[id].version + 1)
  }

  ghost predicate SameElsewhere(before: Rows, after: Rows, ids: seq<RowId>) {
    forall id | id !in ids :: (id in before <==> id in after) && (id in before ==> before[id] == after[id])
  }

  /** The log gained only changes stamped with `stamp`. */
  ghost predicate Added(log: seq<Change>, log': seq<Change>, stamp: Stamp) {
    |log| <= |log'| && log'[..|log|] == log && forall i | |log| <= i < |log'| :: log'[i].stamp == stamp
  }

  /** The rows `ids` are put right, and nothing else is touched. */
  ghost predicate Reverted(db: Db, db': Db, t: Touched, ids: seq<RowId>, stamp: Stamp)
    requires Wellformed(t)
  {
    && (forall id <- ids ::
        id in t.slots && AsLeft(db.rows, id, t.slots[id]) && PutRight(db.rows, db'.rows, id, t.slots[id]))
    && SameElsewhere(db.rows, db'.rows, ids)
    && Added(db.log, db'.log, stamp) && |db'.log| == |db.log| + |ids| && db'.issued == db.issued
  }

  lemma UndoRowExact(db: Db, t: Touched, id: RowId, stamp: Stamp)
    requires Wellformed(t) && id in t.slots
    ensures UndoRow(db, id, t.slots[id], stamp).Ok? <==> AsLeft(db.rows, id, t.slots[id])
    ensures UndoRow(db, id, t.slots[id], stamp).Ok? ==>
              Reverted(db, UndoRow(db, id, t.slots[id], stamp).value, t, [id], stamp)
  {
  }

  lemma RevertedJoin(db: Db, mid: Db, db': Db, t: Touched, id: RowId, ids: seq<RowId>, stamp: Stamp)
    requires Wellformed(t) && id !in ids
    requires Reverted(db, mid, t, [id], stamp) && Reverted(mid, db', t, ids, stamp)
    ensures Reverted(db, db', t, ids + [id], stamp)
  {
    assert id in [id];
    forall other | other !in ids + [id]
      ensures (other in db.rows <==> other in db'.rows) && (other in db.rows ==> db.rows[other] == db'.rows[other])
    {
      assert other !in [id] && other !in ids;
    }
    forall other <- ids + [id]
      ensures other in t.slots && AsLeft(db.rows, other, t.slots[other])
      ensures PutRight(db.rows, db'.rows, other, t.slots[other])
    {
      if other in ids {
        assert other !in [id];
      } else {
        assert other == id;
      }
    }
  }

  ghost predicate AllAsLeft(rows: Rows, t: Touched, ids: seq<RowId>)
    requires Wellformed(t)
  {
    forall id <- ids :: id in t.slots && AsLeft(rows, id, t.slots[id])
  }

  lemma OthersAsLeft(db: Db, mid: Db, t: Touched, id: RowId, ids: seq<RowId>, stamp: Stamp)
    requires Wellformed(t) && id !in ids && Reverted(db, mid, t, [id], stamp)
    ensures AllAsLeft(mid.rows, t, ids) <==> AllAsLeft(db.rows, t, ids)
    ensures AllAsLeft(db.rows, t, ids + [id]) <==> AllAsLeft(db.rows, t, ids)
  {
    assert forall other <- ids :: other !in [id];
    assert id in [id];
  }

  lemma {:induction false} UndoRowsExact(db: Db, t: Touched, n: nat, stamp: Stamp)
    requires Wellformed(t) && n <= |t.order|
    ensures UndoRows(db, t, n, stamp).Ok? <==> AllAsLeft(db.rows, t, t.order[..n])
    ensures UndoRows(db, t, n, stamp).Ok? ==> Reverted(db, UndoRows(db, t, n, stamp).value, t, t.order[..n], stamp)
    decreases n
  {
    if n > 0 {
      var id, ids := t.order[n - 1], t.order[..n - 1];
      assert t.order[..n] == ids + [id] && id !in ids;
      UndoRowExact(db, t, id, stamp);
      var mid := UndoRow(db, id, t.slots[id], stamp);
      if mid.Ok? {
        OthersAsLeft(db, mid.value, t, id, ids, stamp);
        UndoRowsExact(mid.value, t, n - 1, stamp);
        if UndoRows(mid.value, t, n - 1, stamp).Ok? {
          RevertedJoin(db, mid.value, UndoRows(mid.value, t, n - 1, stamp).value, t, id, ids, stamp);
        }
      } else {
        assert id in ids + [id];
      }
    }
  }

  // ----- undo and the history -----

  predicate By(c: Change, user: string, cause: string) {
    c.stamp.owner == user && c.stamp.cause == Some(cause)
  }

  lemma {:induction false} CausedByMembers(log: seq<Change>, user: string, cause: string)
    ensures forall c <- CausedBy(log, user, cause) :: c in log && By(c, user, cause)
    ensures forall i | 0 <= i < |log| && By(log[i], user, cause) :: log[i] in CausedBy(log, user, cause)
    decreases |log|
  {
    if log != [] {
      CausedByMembers(log[..|log| - 1], user, cause);
      forall i | 0 <= i < |log| && By(log[i], user, cause) ensures log[i] in CausedBy(log, user, cause) {
        if i < |log| - 1 {
          assert log[i] == log[..|log| - 1][i];
        }
      }
    }
  }

  lemma {:induction false} CausedByAdded(log: seq<Change>, log': seq<Change>, stamp: Stamp, user: string, cause: string)
    requires Added(log, log', stamp) && stamp.cause != Some(cause)
    ensures CausedBy(log', user, cause) == CausedBy(log, user, cause)
    decreases |log'|
  {
    if |log'| > |log| {
      assert log'[..|log'| - 1][..|log|] == log;
      CausedByAdded(log, log'[..|log'| - 1], stamp, user, cause);
    } else {
      assert log' == log;
    }
  }

  /** The last change `user`'s write made of row `id`. */
  ghost predicate LastBy(log: seq<Change>, user: string, write: string, i: int, id: RowId) {
    && 0 <= i < |log| && By(log[i], user, write) && log[i].id == id
    && forall j | i < j < |log| && log[j].id == id :: !By(log[j], user, write)
  }

  function TouchedBy(log: seq<Change>, user: string, write: string): Touched {
    Entities(CausedBy(log, user, write))
  }

  lemma TouchedByAppend(log: seq<Change>, user: string, write: string)
    requires log != []
    ensures var prefix, last := log[..|log| - 1], log[|log| - 1];
            TouchedBy(log, user, write)
            == if By(last, user, write) then Touch(TouchedBy(prefix, user, write), last)
                else TouchedBy(prefix, user, write)
  {
    var earlier, last := CausedBy(log[..|log| - 1], user, write), log[|log| - 1];
    if By(last, user, write) {
      assert (earlier + [last])[..|earlier|] == earlier;
    } else {
      assert CausedBy(log, user, write) == earlier + [] == earlier;
    }
  }

  lemma NothingTouched(user: string, write: string)
    ensures TouchedBy([], user, write).slots == map[]
  {
  }

  /** The rows a write touched are those its changes are about, each with what its
      last change of it left. */
  lemma {:induction false} TouchedByLast(log: seq<Change>, user: string, write: string)
    ensures var slots := TouchedBy(log, user, write).slots;
            && (forall id <- slots :: exists i :: LastBy(log, user, write, i, id) && slots[id].after == log[i].after)
            && (forall i | 0 <= i < |log| && By(log[i], user, write) :: log[i].id in slots)
    decreases |log|
  {
    hide CausedBy, Entities, TouchedBy;
    if log == [] {
      assert TouchedBy(log, user, write).slots == map[] by {
        NothingTouched(user, write);
      }
    } else {
      var prefix, last := log[..|log| - 1], log[|log| - 1];
      TouchedByLast(prefix, user, write);
      TouchedByAppend(log, user, write);
      var slots, slots' := TouchedBy(prefix, user, write).slots, TouchedBy(log, user, write).slots;
      forall id <- slots' ensures exists i :: LastBy(log, user, write, i, id) && slots'[id].after == log[i].after {
        if By(last, user, write) && last.id == id {
          assert LastBy(log, user, write, |log| - 1, id);
        } else {
          var i :| LastBy(prefix, user, write, i, id) && slots[id].after == prefix[i].after;
          assert LastBy(log, user, write, i, id);
        }
      }
    }
  }

  /** Of every row the write touched, its last change is the write's, and left it there. */
  ghost predicate Unchanged(log: seq<Change>, user: string, write: string) {
    forall i, id: RowId | LastBy(log, user, write, i, id) :: LastChange(log, i) && log[i].after.Some?
  }

  /** A row is as the write left it exactly when the write's last change of it is
      its last change. */
  lemma AsLeftIff(db: Db, user: string, write: string, i: int, id: RowId, slot: Slot)
    requires Recorded(db) && LastBy(db.log, user, write, i, id) && slot.after == db.log[i].after
    ensures AsLeft(db.rows, id, slot) <==> LastChange(db.log, i) && slot.after.Some?
  {
    if id in db.rows {
      var last :| LeftBy(db.log, last, id, db.rows[id]);
      if last != i {
        assert i < last;
        assert Succeeds(db.log[i], db.log[last]);
      }
    }
  }

  lemma AllAsLeftIff(db: Db, user: string, write: string)
    requires Recorded(db) && Wellformed(TouchedBy(db.log, user, write))
    ensures var t := TouchedBy(db.log, user, write);
            AllAsLeft(db.rows, t, t.order) <==> Unchanged(db.log, user, write)
  {
    var t := TouchedBy(db.log, user, write);
    TouchedByLast(db.log, user, write);
    if AllAsLeft(db.rows, t, t.order) {
      forall i, id: RowId | LastBy(db.log, user, write, i, id) ensures LastChange(db.log, i) && db.log[i].after.Some? {
        var last :| LastBy(db.log, user, write, last, id) && t.slots[id].after == db.log[last].after;
        AsLeftIff(db, user, write, last, id, t.slots[id]);
      }
    }
    if Unchanged(db.log, user, write) {
      forall id <- t.order ensures AsLeft(db.rows, id, t.slots[id]) {
        var last :| LastBy(db.log, user, write, last, id) && t.slots[id].after == db.log[last].after;
        AsLeftIff(db, user, write, last, id, t.slots[id]);
      }
    }
  }

  /** In every state the store can reach: a write can be undone exactly when it is
      one undo may revert and nobody has changed or removed its rows since; a
      refused undo writes nothing, and one that succeeds reverts exactly its rows. */
  lemma UndoIff(db: Db, user: string, write: string)
    requires Recorded(db)
    ensures UndoOne(db, user, write).Ok? <==> Revertible(db, user, write).Ok? && Unchanged(db.log, user, write)
    ensures Wellformed(TouchedBy(db.log, user, write))
    ensures UndoOne(db, user, write).Ok? ==>
              var t := TouchedBy(db.log, user, write);
              Reverted(db, UndoOne(db, user, write).value, t, t.order, UndoStamp(user, write))
  {
    var t := TouchedBy(db.log, user, write);
    EntitiesWellformed(CausedBy(db.log, user, write));
    assert t.order[..|t.order|] == t.order;
    UndoRowsExact(db, t, |t.order|, UndoStamp(user, write));
    AllAsLeftIff(db, user, write);
  }

  // ----- undo inverts the write -----

  /** A row put back: the row before the write, with its version moved on and, for a
      project, the task counter it has now. */
  ghost predicate PutBackAs(after: Row, before: Row, now: Row) {
    && SameIdentity(after, before)
    && after.version == now.version + 1
    && after.(version := before.version) == if before.ProjectRow? then before.(nextTask := after.nextTask) else before
  }

  /** Undo's patch, on a row still as the write left it, gives the row before the write. */
  lemma PatchInverts(now: Row, before: Row, after: Row)
    requires AsLogged(now, after) && SameIdentity(before, after)
    ensures PutBackAs(Patched(now, PutBack(before, after)).(version := now.version + 1), before, now)
  {
  }

  /** How a write in progress accounts for the rows: those its changes are about,
      with the row before the write and the row now; the rest as they were, but for
      task counters and links. */
  ghost predicate Accounts(db0: Db, db: Db, slots: map<RowId, Slot>) {
    && (forall id <- slots :: SlotAccounts(db0.rows, db.rows, id, slots[id]))
    && (forall id <- db.rows | id !in slots :: Untouched(db0.rows, db.rows, id))
    && (forall id <- db0.rows :: id in db.rows)
    && db0.issued <= db.issued && (forall id <- db0.rows :: id < db0.issued)
  }

  ghost predicate SlotAccounts(rows0: Rows, rows: Rows, id: RowId, slot: Slot) {
    && id in rows && slot.after.Some? && AsLogged(rows[id], slot.after.value)
    && (slot.before.Some? <==> id in rows0)
    && (slot.before.Some? ==>
        AsLogged(slot.before.value, rows0[id]) && SameIdentity(slot.before.value, slot.after.value))
  }

  ghost predicate Untouched(rows0: Rows, rows: Rows, id: RowId)
    requires id in rows
  {
    if id in rows0 then AsLogged(rows[id], rows0[id]) else rows[id].LinkRow?
  }

  lemma CreateAccounts(db0: Db, db: Db, row: Row, stamp: Stamp, slots: map<RowId, Slot>)
    requires Accounts(db0, db, slots) && Create(db, row, stamp).Ok? && db.issued !in db.rows
    ensures var db' := Create(db, row, stamp).value;
            Accounts(db0, db', slots[db.issued := Slot(None, Some(db'.rows[db.issued]))])
  {
  }

  lemma LinkAccounts(db0: Db, db: Db, row: Row, stamp: Stamp, slots: map<RowId, Slot>)
    requires Accounts(db0, db, slots) && row.LinkRow? && db.issued !in db.rows
    ensures Accounts(db0, Inserted(db, row, stamp), slots)
  {
  }

  lemma UpdateAccounts(db0: Db, db: Db, id: RowId, fields: TaskFields, stamp: Stamp, slots: map<RowId, Slot>)
    requires Accounts(db0, db, slots) && Update(db, id, SetTask(fields), None, stamp).Ok?
    ensures var db' := Update(db, id, SetTask(fields), None, stamp).value;
            var after := Some(db'.rows[id]);
            Accounts(db0, db', slots[id := if id in slots then slots[id].(after := after)
                                     else Slot(Some(db.rows[id]), after)])
  {
  }

  ghost predicate IdsBelow(ids: set<RowId>, bound: nat) {
    forall id <- ids :: id < bound
  }

  lemma TouchedByOneMore(log: seq<Change>, c: Change, user: string, write: string)
    ensures TouchedBy(log + [c], user, write)
            == if By(c, user, write) then Touch(TouchedBy(log, user, write), c) else TouchedBy(log, user, write)
  {
    TouchedByAppend(log + [c], user, write);
    assert (log + [c])[..|log|] == log;
  }

  lemma CreateWriteAccounts(call: Call, write: string, db0: Db, db: Db, row: Row, stamp: Stamp)
    requires call.cause == Some(write) && PlanWrite(call, CreateOp(row, stamp)) && Create(db, row, stamp).Ok?
    requires Accounts(db0, db, TouchedBy(db.log, call.user, write).slots) && db.issued !in db.rows
    ensures var db' := Create(db, row, stamp).value; Accounts(db0, db', TouchedBy(db'.log, call.user, write).slots)
  {
    var db' := Create(db, row, stamp).value;
    TouchedByOneMore(db.log, Change(stamp, db.issued, None, Some(db'.rows[db.issued])), call.user, write);
    if row.LinkRow? {
      LinkAccounts(db0, db, row, stamp, TouchedBy(db.log, call.user, write).slots);
    } else {
      assert db.issued !in TouchedBy(db.log, call.user, write).slots;
      CreateAccounts(db0, db, row, stamp, TouchedBy(db.log, call.user, write).slots);
    }
  }

  lemma UpdateWriteAccounts(call: Call, write: string, db0: Db, db: Db, id: RowId, fields: TaskFields)
    requires call.cause == Some(write) && Update(db, id, SetTask(fields), None, StampOf(call)).Ok?
    requires Accounts(db0, db, TouchedBy(db.log, call.user, write).slots)
    ensures var db' := Update(db, id, SetTask(fields), None, StampOf(call)).value;
            Accounts(db0, db', TouchedBy(db'.log, call.user, write).slots)
  {
    var db' := Update(db, id, SetTask(fields), None, StampOf(call)).value;
    TouchedByOneMore(db.log, Change(StampOf(call), id, Some(db.rows[id]), Some(db'.rows[id])), call.user, write);
    UpdateAccounts(db0, db, id, fields, StampOf(call), TouchedBy(db.log, call.user, write).slots);
  }

  lemma WriteAccounts(call: Call, write: string, db0: Db, db: Db, op: Op)
    requires call.cause == Some(write) && PlanWrite(call, op)
    requires Accounts(db0, db, TouchedBy(db.log, call.user, write).slots) && IdsBelow(db.rows.Keys, db.issued)
    ensures Accounts(db0, Exec(db, op), TouchedBy(Exec(db, op).log, call.user, write).slots)
    ensures IdsBelow(Exec(db, op).rows.Keys, Exec(db, op).issued)
  {
    hide TouchedBy, Accounts;
    if Exec(db, op) != db {
      match op
      case CreateOp(row, stamp) => CreateWriteAccounts(call, write, db0, db, row, stamp);
      case UpdateOp(id, patch, version, stamp) => UpdateWriteAccounts(call, write, db0, db, id, patch.fields);
    }
  }

  lemma {:induction false} WritesAccount(call: Call, write: string, db0: Db, ops: seq<Op>)
    requires call.cause == Some(write) && forall op <- ops :: PlanWrite(call, op)
    requires TouchedBy(db0.log, call.user, write).slots == map[] && IdsBelow(db0.rows.Keys, db0.issued)
    ensures var db := ExecAll(db0, ops);
            Accounts(db0, db, TouchedBy(db.log, call.user, write).slots) && IdsBelow(db.rows.Keys, db.issued)
    decreases |ops|
  {
    if ops != [] {
      WritesAccount(call, write, db0, ops[..|ops| - 1]);
      WriteAccounts(call, write, db0, ExecAll(db0, ops[..|ops| - 1]), ops[|ops| - 1]);
    }
  }

  function StampOfOp(op: Op): Stamp {
    match op
    case CreateOp(_, stamp) => stamp
    case UpdateOp(_, _, _, stamp) => stamp
    case RemoveOp(_, _, stamp) => stamp
  }

  lemma CausedByOneMore(log: seq<Change>, log': seq<Change>, user: string, cause: string)
    requires |log'| == |log| + 1 && log'[..|log|] == log
    ensures CausedBy(log', user, cause)
            == CausedBy(log, user, cause) + (if By(log'[|log|], user, cause) then [log'[|log|]] else [])
  {
  }

  lemma ExecLogs(db: Db, op: Op)
    ensures var log' := Exec(db, op).log;
            log' == db.log
            || (|log'| == |db.log| + 1 && log'[..|db.log|] == db.log && log'[|db.log|].stamp == StampOfOp(op))
  {
  }

  lemma {:induction false} OthersKeepCause(db: Db, ops: seq<Op>, user: string, cause: string)
    requires forall op <- ops :: StampOfOp(op).owner == user ==> StampOfOp(op).cause != Some(cause)
    ensures CausedBy(ExecAll(db, ops).log, user, cause) == CausedBy(db.log, user, cause)
    decreases |ops|
  {
    if ops != [] {
      var mid, op := ExecAll(db, ops[..|ops| - 1]), ops[|ops| - 1];
      OthersKeepCause(db, ops[..|ops| - 1], user, cause);
      ExecLogs(mid, op);
      if Exec(mid, op).log != mid.log {
        CausedByOneMore(mid.log, Exec(mid, op).log, user, cause);
      }
    }
  }

  lemma {:induction false} WritesCarryActor(call: Call, write: string, db0: Db, ops: seq<Op>)
    requires call.cause == Some(write) && forall op <- ops :: PlanWrite(call, op)
    requires CausedBy(db0.log, call.user, write) == []
    ensures forall c <- CausedBy(ExecAll(db0, ops).log, call.user, write) :: c.stamp.actor == call.actor
    decreases |ops|
  {
    if ops != [] {
      var mid, op := ExecAll(db0, ops[..|ops| - 1]), ops[|ops| - 1];
      WritesCarryActor(call, write, db0, ops[..|ops| - 1]);
      ExecLogs(mid, op);
      if Exec(mid, op).log != mid.log {
        var log' := Exec(mid, op).log;
        CausedByOneMore(mid.log, log', call.user, write);
        assert PlanWrite(call, op) && op in ops;
        assert By(log'[|mid.log|], call.user, write) ==> log'[|mid.log|].stamp.actor == call.actor;
        forall c <- CausedBy(log', call.user, write) ensures c.stamp.actor == call.actor {
          assert c in CausedBy(mid.log, call.user, write) || c == log'[|mid.log|];
        }
      }
    }
  }

  /** A write's own changes carry its id and its actor, and no undo's. */
  lemma WritesAreTheCalls(call: Call, write: string, db0: Db, ops: seq<Op>)
    requires call.cause == Some(write) && forall op <- ops :: PlanWrite(call, op)
    requires CausedBy(db0.log, call.user, write) == []
    ensures var log := ExecAll(db0, ops).log;
            && (forall c <- CausedBy(log, call.user, write) :: c.stamp.actor == call.actor)
            && CausedBy(log, call.user, UndoCause(write)) == CausedBy(db0.log, call.user, UndoCause(write))
  {
    WritesCarryActor(call, write, db0, ops);
    assert |UndoCause(write)| == |write| + 5;
    forall op <- ops ensures StampOfOp(op).cause != Some(UndoCause(write)) {
      assert PlanWrite(call, op);
    }
    OthersKeepCause(db0, ops, call.user, UndoCause(write));
  }

  /** A row nobody has changed since is as the write logged it. */
  lemma UnchangedRow(db: Db, user: string, write: string, id: RowId)
    requires Recorded(db) && Unchanged(db.log, user, write) && id in TouchedBy(db.log, user, write).slots
    ensures var slot := TouchedBy(db.log, user, write).slots[id];
            id in db.rows && slot.after.Some? && AsLogged(db.rows[id], slot.after.value)
  {
    TouchedByLast(db.log, user, write);
    var slot := TouchedBy(db.log, user, write).slots[id];
    var i :| LastBy(db.log, user, write, i, id) && slot.after == db.log[i].after;
    assert LastChange(db.log, i) && db.log[i].after.Some?;
    assert id in db.rows;
    var last :| LeftBy(db.log, last, id, db.rows[id]);
    assert last == i;
  }

  /** What the rows are after undo, against before the write (`rows0`) and before the
      undo (`rows2`): what the write created is gone, what it changed is back. */
  ghost predicate BackAsBefore(rows0: Rows, rows2: Rows, rows3: Rows, touched: set<RowId>) {
    && (forall id <- touched ::
        if id in rows0 then id in rows2 && id in rows3 && PutBackAs(rows3[id], rows0[id], rows2[id])
                               else id !in rows3)
    && (forall id | id !in touched :: (id in rows3 <==> id in rows2) && (id in rows2 ==> rows3[id] == rows2[id]))
  }

  lemma RowIsBack(rows0: Rows, rows1: Rows, rows2: Rows, rows3: Rows, id: RowId, slot: Slot)
    requires SlotAccounts(rows0, rows1, id, slot)
    requires id in rows2 && AsLogged(rows2[id], slot.after.value) && PutRight(rows2, rows3, id, slot)
    ensures if id in rows0 then id in rows3 && PutBackAs(rows3[id], rows0[id], rows2[id]) else id !in rows3
  {
    if slot.before.Some? {
      PatchInverts(rows2[id], slot.before.value, slot.after.value);
    }
  }

  /** The state after an undo that succeeds, from the accounts of the write. */
  lemma UndoneIsBack(db0: Db, db1: Db, db2: Db, user: string, write: string)
    requires Recorded(db2) && UndoOne(db2, user, write).Ok?
    requires TouchedBy(db2.log, user, write) == TouchedBy(db1.log, user, write)
    requires Accounts(db0, db1, TouchedBy(db1.log, user, write).slots)
    ensures BackAsBefore(db0.rows, db2.rows, UndoOne(db2, user, write).value.rows,
                         TouchedBy(db1.log, user, write).slots.Keys)
  {
    hide Recorded, UndoOne, TouchedBy, Unchanged, Revertible, SlotAccounts, AsLogged, PutBackAs, PutRight;
    var t := TouchedBy(db2.log, user, write);
    UndoIff(db2, user, write);
    var db3 := UndoOne(db2, user, write).value;
    forall id <- t.slots.Keys
      ensures if id in db0.rows then id in db2.rows && id in db3.rows
                                     && PutBackAs(db3.rows[id], db0.rows[id], db2.rows[id])
              else id !in db3.rows
    {
      assert id in t.order;
      assert SlotAccounts(db0.rows, db1.rows, id, t.slots[id]);
      UnchangedRow(db2, user, write, id);
      RowIsBack(db0.rows, db1.rows, db2.rows, db3.rows, id, t.slots[id]);
    }
    forall id | id !in t.slots.Keys
      ensures (id in db3.rows <==> id in db2.rows) && (id in db2.rows ==> db3.rows[id] == db2.rows[id])
    {
      assert id !in t.order;
    }
  }

  /** A write (one card, or several in one transaction) under a fresh write id; then
      anything at all, by anyone but that write, that left its rows alone; then undo.
      It succeeds. Every project, goal, task and note the write created is gone, and
      every row it changed, however often, is as before it, except versions and task
      counters; everything else is as it was. */
  lemma UndoInverts(call: Call, write: string, db0: Db, cards: seq<(seq<PlanChange>, Option<string>)>, later: seq<Op>)
    requires Recorded(db0) && Valid(db0) && ApplyCards(call, db0, cards).Ok?
    requires call.cause == Some(write) && StartsWith(write, "w-") && call.actor in UNDOABLE_ACTORS
    requires CausedBy(db0.log, call.user, write) == [] && CausedBy(db0.log, call.user, UndoCause(write)) == []
    requires forall op <- later :: WellFormed(op) && (StampOfOp(op).owner == call.user ==>
               StampOfOp(op).cause != Some(write) && StampOfOp(op).cause != Some(UndoCause(write)))
    requires var db1 := ApplyCards(call, db0, cards).value;
             CausedBy(db1.log, call.user, write) != [] && Unchanged(ExecAll(db1, later).log, call.user, write)
    ensures var db1 := ApplyCards(call, db0, cards).value;
            var db2 := ExecAll(db1, later);
            var touched := TouchedBy(db1.log, call.user, write).slots.Keys;
            && UndoOne(db2, call.user, write).Ok?
            && BackAsBefore(db0.rows, db2.rows, UndoOne(db2, call.user, write).value.rows, touched)
            && (forall id <- db1.rows | id !in touched :: Untouched(db0.rows, db1.rows, id))
  {
    var db1 := ApplyCards(call, db0, cards).value;
    var db2 := ExecAll(db1, later);
    var ops := PlanIsWrites(call, db0, cards);
    WritesAccount(call, write, db0, ops);
    EveryStateIsRecorded(db0, ops);
    EveryStateIsRecorded(db1, later);
    OthersKeepCause(db1, later, call.user, write);
    OthersKeepCause(db1, later, call.user, UndoCause(write));
    WritesAreTheCalls(call, write, db0, ops);
    UndoIff(db2, call.user, write);
    UndoneIsBack(db0, db1, db2, call.user, write);
  }
}
