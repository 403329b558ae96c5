/**
 Several writes undone together ("Undo all for this run"): all of them or none.
 Main result: they can be undone together exactly when each of them can be undone
 alone, in every state the store can reach, whatever the order and the repeats of
 the list. Two writes that touched one row can therefore never be.
*/
module LedgerUndoMany {
  import opened Wrappers
  import opened LedgerText
  import opened LedgerStore
  import opened LedgerHistory
  import opened LedgerUndo

  /** A touched row's slot spans the write's first and last change of it. */
  lemma {:induction false} SlotEnds(log: seq<Change>, user: string, write: string)
    ensures var slots := TouchedBy(log, user, write).slots;
            forall id <- slots :: exists i, k :: Spans(log, user, write, i, k, id, slots[id])
    decreases |log|
  {
    if log != [] {
      var prefix, last := log[..|log| - 1], log[|log| - 1];
      SlotEnds(prefix, user, write);
      TouchedByAppend(log, user, write);
      var slots, slots' := TouchedBy(prefix, user, write).slots, TouchedBy(log, user, write).slots;
      forall id <- slots' ensures exists i, k :: Spans(log, user, write, i, k, id, slots'[id]) {
        if id in slots {
          var i, k :| Spans(prefix, user, write, i, k, id, slots[id]);
          if By(last, user, write) && last.id == id {
            assert Spans(log, user, write, i, |log| - 1, id, slots'[id]);
          } else {
            assert Spans(log, user, write, i, k, id, slots'[id]);
          }
        } else {
          assert Spans(log, user, write, |log| - 1, |log| - 1, id, slots'[id]);
        }
      }
    }
  }

  ghost predicate Spans(log: seq<Change>, user: string, write: string, i: int, k: int, id: RowId, slot: Slot) {
    && 0 <= i <= k < |log| && By(log[i], user, write) && By(log[k], user, write)
    && log[i].id == log[k].id == id && slot == Slot(log[i].before, log[k].after)
  }

  lemma SlotIdentity(db: Db, user: string, write: string, id: RowId)
    requires Recorded(db) && id in TouchedBy(db.log, user, write).slots
    ensures var slot := TouchedBy(db.log, user, write).slots[id];
            slot.before.Some? && slot.after.Some? ==> SameIdentity(slot.before.value, slot.after.value)
  {
    var slot := TouchedBy(db.log, user, write).slots[id];
    SlotEnds(db.log, user, write);
    var i, k :| Spans(db.log, user, write, i, k, id, slot);
    if i < k && slot.before.Some? && slot.after.Some? {
      assert Succeeds(db.log[i], db.log[k]);
    }
  }

  ghost predicate SlotKept(slot: Slot) {
    slot.before.Some? && slot.after.Some? ==> SameIdentity(slot.before.value, slot.after.value)
  }

  /** The write undo makes of one row. */
  function UndoOp(id: RowId, slot: Slot, stamp: Stamp): Op {
    var version := if slot.after.Some? then Some(slot.after.value.version) else None;
    if slot.before.None? || slot.after.None? then RemoveOp(id, version, stamp)
    else UpdateOp(id, PutBack(slot.before.value, slot.after.value), version, stamp)
  }

  function UndoOps(t: Touched, n: nat, stamp: Stamp): seq<Op>
    requires n <= |t.order| && forall id <- t.order :: id in t.slots
  {
    if n == 0 then [] else [UndoOp(t.order[n - 1], t.slots[t.order[n - 1]], stamp)] + UndoOps(t, n - 1, stamp)
  }

  lemma UndoRowIsWrite(db: Db, id: RowId, slot: Slot, stamp: Stamp)
    requires UndoRow(db, id, slot, stamp).Ok?
    ensures UndoRow(db, id, slot, stamp).value == ExecAll(db, [UndoOp(id, slot, stamp)])
  {
    OneWrite(db, UndoOp(id, slot, stamp));
  }

  lemma {:induction false} UndoRowsAreWrites(db: Db, t: Touched, n: nat, stamp: Stamp)
    requires n <= |t.order| && (forall id <- t.order :: id in t.slots) && UndoRows(db, t, n, stamp).Ok?
    ensures UndoRows(db, t, n, stamp).value == ExecAll(db, UndoOps(t, n, stamp))
    decreases n
  {
    if n > 0 {
      var id := t.order[n - 1];
      var op := UndoOp(id, t.slots[id], stamp);
      UndoRowIsWrite(db, id, t.slots[id], stamp);
      UndoRowsAreWrites(UndoRow(db, id, t.slots[id], stamp).value, t, n - 1, stamp);
      ExecAppend(db, [op], UndoOps(t, n - 1, stamp));
    }
  }

  lemma {:induction false} UndoOpsWellFormed(t: Touched, n: nat, stamp: Stamp)
    requires n <= |t.order| && (forall id <- t.order :: id in t.slots) && forall id <- t.slots :: SlotKept(t.slots[id])
    ensures forall op <- UndoOps(t, n, stamp) :: WellFormed(op)
    decreases n
  {
    if n > 0 {
      UndoOpsWellFormed(t, n - 1, stamp);
    }
  }

  /** Undo is a sequence of writes like any other: what it leaves is recorded too. */
  lemma UndoOneRecorded(db: Db, user: string, write: string)
    requires Recorded(db) && Valid(db) && UndoOne(db, user, write).Ok?
    ensures Recorded(UndoOne(db, user, write).value) && Valid(UndoOne(db, user, write).value)
  {
    var t := TouchedBy(db.log, user, write);
    EntitiesWellformed(CausedBy(db.log, user, write));
    forall id <- t.slots { SlotIdentity(db, user, write, id); }
    UndoRowsAreWrites(db, t, |t.order|, UndoStamp(user, write));
    UndoOpsWellFormed(t, |t.order|, UndoStamp(user, write));
    EveryStateIsRecorded(db, UndoOps(t, |t.order|, UndoStamp(user, write)));
  }

  lemma SameCauseSameWrite(v: string, w: string)
    requires UndoCause(v) == UndoCause(w)
    ensures v == w
  {
    assert v == UndoCause(v)[5..] && w == UndoCause(w)[5..];
  }

  /** What one write's undo leaves of another write: its changes, and whether it was undone. */
  lemma OtherWriteKept(db: Db, db': Db, user: string, w: string, v: string)
    requires v != w && Added(db.log, db'.log, UndoStamp(user, w))
    ensures Revertible(db', user, v) == Revertible(db, user, v)
    ensures Revertible(db, user, v).Ok? ==> TouchedBy(db'.log, user, v) == TouchedBy(db.log, user, v)
  {
    if StartsWith(v, "w-") {
      assert v[0] == 'w' && UndoCause(w)[0] == 'u';
      CausedByAdded(db.log, db'.log, UndoStamp(user, w), user, v);
      if UndoCause(v) == UndoCause(w) {
        SameCauseSameWrite(v, w);
      }
      CausedByAdded(db.log, db'.log, UndoStamp(user, w), user, UndoCause(v));
    }
  }

  /** A row both writes touched is as at most one of them left it. */
  lemma SharedRow(db: Db, user: string, w: string, v: string, id: RowId)
    requires Recorded(db) && v != w
    requires id in TouchedBy(db.log, user, w).slots && id in TouchedBy(db.log, user, v).slots
    requires AsLeft(db.rows, id, TouchedBy(db.log, user, w).slots[id])
    ensures var slot := TouchedBy(db.log, user, v).slots[id];
            slot.after.Some? ==> slot.after.value.version < db.rows[id].version
  {
    var sw, sv := TouchedBy(db.log, user, w).slots[id], TouchedBy(db.log, user, v).slots[id];
    TouchedByLast(db.log, user, w);
    TouchedByLast(db.log, user, v);
    var i :| LastBy(db.log, user, w, i, id) && sw.after == db.log[i].after;
    var k :| LastBy(db.log, user, v, k, id) && sv.after == db.log[k].after;
    AsLeftIff(db, user, w, i, id, sw);
    assert k != i;
    assert k < i;
    assert Succeeds(db.log[k], db.log[i]);
  }

  /** Whether a row is as a write left it does not change when another is undone. */
  lemma RowAfterAnother(db: Db, db': Db, tw: Touched, stamp: Stamp, id: RowId, slot: Slot)
    requires Wellformed(tw) && Reverted(db, db', tw, tw.order, stamp)
    requires id in tw.slots && slot.after.Some? && id in db.rows ==> slot.after.value.version < db.rows[id].version
    ensures AsLeft(db'.rows, id, slot) <==> AsLeft(db.rows, id, slot)
    ensures id in tw.slots ==> !AsLeft(db.rows, id, slot)
  {
    if id in tw.slots {
      assert id in tw.order;
    } else {
      assert id !in tw.order;
    }
  }

  lemma UndoableIff(db: Db, user: string, write: string)
    requires Recorded(db)
    ensures Wellformed(TouchedBy(db.log, user, write))
    ensures var t := TouchedBy(db.log, user, write);
            UndoOne(db, user, write).Ok? <==> Revertible(db, user, write).Ok? && AllAsLeft(db.rows, t, t.order)
  {
    UndoIff(db, user, write);
    AllAsLeftIff(db, user, write);
  }

  /** Undoing one write decides nothing about another. */
  lemma UndoOneAfterAnother(db: Db, user: string, w: string, v: string)
    requires Recorded(db) && Valid(db) && v != w && UndoOne(db, user, w).Ok?
    ensures UndoOne(UndoOne(db, user, w).value, user, v).Ok? <==> UndoOne(db, user, v).Ok?
    ensures UndoOne(db, user, v).Ok? ==>
              && TouchedBy(UndoOne(db, user, w).value.log, user, v) == TouchedBy(db.log, user, v)
              && TouchedBy(db.log, user, v).slots.Keys !! TouchedBy(db.log, user, w).slots.Keys
  {
    UndoIff(db, user, w);
    AnotherStands(db, UndoOne(db, user, w).value, user, w, v);
  }

  lemma AnotherStands(db: Db, db': Db, user: string, w: string, v: string)
    requires Recorded(db) && Valid(db) && v != w && UndoOne(db, user, w) == Ok(db')
             && Wellformed(TouchedBy(db.log, user, w))
    requires var t := TouchedBy(db.log, user, w); Reverted(db, db', t, t.order, UndoStamp(user, w))
    ensures UndoOne(db', user, v).Ok? <==> UndoOne(db, user, v).Ok?
    ensures UndoOne(db, user, v).Ok? ==>
              && TouchedBy(db'.log, user, v) == TouchedBy(db.log, user, v)
              && TouchedBy(db.log, user, v).slots.Keys !! TouchedBy(db.log, user, w).slots.Keys
  {
    UndoOneRecorded(db, user, w);
    UndoableIff(db, user, v);
    UndoableIff(db', user, v);
    OtherWriteKept(db, db', user, w, v);
    if Revertible(db, user, v).Ok? {
      var tv := TouchedBy(db.log, user, v);
      var tw := TouchedBy(db.log, user, w);
      forall id <- tv.order
        ensures AsLeft(db'.rows, id, tv.slots[id]) <==> AsLeft(db.rows, id, tv.slots[id])
        ensures id in tw.slots ==> !AsLeft(db.rows, id, tv.slots[id])
      {
        if id in tw.slots {
          assert id in tw.order;
          SharedRow(db, user, w, v, id);
        }
        RowAfterAnother(db, db', tw, UndoStamp(user, w), id, tv.slots[id]);
      }
      assert AllAsLeft(db'.rows, tv, tv.order) <==> AllAsLeft(db.rows, tv, tv.order);
    }
  }

  // ----- all of them together -----

  /** Every row is put right by the one write that touched it; the rest stay. */
  ghost predicate EachReverted(db: Db, db': Db, user: string, writes: seq<string>) {
    && (forall w, id | w in writes && id in TouchedBy(db.log, user, w).slots ::
          && AsLeft(db.rows, id, TouchedBy(db.log, user, w).slots[id])
          && PutRight(db.rows, db'.rows, id, TouchedBy(db.log, user, w).slots[id]))
    && (forall id | (forall w <- writes :: id !in TouchedBy(db.log, user, w).slots) ::
          (id in db.rows <==> id in db'.rows) && (id in db.rows ==> db.rows[id] == db'.rows[id]))
  }

  ghost predicate EachAlone(db: Db, user: string, writes: seq<string>) {
    forall w <- writes :: UndoOne(db, user, w).Ok?
  }

  lemma OthersAlone(db: Db, user: string, w: string, others: seq<string>)
    requires Recorded(db) && Valid(db) && UndoOne(db, user, w).Ok? && w !in others
    ensures EachAlone(UndoOne(db, user, w).value, user, others) <==> EachAlone(db, user, others)
  {
    forall v <- others { UndoOneAfterAnother(db, user, w, v); }
  }

  /** A row put right by one undo, and not touched by the other. */
  lemma RightOnce(rows: Rows, mid: Rows, rows': Rows, id: RowId, slot: Slot)
    requires AsLeft(mid, id, slot) && PutRight(mid, rows', id, slot) && id in rows && rows[id] == mid[id]
    ensures AsLeft(rows, id, slot) && PutRight(rows, rows', id, slot)
  {
  }

  lemma JoinOther(db: Db, mid: Db, db': Db, user: string, w: string, v: string, others: seq<string>, id: RowId)
    requires Wellformed(TouchedBy(db.log, user, w)) && v in others
    requires var tw := TouchedBy(db.log, user, w); SameElsewhere(db.rows, mid.rows, tw.order)
    requires TouchedBy(mid.log, user, v) == TouchedBy(db.log, user, v)
    requires TouchedBy(db.log, user, v).slots.Keys !! TouchedBy(db.log, user, w).slots.Keys
    requires id in TouchedBy(db.log, user, v).slots && EachReverted(mid, db', user, others)
    ensures var slot := TouchedBy(db.log, user, v).slots[id];
            AsLeft(db.rows, id, slot) && PutRight(db.rows, db'.rows, id, slot)
  {
    assert id !in TouchedBy(db.log, user, w).order;
    RightOnce(db.rows, mid.rows, db'.rows, id, TouchedBy(db.log, user, v).slots[id]);
  }

  lemma JoinLast(db: Db, mid: Db, db': Db, user: string, w: string, others: seq<string>, id: RowId)
    requires var tw := TouchedBy(db.log, user, w);
             Wellformed(tw) && Reverted(db, mid, tw, tw.order, UndoStamp(user, w)) && id in tw.slots
    requires forall v <- others :: id !in TouchedBy(mid.log, user, v).slots
    requires EachReverted(mid, db', user, others)
    ensures var slot := TouchedBy(db.log, user, w).slots[id];
            AsLeft(db.rows, id, slot) && PutRight(db.rows, db'.rows, id, slot)
  {
    assert id in TouchedBy(db.log, user, w).order;
  }

  lemma EachRevertedJoin(db: Db, mid: Db, user: string, w: string, others: seq<string>, db': Db)
    requires Recorded(db) && Valid(db) && UndoOne(db, user, w) == Ok(mid) && w !in others && EachAlone(db, user, others)
    requires EachReverted(mid, db', user, others)
    ensures EachReverted(db, db', user, others + [w])
  {
    UndoIff(db, user, w);
    var tw := TouchedBy(db.log, user, w);
    forall v <- others
      ensures TouchedBy(mid.log, user, v) == TouchedBy(db.log, user, v)
      ensures TouchedBy(db.log, user, v).slots.Keys !! tw.slots.Keys
    {
      UndoOneAfterAnother(db, user, w, v);
    }
    forall v, id | v in others + [w] && id in TouchedBy(db.log, user, v).slots
      ensures AsLeft(db.rows, id, TouchedBy(db.log, user, v).slots[id])
      ensures PutRight(db.rows, db'.rows, id, TouchedBy(db.log, user, v).slots[id])
    {
      if v in others {
        JoinOther(db, mid, db', user, w, v, others, id);
      } else {
        JoinLast(db, mid, db', user, w, others, id);
      }
    }
    forall id | (forall v <- others + [w] :: id !in TouchedBy(db.log, user, v).slots)
      ensures (id in db.rows <==> id in db'.rows) && (id in db.rows ==> db.rows[id] == db'.rows[id])
    {
      assert w in others + [w] && id !in tw.order;
      assert forall v <- others :: v in others + [w];
    }
  }

  lemma {:induction false} UndoEachIff(db: Db, user: string, writes: seq<string>, n: nat)
    requires Recorded(db) && Valid(db) && n <= |writes| && forall i, j | 0 <= i < j < |writes| :: writes[i] != writes[j]
    ensures UndoEach(db, user, writes, n).Ok? <==> EachAlone(db, user, writes[..n])
    ensures UndoEach(db, user, writes, n).Ok? ==>
              EachReverted(db, UndoEach(db, user, writes, n).value, user, writes[..n])
    decreases n
  {
    if n > 0 {
      var w, others := writes[n - 1], writes[..n - 1];
      assert writes[..n] == others + [w] && w !in others;
      assert w in others + [w];
      if UndoOne(db, user, w).Ok? {
        UndoOneRecorded(db, user, w);
        UndoEachIff(UndoOne(db, user, w).value, user, writes, n - 1);
        OthersAlone(db, user, w, others);
        if UndoEach(db, user, writes, n).Ok? {
          EachRevertedJoin(db, UndoOne(db, user, w).value, user, w, others, UndoEach(db, user, writes, n).value);
        }
      }
    }
  }

  /** In every state the store can reach, a list of writes can be undone together
      exactly when each of them can be alone; then every row any of them touched is
      put right, and nothing else moves. */
  lemma UndoTogetherIff(db: Db, user: string, writes: seq<string>)
    requires Recorded(db) && Valid(db)
    ensures UndoWrites(db, user, writes).Ok? <==> EachAlone(db, user, writes)
    ensures UndoWrites(db, user, writes).Ok? ==> EachReverted(db, UndoWrites(db, user, writes).value, user, writes)
  {
    var each := Distinct(writes);
    assert each[..|each|] == each;
    UndoEachIff(db, user, each, |each|);
  }

  /** Two writes that changed one row are never undone together. */
  lemma SharedRowsRefuse(db: Db, user: string, writes: seq<string>, v: string, w: string, id: RowId)
    requires Recorded(db) && Valid(db) && v in writes && w in writes && v != w
    requires id in TouchedBy(db.log, user, v).slots && id in TouchedBy(db.log, user, w).slots
    ensures UndoWrites(db, user, writes).Err?
  {
    UndoTogetherIff(db, user, writes);
    if UndoOne(db, user, w).Ok? && UndoOne(db, user, v).Ok? {
      UndoOneAfterAnother(db, user, w, v);
    }
  }
}
