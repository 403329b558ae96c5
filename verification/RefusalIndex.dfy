/**
 The bounded duplicate filter of refused plans (backend/app/policy/audit.py): an ordered
 index of the refusals already recorded, the oldest dropped beyond 2048.

 Main results, for every sequence of refusals from an empty index, with log writes that
 may fail: the index never holds more than 2048 keys (`RefusalLog.Valid`), and two audit
 entries with one key have at least 2048 other keys accepted between them
 (`RepeatsAreFarApart`; of the log's own entries, `EntriesAreFarApart`).
*/
module RefusalIndex {
  import opened Wrappers

  type Key = string

  const SEEN_LIMIT: nat := 2048

  /** The index, oldest key first. Of the past: every key ever accepted, for each key in
      the index the place it was accepted at, and the places whose entry was written. */
  datatype State = State(seen: seq<Key>, births: seq<nat>, accepted: seq<Key>, written: seq<nat>)

  const EMPTY := State([], [], [], [])

  /** A refusal, and whether the log can be written when it comes. */
  datatype Refusal = Refusal(key: Key, writable: bool)

  /** The oldest dropped while there are too many. */
  function Trimmed(s: State): State
    requires |s.births| == |s.seen|
    decreases |s.seen|
  {
    if |s.seen| <= SEEN_LIMIT then s else Trimmed(s.(seen := s.seen[1..], births := s.births[1..]))
  }

  /** A key seen is not recorded again; a new one is, unless the log cannot be written,
      and then it is forgotten. */
  function Recorded(s: State, r: Refusal): State
    requires |s.births| == |s.seen|
    ensures |Recorded(s, r).births| == |Recorded(s, r).seen|
  {
    if r.key in s.seen then s
    else
      var place := |s.accepted|;
      TrimKeeps(s.(seen := s.seen + [r.key], births := s.births + [place], accepted := s.accepted + [r.key]));
      var kept := Trimmed(s.(seen := s.seen + [r.key], births := s.births + [place], accepted := s.accepted + [r.key]));
      if r.writable then kept.(written := kept.written + [place])
      else kept.(seen := kept.seen[..|kept.seen| - 1], births := kept.births[..|kept.births| - 1])
  }

  lemma {:induction false} TrimKeeps(s: State)
    requires |s.births| == |s.seen|
    ensures var t := Trimmed(s);
            |t.births| == |t.seen| && t.accepted == s.accepted && t.written == s.written
                && (s.seen != [] ==> t.seen != [])
    decreases |s.seen|
  {
    if |s.seen| > SEEN_LIMIT {
      TrimKeeps(s.(seen := s.seen[1..], births := s.births[1..]));
    }
  }

  function RecordedAll(refusals: seq<Refusal>): (s: State)
    ensures |s.births| == |s.seen|
  {
    if refusals == [] then EMPTY else Recorded(RecordedAll(refusals[..|refusals| - 1]), refusals[|refusals| - 1])
  }

  /** The other keys accepted after place `p` and before place `q`. */
  function Between(accepted: seq<Key>, p: nat, q: nat): set<Key>
    requires p < q <= |accepted|
  {
    set i: int | p < i < q && accepted[i] != accepted[p] :: accepted[i]
  }

  ghost predicate Far(accepted: seq<Key>, p: nat, q: nat) {
    p < q <= |accepted| && |Between(accepted, p, q)| >= SEEN_LIMIT
  }

  // ----- what every refusal keeps -----

  /** The index lists distinct keys, each with its place, in the order accepted. */
  ghost predicate InOrder(s: State) {
    && |s.births| == |s.seen|
    && (forall i | 0 <= i < |s.seen| :: s.births[i] < |s.accepted| && s.accepted[s.births[i]] == s.seen[i])
    && (forall i, j | 0 <= i < j < |s.seen| :: s.births[i] < s.births[j] && s.seen[i] != s.seen[j])
  }

  /** A written entry is still in the index, or 2048 other keys were accepted after it. */
  ghost predicate Remembered(s: State) {
    && (forall i, j | 0 <= i < j < |s.written| :: s.written[i] < s.written[j])
    && forall p <- s.written :: p < |s.accepted| && (p in s.births || Far(s.accepted, p, |s.accepted|))
  }

  ghost predicate Apart(s: State) {
    forall p, q | p in s.written && q in s.written && p < q < |s.accepted| && s.accepted[p] == s.accepted[q] ::
      Far(s.accepted, p, q)
  }

  ghost predicate Inv(s: State) {
    InOrder(s) && |s.seen| <= SEEN_LIMIT && Remembered(s) && Apart(s)
  }

  lemma SubsetNoLarger(a: set<Key>, b: set<Key>)
    requires a <= b
    ensures |a| <= |b|
  {
    assert b == a + (b - a);
  }

  /** More keys accepted leave two places as far apart. */
  lemma FarStays(accepted: seq<Key>, p: nat, q: nat, key: Key, q': nat)
    requires Far(accepted, p, q) && q <= q' <= |accepted| + 1
    ensures Far(accepted + [key], p, q')
  {
    var now := Between(accepted + [key], p, q');
    forall k <- Between(accepted, p, q) ensures k in now {
      var i: int :| p < i < q && accepted[i] != accepted[p] && accepted[i] == k;
      assert (accepted + [key])[i] == k;
    }
    SubsetNoLarger(Between(accepted, p, q), now);
  }

  lemma {:induction false} DistinctCount(s: seq<Key>)
    requires forall i, j | 0 <= i < j < |s| :: s[i] != s[j]
    ensures |set k | k in s| == |s|
    decreases |s|
  {
    var all := set k | k in s;
    if s == [] {
      assert all == {};
    } else {
      var init, last := s[..|s| - 1], s[|s| - 1];
      DistinctCount(init);
      assert s == init + [last];
      assert all == (set k | k in init) + {last};
    }
  }

  /** The oldest key of a full index has 2048 others accepted after it. */
  lemma OldestIsFar(s: State)
    requires InOrder(s) && |s.seen| == SEEN_LIMIT + 1
    ensures Far(s.accepted, s.births[0], |s.accepted|)
  {
    var rest := s.seen[1..];
    DistinctCount(rest);
    var others := Between(s.accepted, s.births[0], |s.accepted|);
    forall k | k in rest ensures k in others {
      var i :| 0 <= i < |rest| && rest[i] == k;
      assert s.accepted[s.births[i + 1]] == k && s.seen[0] != s.seen[i + 1];
    }
    SubsetNoLarger((set k | k in rest), others);
  }

  /** A new key at the end of the index. */
  lemma Pushed(s: State, key: Key)
    requires Inv(s) && key !in s.seen
    ensures var t := s.(seen := s.seen + [key], births := s.births + [|s.accepted|], accepted := s.accepted + [key]);
            && InOrder(t) && Remembered(t) && Apart(t)
            && forall p <- s.written :: s.accepted[p] == key ==> Far(t.accepted, p, |s.accepted|)
  {
    var t := s.(seen := s.seen + [key], births := s.births + [|s.accepted|], accepted := s.accepted + [key]);
    forall p <- s.written ensures p in t.births || Far(t.accepted, p, |t.accepted|) {
      if p in s.births {
        var i :| 0 <= i < |s.births| && s.births[i] == p;
        assert t.births[i] == p;
      } else {
        FarStays(s.accepted, p, |s.accepted|, key, |t.accepted|);
      }
    }
    forall p, q | p in t.written && q in t.written && p < q < |t.accepted| && t.accepted[p] == t.accepted[q]
      ensures Far(t.accepted, p, q)
    {
      FarStays(s.accepted, p, q, key, q);
    }
    forall p <- s.written | s.accepted[p] == key ensures Far(t.accepted, p, |s.accepted|) {
      FarStays(s.accepted, p, |s.accepted|, key, |s.accepted|);
    }
  }

  /** The oldest dropped from an index that is one too large. */
  lemma Trims(s: State)
    requires InOrder(s) && |s.seen| <= SEEN_LIMIT + 1 && Remembered(s) && Apart(s)
    ensures Inv(Trimmed(s)) && Trimmed(s).accepted == s.accepted && Trimmed(s).written == s.written
    ensures s.seen != [] ==> Trimmed(s).seen != [] && Trimmed(s).seen[|Trimmed(s).seen| - 1] == s.seen[|s.seen| - 1]
                             && Trimmed(s).births[|Trimmed(s).births| - 1] == s.births[|s.births| - 1]
  {
    if |s.seen| > SEEN_LIMIT {
      var t := s.(seen := s.seen[1..], births := s.births[1..]);
      OldestIsFar(s);
      assert Trimmed(s) == t;
      forall p <- t.written ensures p in t.births || Far(t.accepted, p, |t.accepted|) {
        if p in s.births && p != s.births[0] {
          var i :| 0 <= i < |s.births| && s.births[i] == p;
          assert t.births[i - 1] == p;
        }
      }
    }
  }

  /** The newest key's entry written. */
  lemma WrittenKeeps(s: State, place: nat)
    requires Inv(s) && place < |s.accepted| && place in s.births && (forall p <- s.written :: p < place)
    requires forall p <- s.written | s.accepted[p] == s.accepted[place] :: Far(s.accepted, p, place)
    ensures Inv(s.(written := s.written + [place]))
  {
    hide Far;
    assert forall i | 0 <= i < |s.written| :: s.written[i] in s.written;
    assert forall p <- s.written + [place] :: p in s.written || p == place;
  }

  /** The newest key forgotten again. */
  lemma ForgottenKeeps(s: State, place: nat)
    requires Inv(s) && s.seen != [] && s.births[|s.births| - 1] == place && place !in s.written
    ensures Inv(s.(seen := s.seen[..|s.seen| - 1], births := s.births[..|s.births| - 1]))
  {
    hide Far;
    var last := |s.births| - 1;
    forall p <- s.written | p in s.births ensures p in s.births[..last] {
      var i :| 0 <= i < |s.births| && s.births[i] == p;
      assert s.births[..last][i] == p;
    }
  }

  lemma RecordedKeeps(s: State, r: Refusal)
    requires Inv(s)
    ensures Inv(Recorded(s, r))
  {
    if r.key !in s.seen {
      hide Far, Remembered, Apart, Trimmed;
      var place := |s.accepted|;
      var pushed := s.(seen := s.seen + [r.key], births := s.births + [place], accepted := s.accepted + [r.key]);
      Pushed(s, r.key);
      WrittenBefore(s);
      Trims(pushed);
      var kept := Trimmed(pushed);
      assert kept.births[|kept.births| - 1] == place;
      if r.writable {
        WrittenKeeps(kept, place);
      } else {
        ForgottenKeeps(kept, place);
      }
    }
  }

  lemma WrittenBefore(s: State)
    requires Remembered(s)
    ensures forall p <- s.written :: p < |s.accepted|
  {
  }

  lemma {:induction false} AllKeep(refusals: seq<Refusal>)
    ensures Inv(RecordedAll(refusals))
    decreases |refusals|
  {
    if refusals != [] {
      AllKeep(refusals[..|refusals| - 1]);
      RecordedKeeps(RecordedAll(refusals[..|refusals| - 1]), refusals[|refusals| - 1]);
    }
  }

  /** Of two audit entries with one key, the second comes only after at least 2048 other
      keys were accepted; and the index stays within its bound. */
  lemma RepeatsAreFarApart(refusals: seq<Refusal>, p: nat, q: nat)
    requires var s := RecordedAll(refusals);
             p in s.written && q in s.written && p < q < |s.accepted| && s.accepted[p] == s.accepted[q]
    ensures var s := RecordedAll(refusals); |s.seen| <= SEEN_LIMIT && |Between(s.accepted, p, q)| >= SEEN_LIMIT
  {
    AllKeep(refusals);
  }

  // ----- the log's entries -----

  /** The keys of the entries that have one, in order. */
  function Keyed(entries: seq<Option<Key>>): seq<Key> {
    if entries == [] then []
    else
      var last := entries[|entries| - 1];
      Keyed(entries[..|entries| - 1]) + if last.Some? then [last.value] else []
  }

  /** The entries with a key are those written, each with the key accepted there. */
  ghost predicate Logged(entries: seq<Option<Key>>, s: State) {
    && |Keyed(entries)| == |s.written|
    && forall i | 0 <= i < |s.written| :: s.written[i] < |s.accepted| && s.accepted[s.written[i]] == Keyed(entries)[i]
  }

  lemma KeyedAppend(entries: seq<Option<Key>>, e: Option<Key>)
    ensures Keyed(entries + [e]) == Keyed(entries) + if e.Some? then [e.value] else []
  {
    assert (entries + [e])[..|entries|] == entries;
  }

  /** Where an entry stands among those with a key. */
  lemma {:induction false} KeyedAt(entries: seq<Option<Key>>, i: nat)
    requires i < |entries| && entries[i].Some?
    ensures |Keyed(entries[..i])| < |Keyed(entries)| && Keyed(entries)[|Keyed(entries[..i])|] == entries[i].value
    decreases |entries|
  {
    if i < |entries| - 1 {
      KeyedAt(entries[..|entries| - 1], i);
      assert entries[..|entries| - 1][..i] == entries[..i];
    }
  }

  /** The place an entry's key was accepted at. */
  ghost function PlaceOf(entries: seq<Option<Key>>, s: State, i: nat): nat
    requires Logged(entries, s) && i < |entries| && entries[i].Some?
  {
    KeyedAt(entries, i);
    s.written[|Keyed(entries[..i])|]
  }

  /** Of two entries of the log with one key, the second's was accepted only after at
      least 2048 other keys were, since the first's. */
  lemma EntriesAreFarApart(entries: seq<Option<Key>>, s: State, i: nat, j: nat)
    requires Inv(s) && Logged(entries, s) && i < j < |entries| && entries[i].Some? && entries[i] == entries[j]
    ensures var p, q := PlaceOf(entries, s, i), PlaceOf(entries, s, j);
            && Far(s.accepted, p, q) && q < |s.accepted|
            && s.accepted[p] == s.accepted[q] == entries[i].value
  {
    hide Far;
    KeyedAt(entries, i);
    KeyedAt(entries, j);
    KeyedAt(entries[..j], i);
    assert entries[..j][..i] == entries[..i];
    var p, q := s.written[|Keyed(entries[..i])|], s.written[|Keyed(entries[..j])|];
    assert p in s.written && q in s.written && Far(s.accepted, p, q);
  }

  lemma LoggedKeeps(entries: seq<Option<Key>>, s: State, r: Refusal)
    requires Inv(s) && Logged(entries, s)
    ensures var written := r.writable && r.key !in s.seen;
            Logged(if written then entries + [Some(r.key)] else entries, Recorded(s, r))
  {
    if r.key !in s.seen {
      var pushed := s.(seen := s.seen + [r.key], births := s.births + [|s.accepted|], accepted := s.accepted + [r.key]);
      TrimKeeps(pushed);
      KeyedAppend(entries, Some(r.key));
      assert Recorded(s, r).accepted == pushed.accepted;
    }
  }

  // ----- the log and its index, in place -----

  class RefusalLog {
    var seen: seq<Key>
    var entries: seq<Option<Key>>
    ghost var past: State

    constructor ()
      ensures Valid() && past == EMPTY && entries == []
    {
      seen, entries, past := [], [], EMPTY;
    }

    ghost predicate Valid()
      reads this
    {
      past.seen == seen && Inv(past) && Logged(entries, past)
    }

    /** Two entries with one key have 2048 other keys accepted between them. */
    lemma RepeatsInLog(i: nat, j: nat)
      requires Valid() && i < j < |entries| && entries[i].Some? && entries[i] == entries[j]
      ensures var p, q := PlaceOf(entries, past, i), PlaceOf(entries, past, j);
              && Far(past.accepted, p, q) && q < |past.accepted|
              && past.accepted[p] == past.accepted[q] == entries[i].value
    {
      EntriesAreFarApart(entries, past, i, j);
    }

    /** Whether the key is new; if so it is in the index from now on. */
    method FirstRefusal(key: Key) returns (first: bool)
      requires past.seen == seen && Inv(past)
      modifies this`seen
      ensures first == (key !in old(seen))
      ensures !first ==> seen == old(seen)
      ensures first ==> |past.births + [|past.accepted|]| == |old(seen) + [key]|
                        && seen == Trimmed(past.(seen := old(seen) + [key],
                                                 births := past.births + [|past.accepted|])).seen
    {
      if key in seen {
        return false;
      }
      ghost var pushed := past.(seen := seen + [key], births := past.births + [|past.accepted|]);
      seen := seen + [key];
      ghost var births := pushed.births;
      while |seen| > SEEN_LIMIT
        invariant |births| == |seen|
        invariant Trimmed(pushed) == Trimmed(pushed.(seen := seen, births := births))
      {
        seen, births := seen[1..], births[1..];
      }
      return true;
    }

    /** A refused plan recorded, once per key; without a key, always. A log that cannot be
        written forgets the key. */
    method RecordRefused(key: Option<Key>, writable: bool) returns (written: bool)
      requires Valid()
      modifies this
      ensures Valid()
      ensures key.None? ==> past == old(past) && written == writable
      ensures key.Some? ==>
                |old(past).births| == |old(past).seen| && past == Recorded(old(past), Refusal(key.value, writable))
                            && written == (writable && key.value !in old(seen))
      ensures entries == if written then old(entries) + [key] else old(entries)
    {
      if key.Some? {
        var first := FirstRefusal(key.value);
        if !first {
          return false;
        }
        RecordedKeeps(past, Refusal(key.value, writable));
        LoggedKeeps(entries, past, Refusal(key.value, writable));
        TrimmedLast(past, key.value);
        if !writable {
          seen := seen[..|seen| - 1];
        }
        past := Recorded(past, Refusal(key.value, writable));
      }
      if writable {
        KeyedAppend(entries, key);
        entries := entries + [key];
      }
      return writable;
    }
  }

  /** Trimming looks at the index alone. */
  lemma TrimmedLast(s: State, key: Key)
    requires Inv(s) && key !in s.seen
    ensures var births := s.births + [|s.accepted|];
            Trimmed(s.(seen := s.seen + [key], births := births)).seen
            == Trimmed(s.(seen := s.seen + [key], births := births, accepted := s.accepted + [key])).seen
  {
  }
}
