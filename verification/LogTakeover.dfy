/**
 The gateway's log files (backend/app/gateway/log_files.py): workers that race to put a
 symlink where a plain log file stood, and one append-only file per day.

 The takeover is a state machine of single directory operations, by any number of
 workers, each of which may fail or crash at any point. Main results, for every run:
 the plain file stays reachable, under its old name or its kept one, until it is older
 than the retention (`NothingLost`); the log path never goes missing, and once a symlink
 stays one (`PathStays`); a call none of whose operations fails makes it a symlink to its
 own target, whatever the others do (`TakesOver`); every handled exit cleans up after
 itself (`NoLeftovers`). For the daily files: what a day's file holds is every line of
 that day that was written, in order, whatever fails (`LinesKept`).
*/
module LogTakeover {
  import opened Wrappers

  type Call = nat

  /** The log path, the name a plain file with this inode is kept under, and the
      temporary name of one call's symlink. */
  datatype Name = LogPath | Keep(ino: nat) | Temporary(call: Call)

  datatype Node = Plain(ino: nat) | Symlink(ino: nat, target: string)

  /** Where a call of `_point_symlink` stands. */
  datatype Stage =
    | Begun
    | Existing
    | Statted(ino: nat)
    | Keeping(ino: nat)
    | Making
    | Replacing
    | Failing

  datatype Work = Work(target: string, stage: Stage)

  /** The directory, the calls at work, the names pruners are about to unlink; and, of
      the past: the inodes a pruner found older than the retention, and the calls cut short,
      by a crash or by a clean-up that failed. */
  datatype State = State(
    dir: map<Name, Node>,
    work: map<Call, Work>,
    pruning: map<nat, nat>,
    aged: set<nat>,
    cut: set<Call>)

  /** One operation. Those that touch the file system may fail; `expired` is what a pruner
      finds of the age of the file behind a name. */
  datatype Action =
    | Start(call: Call, target: string)
    | LookForPath(call: Call)
    | StatPath(call: Call)
    | AskIsLink(call: Call)
    | HardLink(call: Call, fails: bool)
    | MakeSymlink(call: Call, ino: nat, fails: bool)
    | Replace(call: Call, fails: bool)
    | CleanUp(call: Call, fails: bool)
    | Crash(call: Call)
    | StatKept(pruner: nat, ino: nat, expired: bool)
    | UnlinkKept(pruner: nat)

  predicate Is(s: State, c: Call, stage: Stage) {
    c in s.work && s.work[c].stage == stage
  }

  function To(s: State, c: Call, stage: Stage): State
    requires c in s.work
  {
    s.(work := s.work[c := s.work[c].(stage := stage)])
  }

  function Done(s: State, c: Call): State {
    s.(work := s.work - {c})
  }

  function CutShort(s: State, c: Call): State {
    Done(s, c).(cut := s.cut + {c})
  }

  /** The plain file kept under a dated name, unless that name is taken. */
  function LinkPath(s: State, c: Call, ino: nat, fails: bool): State
    requires c in s.work
  {
    if fails || LogPath !in s.dir then To(s, c, Failing)
    else if Keep(ino) in s.dir then To(s, c, Making)
    else To(s.(dir := s.dir[Keep(ino) := s.dir[LogPath]]), c, Making)
  }

  function ReplacePath(s: State, c: Call, fails: bool): State
    requires c in s.work
  {
    if fails || Temporary(c) !in s.dir then To(s, c, Failing)
    else Done(s.(dir := (s.dir - {Temporary(c)})[LogPath := s.dir[Temporary(c)]]), c)
  }

  function StatForPruning(s: State, pruner: nat, ino: nat, expired: bool): State {
    if Keep(ino) !in s.dir || !expired then s
    else s.(pruning := s.pruning[pruner := ino],
            aged := if s.dir[Keep(ino)].Plain? then s.aged + {s.dir[Keep(ino)].ino} else s.aged)
  }

  /** One operation; what a call is not at leaves the state alone. A call's number is
      its own, as its temporary name is. */
  function Act(s: State, a: Action): State {
    match a
    case Start(c, target) =>
      if c in s.work || c in s.cut || Temporary(c) in s.dir then s else s.(work := s.work[c := Work(target, Begun)])
    case LookForPath(c) =>
      if !Is(s, c, Begun) then s else To(s, c, if LogPath in s.dir then Existing else Making)
    case StatPath(c) =>
      if !Is(s, c, Existing) then s
      else if LogPath !in s.dir then To(s, c, Failing)
      else To(s, c, Statted(s.dir[LogPath].ino))
    case AskIsLink(c) =>
      if c !in s.work || !s.work[c].stage.Statted? then s
      else if LogPath in s.dir && s.dir[LogPath].Symlink? then To(s, c, Making)
      else To(s, c, Keeping(s.work[c].stage.ino))
    case HardLink(c, fails) =>
      if c !in s.work || !s.work[c].stage.Keeping? then s else LinkPath(s, c, s.work[c].stage.ino, fails)
    case MakeSymlink(c, ino, fails) =>
      if !Is(s, c, Making) then s
      else if fails then To(s, c, Failing)
      else To(s.(dir := s.dir[Temporary(c) := Symlink(ino, s.work[c].target)]), c, Replacing)
    case Replace(c, fails) =>
      if !Is(s, c, Replacing) then s else ReplacePath(s, c, fails)
    case CleanUp(c, fails) =>
      if !Is(s, c, Failing) then s
      else if fails then CutShort(s, c)
      else Done(s.(dir := s.dir - {Temporary(c)}), c)
    case Crash(c) =>
      if c !in s.work then s else CutShort(s, c)
    case StatKept(pruner, ino, expired) => StatForPruning(s, pruner, ino, expired)
    case UnlinkKept(pruner) =>
      if pruner !in s.pruning then s
      else s.(dir := s.dir - {Keep(s.pruning[pruner])}, pruning := s.pruning - {pruner})
  }

  function Run(s: State, actions: seq<Action>): State {
    if actions == [] then s else Act(Run(s, actions[..|actions| - 1]), actions[|actions| - 1])
  }

  /** Before the workers start: a plain file at the path. A file already kept under its
      inode's name is that file, since an inode in use is not given out again. */
  ghost predicate Initial(s: State, file: nat) {
    && s.work == map[] && s.pruning == map[] && s.aged == {} && s.cut == {}
    && LogPath in s.dir && s.dir[LogPath] == Plain(file)
    && (Keep(file) in s.dir ==> s.dir[Keep(file)] == Plain(file))
    && (forall c: Call :: Temporary(c) !in s.dir)
  }

  // ----- what every operation keeps -----

  predicate IsKept(s: State, file: nat) {
    (Keep(file) in s.dir && s.dir[Keep(file)] == Plain(file)) || file in s.aged
  }

  /** A call that may still replace the path has made sure of the plain file first, as
      long as the path is that file. */
  ghost predicate Careful(s: State, file: nat, w: Work)
    requires LogPath in s.dir
  {
    match w.stage
    case Statted(ino) => s.dir[LogPath] == Plain(file) ==> ino == file
    case Keeping(ino) => s.dir[LogPath] == Plain(file) ==> ino == file
    case Making => s.dir[LogPath] == Plain(file) ==> IsKept(s, file)
    case Replacing => s.dir[LogPath] == Plain(file) ==> IsKept(s, file)
    case _ => true
  }

  ghost predicate Names(s: State, file: nat) {
    && LogPath in s.dir && (s.dir[LogPath] == Plain(file) || s.dir[LogPath].Symlink?)
    && (s.dir[LogPath] == Plain(file) && Keep(file) in s.dir ==> s.dir[Keep(file)] == Plain(file))
    && (s.dir[LogPath].Symlink? ==> IsKept(s, file))
    && (forall c: Call | Temporary(c) in s.dir :: s.dir[Temporary(c)].Symlink?)
    && (forall c: Call | Temporary(c) in s.dir ::
          c in s.cut || (c in s.work && (s.work[c].stage.Replacing? || s.work[c].stage.Failing?)))
    && (forall p <- s.pruning :: s.pruning[p] == file ==> file in s.aged)
  }

  /** A call about to replace the path has its own symlink to put there. */
  ghost predicate Ready(s: State, c: Call)
    requires c in s.work
  {
    s.work[c].stage.Replacing? ==>
      Temporary(c) in s.dir && s.dir[Temporary(c)].Symlink? && s.dir[Temporary(c)].target == s.work[c].target
  }

  ghost predicate Inv(s: State, file: nat) {
    Names(s, file) && forall c <- s.work :: Careful(s, file, s.work[c]) && Ready(s, c)
  }

  lemma NamesKept(s: State, file: nat, a: Action)
    requires Inv(s, file)
    ensures Names(Act(s, a), file)
  {
  }

  lemma CareKept(s: State, file: nat, a: Action, c: Call)
    requires Inv(s, file) && Names(Act(s, a), file) && c in Act(s, a).work
    ensures Careful(Act(s, a), file, Act(s, a).work[c])
  {
    assert c in s.work ==> Careful(s, file, s.work[c]);
  }

  lemma ReadyKept(s: State, file: nat, a: Action, c: Call)
    requires Inv(s, file) && c in Act(s, a).work
    ensures Ready(Act(s, a), c)
  {
    hide Careful, IsKept;
    assert c in s.work ==> Ready(s, c);
  }

  lemma ActKeeps(s: State, file: nat, a: Action)
    requires Inv(s, file)
    ensures Inv(Act(s, a), file)
  {
    hide Act, Careful, Ready;
    NamesKept(s, file, a);
    forall c <- Act(s, a).work ensures Careful(Act(s, a), file, Act(s, a).work[c]) && Ready(Act(s, a), c) {
      CareKept(s, file, a, c);
      ReadyKept(s, file, a, c);
    }
  }

  lemma {:induction false} RunKeeps(s: State, file: nat, actions: seq<Action>)
    requires Inv(s, file)
    ensures Inv(Run(s, actions), file)
    decreases |actions|
  {
    if actions != [] {
      hide Inv, Act;
      RunKeeps(s, file, actions[..|actions| - 1]);
      ActKeeps(Run(s, actions[..|actions| - 1]), file, actions[|actions| - 1]);
    }
  }

  // ----- over every run -----

  /** However the workers race, fail or crash: the plain file that stood at the path is
      still there or under its kept name, unless it has been found past the retention. */
  lemma NothingLost(s: State, file: nat, actions: seq<Action>)
    requires Initial(s, file)
    ensures var t := Run(s, actions);
            || (LogPath in t.dir && t.dir[LogPath] == Plain(file))
            || (Keep(file) in t.dir && t.dir[Keep(file)] == Plain(file))
            || file in t.aged
  {
    RunKeeps(s, file, actions);
  }

  lemma StepKeepsLink(s: State, file: nat, a: Action)
    requires Inv(s, file) && s.dir[LogPath].Symlink?
    ensures Inv(Act(s, a), file) && Act(s, a).dir[LogPath].Symlink?
  {
    ActKeeps(s, file, a);
    hide IsKept;
  }

  lemma {:induction false} LinkStays(s: State, file: nat, actions: seq<Action>)
    requires Inv(s, file) && s.dir[LogPath].Symlink?
    ensures Inv(Run(s, actions), file) && Run(s, actions).dir[LogPath].Symlink?
    decreases |actions|
  {
    if actions != [] {
      LinkStays(s, file, actions[..|actions| - 1]);
      StepKeepsLink(Run(s, actions[..|actions| - 1]), file, actions[|actions| - 1]);
    }
  }

  /** The log path always leads somewhere, and once it is a symlink it stays one. */
  lemma PathStays(s: State, file: nat, before: seq<Action>, after: seq<Action>)
    requires Initial(s, file)
    ensures var t := Run(s, before); LogPath in t.dir && LogPath in Run(t, after).dir
    ensures var t := Run(s, before); t.dir[LogPath].Symlink? ==> Run(t, after).dir[LogPath].Symlink?
  {
    RunKeeps(s, file, before);
    if Run(s, before).dir[LogPath].Symlink? {
      LinkStays(Run(s, before), file, after);
    } else {
      RunKeeps(Run(s, before), file, after);
    }
  }

  /** An operation of this call that fails. */
  predicate Fault(a: Action, c: Call) {
    || (a.HardLink? && a.call == c && a.fails)
    || (a.MakeSymlink? && a.call == c && a.fails)
    || (a.Replace? && a.call == c && a.fails)
  }

  lemma FaultsFail(s: State, file: nat, a: Action, c: Call)
    requires Inv(s, file) && c in Act(s, a).work && Act(s, a).work[c].stage.Failing?
    ensures (c in s.work && s.work[c].stage.Failing?) || Fault(a, c)
  {
    hide Careful, IsKept;
    assert c in s.work ==> Ready(s, c);
  }

  /** No other call's doing makes a call fail. */
  lemma {:induction false} FailingHadFault(s: State, file: nat, actions: seq<Action>, c: Call)
    requires Inv(s, file) && s.work == map[]
    ensures var t := Run(s, actions);
            c in t.work && t.work[c].stage.Failing? ==> exists i :: 0 <= i < |actions| && Fault(actions[i], c)
    decreases |actions|
  {
    hide Inv, Act, Fault;
    if actions != [] {
      var before, a := actions[..|actions| - 1], actions[|actions| - 1];
      RunKeeps(s, file, before);
      FailingHadFault(s, file, before, c);
      var t := Run(s, actions);
      if c in t.work && t.work[c].stage.Failing? {
        FaultsFail(Run(s, before), file, a, c);
      }
    }
  }

  lemma EndsLinked(s: State, file: nat, a: Action, c: Call)
    requires Inv(s, file) && c in s.work && !s.work[c].stage.Failing?
    requires c !in Act(s, a).work && c !in Act(s, a).cut
    ensures LogPath in Act(s, a).dir && Act(s, a).dir[LogPath].Symlink?
            && Act(s, a).dir[LogPath].target == s.work[c].target
  {
    hide Careful, IsKept;
    assert Ready(s, c);
  }

  /** A call none of whose operations has failed ends, unless it is cut short, with the
      log path a symlink to its target; and the path stays a symlink. */
  lemma TakesOver(s: State, file: nat, actions: seq<Action>, a: Action, c: Call, after: seq<Action>)
    requires Initial(s, file) && forall i | 0 <= i < |actions| :: !Fault(actions[i], c)
    requires var t := Run(s, actions); c in t.work && c !in Act(t, a).work && c !in Act(t, a).cut
    ensures var t := Run(s, actions);
            LogPath in Act(t, a).dir && Act(t, a).dir[LogPath].Symlink?
                && Act(t, a).dir[LogPath].target == t.work[c].target
    ensures var u := Run(Act(Run(s, actions), a), after); LogPath in u.dir && u.dir[LogPath].Symlink?
  {
    hide Act, Fault;
    RunKeeps(s, file, actions);
    FailingHadFault(s, file, actions, c);
    EndsLinked(Run(s, actions), file, a, c);
    ActKeeps(Run(s, actions), file, a);
    LinkStays(Act(Run(s, actions), a), file, after);
  }

  /** A call that ended, well or with an error, left no temporary link behind. */
  lemma NoLeftovers(s: State, file: nat, actions: seq<Action>, c: Call)
    requires Initial(s, file)
    requires var t := Run(s, actions); c !in t.work && c !in t.cut
    ensures Temporary(c) !in Run(s, actions).dir
  {
    RunKeeps(s, file, actions);
  }

  // ----- one file per day -----

  type Day = int

  const RETENTION_DAYS := 30

  /** The daily files of the directory, each with its lines. */
  type Files = map<Day, seq<string>>

  /** The copies kept of plain logs, by inode, each with the time it was last written. */
  type Copies = map<nat, real>

  /** A file pruning looks at. */
  datatype Candidate = Dated(day: Day) | PreRotation(ino: nat)

  function LinesOf(files: Files, day: Day): seq<string> {
    if day in files then files[day] else []
  }

  /** What pruning leaves: every file within the retention, and those it fails to unlink. */
  function Pruned(files: Files, today: Day, stuck: set<Candidate>): Files {
    map day | day in files && (day >= today - RETENTION_DAYS || Dated(day) in stuck) :: files[day]
  }

  predicate Expired(copies: Copies, now: real, ino: nat) {
    ino in copies && now - copies[ino] > RETENTION_DAYS as real * 86400.0
  }

  function PrunedCopies(copies: Copies, now: real, stuck: set<Candidate>): Copies {
    map ino | ino in copies && (!Expired(copies, now, ino) || PreRotation(ino) in stuck) :: copies[ino]
  }

  /** What raises while one line is emitted: closing the old stream, opening the new one,
      the clean-up of the link or the listing of the directory, the write. */
  datatype Faults = Faults(closing: bool, opening: bool, following: bool, stuck: set<Candidate>, writing: bool)

  /** The day a handler's stream is of, and whether that stream was closed under it. */
  datatype Handler = Handler(day: Option<Day>, shut: bool)

  datatype Outcome = Outcome(files: Files, handler: Handler, written: bool)

  function Appended(files: Files, h: Handler, today: Day, line: string, writing: bool): Outcome {
    if h.shut || writing then Outcome(files, h, false)
    else Outcome(if today in files then files[today := files[today] + [line]] else files, h, true)
  }

  /** A line emitted: on a new day the day's file is opened, never truncated, and old ones
      are pruned. On a file deleted under the handler the line is lost. */
  function Emitted(files: Files, h: Handler, today: Day, line: string, f: Faults): Outcome {
    if h.day == Some(today) then Appended(files, h, today, line, f.writing)
    else if f.opening || (h.day.Some? && f.closing) then Outcome(files, h.(shut := h.shut || h.day.Some?), false)
    else
      var dayOpen := files[today := LinesOf(files, today)];
      var h' := Handler(Some(today), false);
      if f.following then Outcome(dayOpen, h', false)
      else Appended(Pruned(dayOpen, today, f.stuck), h', today, line, f.writing)
  }

  class DailyAppendFileHandler {
    var day: Option<Day>
    var shut: bool
    var files: Files
    var copies: Copies

    constructor (files: Files, copies: Copies)
      ensures this.files == files && this.copies == copies && Stream() == Handler(None, false)
    {
      this.files, this.copies := files, copies;
      day, shut := None, false;
    }

    function Stream(): Handler
      reads this
    {
      Handler(day, shut)
    }

    /** Deletes the copies and the dated files past the retention, passing over those it
        cannot unlink, and says which. */
    method Prune(today: Day, now: real, stuck: set<Candidate>) returns (removed: set<Candidate>)
      modifies this`files, this`copies
      ensures files == Pruned(old(files), today, stuck) && copies == PrunedCopies(old(copies), now, stuck)
      ensures removed == (set ino | ino in old(copies) && ino !in copies :: PreRotation(ino))
                         + (set day | day in old(files) && day !in files :: Dated(day))
    {
      var fromCopies := PruneCopies(now, stuck);
      var fromFiles := PruneDated(today, stuck);
      removed := fromCopies + fromFiles;
    }

    method PruneCopies(now: real, stuck: set<Candidate>) returns (removed: set<Candidate>)
      modifies this`copies
      ensures copies == PrunedCopies(old(copies), now, stuck)
      ensures removed == set ino | ino in old(copies) && ino !in copies :: PreRotation(ino)
    {
      var left: set<nat> := copies.Keys;
      ghost var before := copies;
      removed := {};
      while left != {}
        invariant left <= copies.Keys <= before.Keys && forall ino <- copies :: copies[ino] == before[ino]
        invariant forall ino <- before | ino !in left ::
                    ino in copies <==> !Expired(before, now, ino) || PreRotation(ino) in stuck
        invariant removed == set ino | ino in before && ino !in copies :: PreRotation(ino)
        decreases |left|
      {
        assert exists ino: nat :: ino in left by {
          assert (forall ino: nat :: ino !in left) ==> left == {};
        }
        var ino: nat :| ino in left;
        left := left - {ino};
        if now - copies[ino] > RETENTION_DAYS as real * 86400.0 && PreRotation(ino) !in stuck {
          copies := copies - {ino};
          removed := removed + {PreRotation(ino)};
        }
      }
    }

    method PruneDated(today: Day, stuck: set<Candidate>) returns (removed: set<Candidate>)
      modifies this`files
      ensures files == Pruned(old(files), today, stuck)
      ensures removed == set day | day in old(files) && day !in files :: Dated(day)
    {
      var left: set<Day> := files.Keys;
      ghost var before := files;
      removed := {};
      while left != {}
        invariant left <= files.Keys <= before.Keys && forall d <- files :: files[d] == before[d]
        invariant forall d <- before | d !in left :: d in files <==> d >= today - RETENTION_DAYS || Dated(d) in stuck
        invariant removed == set d | d in before && d !in files :: Dated(d)
        decreases |left|
      {
        assert exists d: Day :: d in left by {
          assert (forall d: Day :: d !in left) ==> left == {};
        }
        var d: Day :| d in left;
        left := left - {d};
        if d < today - RETENTION_DAYS && Dated(d) !in stuck {
          files := files - {d};
          removed := removed + {Dated(d)};
        }
      }
      assert files.Keys == Pruned(before, today, stuck).Keys;
    }

    /** One line, or none: what is raised on the way is handled, not passed on. */
    method Emit(today: Day, now: real, line: string, f: Faults) returns (written: bool)
      modifies this
      ensures Outcome(files, Stream(), written) == Emitted(old(files), old(Stream()), today, line, f)
    {
      if day != Some(today) {
        if day.Some? {
          shut := true;
          if f.closing {
            return false;
          }
        }
        if f.opening {
          return false;
        }
        files := files[today := LinesOf(files, today)];
        day, shut := Some(today), false;
        if f.following {
          return false;
        }
        var _ := Prune(today, now, f.stuck);
      }
      if shut || f.writing {
        return false;
      }
      if today in files {
        files := files[today := files[today] + [line]];
      }
      return true;
    }
  }

  /** A line a worker emits, on the day it takes it to be, with what raises meanwhile. */
  datatype Emission = Emission(worker: nat, today: Day, line: string, faults: Faults)

  /** The shared files, each worker's handler, and the lines that were written. */
  datatype Logs = Logs(files: Files, handlers: map<nat, Handler>, written: seq<Emission>)

  function HandlerOf(handlers: map<nat, Handler>, worker: nat): Handler {
    if worker in handlers then handlers[worker] else Handler(None, false)
  }

  function EmitAll(files: Files, all: seq<Emission>): Logs {
    if all == [] then Logs(files, map[], [])
    else
      var e := all[|all| - 1];
      var so := EmitAll(files, all[..|all| - 1]);
      var o := Emitted(so.files, HandlerOf(so.handlers, e.worker), e.today, e.line, e.faults);
      Logs(o.files, so.handlers[e.worker := o.handler], so.written + if o.written then [e] else [])
  }

  function OfDay(all: seq<Emission>, day: Day): seq<string> {
    if all == [] then []
    else
      var e := all[|all| - 1];
      OfDay(all[..|all| - 1], day) + if e.today == day then [e.line] else []
  }

  /** One emission adds its line to its day when it is written, and to no other day. */
  lemma EmissionKeeps(files: Files, h: Handler, e: Emission, day: Day)
    requires day >= e.today - RETENTION_DAYS && (h.day == Some(day) ==> day in files)
    ensures var o := Emitted(files, h, e.today, e.line, e.faults);
            && LinesOf(o.files, day) == LinesOf(files, day) + (if o.written && e.today == day then [e.line] else [])
            && (day in files || o.handler.day == Some(day) ==> day in o.files)
  {
  }

  lemma OfDayAppend(written: seq<Emission>, e: Emission, day: Day)
    ensures OfDay(written + [e], day) == OfDay(written, day) + (if e.today == day then [e.line] else [])
  {
    assert (written + [e])[..|written|] == written;
  }

  /** However many workers share the files and whatever fails: a day no worker has yet
      gone past by more than the retention has every line it held, then every line written
      on it, in order, and no other. */
  lemma {:induction false} LinesKept(files: Files, all: seq<Emission>, day: Day)
    requires forall e <- all :: day >= e.today - RETENTION_DAYS
    ensures var so := EmitAll(files, all);
            && LinesOf(so.files, day) == LinesOf(files, day) + OfDay(so.written, day)
            && forall w <- so.handlers :: so.handlers[w].day == Some(day) ==> day in so.files
    decreases |all|
  {
    hide Emitted, LinesOf;
    if all != [] {
      var e := all[|all| - 1];
      var so := EmitAll(files, all[..|all| - 1]);
      LinesKept(files, all[..|all| - 1], day);
      EmissionKeeps(so.files, HandlerOf(so.handlers, e.worker), e, day);
      var held, since := LinesOf(files, day), OfDay(so.written, day);
      if Emitted(so.files, HandlerOf(so.handlers, e.worker), e.today, e.line, e.faults).written {
        OfDayAppend(so.written, e, day);
        var added := if e.today == day then [e.line] else [];
        assert held + (since + added) == held + since + added;
      } else {
        assert so.written + [] == so.written && held + since + [] == held + since;
      }
    }
  }

  /** What raises while this line is emitted by a handler on `day`. */
  predicate Raises(e: Emission, day: Option<Day>) {
    || e.faults.writing
    || (day != Some(e.today) && (e.faults.opening || e.faults.following || (day.Some? && e.faults.closing)))
  }

  /** A line is written exactly when nothing raises while it is emitted and its day's
      stream was not closed under the handler. */
  lemma WrittenIff(files: Files, all: seq<Emission>, e: Emission)
    ensures var before, after := EmitAll(files, all), EmitAll(files, all + [e]);
            var h := HandlerOf(before.handlers, e.worker);
            after.written == before.written + if Raises(e, h.day) || (h.day == Some(e.today) && h.shut) then [] else [e]
  {
    assert (all + [e])[..|all|] == all;
  }

  lemma {:induction false} NoneShut(files: Files, all: seq<Emission>)
    requires forall e <- all :: !e.faults.opening && !e.faults.closing
    ensures forall w <- EmitAll(files, all).handlers :: !EmitAll(files, all).handlers[w].shut
    decreases |all|
  {
    if all != [] {
      NoneShut(files, all[..|all| - 1]);
      assert all[|all| - 1] in all;
    }
  }

  /** Where nothing raises, by any number of workers, no line is lost. */
  lemma {:induction false} NoneLost(files: Files, all: seq<Emission>)
    requires forall e <- all :: !e.faults.opening && !e.faults.closing && !e.faults.following && !e.faults.writing
    ensures EmitAll(files, all).written == all
    decreases |all|
  {
    if all != [] {
      var init, e := all[..|all| - 1], all[|all| - 1];
      NoneLost(files, init);
      NoneShut(files, init);
      assert init + [e] == all && e in all;
      WrittenIff(files, init, e);
    }
  }

  /** When the new day's file cannot be opened, the old day's stream is already closed:
      nothing more is written on the old day, and the next line of the new day tries again. */
  lemma FailedOpeningShutsOldDay(files: Files, h: Handler, yesterday: Day, today: Day, line: string, f: Faults,
                                 next: string, g: Faults)
    requires h.day == Some(yesterday) && today != yesterday && (f.opening || f.closing)
    ensures var o := Emitted(files, h, today, line, f);
            && !o.written && o.files == files
            && !Emitted(o.files, o.handler, yesterday, next, g).written
            && (g == Faults(false, false, false, g.stuck, false) ==>
                  var again := Emitted(o.files, o.handler, today, next, g);
                  again.written && LinesOf(again.files, today) == LinesOf(files, today) + [next])
  {
  }
}
