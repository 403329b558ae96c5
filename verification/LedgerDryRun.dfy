/**
 A plan checked without writing is the plan that would be applied.

 `validate` runs the plan in a transaction it rolls back, under its own stamp and
 with ids it draws and throws away. Main results: it succeeds exactly when
 `apply` would here and now (`DryRunAgrees`), and the plan pinned to its answer
 makes the same writes, exactly when no update is misread (`PinnedPlanRepeats`).
*/
module LedgerDryRun {
  import opened Wrappers
  import opened LedgerText
  import opened LedgerStore
  import opened LedgerApply
  import opened LedgerPins

  // ----- the same writes, under another stamp and other ids -----

  ghost predicate SameLog(a: seq<Change>, b: seq<Change>) {
    |a| == |b| && forall i | 0 <= i < |a| :: a[i].(stamp := b[i].stamp) == b[i]
  }

  ghost predicate SameWrites(a: Db, b: Db) {
    a.rows == b.rows && a.issued == b.issued && SameLog(a.log, b.log)
  }

  /** Two runs that differ only in stamps, in what they report and in what they resolved. */
  ghost predicate Alike(a: Run, b: Run) {
    && SameWrites(a.db, b.db)
    && a.refs == b.refs && a.goalRefs == b.goalRefs && a.created == b.created && a.refNames == b.refNames
  }

  ghost predicate AlikeOutcome(a: Result<Run, LedgerError>, b: Result<Run, LedgerError>) {
    match (a, b)
    case (Ok(x), Ok(y)) => Alike(x, y)
    case (Err(x), Err(y)) => x == y
    case _ => false
  }

  /** What a call says of rows by text: a project, a task or a goal. */
  function Keys(rt: Runtime, c: PlanChange): set<string> {
    {Str(Get(c, "project")), TaskKey(rt, Get(c, "task")), Str(Get(c, "goal"))}
  }

  /** Two ways the ids of rows may read, as far as a plan can tell: the same for
      the rows that were there; for a row not yet drawn, no text of the plan. */
  ghost predicate FreshNames(f: Naming, g: Naming, base: nat, keys: set<string>) {
    && (forall id: RowId | id < base :: f(id) == g(id))
    && (forall id: RowId | id >= base :: f(id) !in keys && g(id) !in keys)
    && (forall a: RowId, b: RowId | f(a) == f(b) :: a == b)
  }

  ghost predicate SameCaller(x: Call, y: Call) {
    x.rt == y.rt && x.user == y.user && x.thread == y.thread
  }

  ghost predicate CanFollow(x: Call, y: Call, base: nat, c: PlanChange) {
    SameCaller(x, y) && FreshNames(x.names, y.names, base, Keys(x.rt, c))
  }

  lemma RowsNamedSame(f: Naming, g: Naming, base: nat, keys: set<string>, rows: Rows, key: string)
    requires FreshNames(f, g, base, keys) && key in keys
    ensures RowsNamed(f, rows, key) == RowsNamed(g, rows, key)
  {
    forall id <- rows ensures f(id) == key <==> g(id) == key {
      if id >= base { assert f(id) !in keys && g(id) !in keys; }
    }
  }

  lemma ProjectAlike(f: Naming, g: Naming, base: nat, keys: set<string>, rt: Runtime, rows: Rows, user: string,
                     ref: Arg,
                     refs: map<string, RowId>)
    requires FreshNames(f, g, base, keys) && Str(ref) in keys
    ensures ResolveProject(rt, f, rows, user, ref, refs) == ResolveProject(rt, g, rows, user, ref, refs)
  {
    RowsNamedSame(f, g, base, keys, rows, Str(ref));
    assert Direct(f, rows, Str(ref), refs) == Direct(g, rows, Str(ref), refs);
  }

  lemma AnywhereAlike(f: Naming, g: Naming, base: nat, keys: set<string>, rt: Runtime, rows: Rows, user: string,
                      ref: Arg)
    requires FreshNames(f, g, base, keys) && TaskKey(rt, ref) in keys
    ensures ResolveTaskAnywhere(rt, f, rows, user, ref) == ResolveTaskAnywhere(rt, g, rows, user, ref)
  {
    RowsNamedSame(f, g, base, keys, rows, TaskKey(rt, ref));
  }

  lemma TargetAlike(x: Call, y: Call, base: nat, a: Run, b: Run, c: PlanChange)
    requires CanFollow(x, y, base, c) && Alike(a, b)
    ensures ResolveTarget(x, a, c) == ResolveTarget(y, b, c)
  {
    var keys := Keys(x.rt, c);
    ProjectAlike(x.names, y.names, base, keys, x.rt, a.db.rows, x.user, Get(c, "project"), a.refs);
    AnywhereAlike(x.names, y.names, base, keys, x.rt, a.db.rows, x.user, Get(c, "task"));
  }

  lemma TaskAlike(x: Call, y: Call, base: nat, a: Run, b: Run, c: PlanChange, target: Target)
    requires CanFollow(x, y, base, c) && Alike(a, b) && ResolveTarget(x, a, c) == Ok(target)
    requires ResolveTarget(y, b, c) == Ok(target)
    ensures UpdatedTaskOf(x, a, c, target) == UpdatedTaskOf(y, b, c, target)
  {
    RowsNamedSame(x.names, y.names, base, Keys(x.rt, c), a.db.rows, TaskKey(x.rt, Get(c, "task")));
  }

  lemma CreateAlike(a: Db, b: Db, row: Row, s: Stamp, t: Stamp)
    requires SameWrites(a, b)
    ensures match (Create(a, row, s), Create(b, row, t))
            case (Ok(x), Ok(y)) => SameWrites(x, y)
            case (Err(x), Err(y)) => x == y
            case _ => false
  {
  }

  lemma LinkAlike(a: Db, b: Db, fromId: RowId, toRef: string, caption: Option<string>, todo: Option<string>,
                  owner: string,
                  actor: string, actor': string)
    requires SameWrites(a, b)
    ensures SameWrites(Link(a, fromId, toRef, caption, todo, owner, actor),
                       Link(b, fromId, toRef, caption, todo, owner, actor'))
  {
    assert Linked(a, fromId, toRef) == Linked(b, fromId, toRef);
  }

  lemma CreateProjectAlike(x: Call, y: Call, a: Run, b: Run, c: PlanChange)
    requires SameCaller(x, y) && Alike(a, b)
    ensures AlikeOutcome(CreateProject(x, a, c), CreateProject(y, b, c))
  {
    assert ProjectToCreate(x, c) == ProjectToCreate(y, c);
    if ProjectToCreate(x, c).Ok? {
      var row := ProjectToCreate(x, c).value;
      CreateAlike(a.db, b.db, row, StampOf(x), StampOf(y));
      if HasConversation(x) {
        LinkAlike(Create(a.db, row, StampOf(x)).value, Create(b.db, row, StampOf(y)).value, a.db.issued, x.thread.value,
                  Some("The chat it was captured in"), None, x.user, x.actor, y.actor);
      }
    }
  }

  lemma CreateGoalAlike(x: Call, y: Call, a: Run, b: Run, c: PlanChange, target: Target)
    requires SameCaller(x, y) && Alike(a, b)
    ensures AlikeOutcome(CreateGoal(x, a, c, target), CreateGoal(y, b, c, target))
  {
    assert GoalToCreate(x, c, target.project) == GoalToCreate(y, c, target.project);
    if GoalToCreate(x, c, target.project).Ok? {
      CreateAlike(a.db, b.db, GoalToCreate(x, c, target.project).value, StampOf(x), StampOf(y));
    }
  }

  lemma AddNoteAlike(x: Call, y: Call, a: Run, b: Run, c: PlanChange, target: Target)
    requires SameCaller(x, y) && Alike(a, b)
    ensures AlikeOutcome(AddNote(x, a, c, target), AddNote(y, b, c, target))
  {
    assert NoteToCreate(x, c, target.project) == NoteToCreate(y, c, target.project);
    if NoteToCreate(x, c, target.project).Ok? {
      CreateAlike(a.db, b.db, NoteToCreate(x, c, target.project).value, StampOf(x), StampOf(y));
    }
  }

  lemma LinkThreadAlike(x: Call, y: Call, a: Run, b: Run, c: PlanChange, target: Target)
    requires SameCaller(x, y) && Alike(a, b)
    ensures AlikeOutcome(LinkThread(x, a, c, target), LinkThread(y, b, c, target))
  {
    if HasConversation(x) && OptionalText(x.rt, c, "label", 300).Ok? {
      LinkAlike(a.db, b.db, target.project, x.thread.value, OptionalText(x.rt, c, "label", 300).value, None, x.user,
                x.actor, y.actor);
    }
  }

  lemma CreateTaskAlike(x: Call, y: Call, base: nat, a: Run, b: Run, c: PlanChange, target: Target)
    requires CanFollow(x, y, base, c) && Alike(a, b) && IsProject(a.db.rows, target.project)
    ensures AlikeOutcome(CreateTask(x, a, c, target), CreateTask(y, b, c, target))
  {
    RowsNamedSame(x.names, y.names, base, Keys(x.rt, c), a.db.rows, Str(Get(c, "goal")));
    assert TaskGoal(x, a, c, target) == TaskGoal(y, b, c, target);
    assert TaskToCreate(x, a, c, target) == TaskToCreate(y, b, c, target);
    if TaskToCreate(x, a, c, target).Ok? {
      var row := TaskToCreate(x, a, c, target).value;
      CreateAlike(a.db, b.db, row, StampOf(x), StampOf(y));
      var todo := Get(c, "todo_ref");
      if HasConversation(x) && Truthy(todo) && Create(a.db, row, StampOf(x)).Ok? {
        LinkAlike(Create(a.db, row, StampOf(x)).value, Create(b.db, row, StampOf(y)).value, a.db.issued, x.thread.value,
                  None, Some(Cut(Str(todo), 300)), x.user, x.actor, y.actor);
      }
    }
  }

  lemma UpdateTaskAlike(x: Call, y: Call, a: Run, b: Run, c: PlanChange, target: Target, target': Target, task: RowId)
    requires SameCaller(x, y) && Alike(a, b) && IsTask(a.db.rows, task)
    ensures AlikeOutcome(UpdateTask(x, a, c, target, task), UpdateTask(y, b, c, target', task))
  {
  }

  /** One change fails with the same error, or makes the same writes, under any stamp
      and any fresh ids. */
  lemma StepAlike(x: Call, y: Call, base: nat, a: Run, b: Run, c: PlanChange)
    requires CanFollow(x, y, base, c) && Alike(a, b)
    ensures AlikeOutcome(Step(x, a, c), Step(y, b, c))
  {
    hide ResolveTarget, UpdatedTaskOf, CreateProject, CreateGoal, CreateTask, AddNote, LinkThread, UpdateTask;
    if c.op == "create_project" {
      CreateProjectAlike(x, y, a, b, c);
    } else {
      TargetAlike(x, y, base, a, b, c);
      if ResolveTarget(x, a, c).Ok? {
        var target := ResolveTarget(x, a, c).value;
        match c.op
        case "update_task" =>
          TaskAlike(x, y, base, a, b, c, target);
          if UpdatedTaskOf(x, a, c, target).Ok? {
            UpdateTaskAlike(x, y, a, b, c, target, target, UpdatedTaskOf(x, a, c, target).value);
          }
        case "create_task" => CreateTaskAlike(x, y, base, a, b, c, target);
        case "create_goal" => CreateGoalAlike(x, y, a, b, c, target);
        case "add_note" => AddNoteAlike(x, y, a, b, c, target);
        case _ => LinkThreadAlike(x, y, a, b, c, target);
      }
    }
  }

  ghost predicate CanFollowPlan(x: Call, y: Call, base: nat, changes: seq<PlanChange>) {
    forall c <- changes :: CanFollow(x, y, base, c)
  }

  lemma {:induction false} StepsAlike(x: Call, y: Call, base: nat, a: Run, b: Run, changes: seq<PlanChange>)
    requires CanFollowPlan(x, y, base, changes) && Alike(a, b)
    ensures AlikeOutcome(Steps(x, a, changes), Steps(y, b, changes))
    decreases |changes|
  {
    if changes != [] {
      StepAlike(x, y, base, a, b, changes[0]);
      if Step(x, a, changes[0]).Ok? {
        StepsAlike(x, y, base, Step(x, a, changes[0]).value, Step(y, b, changes[0]).value, changes[1..]);
      }
    }
  }

  /** A dry run, under its own stamp and with its own fresh ids, succeeds exactly
      when applying the plan would; it fails with the same error; and the writes
      it tried are the ones the plan makes. */
  lemma DryRunAgrees(check: Call, call: Call, db: Db, changes: seq<PlanChange>)
    requires CanFollowPlan(check, call, db.issued, changes)
    ensures AlikeOutcome(ApplyIn(check, db, changes), ApplyIn(call, db, changes))
  {
    StepsAlike(check, call, db.issued, Start(db), Start(db), changes);
  }

  // ----- the plan, pinned to what the dry run resolved -----

  /** An update that names no project, that the dry run found (by title) among the
      tasks the plan adds to an older project, and whose words also spell a short
      id that is not that task's own. Pinned to the project, the words are read as
      the short id. */
  ghost predicate MisreadAt(call: Call, run: Run, c: PlanChange, target: Target, task: RowId) {
    && Blank(Get(c, "project"))
    && task in run.created && target.project !in run.created
    && var short := ShortIdOf(call.rt, TaskKey(call.rt, Get(c, "task")));
    && short.Some? && Numbered(run.db.rows, TasksOf(run.db.rows, target.project), short) != {task}
  }

  ghost predicate Misread(call: Call, run: Run, c: PlanChange) {
    && c.op == "update_task" && Step(call, run, c).Ok?
    && var (target, task) := TargetAt(call, run, c);
    MisreadAt(call, run, c, target, task.value)
  }

  /** A task the plan made, found across projects, was found by its title alone. */
  lemma FoundByTitle(base: nat, call: Call, rows: Rows, c: PlanChange, task: RowId)
    requires CanFollow(call, call, base, c) && task >= base
    requires ResolveTaskAnywhere(call.rt, call.names, rows, call.user, Get(c, "task")) == Ok(task)
    ensures var key := TaskKey(call.rt, Get(c, "task"));
            && key != ""
            && RowsNamed(call.names, rows, key) * TasksOfUser(rows, call.user) == {}
            && Titled(call.rt, rows, TasksOfUser(rows, call.user), Norm(call.rt, key)) == {task}
  {
    var key := TaskKey(call.rt, Get(c, "task"));
    var byId := RowsNamed(call.names, rows, key) * TasksOfUser(rows, call.user);
    assert key in Keys(call.rt, c) && task !in byId;
    AtMostOne(byId);
  }

  /** Read again within its project, such a task is found again, unless the words
      are a short id; then it is found exactly when the short id is its own. */
  lemma ReadInProject(base: nat, call: Call, rows: Rows, c: PlanChange, task: RowId, named: Named)
    requires CanFollow(call, call, base, c) && task >= base
    requires ResolveTaskAnywhere(call.rt, call.names, rows, call.user, Get(c, "task")) == Ok(task)
    ensures var short := ShortIdOf(call.rt, TaskKey(call.rt, Get(c, "task")));
            var project := rows[task].project;
            ResolveTask(call.rt, call.names, rows, project, Get(c, "task"), named) == Ok(task)
            <==> short.None? || Numbered(rows, TasksOf(rows, project), short) == {task}
  {
    FoundByTitle(base, call, rows, c, task);
    var key := TaskKey(call.rt, Get(c, "task"));
    var project := rows[task].project;
    var tasks, mine, wanted := TasksOf(rows, project), TasksOfUser(rows, call.user), Norm(call.rt, key);
    assert tasks <= mine && task in tasks;
    assert RowsNamed(call.names, rows, key) * tasks <= RowsNamed(call.names, rows, key) * mine;
    assert task in Titled(call.rt, rows, mine, wanted);
    assert Titled(call.rt, rows, tasks, wanted) == {task} by {
      assert Titled(call.rt, rows, tasks, wanted) <= Titled(call.rt, rows, mine, wanted);
      assert task in Titled(call.rt, rows, tasks, wanted);
    }
  }

  /** What a step of an unpinned plan resolved its change to. */
  ghost function PinOf(call: Call, run: Run, c: PlanChange): Pin
    requires Step(call, run, c).Ok?
  {
    if c.op == "create_project" then NO_PIN
    else var (target, task) := TargetAt(call, run, c); Resolution(run, c, target.project, task)
  }

  /** Under its own pin a change has the same project. */
  lemma PinnedTargetRepeats(base: nat, call: Call, run: Run, c: PlanChange, target: Target, task: Option<RowId>)
    requires RunInv(base, call.user, run) && c.pin == NO_PIN && StepAt(call, run, c, target, task)
    ensures var pin := Resolution(run, c, target.project, task);
            var again := ResolveTarget(call, run, c.(pin := pin));
            && again.Ok? && again.value.project == target.project
            && (again.value.task.Some? ==> again.value.task == task)
            && (task.None? ==> again.value == target)
            && (again.value.task.None? && task.Some? && !Blank(Get(c, "project")) ==> again.value == target)
            && (pin.inPlanProject ==> target.project in run.created)
            && (pin.inPlanTask ==> task.Some? && task.value in run.created)
  {
    if task.Some? {
      assert run.db.rows[task.value].project == target.project;
    }
  }

  /** Under its own pin an update has the same task, unless it is misread; then it
      has another, or is refused. */
  lemma PinnedTaskRepeats(base: nat, call: Call, run: Run, c: PlanChange, target: Target, task: RowId, again: Target)
    requires RunInv(base, call.user, run) && c.pin == NO_PIN
    requires CanFollow(call, call, base, c)
    requires StepAt(call, run, c, target, Some(task))
    requires ResolveTarget(call, run, c.(pin := Resolution(run, c, target.project, Some(task)))) == Ok(again)
    ensures var pinned := c.(pin := Resolution(run, c, target.project, Some(task)));
            UpdatedTaskOf(call, run, pinned, again) == Ok(task) <==> !MisreadAt(call, run, c, target, task)
  {
    hide ResolveTask, ResolveTaskAnywhere, ResolveProject;
    PinnedTargetRepeats(base, call, run, c, target, Some(task));
    if again.task.None? && Blank(Get(c, "project")) {
      ReadInProject(base, call, run.db.rows, c, task, again.named);
    }
  }

  lemma CreateProjectSame(call: Call, run: Run, c: PlanChange, pin: Pin)
    ensures CreateProject(call, run, c.(pin := pin)) == CreateProject(call, run, c)
  {
    assert ProjectToCreate(call, c.(pin := pin)) == ProjectToCreate(call, c);
  }

  lemma CreateGoalSame(call: Call, run: Run, c: PlanChange, pin: Pin, target: Target)
    ensures CreateGoal(call, run, c.(pin := pin), target) == CreateGoal(call, run, c, target)
  {
    assert GoalToCreate(call, c.(pin := pin), target.project) == GoalToCreate(call, c, target.project);
  }

  lemma CreateTaskSame(call: Call, run: Run, c: PlanChange, pin: Pin, target: Target)
    requires IsProject(run.db.rows, target.project)
    ensures CreateTask(call, run, c.(pin := pin), target) == CreateTask(call, run, c, target)
  {
    assert TaskToCreate(call, run, c.(pin := pin), target) == TaskToCreate(call, run, c, target);
  }

  lemma AddNoteSame(call: Call, run: Run, c: PlanChange, pin: Pin, target: Target)
    ensures AddNote(call, run, c.(pin := pin), target) == AddNote(call, run, c, target)
  {
    assert NoteToCreate(call, c.(pin := pin), target.project) == NoteToCreate(call, c, target.project);
  }

  lemma LinkThreadSame(call: Call, run: Run, c: PlanChange, pin: Pin, target: Target)
    ensures LinkThread(call, run, c.(pin := pin), target) == LinkThread(call, run, c, target)
  {
  }

  lemma UpdateTaskSame(call: Call, run: Run, c: PlanChange, pin: Pin, target: Target, again: Target, task: RowId)
    requires IsTask(run.db.rows, task)
    ensures AlikeOutcome(UpdateTask(call, run, c.(pin := pin), again, task), UpdateTask(call, run, c, target, task))
  {
    hide ReadTaskFields;
    SameFields(call.rt, c, pin);
  }

  lemma SameFields(rt: Runtime, c: PlanChange, pin: Pin)
    ensures ReadTaskFields(rt, c.(pin := pin)) == ReadTaskFields(rt, c)
  {
  }

  lemma PinnedUpdateRepeats(base: nat, call: Call, run: Run, c: PlanChange, target: Target, task: RowId)
    requires RunInv(base, call.user, run) && c.pin == NO_PIN && Step(call, run, c).Ok?
    requires CanFollow(call, call, base, c) && StepAt(call, run, c, target, Some(task))
    requires !MisreadAt(call, run, c, target, task)
    ensures AlikeOutcome(Step(call, run, c.(pin := Resolution(run, c, target.project, Some(task)))), Step(call, run, c))
  {
    var pin := Resolution(run, c, target.project, Some(task));
    PinnedTargetRepeats(base, call, run, c, target, Some(task));
    var again := ResolveTarget(call, run, c.(pin := pin)).value;
    PinnedTaskRepeats(base, call, run, c, target, task, again);
    UpdateTaskSame(call, run, c, pin, target, again, task);
  }

  lemma PinnedAddRepeats(base: nat, call: Call, run: Run, c: PlanChange, target: Target)
    requires RunInv(base, call.user, run) && c.pin == NO_PIN && Step(call, run, c).Ok?
    requires StepAt(call, run, c, target, None)
    ensures AlikeOutcome(Step(call, run, c.(pin := Resolution(run, c, target.project, None))), Step(call, run, c))
  {
    hide ResolveTarget, CreateTask, CreateGoal, AddNote, LinkThread, RunInv;
    var pin := Resolution(run, c, target.project, None);
    PinnedTargetRepeats(base, call, run, c, target, None);
    match c.op
    case "create_task" => CreateTaskSame(call, run, c, pin, target);
    case "create_goal" => CreateGoalSame(call, run, c, pin, target);
    case "add_note" => AddNoteSame(call, run, c, pin, target);
    case _ => LinkThreadSame(call, run, c, pin, target);
  }

  /** Under its own pin a change that is not misread makes the same writes. */
  lemma PinnedStepRepeats(base: nat, call: Call, run: Run, c: PlanChange)
    requires RunInv(base, call.user, run) && c.pin == NO_PIN && Step(call, run, c).Ok?
    requires CanFollow(call, call, base, c) && !Misread(call, run, c)
    ensures AlikeOutcome(Step(call, run, c.(pin := PinOf(call, run, c))), Step(call, run, c))
  {
    if c.op == "create_project" {
      CreateProjectSame(call, run, c, NO_PIN);
    } else {
      var (target, task) := TargetAt(call, run, c);
      if c.op == "update_task" {
        PinnedUpdateRepeats(base, call, run, c, target, task.value);
      } else {
        PinnedAddRepeats(base, call, run, c, target);
      }
    }
  }

  /** The row an update changes, as the log has it. */
  lemma UpdateIsLogged(call: Call, run: Run, c: PlanChange, target: Target, task: RowId)
    requires StepAt(call, run, c, target, Some(task)) && Step(call, run, c).Ok?
    ensures var log := Step(call, run, c).value.db.log;
            |log| == |run.db.log| + 1 && log[|run.db.log|].id == task
  {
  }

  /** A misread change, under its own pin, is refused or changes another task. */
  lemma MisreadStepDiffers(base: nat, call: Call, run: Run, c: PlanChange)
    requires RunInv(base, call.user, run) && c.pin == NO_PIN && Misread(call, run, c)
    requires CanFollow(call, call, base, c)
    ensures var pinned := Step(call, run, c.(pin := PinOf(call, run, c)));
            var log := Step(call, run, c).value.db.log;
            && |log| == |run.db.log| + 1
            && (pinned.Ok? ==> |pinned.value.db.log| == |log|
                               && pinned.value.db.log[|run.db.log|].id != log[|run.db.log|].id)
  {
    var (target, task) := TargetAt(call, run, c);
    var pinned := c.(pin := PinOf(call, run, c));
    PinnedTargetRepeats(base, call, run, c, target, task);
    var again := ResolveTarget(call, run, pinned).value;
    PinnedTaskRepeats(base, call, run, c, target, task.value, again);
    UpdateIsLogged(call, run, c, target, task.value);
    if Step(call, run, pinned).Ok? {
      UpdateIsLogged(call, run, pinned, again, UpdatedTaskOf(call, run, pinned, again).value);
    }
  }

  /** No change of the plan is misread, each in the state the ones before it leave. */
  ghost predicate NoneMisread(call: Call, run: Run, changes: seq<PlanChange>)
    decreases |changes|
  {
    changes == []
    || (!Misread(call, run, changes[0])
        && match Step(call, run, changes[0])
           case Ok(next) => NoneMisread(call, next, changes[1..])
           case Err(_) => true)
  }

  /** Each step adds what it resolved. */
  lemma StepResolves(base: nat, call: Call, run: Run, c: PlanChange)
    requires RunInv(base, call.user, run) && Step(call, run, c).Ok?
    ensures var next := Step(call, run, c).value;
            next.resolutions == run.resolutions + [PinOf(call, run, c)] && RunInv(base, call.user, next)
  {
    var all := run.db.rows.Keys;
    if c.op == "create_project" {
      CreateProjectConfined(base, call, run, c, all, all);
    } else {
      var (target, task) := TargetAt(call, run, c);
      StepConfined(base, call, run, c, target, task, all, all);
    }
  }

  lemma TailPins(first: seq<Pin>, pins: seq<Pin>, next: seq<Pin>, pin: Pin)
    requires pins != [] && next == first + [pin] && next <= first + pins
    ensures pins[0] == pin && first + pins == next + pins[1..]
  {
    assert next[|first|] == pin && (first + pins)[|first|] == pins[0];
  }

  /** What the first step resolved is the plan's first pin. */
  lemma FirstPinOf(call: Call, run: Run, next: Run, c: PlanChange, rest: seq<PlanChange>, pins: seq<Pin>, pin: Pin)
    requires pins != [] && next.resolutions == run.resolutions + [pin]
    requires Steps(call, next, rest).Ok? && Steps(call, next, rest).value.resolutions == run.resolutions + pins
    ensures pins[0] == pin && Steps(call, next, rest).value.resolutions == next.resolutions + pins[1..]
  {
    StepsExtend(call, next, rest);
    TailPins(run.resolutions, pins, next.resolutions, pin);
  }

  ghost predicate Repeats(pinned: Result<Run, LedgerError>, tried: Run) {
    pinned.Ok? && SameWrites(pinned.value.db, tried.db)
  }

  /** Two runs have logged changes of different rows at place `i`. */
  ghost predicate DifferAt(a: Db, b: Db, i: nat) {
    i < |a.log| && i < |b.log| && a.log[i].id != b.log[i].id
  }

  /** The same change, unpinned in one run and under its own pin in the other. */
  lemma HeldStep(base: nat, call: Call, a: Run, b: Run, c: PlanChange)
    requires RunInv(base, call.user, a) && Alike(a, b) && c.pin == NO_PIN && Step(call, a, c).Ok?
    requires CanFollow(call, call, base, c)
    ensures var held := Step(call, b, c.(pin := PinOf(call, a, c)));
            var free := Step(call, a, c).value;
            if Misread(call, a, c) then held.Ok? ==> DifferAt(free.db, held.value.db, |a.db.log|)
            else held.Ok? && Alike(free, held.value)
  {
    var held := c.(pin := PinOf(call, a, c));
    assert Keys(call.rt, held) == Keys(call.rt, c);
    StepAlike(call, call, base, a, b, held);
    if Misread(call, a, c) {
      MisreadStepDiffers(base, call, a, c);
    } else {
      PinnedStepRepeats(base, call, a, c);
    }
  }

  /** Once two runs have logged different changes at one place, they stay different. */
  lemma StayDifferent(call: Call, a: Run, b: Run, i: nat, unpinned: seq<PlanChange>, pinned: seq<PlanChange>)
    requires DifferAt(a.db, b.db, i) && Steps(call, a, unpinned).Ok?
    ensures !Repeats(Steps(call, b, pinned), Steps(call, a, unpinned).value)
  {
    StepsExtend(call, a, unpinned);
    var last := Steps(call, a, unpinned).value;
    if Steps(call, b, pinned).Ok? {
      StepsExtend(call, b, pinned);
      assert last.db.log[i] == a.db.log[i];
      assert Steps(call, b, pinned).value.db.log[i] == b.db.log[i];
    }
  }

  lemma FirstOfPinned(changes: seq<PlanChange>, pins: seq<Pin>)
    requires changes != [] && |pins| == |changes|
    ensures Pinned(changes, pins) == [changes[0].(pin := pins[0])] + Pinned(changes[1..], pins[1..])
  {
  }

  lemma {:induction false} PinnedStepsRepeat(base: nat, call: Call, a: Run, b: Run, changes: seq<PlanChange>,
                                             pins: seq<Pin>)
    requires RunInv(base, call.user, a) && Alike(a, b) && CanFollowPlan(call, call, base, changes)
    requires |pins| == |changes| && (forall c <- changes :: c.pin == NO_PIN)
    requires Steps(call, a, changes).Ok? && Steps(call, a, changes).value.resolutions == a.resolutions + pins
    ensures Repeats(Steps(call, b, Pinned(changes, pins)), Steps(call, a, changes).value)
            <==> NoneMisread(call, a, changes)
    decreases |changes|, 0
  {
    if changes == [] {
      assert Pinned(changes, pins) == [];
    } else {
      var c, rest := changes[0], changes[1..];
      StepResolves(base, call, a, c);
      HeldStep(base, call, a, b, c);
      FirstOfPinned(changes, pins);
      AfterFirst(base, call, a, b, c, rest, pins, Step(call, a, c).value,
                 Step(call, b, c.(pin := PinOf(call, a, c))), PinOf(call, a, c));
    }
  }

  lemma {:induction false} AfterFirst(base: nat, call: Call, a: Run, b: Run, c: PlanChange, rest: seq<PlanChange>,
                                      pins: seq<Pin>, a': Run, held: Result<Run, LedgerError>, pin: Pin)
    requires RunInv(base, call.user, a') && CanFollowPlan(call, call, base, rest)
    requires |pins| == |rest| + 1 && (forall c <- rest :: c.pin == NO_PIN)
    requires a'.resolutions == a.resolutions + [pin]
    requires Steps(call, a', rest).Ok? && Steps(call, a', rest).value.resolutions == a.resolutions + pins
    requires if Misread(call, a, c) then held.Ok? ==> DifferAt(a'.db, held.value.db, |a.db.log|)
             else held.Ok? && Alike(a', held.value)
    ensures pins[0] == pin
    ensures (held.Ok? && Repeats(Steps(call, held.value, Pinned(rest, pins[1..])), Steps(call, a', rest).value))
            <==> !Misread(call, a, c) && NoneMisread(call, a', rest)
    decreases |rest|, 1
  {
    FirstPinOf(call, a, a', c, rest, pins, pin);
    if held.Ok? {
      if Misread(call, a, c) {
        StayDifferent(call, a', held.value, |a.db.log|, rest, Pinned(rest, pins[1..]));
      } else {
        PinnedStepsRepeat(base, call, a', held.value, rest, pins[1..]);
      }
    }
  }

  lemma CanFollowPinned(x: Call, y: Call, base: nat, c: PlanChange, pin: Pin)
    requires CanFollow(x, y, base, c)
    ensures CanFollow(x, y, base, c.(pin := pin))
  {
  }

  /** The plan pinned to a dry run's answer, applied in the same ledger under any
      stamp and with other ids, makes the writes the dry run tried, exactly when
      none of its updates is misread. */
  lemma PinnedPlanRepeats(check: Call, call: Call, db: Db, changes: seq<PlanChange>)
    requires Valid(db) && CanFollowPlan(check, call, db.issued, changes)
             && CanFollowPlan(check, check, db.issued, changes)
    requires (forall c <- changes :: c.pin == NO_PIN) && ApplyIn(check, db, changes).Ok?
    ensures var tried := ApplyIn(check, db, changes).value;
            && |tried.resolutions| == |changes|
            && (Repeats(ApplyIn(call, db, Pinned(changes, tried.resolutions)), tried)
                <==> NoneMisread(check, Start(db), changes))
  {
    hide Step, NoneMisread, CanFollow;
    var tried := ApplyIn(check, db, changes).value;
    var pins := tried.resolutions;
    StartInv(check.user, db);
    StepsExtend(check, Start(db), changes);
    assert pins == Start(db).resolutions + pins;
    PinnedStepsRepeat(db.issued, check, Start(db), Start(db), changes, pins);
    KnownOpsPinned(changes, pins);
    var plan := Pinned(changes, pins);
    forall c <- plan ensures CanFollow(check, call, db.issued, c) {
      var i :| 0 <= i < |plan| && c == plan[i];
      assert CanFollow(check, call, db.issued, changes[i]);
      CanFollowPinned(check, call, db.issued, changes[i], pins[i]);
    }
    StepsAlike(check, call, db.issued, Start(db), Start(db), plan);
  }

  /** A plan as a model sent it, with any pins it made up: they are dropped before the
      plan is checked, so the same holds of it. */
  lemma SentPlanRepeats(check: Call, call: Call, db: Db, sent: seq<PlanChange>)
    requires Valid(db) && CanFollowPlan(check, call, db.issued, sent) && CanFollowPlan(check, check, db.issued, sent)
    requires ApplyIn(check, db, StripPins(sent)).Ok?
    ensures var tried := ApplyIn(check, db, StripPins(sent)).value;
            && |tried.resolutions| == |sent|
            && (Repeats(ApplyIn(call, db, Pinned(sent, tried.resolutions)), tried)
                <==> NoneMisread(check, Start(db), StripPins(sent)))
  {
    hide Step, NoneMisread, CanFollow, ApplyIn, Repeats;
    forall c <- StripPins(sent) ensures CanFollow(check, call, db.issued, c) && CanFollow(check, check, db.issued, c) {
      var i :| 0 <= i < |sent| && c == sent[i].(pin := NO_PIN);
      CanFollowPinned(check, call, db.issued, sent[i], NO_PIN);
      CanFollowPinned(check, check, db.issued, sent[i], NO_PIN);
    }
    PinnedPlanRepeats(check, call, db, StripPins(sent));
    var pins := ApplyIn(check, db, StripPins(sent)).value.resolutions;
    assert Pinned(StripPins(sent), pins) == Pinned(sent, pins);
  }
}
