/**
 A confirmed plan does what was proposed, or nothing.

 A plan is resolved in one state of the ledger (`validate`), pinned to what it
 resolved to, and applied in another, whatever happened to the ledger between:
 renamed projects, new tasks that match its words better, removed rows. Main
 result: `PinnedPlanIsConfined`.
*/
module LedgerPins {
  import opened Wrappers
  import opened LedgerText
  import opened LedgerStore
  import opened LedgerApply

  // ----- what every run keeps -----

  /** A run only ever adds to what it reports, resolves and logs. */
  ghost predicate Extends(run: Run, run': Run, steps: nat) {
    && run.db.log <= run'.db.log
    && run.db.issued <= run'.db.issued
    && run.done <= run'.done && |run'.done| == |run.done| + steps
    && run.resolutions <= run'.resolutions && |run'.resolutions| == |run.resolutions| + steps
  }

  lemma LinkLog(db: Db, fromId: RowId, toRef: string, caption: Option<string>, todoRef: Option<string>, owner: string,
                actor: string)
    ensures var after := Link(db, fromId, toRef, caption, todoRef, owner, actor);
            db.log <= after.log && db.issued <= after.issued
  {
  }

  lemma CreateProjectExtends(call: Call, run: Run, c: PlanChange)
    requires CreateProject(call, run, c).Ok?
    ensures Extends(run, CreateProject(call, run, c).value, 1)
  {
    if HasConversation(call) {
      LinkLog(Create(run.db, ProjectToCreate(call, c).value, StampOf(call)).value, run.db.issued, call.thread.value,
              Some("The chat it was captured in"), None, call.user, call.actor);
    }
  }

  lemma CreateTaskExtends(call: Call, run: Run, c: PlanChange, target: Target)
    requires IsProject(run.db.rows, target.project) && CreateTask(call, run, c, target).Ok?
    ensures Extends(run, CreateTask(call, run, c, target).value.(resolutions := run.resolutions + [NO_PIN]), 1)
  {
    if HasConversation(call) {
      LinkLog(Create(run.db, TaskToCreate(call, run, c, target).value, StampOf(call)).value, run.db.issued,
              call.thread.value, None, Some(Cut(Str(Get(c, "todo_ref")), 300)), call.user, call.actor);
    }
  }

  lemma CreateGoalExtends(call: Call, run: Run, c: PlanChange, target: Target)
    requires CreateGoal(call, run, c, target).Ok?
    ensures Extends(run, CreateGoal(call, run, c, target).value.(resolutions := run.resolutions + [NO_PIN]), 1)
  {
  }

  lemma AddNoteExtends(call: Call, run: Run, c: PlanChange, target: Target)
    requires AddNote(call, run, c, target).Ok?
    ensures Extends(run, AddNote(call, run, c, target).value.(resolutions := run.resolutions + [NO_PIN]), 1)
  {
  }

  lemma LinkThreadExtends(call: Call, run: Run, c: PlanChange, target: Target)
    requires LinkThread(call, run, c, target).Ok?
    ensures Extends(run, LinkThread(call, run, c, target).value.(resolutions := run.resolutions + [NO_PIN]), 1)
  {
  }

  lemma UpdateTaskExtends(call: Call, run: Run, c: PlanChange, target: Target, task: RowId)
    requires IsTask(run.db.rows, task) && UpdateTask(call, run, c, target, task).Ok?
    ensures Extends(run, UpdateTask(call, run, c, target, task).value.(resolutions := run.resolutions + [NO_PIN]), 1)
  {
  }

  lemma StepExtends(call: Call, run: Run, c: PlanChange)
    requires Step(call, run, c).Ok?
    ensures Extends(run, Step(call, run, c).value, 1)
  {
    if c.op == "create_project" {
      CreateProjectExtends(call, run, c);
    } else {
      var target := ResolveTarget(call, run, c).value;
      match c.op
      case "update_task" => UpdateTaskExtends(call, run, c, target, UpdatedTaskOf(call, run, c, target).value);
      case "create_task" => CreateTaskExtends(call, run, c, target);
      case "create_goal" => CreateGoalExtends(call, run, c, target);
      case "add_note" => AddNoteExtends(call, run, c, target);
      case _ => LinkThreadExtends(call, run, c, target);
    }
  }

  lemma {:induction false} StepsExtend(call: Call, run: Run, changes: seq<PlanChange>)
    requires Steps(call, run, changes).Ok?
    ensures Extends(run, Steps(call, run, changes).value, |changes|)
    decreases |changes|
  {
    if changes != [] {
      StepExtends(call, run, changes[0]);
      StepsExtend(call, Step(call, run, changes[0]).value, changes[1..]);
    }
  }

  /** What may become of a row that was there: nothing; or, for a task among
      `tasks` or drawn since `base`, new fields in the same project; or, for a
      project among `projects` or drawn since `base`, a moved task counter. */
  ghost predicate Kept(id: RowId, before: Row, after: Row, base: nat, tasks: set<RowId>, projects: set<RowId>) {
    || before == after
    || (before.TaskRow? && after.TaskRow? && (id in tasks || id >= base)
        && before.project == after.project && before.number == after.number)
    || (before.ProjectRow? && after.ProjectRow? && (id in projects || id >= base)
        && before == after.(nextTask := before.nextTask))
  }

  /** Where a new row may be: under a project (or, for a link, from a row) among
      `projects` or drawn since `base`. */
  ghost predicate Placed(row: Row, base: nat, projects: set<RowId>) {
    match row
    case ProjectRow(_, _, _, _, _, _, _) => true
    case LinkRow(from, _, _, _, _) => from in projects || from >= base
    case _ => row.project in projects || row.project >= base
  }

  /** From `db` to `db'` nothing was removed, only `tasks` and rows drawn since
      `base` changed, and every new row is under `projects` or rows drawn since. */
  ghost predicate Confined(base: nat, db: Db, db': Db, tasks: set<RowId>, projects: set<RowId>) {
    && (forall id <- db.rows :: id in db'.rows && Kept(id, db.rows[id], db'.rows[id], base, tasks, projects))
    && (forall id <- db'.rows | id !in db.rows :: id >= base && Placed(db'.rows[id], base, projects))
  }

  lemma ConfinedTrans(base: nat, a: Db, b: Db, c: Db, tasks: set<RowId>, projects: set<RowId>)
    requires Confined(base, a, b, tasks, projects) && Confined(base, b, c, tasks, projects)
    ensures Confined(base, a, c, tasks, projects)
  {
    forall id <- c.rows | id !in a.rows
      ensures id >= base && Placed(c.rows[id], base, projects)
    {
      if id in b.rows {
        assert Kept(id, b.rows[id], c.rows[id], base, tasks, projects);
        assert Placed(b.rows[id], base, projects);
      }
    }
    forall id <- a.rows
      ensures id in c.rows && Kept(id, a.rows[id], c.rows[id], base, tasks, projects)
    {
      assert Kept(id, a.rows[id], b.rows[id], base, tasks, projects);
      assert Kept(id, b.rows[id], c.rows[id], base, tasks, projects);
    }
  }

  lemma LinkConfined(base: nat, db: Db, fromId: RowId, toRef: string, caption: Option<string>, todoRef: Option<string>,
                     owner: string, actor: string, tasks: set<RowId>, projects: set<RowId>)
    requires Valid(db) && base <= db.issued && (fromId in projects || fromId >= base)
    ensures var after := Link(db, fromId, toRef, caption, todoRef, owner, actor);
            Confined(base, db, after, tasks, projects) && Valid(after) && after.issued >= db.issued
  {
  }

  lemma CreateConfined(base: nat, db: Db, row: Row, stamp: Stamp, tasks: set<RowId>, projects: set<RowId>)
    requires Valid(db) && base <= db.issued && Placed(row, base, projects)
    requires row.TaskRow? ==> row.project < db.issued
    ensures match Create(db, row, stamp)
            case Err(_) => true
            case Ok(after) =>
              Confined(base, db, after, tasks, projects) && Valid(after) && after.issued > db.issued
  {
  }

  /** What a run keeps about the rows it created: it knows them by `created`, they
      were drawn since it began, and its refs name projects of the caller's. */
  ghost predicate RunInv(base: nat, user: string, run: Run) {
    && Valid(run.db) && base <= run.db.issued
    && (forall id <- run.created :: id >= base)
    && (forall id <- run.db.rows | id >= base && (IsProject(run.db.rows, id) || IsTask(run.db.rows, id)) ::
        id in run.created)
    && (forall key <- run.refs :: run.refs[key] in run.created && run.refs[key] in OwnedProjects(run.db.rows, user))
  }

  lemma StartInv(user: string, db: Db)
    requires Valid(db)
    ensures RunInv(db.issued, user, Start(db))
  {
  }

  /** A project or an owner never changes hands in a confined step. */
  lemma OwnedStay(base: nat, db: Db, db': Db, tasks: set<RowId>, projects: set<RowId>, user: string)
    requires Confined(base, db, db', tasks, projects)
    ensures OwnedProjects(db.rows, user) <= OwnedProjects(db'.rows, user)
  {
    forall id <- OwnedProjects(db.rows, user) ensures id in OwnedProjects(db'.rows, user) {
      assert Kept(id, db.rows[id], db'.rows[id], base, tasks, projects);
    }
  }

  /** `db'` is `db`, perhaps with a link from a row among `projects` or drawn since `base`. */
  ghost predicate LinkedOn(base: nat, db: Db, db': Db, projects: set<RowId>) {
    || db' == db
    || exists fromId: RowId, toRef, caption, todo, owner, actor ::
         db' == Link(db, fromId, toRef, caption, todo, owner, actor) && (fromId in projects || fromId >= base)
  }

  lemma LinkLinksOn(base: nat, db: Db, fromId: RowId, toRef: string, caption: Option<string>, todo: Option<string>,
                    owner: string, actor: string, projects: set<RowId>)
    requires fromId in projects || fromId >= base
    ensures LinkedOn(base, db, Link(db, fromId, toRef, caption, todo, owner, actor), projects)
  {
  }

  /** What a linked store keeps. */
  lemma LinkedOnConfined(base: nat, db: Db, db': Db, tasks: set<RowId>, projects: set<RowId>)
    requires Valid(db) && base <= db.issued && LinkedOn(base, db, db', projects)
    ensures Confined(base, db, db', tasks, projects) && Valid(db') && db'.issued >= db.issued
    ensures forall id | IsProject(db'.rows, id) || IsTask(db'.rows, id) :: id in db.rows && db.rows[id] == db'.rows[id]
  {
    if db' != db {
      var fromId: RowId, toRef, caption, todo, owner, actor :|
        db' == Link(db, fromId, toRef, caption, todo, owner, actor) && (fromId in projects || fromId >= base);
      LinkConfined(base, db, fromId, toRef, caption, todo, owner, actor, tasks, projects);
    }
  }

  /** A run whose store grew by one row, and perhaps a link from a row at hand. */
  lemma GrownInv(base: nat, user: string, run: Run, row: Row, stamp: Stamp, run': Run, tasks: set<RowId>,
                 projects: set<RowId>)
    requires RunInv(base, user, run) && Placed(row, base, projects) && (row.TaskRow? ==> row.project < run.db.issued)
    requires row.ProjectRow? ==> row.owner == user
    requires Create(run.db, row, stamp).Ok?
    requires LinkedOn(base, Create(run.db, row, stamp).value, run'.db, projects)
    requires run'.created == run.created + if row.ProjectRow? || row.TaskRow? then {run.db.issued} else {}
    requires forall key <- run'.refs :: (key in run.refs && run'.refs[key] == run.refs[key])
                                        || (row.ProjectRow? && run'.refs[key] == run.db.issued)
    ensures Confined(base, run.db, run'.db, tasks, projects) && RunInv(base, user, run')
  {
    var mid := Create(run.db, row, stamp).value;
    CreateConfined(base, run.db, row, stamp, tasks, projects);
    OwnedStay(base, run.db, mid, tasks, projects, user);
    LinkedOnConfined(base, mid, run'.db, tasks, projects);
    ConfinedTrans(base, run.db, mid, run'.db, tasks, projects);
    OwnedStay(base, mid, run'.db, tasks, projects, user);
  }

  lemma CreateProjectConfined(base: nat, call: Call, run: Run, c: PlanChange, tasks: set<RowId>, projects: set<RowId>)
    requires RunInv(base, call.user, run) && CreateProject(call, run, c).Ok?
    ensures var run' := CreateProject(call, run, c).value;
            && Confined(base, run.db, run'.db, tasks, projects) && RunInv(base, call.user, run')
            && run'.refs.Keys == run.refs.Keys + (if Truthy(Get(c, "ref")) then {Str(Get(c, "ref"))} else {})
            && run'.resolutions == run.resolutions + [NO_PIN]
  {
    hide Confined, Link;
    var mid := Create(run.db, ProjectToCreate(call, c).value, StampOf(call)).value;
    if HasConversation(call) {
      LinkLinksOn(base, mid, run.db.issued, call.thread.value, Some("The chat it was captured in"), None, call.user,
                  call.actor, projects);
    }
    GrownInv(base, call.user, run, ProjectToCreate(call, c).value, StampOf(call), CreateProject(call, run, c).value,
             tasks,
             projects);
  }

  lemma CreateTaskConfined(base: nat, call: Call, run: Run, c: PlanChange, target: Target, tasks: set<RowId>,
                           projects: set<RowId>)
    requires RunInv(base, call.user, run) && IsProject(run.db.rows, target.project)
    requires target.project in projects || target.project >= base
    requires CreateTask(call, run, c, target).Ok?
    ensures var run' := CreateTask(call, run, c, target).value;
            && Confined(base, run.db, run'.db, tasks, projects) && RunInv(base, call.user, run')
            && run'.refs == run.refs && run'.resolutions == run.resolutions
  {
    hide Confined, Link;
    var mid := Create(run.db, TaskToCreate(call, run, c, target).value, StampOf(call)).value;
    if HasConversation(call) {
      LinkLinksOn(base, mid, run.db.issued, call.thread.value, None, Some(Cut(Str(Get(c, "todo_ref")), 300)), call.user,
                  call.actor, projects);
    }
    GrownInv(base, call.user, run, TaskToCreate(call, run, c, target).value, StampOf(call),
             CreateTask(call, run, c, target).value, tasks, projects);
  }

  lemma CreateGoalConfined(base: nat, call: Call, run: Run, c: PlanChange, target: Target, tasks: set<RowId>,
                           projects: set<RowId>)
    requires RunInv(base, call.user, run) && (target.project in projects || target.project >= base)
    requires CreateGoal(call, run, c, target).Ok?
    ensures var run' := CreateGoal(call, run, c, target).value;
            && Confined(base, run.db, run'.db, tasks, projects) && RunInv(base, call.user, run')
            && run'.refs == run.refs && run'.resolutions == run.resolutions
  {
    GrownInv(base, call.user, run, GoalToCreate(call, c, target.project).value, StampOf(call),
             CreateGoal(call, run, c, target).value, tasks, projects);
  }

  lemma AddNoteConfined(base: nat, call: Call, run: Run, c: PlanChange, target: Target, tasks: set<RowId>,
                        projects: set<RowId>)
    requires RunInv(base, call.user, run) && (target.project in projects || target.project >= base)
    requires AddNote(call, run, c, target).Ok?
    ensures var run' := AddNote(call, run, c, target).value;
            && Confined(base, run.db, run'.db, tasks, projects) && RunInv(base, call.user, run')
            && run'.refs == run.refs && run'.resolutions == run.resolutions
  {
    GrownInv(base, call.user, run, NoteToCreate(call, c, target.project).value, StampOf(call),
             AddNote(call, run, c, target).value, tasks, projects);
  }

  lemma LinkThreadConfined(base: nat, call: Call, run: Run, c: PlanChange, target: Target, tasks: set<RowId>,
                           projects: set<RowId>)
    requires RunInv(base, call.user, run) && (target.project in projects || target.project >= base)
    requires LinkThread(call, run, c, target).Ok?
    ensures var run' := LinkThread(call, run, c, target).value;
            && Confined(base, run.db, run'.db, tasks, projects) && RunInv(base, call.user, run')
            && run'.refs == run.refs && run'.resolutions == run.resolutions
  {
    var run' := LinkThread(call, run, c, target).value;
    LinkConfined(base, run.db, target.project, call.thread.value, OptionalText(call.rt, c, "label", 300).value, None,
                 call.user, call.actor, tasks, projects);
    OwnedStay(base, run.db, run'.db, tasks, projects, call.user);
  }

  lemma UpdateConfined(base: nat, call: Call, run: Run, c: PlanChange, target: Target, task: RowId, tasks: set<RowId>,
                       projects: set<RowId>)
    requires RunInv(base, call.user, run) && IsTask(run.db.rows, task) && (task in tasks || task >= base)
    requires UpdateTask(call, run, c, target, task).Ok?
    ensures var run' := UpdateTask(call, run, c, target, task).value;
            && Confined(base, run.db, run'.db, tasks, projects) && RunInv(base, call.user, run')
            && run'.refs == run.refs && run'.resolutions == run.resolutions
  {
  }

  /** The target a step acts on, and the task an update acts on. */
  ghost predicate StepAt(call: Call, run: Run, c: PlanChange, target: Target, task: Option<RowId>) {
    && c.op != "create_project"
    && ResolveTarget(call, run, c) == Ok(target)
    && (c.op == "update_task" <==> task.Some?)
    && (task.Some? ==> UpdatedTaskOf(call, run, c, target) == Ok(task.value))
  }

  /** A step that succeeds keeps the run's invariant and is confined to its target. */
  lemma StepConfined(base: nat, call: Call, run: Run, c: PlanChange, target: Target, task: Option<RowId>,
                     tasks: set<RowId>, projects: set<RowId>)
    requires RunInv(base, call.user, run) && Step(call, run, c).Ok? && StepAt(call, run, c, target, task)
    requires task.None? ==> target.project in projects || target.project >= base
    requires task.Some? ==> task.value in tasks || task.value >= base
    ensures var run' := Step(call, run, c).value;
            && Confined(base, run.db, run'.db, tasks, projects) && RunInv(base, call.user, run')
            && run'.refs == run.refs
            && run'.resolutions == run.resolutions + [Resolution(run, c, target.project, task)]
  {
    match c.op
    case "update_task" => UpdateConfined(base, call, run, c, target, task.value, tasks, projects);
    case "create_task" => CreateTaskConfined(base, call, run, c, target, tasks, projects);
    case "create_goal" => CreateGoalConfined(base, call, run, c, target, tasks, projects);
    case "add_note" => AddNoteConfined(base, call, run, c, target, tasks, projects);
    case _ => LinkThreadConfined(base, call, run, c, target, tasks, projects);
  }

  /** The target and the task of a step that succeeds. */
  ghost function TargetAt(call: Call, run: Run, c: PlanChange): (r: (Target, Option<RowId>))
    requires c.op != "create_project" && Step(call, run, c).Ok?
    ensures StepAt(call, run, c, r.0, r.1)
    ensures c.pin.inPlanProject ==> r.0.project in run.created
  {
    var target := ResolveTarget(call, run, c).value;
    (target, if c.op == "update_task" then Some(UpdatedTaskOf(call, run, c, target).value) else None)
  }

  function NewRefs(c: PlanChange): set<string> {
    if c.op == "create_project" && Truthy(Get(c, "ref")) then {Str(Get(c, "ref"))} else {}
  }

  // ----- what a pin holds a change to -----

  function PinnedTasks(pins: seq<Pin>): set<RowId> {
    set p | p in pins && p.taskId.Some? :: p.taskId.value
  }

  function PinnedProjects(pins: seq<Pin>): set<RowId> {
    set p | p in pins && p.projectId.Some? :: p.projectId.value
  }

  /** What any resolution of `c` says, given the plan's in-plan refs so far: the
      project by id, or as the plan's own, or by an in-plan ref; and the task by
      id or as the plan's own. */
  ghost predicate Holds(c: PlanChange, pin: Pin, refs: set<string>) {
    && (c.op != "create_project" ==> pin.projectId.Some? || pin.inPlanProject || Str(Get(c, "project")) in refs)
    && (c.op == "update_task" ==> pin.taskId.Some? || pin.inPlanTask)
  }

  /** An in-plan ref always resolves to the plan's own project. */
  lemma RefResolves(base: nat, call: Call, run: Run, ref: Arg)
    requires RunInv(base, call.user, run) && Str(ref) in run.refs && !Blank(ref)
    ensures ResolveProject(call.rt, call.names, run.db.rows, call.user, ref, run.refs) == Ok(run.refs[Str(ref)])
  {
  }

  /** A change held by a pin acts only on what the pin names or the plan created. */
  lemma PinnedTarget(base: nat, call: Call, run: Run, c: PlanChange, target: Target, task: Option<RowId>)
    requires RunInv(base, call.user, run) && Holds(c, c.pin, run.refs.Keys)
    requires StepAt(call, run, c, target, task) && (c.pin.inPlanProject ==> target.project in run.created)
    ensures task.None? ==> c.pin.projectId == Some(target.project) || target.project >= base
    ensures task.Some? ==> c.pin.taskId == task || task.value >= base
  {
    var project := Get(c, "project");
    if task.None? && c.pin.projectId.None? && !c.pin.inPlanProject && !Blank(project) {
      RefResolves(base, call, run, project);
    }
  }

  /** What a run resolved a change to holds a later change of the same words. */
  lemma ResolutionHolds(run: Run, c: PlanChange, project: RowId, task: Option<RowId>)
    requires IsProject(run.db.rows, project) && (task.Some? ==> IsTask(run.db.rows, task.value))
    requires c.op == "update_task" ==> task.Some?
    ensures Holds(c, Resolution(run, c, project, task), run.refs.Keys)
  {
  }

  /** A step under a pin that holds it is confined to what the pin names. */
  lemma PinnedStep(base: nat, call: Call, run: Run, c: PlanChange, tasks: set<RowId>, projects: set<RowId>)
    requires RunInv(base, call.user, run) && Holds(c, c.pin, run.refs.Keys) && Step(call, run, c).Ok?
    requires PinnedTasks([c.pin]) <= tasks && PinnedProjects([c.pin]) <= projects
    ensures var run' := Step(call, run, c).value;
            && Confined(base, run.db, run'.db, tasks, projects) && RunInv(base, call.user, run')
            && run'.refs.Keys == run.refs.Keys + NewRefs(c)
  {
    if c.op == "create_project" {
      CreateProjectConfined(base, call, run, c, tasks, projects);
    } else {
      var (target, task) := TargetAt(call, run, c);
      assert c.pin in [c.pin];
      PinnedTarget(base, call, run, c, target, task);
      StepConfined(base, call, run, c, target, task, tasks, projects);
    }
  }

  /** Pins change no kind: a plan of known kinds is one with any pins, and a plan that was
      accepted is of known kinds. */
  lemma {:induction false} KnownOpsPinned(changes: seq<PlanChange>, pins: seq<Pin>)
    requires |changes| == |pins|
    ensures KnownOps(changes).Ok? <==> forall c <- changes :: c.op in OPS
    ensures KnownOps(changes).Ok? <==> KnownOps(Pinned(changes, pins)).Ok?
    decreases |changes|
  {
    if changes == [] {
      assert Pinned(changes, pins) == [];
    } else {
      assert Pinned(changes, pins)[1..] == Pinned(changes[1..], pins[1..]);
      KnownOpsPinned(changes[1..], pins[1..]);
    }
  }

  /** A step of the proposal resolves its change to something that will hold it. */
  lemma ProposedStep(base: nat, call: Call, run: Run, c: PlanChange)
    requires RunInv(base, call.user, run) && Step(call, run, c).Ok?
    ensures var run' := Step(call, run, c).value;
            && RunInv(base, call.user, run')
            && run'.refs.Keys == run.refs.Keys + NewRefs(c)
            && |run'.resolutions| == |run.resolutions| + 1
            && Holds(c, run'.resolutions[|run.resolutions|], run.refs.Keys)
  {
    var all := run.db.rows.Keys;
    if c.op == "create_project" {
      CreateProjectConfined(base, call, run, c, all, all);
    } else {
      var (target, task) := TargetAt(call, run, c);
      StepConfined(base, call, run, c, target, task, all, all);
      ResolutionHolds(run, c, target.project, task);
    }
  }

  /** The pins of a plan, split after its first change. */
  lemma FirstPin(run: Run, next: Run, last: Run, pins: seq<Pin>)
    requires pins != [] && Extends(run, next, 1) && Extends(next, last, |pins| - 1)
    requires last.resolutions == run.resolutions + pins
    ensures next.resolutions == run.resolutions + [pins[0]]
    ensures last.resolutions == next.resolutions + pins[1..]
  {
    assert next.resolutions == last.resolutions[..|run.resolutions| + 1];
  }

  /** Every change is held by its own pin, wherever that came from, given the in-plan refs
      of the changes before it. */
  ghost predicate HeldPlan(changes: seq<PlanChange>, refs: set<string>)
    decreases |changes|
  {
    changes == []
    || (Holds(changes[0], changes[0].pin, refs) && HeldPlan(changes[1..], refs + NewRefs(changes[0])))
  }

  function PinsOf(changes: seq<PlanChange>): (pins: seq<Pin>)
    ensures |pins| == |changes|
  {
    seq(|changes|, i requires 0 <= i < |changes| => changes[i].pin)
  }

  lemma FirstHeld(changes: seq<PlanChange>, tasks: set<RowId>, projects: set<RowId>)
    requires changes != [] && PinnedTasks(PinsOf(changes)) <= tasks && PinnedProjects(PinsOf(changes)) <= projects
    ensures PinnedTasks([changes[0].pin]) <= tasks && PinnedProjects([changes[0].pin]) <= projects
    ensures PinnedTasks(PinsOf(changes[1..])) <= tasks && PinnedProjects(PinsOf(changes[1..])) <= projects
  {
    var pins, rest := PinsOf(changes), PinsOf(changes[1..]);
    assert pins[0] in pins && pins[0] == changes[0].pin;
    assert rest == pins[1..];
    forall p <- rest ensures p in pins {}
    forall id <- PinnedTasks(rest) + PinnedTasks([pins[0]]) ensures id in PinnedTasks(pins) {}
    forall id <- PinnedProjects(rest) + PinnedProjects([pins[0]]) ensures id in PinnedProjects(pins) {}
  }

  lemma {:induction false} HeldSteps(base: nat, call: Call, run: Run, changes: seq<PlanChange>, tasks: set<RowId>,
                                     projects: set<RowId>)
    requires RunInv(base, call.user, run) && HeldPlan(changes, run.refs.Keys) && Steps(call, run, changes).Ok?
    requires PinnedTasks(PinsOf(changes)) <= tasks && PinnedProjects(PinsOf(changes)) <= projects
    ensures Confined(base, run.db, Steps(call, run, changes).value.db, tasks, projects)
    decreases |changes|
  {
    hide RunInv, Holds, Confined, PinnedTasks, PinnedProjects, Step;
    if changes == [] {
      Unmoved(base, run.db, tasks, projects);
      return;
    }
    var next := Step(call, run, changes[0]).value;
    FirstHeld(changes, tasks, projects);
    PinnedStep(base, call, run, changes[0], tasks, projects);
    HeldSteps(base, call, next, changes[1..], tasks, projects);
    ConfinedTrans(base, run.db, next.db, Steps(call, next, changes[1..]).value.db, tasks, projects);
  }

  lemma Unmoved(base: nat, db: Db, tasks: set<RowId>, projects: set<RowId>)
    ensures Confined(base, db, db, tasks, projects)
  {
  }

  /** A plan whose every change is held by its pin, whatever dry runs the pins came from,
      writes nothing, or: removes nothing; updates only the tasks the pins name and rows
      the call created; and puts every new goal, task, note and conversation link under a
      project the pins name or the call created. Of the rows that were there, only those
      tasks and the task counters of those projects moved. */
  lemma HeldPlanIsConfined(call: Call, db: Db, changes: seq<PlanChange>)
    requires Valid(db) && HeldPlan(changes, {})
    ensures var applied := ApplyIn(call, db, changes);
            && (applied.Err? ==> Committed(db, applied) == db)
            && (applied.Ok? ==> Confined(db.issued, db, Committed(db, applied), PinnedTasks(PinsOf(changes)),
                                         PinnedProjects(PinsOf(changes))))
  {
    hide RunInv, Confined, HeldPlan;
    StartInv(call.user, db);
    if ApplyIn(call, db, changes).Ok? {
      assert Start(db).refs.Keys == {};
      HeldSteps(db.issued, call, Start(db), changes, PinnedTasks(PinsOf(changes)), PinnedProjects(PinsOf(changes)));
    }
  }

  /** What a dry run resolves, pin by pin, holds the plan it was made of. */
  lemma {:induction false} ProposedSteps(base: nat, call: Call, run: Run, changes: seq<PlanChange>, pins: seq<Pin>)
    requires RunInv(base, call.user, run) && Steps(call, run, changes).Ok? && |pins| == |changes|
    requires Steps(call, run, changes).value.resolutions == run.resolutions + pins
    ensures HeldPlan(Pinned(changes, pins), run.refs.Keys)
    decreases |changes|
  {
    hide RunInv, Step;
    if changes == [] {
      return;
    }
    var next := Step(call, run, changes[0]).value;
    ProposedStep(base, call, run, changes[0]);
    StepExtends(call, run, changes[0]);
    StepsExtend(call, next, changes[1..]);
    FirstPin(run, next, Steps(call, run, changes).value, pins);
    ProposedSteps(base, call, next, changes[1..], pins[1..]);
    var plan := Pinned(changes, pins);
    assert plan[0] == changes[0].(pin := pins[0]) && plan[1..] == Pinned(changes[1..], pins[1..]);
    HeldAlike(changes[0], pins[0], run.refs.Keys);
  }

  /** What holds a change, and the ref it makes, is in its words. */
  lemma HeldAlike(c: PlanChange, pin: Pin, refs: set<string>)
    ensures Holds(c.(pin := pin), pin, refs) <==> Holds(c, pin, refs)
    ensures NewRefs(c.(pin := pin)) == NewRefs(c)
  {
  }

  /** A plan proposed in one ledger is held by its pins, so it is so confined in any other. */
  lemma PinnedPlanIsConfined(proposal: Call, db0: Db, changes: seq<PlanChange>, call: Call, db: Db)
    requires Valid(db0) && Valid(db) && ApplyIn(proposal, db0, changes).Ok?
    ensures var pins := ApplyIn(proposal, db0, changes).value.resolutions;
            && |pins| == |changes| && HeldPlan(Pinned(changes, pins), {})
            && var applied := ApplyIn(call, db, Pinned(changes, pins));
            && var after := Committed(db, applied);
            && (applied.Err? ==> after == db)
            && (applied.Ok? ==> Confined(db.issued, db, after, PinnedTasks(pins), PinnedProjects(pins)))
  {
    hide RunInv, Confined, HeldPlan;
    StartInv(proposal.user, db0);
    StepsExtend(proposal, Start(db0), changes);
    var pins := ApplyIn(proposal, db0, changes).value.resolutions;
    assert Start(db0).resolutions + pins == pins && Start(db0).refs.Keys == {};
    ProposedSteps(db0.issued, proposal, Start(db0), changes, pins);
    HeldPlanIsConfined(call, db, Pinned(changes, pins));
    assert PinsOf(Pinned(changes, pins)) == pins;
  }
}
