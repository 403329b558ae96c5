/**
 What applying a plan means (backend/app/ledger/service.py, `_apply_in`): each
 change resolves what it names, checks its pin, and writes, in one transaction.
*/
module LedgerApply {
  import opened TextTrim
  import opened Wrappers
  import opened LedgerText
  import opened LedgerStore

  /** A pin, and equally a resolution: what a change resolved to when proposed. */
  datatype Pin = Pin(
    projectId: Option<RowId>, projectName: Option<string>,
    taskId: Option<RowId>, number: Option<nat>, title: Option<string>,
    inPlanProject: bool, inPlanTask: bool)

  const NO_PIN := Pin(None, None, None, None, None, false, false)

  datatype PlanChange = PlanChange(op: string, args: map<string, Arg>, pin: Pin)

  /** How a report names a project: as the call did, or by the id it resolved. */
  datatype Named = AsCalled(text: string) | ById(id: RowId)

  datatype Line =
    | CreatedProject(name: string)
    | AddedGoal(title: string, to: Named)
    | AddedTask(number: nat, title: string, to: Named)
    | UpdatedTask(number: nat, to: Named)
    | RecordedDecision(to: Named)
    | AttachedConversation(to: Named)

  datatype LedgerError =
    | NoChanges
    | UnknownChange(change: PlanChange)
    | BadStatus(kind: string, value: string)
    | FieldRequired(op: string, field: string)
    | FieldTooLong(op: string, field: string, limit: nat)
    | BadDate(field: string, value: string)
    | BadOwner(value: string)
    | NoProjectNamed
    | NoProjectCalled(key: string)
    | ManyProjectsCalled(key: string)
    | NoGoalCalled(project: Named, key: string)
    | NoTaskNamed
    | NoTaskCalled(project: Named, key: string)
    | ManyTasksCalled(project: Named, key: string, numbers: set<nat>)
    | NoTaskAnywhere(key: string)
    | ManyTasksAnywhere(key: string)
    | PinnedProjectGone
    | PinnedTaskGone(number: Option<nat>)
    | ProjectNoLongerInPlan
    | TaskNoLongerInPlan(key: string)
    | NoConversation
    | WriteFailed

  /** Who calls, from which conversation, and what the writes are stamped with. */
  datatype Call = Call(rt: Runtime, names: Naming, user: string, thread: Option<string>, actor: string,
                       cause: Option<string>)

  /** The local state of one run over a plan. */
  datatype Run = Run(
    db: Db,
    refs: map<string, RowId>,
    goalRefs: map<string, RowId>,
    created: set<RowId>,
    refNames: map<string, string>,
    done: seq<Line>,
    resolutions: seq<Pin>)

  function Start(db: Db): Run {
    Run(db, map[], map[], {}, map[], [], [])
  }

  const PROJECT_STATUSES := {"active", "paused", "done", "archived"}
  const TASK_STATUSES := {"todo", "doing", "blocked", "done", "dropped"}
  const OPS := {"create_project", "create_goal", "create_task", "update_task", "add_note", "link_thread"}

  // ----- reading a change's arguments -----

  function Get(c: PlanChange, field: string): Arg {
    if field in c.args then c.args[field] else Null
  }

  function OptionalText(rt: Runtime, c: PlanChange, field: string, limit: nat): Result<Option<string>, LedgerError> {
    var value := Get(c, field);
    if Blank(value) then Ok(None)
    else
      var text := Strip(rt.isSpace, Str(value));
      if |text| > limit then Err(FieldTooLong(c.op, field, limit)) else Ok(Some(text))
  }

  function RequiredText(rt: Runtime, c: PlanChange, field: string, limit: nat): Result<string, LedgerError> {
    var text :- OptionalText(rt, c, field, limit);
    if text.None? then Err(FieldRequired(c.op, field)) else Ok(text.value)
  }

  function ReadDate(rt: Runtime, c: PlanChange, field: string): Result<Option<Date>, LedgerError> {
    var value := Get(c, field);
    if Blank(value) then Ok(None)
    else
      match rt.parseDate(Str(value))
      case None => Err(BadDate(field, Str(value)))
      case Some(day) => Ok(Some(day))
  }

  function OwnerKind(word: string): Option<string> {
    if word == "me" || word == "user" then Some("user")
    else if word in {"agent", "session", "workflow"} then Some(word)
    else None
  }

  function ReadOwner(rt: Runtime, value: Arg): Result<Option<Owner>, LedgerError> {
    if Blank(value) then Ok(None)
    else if value.Other? && value.ownerKind.Some? then
      match OwnerKind(value.ownerKind.value)
      case None => Ok(None)
      case Some(kind) => Ok(Some(Owner(kind, value.ownerRef)))
    else
      match OwnerKind(rt.lower(Str(value)))
      case None => Err(BadOwner(Str(value)))
      case Some(kind) => Ok(Some(Owner(kind, None)))
  }

  /** The status given, or the default when none is; refused outside `allowed`. */
  function ReadStatus(c: PlanChange, kind: string, default: string, allowed: set<string>): Result<string, LedgerError> {
    var value := Get(c, "status");
    var status := if Truthy(value) then Str(value) else default;
    if (value.Other? && value.truthy) || status !in allowed then Err(BadStatus(kind, status)) else Ok(status)
  }

  function HasConversation(call: Call): bool {
    call.thread.Some? && call.thread.value != ""
  }

  // ----- resolving names -----

  lemma OneElement(s: set<RowId>, a: RowId, b: RowId)
    requires |s| == 1 && a in s && b in s
    ensures a == b
  {
    assert |s - {a}| == 0;
  }

  lemma AtMostOne(s: set<RowId>)
    requires forall a, b | a in s && b in s :: a == b
    ensures |s| <= 1
  {
    if a :| a in s {
      assert s == {a};
    }
  }

  function TheOne(s: set<RowId>): (id: RowId)
    requires |s| == 1
    ensures s == {id}
  {
    assert s != {};
    assert forall a, b | a in s && b in s :: a == b by {
      forall a, b | a in s && b in s ensures a == b { OneElement(s, a, b); }
    }
    var id :| id in s;
    id
  }

  function RowsNamed(names: Naming, rows: Rows, key: string): set<RowId> {
    set id | id in rows && names(id) == key
  }

  function OwnedProjects(rows: Rows, user: string): set<RowId> {
    set id | id in rows && rows[id].ProjectRow? && rows[id].owner == user
  }

  /** The row an in-plan ref stands for, else the row whose id is the key itself. */
  function Direct(names: Naming, rows: Rows, key: string, refs: map<string, RowId>): Option<RowId> {
    if key in refs then Some(refs[key])
    else if |RowsNamed(names, rows, key)| == 1 then Some(TheOne(RowsNamed(names, rows, key)))
    else None
  }

  /** The owned projects a name matches, at the first level that matches any. */
  function ProjectMatches(rt: Runtime, rows: Rows, user: string, key: string): set<RowId> {
    var owned := OwnedProjects(rows, user);
    var exact := set id | id in owned && rt.sqlLower(rows[id].name) == rt.lower(key);
    var wanted := Norm(rt, key);
    var loose := set id | id in owned && wanted != [] && Norm(rt, rows[id].name) == wanted;
    var bare := WithoutProjectWord(wanted);
    if exact != {} then exact
    else if loose != {} then loose
    else if bare != [] then set id | id in owned && Norm(rt, rows[id].name) == bare
    else {}
  }

  function ResolveProject(rt: Runtime, names: Naming, rows: Rows, user: string, ref: Arg, refs: map<string, RowId>)
    : Result<RowId, LedgerError>
  {
    if Blank(ref) then Err(NoProjectNamed)
    else
      var key := Str(ref);
      var direct := Direct(names, rows, key, refs);
      if direct.Some? && direct.value in OwnedProjects(rows, user) then Ok(direct.value)
      else
        var matches := ProjectMatches(rt, rows, user, key);
        if |matches| == 1 then Ok(TheOne(matches))
        else if |matches| > 1 then Err(ManyProjectsCalled(key))
        else Err(NoProjectCalled(key))
  }

  function ResolveGoal(rt: Runtime, names: Naming, rows: Rows, project: RowId, ref: Arg, goalRefs: map<string, RowId>,
                       named: Named)
    : Result<RowId, LedgerError>
  {
    var key := Str(ref);
    if key in goalRefs then Ok(goalRefs[key])
    else
      var mine := set id | id in rows && rows[id].GoalRow? && rows[id].project == project;
      var byId := RowsNamed(names, rows, key) * mine;
      var titled := set id | id in mine && rt.sqlLower(rows[id].title) == rt.lower(key);
      if |byId| == 1 then Ok(TheOne(byId))
      else if |titled| == 1 then Ok(TheOne(titled))
      else Err(NoGoalCalled(named, key))
  }

  function TasksOf(rows: Rows, project: RowId): set<RowId> {
    set id | id in rows && rows[id].TaskRow? && rows[id].project == project
  }

  function Numbers(rows: Rows, tasks: set<RowId>): set<nat>
    requires forall id <- tasks :: IsTask(rows, id)
  {
    set id | id in tasks && IsTask(rows, id) :: rows[id].number
  }

  /** The tasks whose short id has this number. */
  function Numbered(rows: Rows, tasks: set<RowId>, short: Option<nat>): set<RowId> {
    set id | id in tasks && IsTask(rows, id) && short == Some(rows[id].number)
  }

  /** The tasks whose title reads as these words. */
  function Titled(rt: Runtime, rows: Rows, tasks: set<RowId>, wanted: seq<string>): set<RowId> {
    set id | id in tasks && IsTask(rows, id) && wanted != [] && Norm(rt, rows[id].title) == wanted
  }

  /** The tasks whose title has these words. */
  function CloseTasks(rt: Runtime, rows: Rows, tasks: set<RowId>, wanted: seq<string>): set<RowId> {
    set id | id in tasks && IsTask(rows, id) && Close(wanted, Norm(rt, rows[id].title))
  }

  function TaskKey(rt: Runtime, ref: Arg): string {
    Strip(rt.isSpace, if Truthy(ref) then Str(ref) else "")
  }

  /** A task of a project: by short id or id, else by exact title, else by close
      title; each level must name exactly one. A short id is never a title. */
  function ResolveTask(rt: Runtime, names: Naming, rows: Rows, project: RowId, ref: Arg, named: Named): Result<RowId,
      LedgerError> {
    var key := TaskKey(rt, ref);
    var short := ShortIdOf(rt, key);
    var tasks := TasksOf(rows, project);
    var numbered := Numbered(rows, tasks, short);
    var byId := RowsNamed(names, rows, key) * tasks;
    var wanted := Norm(rt, key);
    var exact := Titled(rt, rows, tasks, wanted);
    var close := CloseTasks(rt, rows, tasks, wanted);
    if key == "" then Err(NoTaskNamed)
    else if |numbered| == 1 then Ok(TheOne(numbered))
    else if |byId| == 1 then Ok(TheOne(byId))
    else if short.Some? then Err(NoTaskCalled(named, key))
    else if |exact| == 1 then Ok(TheOne(exact))
    else if |exact| > 1 then Err(ManyTasksCalled(named, key, Numbers(rows, exact)))
    else if |close| == 1 then Ok(TheOne(close))
    else if |close| > 1 then Err(ManyTasksCalled(named, key, Numbers(rows, close)))
    else Err(NoTaskCalled(named, key))
  }

  function TasksOfUser(rows: Rows, user: string): set<RowId> {
    set id | id in rows && rows[id].TaskRow? && rows[id].project in OwnedProjects(rows, user)
  }

  /** A task named without its project: by id, or by exact title. */
  function ResolveTaskAnywhere(rt: Runtime, names: Naming, rows: Rows, user: string, ref: Arg): Result<RowId,
      LedgerError> {
    var key := TaskKey(rt, ref);
    var mine := TasksOfUser(rows, user);
    var byId := RowsNamed(names, rows, key) * mine;
    var wanted := Norm(rt, key);
    var exact := Titled(rt, rows, mine, wanted);
    if key == "" then Err(NoTaskNamed)
    else if |byId| == 1 then Ok(TheOne(byId))
    else if |exact| == 1 then Ok(TheOne(exact))
    else if |exact| > 1 then Err(ManyTasksAnywhere(key))
    else Err(NoTaskAnywhere(key))
  }

  function PinnedProject(rows: Rows, user: string, id: RowId): Result<RowId, LedgerError> {
    if id in OwnedProjects(rows, user) then Ok(id) else Err(PinnedProjectGone)
  }

  function PinnedTask(rows: Rows, user: string, pin: Pin): Result<RowId, LedgerError>
    requires pin.taskId.Some?
  {
    var id := pin.taskId.value;
    if id in TasksOfUser(rows, user) && (pin.projectId.None? || rows[id].project == pin.projectId.value) then Ok(id)
    else Err(PinnedTaskGone(pin.number))
  }

  function AsNamed(ref: Arg, refNames: map<string, string>): Named {
    AsCalled(if Str(ref) in refNames then refNames[Str(ref)] else Str(ref))
  }

  // ----- one change -----

  /** The project a change is about, the task when it is already known, and what
      the report calls the project. */
  datatype Target = Target(project: RowId, task: Option<RowId>, named: Named)

  /** A task found by itself, with the project it is in. */
  function TargetOfTask(call: Call, run: Run, task: RowId, project: Arg): Result<Target, LedgerError>
    requires IsTask(run.db.rows, task)
  {
    match PinnedProject(run.db.rows, call.user, run.db.rows[task].project)
    case Err(e) => Err(e)
    case Ok(id) => Ok(Target(id, Some(task), if Blank(project) then ById(id) else AsNamed(project, run.refNames)))
  }

  function ResolveTarget(call: Call, run: Run, c: PlanChange): (r: Result<Target, LedgerError>)
    ensures r.Ok? ==> r.value.project in OwnedProjects(run.db.rows, call.user)
    ensures r.Ok? && r.value.task.Some? ==>
              IsTask(run.db.rows, r.value.task.value) && run.db.rows[r.value.task.value].project == r.value.project
  {
    var project := Get(c, "project");
    if c.pin.taskId.Some? && c.op == "update_task" then
      var task :- PinnedTask(run.db.rows, call.user, c.pin);
      TargetOfTask(call, run, task, project)
    else if c.pin.projectId.Some? then
      var id :- PinnedProject(run.db.rows, call.user, c.pin.projectId.value);
      Ok(Target(id, None, AsNamed(project, run.refNames)))
    else if c.op == "update_task" && Blank(project) then
      var task :- ResolveTaskAnywhere(call.rt, call.names, run.db.rows, call.user, Get(c, "task"));
      TargetOfTask(call, run, task, project)
    else
      var id :- ResolveProject(call.rt, call.names, run.db.rows, call.user, project, run.refs);
      Ok(Target(id, None, AsNamed(project, run.refNames)))
  }

  /** What a later call may be held to: ids of rows that existed before the plan,
      and a mark for rows the plan itself creates. */
  function Resolution(run: Run, c: PlanChange, project: RowId, task: Option<RowId>): Pin
    requires IsProject(run.db.rows, project) && (task.Some? ==> IsTask(run.db.rows, task.value))
  {
    var byProject :=
      if project !in run.created then NO_PIN.(projectId := Some(project),
                                              projectName := Some(run.db.rows[project].name))
      else NO_PIN.(inPlanProject := Str(Get(c, "project")) !in run.refs);
    if task.None? then byProject
    else if task.value !in run.created then
      byProject.(taskId := task, number := Some(run.db.rows[task.value].number),
                 title := Some(run.db.rows[task.value].title))
    else byProject.(inPlanTask := true)
  }

  function StampOf(call: Call): Stamp {
    Stamp(call.user, call.actor, call.cause)
  }

  function Written<T>(r: Result<T, WriteError>): Result<T, LedgerError> {
    match r
    case Ok(value) => Ok(value)
    case Err(_) => Err(WriteFailed)
  }

  /** The row a change creates, from its arguments; a task's number is drawn with it. */
  function ProjectToCreate(call: Call, c: PlanChange): (r: Result<Row, LedgerError>)
    ensures r.Ok? ==> r.value.ProjectRow? && r.value.owner == call.user
  {
    var status :- ReadStatus(c, "project", "active", PROJECT_STATUSES);
    var name :- RequiredText(call.rt, c, "name", 120);
    var why :- OptionalText(call.rt, c, "why", 2000);
    var context :- OptionalText(call.rt, c, "context", 8000);
    Ok(ProjectRow(call.user, name, why, context, status, 1, 1))
  }

  function GoalToCreate(call: Call, c: PlanChange, project: RowId): (r: Result<Row, LedgerError>)
    ensures r.Ok? ==> r.value.GoalRow? && r.value.project == project
  {
    var title :- RequiredText(call.rt, c, "title", 200);
    var definition :- RequiredText(call.rt, c, "definition_of_done", 4000);
    var due :- ReadDate(call.rt, c, "target_date");
    Ok(GoalRow(project, title, definition, due, 1))
  }

  function TaskToCreate(call: Call, run: Run, c: PlanChange, target: Target): (r: Result<Row, LedgerError>)
    requires IsProject(run.db.rows, target.project)
    ensures r.Ok? ==> r.value.TaskRow? && r.value.project == target.project
  {
    var status :- ReadStatus(c, "task", "todo", TASK_STATUSES);
    var title :- RequiredText(call.rt, c, "title", 300);
    var due :- ReadDate(call.rt, c, "due_date");
    var assignee :- ReadOwner(call.rt, Get(c, "owner"));
    var goal :- TaskGoal(call, run, c, target);
    Ok(TaskRow(target.project, run.db.rows[target.project].nextTask, title, status, assignee, due, goal, 1))
  }

  function NoteToCreate(call: Call, c: PlanChange, project: RowId): (r: Result<Row, LedgerError>)
    ensures r.Ok? ==> r.value.NoteRow? && r.value.project == project
  {
    var decided :- RequiredText(call.rt, c, "decided", 4000);
    var why :- OptionalText(call.rt, c, "why", 4000);
    Ok(NoteRow(project, decided, why, call.thread, 1))
  }

  function CreateProject(call: Call, run: Run, c: PlanChange): Result<Run, LedgerError> {
    var row :- ProjectToCreate(call, c);
    var id := run.db.issued;
    var db :- Written(Create(run.db, row, StampOf(call)));
    var ref := Get(c, "ref");
    Ok(run.(
       db := if HasConversation(call)
             then Link(db, id, call.thread.value, Some("The chat it was captured in"), None, call.user, call.actor)
             else db,
       refs := if Truthy(ref) then run.refs[Str(ref) := id] else run.refs,
       refNames := if Truthy(ref) then run.refNames[Str(ref) := row.name] else run.refNames,
       created := run.created + {id},
       done := run.done + [CreatedProject(row.name)],
       resolutions := run.resolutions + [NO_PIN]))
  }

  function CreateGoal(call: Call, run: Run, c: PlanChange, target: Target): Result<Run, LedgerError> {
    var row :- GoalToCreate(call, c, target.project);
    var id := run.db.issued;
    var db :- Written(Create(run.db, row, StampOf(call)));
    var ref := Get(c, "ref");
    Ok(run.(db := db,
            goalRefs := if Truthy(ref) then run.goalRefs[Str(ref) := id] else run.goalRefs,
            done := run.done + [AddedGoal(row.title, target.named)]))
  }

  function CreateTask(call: Call, run: Run, c: PlanChange, target: Target): Result<Run, LedgerError>
    requires IsProject(run.db.rows, target.project)
  {
    var row :- TaskToCreate(call, run, c, target);
    var id := run.db.issued;
    var db :- Written(Create(run.db, row, StampOf(call)));
    var todo := Get(c, "todo_ref");
    Ok(run.(
       db := if HasConversation(call) && Truthy(todo)
             then Link(db, id, call.thread.value, None, Some(Cut(Str(todo), 300)), call.user, call.actor)
             else db,
       created := run.created + {id},
       done := run.done + [AddedTask(row.number, row.title, target.named)]))
  }

  function TaskGoal(call: Call, run: Run, c: PlanChange, target: Target): Result<Option<RowId>, LedgerError> {
    if !Truthy(Get(c, "goal")) then Ok(None)
    else
      var goal :- ResolveGoal(call.rt, call.names, run.db.rows, target.project, Get(c, "goal"), run.goalRefs,
                              target.named);
      Ok(Some(goal))
  }

  function Cut(s: string, limit: nat): string {
    if |s| <= limit then s else s[..limit]
  }

  function ReadTaskFields(rt: Runtime, c: PlanChange): Result<TaskFields, LedgerError> {
    var title :- if "title" in c.args
                 then (var t :- RequiredText(rt, c, "title", 300); Ok(Some(t)))
                 else Ok(None);
    var status :- if "status" in c.args
                  then (if Get(c, "status").Text? && Get(c, "status").text in TASK_STATUSES
                        then Ok(Some(Get(c, "status").text))
                        else Err(BadStatus("task", Str(Get(c, "status")))))
                  else Ok(None);
    var due :- if "due_date" in c.args
               then (var d :- ReadDate(rt, c, "due_date"); Ok(Some(d)))
               else Ok(None);
    var assignee :- if "owner" in c.args
                    then (var o :- ReadOwner(rt, Get(c, "owner")); Ok(Some(o)))
                    else Ok(None);
    Ok(TaskFields(title, status, due, assignee))
  }

  function UpdateTask(call: Call, run: Run, c: PlanChange, target: Target, task: RowId): Result<Run, LedgerError>
    requires IsTask(run.db.rows, task)
  {
    var fields :- ReadTaskFields(call.rt, c);
    var db :- Written(Update(run.db, task, SetTask(fields), None, StampOf(call)));
    Ok(run.(db := db, done := run.done + [UpdatedTask(run.db.rows[task].number, target.named)]))
  }

  function AddNote(call: Call, run: Run, c: PlanChange, target: Target): Result<Run, LedgerError> {
    var row :- NoteToCreate(call, c, target.project);
    var db :- Written(Create(run.db, row, StampOf(call)));
    Ok(run.(db := db, done := run.done + [RecordedDecision(target.named)]))
  }

  function LinkThread(call: Call, run: Run, c: PlanChange, target: Target): Result<Run, LedgerError> {
    if !HasConversation(call) then Err(NoConversation)
    else
      var caption :- OptionalText(call.rt, c, "label", 300);
      Ok(run.(db := Link(run.db, target.project, call.thread.value, caption, None, call.user, call.actor),
              done := run.done + [AttachedConversation(target.named)]))
  }

  /** Which task an update is about: the one its target named, else one of the
      project's; held to the plan when the pin says the plan creates it. */
  function UpdatedTaskOf(call: Call, run: Run, c: PlanChange, target: Target): (r: Result<RowId, LedgerError>)
    requires target.task.Some? ==>
               IsTask(run.db.rows, target.task.value) && run.db.rows[target.task.value].project == target.project
    ensures r.Ok? ==> IsTask(run.db.rows, r.value) && run.db.rows[r.value].project == target.project
    ensures r.Ok? && target.task.Some? ==> r.value == target.task.value
    ensures r.Ok? && c.pin.inPlanTask ==> r.value in run.created
  {
    var task :- if target.task.Some? then Ok(target.task.value)
                else ResolveTask(call.rt, call.names, run.db.rows, target.project, Get(c, "task"), target.named);
    if c.pin.inPlanTask && task !in run.created then Err(TaskNoLongerInPlan(Str(Get(c, "task")))) else Ok(task)
  }

  /** One change: its target, its pin, its write. */
  function Step(call: Call, run: Run, c: PlanChange): Result<Run, LedgerError> {
    if c.op == "create_project" then CreateProject(call, run, c)
    else
      var target :- ResolveTarget(call, run, c);
      if c.pin.inPlanProject && target.project !in run.created then Err(ProjectNoLongerInPlan)
      else if c.op == "update_task" then
        var task :- UpdatedTaskOf(call, run, c, target);
        var next :- UpdateTask(call, run, c, target, task);
        Ok(next.(resolutions := run.resolutions + [Resolution(run, c, target.project, Some(task))]))
      else
        var next :- if c.op == "create_goal" then CreateGoal(call, run, c, target)
                    else if c.op == "create_task" then CreateTask(call, run, c, target)
                    else if c.op == "add_note" then AddNote(call, run, c, target)
                    else if c.op == "link_thread" then LinkThread(call, run, c, target)
                    else Err(UnknownChange(c));
        Ok(next.(resolutions := run.resolutions + [Resolution(run, c, target.project, None)]))
  }

  // ----- a plan -----

  function Shapes(changes: seq<PlanChange>): Result<(), LedgerError> {
    if changes == [] then Err(NoChanges) else KnownOps(changes)
  }

  function KnownOps(changes: seq<PlanChange>): Result<(), LedgerError> {
    if changes == [] then Ok(())
    else if changes[0].op !in OPS then Err(UnknownChange(changes[0]))
    else KnownOps(changes[1..])
  }

  function Steps(call: Call, run: Run, changes: seq<PlanChange>): Result<Run, LedgerError>
    decreases |changes|
  {
    if changes == [] then Ok(run)
    else
      var next :- Step(call, run, changes[0]);
      Steps(call, next, changes[1..])
  }

  function ApplyIn(call: Call, db: Db, changes: seq<PlanChange>): Result<Run, LedgerError> {
    var _ :- Shapes(changes);
    Steps(call, Start(db), changes)
  }

  /** The store after a transaction that ends in `r`: rolled back on an error. */
  function Committed(db: Db, r: Result<Run, LedgerError>): Db {
    match r
    case Ok(run) => run.db
    case Err(_) => db
  }

  /** Several cards in one transaction: all of them, or none. */
  function ApplyCards(call: Call, db: Db, cards: seq<(seq<PlanChange>, Option<string>)>): Result<Db, LedgerError>
    decreases |cards|
  {
    if cards == [] then Ok(db)
    else
      var run :- ApplyIn(call.(thread := cards[0].1), db, cards[0].0);
      ApplyCards(call, run.db, cards[1..])
  }

  /** The plan with each change's pin set to what it resolved to. */
  function Pinned(changes: seq<PlanChange>, resolutions: seq<Pin>): (r: seq<PlanChange>)
    requires |changes| == |resolutions|
    ensures |r| == |changes|
  {
    seq(|changes|, i requires 0 <= i < |changes| => changes[i].(pin := resolutions[i]))
  }

  /** What a model sends is never taken as a pin. */
  function StripPins(changes: seq<PlanChange>): (r: seq<PlanChange>)
    ensures |r| == |changes| && forall c <- r :: c.pin == NO_PIN
  {
    seq(|changes|, i requires 0 <= i < |changes| => changes[i].(pin := NO_PIN))
  }
}
