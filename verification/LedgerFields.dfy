/**
 What a change stores (backend/app/ledger/service.py): each field read from the argument
 that names it, and nothing else of the ledger moved.

 Main results: a step stores exactly what its change says, links what it links, and leaves
 every other row alone (`StepStores`); and every plan keeps every row within the limits and the closed sets of
 the contract (`PlansKeepLimits`).
*/
module LedgerFields {
  import opened Wrappers
  import opened LedgerText
  import opened LedgerStore
  import opened LedgerApply
  import opened LedgerPins
  import opened LedgerReport

  // ----- what an argument says -----

  ghost predicate SaysText(rt: Runtime, c: PlanChange, field: string, text: Option<string>) {
    if Blank(Get(c, field)) then text.None? else text == Some(Quoted(rt, c, field))
  }

  ghost predicate SaysDate(rt: Runtime, c: PlanChange, field: string, day: Option<Date>) {
    if Blank(Get(c, field)) then day.None? else day.Some? && rt.parseDate(Str(Get(c, field))) == day
  }

  /** Who a task is for: "me" and "user" are the user, and a word of no owner is refused;
      an object of no known kind is nobody. */
  ghost predicate SaysOwner(rt: Runtime, c: PlanChange, owner: Option<Owner>) {
    var value := Get(c, "owner");
    if Blank(value) then owner.None?
    else if value.Other? && value.ownerKind.Some? then
      owner == if OwnerKind(value.ownerKind.value).None? then None
          else Some(Owner(OwnerKind(value.ownerKind.value).value, value.ownerRef))
    else owner.Some? && Some(owner.value.kind) == OwnerKind(rt.lower(Str(value))) && owner.value.ref.None?
  }

  ghost predicate SaysStatus(c: PlanChange, default: string, status: string) {
    status == if Truthy(Get(c, "status")) then Str(Get(c, "status")) else default
  }

  function GoalsOf(rows: Rows, project: RowId): set<RowId> {
    set id | id in rows && rows[id].GoalRow? && rows[id].project == project
  }

  function TitledGoals(rt: Runtime, rows: Rows, project: RowId, key: string): set<RowId> {
    set id | id in GoalsOf(rows, project) && rt.sqlLower(rows[id].title) == rt.lower(key)
  }

  /** The goal a task is put under: the one the plan made under that ref, else the
      project's only goal with that id, else its only goal with that title. */
  ghost predicate SaysGoal(call: Call, run: Run, c: PlanChange, project: RowId, goal: Option<RowId>) {
    var key := Str(Get(c, "goal"));
    if !Truthy(Get(c, "goal")) then goal.None?
    else if key in run.goalRefs then goal == Some(run.goalRefs[key])
    else
      var byId := set id | id in GoalsOf(run.db.rows, project) && call.names(id) == key;
      && goal.Some?
      && (if |byId| == 1 then byId else TitledGoals(call.rt, run.db.rows, project, key)) == {goal.value}
  }

  /** A row as the change that creates it says. */
  ghost predicate Stores(call: Call, run: Run, c: PlanChange, project: RowId, row: Row) {
    match c.op
    case "create_project" =>
      && row.ProjectRow? && row.owner == call.user && row.name == Quoted(call.rt, c, "name")
      && SaysText(call.rt, c, "why", row.why) && SaysText(call.rt, c, "context", row.context)
      && SaysStatus(c, "active", row.status) && row.nextTask == 1 && row.version == 1
    case "create_goal" =>
      && row.GoalRow? && row.project == project && row.title == Quoted(call.rt, c, "title")
      && row.definitionOfDone == Quoted(call.rt, c, "definition_of_done")
      && SaysDate(call.rt, c, "target_date", row.targetDate) && row.version == 1
    case "create_task" =>
      && row.TaskRow? && row.project == project && row.title == Quoted(call.rt, c, "title")
      && SaysStatus(c, "todo", row.status) && SaysDate(call.rt, c, "due_date", row.dueDate)
      && SaysOwner(call.rt, c, row.assignee) && SaysGoal(call, run, c, project, row.goal) && row.version == 1
    case "add_note" =>
      && row.NoteRow? && row.project == project && row.decided == Quoted(call.rt, c, "decided")
      && SaysText(call.rt, c, "why", row.why) && row.thread == call.thread && row.version == 1
    case _ => false
  }

  /** A task as the update of it says: the fields named, and no others. */
  ghost predicate Updates(rt: Runtime, c: PlanChange, before: Row, after: Row) {
    && before.TaskRow? && after.TaskRow?
    && after == before.(title := after.title, status := after.status, dueDate := after.dueDate,
                        assignee := after.assignee, version := before.version + 1)
    && (if "title" in c.args then after.title == Quoted(rt, c, "title") else after.title == before.title)
    && (if "status" in c.args then after.status == Str(Get(c, "status")) else after.status == before.status)
    && (if "due_date" in c.args then SaysDate(rt, c, "due_date", after.dueDate) else after.dueDate == before.dueDate)
    && (if "owner" in c.args then SaysOwner(rt, c, after.assignee) else after.assignee == before.assignee)
  }

  /** The link a change makes: a project to the chat it was captured in, a task to the
      chat whose todo it was, or a project to this chat. */
  ghost predicate SaysLink(call: Call, c: PlanChange, id: RowId, project: RowId, link: Option<Row>) {
    match c.op
    case "create_project" =>
      link == if !HasConversation(call) then None
              else Some(LinkRow(id, call.thread.value, Some("The chat it was captured in"), None, 1))
    case "create_task" =>
      link == if !HasConversation(call) || !Truthy(Get(c, "todo_ref")) then None
              else Some(LinkRow(id, call.thread.value, None, Some(Cut(Str(Get(c, "todo_ref")), 300)), 1))
    case "link_thread" =>
      && HasConversation(call) && link.Some? && link.value.LinkRow? && SaysText(call.rt, c, "label", link.value.caption)
      && link == Some(LinkRow(project, call.thread.value, link.value.caption, None, 1))
    case _ => link.None?
  }

  /** No link is new. */
  ghost predicate NoNewLinks(before: Db, after: Db) {
    forall id <- after.rows | after.rows[id].LinkRow? :: id in before.rows
  }

  /** `link` is there, and nothing else is linked: a pair already linked stays as it was. */
  ghost predicate LinksMade(before: Db, after: Db, link: Option<Row>)
    requires link.Some? ==> link.value.LinkRow?
  {
    if link.None? then NoNewLinks(before, after)
    else
      && Linked(after, link.value.fromId, link.value.toRef)
      && if Linked(before, link.value.fromId, link.value.toRef) then NoNewLinks(before, after)
         else exists id :: id !in before.rows && id in after.rows && after.rows[id] == link.value
                           && forall other <- after.rows | after.rows[other].LinkRow? && other != id ::
                                other in before.rows
  }

  ghost predicate LinksAsSaid(call: Call, before: Db, c: PlanChange, project: RowId, after: Db) {
    exists link: Option<Row> :: (link.Some? ==> link.value.LinkRow?) && SaysLink(call, c, before.issued, project, link)
                                && LinksMade(before, after, link)
  }

  /** Nothing moved but what is named: rows of `changed`, and new links. */
  ghost predicate OthersStay(before: Db, after: Db, changed: set<RowId>) {
    && (forall id <- before.rows | id !in changed :: id in after.rows && after.rows[id] == before.rows[id])
    && (forall id <- after.rows | id !in before.rows && id !in changed :: after.rows[id].LinkRow?)
  }

  lemma ReadsText(rt: Runtime, c: PlanChange, field: string, limit: nat)
    ensures OptionalText(rt, c, field, limit).Ok? ==> SaysText(rt, c, field, OptionalText(rt, c, field, limit).value)
    ensures RequiredText(rt, c, field, limit).Ok? ==> RequiredText(rt, c, field, limit).value == Quoted(rt, c, field)
  {
  }

  lemma ReadsOthers(rt: Runtime, c: PlanChange, field: string)
    ensures ReadDate(rt, c, field).Ok? ==> SaysDate(rt, c, field, ReadDate(rt, c, field).value)
    ensures ReadOwner(rt, Get(c, "owner")).Ok? ==> SaysOwner(rt, c, ReadOwner(rt, Get(c, "owner")).value)
  {
  }

  lemma ReadsGoal(call: Call, run: Run, c: PlanChange, target: Target)
    ensures TaskGoal(call, run, c, target).Ok? ==>
              SaysGoal(call, run, c, target.project, TaskGoal(call, run, c, target).value)
  {
    var key := Str(Get(c, "goal"));
    var mine := set id | id in run.db.rows && run.db.rows[id].GoalRow? && run.db.rows[id].project == target.project;
    assert mine == GoalsOf(run.db.rows, target.project);
    assert RowsNamed(call.names, run.db.rows, key) * mine
        == set id | id in GoalsOf(run.db.rows, target.project) && call.names(id) == key;
    assert TitledGoals(call.rt, run.db.rows, target.project, key)
        == set id | id in mine && call.rt.sqlLower(run.db.rows[id].title) == call.rt.lower(key);
  }

  lemma ReadsStatus(c: PlanChange, kind: string, default: string, allowed: set<string>)
    ensures ReadStatus(c, kind, default, allowed).Ok? ==>
              SaysStatus(c, default, ReadStatus(c, kind, default, allowed).value)
  {
  }

  lemma ProjectStores(call: Call, run: Run, c: PlanChange)
    requires c.op == "create_project" && ProjectToCreate(call, c).Ok?
    ensures Stores(call, run, c, 0, ProjectToCreate(call, c).value)
  {
    hide ReadStatus, RequiredText, OptionalText, SaysText, SaysStatus, Quoted;
    ReadsStatus(c, "project", "active", PROJECT_STATUSES);
    ReadsText(call.rt, c, "name", 120);
    ReadsText(call.rt, c, "why", 2000);
    ReadsText(call.rt, c, "context", 8000);
  }

  lemma GoalStores(call: Call, run: Run, c: PlanChange, project: RowId)
    requires c.op == "create_goal" && GoalToCreate(call, c, project).Ok?
    ensures Stores(call, run, c, project, GoalToCreate(call, c, project).value)
  {
    hide RequiredText, ReadDate, SaysDate, Quoted;
    ReadsText(call.rt, c, "title", 200);
    ReadsText(call.rt, c, "definition_of_done", 4000);
    ReadsOthers(call.rt, c, "target_date");
  }

  lemma TaskStores(call: Call, run: Run, c: PlanChange, target: Target, row: Row)
    requires c.op == "create_task" && IsProject(run.db.rows, target.project) && TaskToCreate(call, run, c, target).Ok?
    requires row == TaskToCreate(call, run, c, target).value
    ensures Stores(call, run, c, target.project, row) && row.number == run.db.rows[target.project].nextTask
  {
    hide ReadStatus, RequiredText, ReadDate, ReadOwner, TaskGoal, SaysStatus, SaysDate, SaysOwner, SaysGoal, Quoted;
    ReadsGoal(call, run, c, target);
    ReadsStatus(c, "task", "todo", TASK_STATUSES);
    ReadsText(call.rt, c, "title", 300);
    ReadsOthers(call.rt, c, "due_date");
  }

  lemma NoteStores(call: Call, run: Run, c: PlanChange, project: RowId)
    requires c.op == "add_note" && NoteToCreate(call, c, project).Ok?
    ensures Stores(call, run, c, project, NoteToCreate(call, c, project).value)
  {
    hide RequiredText, OptionalText, SaysText, Quoted;
    ReadsText(call.rt, c, "decided", 4000);
    ReadsText(call.rt, c, "why", 4000);
  }

  lemma UpdateStores(call: Call, run: Run, c: PlanChange, target: Target, task: RowId)
    requires IsTask(run.db.rows, task) && UpdateTask(call, run, c, target, task).Ok?
    ensures var after := UpdateTask(call, run, c, target, task).value.db;
            task in after.rows && Updates(call.rt, c, run.db.rows[task], after.rows[task])
                && OthersStay(run.db, after, {task})
  {
    hide RequiredText, ReadDate, ReadOwner, SaysDate, SaysOwner, Quoted;
    ReadsText(call.rt, c, "title", 300);
    ReadsOthers(call.rt, c, "due_date");
  }

  /** A new row, and perhaps a link: a task also moves its project's counter by one. */
  lemma CreateStores(db: Db, row: Row, stamp: Stamp, link: Option<Row>, owner: string, actor: string, after: Db)
    requires Valid(db) && Create(db, row, stamp).Ok? && !row.LinkRow?
    requires link.Some? ==> link.value.LinkRow? && link.value.version == 1
    requires row.TaskRow? && IsProject(db.rows, row.project) ==> row.number == db.rows[row.project].nextTask
    requires after == WithLink(Create(db, row, stamp).value, link, owner, actor)
    ensures db.issued in after.rows && after.rows[db.issued] == row
    ensures if row.TaskRow?
            then && IsProject(db.rows, row.project) && row.project in after.rows
                 && after.rows[row.project] == db.rows[row.project].(nextTask := row.number + 1)
                 && OthersStay(db, after, {db.issued, row.project})
            else OthersStay(db, after, {db.issued})
    ensures LinksMade(db, after, link)
  {
    hide LinksMade, WithLink;
    var mid := Create(db, row, stamp).value;
    LinkMakes(mid, link, owner, actor);
    LinksMadeThrough(db, mid, after, link);
  }

  function WithLink(db: Db, link: Option<Row>, owner: string, actor: string): Db
    requires link.Some? ==> link.value.LinkRow?
  {
    if link.None? then db
    else Link(db, link.value.fromId, link.value.toRef, link.value.caption, link.value.todoRef, owner, actor)
  }

  lemma LinkMakes(db: Db, link: Option<Row>, owner: string, actor: string)
    requires IdsDrawn(db) && (link.Some? ==> link.value.LinkRow? && link.value.version == 1)
    ensures var after := WithLink(db, link, owner, actor); LinksMade(db, after, link) && OthersStay(db, after, {})
  {
    var after := WithLink(db, link, owner, actor);
    if after != db {
      assert after.rows[db.issued] == link.value;
      assert Linked(after, link.value.fromId, link.value.toRef);
    }
  }

  ghost predicate IdsDrawn(db: Db) {
    forall id <- db.rows :: id < db.issued
  }

  /** The links of a store are untouched by a new row of another kind. */
  lemma LinksMadeThrough(db: Db, mid: Db, after: Db, link: Option<Row>)
    requires (link.Some? ==> link.value.LinkRow?) && LinksMade(mid, after, link)
    requires forall id <- db.rows :: id in mid.rows && (db.rows[id].LinkRow? <==> mid.rows[id].LinkRow?)
    requires forall id <- db.rows | db.rows[id].LinkRow? :: mid.rows[id] == db.rows[id]
    requires forall id <- mid.rows | mid.rows[id].LinkRow? :: id in db.rows
    requires OthersStay(mid, after, {})
    ensures LinksMade(db, after, link)
  {
    assert NoNewLinks(mid, after) ==> NoNewLinks(db, after);
    if link.Some? {
      var fromId, toRef := link.value.fromId, link.value.toRef;
      assert Linked(mid, fromId, toRef) <==> Linked(db, fromId, toRef);
    }
  }

  /** What a step leaves in the store, and where. */
  ghost predicate Stored(call: Call, run: Run, c: PlanChange, project: RowId, task: Option<RowId>, after: Db) {
    var before := run.db;
    && LinksAsSaid(call, before, c, project, after)
    && match c.op
       case "update_task" =>
         && task.Some? && task.value in before.rows && task.value in after.rows
         && Updates(call.rt, c, before.rows[task.value], after.rows[task.value])
            && OthersStay(before, after, {task.value})
       case "link_thread" => OthersStay(before, after, {})
       case "create_task" =>
         && before.issued in after.rows && Stores(call, run, c, project, after.rows[before.issued])
         && IsProject(before.rows, project) && project in after.rows
         && after.rows[before.issued].number == before.rows[project].nextTask
         && after.rows[project] == before.rows[project].(nextTask := before.rows[project].nextTask + 1)
         && OthersStay(before, after, {before.issued, project})
       case _ =>
         && before.issued in after.rows && Stores(call, run, c, project, after.rows[before.issued])
         && OthersStay(before, after, {before.issued})
  }

  lemma CreateProjectStored(call: Call, run: Run, c: PlanChange)
    requires c.op == "create_project" && Valid(run.db) && CreateProject(call, run, c).Ok?
    ensures Stored(call, run, c, 0, None, CreateProject(call, run, c).value.db)
  {
    hide ProjectToCreate, Stores, OthersStay, Link, Valid, LinksMade;
    ProjectStores(call, run, c);
    var link := if !HasConversation(call) then None
                else Some(LinkRow(run.db.issued, call.thread.value, Some("The chat it was captured in"), None, 1));
    CreateStores(run.db, ProjectToCreate(call, c).value, StampOf(call), link, call.user, call.actor,
                 CreateProject(call, run, c).value.db);
    assert SaysLink(call, c, run.db.issued, 0, link);
  }

  lemma CreateTaskStored(call: Call, run: Run, c: PlanChange, target: Target)
    requires c.op == "create_task" && Valid(run.db) && IsProject(run.db.rows, target.project)
    requires CreateTask(call, run, c, target).Ok?
    ensures Stored(call, run, c, target.project, None, CreateTask(call, run, c, target).value.db)
  {
    hide TaskToCreate, Stores, OthersStay, Link, Valid, LinksMade;
    var row := TaskToCreate(call, run, c, target).value;
    TaskStores(call, run, c, target, row);
    var link := if !HasConversation(call) || !Truthy(Get(c, "todo_ref")) then None
                else Some(LinkRow(run.db.issued, call.thread.value, None, Some(Cut(Str(Get(c, "todo_ref")), 300)), 1));
    CreateStores(run.db, row, StampOf(call), link, call.user, call.actor, CreateTask(call, run, c, target).value.db);
    assert SaysLink(call, c, run.db.issued, target.project, link);
  }

  lemma CreateGoalStored(call: Call, run: Run, c: PlanChange, target: Target)
    requires c.op == "create_goal" && Valid(run.db) && CreateGoal(call, run, c, target).Ok?
    ensures Stored(call, run, c, target.project, None, CreateGoal(call, run, c, target).value.db)
  {
    hide GoalToCreate, Stores, OthersStay, Link, Valid, LinksMade;
    GoalStores(call, run, c, target.project);
    CreateStores(run.db, GoalToCreate(call, c, target.project).value, StampOf(call), None, call.user, call.actor,
                 CreateGoal(call, run, c, target).value.db);
    assert SaysLink(call, c, run.db.issued, target.project, None);
  }

  lemma AddNoteStored(call: Call, run: Run, c: PlanChange, target: Target)
    requires c.op == "add_note" && Valid(run.db) && AddNote(call, run, c, target).Ok?
    ensures Stored(call, run, c, target.project, None, AddNote(call, run, c, target).value.db)
  {
    hide NoteToCreate, Stores, OthersStay, Link, Valid, LinksMade;
    NoteStores(call, run, c, target.project);
    CreateStores(run.db, NoteToCreate(call, c, target.project).value, StampOf(call), None, call.user, call.actor,
                 AddNote(call, run, c, target).value.db);
    assert SaysLink(call, c, run.db.issued, target.project, None);
  }

  lemma LinkThreadStored(call: Call, run: Run, c: PlanChange, target: Target)
    requires c.op == "link_thread" && Valid(run.db) && LinkThread(call, run, c, target).Ok?
    ensures Stored(call, run, c, target.project, None, LinkThread(call, run, c, target).value.db)
  {
    hide OthersStay, Link, OptionalText, LinksMade, SaysText;
    ReadsText(call.rt, c, "label", 300);
    var link := Some(LinkRow(target.project, call.thread.value, OptionalText(call.rt, c, "label", 300).value, None, 1));
    LinkMakes(run.db, link, call.user, call.actor);
    assert SaysLink(call, c, run.db.issued, target.project, link);
  }

  lemma UpdateTaskStored(call: Call, run: Run, c: PlanChange, target: Target, task: RowId)
    requires c.op == "update_task" && IsTask(run.db.rows, task) && UpdateTask(call, run, c, target, task).Ok?
    ensures Stored(call, run, c, target.project, Some(task), UpdateTask(call, run, c, target, task).value.db)
  {
    UpdateStores(call, run, c, target, task);
    hide Updates;
    assert LinksMade(run.db, UpdateTask(call, run, c, target, task).value.db, None);
    assert SaysLink(call, c, run.db.issued, target.project, None);
  }

  /** A step stores what its change says, where it resolved to, and nothing else. */
  lemma StepStores(call: Call, run: Run, c: PlanChange)
    requires Valid(run.db) && Step(call, run, c).Ok?
    ensures var (project, task) := if c.op == "create_project" then (0, None)
                                   else (TargetAt(call, run, c).0.project, TargetAt(call, run, c).1);
            Stored(call, run, c, project, task, Step(call, run, c).value.db)
  {
    hide Stored, Valid, ResolveTarget, UpdatedTaskOf, CreateProject, CreateGoal, CreateTask, AddNote, LinkThread,
         UpdateTask;
    if c.op == "create_project" {
      CreateProjectStored(call, run, c);
      return;
    }
    var (target, task) := TargetAt(call, run, c);
    match c.op
    case "update_task" => UpdateTaskStored(call, run, c, target, task.value);
    case "create_task" => CreateTaskStored(call, run, c, target);
    case "create_goal" => CreateGoalStored(call, run, c, target);
    case "add_note" => AddNoteStored(call, run, c, target);
    case _ => LinkThreadStored(call, run, c, target);
  }

  // ----- limits -----

  predicate ShortText(text: Option<string>, limit: nat) {
    text.Some? ==> |text.value| <= limit
  }

  /** A row within the contract: its texts no longer than they may be, its status one of
      the known ones. */
  predicate WithinLimits(row: Row) {
    match row
    case ProjectRow(_, name, why, context, status, _, _) =>
      |name| <= 120 && ShortText(why, 2000) && ShortText(context, 8000) && status in PROJECT_STATUSES
    case GoalRow(_, title, definition, _, _) => |title| <= 200 && |definition| <= 4000
    case TaskRow(_, _, title, status, _, _, _, _) => |title| <= 300 && status in TASK_STATUSES
    case NoteRow(_, decided, why, _, _) => |decided| <= 4000 && ShortText(why, 4000)
    case LinkRow(_, _, caption, todo, _) => ShortText(caption, 300) && ShortText(todo, 300)
  }

  ghost predicate AllWithin(rows: Rows) {
    forall id <- rows :: WithinLimits(rows[id])
  }

  lemma TextWithin(rt: Runtime, c: PlanChange, field: string, limit: nat)
    ensures OptionalText(rt, c, field, limit).Ok? ==> ShortText(OptionalText(rt, c, field, limit).value, limit)
    ensures RequiredText(rt, c, field, limit).Ok? ==> |RequiredText(rt, c, field, limit).value| <= limit
  {
  }

  lemma RowsToCreateWithin(call: Call, run: Run, c: PlanChange, target: Target)
    requires IsProject(run.db.rows, target.project)
    ensures TaskToCreate(call, run, c, target).Ok? ==> WithinLimits(TaskToCreate(call, run, c, target).value)
    ensures GoalToCreate(call, c, target.project).Ok? ==> WithinLimits(GoalToCreate(call, c, target.project).value)
    ensures NoteToCreate(call, c, target.project).Ok? ==> WithinLimits(NoteToCreate(call, c, target.project).value)
  {
    hide RequiredText, OptionalText, ReadDate, ReadOwner, TaskGoal;
    TextWithin(call.rt, c, "title", 300);
    TextWithin(call.rt, c, "title", 200);
    TextWithin(call.rt, c, "definition_of_done", 4000);
    TextWithin(call.rt, c, "decided", 4000);
    TextWithin(call.rt, c, "why", 4000);
  }

  lemma ProjectWithin(call: Call, c: PlanChange)
    ensures ProjectToCreate(call, c).Ok? ==> WithinLimits(ProjectToCreate(call, c).value)
  {
    hide RequiredText, OptionalText;
    TextWithin(call.rt, c, "name", 120);
    TextWithin(call.rt, c, "why", 2000);
    TextWithin(call.rt, c, "context", 8000);
  }

  lemma CreateWithin(db: Db, row: Row, stamp: Stamp)
    requires AllWithin(db.rows) && WithinLimits(row) && Create(db, row, stamp).Ok?
    ensures AllWithin(Create(db, row, stamp).value.rows)
  {
  }

  lemma LinkWithin(db: Db, fromId: RowId, toRef: string, caption: Option<string>, todo: Option<string>, owner: string,
                   actor: string)
    requires AllWithin(db.rows) && ShortText(caption, 300) && ShortText(todo, 300)
    ensures AllWithin(Link(db, fromId, toRef, caption, todo, owner, actor).rows)
  {
  }

  lemma UpdateWithin(call: Call, run: Run, c: PlanChange, target: Target, task: RowId)
    requires AllWithin(run.db.rows) && IsTask(run.db.rows, task) && UpdateTask(call, run, c, target, task).Ok?
    ensures AllWithin(UpdateTask(call, run, c, target, task).value.db.rows)
  {
    hide RequiredText, ReadDate, ReadOwner;
    TextWithin(call.rt, c, "title", 300);
  }

  lemma AddsWithin(call: Call, run: Run, c: PlanChange, target: Target)
    requires AllWithin(run.db.rows) && IsProject(run.db.rows, target.project)
    ensures CreateTask(call, run, c, target).Ok? ==> AllWithin(CreateTask(call, run, c, target).value.db.rows)
    ensures CreateGoal(call, run, c, target).Ok? ==> AllWithin(CreateGoal(call, run, c, target).value.db.rows)
    ensures AddNote(call, run, c, target).Ok? ==> AllWithin(AddNote(call, run, c, target).value.db.rows)
    ensures LinkThread(call, run, c, target).Ok? ==> AllWithin(LinkThread(call, run, c, target).value.db.rows)
  {
    hide TaskToCreate, GoalToCreate, NoteToCreate, WithinLimits, AllWithin, OptionalText, Create, Link;
    RowsToCreateWithin(call, run, c, target);
    TextWithin(call.rt, c, "label", 300);
    if CreateTask(call, run, c, target).Ok? {
      var row := TaskToCreate(call, run, c, target).value;
      CreateWithin(run.db, row, StampOf(call));
      if HasConversation(call) {
        LinkWithin(Create(run.db, row, StampOf(call)).value, run.db.issued, call.thread.value, None,
                   Some(Cut(Str(Get(c, "todo_ref")), 300)), call.user, call.actor);
      }
    }
    if CreateGoal(call, run, c, target).Ok? {
      CreateWithin(run.db, GoalToCreate(call, c, target.project).value, StampOf(call));
    }
    if AddNote(call, run, c, target).Ok? {
      CreateWithin(run.db, NoteToCreate(call, c, target.project).value, StampOf(call));
    }
    if LinkThread(call, run, c, target).Ok? {
      LinkWithin(run.db, target.project, call.thread.value, OptionalText(call.rt, c, "label", 300).value, None,
                 call.user, call.actor);
    }
  }

  lemma CreateProjectWithin(call: Call, run: Run, c: PlanChange)
    requires AllWithin(run.db.rows) && CreateProject(call, run, c).Ok?
    ensures AllWithin(CreateProject(call, run, c).value.db.rows)
  {
    hide ProjectToCreate, WithinLimits, AllWithin, Create, Link;
    ProjectWithin(call, c);
    var row := ProjectToCreate(call, c).value;
    CreateWithin(run.db, row, StampOf(call));
    if HasConversation(call) {
      LinkWithin(Create(run.db, row, StampOf(call)).value, run.db.issued, call.thread.value,
                 Some("The chat it was captured in"), None, call.user, call.actor);
    }
  }

  lemma StepWithin(call: Call, run: Run, c: PlanChange)
    requires AllWithin(run.db.rows) && Step(call, run, c).Ok?
    ensures AllWithin(Step(call, run, c).value.db.rows)
  {
    hide AllWithin, ResolveTarget, UpdatedTaskOf, CreateProject, CreateGoal, CreateTask, AddNote, LinkThread,
         UpdateTask;
    if c.op == "create_project" {
      CreateProjectWithin(call, run, c);
      return;
    }
    var (target, task) := TargetAt(call, run, c);
    if c.op == "update_task" {
      UpdateWithin(call, run, c, target, task.value);
    } else {
      AddsWithin(call, run, c, target);
    }
  }

  lemma {:induction false} StepsWithin(call: Call, run: Run, changes: seq<PlanChange>)
    requires AllWithin(run.db.rows) && Steps(call, run, changes).Ok?
    ensures AllWithin(Steps(call, run, changes).value.db.rows)
    decreases |changes|
  {
    hide AllWithin, Step;
    if changes != [] {
      StepWithin(call, run, changes[0]);
      StepsWithin(call, Step(call, run, changes[0]).value, changes[1..]);
    }
  }

  /** Plans and batches of plans keep every row within the contract. */
  lemma {:induction false} PlansKeepLimits(call: Call, db: Db, cards: seq<(seq<PlanChange>, Option<string>)>)
    requires AllWithin(db.rows) && ApplyCards(call, db, cards).Ok?
    ensures AllWithin(ApplyCards(call, db, cards).value.rows)
    decreases |cards|
  {
    hide AllWithin, Steps;
    if cards != [] {
      var caller := call.(thread := cards[0].1);
      StepsWithin(caller, Start(db), cards[0].0);
      PlansKeepLimits(call, ApplyIn(caller, db, cards[0].0).value.db, cards[1..]);
    }
  }
}
