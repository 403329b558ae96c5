/**
 What a confirmation card leaves out of what it confirms (backend/app/ledger/service.py:
 `render` beside `_apply_in`).

 Main result (`SameStoredIff`): two accepted changes of one kind that agree in every
 argument their line is made of store the same, wherever they are applied, exactly when
 the arguments it is not made of (`Hidden`) read alike; a plan stores nothing else it says
 (`PlansSame`). Of goals, updates and notes nothing is hidden; of the others each argument
 can be stored and shown nowhere (`ProjectUnshown` and `TaskUnshown` in LedgerCard,
 `LabelUnshown`, `TodoUnshown`).
*/
module LedgerCardStores {
  import opened TextTrim
  import opened Wrappers
  import opened LedgerText
  import opened LedgerStore
  import opened LedgerApply
  import opened LedgerPins
  import opened LedgerFields
  import opened LedgerReport
  import opened LedgerCard

  /** The arguments that are stored and that no line shows. */
  function Hidden(op: string): set<string> {
    match op
    case "create_project" => {"status", "context"}
    case "create_task" => {"status", "todo_ref"}
    case "link_thread" => {"label"}
    case _ => {}
  }

  /** The same kind of change, under the same pin, with the same arguments of these names. */
  predicate AgreeOn(a: PlanChange, b: PlanChange, fields: set<string>) {
    && a.op == b.op && a.pin == b.pin
    && forall field <- fields :: (field in a.args <==> field in b.args) && Get(a, field) == Get(b, field)
  }

  function TextRead(rt: Runtime, c: PlanChange, field: string): Option<string> {
    if Blank(Get(c, field)) then None else Some(Quoted(rt, c, field))
  }

  function StatusRead(c: PlanChange, default: string): string {
    if Truthy(Get(c, "status")) then Str(Get(c, "status")) else default
  }

  function TodoRead(c: PlanChange): Option<string> {
    if Truthy(Get(c, "todo_ref")) then Some(Cut(Str(Get(c, "todo_ref")), 300)) else None
  }

  /** A row is not linked to this conversation yet. */
  predicate WouldLink(call: Call, db: Db, id: RowId) {
    HasConversation(call) && !Linked(db, id, call.thread.value)
  }

  /** The hidden arguments of two changes read alike. A todo counts only where there is a
      conversation to link it to, a label only where the project is not linked to it yet. */
  predicate HiddenAlike(call: Call, db: Db, project: RowId, a: PlanChange, b: PlanChange) {
    match a.op
    case "create_project" =>
      StatusRead(a, "active") == StatusRead(b, "active")
          && TextRead(call.rt, a, "context") == TextRead(call.rt, b, "context")
    case "create_task" =>
      StatusRead(a, "todo") == StatusRead(b, "todo") && (WouldLink(call, db, db.issued) ==> TodoRead(a) == TodoRead(b))
    case "link_thread" => WouldLink(call, db, project) ==>
        TextRead(call.rt, a, "label") == TextRead(call.rt, b, "label")
    case _ => true
  }

  lemma ReadersAgree(rt: Runtime, a: PlanChange, b: PlanChange, field: string, limit: nat)
    requires AgreeOn(a, b, {field})
    ensures OptionalText(rt, a, field, limit) == OptionalText(rt, b, field, limit)
    ensures RequiredText(rt, a, field, limit) == RequiredText(rt, b, field, limit)
    ensures ReadDate(rt, a, field) == ReadDate(rt, b, field)
    ensures ReadOwner(rt, Get(a, field)) == ReadOwner(rt, Get(b, field))
  {
    assert Get(a, field) == Get(b, field);
  }

  lemma AgreeOnOne(a: PlanChange, b: PlanChange, fields: set<string>, field: string)
    requires AgreeOn(a, b, fields) && field in fields
    ensures AgreeOn(a, b, {field})
  {
  }

  // ----- the rows two changes create -----

  lemma ProjectRows(call: Call, a: PlanChange, b: PlanChange)
    requires a.op == "create_project" && AgreeOn(a, b, Shown(a.op))
    requires ProjectToCreate(call, a).Ok? && ProjectToCreate(call, b).Ok?
    ensures ProjectToCreate(call, a) == ProjectToCreate(call, b)
            <==> && StatusRead(a, "active") == StatusRead(b, "active")
                 && TextRead(call.rt, a, "context") == TextRead(call.rt, b, "context")
  {
    hide RequiredText;
    ReadersAgree(call.rt, a, b, "name", 120);
    ReadersAgree(call.rt, a, b, "why", 2000);
  }

  lemma TaskRows(call: Call, run: Run, a: PlanChange, b: PlanChange, target: Target)
    requires a.op == "create_task" && AgreeOn(a, b, Shown(a.op)) && IsProject(run.db.rows, target.project)
    requires TaskToCreate(call, run, a, target).Ok? && TaskToCreate(call, run, b, target).Ok?
    ensures TaskToCreate(call, run, a, target) == TaskToCreate(call, run, b, target)
            <==> StatusRead(a, "todo") == StatusRead(b, "todo")
  {
    ReadersAgree(call.rt, a, b, "title", 300);
    ReadersAgree(call.rt, a, b, "due_date", 0);
    ReadersAgree(call.rt, a, b, "owner", 0);
    AgreeOnOne(a, b, Shown(a.op), "goal");
    assert TaskGoal(call, run, a, target) == TaskGoal(call, run, b, target) by {
      assert Get(a, "goal") == Get(b, "goal");
    }
    hide RequiredText, ReadDate, ReadOwner, TaskGoal;
  }

  // ----- the store after them -----

  lemma LinksSameIff(db: Db, x: Option<Row>, y: Option<Row>, id: RowId, toRef: string, owner: string, actor: string)
    requires IdsDrawn(db)
    requires forall link | link in {x, y} && link.Some? ::
               link.value.LinkRow? && link.value.fromId == id && link.value.toRef == toRef && link.value.version == 1
    ensures WithLink(db, x, owner, actor) == WithLink(db, y, owner, actor) <==> x == y || Linked(db, id, toRef)
  {
    assert x in {x, y} && y in {x, y};
    if !Linked(db, id, toRef) && x != y {
      var dx, dy := WithLink(db, x, owner, actor), WithLink(db, y, owner, actor);
      assert x.Some? ==> dx.rows[db.issued] == x.value;
      assert y.Some? ==> dy.rows[db.issued] == y.value;
      assert db.issued !in db.rows;
    }
  }

  lemma CreatedLinks(db: Db, row: Row, stamp: Stamp, id: RowId, toRef: string)
    requires IdsDrawn(db) && Create(db, row, stamp).Ok? && !row.LinkRow?
    ensures var mid := Create(db, row, stamp).value;
            IdsDrawn(mid) && (Linked(mid, id, toRef) <==> Linked(db, id, toRef))
  {
    var mid := Create(db, row, stamp).value;
    forall i <- db.rows | db.rows[i].LinkRow? ensures i in mid.rows && mid.rows[i] == db.rows[i] {}
    forall i <- mid.rows | mid.rows[i].LinkRow? ensures i in db.rows && mid.rows[i] == db.rows[i] {}
  }

  /** Two rows created, each perhaps with a link from it. */
  lemma CreatesSameIff(db: Db, r: Row, q: Row, stamp: Stamp, x: Option<Row>, y: Option<Row>, toRef: string,
                       owner: string,
                       actor: string)
    requires Valid(db) && Create(db, r, stamp).Ok? && Create(db, q, stamp).Ok? && !r.LinkRow? && !q.LinkRow?
    requires r.TaskRow? && IsProject(db.rows, r.project) ==> r.number == db.rows[r.project].nextTask
    requires q.TaskRow? && IsProject(db.rows, q.project) ==> q.number == db.rows[q.project].nextTask
    requires forall link | link in {x, y} && link.Some? ::
               link.value.LinkRow? && link.value.fromId == db.issued && link.value.toRef == toRef
                   && link.value.version == 1
    ensures WithLink(Create(db, r, stamp).value, x, owner, actor)
            == WithLink(Create(db, q, stamp).value, y, owner, actor)
            <==> r == q && (x == y || Linked(db, db.issued, toRef))
  {
    assert x in {x, y} && y in {x, y};
    CreateStores(db, r, stamp, x, owner, actor, WithLink(Create(db, r, stamp).value, x, owner, actor));
    CreateStores(db, q, stamp, y, owner, actor, WithLink(Create(db, q, stamp).value, y, owner, actor));
    CreatedLinks(db, r, stamp, db.issued, toRef);
    hide Create, WithLink, OthersStay, LinksMade, Valid;
    LinksSameIff(Create(db, r, stamp).value, x, y, db.issued, toRef, owner, actor);
  }

  // ----- each kind -----

  lemma ProjectSameIff(call: Call, run: Run, a: PlanChange, b: PlanChange)
    requires a.op == "create_project" && AgreeOn(a, b, Shown(a.op)) && Valid(run.db)
    requires CreateProject(call, run, a).Ok? && CreateProject(call, run, b).Ok?
    ensures CreateProject(call, run, a).value.db == CreateProject(call, run, b).value.db
            <==> HiddenAlike(call, run.db, 0, a, b)
    ensures HiddenAlike(call, run.db, 0, a, b) && AgreeOn(a, b, {"ref"}) ==>
              CreateProject(call, run, a) == CreateProject(call, run, b)
  {
    ProjectRows(call, a, b);
    assert AgreeOn(a, b, {"ref"}) ==> Get(a, "ref") == Get(b, "ref");
    hide ProjectToCreate, Valid, Create, Link, AgreeOn, StatusRead, TextRead;
    var r, q := ProjectToCreate(call, a).value, ProjectToCreate(call, b).value;
    var toRef := if HasConversation(call) then call.thread.value else "";
    var link := if !HasConversation(call) then None
                else Some(LinkRow(run.db.issued, toRef, Some("The chat it was captured in"), None, 1));
    CreatesSameIff(run.db, r, q, StampOf(call), link, link, toRef, call.user, call.actor);
  }

  /** The link a new task gets. */
  function TodoLink(call: Call, id: RowId, c: PlanChange): Option<Row> {
    if !HasConversation(call) || TodoRead(c).None? then None
    else Some(LinkRow(id, call.thread.value, None, TodoRead(c), 1))
  }

  lemma TaskLinked(call: Call, run: Run, c: PlanChange, target: Target)
    requires IsProject(run.db.rows, target.project) && CreateTask(call, run, c, target).Ok?
    ensures TaskToCreate(call, run, c, target).Ok?
            && Create(run.db, TaskToCreate(call, run, c, target).value, StampOf(call)).Ok?
    ensures var row := TaskToCreate(call, run, c, target).value;
            && row.TaskRow? && row.project == target.project && row.number == run.db.rows[target.project].nextTask
            && CreateTask(call, run, c, target).value
               == run.(db := WithLink(Create(run.db, row, StampOf(call)).value, TodoLink(call, run.db.issued, c),
                                      call.user, call.actor),
                       created := run.created + {run.db.issued},
                       done := run.done + [AddedTask(row.number, row.title, target.named)])
  {
    hide Create, Link, ReadStatus, RequiredText, ReadDate, ReadOwner, TaskGoal;
  }

  lemma TaskSameIff(call: Call, run: Run, a: PlanChange, b: PlanChange, target: Target)
    requires a.op == "create_task" && AgreeOn(a, b, Shown(a.op)) && Valid(run.db)
             && IsProject(run.db.rows, target.project)
    requires CreateTask(call, run, a, target).Ok? && CreateTask(call, run, b, target).Ok?
    ensures CreateTask(call, run, a, target).value.db == CreateTask(call, run, b, target).value.db
            <==> HiddenAlike(call, run.db, target.project, a, b)
    ensures HiddenAlike(call, run.db, target.project, a, b) ==>
              CreateTask(call, run, a, target) == CreateTask(call, run, b, target)
  {
    TaskLinked(call, run, a, target);
    TaskLinked(call, run, b, target);
    TaskRows(call, run, a, b, target);
    hide TaskToCreate, CreateTask, Valid, Create, Link, Linked, AgreeOn, StatusRead, TodoRead, WithLink;
    var r, q := TaskToCreate(call, run, a, target).value, TaskToCreate(call, run, b, target).value;
    var x, y := TodoLink(call, run.db.issued, a), TodoLink(call, run.db.issued, b);
    var toRef := if HasConversation(call) then call.thread.value else "";
    assert HasConversation(call) ==> (x == y <==> TodoRead(a) == TodoRead(b));
    CreatesSameIff(run.db, r, q, StampOf(call), x, y, toRef, call.user, call.actor);
  }

  lemma LinkSameIff(call: Call, run: Run, a: PlanChange, b: PlanChange, target: Target)
    requires a.op == "link_thread" && AgreeOn(a, b, Shown(a.op)) && Valid(run.db)
    requires LinkThread(call, run, a, target).Ok? && LinkThread(call, run, b, target).Ok?
    ensures LinkThread(call, run, a, target).value.db == LinkThread(call, run, b, target).value.db
            <==> HiddenAlike(call, run.db, target.project, a, b)
    ensures HiddenAlike(call, run.db, target.project, a, b) ==>
              LinkThread(call, run, a, target) == LinkThread(call, run, b, target)
  {
    var x := LinkRow(target.project, call.thread.value, TextRead(call.rt, a, "label"), None, 1);
    var y := LinkRow(target.project, call.thread.value, TextRead(call.rt, b, "label"), None, 1);
    assert LinkThread(call, run, a, target).value.db == WithLink(run.db, Some(x), call.user, call.actor);
    assert LinkThread(call, run, b, target).value.db == WithLink(run.db, Some(y), call.user, call.actor);
    LinksSameIff(run.db, Some(x), Some(y), target.project, call.thread.value, call.user, call.actor);
  }

  lemma GoalSame(call: Call, run: Run, a: PlanChange, b: PlanChange, target: Target)
    requires a.op == "create_goal" && AgreeOn(a, b, Shown(a.op))
    requires CreateGoal(call, run, a, target).Ok? && CreateGoal(call, run, b, target).Ok?
    ensures CreateGoal(call, run, a, target).value.db == CreateGoal(call, run, b, target).value.db
    ensures AgreeOn(a, b, {"ref"}) ==> CreateGoal(call, run, a, target) == CreateGoal(call, run, b, target)
  {
    ReadersAgree(call.rt, a, b, "title", 200);
    ReadersAgree(call.rt, a, b, "definition_of_done", 4000);
    ReadersAgree(call.rt, a, b, "target_date", 0);
    assert AgreeOn(a, b, {"ref"}) ==> Get(a, "ref") == Get(b, "ref");
    hide RequiredText, ReadDate, Create, AgreeOn;
  }

  lemma NoteSame(call: Call, run: Run, a: PlanChange, b: PlanChange, target: Target)
    requires a.op == "add_note" && AgreeOn(a, b, Shown(a.op))
    ensures AddNote(call, run, a, target) == AddNote(call, run, b, target)
  {
    ReadersAgree(call.rt, a, b, "decided", 4000);
    ReadersAgree(call.rt, a, b, "why", 4000);
    hide RequiredText, OptionalText, Create, AgreeOn;
  }

  lemma TaskFieldsSame(rt: Runtime, a: PlanChange, b: PlanChange)
    requires a.op == "update_task" && AgreeOn(a, b, Shown(a.op))
    ensures ReadTaskFields(rt, a) == ReadTaskFields(rt, b)
  {
    ReadersAgree(rt, a, b, "title", 300);
    ReadersAgree(rt, a, b, "due_date", 0);
    ReadersAgree(rt, a, b, "owner", 0);
    assert "title" in Shown(a.op) && "status" in Shown(a.op) && "due_date" in Shown(a.op) && "owner" in Shown(a.op);
    hide RequiredText, ReadDate, ReadOwner, Shown;
  }

  lemma UpdateSame(call: Call, run: Run, a: PlanChange, b: PlanChange, target: Target, task: RowId)
    requires a.op == "update_task" && AgreeOn(a, b, Shown(a.op)) && IsTask(run.db.rows, task)
    ensures UpdateTask(call, run, a, target, task) == UpdateTask(call, run, b, target, task)
  {
    hide ReadTaskFields, Update, AgreeOn, Shown;
    TaskFieldsSame(call.rt, a, b);
  }

  lemma TargetSame(call: Call, run: Run, a: PlanChange, b: PlanChange)
    requires a.op in OPS && a.op != "create_project" && AgreeOn(a, b, Shown(a.op))
    ensures ResolveTarget(call, run, a) == ResolveTarget(call, run, b)
    ensures Get(a, "project") == Get(b, "project") && (a.op == "update_task" ==> Get(a, "task") == Get(b, "task"))
  {
    assert "project" in Shown(a.op);
    assert a.op == "update_task" ==> "task" in Shown(a.op);
    hide ResolveProject, ResolveTaskAnywhere, PinnedTask, PinnedProject, OwnedProjects, AsNamed;
  }

  // ----- a step -----

  /** The project a step acts on; a new project has none. */
  ghost function ProjectOf(call: Call, run: Run, c: PlanChange): RowId
    requires Step(call, run, c).Ok?
  {
    if c.op == "create_project" then 0 else TargetAt(call, run, c).0.project
  }

  /** Two accepted changes of one kind that agree in every argument their line is made of
      store the same exactly when their hidden arguments read alike; and then, with the
      same ref, the rest of the plan meets the same. */
  lemma SameStoredIff(call: Call, run: Run, a: PlanChange, b: PlanChange)
    requires Valid(run.db) && a.op in OPS && AgreeOn(a, b, Shown(a.op))
    requires Step(call, run, a).Ok? && Step(call, run, b).Ok?
    ensures var alike := HiddenAlike(call, run.db, ProjectOf(call, run, a), a, b);
            && (Step(call, run, a).value.db == Step(call, run, b).value.db <==> alike)
            && (alike && AgreeOn(a, b, {"ref"}) ==> Step(call, run, a) == Step(call, run, b))
  {
    hide AgreeOn, HiddenAlike, ResolveTarget, UpdatedTaskOf, CreateProject, CreateGoal, CreateTask, AddNote, LinkThread,
         UpdateTask;
    SameOp(a, b, Shown(a.op));
    NothingHidden(call, run.db, ProjectOf(call, run, a), a, b);
    if a.op == "create_project" {
      ProjectSameIff(call, run, a, b);
      return;
    }
    TargetSame(call, run, a, b);
    var (target, task) := TargetAt(call, run, a);
    match a.op
    case "update_task" =>
      TaskOfSame(call, run, a, b, target);
      UpdateSame(call, run, a, b, target, task.value);
    case "create_task" => TaskSameIff(call, run, a, b, target);
    case "create_goal" => GoalSame(call, run, a, b, target);
    case "add_note" => NoteSame(call, run, a, b, target);
    case _ => LinkSameIff(call, run, a, b, target);
  }

  lemma NothingHidden(call: Call, db: Db, project: RowId, a: PlanChange, b: PlanChange)
    ensures Hidden(a.op) == {} ==> HiddenAlike(call, db, project, a, b)
  {
    assert "status" in Hidden("create_project") && "status" in Hidden("create_task")
           && "label" in Hidden("link_thread");
  }

  lemma SameOp(a: PlanChange, b: PlanChange, fields: set<string>)
    requires AgreeOn(a, b, fields)
    ensures a.op == b.op && a.pin == b.pin
  {
  }

  lemma TaskOfSame(call: Call, run: Run, a: PlanChange, b: PlanChange, target: Target)
    requires Get(a, "task") == Get(b, "task") && a.pin == b.pin
    requires target.task.Some? ==>
               IsTask(run.db.rows, target.task.value) && run.db.rows[target.task.value].project == target.project
    ensures UpdatedTaskOf(call, run, a, target) == UpdatedTaskOf(call, run, b, target)
  {
    hide ResolveTask;
  }

  // ----- a plan -----

  /** Two plans that agree, change by change, in what their lines are made of, in what is
      hidden and in the refs. */
  predicate PlansAgree(p: seq<PlanChange>, q: seq<PlanChange>) {
    |p| == |q| && forall i | 0 <= i < |p| :: AgreeOn(p[i], q[i], Shown(p[i].op) + Hidden(p[i].op) + {"ref"})
  }

  lemma AgreementReadsAlike(call: Call, db: Db, project: RowId, a: PlanChange, b: PlanChange)
    requires AgreeOn(a, b, Shown(a.op) + Hidden(a.op) + {"ref"})
    ensures AgreeOn(a, b, Shown(a.op)) && AgreeOn(a, b, {"ref"}) && HiddenAlike(call, db, project, a, b)
  {
    forall field <- Hidden(a.op) ensures Get(a, field) == Get(b, field) {
      assert field in Shown(a.op) + Hidden(a.op) + {"ref"};
    }
    NothingHidden(call, db, project, a, b);
    assert a.op == "create_project" ==> "status" in Hidden(a.op) && "context" in Hidden(a.op);
    assert a.op == "create_task" ==> "status" in Hidden(a.op) && "todo_ref" in Hidden(a.op);
    assert a.op == "link_thread" ==> "label" in Hidden(a.op);
  }

  lemma {:induction false} StepsSame(base: nat, call: Call, run: Run, p: seq<PlanChange>, q: seq<PlanChange>)
    requires RunInv(base, call.user, run) && PlansAgree(p, q) && forall c <- p :: c.op in OPS
    requires Steps(call, run, p).Ok? && Steps(call, run, q).Ok?
    ensures Steps(call, run, p) == Steps(call, run, q)
    decreases |p|
  {
    if p != [] {
      hide AgreeOn, HiddenAlike, Step, Shown, Hidden;
      assert Valid(run.db);
      hide RunInv;
      AgreementReadsAlike(call, run.db, ProjectOf(call, run, p[0]), p[0], q[0]);
      SameStoredIff(call, run, p[0], q[0]);
      ProposedStep(base, call, run, p[0]);
      StepsSame(base, call, Step(call, run, p[0]).value, p[1..], q[1..]);
    }
  }

  /** Nothing else a plan says is stored: two accepted plans that so agree do the same. */
  lemma PlansSame(call: Call, db: Db, p: seq<PlanChange>, q: seq<PlanChange>)
    requires Valid(db) && PlansAgree(p, q) && ApplyIn(call, db, p).Ok? && ApplyIn(call, db, q).Ok?
    ensures ApplyIn(call, db, p) == ApplyIn(call, db, q)
  {
    hide RunInv, PlansAgree, KnownOps, Steps;
    StartInv(call.user, db);
    KnownOpsPinned(p, PinsOf(p));
    StepsSame(db.issued, call, Start(db), p, q);
  }

  // ----- what is stored and shown nowhere -----

  /** A link's label is stored as given, and the line of its change is the same whatever it is. */
  lemma LabelUnshown(d: Display, names: PlanNames, call: Call, run: Run, c: PlanChange, target: Target, stored: bool,
                     caption: string)
    requires c.op == "link_thread" && WouldLink(call, run.db, target.project)
    requires caption != "" && |Strip(call.rt.isSpace, caption)| <= 300
    ensures var said := With(c, "label", Text(caption));
            && LineFor(d, Renamed(names, said), stored) == LineFor(d, Renamed(names, c), stored)
            && LinkThread(call, run, said, target).Ok?
            && var rows := LinkThread(call, run, said, target).value.db.rows;
               run.db.issued in rows
               && rows[run.db.issued] == LinkRow(target.project, call.thread.value,
                                                 Some(Strip(call.rt.isSpace, caption)), None, 1)
  {
    hide Renamed, LineFor;
    NotShownIsUnsaid(d, c.op, "label");
  }

  lemma TodoElsewhere(call: Call, run: Run, c: PlanChange, target: Target, todo: string)
    requires c.op == "create_task" && IsProject(run.db.rows, target.project)
    ensures TaskToCreate(call, run, With(c, "todo_ref", Text(todo)), target) == TaskToCreate(call, run, c, target)
  {
    ReadElsewhere(call.rt, c, "todo_ref", Text(todo), "title", 300);
    hide RequiredText, ResolveGoal, ReadOwner, OptionalText;
    var said := With(c, "todo_ref", Text(todo));
    assert TaskGoal(call, run, said, target) == TaskGoal(call, run, c, target);
    assert ReadDate(call.rt, said, "due_date") == ReadDate(call.rt, c, "due_date");
    hide TaskGoal, ReadDate;
  }

  /** Nor does a task's line say which todo it was, which its link stores. */
  lemma TodoUnshown(d: Display, names: PlanNames, call: Call, run: Run, c: PlanChange, target: Target, stored: bool,
                    todo: string)
    requires c.op == "create_task" && Valid(run.db) && IsProject(run.db.rows, target.project)
             && WouldLink(call, run.db, run.db.issued)
    requires CreateTask(call, run, c, target).Ok? && todo != ""
    ensures var said := With(c, "todo_ref", Text(todo));
            && LineFor(d, Renamed(names, said), stored) == LineFor(d, Renamed(names, c), stored)
            && CreateTask(call, run, said, target).Ok?
            && LinksMade(run.db, CreateTask(call, run, said, target).value.db,
                         Some(LinkRow(run.db.issued, call.thread.value, None, Some(Cut(todo, 300)), 1)))
  {
    hide Renamed, LineFor;
    NotShownIsUnsaid(d, c.op, "todo_ref");
    TodoElsewhere(call, run, c, target, todo);
    hide TaskToCreate, OthersStay, LinksMade, Link, Valid;
    var said, row := With(c, "todo_ref", Text(todo)), TaskToCreate(call, run, c, target).value;
    TaskLinked(call, run, c, target);
    TaskLinked(call, run, said, target);
    CreateStores(run.db, row, StampOf(call), TodoLink(call, run.db.issued, said), call.user, call.actor,
                 CreateTask(call, run, said, target).value.db);
  }

  /** A reason given as 0, false or an empty list is read as its text and shown nowhere. */
  lemma FalsyWhyUnshown(d: Display, names: PlanNames, rt: Runtime, c: PlanChange, stored: bool, shown: string)
    requires c.op in {"create_project", "add_note"} && |Strip(rt.isSpace, shown)| <= 2000
    ensures var none, falsy := With(c, "why", Null), With(c, "why", Other(shown, false, None, None));
            && LineFor(d, Renamed(names, falsy), stored) == LineFor(d, Renamed(names, none), stored)
            && OptionalText(rt, none, "why", 2000) == Ok(None)
            && OptionalText(rt, falsy, "why", 2000) == Ok(Some(Strip(rt.isSpace, shown)))
  {
    var none, falsy := With(c, "why", Null), With(c, "why", Other(shown, false, None, None));
    RenamedWith(names, c, "why", Null);
    RenamedWith(names, c, "why", Other(shown, false, None, None));
    hide Quote;
  }

  /** Two refs of one plan under one name look alike on every line. */
  lemma RefsLookAlike(d: Display, names: PlanNames, c: PlanChange, x: Arg, y: Arg, stored: bool)
    requires Str(x) in names && Str(y) in names && names[Str(x)] == names[Str(y)]
    ensures LineFor(d, Renamed(names, With(c, "project", x)), stored)
            == LineFor(d, Renamed(names, With(c, "project", y)), stored)
  {
    hide LineFor, Quote;
    assert Renamed(names, With(c, "project", x)).args == Renamed(names, With(c, "project", y)).args;
  }
}
