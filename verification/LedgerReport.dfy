/**
 What the ledger says back (backend/app/ledger/service.py): the report of an applied
 plan and the words of a refusal.

 Main results: a report is a function of the plan and of the ids and numbers it resolved,
 whatever the stored names and titles are (`ReportIsTheCalls`); and a refusal quotes
 nothing but the plan's own words (`RefusalQuotesTheCall`).
*/
module LedgerReport {
  import opened TextTrim
  import opened Wrappers
  import opened LedgerText
  import opened LedgerStore
  import opened LedgerApply
  import opened LedgerPins

  // ----- the report -----

  /** What a step resolved: its project's id, and the number of its task. */
  datatype Resolved = Resolved(project: RowId, number: nat)

  /** What each step of a plan resolves, in the ledger it runs on. */
  ghost function Trace(call: Call, run: Run, changes: seq<PlanChange>): seq<Resolved>
    requires Steps(call, run, changes).Ok?
    decreases |changes|
  {
    if changes == [] then []
    else [ResolvedAt(call, run, changes[0])] + Trace(call, Step(call, run, changes[0]).value, changes[1..])
  }

  ghost function ResolvedAt(call: Call, run: Run, c: PlanChange): Resolved
    requires Step(call, run, c).Ok?
  {
    if c.op == "create_project" then Resolved(0, 0)
    else
      var (target, task) := TargetAt(call, run, c);
      if task.Some? then Resolved(target.project, run.db.rows[task.value].number)
      else if c.op == "create_task" then Resolved(target.project, run.db.rows[target.project].nextTask)
      else Resolved(target.project, 0)
  }

  /** An argument as a report quotes it. */
  function Quoted(rt: Runtime, c: PlanChange, field: string): string {
    Strip(rt.isSpace, Str(Get(c, field)))
  }

  /** What a report calls a project: the name the plan itself gave it, the words the
      change used, or the id that was resolved. */
  function ProjectSaid(c: PlanChange, refNames: map<string, string>, at: Resolved): Named {
    if c.op == "update_task" && Blank(Get(c, "project")) && c.pin.taskId.None? && c.pin.projectId.Some?
    then AsNamed(Get(c, "project"), refNames)
    else if c.op == "update_task" && Blank(Get(c, "project")) then ById(at.project)
    else AsNamed(Get(c, "project"), refNames)
  }

  function LineSaid(rt: Runtime, c: PlanChange, refNames: map<string, string>, at: Resolved): Line {
    var to := ProjectSaid(c, refNames, at);
    match c.op
    case "create_project" => CreatedProject(Quoted(rt, c, "name"))
    case "create_goal" => AddedGoal(Quoted(rt, c, "title"), to)
    case "create_task" => AddedTask(at.number, Quoted(rt, c, "title"), to)
    case "update_task" => UpdatedTask(at.number, to)
    case "add_note" => RecordedDecision(to)
    case _ => AttachedConversation(to)
  }

  function NamesAfter(rt: Runtime, c: PlanChange, refNames: map<string, string>): map<string, string> {
    if c.op == "create_project" && Truthy(Get(c, "ref")) then refNames[Str(Get(c, "ref")) := Quoted(rt, c, "name")]
      else refNames
  }

  /** The report, said from the plan and what it resolved alone. */
  function Said(rt: Runtime, changes: seq<PlanChange>, refNames: map<string, string>, trace: seq<Resolved>): seq<Line>
    requires |trace| == |changes|
    decreases |changes|
  {
    if changes == [] then []
    else
      [LineSaid(rt, changes[0], refNames, trace[0])]
      + Said(rt, changes[1..], NamesAfter(rt, changes[0], refNames), trace[1..])
  }

  lemma TextIsQuoted(rt: Runtime, c: PlanChange, field: string, limit: nat)
    ensures RequiredText(rt, c, field, limit).Ok? ==> RequiredText(rt, c, field, limit).value == Quoted(rt, c, field)
  {
  }

  lemma TargetIsSaid(call: Call, run: Run, c: PlanChange)
    requires c.op != "create_project" && ResolveTarget(call, run, c).Ok?
    ensures var target := ResolveTarget(call, run, c).value;
            target.named == ProjectSaid(c, run.refNames, Resolved(target.project, 0))
  {
  }

  lemma CreateProjectSaid(call: Call, run: Run, c: PlanChange)
    requires c.op == "create_project" && CreateProject(call, run, c).Ok?
    ensures var next := CreateProject(call, run, c).value;
            next.done == run.done + [CreatedProject(Quoted(call.rt, c, "name"))]
            && next.refNames == NamesAfter(call.rt, c, run.refNames)
  {
    hide Create, Link, RequiredText, OptionalText, Quoted;
    TextIsQuoted(call.rt, c, "name", 120);
  }

  lemma CreateGoalSaid(call: Call, run: Run, c: PlanChange, target: Target)
    requires CreateGoal(call, run, c, target).Ok?
    ensures var next := CreateGoal(call, run, c, target).value;
            next.done == run.done + [AddedGoal(Quoted(call.rt, c, "title"), target.named)]
                && next.refNames == run.refNames
  {
    hide Create, RequiredText, ReadDate, Quoted;
    TextIsQuoted(call.rt, c, "title", 200);
  }

  lemma CreateTaskSaid(call: Call, run: Run, c: PlanChange, target: Target)
    requires IsProject(run.db.rows, target.project) && CreateTask(call, run, c, target).Ok?
    ensures var next := CreateTask(call, run, c, target).value;
            && next.done == run.done + [AddedTask(run.db.rows[target.project].nextTask, Quoted(call.rt, c, "title"),
                                                  target.named)]
            && next.refNames == run.refNames
  {
    hide Create, Link, RequiredText, ReadDate, ReadOwner, TaskGoal, ReadStatus, Quoted;
    TextIsQuoted(call.rt, c, "title", 300);
  }

  lemma OthersSaid(call: Call, run: Run, c: PlanChange, target: Target)
    ensures AddNote(call, run, c, target).Ok? ==>
              var next := AddNote(call, run, c, target).value;
              next.done == run.done + [RecordedDecision(target.named)] && next.refNames == run.refNames
    ensures LinkThread(call, run, c, target).Ok? ==>
              var next := LinkThread(call, run, c, target).value;
              next.done == run.done + [AttachedConversation(target.named)] && next.refNames == run.refNames
  {
    hide Create, Link, RequiredText, OptionalText;
  }

  lemma UpdateTaskSaid(call: Call, run: Run, c: PlanChange, target: Target, task: RowId)
    requires IsTask(run.db.rows, task) && UpdateTask(call, run, c, target, task).Ok?
    ensures var next := UpdateTask(call, run, c, target, task).value;
            next.done == run.done + [UpdatedTask(run.db.rows[task].number, target.named)]
                && next.refNames == run.refNames
  {
    hide Update, ReadTaskFields;
  }

  /** The line a step adds to the report. */
  lemma StepIsSaid(call: Call, run: Run, c: PlanChange)
    requires Step(call, run, c).Ok?
    ensures var next := Step(call, run, c).value;
            && next.done == run.done + [LineSaid(call.rt, c, run.refNames, ResolvedAt(call, run, c))]
            && next.refNames == NamesAfter(call.rt, c, run.refNames)
  {
    hide ResolveTarget, UpdatedTaskOf, CreateProject, CreateGoal, CreateTask, AddNote, LinkThread, UpdateTask, Quoted,
         ProjectSaid;
    if c.op == "create_project" {
      CreateProjectSaid(call, run, c);
    } else {
      var (target, task) := TargetAt(call, run, c);
      ProjectSaidAlike(c, run.refNames, Resolved(target.project, 0), ResolvedAt(call, run, c));
      TargetIsSaid(call, run, c);
      match c.op
      case "update_task" => UpdateTaskSaid(call, run, c, target, task.value);
      case "create_task" => CreateTaskSaid(call, run, c, target);
      case "create_goal" => CreateGoalSaid(call, run, c, target);
      case _ => OthersSaid(call, run, c, target);
    }
  }

  lemma ProjectSaidAlike(c: PlanChange, refNames: map<string, string>, a: Resolved, b: Resolved)
    requires a.project == b.project
    ensures ProjectSaid(c, refNames, a) == ProjectSaid(c, refNames, b)
  {
  }

  lemma NoSteps(call: Call, run: Run)
    ensures Steps(call, run, []) == Ok(run) && Trace(call, run, []) == [] && Said(call.rt, [], run.refNames, []) == []
  {
  }

  lemma FirstStep(call: Call, run: Run, changes: seq<PlanChange>)
    requires changes != [] && Steps(call, run, changes).Ok?
    ensures Step(call, run, changes[0]).Ok?
    ensures var next := Step(call, run, changes[0]).value;
            && Steps(call, run, changes) == Steps(call, next, changes[1..])
            && Trace(call, run, changes) == [ResolvedAt(call, run, changes[0])] + Trace(call, next, changes[1..])
  {
    hide Step, ResolvedAt;
  }

  lemma FirstSaid(rt: Runtime, changes: seq<PlanChange>, refNames: map<string, string>, at: Resolved,
                  rest: seq<Resolved>)
    requires changes != [] && |rest| == |changes| - 1
    ensures Said(rt, changes, refNames, [at] + rest)
            == [LineSaid(rt, changes[0], refNames, at)]
                + Said(rt, changes[1..], NamesAfter(rt, changes[0], refNames), rest)
  {
    hide LineSaid, NamesAfter;
    assert ([at] + rest)[1..] == rest;
  }

  lemma {:induction false} StepsAreSaid(call: Call, run: Run, changes: seq<PlanChange>)
    requires Steps(call, run, changes).Ok?
    ensures var trace := Trace(call, run, changes);
            |trace| == |changes|
            && Steps(call, run, changes).value.done == run.done + Said(call.rt, changes, run.refNames, trace)
    decreases |changes|
  {
    hide Step, Steps, Trace, Said, LineSaid, NamesAfter, ResolvedAt;
    if changes == [] {
      NoSteps(call, run);
      return;
    }
    FirstStep(call, run, changes);
    var c, next := changes[0], Step(call, run, changes[0]).value;
    StepIsSaid(call, run, c);
    StepsAreSaid(call, next, changes[1..]);
    FirstSaid(call.rt, changes, run.refNames, ResolvedAt(call, run, c), Trace(call, next, changes[1..]));
  }

  /** Two ledgers, however named their rows, that resolve a plan to the same ids and
      numbers give the same report of it, line by line. */
  lemma ReportIsTheCalls(a: Call, b: Call, dbA: Db, dbB: Db, changes: seq<PlanChange>)
    requires a.rt == b.rt && ApplyIn(a, dbA, changes).Ok? && ApplyIn(b, dbB, changes).Ok?
    requires Trace(a, Start(dbA), changes) == Trace(b, Start(dbB), changes)
    ensures ApplyIn(a, dbA, changes).value.done == ApplyIn(b, dbB, changes).value.done
    ensures |ApplyIn(a, dbA, changes).value.done| == |changes|
  {
    hide Trace;
    StepsAreSaid(a, Start(dbA), changes);
    StepsAreSaid(b, Start(dbB), changes);
    OneLineEach(a.rt, changes, map[], Trace(a, Start(dbA), changes));
  }

  lemma {:induction false} OneLineEach(rt: Runtime, changes: seq<PlanChange>, refNames: map<string, string>,
                                       trace: seq<Resolved>)
    requires |trace| == |changes|
    ensures |Said(rt, changes, refNames, trace)| == |changes|
    decreases |changes|
  {
    if changes != [] {
      OneLineEach(rt, changes[1..], NamesAfter(rt, changes[0], refNames), trace[1..]);
    }
  }

  // ----- refusals -----

  function NamedTexts(named: Named): set<string> {
    match named
    case AsCalled(text) => {text}
    case ById(_) => {}
  }

  /** The free text a refusal quotes; the rest of it is fixed words, numbers and ids, and,
      for an unknown kind, the whole change, its pin included. */
  function Quotes(e: LedgerError): set<string> {
    match e
    case BadStatus(_, value) => {value}
    case FieldRequired(op, _) => {op}
    case FieldTooLong(op, _, _) => {op}
    case BadDate(_, value) => {value}
    case BadOwner(value) => {value}
    case NoProjectCalled(key) => {key}
    case ManyProjectsCalled(key) => {key}
    case NoGoalCalled(project, key) => NamedTexts(project) + {key}
    case NoTaskCalled(project, key) => NamedTexts(project) + {key}
    case ManyTasksCalled(project, key, _) => NamedTexts(project) + {key}
    case NoTaskAnywhere(key) => {key}
    case ManyTasksAnywhere(key) => {key}
    case TaskNoLongerInPlan(key) => {key}
    case _ => {}
  }

  /** The words of one change: its kind, and its arguments as given, trimmed or not. */
  ghost predicate InChange(rt: Runtime, c: PlanChange, text: string) {
    text == c.op || exists field: string ::
          text == Str(Get(c, field)) || text == Quoted(rt, c, field) || text == TaskKey(rt, Get(c, field))
  }

  ghost predicate InPlan(rt: Runtime, plan: seq<PlanChange>, text: string) {
    exists c <- plan :: InChange(rt, c, text)
  }

  ghost predicate NamesInPlan(rt: Runtime, plan: seq<PlanChange>, refNames: map<string, string>) {
    forall key <- refNames :: InPlan(rt, plan, refNames[key])
  }

  ghost predicate QuotesPlan(rt: Runtime, plan: seq<PlanChange>, e: LedgerError) {
    && (forall text <- Quotes(e) :: InPlan(rt, plan, text))
    && (e.UnknownChange? ==> e.change in plan && e.change.op !in OPS)
  }

  lemma ArgumentInPlan(rt: Runtime, plan: seq<PlanChange>, c: PlanChange, field: string)
    requires c in plan
    ensures InPlan(rt, plan, c.op) && InPlan(rt, plan, Str(Get(c, field))) && InPlan(rt, plan, Quoted(rt, c, field))
    ensures InPlan(rt, plan, TaskKey(rt, Get(c, field)))
  {
    hide Get, Quoted, TaskKey;
    assert InChange(rt, c, c.op) && InChange(rt, c, Str(Get(c, field)));
    assert InChange(rt, c, Quoted(rt, c, field)) && InChange(rt, c, TaskKey(rt, Get(c, field)));
  }

  lemma NamedInPlan(rt: Runtime, plan: seq<PlanChange>, c: PlanChange, refNames: map<string, string>)
    requires c in plan && NamesInPlan(rt, plan, refNames)
    ensures forall text <- NamedTexts(AsNamed(Get(c, "project"), refNames)) :: InPlan(rt, plan, text)
  {
    hide InPlan;
    ArgumentInPlan(rt, plan, c, "project");
  }

  lemma ProjectLookupRefused(call: Call, run: Run, c: PlanChange, plan: seq<PlanChange>)
    requires c in plan
    ensures var r := ResolveProject(call.rt, call.names, run.db.rows, call.user, Get(c, "project"), run.refs);
            r.Err? ==> QuotesPlan(call.rt, plan, r.error)
  {
    hide InPlan, ProjectMatches, Direct, OwnedProjects;
    ArgumentInPlan(call.rt, plan, c, "project");
  }

  lemma AnywhereLookupRefused(call: Call, run: Run, c: PlanChange, plan: seq<PlanChange>)
    requires c in plan
    ensures var r := ResolveTaskAnywhere(call.rt, call.names, run.db.rows, call.user, Get(c, "task"));
            r.Err? ==> QuotesPlan(call.rt, plan, r.error)
  {
    hide InPlan, TaskKey, RowsNamed, Titled, Norm, TasksOfUser;
    ArgumentInPlan(call.rt, plan, c, "task");
  }

  lemma TargetRefused(call: Call, run: Run, c: PlanChange, plan: seq<PlanChange>)
    requires c in plan && c.op != "create_project" && NamesInPlan(call.rt, plan, run.refNames)
    ensures ResolveTarget(call, run, c).Err? ==> QuotesPlan(call.rt, plan, ResolveTarget(call, run, c).error)
    ensures ResolveTarget(call, run, c).Ok? ==>
              forall text <- NamedTexts(ResolveTarget(call, run, c).value.named) :: InPlan(call.rt, plan, text)
  {
    hide InPlan, QuotesPlan, ResolveProject, ResolveTaskAnywhere, OwnedProjects, TasksOfUser, AsNamed;
    ProjectLookupRefused(call, run, c, plan);
    AnywhereLookupRefused(call, run, c, plan);
    NamedInPlan(call.rt, plan, c, run.refNames);
    NothingQuoted(call.rt, plan, PinnedProjectGone);
    NothingQuoted(call.rt, plan, PinnedTaskGone(c.pin.number));
  }

  lemma TextRefused(rt: Runtime, c: PlanChange, plan: seq<PlanChange>, field: string, limit: nat)
    requires c in plan
    ensures OptionalText(rt, c, field, limit).Err? ==> QuotesPlan(rt, plan, OptionalText(rt, c, field, limit).error)
    ensures RequiredText(rt, c, field, limit).Err? ==> QuotesPlan(rt, plan, RequiredText(rt, c, field, limit).error)
  {
    hide InPlan;
    ArgumentInPlan(rt, plan, c, field);
  }

  lemma FieldRefused(rt: Runtime, c: PlanChange, plan: seq<PlanChange>, field: string)
    requires c in plan
    ensures ReadDate(rt, c, field).Err? ==> QuotesPlan(rt, plan, ReadDate(rt, c, field).error)
    ensures ReadOwner(rt, Get(c, field)).Err? ==> QuotesPlan(rt, plan, ReadOwner(rt, Get(c, field)).error)
    ensures QuotesPlan(rt, plan, BadStatus("task", Str(Get(c, field))))
  {
    hide InPlan;
    ArgumentInPlan(rt, plan, c, field);
  }

  lemma StatusRefused(rt: Runtime, c: PlanChange, plan: seq<PlanChange>, kind: string, default: string,
                      allowed: set<string>)
    requires c in plan && default in allowed
    ensures ReadStatus(c, kind, default, allowed).Err? ==>
              QuotesPlan(rt, plan, ReadStatus(c, kind, default, allowed).error)
  {
    hide InPlan;
    ArgumentInPlan(rt, plan, c, "status");
  }

  lemma ProjectRefused(call: Call, run: Run, c: PlanChange, plan: seq<PlanChange>)
    requires c in plan && CreateProject(call, run, c).Err?
    ensures QuotesPlan(call.rt, plan, CreateProject(call, run, c).error)
  {
    hide QuotesPlan, ReadStatus, RequiredText, OptionalText, Create, Link;
    StatusRefused(call.rt, c, plan, "project", "active", PROJECT_STATUSES);
    TextRefused(call.rt, c, plan, "name", 120);
    TextRefused(call.rt, c, plan, "why", 2000);
    TextRefused(call.rt, c, plan, "context", 8000);
    NothingQuoted(call.rt, plan, WriteFailed);
  }

  lemma NothingQuoted(rt: Runtime, plan: seq<PlanChange>, e: LedgerError)
    requires Quotes(e) == {} && !e.UnknownChange?
    ensures QuotesPlan(rt, plan, e)
  {
  }

  lemma GoalRefused(call: Call, run: Run, c: PlanChange, plan: seq<PlanChange>, target: Target)
    requires c in plan && CreateGoal(call, run, c, target).Err?
    ensures QuotesPlan(call.rt, plan, CreateGoal(call, run, c, target).error)
  {
    hide QuotesPlan, RequiredText, ReadDate, Create;
    TextRefused(call.rt, c, plan, "title", 200);
    TextRefused(call.rt, c, plan, "definition_of_done", 4000);
    FieldRefused(call.rt, c, plan, "target_date");
    NothingQuoted(call.rt, plan, WriteFailed);
  }

  lemma TaskGoalRefused(call: Call, run: Run, c: PlanChange, plan: seq<PlanChange>, target: Target)
    requires c in plan && forall text <- NamedTexts(target.named) :: InPlan(call.rt, plan, text)
    ensures TaskGoal(call, run, c, target).Err? ==> QuotesPlan(call.rt, plan, TaskGoal(call, run, c, target).error)
  {
    hide InPlan, RowsNamed;
    ArgumentInPlan(call.rt, plan, c, "goal");
  }

  lemma TaskRefused(call: Call, run: Run, c: PlanChange, plan: seq<PlanChange>, target: Target)
    requires c in plan && forall text <- NamedTexts(target.named) :: InPlan(call.rt, plan, text)
    requires IsProject(run.db.rows, target.project) && CreateTask(call, run, c, target).Err?
    ensures QuotesPlan(call.rt, plan, CreateTask(call, run, c, target).error)
  {
    hide QuotesPlan, RequiredText, ReadDate, ReadOwner, ReadStatus, TaskGoal, Create, Link;
    StatusRefused(call.rt, c, plan, "task", "todo", TASK_STATUSES);
    TextRefused(call.rt, c, plan, "title", 300);
    FieldRefused(call.rt, c, plan, "due_date");
    FieldRefused(call.rt, c, plan, "owner");
    TaskGoalRefused(call, run, c, plan, target);
    NothingQuoted(call.rt, plan, WriteFailed);
  }

  lemma OthersRefused(call: Call, run: Run, c: PlanChange, plan: seq<PlanChange>, target: Target)
    requires c in plan
    ensures AddNote(call, run, c, target).Err? ==> QuotesPlan(call.rt, plan, AddNote(call, run, c, target).error)
    ensures LinkThread(call, run, c, target).Err? ==> QuotesPlan(call.rt, plan, LinkThread(call, run, c, target).error)
  {
    hide QuotesPlan, RequiredText, OptionalText, Create, Link;
    TextRefused(call.rt, c, plan, "decided", 4000);
    TextRefused(call.rt, c, plan, "why", 4000);
    TextRefused(call.rt, c, plan, "label", 300);
    NothingQuoted(call.rt, plan, WriteFailed);
    NothingQuoted(call.rt, plan, NoConversation);
  }

  lemma UpdateRefused(call: Call, run: Run, c: PlanChange, plan: seq<PlanChange>, target: Target, task: RowId)
    requires c in plan && IsTask(run.db.rows, task)
    ensures UpdateTask(call, run, c, target, task).Err? ==>
              QuotesPlan(call.rt, plan, UpdateTask(call, run, c, target, task).error)
  {
    hide QuotesPlan, RequiredText, ReadDate, ReadOwner, Update;
    TextRefused(call.rt, c, plan, "title", 300);
    FieldRefused(call.rt, c, plan, "status");
    FieldRefused(call.rt, c, plan, "due_date");
    FieldRefused(call.rt, c, plan, "owner");
    NothingQuoted(call.rt, plan, WriteFailed);
  }

  lemma TaskLookupRefused(call: Call, run: Run, c: PlanChange, plan: seq<PlanChange>, target: Target)
    requires c in plan && forall text <- NamedTexts(target.named) :: InPlan(call.rt, plan, text)
    ensures var r := ResolveTask(call.rt, call.names, run.db.rows, target.project, Get(c, "task"), target.named);
            r.Err? ==> QuotesPlan(call.rt, plan, r.error)
  {
    hide InPlan, RowsNamed, Titled, Numbered, CloseTasks, Norm, ShortIdOf, TaskKey;
    ArgumentInPlan(call.rt, plan, c, "task");
  }

  lemma WhichTaskRefused(call: Call, run: Run, c: PlanChange, plan: seq<PlanChange>, target: Target)
    requires c in plan && forall text <- NamedTexts(target.named) :: InPlan(call.rt, plan, text)
    requires target.task.Some? ==>
               IsTask(run.db.rows, target.task.value) && run.db.rows[target.task.value].project == target.project
    ensures UpdatedTaskOf(call, run, c, target).Err? ==>
              QuotesPlan(call.rt, plan, UpdatedTaskOf(call, run, c, target).error)
  {
    hide InPlan, ResolveTask;
    TaskLookupRefused(call, run, c, plan, target);
    ArgumentInPlan(call.rt, plan, c, "task");
  }

  /** A step refused quotes the plan, and a step taken names its projects from it. */
  lemma StepRefused(call: Call, run: Run, c: PlanChange, plan: seq<PlanChange>)
    requires c in plan && NamesInPlan(call.rt, plan, run.refNames)
    ensures Step(call, run, c).Err? ==> QuotesPlan(call.rt, plan, Step(call, run, c).error)
    ensures Step(call, run, c).Ok? ==> NamesInPlan(call.rt, plan, Step(call, run, c).value.refNames)
  {
    hide QuotesPlan, InPlan, ResolveTarget, UpdatedTaskOf, CreateProject, CreateGoal, CreateTask, AddNote, LinkThread,
         UpdateTask;
    if Step(call, run, c).Ok? {
      StepIsSaid(call, run, c);
      ArgumentInPlan(call.rt, plan, c, "name");
      return;
    }
    if c.op == "create_project" {
      ProjectRefused(call, run, c, plan);
      return;
    }
    TargetRefused(call, run, c, plan);
    NothingQuoted(call.rt, plan, ProjectNoLongerInPlan);
    if c.op !in OPS {
      UnknownQuoted(call.rt, plan, c);
      return;
    }
    if ResolveTarget(call, run, c).Ok? {
      var target := ResolveTarget(call, run, c).value;
      match c.op
      case "update_task" =>
        WhichTaskRefused(call, run, c, plan, target);
        if UpdatedTaskOf(call, run, c, target).Ok? {
          UpdateRefused(call, run, c, plan, target, UpdatedTaskOf(call, run, c, target).value);
        }
      case "create_task" => if CreateTask(call, run, c, target).Err? { TaskRefused(call, run, c, plan, target); }
      case "create_goal" => if CreateGoal(call, run, c, target).Err? { GoalRefused(call, run, c, plan, target); }
      case _ => OthersRefused(call, run, c, plan, target);
    }
  }

  lemma UnknownQuoted(rt: Runtime, plan: seq<PlanChange>, c: PlanChange)
    requires c in plan && c.op !in OPS
    ensures QuotesPlan(rt, plan, UnknownChange(c))
  {
  }

  lemma {:induction false} StepsRefused(call: Call, run: Run, changes: seq<PlanChange>, plan: seq<PlanChange>)
    requires (forall c <- changes :: c in plan) && NamesInPlan(call.rt, plan, run.refNames)
    ensures Steps(call, run, changes).Err? ==> QuotesPlan(call.rt, plan, Steps(call, run, changes).error)
    decreases |changes|
  {
    hide Step, QuotesPlan, NamesInPlan;
    if changes != [] {
      StepRefused(call, run, changes[0], plan);
      if Step(call, run, changes[0]).Ok? {
        StepsRefused(call, Step(call, run, changes[0]).value, changes[1..], plan);
      }
    }
  }

  lemma {:induction false} ShapesRefused(rt: Runtime, changes: seq<PlanChange>, plan: seq<PlanChange>)
    requires forall c <- changes :: c in plan
    ensures KnownOps(changes).Err? ==> QuotesPlan(rt, plan, KnownOps(changes).error)
    decreases |changes|
  {
    hide QuotesPlan;
    if changes != [] {
      if changes[0].op !in OPS {
        UnknownQuoted(rt, plan, changes[0]);
      }
      ShapesRefused(rt, changes[1..], plan);
    }
  }

  /** Whatever names and titles are stored, a refused plan is told why in its own words,
      or, for a change of an unknown kind, by that change as it was sent. */
  lemma RefusalQuotesTheCall(call: Call, db: Db, changes: seq<PlanChange>)
    requires ApplyIn(call, db, changes).Err?
    ensures QuotesPlan(call.rt, changes, ApplyIn(call, db, changes).error)
  {
    hide QuotesPlan, Steps, KnownOps;
    NothingQuoted(call.rt, changes, NoChanges);
    ShapesRefused(call.rt, changes, changes);
    StepsRefused(call, Start(db), changes, changes);
  }

  /** A plan that was accepted once and pinned is never shown a change whole, so what its
      pins say is stored is in no refusal of it. */
  lemma PinnedRefusalQuotesWords(proposal: Call, db0: Db, changes: seq<PlanChange>, call: Call, db: Db)
    requires ApplyIn(proposal, db0, changes).Ok? && |ApplyIn(proposal, db0, changes).value.resolutions| == |changes|
    requires ApplyIn(call, db, Pinned(changes, ApplyIn(proposal, db0, changes).value.resolutions)).Err?
    ensures var plan := Pinned(changes, ApplyIn(proposal, db0, changes).value.resolutions);
            !ApplyIn(call, db, plan).error.UnknownChange? && QuotesPlan(call.rt, plan, ApplyIn(call, db, plan).error)
  {
    hide InPlan, Steps, KnownOps;
    var pins := ApplyIn(proposal, db0, changes).value.resolutions;
    KnownOpsPinned(changes, pins);
    KnownOpsPinned(Pinned(changes, pins), pins);
    RefusalQuotesTheCall(call, db, Pinned(changes, pins));
  }
}
