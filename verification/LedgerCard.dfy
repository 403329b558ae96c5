/**
 The lines of a confirmation card (backend/app/ledger/service.py, `render`), as the person
 reads them and, without stored text, as the model does.

 Main results: the model's copy has one line per change and does not depend on what the
 pins say is stored, exactly when every change whose stored text differs is of a kind the
 ledger knows (`CardHidesStored`), as every change of an accepted plan is
 (`AcceptedCardHidesStored`); and an argument can move a line exactly when it is one of
 `Shown` (`ShownIff`). What the lines leave out of what is stored is in LedgerCardStores,
 what they tell of what they show in LedgerCardWords.
*/
module LedgerCard {
  import opened TextTrim
  import opened Wrappers
  import opened LedgerText
  import opened LedgerStore
  import opened LedgerApply
  import opened LedgerPins

  /** How the host shows stored text safely, a number, and a whole change. */
  datatype Display = Display(shown: Option<string> -> string, decimal: nat -> string, whole: PlanChange -> string)

  type PlanNames = map<string, string>

  type Args = map<string, Arg>

  function Of(args: Args, field: string): Arg {
    if field in args then args[field] else Null
  }

  /** The first of the arguments that says something. */
  function FirstSaid(args: Args, fields: seq<string>): string {
    if fields == [] then ""
    else if |fields| == 1 || Truthy(Of(args, fields[0])) then Str(Of(args, fields[0]))
    else FirstSaid(args, fields[1..])
  }

  /** What the plan itself calls the projects and goals it creates. */
  function NamesOf(changes: seq<PlanChange>): PlanNames {
    if changes == [] then map[]
    else
      var c := changes[|changes| - 1];
      var before := NamesOf(changes[..|changes| - 1]);
      if Truthy(Of(c.args, "ref")) && c.op in {"create_project", "create_goal"}
      then before[Str(Of(c.args, "ref")) := FirstSaid(c.args, ["name", "title", "ref"])] else before
  }

  function Quote(s: string): string {
    "\U{201C}" + s + "\U{201D}"
  }

  function NameIn(names: PlanNames, ref: Arg): string {
    if Str(ref) in names then Quote(names[Str(ref)]) else if ref == Null then "?" else Str(ref)
  }

  /** The change with its project and goal as the plan calls them. */
  function Renamed(names: PlanNames, c: PlanChange): PlanChange {
    c.(args := map field | field in c.args ::
         if field == "project" || field == "goal" then Text(NameIn(names, c.args[field])) else c.args[field])
  }

  function Field(args: Args, field: string, missing: string): string {
    if field in args then Str(args[field]) else missing
  }

  function Clause(args: Args, field: string, before: string, after: string): string {
    if Truthy(Of(args, field)) then before + Str(Of(args, field)) + after else ""
  }

  /** The fields an update sets, in a fixed order, with commas between. */
  function FieldsSet(args: Args, fields: seq<string>): string {
    if fields == [] then ""
    else
      var last := fields[|fields| - 1];
      var before := FieldsSet(args, fields[..|fields| - 1]);
      if last !in args then before
      else before + (if before == "" then "" else ", ") + last + " \U{2192} " + Str(args[last])
  }

  function OrNothing(s: string): string {
    if s == "" then "nothing" else s
  }

  function Where(args: Args): string {
    if Blank(Of(args, "project")) then "" else " in " + Str(Of(args, "project"))
  }

  /** Which task an update changes, as its line says it. */
  function UpdateHead(d: Display, c: PlanChange, stored: bool): string {
    if c.pin.number.None? then "Change task " + Field(c.args, "task", "?") + Where(c.args) + ": "
    else
      var short := "T-" + d.decimal(c.pin.number.value);
      if stored
      then "Change task " + short + " " + Quote(d.shown(c.pin.title)) + " in " + Quote(d.shown(c.pin.projectName))
        + ": "
      else "Change task " + short + " (named " + Field(c.args, "task", "?") + ")" + Where(c.args) + ": "
  }

  function UpdateLine(d: Display, c: PlanChange, stored: bool): string {
    UpdateHead(d, c, stored) + OrNothing(FieldsSet(c.args, ["title", "status", "due_date", "owner"]))
  }

  const UNRECOGNISED := "Unrecognised change: "

  function LineFor(d: Display, c: PlanChange, stored: bool): string {
    match c.op
    case "create_project" =>
      "Create project \U{201C}" + (Field(c.args, "name", "") + ("\U{201D}" + Clause(c.args, "why", " \U{2014} ", "")))
    case "create_goal" =>
      "Add goal \U{201C}" + (Field(c.args, "title", "") + ("\U{201D} to " + Field(c.args, "project", "?")
      + (Clause(c.args, "target_date", ", target ", "") + (": done when " + Field(c.args, "definition_of_done", "")))))
    case "create_task" =>
      "Add task \U{201C}" + (Field(c.args, "title", "") + ("\U{201D} to " + Field(c.args, "project", "?")
      + (Clause(c.args, "goal", ", under goal ", "") + (Clause(c.args, "due_date", ", due ", "")
      + Clause(c.args, "owner", ", owner ", "")))))
    case "update_task" => UpdateLine(d, c, stored)
    case "add_note" =>
      "Record decision in " + (Field(c.args, "project", "?") + (": " + (Field(c.args, "decided", "")
      + Clause(c.args, "why", " (why: ", ")"))))
    case "link_thread" => "Attach this conversation to " + Field(c.args, "project", "?")
    case _ => UNRECOGNISED + d.whole(c)
  }

  function Lines(d: Display, names: PlanNames, changes: seq<PlanChange>, stored: bool): (lines: seq<string>)
    ensures |lines| == |changes|
  {
    seq(|changes|, i requires 0 <= i < |changes| => LineFor(d, Renamed(names, changes[i]), stored))
  }

  /** The card: one line per change, in order. */
  function Card(d: Display, changes: seq<PlanChange>, stored: bool): seq<string> {
    Lines(d, NamesOf(changes), changes, stored)
  }

  method Render(d: Display, changes: seq<PlanChange>, stored: bool) returns (lines: seq<string>)
    ensures lines == Card(d, changes, stored)
  {
    var names: PlanNames := map[];
    for i := 0 to |changes|
      invariant names == NamesOf(changes[..i])
    {
      assert changes[..i + 1][..i] == changes[..i];
      var c := changes[i];
      if Truthy(Of(c.args, "ref")) && c.op in {"create_project", "create_goal"} {
        names := names[Str(Of(c.args, "ref")) := FirstSaid(c.args, ["name", "title", "ref"])];
      }
    }
    assert changes[..|changes|] == changes;
    lines := [];
    for i := 0 to |changes|
      invariant |lines| == i
      invariant forall j | 0 <= j < i :: lines[j] == LineFor(d, Renamed(names, changes[j]), stored)
    {
      lines := lines + [LineFor(d, Renamed(names, changes[i]), stored)];
    }
  }

  /** The same change, but for what its pin says is stored: its ids, title and project name. */
  predicate SameButStored(a: PlanChange, b: PlanChange) {
    a.op == b.op && a.args == b.args && a.pin.number == b.pin.number
  }

  lemma LineHidesStored(d: Display, names: PlanNames, a: PlanChange, b: PlanChange)
    requires SameButStored(a, b) && a.op in OPS
    ensures LineFor(d, Renamed(names, a), false) == LineFor(d, Renamed(names, b), false)
  {
    hide Field, Clause, FieldsSet, Where, Quote, OrNothing;
    assert Renamed(names, a).args == Renamed(names, b).args;
  }

  lemma {:induction false} NamesAlike(a: seq<PlanChange>, b: seq<PlanChange>)
    requires |a| == |b| && forall i | 0 <= i < |a| :: SameButStored(a[i], b[i])
    ensures NamesOf(a) == NamesOf(b)
    decreases |a|
  {
    if a != [] {
      NamesAlike(a[..|a| - 1], b[..|b| - 1]);
    }
  }

  /** No two changes are shown whole alike. */
  ghost predicate ShowsWhole(d: Display) {
    forall a, b | d.whole(a) == d.whole(b) :: a == b
  }

  /** The model's copies of two cards that differ only in what is stored are the same
      exactly when each change that differs is of a kind the ledger knows: a change of any
      other kind is shown whole, its pin included. */
  lemma CardHidesStored(d: Display, a: seq<PlanChange>, b: seq<PlanChange>)
    requires ShowsWhole(d) && |a| == |b| && forall i | 0 <= i < |a| :: SameButStored(a[i], b[i])
    ensures Card(d, a, false) == Card(d, b, false) <==> forall i | 0 <= i < |a| :: a[i].op in OPS || a[i] == b[i]
  {
    hide LineFor, Renamed;
    NamesAlike(a, b);
    var names := NamesOf(a);
    var x, y := Card(d, a, false), Card(d, b, false);
    forall i | 0 <= i < |a| ensures x[i] == y[i] <==> a[i].op in OPS || a[i] == b[i] {
      LineDiffers(d, names, a[i], b[i]);
    }
    if forall i | 0 <= i < |a| :: a[i].op in OPS || a[i] == b[i] {
      assert forall i | 0 <= i < |x| :: x[i] == y[i];
    }
  }

  /** A pin is the server's only on a plan that was accepted, and such a plan holds no
      other kind: the model's copy of its card shows nothing that is stored. */
  lemma AcceptedCardHidesStored(d: Display, call: Call, db: Db, changes: seq<PlanChange>, p: seq<Pin>, q: seq<Pin>)
    requires ApplyIn(call, db, changes).Ok? && |p| == |q| == |changes|
    requires forall i | 0 <= i < |changes| :: p[i].number == q[i].number
    ensures Card(d, Pinned(changes, p), false) == Card(d, Pinned(changes, q), false)
  {
    hide LineFor, Renamed, KnownOps, Steps;
    KnownOpsPinned(changes, p);
    var a, b := Pinned(changes, p), Pinned(changes, q);
    NamesAlike(a, b);
    forall i | 0 <= i < |changes| ensures Card(d, a, false)[i] == Card(d, b, false)[i] {
      LineHidesStored(d, NamesOf(a), a[i], b[i]);
    }
  }

  lemma LineDiffers(d: Display, names: PlanNames, a: PlanChange, b: PlanChange)
    requires ShowsWhole(d) && SameButStored(a, b)
    ensures LineFor(d, Renamed(names, a), false) == LineFor(d, Renamed(names, b), false) <==> a.op in OPS || a == b
  {
    if a.op in OPS {
      LineHidesStored(d, names, a, b);
    } else {
      var x, y := Renamed(names, a), Renamed(names, b);
      assert LineFor(d, x, false)[|UNRECOGNISED|..] == d.whole(x);
      assert LineFor(d, y, false)[|UNRECOGNISED|..] == d.whole(y);
      assert x == y ==> a.pin == b.pin;
    }
  }

  // ----- what a line says -----

  /** The arguments the line of a change is made of. */
  function Shown(op: string): set<string> {
    match op
    case "create_project" => {"name", "why"}
    case "create_goal" => {"title", "project", "target_date", "definition_of_done"}
    case "create_task" => {"title", "project", "goal", "due_date", "owner"}
    case "update_task" => {"task", "project", "title", "status", "due_date", "owner"}
    case "add_note" => {"project", "decided", "why"}
    case "link_thread" => {"project"}
    case _ => {}
  }

  function With(c: PlanChange, field: string, value: Arg): PlanChange {
    c.(args := c.args[field := value])
  }

  /** No change of this kind is shown otherwise for what it says in `field`. */
  ghost predicate Unsaid(d: Display, op: string, field: string) {
    forall names: PlanNames, c: PlanChange, value: Arg, stored: bool | c.op == op ::
      LineFor(d, Renamed(names, With(c, field, value)), stored) == LineFor(d, Renamed(names, c), stored)
  }

  lemma RenamedWith(names: PlanNames, c: PlanChange, field: string, value: Arg)
    ensures var a, b := Renamed(names, With(c, field, value)), Renamed(names, c);
            && a.op == b.op == c.op && a.pin == b.pin == c.pin
            && forall other | other != field ::
                 Of(a.args, other) == Of(b.args, other) && (other in a.args <==> other in b.args)
  {
  }

  lemma {:induction false} SameFieldsSet(a: Args, b: Args, fields: seq<string>)
    requires forall field <- fields :: Of(a, field) == Of(b, field) && (field in a <==> field in b)
    ensures FieldsSet(a, fields) == FieldsSet(b, fields)
    decreases |fields|
  {
    if fields != [] {
      SameFieldsSet(a, b, fields[..|fields| - 1]);
    }
  }

  lemma SameUpdateLine(d: Display, a: PlanChange, b: PlanChange, stored: bool)
    requires a.pin == b.pin
    requires forall field <- Shown("update_task") ::
               Of(a.args, field) == Of(b.args, field) && (field in a.args <==> field in b.args)
    ensures UpdateLine(d, a, stored) == UpdateLine(d, b, stored)
  {
    hide FieldsSet, OrNothing, Quote;
    SameFieldsSet(a.args, b.args, ["title", "status", "due_date", "owner"]);
    assert "task" in Shown("update_task") && "project" in Shown("update_task");
  }

  /** A line is a function of its shown arguments, its pin and its kind. */
  lemma SameLine(d: Display, a: PlanChange, b: PlanChange, stored: bool)
    requires a.op == b.op && a.op in OPS && a.pin == b.pin
    requires forall field <- Shown(a.op) ::
               Of(a.args, field) == Of(b.args, field) && (field in a.args <==> field in b.args)
    ensures LineFor(d, a, stored) == LineFor(d, b, stored)
  {
    hide UpdateLine, Quote, Field, Clause, Of;
    if a.op == "update_task" {
      SameUpdateLine(d, a, b, stored);
      return;
    }
    forall field <- Shown(a.op)
      ensures forall missing :: Field(a.args, field, missing) == Field(b.args, field, missing)
      ensures forall before, after :: Clause(a.args, field, before, after) == Clause(b.args, field, before, after)
    {
      SamePieces(a.args, b.args, field);
    }
  }

  lemma SamePieces(a: Args, b: Args, field: string)
    requires Of(a, field) == Of(b, field) && (field in a <==> field in b)
    ensures forall missing :: Field(a, field, missing) == Field(b, field, missing)
    ensures forall before, after :: Clause(a, field, before, after) == Clause(b, field, before, after)
  {
  }

  lemma NotShownIsUnsaid(d: Display, op: string, field: string)
    requires op in OPS && field !in Shown(op)
    ensures Unsaid(d, op, field)
  {
    hide LineFor, Renamed, Of, Shown;
    forall names: PlanNames, c: PlanChange, value: Arg, stored: bool | c.op == op
      ensures LineFor(d, Renamed(names, With(c, field, value)), stored) == LineFor(d, Renamed(names, c), stored)
    {
      RenamedWith(names, c, field, value);
      SameLine(d, Renamed(names, With(c, field, value)), Renamed(names, c), stored);
    }
  }

  /** The line of a change that says one word, or an empty one. */
  function OneWord(op: string, field: string, word: string): PlanChange {
    Renamed(map[], PlanChange(op, map[field := Text(word)], NO_PIN))
  }

  lemma OneWordArgs(op: string, field: string, word: string)
    ensures OneWord(op, field, word) == PlanChange(op, map[field := Text(word)], NO_PIN)
  {
    assert OneWord(op, field, word).args == map[field := Text(word)];
  }

  lemma {:induction false} OneFieldSet(args: Args, fields: seq<string>, field: string)
    requires args.Keys == {field} && forall i, j | 0 <= i < j < |fields| :: fields[i] != fields[j]
    ensures FieldsSet(args, fields) == if field in fields then field + " \U{2192} " + Str(args[field]) else ""
    decreases |fields|
  {
    if fields != [] {
      var init, last := fields[..|fields| - 1], fields[|fields| - 1];
      OneFieldSet(args, init, field);
      assert fields == init + [last];
      assert "" + "" + field + " \U{2192} " + Str(args[field]) == field + " \U{2192} " + Str(args[field]);
    }
  }

  lemma WordIsUpdated(d: Display, field: string)
    requires field in Shown("update_task")
    ensures var a, b := PlanChange("update_task", map[field := Text("x")], NO_PIN),
            PlanChange("update_task", map[field := Text("")], NO_PIN);
            |UpdateLine(d, a, false)| > |UpdateLine(d, b, false)|
  {
    hide FieldsSet;
    OneFieldSet(map[field := Text("x")], ["title", "status", "due_date", "owner"], field);
    OneFieldSet(map[field := Text("")], ["title", "status", "due_date", "owner"], field);
  }

  lemma WordIsAdded(d: Display, op: string, field: string)
    requires op in {"create_task", "create_goal"} && field in Shown(op)
    ensures var a, b := PlanChange(op, map[field := Text("x")], NO_PIN), PlanChange(op, map[field := Text("")], NO_PIN);
            |LineFor(d, a, false)| > |LineFor(d, b, false)|
  {
  }

  lemma WordIsShown(d: Display, op: string, field: string)
    requires op in OPS && field in Shown(op)
    ensures LineFor(d, OneWord(op, field, "x"), false) != LineFor(d, OneWord(op, field, ""), false)
  {
    hide UpdateLine, OneWord;
    OneWordArgs(op, field, "x");
    OneWordArgs(op, field, "");
    if op == "update_task" {
      WordIsUpdated(d, field);
      return;
    }
    if op == "create_task" || op == "create_goal" {
      WordIsAdded(d, op, field);
      return;
    }
    assert |LineFor(d, OneWord(op, field, "x"), false)| > |LineFor(d, OneWord(op, field, ""), false)|;
  }

  /** What a change says in an argument moves its line, for some change, exactly when the
      argument is one of those shown. */
  lemma ShownIff(d: Display, op: string, field: string)
    requires op in OPS
    ensures Unsaid(d, op, field) <==> field !in Shown(op)
  {
    if field !in Shown(op) {
      NotShownIsUnsaid(d, op, field);
    } else {
      WordIsShown(d, op, field);
      var c := PlanChange(op, map[field := Text("")], NO_PIN);
      assert With(c, field, Text("x")) == PlanChange(op, map[field := Text("x")], NO_PIN);
    }
  }

  // ----- what is stored but not said -----

  lemma ReadElsewhere(rt: Runtime, c: PlanChange, other: string, value: Arg, field: string, limit: nat)
    requires field != other
    ensures OptionalText(rt, With(c, other, value), field, limit) == OptionalText(rt, c, field, limit)
    ensures RequiredText(rt, With(c, other, value), field, limit) == RequiredText(rt, c, field, limit)
  {
  }

  /** A new project's status and context are stored as given, and its line is the same
      whatever they are. */
  lemma ProjectUnshown(d: Display, names: PlanNames, call: Call, c: PlanChange, stored: bool, status: string,
                       context: string)
    requires c.op == "create_project" && ProjectToCreate(call, c).Ok? && status in PROJECT_STATUSES
    requires context != "" && |Strip(call.rt.isSpace, context)| <= 8000
    ensures var said := With(With(c, "status", Text(status)), "context", Text(context));
            && LineFor(d, Renamed(names, said), stored) == LineFor(d, Renamed(names, c), stored)
            && ProjectToCreate(call, said)
               == Ok(ProjectToCreate(call, c).value.(status := status,
                                                     context := Some(Strip(call.rt.isSpace, context))))
  {
    hide Renamed, LineFor, RequiredText;
    var mid := With(c, "status", Text(status));
    NotShownIsUnsaid(d, c.op, "status");
    NotShownIsUnsaid(d, c.op, "context");
    assert LineFor(d, Renamed(names, mid), stored) == LineFor(d, Renamed(names, c), stored);
    ReadElsewhere(call.rt, c, "status", Text(status), "name", 120);
    ReadElsewhere(call.rt, c, "status", Text(status), "why", 2000);
    ReadElsewhere(call.rt, mid, "context", Text(context), "name", 120);
    ReadElsewhere(call.rt, mid, "context", Text(context), "why", 2000);
  }

  /** Nor does a new task's line say its status. */
  lemma TaskUnshown(d: Display, names: PlanNames, call: Call, run: Run, c: PlanChange, target: Target, stored: bool,
                    status: string)
    requires c.op == "create_task" && IsProject(run.db.rows, target.project) && status in TASK_STATUSES
    requires TaskToCreate(call, run, c, target).Ok?
    ensures var said := With(c, "status", Text(status));
            && LineFor(d, Renamed(names, said), stored) == LineFor(d, Renamed(names, c), stored)
            && TaskToCreate(call, run, said, target) == Ok(TaskToCreate(call, run, c, target).value.(status := status))
  {
    hide Renamed, LineFor, RequiredText, ResolveGoal, ReadOwner;
    NotShownIsUnsaid(d, c.op, "status");
    ReadElsewhere(call.rt, c, "status", Text(status), "title", 300);
  }
}
