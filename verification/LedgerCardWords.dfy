/**
 What a line of a confirmation card tells. Its texts are put side by side with no escaping,
 so two changes that say different things can have one line (`UpdatesCollide`). Main result:
 where no text holds the words a line may go on with, the line tells every word it is made
 of (`LineFixesWords`), and so what the person confirms of an update (`PersonsUpdateIff`).
*/
module LedgerCardWords {
  import opened TextTrim
  import opened Wrappers
  import opened LedgerText
  import opened LedgerStore
  import opened LedgerApply
  import opened LedgerCard
  import opened SeparatedText

  function Said(args: Args, field: string): Option<string> {
    if Truthy(Of(args, field)) then Some(Str(Of(args, field))) else None
  }

  function Given(args: Args, field: string): Option<string> {
    if field in args then Some(Str(args[field])) else None
  }

  /** The words a line is made of, in order. */
  function Words(c: PlanChange): seq<Option<string>> {
    var args := c.args;
    match c.op
    case "create_project" => [Some(Field(args, "name", "")), Said(args, "why")]
    case "create_goal" =>
      [Some(Field(args, "title", "")), Some(Field(args, "project", "?")), Said(args, "target_date"),
       Some(Field(args, "definition_of_done", ""))]
    case "create_task" =>
      [Some(Field(args, "title", "")), Some(Field(args, "project", "?")), Said(args, "goal"), Said(args, "due_date"),
       Said(args, "owner")]
    case "update_task" => [Given(args, "title"), Given(args, "status"), Given(args, "due_date"), Given(args, "owner")]
    case "add_note" => [Some(Field(args, "project", "?")), Some(Field(args, "decided", "")), Said(args, "why")]
    case _ => [Some(Field(args, "project", "?"))]
  }

  /** What stands before each of the words but the first, where that is always there. */
  function Before(op: string): seq<string> {
    match op
    case "create_goal" => ["\U{201D} to ", ", target ", ": done when "]
    case "create_task" => ["\U{201D} to ", ", under goal ", ", due ", ", owner "]
    case "update_task" => [", title \U{2192} ", ", status \U{2192} ", ", due_date \U{2192} ", ", owner \U{2192} "]
    case "create_project" => ["\U{201D}"]
    case "add_note" => [": "]
    case _ => []
  }

  const WHY := "(why:"

  /** No word holds what a later word may be told by. */
  ghost predicate Plain(c: PlanChange) {
    var w, seps := Words(c), Before(c.op);
    match c.op
    case "create_project" => Clear(w[0].value, seps)
    case "create_goal" => Clear(w[0].value, seps) && Legible(Parts(seps, w[1..]), seps)
    case "create_task" => Clear(w[0].value, seps) && Legible(Parts(seps, w[1..]), seps)
    case "update_task" => Legible(Parts(seps, w), seps)
    case "add_note" => Clear(w[0].value, seps) && Clear(w[1].value, [WHY])
    case _ => true
  }

  lemma SeparatorsOfGoal()
    ensures Separators(Before("create_goal"))
  {
    var marks := {'\U{201D}', ',', ':'};
    assert Marked("\U{201D} to ", marks);
    assert Marked(", target ", marks);
    assert Marked(": done when ", marks);
    hide Marked;
    MarkedSeparate(Before("create_goal"), marks);
  }

  lemma SeparatorsOfTask()
    ensures Separators(Before("create_task"))
  {
    var marks := {'\U{201D}', ','};
    assert Marked("\U{201D} to ", marks);
    assert Marked(", under goal ", marks);
    assert Marked(", due ", marks);
    assert Marked(", owner ", marks);
    hide Marked;
    MarkedSeparate(Before("create_task"), marks);
  }

  lemma SeparatorsOfUpdate()
    ensures Separators(Before("update_task"))
  {
    var marks := {','};
    assert Marked(", title \U{2192} ", marks);
    assert Marked(", status \U{2192} ", marks);
    assert Marked(", due_date \U{2192} ", marks);
    assert Marked(", owner \U{2192} ", marks);
    hide Marked;
    MarkedSeparate(Before("update_task"), marks);
  }

  // ----- each line as its words -----

  lemma SameHead(head: string, x: string, y: string)
    ensures head + x == head + y <==> x == y
  {
    assert (head + x)[|head|..] == x && (head + y)[|head|..] == y;
  }

  lemma ClauseIsAfter(args: Args, field: string, sep: string)
    ensures Clause(args, field, sep, "") == After(sep, Said(args, field))
  {
  }

  lemma GoalLine(d: Display, c: PlanChange, stored: bool)
    requires c.op == "create_goal"
    ensures var w := Words(c);
            LineFor(d, c, stored) == "Add goal \U{201C}" + (w[0].value + Joined(Parts(Before(c.op), w[1..])))
  {
    ClauseIsAfter(c.args, "target_date", ", target ");
    hide Field, Of, Clause, Said;
    var w := Words(c)[1..];
    JoinedThree(Before(c.op), w);
  }

  lemma TaskLine(d: Display, c: PlanChange, stored: bool)
    requires c.op == "create_task"
    ensures var w := Words(c);
            LineFor(d, c, stored) == "Add task \U{201C}" + (w[0].value + Joined(Parts(Before(c.op), w[1..])))
  {
    ClauseIsAfter(c.args, "goal", ", under goal ");
    ClauseIsAfter(c.args, "due_date", ", due ");
    ClauseIsAfter(c.args, "owner", ", owner ");
    hide Field, Of, Clause, Said;
    var w := Words(c)[1..];
    JoinedFour(Before(c.op), w);
  }

  lemma WordsFix(head: string, w: seq<Option<string>>, v: seq<Option<string>>, seps: seq<string>)
    requires |w| == |v| == |seps| + 1 && w[0].Some? && v[0].Some? && Separators(seps)
    requires Clear(w[0].value, seps) && Legible(Parts(seps, w[1..]), seps)
    requires Clear(v[0].value, seps) && Legible(Parts(seps, v[1..]), seps)
    ensures head + (w[0].value + Joined(Parts(seps, w[1..]))) == head + (v[0].value + Joined(Parts(seps, v[1..])))
            <==> w == v
  {
    hide Separators, Clear, Legible, Joined;
    SameHead(head, w[0].value + Joined(Parts(seps, w[1..])), v[0].value + Joined(Parts(seps, v[1..])));
    TextThenJoined(w[0].value, Parts(seps, w[1..]), v[0].value, Parts(seps, v[1..]), seps);
    PartsFix(seps, w[1..], v[1..]);
    assert w == [w[0]] + w[1..] && v == [v[0]] + v[1..];
  }

  lemma GoalFixes(d: Display, a: PlanChange, b: PlanChange, stored: bool)
    requires a.op == b.op == "create_goal" && Plain(a) && Plain(b)
    ensures LineFor(d, a, stored) == LineFor(d, b, stored) <==> Words(a) == Words(b)
  {
    hide LineFor, Separators, Clear, Legible, Joined;
    GoalLine(d, a, stored);
    GoalLine(d, b, stored);
    SeparatorsOfGoal();
    WordsFix("Add goal \U{201C}", Words(a), Words(b), Before("create_goal"));
  }

  lemma TaskFixes(d: Display, a: PlanChange, b: PlanChange, stored: bool)
    requires a.op == b.op == "create_task" && Plain(a) && Plain(b)
    ensures LineFor(d, a, stored) == LineFor(d, b, stored) <==> Words(a) == Words(b)
  {
    hide LineFor, Separators, Clear, Legible, Joined;
    TaskLine(d, a, stored);
    TaskLine(d, b, stored);
    SeparatorsOfTask();
    WordsFix("Add task \U{201C}", Words(a), Words(b), Before("create_task"));
  }

  /** A text, one separator, and anything after. */
  lemma OneCut(x: string, y: string, r: string, q: string, sep: string)
    requires Clear(x, [sep]) && Clear(y, [sep]) && Separators([sep])
    ensures x + (sep + r) == y + (sep + q) <==> x == y && r == q
  {
    hide Separators, Clear;
    assert At(sep + r, 0, sep) && At(sep + q, 0, sep);
    assert [sep][0] == sep;
    if x + (sep + r) == y + (sep + q) {
      CutAtSeparator(x, sep + r, y, sep + q, [sep]);
      SameHead(sep, r, q);
    }
  }

  lemma OneSeparator(sep: string)
    requires sep != "" && forall i | 0 < i < |sep| :: sep[i] != sep[0]
    ensures Separators([sep])
  {
  }

  /** An optional end, told by its length from none. */
  lemma EndFixes(a: Option<string>, b: Option<string>, before: string, after: string)
    requires before != ""
    ensures (if a.Some? then before + a.value + after else "") == (if b.Some? then before + b.value + after else "")
            <==> a == b
  {
    if a.Some? && b.Some? {
      var x, y := before + a.value + after, before + b.value + after;
      assert x == y ==> a.value == x[|before|..|x| - |after|] == y[|before|..|y| - |after|] == b.value;
    }
  }

  lemma ProjectFixes(d: Display, a: PlanChange, b: PlanChange, stored: bool)
    requires a.op == b.op == "create_project" && Plain(a) && Plain(b)
    ensures LineFor(d, a, stored) == LineFor(d, b, stored) <==> Words(a) == Words(b)
  {
    var w, v := Words(a), Words(b);
    var r, q := Clause(a.args, "why", " \U{2014} ", ""), Clause(b.args, "why", " \U{2014} ", "");
    OneSeparator("\U{201D}");
    EndFixes(Said(a.args, "why"), Said(b.args, "why"), " \U{2014} ", "");
    hide Separators, Clear, Of, Field;
    OneCut(w[0].value, v[0].value, r, q, "\U{201D}");
    SameHead("Create project \U{201C}", w[0].value + ("\U{201D}" + r), v[0].value + ("\U{201D}" + q));
  }

  /** What a note records and why: `(why:` is looked for without the space that may end
      what was decided. */
  lemma NoteBodyFixes(x: string, y: string, a: Option<string>, b: Option<string>)
    requires Clear(x, [WHY]) && Clear(y, [WHY])
    ensures x + (if a.Some? then " (why: " + a.value + ")" else "")
            == y + (if b.Some? then " (why: " + b.value + ")" else "")
            <==> x == y && a == b
  {
    OneSeparator(WHY);
    ClearSpace(x, WHY);
    ClearSpace(y, WHY);
    NoteText(x, a);
    NoteText(y, b);
    NoteWhyFixes(a, b);
    SameEnd(x, y);
    hide Separators, Clear, Joined, NoteWhy;
    var p, q := [Part(WHY, NoteWhy(a))], [Part(WHY, NoteWhy(b))];
    var x', y' := if a.Some? then x + " " else x, if b.Some? then y + " " else y;
    OnlyPart(p[0]);
    OnlyPart(q[0]);
    TextThenJoined(x', p, y', q, [WHY]);
    assert p == q <==> NoteWhy(a) == NoteWhy(b);
  }

  lemma SameEnd(x: string, y: string)
    ensures x + " " == y + " " <==> x == y
  {
    assert (x + " ")[..|x|] == x && (y + " ")[..|y|] == y;
  }

  lemma NoteWhyFixes(a: Option<string>, b: Option<string>)
    ensures NoteWhy(a) == NoteWhy(b) <==> a == b
  {
    EndFixes(a, b, " ", ")");
  }

  function NoteWhy(a: Option<string>): Option<string> {
    if a.Some? then Some(" " + a.value + ")") else None
  }

  lemma NoteText(x: string, a: Option<string>)
    ensures x + (if a.Some? then " (why: " + a.value + ")" else "")
            == (if a.Some? then x + " " else x) + Joined([Part(WHY, NoteWhy(a))])
  {
    assert Joined([Part(WHY, NoteWhy(a))]) == After(WHY, NoteWhy(a)) + Joined([]);
    assert " (why: " == " " + WHY + " ";
  }

  lemma OnlyPart(p: Part)
    ensures Legible([p], [p.before])
  {
    assert [p.before][1..] == [];
  }

  lemma ClearSpace(s: string, sep: string)
    requires Clear(s, [sep]) && sep != "" && sep[|sep| - 1] != ' '
    ensures Clear(s + " ", [sep])
  {
    forall i, k | 0 <= k < |[sep]| ensures !At(s + " ", i, [sep][k]) {
      assert !At(s, i, [sep][k]);
      if 0 <= i && i + |sep| <= |s| {
        assert (s + " ")[i..i + |sep|] == s[i..i + |sep|];
      }
    }
  }

  lemma NoteFixes(d: Display, a: PlanChange, b: PlanChange, stored: bool)
    requires a.op == b.op == "add_note" && Plain(a) && Plain(b)
    ensures LineFor(d, a, stored) == LineFor(d, b, stored) <==> Words(a) == Words(b)
  {
    var w, v := Words(a), Words(b);
    var r := w[1].value + Clause(a.args, "why", " (why: ", ")");
    var q := v[1].value + Clause(b.args, "why", " (why: ", ")");
    OneSeparator(": ");
    hide Separators, Clear, Field;
    NoteBodyFixes(w[1].value, v[1].value, w[2], v[2]);
    OneCut(w[0].value, v[0].value, r, q, ": ");
    SameHead("Record decision in ", w[0].value + (": " + r), v[0].value + (": " + q));
  }

  // ----- updates -----

  function Comma(fields: string): string {
    if fields == "" then "" else ", " + fields
  }

  lemma OneMoreField(args: Args, fields: seq<string>, field: string, sep: string)
    requires field != "" && sep == ", " + field + " \U{2192} "
    ensures Comma(FieldsSet(args, fields + [field])) == Comma(FieldsSet(args, fields)) + After(sep, Given(args, field))
  {
    assert (fields + [field])[..|fields|] == fields;
    var before := FieldsSet(args, fields);
    if field in args {
      var text := Str(args[field]);
      if before == "" {
        assert before + "" + field + " \U{2192} " + text == field + " \U{2192} " + text;
        assert ", " + (field + " \U{2192} " + text) == sep + text;
      } else {
        assert ", " + (before + ", " + field + " \U{2192} " + text) == ", " + before + (sep + text);
      }
    } else {
      assert Comma(before) + "" == Comma(before);
    }
  }

  lemma UpdateSeparators()
    ensures Before("update_task")[0] == ", " + "title" + " \U{2192} "
    ensures Before("update_task")[1] == ", " + "status" + " \U{2192} "
    ensures Before("update_task")[2] == ", " + "due_date" + " \U{2192} "
    ensures Before("update_task")[3] == ", " + "owner" + " \U{2192} "
  {
  }

  lemma FieldsOneByOne(args: Args)
    ensures var seps := Before("update_task");
            Comma(FieldsSet(args, ["title", "status", "due_date", "owner"]))
            == "" + After(seps[0], Given(args, "title")) + After(seps[1], Given(args, "status"))
               + After(seps[2], Given(args, "due_date")) + After(seps[3], Given(args, "owner"))
  {
    hide FieldsSet, After, Comma, Given;
    UpdateSeparators();
    var seps := Before("update_task");
    NoFields(args);
    OneMoreField(args, [], "title", seps[0]);
    assert [] + ["title"] == ["title"];
    OneMoreField(args, ["title"], "status", seps[1]);
    assert ["title"] + ["status"] == ["title", "status"];
    OneMoreField(args, ["title", "status"], "due_date", seps[2]);
    assert ["title", "status"] + ["due_date"] == ["title", "status", "due_date"];
    OneMoreField(args, ["title", "status", "due_date"], "owner", seps[3]);
    assert ["title", "status", "due_date"] + ["owner"] == ["title", "status", "due_date", "owner"];
  }

  /** The fields of an update, with a comma before each. */
  lemma FieldsJoined(args: Args)
    ensures var c := PlanChange("update_task", args, NO_PIN);
            Comma(FieldsSet(args, ["title", "status", "due_date", "owner"])) == Joined(Parts(Before(c.op), Words(c)))
  {
    hide FieldsSet, After, Comma, Given, Joined;
    FieldsOneByOne(args);
    var seps, w := Before("update_task"), Words(PlanChange("update_task", args, NO_PIN));
    JoinedFour(seps, w);
    Regroup(After(seps[0], w[0]), After(seps[1], w[1]), After(seps[2], w[2]), After(seps[3], w[3]));
  }

  lemma Regroup(a: string, b: string, c: string, d: string)
    ensures "" + a + b + c + d == a + (b + (c + d))
  {
  }

  lemma NoFields(args: Args)
    ensures Comma(FieldsSet(args, [])) == ""
  {
  }

  lemma CommaFixes(x: string, y: string)
    ensures Comma(x) == Comma(y) <==> x == y
  {
    if x != "" && y != "" {
      SameHead(", ", x, y);
    }
  }

  /** No update's fields read "nothing". */
  lemma FieldsAreNotNothing(args: Args)
    ensures FieldsSet(args, ["title", "status", "due_date", "owner"]) != "nothing"
  {
    FieldsJoined(args);
    var c := PlanChange("update_task", args, NO_PIN);
    JoinedStarts(Before(c.op), Words(c));
    var fields := FieldsSet(args, ["title", "status", "due_date", "owner"]);
    hide FieldsSet, Joined;
    assert fields != "" ==> Comma(fields)[2] == fields[0];
  }

  lemma {:induction false} JoinedStarts(seps: seq<string>, words: seq<Option<string>>)
    requires |seps| == |words| && forall k | 0 <= k < |seps| :: |seps[k]| > 2
    ensures var s := Joined(Parts(seps, words));
            s == "" || (|s| > 2 && exists k :: 0 <= k < |seps| && s[2] == seps[k][2])
    decreases |seps|
  {
    if seps != [] {
      JoinedParts(seps, words);
      JoinedStarts(seps[1..], words[1..]);
      if words[0].Some? {
        assert After(seps[0], words[0])[2] == seps[0][2];
      } else {
        assert "" + Joined(Parts(seps[1..], words[1..])) == Joined(Parts(seps[1..], words[1..]));
      }
    }
  }

  lemma UpdateFixes(d: Display, a: PlanChange, b: PlanChange, stored: bool)
    requires a.op == b.op == "update_task" && Plain(a) && Plain(b)
             && UpdateHead(d, a, stored) == UpdateHead(d, b, stored)
    ensures LineFor(d, a, stored) == LineFor(d, b, stored) <==> Words(a) == Words(b)
  {
    var fields := ["title", "status", "due_date", "owner"];
    var seps := Before("update_task");
    FieldsJoined(a.args);
    FieldsJoined(b.args);
    FieldsAreNotNothing(a.args);
    FieldsAreNotNothing(b.args);
    SeparatorsOfUpdate();
    hide Separators, Clear, Legible, Joined, FieldsSet, UpdateHead, Comma;
    JoinedFixes(Parts(seps, Words(a)), Parts(seps, Words(b)), seps);
    PartsFix(seps, Words(a), Words(b));
    CommaFixes(FieldsSet(a.args, fields), FieldsSet(b.args, fields));
    SameHead(UpdateHead(d, a, stored), OrNothing(FieldsSet(a.args, fields)), OrNothing(FieldsSet(b.args, fields)));
  }

  // ----- every kind -----

  /** Two plain changes of one kind, updates of a task said alike, have one line exactly
      when they say the same words. */
  lemma LineFixesWords(d: Display, a: PlanChange, b: PlanChange, stored: bool)
    requires a.op == b.op && a.op in OPS && Plain(a) && Plain(b)
    requires a.op == "update_task" ==> UpdateHead(d, a, stored) == UpdateHead(d, b, stored)
    ensures LineFor(d, a, stored) == LineFor(d, b, stored) <==> Words(a) == Words(b)
  {
    hide Words, LineFor, Plain, UpdateHead;
    match a.op
    case "create_project" => ProjectFixes(d, a, b, stored);
    case "create_goal" => GoalFixes(d, a, b, stored);
    case "create_task" => TaskFixes(d, a, b, stored);
    case "update_task" => UpdateFixes(d, a, b, stored);
    case "add_note" => NoteFixes(d, a, b, stored);
    case _ => LinkFixes(d, a, b, stored);
  }

  lemma LinkFixes(d: Display, a: PlanChange, b: PlanChange, stored: bool)
    requires a.op == b.op == "link_thread"
    ensures LineFor(d, a, stored) == LineFor(d, b, stored) <==> Words(a) == Words(b)
  {
    SameHead("Attach this conversation to ", Field(a.args, "project", "?"), Field(b.args, "project", "?"));
  }

  /** The line the person reads of an update pinned to one task tells exactly which fields
      it sets, and to which words, when no word holds what a later field is told by. */
  lemma PersonsUpdateIff(d: Display, names: PlanNames, a: PlanChange, b: PlanChange)
    requires a.op == b.op == "update_task" && a.pin == b.pin && a.pin.number.Some? && Plain(a) && Plain(b)
    ensures LineFor(d, Renamed(names, a), true) == LineFor(d, Renamed(names, b), true)
            <==> forall field | field in {"title", "status", "due_date", "owner"} ::
                  Given(a.args, field) == Given(b.args, field)
  {
    RenamedUpdate(names, a);
    RenamedUpdate(names, b);
    hide LineFor, Plain, Renamed;
    LineFixesWords(d, Renamed(names, a), Renamed(names, b), true);
  }

  lemma RenamedUpdate(names: PlanNames, c: PlanChange)
    requires c.op == "update_task"
    ensures Words(Renamed(names, c)) == Words(c) && (Plain(Renamed(names, c)) <==> Plain(c))
    ensures Renamed(names, c).op == c.op && Renamed(names, c).pin == c.pin
  {
  }

  const STATUS := ", status \U{2192} "

  lemma Collision(a: Args, b: Args, title: string, status: string)
    requires "title" in a && a["title"] == Text(title) && "status" in a && a["status"] == Text(status)
    requires "title" in b && b["title"] == Text(title + STATUS + status) && "status" !in b
    requires "due_date" !in a && "due_date" !in b && "owner" !in a && "owner" !in b
    ensures var fields := ["title", "status", "due_date", "owner"]; FieldsSet(a, fields) == FieldsSet(b, fields)
  {
    FieldsOneByOne(a);
    FieldsOneByOne(b);
    hide FieldsSet, Comma;
    var fields, seps := ["title", "status", "due_date", "owner"], Before("update_task");
    OneText(seps[0], title, seps[1], status);
    CommaFixes(FieldsSet(a, fields), FieldsSet(b, fields));
  }

  lemma OneText(a: string, x: string, b: string, y: string)
    ensures "" + (a + x) + (b + y) + "" + "" == "" + (a + (x + b + y)) + "" + "" + ""
  {
    assert "" + (a + x) + (b + y) + "" + "" == a + x + b + y;
    assert "" + (a + (x + b + y)) + "" + "" + "" == a + x + b + y;
  }

  /** An update of a task with this title and status, and one with both in the title. */
  function BothFields(task: string, title: string, status: string, pin: Pin): PlanChange {
    PlanChange("update_task", map["task" := Text(task), "title" := Text(title), "status" := Text(status)], pin)
  }

  function OneField(task: string, title: string, status: string, pin: Pin): PlanChange {
    PlanChange("update_task", map["task" := Text(task), "title" := Text(title + STATUS + status)], pin)
  }

  lemma SameFields(names: PlanNames, task: string, title: string, status: string, pin: Pin)
    ensures var a, b := Renamed(names, BothFields(task, title, status, pin)),
            Renamed(names, OneField(task, title, status, pin));
            && FieldsSet(a.args, ["title", "status", "due_date", "owner"])
               == FieldsSet(b.args, ["title", "status", "due_date", "owner"])
            && a.op == b.op == "update_task" && a.pin == b.pin
               && Field(a.args, "task", "?") == Field(b.args, "task", "?")
            && Where(a.args) == Where(b.args)
  {
    hide FieldsSet;
    var a, b := Renamed(names, BothFields(task, title, status, pin)),
        Renamed(names, OneField(task, title, status, pin));
    Collision(a.args, b.args, title, status);
  }

  /** Without that, two updates of one task have one line, and are both accepted, though
      one sets the status and the other does not. */
  lemma UpdatesCollide(d: Display, names: PlanNames, rt: Runtime, task: string, title: string, status: string, pin: Pin,
                       stored: bool)
    requires title != "" && |title + STATUS + status| <= 300 && status in TASK_STATUSES
    ensures var a, b := BothFields(task, title, status, pin), OneField(task, title, status, pin);
            && LineFor(d, Renamed(names, a), stored) == LineFor(d, Renamed(names, b), stored)
            && ReadTaskFields(rt, a).Ok? && ReadTaskFields(rt, a).value.status == Some(status)
            && ReadTaskFields(rt, b).Ok? && ReadTaskFields(rt, b).value.status == None
  {
    hide FieldsSet, ReadTaskFields, Renamed, Where, Field;
    SameFields(names, task, title, status, pin);
    ReadsTitle(rt, BothFields(task, title, status, pin));
    ReadsTitle(rt, OneField(task, title, status, pin));
  }

  lemma ReadsTitle(rt: Runtime, c: PlanChange)
    requires "title" in c.args && c.args["title"].Text? && 0 < |c.args["title"].text| <= 300
    requires "due_date" !in c.args && "owner" !in c.args
    requires "status" in c.args ==> c.args["status"].Text? && c.args["status"].text in TASK_STATUSES
    ensures ReadTaskFields(rt, c).Ok?
    ensures ReadTaskFields(rt, c).value.status == if "status" in c.args then Some(c.args["status"].text) else None
  {
    StripShortens(rt.isSpace, c.args["title"].text);
  }
}
