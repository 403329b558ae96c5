/**
 A plan that its own pins do not repeat. It adds a task titled "t 1" to a project whose
 task T-1 is another one, and then updates "t-1" without naming the project: the dry run
 finds the new task by its title, but pinned to the project the words are a short id.
*/
module LedgerMisread {
  import opened TextTrim
  import opened Wrappers
  import opened LedgerText
  import opened LedgerStore
  import opened LedgerApply
  import opened LedgerDryRun

  const HOST := Runtime((c: char) => c == ' ', (c: char) => c != ' ' && c != '-',
                        (c: char) => if c == '1' then Some(1) else None,
                        (s: string) => s, (s: string) => s, (s: string) => None)

  /** The id of a row as text, no word of the plan. */
  function Hashes(id: RowId): (s: string)
    ensures |s| == id + 1 && s[0] == '#'
  {
    "#" + seq(id, _ => '#')
  }

  const CALL := Call(HOST, (id: RowId) => Hashes(id), "u", None, "assistant_confirmed", None)

  const PROJECT := ProjectRow("u", "p", None, None, "active", 2, 1)
  const TASK_ONE := TaskRow(0, 1, "x", "todo", None, None, None, 1)
  const TASK_TWO := TaskRow(0, 2, "t 1", "todo", None, None, None, 1)

  const LEDGER := Db(map[0 := PROJECT, 1 := TASK_ONE], [], 2)

  const ADD := PlanChange("create_task", map["project" := Text("p"), "title" := Text("t 1")], NO_PIN)
  const UPDATE := PlanChange("update_task", map["task" := Text("t-1"), "status" := Text("done")], NO_PIN)

  lemma Words()
    ensures Norm(HOST, "t 1") == Norm(HOST, "t-1") == ["t", "1"] && Norm(HOST, "x") == ["x"]
    ensures ShortIdOf(HOST, "t-1") == Some(1)
    ensures Strip(HOST.isSpace, "t-1") == "t-1" && Strip(HOST.isSpace, "t 1") == "t 1"
  {
    TrimmedStays(HOST.isSpace, "t-1");
    TrimmedStays(HOST.isSpace, "t 1");
    var a, b := "t 1", "t-1";
    assert a[1..] == " 1" && a[1..][1..] == "1" && a[1..][1..][1..] == "";
    assert b[1..] == "-1" && b[1..][1..] == "1" && b[1..][1..][1..] == "";
    assert "x"[1..] == "";
    assert [] + ["t"] + ["1"] == ["t", "1"];
    assert "" + ['t'] == "t" && "" + ['1'] == "1" && "" + ['x'] == "x";
    assert DigitsValue(HOST, "1", 0) == DigitsValue(HOST, "", 1) == Some(1);
  }

  const ADDED := Db(map[0 := PROJECT.(nextTask := 3), 1 := TASK_ONE, 2 := TASK_TWO],
                    [Change(Stamp("u", "assistant_confirmed", None), 2, None, Some(TASK_TWO))], 3)

  const AFTER_ADD := Run(ADDED, map[], map[], {2}, map[], [AddedTask(2, "t 1", AsCalled("p"))],
                         [NO_PIN.(projectId := Some(0), projectName := Some("p"))])

  lemma ProjectFound()
    ensures ResolveTarget(CALL, Start(LEDGER), ADD) == Ok(Target(0, None, AsCalled("p")))
  {
    assert RowsNamed(CALL.names, LEDGER.rows, "p") == {};
    assert OwnedProjects(LEDGER.rows, "u") == {0};
    hide Norm;
    var exact := set id | id in OwnedProjects(LEDGER.rows, "u")
        && HOST.sqlLower(LEDGER.rows[id].name) == HOST.lower("p");
    assert exact == {0};
    assert ProjectMatches(HOST, LEDGER.rows, "u", "p") == {0};
  }

  lemma Creates()
    ensures Create(LEDGER, TASK_TWO, StampOf(CALL)) == Ok(ADDED)
  {
    assert LEDGER.rows[0 := PROJECT.(nextTask := 3)][2 := TASK_TWO] == ADDED.rows;
    assert TASK_TWO.(number := 2) == TASK_TWO;
    assert [] + [Change(StampOf(CALL), 2, None, Some(TASK_TWO))] == ADDED.log;
  }

  lemma ReadsTask()
    ensures TaskToCreate(CALL, Start(LEDGER), ADD, Target(0, None, AsCalled("p"))) == Ok(TASK_TWO)
  {
    Words();
    hide Strip, Norm, ShortIdOf;
  }

  lemma ReadsFields()
    ensures ReadTaskFields(HOST, UPDATE) == Ok(TaskFields(None, Some("done"), None, None))
  {
  }

  lemma Adds()
    ensures Step(CALL, Start(LEDGER), ADD) == Ok(AFTER_ADD)
  {
    hide ResolveTarget, TaskToCreate, Create;
    ProjectFound();
    ReadsTask();
    Creates();
    var next := CreateTask(CALL, Start(LEDGER), ADD, Target(0, None, AsCalled("p")));
    assert {} + {2} == {2};
    assert next.Ok? && next.value.created == {2} && next.value.db == ADDED;
    assert [] + [AddedTask(2, "t 1", AsCalled("p"))] == AFTER_ADD.done;
    assert next == Ok(AFTER_ADD.(resolutions := []));
    assert [] + AFTER_ADD.resolutions == AFTER_ADD.resolutions;
  }

  lemma TasksThere()
    ensures OwnedProjects(ADDED.rows, "u") == {0} && TasksOfUser(ADDED.rows, "u") == {1, 2}
            && TasksOf(ADDED.rows, 0) == {1, 2}
    ensures RowsNamed(CALL.names, ADDED.rows, "t-1") == {}
    ensures Numbered(ADDED.rows, {1, 2}, Some(1)) == {1}
    ensures Titled(HOST, ADDED.rows, {1, 2}, ["t", "1"]) == {2}
  {
    Words();
    hide Norm, ShortIdOf, Strip;
  }

  lemma TaskFound()
    ensures ResolveTarget(CALL, AFTER_ADD, UPDATE) == Ok(Target(0, Some(2), ById(0)))
  {
    Words();
    TasksThere();
    hide Strip, Norm, ShortIdOf, OwnedProjects, TasksOfUser, RowsNamed, Titled;
    assert ResolveTaskAnywhere(HOST, CALL.names, ADDED.rows, "u", Text("t-1")) == Ok(2);
  }

  lemma Updates()
    ensures Step(CALL, AFTER_ADD, UPDATE).Ok? && Misread(CALL, AFTER_ADD, UPDATE)
  {
    Words();
    TaskFound();
    ReadsFields();
    TasksThere();
    hide Strip, Norm, ShortIdOf, ResolveTarget, ReadTaskFields, OwnedProjects, TasksOfUser, RowsNamed, Titled, Numbered,
         TasksOf;
    assert UpdatedTaskOf(CALL, AFTER_ADD, UPDATE, Target(0, Some(2), ById(0))) == Ok(2);
    assert Step(CALL, AFTER_ADD, UPDATE).Ok?;
  }

  lemma KnownKinds()
    ensures KnownOps([ADD, UPDATE]) == Ok(())
  {
    assert [ADD, UPDATE][1..] == [UPDATE] && [UPDATE][1..] == [];
    assert ADD.op in OPS && UPDATE.op in OPS;
    assert KnownOps([UPDATE]) == KnownOps([]) == Ok(());
    assert KnownOps([ADD, UPDATE]) == KnownOps([UPDATE]);
  }

  /** The plan applies, and one of its updates is misread: pinned to what its dry run
      resolved, it would not make the same writes (`PinnedPlanRepeats`). */
  lemma PinsNeedNotRepeat()
    ensures Valid(LEDGER) && ApplyIn(CALL, LEDGER, [ADD, UPDATE]).Ok?
    ensures !NoneMisread(CALL, Start(LEDGER), [ADD, UPDATE])
  {
    Adds();
    Updates();
    hide Step, Misread;
    assert [ADD, UPDATE][1..] == [UPDATE] && [UPDATE][1..] == [];
    assert Steps(CALL, AFTER_ADD, [UPDATE]).Ok?;
    KnownKinds();
  }

  lemma FollowsOne(c: PlanChange, keys: set<string>)
    requires Keys(HOST, c) <= keys && forall key <- keys :: key == "" || key[0] != '#'
    ensures CanFollow(CALL, CALL, 2, c)
  {
    hide Keys;
    forall id: RowId ensures CALL.names(id) !in Keys(HOST, c) {
      assert CALL.names(id) == Hashes(id);
    }
    forall a: RowId, b: RowId | CALL.names(a) == CALL.names(b) ensures a == b {
      assert |Hashes(a)| == |Hashes(b)|;
    }
  }

  lemma KeysOfAdd()
    ensures Keys(HOST, ADD) <= {"p", "", "None"}
  {
    assert TaskKey(HOST, Null) == "";
    hide Strip;
  }

  lemma KeysOfUpdate()
    ensures Keys(HOST, UPDATE) <= {"None", "t-1"}
  {
    Words();
    hide Strip, Norm, ShortIdOf;
  }

  lemma CanFollowIt()
    ensures CanFollowPlan(CALL, CALL, LEDGER.issued, [ADD, UPDATE])
  {
    hide Keys, CanFollow;
    KeysOfAdd();
    KeysOfUpdate();
    FollowsOne(ADD, {"p", "", "None"});
    FollowsOne(UPDATE, {"None", "t-1"});
  }

  /** So it is validated, pinned, and applied in the same ledger to another effect. */
  lemma PinnedPlanDiffers()
    ensures ApplyIn(CALL, LEDGER, [ADD, UPDATE]).Ok?
    ensures var tried := ApplyIn(CALL, LEDGER, [ADD, UPDATE]).value;
            |tried.resolutions| == 2 && !Repeats(ApplyIn(CALL, LEDGER, Pinned([ADD, UPDATE], tried.resolutions)), tried)
  {
    hide ApplyIn, Repeats, NoneMisread, CanFollowPlan;
    PinsNeedNotRepeat();
    CanFollowIt();
    assert ADD.pin == NO_PIN && UPDATE.pin == NO_PIN;
    PinnedPlanRepeats(CALL, CALL, LEDGER, [ADD, UPDATE]);
  }
}
