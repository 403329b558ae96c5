/**
 What a name in a plan finds (backend/app/ledger/service.py, `_project`, `_task`,
 `_task_anywhere` and `short_id_of`).

 Main results: words find a task or project exactly when the first level that matches
 anything matches it alone, are refused as ambiguous exactly when that level matches more,
 and as unknown when none matches (`TaskFoundIff`, `ProjectFoundIff`, `AnywhereFoundIff`); a
 short id, in any spelling, finds its task and never a title (`ShortIdFinds`, `AnySpelling`).
*/
module LedgerNames {
  import opened TextTrim
  import opened Wrappers
  import opened LedgerText
  import opened LedgerStore
  import opened LedgerApply
  import opened LedgerShortIds

  // ----- tasks -----

  predicate HasTitle(rt: Runtime, rows: Rows, id: RowId, wanted: seq<string>) {
    IsTask(rows, id) && wanted != [] && Norm(rt, rows[id].title) == wanted
  }

  predicate HasCloseTitle(rt: Runtime, rows: Rows, id: RowId, wanted: seq<string>) {
    IsTask(rows, id) && Close(wanted, Norm(rt, rows[id].title))
  }

  predicate InProject(rows: Rows, project: RowId, id: RowId) {
    IsTask(rows, id) && rows[id].project == project
  }

  /** The task is the one the words name: by its short id or its id; or, unless they are
      a short id, by its whole title, when no other has it; or by words of its title, when
      no other's has them and no title is all of them. */
  ghost predicate NamesTask(rt: Runtime, names: Naming, rows: Rows, project: RowId, key: string, id: RowId)
    requires IsTask(rows, id)
  {
    var wanted := Norm(rt, key);
    || ShortIdOf(rt, key) == Some(rows[id].number)
    || names(id) == key
    || (ShortIdOf(rt, key).None? && HasTitle(rt, rows, id, wanted)
        && forall other: RowId | InProject(rows, project, other) && HasTitle(rt, rows, other, wanted) :: other == id)
    || (ShortIdOf(rt, key).None? && HasCloseTitle(rt, rows, id, wanted)
        && (forall other: RowId | InProject(rows, project, other) :: !HasTitle(rt, rows, other, wanted))
        && forall other: RowId | InProject(rows, project, other) && HasCloseTitle(rt, rows, other, wanted) ::
             other == id)
  }

  /** A task found within a project is that project's, and the one the words name. */
  lemma FoundTaskIsNamed(rt: Runtime, names: Naming, rows: Rows, project: RowId, ref: Arg, named: Named)
    ensures var r := ResolveTask(rt, names, rows, project, ref, named);
            r.Ok? ==>
              InProject(rows, project, r.value) && NamesTask(rt, names, rows, project, TaskKey(rt, ref), r.value)
  {
    hide Norm, ShortIdOf, TaskKey, Close;
    var r := ResolveTask(rt, names, rows, project, ref, named);
    if r.Err? {
      return;
    }
    var key := TaskKey(rt, ref);
    var tasks, wanted := TasksOf(rows, project), Norm(rt, key);
    var numbered, byId := Numbered(rows, tasks, ShortIdOf(rt, key)), RowsNamed(names, rows, key) * tasks;
    var exact := Titled(rt, rows, tasks, wanted);
    var close := CloseTasks(rt, rows, tasks, wanted);
    forall other: RowId | InProject(rows, project, other)
      ensures (HasTitle(rt, rows, other, wanted) <==> other in exact)
              && (HasCloseTitle(rt, rows, other, wanted) <==> other in close)
    {
      assert other in tasks;
    }
    if |numbered| == 1 || |byId| == 1 {
      assert r.value in numbered || r.value in byId;
    } else if |exact| == 1 {
      assert exact == {r.value};
    } else {
      assert |exact| == 0;
      assert close == {r.value};
    }
  }

  /** No two rows have one id: the id is the primary key. */
  ghost predicate UniqueIds(names: Naming, rows: Rows) {
    forall a, b | a in rows && b in rows && names(a) == names(b) :: a == b
  }

  /** The levels at which words name a task of a project, first to last: its short id, its
      id, and, unless they are a short id, its whole title and words of its title. */
  ghost predicate TaskAt(rt: Runtime, names: Naming, rows: Rows, project: RowId, key: string, level: nat, id: RowId) {
    && InProject(rows, project, id)
    && match level
       case 0 => ShortIdOf(rt, key) == Some(rows[id].number)
       case 1 => names(id) == key
       case 2 => ShortIdOf(rt, key).None? && HasTitle(rt, rows, id, Norm(rt, key))
       case 3 => ShortIdOf(rt, key).None? && HasCloseTitle(rt, rows, id, Norm(rt, key))
       case _ => false
  }

  ghost function TasksAt(rt: Runtime, names: Naming, rows: Rows, project: RowId, key: string, level: nat): set<RowId> {
    set id | id in rows && TaskAt(rt, names, rows, project, key, level, id)
  }

  /** What is named at the first level that matches anything, or nothing. */
  function FirstOf(levels: seq<set<RowId>>): set<RowId> {
    if levels == [] then {} else if levels[0] != {} then levels[0] else FirstOf(levels[1..])
  }

  lemma FirstOfFour(a: set<RowId>, b: set<RowId>, c: set<RowId>, d: set<RowId>)
    ensures FirstOf([a, b, c, d]) == if a != {} then a else if b != {} then b else if c != {} then c else d
    ensures FirstOf([a, b]) == if a != {} then a else b
  {
    assert [a, b, c, d][1..] == [b, c, d] && [b, c, d][1..] == [c, d] && [c, d][1..] == [d] && [d][1..] == [];
    assert [a, b][1..] == [b] && [b][1..] == [];
    assert FirstOf([d]) == d && FirstOf([b]) == b;
    assert FirstOf([c, d]) == if c != {} then c else d;
    assert FirstOf([b, c, d]) == if b != {} then b else FirstOf([c, d]);
  }

  ghost function TasksNamed(rt: Runtime, names: Naming, rows: Rows, project: RowId, key: string): set<RowId> {
    FirstOf([TasksAt(rt, names, rows, project, key, 0), TasksAt(rt, names, rows, project, key, 1),
             TasksAt(rt, names, rows, project, key, 2), TasksAt(rt, names, rows, project, key, 3)])
  }

  lemma Sole(s: set<RowId>, id: RowId)
    ensures |s| == 1 ==> (TheOne(s) == id <==> s == {id})
    ensures s == {id} ==> |s| == 1
    ensures |s| == 0 <==> s == {}
  {
    if |s| == 1 {
      assert TheOne(s) in s;
    }
  }

  /** The sets the resolver looks in are the levels. */
  lemma TaskLevels(rt: Runtime, names: Naming, rows: Rows, project: RowId, key: string)
    requires UniqueNumbers(rows, project) && UniqueIds(names, rows)
    ensures var tasks, wanted := TasksOf(rows, project), Norm(rt, key);
            && (forall level: nat :: TasksAt(rt, names, rows, project, key, level) <= tasks)
            && TasksAt(rt, names, rows, project, key, 0) == Numbered(rows, tasks, ShortIdOf(rt, key))
            && TasksAt(rt, names, rows, project, key, 1) == RowsNamed(names, rows, key) * tasks
            && |TasksAt(rt, names, rows, project, key, 0)| <= 1
            && |TasksAt(rt, names, rows, project, key, 1)| <= 1
            && (TasksAt(rt, names, rows, project, key, 2)
                == if ShortIdOf(rt, key).None? then Titled(rt, rows, tasks, wanted) else {})
            && (TasksAt(rt, names, rows, project, key, 3)
                == if ShortIdOf(rt, key).None? then CloseTasks(rt, rows, tasks, wanted) else {})
  {
    hide Norm, ShortIdOf, Close;
    AtMostOne(TasksAt(rt, names, rows, project, key, 0));
    AtMostOne(TasksAt(rt, names, rows, project, key, 1));
  }

  ghost predicate AllInProject(rows: Rows, project: RowId, tasks: set<RowId>) {
    forall id <- tasks :: InProject(rows, project, id)
  }

  lemma ResolvedByLevel(rt: Runtime, names: Naming, rows: Rows, project: RowId, ref: Arg, named: Named)
    requires UniqueNumbers(rows, project) && UniqueIds(names, rows)
    ensures var key, r := TaskKey(rt, ref), ResolveTask(rt, names, rows, project, ref, named);
            var found := TasksNamed(rt, names, rows, project, key);
            && AllInProject(rows, project, found)
            && r == if key == "" then Err(NoTaskNamed)
                    else if |found| == 1 then Ok(TheOne(found))
                    else if |found| > 1 then Err(ManyTasksCalled(named, key, Numbers(rows, found)))
                    else Err(NoTaskCalled(named, key))
  {
    hide Norm, ShortIdOf, TaskKey, Close, TaskAt, Titled, Numbered, RowsNamed, CloseTasks, TasksAt;
    var key := TaskKey(rt, ref);
    TaskLevels(rt, names, rows, project, key);
    FirstOfFour(TasksAt(rt, names, rows, project, key, 0), TasksAt(rt, names, rows, project, key, 1),
                TasksAt(rt, names, rows, project, key, 2), TasksAt(rt, names, rows, project, key, 3));
  }

  /** Words find a task exactly when the first level that matches anything matches it
      alone; they are refused as ambiguous exactly when it matches more, with the numbers
      of all it matches; and as unknown exactly when no level matches. */
  lemma TaskFoundIff(rt: Runtime, names: Naming, rows: Rows, project: RowId, ref: Arg, named: Named, id: RowId)
    requires UniqueNumbers(rows, project) && UniqueIds(names, rows)
    ensures var key, r := TaskKey(rt, ref), ResolveTask(rt, names, rows, project, ref, named);
            var found := TasksNamed(rt, names, rows, project, key);
            && AllInProject(rows, project, found)
            && (r == Ok(id) <==> key != "" && found == {id})
            && (r == Err(NoTaskNamed) <==> key == "")
            && (r == Err(NoTaskCalled(named, key)) <==> key != "" && found == {})
            && (r == Err(ManyTasksCalled(named, key, Numbers(rows, found))) <==> key != "" && |found| > 1)
  {
    hide ResolveTask, TasksNamed, Numbers, TaskKey;
    ResolvedByLevel(rt, names, rows, project, ref, named);
    Sole(TasksNamed(rt, names, rows, project, TaskKey(rt, ref)), id);
  }

  /** Numbers are unique within the project, as they are in every reachable state. */
  ghost predicate UniqueNumbers(rows: Rows, project: RowId) {
    forall a: RowId, b: RowId | InProject(rows, project, a) && InProject(rows, project, b)
        && rows[a].number == rows[b].number :: a == b
  }

  lemma ReachableNumbersAreUnique(db: Db, project: RowId)
    requires NumbersGiven(db)
    ensures UniqueNumbers(db.rows, project)
  {
    forall a: RowId, b: RowId | InProject(db.rows, project, a) && InProject(db.rows, project, b)
        && db.rows[a].number == db.rows[b].number
      ensures a == b
    {
      assert a != b ==> Apart(db.rows[a], db.rows[b]);
    }
  }

  /** Without a project: its id, then its whole title, among all the user's tasks. */
  lemma AnywhereFoundIff(rt: Runtime, names: Naming, rows: Rows, user: string, ref: Arg, id: RowId)
    requires UniqueIds(names, rows)
    ensures var key, r := TaskKey(rt, ref), ResolveTaskAnywhere(rt, names, rows, user, ref);
            var byId := set id | id in TasksOfUser(rows, user) && names(id) == key;
            var titled := set id | id in TasksOfUser(rows, user) && HasTitle(rt, rows, id, Norm(rt, key));
            var found := FirstOf([byId, titled]);
            && (r == Ok(id) <==> key != "" && found == {id})
            && (r == Err(NoTaskNamed) <==> key == "")
            && (r == Err(NoTaskAnywhere(key)) <==> key != "" && found == {})
            && (r == Err(ManyTasksAnywhere(key)) <==> key != "" && |found| > 1)
  {
    hide Norm, TaskKey;
    var key, mine := TaskKey(rt, ref), TasksOfUser(rows, user);
    var byId := set id | id in mine && names(id) == key;
    var titled := set id | id in mine && HasTitle(rt, rows, id, Norm(rt, key));
    assert byId == RowsNamed(names, rows, key) * mine && titled == Titled(rt, rows, mine, Norm(rt, key));
    AtMostOne(byId);
    FirstOfFour(byId, titled, {}, {});
    Sole(byId, id);
    Sole(titled, id);
  }

  /** A short id finds its task. */
  lemma ShortIdFinds(rt: Runtime, names: Naming, rows: Rows, project: RowId, ref: Arg, named: Named, id: RowId)
    requires UniqueNumbers(rows, project) && InProject(rows, project, id)
    requires ShortIdOf(rt, TaskKey(rt, ref)) == Some(rows[id].number)
    ensures ResolveTask(rt, names, rows, project, ref, named) == Ok(id)
  {
    assert TaskKey(rt, ref) != "" by {
      assert ShortIdOf(rt, "") == None;
    }
    hide Norm, ShortIdOf, TaskKey, Close;
    var tasks := TasksOf(rows, project);
    assert id in tasks;
    assert Numbered(rows, tasks, Some(rows[id].number)) == {id};
  }

  // ----- short ids, however spelt -----

  /** Digits and the letter are no whitespace, nor is the hyphen; a digit is no hyphen. */
  ghost predicate SaneDigits(rt: Runtime) {
    && !rt.isSpace('T') && !rt.isSpace('t') && !rt.isSpace('-') && rt.digit('-').None?
    && forall c :: rt.digit(c).Some? ==> !rt.isSpace(c)
  }

  predicate AllSpace(rt: Runtime, s: string) {
    forall c <- s :: rt.isSpace(c)
  }

  lemma {:induction false} SkipsSpace(rt: Runtime, spaces: string, rest: string)
    requires AllSpace(rt, spaces) && rest != "" && !rt.isSpace(rest[0])
    ensures TrimLeft(rt.isSpace, spaces + rest) == rest
    decreases |spaces|
  {
    if spaces == "" {
      assert spaces + rest == rest;
    } else {
      assert spaces[0] in spaces;
      assert (spaces + rest)[1..] == spaces[1..] + rest;
      SkipsSpace(rt, spaces[1..], rest);
    }
  }

  lemma {:induction false} ValueIsDigits(rt: Runtime, s: string, acc: nat)
    requires DigitsValue(rt, s, acc).Some?
    ensures forall c <- s :: rt.digit(c).Some?
    decreases |s|
  {
    if s != "" {
      ValueIsDigits(rt, s[1..], 10 * acc + rt.digit(s[0]).value);
      assert s == [s[0]] + s[1..];
    }
  }

  /** "T-3", "t3", "T - 3": the letter in either case, a hyphen or none, any whitespace
      between, read as the number their digits spell. */
  lemma AnySpelling(rt: Runtime, letter: char, before: string, hyphen: bool, after: string, digits: string, n: nat)
    requires SaneDigits(rt) && letter in {'T', 't'} && AllSpace(rt, before) && AllSpace(rt, after)
    requires (!hyphen ==> after == "") && digits != "" && DigitsValue(rt, digits, 0) == Some(n)
    ensures ShortIdOf(rt, [letter] + (before + ((if hyphen then "-" + after else "") + digits))) == Some(n)
  {
    var middle := (if hyphen then "-" + after else "") + digits;
    var s := [letter] + (before + middle);
    ValueIsDigits(rt, digits, 0);
    assert digits[0] in digits && digits[|digits| - 1] in digits;
    assert s[|s| - 1] == digits[|digits| - 1];
    TrimmedStays(rt.isSpace, s);
    assert s[1..] == before + middle;
    if hyphen {
      assert middle[0] == '-';
      assert middle[1..] == after + digits;
      SkipsSpace(rt, after, digits);
    } else {
      assert middle == digits;
    }
    SkipsSpace(rt, before, middle);
  }

  // ----- projects -----

  /** The project is the one the words name: one the plan made under that ref, or its id;
      or the only one of the user's with that name, first as written but for case, then by
      its words, then by its words without a trailing "project". */
  ghost predicate NamesProject(rt: Runtime, names: Naming, rows: Rows, user: string, key: string,
                               refs: map<string, RowId>, id: RowId)
    requires IsProject(rows, id)
  {
    var wanted := Norm(rt, key);
    || (key in refs && refs[key] == id)
    || names(id) == key
    || (forall other <- OwnedProjects(rows, user) :: rt.sqlLower(rows[other].name) == rt.lower(key) <==> other == id)
    || (wanted != [] && forall other <- OwnedProjects(rows, user) ::
        Norm(rt, rows[other].name) == wanted <==> other == id)
    || (WithoutProjectWord(wanted) != []
        && forall other <- OwnedProjects(rows, user) ::
             Norm(rt, rows[other].name) == WithoutProjectWord(wanted) <==> other == id)
  }

  lemma SoleMatch(rt: Runtime, rows: Rows, user: string, key: string, id: RowId)
    requires ProjectMatches(rt, rows, user, key) == {id}
    ensures id in OwnedProjects(rows, user)
    ensures var wanted := Norm(rt, key);
            || (forall other <- OwnedProjects(rows, user) ::
                rt.sqlLower(rows[other].name) == rt.lower(key) <==> other == id)
            || (wanted != [] && forall other <- OwnedProjects(rows, user) ::
                Norm(rt, rows[other].name) == wanted <==> other == id)
            || (WithoutProjectWord(wanted) != []
                && forall other <- OwnedProjects(rows, user) ::
                     Norm(rt, rows[other].name) == WithoutProjectWord(wanted) <==> other == id)
  {
    hide Norm, WithoutProjectWord;
    var owned, wanted := OwnedProjects(rows, user), Norm(rt, key);
    var exact := set id | id in owned && rt.sqlLower(rows[id].name) == rt.lower(key);
    var loose := set id | id in owned && wanted != [] && Norm(rt, rows[id].name) == wanted;
    assert id in {id};
    if exact != {} {
      assert exact == {id};
      assert forall other <- owned :: rt.sqlLower(rows[other].name) == rt.lower(key) <==> other in exact;
    } else if loose != {} {
      assert loose == {id};
      var one :| one in loose;
      assert forall other <- owned :: Norm(rt, rows[other].name) == wanted <==> other in loose;
    } else {
      var bare := WithoutProjectWord(wanted);
      var rest := set id | id in owned && Norm(rt, rows[id].name) == bare;
      assert bare != [] && rest == {id};
      assert forall other <- owned :: Norm(rt, rows[other].name) == bare <==> other in rest;
    }
  }

  /** A project found is one of the user's, and the one the words name. */
  lemma FoundProjectIsNamed(rt: Runtime, names: Naming, rows: Rows, user: string, ref: Arg, refs: map<string, RowId>)
    ensures var r := ResolveProject(rt, names, rows, user, ref, refs);
            r.Ok? ==>
              r.value in OwnedProjects(rows, user) && NamesProject(rt, names, rows, user, Str(ref), refs, r.value)
  {
    hide Norm, WithoutProjectWord;
    var r := ResolveProject(rt, names, rows, user, ref, refs);
    if r.Ok? {
      var key := Str(ref);
      var direct := Direct(names, rows, key, refs);
      if direct.Some? && direct.value in OwnedProjects(rows, user) {
        assert key in refs || direct.value in RowsNamed(names, rows, key);
      } else {
        assert ProjectMatches(rt, rows, user, key) == {r.value};
        SoleMatch(rt, rows, user, key, r.value);
      }
    }
  }

  /** The levels at which words name a project of the user's, first to last: a ref the plan
      gave it, or its id; its name but for case; its words; its words but for a trailing
      "project" the call adds. */
  ghost predicate ProjectAt(rt: Runtime, names: Naming, rows: Rows, user: string, key: string, refs: map<string, RowId>,
                            level: nat, id: RowId)
  {
    && id in OwnedProjects(rows, user)
    && match level
       case 0 => if key in refs then id == refs[key] else names(id) == key
       case 1 => rt.sqlLower(rows[id].name) == rt.lower(key)
       case 2 => Norm(rt, key) != [] && Norm(rt, rows[id].name) == Norm(rt, key)
       case 3 => WithoutProjectWord(Norm(rt, key)) != [] && Norm(rt, rows[id].name) == WithoutProjectWord(Norm(rt, key))
       case _ => false
  }

  ghost function ProjectsAt(rt: Runtime, names: Naming, rows: Rows, user: string, key: string, refs: map<string, RowId>,
                            level: nat): set<RowId>
  {
    set id | id in rows && ProjectAt(rt, names, rows, user, key, refs, level, id)
  }

  lemma DirectLevel(rt: Runtime, names: Naming, rows: Rows, user: string, key: string, refs: map<string, RowId>)
    requires UniqueIds(names, rows)
    ensures var direct, at := Direct(names, rows, key, refs), ProjectsAt(rt, names, rows, user, key, refs, 0);
            if direct.Some? && direct.value in OwnedProjects(rows, user) then at == {direct.value} else at == {}
  {
    AtMostOne(RowsNamed(names, rows, key));
    if key !in refs {
      forall id <- ProjectsAt(rt, names, rows, user, key, refs, 0) ensures RowsNamed(names, rows, key) == {id} {
        assert id in RowsNamed(names, rows, key);
      }
      if |RowsNamed(names, rows, key)| == 1 {
        assert TheOne(RowsNamed(names, rows, key)) in RowsNamed(names, rows, key);
      }
    }
  }

  lemma MatchLevels(rt: Runtime, names: Naming, rows: Rows, user: string, key: string, refs: map<string, RowId>)
    ensures ProjectMatches(rt, rows, user, key)
            == FirstOf([ProjectsAt(rt, names, rows, user, key, refs, 1),
                        ProjectsAt(rt, names, rows, user, key, refs, 2),
                        ProjectsAt(rt, names, rows, user, key, refs, 3), {}])
  {
    hide Norm, WithoutProjectWord;
    var owned, wanted := OwnedProjects(rows, user), Norm(rt, key);
    var exact := set id | id in owned && rt.sqlLower(rows[id].name) == rt.lower(key);
    var loose := set id | id in owned && wanted != [] && Norm(rt, rows[id].name) == wanted;
    var bare := WithoutProjectWord(wanted);
    var rest := set id | id in owned && bare != [] && Norm(rt, rows[id].name) == bare;
    assert exact == ProjectsAt(rt, names, rows, user, key, refs, 1);
    assert loose == ProjectsAt(rt, names, rows, user, key, refs, 2);
    assert rest == ProjectsAt(rt, names, rows, user, key, refs, 3);
    FirstOfFour(exact, loose, rest, {});
    assert bare != [] ==> rest == set id | id in owned && Norm(rt, rows[id].name) == bare;
  }

  /** Words find a project exactly when the first level that matches anything matches it
      alone; they are refused as ambiguous exactly when it matches more, and as unknown
      exactly when no level matches. */
  lemma ProjectFoundIff(rt: Runtime, names: Naming, rows: Rows, user: string, ref: Arg, refs: map<string, RowId>,
                        id: RowId)
    requires UniqueIds(names, rows)
    ensures var key, r := Str(ref), ResolveProject(rt, names, rows, user, ref, refs);
            var found := FirstOf([ProjectsAt(rt, names, rows, user, key, refs, 0),
                                  ProjectsAt(rt, names, rows, user, key, refs, 1),
                                  ProjectsAt(rt, names, rows, user, key, refs, 2),
                                      ProjectsAt(rt, names, rows, user, key, refs, 3)]);
            && (r == Ok(id) <==> !Blank(ref) && found == {id})
            && (r == Err(NoProjectNamed) <==> Blank(ref))
            && (r == Err(NoProjectCalled(key)) <==> !Blank(ref) && found == {})
            && (r == Err(ManyProjectsCalled(key)) <==> !Blank(ref) && |found| > 1)
  {
    hide ProjectMatches, Direct, ProjectAt, ProjectsAt, OwnedProjects;
    var key := Str(ref);
    DirectLevel(rt, names, rows, user, key, refs);
    MatchLevels(rt, names, rows, user, key, refs);
    var a, b := ProjectsAt(rt, names, rows, user, key, refs, 0), ProjectsAt(rt, names, rows, user, key, refs, 1);
    var c, d := ProjectsAt(rt, names, rows, user, key, refs, 2), ProjectsAt(rt, names, rows, user, key, refs, 3);
    FirstOfFour(a, b, c, d);
    FirstOfFour(b, c, d, {});
    Sole(FirstOf([b, c, d, {}]), id);
  }
}
