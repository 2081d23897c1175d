/** What the runs of the store are about: a task made, put on a cadence, and skipped. */
module SeriesRuns {
  import opened Common
  import opened Calendar
  import opened Store
  import opened TaskRecurrence
  import opened Tasks
  import opened Invariant
  import opened Runs
  import opened Guarantees
  import Edits
  import TaskSteps
  import Forest

  /** A task due on day 10. */
  function Draft(): Edits.Draft {
    Edits.Draft(None, None, Content("", None, 0, None), None, Open, Some(10))
  }

  function Row(repeat: Option<Interval>, series: Option<string>): Task {
    Task(GENERAL, None, Content("", None, Edits.MEDIUM, None), Open, Some(10), repeat, series, false, false, false, None, None)
  }

  /** Row 1 alone. */
  ghost predicate Alone(s: State, t: Task) {
    s.tasks == map[1 := t] && s.projects == map[GENERAL := Project(true, false)] && s.edges == []
  }

  /** Make the task, make it daily, and skip it. */
  function Steps(): seq<Step> {
    [Create(Draft()), Recur(1, Some(Interval(Day, 1)), Some(10), "series"), Skip(1)]
  }

  function Start(): State {
    Edits.Started(map[GENERAL := Project(true, false)], [])
  }

  lemma Made()
    ensures var s := Start();
            WellFormed(s) && var r := Attempt(s, Steps()[0], Never); r.Ok? && Alone(r.value, Row(None, None))
  {
    var s := Start();
    Edits.StartedConsistent(s.projects, []);
    TaskSteps.ConsistentWellFormed(s);
    assert s.tasks.Keys == {};
    assert NextId(s.tasks.Keys) == 1;
    Edits.InsertedWellFormed(s, Draft());
    hide WellFormed, Sound, Reconcile;
    NeverReconciles(Edits.Inserted(s, Edits.DraftRow(s, Draft())), [1]);
  }

  lemma OneAlone(s: State, t: Task)
    requires Alone(s, t) && t.parent.None?
    ensures ParentLinks(s.tasks) == map[] && LiveLinks(s.tasks) == map[] && !Edits.NestsSeries(s, 1)
  {
    var none: Forest.Links := map[];
    assert ParentLinks(s.tasks) == none && LiveLinks(s.tasks) == none;
  }

  lemma Repeated(s: State)
    requires Alone(s, Row(None, None)) && WellFormed(s)
    ensures var r := Attempt(s, Steps()[1], Never);
            r.Ok? && Alone(r.value, Row(Some(Interval(Day, 1)), Some("series")))
  {
    OneAlone(s, Row(None, None));
    var repeat := Some(Interval(Day, 1));
    assert NextDue(10, repeat.value) == Some(11);
    assert MayRecur(s, 1, repeat, "series");
    Edits.RecurringWellFormed(s, 1, repeat, Some(10), "series");
    var mid := Edits.Recurring(s, 1, repeat, Some(10), "series");
    assert mid.tasks == map[1 := Row(repeat, Some("series"))];
    hide WellFormed, Sound, Reconcile, NextDue, MayRecur;
    NeverReconciles(mid, [1]);
  }

  lemma NextDayFree(s: State)
    requires Alone(s, Row(Some(Interval(Day, 1)), Some("series")))
    ensures RollForward(s, "series", 10, Interval(Day, 1)) == Ok(Slot(11, None))
  {
    assert NextDue(10, Interval(Day, 1)) == Some(11);
    assert LiveOn(s, "series", 11) - {} == {} && !SkippedOn(s, "series", 11);
  }

  lemma RowAlone(s: State, t: Task)
    requires Alone(s, t) && !t.deleted && t.parent.None?
    ensures Live(s, 1) && 1 in s.tasks && s.tasks[1] == t && s.tasks.Keys == {1} && s.edges == [] && NextId(s.tasks.Keys) == 2
  {
  }

  lemma InsertedNext(s: State, due: Date)
    requires WellFormed(s) && 1 in s.tasks && s.edges == []
    ensures InsertOccurrence(s, 1, due, Never).Ok?
  {
    LiveLinksOffCycle(s, 1);
    InsertIs(s, 1, due, Never);
    hide WellFormed, Sound, InsertOccurrence, Checklist, WithCopies;
    assert InnerEdges([], Checklist(s, 1)) == [];
  }

  lemma RowIsHead(s: State, t: Task)
    requires 1 in s.tasks && s.tasks[1] == t && t.repeat == Some(Interval(Day, 1)) && t.series == Some("series") && t.due == Some(10)
    requires WellFormed(s) && RollForward(s, "series", 10, Interval(Day, 1)) == Ok(Slot(11, None))
    ensures SeriesHead(s.tasks[1]) && CreateNext(s, 1, Never) == InsertOccurrence(s, 1, 11, Never)
    ensures LiveOn(s, "series", 11) == {} && !SkippedOn(s, "series", 11)
  {
    RollForwardLands(s, "series", 10, Interval(Day, 1));
    hide WellFormed, Sound, RollForward, InsertOccurrence, LiveOn, SkippedOn;
  }

  /** The next day is free, so skipping inserts the occurrence of day 11. */
  lemma NextMade(s: State)
    requires Alone(s, Row(Some(Interval(Day, 1)), Some("series"))) && WellFormed(s)
    ensures Live(s, 1) && SeriesHead(s.tasks[1])
    ensures var r := CreateNext(s, 1, Never);
            && r.Ok? && Spawned(s, r.value.0) && WellFormed(r.value.0) && r.value.0.tasks.Keys >= {1, 2}
            && r.value.0.tasks[1] == s.tasks[1] && r.value.0.tasks[2] == OccurrenceRow(s.tasks[1], 11)
  {
    var t := Row(Some(Interval(Day, 1)), Some("series"));
    RowAlone(s, t);
    NextDayFree(s);
    RowIsHead(s, t);
    InsertedNext(s, 11);
    OpenSlot(s, 11);
    hide WellFormed, Sound, RollForward, InsertOccurrence, CopiedTasks, Clonable, NextDue, Alone, CreateNext, OnOpenSlot, Spawned, OccurrenceRow,
         LiveOn, SkippedOn;
    CreateNextSpawned(s, 1, Never);
    InsertSpawned(s, 1, 11, Never);
    CopiedRow(s, 1, 11, 2);
  }

  lemma OpenSlot(s: State, due: Date)
    requires 1 in s.tasks && s.tasks[1].series == Some("series") && LiveOn(s, "series", due) == {} && !SkippedOn(s, "series", due)
    ensures OnOpenSlot(s, OccurrenceRow(s.tasks[1], due))
  {
  }

  /** Nothing hangs below row 1, so its sweep takes nothing. */
  lemma NothingSwept(s: State, next: State)
    requires WellFormed(s) && WellFormed(next) && s.tasks.Keys == {1} && s.tasks[1].parent.None? && Spawned(s, next)
    ensures Descendants(next, 1) == []
  {
    var up := LiveLinks(next.tasks);
    LiveLinksOffCycle(next, 1);
    hide WellFormed, Sound, SpawnEvent, OnOpenSlot;
    assert 1 in s.tasks.Keys;
    assert forall c :: c !in Forest.Kids(up, 1);
    assert Forest.Kids(up, 1) == {};
    assert Sorted({}) == [];
    assert Forest.PostOrderAll(up, 1, []) == [];
  }

  lemma SweepsNothing(s: State)
    requires WellFormed(s) && 1 in s.tasks && Descendants(s, 1) == []
    ensures SoftDeleteDescendants(s, 1, Never) == Ok(s)
  {
    CascadedWellFormed(s, [], 1);
    SeedsExist(s, []);
    assert Cascaded(s, [], 1).tasks == s.tasks && TaskEvents(s.tasks, [], Deleted, Usual) == [];
    assert s.events + [] == s.events;
    assert SeedsOf(s, []) == [] && Outside([], Elems([]) + {1}) == [];
    hide WellFormed, Sound, Reconcile, Descendants, Cascaded;
    NeverReconciles(s, []);
  }

  lemma Skipped(s: State)
    requires Alone(s, Row(Some(Interval(Day, 1)), Some("series"))) && WellFormed(s)
    ensures var r := Attempt(s, Steps()[2], Never);
            && r.Ok? && r.value.tasks.Keys >= {1, 2}
            && r.value.tasks[1] == Row(Some(Interval(Day, 1)), Some("series")).(deleted := true, skipped := true)
            && r.value.tasks[2] == Row(Some(Interval(Day, 1)), Some("series")).(due := Some(11))
  {
    var t := Row(Some(Interval(Day, 1)), Some("series"));
    RowAlone(s, t);
    NextMade(s);
    var next := CreateNext(s, 1, Never).value.0;
    hide WellFormed, Sound, CreateNext, SoftDeleteDescendants, Spawned, Descendants, Alone;
    NothingSwept(s, next);
    SweepsNothing(next);
  }

  /**
   A run from the start that holds a series: row 1 is its skipped occurrence of day 10, row 2 the live
   one of day 11.
   */
  lemma ASeriesRuns()
    ensures Consistent(Start())
    ensures var t, row := Run(Start(), Steps(), Never), Row(Some(Interval(Day, 1)), Some("series"));
            && 1 in t.tasks && t.tasks[1] == row.(deleted := true, skipped := true)
            && 2 in t.tasks && t.tasks[2] == row.(due := Some(11))
  {
    var s := Start();
    Edits.StartedConsistent(s.projects, []);
    hide *;
    Made();
    var a := Attempt(s, Steps()[0], Never).value;
    StepKeeps(s, Steps()[0], Never);
    TaskSteps.ConsistentWellFormed(a);
    Repeated(a);
    var b := Attempt(a, Steps()[1], Never).value;
    StepKeeps(a, Steps()[1], Never);
    TaskSteps.ConsistentWellFormed(b);
    Skipped(b);
    ThreeSteps(s, a, b, Attempt(b, Steps()[2], Never).value);
  }

  lemma ThreeSteps(s: State, a: State, b: State, c: State)
    requires Consistent(s) && WellFormed(s) && WellFormed(a) && WellFormed(b)
    requires Attempt(s, Steps()[0], Never) == Ok(a) && Attempt(a, Steps()[1], Never) == Ok(b) && Attempt(b, Steps()[2], Never) == Ok(c)
    ensures Run(s, Steps(), Never) == c
  {
    StepKeeps(s, Steps()[0], Never);
    StepKeeps(a, Steps()[1], Never);
    StepKeeps(b, Steps()[2], Never);
    var steps := Steps();
    assert steps[1..][1..][1..] == [];
    hide WellFormed, Sound, Consistent, Attempt;
    assert Run(b, steps[1..][1..], Never) == Run(c, [], Never);
    assert Run(a, steps[1..], Never) == Run(b, steps[1..][1..], Never);
  }
}
