/**
 A used un-skip receipt can be accepted again: nothing but dates and markers binds it to the row
 it moved, and those can all come back.
 */
module SpentReceipt {
  import opened Common
  import opened Calendar
  import opened Store
  import opened TaskRecurrence
  import opened TaskTrash
  import opened Invariant
  import opened Runs
  import opened Guarantees
  import RestoreUndo
  import TaskSteps
  import SessionRestore
  import Forest
  import Tasks

  /** One occurrence of a daily series, in General. */
  function Occurrence(due: Date): Task {
    Task(GENERAL, None, Content("", None, 0, None), Open, Some(due), Some(Interval(Day, 1)), Some("series"), false, false, false, None,
         None)
  }

  /** Row 1 is the skipped occurrence of day 10; rows 2 and 3 are live ones. */
  function Three(skipped: bool, second: Date, third: Date, events: seq<Event>): State {
    State(map[1 := Occurrence(10).(deleted := true, skipped := skipped, superseded := !skipped),
              2 := Occurrence(second), 3 := Occurrence(third)],
          map[GENERAL := Project(true, false)], [], events)
  }

  /** The receipt of the un-skip that brought row 2 from day 11 to day 10, logged as event `n`. */
  function Unskipped(n: int): Receipt {
    Receipt(2, n, [], false, None, Some(Unskip(10, 1, [Rescheduled(2, Some(11))])))
  }

  lemma NoLinks(s: State)
    requires forall x :: x in s.tasks ==> s.tasks[x].parent.None?
    ensures ParentLinks(s.tasks) == map[] && LiveLinks(s.tasks) == map[]
    ensures Forest.Acyclic(map[]) && forall x, y :: Forest.Reaches(map[], x, y) ==> x == y
  {
    var none: Forest.Links := map[];
    forall x ensures x !in ParentLinks(s.tasks) && x !in LiveLinks(s.tasks) {
    }
    assert ParentLinks(s.tasks) == none && LiveLinks(s.tasks) == none;
    forall x, y | Forest.Reaches(none, x, y) ensures x == y {
      var k: nat :| Forest.Climbs(none, x, k, y);
    }
  }

  lemma StoreWellFormed(skipped: bool, second: Date, third: Date, events: seq<Event>)
    ensures WellFormed(Three(skipped, second, third, events))
  {
    NoLinks(Three(skipped, second, third, events));
    hide Forest.Acyclic;
  }

  lemma StoreConsistent(skipped: bool, second: Date, third: Date, events: seq<Event>)
    requires second != third
    ensures Consistent(Three(skipped, second, third, events))
  {
    var s := Three(skipped, second, third, events);
    StoreWellFormed(skipped, second, third, events);
    NoLinks(s);
    hide WellFormed, Sound, Forest.Reaches;
    assert FlatSeries(s.tasks);
  }

  lemma LoneWalk(s: State, x: int)
    requires WellFormed(s) && forall y :: y in s.tasks ==> s.tasks[y].parent.None?
    ensures ActiveWalk(s, x) == [x]
  {
    NoLinks(s);
    LiveLinksOffCycle(s, x);
    var up := LiveLinks(s.tasks);
    assert Forest.Kids(up, x) == {};
    assert Sorted({}) == [];
    assert Forest.PreOrderAll(up, x, []) == [];
  }

  /** Row 2's newest `restored` event is event `n`. */
  predicate Bound(events: seq<Event>, n: int) {
    && 1 <= n <= |events| && events[n - 1].entity == TaskEntity && events[n - 1].entityId == 2 && events[n - 1].action == Restored
    && forall i :: n <= i < |events| ==> !(events[i].entity == TaskEntity && events[i].entityId == 2 && events[i].action == Restored)
  }

  /** With row 2 on day 10 and row 1 superseded, the receipt is accepted. */
  lemma Accepted(third: Date, events: seq<Event>, n: int)
    requires Bound(events, n) && third != 10 && third != 11
    ensures var s := Three(false, 10, third, events);
            && WellFormed(s) && Accepts(s, Unskipped(n))
  {
    hide WellFormed, Sound, ActiveWalk, BoundToRestore, FindLiveOn, SkippedOn, Accepts, Unskipped;
    var s := Three(false, 10, third, events);
    StoreWellFormed(false, 10, third, events);
    LoneWalk(s, 2);
    OpenDates(third, events);
    BoundIs(s, n);
    RowsAccepted(s, n);
  }

  /** Nobody else is on day 11, and nothing skipped holds day 10. */
  lemma OpenDates(third: Date, events: seq<Event>)
    requires third != 10 && third != 11
    ensures var s := Three(false, 10, third, events);
            && FindLiveOn(s, "series", 11, {2}).None? && !SkippedOn(s, "series", 10)
            && Live(s, 2) && s.tasks[2].series == Some("series") && s.tasks[2].due == Some(10)
            && Trashed(s, 1) && s.tasks[1].superseded && s.tasks[1].series == Some("series") && s.tasks[1].due == Some(10)
  {
    var s := Three(false, 10, third, events);
    assert LiveOn(s, "series", 11) - {2} == {};
  }

  lemma RowsAccepted(s: State, n: int)
    requires WellFormed(s) && BoundToRestore(s, Unskipped(n)) && ActiveWalk(s, 2) == [2]
    requires FindLiveOn(s, "series", 11, {2}).None? && !SkippedOn(s, "series", 10)
    requires Live(s, 2) && s.tasks[2].series == Some("series") && s.tasks[2].due == Some(10)
    requires Trashed(s, 1) && s.tasks[1].superseded && s.tasks[1].series == Some("series") && s.tasks[1].due == Some(10)
    ensures Accepts(s, Unskipped(n))
  {
    ReceiptParts();
    hide WellFormed, Sound, ActiveWalk, PreviousMap, BoundToRestore, FindLiveOn, SkippedOn;
  }

  lemma BoundIs(s: State, n: int)
    requires Bound(s.events, n)
    ensures BoundToRestore(s, Unskipped(n))
  {
  }

  lemma ReceiptParts()
    ensures PreviousMap([Rescheduled(2, Some(11))]) == map[2 := Some(11)]
    ensures FirstNamed([Rescheduled(2, Some(11))]) == [2]
  {
    var previous := [Rescheduled(2, Some(11))];
    assert previous[..0] == [];
    assert FirstNamed(previous[..0]) == [];
  }

  lemma NothingStamped(s: State)
    requires forall x :: x in s.tasks ==> s.tasks[x].withTask.None?
    ensures Stamped(s, 1) == {} && Sorted(Stamped(s, 1)) == []
  {
    forall x ensures x !in Stamped(s, 1) {
    }
    assert Stamped(s, 1) == {};
  }

  lemma TwoEvents(s: State, previous: seq<Rescheduled>)
    requires 2 in s.tasks && FirstNamed(previous) == [2]
    ensures Tasks.TaskEvents(s.tasks, FirstNamed(previous), Updated, Usual) == [TaskEvent(s.tasks[2], 2, Updated, Usual)]
    ensures Tasks.TaskEvents(s.tasks, SupersededOf(s, []), Updated, BackNote) == []
  {
    assert [2][1..] == [];
  }

  /** Using it moves row 2 to day 11 and makes row 1 the skipped occurrence. */
  lemma Used(third: Date, events: seq<Event>, n: int)
    requires Bound(events, n) && third != 10 && third != 11
    ensures var s := Three(false, 10, third, events);
            && WellFormed(s)
            && var r := Attempt(s, UndoTask(Unskipped(n)), Never);
            r.Ok? && r.value == Three(true, 11, third, r.value.events) && Bound(r.value.events, n)
  {
    hide WellFormed, Sound, Accepts, PreviousMap, FirstNamed, Attempt, Three, Unrewound, Bound;
    Accepted(third, events, n);
    UsedRows(third, events, n);
    UsedStep(Three(false, 10, third, events), n);
  }

  lemma UsedStep(s: State, n: int)
    requires WellFormed(s) && Accepts(s, Unskipped(n))
    requires Trashed(s, 1) && forall x :: x in PreviousMap([Rescheduled(2, Some(11))]) ==> x in s.tasks
    ensures Attempt(s, UndoTask(Unskipped(n)), Never) == Ok(Unrewound(s, Unskipped(n).unskip.value))
  {
    hide WellFormed, Sound, Accepts, PreviousMap, Unrewound;
  }

  /** The rows with row 2 back on day 11. */
  function Back(third: Date, events: seq<Event>): State {
    Three(false, 11, third, events)
  }

  lemma BackIs(third: Date, events: seq<Event>)
    ensures var s := Three(false, 10, third, events);
            && Trashed(s, 1) && 2 in s.tasks && 2 in Back(third, events).tasks
            && Back(third, events) == s.(tasks := map x | x in s.tasks ::
                 if x in map[2 := Some(11)] then s.tasks[x].(due := map[2 := Some(11)][x]) else s.tasks[x])
            && forall x :: x in Back(third, events).tasks ==> Back(third, events).tasks[x].withTask.None?
  {
    var s := Three(false, 10, third, events);
    var moved := map x | x in s.tasks :: if x in map[2 := Some(11)] then s.tasks[x].(due := map[2 := Some(11)][x]) else s.tasks[x];
    assert moved == Back(third, events).tasks;
  }

  lemma UsedRows(third: Date, events: seq<Event>, n: int)
    requires Bound(events, n)
    ensures var s, u := Three(false, 10, third, events), Unskipped(n).unskip.value;
            && Trashed(s, u.superseded) && (forall x :: x in PreviousMap(u.previous) ==> x in s.tasks)
            && var t := Unrewound(s, u);
            t == Three(true, 11, third, t.events) && Bound(t.events, n)
  {
    var s, u := Three(false, 10, third, events), Unskipped(n).unskip.value;
    ReceiptParts();
    BackIs(third, events);
    var moved := Back(third, events);
    NothingStamped(moved);
    TwoEvents(moved, u.previous);
    hide WellFormed, Sound, PreviousMap, FirstNamed, Sorted, Stamped, Tasks.TaskEvents, SupersededOf, Unrewound, Three, Back;
    UnrewoundParts(s, u, moved);
    UsedEnds(third, events, Unrewound(s, u), n);
  }

  lemma UsedEnds(third: Date, events: seq<Event>, t: State, n: int)
    requires var s, moved := Three(false, 10, third, events), Back(third, events);
             && t.projects == s.projects && t.edges == s.edges && t.tasks.Keys == s.tasks.Keys && Bound(events, n)
             && (forall x :: x in s.tasks && x != 1 ==> t.tasks[x] == moved.tasks[x])
             && t.tasks[1] == moved.tasks[1].(superseded := false, skipped := moved.tasks[1].deleted)
             && |t.events| == |s.events| + 2 && s.events <= t.events
             && t.events[|s.events|].action == Updated && t.events[|s.events| + 1].action == SkippedAction
    ensures t == Three(true, 11, third, t.events) && Bound(t.events, n)
  {
    assert t.tasks == Three(true, 11, third, t.events).tasks;
  }

  lemma UnrewoundParts(s: State, u: Unskip, moved: State)
    requires Trashed(s, u.superseded) && (forall x :: x in PreviousMap(u.previous) ==> x in s.tasks)
    requires moved == s.(tasks := map x | x in s.tasks ::
                           if x in PreviousMap(u.previous) then s.tasks[x].(due := PreviousMap(u.previous)[x]) else s.tasks[x])
    requires Stamped(moved, u.superseded) == {} && Sorted(Stamped(moved, u.superseded)) == []
    requires FirstNamed(u.previous) == [2] && 2 in moved.tasks
    requires Tasks.TaskEvents(moved.tasks, [2], Updated, Usual) == [TaskEvent(moved.tasks[2], 2, Updated, Usual)]
    ensures var t, o := Unrewound(s, u), u.superseded;
            && t.projects == s.projects && t.edges == s.edges && t.tasks.Keys == s.tasks.Keys && o in s.tasks
            && (forall x :: x in s.tasks && x != o ==> t.tasks[x] == moved.tasks[x])
            && t.tasks[o] == moved.tasks[o].(superseded := false, skipped := moved.tasks[o].deleted)
            && |t.events| == |s.events| + 2 && s.events <= t.events
            && t.events[|s.events|].action == Updated && t.events[|s.events| + 1].action == SkippedAction
  {
    hide PreviousMap, FirstNamed, Sorted, Stamped;
    assert SupersededOf(moved, []) == [];
    assert Tasks.TaskEvents(moved.tasks, [], Updated, BackNote) == [];
  }

  lemma Solitary(s: State, day: Date, x: int)
    requires forall y :: y in s.tasks && y != x && !s.tasks[y].deleted ==> s.tasks[y].due != Some(day)
    ensures FindLiveOn(s, "series", day, {x}).None?
  {
    forall y ensures y !in LiveOn(s, "series", day) - {x} {
    }
  }

  /** Giving row 2 or row 3 another date that nobody holds. */
  lemma Moved(s: State, x: int, day: Date)
    requires WellFormed(s) && Live(s, x) && s.tasks[x].repeat == Some(Interval(Day, 1)) && s.tasks[x].series == Some("series")
    requires s.tasks[x].due != Some(day) && day < MAX_ORDINAL
    requires forall y :: y in s.tasks && y != x && !s.tasks[y].deleted ==> s.tasks[y].due != Some(day)
    ensures var r := Attempt(s, MoveDue(x, Some(day)), Never);
            && r.Ok? && r.value.tasks == s.tasks[x := s.tasks[x].(due := Some(day))]
            && r.value.projects == s.projects && r.value.edges == s.edges
            && r.value.events == s.events + [TaskEvent(s.tasks[x], x, Updated, Usual)]
  {
    Solitary(s, day, x);
    DatedWellFormed(s, x, Some(day));
    hide WellFormed, Sound, Reconcile, FindLiveOn;
    NeverReconciles(Dated(s, x, Some(day)), [x]);
  }

  lemma MoveSecond(skipped: bool, second: Date, third: Date, events: seq<Event>, day: Date, n: int)
    requires Bound(events, n) && day != second && day != third && day < MAX_ORDINAL
    ensures var s := Three(skipped, second, third, events);
            && WellFormed(s)
            && var r := Attempt(s, MoveDue(2, Some(day)), Never);
            r.Ok? && r.value == Three(skipped, day, third, r.value.events) && Bound(r.value.events, n)
  {
    var s := Three(skipped, second, third, events);
    StoreWellFormed(skipped, second, third, events);
    hide WellFormed, Sound, Attempt;
    Moved(s, 2, day);
    assert s.tasks[2 := s.tasks[2].(due := Some(day))] == Three(skipped, day, third, []).tasks;
  }

  lemma MoveThird(skipped: bool, second: Date, third: Date, events: seq<Event>, day: Date, n: int)
    requires Bound(events, n) && day != second && day != third && day < MAX_ORDINAL
    ensures var s := Three(skipped, second, third, events);
            && WellFormed(s)
            && var r := Attempt(s, MoveDue(3, Some(day)), Never);
            r.Ok? && r.value == Three(skipped, second, day, r.value.events) && Bound(r.value.events, n)
  {
    var s := Three(skipped, second, third, events);
    StoreWellFormed(skipped, second, third, events);
    hide WellFormed, Sound, Attempt;
    Moved(s, 3, day);
    assert s.tasks[3 := s.tasks[3].(due := Some(day))] == Three(skipped, second, day, []).tasks;
  }

  // ---- restoring row 1 ----------------------------------------------------------------------

  /** Row `x`, the nearer of rows 2 and 3, on day 10 in place of row 1. */
  function Rewound(second: Date, third: Date, x: int, events: seq<Event>): State {
    Three(false, if x == 2 then 10 else second, if x == 3 then 10 else third, events)
  }

  predicate Nearer(second: Date, third: Date, x: int) {
    10 < second && 10 < third && ((x == 2 && second < third) || (x == 3 && third < second))
  }

  /** Restoring the skipped row 1 rewinds the nearer row and answers with the receipt of that. */
  lemma Unskips(second: Date, third: Date, x: int, events: seq<Event>)
    requires Nearer(second, third, x)
    ensures var s, due := Three(true, second, third, events), if x == 2 then second else third;
            && WellFormed(s) && Trashed(s, 1)
            && var log := events + [TaskEvent(s.tasks[1], 1, Updated, SupersededNote)] + [TaskEvent(s.tasks[x], x, Restored, Usual)];
            RestoreTask(s, 1, false, Never)
            == Ok(Restoration(Rewound(second, third, x, log), x,
                              Receipt(x, |log|, [], false, None, Some(Unskip(10, 1, [Rescheduled(x, Some(due))])))))
  {
    var s := Three(true, second, third, events);
    hide *;
    StoreWellFormed(true, second, third, events);
    ThreeRows(true, second, third, events);
    NearerIs(second, third, x);
    NearerFollower(second, third, x, events);
    LoneWalk(s, x);
    SessionRestore.RewindFacts(s, 1);
    SessionRestore.RestoreIs(s, 1, false, Never);
    SessionRestore.RewindIs(s, 1, Never);
    OnlyRow(s, x);
    var mid := TaskTrash.Superseded(OnDay(s, {x}, 10), 1);
    NeverReconciles(mid, [x]);
    NoEvents(mid);
    RewoundIs(second, third, x, events);
    SessionRestore.LogIs(mid, x);
    RestoredIs(second, third, x, events, mid);
  }

  lemma NearerIs(second: Date, third: Date, x: int)
    requires Nearer(second, third, x)
    ensures x == 2 || x == 3
    ensures (if x == 2 then second else third) != 10
  {
  }

  lemma NoEvents(s: State)
    ensures Tasks.TaskEvents(s.tasks, [], Updated, Usual) == []
    ensures s.(events := s.events + []) == s
  {
    assert s.events + [] == s.events;
  }

  lemma ThreeRows(skipped: bool, second: Date, third: Date, events: seq<Event>)
    ensures var s := Three(skipped, second, third, events);
            && Trashed(s, 1) && 1 in s.tasks && s.tasks[1].superseded == !skipped && s.tasks[1].due == Some(10)
            && 2 in s.tasks && s.tasks[2].due == Some(second) && 3 in s.tasks && s.tasks[3].due == Some(third)
            && (forall x :: x in s.tasks ==> s.tasks[x].parent.None?)
  {
  }

  lemma OnlyRow(s: State, x: int)
    requires x in s.tasks && s.tasks[x].due != Some(10)
    ensures Elems([x]) == {x} && MovedRows(s.tasks, [x], 10) == [x] && Without([x], x) == []
    ensures PreviousDues(s.tasks, [x]) == [Rescheduled(x, s.tasks[x].due)]
  {
    assert MovedRows(s.tasks, [x][1..], 10) == [];
    assert Without([x][1..], x) == [];
    assert PreviousDues(s.tasks, [x][1..]) == [];
  }

  lemma NearerFollower(second: Date, third: Date, x: int, events: seq<Event>)
    requires Nearer(second, third, x)
    ensures var s := Three(true, second, third, events);
            IsUnskip(s, 1) && Followers(s, 1) != {} && FirstFollower(s, 1) == x
  {
    var s := Three(true, second, third, events);
    assert 3 in Followers(s, 1) && 2 in Followers(s, 1);
  }

  /** Row 1 retired, and the nearer row on its date. */
  lemma RewoundIs(second: Date, third: Date, x: int, events: seq<Event>)
    requires Nearer(second, third, x)
    ensures var s := Three(true, second, third, events);
            && 1 in OnDay(s, {x}, 10).tasks && 1 in s.tasks
            && TaskTrash.Superseded(OnDay(s, {x}, 10), 1)
               == Rewound(second, third, x, events + [TaskEvent(s.tasks[1], 1, Updated, SupersededNote)])
  {
    var s := Three(true, second, third, events);
    var moved := OnDay(s, {x}, 10);
    NothingStamped(moved);
    assert SkipCascade(moved, 1) == [1];
    assert Tasks.TaskEvents(moved.tasks, [1][1..], Updated, SupersededNote) == [];
    RetiredRows(s, moved, x, 1);
    var mid, t := TaskTrash.Superseded(moved, 1), Rewound(second, third, x, events);
    hide SkipCascade, Stamped, OnDay, TaskTrash.Superseded;
    assert mid.tasks.Keys == {1, 2, 3} && t.tasks.Keys == {1, 2, 3};
    assert mid.tasks == t.tasks;
  }

  /** With nothing stamped, only row `id` is retired, and only row `x` is on the new date. */
  lemma RetiredRows(s: State, moved: State, x: int, id: int)
    requires moved == OnDay(s, {x}, 10) && id in s.tasks && x != id && SkipCascade(moved, id) == [id]
    ensures id in moved.tasks
    ensures var t := TaskTrash.Superseded(moved, id);
            && t.tasks.Keys == s.tasks.Keys && t.projects == s.projects && t.edges == s.edges
            && t.events == s.events + Tasks.TaskEvents(moved.tasks, [id], Updated, SupersededNote)
            && forall y :: y in s.tasks ==>
                 t.tasks[y] == if y == id then s.tasks[y].(superseded := true, skipped := false)
                               else if y == x then s.tasks[y].(due := Some(10)) else s.tasks[y]
  {
    hide SkipCascade, Stamped;
  }

  lemma RestoredIs(second: Date, third: Date, x: int, events: seq<Event>, mid: State)
    requires Nearer(second, third, x)
    requires var s := Three(true, second, third, events);
             mid == Rewound(second, third, x, events + [TaskEvent(s.tasks[1], 1, Updated, SupersededNote)])
    ensures var s := Three(true, second, third, events);
            && x in mid.tasks && x in s.tasks
            && var log := mid.events + [TaskEvent(s.tasks[x], x, Restored, Usual)];
            && mid.(events := mid.events + [TaskEvent(mid.tasks[x], x, Restored, Usual)]) == Rewound(second, third, x, log)
            && mid.events + [TaskEvent(mid.tasks[x], x, Restored, Usual)] == log && LatestRestored(log, x) == |log|
            && mid.events == events + [TaskEvent(s.tasks[1], 1, Updated, SupersededNote)]
  {
  }

  /** The first restore: row 2 comes back from day 11, and the receipt it hands out is bound to it. */
  lemma FirstUnskip(events: seq<Event>)
    ensures var s := Three(true, 11, 12, events);
            && WellFormed(s) && Trashed(s, 1)
            && var r := RestoreTask(s, 1, false, Never);
            && r.Ok? && var n := r.value.receipt.eventId;
            && r.value.receipt == Unskipped(n) && Bound(r.value.state.events, n)
            && r.value.state == Three(false, 10, 12, r.value.state.events)
  {
    Unskips(11, 12, 2, events);
    var s := Three(true, 11, 12, events);
    var r := RestoreTask(s, 1, false, Never).value;
    hide WellFormed, Sound, RestoreTask;
    assert r.state.events[|events| + 1] == TaskEvent(s.tasks[2], 2, Restored, Usual);
  }

  /** Restoring row 1 again, with row 2 on day 13, rewinds row 3. */
  lemma UnskipAgain(events: seq<Event>, n: int)
    requires Bound(events, n)
    ensures var s := Three(true, 13, 12, events);
            && WellFormed(s)
            && var r := Attempt(s, RestoreOne(1), Never);
            r.Ok? && r.value == Three(false, 13, 10, r.value.events) && Bound(r.value.events, n)
  {
    hide WellFormed, Sound, RestoreTask, Attempt, LatestRestored, Bound, Rewound;
    Unskips(13, 12, 3, events);
    var s := Three(true, 13, 12, events);
    RestoreAttempt(s);
    var log := events + [TaskEvent(s.tasks[1], 1, Updated, SupersededNote)] + [TaskEvent(s.tasks[3], 3, Restored, Usual)];
    AgainIs(events, log, n);
  }

  lemma AgainIs(events: seq<Event>, log: seq<Event>, n: int)
    requires Bound(events, n) && |log| == |events| + 2 && events <= log
    requires log[|events|].action == Updated && log[|events| + 1].entityId == 3
    ensures Rewound(13, 12, 3, log) == Three(false, 13, 10, log) && Rewound(13, 12, 3, log).events == log && Bound(log, n)
  {
  }

  lemma RestoreAttempt(s: State)
    requires WellFormed(s) && Trashed(s, 1)
    ensures var r := RestoreTask(s, 1, false, Never);
            Attempt(s, RestoreOne(1), Never) == if r.Ok? then Ok(r.value.state) else Err(r.error)
  {
    hide WellFormed, Sound, RestoreTask;
  }

  // ---- the run --------------------------------------------------------------------------------

  /** Between the two uses: row 1 is un-skipped through row 3, then the dates are put back. */
  function Between(): seq<Step> {
    [MoveDue(2, Some(13)), RestoreOne(1), MoveDue(3, Some(20)), MoveDue(2, Some(10))]
  }

  /** The run from the store the first use leaves, step by step. */
  lemma BetweenRun(events: seq<Event>, n: int) returns (last: seq<Event>)
    requires Bound(events, n) && Consistent(Three(true, 11, 12, events))
    ensures Run(Three(true, 11, 12, events), Between(), Never) == Three(false, 10, 20, last) && Bound(last, n)
  {
    hide WellFormed, Sound, Consistent, Three, Bound, Attempt;
    MoveSecond(true, 11, 12, events, 13, n);
    var e2 := Attempt(Three(true, 11, 12, events), MoveDue(2, Some(13)), Never).value.events;
    UnskipAgain(e2, n);
    var e3 := Attempt(Three(true, 13, 12, e2), RestoreOne(1), Never).value.events;
    MoveThird(false, 13, 10, e3, 20, n);
    var e4 := Attempt(Three(false, 13, 10, e3), MoveDue(3, Some(20)), Never).value.events;
    MoveSecond(false, 13, 20, e4, 10, n);
    last := Attempt(Three(false, 13, 20, e4), MoveDue(2, Some(10)), Never).value.events;
    FourSteps(Three(true, 11, 12, events), Three(true, 13, 12, e2), Three(false, 13, 10, e3), Three(false, 13, 20, e4),
              Three(false, 10, 20, last));
  }

  lemma UsedIs(s: State, n: int)
    requires WellFormed(s)
    ensures Attempt(s, UndoTask(Unskipped(n)), Never) == UndoTaskRestore(s, Unskipped(n), Never)
  {
    hide WellFormed, Sound, UndoTaskRestore;
  }

  /**
   Skip, restore, undo; then the restore's own receipt is accepted a second time after a run of
   three date edits and one more restore, every store on the way keeping the invariant.
   */
  lemma UnskipReceiptTwice(events: seq<Event>)
    ensures var s := Three(true, 11, 12, events);
            && Consistent(s) && WellFormed(s) && Trashed(s, 1)
            && RestoreTask(s, 1, false, Never).Ok?
            && var restored, receipt := RestoreTask(s, 1, false, Never).value.state, RestoreTask(s, 1, false, Never).value.receipt;
            && Consistent(restored) && WellFormed(restored)
            && var first := UndoTaskRestore(restored, receipt, Never);
            && first.Ok? && Consistent(first.value)
            && var later := Run(first.value, Between(), Never);
            && WellFormed(later)
            && UndoTaskRestore(later, receipt, Never).Ok?
  {
    var s := Three(true, 11, 12, events);
    hide *;
    StoreConsistent(true, 11, 12, events);
    FirstUnskip(events);
    var restored := RestoreTask(s, 1, false, Never).value.state;
    var n := RestoreTask(s, 1, false, Never).value.receipt.eventId;
    StoreConsistent(false, 10, 12, restored.events);
    Used(12, restored.events, n);
    UsedIs(restored, n);
    TaskSteps.UndoKeeps(restored, Unskipped(n), Never);
    KeptIs(UndoTaskRestore(restored, Unskipped(n), Never));
    var last := BetweenRun(UndoTaskRestore(restored, Unskipped(n), Never).value.events, n);
    var late: Date := 20;
    Used(late, last, n);
    UsedIs(Three(false, 10, late, last), n);
  }

  lemma KeptIs(r: Result<State, Error>)
    requires TaskSteps.Keeps(r) && r.Ok?
    ensures Consistent(r.value)
  {
  }

  lemma FourSteps(a: State, b: State, c: State, d: State, e: State)
    requires Consistent(a) && WellFormed(a) && WellFormed(b) && WellFormed(c) && WellFormed(d)
    requires Attempt(a, Between()[0], Never) == Ok(b) && Attempt(b, Between()[1], Never) == Ok(c)
    requires Attempt(c, Between()[2], Never) == Ok(d) && Attempt(d, Between()[3], Never) == Ok(e)
    ensures Run(a, Between(), Never) == e
  {
    var steps := Between();
    StepKeeps(a, steps[0], Never);
    StepKeeps(b, steps[1], Never);
    StepKeeps(c, steps[2], Never);
    StepKeeps(d, steps[3], Never);
    hide WellFormed, Sound, Consistent, Attempt, Between;
    RunStep(a, steps, b);
    RunStep(b, steps[1..], c);
    RunStep(c, steps[1..][1..], d);
    RunStep(d, steps[1..][1..][1..], e);
    assert |steps| == 4 by { assert |Between()| == 4 by { FourLong(); } }
    assert steps[1..][1..][1..][1..] == [];
    assert Run(e, [], Never) == e;
  }

  lemma FourLong()
    ensures |Between()| == 4
  {
  }

  lemma RunStep(a: State, steps: seq<Step>, b: State)
    requires Consistent(a) && WellFormed(a) && steps != [] && Attempt(a, steps[0], Never) == Ok(b)
    ensures Consistent(b) && Run(a, steps, Never) == Run(b, steps[1..], Never)
  {
    StepKeeps(a, steps[0], Never);
    hide WellFormed, Sound, Consistent, Attempt;
  }
}
