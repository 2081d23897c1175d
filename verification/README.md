# Project Command Center, modelled and proved

A Dafny model of the parts of Project Command Center that make a promise about every run: the task
store (trash, restore, undo, purge, recurrence, dependencies), the Focus day and its stored plan,
and the agent's run protocol (tool loop, confirmation gate, per-conversation lock, replay, Stop).

`dafny verify dfyconfig.toml` checks everything.

## How it is laid out

**The task store.** `Store` holds the rows as a value `State` (tasks, projects, dependency edges, the
event log) and as a class `Database` whose fields the services update. Each service operation is
written twice: as a function on `State`, about which the promises are proved, and as a method on
`Database` in the `Session*` and `DependencyWalks`/`BlockerCounts` modules, with the source's own
loops, lists and writes in the source's own order, proved to leave exactly the store the function
gives. `Forest` and `Graph` are the facts about parent links and arrows both need.

- `TaskDependencies`, `DependencyWalks`, `BlockerCounts`: the wait graph, its guard, its walks.
- `TaskRecurrence`, `OccurrenceCopy`, `SessionRecurrence`: roll-forward, cloning, reconcile.
- `Tasks`, `TaskTrash`, `RestoreUndo`, `SessionTasks`, `SessionRestore`, `SessionUndo`: cascades,
  skips, restores in place, un-skip rewinds, and their undo.
- `Projects`, `ProjectUndo`, `SessionProjects`: trashing and restoring a project, and the undo that
  reads its sets back from the event log.
- `TaskPurge`, `ProjectPurge`, `Trash`, `SessionPurge`, `SessionTrash`: what a purge destroys and reports.
- `CyclicParents`: reconciling and cloning when stored parent links run in circles.
- `Effects`, `UndoEffects`: what each of these calls leaves, row by row and field by field; `Settling`: the
  tasks it reconciles; `Audit`: the events it logs.
- `Edits`, `Reparenting`: creating, completing and refiling a task, giving it a cadence, removing an
  edge; moving a task below another.
- `Invariant`, `TaskSteps`, `ProjectSteps`, `PurgeSteps`, `Runs`, `RunLog`, `WaitRuns`, `Guarantees`,
  `MovingRuns`, `SeriesRuns`: the joint invariant, kept by every call, and what follows over runs of
  any length; runs with moves; and a run that makes a series.
- `Marks`, `Retirement`, `SingleUse`, `SpentReceipt`: which call marks or frees which row, and from
  that exactly when a used un-skip receipt is accepted again, with a run that gets there.

**Focus.** `Calendar` is the civil calendar and the two cadence rules. `FocusLine` is a plain
scheduler on a line of minutes; `FocusPacker`, `Focus` and `FocusDay` are the gap-list packer as
methods, proved to give the same day; `FocusPartition` follows each task to its one place.
`FocusMeaning` says what a plan shows of the tasks, pins and commitments it was made from.
`FocusEntries`, `FocusPlan` and `FocusCommitments` are the stored plan, `FocusStored` packs a day
from it, and `FocusShown` says what a day shows entry by entry.

**The agent.** `AgentLoop` is the planner loop as nested loops over arbitrary provider, tool, clock
and Stop behaviour. `Confirmation` has the two tables and the gate as classes, `ConfirmationRuns`
any sequence of messages over them. `ConversationLocks`, `RunCancel` and `Conversations` are the
three shared structures as classes; `RunProtocol` is the message endpoint as steps any number of
requests take in any order, `RunSafety` its invariant, `RunGuarantees` what it promises and `RunAnswers` what its
clients are told.

## What turned out not to hold, and when it does

- A used receipt of a restore in place is refused over any run (`Guarantees.PlainReceiptNeverTwice`).
  A used un-skip receipt is not: from a skipped row, restore it, undo that, edit dates, restore it
  again onto another occurrence, and the first restore's own receipt is accepted a second time
  (`SpentReceipt.UnskipReceiptTwice`). It is accepted after a run if and only if a restore of that run
  retired the same row again, nothing since freed or destroyed it, and the receipt's event, date and
  occupancy checks pass (`SingleUse.SpentUnskipAcceptedIff`); so it is refused as long as no restore
  starts at a row whose cascade holds a skipped occurrence that is that row, or trashed it along,
  which can be read off the trash before each restore (`SingleUse.ReceiptOnceUntilARestore`).
- Reconciling ends on any dependency data and on parent links that run in circles
  (`TaskRecurrence.ReconcileReaches`, `CyclicParents.ReconcileOnALoop`), but for one thing: the clone of
  an occurrence recurses over live subtasks with no guard, and does not end if and only if the
  occurrence hangs below itself (`TaskRecurrence.CloningEndsIff`). So reconciling does not end if and only
  if its loop comes to visit an effectively done series head that has to insert its next occurrence
  and hangs below itself (`CyclicParents.ReconcileEndlessIff`; read off the store before,
  `CyclicParents.ReconcileEnds`). `CyclicParents.EndlessOnALoop` is such a store: two rows below each
  other, no edges, the daily one stored as done, which is what the roll-up then reads it as.
- Undoing a task restore is an exact inverse exactly when the trash looked as `UndoableInPlace`, or
  for an un-skip `UndoableUnskip` and `FreshCascade`, say; all three can be read off the trash before
  the restore (`RestoreUndo.UndoInPlaceIff`, `RestoreUndo.UndoUnskipIff`).
- `purge_selected` reports the right number of task rows always, and the right number of projects
  exactly when no purgeable project id is repeated across two chunks of 900 ids
  (`Trash.ProjectCountRightIff`, `Trash.ProjectCountedTwice`).
- Spawning the next occurrence is idempotent exactly for rows that carry a series id
  (`TaskRecurrence.CreateNextIdempotentIff`).
- The chained and the anchored monthly rules part ways, and exactly when is
  `Calendar.ChainedMonthAgreesIff`.

## Model

| member | source | states |
|---|---|---|
| TaskDependencies.AddDependencyExact | backend/app/services/task_dependencies.py:244-301 | On an acyclic wait graph the guard is exact: an edge between two live, distinct, unfinished, not yet linked tasks is added if and only if the combined graph of edges and parent-to-subtask links stays acyclic with it. |
| TaskDependencies.AncestorRefused | backend/app/services/task_dependencies.py:201-212 | A subtask is never made to wait on its own ancestor, and the refusal names that reason. |
| DependencyWalks.Closure | backend/app/services/task_dependencies.py:111-161 | The level-batched closure ends on any graph, cyclic or not, and its keys are exactly the nodes reachable from the seeds, each with its complete successor list in edge order. |
| DependencyWalks.WaitsOn | backend/app/services/tasks.py:361-403 | Ends on any graph and answers exactly reachability along blockers and subtasks. |
| DependencyWalks.IsAncestor | backend/app/services/task_dependencies.py:201-212 | Ends on a cyclic parent chain too, and is true exactly for ancestors. |
| DependencyWalks.AddDependency | backend/app/services/task_dependencies.py:244-301 | The method leaves exactly the store the specified guard and insert give, or the same error with nothing written. |
| BlockerCounts.TopLevelBlockerCounts | backend/app/services/task_dependencies.py:403-476 | An entry for exactly the requested top-level blockers, each the number of tasks waiting on it through unfinished tasks only. |
| BlockerCounts.CountsMean | backend/app/services/task_dependencies.py:403-476 | A task is a top-level blocker when an unfinished task waits for it and it waits for no unfinished one; what is counted for it is exactly the tasks that wait for it over one active edge or more, each between unfinished tasks. |
| WaitRuns.RunNeverDeadlocks | backend/app/services/task_dependencies.py:189-198 | Over any run of store calls, creating tasks and adding and removing edges included, the wait graph stays acyclic: no task ever comes to wait on itself. |
| Reparenting.ReparentExact | backend/app/services/tasks.py:1212-1240 | Moving a task below another live one keeps the wait graph acyclic, and short of the depth cap its guard lets the move through if and only if the graph stays acyclic with it. |
| Effects.MovedRow | backend/app/services/tasks.py:1212-1240 | A move that goes through changes the task's parent and no other field, and no other row. |
| Effects.MoveTooDeepIff | backend/app/services/tasks.py:329-358 | A move is too deep if and only if some live row of the moved subtree would come to stand more than 50 levels deep, counted over live rows. |
| Settling.MoveSettlesBothEnds | backend/app/services/tasks.py:1393-1419 | After a move the task, the parent it left and the parent it came to each have, if they are finished occurrences, a live row on their next open date. |
| MovingRuns.NothingEverWaitsOnItself | backend/app/services/tasks.py:361-403 | From a database without tasks, over any run of store calls, edges added and removed, tasks moved below one another and cadences set, no task ever comes to wait on itself and no row to hang below itself. |
| Calendar.OrdinalRoundTrip | backend/app/services/task_recurrence.py:26-65 | Reading a date's year, month and day and writing them back gives the date, over the whole calendar. |
| Calendar.CivilRoundTrip | backend/app/services/task_recurrence.py:26-65 | Writing a civil date and reading it back gives the same fields. |
| Calendar.CivilOrder | backend/app/services/task_recurrence.py:26-65 | Later in the civil order is later in the ordinal order. |
| Calendar.NextDueIsLater | backend/app/services/task_recurrence.py:26-84 | The next due date is strictly later whatever the unit, or there is none before the calendar's end; this is what bounds every roll-forward. |
| Calendar.MonthStep | backend/app/services/task_recurrence.py:26-65 | A month step lands `every` months on, on the same day or that month's last. |
| Calendar.WeeklyFormulasAgree | backend/app/services/focus_plan.py:92-129 | With a weekday set holding just the anchor's weekday, the weekly set rule and the plain weekly rule accept the same days. |
| Calendar.WeekdaySetDays | backend/app/services/focus_plan.py:92-129 | With any nonempty set of weekdays a weekly series occurs on a day if and only if the day is not before the anchor and is one of these weekdays in every `every`-th calendar week, Monday first, from the anchor's own week on. |
| Calendar.StopCutsOff | backend/app/services/focus_plan.py:92-129 | With a stop date a series occurs exactly on the days before it on which it would occur without one. |
| Calendar.OccurrencesAreTheChain | backend/app/services/focus_plan.py:92-129 | For day and plain-week units the days the series occurs on are exactly the iterates of the chained rule. |
| Calendar.OneOccurrencePerMonth | backend/app/services/focus_plan.py:92-129 | A monthly series has exactly one occurrence in every `every`-th month from its own on, and none in any other. |
| Calendar.ChainedMonthDay | backend/app/services/task_recurrence.py:26-65 | The day of the k-th chained monthly date is the minimum of the start day and the lengths of the months visited. |
| Calendar.ChainedMonthAgreesIff | backend/app/services/focus_plan.py:92-129 | The k-th chained date is an occurrence of the anchored series if and only if no month passed on the way was shorter than the day the anchored rule asks for. |
| TaskRecurrence.RollForwardFirst | backend/app/services/task_recurrence.py:87-114 | Roll-forward names the first later cadence date that is not skipped-only, with the live row already there if any; it is refused exactly when every later representable date is skipped-only. |
| TaskRecurrence.CreateNextUnique | backend/app/services/task_recurrence.py:299-340 | Spawning keeps at most one live row per (series, date) by its own guard, without the unique index. |
| TaskRecurrence.CreateNextIdempotentIff | backend/app/services/task_recurrence.py:254-340 | Asked again, it hands back the same row and writes nothing, if and only if the source row carries a series id. |
| TaskRecurrence.ReconcileReaches | backend/app/services/task_recurrence.py:373-424 | On any parent and dependency data, cyclic included, the walk ends, visits exactly the rows its links reach from the seeds, and leaves every effectively done series head it visits with a live row on its next open date. |
| Settling.SeedContinues | backend/app/services/task_recurrence.py:373-424 | Every seed that is an effectively done series head has a live row on its next open date once the reconcile is through. |
| Settling.IdleReconcile | backend/app/services/task_recurrence.py:373-424 | When no effectively done series head is in reach of the seeds, reconciling writes nothing at all. |
| TaskRecurrence.CloningEndsIff | backend/app/services/task_recurrence.py:117-155 | The recursion of the clone, child by child, needs more nested calls than any number if and only if the row it starts from hangs below itself; otherwise as many as hang below it are enough. |
| SessionRecurrence.CloneTreeGives | backend/app/services/task_recurrence.py:117-155 | Nested deep enough, the recursion leaves exactly the specified rows, events and clone map. |
| TaskRecurrence.EndlessIff | backend/app/services/task_recurrence.py:254-340 | Spawning never ends if and only if the head has to insert a new occurrence and hangs below itself. |
| CyclicParents.ReconcileEndlessIff | backend/app/services/task_recurrence.py:373-424 | Reconciling never ends if and only if some pass of its loop visits an effectively done series head that, in the store of that pass, has to insert and hangs below itself. |
| CyclicParents.ReconcileEnds | backend/app/services/task_recurrence.py:373-424 | Read off the store before the call: it ends when no effectively done head among the rows its links reach both has to insert and hangs below itself. |
| CyclicParents.ReconcileOnALoop | backend/app/services/task_recurrence.py:373-424 | On two rows that hang below each other, with edges both ways or none, reconciling finishes and has seen both, under every roll-up that cuts cycles as the source's does. |
| CyclicParents.EndlessOnALoop | backend/app/services/task_recurrence.py:117-155 | On two such rows without edges, the daily one stored as done, every such roll-up reads it as done, and reconciling it exhausts every depth of the clone. |
| TaskRecurrence.ReconcileGrows | backend/app/services/task_recurrence.py:373-424 | Whatever the parent links, reconciling only adds fresh rows, changes no old row, and keeps one live row per slot. |
| OccurrenceCopy.CopyIsBijection | backend/app/services/task_recurrence.py:117-155 | Every new id of a cloned occurrence has exactly one source, and the clone map finds it again. |
| OccurrenceCopy.CopyOfRow | backend/app/services/task_recurrence.py:117-155 | Field by field: each clone has its source's title, description, priority, estimate and project, is open and due on the new date under the clone of its parent, of no series and no cadence, and carries no marker. |
| OccurrenceCopy.CopyOfHead | backend/app/services/task_recurrence.py:343-370 | The new occurrence has its source's content, project, cadence and series, is open, due on the new date, at the top level and unmarked. |
| OccurrenceCopy.CopyIsIsomorphic | backend/app/services/task_recurrence.py:158-203 | When the wait graph is acyclic, replaying the checklist's edges is never refused, and the result is an isomorphic copy: an edge joins two clones if and only if one joins their sources, and no new edge touches an old task. |
| SessionRecurrence.CloneSubtaskTree | backend/app/services/task_recurrence.py:117-155 | The recursive clone, filling its id map child by child, inserts exactly the specified rows and map. |
| SessionRecurrence.CloneDependencyEdges | backend/app/services/task_recurrence.py:158-203 | The edge loop replays exactly the inner edges, in row order. |
| SessionRecurrence.InsertOccurrence | backend/app/services/task_recurrence.py:343-370 | Insert, clone and replay leave exactly the specified store. |
| SessionRecurrence.CreateNextOccurrence | backend/app/services/task_recurrence.py:254-340 | The `while` over the due date ends and gives the specified row, spawned or found, or the specified refusal. |
| SessionRecurrence.Reconcile | backend/app/services/task_recurrence.py:373-424 | The queue-and-seen walk ends although it inserts rows, on cyclic parent links too, and leaves exactly the specified store or refusal; the one case asked to be away is the clone that never ends. |
| SessionTasks.SoftDeleteSubtree | backend/app/services/tasks.py:1629-1659 | The recursive cascade trashes every active descendant children first, stamps the root's id, logs each row once and collects the survivors' seeds. |
| SessionTasks.SoftDeleteTask | backend/app/services/tasks.py:1567-1589 | The cascade with its root, then the reconcile of what it left behind, is exactly the specified store. |
| SessionTasks.SoftDeleteDescendants | backend/app/services/tasks.py:1592-1626 | The same cascade without the root. |
| SessionTasks.SkipOccurrence | backend/app/services/task_recurrence.py:427-474 | Next occurrence first, then the checklist, then the row: exactly the specified store. |
| Effects.TrashRows | backend/app/services/tasks.py:1567-1659 | A delete trashes the row, which keeps its fields, and every live row below it through live rows, each stamped with the row; every other row stays as it was. |
| Effects.SkipRows | backend/app/services/task_recurrence.py:427-474 | A skip trashes the row and marks it skipped, trashes its live checklist under its stamp, and changes no other row. |
| Settling.TrashSettles | backend/app/services/tasks.py:1567-1589 | After a delete every task that stays and was the parent of a row that went, or waited for one by an active edge, is settled: a finished occurrence among them has its next one. |
| Audit.TrashLogs | backend/app/services/tasks.py:1629-1659 | On the tasks there were, a delete logs `deleted` on exactly the rows it takes, and nothing else. |
| Audit.SkipLogs | backend/app/services/task_recurrence.py:427-474 | A skip logs `skipped` on the occurrence, `deleted` on its checklist, and nothing else on the tasks there were. |
| TaskTrash.UndoTouchesOnlyItsReceipt | backend/app/services/task_trash.py:387-543 | Whatever receipt is replayed on whatever store, no row outside the receipt (and for an un-skip the stamped cascade) changes, up to freshly spawned rows. |
| TaskTrash.PlainReceiptWorksOnce | backend/app/services/task_trash.py:364-376 | A used receipt of a restore in place is refused in every later store whose log extends this one. |
| RestoreUndo.UndoInPlaceIff | backend/app/services/task_trash.py:387-470 | Undoing a restore in place (with or without a skip's cascade) gives every old row back exactly as it was if and only if a condition readable off the trash before the restore holds; under it the receipt is accepted. |
| RestoreUndo.UndoUnskipIff | backend/app/services/task_trash.py:473-543 | Undoing an un-skip rewind is accepted if and only if the rewind moved something and no other row reads as skipped on the date, and then is the exact inverse if and only if nothing of the skip's cascade had been superseded before. |
| RestoreUndo.CleanCascadeUndone | backend/app/services/task_trash.py:433-470 | When no row coming back was itself a skip, the receipt is accepted at once, and undoing it gives every row back if and only if the condition holds. |
| RestoreUndo.NestedSkipNotUndone | backend/app/services/task_trash.py:600-620 | A skipped row inside the cascade cannot come back as it was. |
| SessionRestore.Reschedule | backend/app/services/task_recurrence.py:556-575 | The whole active subtree is on the new date, and the answer lists exactly the rows whose date changed, with their old dates. |
| SessionRestore.Supersede | backend/app/services/task_trash.py:271-308 | The skipped row and what its skip stamped are retired, still in the trash. |
| SessionRestore.RewindLive | backend/app/services/task_trash.py:150-212 | The un-skip branch gives exactly the specified store and receipt. |
| SessionRestore.RestoreTaskWithUndo | backend/app/services/task_trash.py:110-268 | The whole restore, rewind or in place, gives exactly the specified store, receipt or refusal. |
| SessionRestore.RestoreMarkedDescendants | backend/app/services/task_trash.py:600-620 | The loop over what a delete had stamped restores exactly those rows, each as the specification restores it. |
| SessionUndo.RestoreTaskSubtree | backend/app/services/task_trash.py:623-676 | The row and exactly what its delete took come back, reconciled once. |
| SessionUndo.RetrashRestored | backend/app/services/task_trash.py:433-470 | The two reversed loops put exactly the receipt's rows back in the trash, one event each. |
| SessionUndo.UndoRestore | backend/app/services/task_trash.py:387-430 | Checks and both branches give exactly the specified store or refusal. |
| UndoEffects.RestoredRows | backend/app/services/task_trash.py:110-268 | When nothing its skip took was itself skipped, a restore in place brings back the row, and with a skipped row what its skip took, live and unmarked and in General if its project is gone; no other row changes, and the receipt names exactly these rows and the last event. |
| Effects.RestoreRefused | backend/app/services/task_trash.py:110-268 | A restore of a retired row is refused; one onto a slot a live row holds is refused and names the lowest such row; and no other restore in place is refused before it writes. |
| UndoEffects.SubtreeRows | backend/app/services/task_trash.py:623-676 | In the same case restoring a subtree brings back exactly the row and the rows its delete stamped, and counts the latter. |
| Settling.RestoreSettles | backend/app/services/task_trash.py:110-268 | Every row a restore in place brought back is settled. |
| Effects.RewindPicks | backend/app/services/task_trash.py:150-212 | A restore is an un-skip when a live row of the series is due on the skipped date or later; it rewinds one that no other such row precedes. |
| Effects.RewindRows | backend/app/services/task_trash.py:150-212 | An un-skip puts the live occurrence's whole live subtree on the skipped date, retires the skipped row and what its skip stamped, and changes no other row. |
| Audit.RewindLogs | backend/app/services/task_trash.py:150-212 | It logs `restored` on the live occurrence, `updated` on the other rows it moved and the retirement on each row it retired. |
| UndoEffects.PlainUndoAcceptedIff | backend/app/services/task_trash.py:364-430 | The undo of a restore in place is refused unless its receipt is of the task's newest `restored` event, names it first and no row twice, and every named row is live with no later event; otherwise its checks accept it. |
| UndoEffects.RetrashedRows | backend/app/services/task_trash.py:433-470 | It trashes exactly the receipt's rows, stamped with the root; the root gets back its own stamp if that root is in the trash, and its skip. |
| Audit.RetrashLogs | backend/app/services/task_trash.py:433-470 | It logs `deleted` on each of them, or `skipped` on a root that had been skipped. |
| Settling.RetrashSettles | backend/app/services/task_trash.py:433-470 | It settles the parents of the rows it puts back and the tasks that waited for them. |
| UndoEffects.UnskipUndoAcceptedIff | backend/app/services/task_trash.py:473-543 | The undo of an un-skip goes through if and only if the receipt is of the newest restore, the occurrence and every listed row still stand on the skipped date below it, the retired row is still retired there, nothing of the series is skipped there, and the date it goes back to is free. |
| UndoEffects.UnskipUndoneRows | backend/app/services/task_trash.py:473-543 | It gives each listed row its last listed date, makes the retired row the skipped one again, frees what its skip stamped, and changes nothing else. |
| Projects.BatchConflictIff | backend/app/services/projects.py:326-356 | Restoring a set of rows at once keeps one live row per (series, date) if and only if each takes a slot nobody else has or claims. |
| Projects.BatchCheckExact | backend/app/services/projects.py:326-356 | The check before a project restore passes if and only if bringing the whole archive back at once keeps that uniqueness. |
| SessionProjects.OccurrenceConflicts | backend/app/services/projects.py:326-356 | The loop filling the `claimed` dict decides exactly the specified check. |
| SessionProjects.SoftDeleteProject | backend/app/services/projects.py:204-267 | Archiving the project's live rows, stamping them and trashing the project leaves exactly the specified store. |
| SessionProjects.RestoreProject | backend/app/services/projects.py:369-492 | Both modes of a restore leave exactly the specified store and receipt. |
| SessionProjects.UndoProjectRestore | backend/app/services/projects.py:576-644 | Re-reading both sets from the log and re-archiving them leaves exactly the specified store or refusal. |
| Effects.ProjectTrashRows | backend/app/services/projects.py:204-267 | Trashing a project takes exactly its live rows, each stamped with it, and no other row or project. |
| Effects.ProjectRestoreRows | backend/app/services/projects.py:369-492 | With its tasks a project brings back exactly the trashed rows stamped with it; without, every row so stamped loses the stamp and stays where it is. |
| UndoEffects.ProjectUndoneRows | backend/app/services/projects.py:576-644 | Undoing a project's restore trashes its live rows under its stamp, stamps again the rows that restore had moved out and that are still in the trash, filed in it and unstamped, and changes no other row. |
| Settling.ProjectTrashSettles | backend/app/services/projects.py:204-267 | Trashing a project settles the tasks outside it that were parents of its rows or waited for them. |
| Settling.ProjectRestoreSettles | backend/app/services/projects.py:413-466 | Each row that comes back with a project is settled. |
| Audit.ProjectTrashLogs | backend/app/services/projects.py:204-267 | It logs `deleted` on each row it takes and last on the project. |
| Audit.ProjectRestoreLogs | backend/app/services/projects.py:369-492 | Its restore logs `restored` on each row that comes with it, or on each row left in the trash that it moved there, and last on the project. |
| ProjectUndo.LogRecoversRestore | backend/app/services/projects.py:507-550 | The sets recomputed from the event log are exactly the rows the restore returned and the rows it released, however far the log has grown since. |
| ProjectUndo.UndoAcceptedIff | backend/app/services/projects.py:553-573 | A receipt used at once is accepted exactly when nothing new was put in the project. |
| ProjectUndo.ProjectUndoIsInverse | backend/app/services/projects.py:576-644 | In both modes, unless recurrence created rows in between, undoing a project restore gives every row and marker back. |
| Guarantees.UndoSetsOverRuns | backend/app/services/projects.py:507-550 | Whatever calls run after a project restore, while the project is there, an undo recomputes exactly the rows that restore moved. |
| SessionPurge.DepthFirst | backend/app/services/task_trash.py:679-707 | The project-scoped walk lists exactly the trashed subtree, each row once, children before parents. |
| SessionPurge.DeleteInOrder | backend/app/services/task_trash.py:963-967 | At every point of the hard-delete loop no remaining row's parent is already gone. |
| SessionPurge.PurgeTask | backend/app/services/task_trash.py:860-967 | Severing edges, detaching survivors and deleting in order leaves exactly the specified store. |
| TaskPurge.PurgeLeavesNoReference | backend/app/services/task_trash.py:860-967 | After a purge nothing that survives names a destroyed id; every other row survives and loses its parent, or its cascade marker, only if that named a destroyed row, and nothing else. |
| Effects.PurgedRows | backend/app/services/task_trash.py:860-967 | What a purge destroys is the row and every row below it through trashed rows of its project, with exactly the edges at one of these; a row that stays keeps every field but a parent or a stamp that went. |
| Audit.PurgeLogs | backend/app/services/task_trash.py:720-967 | A purge logs `purged` on what it destroys, and on a survivor a lost dependency or a lost parent exactly when it lost one. |
| TaskPurge.PurgeStaysInTrash | backend/app/services/task_trash.py:679-707 | A purge destroys no live row and no row of another project. |
| ProjectPurge.PurgeEachReaches | backend/app/services/trash.py:70-109 | However purge roots overlap and in whatever order they are purged, what disappears is the union of their subtrees as they were at the start. |
| Trash.RemovedIsUnion | backend/app/services/trash.py:70-109 | The set computed up front is the subtrees of the selected tasks together with all the selected projects own. |
| Trash.PurgeReportsTasks | backend/app/services/trash.py:148-200 | A purge of any overlapping selection of tasks, ancestors and projects goes through, and the task rows it reports are exactly those that disappear. |
| Trash.ProjectCountRightIff | backend/app/services/trash.py:130-145 | The reported number of projects is right if and only if no purgeable id is repeated from one chunk of 900 ids to another. |
| Trash.ProjectCountedTwice | backend/app/services/trash.py:130-145 | A project named 901 times is counted twice and purged once. |
| Trash.EmptyTrashMatchesTotal | backend/app/services/trash.py:42-67 | Emptying the trash removes every trashed task and project and reports exactly what the count promised; run again it would report nothing. |
| SessionTrash.RemovedTaskIds | backend/app/services/trash.py:70-109 | The accumulating loop, which skips roots already covered, ends with the whole union. |
| SessionTrash.PurgeSelected | backend/app/services/trash.py:148-200 | The sequential purges leave exactly the specified store and counts. |
| SessionTrash.EmptyTrash | backend/app/services/trash.py:203-220 | The same for everything in the trash. |
| SessionTrash.PurgeProject | backend/app/services/projects.py:650-713 | A project and everything filed in it go, or nothing does. |
| PurgeSteps.PurgeProjectKeeps | backend/app/services/projects.py:650-713 | Purging a project never meets a live task and keeps the joint invariant. |
| ProjectSteps.RestoreProjectKeeps | backend/app/services/projects.py:413-466 | A project restore keeps the joint invariant in both modes. |
| TaskSteps.RewindUnique | backend/app/services/task_trash.py:150-212 | The rewind moves one live row of its series onto a date it alone will hold. |
| TaskSteps.ReviveKeeps | backend/app/services/task_trash.py:221-234 | One trashed row coming back keeps the joint invariant when its slot is free; it is filed in a live project. |
| Runs.StepKeeps | backend/app/services/task_trash.py:110-268 | Every call on the store keeps the joint invariant: filing, markers, one live row per slot, well-formed links, and the feed of a trashed project without `restored` task events. |
| Edits.CreateKeeps | backend/app/services/tasks.py:1151-1209 | A new task, below a parent or at the top, with what it inherits, keeps the joint invariant; in particular it is filed in a live project though nothing checks the inherited one. |
| Effects.CreatedRow | backend/app/services/tasks.py:1151-1209 | A new task has what it is given, and what it is not given of project, priority and due date from its parent, or else General, medium and none; no row that was there changes. |
| Effects.CreateRefused | backend/app/services/tasks.py:1151-1209 | Creating is refused for a project that is not live, then for a parent that is not live, then for a parent with 50 live rows from it up; it goes through only where none of these holds. |
| Edits.DoneKeeps | backend/app/services/tasks.py:1507-1545 | Completing a task, with the roll-forward it sets off, keeps the joint invariant. |
| Effects.DoneOutcome | backend/app/services/tasks.py:1507-1545 | Completing is refused for a task with live subtasks that is not effectively done, and for one without that is not stored as done while it waits by an active edge for a live task that is not effectively done; with live subtasks all done nothing happens, and otherwise the row is stored as done and no other row changes, or the roll-forward's own error comes back. |
| Audit.DoneLogs | backend/app/services/tasks.py:1507-1545 | It logs `completed` once, and only where the row was not done before. |
| Edits.RefileKeeps | backend/app/services/tasks.py:1393-1419 | Moving a task between projects keeps the joint invariant. |
| Effects.RefiledRow | backend/app/services/tasks.py:1393-1419 | Filing a task elsewhere changes its project, to General when none is named, and no other field or row. |
| Edits.RecurrenceKeeps | backend/app/services/tasks.py:1421-1504 | Setting, changing or clearing a cadence, with the series id the first one mints and the roll-forward it sets off, keeps the joint invariant. |
| Effects.RecurringRowIs | backend/app/services/tasks.py:1421-1504 | Setting a cadence changes cadence and date, mints a series id with the first cadence only, and changes no other field or row. |
| Effects.DueRow | backend/app/services/tasks.py:1421-1504 | A new due date changes the date and no other field or row, and goes through only where no live row of the series has it. |
| Effects.DueTaken | backend/app/services/tasks.py:1421-1504 | A date another live row of the series has is refused, and the refusal names the lowest such row, unless the date leaves the cadence no next one. |
| Edits.MintFlatIff | backend/app/services/tasks.py:1421-1428 | A minted series id leaves no series above or below another if and only if none was above or below the row. |
| Guarantees.EveryReachableStore | backend/app/services/projects.py:204-267 | In every store a run reaches from a consistent one a live task is filed in a live project, a series has at most one live row per date, no trashed task is outside both trash lists, and purging any trashed project goes through. |
| Guarantees.FromTheStart | backend/app/services/projects.py:204-267 | All of that, and an acyclic wait graph, in every store a run reaches from a database without tasks, series included: the run may set cadences, skip, un-skip and spawn. |
| SeriesRuns.ASeriesRuns | backend/app/services/task_recurrence.py:427-474 | Such a run: a task made, put on a daily cadence and skipped leaves its skipped row and the live occurrence of the next day in one series. |
| Guarantees.PlainReceiptNeverTwice | backend/app/services/task_trash.py:364-376 | Over any run, a used receipt of a restore in place is refused for ever. |
| Retirement.RestoreRetires | backend/app/services/task_trash.py:271-326 | A restore newly marks exactly the rows of the un-skips it performs, its own or those of skipped rows its cascade brings along, and trashes nothing. |
| Retirement.RetiresIff | backend/app/services/task_trash.py:271-326 | When nothing else in the cascade under the restored row is skipped, a row is retired if and only if the restore is an un-skip and the row is its own or was trashed with it. |
| SingleUse.StepRetires | backend/app/services/task_trash.py:271-308 | Only restoring a task marks a row superseded and only undoing an un-skip takes the mark from one; each call does so to exactly the rows named. |
| SingleUse.SpentUnskipAcceptedIff | backend/app/services/task_trash.py:473-543 | Over any run a used un-skip receipt is accepted again if and only if a restore in the run retired the same row again, nothing after that freed or destroyed it, and the event, date and occupancy checks of the undo pass. |
| SingleUse.ReceiptOnceUntilARestore | backend/app/services/task_trash.py:387-543 | Over any run a used receipt of a restore in place is refused, and a used un-skip receipt is refused as long as no restore of the run starts at a row whose cascade holds a skipped occurrence that is the row put back, or trashed it along. |
| SpentReceipt.UnskipReceiptTwice | backend/app/services/task_trash.py:473-543 | From a store with a skipped occurrence: the receipt its restore hands out is undone, and after four more calls accepted again. |
| FocusPacker.FreeGaps | backend/app/services/focus.py:166-186 | The gap list holds exactly the window minutes no fixed block covers, as maximal runs in order. |
| FocusPacker.Place | backend/app/services/focus.py:189-201 | Returns the earliest start whose whole run is free, or none if there is none, and shrinks the gap list to exactly the minutes left. |
| FocusLine.ScheduleIsSound | backend/app/services/focus.py:212-347 | Every non-fixed block is disjoint from every other and from every fixed interval and lies in the window unless it is a late floating pin; nothing that overflowed fits what is left. |
| FocusLine.PrefixIndependent | backend/app/services/focus.py:243-347 | The placement of a rank prefix does not depend on later tasks. |
| FocusLine.RankedSplit | backend/app/services/focus.py:243-347 | Each ranked task is in exactly one of scheduled-as-itself and overflow, and the two lists grow by their tasks in rank order. |
| FocusLine.PinsNeverOverflow | backend/app/services/focus.py:301-314 | Every floating pin gets a block of its own, in its order. |
| FocusLine.MinutesConserved | backend/app/services/focus.py:189-201 | Free minutes and placed minutes always add up to the same. |
| FocusLine.EmptyDayIsGreedy | backend/app/services/focus.py:212-347 | With no pins and no commitments the day is the plain greedy pack: each task in rank order exactly when it still fits, else those of its stand-ins that do, back to back and never more than is available. |
| Focus.RankSortRanks | backend/app/services/focus.py:96-111 | The ranking is a rearrangement in strictly ascending key order, so ties never decide. |
| Focus.RankSortMeans | backend/app/services/focus.py:52-111 | Of any two tasks the earlier in the ranking is in progress while the other is not; or at equal workflow overdue before due that day, before due within three days, before the rest; or there too equal more urgent; or shorter, half an hour standing in for no estimate; or has the lower id. |
| Focus.TimeRoundTrip | backend/app/services/focus.py:129-139 | A minute written as a clock time and read back is the same minute, on any day. |
| Focus.TryStandIns | backend/app/services/focus.py:322-331 | The subtask fallback in a parent's rank slot places exactly what the line scheduler places. |
| Focus.PlaceRankedTasks | backend/app/services/focus.py:316-345 | First fit in rank order refines the line scheduler. |
| FocusDay.Pack | backend/app/services/focus.py:212-347 | The gap-list packer gives the same day as the scheduler on the plain line of minutes, its blocks in time order. |
| FocusDay.GetFocusPlan | backend/app/services/focus.py:378-516 | The whole plan on what its queries return: blocked tasks, the packed day, the overflow, the minutes used. |
| FocusMeaning.FixedAreTimedPins | backend/app/services/focus.py:435-498 | The fixed blocks of a plan are exactly the pins of unblocked tasks that have a time and do not end before the window, at that time and for the task's minutes. |
| FocusMeaning.OtherPinsArePlaced | backend/app/services/focus.py:301-314 | Every other pin of an unblocked task gets a pinned block of the task's minutes. |
| FocusMeaning.OtherBlocksAre | backend/app/services/focus.py:316-345 | Every other block is of such a pin, or of an unblocked task nothing pins, or of a stand-in of one, for its own minutes. |
| FocusMeaning.NothingTwice | backend/app/services/focus.py:212-347 | In the plan no block but a fixed one shares a minute with another such block, a fixed block or a commitment, and it lies in the window unless it is a pin behind its end. |
| FocusMeaning.LatePinsFollow | backend/app/services/focus.py:301-314 | A pin behind the window starts where the window, a commitment, a fixed block or another such pin ends. |
| FocusMeaning.UsedIs | backend/app/services/focus.py:212-232 | The minutes a plan uses are those of its blocks and of the day's commitments that lie in or after the window. |
| FocusStored.GetStoredPlan | backend/app/services/focus.py:435-498 | The plan over the stored overlay: the commitments and skips shown are exactly the day's that are not over when the window opens, and no block but a timed pin shares a minute with anything that happens on the day, whether by one-off, series or one-day edit. |
| FocusDay.TimeSortSorts | backend/app/services/focus.py:346-351 | The blocks come back in time order, none lost and none added. |
| FocusPartition.EachTaskOnce | backend/app/services/focus.py:415-498 | Every source task appears exactly once across blocked, scheduled-as-itself and overflow. |
| FocusEntries.TradedNamed | backend/app/services/focus_plan.py:566-631 | After a reorder the named pins stand in the asked order. |
| FocusEntries.TradedOthers | backend/app/services/focus_plan.py:566-631 | Every pin the reorder does not name keeps its place. |
| FocusEntries.RenumberedOrder | backend/app/services/focus_plan.py:566-631 | Once renumbered, the day's pins list in the new order and in no other. |
| FocusPlan.Plan.ReorderPins | backend/app/services/focus_plan.py:566-631 | Accepted exactly for distinct live pins of the day; the named pins trade their slots and nothing else of any entry changes. |
| FocusPlan.Plan.PinTask | backend/app/services/focus_plan.py:353-379 | A day never holds two live pins of one task: pinning again moves the pin it has. |
| FocusShown.NewPinGoesLast | backend/app/services/focus_plan.py:283-291 | A new pin lists behind every pin of its day, and moves none of them. |
| FocusPlan.Plan.SkipOccurrence | backend/app/services/focus_plan.py:419-444 | Accepted exactly on an occurrence not edited by hand, and idempotent. |
| FocusPlan.Plan.EditOccurrence | backend/app/services/focus_plan.py:456-494 | Accepted exactly on an occurrence; it leaves one live exception of the series on the day. |
| FocusPlan.Plan.RestoreEntry | backend/app/services/focus_plan.py:653-676 | A removed entry comes back unless the day has the task, or an exception of the series, again. |
| FocusPlan.Plan.StopSeries | backend/app/services/focus_plan.py:497-526 | Stopping or reopening a series changes its end date and nothing else. |
| FocusPlan.RestoreExact | backend/app/services/focus_plan.py:653-676 | The restore's guard refuses exactly what would double up a pin or an exception. |
| FocusCommitments.DayCommitments | backend/app/services/focus_plan.py:175-247 | The day lists exactly what happens on it, in start order, and exactly what was skipped. |
| FocusShown.HappensMeans | backend/app/services/focus_plan.py:175-247 | What happens on a day: a live one-off of that day; an occurrence of a live series as usual when no live skip or edit of that day names the series; edited when a live edit of that day does; skipped when a live skip does. |
| FocusShown.ShownTimes | backend/app/services/focus_plan.py:203-247 | It shows the edit's times when there is one, and the entry's otherwise. |
| FocusCommitments.EachOccurrenceOnce | backend/app/services/focus_plan.py:203-247 | An occurrence of a live series is in exactly one state: as usual, edited, or skipped. |
| FocusCommitments.StopTakesTheRest | backend/app/services/focus_plan.py:497-526 | A stop takes away exactly the occurrences from its date on, and lifting it gives the series back. |
| AgentLoop.Run | backend/app/ai/loop.py:842-1088 | On every exit: each call of the transcript has one later answer, in order, and one record; dispatches are at most `max_tool_calls` and draw the tool outcomes in order; turns are at most `max_tool_calls + max_corrections + 1` without the iteration cap; every turn but the last spent a correction, as one with a malformed call always does, or ran a call that came back with an answer no earlier call of that tool and those arguments had; nothing of a turn runs after a landed question; and the stop reason says what happened. |
| AgentLoop.QuestionEndsRun | backend/app/ai/loop.py:1049-1070 | A run completes on a question if and only if some landed `ask_user` of it named candidates, and that question is then the last call that ran. |
| AgentLoop.WalkCalls | backend/app/ai/loop.py:948-1060 | One turn's calls: a clear prefix is dispatched, and the rest is refused for the one reason that ended it, each with its record and answer; after a landed question nothing runs, and the walk ends on it if and only if it names candidates. |
| AgentLoop.SkipRemaining | backend/app/ai/loop.py:1233-1255 | Each refused call gets one record and one answer, in order. |
| AgentLoop.EachCallOnce | backend/app/ai/loop.py:842-1088 | The n-th call of the transcript has the n-th record and the n-th answer, and there are no others. |
| AgentLoop.NothingStartsLate | backend/app/ai/loop.py:949-1018 | A call that ran started before any Stop, inside the deadline and past the gate. |
| Confirmation.Confirmations.Sweep | backend/app/ai/confirmation.py:114-119 | Exactly the expired tokens and the thread entries naming them are forgotten. |
| Confirmation.Confirmations.TakeForThread | backend/app/ai/confirmation.py:175-188 | The thread's question comes off both tables and is handed over if unexpired and unused. |
| Confirmation.Confirmations.Redeem | backend/app/ai/confirmation.py:191-206 | Refuses for exactly the first of unknown, used, expired, stale that applies, and spends the token whenever it got as far as the state check. |
| Confirmation.RedeemedMeans | backend/app/ai/confirmation.py:191-206 | Without the tables' own operations: a token is unknown when it is not there for this thread, used, expired from its last second on, or stale when its row no longer reads as previewed, the first that applies; it is spent exactly when it is known, unused and unexpired, and nothing else changes. |
| Confirmation.Confirmations.ForMessage | backend/app/ai/confirmation.py:209-215 | A replayed exchange shows a token exactly when one asked there would still be looked at. |
| Confirmation.Gate.Allows | backend/app/ai/confirmation.py:134-145 | True exactly for the identical call, unexpired, with the state it previewed; the question is used up either way. |
| Confirmation.Gate.Arm | backend/app/ai/confirmation.py:147-172 | Arms the call for 600 seconds in place of the thread's previous question, or nothing when the row is gone. |
| Confirmation.ArmedMatched | backend/app/ai/confirmation.py:162-172 | Arming keeps the unused tokens and the thread entries in one-to-one correspondence. |
| ConfirmationRuns.ConfirmedOnce | backend/app/ai/confirmation.py:101-206 | Over any run no question lets two calls through, by token or by re-issued call; each call let through is the one asked, on the asking thread, unexpired, with the previewed state; unused tokens and thread entries correspond one to one. |
| ConfirmationRuns.NextMessageVoids | backend/app/ai/confirmation.py:175-188 | The next message without the token voids the thread's question: no later message ever redeems it. |
| ConfirmationRuns.TokenRunsItOnce | backend/app/ai/confirmation.py:191-206 | For 600 seconds and while the rows read the same, the token runs exactly the armed call; whatever came of the first try, there is no second. |
| ConfirmationRuns.ReissueRunsItOnce | backend/app/ai/loop.py:990-1017 | The next message's run may re-issue the identical call, which then runs once; a second time it is a new question. |
| ConversationLocks.Registry.Checkout | backend/app/api/conversation_locks.py:41-48 | The conversation's lock, the same for everyone while anyone refers to it, with one more reference. |
| ConversationLocks.Registry.Checkin | backend/app/api/conversation_locks.py:51-58 | One reference fewer; the last one out drops the entry. |
| RunCancel.Registry.Enter | backend/app/api/run_cancel.py:52-61 | A run registers an event nobody has set. |
| RunCancel.Registry.Exit | backend/app/api/run_cancel.py:62-67 | Only the run's own entry is dropped. |
| RunCancel.Registry.RequestCancel | backend/app/api/run_cancel.py:77-90 | Sets the registered event and says whether there was one. |
| Conversations.Log.Find | backend/app/services/conversations.py:227-255 | The first turn carrying the key, and the next message of the thread if it is an answer. |
| Conversations.NextInGrows | backend/app/services/conversations.py:246-255 | Appending a message changes what follows a turn only when nothing of its thread followed it. |
| RunSafety.LocksStep | backend/app/api/conversation_locks.py:68-82 | Every step keeps the entries right: the refcount is the number of requests referring to the conversation, each locks the current entry's lock, and a held lock has one holder. |
| RunSafety.LogOnAnswer | backend/app/services/conversations.py:285-311 | An answer lands right after its own turn, as the next message of its thread. |
| RunGuarantees.StepKeeps | backend/app/api/routes_agent.py:367-442 | Every step of any request, a Stop, a delete, a raise or the death of the process keeps the protocol's invariant. |
| RunGuarantees.OneAtATime | backend/app/api/conversation_locks.py:68-82 | At most one request is inside a conversation's lock, though entries are dropped and recreated. |
| RunGuarantees.OncePerKey | backend/app/api/routes_agent.py:372-401 | The loop, or a confirmed call, starts at most once per conversation and Idempotency-Key, even across a crash of the process. |
| RunGuarantees.StartsAreStored | backend/app/api/routes_agent.py:398-401 | Every start is for a user turn already in the log, written by the request that starts, with its conversation, content and key. |
| RunGuarantees.ReplayIsTheAnswer | backend/app/api/routes_agent.py:239-262 | Requests answered under one key get the same answer, status included, and it is the one written by the request that opened the exchange. |
| RunGuarantees.StopHitsTheRunInFlight | backend/app/api/run_cancel.py:77-90 | A Stop sets the event of the run in flight on that conversation and of no other, and nothing when none is in flight. |
| RunGuarantees.RunsStartUnstopped | backend/app/api/run_cancel.py:52-67 | Whatever was stopped before, a run starts with an event nobody has set. |
| RunGuarantees.NoRunInTheTrash | backend/app/api/routes_agent.py:151-168 | No run is ever in a conversation that is in the trash. |
| RunGuarantees.EntriesComeAndGo | backend/app/api/conversation_locks.py:41-58 | There is an entry exactly for the conversations some request still refers to. |
| RunGuarantees.NobodyIsStuck | backend/app/api/routes_agent.py:367-442 | An unfinished request can take a step, or waits for one that can. |
| RunAnswers.StatusTellsTheStop | backend/app/api/routes_agent.py:212-262 | An answer carries 504 exactly for a run that timed out, 502 exactly for a provider error, 500 exactly for an internal error, and 200 otherwise, first time and replayed. |
| RunAnswers.RetryIsTold | backend/app/api/routes_agent.py:239-262 | A message whose key is on the thread starts nothing: it is refused if its content differs, told the stored answer if the next message of the thread is one, and told the exchange is unfinished otherwise; a message with a new key, or none, goes on. |
| RunAnswers.AnswerIsTheRuns | backend/app/api/routes_agent.py:398-442 | What a run ended with is stored as the answer to its own turn, and its request is told that turn, that answer and the status of that end. |
| RunAnswers.NothingForgotten | backend/app/services/conversations.py:285-311 | Whatever steps follow, crashes included, no stored message and no start is forgotten, so once per key speaks of all that ever ran. |

## Left out

- SQL, sessions and transactions: a service call is one atomic step; a raised error leaves the store as it was.
- Timestamps: `deleted_at`, `skipped_at` and `superseded_at` are set or unset, so inverses hold up to fresh times.
- The roll-up that computes a task's effective status: it is an arbitrary function of the store; what is needed of it is an explicit premise.
- SessionRecurrence.CreateNextOccurrence: without the savepoint branch, which needs a writer between two statements of one call.
- Notes, summaries and prompts: a row's content is its title, description, priority and estimate, and an event carries a kind tag instead of its summary.
- The minutes a task actually took, which completing it may record.
- FocusDay.GetFocusPlan: starts from the day's open top-level tasks with their rolled-up status and estimate, each with the subtasks that may stand in for it; choosing these is not modelled.
- `update_task` except for a due date, a cadence, a project or a parent, each on this occurrence only: edits of later occurrences are not steps of the runs.
- Outside the reconcile walk stored parent links are taken to be free of cycles, so `detach_if_parent_cycle` has nothing to do.
- A series above or below another: the source admits it, through a cadence set on a checklist row or a move, and the joint invariant does not, so the runs of `Runs` set a cadence only where `Edits.MintFlatIff` allows it and move nothing. The runs of `MovingRuns` do both freely.
- A minted series id is taken to be new.
- Projects are there from the start of a run: creating one is not a step, and neither is reopening a completed task.
- The purge by age (`purge_expired`, `retention_cutoff`).
- SessionPurge.PurgeTask: without the Focus pins and sessions a purge clears, which live in tables of their own.
- FocusPlan.Plan.PinTask: whether the task may be pinned (`_ensure_pinnable`) is a flag passed in.
- FocusPlan.Plan.EditOccurrence: all three fields are given; copying the ones left out from the series, and the refusal of an edit that sets none, are not modelled.
- Focus reason strings, titles, and the details shown with a blocked task; the activity events of the stored plan.
- Ambiguity of ids: `Confirmation` and `ConversationLocks` take fresh tokens and lock identities never to collide.
- SingleUse.ReceiptOnceUntilARestore: its condition is enough, not necessary, when a cascade holds several skipped rows; the exact one is `SingleUse.SpentUnskipAcceptedIff`, which follows the restore.
- ProjectUndo.ProjectUndoIsInverse: says nothing of rows recurrence created between the restore and the undo.
- RunGuarantees.NobodyIsStuck: is about possibility, not fairness; a waiting request may give up with 409.
- Confirmation.Gate.Allows: the `used` flag it sets on a question already off the tables is not modelled, since nothing reads it there.
- AgentLoop.Run: the narrator, the trace record and the backstop around a bug of the loop itself are not part of it; the gate is a yes or no per call.
- Rate limiting, the HTTP layer, the MCP server, embeddings, voice and the front end.
