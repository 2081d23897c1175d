/**
 The rows the task services read and write, and the session object they share.

 `State` is the store as one value; `Database` holds the same four tables as fields that the
 services overwrite step by step. Timestamps are kept as set or unset.
 */
module Store {
  import opened Common
  import opened Calendar
  import Forest
  import Graph

  datatype Status = Open | InProgress | Done

  /** What a clone copies: title, description, priority, estimate. */
  datatype Content = Content(title: string, description: Option<string>, priority: int, estimate: Option<int>)

  datatype Task = Task(
    project: int,
    parent: Option<int>,
    content: Content,
    status: Status,
    due: Option<Date>,
    repeat: Option<Interval>,
    series: Option<string>,
    deleted: bool,
    skipped: bool,
    superseded: bool,
    withTask: Option<int>,
    withProject: Option<int>)

  datatype Project = Project(protected: bool, deleted: bool)

  /** `task` waits on `blocker`. Rows are kept in id order. */
  datatype Edge = Edge(task: int, blocker: int, deleted: bool)

  datatype Entity = TaskEntity | ProjectEntity

  datatype Action =
    | Created | Updated | Deleted | Restored | SkippedAction | Purged
    | DependencyAdded | DependencyRemoved | Completed

  /** Which summary an `updated` event carries; undo matches the unarchive one. */
  datatype Note = Usual | MovedToTasksTrash | DetachedByPurge | SupersededNote | BackNote

  /** The event with id n is the n-th of the log, counting from 1. */
  datatype Event = Event(project: Option<int>, entity: Entity, entityId: int, action: Action, note: Note)

  datatype State = State(
    tasks: map<int, Task>,
    projects: map<int, Project>,
    edges: seq<Edge>,
    events: seq<Event>)

  datatype Error =
    | SupersededTask
    | OccurrenceConflict(conflict: int)
    | RecurrenceError
    | SelfDependency | MissingTask | CompletedTask | DuplicateDependency
    | DependencyCycle(ownAncestor: bool)
    | UndoConflict
    | ProtectedProject
    | StillReferenced
    | MissingParent | MissingProject | TooDeep
    /** Completed by its subtasks, or blocked by an unfinished dependency. */
    | NotCompletable
    /** Cloning a checklist that hangs below itself recurses without end. */
    | EndlessChecklist

  /** The project every task falls back to. It is protected, so it is never in the trash. */
  const GENERAL := 1

  /**
   Whether a task is effectively done: its roll-up over children and blockers. The roll-up's
   own computation is a parameter, so what is proved holds for any such rule.
   */
  type Oracle = (State, int) -> bool

  class Database {
    var tasks: map<int, Task>
    var projects: map<int, Project>
    var edges: seq<Edge>
    var events: seq<Event>

    constructor (s: State)
      ensures View() == s
    {
      tasks, projects, edges, events := s.tasks, s.projects, s.edges, s.events;
    }

    function View(): State
      reads this
    {
      State(tasks, projects, edges, events)
    }

    lemma Fields()
      ensures View() == State(tasks, projects, edges, events)
    {
    }

    method Log(e: Event)
      modifies this`events
      ensures events == old(events) + [e]
    {
      events := events + [e];
    }
  }

  // ---- rows -------------------------------------------------------------------

  predicate Live(s: State, id: int) {
    id in s.tasks && !s.tasks[id].deleted
  }

  predicate Trashed(s: State, id: int) {
    id in s.tasks && s.tasks[id].deleted
  }

  predicate LiveProject(s: State, p: int) {
    p in s.projects && !s.projects[p].deleted
  }

  function TaskEvent(t: Task, id: int, action: Action, note: Note): Event {
    Event(Some(t.project), TaskEntity, id, action, note)
  }

  function LogTask(s: State, id: int, action: Action): State
    requires id in s.tasks
  {
    s.(events := s.events + [TaskEvent(s.tasks[id], id, action, Usual)])
  }

  // ---- links ------------------------------------------------------------------

  /** Every stored parent pointer, trashed rows included. */
  function ParentLinks(tasks: map<int, Task>): Forest.Links {
    map x | x in tasks && tasks[x].parent.Some? :: tasks[x].parent.value
  }

  /** The pointers `list_subtasks` follows: those of active rows. */
  function LiveLinks(tasks: map<int, Task>): Forest.Links {
    map x | x in tasks && !tasks[x].deleted && tasks[x].parent.Some? :: tasks[x].parent.value
  }

  /** The pointers a purge follows: those of trashed rows of one project. */
  function TrashLinks(tasks: map<int, Task>, project: int): Forest.Links {
    map x | x in tasks && tasks[x].deleted && tasks[x].project == project && tasks[x].parent.Some?
      :: tasks[x].parent.value
  }

  /** `task_id -> depends_on` for active edges. */
  function EdgeArrows(edges: seq<Edge>): Graph.Arrows {
    set e | e in edges && !e.deleted :: (e.task, e.blocker)
  }

  function ChildArrows(tasks: map<int, Task>): Graph.Arrows {
    set x | x in tasks && tasks[x].parent.Some? :: (tasks[x].parent.value, x)
  }

  /** Everything a task cannot finish before: its blockers and its subtasks. */
  function WaitArrows(s: State): Graph.Arrows {
    EdgeArrows(s.edges) + ChildArrows(s.tasks)
  }

  // ---- integrity --------------------------------------------------------------

  /** What the schema and its foreign keys enforce; parent pointers may run in circles. */
  ghost predicate Sound(s: State) {
    && GENERAL in s.projects && s.projects[GENERAL].protected
    && (forall p :: p in s.projects && s.projects[p].protected ==> !s.projects[p].deleted)
    && (forall x :: x in s.tasks ==> RowWellFormed(s, s.tasks[x]))
    && (forall e :: e in s.edges ==> e.task in s.tasks && e.blocker in s.tasks)
  }

  /** A sound store whose parent pointers are free of cycles. */
  ghost predicate WellFormed(s: State) {
    Sound(s) && Forest.Acyclic(ParentLinks(s.tasks))
  }

  predicate RowWellFormed(s: State, t: Task) {
    && t.project in s.projects
    && (t.parent.Some? ==> t.parent.value in s.tasks)
    && (t.repeat.Some? ==> ValidInterval(t.repeat.value))
  }

  /** Two stores over the same links whose rows are filed in known projects are alike well formed. */
  ghost predicate SameShape(s: State, t: State) {
    && t.projects == s.projects && t.edges == s.edges && (forall x :: x in t.tasks <==> x in s.tasks)
    && (forall x :: x in s.tasks ==>
          && t.tasks[x].parent == s.tasks[x].parent && t.tasks[x].repeat == s.tasks[x].repeat
          && (t.tasks[x].project == s.tasks[x].project || t.tasks[x].project == GENERAL))
  }

  lemma SameShapeWellFormed(s: State, t: State)
    requires WellFormed(s) && SameShape(s, t)
    ensures WellFormed(t)
  {
    hide Forest.Acyclic;
    var a, b := ParentLinks(s.tasks), ParentLinks(t.tasks);
    forall x | x in a ensures x in b && b[x] == a[x] {
    }
    forall x | x in b ensures x in a {
    }
    assert a.Keys == b.Keys;
    assert a == b;
    forall x | x in t.tasks ensures RowWellFormed(t, t.tasks[x]) {
      assert RowWellFormed(s, s.tasks[x]);
      if t.tasks[x].parent.Some? {
        var p: int := t.tasks[x].parent.value;
        assert p in s.tasks;
      }
    }
  }

  lemma LiveLinksOffCycle(s: State, x: int)
    requires WellFormed(s)
    ensures Forest.OffCycle(LiveLinks(s.tasks), x)
  {
    Forest.FewerLinksAcyclic(LiveLinks(s.tasks), ParentLinks(s.tasks));
  }

  lemma TrashLinksOffCycle(s: State, project: int, x: int)
    requires WellFormed(s)
    ensures Forest.OffCycle(TrashLinks(s.tasks, project), x)
  {
    Forest.FewerLinksAcyclic(TrashLinks(s.tasks, project), ParentLinks(s.tasks));
  }

  /** `root` and its active descendants, root first, in the order the services walk them. */
  ghost function ActiveWalk(s: State, root: int): (walk: seq<int>)
    requires WellFormed(s)
    ensures walk != [] && walk[0] == root
  {
    LiveLinksOffCycle(s, root);
    Forest.PreOrder(LiveLinks(s.tasks), root)
  }

  lemma ActiveWalkShape(s: State, root: int)
    requires WellFormed(s)
    ensures Distinct(ActiveWalk(s, root))
    ensures Elems(ActiveWalk(s, root)) == Forest.Subtree(LiveLinks(s.tasks), root)
    ensures Forest.ParentsFirst(LiveLinks(s.tasks), ActiveWalk(s, root))
    ensures forall x :: x in ActiveWalk(s, root) && x != root ==>
              Live(s, x) && s.tasks[x].parent.Some? && s.tasks[x].parent.value in ActiveWalk(s, root)
  {
    LiveLinksOffCycle(s, root);
    LiveWalkShape(s, root);
  }

  /** The walk below a row that does not hang below itself. */
  lemma LiveWalkShape(s: State, root: int)
    requires Forest.OffCycle(LiveLinks(s.tasks), root)
    ensures var walk := Forest.PreOrder(LiveLinks(s.tasks), root);
            && walk != [] && walk[0] == root && Distinct(walk)
            && Elems(walk) == Forest.Subtree(LiveLinks(s.tasks), root)
            && Forest.ParentsFirst(LiveLinks(s.tasks), walk)
            && forall x :: x in walk && x != root ==> Live(s, x) && s.tasks[x].parent.Some? && s.tasks[x].parent.value in walk
  {
    Forest.PreOrderShape(LiveLinks(s.tasks), root);
    var up := LiveLinks(s.tasks);
    var walk := Forest.PreOrder(up, root);
    forall x | x in walk && x != root
      ensures Live(s, x) && s.tasks[x].parent.Some? && s.tasks[x].parent.value in walk
    {
      assert x in Elems(walk);
      BelowIsLinked(up, root, x);
      assert up[x] in Elems(walk);
    }
  }

  lemma BelowIsLinked(up: Forest.Links, root: int, x: int)
    requires x in Forest.Subtree(up, root) && x != root
    ensures x in up && up[x] in Forest.Subtree(up, root)
  {
    var k: nat :| Forest.Climbs(up, x, k, root);
    assert Forest.Climbs(up, up[x], k - 1, root);
    if k - 1 > 0 {
      assert up[x] in up;
    }
  }
}
