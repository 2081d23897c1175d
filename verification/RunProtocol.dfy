/**
 The message endpoint as any number of requests run it, one step at a time
 (backend/app/api/routes_agent.py, `post_message`, `_replayed`, `_run_confirmed`,
 `delete_conversation`, `cancel_run`). A step is what one request does between two points where
 another may run; the process may also die and start over with nothing but the stored log.
 */
module RunProtocol {
  import opened Common
  import opened Conversations
  import AgentLoop
  import ConversationLocks
  import RunCancel

  datatype Work =
    /** `confirm`: the message carries a `Confirm-Token`. */
    | Post(content: string, key: Option<string>, confirm: bool)
    | Delete

  datatype Response =
    | NotFound | Busy | Mismatch | Unfinished | Refused | Deleted | Failed
    | Answered(status: int, asked: nat, answered: nat)

  /** Where a request stands; the ones past `Arrived` hold a reference to its conversation's lock entry. */
  datatype Place =
    | Arrived
    | Waiting(lock: int)
    | Inside(lock: int)
    | Cleared(lock: int)
    | Asked(lock: int, turn: nat)
    | Running(lock: int, turn: nat, event: int)
    | Ran(lock: int, turn: nat, stop: AgentLoop.Stop)
    | Leaving(lock: int, response: Response)
    | Released(response: Response)
    | Done(response: Response)

  datatype Request = Request(conversation: int, work: Work, at: Place)

  /** A start of the loop, or of a confirmed call, for the user turn `turn`. */
  datatype Start = Start(request: int, turn: nat, event: Option<int>)

  datatype State = State(
    entries: ConversationLocks.Entries,
    nextLock: int,
    held: map<int, int>,
    runs: RunCancel.Runs,
    nextEvent: int,
    log: seq<Message>,
    live: set<int>,
    requests: map<int, Request>,
    starts: seq<Start>)

  const START := State(map[], 0, map[], RunCancel.Runs(map[], {}), 0, [], {}, map[], [])

  datatype Step =
    | Create(conversation: int)
    | Restore(conversation: int)
    | Arrive(request: int, conversation: int, work: Work)
    | Checkout(request: int)
    | Acquire(request: int)
    | GiveUp(request: int)
    | Look(request: int)
    | Trash(request: int)
    | Refuse(request: int)
    | Ask(request: int)
    | Register(request: int)
    | Dispatch(request: int)
    | Finish(request: int, stop: AgentLoop.Stop)
    | Answer(request: int)
    | Raise(request: int)
    | Release(request: int)
    | Checkin(request: int)
    | Cancel(conversation: int)
    | Die

  /** `_FAILURE_STATUS`, and 200 for every other stop. */
  function Status(stop: AgentLoop.Stop): int {
    match stop
    case ProviderError => 502
    case TimedOut => 504
    case InternalError => 500
    case _ => 200
  }

  /** Whether the request holds its conversation's lock. */
  predicate Holds(at: Place) {
    at.Inside? || at.Cleared? || at.Asked? || at.Running? || at.Ran? || at.Leaving?
  }

  /** Whether it has checked the lock entry out and not yet in. */
  predicate Refers(at: Place) {
    at.Waiting? || Holds(at) || at.Released?
  }

  function Moved(s: State, r: int, at: Place): State
    requires r in s.requests
  {
    s.(requests := s.requests[r := s.requests[r].(at := at)])
  }

  /** What the lookup under the lock answers, or nothing when the message is new. */
  function Lookup(s: State, q: Request): Option<Response> {
    if q.conversation !in s.live then Some(NotFound)
    else if !q.work.Post? || q.work.key.None? then None
    else
      match FindExchange(s.log, q.conversation, q.work.key.value)
      case None => None
      case Some(seen) => Some(Replayed(s.log, q.work.content, seen))
  }

  /** `_replayed`. */
  function Replayed(log: seq<Message>, content: string, seen: Exchange): Response {
    if seen.asked >= |log| || !log[seen.asked].User? then Unfinished
    else if log[seen.asked].content != content then Mismatch
    else
      match seen.answered
      case None => Unfinished
      case Some(answer) =>
        if answer >= |log| || !log[answer].Assistant? then Unfinished
        else Answered(Status(log[answer].stop), seen.asked, answer)
  }

  predicate Enabled(s: State, step: Step) {
    match step
    case Create(_) => true
    case Restore(_) => true
    case Cancel(_) => true
    case Die => true
    case Arrive(r, _, _) => r !in s.requests
    case Checkout(r) => r in s.requests && s.requests[r].at.Arrived?
    case Acquire(r) => r in s.requests && s.requests[r].at.Waiting? && s.requests[r].at.lock !in s.held
    case GiveUp(r) => r in s.requests && s.requests[r].at.Waiting? && s.requests[r].at.lock in s.held
    case Look(r) => r in s.requests && s.requests[r].at.Inside? && s.requests[r].work.Post?
    case Trash(r) => r in s.requests && s.requests[r].at.Inside? && s.requests[r].work.Delete?
    case Refuse(r) => r in s.requests && s.requests[r].at.Cleared? && s.requests[r].work.Post? && s.requests[r].work.confirm
    case Ask(r) => r in s.requests && s.requests[r].at.Cleared? && s.requests[r].work.Post?
    case Register(r) => r in s.requests && s.requests[r].at.Asked? && s.requests[r].work.Post? && !s.requests[r].work.confirm
    case Dispatch(r) => r in s.requests && s.requests[r].at.Asked? && s.requests[r].work.Post? && s.requests[r].work.confirm
    case Finish(r, _) => r in s.requests && s.requests[r].at.Running?
    case Answer(r) => r in s.requests && s.requests[r].at.Ran?
    case Raise(r) => r in s.requests && Holds(s.requests[r].at) && !s.requests[r].at.Leaving?
    case Release(r) => r in s.requests && s.requests[r].at.Leaving?
    case Checkin(r) => r in s.requests && s.requests[r].at.Released?
  }

  function Apply(s: State, step: Step): State
    requires Enabled(s, step)
  {
    match step
    case Create(c) => s.(live := s.live + {c})
    case Restore(c) => s.(live := s.live + {c})
    case Cancel(c) => s.(runs := RunCancel.Stopped(s.runs, c))
    case Die =>
      s.(entries := map[], held := map[], runs := RunCancel.Runs(map[], s.runs.set_),
         requests := map r | r in s.requests :: if s.requests[r].at.Done? then s.requests[r] else s.requests[r].(at := Done(Failed)))
    case Arrive(r, c, work) =>
      s.(requests := s.requests[r := Request(c, work, if work.Post? && c !in s.live then Done(NotFound) else Arrived)])
    case Checkout(r) =>
      var c := s.requests[r].conversation;
      var entries := ConversationLocks.CheckedOut(s.entries, c, s.nextLock);
      Moved(s, r, Waiting(entries[c].lock)).(entries := entries, nextLock := if c in s.entries then s.nextLock else s.nextLock + 1)
    case Acquire(r) =>
      var lock := s.requests[r].at.lock;
      Moved(s, r, Inside(lock)).(held := s.held[lock := r])
    case GiveUp(r) => Moved(s, r, Released(Busy))
    case Look(r) =>
      var found := Lookup(s, s.requests[r]);
      Moved(s, r, if found.Some? then Leaving(s.requests[r].at.lock, found.value) else Cleared(s.requests[r].at.lock))
    case Trash(r) =>
      var c := s.requests[r].conversation;
      Moved(s, r, Leaving(s.requests[r].at.lock, if c in s.live then Deleted else NotFound)).(live := s.live - {c})
    case Refuse(r) => Moved(s, r, Leaving(s.requests[r].at.lock, Refused))
    case Ask(r) =>
      var q := s.requests[r];
      Moved(s, r, Asked(q.at.lock, |s.log|)).(log := s.log + [User(q.conversation, r, q.work.content, q.work.key)])
    case Register(r) =>
      var q := s.requests[r];
      Moved(s, r, Running(q.at.lock, q.at.turn, s.nextEvent))
        .(runs := s.runs.(active := s.runs.active[q.conversation := s.nextEvent]), nextEvent := s.nextEvent + 1,
          starts := s.starts + [Start(r, q.at.turn, Some(s.nextEvent))])
    case Dispatch(r) =>
      var q := s.requests[r];
      Moved(s, r, Ran(q.at.lock, q.at.turn, AgentLoop.Completed)).(starts := s.starts + [Start(r, q.at.turn, None)])
    case Finish(r, stop) =>
      var q := s.requests[r];
      Moved(s, r, Ran(q.at.lock, q.at.turn, stop)).(runs := Unregister(s, q))
    case Answer(r) =>
      var q := s.requests[r];
      Moved(s, r, Leaving(q.at.lock, Answered(Status(q.at.stop), q.at.turn, |s.log|)))
        .(log := s.log + [Assistant(q.conversation, r, q.at.stop)])
    case Raise(r) =>
      var q := s.requests[r];
      Moved(s, r, Leaving(q.at.lock, Failed)).(runs := if q.at.Running? then Unregister(s, q) else s.runs)
    case Release(r) =>
      var q := s.requests[r];
      Moved(s, r, Released(q.at.response)).(held := s.held - {q.at.lock})
    case Checkin(r) =>
      var q := s.requests[r];
      Moved(s, r, Done(q.at.response)).(entries := ConversationLocks.CheckedIn(s.entries, q.conversation))
  }

  function Unregister(s: State, q: Request): RunCancel.Runs
    requires q.at.Running?
  {
    s.runs.(active := RunCancel.Unregistered(s.runs.active, q.conversation, q.at.event))
  }

  function After(s: State, step: Step): State {
    if Enabled(s, step) then Apply(s, step) else s
  }

  function Run(steps: seq<Step>): State {
    if steps == [] then START else After(Run(steps[..|steps| - 1]), steps[|steps| - 1])
  }
}
