/** What the message endpoint promises over every interleaving. */
module RunGuarantees {
  import opened Common
  import opened Conversations
  import opened RunProtocol
  import opened RunSafety
  import AgentLoop
  import ConversationLocks
  import RunCancel

  ghost predicate Inv(s: State) {
    && LocksKept(s) && EventsKept(s) && LiveKept(s) && LogKept(s) && StartsKept(s)
  }

  lemma LogStays(s: State, s': State)
    requires LogKept(s) && s'.requests == s.requests && s'.log == s.log
    ensures LogKept(s')
  {
    hide KeyOnce, AnswerKept, ResponseKept;
    assert forall i :: 0 <= i < |s.log| ==> TurnKept(s, i) ==> TurnKept(s', i);
    assert forall r :: r in s.requests ==> TurnOpen(s, r) ==> TurnOpen(s', r);
    assert forall r :: r in s.requests ==> KeyNew(s, r) ==> KeyNew(s', r);
  }

  lemma LogOnDie(s: State)
    requires LogKept(s)
    ensures LogKept(Apply(s, Die))
  {
    var s' := Apply(s, Die);
    hide KeyOnce, AnswerKept;
    forall i | 0 <= i < |s'.log| ensures TurnKept(s', i) {
      assert TurnKept(s, i);
    }
    forall r | r in s'.requests ensures TurnOpen(s', r) && KeyNew(s', r) && ResponseKept(s'.log, s'.requests[r]) {
      assert ResponseKept(s.log, s.requests[r]);
    }
  }

  /** A request that moves on with the turn it has, or with no answer of its own making. */
  lemma LogOnPlain(s: State, step: Step, r: int)
    requires LogKept(s) && Enabled(s, step) && r in s.requests && Plain(step, r)
    ensures LogKept(Apply(s, step))
  {
    var s' := Apply(s, step);
    OwnPlace(s, r);
    PlainPlace(s, step, r);
    PlainFrame(s, step, r);
    hide LogKept, TurnOpen, KeyNew, ResponseKept, Apply, Enabled;
    LogOnMove(s, r, s'.requests[r], s');
  }

  predicate Plain(step: Step, r: int) {
    || step == Checkout(r) || step == Acquire(r) || step == GiveUp(r) || step == Trash(r) || step == Refuse(r)
    || step == Register(r) || step == Dispatch(r) || (step.Finish? && step.request == r) || step == Raise(r)
    || step == Release(r) || step == Checkin(r)
  }

  lemma OwnPlace(s: State, r: int)
    requires LogKept(s) && r in s.requests
    ensures TurnOpen(s, r) && KeyNew(s, r) && ResponseKept(s.log, s.requests[r])
  {
    hide KeyOnce, AnswerKept, TurnKept, TurnOpen, KeyNew, ResponseKept;
  }

  lemma PlainPlace(s: State, step: Step, r: int)
    requires r in s.requests && Enabled(s, step) && Plain(step, r) && TurnOpen(s, r) && KeyNew(s, r) && ResponseKept(s.log, s.requests[r])
    ensures r in Apply(s, step).requests
    ensures var s' := Apply(s, step); TurnOpen(s', r) && KeyNew(s', r) && ResponseKept(s'.log, s'.requests[r])
  {
    hide NextIn, Status;
  }

  lemma PlainFrame(s: State, step: Step, r: int)
    requires r in s.requests && Enabled(s, step) && Plain(step, r)
    ensures var s' := Apply(s, step);
            && r in s'.requests && s'.requests == s.requests[r := s'.requests[r]] && s'.log == s.log
            && s'.requests[r].conversation == s.requests[r].conversation && s'.requests[r].work == s.requests[r].work
            && (BeforeAsking(s.requests[r].at) || !BeforeAsking(s'.requests[r].at))
  {
  }

  lemma LogOnArrive(s: State, r: int, c: int, work: Work)
    requires LogKept(s) && Enabled(s, Arrive(r, c, work))
    ensures LogKept(Apply(s, Arrive(r, c, work)))
  {
    var s' := Apply(s, Arrive(r, c, work));
    assert TurnOpen(s', r) && KeyNew(s', r) && ResponseKept(s'.log, s'.requests[r]);
    hide LogKept, TurnOpen, KeyNew, ResponseKept;
    LogOnMove(s, r, s'.requests[r], s');
  }

  lemma LogStep(s: State, step: Step)
    requires LocksKept(s) && LogKept(s) && Enabled(s, step)
    ensures LogKept(Apply(s, step))
  {
    hide LogKept, LocksKept;
    match step {
      case Create(c) => LogStays(s, Apply(s, step));
      case Restore(c) => LogStays(s, Apply(s, step));
      case Cancel(c) => LogStays(s, Apply(s, step));
      case Die => LogOnDie(s);
      case Arrive(r, c, work) => LogOnArrive(s, r, c, work);
      case Look(r) => LogOnLook(s, r);
      case Ask(r) => LogOnAsk(s, r);
      case Answer(r) => LogOnAnswer(s, r);
      case Checkout(r) => LogOnPlain(s, step, r);
      case Acquire(r) => LogOnPlain(s, step, r);
      case GiveUp(r) => LogOnPlain(s, step, r);
      case Trash(r) => LogOnPlain(s, step, r);
      case Refuse(r) => LogOnPlain(s, step, r);
      case Register(r) => LogOnPlain(s, step, r);
      case Dispatch(r) => LogOnPlain(s, step, r);
      case Finish(r, stop) => LogOnPlain(s, step, r);
      case Raise(r) => LogOnPlain(s, step, r);
      case Release(r) => LogOnPlain(s, step, r);
      case Checkin(r) => LogOnPlain(s, step, r);
    }
  }

  lemma StartsStep(s: State, step: Step)
    requires LogKept(s) && StartsKept(s) && Enabled(s, step)
    ensures StartsKept(Apply(s, step))
  {
    var s' := Apply(s, step);
    match step {
      case Register(r) => StartsOnStart(s, r, s', s'.starts[|s'.starts| - 1]);
      case Dispatch(r) => StartsOnStart(s, r, s', s'.starts[|s'.starts| - 1]);
      case Ask(r) => StartsOnAsk(s, r);
      case Answer(r) => StartsOnAnswer(s, r);
      case _ => hide LogKept; StartsQuiet(s, step);
    }
  }

  lemma StartsQuiet(s: State, step: Step)
    requires StartsKept(s) && Enabled(s, step) && !step.Register? && !step.Dispatch? && !step.Ask? && !step.Answer?
    ensures StartsKept(Apply(s, step))
  {
    var s' := Apply(s, step);
    assert s'.starts == s.starts && s'.log == s.log;
    assert forall r :: r in s'.requests && s'.requests[r].at.Asked? ==> r in s.requests && s.requests[r] == s'.requests[r];
  }

  lemma StartsOnStart(s: State, r: int, s': State, start: Start)
    requires LogKept(s) && StartsKept(s) && r in s.requests && s.requests[r].at.Asked?
    requires start.request == r && start.turn == s.requests[r].at.turn && s'.starts == s.starts + [start] && s'.log == s.log
    requires r in s'.requests && !s'.requests[r].at.Asked? && s'.requests == s.requests[r := s'.requests[r]]
    ensures StartsKept(s')
  {
    assert TurnOpen(s, r) && NotStarted(s.starts, start.turn);
    forall x | x in s'.requests && s'.requests[x].at.Asked? ensures NotStarted(s'.starts, s'.requests[x].at.turn) {
      assert x != r && NotStarted(s.starts, s.requests[x].at.turn) && TurnOpen(s, x);
    }
  }

  lemma StartsOnAsk(s: State, r: int)
    requires StartsKept(s) && Enabled(s, Ask(r))
    ensures StartsKept(Apply(s, Ask(r)))
  {
    var s' := Apply(s, Ask(r));
    forall i | 0 <= i < |s'.starts| ensures s'.starts[i].turn < |s'.log| && s'.log[s'.starts[i].turn].User? && s'.log[s'.starts[i].turn].author == s'.starts[i].request {
      assert s'.log[s.starts[i].turn] == s.log[s.starts[i].turn];
    }
  }

  lemma StartsOnAnswer(s: State, r: int)
    requires StartsKept(s) && Enabled(s, Answer(r))
    ensures StartsKept(Apply(s, Answer(r)))
  {
    var s' := Apply(s, Answer(r));
    forall i | 0 <= i < |s'.starts| ensures s'.starts[i].turn < |s'.log| && s'.log[s'.starts[i].turn].User? && s'.log[s'.starts[i].turn].author == s'.starts[i].request {
      assert s'.log[s.starts[i].turn] == s.log[s.starts[i].turn];
    }
  }

  lemma StepKeeps(s: State, step: Step)
    requires Inv(s)
    ensures Inv(After(s, step))
  {
    if Enabled(s, step) {
      hide LocksKept, EventsKept, LiveKept, LogKept, StartsKept, Apply;
      LocksStep(s, step);
      EventsStep(s, step);
      LiveStep(s, step);
      LogStep(s, step);
      StartsStep(s, step);
    }
  }

  lemma {:induction false} RunKeeps(steps: seq<Step>)
    ensures Inv(Run(steps))
    decreases |steps|
  {
    if steps != [] {
      RunKeeps(steps[..|steps| - 1]);
      StepKeeps(Run(steps[..|steps| - 1]), steps[|steps| - 1]);
    }
  }

  lemma OneExchange(log: seq<Message>, i: nat, j: nat)
    requires KeyOnce(log) && i < |log| && j < |log| && SameKey(log[i], log[j])
    ensures i == j
  {
    assert SameKey(log[j], log[i]);
  }

  // ---- the promises ------------------------------------------------------------------------------

  /** At most one request is inside a conversation's lock, though lock entries come and go. */
  lemma OneAtATime(steps: seq<Step>, r: int, x: int)
    requires var s := Run(steps);
             && r in s.requests && x in s.requests && s.requests[r].conversation == s.requests[x].conversation
             && Holds(s.requests[r].at) && Holds(s.requests[x].at)
    ensures r == x
  {
    RunKeeps(steps);
    OnlyHolder(Run(steps), r, x);
  }

  /** The loop (or a confirmed call) runs at most once per conversation and key, even across a crash. */
  lemma OncePerKey(steps: seq<Step>, i: nat, j: nat)
    requires var s := Run(steps);
             && i < |s.starts| && j < |s.starts|
             && s.starts[i].turn < |s.log| && s.starts[j].turn < |s.log| && SameKey(s.log[s.starts[i].turn], s.log[s.starts[j].turn])
    ensures i == j
  {
    var s := Run(steps);
    RunKeeps(steps);
    OneExchange(s.log, s.starts[i].turn, s.starts[j].turn);
  }

  /** Every start is for a stored turn, the message of the request that started it, so that the previous lemma speaks of all of them. */
  lemma StartsAreStored(steps: seq<Step>, i: nat)
    requires i < |Run(steps).starts|
    ensures var s := Run(steps);
            && s.starts[i].turn < |s.log| && s.log[s.starts[i].turn].User? && s.log[s.starts[i].turn].author == s.starts[i].request
            && s.starts[i].request in s.requests
            && var q, turn := s.requests[s.starts[i].request], s.log[s.starts[i].turn];
            && q.work.Post? && turn.conversation == q.conversation && turn.content == q.work.content && turn.key == q.work.key
  {
    RunKeeps(steps);
    assert TurnKept(Run(steps), Run(steps).starts[i].turn);
  }

  /** The request's message carried this key on this conversation, and was answered. */
  ghost predicate AnsweredUnder(s: State, r: int, c: int, key: string) {
    && r in s.requests && s.requests[r].conversation == c && s.requests[r].work.Post? && s.requests[r].work.key == Some(key)
    && Given(s.requests[r].at).Some? && Given(s.requests[r].at).value.Answered?
  }

  /**
   Two requests that are answered under one key get the same answer, status and all, and it is the
   answer the request that opened the exchange wrote.
   */
  lemma ReplayIsTheAnswer(steps: seq<Step>, r: int, x: int, c: int, key: string)
    requires AnsweredUnder(Run(steps), r, c, key) && AnsweredUnder(Run(steps), x, c, key)
    ensures var s := Run(steps);
            var given := Given(s.requests[r].at).value;
            && given == Given(s.requests[x].at).value
            && given.asked < given.answered < |s.log|
            && s.log[given.answered].author == s.log[given.asked].author
            && s.requests[r].work.content == s.requests[x].work.content
  {
    var s := Run(steps);
    RunKeeps(steps);
    hide Run;
    OfLog(s, r, x);
    SameAnswer(s.log, s.requests[r], s.requests[x], key);
  }

  lemma OfLog(s: State, r: int, x: int)
    requires Inv(s) && r in s.requests && x in s.requests
    ensures ResponseKept(s.log, s.requests[r]) && ResponseKept(s.log, s.requests[x]) && KeyOnce(s.log)
  {
    hide LocksKept, EventsKept, LiveKept, StartsKept, KeyOnce, ResponseKept;
  }

  lemma SameAnswer(log: seq<Message>, q: Request, p: Request, key: string)
    requires KeyOnce(log) && ResponseKept(log, q) && ResponseKept(log, p)
    requires q.conversation == p.conversation && q.work.Post? && p.work.Post? && q.work.key == p.work.key == Some(key)
    requires Given(q.at).Some? && Given(q.at).value.Answered? && Given(p.at).Some? && Given(p.at).value.Answered?
    ensures var given := Given(q.at).value;
            && given == Given(p.at).value
            && given.asked < given.answered < |log|
            && log[given.answered].author == log[given.asked].author
            && q.work.content == p.work.content
  {
    hide KeyOnce, NextIn;
    OneExchange(log, Given(q.at).value.asked, Given(p.at).value.asked);
  }

  /**
   A Stop sets the event of the run in flight on that conversation and of no other run, and nothing
   when none is in flight.
   */
  lemma StopHitsTheRunInFlight(steps: seq<Step>, c: int)
    ensures var s := Run(steps);
            var s' := After(s, Cancel(c));
            && (forall r :: r in s.requests && s.requests[r].at.Running? && s.requests[r].conversation == c ==>
                  s'.runs.set_ == s.runs.set_ + {s.requests[r].at.event})
            && ((forall r :: r in s.requests && s.requests[r].at.Running? ==> s.requests[r].conversation != c) ==> s'.runs.set_ == s.runs.set_)
  {
    var s := Run(steps);
    RunKeeps(steps);
    forall r | r in s.requests && s.requests[r].at.Running? && s.requests[r].conversation == c
      ensures After(s, Cancel(c)).runs.set_ == s.runs.set_ + {s.requests[r].at.event}
    {
      assert InFlight(s, r);
    }
    if c in s.runs.active { assert Registered(s, c); }
  }

  /** Whatever was stopped before, a run starts with an event nobody has set. */
  lemma RunsStartUnstopped(steps: seq<Step>, r: int)
    requires Enabled(Run(steps), Register(r))
    ensures var s := After(Run(steps), Register(r));
            r in s.requests && s.requests[r].at.Running? && s.requests[r].at.event !in s.runs.set_
  {
    RunKeeps(steps);
  }

  /** No run is ever in a conversation that is in the trash. */
  lemma NoRunInTheTrash(steps: seq<Step>, r: int)
    requires var s := Run(steps); r in s.requests && InRun(s.requests[r].at)
    ensures var s := Run(steps); s.requests[r].conversation in s.live
  {
    RunKeeps(steps);
  }

  /** The registry holds an entry exactly for the conversations some request still refers to. */
  lemma EntriesComeAndGo(steps: seq<Step>, c: int)
    ensures var s := Run(steps);
            c in s.entries <==> exists r :: r in s.requests && s.requests[r].conversation == c && Refers(s.requests[r].at)
  {
    var s := Run(steps);
    RunKeeps(steps);
    if c in s.entries {
      assert |Referring(s.requests, c)| >= 1;
      var r := Any(Referring(s.requests, c));
      assert r in s.requests;
    }
    forall r | r in s.requests && s.requests[r].conversation == c && Refers(s.requests[r].at) ensures c in s.entries {
      assert PlaceKept(s, r);
    }
  }

  /** The next step a request takes by itself. */
  function Move(s: State, r: int): Step
    requires r in s.requests
  {
    match s.requests[r].at
    case Arrived => Checkout(r)
    case Waiting(lock) => Acquire(r)
    case Inside(_) => if s.requests[r].work.Post? then Look(r) else Trash(r)
    case Cleared(_) => if s.requests[r].work.Post? then Ask(r) else Raise(r)
    case Asked(_, _) => if s.requests[r].work.Post? && !s.requests[r].work.confirm then Register(r) else if s.requests[r].work.Post? then Dispatch(r) else Raise(r)
    case Running(_, _, _) => Finish(r, AgentLoop.Completed)
    case Ran(_, _, _) => Answer(r)
    case Leaving(_, _) => Release(r)
    case Released(_) => Checkin(r)
    case Done(_) => Die
  }

  /** No deadlock: an unfinished request can move, or waits for one that can. */
  lemma NobodyIsStuck(steps: seq<Step>, r: int)
    requires var s := Run(steps); r in s.requests && !s.requests[r].at.Done?
    ensures var s := Run(steps);
            || Enabled(s, Move(s, r))
            || (s.requests[r].at.Waiting? && s.requests[r].at.lock in s.held
                && s.held[s.requests[r].at.lock] in s.requests && Enabled(s, Move(s, s.held[s.requests[r].at.lock])))
  {
    var s := Run(steps);
    RunKeeps(steps);
    if s.requests[r].at.Waiting? && s.requests[r].at.lock in s.held {
      assert HeldKept(s, s.requests[r].at.lock);
    }
  }
}
