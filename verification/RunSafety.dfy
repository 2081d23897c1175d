/** What every interleaving of requests keeps. */
module RunSafety {
  import opened Common
  import opened Conversations
  import opened RunProtocol
  import AgentLoop
  import ConversationLocks
  import RunCancel

  // ---- the lock entries --------------------------------------------------------------------------

  predicate Locked(at: Place) {
    at.Waiting? || Holds(at)
  }

  /** The requests that count in a conversation's entry. */
  function Referring(requests: map<int, Request>, c: int): set<int> {
    set r | r in requests && requests[r].conversation == c && Refers(requests[r].at)
  }

  ghost predicate EntriesKept(s: State) {
    && (forall c :: c in s.entries ==> s.entries[c].lock < s.nextLock && s.entries[c].refcount == |Referring(s.requests, c)| >= 1)
    && (forall c, d :: c in s.entries && d in s.entries && s.entries[c].lock == s.entries[d].lock ==> c == d)
  }

  /** A request's lock is the one its conversation's entry has now, and it holds it alone. */
  ghost predicate PlaceKept(s: State, r: int)
    requires r in s.requests
  {
    var q := s.requests[r];
    && (Refers(q.at) ==> q.conversation in s.entries)
    && (Locked(q.at) ==> q.conversation in s.entries && q.at.lock == s.entries[q.conversation].lock)
    && (Holds(q.at) ==> q.at.lock in s.held && s.held[q.at.lock] == r)
  }

  ghost predicate HeldKept(s: State, lock: int)
    requires lock in s.held
  {
    var r := s.held[lock];
    r in s.requests && Holds(s.requests[r].at) && s.requests[r].at.lock == lock
  }

  ghost predicate LocksKept(s: State) {
    && EntriesKept(s)
    && (forall r :: r in s.requests ==> PlaceKept(s, r))
    && (forall lock :: lock in s.held ==> HeldKept(s, lock))
  }

  lemma ReferringMoved(requests: map<int, Request>, r: int, q: Request)
    requires r in requests ==> requests[r].conversation == q.conversation
    ensures forall c :: c != q.conversation ==> Referring(requests[r := q], c) == Referring(requests, c)
    ensures Referring(requests[r := q], q.conversation)
         == if Refers(q.at) then Referring(requests, q.conversation) + {r} else Referring(requests, q.conversation) - {r}
  {
  }

  /** A move that neither takes nor drops a reference, nor the lock. */
  lemma LocksOnMove(s: State, r: int, q: Request, s': State)
    requires LocksKept(s) && r in s.requests && s'.requests == s.requests[r := q] && q.conversation == s.requests[r].conversation
    requires s'.entries == s.entries && s'.nextLock == s.nextLock && s'.held == s.held
    requires Refers(q.at) == Refers(s.requests[r].at) && Holds(q.at) == Holds(s.requests[r].at)
    requires Locked(q.at) ==> Locked(s.requests[r].at) && q.at.lock == s.requests[r].at.lock
    ensures LocksKept(s')
  {
    SameReferring(s.requests, r, q);
    EntriesOnMove(s, s');
    PlacesOnMove(s, r, q, s');
    hide Referring, EntriesKept, PlaceKept, HeldKept;
  }

  lemma EntriesOnMove(s: State, s': State)
    requires EntriesKept(s) && s'.entries == s.entries && s'.nextLock == s.nextLock
    requires forall c :: Referring(s'.requests, c) == Referring(s.requests, c)
    ensures EntriesKept(s')
  {
    hide Referring;
  }

  lemma PlacesOnMove(s: State, r: int, q: Request, s': State)
    requires LocksKept(s) && r in s.requests && s'.requests == s.requests[r := q] && q.conversation == s.requests[r].conversation
    requires s'.entries == s.entries && s'.nextLock == s.nextLock && s'.held == s.held
    requires Refers(q.at) == Refers(s.requests[r].at) && Holds(q.at) == Holds(s.requests[r].at)
    requires Locked(q.at) ==> Locked(s.requests[r].at) && q.at.lock == s.requests[r].at.lock
    ensures forall x :: x in s'.requests ==> PlaceKept(s', x)
    ensures forall lock :: lock in s'.held ==> HeldKept(s', lock)
  {
    hide Referring, EntriesKept;
    assert PlaceKept(s, r);
    forall x | x in s'.requests ensures PlaceKept(s', x) {
      if x != r { assert PlaceKept(s, x); }
    }
    forall lock | lock in s'.held ensures HeldKept(s', lock) {
      assert HeldKept(s, lock);
    }
  }

  lemma SameReferring(requests: map<int, Request>, r: int, q: Request)
    requires r in requests && requests[r].conversation == q.conversation && Refers(q.at) == Refers(requests[r].at)
    ensures forall c :: Referring(requests[r := q], c) == Referring(requests, c)
  {
    forall c ensures Referring(requests[r := q], c) == Referring(requests, c) {
      ReferringMoved(requests, r, q);
    }
  }

  lemma LocksOnArrive(s: State, r: int, q: Request, s': State)
    requires LocksKept(s) && r !in s.requests && s'.requests == s.requests[r := q] && !Refers(q.at)
    requires s'.entries == s.entries && s'.nextLock == s.nextLock && s'.held == s.held
    ensures LocksKept(s')
  {
    forall c ensures Referring(s'.requests, c) == Referring(s.requests, c) {
    }
    hide Referring;
    forall x | x in s'.requests ensures PlaceKept(s', x) {
      if x != r { assert PlaceKept(s, x); }
    }
    forall lock | lock in s'.held ensures HeldKept(s', lock) {
      assert HeldKept(s, lock);
    }
  }

  lemma LocksOnCheckout(s: State, r: int)
    requires LocksKept(s) && Enabled(s, Checkout(r))
    ensures LocksKept(Apply(s, Checkout(r)))
  {
    EntriesOnCheckout(s, r);
    PlacesOnCheckout(s, r);
    hide EntriesKept, PlaceKept, HeldKept, Apply;
  }

  lemma EntriesOnCheckout(s: State, r: int)
    requires LocksKept(s) && Enabled(s, Checkout(r))
    ensures EntriesKept(Apply(s, Checkout(r)))
  {
    var s' := Apply(s, Checkout(r));
    var c := s.requests[r].conversation;
    ReferringMoved(s.requests, r, s'.requests[r]);
    NobodyRefers(s, c);
    NotReferring(s.requests, r, c);
    hide Referring, PlaceKept, HeldKept;
    assert |Referring(s.requests, c) + {r}| == |Referring(s.requests, c)| + 1;
  }

  lemma PlacesOnCheckout(s: State, r: int)
    requires LocksKept(s) && Enabled(s, Checkout(r))
    ensures var s' := Apply(s, Checkout(r));
            && (forall x :: x in s'.requests ==> PlaceKept(s', x))
            && (forall lock :: lock in s'.held ==> HeldKept(s', lock))
  {
    var s' := Apply(s, Checkout(r));
    hide Referring, EntriesKept;
    forall x | x in s'.requests ensures PlaceKept(s', x) {
      if x != r { assert PlaceKept(s, x); }
    }
    forall lock | lock in s'.held ensures HeldKept(s', lock) {
      assert HeldKept(s, lock);
    }
  }

  lemma NotReferring(requests: map<int, Request>, r: int, c: int)
    requires r in requests && !Refers(requests[r].at)
    ensures r !in Referring(requests, c)
  {
  }

  lemma NobodyRefers(s: State, c: int)
    requires LocksKept(s)
    ensures c !in s.entries ==> |Referring(s.requests, c)| == 0
  {
    if c !in s.entries {
      forall r ensures r !in Referring(s.requests, c) {
        if r in s.requests { assert PlaceKept(s, r); }
      }
      assert Referring(s.requests, c) == {};
    }
  }

  lemma LocksOnAcquire(s: State, r: int)
    requires LocksKept(s) && Enabled(s, Acquire(r))
    ensures LocksKept(Apply(s, Acquire(r)))
  {
    var s' := Apply(s, Acquire(r));
    var lock := s.requests[r].at.lock;
    SameReferring(s.requests, r, s'.requests[r]);
    hide Referring;
    assert PlaceKept(s, r);
    forall x | x in s'.requests ensures PlaceKept(s', x) {
      if x != r { assert PlaceKept(s, x); }
    }
    forall l | l in s'.held ensures HeldKept(s', l) {
      if l != lock { assert HeldKept(s, l); }
    }
  }

  lemma LocksOnRelease(s: State, r: int)
    requires LocksKept(s) && Enabled(s, Release(r))
    ensures LocksKept(Apply(s, Release(r)))
  {
    var s' := Apply(s, Release(r));
    var lock := s.requests[r].at.lock;
    SameReferring(s.requests, r, s'.requests[r]);
    hide Referring;
    assert PlaceKept(s, r);
    forall x | x in s'.requests ensures PlaceKept(s', x) {
      if x != r { assert PlaceKept(s, x); }
    }
    forall l | l in s'.held ensures HeldKept(s', l) {
      assert HeldKept(s, l);
    }
  }

  lemma LocksOnCheckin(s: State, r: int)
    requires LocksKept(s) && Enabled(s, Checkin(r))
    ensures LocksKept(Apply(s, Checkin(r)))
  {
    EntriesOnCheckin(s, r);
    PlacesOnCheckin(s, r);
    hide EntriesKept, PlaceKept, HeldKept, Apply;
  }

  lemma EntriesOnCheckin(s: State, r: int)
    requires LocksKept(s) && Enabled(s, Checkin(r))
    ensures EntriesKept(Apply(s, Checkin(r)))
  {
    var s' := Apply(s, Checkin(r));
    var c := s.requests[r].conversation;
    ReferringMoved(s.requests, r, s'.requests[r]);
    assert PlaceKept(s, r);
    assert r in Referring(s.requests, c);
    hide Referring, PlaceKept, HeldKept;
    assert |Referring(s.requests, c) - {r}| == |Referring(s.requests, c)| - 1;
  }

  lemma PlacesOnCheckin(s: State, r: int)
    requires LocksKept(s) && Enabled(s, Checkin(r))
    ensures var s' := Apply(s, Checkin(r));
            && (forall x :: x in s'.requests ==> PlaceKept(s', x))
            && (forall lock :: lock in s'.held ==> HeldKept(s', lock))
  {
    var s' := Apply(s, Checkin(r));
    var c := s.requests[r].conversation;
    assert PlaceKept(s, r);
    assert r in Referring(s.requests, c);
    LastOut(s, r, c);
    hide Referring;
    forall x | x in s'.requests ensures PlaceKept(s', x) {
      if x != r { assert PlaceKept(s, x); }
    }
    forall l | l in s'.held ensures HeldKept(s', l) {
      assert HeldKept(s, l);
    }
  }

  /** Whoever still refers keeps the entry alive. */
  lemma LastOut(s: State, r: int, c: int)
    requires r in Referring(s.requests, c)
    ensures forall x :: x in s.requests && x != r && s.requests[x].conversation == c && Refers(s.requests[x].at) ==> |Referring(s.requests, c)| >= 2
  {
    forall x | x in s.requests && x != r && s.requests[x].conversation == c && Refers(s.requests[x].at) ensures |Referring(s.requests, c)| >= 2 {
      SubsetSize({r, x}, Referring(s.requests, c));
      assert |{r, x}| == 2;
    }
  }

  lemma LocksOnDie(s: State)
    ensures LocksKept(Apply(s, Die))
  {
  }

  lemma LocksStep(s: State, step: Step)
    requires LocksKept(s) && Enabled(s, step)
    ensures LocksKept(Apply(s, step))
  {
    var s' := Apply(s, step);
    match step {
      case Create(c) => LocksStay(s, s');
      case Restore(c) => LocksStay(s, s');
      case Cancel(c) => LocksStay(s, s');
      case Die => LocksOnDie(s);
      case Arrive(r, c, work) => LocksOnArrive(s, r, s'.requests[r], s');
      case Checkout(r) => LocksOnCheckout(s, r);
      case Acquire(r) => LocksOnAcquire(s, r);
      case Release(r) => LocksOnRelease(s, r);
      case Checkin(r) => LocksOnCheckin(s, r);
      case GiveUp(r) => hide LocksKept, Referring; LocksOnMove(s, r, s'.requests[r], s');
      case Look(r) => hide LocksKept, Referring, Lookup; LocksOnMove(s, r, s'.requests[r], s');
      case Trash(r) => hide LocksKept, Referring; LocksOnMove(s, r, s'.requests[r], s');
      case Refuse(r) => hide LocksKept, Referring; LocksOnMove(s, r, s'.requests[r], s');
      case Ask(r) => hide LocksKept, Referring; LocksOnMove(s, r, s'.requests[r], s');
      case Register(r) => hide LocksKept, Referring; LocksOnMove(s, r, s'.requests[r], s');
      case Dispatch(r) => hide LocksKept, Referring; LocksOnMove(s, r, s'.requests[r], s');
      case Finish(r, stop) => hide LocksKept, Referring; LocksOnMove(s, r, s'.requests[r], s');
      case Answer(r) => hide LocksKept, Referring; LocksOnMove(s, r, s'.requests[r], s');
      case Raise(r) => hide LocksKept, Referring; LocksOnMove(s, r, s'.requests[r], s');
    }
  }

  lemma LocksStay(s: State, s': State)
    requires LocksKept(s) && s'.entries == s.entries && s'.nextLock == s.nextLock && s'.held == s.held && s'.requests == s.requests
    ensures LocksKept(s')
  {
    hide Referring;
    assert forall r :: r in s.requests ==> PlaceKept(s, r) ==> PlaceKept(s', r);
    assert forall l :: l in s.held ==> HeldKept(s, l) ==> HeldKept(s', l);
  }

  // ---- the runs in flight ------------------------------------------------------------------------

  ghost predicate EventsKept(s: State) {
    && (forall e :: e in s.runs.set_ ==> e < s.nextEvent)
    && (forall c :: c in s.runs.active ==> s.runs.active[c] < s.nextEvent && Registered(s, c))
    && (forall r :: r in s.requests && s.requests[r].at.Running? ==> InFlight(s, r))
  }

  ghost predicate InFlight(s: State, r: int)
    requires r in s.requests && s.requests[r].at.Running?
  {
    var q := s.requests[r];
    q.conversation in s.runs.active && s.runs.active[q.conversation] == q.at.event
  }

  /** A registered event belongs to the request that holds the conversation's lock. */
  ghost predicate Registered(s: State, c: int)
    requires c in s.runs.active
  {
    && c in s.entries && s.entries[c].lock in s.held && s.held[s.entries[c].lock] in s.requests
    && var q := s.requests[s.held[s.entries[c].lock]];
       q.conversation == c && q.at.Running? && q.at.event == s.runs.active[c]
  }

  /** A thread a run is in is not in the trash. */
  ghost predicate LiveKept(s: State) {
    forall r :: r in s.requests && InRun(s.requests[r].at) ==> s.requests[r].conversation in s.live
  }

  predicate InRun(at: Place) {
    at.Cleared? || at.Asked? || at.Running? || at.Ran?
  }

  /** Two requests of one conversation never both hold its lock. */
  lemma OnlyHolder(s: State, r: int, x: int)
    requires LocksKept(s) && r in s.requests && x in s.requests
    requires s.requests[r].conversation == s.requests[x].conversation && Holds(s.requests[r].at) && Holds(s.requests[x].at)
    ensures r == x
  {
    assert PlaceKept(s, r) && PlaceKept(s, x);
  }

  /** A lock's holder is a request of the conversation the lock belongs to. */
  lemma HolderOf(s: State, c: int)
    requires LocksKept(s) && c in s.entries && s.entries[c].lock in s.held
    ensures var r := s.held[s.entries[c].lock]; r in s.requests && Holds(s.requests[r].at) && s.requests[r].conversation == c
  {
    var lock := s.entries[c].lock;
    assert HeldKept(s, lock);
    assert PlaceKept(s, s.held[lock]);
  }

  lemma EventsQuiet(s: State, r: int, s': State)
    requires LocksKept(s) && EventsKept(s) && r in s.requests && !s.requests[r].at.Running?
    requires r in s'.requests && s'.requests == s.requests[r := s'.requests[r]] && !s'.requests[r].at.Running?
    requires s'.requests[r].conversation == s.requests[r].conversation
    requires s'.runs == s.runs && s'.nextEvent == s.nextEvent
    requires forall c :: c in s.entries && c in s.runs.active ==> c in s'.entries && s'.entries[c].lock == s.entries[c].lock
    requires forall l :: l in s.held && s.held[l] != r ==> l in s'.held && s'.held[l] == s.held[l]
    ensures EventsKept(s')
  {
    forall c | c in s'.runs.active ensures Registered(s', c) {
      assert Registered(s, c);
    }
    forall x | x in s'.requests && s'.requests[x].at.Running? ensures InFlight(s', x) {
      assert x != r && InFlight(s, x);
    }
  }

  lemma EventsOnRegister(s: State, r: int)
    requires LocksKept(s) && EventsKept(s) && Enabled(s, Register(r))
    ensures EventsKept(Apply(s, Register(r)))
  {
    var s' := Apply(s, Register(r));
    assert PlaceKept(s, r);
    forall c | c in s'.runs.active ensures s'.runs.active[c] < s'.nextEvent && Registered(s', c) {
      if c != s.requests[r].conversation { assert Registered(s, c); }
    }
    forall x | x in s'.requests && s'.requests[x].at.Running? ensures InFlight(s', x) {
      if x != r {
        assert InFlight(s, x);
        if s.requests[x].conversation == s.requests[r].conversation { OnlyHolder(s, r, x); }
      }
    }
  }

  lemma EventsOnEnd(s: State, r: int, s': State)
    requires LocksKept(s) && EventsKept(s) && r in s.requests && s.requests[r].at.Running?
    requires r in s'.requests && s'.requests == s.requests[r := s'.requests[r]] && !s'.requests[r].at.Running?
    requires s'.runs == Unregister(s, s.requests[r]) && s'.nextEvent == s.nextEvent && s'.entries == s.entries && s'.held == s.held
    ensures EventsKept(s') && s.requests[r].conversation !in s'.runs.active
  {
    var c0 := s.requests[r].conversation;
    assert InFlight(s, r) && PlaceKept(s, r);
    forall c | c in s'.runs.active ensures Registered(s', c) {
      assert c != c0 && Registered(s, c);
    }
    forall x | x in s'.requests && s'.requests[x].at.Running? ensures InFlight(s', x) {
      assert x != r && InFlight(s, x);
      if s.requests[x].conversation == c0 { OnlyHolder(s, r, x); }
    }
  }

  lemma EventsStay(s: State, s': State)
    requires EventsKept(s) && s'.requests == s.requests && s'.entries == s.entries && s'.held == s.held && s'.nextEvent == s.nextEvent
    requires s'.runs.active == s.runs.active && forall e :: e in s'.runs.set_ ==> e < s.nextEvent
    ensures EventsKept(s')
  {
    forall c | c in s'.runs.active ensures Registered(s', c) {
      assert Registered(s, c);
    }
    forall x | x in s'.requests && s'.requests[x].at.Running? ensures InFlight(s', x) {
      assert InFlight(s, x);
    }
  }

  lemma EventsOnArrive(s: State, r: int, c: int, work: Work)
    requires EventsKept(s) && Enabled(s, Arrive(r, c, work))
    ensures EventsKept(Apply(s, Arrive(r, c, work)))
  {
    var s' := Apply(s, Arrive(r, c, work));
    forall d | d in s'.runs.active ensures Registered(s', d) {
      assert Registered(s, d);
    }
    forall x | x in s'.requests && s'.requests[x].at.Running? ensures InFlight(s', x) {
      assert x != r && InFlight(s, x);
    }
  }

  lemma EventsOnCheckin(s: State, r: int)
    requires LocksKept(s) && EventsKept(s) && Enabled(s, Checkin(r))
    ensures EventsKept(Apply(s, Checkin(r)))
  {
    var s' := Apply(s, Checkin(r));
    var c := s.requests[r].conversation;
    assert PlaceKept(s, r) && r in Referring(s.requests, c);
    LastOut(s, r, c);
    forall d | d in s.entries && d in s.runs.active ensures d in s'.entries && s'.entries[d].lock == s.entries[d].lock {
      assert Registered(s, d);
      if d == c {
        var x := s.held[s.entries[c].lock];
        assert x != r && Refers(s.requests[x].at);
      }
    }
    hide Referring, LocksKept, EventsKept;
    EventsQuiet(s, r, s');
  }

  lemma EventsStep(s: State, step: Step)
    requires LocksKept(s) && EventsKept(s) && Enabled(s, step)
    ensures EventsKept(Apply(s, step))
  {
    var s' := Apply(s, step);
    match step {
      case Create(c) => hide LocksKept; EventsStay(s, s');
      case Restore(c) => hide LocksKept; EventsStay(s, s');
      case Cancel(c) => hide LocksKept; EventsStay(s, s');
      case Die =>
      case Arrive(r, c, work) => EventsOnArrive(s, r, c, work);
      case Register(r) => EventsOnRegister(s, r);
      case Finish(r, stop) => hide LocksKept, EventsKept; EventsOnEnd(s, r, s');
      case Raise(r) =>
        hide LocksKept, EventsKept;
        if s.requests[r].at.Running? { EventsOnEnd(s, r, s'); } else { EventsQuiet(s, r, s'); }
      case Checkin(r) => EventsOnCheckin(s, r);
      case Checkout(r) => hide LocksKept, EventsKept; EventsQuiet(s, r, s');
      case Acquire(r) => hide LocksKept, EventsKept; EventsQuiet(s, r, s');
      case Release(r) => assert PlaceKept(s, r); hide LocksKept, EventsKept; EventsQuiet(s, r, s');
      case GiveUp(r) => hide LocksKept, EventsKept; EventsQuiet(s, r, s');
      case Look(r) => hide LocksKept, EventsKept, Lookup; EventsQuiet(s, r, s');
      case Trash(r) => hide LocksKept, EventsKept; EventsQuiet(s, r, s');
      case Refuse(r) => hide LocksKept, EventsKept; EventsQuiet(s, r, s');
      case Ask(r) => hide LocksKept, EventsKept; EventsQuiet(s, r, s');
      case Dispatch(r) => hide LocksKept, EventsKept; EventsQuiet(s, r, s');
      case Answer(r) => hide LocksKept, EventsKept; EventsQuiet(s, r, s');
    }
  }

  lemma LiveStep(s: State, step: Step)
    requires LocksKept(s) && LiveKept(s) && Enabled(s, step)
    ensures LiveKept(Apply(s, step))
  {
    var s' := Apply(s, step);
    if step.Trash? {
      var r := step.request;
      forall x | x in s'.requests && InRun(s'.requests[x].at) ensures s'.requests[x].conversation in s'.live {
        if s'.requests[x].conversation == s.requests[r].conversation { OnlyHolder(s, r, x); }
      }
    }
  }

  // ---- the log and what started ------------------------------------------------------------------

  /** A user turn is what its author posted, and the author is past asking. */
  ghost predicate TurnKept(s: State, i: nat)
    requires i < |s.log|
  {
    var m := s.log[i];
    m.author in s.requests && var q := s.requests[m.author];
    && q.conversation == m.conversation && !BeforeAsking(q.at)
    && (m.User? ==> q.work.Post? && q.work.content == m.content && q.work.key == m.key)
  }

  predicate BeforeAsking(at: Place) {
    at.Arrived? || at.Waiting? || at.Inside? || at.Cleared?
  }

  /** What follows a user turn in its conversation, when it is an answer, is its own. */
  ghost predicate AnswerKept(log: seq<Message>, i: nat)
    requires i < |log|
  {
    log[i].User? ==>
      var n := NextIn(log, log[i].conversation, i + 1);
      n < |log| && log[n].Assistant? ==> log[n].author == log[i].author
  }

  /** No key opened two exchanges on a thread. */
  ghost predicate KeyOnce(log: seq<Message>) {
    forall i, j :: 0 <= i < j < |log| && SameKey(log[i], log[j]) ==> false
  }

  predicate SameKey(a: Message, b: Message) {
    a.User? && b.User? && a.conversation == b.conversation && a.key.Some? && a.key == b.key
  }

  /** The turn a request asked is the newest of its thread until it is answered. */
  ghost predicate TurnOpen(s: State, r: int)
    requires r in s.requests
  {
    var q := s.requests[r];
    (q.at.Asked? || q.at.Running? || q.at.Ran?) ==>
      && q.work.Post? && q.at.turn < |s.log|
      && s.log[q.at.turn] == User(q.conversation, r, q.work.content, q.work.key)
      && NextIn(s.log, q.conversation, q.at.turn + 1) >= |s.log|
  }

  /** A cleared message's key is new on its thread. */
  ghost predicate KeyNew(s: State, r: int)
    requires r in s.requests
  {
    var q := s.requests[r];
    q.at.Cleared? ==> q.work.Post? && (q.work.key.Some? ==> forall i :: 0 <= i < |s.log| ==> !Keyed(s.log[i], q.conversation, q.work.key.value))
  }

  /** An answer names a stored exchange of the request's own message. */
  ghost predicate ResponseKept(log: seq<Message>, q: Request) {
    var given := Given(q.at);
    given.Some? && given.value.Answered? ==>
      var a := given.value;
      && q.work.Post? && a.asked < a.answered < |log| && log[a.asked].User? && log[a.answered].Assistant?
      && log[a.asked].conversation == q.conversation && log[a.asked].key == q.work.key && log[a.asked].content == q.work.content
      && a.answered == NextIn(log, q.conversation, a.asked + 1)
      && log[a.answered].author == log[a.asked].author
      && a.status == Status(log[a.answered].stop)
  }

  function Given(at: Place): Option<Response> {
    if at.Leaving? || at.Released? || at.Done? then Some(at.response) else None
  }

  /** No user turn started twice, and one that is yet to start has not. */
  ghost predicate StartsKept(s: State) {
    && (forall i, j :: 0 <= i < j < |s.starts| ==> s.starts[i].turn != s.starts[j].turn)
    && (forall i :: 0 <= i < |s.starts| ==> s.starts[i].turn < |s.log| && s.log[s.starts[i].turn].User? && s.log[s.starts[i].turn].author == s.starts[i].request)
    && (forall r :: r in s.requests && s.requests[r].at.Asked? ==> NotStarted(s.starts, s.requests[r].at.turn))
  }

  ghost predicate NotStarted(starts: seq<Start>, turn: nat) {
    forall i :: 0 <= i < |starts| ==> starts[i].turn != turn
  }

  ghost predicate LogKept(s: State) {
    && KeyOnce(s.log)
    && (forall i :: 0 <= i < |s.log| ==> TurnKept(s, i))
    && (forall i :: 0 <= i < |s.log| ==> AnswerKept(s.log, i))
    && (forall r :: r in s.requests ==> TurnOpen(s, r))
    && (forall r :: r in s.requests ==> KeyNew(s, r))
    && (forall r :: r in s.requests ==> ResponseKept(s.log, s.requests[r]))
  }

  /** A step that writes nothing: only request `r` moves, and only to a place the log allows. */
  lemma LogOnMove(s: State, r: int, q: Request, s': State)
    requires LogKept(s) && s'.requests == s.requests[r := q] && s'.log == s.log
    requires r in s.requests ==> q.conversation == s.requests[r].conversation && q.work == s.requests[r].work
    requires r !in s.requests || BeforeAsking(s.requests[r].at) || !BeforeAsking(q.at)
    requires TurnOpen(s', r) && KeyNew(s', r) && ResponseKept(s'.log, q)
    ensures LogKept(s')
  {
    hide KeyOnce, AnswerKept, ResponseKept, Keyed;
    forall i | 0 <= i < |s'.log| ensures TurnKept(s', i) {
      assert TurnKept(s, i);
    }
    forall x | x in s'.requests ensures TurnOpen(s', x) && KeyNew(s', x) && ResponseKept(s'.log, s'.requests[x]) {
      if x != r { assert TurnOpen(s, x) && KeyNew(s, x) && ResponseKept(s.log, s.requests[x]); }
    }
  }

  lemma LogOnLook(s: State, r: int)
    requires LogKept(s) && Enabled(s, Look(r))
    ensures LogKept(Apply(s, Look(r)))
  {
    var s' := Apply(s, Look(r));
    var q := s.requests[r];
    LookupIs(s, r);
    hide LogKept, Lookup, KeyOnce, AnswerKept, Keyed;
    LogOnMove(s, r, s'.requests[r], s');
  }

  /** The lookup's answer is a stored exchange of this very message, or the key is new. */
  lemma LookupIs(s: State, r: int)
    requires LogKept(s) && r in s.requests && s.requests[r].work.Post?
    ensures var q := s.requests[r];
            var found := Lookup(s, q);
            && (found.None? && q.work.key.Some? ==> forall i :: 0 <= i < |s.log| ==> !Keyed(s.log[i], q.conversation, q.work.key.value))
            && (found.Some? ==> forall lock :: ResponseKept(s.log, q.(at := Leaving(lock, found.value))))
  {
    var q := s.requests[r];
    if q.conversation in s.live && q.work.key.Some? {
      var key := q.work.key.value;
      var asked := FirstKeyed(s.log, q.conversation, key, 0);
      if asked < |s.log| {
        assert AnswerKept(s.log, asked);
      }
    }
  }

  lemma LogOnAsk(s: State, r: int)
    requires LocksKept(s) && LogKept(s) && Enabled(s, Ask(r))
    ensures LogKept(Apply(s, Ask(r)))
  {
    var s' := Apply(s, Ask(r));
    var q := s.requests[r];
    var m := User(q.conversation, r, q.work.content, q.work.key);
    assert KeyNew(s, r);
    KeyOnceGrows(s.log, m);
    AnswersGrow(s.log, m);
    ResponsesGrow(s, m);
    assert NextIn(s'.log, q.conversation, |s.log| + 1) >= |s'.log|;
    hide KeyOnce, AnswerKept, ResponseKept;
    forall i | 0 <= i < |s'.log| ensures TurnKept(s', i) {
      if i < |s.log| { assert TurnKept(s, i) && s'.log[i] == s.log[i]; }
    }
    forall x | x in s'.requests ensures TurnOpen(s', x) && KeyNew(s', x) && ResponseKept(s'.log, s'.requests[x]) {
      if x != r {
        assert TurnOpen(s, x) && KeyNew(s, x) && ResponseKept(s'.log, s.requests[x]);
        OthersElsewhere(s, r, x);
        if s.requests[x].at.Asked? || s.requests[x].at.Running? || s.requests[x].at.Ran? {
          NextInGrows(s.log, m, s.requests[x].conversation, s.requests[x].at.turn + 1);
        }
      }
    }
  }

  /** Nobody else is past the lock of the holder's conversation. */
  lemma OthersElsewhere(s: State, r: int, x: int)
    requires LocksKept(s) && r in s.requests && x in s.requests && x != r && Holds(s.requests[r].at)
    ensures Holds(s.requests[x].at) ==> s.requests[x].conversation != s.requests[r].conversation
  {
    if Holds(s.requests[x].at) && s.requests[x].conversation == s.requests[r].conversation {
      OnlyHolder(s, r, x);
    }
  }

  lemma KeyOnceGrows(log: seq<Message>, m: Message)
    requires KeyOnce(log) && (m.User? && m.key.Some? ==> forall i :: 0 <= i < |log| ==> !Keyed(log[i], m.conversation, m.key.value))
    ensures KeyOnce(log + [m])
  {
    var all := log + [m];
    forall i, j | 0 <= i < j < |all| ensures !SameKey(all[i], all[j]) {
      assert all[i] == log[i];
      if j < |log| { assert all[j] == log[j] && !SameKey(log[i], log[j]); } else { assert all[j] == m; }
    }
  }

  /** A user turn settles nobody else's answer. */
  lemma AnswersGrow(log: seq<Message>, m: Message)
    requires (forall i :: 0 <= i < |log| ==> AnswerKept(log, i)) && m.User?
    ensures forall i :: 0 <= i < |log + [m]| ==> AnswerKept(log + [m], i)
  {
    var all := log + [m];
    forall i | 0 <= i < |all| ensures AnswerKept(all, i) {
      if i < |log| {
        assert all[i] == log[i] && AnswerKept(log, i);
        NextInGrows(log, m, log[i].conversation, i + 1);
      }
    }
  }

  /** Stored exchanges stay what they were. */
  lemma ResponsesGrow(s: State, m: Message)
    requires forall r :: r in s.requests ==> ResponseKept(s.log, s.requests[r])
    ensures forall r :: r in s.requests ==> ResponseKept(s.log + [m], s.requests[r])
  {
    forall r | r in s.requests ensures ResponseKept(s.log + [m], s.requests[r]) {
      var q := s.requests[r];
      assert ResponseKept(s.log, q);
      var given := Given(q.at);
      if given.Some? && given.value.Answered? {
        NextInGrows(s.log, m, q.conversation, given.value.asked + 1);
      }
    }
  }

  lemma LogOnAnswer(s: State, r: int)
    requires LocksKept(s) && LogKept(s) && Enabled(s, Answer(r))
    ensures LogKept(Apply(s, Answer(r)))
  {
    var s' := Apply(s, Answer(r));
    var q := s.requests[r];
    var m := Assistant(q.conversation, r, q.at.stop);
    assert TurnOpen(s, r);
    KeyOnceGrows(s.log, m);
    OwnAnswer(s.log, m, q.at.turn);
    ResponsesGrow(s, m);
    NextInGrows(s.log, m, q.conversation, q.at.turn + 1);
    assert ResponseKept(s'.log, s'.requests[r]);
    hide KeyOnce, AnswerKept, ResponseKept;
    forall i | 0 <= i < |s'.log| ensures TurnKept(s', i) {
      if i < |s.log| { assert TurnKept(s, i) && s'.log[i] == s.log[i]; }
    }
    forall x | x in s'.requests ensures TurnOpen(s', x) && KeyNew(s', x) && ResponseKept(s'.log, s'.requests[x]) {
      if x != r {
        assert TurnOpen(s, x) && KeyNew(s, x) && ResponseKept(s'.log, s.requests[x]);
        OthersElsewhere(s, r, x);
        if s.requests[x].at.Asked? || s.requests[x].at.Running? || s.requests[x].at.Ran? {
          NextInGrows(s.log, m, s.requests[x].conversation, s.requests[x].at.turn + 1);
        }
      }
    }
  }

  /** The answer lands right after the newest turn of the thread, which is the one it answers. */
  lemma OwnAnswer(log: seq<Message>, m: Message, turn: nat)
    requires (forall i :: 0 <= i < |log| ==> AnswerKept(log, i)) && m.Assistant?
    requires turn < |log| && log[turn].User? && log[turn].conversation == m.conversation && log[turn].author == m.author
    requires NextIn(log, m.conversation, turn + 1) >= |log|
    ensures forall i :: 0 <= i < |log + [m]| ==> AnswerKept(log + [m], i)
  {
    var all := log + [m];
    forall i | 0 <= i < |all| ensures AnswerKept(all, i) {
      if i < |log| {
        assert all[i] == log[i] && AnswerKept(log, i);
        NextInGrows(log, m, log[i].conversation, i + 1);
        if log[i].conversation == m.conversation && NextIn(log, m.conversation, i + 1) >= |log| {
          assert i == turn;
        }
      }
    }
  }
}
