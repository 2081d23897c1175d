/**
 Any number of messages on any number of threads, answering, re-asking and redeeming in any order
 (backend/app/ai/confirmation.py, and where backend/app/ai/loop.py and
 backend/app/api/routes_agent.py call it).
 */
module ConfirmationRuns {
  import opened Common
  import opened Confirmation

  /** A gated call that reached the service layer, and what let it through. */
  datatype Execution =
    | Confirmed(token: int, thread: int, call: Call, at: int, seen: Option<string>)
    | RowMissing(call: Call, seen: Option<string>)

  /** `asked` and `ran` are the history; `answered` is what each live run's gate holds. */
  datatype State = State(
    tables: Tables,
    answered: map<int, Option<Pending>>,
    threadOf: map<int, int>,
    now: int,
    nextToken: int,
    asked: map<int, Pending>,
    ran: seq<Execution>)

  const START := State(Tables(map[], map[]), map[], map[], 0, 0, map[], [])

  datatype Step =
    /** Time passes. */
    | Wait(seconds: nat)
    /** A message without a token opens a gated run. */
    | Open(run: int, thread: int)
    /** The run's model proposes a gated call. */
    | Propose(run: int, call: Call, rows: Rows)
    /** A message with a token. */
    | Present(token: int, thread: int, rows: Rows)
    /** The turn that asked is stored. */
    | Show(token: int, message: int)
    /** The run is over. */
    | Close(run: int)

  function After(s: State, step: Step): State {
    match step
    case Wait(seconds) => s.(now := s.now + seconds)
    case Open(run, thread) =>
      if run in s.answered then s else
        var t := Swept(s.tables, s.now);
        s.(tables := Taken(t, thread), threadOf := s.threadOf[run := thread],
           answered := s.answered[run := if thread in t.byThread && t.byThread[thread] in t.byToken then Some(t.byToken[t.byThread[thread]]) else None])
    case Propose(run, call, rows) =>
      if run !in s.answered || run !in s.threadOf || call.0 !in GATED_TOOLS then s
      else if Answers(s.answered[run], call, s.now, rows) then
        s.(answered := s.answered[run := None],
           ran := s.ran + [Confirmed(s.answered[run].value.token, s.threadOf[run], call, s.now, rows(call))])
      else if rows(call).None? then
        s.(answered := s.answered[run := LeftOver(s.answered[run], call)], ran := s.ran + [RowMissing(call, rows(call))])
      else
        var p := Pending(s.nextToken, s.threadOf[run], call, rows(call).value, s.now + TOKEN_TTL_SECONDS, false, None);
        s.(answered := s.answered - {run}, tables := Armed(Swept(s.tables, s.now), p),
           asked := s.asked[s.nextToken := p], nextToken := s.nextToken + 1)
    case Present(token, thread, rows) =>
      var refusal := Refusing(s.tables, token, thread, s.now, rows);
      var t := Redeemed(s.tables, token, thread, s.now, rows);
      if refusal.Some? then s.(tables := t)
      else s.(tables := t, ran := s.ran + [Confirmed(token, thread, s.tables.byToken[token].call, s.now, rows(s.tables.byToken[token].call))])
    case Show(token, message) =>
      if token !in s.tables.byToken then s
      else s.(tables := s.tables.(byToken := s.tables.byToken[token := s.tables.byToken[token].(message := Some(message))]))
    case Close(run) => s.(answered := s.answered - {run})
  }

  function Run(s: State, steps: seq<Step>): State {
    if steps == [] then s else After(Run(s, steps[..|steps| - 1]), steps[|steps| - 1])
  }

  // ---- what every run keeps ----------------------------------------------------------------------

  predicate Holds(s: State, run: int) {
    run in s.answered && s.answered[run].Some?
  }

  /** The tokens that have let a call through. */
  function Spends(ran: seq<Execution>): set<int> {
    set e | e in ran && e.Confirmed? :: e.token
  }

  /** Every question still answerable is exactly as it was asked, on its own thread, and nobody has used it. */
  ghost predicate TokensKept(s: State) {
    && (forall x :: x in s.asked ==> x < s.nextToken && s.asked[x].token == x)
    && (forall x :: x in s.tables.byToken ==> x in s.asked && s.tables.byToken[x].Asked() == s.asked[x])
    && (forall x :: x in s.tables.byToken && !s.tables.byToken[x].used ==> x !in Spends(s.ran))
  }

  ghost predicate GatesKept(s: State) {
    && (forall run :: run in s.answered ==> run in s.threadOf)
    && (forall run :: Holds(s, run) ==> var p := s.answered[run].value;
          p.token in s.asked && p.Asked() == s.asked[p.token] && p.thread == s.threadOf[run]
          && p.token !in s.tables.byToken && p.token !in Spends(s.ran))
    && (forall a, b :: Holds(s, a) && Holds(s, b) && s.answered[a].value.token == s.answered[b].value.token ==> a == b)
  }

  /**
   A confirmed call is the one asked, on the thread that asked, in time, and with the state it
   previewed; an unconfirmed one found no row to act on.
   */
  ghost predicate Rightly(s: State, e: Execution) {
    if e.Confirmed? then
      && e.token in s.asked
      && s.asked[e.token].thread == e.thread && s.asked[e.token].call == e.call
      && e.at < s.asked[e.token].expiresAt && e.seen == Some(s.asked[e.token].state)
    else e.seen == None
  }

  ghost predicate OncePerToken(ran: seq<Execution>) {
    forall i, j :: 0 <= i < j < |ran| && ran[i].Confirmed? && ran[j].Confirmed? ==> ran[i].token != ran[j].token
  }

  ghost predicate Inv(s: State) {
    && Matched(s.tables) && TokensKept(s) && GatesKept(s)
    && OncePerToken(s.ran) && (forall i :: 0 <= i < |s.ran| ==> Rightly(s, s.ran[i]))
  }

  lemma SpendsMore(ran: seq<Execution>, e: Execution)
    ensures Spends(ran + [e]) == Spends(ran) + if e.Confirmed? then {e.token} else {}
    ensures OncePerToken(ran) && (e.Confirmed? ==> e.token !in Spends(ran)) ==> OncePerToken(ran + [e])
  {
    assert forall x :: x in ran + [e] <==> x in ran || x == e;
    if OncePerToken(ran) && (e.Confirmed? ==> e.token !in Spends(ran)) {
      var all := ran + [e];
      forall i, j | 0 <= i < j < |all| && all[i].Confirmed? && all[j].Confirmed? ensures all[i].token != all[j].token {
        assert all[i] in ran;
        if j < |ran| { assert all[j] == ran[j] && all[i] == ran[i]; }
      }
    }
  }

  lemma RightlyMore(s: State, s': State, e: Execution)
    requires forall i :: 0 <= i < |s.ran| ==> Rightly(s, s.ran[i])
    requires (forall x :: x in s.asked ==> x in s'.asked && s'.asked[x] == s.asked[x])
    requires s'.ran == s.ran || (s'.ran == s.ran + [e] && Rightly(s', e))
    ensures forall i :: 0 <= i < |s'.ran| ==> Rightly(s', s'.ran[i])
  {
    forall i | 0 <= i < |s'.ran| ensures Rightly(s', s'.ran[i]) {
      if i < |s.ran| { assert s'.ran[i] == s.ran[i]; }
    }
  }

  lemma OpenKeeps(s: State, run: int, thread: int)
    requires Inv(s)
    ensures Inv(After(s, Open(run, thread)))
  {
    var s' := After(s, Open(run, thread));
    if run !in s.answered {
      var t := Swept(s.tables, s.now);
      SweptMatched(s.tables, s.now);
      TakenMatched(t, thread);
      RightlyMore(s, s', RowMissing(("", map[]), None));
      TakenTokens(s, t, thread);
      GatesOpen(s, run, thread, t);
    }
  }

  lemma TakenTokens(s: State, t: Tables, thread: int)
    requires Matched(s.tables) && TokensKept(s) && t == Swept(s.tables, s.now)
    ensures TokensKept(s.(tables := Taken(t, thread)))
  {
  }

  lemma GatesOpen(s: State, run: int, thread: int, t: Tables)
    requires Matched(s.tables) && TokensKept(s) && GatesKept(s) && run !in s.answered && t == Swept(s.tables, s.now) && Matched(t)
    ensures GatesKept(After(s, Open(run, thread)))
  {
    var s' := After(s, Open(run, thread));
    assert s'.tables == Taken(t, thread);
    assert forall x :: x in s'.tables.byToken ==> x in s.tables.byToken;
    forall r | Holds(s', r) && r != run ensures Holds(s, r) && s'.answered[r] == s.answered[r] && s'.threadOf[r] == s.threadOf[r] {
    }
    if Holds(s', run) {
      var p := s'.answered[run].value;
      assert p == t.byToken[t.byThread[thread]] && p.token == t.byThread[thread];
      assert p.token in s.tables.byToken && !p.used;
      assert p.token !in s'.tables.byToken;
    }
  }

  lemma ProposeKeeps(s: State, run: int, call: Call, rows: Rows)
    requires Inv(s)
    ensures Inv(After(s, Propose(run, call, rows)))
  {
    var s' := After(s, Propose(run, call, rows));
    if run !in s.answered || run !in s.threadOf || call.0 !in GATED_TOOLS {
    } else if Answers(s.answered[run], call, s.now, rows) {
      LetThrough(s, run, call, rows);
    } else if rows(call).None? {
      SpendsMore(s.ran, RowMissing(call, rows(call)));
      RightlyMore(s, s', RowMissing(call, rows(call)));
      GatesShrink(s, s');
    } else {
      AskedAgain(s, run, call, rows);
    }
  }

  /** Dropping what a gate holds keeps every gate right. */
  lemma GatesShrink(s: State, s': State)
    requires GatesKept(s) && Spends(s'.ran) == Spends(s.ran) && s'.tables == s.tables && s'.threadOf == s.threadOf && s'.asked == s.asked
    requires forall r :: r in s'.answered ==> r in s.answered && (s'.answered[r] == s.answered[r] || s'.answered[r] == None)
    ensures GatesKept(s')
  {
    assert forall r :: Holds(s', r) ==> Holds(s, r) && s'.answered[r] == s.answered[r];
  }

  lemma LetThrough(s: State, run: int, call: Call, rows: Rows)
    requires Inv(s) && run in s.answered && run in s.threadOf && call.0 in GATED_TOOLS && Answers(s.answered[run], call, s.now, rows)
    ensures Inv(After(s, Propose(run, call, rows)))
  {
    var s' := After(s, Propose(run, call, rows));
    var p := s.answered[run].value;
    var e := Confirmed(p.token, s.threadOf[run], call, s.now, rows(call));
    assert Holds(s, run);
    SpendsMore(s.ran, e);
    assert Rightly(s', e);
    RightlyMore(s, s', e);
    assert TokensKept(s');
    forall r | Holds(s', r) ensures Holds(s, r) && r != run && s'.answered[r] == s.answered[r] && s.answered[r].value.token != p.token {
    }
  }

  lemma AskedAgain(s: State, run: int, call: Call, rows: Rows)
    requires Inv(s) && run in s.answered && run in s.threadOf && call.0 in GATED_TOOLS
    requires !Answers(s.answered[run], call, s.now, rows) && rows(call).Some?
    ensures Inv(After(s, Propose(run, call, rows)))
  {
    var s' := After(s, Propose(run, call, rows));
    var p := Pending(s.nextToken, s.threadOf[run], call, rows(call).value, s.now + TOKEN_TTL_SECONDS, false, None);
    assert s' == s.(answered := s.answered - {run}, tables := Armed(Swept(s.tables, s.now), p),
                    asked := s.asked[s.nextToken := p], nextToken := s.nextToken + 1);
    RightlyMore(s, s', RowMissing(call, None));
    ArmedTables(s, p);
    GatesOnArm(s, p, s', run);
    hide Matched, Armed, Swept, GatesKept, TokensKept, Rightly, OncePerToken, Spends;
  }

  lemma ArmedTables(s: State, p: Pending)
    requires Inv(s) && p.token == s.nextToken && !p.used && p.message.None?
    ensures var t := Armed(Swept(s.tables, s.now), p);
            && Matched(t)
            && TokensKept(s.(tables := t, asked := s.asked[s.nextToken := p], nextToken := s.nextToken + 1))
  {
    var t := Swept(s.tables, s.now);
    SweptMatched(s.tables, s.now);
    ArmedMatched(t, p);
    SpentWereAsked(s);
    var t' := Armed(t, p);
    assert forall x :: x in t'.byToken && x != p.token ==> x in s.tables.byToken && t'.byToken[x] == s.tables.byToken[x];
    hide Matched, Armed, Swept, GatesKept, Rightly, OncePerToken, Spends;
    assert t'.byToken[p.token].Asked() == p by { ArmedHas(t, p); }
  }

  lemma ArmedHas(t: Tables, p: Pending)
    requires !p.used && p.message.None?
    ensures p.token in Armed(t, p).byToken && Armed(t, p).byToken[p.token] == p && p.Asked() == p
  {
  }

  lemma GatesOnArm(s: State, p: Pending, s': State, run: int)
    requires Inv(s) && p.token == s.nextToken
    requires s' == s.(answered := s.answered - {run}, tables := Armed(Swept(s.tables, s.now), p),
                      asked := s.asked[s.nextToken := p], nextToken := s.nextToken + 1)
    ensures GatesKept(s')
  {
    assert forall x :: x in s'.tables.byToken && x != p.token ==> x in s.tables.byToken;
    hide Matched, Armed, Swept, Rightly, OncePerToken, Spends;
    assert forall r :: Holds(s', r) ==> Holds(s, r) && s'.answered[r] == s.answered[r];
  }

  lemma SpentWereAsked(s: State)
    requires forall i :: 0 <= i < |s.ran| ==> Rightly(s, s.ran[i])
    ensures forall x :: x in Spends(s.ran) ==> x in s.asked
  {
    forall e | e in s.ran && e.Confirmed? ensures e.token in s.asked {
      var i :| 0 <= i < |s.ran| && s.ran[i] == e;
      assert Rightly(s, s.ran[i]);
    }
  }

  lemma PresentKeeps(s: State, token: int, thread: int, rows: Rows)
    requires Inv(s)
    ensures Inv(After(s, Present(token, thread, rows)))
  {
    var s' := After(s, Present(token, thread, rows));
    var refusal := Refusing(s.tables, token, thread, s.now, rows);
    if refusal.Some? && !refusal.value.Stale? {
      assert s' == s;
    } else {
      var p := s.tables.byToken[token];
      SpentMatched(s.tables, token, thread);
      var e := if refusal.None? then Confirmed(token, thread, p.call, s.now, rows(p.call)) else RowMissing(p.call, None);
      SpendsMore(s.ran, e);
      assert Rightly(s', e);
      RightlyMore(s, s', e);
      assert forall x :: x in s'.tables.byToken <==> x in s.tables.byToken;
      assert TokensKept(s');
      assert forall r :: Holds(s', r) ==> Holds(s, r) && s'.answered[r] == s.answered[r];
    }
  }

  lemma ShowKeeps(s: State, token: int, message: int)
    requires Inv(s)
    ensures Inv(After(s, Show(token, message)))
  {
    var s' := After(s, Show(token, message));
    RightlyMore(s, s', RowMissing(("", map[]), None));
    assert forall x :: x in s'.tables.byToken <==> x in s.tables.byToken;
    assert forall r :: Holds(s', r) <==> Holds(s, r);
  }

  lemma StepKeeps(s: State, step: Step)
    requires Inv(s)
    ensures Inv(After(s, step))
  {
    hide Inv, After;
    match step {
      case Open(run, thread) => OpenKeeps(s, run, thread);
      case Propose(run, call, rows) => ProposeKeeps(s, run, call, rows);
      case Present(token, thread, rows) => PresentKeeps(s, token, thread, rows);
      case Show(token, message) => ShowKeeps(s, token, message);
      case Wait(seconds) => QuietKeeps(s, step);
      case Close(run) => QuietKeeps(s, step);
    }
  }

  lemma QuietKeeps(s: State, step: Step)
    requires Inv(s) && (step.Wait? || step.Close?)
    ensures Inv(After(s, step))
  {
    var s' := After(s, step);
    RightlyMore(s, s', RowMissing(("", map[]), None));
    GatesShrink(s, s');
  }

  lemma {:induction false} RunKeeps(steps: seq<Step>)
    ensures Inv(Run(START, steps))
    decreases |steps|
  {
    if steps != [] {
      RunKeeps(steps[..|steps| - 1]);
      StepKeeps(Run(START, steps[..|steps| - 1]), steps[|steps| - 1]);
    } else {
      assert Spends([]) == {};
    }
  }

  // ---- what that comes to ------------------------------------------------------------------------

  /**
   Over any run: no question lets two calls through; a call a question let through is exactly the
   one asked, on the thread that asked it, before it expired, with the rows as they were previewed;
   a gated call that ran unasked found no row; and the unused tokens and the thread entries name
   each other.
   */
  lemma ConfirmedOnce(steps: seq<Step>)
    ensures var s := Run(START, steps);
            && OncePerToken(s.ran) && (forall i :: 0 <= i < |s.ran| ==> Rightly(s, s.ran[i]))
            && Matched(s.tables)
  {
    RunKeeps(steps);
  }

  /** A token once off the table, or used, is never honoured again. */
  ghost predicate Dead(s: State, token: int) {
    token < s.nextToken && (token !in s.tables.byToken || s.tables.byToken[token].used)
  }

  lemma DeadStays(s: State, step: Step, token: int)
    requires Inv(s) && Dead(s, token)
    ensures Dead(After(s, step), token)
  {
    var s' := After(s, step);
    hide Inv, Matched, TokensKept, GatesKept, OncePerToken, Rightly, Spends;
  }

  lemma {:induction false} DeadForGood(s: State, steps: seq<Step>, token: int)
    requires Inv(s) && Dead(s, token)
    ensures Inv(Run(s, steps)) && Dead(Run(s, steps), token)
    decreases |steps|
  {
    if steps != [] {
      DeadForGood(s, steps[..|steps| - 1], token);
      StepKeeps(Run(s, steps[..|steps| - 1]), steps[|steps| - 1]);
      DeadStays(Run(s, steps[..|steps| - 1]), steps[|steps| - 1], token);
    }
  }

  /**
   The next message on a thread without its token voids the thread's question: whatever happens
   later, no message on any thread redeems it.
   */
  lemma NextMessageVoids(before: seq<Step>, run: int, thread: int, token: int, later: seq<Step>, from: int, rows: Rows)
    requires var s := Run(START, before); run !in s.answered && token in s.asked && s.asked[token].thread == thread
    ensures var s := Run(After(Run(START, before), Open(run, thread)), later);
            var refusal := Refusing(s.tables, token, from, s.now, rows);
            refusal == Some(Unknown) || refusal == Some(Used)
  {
    var s := Run(START, before);
    RunKeeps(before);
    StepKeeps(s, Open(run, thread));
    OpenVoids(s, run, thread, token);
    DeadForGood(After(s, Open(run, thread)), later, token);
  }

  lemma OpenVoids(s: State, run: int, thread: int, token: int)
    requires Inv(s) && run !in s.answered && token in s.asked && s.asked[token].thread == thread
    ensures Dead(After(s, Open(run, thread)), token)
  {
    var t := Swept(s.tables, s.now);
    SweptMatched(s.tables, s.now);
    if token in t.byToken && !t.byToken[token].used {
      assert s.tables.byToken[token].Asked() == s.asked[token];
      assert t.byToken[token].thread == thread && t.byThread[thread] == token;
    }
  }

  /**
   An asked question is answerable: for ten minutes and while the rows still read as they did, its
   token runs exactly that call; and whatever came of the first try, there is no second.
   */
  lemma TokenRunsItOnce(s: State, run: int, call: Call, rows: Rows, waited: nat, rows': Rows, again: Rows)
    requires Inv(s) && run in s.answered && run in s.threadOf && (call.0 == "trash_task" || call.0 == "trash_project")
    requires !Answers(s.answered[run], call, s.now, rows) && rows(call).Some?
    ensures var token, thread := s.nextToken, s.threadOf[run];
            var asked := After(After(s, Propose(run, call, rows)), Wait(waited));
            var once := After(asked, Present(token, thread, rows'));
            var twice := After(once, Present(token, thread, again));
            && asked.ran == s.ran
            && once.ran == (if waited < 600 && rows'(call) == rows(call)
                            then s.ran + [Confirmed(token, thread, call, s.now + waited, rows(call))] else s.ran)
            && twice.ran == once.ran
  {
    hide Inv, Matched, Swept;
    var p := Pending(s.nextToken, s.threadOf[run], call, rows(call).value, s.now + TOKEN_TTL_SECONDS, false, None);
    ArmedHas(Swept(s.tables, s.now), p);
  }

  /**
   The other way to say yes: the thread's next message re-issues the identical call, which then
   runs; asked a second time in that run, the same call is a new question.
   */
  lemma ReissueRunsItOnce(s: State, run: int, call: Call, rows: Rows, next: int, rows': Rows)
    requires Inv(s) && run in s.answered && run in s.threadOf && (call.0 == "trash_task" || call.0 == "trash_project")
    requires !Answers(s.answered[run], call, s.now, rows) && rows(call).Some? && next !in s.answered && rows'(call).Some?
    ensures var token, thread := s.nextToken, s.threadOf[run];
            var begun := After(After(s, Propose(run, call, rows)), Open(next, thread));
            var once := After(begun, Propose(next, call, rows'));
            && begun.answered[next].Some? && begun.answered[next].value.token == token
            && (rows'(call) == rows(call) ==>
                  && once.ran == s.ran + [Confirmed(token, thread, call, s.now, rows(call))]
                  && After(once, Propose(next, call, rows')).ran == once.ran)
            && (rows'(call) != rows(call) ==> once.ran == s.ran && next !in once.answered)
  {
    var p := Pending(s.nextToken, s.threadOf[run], call, rows(call).value, s.now + TOKEN_TTL_SECONDS, false, None);
    var asked := After(s, Propose(run, call, rows));
    ArmedHas(Swept(s.tables, s.now), p);
    ArmedOnThread(s.tables, s.now, p);
    hide Inv, Matched, Swept, Armed;
  }

  lemma ArmedOnThread(t: Tables, now: int, p: Pending)
    requires p.expiresAt == now + TOKEN_TTL_SECONDS && !p.used && p.message.None?
    ensures var swept := Swept(Armed(Swept(t, now), p), now);
            p.thread in swept.byThread && swept.byThread[p.thread] == p.token && p.token in swept.byToken && swept.byToken[p.token] == p
  {
  }
}
