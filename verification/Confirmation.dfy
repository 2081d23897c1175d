/**
 The confirmation a delegate's destructive call needs (backend/app/ai/confirmation.py): the two
 tables of armed questions, and the gate one run holds. The clock, the fresh token and what the
 live rows say are arguments.
 */
module Confirmation {
  import opened Common

  type Call = (string, map<string, string>)

  const TOKEN_TTL_SECONDS := 600

  const GATED_TOOLS := {"trash_task", "trash_project"}

  datatype Refusal = Unknown | Expired | Used | Stale

  /** One armed confirmation. The call is its tool and its arguments, whose order is no part of it. */
  datatype Pending = Pending(token: int, thread: int, call: Call, state: string, expiresAt: int, used: bool, message: Option<int>) {
    predicate ExpiredAt(now: int) {
      now >= expiresAt
    }

    /** What was asked: everything but the flag and the turn it was shown in. */
    function Asked(): Pending {
      this.(used := false, message := None)
    }
  }

  /** `_by_token` and `_by_thread`. */
  datatype Tables = Tables(byToken: map<int, Pending>, byThread: map<int, int>)

  /** What the live rows say of a call: its fingerprint, or nothing when its row is gone. */
  type Rows = Call -> Option<string>

  // ---- what each operation does to the tables ----------------------------------------------------

  function Lapsed(t: Tables, now: int): set<int> {
    set x | x in t.byToken && t.byToken[x].ExpiredAt(now)
  }

  function Dropped(t: Tables, gone: set<int>): Tables {
    Tables(t.byToken - gone, map c | c in t.byThread && t.byThread[c] !in gone :: t.byThread[c])
  }

  /** `_sweep`. */
  function Swept(t: Tables, now: int): Tables {
    Dropped(t, Lapsed(t, now))
  }

  function Taken(t: Tables, thread: int): Tables {
    if thread !in t.byThread then t else Tables(t.byToken - {t.byThread[thread]}, t.byThread - {thread})
  }

  function Armed(t: Tables, p: Pending): Tables {
    Tables((if p.thread in t.byThread then t.byToken - {t.byThread[p.thread]} else t.byToken)[p.token := p],
           t.byThread[p.thread := p.token])
  }

  function Spent(t: Tables, token: int, thread: int): Tables
    requires token in t.byToken
  {
    Tables(t.byToken[token := t.byToken[token].(used := true)],
           if thread in t.byThread && t.byThread[thread] == token then t.byThread - {thread} else t.byThread)
  }

  /** Why a token is refused, or nothing. */
  function Refusing(t: Tables, token: int, thread: int, now: int, rows: Rows): Option<Refusal> {
    if token !in t.byToken || t.byToken[token].thread != thread then Some(Unknown)
    else if t.byToken[token].used then Some(Used)
    else if t.byToken[token].ExpiredAt(now) then Some(Expired)
    else if rows(t.byToken[token].call) != Some(t.byToken[token].state) then Some(Stale)
    else None
  }

  /** A redemption spends the token it gets as far as checking against the rows. */
  function Redeemed(t: Tables, token: int, thread: int, now: int, rows: Rows): Tables {
    var refusal := Refusing(t, token, thread, now, rows);
    if refusal.None? || refusal.value.Stale? then Spent(t, token, thread) else t
  }

  /** The unused tokens and the thread entries name each other. */
  ghost predicate Matched(t: Tables) {
    && (forall x :: x in t.byToken ==> t.byToken[x].token == x)
    && (forall c :: c in t.byThread ==>
          t.byThread[c] in t.byToken && t.byToken[t.byThread[c]].thread == c && !t.byToken[t.byThread[c]].used)
    && (forall x :: x in t.byToken && !t.byToken[x].used ==>
          t.byToken[x].thread in t.byThread && t.byThread[t.byToken[x].thread] == x)
  }

  lemma SweptMatched(t: Tables, now: int)
    requires Matched(t)
    ensures Matched(Swept(t, now))
  {
  }

  lemma TakenMatched(t: Tables, thread: int)
    requires Matched(t)
    ensures Matched(Taken(t, thread))
  {
  }

  lemma ArmedMatched(t: Tables, p: Pending)
    requires Matched(t) && p.token !in t.byToken && !p.used
    ensures Matched(Armed(t, p))
  {
  }

  lemma SpentMatched(t: Tables, token: int, thread: int)
    requires Matched(t) && token in t.byToken && t.byToken[token].thread == thread
    ensures Matched(Spent(t, token, thread))
  {
  }

  /** A sweep keeps a token exactly until the second it expires, and a thread's entry as long as its token. */
  lemma SweptMeans(t: Tables, now: int, x: int, c: int)
    ensures var s := Swept(t, now);
            && (x in s.byToken <==> x in t.byToken && now < t.byToken[x].expiresAt)
            && (x in s.byToken ==> s.byToken[x] == t.byToken[x])
            && (c in s.byThread <==> c in t.byThread && !(t.byThread[c] in t.byToken && t.byToken[t.byThread[c]].expiresAt <= now))
            && (c in s.byThread ==> s.byThread[c] == t.byThread[c])
  {
    if c in t.byThread {
      var token := t.byThread[c];
      assert token in Lapsed(t, now) <==> token in t.byToken && t.byToken[token].expiresAt <= now;
    }
  }

  /** Taking a thread's question removes it from both tables and nothing else from either. */
  lemma TakenMeans(t: Tables, thread: int, x: int, c: int)
    ensures var s := Taken(t, thread);
            && (c in s.byThread <==> c in t.byThread && c != thread) && (c in s.byThread ==> s.byThread[c] == t.byThread[c])
            && (x in s.byToken <==> x in t.byToken && !(thread in t.byThread && t.byThread[thread] == x))
            && (x in s.byToken ==> s.byToken[x] == t.byToken[x])
  {
  }

  /** Arming puts one question on its thread in place of the one there, and touches no other. */
  lemma ArmedMeans(t: Tables, p: Pending, x: int, c: int)
    ensures var s := Armed(t, p);
            && p.token in s.byToken && s.byToken[p.token] == p && p.thread in s.byThread && s.byThread[p.thread] == p.token
            && (x != p.token ==>
                  (x in s.byToken <==> x in t.byToken && !(p.thread in t.byThread && t.byThread[p.thread] == x))
                  && (x in s.byToken ==> s.byToken[x] == t.byToken[x]))
            && (c != p.thread ==> (c in s.byThread <==> c in t.byThread) && (c in s.byThread ==> s.byThread[c] == t.byThread[c]))
  {
  }

  /**
   A token is honoured when it is there for this thread, unused, unexpired, and its row reads as
   previewed; otherwise the first of unknown, used, expired and stale that applies is given. It is
   spent exactly when it got as far as the row.
   */
  lemma RedeemedMeans(t: Tables, token: int, thread: int, now: int, rows: Rows)
    ensures var refusal, s := Refusing(t, token, thread, now, rows), Redeemed(t, token, thread, now, rows);
            var known := token in t.byToken && t.byToken[token].thread == thread;
            && (refusal == Some(Unknown) <==> !known)
            && (refusal == Some(Used) <==> known && t.byToken[token].used)
            && (refusal == Some(Expired) <==> known && !t.byToken[token].used && t.byToken[token].expiresAt <= now)
            && (refusal == Some(Stale) <==> known && !t.byToken[token].used && now < t.byToken[token].expiresAt
                                            && rows(t.byToken[token].call) != Some(t.byToken[token].state))
            && (if known && !t.byToken[token].used && now < t.byToken[token].expiresAt
                then s.byToken == t.byToken[token := t.byToken[token].(used := true)]
                     && (thread in s.byThread <==> thread in t.byThread && t.byThread[thread] != token)
                     && forall c :: c != thread ==> (c in s.byThread <==> c in t.byThread) && (c in s.byThread ==> s.byThread[c] == t.byThread[c])
                else s == t)
  {
  }

  lemma DropOne(t: Tables, gone: set<int>, token: int)
    requires Matched(t) && token in t.byToken && token !in gone
    ensures var now := Dropped(t, gone);
            var thread := t.byToken[token].thread;
            && token in now.byToken && now.byToken[token] == t.byToken[token]
            && Dropped(t, gone + {token})
               == Tables(now.byToken - {token}, if thread in now.byThread && now.byThread[thread] == token then now.byThread - {thread} else now.byThread)
  {
    var now, next := Dropped(t, gone), Dropped(t, gone + {token});
    var thread := t.byToken[token].thread;
    assert next.byToken == now.byToken - {token};
    var byThread := if thread in now.byThread && now.byThread[thread] == token then now.byThread - {thread} else now.byThread;
    assert forall c :: c in next.byThread <==> c in byThread;
    assert next.byThread == byThread;
  }

  lemma ElemsMore(s: seq<int>, i: nat)
    requires Distinct(s) && i < |s|
    ensures Elems(s[..i + 1]) == Elems(s[..i]) + {s[i]} && s[i] in Elems(s) && s[i] !in Elems(s[..i])
  {
  }

  lemma LapsedIn(t: Tables, now: int, token: int)
    requires token in Lapsed(t, now)
    ensures token in t.byToken
  {
  }

  lemma DropNone(t: Tables)
    ensures Dropped(t, {}) == t
  {
    assert Dropped(t, {}).byToken == t.byToken;
    assert Dropped(t, {}).byThread == t.byThread;
  }

  // ---- the module's own state --------------------------------------------------------------------

  class Confirmations {
    var byToken: map<int, Pending>
    var byThread: map<int, int>

    ghost function View(): Tables
      reads this
    {
      Tables(byToken, byThread)
    }

    ghost predicate Valid()
      reads this
    {
      Matched(View())
    }

    constructor ()
      ensures Valid() && byToken == map[] && byThread == map[]
    {
      byToken, byThread := map[], map[];
    }

    lemma Fields()
      ensures View() == Tables(byToken, byThread) && (Valid() <==> Matched(Tables(byToken, byThread)))
    {
      hide Matched;
    }

    /** One round of `_sweep`. */
    method Forget(token: int)
      requires token in byToken
      modifies this
      ensures var thread := old(byToken)[token].thread;
              && byToken == old(byToken) - {token}
              && byThread == if thread in old(byThread) && old(byThread)[thread] == token then old(byThread) - {thread} else old(byThread)
    {
      var pending := byToken[token];
      byToken := byToken - {token};
      if pending.thread in byThread && byThread[pending.thread] == token {
        byThread := byThread - {pending.thread};
      }
    }

    /** `_sweep`: one expired token at a time. */
    method Sweep(now: int)
      requires Valid()
      modifies this
      ensures Valid() && View() == Swept(old(View()), now)
    {
      ghost var was := Tables(byToken, byThread);
      var lapsed := Sorted(set x | x in byToken && byToken[x].ExpiredAt(now));
      assert Elems(lapsed[..0]) == {} && Elems(lapsed) == Lapsed(was, now) && Distinct(lapsed);
      assert Swept(was, now) == Dropped(was, Lapsed(was, now));
      hide *;
      Fields();
      SweptMatched(was, now);
      DropNone(was);
      for i := 0 to |lapsed|
        invariant Tables(byToken, byThread) == Dropped(was, Elems(lapsed[..i]))
      {
        ElemsMore(lapsed, i);
        var token := lapsed[i];
        LapsedIn(was, now, token);
        DropOne(was, Elems(lapsed[..i]), token);
        assert byToken[token].thread == was.byToken[token].thread;
        Forget(token);
      }
      assert lapsed[..|lapsed|] == lapsed;
      Fields();
    }

    /** `take_for_thread`. */
    method TakeForThread(thread: int, now: int) returns (taken: Option<Pending>)
      requires Valid()
      modifies this
      ensures Valid() && View() == Taken(Swept(old(View()), now), thread)
      ensures var t := Swept(old(View()), now);
              taken == if thread in t.byThread then Some(t.byToken[t.byThread[thread]]) else None
    {
      Sweep(now);
      ghost var t := View();
      TakenMatched(t, thread);
      if thread !in byThread { return None; }
      var token := byThread[thread];
      byThread := byThread - {thread};
      if token !in byToken { return None; }
      var pending := byToken[token];
      byToken := byToken - {token};
      return if pending.used then None else Some(pending);
    }

    /** `Gate.arm`'s part under the lock. */
    method Put(p: Pending, now: int)
      requires Valid() && p.token !in byToken && !p.used
      modifies this
      ensures Valid() && View() == Armed(Swept(old(View()), now), p)
    {
      Sweep(now);
      ArmedMatched(View(), p);
      if p.thread in byThread {
        var previous := byThread[p.thread];
        byThread := byThread - {p.thread};
        byToken := byToken - {previous};
      }
      ghost var mid := byThread;
      byToken := byToken[p.token := p];
      byThread := byThread[p.thread := p.token];
    }

    /** `redeem`. */
    method Redeem(token: int, thread: int, now: int, rows: Rows) returns (r: Result<Pending, Refusal>)
      requires Valid()
      modifies this
      ensures Valid() && View() == Redeemed(old(View()), token, thread, now, rows)
      ensures r == match Refusing(old(View()), token, thread, now, rows)
                   case Some(refusal) => Err(refusal)
                   case None => Ok(old(byToken)[token].(used := true))
    {
      if token !in byToken || byToken[token].thread != thread { return Err(Unknown); }
      var pending := byToken[token];
      if pending.used { return Err(Used); }
      if pending.ExpiredAt(now) { return Err(Expired); }
      SpentMatched(View(), token, thread);
      byToken := byToken[token := pending.(used := true)];
      if thread in byThread && byThread[thread] == token {
        byThread := byThread - {thread};
      }
      if rows(pending.call) != Some(pending.state) { return Err(Stale); }
      return Ok(pending.(used := true));
    }

    /** `for_message`: what a replayed exchange still shows is a token `Redeem` would still look at. */
    method ForMessage(message: int, now: int) returns (shown: Option<Pending>)
      requires Valid()
      ensures shown.Some? ==> var p := shown.value;
                && p.token in byToken && byToken[p.token] == p && p.message == Some(message)
                && (forall rows: Rows :: var refusal := Refusing(View(), p.token, p.thread, now, rows); refusal == None || refusal == Some(Stale))
      ensures shown.None? ==> forall x :: x in byToken && byToken[x].message == Some(message) ==> byToken[x].used || byToken[x].ExpiredAt(now)
    {
      var tokens := Sorted(byToken.Keys);
      for i := 0 to |tokens|
        invariant forall j :: 0 <= j < i ==> byToken[tokens[j]].message != Some(message) || byToken[tokens[j]].used || byToken[tokens[j]].ExpiredAt(now)
      {
        var p := byToken[tokens[i]];
        if p.message == Some(message) && !p.used && !p.ExpiredAt(now) { return Some(p); }
      }
      forall x | x in byToken && byToken[x].message == Some(message) ensures byToken[x].used || byToken[x].ExpiredAt(now) {
        assert x in tokens;
      }
      return None;
    }
  }

  /** What one delegate run may dispatch. */
  class Gate {
    const thread: int
    var answered: Option<Pending>
    var armed: Option<Pending>

    constructor (thread: int, answered: Option<Pending>)
      ensures this.thread == thread && this.answered == answered && armed == None
    {
      this.thread, this.answered, this.armed := thread, answered, None;
    }

    /** `allows`: the identical call, once, unexpired, with the state it previewed. */
    method Allows(call: Call, now: int, rows: Rows) returns (ok: bool)
      modifies this`answered
      ensures ok == Answers(old(answered), call, now, rows)
      ensures ok <==> var was := old(answered);
                      was.Some? && was.value.call == call && now < was.value.expiresAt && rows(call) == Some(was.value.state)
      ensures answered == if old(answered).Some? && old(answered).value.call == call then None else old(answered)
      ensures answered == LeftOver(old(answered), call)
    {
      if answered.None? || answered.value.call != call { return false; }
      var pending := answered.value;
      answered := None;
      if pending.ExpiredAt(now) || rows(call) != Some(pending.state) { return false; }
      return true;
    }

    /** `arm`: nothing is asked about a row that is not there. */
    method Arm(table: Confirmations, call: Call, now: int, rows: Rows, token: int) returns (asked: Option<Pending>)
      requires table.Valid() && token !in table.byToken
      modifies this`armed, table
      ensures table.Valid()
      ensures rows(call).None? ==> asked == None && table.View() == old(table.View()) && armed == old(armed)
      ensures rows(call).Some? ==>
                && asked == Some(Pending(token, thread, call, rows(call).value, now + TOKEN_TTL_SECONDS, false, None))
                && armed == asked && table.View() == Armed(Swept(old(table.View()), now), asked.value)
    {
      var state := rows(call);
      if state.None? { return None; }
      var pending := Pending(token, thread, call, state.value, now + TOKEN_TTL_SECONDS, false, None);
      table.Put(pending, now);
      armed := Some(pending);
      return armed;
    }
  }

  /** Whether a re-issued call answers the question taken off its thread. */
  predicate Answers(answered: Option<Pending>, call: Call, now: int, rows: Rows) {
    answered.Some? && answered.value.call == call && !answered.value.ExpiredAt(now) && rows(call) == Some(answered.value.state)
  }

  /** The question is used up by the first identical call, whether or not that call may run. */
  function LeftOver(answered: Option<Pending>, call: Call): Option<Pending> {
    if answered.Some? && answered.value.call == call then None else answered
  }
}
