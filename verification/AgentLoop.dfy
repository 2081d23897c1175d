/**
 The planner's bounded tool loop (backend/app/ai/loop.py, `AgentLoop._run`).

 What the provider answers, what a dispatched tool answers, the clock, the Stop flag and the
 confirmation gate are functions the loop only reads, so every claim holds whatever they do.
 */
module AgentLoop {
  import opened Common

  /** A proposed call; its arguments are a JSON object, so their order is no part of it. */
  datatype Call = Call(id: string, tool: string, arguments: map<string, string>)

  /** One provider turn. */
  datatype Turn =
    | BadArguments
    | Fault
    | Crash
    | Reply(text: Option<string>, truncated: bool, calls: seq<Call>)

  /** What a dispatched call came to. */
  datatype Outcome =
    | Crashed
    | Refused(answer: string, schemaError: bool)
    | Done(answer: string, candidates: seq<int>)

  datatype Reason = OutOfTime | Cancelled | OverLimit | NeedsConfirmation | AfterConfirmation | AfterQuestion | AfterCrash

  datatype Fate = Ran(outcome: Outcome) | NotRun(reason: Reason)

  datatype Record = Record(call: Call, fate: Fate)

  datatype Message = System | User | Correction | Assistant(text: Option<string>, calls: seq<Call>) | Answer(id: string)

  datatype Stop = Completed | MaxIterations | Truncated | NoProgress | ToolCallLimit | CorrectionLimit
                | ProviderError | TimedOut | InternalError | Stopped | ConfirmRequired

  type Exchange = (string, map<string, string>, string)

  const ASK_TOOL := "ask_user"

  datatype Limits = Limits(maxIterations: nat, maxCorrections: int, maxToolCalls: nat) {
    /** The constructor's own checks. */
    predicate Valid() {
      maxIterations >= 1 && maxToolCalls >= 1
    }
  }

  /**
   Everything the loop reads: `turn(i)` is the `i`-th provider call, `dispatch(n)` the `n`-th
   dispatched call; `cancelled(i, k)` and `late(i, k)` are read before the provider call of turn
   `i` (`k == 0`) and before its `k`-th call; `asks(i, k)` says that the run is gated and the gate
   neither lets the `k`-th call of turn `i` through nor finds its row gone.
   */
  datatype World = World(
    turn: nat -> Turn,
    dispatch: nat -> Outcome,
    cancelled: (nat, nat) -> bool,
    late: (nat, nat) -> bool,
    lateAfterFault: nat -> bool,
    asks: (nat, nat) -> bool)

  // ---- what a transcript owes its calls ----------------------------------------------------------

  function Answers(calls: seq<Call>): seq<Message> {
    seq(|calls|, k requires 0 <= k < |calls| => Answer(calls[k].id))
  }

  /** Every turn's calls are answered right after it, in order; and no call has a second answer. */
  ghost predicate Paired(ms: seq<Message>) {
    && (forall i :: 0 <= i < |ms| && ms[i].Assistant? ==> AnsweredAt(ms, i))
    && AnswerIds(ms) == Ids(Proposed(ms))
  }

  ghost predicate AnsweredAt(ms: seq<Message>, i: int)
    requires 0 <= i < |ms| && ms[i].Assistant?
  {
    i + |ms[i].calls| < |ms| && ms[i + 1..i + 1 + |ms[i].calls|] == Answers(ms[i].calls)
  }

  function Ids(calls: seq<Call>): seq<string> {
    seq(|calls|, k requires 0 <= k < |calls| => calls[k].id)
  }

  /** Every answer of the transcript, in order. */
  function AnswerIds(ms: seq<Message>): seq<string> {
    if ms == [] then [] else
      var last := ms[|ms| - 1];
      AnswerIds(ms[..|ms| - 1]) + if last.Answer? then [last.id] else []
  }

  /** Every call of the transcript, in order. */
  function Proposed(ms: seq<Message>): seq<Call> {
    if ms == [] then [] else
      var last := ms[|ms| - 1];
      Proposed(ms[..|ms| - 1]) + if last.Assistant? then last.calls else []
  }

  function CallsOf(records: seq<Record>): seq<Call> {
    seq(|records|, k requires 0 <= k < |records| => records[k].call)
  }

  /** The outcomes of the records that were dispatched, in order. */
  function Outcomes(records: seq<Record>): seq<Outcome> {
    if records == [] then [] else
      var last := records[|records| - 1];
      Outcomes(records[..|records| - 1]) + if last.fate.Ran? then [last.fate.outcome] else []
  }

  /** `_exchange_key`: the tool, its arguments and what it answered. */
  function ExchangeOf(call: Call, outcome: Outcome): Exchange
    requires !outcome.Crashed?
  {
    (call.tool, call.arguments, outcome.answer)
  }

  /** The exchanges of the calls that came back. */
  function Exchanges(records: seq<Record>): set<Exchange> {
    set r | r in records && r.fate.Ran? && !r.fate.outcome.Crashed? :: ExchangeOf(r.call, r.fate.outcome)
  }

  /** A call that ran and got an answer. */
  predicate CameBack(r: Record) {
    r.fate.Ran? && !r.fate.outcome.Crashed?
  }

  /** Two calls of one tool, with the same arguments, that got the same answer. */
  predicate SameExchange(a: Record, b: Record) {
    && CameBack(a) && CameBack(b)
    && a.call.tool == b.call.tool && a.call.arguments == b.call.arguments && a.fate.outcome.answer == b.fate.outcome.answer
  }

  predicate Known(earlier: seq<Record>, r: Record) {
    exists j :: 0 <= j < |earlier| && SameExchange(earlier[j], r)
  }

  /** The exchanges of some records are all among those of others exactly when each call that came back is known there. */
  lemma KnownAll(rs: seq<Record>, earlier: seq<Record>)
    ensures Exchanges(rs) <= Exchanges(earlier) <==> forall k :: 0 <= k < |rs| && CameBack(rs[k]) ==> Known(earlier, rs[k])
  {
    if Exchanges(rs) <= Exchanges(earlier) {
      forall k | 0 <= k < |rs| && CameBack(rs[k]) ensures Known(earlier, rs[k]) {
        assert rs[k] in rs;
        assert ExchangeOf(rs[k].call, rs[k].fate.outcome) in Exchanges(earlier);
        var r :| r in earlier && CameBack(r) && ExchangeOf(r.call, r.fate.outcome) == ExchangeOf(rs[k].call, rs[k].fate.outcome);
        var j :| 0 <= j < |earlier| && earlier[j] == r;
        assert SameExchange(earlier[j], rs[k]);
      }
    }
    if forall k :: 0 <= k < |rs| && CameBack(rs[k]) ==> Known(earlier, rs[k]) {
      forall e | e in Exchanges(rs) ensures e in Exchanges(earlier) {
        var r :| r in rs && CameBack(r) && ExchangeOf(r.call, r.fate.outcome) == e;
        var k :| 0 <= k < |rs| && rs[k] == r;
        var j :| 0 <= j < |earlier| && SameExchange(earlier[j], rs[k]);
        assert earlier[j] in earlier;
      }
    }
  }

  predicate Malformed(r: Record) {
    r.fate.Ran? && r.fate.outcome.Refused? && r.fate.outcome.schemaError
  }

  function Drawn(w: World, first: nat, past: nat): seq<Outcome>
    requires first <= past
  {
    if first == past then [] else Drawn(w, first, past - 1) + [w.dispatch(past - 1)]
  }

  lemma {:induction false} DrawnJoin(w: World, first: nat, middle: nat, past: nat)
    requires first <= middle <= past
    ensures Drawn(w, first, middle) + Drawn(w, middle, past) == Drawn(w, first, past)
    decreases past
  {
    if middle < past {
      DrawnJoin(w, first, middle, past - 1);
      assert Drawn(w, first, middle) + (Drawn(w, middle, past - 1) + [w.dispatch(past - 1)])
          == Drawn(w, first, middle) + Drawn(w, middle, past - 1) + [w.dispatch(past - 1)];
    }
  }

  lemma {:induction false} ProposedJoin(a: seq<Message>, b: seq<Message>)
    ensures Proposed(a + b) == Proposed(a) + Proposed(b)
    ensures AnswerIds(a + b) == AnswerIds(a) + AnswerIds(b)
    decreases |b|
  {
    if b == [] {
      assert a + b == a;
    } else {
      assert (a + b)[..|a + b| - 1] == a + b[..|b| - 1];
      ProposedJoin(a, b[..|b| - 1]);
    }
  }

  lemma {:induction false} AnswersProposeNothing(calls: seq<Call>)
    ensures Proposed(Answers(calls)) == [] && AnswerIds(Answers(calls)) == Ids(calls)
    decreases |calls|
  {
    if calls != [] {
      var rest := calls[..|calls| - 1];
      assert Answers(calls)[..|calls| - 1] == Answers(rest);
      AnswersProposeNothing(rest);
      assert Ids(calls) == Ids(rest) + [calls[|calls| - 1].id];
    }
  }

  lemma {:induction false} OutcomesJoin(a: seq<Record>, b: seq<Record>)
    ensures Outcomes(a + b) == Outcomes(a) + Outcomes(b)
    decreases |b|
  {
    if b == [] {
      assert a + b == a;
    } else {
      assert (a + b)[..|a + b| - 1] == a + b[..|b| - 1];
      OutcomesJoin(a, b[..|b| - 1]);
    }
  }

  /** A turn with all its answers, as the loop appends it. */
  function Block(text: Option<string>, calls: seq<Call>): seq<Message> {
    [Assistant(text, calls)] + Answers(calls)
  }

  lemma PairedBlock(ms: seq<Message>, text: Option<string>, calls: seq<Call>)
    requires Paired(ms)
    ensures Paired(ms + Block(text, calls))
    ensures Proposed(ms + Block(text, calls)) == Proposed(ms) + calls
  {
    hide Proposed, AnswerIds;
    var all := ms + Block(text, calls);
    forall i | 0 <= i < |all| && all[i].Assistant? ensures AnsweredAt(all, i) {
      if i < |ms| {
        assert all[i] == ms[i] && AnsweredAt(ms, i);
        assert all[i + 1..i + 1 + |all[i].calls|] == ms[i + 1..i + 1 + |ms[i].calls|];
      } else {
        assert i == |ms| && all[i] == Assistant(text, calls);
        assert all[i + 1..] == Answers(calls);
        assert all[i + 1..i + 1 + |calls|] == all[i + 1..];
      }
    }
    ProposedJoin(ms, Block(text, calls));
    ProposedBlock(text, calls);
    assert Ids(Proposed(ms) + calls) == Ids(Proposed(ms)) + Ids(calls);
  }

  lemma ProposedBlock(text: Option<string>, calls: seq<Call>)
    ensures Proposed(Block(text, calls)) == calls && AnswerIds(Block(text, calls)) == Ids(calls)
  {
    var one := [Assistant(text, calls)];
    ProposedJoin(one, Answers(calls));
    AnswersProposeNothing(calls);
    assert one[..0] == [];
    assert Proposed([]) == [] && AnswerIds([]) == [];
    assert Proposed(one) == [] + calls && AnswerIds(one) == [] + [];
  }

  lemma PairedPlain(ms: seq<Message>, m: Message)
    requires Paired(ms) && !m.Assistant? && !m.Answer?
    ensures Paired(ms + [m]) && Proposed(ms + [m]) == Proposed(ms)
  {
    var all := ms + [m];
    forall i | 0 <= i < |all| && all[i].Assistant? ensures AnsweredAt(all, i) {
      assert all[i] == ms[i] && AnsweredAt(ms, i);
      assert all[i + 1..i + 1 + |all[i].calls|] == ms[i + 1..i + 1 + |ms[i].calls|];
    }
    assert all[..|all| - 1] == ms;
  }

  // ---- one turn's calls --------------------------------------------------------------------------

  /** How the walk over one turn's calls ended. */
  datatype CallExit = Through | OverCap | Question | Ends(stop: Stop)

  /** What a turn's walk leaves, whichever way it ended. */
  ghost predicate Walked(limits: Limits, w: World, calls: seq<Call>, dispatched: nat, seen: set<Exchange>,
                         rs: seq<Record>, dispatched': nat, seen': set<Exchange>) {
    && CallsOf(rs) == calls
    && dispatched <= dispatched' <= limits.maxToolCalls
    && Outcomes(rs) == Drawn(w, dispatched, dispatched')
    && seen' == seen + Exchanges(rs)
  }

  /** What each way of leaving a turn's calls says about its records. */
  ghost predicate ExitMeans(limits: Limits, w: World, i: nat, rs: seq<Record>, dispatched: nat, dispatched': nat, exit: CallExit) {
    match exit
    case Through => dispatched' > dispatched && |rs| > 0
    case OverCap => dispatched' == limits.maxToolCalls && exists k: nat :: From(rs, k, OverLimit)
    case Question => dispatched' > dispatched && AskedAt(rs, dispatched' - dispatched - 1)
    case Ends(Stopped) => exists k: nat :: From(rs, k, Cancelled) && w.cancelled(i, k + 1)
    case Ends(TimedOut) => exists k: nat :: From(rs, k, OutOfTime) && w.late(i, k + 1)
    case Ends(ConfirmRequired) => exists k: nat :: ArmedAt(rs, k) && w.asks(i, k + 1)
    case Ends(InternalError) => exists k: nat :: CrashedAt(rs, k)
    case Ends(_) => false
  }

  /** The first `k` calls ran, and everything from there was refused for `reason`. */
  ghost predicate From(rs: seq<Record>, k: nat, reason: Reason) {
    && k < |rs|
    && (forall j :: 0 <= j < k ==> rs[j].fate.Ran? && rs[j].fate.outcome != Crashed)
    && (forall j :: k <= j < |rs| ==> rs[j].fate == NotRun(reason))
  }

  /** Call `k` armed the confirmation and never ran; the ones after it were dropped for it. */
  ghost predicate ArmedAt(rs: seq<Record>, k: nat) {
    && k < |rs|
    && (forall j :: 0 <= j < k ==> rs[j].fate.Ran?)
    && rs[k].fate == NotRun(NeedsConfirmation)
    && (forall j :: k < j < |rs| ==> rs[j].fate == NotRun(AfterConfirmation))
  }

  ghost predicate CrashedAt(rs: seq<Record>, k: nat) {
    && k < |rs|
    && (forall j :: 0 <= j < k ==> rs[j].fate.Ran? && rs[j].fate.outcome != Crashed)
    && rs[k].fate == Ran(Crashed)
    && (forall j :: k < j < |rs| ==> rs[j].fate == NotRun(AfterCrash))
  }

  /** Call `k` landed a question that names candidates, and nothing after it ran. */
  ghost predicate AskedAt(rs: seq<Record>, k: int) {
    && 0 <= k < |rs|
    && (forall j :: 0 <= j < k ==> rs[j].fate.Ran?)
    && rs[k].call.tool == "ask_user" && rs[k].fate.Ran? && rs[k].fate.outcome.Done? && rs[k].fate.outcome.candidates != []
    && (forall j :: k < j < |rs| ==> rs[j].fate == NotRun(AfterQuestion))
  }

  /** A question that went through: `ask_user` ran and answered. */
  predicate Landed(r: Record) {
    r.call.tool == "ask_user" && r.fate.Ran? && r.fate.outcome.Done?
  }

  /** One whose candidates could be read, so that the user can be asked. */
  predicate AsksUser(r: Record) {
    Landed(r) && r.fate.outcome.candidates != []
  }

  ghost predicate NoneLanded(rs: seq<Record>) {
    forall k :: 0 <= k < |rs| ==> !Landed(rs[k])
  }

  /** After a landed question nothing else of the turn ran, whatever candidates it named. */
  ghost predicate Heard(rs: seq<Record>) {
    forall j, k :: 0 <= j < k < |rs| && Landed(rs[j]) ==> rs[k].fate == NotRun(AfterQuestion)
  }

  /** The walk ends on a question exactly when a landed one names candidates; one that names none lets the run go on. */
  ghost predicate AskStops(rs: seq<Record>, exit: CallExit) {
    && Heard(rs)
    && (exit == Question <==> exists k :: 0 <= k < |rs| && AsksUser(rs[k]))
    && (forall k :: 0 <= k < |rs| && Landed(rs[k]) && !AsksUser(rs[k]) ==> exit == Through)
  }

  lemma NobodyAsked(rs: seq<Record>, exit: CallExit)
    requires NoneLanded(rs) && exit != Question
    ensures AskStops(rs, exit)
  {
  }

  lemma NoneLandedBefore(rs: seq<Record>, tail: seq<Record>)
    requires NoneLanded(rs) && forall k :: 0 <= k < |tail| ==> !Landed(tail[k])
    ensures NoneLanded(rs + tail)
  {
    hide Landed;
  }

  lemma SkippedNotLanded(calls: seq<Call>, reason: Reason)
    ensures forall k :: 0 <= k < |Skipped(calls, reason)| ==> !Landed(Skipped(calls, reason)[k])
  {
  }

  /** The question itself, and the rest of its turn refused. */
  lemma AskedHeard(rs: seq<Record>, r: Record, calls: seq<Call>, exit: CallExit)
    requires NoneLanded(rs) && Landed(r)
    requires exit == if r.fate.outcome.candidates != [] then Question else Through
    ensures AskStops(rs + [r] + Skipped(calls, AfterQuestion), exit)
  {
    var tail := Skipped(calls, AfterQuestion);
    var all := rs + [r] + tail;
    assert forall k :: 0 <= k < |rs| ==> all[k] == rs[k];
    assert all[|rs|] == r;
    assert forall k :: |rs| < k < |all| ==> all[k] == tail[k - |rs| - 1];
  }

  /** `_skip_remaining`: each call is recorded as not run, and answered. */
  method SkipRemaining(calls: seq<Call>, records: seq<Record>, messages: seq<Message>, reason: Reason)
    returns (records': seq<Record>, messages': seq<Message>)
    ensures messages' == messages + Answers(calls)
    ensures records' == records + Skipped(calls, reason)
  {
    records', messages' := records, messages;
    assert calls[..0] == [];
    for k := 0 to |calls|
      invariant messages' == messages + Answers(calls[..k])
      invariant records' == records + Skipped(calls[..k], reason)
    {
      assert Answers(calls[..k + 1]) == Answers(calls[..k]) + [Answer(calls[k].id)];
      assert Skipped(calls[..k + 1], reason) == Skipped(calls[..k], reason) + [Record(calls[k], NotRun(reason))];
      records' := records' + [Record(calls[k], NotRun(reason))];
      messages' := messages' + [Answer(calls[k].id)];
    }
    assert calls[..|calls|] == calls;
  }

  function Skipped(calls: seq<Call>, reason: Reason): seq<Record> {
    seq(|calls|, k requires 0 <= k < |calls| => Record(calls[k], NotRun(reason)))
  }

  lemma {:induction false} SkippedRunNothing(calls: seq<Call>, reason: Reason)
    ensures Outcomes(Skipped(calls, reason)) == []
    decreases |calls|
  {
    if calls != [] {
      var rest := calls[..|calls| - 1];
      assert Skipped(calls, reason)[..|calls| - 1] == Skipped(rest, reason);
      SkippedRunNothing(rest, reason);
    }
  }

  /** Refusing the rest of a turn completes its records and answers, and dispatches nothing. */
  lemma SkipCompletes(calls: seq<Call>, index: nat, rs: seq<Record>, reason: Reason)
    requires index <= |calls| && CallsOf(rs) == calls[..index]
    ensures CallsOf(rs + Skipped(calls[index..], reason)) == calls
    ensures Outcomes(rs + Skipped(calls[index..], reason)) == Outcomes(rs)
    ensures Answers(calls[..index]) + Answers(calls[index..]) == Answers(calls)
  {
    OutcomesJoin(rs, Skipped(calls[index..], reason));
    SkippedRunNothing(calls[index..], reason);
    assert |rs| == index;
    var all := rs + Skipped(calls[index..], reason);
    forall k | 0 <= k < |calls| ensures CallsOf(all)[k] == calls[k] {
      if k < index { assert CallsOf(rs)[k] == calls[..index][k]; }
    }
    assert CallsOf(all) == calls;
  }

  lemma OneMore(w: World, rs: seq<Record>, call: Call, fate: Fate, first: nat, past: nat)
    requires first <= past && Outcomes(rs) == Drawn(w, first, past)
    ensures fate.Ran? && fate.outcome == w.dispatch(past) ==> Outcomes(rs + [Record(call, fate)]) == Drawn(w, first, past + 1)
    ensures fate.NotRun? ==> Outcomes(rs + [Record(call, fate)]) == Outcomes(rs)
  {
    assert (rs + [Record(call, fate)])[..|rs|] == rs;
    if fate.Ran? && fate.outcome == w.dispatch(past) {
      assert Drawn(w, first, past + 1) == Drawn(w, first, past) + [w.dispatch(past)];
    }
  }

  lemma SkippedExchange(rs: seq<Record>, calls: seq<Call>, reason: Reason)
    ensures Exchanges(rs + Skipped(calls, reason)) == Exchanges(rs)
    ensures forall r :: r in rs + Skipped(calls, reason) && Malformed(r) ==> r in rs
  {
    var all := rs + Skipped(calls, reason);
    assert forall r :: r in all ==> r in rs || r in Skipped(calls, reason);
    assert forall r :: r in Skipped(calls, reason) ==> r.fate.NotRun?;
    assert forall r :: r in rs ==> r in all;
  }

  lemma OneExchange(rs: seq<Record>, r: Record)
    ensures r.fate.Ran? && !r.fate.outcome.Crashed? ==> Exchanges(rs + [r]) == Exchanges(rs) + {ExchangeOf(r.call, r.fate.outcome)}
    ensures r.fate.NotRun? || r.fate.outcome.Crashed? ==> Exchanges(rs + [r]) == Exchanges(rs)
  {
    assert forall q :: q in rs + [r] <==> q in rs || q == r;
  }

  /** Where the walk stands before call `index`. */
  ghost predicate Walking(limits: Limits, w: World, calls: seq<Call>, index: nat, dispatched: nat, seen: set<Exchange>,
                          rs: seq<Record>, dispatched': nat, seen': set<Exchange>, schemaError: bool, progressed: bool) {
    && index <= |calls| && CallsOf(rs) == calls[..index]
    && dispatched' == dispatched + index <= limits.maxToolCalls
    && Outcomes(rs) == Drawn(w, dispatched, dispatched')
    && seen' == seen + Exchanges(rs)
    && (forall k :: 0 <= k < |rs| ==> rs[k].fate.Ran? && rs[k].fate.outcome != Crashed)
    && (schemaError <==> exists k :: 0 <= k < |rs| && Malformed(rs[k]))
    && (progressed <==> !(Exchanges(rs) <= seen))
  }

  lemma WalkOn(limits: Limits, w: World, calls: seq<Call>, index: nat, dispatched: nat, seen: set<Exchange>,
               rs: seq<Record>, now: nat, seenNow: set<Exchange>, schemaError: bool, progressed: bool, outcome: Outcome)
    requires Walking(limits, w, calls, index, dispatched, seen, rs, now, seenNow, schemaError, progressed)
    requires index < |calls| && now < limits.maxToolCalls && outcome == w.dispatch(now) && outcome != Crashed
    ensures var r := Record(calls[index], Ran(outcome));
            Walking(limits, w, calls, index + 1, dispatched, seen, rs + [r], now + 1, seenNow + {ExchangeOf(r.call, outcome)},
                    schemaError || (outcome.Refused? && outcome.schemaError),
                    progressed || ExchangeOf(r.call, outcome) !in seenNow)
  {
    var r := Record(calls[index], Ran(outcome));
    assert Malformed(r) <==> outcome.Refused? && outcome.schemaError;
    assert CallsOf([r]) == [calls[index]];
    hide Outcomes, Drawn, CallsOf, Exchanges, Malformed, ExchangeOf;
    WalkingShape(limits, w, calls, index, dispatched, seen, rs, now, seenNow, schemaError, progressed);
    hide Walking;
    OneMore(w, rs, calls[index], Ran(outcome), dispatched, now);
    OneExchange(rs, r);
    MalformedMore(rs, r);
    CallsOfJoin(rs, [r]);
    assert calls[..index + 1] == calls[..index] + [calls[index]];
    WalkingJoin(limits, w, calls, index + 1, dispatched, seen, rs + [r], now + 1, seenNow + {ExchangeOf(r.call, outcome)},
                schemaError || (outcome.Refused? && outcome.schemaError), progressed || ExchangeOf(r.call, outcome) !in seenNow);
  }

  lemma WalkingJoin(limits: Limits, w: World, calls: seq<Call>, index: nat, dispatched: nat, seen: set<Exchange>,
                    rs: seq<Record>, now: nat, seenNow: set<Exchange>, schemaError: bool, progressed: bool)
    requires index <= |calls| && CallsOf(rs) == calls[..index] && now == dispatched + index <= limits.maxToolCalls
    requires Outcomes(rs) == Drawn(w, dispatched, now) && seenNow == seen + Exchanges(rs)
    requires forall k :: 0 <= k < |rs| ==> rs[k].fate.Ran? && rs[k].fate.outcome != Crashed
    requires (schemaError <==> exists k :: 0 <= k < |rs| && Malformed(rs[k])) && (progressed <==> !(Exchanges(rs) <= seen))
    ensures Walking(limits, w, calls, index, dispatched, seen, rs, now, seenNow, schemaError, progressed)
  {
    hide Outcomes, Drawn, CallsOf, Exchanges, Malformed;
  }

  lemma MalformedMore(rs: seq<Record>, r: Record)
    ensures (exists k :: 0 <= k < |rs + [r]| && Malformed((rs + [r])[k])) <==> Malformed(r) || exists k :: 0 <= k < |rs| && Malformed(rs[k])
  {
    var all := rs + [r];
    hide Malformed;
    assert all[|rs|] == r;
    if exists k :: 0 <= k < |rs| && Malformed(rs[k]) {
      var k :| 0 <= k < |rs| && Malformed(rs[k]);
      assert all[k] == rs[k];
    }
    if exists k :: 0 <= k < |all| && Malformed(all[k]) {
      var k :| 0 <= k < |all| && Malformed(all[k]);
      assert k < |rs| ==> all[k] == rs[k];
    }
  }

  /** Before each of the first `n` calls of turn `i`: no Stop, time left, nothing to confirm. */
  ghost predicate Clear(w: World, i: nat, n: int) {
    forall k: nat :: k < n ==> ClearAt(w, i, k)
  }

  ghost predicate ClearAt(w: World, i: nat, k: nat) {
    !w.cancelled(i, k + 1) && !w.late(i, k + 1) && !w.asks(i, k + 1)
  }

  /** Exactly the first `n` calls were dispatched. */
  ghost predicate RanFirst(rs: seq<Record>, n: int) {
    forall k :: 0 <= k < |rs| ==> (rs[k].fate.Ran? <==> k < n)
  }

  /** What the walk over one turn's calls promises its caller. */
  ghost predicate WalkResult(limits: Limits, w: World, i: nat, calls: seq<Call>, dispatched: nat, seen: set<Exchange>,
                             rs: seq<Record>, exit: CallExit, dispatched': nat, seen': set<Exchange>,
                             schemaError: bool, progressed: bool) {
    && Walked(limits, w, calls, dispatched, seen, rs, dispatched', seen')
    && ExitMeans(limits, w, i, rs, dispatched, dispatched', exit)
    && Clear(w, i, dispatched' - dispatched) && RanFirst(rs, dispatched' - dispatched)
    && (schemaError <==> exists k :: 0 <= k < |rs| && Malformed(rs[k]))
    && (progressed <==> !(Exchanges(rs) <= seen))
  }

  ghost predicate WalkPost(limits: Limits, w: World, i: nat, calls: seq<Call>, dispatched: nat, seen: set<Exchange>,
                           records: seq<Record>, messages: seq<Message>, exit: CallExit, dispatched': nat, seen': set<Exchange>,
                           records': seq<Record>, messages': seq<Message>, schemaError: bool, progressed: bool) {
    && messages' == messages + Answers(calls)
    && |records'| >= |records| && records'[..|records|] == records
    && WalkResult(limits, w, i, calls, dispatched, seen, records'[|records|..], exit, dispatched', seen', schemaError, progressed)
    && AskStops(records'[|records|..], exit)
  }

  /** Ending a walk early: the rest of the turn is refused for `reason`. */
  lemma WalkEnds(limits: Limits, w: World, calls: seq<Call>, index: nat, dispatched: nat, seen: set<Exchange>,
                 rs: seq<Record>, now: nat, seenNow: set<Exchange>, schemaError: bool, progressed: bool, reason: Reason)
    requires Walking(limits, w, calls, index, dispatched, seen, rs, now, seenNow, schemaError, progressed)
    ensures var all := rs + Skipped(calls[index..], reason);
            && Walked(limits, w, calls, dispatched, seen, all, now, seenNow)
            && (schemaError <==> exists k :: 0 <= k < |all| && Malformed(all[k]))
            && (progressed <==> !(Exchanges(all) <= seen))
            && (index < |calls| ==> From(all, index, reason))
            && RanFirst(all, now - dispatched)
  {
    WalkingShape(limits, w, calls, index, dispatched, seen, rs, now, seenNow, schemaError, progressed);
    hide Outcomes, Drawn, CallsOf, Exchanges, Malformed, Skipped, Walking;
    SkipCompletes(calls, index, rs, reason);
    SkippedExchange(rs, calls[index..], reason);
    SkippedShape(calls, index, rs, reason);
  }

  lemma WalkingShape(limits: Limits, w: World, calls: seq<Call>, index: nat, dispatched: nat, seen: set<Exchange>,
                     rs: seq<Record>, now: nat, seenNow: set<Exchange>, schemaError: bool, progressed: bool)
    requires Walking(limits, w, calls, index, dispatched, seen, rs, now, seenNow, schemaError, progressed)
    ensures index <= |calls| && |rs| == index && CallsOf(rs) == calls[..index] && Outcomes(rs) == Drawn(w, dispatched, now)
    ensures now == dispatched + index <= limits.maxToolCalls && seenNow == seen + Exchanges(rs)
    ensures forall k :: 0 <= k < |rs| ==> rs[k].fate.Ran? && rs[k].fate.outcome != Crashed
    ensures (schemaError <==> exists k :: 0 <= k < |rs| && Malformed(rs[k])) && (progressed <==> !(Exchanges(rs) <= seen))
  {
    hide Outcomes, Drawn, Exchanges, Malformed;
    assert |CallsOf(rs)| == |rs|;
  }

  lemma SkippedShape(calls: seq<Call>, index: nat, rs: seq<Record>, reason: Reason)
    requires index <= |calls| && |rs| == index
    requires forall k :: 0 <= k < |rs| ==> rs[k].fate.Ran? && rs[k].fate.outcome != Crashed
    ensures var all := rs + Skipped(calls[index..], reason);
            && |all| == |calls| && (index < |calls| ==> From(all, index, reason)) && RanFirst(all, index)
            && ((exists k :: 0 <= k < |all| && Malformed(all[k])) <==> (exists k :: 0 <= k < |rs| && Malformed(rs[k])))
  {
    var tail := Skipped(calls[index..], reason);
    var all := rs + tail;
    assert forall k :: 0 <= k < index ==> all[k] == rs[k];
    assert forall k :: index <= k < |all| ==> all[k] == tail[k - index];
    if exists k :: 0 <= k < |rs| && Malformed(rs[k]) {
      var k :| 0 <= k < |rs| && Malformed(rs[k]);
      assert Malformed(all[k]);
    }
    assert forall k :: 0 <= k < |all| && Malformed(all[k]) ==> k < index;
  }

  /** A call that is settled without an exchange (armed, or crashed) and ends the turn there. */
  ghost predicate Settles(limits: Limits, w: World, fate: Fate, now: nat, now': nat) {
    && now' <= limits.maxToolCalls
    && ((fate.NotRun? && now' == now) || (fate == Ran(Crashed) && now' == now + 1 && w.dispatch(now) == Crashed))
  }

  lemma SettledCall(limits: Limits, w: World, calls: seq<Call>, index: nat, dispatched: nat, seen: set<Exchange>,
                    rs: seq<Record>, now: nat, now': nat, seenNow: set<Exchange>, schemaError: bool, progressed: bool, fate: Fate)
    requires Walking(limits, w, calls, index, dispatched, seen, rs, now, seenNow, schemaError, progressed)
    requires index < |calls| && Settles(limits, w, fate, now, now')
    ensures var some := rs + [Record(calls[index], fate)];
            && CallsOf(some) == calls[..index + 1]
            && Outcomes(some) == Drawn(w, dispatched, now')
            && Exchanges(some) == Exchanges(rs)
  {
    OneMore(w, rs, calls[index], fate, dispatched, now);
    OneExchange(rs, Record(calls[index], fate));
    assert CallsOf(rs + [Record(calls[index], fate)]) == CallsOf(rs) + [calls[index]];
    assert calls[..index + 1] == calls[..index] + [calls[index]];
  }

  lemma SettledShape(calls: seq<Call>, index: nat, rs: seq<Record>, fate: Fate, reason: Reason)
    requires index < |calls| && CallsOf(rs) == calls[..index]
    requires forall k :: 0 <= k < |rs| ==> rs[k].fate.Ran? && rs[k].fate.outcome != Crashed
    requires fate.NotRun? || fate == Ran(Crashed)
    ensures var all := rs + [Record(calls[index], fate)] + Skipped(calls[index + 1..], reason);
            && |all| == |calls| && |rs| == index && all[index] == Record(calls[index], fate)
            && (forall k :: 0 <= k < index ==> all[k] == rs[k])
            && (forall k :: index < k < |all| ==> all[k].fate == NotRun(reason))
            && ((exists k :: 0 <= k < |all| && Malformed(all[k])) <==> (exists k :: 0 <= k < |rs| && Malformed(rs[k])))
  {
    var tail := Skipped(calls[index + 1..], reason);
    var all := rs + [Record(calls[index], fate)] + tail;
    assert |CallsOf(rs)| == |rs| == index;
    assert forall k :: 0 <= k < index ==> all[k] == rs[k];
    assert forall k :: index < k < |all| ==> all[k] == tail[k - index - 1];
    forall k | 0 <= k < |all| && Malformed(all[k]) ensures k < index && Malformed(rs[k]) {
    }
    forall k | 0 <= k < |rs| && Malformed(rs[k]) ensures Malformed(all[k]) {
    }
  }

  lemma WalkEndsAt(limits: Limits, w: World, calls: seq<Call>, index: nat, dispatched: nat, seen: set<Exchange>,
                   rs: seq<Record>, now: nat, now': nat, seenNow: set<Exchange>, schemaError: bool, progressed: bool,
                   fate: Fate, reason: Reason)
    requires Walking(limits, w, calls, index, dispatched, seen, rs, now, seenNow, schemaError, progressed)
    requires index < |calls| && Settles(limits, w, fate, now, now')
    ensures var all := rs + [Record(calls[index], fate)] + Skipped(calls[index + 1..], reason);
            && Walked(limits, w, calls, dispatched, seen, all, now', seenNow)
            && (schemaError <==> exists k :: 0 <= k < |all| && Malformed(all[k]))
            && (progressed <==> !(Exchanges(all) <= seen))
            && |all| == |calls| && all[index] == Record(calls[index], fate)
            && (forall k :: 0 <= k < index ==> all[k].fate.Ran? && all[k].fate.outcome != Crashed)
            && (forall k :: index < k < |all| ==> all[k].fate == NotRun(reason))
            && RanFirst(all, now' - dispatched)
  {
    var some := rs + [Record(calls[index], fate)];
    SettledCall(limits, w, calls, index, dispatched, seen, rs, now, now', seenNow, schemaError, progressed, fate);
    SkipCompletes(calls, index + 1, some, reason);
    SkippedExchange(some, calls[index + 1..], reason);
    SettledShape(calls, index, rs, fate, reason);
    hide Outcomes, Drawn, CallsOf, Exchanges, Malformed, Skipped;
  }

  /** What is checked before a call starts: Stop, deadline, cap, gate. Any of them refuses the rest of the turn. */
  method RefuseFrom(limits: Limits, w: World, i: nat, calls: seq<Call>, index: nat, dispatched: nat, seen: set<Exchange>,
                    ghost records: seq<Record>, ghost messages: seq<Message>, ghost rs: seq<Record>, now: nat, ghost seenNow: set<Exchange>,
                    recordsNow: seq<Record>, messagesNow: seq<Message>, ghost schemaError: bool, ghost progressed: bool)
    returns (refused: bool, exit: CallExit, records': seq<Record>, messages': seq<Message>)
    requires At(limits, w, i, calls, index, dispatched, seen, records, messages, rs, now, seenNow, recordsNow, messagesNow, schemaError, progressed)
    requires index < |calls| && now <= limits.maxToolCalls
    ensures refused ==> WalkPost(limits, w, i, calls, dispatched, seen, records, messages, exit, now, seenNow, records', messages', schemaError, progressed)
    ensures !refused ==> records' == recordsNow && messages' == messagesNow && exit == Through && now < limits.maxToolCalls && ClearAt(w, i, index)
  {
    hide *;
    refused := true;
    if w.cancelled(i, index + 1) {
      exit := Ends(Stopped);
      EndsFrom(limits, w, i, calls, index, dispatched, seen, records, messages, rs, now, seenNow, recordsNow, messagesNow, schemaError, progressed, Cancelled, exit);
      records', messages' := SkipRemaining(calls[index..], recordsNow, messagesNow, Cancelled);
      return;
    }
    if w.late(i, index + 1) {
      exit := Ends(TimedOut);
      EndsFrom(limits, w, i, calls, index, dispatched, seen, records, messages, rs, now, seenNow, recordsNow, messagesNow, schemaError, progressed, OutOfTime, exit);
      records', messages' := SkipRemaining(calls[index..], recordsNow, messagesNow, OutOfTime);
      return;
    }
    if now >= limits.maxToolCalls {
      exit := OverCap;
      EndsFrom(limits, w, i, calls, index, dispatched, seen, records, messages, rs, now, seenNow, recordsNow, messagesNow, schemaError, progressed, OverLimit, exit);
      records', messages' := SkipRemaining(calls[index..], recordsNow, messagesNow, OverLimit);
      return;
    }
    if w.asks(i, index + 1) {
      exit := Ends(ConfirmRequired);
      EndsArmed(limits, w, i, calls, index, dispatched, seen, records, messages, rs, now, seenNow, recordsNow, messagesNow, schemaError, progressed);
      records', messages' := SkipRemaining([calls[index]], recordsNow, messagesNow, NeedsConfirmation);
      records', messages' := SkipRemaining(calls[index + 1..], records', messages', AfterConfirmation);
      return;
    }
    ClearHere(w, i, index);
    return false, Through, recordsNow, messagesNow;
  }

  /** One call that may start: a crash or a landed question ends the turn there. */
  method DispatchCall(limits: Limits, w: World, i: nat, calls: seq<Call>, index: nat, dispatched: nat, seen: set<Exchange>,
                      ghost records: seq<Record>, ghost messages: seq<Message>, ghost rs: seq<Record>, now: nat, seenNow: set<Exchange>,
                      recordsNow: seq<Record>, messagesNow: seq<Message>, schemaNow: bool, progressNow: bool)
    returns (ended: bool, exit: CallExit, seen': set<Exchange>, records': seq<Record>, messages': seq<Message>,
             schemaError: bool, progressed: bool, ghost rs': seq<Record>)
    requires At(limits, w, i, calls, index, dispatched, seen, records, messages, rs, now, seenNow, recordsNow, messagesNow, schemaNow, progressNow)
    requires index < |calls| && now < limits.maxToolCalls && ClearAt(w, i, index)
    ensures ended ==>
              WalkPost(limits, w, i, calls, dispatched, seen, records, messages, exit, now + 1, seen', records', messages', schemaError, progressed)
    ensures !ended ==>
              exit == Through
              && At(limits, w, i, calls, index + 1, dispatched, seen, records, messages, rs', now + 1, seen', records', messages', schemaError, progressed)
  {
    hide *;
    var call, outcome := calls[index], w.dispatch(now);
    rs' := rs + [Record(call, Ran(outcome))];
    if outcome.Crashed? {
      ended, exit, seen', schemaError, progressed := true, Ends(InternalError), seenNow, schemaNow, progressNow;
      EndsCrashed(limits, w, i, calls, index, dispatched, seen, records, messages, rs, now, seenNow, recordsNow, messagesNow, schemaNow, progressNow);
      records' := recordsNow + [Record(call, Ran(Crashed))];
      messages' := messagesNow + [Answer(call.id)];
      records', messages' := SkipRemaining(calls[index + 1..], records', messages', AfterCrash);
      return;
    }
    Dispatched(limits, w, i, calls, index, dispatched, seen, records, messages, rs, now, seenNow, recordsNow, messagesNow, schemaNow, progressNow, outcome);
    var exchange := ExchangeOf(call, outcome);
    records' := recordsNow + [Record(call, Ran(outcome))];
    messages' := messagesNow + [Answer(call.id)];
    schemaError := schemaNow || (outcome.Refused? && outcome.schemaError);
    progressed := progressNow || exchange !in seenNow;
    seen' := seenNow + {exchange};
    ended, exit := false, Through;
    if call.tool == ASK_TOOL && outcome.Done? {
      ended := true;
      if outcome.candidates != [] { exit := Question; }
      records', messages' := SkipRemaining(calls[index + 1..], records', messages', AfterQuestion);
    }
  }

  /** The call loop of one turn. */
  method WalkCalls(limits: Limits, w: World, i: nat, calls: seq<Call>, dispatched: nat, seen: set<Exchange>,
                   records: seq<Record>, messages: seq<Message>)
    returns (exit: CallExit, dispatched': nat, seen': set<Exchange>, records': seq<Record>, messages': seq<Message>,
             schemaError: bool, progressed: bool)
    requires calls != [] && dispatched <= limits.maxToolCalls
    ensures WalkPost(limits, w, i, calls, dispatched, seen, records, messages, exit, dispatched', seen', records', messages', schemaError, progressed)
  {
    ghost var rs: seq<Record> := [];
    exit, dispatched', seen', records', messages' := Through, dispatched, seen, records, messages;
    schemaError, progressed := false, false;
    WalkStarts(limits, w, i, calls, dispatched, seen, records, messages);
    hide *;
    var index := 0;
    while index < |calls|
      invariant 0 <= index <= |calls|
      invariant At(limits, w, i, calls, index, dispatched, seen, records, messages, rs, dispatched', seen', records', messages', schemaError, progressed)
      invariant dispatched' == dispatched + index <= limits.maxToolCalls && exit == Through
    {
      var refused;
      refused, exit, records', messages' :=
        RefuseFrom(limits, w, i, calls, index, dispatched, seen, records, messages, rs, dispatched', seen', records', messages', schemaError, progressed);
      if refused { return; }
      var asked;
      asked, exit, seen', records', messages', schemaError, progressed, rs :=
        DispatchCall(limits, w, i, calls, index, dispatched, seen, records, messages, rs, dispatched', seen', records', messages', schemaError, progressed);
      dispatched' := dispatched' + 1;
      if asked { return; }
      index := index + 1;
    }
    EndsThrough(limits, w, i, calls, dispatched, seen, records, messages, rs, dispatched', seen', records', messages', schemaError, progressed);
  }

  /** The walk's own variables before call `index`, no question having landed yet. */
  ghost predicate At(limits: Limits, w: World, i: nat, calls: seq<Call>, index: nat, dispatched: nat, seen: set<Exchange>,
                     records: seq<Record>, messages: seq<Message>, rs: seq<Record>, now: nat, seenNow: set<Exchange>,
                     records': seq<Record>, messages': seq<Message>, schemaError: bool, progressed: bool) {
    && Running(limits, w, i, calls, index, dispatched, seen, records, messages, rs, now, seenNow, records', messages', schemaError, progressed)
    && NoneLanded(rs)
  }

  ghost predicate Running(limits: Limits, w: World, i: nat, calls: seq<Call>, index: nat, dispatched: nat, seen: set<Exchange>,
                     records: seq<Record>, messages: seq<Message>, rs: seq<Record>, now: nat, seenNow: set<Exchange>,
                     records': seq<Record>, messages': seq<Message>, schemaError: bool, progressed: bool) {
    && Walking(limits, w, calls, index, dispatched, seen, rs, now, seenNow, schemaError, progressed)
    && Clear(w, i, index)
    && records' == records + rs
    && messages' == messages + Answers(calls[..index])
  }

  lemma ClearNext(limits: Limits, w: World, i: nat, calls: seq<Call>, index: nat, dispatched: nat, seen: set<Exchange>,
                  records: seq<Record>, messages: seq<Message>, rs: seq<Record>, now: nat, seenNow: set<Exchange>,
                  records': seq<Record>, messages': seq<Message>, schemaError: bool, progressed: bool)
    requires At(limits, w, i, calls, index, dispatched, seen, records, messages, rs, now, seenNow, records', messages', schemaError, progressed)
    requires ClearAt(w, i, index)
    ensures Clear(w, i, index + 1)
  {
    hide Walking;
  }

  lemma WalkStarts(limits: Limits, w: World, i: nat, calls: seq<Call>, dispatched: nat, seen: set<Exchange>, records: seq<Record>, messages: seq<Message>)
    requires dispatched <= limits.maxToolCalls
    ensures At(limits, w, i, calls, 0, dispatched, seen, records, messages, [], dispatched, seen, records, messages, false, false)
  {
    assert calls[..0] == [] && Answers(calls[..0]) == [] && Drawn(w, dispatched, dispatched) == [];
    assert Walking(limits, w, calls, 0, dispatched, seen, [], dispatched, seen, false, false);
  }

  lemma NotYetLanded(rs: seq<Record>, call: Call, outcome: Outcome)
    requires NoneLanded(rs) && !(call.tool == ASK_TOOL && outcome.Done?)
    ensures NoneLanded(rs + [Record(call, Ran(outcome))])
  {
  }

  lemma Rejoin(limits: Limits, w: World, i: nat, calls: seq<Call>, index: nat, dispatched: nat, seen: set<Exchange>,
               records: seq<Record>, messages: seq<Message>, rs: seq<Record>, tail: seq<Record>, exit: CallExit,
               now: nat, seenNow: set<Exchange>, records': seq<Record>, messages': seq<Message>, schemaError: bool, progressed: bool)
    requires WalkResult(limits, w, i, calls, dispatched, seen, rs + tail, exit, now, seenNow, schemaError, progressed)
    requires AskStops(rs + tail, exit)
    requires index <= |calls| && records' == records + rs + tail
    requires messages' == messages + Answers(calls[..index]) + Answers(calls[index..])
    ensures WalkPost(limits, w, i, calls, dispatched, seen, records, messages, exit, now, seenNow, records', messages', schemaError, progressed)
  {
    assert Answers(calls[..index]) + Answers(calls[index..]) == Answers(calls);
    hide *;
    Reassociated(records, rs, tail);
    Reassociated(messages, Answers(calls[..index]), Answers(calls[index..]));
    Posted(limits, w, i, calls, dispatched, seen, records, messages, rs + tail, exit, now, seenNow, records', messages', schemaError, progressed);
  }

  lemma Reassociated<T>(a: seq<T>, b: seq<T>, c: seq<T>)
    ensures a + b + c == a + (b + c)
  {
  }

  lemma Posted(limits: Limits, w: World, i: nat, calls: seq<Call>, dispatched: nat, seen: set<Exchange>,
               records: seq<Record>, messages: seq<Message>, more: seq<Record>, exit: CallExit,
               now: nat, seenNow: set<Exchange>, records': seq<Record>, messages': seq<Message>, schemaError: bool, progressed: bool)
    requires WalkResult(limits, w, i, calls, dispatched, seen, more, exit, now, seenNow, schemaError, progressed)
    requires AskStops(more, exit)
    requires records' == records + more && messages' == messages + Answers(calls)
    ensures WalkPost(limits, w, i, calls, dispatched, seen, records, messages, exit, now, seenNow, records', messages', schemaError, progressed)
  {
    hide WalkResult, Answers, AskStops;
    assert records'[|records|..] == more;
  }

  lemma RejoinAt(limits: Limits, w: World, i: nat, calls: seq<Call>, index: nat, dispatched: nat, seen: set<Exchange>,
                 records: seq<Record>, messages: seq<Message>, rs: seq<Record>, r: Record, tail: seq<Record>, exit: CallExit,
                 now: nat, seenNow: set<Exchange>, records': seq<Record>, messages': seq<Message>, schemaError: bool, progressed: bool)
    requires WalkResult(limits, w, i, calls, dispatched, seen, rs + [r] + tail, exit, now, seenNow, schemaError, progressed)
    requires AskStops(rs + [r] + tail, exit)
    requires index < |calls| && records' == records + rs + [r] + tail
    requires messages' == messages + Answers(calls[..index]) + [Answer(calls[index].id)] + Answers(calls[index + 1..])
    ensures WalkPost(limits, w, i, calls, dispatched, seen, records, messages, exit, now, seenNow, records', messages', schemaError, progressed)
  {
    assert Answers(calls[..index]) + [Answer(calls[index].id)] + Answers(calls[index + 1..]) == Answers(calls);
    hide *;
    Reassociated(records, rs, [r]);
    Reassociated(records, rs + [r], tail);
    Reassociated(messages, Answers(calls[..index]), [Answer(calls[index].id)]);
    Reassociated(messages, Answers(calls[..index]) + [Answer(calls[index].id)], Answers(calls[index + 1..]));
    Posted(limits, w, i, calls, dispatched, seen, records, messages, rs + [r] + tail, exit, now, seenNow, records', messages', schemaError, progressed);
  }

  lemma EndsFrom(limits: Limits, w: World, i: nat, calls: seq<Call>, index: nat, dispatched: nat, seen: set<Exchange>,
               records: seq<Record>, messages: seq<Message>, rs: seq<Record>, now: nat, seenNow: set<Exchange>,
               records': seq<Record>, messages': seq<Message>, schemaError: bool, progressed: bool, reason: Reason, exit: CallExit)
    requires At(limits, w, i, calls, index, dispatched, seen, records, messages, rs, now, seenNow, records', messages', schemaError, progressed) && index < |calls|
    requires || (reason == Cancelled && exit == Ends(Stopped) && w.cancelled(i, index + 1))
             || (reason == OutOfTime && exit == Ends(TimedOut) && w.late(i, index + 1))
             || (reason == OverLimit && exit == OverCap && now >= limits.maxToolCalls)
    ensures WalkPost(limits, w, i, calls, dispatched, seen, records, messages, exit, now, seenNow,
                     records' + Skipped(calls[index..], reason), messages' + Answers(calls[index..]), schemaError, progressed)
  {
    WalkEnds(limits, w, calls, index, dispatched, seen, rs, now, seenNow, schemaError, progressed, reason);
    var all := rs + Skipped(calls[index..], reason);
    assert now <= limits.maxToolCalls;
    hide Outcomes, Drawn, CallsOf, Exchanges, Malformed, From, Skipped, Walking, WalkPost, Answers;
    assert From(all, index, reason);
    SkippedNotLanded(calls[index..], reason);
    NoneLandedBefore(rs, Skipped(calls[index..], reason));
    NobodyAsked(all, exit);
    Rejoin(limits, w, i, calls, index, dispatched, seen, records, messages, rs, Skipped(calls[index..], reason), exit, now, seenNow,
           records' + Skipped(calls[index..], reason), messages' + Answers(calls[index..]), schemaError, progressed);
  }

  lemma EndsArmed(limits: Limits, w: World, i: nat, calls: seq<Call>, index: nat, dispatched: nat, seen: set<Exchange>,
               records: seq<Record>, messages: seq<Message>, rs: seq<Record>, now: nat, seenNow: set<Exchange>,
               records': seq<Record>, messages': seq<Message>, schemaError: bool, progressed: bool)
    requires At(limits, w, i, calls, index, dispatched, seen, records, messages, rs, now, seenNow, records', messages', schemaError, progressed) && index < |calls|
    requires w.asks(i, index + 1)
    ensures WalkPost(limits, w, i, calls, dispatched, seen, records, messages, Ends(ConfirmRequired), now, seenNow,
                     records' + Skipped([calls[index]], NeedsConfirmation) + Skipped(calls[index + 1..], AfterConfirmation),
                     messages' + Answers([calls[index]]) + Answers(calls[index + 1..]), schemaError, progressed)
  {
    var r := Record(calls[index], NotRun(NeedsConfirmation));
    var tail := Skipped(calls[index + 1..], AfterConfirmation);
    WalkEndsAt(limits, w, calls, index, dispatched, seen, rs, now, now, seenNow, schemaError, progressed, NotRun(NeedsConfirmation), AfterConfirmation);
    assert Skipped([calls[index]], NeedsConfirmation) == [r] && Answers([calls[index]]) == [Answer(calls[index].id)];
    hide Outcomes, Drawn, CallsOf, Exchanges, Malformed, Skipped, Walking, WalkPost, Answers;
    assert ArmedAt(rs + [r] + tail, index);
    SkippedNotLanded(calls[index + 1..], AfterConfirmation);
    NoneLandedBefore(rs, [r]);
    NoneLandedBefore(rs + [r], tail);
    NobodyAsked(rs + [r] + tail, Ends(ConfirmRequired));
    RejoinAt(limits, w, i, calls, index, dispatched, seen, records, messages, rs, r, tail, Ends(ConfirmRequired), now, seenNow,
             records' + [r] + tail, messages' + [Answer(calls[index].id)] + Answers(calls[index + 1..]), schemaError, progressed);
  }

  lemma EndsCrashed(limits: Limits, w: World, i: nat, calls: seq<Call>, index: nat, dispatched: nat, seen: set<Exchange>,
               records: seq<Record>, messages: seq<Message>, rs: seq<Record>, now: nat, seenNow: set<Exchange>,
               records': seq<Record>, messages': seq<Message>, schemaError: bool, progressed: bool)
    requires At(limits, w, i, calls, index, dispatched, seen, records, messages, rs, now, seenNow, records', messages', schemaError, progressed) && index < |calls|
    requires now < limits.maxToolCalls && w.dispatch(now) == Crashed && ClearAt(w, i, index)
    ensures WalkPost(limits, w, i, calls, dispatched, seen, records, messages, Ends(InternalError), now + 1, seenNow,
                     records' + [Record(calls[index], Ran(Crashed))] + Skipped(calls[index + 1..], AfterCrash),
                     messages' + [Answer(calls[index].id)] + Answers(calls[index + 1..]), schemaError, progressed)
  {
    var r := Record(calls[index], Ran(Crashed));
    var tail := Skipped(calls[index + 1..], AfterCrash);
    ClearNext(limits, w, i, calls, index, dispatched, seen, records, messages, rs, now, seenNow, records', messages', schemaError, progressed);
    WalkEndsAt(limits, w, calls, index, dispatched, seen, rs, now, now + 1, seenNow, schemaError, progressed, Ran(Crashed), AfterCrash);
    hide Outcomes, Drawn, CallsOf, Exchanges, Malformed, Skipped, Walking, WalkPost, Answers;
    assert CrashedAt(rs + [r] + tail, index);
    SkippedNotLanded(calls[index + 1..], AfterCrash);
    NoneLandedBefore(rs, [r]);
    NoneLandedBefore(rs + [r], tail);
    NobodyAsked(rs + [r] + tail, Ends(InternalError));
    RejoinAt(limits, w, i, calls, index, dispatched, seen, records, messages, rs, r, tail, Ends(InternalError), now + 1, seenNow,
             records' + [r] + tail, messages' + [Answer(calls[index].id)] + Answers(calls[index + 1..]), schemaError, progressed);
  }

  lemma RunsOn(limits: Limits, w: World, i: nat, calls: seq<Call>, index: nat, dispatched: nat, seen: set<Exchange>,
               records: seq<Record>, messages: seq<Message>, rs: seq<Record>, now: nat, seenNow: set<Exchange>,
               records': seq<Record>, messages': seq<Message>, schemaError: bool, progressed: bool, outcome: Outcome)
    requires Running(limits, w, i, calls, index, dispatched, seen, records, messages, rs, now, seenNow, records', messages', schemaError, progressed)
    requires index < |calls|
    requires now < limits.maxToolCalls && outcome == w.dispatch(now) && outcome != Crashed && Clear(w, i, index + 1)
    ensures var r := Record(calls[index], Ran(outcome));
            Running(limits, w, i, calls, index + 1, dispatched, seen, records, messages, rs + [r], now + 1, seenNow + {ExchangeOf(r.call, outcome)},
                    records' + [r], messages' + [Answer(r.call.id)],
                    schemaError || (outcome.Refused? && outcome.schemaError), progressed || ExchangeOf(r.call, outcome) !in seenNow)
  {
    WalkOn(limits, w, calls, index, dispatched, seen, rs, now, seenNow, schemaError, progressed, outcome);
    assert Answers(calls[..index + 1]) == Answers(calls[..index]) + [Answer(calls[index].id)];
    hide Walking, Answers;
  }

  lemma GoesOn(limits: Limits, w: World, i: nat, calls: seq<Call>, index: nat, dispatched: nat, seen: set<Exchange>,
               records: seq<Record>, messages: seq<Message>, rs: seq<Record>, now: nat, seenNow: set<Exchange>,
               records': seq<Record>, messages': seq<Message>, schemaError: bool, progressed: bool, outcome: Outcome)
    requires At(limits, w, i, calls, index, dispatched, seen, records, messages, rs, now, seenNow, records', messages', schemaError, progressed) && index < |calls|
    requires now < limits.maxToolCalls && outcome == w.dispatch(now) && outcome != Crashed && Clear(w, i, index + 1)
    requires !(calls[index].tool == ASK_TOOL && outcome.Done?)
    ensures var r := Record(calls[index], Ran(outcome));
            At(limits, w, i, calls, index + 1, dispatched, seen, records, messages, rs + [r], now + 1, seenNow + {ExchangeOf(r.call, outcome)},
               records' + [r], messages' + [Answer(r.call.id)],
               schemaError || (outcome.Refused? && outcome.schemaError), progressed || ExchangeOf(r.call, outcome) !in seenNow)
  {
    hide Running, Clear, NoneLanded, ExchangeOf;
    RunsOn(limits, w, i, calls, index, dispatched, seen, records, messages, rs, now, seenNow, records', messages', schemaError, progressed, outcome);
    NotYetLanded(rs, calls[index], outcome);
  }

  lemma EndsAsked(limits: Limits, w: World, i: nat, calls: seq<Call>, index: nat, dispatched: nat, seen: set<Exchange>,
               records: seq<Record>, messages: seq<Message>, rs: seq<Record>, now: nat, seenNow: set<Exchange>,
               records': seq<Record>, messages': seq<Message>, schemaError: bool, progressed: bool, outcome: Outcome)
    requires At(limits, w, i, calls, index, dispatched, seen, records, messages, rs, now, seenNow, records', messages', schemaError, progressed) && index < |calls|
    requires now < limits.maxToolCalls && outcome == w.dispatch(now) && Clear(w, i, index + 1)
    requires calls[index].tool == ASK_TOOL && outcome.Done?
    ensures var r := Record(calls[index], Ran(outcome));
            WalkPost(limits, w, i, calls, dispatched, seen, records, messages, if outcome.candidates != [] then Question else Through,
                     now + 1, seenNow + {ExchangeOf(r.call, outcome)},
                     records' + [r] + Skipped(calls[index + 1..], AfterQuestion),
                     messages' + [Answer(r.call.id)] + Answers(calls[index + 1..]),
                     schemaError, progressed || ExchangeOf(r.call, outcome) !in seenNow)
  {
    hide Running, Clear, NoneLanded, ExchangeOf, WalkPost, Skipped, Answers;
    RunsOn(limits, w, i, calls, index, dispatched, seen, records, messages, rs, now, seenNow, records', messages', schemaError, progressed, outcome);
    var r := Record(calls[index], Ran(outcome));
    AfterAsk(limits, w, i, calls, index + 1, dispatched, seen, records, messages, rs + [r], now + 1, seenNow + {ExchangeOf(r.call, outcome)},
             records' + [r], messages' + [Answer(r.call.id)], schemaError,
             progressed || ExchangeOf(r.call, outcome) !in seenNow, rs, r.call, outcome,
             if outcome.candidates != [] then Question else Through);
  }

  /** A call that came back: a landed question ends the walk here, anything else takes it one call further. */
  lemma Dispatched(limits: Limits, w: World, i: nat, calls: seq<Call>, index: nat, dispatched: nat, seen: set<Exchange>,
               records: seq<Record>, messages: seq<Message>, rs: seq<Record>, now: nat, seenNow: set<Exchange>,
               records': seq<Record>, messages': seq<Message>, schemaError: bool, progressed: bool, outcome: Outcome)
    requires At(limits, w, i, calls, index, dispatched, seen, records, messages, rs, now, seenNow, records', messages', schemaError, progressed) && index < |calls|
    requires now < limits.maxToolCalls && outcome == w.dispatch(now) && outcome != Crashed && ClearAt(w, i, index)
    ensures var r, landed := Record(calls[index], Ran(outcome)), calls[index].tool == ASK_TOOL && outcome.Done?;
            var schemaNow, progressNow := schemaError || (outcome.Refused? && outcome.schemaError), progressed || ExchangeOf(r.call, outcome) !in seenNow;
            if landed then
              WalkPost(limits, w, i, calls, dispatched, seen, records, messages, if outcome.candidates != [] then Question else Through,
                       now + 1, seenNow + {ExchangeOf(r.call, outcome)},
                       records' + [r] + Skipped(calls[index + 1..], AfterQuestion),
                       messages' + [Answer(r.call.id)] + Answers(calls[index + 1..]), schemaNow, progressNow)
            else
              At(limits, w, i, calls, index + 1, dispatched, seen, records, messages, rs + [r], now + 1, seenNow + {ExchangeOf(r.call, outcome)},
                 records' + [r], messages' + [Answer(r.call.id)], schemaNow, progressNow)
  {
    hide *;
    ClearNext(limits, w, i, calls, index, dispatched, seen, records, messages, rs, now, seenNow, records', messages', schemaError, progressed);
    if calls[index].tool == ASK_TOOL && outcome.Done? {
      EndsAsked(limits, w, i, calls, index, dispatched, seen, records, messages, rs, now, seenNow, records', messages', schemaError, progressed, outcome);
    } else {
      GoesOn(limits, w, i, calls, index, dispatched, seen, records, messages, rs, now, seenNow, records', messages', schemaError, progressed, outcome);
    }
  }

  lemma ClearHere(w: World, i: nat, k: nat)
    requires !w.cancelled(i, k + 1) && !w.late(i, k + 1) && !w.asks(i, k + 1)
    ensures ClearAt(w, i, k)
  {
  }

  lemma AfterAsk(limits: Limits, w: World, i: nat, calls: seq<Call>, index: nat, dispatched: nat, seen: set<Exchange>,
               records: seq<Record>, messages: seq<Message>, rs: seq<Record>, now: nat, seenNow: set<Exchange>,
               records': seq<Record>, messages': seq<Message>, schemaError: bool, progressed: bool,
               earlier: seq<Record>, call: Call, outcome: Outcome, exit: CallExit)
    requires NoneLanded(earlier) && rs == earlier + [Record(call, Ran(outcome))]
    requires Running(limits, w, i, calls, index, dispatched, seen, records, messages, rs, now, seenNow, records', messages', schemaError, progressed) && 0 < index
    requires rs != [] && rs[|rs| - 1] == Record(call, Ran(outcome)) && call.tool == ASK_TOOL && outcome.Done?
    requires exit == if outcome.candidates != [] then Question else Through
    ensures WalkPost(limits, w, i, calls, dispatched, seen, records, messages, exit, now, seenNow,
                     records' + Skipped(calls[index..], AfterQuestion), messages' + Answers(calls[index..]), schemaError, progressed)
  {
    var tail := Skipped(calls[index..], AfterQuestion);
    AskedResult(limits, w, i, calls, index, dispatched, seen, rs, now, seenNow, schemaError, progressed, call, outcome, exit);
    AskedHeard(earlier, Record(call, Ran(outcome)), calls[index..], exit);
    hide AskStops, WalkResult, WalkPost, Answers, Walking, Skipped;
    Rejoin(limits, w, i, calls, index, dispatched, seen, records, messages, rs, tail, exit, now, seenNow,
           records' + tail, messages' + Answers(calls[index..]), schemaError, progressed);
  }

  lemma AskedResult(limits: Limits, w: World, i: nat, calls: seq<Call>, index: nat, dispatched: nat, seen: set<Exchange>,
                    rs: seq<Record>, now: nat, seenNow: set<Exchange>, schemaError: bool, progressed: bool,
                    call: Call, outcome: Outcome, exit: CallExit)
    requires Walking(limits, w, calls, index, dispatched, seen, rs, now, seenNow, schemaError, progressed) && Clear(w, i, index) && 0 < index
    requires rs != [] && rs[|rs| - 1] == Record(call, Ran(outcome)) && call.tool == ASK_TOOL && outcome.Done?
    requires exit == if outcome.candidates != [] then Question else Through
    ensures WalkResult(limits, w, i, calls, dispatched, seen, rs + Skipped(calls[index..], AfterQuestion), exit, now, seenNow, schemaError, progressed)
  {
    WalkingShape(limits, w, calls, index, dispatched, seen, rs, now, seenNow, schemaError, progressed);
    WalkEnds(limits, w, calls, index, dispatched, seen, rs, now, seenNow, schemaError, progressed, AfterQuestion);
    AskedShape(calls, index, rs, call, outcome);
    hide Outcomes, Drawn, CallsOf, Exchanges, Malformed, Walking, Walked, AskedAt, RanFirst, Clear, Skipped, From;
  }

  lemma AskedShape(calls: seq<Call>, index: nat, rs: seq<Record>, call: Call, outcome: Outcome)
    requires 0 < index <= |calls| && |rs| == index && (forall k :: 0 <= k < |rs| ==> rs[k].fate.Ran?)
    requires rs[|rs| - 1] == Record(call, Ran(outcome)) && call.tool == ASK_TOOL && outcome.Done?
    ensures var all := rs + Skipped(calls[index..], AfterQuestion);
            |all| > 0 && (outcome.candidates != [] ==> AskedAt(all, index - 1))
  {
    var tail := Skipped(calls[index..], AfterQuestion);
    var all := rs + tail;
    assert forall k :: 0 <= k < index ==> all[k] == rs[k];
    assert forall k :: index <= k < |all| ==> all[k] == tail[k - index];
  }

  lemma EndsThrough(limits: Limits, w: World, i: nat, calls: seq<Call>, dispatched: nat, seen: set<Exchange>,
               records: seq<Record>, messages: seq<Message>, rs: seq<Record>, now: nat, seenNow: set<Exchange>,
               records': seq<Record>, messages': seq<Message>, schemaError: bool, progressed: bool)
    requires calls != []
    requires At(limits, w, i, calls, |calls|, dispatched, seen, records, messages, rs, now, seenNow, records', messages', schemaError, progressed)
    ensures WalkPost(limits, w, i, calls, dispatched, seen, records, messages, Through, now, seenNow, records', messages', schemaError, progressed)
  {
    assert calls[..|calls|] == calls && rs + [] == rs && |CallsOf(rs)| == |rs|;
    assert Answers(calls[|calls|..]) == [];
    assert WalkResult(limits, w, i, calls, dispatched, seen, rs + [], Through, now, seenNow, schemaError, progressed);
    NobodyAsked(rs + [], Through);
    hide WalkResult, Walking, WalkPost, Answers, AskStops;
    Rejoin(limits, w, i, calls, |calls|, dispatched, seen, records, messages, rs, [], Through, now, seenNow, records', messages', schemaError, progressed);
  }

  // ---- the whole run -----------------------------------------------------------------------------

  /**
   What one turn of a run did: it spoke message `at`, and its records are `records[first..past]`,
   the first `ran` of them dispatched.
   */
  datatype TurnLog = TurnLog(at: nat, first: nat, past: nat, ran: nat, corrected: bool)

  datatype Result = Result(stop: Stop, records: seq<Record>, messages: seq<Message>, iterations: nat,
                           corrections: nat, dispatched: nat, turns: seq<TurnLog>)

  function CallsOfTurn(turn: Turn): seq<Call> {
    if turn.Reply? then turn.calls else []
  }

  /** Some call was refused because its arguments did not fit the tool's schema. */
  predicate AnyMalformed(rs: seq<Record>) {
    exists k :: 0 <= k < |rs| && rs[k].fate.Ran? && rs[k].fate.outcome.Refused? && rs[k].fate.outcome.schemaError
  }

  /** A turn with calls stands in the transcript with them; its words do too, unless the cap cut them off. */
  ghost predicate Spoke(turn: Turn, messages: seq<Message>, at: nat) {
    turn.Reply? && turn.calls != [] ==>
      at < |messages| && messages[at].Assistant? && messages[at].calls == turn.calls
      && (turn.truncated ==> messages[at].text.None?) && (!turn.truncated ==> messages[at].text == turn.text)
  }

  /** Turn `t + 1` left its own message and the records of its own calls, and dispatched a clear prefix of them. */
  ghost predicate TurnKept(w: World, r: Result, t: nat, log: TurnLog) {
    && log.first <= log.past <= |r.records|
    && CallsOf(r.records[log.first..log.past]) == CallsOfTurn(w.turn(t + 1))
    && RanFirst(r.records[log.first..log.past], log.ran) && Clear(w, t + 1, log.ran)
    && Heard(r.records[log.first..log.past])
    && (log.corrected ==> w.turn(t + 1).BadArguments? || AnyMalformed(r.records[log.first..log.past]))
    && Spoke(w.turn(t + 1), r.messages, log.at)
  }

  /** Why a turn may be followed by another: it was corrected, as a malformed call always is, or it learned something new. */
  ghost predicate WorthAnother(records: seq<Record>, log: TurnLog)
    requires log.first <= log.past <= |records|
  {
    && (AnyMalformed(records[log.first..log.past]) ==> log.corrected)
    && (|| log.corrected
        || (log.ran > 0 && exists k :: log.first <= k < log.past && CameBack(records[k]) && !Known(records[..log.first], records[k])))
  }

  function TotalRan(turns: seq<TurnLog>): nat {
    if turns == [] then 0 else TotalRan(turns[..|turns| - 1]) + turns[|turns| - 1].ran
  }

  function TotalCorrected(turns: seq<TurnLog>): nat {
    if turns == [] then 0 else TotalCorrected(turns[..|turns| - 1]) + if turns[|turns| - 1].corrected then 1 else 0
  }

  /** The turns split the records among themselves, in order. */
  ghost predicate Consecutive(records: seq<Record>, turns: seq<TurnLog>) {
    && (if turns == [] then records == [] else turns[0].first == 0 && turns[|turns| - 1].past == |records|)
    && forall t :: 0 <= t < |turns| - 1 ==> turns[t].past == turns[t + 1].first
  }

  /** A run's account of itself, whatever made it stop. */
  ghost predicate Accounted(limits: Limits, w: World, r: Result) {
    && Paired(r.messages)
    && CallsOf(r.records) == Proposed(r.messages)
    && r.dispatched <= limits.maxToolCalls
    && Outcomes(r.records) == Drawn(w, 0, r.dispatched)
    && TotalRan(r.turns) == r.dispatched && TotalCorrected(r.turns) == r.corrections
    && Consecutive(r.records, r.turns)
    && forall t :: 0 <= t < |r.turns| ==> TurnKept(w, r, t, r.turns[t])
  }

  /** Every turn but the last earned the one after it. */
  ghost predicate Earned(r: Result, n: int) {
    forall t :: 0 <= t < n && t < |r.turns| && r.turns[t].first <= r.turns[t].past <= |r.records| ==> WorthAnother(r.records, r.turns[t])
  }

  /** Where the records of the last turn begin. */
  function LastFirst(r: Result): (n: nat)
    ensures n <= |r.records|
  {
    if r.turns == [] || r.turns[|r.turns| - 1].first > |r.records| then 0 else r.turns[|r.turns| - 1].first
  }

  /** What each stop reason says happened. */
  ghost predicate StopMeans(limits: Limits, w: World, r: Result) {
    var last := r.records[LastFirst(r)..];
    match r.stop
    case Completed => (w.turn(r.iterations).Reply? && w.turn(r.iterations).calls == [] && !w.turn(r.iterations).truncated)
                      || (exists k :: AskedAt(last, k))
    case Truncated => w.turn(r.iterations).Reply? && w.turn(r.iterations).calls == [] && w.turn(r.iterations).truncated
    case MaxIterations => r.iterations == limits.maxIterations
    case Stopped => w.cancelled(r.iterations + 1, 0) || (exists k: nat :: From(last, k, Cancelled) && w.cancelled(r.iterations, k + 1))
    case TimedOut => w.late(r.iterations, 0) || (w.turn(r.iterations).Fault? && w.lateAfterFault(r.iterations))
                     || (exists k: nat :: From(last, k, OutOfTime) && w.late(r.iterations, k + 1))
    case ProviderError => w.turn(r.iterations).Fault? && !w.lateAfterFault(r.iterations)
    case InternalError => w.turn(r.iterations).Crash? || (exists k: nat :: CrashedAt(last, k))
    case ToolCallLimit => r.dispatched == limits.maxToolCalls && (exists k: nat :: From(last, k, OverLimit))
    case CorrectionLimit => r.corrections == Allowed(limits) + 1
    case NoProgress => last != [] && (forall k :: 0 <= k < |last| && CameBack(last[k]) ==> Known(r.records[..LastFirst(r)], last[k]))
                       && !AnyMalformed(last)
    case ConfirmRequired => exists k: nat :: ArmedAt(last, k) && w.asks(r.iterations, k + 1)
  }

  function Allowed(limits: Limits): nat {
    if limits.maxCorrections < 0 then 0 else limits.maxCorrections
  }

  ghost predicate NobodyAsks(rs: seq<Record>) {
    forall n :: 0 <= n < |rs| ==> !AsksUser(rs[n])
  }

  /** A question for the user is the last thing that ran, and it completes the run. */
  ghost predicate AskEnds(r: Result) {
    forall n :: 0 <= n < |r.records| && AsksUser(r.records[n]) ==>
      r.stop == Completed && LastFirst(r) <= n && AskedAt(r.records[LastFirst(r)..], n - LastFirst(r))
  }

  /** The loop's state between turns. */
  ghost predicate Going(limits: Limits, w: World, r: Result, seen: set<Exchange>) {
    && Accounted(limits, w, r) && Earned(r, |r.turns|)
    && |r.turns| == r.iterations <= r.dispatched + r.corrections
    && r.corrections <= Allowed(limits)
    && seen == Exchanges(r.records) && NobodyAsks(r.records)
  }

  /** What a run promises, whatever the provider, the tools, the clock and the user do. */
  ghost predicate RunPost(limits: Limits, w: World, r: Result) {
    && Accounted(limits, w, r) && StopMeans(limits, w, r) && AskEnds(r)
    && Earned(r, r.iterations - 1)
    && r.iterations <= limits.maxIterations
    && r.iterations <= limits.maxToolCalls + Allowed(limits) + 1
    && |r.turns| <= r.iterations
  }

  lemma Begins(limits: Limits, w: World)
    ensures Going(limits, w, Result(MaxIterations, [], [System, User], 0, 0, 0, []), {})
  {
    var r := Result(MaxIterations, [], [System, User], 0, 0, 0, []);
    BeginsPaired();
    assert Drawn(w, 0, 0) == [] && CallsOf([]) == [] && Outcomes([]) == [] && Exchanges([]) == {};
    assert TotalRan([]) == 0 && TotalCorrected([]) == 0;
    hide AsksUser, Paired, Proposed, Outcomes, Drawn, CallsOf, Exchanges, TotalRan, TotalCorrected, TurnKept, WorthAnother;
  }

  lemma BeginsPaired()
    ensures Paired([System, User]) && Proposed([System, User]) == []
  {
    var ms := [System, User];
    assert ms[..1] == [System] && [System][..0] == [];
    assert Proposed([System]) == [] && AnswerIds([System]) == [];
    assert Proposed(ms) == [] && AnswerIds(ms) == [];
  }

  lemma {:induction false} TotalsGrow(turns: seq<TurnLog>, log: TurnLog)
    ensures TotalRan(turns + [log]) == TotalRan(turns) + log.ran
    ensures TotalCorrected(turns + [log]) == TotalCorrected(turns) + if log.corrected then 1 else 0
  {
    assert (turns + [log])[..|turns|] == turns;
  }

  /** Later records and messages leave what is said of earlier turns alone. */
  lemma TurnsStay(w: World, r: Result, r': Result)
    requires forall t :: 0 <= t < |r.turns| ==> TurnKept(w, r, t, r.turns[t])
    requires Earned(r, |r.turns|) && r.records <= r'.records && r.messages <= r'.messages && r.turns <= r'.turns
    ensures forall t :: 0 <= t < |r.turns| ==> TurnKept(w, r', t, r.turns[t])
    ensures Earned(r', |r.turns|)
  {
    hide Clear, CallsOf, RanFirst, Known, CameBack, CallsOfTurn, AnyMalformed;
    forall t | 0 <= t < |r.turns| ensures TurnKept(w, r', t, r.turns[t]) && WorthAnother(r'.records, r.turns[t]) {
      var log := r.turns[t];
      assert TurnKept(w, r, t, log);
      assert r'.records[log.first..log.past] == r.records[log.first..log.past];
      assert r'.records[..log.first] == r.records[..log.first];
      assert forall k :: log.first <= k < log.past ==> r'.records[k] == r.records[k];
    }
  }

  lemma ConsecutiveGrows(records: seq<Record>, more: seq<Record>, turns: seq<TurnLog>, log: TurnLog)
    requires Consecutive(records, turns) && log.first == |records| && log.past == |records + more|
    ensures Consecutive(records + more, turns + [log])
  {
  }

  /** What a turn with calls adds to a run. */
  ghost predicate Adds(limits: Limits, w: World, r: Result, more: seq<Record>, log: TurnLog, r': Result) {
    var turn := w.turn(r.iterations + 1);
    && turn.Reply? && turn.calls != [] && CallsOf(more) == turn.calls && Heard(more)
    && (log.corrected ==> AnyMalformed(more))
    && RanFirst(more, log.ran) && Clear(w, r.iterations + 1, log.ran)
    && r.dispatched + log.ran <= limits.maxToolCalls
    && Outcomes(more) == Drawn(w, r.dispatched, r.dispatched + log.ran)
    && log.at == |r.messages| && log.first == |r.records| && log.past == |r.records| + |more|
    && r'.records == r.records + more
    && r'.messages == r.messages + Block(if turn.truncated then None else turn.text, turn.calls)
    && r'.dispatched == r.dispatched + log.ran
    && r'.corrections == r.corrections + (if log.corrected then 1 else 0)
    && r'.iterations == r.iterations + 1 && r'.turns == r.turns + [log]
  }

  /** `Accounted` but for what it says of each turn. */
  ghost predicate Totals(limits: Limits, w: World, r: Result) {
    && Paired(r.messages) && CallsOf(r.records) == Proposed(r.messages)
    && r.dispatched <= limits.maxToolCalls && Outcomes(r.records) == Drawn(w, 0, r.dispatched)
    && TotalRan(r.turns) == r.dispatched && TotalCorrected(r.turns) == r.corrections
    && Consecutive(r.records, r.turns)
  }

  lemma AccountedIs(limits: Limits, w: World, r: Result)
    ensures Accounted(limits, w, r) <==> Totals(limits, w, r) && forall t :: 0 <= t < |r.turns| ==> TurnKept(w, r, t, r.turns[t])
  {
    hide Paired, CallsOf, Proposed, Outcomes, Drawn, TotalRan, TotalCorrected, Consecutive, TurnKept;
  }

  lemma GoingIs(limits: Limits, w: World, r: Result, seen: set<Exchange>)
    requires Going(limits, w, r, seen)
    ensures Totals(limits, w, r) && Earned(r, |r.turns|)
    ensures forall t :: 0 <= t < |r.turns| ==> TurnKept(w, r, t, r.turns[t])
    ensures |r.turns| == r.iterations <= r.dispatched + r.corrections && r.corrections <= Allowed(limits)
    ensures seen == Exchanges(r.records) && NobodyAsks(r.records)
  {
    AccountedIs(limits, w, r);
    hide Accounted, Totals, Earned, TurnKept, Exchanges, Allowed, NobodyAsks;
  }

  lemma TotalsSplit(limits: Limits, w: World, r: Result)
    requires Totals(limits, w, r)
    ensures Paired(r.messages) && CallsOf(r.records) == Proposed(r.messages)
    ensures r.dispatched <= limits.maxToolCalls && Outcomes(r.records) == Drawn(w, 0, r.dispatched)
    ensures TotalRan(r.turns) == r.dispatched && TotalCorrected(r.turns) == r.corrections && Consecutive(r.records, r.turns)
  {
    hide Paired, CallsOf, Proposed, Outcomes, Drawn, TotalRan, TotalCorrected, Consecutive;
  }

  lemma TotalsJoin(limits: Limits, w: World, r: Result)
    requires Paired(r.messages) && CallsOf(r.records) == Proposed(r.messages)
    requires r.dispatched <= limits.maxToolCalls && Outcomes(r.records) == Drawn(w, 0, r.dispatched)
    requires TotalRan(r.turns) == r.dispatched && TotalCorrected(r.turns) == r.corrections && Consecutive(r.records, r.turns)
    ensures Totals(limits, w, r)
  {
    hide Paired, CallsOf, Proposed, Outcomes, Drawn, TotalRan, TotalCorrected, Consecutive;
  }

  lemma CallsOfJoin(a: seq<Record>, b: seq<Record>)
    ensures CallsOf(a + b) == CallsOf(a) + CallsOf(b)
  {
  }

  lemma AddsTotals(limits: Limits, w: World, r: Result, more: seq<Record>, log: TurnLog, r': Result)
    requires Totals(limits, w, r) && Adds(limits, w, r, more, log, r')
    ensures Totals(limits, w, r')
  {
    var turn := w.turn(r.iterations + 1);
    assert r'.corrections == r.corrections + (if log.corrected then 1 else 0);
    var text := if turn.truncated then None else turn.text;
    AddsParts(limits, w, r, more, log, r');
    TotalsSplit(limits, w, r);
    hide *;
    PairedBlock(r.messages, text, turn.calls);
    CallsOfJoin(r.records, more);
    OutcomesJoin(r.records, more);
    DrawnJoin(w, 0, r.dispatched, r'.dispatched);
    TotalsGrow(r.turns, log);
    ConsecutiveGrows(r.records, more, r.turns, log);
    TotalsJoin(limits, w, r');
  }

  lemma AddsParts(limits: Limits, w: World, r: Result, more: seq<Record>, log: TurnLog, r': Result)
    requires Adds(limits, w, r, more, log, r')
    ensures var turn := w.turn(r.iterations + 1);
            && turn.Reply? && turn.calls != [] && CallsOf(more) == turn.calls
            && r'.dispatched == r.dispatched + log.ran <= limits.maxToolCalls
            && Outcomes(more) == Drawn(w, r.dispatched, r'.dispatched)
            && log.at == |r.messages| && log.first == |r.records| && log.past == |r.records + more|
            && r'.records == r.records + more
            && r'.messages == r.messages + Block(if turn.truncated then None else turn.text, turn.calls)
            && r'.iterations == r.iterations + 1 && r'.turns == r.turns + [log]
  {
    hide Clear, RanFirst, CallsOf, Outcomes, Drawn, Block;
  }

  lemma AddsTurn(limits: Limits, w: World, r: Result, more: seq<Record>, log: TurnLog, r': Result)
    requires Adds(limits, w, r, more, log, r')
    ensures TurnKept(w, r', r.iterations, log)
    ensures r.records <= r'.records && r.messages <= r'.messages && r.turns <= r'.turns
    ensures r'.records[log.first..log.past] == more && r'.records[..log.first] == r.records
  {
    assert r'.records[log.first..log.past] == more;
    assert Spoke(w.turn(r.iterations + 1), r'.messages, log.at);
    hide Clear, RanFirst, Outcomes, Drawn, CallsOf;
  }

  lemma TurnAppended(limits: Limits, w: World, r: Result, seen: set<Exchange>, more: seq<Record>, log: TurnLog, r': Result)
    requires Going(limits, w, r, seen) && Adds(limits, w, r, more, log, r')
    ensures Accounted(limits, w, r') && Earned(r', |r.turns|)
  {
    assert r'.turns == r.turns + [log];
    hide *;
    GoingIs(limits, w, r, seen);
    AddsTotals(limits, w, r, more, log, r');
    AddsTurn(limits, w, r, more, log, r');
    TurnsStay(w, r, r');
    TurnsJoin(w, r, r', log);
    AccountedIs(limits, w, r');
  }

  lemma TurnsJoin(w: World, r: Result, r': Result, log: TurnLog)
    requires r'.turns == r.turns + [log] && |r.turns| == r.iterations && TurnKept(w, r', r.iterations, log)
    requires forall t :: 0 <= t < |r.turns| ==> TurnKept(w, r', t, r.turns[t])
    ensures forall t :: 0 <= t < |r'.turns| ==> TurnKept(w, r', t, r'.turns[t])
  {
    hide TurnKept;
  }

  // ---- turns that propose nothing ----------------------------------------------------------------

  /** A turn whose calls were unreadable: a correction, and no records. */
  lemma CorrectionAppended(limits: Limits, w: World, r: Result, seen: set<Exchange>, m: seq<Message>, r': Result)
    requires Going(limits, w, r, seen) && w.turn(r.iterations + 1).BadArguments? && (m == [] || m == [Correction])
    requires r' == Result(r'.stop, r.records, r.messages + m, r.iterations + 1, r.corrections + 1, r.dispatched,
                          r.turns + [TurnLog(|r.messages|, |r.records|, |r.records|, 0, true)])
    ensures Accounted(limits, w, r') && Earned(r', |r'.turns|)
  {
    var log := TurnLog(|r.messages|, |r.records|, |r.records|, 0, true);
    assert r.records + [] == r.records;
    CorrectedTurn(w, r, r', log);
    hide *;
    GoingIs(limits, w, r, seen);
    TotalsSplit(limits, w, r);
    if m != [] { PairedPlain(r.messages, Correction); } else { assert r.messages + m == r.messages; }
    TotalsGrow(r.turns, log);
    ConsecutiveGrows(r.records, [], r.turns, log);
    TotalsJoin(limits, w, r');
    TurnsStay(w, r, r');
    TurnsJoin(w, r, r', log);
    AccountedIs(limits, w, r');
    EarnedJoin(r, r', log);
  }

  lemma CorrectedTurn(w: World, r: Result, r': Result, log: TurnLog)
    requires w.turn(r.iterations + 1).BadArguments? && r'.records == r.records
    requires log == TurnLog(|r.messages|, |r.records|, |r.records|, 0, true)
    ensures TurnKept(w, r', r.iterations, log) && WorthAnother(r'.records, log)
  {
    assert r.records[log.first..log.past] == [];
  }

  lemma EarnedJoin(r: Result, r': Result, log: TurnLog)
    requires Earned(r', |r.turns|) && r'.turns == r.turns + [log]
    requires log.first <= log.past <= |r'.records| && WorthAnother(r'.records, log)
    ensures Earned(r', |r'.turns|)
  {
    hide WorthAnother;
  }

  /** The last words of a completed run. */
  lemma NoteAppended(limits: Limits, w: World, r: Result, seen: set<Exchange>, text: Option<string>, r': Result)
    requires Going(limits, w, r, seen)
    requires r'.records == r.records && r'.messages == r.messages + [Assistant(text, [])] && r'.dispatched == r.dispatched
          && r'.corrections == r.corrections && r'.turns == r.turns
    ensures Accounted(limits, w, r') && Earned(r', |r.turns|)
  {
    assert Block(text, []) == [Assistant(text, [])];
    PairedBlock(r.messages, text, []);
    assert Proposed(r.messages) + [] == Proposed(r.messages);
    TurnsStay(w, r, r');
  }

  /** An ending that adds nothing. */
  lemma EndsAsIs(limits: Limits, w: World, r: Result, seen: set<Exchange>, r': Result)
    requires Going(limits, w, r, seen)
    requires r'.records == r.records && r'.messages == r.messages && r'.dispatched == r.dispatched
          && r'.corrections == r.corrections && r'.turns == r.turns
    ensures Accounted(limits, w, r') && Earned(r', |r.turns|)
  {
    TurnsStay(w, r, r');
    hide Paired, Proposed, Outcomes, Drawn, CallsOf, TotalRan, TotalCorrected, Consecutive, TurnKept;
  }

  // ---- the ways out ------------------------------------------------------------------------------

  /** A stop between turns, or for what the provider call of turn `n + 1` came to. */
  ghost predicate PlainStop(limits: Limits, w: World, n: nat, stop: Stop, iterations: nat) {
    match stop
    case Stopped => iterations == n && w.cancelled(n + 1, 0)
    case TimedOut => iterations == n + 1 && (w.late(n + 1, 0) || (w.turn(n + 1).Fault? && w.lateAfterFault(n + 1)))
    case ProviderError => iterations == n + 1 && w.turn(n + 1).Fault? && !w.lateAfterFault(n + 1)
    case InternalError => iterations == n + 1 && w.turn(n + 1).Crash?
    case Truncated => iterations == n + 1 && w.turn(n + 1).Reply? && w.turn(n + 1).calls == [] && w.turn(n + 1).truncated
    case MaxIterations => iterations == n == limits.maxIterations
    case _ => false
  }

  /** The last clause of `RunPost`: how far a run can get. */
  lemma Bounded(limits: Limits, w: World, r: Result, seen: set<Exchange>, r': Result)
    requires Going(limits, w, r, seen) && r'.iterations <= r.iterations + 1 && r'.iterations <= limits.maxIterations
    requires Accounted(limits, w, r') && Earned(r', |r.turns|) && StopMeans(limits, w, r') && |r'.turns| <= r'.iterations
    requires AskEnds(r')
    ensures RunPost(limits, w, r')
  {
    GoingIs(limits, w, r, seen);
    AtMost(limits, w, r);
    hide Accounted, StopMeans, AskEnds, Going, Totals, TurnKept, WorthAnother, Exchanges;
  }

  lemma AtMost(limits: Limits, w: World, r: Result)
    requires Totals(limits, w, r)
    ensures r.dispatched <= limits.maxToolCalls
  {
    TotalsSplit(limits, w, r);
  }

  lemma NoQuestionEnds(r: Result)
    requires NobodyAsks(r.records)
    ensures AskEnds(r)
  {
    hide AsksUser;
  }

  lemma StopsPlainly(limits: Limits, w: World, r: Result, seen: set<Exchange>, stop: Stop, iterations: nat)
    requires Going(limits, w, r, seen) && iterations <= limits.maxIterations
    requires PlainStop(limits, w, r.iterations, stop, iterations)
    ensures RunPost(limits, w, r.(stop := stop, iterations := iterations))
  {
    var r' := r.(stop := stop, iterations := iterations);
    GoingIs(limits, w, r, seen);
    EndsAsIs(limits, w, r, seen, r');
    NoQuestionEnds(r');
    hide AskEnds, NobodyAsks, Accounted, Earned, Going, Totals, TurnKept, Exchanges, From, CrashedAt, RunPost;
    assert StopMeans(limits, w, r');
    Bounded(limits, w, r, seen, r');
  }

  lemma StopsOnNote(limits: Limits, w: World, r: Result, seen: set<Exchange>, text: Option<string>)
    requires Going(limits, w, r, seen) && r.iterations < limits.maxIterations
    requires var turn := w.turn(r.iterations + 1); turn.Reply? && turn.calls == [] && !turn.truncated && turn.text == text
    ensures RunPost(limits, w, Result(Completed, r.records, r.messages + [Assistant(text, [])], r.iterations + 1, r.corrections, r.dispatched, r.turns))
  {
    var r' := Result(Completed, r.records, r.messages + [Assistant(text, [])], r.iterations + 1, r.corrections, r.dispatched, r.turns);
    GoingIs(limits, w, r, seen);
    NoteAppended(limits, w, r, seen, text, r');
    NoQuestionEnds(r');
    hide AskEnds, NobodyAsks, Accounted, Earned, Going, Totals, TurnKept, Exchanges, AskedAt, RunPost;
    assert StopMeans(limits, w, r');
    Bounded(limits, w, r, seen, r');
  }

  /** The state after an unreadable turn. */
  function Corrected(r: Result, m: seq<Message>, stop: Stop): Result {
    Result(stop, r.records, r.messages + m, r.iterations + 1, r.corrections + 1, r.dispatched,
           r.turns + [TurnLog(|r.messages|, |r.records|, |r.records|, 0, true)])
  }

  lemma StopsOnCorrection(limits: Limits, w: World, r: Result, seen: set<Exchange>)
    requires Going(limits, w, r, seen) && r.iterations < limits.maxIterations && w.turn(r.iterations + 1).BadArguments?
    requires r.corrections + 1 > limits.maxCorrections
    ensures RunPost(limits, w, Corrected(r, [], CorrectionLimit))
  {
    var r' := Corrected(r, [], CorrectionLimit);
    assert r'.iterations == r.iterations + 1 && |r'.turns| == |r.turns| + 1;
    assert Allowed(limits) == r.corrections ==> r'.corrections == Allowed(limits) + 1;
    GoingIs(limits, w, r, seen);
    assert Allowed(limits) == r.corrections;
    CorrectionStop(limits, w, r');
    assert r' == Result(r'.stop, r.records, r.messages + [], r.iterations + 1, r.corrections + 1, r.dispatched,
                        r.turns + [TurnLog(|r.messages|, |r.records|, |r.records|, 0, true)]);
    hide *;
    CorrectionAppended(limits, w, r, seen, [], r');
    EarnedLess(r', |r.turns|);
    NoQuestionEnds(r');
    Bounded(limits, w, r, seen, r');
  }

  lemma CorrectionStop(limits: Limits, w: World, r: Result)
    requires r.stop == CorrectionLimit && r.corrections == Allowed(limits) + 1
    ensures StopMeans(limits, w, r)
  {
    hide Allowed;
  }

  lemma EarnedLess(r: Result, n: nat)
    requires Earned(r, |r.turns|) && n <= |r.turns|
    ensures Earned(r, n)
  {
    hide WorthAnother;
  }

  lemma GoesOnCorrected(limits: Limits, w: World, r: Result, seen: set<Exchange>)
    requires Going(limits, w, r, seen) && w.turn(r.iterations + 1).BadArguments?
    requires r.corrections + 1 <= limits.maxCorrections
    ensures Going(limits, w, Corrected(r, [Correction], r.stop), seen)
  {
    GoingIs(limits, w, r, seen);
    CorrectionAppended(limits, w, r, seen, [Correction], Corrected(r, [Correction], r.stop));
    hide NobodyAsks, Accounted, Earned, Totals, TurnKept, Exchanges;
  }

  /** The state after a turn with calls. */
  function AfterTurn(r: Result, records: seq<Record>, messages: seq<Message>, dispatched: nat, corrected: bool, stop: Stop): Result
    requires r.dispatched <= dispatched
  {
    Result(stop, records, messages, r.iterations + 1, r.corrections + (if corrected then 1 else 0), dispatched,
           r.turns + [TurnLog(|r.messages|, |r.records|, |records|, dispatched - r.dispatched, corrected)])
  }

  /** What the walk over turn `r.iterations + 1` left. */
  ghost predicate Turned(limits: Limits, w: World, r: Result, seen: set<Exchange>, exit: CallExit, dispatched: nat, seen': set<Exchange>,
                         records: seq<Record>, messages: seq<Message>, schemaError: bool, progressed: bool) {
    var turn := w.turn(r.iterations + 1);
    && turn.Reply? && turn.calls != []
    && WalkPost(limits, w, r.iterations + 1, turn.calls, r.dispatched, seen, r.records,
                r.messages + [Assistant(if turn.truncated then None else turn.text, turn.calls)],
                exit, dispatched, seen', records, messages, schemaError, progressed)
  }

  /** A walk's promise, unpacked. */
  lemma WalkPostIs(limits: Limits, w: World, i: nat, calls: seq<Call>, dispatched: nat, seen: set<Exchange>,
                   records: seq<Record>, messages: seq<Message>, exit: CallExit, dispatched': nat, seen': set<Exchange>,
                   records': seq<Record>, messages': seq<Message>, schemaError: bool, progressed: bool)
    returns (more: seq<Record>)
    requires WalkPost(limits, w, i, calls, dispatched, seen, records, messages, exit, dispatched', seen', records', messages', schemaError, progressed)
    ensures records' == records + more && messages' == messages + Answers(calls)
    ensures CallsOf(more) == calls && dispatched <= dispatched' <= limits.maxToolCalls
    ensures Outcomes(more) == Drawn(w, dispatched, dispatched')
    ensures Clear(w, i, dispatched' - dispatched) && RanFirst(more, dispatched' - dispatched)
    ensures ExitMeans(limits, w, i, more, dispatched, dispatched', exit) && AskStops(more, exit)
    ensures seen' == seen + Exchanges(more) && (progressed <==> !(Exchanges(more) <= seen))
    ensures schemaError <==> exists k :: 0 <= k < |more| && Malformed(more[k])
  {
    more := records'[|records|..];
    hide Answers, CallsOf, Outcomes, Drawn, Exchanges, Malformed, ExitMeans, Clear, RanFirst, AskStops;
    assert records' == records + more;
  }

  lemma TurnedIs(limits: Limits, w: World, r: Result, seen: set<Exchange>, exit: CallExit, dispatched: nat, seen': set<Exchange>,
                 records: seq<Record>, messages: seq<Message>, schemaError: bool, progressed: bool, corrected: bool, stop: Stop)
    returns (more: seq<Record>)
    requires Turned(limits, w, r, seen, exit, dispatched, seen', records, messages, schemaError, progressed)
    requires corrected ==> schemaError
    ensures records == r.records + more && r.dispatched <= dispatched
    ensures var log := TurnLog(|r.messages|, |r.records|, |records|, dispatched - r.dispatched, corrected);
            Adds(limits, w, r, more, log, AfterTurn(r, records, messages, dispatched, corrected, stop))
    ensures ExitMeans(limits, w, r.iterations + 1, more, r.dispatched, dispatched, exit) && AskStops(more, exit)
    ensures seen' == seen + Exchanges(more) && (progressed <==> !(Exchanges(more) <= seen))
    ensures schemaError <==> exists k :: 0 <= k < |more| && Malformed(more[k])
  {
    var turn := w.turn(r.iterations + 1);
    var text := if turn.truncated then None else turn.text;
    TurnedSplit(limits, w, r, seen, exit, dispatched, seen', records, messages, schemaError, progressed);
    hide *;
    more := WalkPostIs(limits, w, r.iterations + 1, turn.calls, r.dispatched, seen, r.records,
                       r.messages + [Assistant(text, turn.calls)], exit, dispatched, seen', records, messages, schemaError, progressed);
    AskHeard(more, exit);
    MalformedThere(more, schemaError);
    AddsJoin(limits, w, r, more, records, messages, dispatched, corrected, stop);
  }

  lemma MalformedThere(rs: seq<Record>, schemaError: bool)
    requires schemaError <==> exists k :: 0 <= k < |rs| && Malformed(rs[k])
    ensures schemaError <==> AnyMalformed(rs)
  {
    if AnyMalformed(rs) {
      var k :| 0 <= k < |rs| && rs[k].fate.Ran? && rs[k].fate.outcome.Refused? && rs[k].fate.outcome.schemaError;
      assert Malformed(rs[k]);
    }
  }

  lemma AskHeard(rs: seq<Record>, exit: CallExit)
    requires AskStops(rs, exit)
    ensures Heard(rs)
  {
    hide Heard;
  }

  lemma TurnedSplit(limits: Limits, w: World, r: Result, seen: set<Exchange>, exit: CallExit, dispatched: nat, seen': set<Exchange>,
                    records: seq<Record>, messages: seq<Message>, schemaError: bool, progressed: bool)
    requires Turned(limits, w, r, seen, exit, dispatched, seen', records, messages, schemaError, progressed)
    ensures var turn := w.turn(r.iterations + 1);
            && turn.Reply? && turn.calls != []
            && WalkPost(limits, w, r.iterations + 1, turn.calls, r.dispatched, seen, r.records,
                        r.messages + [Assistant(if turn.truncated then None else turn.text, turn.calls)],
                        exit, dispatched, seen', records, messages, schemaError, progressed)
  {
    hide WalkPost;
  }

  lemma AddsJoin(limits: Limits, w: World, r: Result, more: seq<Record>, records: seq<Record>, messages: seq<Message>,
                 dispatched: nat, corrected: bool, stop: Stop)
    requires var turn := w.turn(r.iterations + 1);
             && turn.Reply? && turn.calls != [] && CallsOf(more) == turn.calls && Heard(more)
             && messages == r.messages + [Assistant(if turn.truncated then None else turn.text, turn.calls)] + Answers(turn.calls)
    requires records == r.records + more && r.dispatched <= dispatched <= limits.maxToolCalls
    requires Outcomes(more) == Drawn(w, r.dispatched, dispatched)
    requires Clear(w, r.iterations + 1, dispatched - r.dispatched) && RanFirst(more, dispatched - r.dispatched)
    requires corrected ==> AnyMalformed(more)
    ensures Adds(limits, w, r, more, TurnLog(|r.messages|, |r.records|, |records|, dispatched - r.dispatched, corrected),
                 AfterTurn(r, records, messages, dispatched, corrected, stop))
  {
    var turn := w.turn(r.iterations + 1);
    var text := if turn.truncated then None else turn.text;
    hide Answers, CallsOf, Outcomes, Drawn, Clear, RanFirst, Heard, AnyMalformed;
    assert messages == r.messages + Block(text, turn.calls);
  }

  /** Where a turn with calls ends the run: what its walk's exit, or its lack of progress, says. */
  ghost predicate TurnStop(limits: Limits, r': Result, exit: CallExit, schemaError: bool, progressed: bool) {
    match exit
    case Ends(stop) => r'.stop == stop
    case OverCap => r'.stop == ToolCallLimit
    case Question => r'.stop == Completed
    case Through =>
      if schemaError then r'.stop == CorrectionLimit && r'.corrections == Allowed(limits) + 1
      else !progressed && r'.stop == NoProgress
  }

  lemma TurnStopMeans(limits: Limits, w: World, r: Result, more: seq<Record>, log: TurnLog, r': Result, exit: CallExit, schemaError: bool, progressed: bool)
    requires Adds(limits, w, r, more, log, r') && TurnStop(limits, r', exit, schemaError, progressed)
    requires ExitMeans(limits, w, r.iterations + 1, more, r.dispatched, r'.dispatched, exit)
    requires (progressed <==> !(Exchanges(more) <= Exchanges(r.records)))
    requires schemaError <==> exists k :: 0 <= k < |more| && Malformed(more[k])
    ensures StopMeans(limits, w, r')
  {
    AddsTurn(limits, w, r, more, log, r');
    assert r'.turns[|r'.turns| - 1] == log && r'.iterations == r.iterations + 1 && LastFirst(r') == log.first;
    assert r'.records[LastFirst(r')..] == more;
    assert r'.records[..LastFirst(r')] == r.records;
    KnownAll(more, r.records);
    MalformedThere(more, schemaError);
    hide CameBack, Known, Adds, From, ArmedAt, AskedAt, CrashedAt, Exchanges, Malformed, AnyMalformed, Allowed, TurnKept, LastFirst;
  }

  lemma TurnAsks(limits: Limits, w: World, r: Result, more: seq<Record>, log: TurnLog, r': Result, exit: CallExit, schemaError: bool, progressed: bool)
    requires NobodyAsks(r.records) && Adds(limits, w, r, more, log, r') && AskStops(more, exit)
    requires ExitMeans(limits, w, r.iterations + 1, more, r.dispatched, r'.dispatched, exit)
    requires TurnStop(limits, r', exit, schemaError, progressed)
    ensures AskEnds(r')
  {
    LastIsMore(limits, w, r, more, log, r');
    QuestionAsked(limits, w, r.iterations + 1, more, r.dispatched, r'.dispatched, exit);
    QuestionCompletes(limits, r', exit, schemaError, progressed);
    hide *;
    OnlyLastAsks(r.records, more, r', r'.dispatched - r.dispatched - 1, exit);
  }

  lemma QuestionAsked(limits: Limits, w: World, i: nat, rs: seq<Record>, dispatched: nat, dispatched': nat, exit: CallExit)
    requires ExitMeans(limits, w, i, rs, dispatched, dispatched', exit)
    ensures exit == Question ==> AskedAt(rs, dispatched' - dispatched - 1)
  {
    hide AskedAt, From, ArmedAt, CrashedAt;
  }

  lemma QuestionCompletes(limits: Limits, r: Result, exit: CallExit, schemaError: bool, progressed: bool)
    requires TurnStop(limits, r, exit, schemaError, progressed)
    ensures exit == Question ==> r.stop == Completed
  {
    hide Allowed;
  }

  lemma OnlyLastAsks(a: seq<Record>, more: seq<Record>, r: Result, at: int, exit: CallExit)
    requires NobodyAsks(a) && AskStops(more, exit) && r.records == a + more
    requires LastFirst(r) == |a| && r.records[LastFirst(r)..] == more
    requires exit == Question ==> r.stop == Completed && AskedAt(more, at)
    ensures AskEnds(r)
  {
    hide LastFirst, AsksUser, AskedAt, Heard, NobodyAsks;
    forall n | 0 <= n < |r.records| && AsksUser(r.records[n])
      ensures r.stop == Completed && LastFirst(r) <= n && AskedAt(r.records[LastFirst(r)..], n - LastFirst(r))
    {
      NotBefore(a, more, n);
      var k := n - |a|;
      assert r.records[n] == more[k];
      OnlyOneAsks(more, at, k);
    }
  }

  lemma NotBefore(a: seq<Record>, b: seq<Record>, n: nat)
    requires NobodyAsks(a) && n < |a + b| && AsksUser((a + b)[n])
    ensures |a| <= n
  {
    hide AsksUser;
  }

  lemma OnlyOneAsks(rs: seq<Record>, at: int, k: nat)
    requires AskedAt(rs, at) && Heard(rs) && k < |rs| && AsksUser(rs[k])
    ensures k == at
  {
    assert Landed(rs[at]);
  }

  lemma LastIsMore(limits: Limits, w: World, r: Result, more: seq<Record>, log: TurnLog, r': Result)
    requires Adds(limits, w, r, more, log, r')
    ensures LastFirst(r') == |r.records| && r'.records[LastFirst(r')..] == more && r'.records == r.records + more
  {
    AddsParts(limits, w, r, more, log, r');
    hide Adds;
    assert r'.turns[|r'.turns| - 1] == log;
  }

  lemma StopsInTurn(limits: Limits, w: World, r: Result, seen: set<Exchange>, exit: CallExit, dispatched: nat, seen': set<Exchange>,
                    records: seq<Record>, messages: seq<Message>, schemaError: bool, progressed: bool, stop: Stop)
    requires Going(limits, w, r, seen) && r.iterations < limits.maxIterations
    requires Turned(limits, w, r, seen, exit, dispatched, seen', records, messages, schemaError, progressed)
    requires r.dispatched <= dispatched
    requires stop == CorrectionLimit ==> schemaError
    requires TurnStop(limits, AfterTurn(r, records, messages, dispatched, stop == CorrectionLimit, stop), exit, schemaError, progressed)
    ensures RunPost(limits, w, AfterTurn(r, records, messages, dispatched, stop == CorrectionLimit, stop))
  {
    hide Going, Turned, TurnStop, RunPost;
    var corrected := stop == CorrectionLimit;
    var r' := AfterTurn(r, records, messages, dispatched, corrected, stop);
    var log := TurnLog(|r.messages|, |r.records|, |records|, dispatched - r.dispatched, corrected);
    assert r'.turns == r.turns + [log] && r'.iterations == r.iterations + 1 && r'.dispatched == dispatched;
    hide *;
    GoingIs(limits, w, r, seen);
    var more := TurnedIs(limits, w, r, seen, exit, dispatched, seen', records, messages, schemaError, progressed, corrected, stop);
    TurnStopMeans(limits, w, r, more, log, r', exit, schemaError, progressed);
    TurnAppended(limits, w, r, seen, more, log, r');
    TurnAsks(limits, w, r, more, log, r', exit, schemaError, progressed);
    Bounded(limits, w, r, seen, r');
  }

  lemma GoesOnAfterTurn(limits: Limits, w: World, r: Result, seen: set<Exchange>, dispatched: nat, seen': set<Exchange>,
                        records: seq<Record>, messages: seq<Message>, schemaError: bool, progressed: bool)
    requires Going(limits, w, r, seen) && r.dispatched <= dispatched
    requires Turned(limits, w, r, seen, Through, dispatched, seen', records, messages, schemaError, progressed)
    requires if schemaError then r.corrections + 1 <= limits.maxCorrections else progressed
    ensures Going(limits, w, AfterTurn(r, records, messages, dispatched, schemaError, r.stop), seen')
  {
    var r' := AfterTurn(r, records, messages, dispatched, schemaError, r.stop);
    var log := TurnLog(|r.messages|, |r.records|, |records|, dispatched - r.dispatched, schemaError);
    assert r'.dispatched == dispatched;
    hide *;
    GoingIs(limits, w, r, seen);
    var more := TurnedIs(limits, w, r, seen, Through, dispatched, seen', records, messages, schemaError, progressed, schemaError, r.stop);
    ThroughRan(limits, w, r.iterations + 1, more, r.dispatched, dispatched);
    MalformedThere(more, schemaError);
    GoesOnWith(limits, w, r, seen, more, log, r', progressed);
  }

  lemma GoesOnWith(limits: Limits, w: World, r: Result, seen: set<Exchange>, more: seq<Record>, log: TurnLog, r': Result, progressed: bool)
    requires Going(limits, w, r, seen) && Adds(limits, w, r, more, log, r') && log.ran > 0
    requires progressed ==> !(Exchanges(more) <= seen)
    requires if log.corrected then r.corrections + 1 <= limits.maxCorrections else progressed
    requires AskStops(more, Through) && (AnyMalformed(more) ==> log.corrected)
    ensures Going(limits, w, r', seen + Exchanges(more))
  {
    assert r'.turns == r.turns + [log] && r'.iterations == r.iterations + 1 && r'.records == r.records + more;
    assert r'.dispatched == r.dispatched + log.ran && r'.corrections == r.corrections + if log.corrected then 1 else 0;
    assert r.corrections + 1 <= limits.maxCorrections ==> r.corrections + 1 <= Allowed(limits);
    hide *;
    GoingIs(limits, w, r, seen);
    TurnAppended(limits, w, r, seen, more, log, r');
    AddsTurn(limits, w, r, more, log, r');
    LogFits(limits, w, r, more, log, r');
    Worth(r, r', more, log, progressed);
    EarnedJoin(r, r', log);
    ExchangesJoin(r.records, more);
    StillNobodyAsks(r.records, more, Through);
    GoingJoin(limits, w, r', seen + Exchanges(more));
  }

  lemma StillNobodyAsks(a: seq<Record>, b: seq<Record>, exit: CallExit)
    requires NobodyAsks(a) && AskStops(b, exit) && exit != Question
    ensures NobodyAsks(a + b)
  {
    hide AsksUser, Heard;
  }

  lemma LogFits(limits: Limits, w: World, r: Result, more: seq<Record>, log: TurnLog, r': Result)
    requires Adds(limits, w, r, more, log, r')
    ensures log.first <= log.past <= |r'.records|
  {
    AddsParts(limits, w, r, more, log, r');
    hide *;
  }

  lemma ThroughRan(limits: Limits, w: World, i: nat, more: seq<Record>, dispatched: nat, dispatched': nat)
    requires ExitMeans(limits, w, i, more, dispatched, dispatched', Through)
    ensures dispatched' > dispatched
  {
  }

  lemma Worth(r: Result, r': Result, more: seq<Record>, log: TurnLog, progressed: bool)
    requires log.first <= log.past <= |r'.records| && r'.records[log.first..log.past] == more && r'.records[..log.first] == r.records
    requires progressed ==> !(Exchanges(more) <= Exchanges(r.records))
    requires log.corrected || (progressed && log.ran > 0)
    requires AnyMalformed(more) ==> log.corrected
    ensures WorthAnother(r'.records, log)
  {
    KnownAll(more, r.records);
    hide Exchanges, Known, CameBack, AnyMalformed;
    if !log.corrected {
      var k :| 0 <= k < |more| && CameBack(more[k]) && !Known(r.records, more[k]);
      assert r'.records[log.first + k] == more[k];
    }
  }

  lemma ExchangesJoin(a: seq<Record>, b: seq<Record>)
    ensures Exchanges(a + b) == Exchanges(a) + Exchanges(b)
  {
    assert forall r :: r in a + b <==> r in a || r in b;
  }

  lemma GoingJoin(limits: Limits, w: World, r: Result, seen: set<Exchange>)
    requires Accounted(limits, w, r) && Earned(r, |r.turns|) && |r.turns| == r.iterations <= r.dispatched + r.corrections
    requires r.corrections <= Allowed(limits) && seen == Exchanges(r.records) && NobodyAsks(r.records)
    ensures Going(limits, w, r, seen)
  {
    hide Accounted, Earned, Exchanges, Allowed, NobodyAsks;
  }

  // ---- the loop ----------------------------------------------------------------------------------

  /** How a walk ends its run: by its own exit, by one correction too many, or for want of anything new. */
  function Verdict(exit: CallExit, schemaError: bool): Stop {
    match exit
    case Ends(stop) => stop
    case Question => Completed
    case OverCap => ToolCallLimit
    case Through => if schemaError then CorrectionLimit else NoProgress
  }

  lemma Judged(limits: Limits, w: World, r: Result, seen: set<Exchange>, exit: CallExit, dispatched: nat, seen': set<Exchange>,
               records: seq<Record>, messages: seq<Message>, schemaError: bool, progressed: bool)
    requires Going(limits, w, r, seen) && r.iterations < limits.maxIterations && exit != Ends(CorrectionLimit)
    requires Turned(limits, w, r, seen, exit, dispatched, seen', records, messages, schemaError, progressed) && r.dispatched <= dispatched
    ensures !exit.Through? ==> RunPost(limits, w, AfterTurn(r, records, messages, dispatched, false, Verdict(exit, schemaError)))
    ensures exit.Through? && schemaError && r.corrections + 1 > limits.maxCorrections ==>
              RunPost(limits, w, AfterTurn(r, records, messages, dispatched, true, CorrectionLimit))
    ensures exit.Through? && !schemaError && !progressed ==>
              RunPost(limits, w, AfterTurn(r, records, messages, dispatched, false, NoProgress))
    ensures exit.Through? && (if schemaError then r.corrections + 1 <= limits.maxCorrections else progressed) ==>
              Going(limits, w, AfterTurn(r, records, messages, dispatched, schemaError, r.stop), seen')
  {
    hide Going, Turned, RunPost, AfterTurn;
    if exit.Through? && (if schemaError then r.corrections + 1 <= limits.maxCorrections else progressed) {
      GoesOnAfterTurn(limits, w, r, seen, dispatched, seen', records, messages, schemaError, progressed);
    } else {
      StopsHere(limits, w, r, seen, exit, dispatched, seen', records, messages, schemaError, progressed);
    }
  }

  lemma StopsHere(limits: Limits, w: World, r: Result, seen: set<Exchange>, exit: CallExit, dispatched: nat, seen': set<Exchange>,
                  records: seq<Record>, messages: seq<Message>, schemaError: bool, progressed: bool)
    requires Going(limits, w, r, seen) && r.iterations < limits.maxIterations && exit != Ends(CorrectionLimit)
    requires Turned(limits, w, r, seen, exit, dispatched, seen', records, messages, schemaError, progressed) && r.dispatched <= dispatched
    requires !exit.Through? || (schemaError && r.corrections + 1 > limits.maxCorrections) || (!schemaError && !progressed)
    ensures RunPost(limits, w, AfterTurn(r, records, messages, dispatched, exit.Through? && schemaError, Verdict(exit, schemaError)))
  {
    GoingIs(limits, w, r, seen);
    hide Going, Turned, RunPost, Totals, Earned, TurnKept, Exchanges;
    var stop := Verdict(exit, schemaError);
    assert stop == CorrectionLimit <==> exit.Through? && schemaError;
    StopsInTurn(limits, w, r, seen, exit, dispatched, seen', records, messages, schemaError, progressed, stop);
  }

  lemma PlainStops(limits: Limits, w: World, n: nat)
    ensures w.cancelled(n + 1, 0) ==> PlainStop(limits, w, n, Stopped, n)
    ensures w.late(n + 1, 0) ==> PlainStop(limits, w, n, TimedOut, n + 1)
    ensures w.turn(n + 1).Crash? ==> PlainStop(limits, w, n, InternalError, n + 1)
    ensures w.turn(n + 1).Fault? ==> PlainStop(limits, w, n, if w.lateAfterFault(n + 1) then TimedOut else ProviderError, n + 1)
    ensures n == limits.maxIterations ==> PlainStop(limits, w, n, MaxIterations, n)
  {
  }

  /** `AgentLoop._run`: the turn loop. The run so far is a `Result` whose stop reason is not yet decided. */
  method Run(limits: Limits, w: World) returns (r: Result)
    requires limits.Valid()
    ensures RunPost(limits, w, r)
  {
    r := Result(MaxIterations, [], [System, User], 0, 0, 0, []);
    var seen: set<Exchange> := {};
    Begins(limits, w);
    hide *;
    for iteration := 1 to limits.maxIterations + 1
      invariant Going(limits, w, r, seen)
      invariant r.iterations == iteration - 1 && r.stop == MaxIterations
    {
      PlainStops(limits, w, r.iterations);
      if w.cancelled(iteration, 0) {
        StopsPlainly(limits, w, r, seen, Stopped, r.iterations);
        return r.(stop := Stopped, iterations := r.iterations);
      }
      if w.late(iteration, 0) {
        StopsPlainly(limits, w, r, seen, TimedOut, iteration);
        return r.(stop := TimedOut, iterations := iteration);
      }
      var turn := w.turn(iteration);
      if turn.Fault? || turn.Crash? {
        var stop := if turn.Crash? then InternalError else if w.lateAfterFault(iteration) then TimedOut else ProviderError;
        StopsPlainly(limits, w, r, seen, stop, iteration);
        return r.(stop := stop, iterations := iteration);
      }
      if turn.Reply? && turn.calls == [] {
        r := SayNothingMore(limits, w, r, seen, turn);
        return;
      }
      var ended;
      ended, r, seen := TakeTurn(limits, w, r, seen, turn);
      if ended { return; }
    }
    PlainStops(limits, w, r.iterations);
    StopsPlainly(limits, w, r, seen, MaxIterations, r.iterations);
    r := r.(stop := MaxIterations, iterations := r.iterations);
  }

  /** A turn without calls ends the planner: a note, or a fragment the cap cut off. */
  method SayNothingMore(limits: Limits, w: World, r: Result, seen: set<Exchange>, turn: Turn) returns (r': Result)
    requires Going(limits, w, r, seen) && r.iterations < limits.maxIterations && r.stop == MaxIterations
    requires turn == w.turn(r.iterations + 1) && turn.Reply? && turn.calls == []
    ensures RunPost(limits, w, r')
  {
    hide Going, RunPost;
    if turn.truncated {
      StopsPlainly(limits, w, r, seen, Truncated, r.iterations + 1);
      return r.(stop := Truncated, iterations := r.iterations + 1);
    }
    StopsOnNote(limits, w, r, seen, turn.text);
    return Result(Completed, r.records, r.messages + [Assistant(turn.text, [])], r.iterations + 1, r.corrections, r.dispatched, r.turns);
  }

  /** A turn that proposed something: correct it, or walk its calls and judge what came back. */
  method TakeTurn(limits: Limits, w: World, r: Result, seen: set<Exchange>, turn: Turn)
    returns (ended: bool, r': Result, seen': set<Exchange>)
    requires Going(limits, w, r, seen) && r.iterations < limits.maxIterations && r.stop == MaxIterations
    requires turn == w.turn(r.iterations + 1) && (turn.BadArguments? || (turn.Reply? && turn.calls != []))
    ensures ended ==> RunPost(limits, w, r')
    ensures !ended ==> Going(limits, w, r', seen') && r'.iterations == r.iterations + 1 && r'.stop == MaxIterations
  {
    Fields(r);
    hide *;
    AtMostNow(limits, w, r, seen);
    if turn.BadArguments? {
      seen' := seen;
      ended := r.corrections + 1 > limits.maxCorrections;
      if ended {
        StopsOnCorrection(limits, w, r, seen);
        r' := Corrected(r, [], CorrectionLimit);
      } else {
        GoesOnCorrected(limits, w, r, seen);
        r' := Corrected(r, [Correction], r.stop);
      }
      return;
    }
    var exit, ran, records, messages, schemaError, progressed;
    exit, ran, seen', records, messages, schemaError, progressed :=
      WalkCalls(limits, w, r.iterations + 1, turn.calls, r.dispatched, seen, r.records,
                r.messages + [Assistant(if turn.truncated then None else turn.text, turn.calls)]);
    TurnedNow(limits, w, r, seen, exit, ran, seen', records, messages, schemaError, progressed);
    Judged(limits, w, r, seen, exit, ran, seen', records, messages, schemaError, progressed);
    if !exit.Through? {
      return true, AfterTurn(r, records, messages, ran, false, Verdict(exit, schemaError)), seen';
    }
    if schemaError && r.corrections + 1 > limits.maxCorrections {
      return true, AfterTurn(r, records, messages, ran, true, CorrectionLimit), seen';
    }
    if !schemaError && !progressed {
      return true, AfterTurn(r, records, messages, ran, false, NoProgress), seen';
    }
    return false, AfterTurn(r, records, messages, ran, schemaError, r.stop), seen';
  }

  lemma Fields(r: Result)
    ensures forall records, messages, dispatched, corrected, stop :: r.dispatched <= dispatched ==>
              AfterTurn(r, records, messages, dispatched, corrected, stop).iterations == r.iterations + 1
              && AfterTurn(r, records, messages, dispatched, corrected, stop).stop == stop
    ensures forall m, stop :: Corrected(r, m, stop).iterations == r.iterations + 1 && Corrected(r, m, stop).stop == stop
  {
  }

  lemma TurnedNow(limits: Limits, w: World, r: Result, seen: set<Exchange>, exit: CallExit, dispatched: nat, seen': set<Exchange>,
                  records: seq<Record>, messages: seq<Message>, schemaError: bool, progressed: bool)
    requires var turn := w.turn(r.iterations + 1);
             && turn.Reply? && turn.calls != []
             && WalkPost(limits, w, r.iterations + 1, turn.calls, r.dispatched, seen, r.records,
                         r.messages + [Assistant(if turn.truncated then None else turn.text, turn.calls)],
                         exit, dispatched, seen', records, messages, schemaError, progressed)
    ensures Turned(limits, w, r, seen, exit, dispatched, seen', records, messages, schemaError, progressed)
    ensures r.dispatched <= dispatched && exit != Ends(CorrectionLimit)
  {
    var turn := w.turn(r.iterations + 1);
    hide WalkPost;
    var more := WalkPostIs(limits, w, r.iterations + 1, turn.calls, r.dispatched, seen, r.records,
                           r.messages + [Assistant(if turn.truncated then None else turn.text, turn.calls)],
                           exit, dispatched, seen', records, messages, schemaError, progressed);
    NoSuchEnd(limits, w, r.iterations + 1, more, r.dispatched, dispatched, exit);
  }

  lemma NoSuchEnd(limits: Limits, w: World, i: nat, more: seq<Record>, dispatched: nat, dispatched': nat, exit: CallExit)
    requires ExitMeans(limits, w, i, more, dispatched, dispatched', exit)
    ensures exit != Ends(CorrectionLimit)
  {
    hide From, ArmedAt, CrashedAt, AskedAt;
  }

  lemma AtMostNow(limits: Limits, w: World, r: Result, seen: set<Exchange>)
    requires Going(limits, w, r, seen)
    ensures r.dispatched <= limits.maxToolCalls
  {
    GoingIs(limits, w, r, seen);
    AtMost(limits, w, r);
  }

  /** The `n`-th call of the transcript has the `n`-th record and the `n`-th answer, and nothing has another. */
  lemma EachCallOnce(limits: Limits, w: World, r: Result, n: nat)
    requires RunPost(limits, w, r) && n < |Proposed(r.messages)|
    ensures |r.records| == |AnswerIds(r.messages)| == |Proposed(r.messages)|
    ensures r.records[n].call == Proposed(r.messages)[n]
    ensures AnswerIds(r.messages)[n] == Proposed(r.messages)[n].id
  {
    RunTotals(limits, w, r);
    assert |CallsOf(r.records)| == |r.records| && CallsOf(r.records)[n] == r.records[n].call;
  }

  lemma RunTotals(limits: Limits, w: World, r: Result)
    requires RunPost(limits, w, r)
    ensures Paired(r.messages) && CallsOf(r.records) == Proposed(r.messages)
  {
    hide Paired, CallsOf, Proposed, Outcomes, Drawn, TotalRan, TotalCorrected, Consecutive, TurnKept, StopMeans, Earned;
  }

  /** No call starts after a Stop, past the deadline, or past the gate: what a record says ran was clear to run. */
  lemma NothingStartsLate(limits: Limits, w: World, r: Result, t: nat, n: nat)
    requires RunPost(limits, w, r) && t < |r.turns| && r.turns[t].first <= n < r.turns[t].past && n < |r.records|
    requires r.records[n].fate.Ran?
    ensures ClearAt(w, t + 1, n - r.turns[t].first)
  {
    RunTurn(limits, w, r, t);
    hide *;
    RanClear(w, r, t, r.turns[t], n);
  }

  lemma RanClear(w: World, r: Result, t: nat, log: TurnLog, n: nat)
    requires TurnKept(w, r, t, log) && log.first <= n < log.past && n < |r.records| && r.records[n].fate.Ran?
    ensures ClearAt(w, t + 1, n - log.first)
  {
    hide CallsOf, CallsOfTurn, Spoke, ClearAt;
    assert r.records[log.first..log.past][n - log.first] == r.records[n];
  }

  lemma RunTurn(limits: Limits, w: World, r: Result, t: nat)
    requires RunPost(limits, w, r) && t < |r.turns|
    ensures TurnKept(w, r, t, r.turns[t])
  {
    hide Paired, CallsOf, Proposed, Outcomes, Drawn, TotalRan, TotalCorrected, Consecutive, TurnKept, StopMeans, Earned;
  }

  /** A run completes on a question exactly when a landed one named candidates, wherever in the records it stands. */
  lemma QuestionEndsRun(limits: Limits, w: World, r: Result)
    requires RunPost(limits, w, r)
    ensures (exists n :: 0 <= n < |r.records| && AsksUser(r.records[n]))
            <==> r.stop == Completed && exists k :: AskedAt(r.records[LastFirst(r)..], k)
  {
    RunAsks(limits, w, r);
    hide RunPost, LastFirst;
    if k :| AskedAt(r.records[LastFirst(r)..], k) {
      assert r.records[LastFirst(r) + k] == r.records[LastFirst(r)..][k];
    }
  }

  lemma RunAsks(limits: Limits, w: World, r: Result)
    requires RunPost(limits, w, r)
    ensures AskEnds(r)
  {
    hide Accounted, StopMeans, AskEnds, Earned;
  }
}
