/** What a client of the message endpoint is told, in terms of the stored log. */
module RunAnswers {
  import opened Common
  import opened Conversations
  import opened RunProtocol
  import opened RunSafety
  import opened RunGuarantees
  import AgentLoop

  /** A run that ran out of time is 504, one the model failed 502, one that broke 500; any other is 200. */
  predicate StatusOf(status: int, stop: AgentLoop.Stop) {
    && (stop == AgentLoop.TimedOut <==> status == 504)
    && (stop == AgentLoop.ProviderError <==> status == 502)
    && (stop == AgentLoop.InternalError <==> status == 500)
    && (status == 200 || status == 500 || status == 502 || status == 504)
  }

  /** An answer carries the status of the stop stored as the assistant's turn. */
  lemma StatusTellsTheStop(steps: seq<Step>, r: int)
    requires r in Run(steps).requests && Given(Run(steps).requests[r].at).Some? && Given(Run(steps).requests[r].at).value.Answered?
    ensures var s := Run(steps);
            var given := Given(s.requests[r].at).value;
            && given.answered < |s.log| && s.log[given.answered].Assistant? && StatusOf(given.status, s.log[given.answered].stop)
  {
    RunKeeps(steps);
    OfLog(Run(steps), r, r);
    hide Run, Inv, NextIn;
  }

  /** `n` is the next message of the thread after `i`. */
  ghost predicate Follows(log: seq<Message>, c: int, i: nat, n: nat) {
    && i < n < |log| && log[n].conversation == c
    && forall k :: i < k < n ==> log[k].conversation != c
  }

  /** What the log answers a message under the lock when the turn `i` carries its key. */
  ghost predicate Tells(log: seq<Message>, q: Request, i: nat, told: Response)
    requires i < |log| && log[i].User? && q.work.Post?
  {
    if log[i].content != q.work.content then told == Mismatch
    else if told.Answered? then
      && told.asked == i && Follows(log, q.conversation, i, told.answered)
      && log[told.answered].Assistant? && StatusOf(told.status, log[told.answered].stop)
    else
      && told == Unfinished
      && forall n: nat :: Follows(log, q.conversation, i, n) ==> !log[n].Assistant?
  }

  /**
   A message whose key is on the thread already starts nothing: it is told the stored answer, or that
   the exchange is unfinished, or that the key was used for something else. A message with a new key,
   or none, goes on.
   */
  lemma RetryIsTold(steps: seq<Step>, r: int)
    requires Enabled(Run(steps), Look(r))
    ensures var s := Run(steps);
            var q, at := s.requests[r], After(s, Look(r)).requests[r].at;
            && (q.conversation !in s.live ==> at == Leaving(q.at.lock, NotFound))
            && (q.conversation in s.live ==>
                  && (at == Cleared(q.at.lock) <==>
                        q.work.key.None? || forall i :: 0 <= i < |s.log| ==> !Keyed(s.log[i], q.conversation, q.work.key.value))
                  && (forall i: nat :: i < |s.log| && q.work.key.Some? && Keyed(s.log[i], q.conversation, q.work.key.value) ==>
                        at.Leaving? && at.lock == q.at.lock && Tells(s.log, q, i, at.response)))
  {
    var s := Run(steps);
    RunKeeps(steps);
    OfLog(s, r, r);
    hide Run, Inv, ResponseKept;
    var q := s.requests[r];
    if q.conversation in s.live && q.work.key.Some? {
      forall i: nat | i < |s.log| && Keyed(s.log[i], q.conversation, q.work.key.value)
        ensures var found := Lookup(s, q); found.Some? && Tells(s.log, q, i, found.value)
      {
        LookupTells(s, q, i);
      }
    }
  }

  lemma LookupTells(s: State, q: Request, i: nat)
    requires KeyOnce(s.log) && q.conversation in s.live && q.work.Post? && q.work.key.Some?
    requires i < |s.log| && Keyed(s.log[i], q.conversation, q.work.key.value)
    ensures var found := Lookup(s, q); found.Some? && Tells(s.log, q, i, found.value)
  {
    var asked := FirstKeyed(s.log, q.conversation, q.work.key.value, 0);
    OneExchange(s.log, asked, i);
    var next := NextIn(s.log, q.conversation, i + 1);
    hide KeyOnce, NextIn, FirstKeyed;
    forall n: nat | Follows(s.log, q.conversation, i, n) ensures n == next {
    }
  }

  /** Nothing that was stored or started is ever forgotten, whatever steps are taken, crashes included. */
  lemma {:induction false} NothingForgotten(steps: seq<Step>, more: seq<Step>)
    ensures Run(steps).log <= Run(steps + more).log && Run(steps).starts <= Run(steps + more).starts
    decreases |more|
  {
    if more == [] { assert steps + more == steps; } else {
      var fewer := more[..|more| - 1];
      NothingForgotten(steps, fewer);
      assert (steps + more)[..|steps + more| - 1] == steps + fewer;
      assert steps + more != [];
      StepForgetsNothing(Run(steps + fewer), more[|more| - 1]);
      hide After;
    }
  }

  lemma StepForgetsNothing(s: State, step: Step)
    ensures s.log <= After(s, step).log && s.starts <= After(s, step).starts
  {
  }

  /** What a run ended with is what is stored as the answer to its own turn, and what its request is told. */
  lemma AnswerIsTheRuns(s: State, r: int, stop: AgentLoop.Stop)
    requires Enabled(s, Finish(r, stop))
    ensures var t := After(After(s, Finish(r, stop)), Answer(r));
            var q, at := s.requests[r], t.requests[r].at;
            && t.log == s.log + [Assistant(q.conversation, r, stop)]
            && at.Leaving? && at.lock == q.at.lock && at.response.Answered?
            && at.response.asked == q.at.turn && at.response.answered == |s.log| && StatusOf(at.response.status, stop)
  {
  }

  /** A delete under the lock takes its conversation and no other; the messages stay. */
  lemma DeleteTakesOne(s: State, r: int)
    requires Enabled(s, Trash(r))
    ensures var t, c := After(s, Trash(r)), s.requests[r].conversation;
            && (forall d :: d in t.live <==> d in s.live && d != c) && t.log == s.log
            && t.requests[r].at == Leaving(s.requests[r].at.lock, if c in s.live then Deleted else NotFound)
  {
  }
}
