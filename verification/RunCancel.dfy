/** Stop requests for the run in flight (backend/app/api/run_cancel.py). */
module RunCancel {
  import opened Common

  /** `_ACTIVE`: the event each conversation's run in flight was given; and the events that are set. */
  datatype Runs = Runs(active: map<int, int>, set_: set<int>)

  function Unregistered(active: map<int, int>, conversation: int, event: int): map<int, int> {
    if conversation in active && active[conversation] == event then active - {conversation} else active
  }

  function Stopped(runs: Runs, conversation: int): Runs {
    if conversation in runs.active then runs.(set_ := runs.set_ + {runs.active[conversation]}) else runs
  }

  class Registry {
    var active: map<int, int>
    var set_: set<int>
    var nextEvent: int

    ghost function View(): Runs
      reads this
    {
      Runs(active, set_)
    }

    /** Nobody has set an event that no run has been given. */
    ghost predicate Valid()
      reads this
    {
      (forall e :: e in set_ ==> e < nextEvent) && forall c :: c in active ==> active[c] < nextEvent
    }

    constructor ()
      ensures Valid() && active == map[] && set_ == {}
    {
      active, set_, nextEvent := map[], {}, 0;
    }

    /** The entry of `active_run`: a fresh event, which nobody has set. */
    method Enter(conversation: int) returns (event: int)
      requires Valid()
      modifies this
      ensures Valid() && event == old(nextEvent) && event !in set_ && nextEvent == old(nextEvent) + 1
      ensures View() == Runs(old(active)[conversation := event], old(set_))
      ensures forall c :: c in active <==> c == conversation || c in old(active)
      ensures forall c :: c in active ==> active[c] == if c == conversation then event else old(active)[c]
    {
      event := nextEvent;
      nextEvent := nextEvent + 1;
      active := active[conversation := event];
    }

    /** The exit of `active_run`: only its own entry, never a successor's. */
    method Exit(conversation: int, event: int)
      requires Valid()
      modifies this
      ensures Valid() && View() == Runs(Unregistered(old(active), conversation, event), old(set_)) && nextEvent == old(nextEvent)
      ensures forall c :: c in active <==> c in old(active) && !(c == conversation && old(active)[c] == event)
      ensures forall c :: c in active ==> active[c] == old(active)[c]
    {
      if conversation in active && active[conversation] == event {
        active := active - {conversation};
      }
    }

    /** `request_cancel`. */
    method RequestCancel(conversation: int) returns (running: bool)
      requires Valid()
      modifies this
      ensures Valid() && View() == Stopped(old(View()), conversation) && nextEvent == old(nextEvent)
      ensures running == (conversation in old(active))
      ensures active == old(active) && set_ == if conversation in active then old(set_) + {active[conversation]} else old(set_)
    {
      if conversation !in active { return false; }
      set_ := set_ + {active[conversation]};
      return true;
    }
  }
}
