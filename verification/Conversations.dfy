/**
 The message log of every conversation (backend/app/services/conversations.py). A message's id is
 its place in the log; `author` names the request that wrote it, which the source does not store.
 */
module Conversations {
  import opened Common
  import AgentLoop

  datatype Message =
    | User(conversation: int, author: int, content: string, key: Option<string>)
    | Assistant(conversation: int, author: int, stop: AgentLoop.Stop)

  predicate Keyed(m: Message, conversation: int, key: string) {
    m.User? && m.conversation == conversation && m.key == Some(key)
  }

  /** The first message from `from` on that belongs to the conversation. */
  function NextIn(log: seq<Message>, conversation: int, from: nat): (n: nat)
    ensures from <= |log| ==> from <= n <= |log|
    ensures n < |log| ==> log[n].conversation == conversation && forall k :: from <= k < n ==> log[k].conversation != conversation
    ensures n >= |log| ==> forall k :: from <= k < |log| ==> log[k].conversation != conversation
    decreases |log| - from
  {
    if from >= |log| || log[from].conversation == conversation then from else NextIn(log, conversation, from + 1)
  }

  /** The first turn that carries the key, or past the end. */
  function FirstKeyed(log: seq<Message>, conversation: int, key: string, from: nat): (n: nat)
    ensures from <= |log| ==> from <= n <= |log|
    ensures n < |log| ==> Keyed(log[n], conversation, key) && forall k :: from <= k < n ==> !Keyed(log[k], conversation, key)
    ensures n >= |log| ==> forall k :: from <= k < |log| ==> !Keyed(log[k], conversation, key)
    decreases |log| - from
  {
    if from >= |log| || Keyed(log[from], conversation, key) then from else FirstKeyed(log, conversation, key, from + 1)
  }

  /** The exchange a key opened: the turn that carries it, and the turn that answered it. */
  datatype Exchange = Exchange(asked: nat, answered: Option<nat>)

  function FindExchange(log: seq<Message>, conversation: int, key: string): Option<Exchange> {
    var asked := FirstKeyed(log, conversation, key, 0);
    if asked >= |log| then None else
      var next := NextIn(log, conversation, asked + 1);
      Some(Exchange(asked, if next < |log| && log[next].Assistant? then Some(next) else None))
  }

  class Log {
    var messages: seq<Message>

    constructor ()
      ensures messages == []
    {
      messages := [];
    }

    /** `find_exchange`: two ordered queries. */
    method Find(conversation: int, key: string) returns (found: Option<Exchange>)
      ensures found == FindExchange(messages, conversation, key)
    {
      var asked := 0;
      while asked < |messages| && !Keyed(messages[asked], conversation, key)
        invariant 0 <= asked <= |messages|
        invariant FirstKeyed(messages, conversation, key, 0) == FirstKeyed(messages, conversation, key, asked)
      {
        asked := asked + 1;
      }
      if asked == |messages| { return None; }
      var next := asked + 1;
      while next < |messages| && messages[next].conversation != conversation
        invariant asked < next <= |messages|
        invariant NextIn(messages, conversation, asked + 1) == NextIn(messages, conversation, next)
      {
        next := next + 1;
      }
      if next == |messages| || !messages[next].Assistant? { return Some(Exchange(asked, None)); }
      return Some(Exchange(asked, Some(next)));
    }

    method AppendUser(conversation: int, author: int, content: string, key: Option<string>) returns (id: nat)
      modifies this
      ensures id == |old(messages)| && messages == old(messages) + [User(conversation, author, content, key)]
    {
      id := |messages|;
      messages := messages + [User(conversation, author, content, key)];
    }

    method AppendAssistant(conversation: int, author: int, stop: AgentLoop.Stop) returns (id: nat)
      modifies this
      ensures id == |old(messages)| && messages == old(messages) + [Assistant(conversation, author, stop)]
    {
      id := |messages|;
      messages := messages + [Assistant(conversation, author, stop)];
    }
  }

  // ---- a log that grows --------------------------------------------------------------------------

  lemma {:induction false} NextInGrows(log: seq<Message>, m: Message, conversation: int, from: nat)
    requires from <= |log|
    ensures var n := NextIn(log, conversation, from);
            NextIn(log + [m], conversation, from) == if n < |log| || m.conversation == conversation then n else |log| + 1
    decreases |log| - from
  {
    var all := log + [m];
    if from < |log| && log[from].conversation != conversation {
      assert all[from] == log[from];
      NextInGrows(log, m, conversation, from + 1);
    } else if from < |log| {
      assert all[from] == log[from];
    } else {
      assert all[from] == m;
      if m.conversation != conversation { assert NextIn(all, conversation, from) == NextIn(all, conversation, from + 1); }
    }
  }
}
