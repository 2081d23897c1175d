/**
 One lock per conversation, kept while a request refers to it
 (backend/app/api/conversation_locks.py).
 */
module ConversationLocks {
  import opened Common

  /** A conversation's lock, by identity, and how many requests hold or wait on it. */
  datatype Entry = Entry(lock: int, refcount: int)

  type Entries = map<int, Entry>

  function CheckedOut(entries: Entries, conversation: int, lock: int): Entries {
    var entry := if conversation in entries then entries[conversation] else Entry(lock, 0);
    entries[conversation := entry.(refcount := entry.refcount + 1)]
  }

  function CheckedIn(entries: Entries, conversation: int): Entries {
    if conversation !in entries then entries
    else if entries[conversation].refcount <= 1 then entries - {conversation}
    else entries[conversation := entries[conversation].(refcount := entries[conversation].refcount - 1)]
  }

  /** `_ENTRIES`. Locks get fresh identities; a dropped lock is never handed out again. */
  class Registry {
    var entries: Entries
    var nextLock: int

    ghost predicate Valid()
      reads this
    {
      && (forall c :: c in entries ==> entries[c].lock < nextLock && entries[c].refcount >= 1)
      && forall c, d :: c in entries && d in entries && entries[c].lock == entries[d].lock ==> c == d
    }

    constructor ()
      ensures Valid() && entries == map[]
    {
      entries, nextLock := map[], 0;
    }

    /** `_checkout`: the entry there is, or a new one. */
    method Checkout(conversation: int) returns (lock: int)
      requires Valid()
      modifies this
      ensures Valid() && entries == CheckedOut(old(entries), conversation, old(nextLock))
      ensures conversation in entries && lock == entries[conversation].lock
      ensures if conversation in old(entries) then lock == old(entries)[conversation].lock && nextLock == old(nextLock)
              else lock == old(nextLock) && nextLock == old(nextLock) + 1
      ensures entries[conversation].refcount == if conversation in old(entries) then old(entries)[conversation].refcount + 1 else 1
      ensures forall c :: c != conversation ==> (c in entries <==> c in old(entries)) && (c in entries ==> entries[c] == old(entries)[c])
    {
      if conversation !in entries {
        entries := entries[conversation := Entry(nextLock, 0)];
        nextLock := nextLock + 1;
      }
      var entry := entries[conversation];
      entries := entries[conversation := entry.(refcount := entry.refcount + 1)];
      return entry.lock;
    }

    /** `_checkin`: the last one out drops the entry. */
    method Checkin(conversation: int)
      requires Valid()
      modifies this
      ensures Valid() && entries == CheckedIn(old(entries), conversation) && nextLock == old(nextLock)
      ensures conversation in entries <==> conversation in old(entries) && old(entries)[conversation].refcount > 1
      ensures conversation in entries ==>
                entries[conversation] == Entry(old(entries)[conversation].lock, old(entries)[conversation].refcount - 1)
      ensures forall c :: c != conversation ==> (c in entries <==> c in old(entries)) && (c in entries ==> entries[c] == old(entries)[c])
    {
      if conversation !in entries { return; }
      var entry := entries[conversation];
      entries := entries[conversation := entry.(refcount := entry.refcount - 1)];
      if entries[conversation].refcount <= 0 {
        entries := entries - {conversation};
      }
    }
  }
}
