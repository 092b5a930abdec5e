/**
 * The in-process counter store of storage-strategies/in-memory-storage.js:
 * `increment(key, window)` performs one fixed-window step on a key's record
 * and returns the record; `reset(key)` forgets the key.
 *
 * `Date.now()` is the parameter `now`; the timer that deletes a key `window`
 * ms after its record was created is the method `Evict`.
 */
module InMemory {
  import opened Optional
  import opened FixedWindow

  class InMemoryStorage {
    /** The records, by key. */
    var store: map<string, Record>

    constructor ()
      ensures store == map[]
    {
      store := map[];
    }

    /**
     * One hit on `key` at `now`: the key's entry, and no other, becomes the
     * fixed-window step of its old record, and a copy of it is returned.
     */
    method Increment(key: string, window: int, now: int) returns (r: Record)
      modifies this
      ensures store == old(store)[key := Advance(Lookup(old(store), key), now, window)]
      ensures key in store && r == store[key]
      ensures WellFormed(old(store), now) ==> WellFormed(store, now)
    {
      if key !in store {
        store := store[key := Record(1, now)];
        return Record(1, now);
      }

      var data := store[key];

      if now - data.timestamp > window {
        data := data.(count := 1, timestamp := now);
        store := store[key := data];
        return data;
      }

      data := data.(count := data.count + 1);
      store := store[key := data];
      return data;
    }

    /** Forgets `key`; every other entry stays. */
    method Reset(key: string)
      modifies this
      ensures store == old(store) - {key}
    {
      store := store - {key};
    }

    /** The timer set up when a key's record is created: it deletes the key, as `Reset` does. */
    method Evict(key: string)
      modifies this
      ensures store == old(store) - {key}
    {
      Reset(key);
    }
  }

  /** After a reset or an eviction of `key`, its next increment starts a new window at count 1. */
  lemma IncrementAfterResetRestarts(m: map<string, Record>, key: string, window: int, now: int)
    ensures Advance(Lookup(m - {key}, key), now, window) == Record(1, now)
  {
  }
}
