/** The counter store (a Redis namespace) as plain state: integer counters by key and
    sets of strings by key. Each store command is a sequential update of that state. */
module Redis {

  /** `GET key` followed by `.to_i`: an absent counter reads as 0. */
  function Read(counters: map<string, int>, key: string): int {
    if key in counters then counters[key] else 0
  }

  /** The counters after `INCR key`: that counter goes up by exactly 1 (starting from 0
      when absent), and every other counter keeps its value. */
  function Incremented(counters: map<string, int>, key: string): (after: map<string, int>)
    ensures after.Keys == counters.Keys + {key}
    ensures Read(after, key) == Read(counters, key) + 1
    ensures forall k :: k != key ==> Read(after, k) == Read(counters, k)
  {
    counters[key := Read(counters, key) + 1]
  }

  /** The counters after `DECR key`: that counter goes down by exactly 1 with no floor at
      zero, and every other counter keeps its value. */
  function Decremented(counters: map<string, int>, key: string): (after: map<string, int>)
    ensures after.Keys == counters.Keys + {key}
    ensures Read(after, key) == Read(counters, key) - 1
    ensures forall k :: k != key ==> Read(after, k) == Read(counters, k)
  {
    counters[key := Read(counters, key) - 1]
  }

  /** `SMEMBERS key`: an absent set reads as empty. */
  function Members(sets: map<string, set<string>>, key: string): set<string> {
    if key in sets then sets[key] else {}
  }

  /** The sets after `SADD key member`: that set gains the member, every other set is kept. */
  function AddMember(sets: map<string, set<string>>, key: string, member: string): (after: map<string, set<string>>)
    ensures after.Keys == sets.Keys + {key}
    ensures Members(after, key) == Members(sets, key) + {member}
    ensures forall k :: k != key ==> Members(after, k) == Members(sets, k)
  {
    sets[key := Members(sets, key) + {member}]
  }

  /** Adding a member twice leaves the sets as adding it once. */
  lemma AddMemberIdempotent(sets: map<string, set<string>>, key: string, member: string)
    ensures AddMember(AddMember(sets, key, member), key, member) == AddMember(sets, key, member)
  {
  }

  /** `INCR` followed by `DECR` on the same key gives every counter its old reading back. */
  lemma DecrementUndoesIncrement(counters: map<string, int>, key: string, k: string)
    ensures Read(Decremented(Incremented(counters, key), key), k) == Read(counters, k)
  {
  }

  class Store {
    var counters: map<string, int>
    var sets: map<string, set<string>>

    constructor ()
      ensures counters == map[] && sets == map[]
    {
      counters := map[];
      sets := map[];
    }

    function Get(key: string): int
      reads this
    {
      Read(counters, key)
    }

    method Incr(key: string) returns (n: int)
      modifies this
      ensures counters == Incremented(old(counters), key) && sets == old(sets)
      ensures n == Read(counters, key)
    {
      counters := Incremented(counters, key);
      n := counters[key];
    }

    method Decr(key: string) returns (n: int)
      modifies this
      ensures counters == Decremented(old(counters), key) && sets == old(sets)
      ensures n == Read(counters, key)
    {
      counters := Decremented(counters, key);
      n := counters[key];
    }

    method SAdd(key: string, member: string)
      modifies this
      ensures sets == AddMember(old(sets), key, member) && counters == old(counters)
    {
      sets := AddMember(sets, key, member);
    }

    function SMembers(key: string): set<string>
      reads this
    {
      Members(sets, key)
    }
  }
}

/** The caller's session: a small key-value scratchpad owned by the host. */
module Sessions {

  /** The session key that, when present, lets a stored assignment stand even if it is
      no longer among the offered options. */
  const ManualMode: string := "manual_whiplash_mode"

  class Session {
    var entries: map<string, string>

    constructor (entries: map<string, string>)
      ensures this.entries == entries
    {
      this.entries := entries;
    }
  }
}
