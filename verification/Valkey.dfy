/**
 The Valkey commands the limiters issue, against one monotone millisecond clock. A key whose
 expiry has passed is the same as an absent key.
 */
module Valkey {
  import opened Wrappers

  /** An integer value and the last millisecond at which it is alive; None never expires. */
  datatype Entry = Entry(value: int, expiry: Option<nat>)

  type Db = map<string, Entry>

  predicate AliveAt(e: Entry, now: nat) {
    e.expiry.None? || now <= e.expiry.value
  }

  /** What a command sees at a key. */
  function Lookup(db: Db, now: nat, k: string): (e: Option<Entry>)
    ensures e.Some? <==> k in db && AliveAt(db[k], now)
    ensures e.Some? ==> e.value == db[k]
  {
    if k in db && AliveAt(db[k], now) then Some(db[k]) else None
  }

  function CountOf(e: Option<Entry>): int {
    if e.Some? then e.value.value else 0
  }

  /** INCR keeps the time to live; on an absent key it starts at 1 without one. */
  function Incremented(db: Db, now: nat, k: string): Db {
    var e := Lookup(db, now, k);
    db[k := Entry(CountOf(e) + 1, if e.Some? then e.value.expiry else None)]
  }

  /** The client sends EXPIRE in whole seconds, and at least one. */
  function WholeSeconds(ttl: nat): (t: nat) {
    if 0 < ttl < 1000 then 1000 else ttl / 1000 * 1000
  }

  function Expiring(db: Db, now: nat, k: string, ttl: nat): Db {
    if Lookup(db, now, k).Some? then db[k := db[k].(expiry := Some(now + ttl))] else db
  }

  function SetIfAbsent(db: Db, now: nat, k: string, v: int, ttl: nat): Db {
    if Lookup(db, now, k).Some? then db else db[k := Entry(v, Some(now + ttl))]
  }

  /** PTTL: -2 for an absent key, -1 for one without expiry, else the milliseconds left. */
  function TimeToLive(db: Db, now: nat, k: string): (ttl: int)
    ensures ttl >= 0 <==> Lookup(db, now, k).Some? && db[k].expiry.Some?
    ensures ttl >= 0 ==> now + ttl == db[k].expiry.value
  {
    var e := Lookup(db, now, k);
    if e.None? then -2
    else if e.value.expiry.None? then -1
    else e.value.expiry.value - now
  }

  class Server {
    var data: Db
    var now: nat

    constructor ()
      ensures data == map[] && now == 0
    {
      data, now := map[], 0;
    }

    method Incr(k: string) returns (count: int)
      modifies this`data
      ensures data == Incremented(old(data), now, k)
      ensures count == CountOf(Lookup(old(data), now, k)) + 1 && k in data && data[k].value == count
    {
      var live := k in data && AliveAt(data[k], now);
      count := if live then data[k].value + 1 else 1;
      data := data[k := Entry(count, if live then data[k].expiry else None)];
    }

    method Expire(k: string, ttl: nat)
      modifies this`data
      ensures data == Expiring(old(data), now, k, WholeSeconds(ttl))
    {
      var seconds := if 0 < ttl < 1000 then 1 else ttl / 1000;
      if k in data && AliveAt(data[k], now) {
        data := data[k := data[k].(expiry := Some(now + 1000 * seconds))];
      }
    }

    method SetNX(k: string, v: int, ttl: nat) returns (ok: bool)
      modifies this`data
      ensures data == SetIfAbsent(old(data), now, k, v, ttl)
      ensures ok <==> Lookup(old(data), now, k).None?
    {
      ok := !(k in data && AliveAt(data[k], now));
      if ok {
        data := data[k := Entry(v, Some(now + ttl))];
      }
    }

    method Del(ks: set<string>)
      modifies this`data
      ensures data == old(data) - ks
    {
      data := data - ks;
    }

    method Pttl(k: string) returns (ttl: int)
      ensures ttl == TimeToLive(data, now, k)
    {
      if !(k in data && AliveAt(data[k], now)) {
        return -2;
      }
      match data[k].expiry {
        case None => ttl := -1;
        case Some(at) => ttl := at - now;
      }
    }
  }
}
