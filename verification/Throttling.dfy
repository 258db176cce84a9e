/** What the per-key, per-minute counter admits over whole runs of the key middleware. */
module Throttling {
  import opened Wrappers
  import opened Valkey
  import opened LimiterKeys
  import opened RateLimiter

  /** A call of AllowSuccess. */
  datatype Call = Call(at: nat, id: Uuid, rpm: int)

  /** The calls of AllowSuccess a run of the middleware makes. */
  function Calls(p: Lockout.Policy, es: seq<Event>): (cs: seq<Call>) {
    if es == [] then []
    else
      var init, e := es[..|es| - 1], es[|es| - 1];
      if Reaches(RunDb(p, init), e) then
        Calls(p, init) + [Call(e.at, e.request.outcome.id, e.request.outcome.rpm)]
      else Calls(p, init)
  }

  /** The request is authenticated: neither missing its key, nor locked out, nor rejected. */
  predicate Reaches(db: Db, e: Event) {
    && e.request.plaintext != "" && e.request.outcome.Accepted?
    && !StatusOf(db, e.at, ExtractPrefix(e.request.plaintext), e.request.ip).locked
  }

  predicate Charged(c: Call, id: Uuid, minute: nat) {
    c.id == id && Capped(id, c.rpm) && c.at / MINUTE == minute
  }

  /** The capped calls of a key in a minute bucket. */
  function CallsIn(cs: seq<Call>, id: Uuid, minute: nat): (n: nat) {
    if cs == [] then 0
    else CallsIn(cs[..|cs| - 1], id, minute) + if Charged(cs[|cs| - 1], id, minute) then 1 else 0
  }

  /** The counter holds n, and outlives its minute. */
  ghost predicate Counts(db: Db, id: Uuid, minute: nat, n: nat) {
    var k := PerKeyCounterKey(id, minute);
    if n == 0 then k !in db
    else k in db && db[k].value == n && db[k].expiry.Some? && db[k].expiry.value >= minute * MINUTE + BUCKET_TTL
  }

  lemma FailedKeepsCounter(p: Lockout.Policy, db: Db, now: nat, prefix: string, ip: string, id: Uuid, minute: nat)
    ensures var k := PerKeyCounterKey(id, minute);
            && Lockout.View(Failed(p, db, now, prefix, ip), k, k) == Lockout.View(db, k, k)
            && Lockout.View(ClearedPair(db, prefix, ip), k, k) == Lockout.View(db, k, k)
  {
    ThrottleKeysInjective(id, minute, id, minute, prefix, ip);
  }

  lemma ThrottledCounter(db: Db, now: nat, c: Uuid, rpm: int, id: Uuid, minute: nat, n: nat)
    requires Counts(db, id, minute, n)
    ensures Counts(Throttled(db, now, c, rpm), id, minute,
                   if Charged(Call(now, c, rpm), id, minute) then n + 1 else n)
  {
    ThrottleKeysInjective(id, minute, c, now / MINUTE, "", "");
    if Charged(Call(now, c, rpm), id, minute) {
      MinuteBounds(now);
    }
  }

  lemma MinuteBounds(now: nat)
    ensures now / MINUTE * MINUTE <= now < now / MINUTE * MINUTE + MINUTE
  {
  }

  /** In every run the counter of a (key, minute) bucket is the number of its calls: it is never reset. */
  lemma {:induction false} CounterCountsCalls(p: Lockout.Policy, es: seq<Event>, id: Uuid, minute: nat)
    ensures Counts(RunDb(p, es), id, minute, CallsIn(Calls(p, es), id, minute))
  {
    if es != [] {
      var init, e := es[..|es| - 1], es[|es| - 1];
      CounterCountsCalls(p, init, id, minute);
      var db, prefix := RunDb(p, init), ExtractPrefix(e.request.plaintext);
      FailedKeepsCounter(p, db, e.at, prefix, e.request.ip, id, minute);
      if Reaches(db, e) {
        var cs := Calls(p, es);
        assert cs[..|cs| - 1] == Calls(p, init);
        ThrottledCounter(ClearedPair(db, prefix, e.request.ip), e.at, e.request.outcome.id, e.request.outcome.rpm,
                         id, minute, CallsIn(Calls(p, init), id, minute));
      }
    }
  }

  /** A capped request is refused over rate exactly when its bucket already has rpm calls, until the next bucket. */
  lemma OverRateIff(p: Lockout.Policy, es: seq<Event>, now: nat, required: bool, r: Request)
    requires Reaches(RunDb(p, es), Event(now, r)) && Capped(r.outcome.id, r.outcome.rpm)
    ensures var v := VerdictOf(RunDb(p, es), now, required, r);
            && (v == Served || v.OverRate?)
            && (v == Served <==> CallsIn(Calls(p, es), r.outcome.id, now / MINUTE) < r.outcome.rpm)
            && (v.OverRate? ==>
                  && 0 < v.retryAfter <= MINUTE
                  && (now + v.retryAfter) / MINUTE == now / MINUTE + 1 && (now + v.retryAfter) % MINUTE == 0)
  {
    var prefix, id := ExtractPrefix(r.plaintext), r.outcome.id;
    CounterCountsCalls(p, es, id, now / MINUTE);
    FailedKeepsCounter(p, RunDb(p, es), now, prefix, r.ip, id, now / MINUTE);
    MinuteBounds(now);
  }

  lemma NextMinute(now: nat)
    ensures var left := (now / MINUTE + 1) * MINUTE - now; 0 < left <= 60_000 && (now + left) % 60_000 == 0
  {
    MinuteBounds(now);
  }

  /** What AllowSuccess reports of a capped call: the cap, the calls left after this one, and when to retry. */
  lemma ThrottleReports(p: Lockout.Policy, es: seq<Event>, now: nat, r: Request)
    requires Reaches(RunDb(p, es), Event(now, r)) && Capped(r.outcome.id, r.outcome.rpm)
    ensures var t := Throttle(ClearedPair(RunDb(p, es), ExtractPrefix(r.plaintext), r.ip), now, r.outcome.id,
                              r.outcome.rpm);
            var left := r.outcome.rpm - CallsIn(Calls(p, es), r.outcome.id, now / MINUTE) - 1;
            && t.limit == r.outcome.rpm && (t.allowed <==> left >= 0) && t.remaining == (if left >= 0 then left else 0)
            && (t.allowed ==> t.retryAfter == 0)
            && (!t.allowed ==> 0 < t.retryAfter <= 60_000 && (now + t.retryAfter) % 60_000 == 0)
  {
    hide RunDb, CallsIn, Calls, Counts;
    CountAfterClearing(p, es, now, r);
    NextMinute(now);
  }

  /** The live count that a call of AllowSuccess finds. */
  lemma CountAfterClearing(p: Lockout.Policy, es: seq<Event>, now: nat, r: Request)
    requires Reaches(RunDb(p, es), Event(now, r)) && Capped(r.outcome.id, r.outcome.rpm)
    ensures var db := ClearedPair(RunDb(p, es), ExtractPrefix(r.plaintext), r.ip);
            CountOf(Lookup(db, now, PerKeyCounterKey(r.outcome.id, now / MINUTE))) ==
            CallsIn(Calls(p, es), r.outcome.id, now / MINUTE)
  {
    hide RunDb, CallsIn, Calls;
    var prefix, id := ExtractPrefix(r.plaintext), r.outcome.id;
    CounterCountsCalls(p, es, id, now / MINUTE);
    FailedKeepsCounter(p, RunDb(p, es), now, prefix, r.ip, id, now / MINUTE);
    MinuteBounds(now);
  }

  /** A key without an id or a positive cap is never over rate, and its calls are not counted. */
  lemma UncappedIsServed(p: Lockout.Policy, es: seq<Event>, now: nat, required: bool, r: Request)
    requires Reaches(RunDb(p, es), Event(now, r))
    requires r.outcome.id == NIL_UUID || r.outcome.rpm <= 0
    ensures VerdictOf(RunDb(p, es), now, required, r) == Served
    ensures Handled(p, RunDb(p, es), now, r) == ClearedPair(RunDb(p, es), ExtractPrefix(r.plaintext), r.ip)
  {
    hide RunDb;
  }

  // ---- how much a key can do --------------------------------------------

  /** After the run init, the middleware serves the request under the given key. */
  predicate ServedAs(p: Lockout.Policy, init: seq<Event>, e: Event, id: Uuid) {
    && e.request.outcome.Accepted? && e.request.outcome.id == id
    && VerdictOf(RunDb(p, init), e.at, true, e.request) == Served
  }

  /** The requests of a key that a run serves in a minute bucket. */
  function ServedOfMinute(p: Lockout.Policy, es: seq<Event>, id: Uuid, minute: nat): (n: nat) {
    if es == [] then 0
    else
      var init, e := es[..|es| - 1], es[|es| - 1];
      ServedOfMinute(p, init, id, minute) + if ServedAs(p, init, e, id) && e.at / MINUTE == minute then 1 else 0
  }

  /** The requests of a key that a run serves in the sixty seconds from start. */
  function ServedWithin(p: Lockout.Policy, es: seq<Event>, id: Uuid, start: nat): (n: nat) {
    if es == [] then 0
    else
      var init, e := es[..|es| - 1], es[|es| - 1];
      ServedWithin(p, init, id, start)
      + if ServedAs(p, init, e, id) && start <= e.at < start + MINUTE then 1 else 0
  }

  ghost predicate ConstantRate(es: seq<Event>, id: Uuid, rpm: int) {
    forall e :: e in es && e.request.outcome.Accepted? && e.request.outcome.id == id ==> e.request.outcome.rpm == rpm
  }

  /** In every run with a constant cap, the requests served in a bucket are its first rpm calls. */
  lemma {:induction false} FirstCallsAllowed(p: Lockout.Policy, es: seq<Event>, id: Uuid, rpm: int, minute: nat)
    requires Capped(id, rpm) && ConstantRate(es, id, rpm)
    ensures var calls := CallsIn(Calls(p, es), id, minute);
            ServedOfMinute(p, es, id, minute) == if calls <= rpm then calls else rpm
  {
    hide RunDb, VerdictOf;
    if es != [] {
      var init, e := es[..|es| - 1], es[|es| - 1];
      FirstCallsAllowed(p, init, id, rpm, minute);
      if ServedAs(p, init, e, id) {
        ServedReaches(p, init, e, id);
      }
      if Reaches(RunDb(p, init), e) {
        var cs := Calls(p, es);
        assert cs[..|cs| - 1] == Calls(p, init);
        assert e in es;
        if e.request.outcome.Accepted? && e.request.outcome.id == id {
          OverRateIff(p, init, e.at, true, e.request);
        }
      }
    }
  }

  /** Only authenticated requests are served. */
  lemma ServedReaches(p: Lockout.Policy, init: seq<Event>, e: Event, id: Uuid)
    requires ServedAs(p, init, e, id)
    ensures Reaches(RunDb(p, init), e)
  {
    hide RunDb;
  }

  lemma {:induction false} WithinTwoMinutes(p: Lockout.Policy, es: seq<Event>, id: Uuid, start: nat)
    ensures ServedWithin(p, es, id, start)
         <= ServedOfMinute(p, es, id, start / MINUTE) + ServedOfMinute(p, es, id, start / MINUTE + 1)
  {
    hide ServedAs;
    if es != [] {
      WithinTwoMinutes(p, es[..|es| - 1], id, start);
      MinuteBounds(start);
      MinuteBounds(es[|es| - 1].at);
    }
  }

  /** In every run with a constant cap, any sixty seconds serve at most twice the cap. */
  lemma SixtySecondsAdmitTwiceTheCap(p: Lockout.Policy, es: seq<Event>, id: Uuid, rpm: int, start: nat)
    requires Capped(id, rpm) && ConstantRate(es, id, rpm)
    ensures ServedWithin(p, es, id, start) <= 2 * rpm
  {
    WithinTwoMinutes(p, es, id, start);
    FirstCallsAllowed(p, es, id, rpm, start / MINUTE);
    FirstCallsAllowed(p, es, id, rpm, start / MINUTE + 1);
  }
}
