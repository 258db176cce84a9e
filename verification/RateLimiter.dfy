/**
 The API-key limiter (internal/identity/ratelimit.go) and the order in which the key middleware
 consults it (internal/identity/apikey.go). In the runs every Valkey call succeeds; in a single request
 any of the limiter's calls may fail.
 */
module RateLimiter {
  import opened Wrappers
  import opened Valkey
  import opened Lockout
  import opened LimiterKeys

  const DEFAULT_POLICY: Policy := Policy(60_000, 10, 300_000)

  /** Zero fields take the defaults, and no other field changes. */
  function WithDefaults(cfg: Policy, def: Policy): (p: Policy)
    ensures cfg.window != 0 ==> p.window == cfg.window
    ensures cfg.threshold != 0 ==> p.threshold == cfg.threshold
    ensures cfg.lockFor != 0 ==> p.lockFor == cfg.lockFor
    ensures cfg.window == 0 ==> p.window == def.window
    ensures cfg.threshold == 0 ==> p.threshold == def.threshold
    ensures cfg.lockFor == 0 ==> p.lockFor == def.lockFor
  {
    Policy(if cfg.window == 0 then def.window else cfg.window,
           if cfg.threshold == 0 then def.threshold else cfg.threshold,
           if cfg.lockFor == 0 then def.lockFor else cfg.lockFor)
  }

  datatype LockoutStatus = LockoutStatus(locked: bool, retryAfter: int)
  datatype ThrottleStatus = ThrottleStatus(allowed: bool, limit: int, remaining: int, retryAfter: int)

  const MINUTE: nat := 60_000
  const BUCKET_TTL: nat := 70_000

  /** The pair's bucket on the server. */
  function PairView(db: Db, prefix: string, ip: string): Bucket {
    View(db, FailureCounterKey(prefix, ip), LockoutKey(prefix, ip))
  }

  /** The limiter ignores requests without a prefix or an address. */
  predicate Tracked(prefix: string, ip: string) {
    prefix != "" && ip != ""
  }

  function StatusOf(db: Db, now: nat, prefix: string, ip: string): LockoutStatus {
    var ttl := TimeToLive(db, now, LockoutKey(prefix, ip));
    if !Tracked(prefix, ip) || ttl < 0 then LockoutStatus(false, 0) else LockoutStatus(true, ttl)
  }

  lemma StatusIsLocked(db: Db, now: nat, prefix: string, ip: string)
    requires Tracked(prefix, ip)
    ensures var b, s := PairView(db, prefix, ip), StatusOf(db, now, prefix, ip);
            && (s.locked <==> Locked(b, now))
            && (s.locked ==> s.retryAfter >= 0 && b.lock.value.expiry == Some(now + s.retryAfter))
  {
  }

  function Failed(p: Policy, db: Db, now: nat, prefix: string, ip: string): Db {
    if Tracked(prefix, ip) then
      FailureRecorded(p, db, now, FailureCounterKey(prefix, ip), LockoutKey(prefix, ip))
    else db
  }

  function ClearedPair(db: Db, prefix: string, ip: string): Db {
    if Tracked(prefix, ip) then db - {FailureCounterKey(prefix, ip), LockoutKey(prefix, ip)} else db
  }

  predicate Capped(id: Uuid, rpm: int) {
    id != NIL_UUID && rpm > 0
  }

  function Throttled(db: Db, now: nat, id: Uuid, rpm: int): Db {
    var k := PerKeyCounterKey(id, now / MINUTE);
    if Capped(id, rpm) then Expiring(Incremented(db, now, k), now, k, BUCKET_TTL) else db
  }

  function Throttle(db: Db, now: nat, id: Uuid, rpm: int): ThrottleStatus {
    var count := CountOf(Lookup(db, now, PerKeyCounterKey(id, now / MINUTE))) + 1;
    if !Capped(id, rpm) then ThrottleStatus(true, rpm, rpm, 0)
    else if count <= rpm then ThrottleStatus(true, rpm, rpm - count, 0)
    else ThrottleStatus(false, rpm, 0, (now / MINUTE + 1) * MINUTE - now)
  }

  class RateLimiter {
    const client: Server
    const policy: Policy

    constructor (client: Server, cfg: Policy)
      ensures this.client == client && policy == WithDefaults(cfg, DEFAULT_POLICY)
      ensures cfg == Policy(0, 0, 0) ==> policy == Policy(60_000, 10, 300_000)
    {
      this.client, policy := client, WithDefaults(cfg, DEFAULT_POLICY);
    }

    method IsLockedOut(prefix: string, ip: string) returns (s: LockoutStatus)
      ensures s == StatusOf(client.data, client.now, prefix, ip)
    {
      if prefix == "" || ip == "" {
        return LockoutStatus(false, 0);
      }
      var ttl := client.Pttl(LockoutKey(prefix, ip));
      if ttl < 0 {
        return LockoutStatus(false, 0);
      }
      s := LockoutStatus(true, ttl);
    }

    method RecordFailure(prefix: string, ip: string) returns (lockedNow: bool)
      requires |prefix| in {0, PREFIX_LENGTH}
      modifies client`data
      ensures client.data == Failed(policy, old(client.data), client.now, prefix, ip)
      ensures lockedNow <==>
              Tracked(prefix, ip) &&
              var b := old(PairView(client.data, prefix, ip));
              CountOf(Live(b.counter, client.now)) + 1 >= policy.threshold && Live(b.lock, client.now).None?
    {
      if prefix == "" || ip == "" {
        return false;
      }
      PairKeysInjective(prefix, ip, prefix, ip);
      lockedNow := Lockout.RecordFailure(client, policy, FailureCounterKey(prefix, ip), LockoutKey(prefix, ip));
    }

    method ClearFailures(prefix: string, ip: string)
      modifies client`data
      ensures client.data == ClearedPair(old(client.data), prefix, ip)
    {
      if prefix == "" || ip == "" {
        return;
      }
      client.Del({FailureCounterKey(prefix, ip), LockoutKey(prefix, ip)});
    }

    method AllowSuccess(id: Uuid, rpm: int) returns (s: ThrottleStatus)
      modifies client`data
      ensures client.data == Throttled(old(client.data), client.now, id, rpm)
      ensures s == Throttle(old(client.data), client.now, id, rpm)
    {
      if id == NIL_UUID || rpm <= 0 {
        return ThrottleStatus(true, rpm, rpm, 0);
      }
      var now := client.now;
      var bucketKey := PerKeyCounterKey(id, now / MINUTE);
      var count := client.Incr(bucketKey);
      client.Expire(bucketKey, BUCKET_TTL);
      if count <= rpm {
        return ThrottleStatus(true, rpm, rpm - count, 0);
      }
      var nextMinute := (now / MINUTE + 1) * MINUTE;
      s := ThrottleStatus(false, rpm, 0, nextMinute - now);
    }
  }

  // ---- the middleware ---------------------------------------------------

  function ExtractPrefix(plaintext: string): (p: string)
    ensures |p| in {0, PREFIX_LENGTH}
  {
    if |plaintext| < PREFIX_LENGTH then "" else plaintext[..PREFIX_LENGTH]
  }

  /**
   How authentication of the presented key would end: Broken stands for every error but ErrAPIKeyInvalid,
   of which ErrAPIKeyRevoked and ErrAPIKeyExpired are known.
   */
  datatype Outcome = Accepted(id: Uuid, rpm: int) | Invalid | Broken(known: bool)

  datatype Request = Request(plaintext: string, ip: string, outcome: Outcome)

  datatype Verdict =
    | Served | PassedOn | Unauthorized | Forbidden | LockedOut(retryAfter: int) | OverRate(retryAfter: int)

  /** Which limiter calls of a request succeed; one that fails has no effect, and the request goes on. */
  datatype Up = Up(check: bool, record: bool, clear: bool, throttle: bool)

  const ALL_UP: Up := Up(true, true, true, true)
  const ALL_DOWN: Up := Up(false, false, false, false)

  function HandledUnder(up: Up, p: Policy, db: Db, now: nat, r: Request): Db {
    var prefix := ExtractPrefix(r.plaintext);
    if r.plaintext == "" || (up.check && StatusOf(db, now, prefix, r.ip).locked) then db
    else
      match r.outcome
      case Broken(_) => db
      case Invalid => if up.record then Failed(p, db, now, prefix, r.ip) else db
      case Accepted(id, rpm) =>
        var cleared := if up.clear then ClearedPair(db, prefix, r.ip) else db;
        if up.throttle then Throttled(cleared, now, id, rpm) else cleared
  }

  function VerdictUnder(up: Up, db: Db, now: nat, required: bool, r: Request): Verdict {
    var prefix := ExtractPrefix(r.plaintext);
    var s := StatusOf(db, now, prefix, r.ip);
    if r.plaintext == "" then if required then Unauthorized else PassedOn
    else if up.check && s.locked then LockedOut(s.retryAfter)
    else
      match r.outcome
      case Broken(known) => if known then Forbidden else Unauthorized
      case Invalid => Unauthorized
      case Accepted(id, rpm) =>
        var cleared := if up.clear then ClearedPair(db, prefix, r.ip) else db;
        var t := Throttle(cleared, now, id, rpm);
        if !up.throttle || t.allowed then Served else OverRate(t.retryAfter)
  }

  function Handled(p: Policy, db: Db, now: nat, r: Request): Db {
    HandledUnder(ALL_UP, p, db, now, r)
  }

  function VerdictOf(db: Db, now: nat, required: bool, r: Request): Verdict {
    VerdictUnder(ALL_UP, db, now, required, r)
  }

  /** The verdict without a limiter. */
  function OpenVerdict(required: bool, r: Request): Verdict {
    if r.plaintext == "" then if required then Unauthorized else PassedOn
    else
      match r.outcome
      case Broken(known) => if known then Forbidden else Unauthorized
      case Invalid => Unauthorized
      case Accepted(_, _) => Served
  }

  method Handle(limiter: RateLimiter?, up: Up, required: bool, r: Request) returns (v: Verdict)
    modifies if limiter == null then {} else {limiter.client}
    ensures limiter == null ==> v == OpenVerdict(required, r)
    ensures limiter != null ==>
              && limiter.client.now == old(limiter.client.now)
              && limiter.client.data
                 == HandledUnder(up, limiter.policy, old(limiter.client.data), limiter.client.now, r)
              && v == VerdictUnder(up, old(limiter.client.data), limiter.client.now, required, r)
    ensures r.plaintext == "" && required ==> v == Unauthorized
    ensures r.plaintext == "" && !required ==> v == PassedOn
    ensures r.plaintext != "" && (v == Unauthorized || v == Forbidden) ==>
              !r.outcome.Accepted? && (v == Forbidden <==> r.outcome == Broken(true))
    ensures v == Served ==> r.plaintext != "" && r.outcome.Accepted?
  {
    if r.plaintext == "" {
      return if required then Unauthorized else PassedOn;
    }
    var prefix := ExtractPrefix(r.plaintext);
    if limiter != null && up.check {
      var status := limiter.IsLockedOut(prefix, r.ip);
      if status.locked {
        return LockedOut(status.retryAfter);
      }
    }
    match r.outcome {
      case Broken(known) => v := if known then Forbidden else Unauthorized;
      case Invalid =>
        if limiter != null && up.record {
          var _ := limiter.RecordFailure(prefix, r.ip);
        }
        v := Unauthorized;
      case Accepted(id, rpm) =>
        v := Served;
        if limiter != null && up.clear {
          limiter.ClearFailures(prefix, r.ip);
        }
        if limiter != null && up.throttle {
          var ts := limiter.AllowSuccess(id, rpm);
          if !ts.allowed {
            v := OverRate(ts.retryAfter);
          }
        }
    }
  }

  /**
   A limiter only ever refuses, whichever of its calls fail: it changes no verdict but to locked out or
   over rate, each only by the call that finds it; with all of them failing it changes nothing.
   */
  lemma LimiterOnlyRefuses(up: Up, p: Policy, db: Db, now: nat, required: bool, r: Request)
    ensures var v := VerdictUnder(up, db, now, required, r);
            && (v == OpenVerdict(required, r) || v.LockedOut? || v.OverRate?)
            && (v.LockedOut? ==> up.check) && (v.OverRate? ==> up.throttle)
    ensures VerdictUnder(ALL_DOWN, db, now, required, r) == OpenVerdict(required, r)
    ensures HandledUnder(ALL_DOWN, p, db, now, r) == db
    ensures OpenVerdict(required, r) == Served <==> r.plaintext != "" && r.outcome.Accepted?
  {
  }

  /** Without a prefix or an address nothing is looked up or recorded, and no request is locked out. */
  lemma UntrackedIsIgnored(up: Up, p: Policy, db: Db, now: nat, required: bool, r: Request)
    requires |r.plaintext| < 11 || r.ip == ""
    ensures !VerdictUnder(up, db, now, required, r).LockedOut?
    ensures !r.outcome.Accepted? ==> HandledUnder(up, p, db, now, r) == db
  {
  }

  // ---- runs of the middleware -------------------------------------------

  datatype Event = Event(at: nat, request: Request)

  function RunDb(p: Policy, es: seq<Event>): Db {
    if es == [] then map[]
    else Handled(p, RunDb(p, es[..|es| - 1]), es[|es| - 1].at, es[|es| - 1].request)
  }

  /** The verified outcomes that requests of one (prefix, address) pair would have. */
  function Hits(es: seq<Event>, prefix: string, ip: string): (hs: seq<Hit>) {
    if es == [] then []
    else
      var init, e := Hits(es[..|es| - 1], prefix, ip), es[|es| - 1];
      if ExtractPrefix(e.request.plaintext) != prefix || e.request.ip != ip || e.request.outcome.Broken? then init
      else init + [Hit(e.at, if e.request.outcome.Invalid? then Failure else Success)]
  }

  lemma ThrottledKeepsPair(db: Db, now: nat, id: Uuid, rpm: int, prefix: string, ip: string)
    ensures PairView(Throttled(db, now, id, rpm), prefix, ip) == PairView(db, prefix, ip)
  {
    ThrottleKeysInjective(id, now / MINUTE, id, now / MINUTE, prefix, ip);
  }

  /** A request changes its own pair's bucket as Lockout.Step says. */
  lemma HandledOwnPair(p: Policy, db: Db, now: nat, r: Request)
    requires var prefix := ExtractPrefix(r.plaintext); Tracked(prefix, r.ip) && !r.outcome.Broken?
    ensures var prefix := ExtractPrefix(r.plaintext);
            var h := Hit(now, if r.outcome.Invalid? then Failure else Success);
            PairView(Handled(p, db, now, r), prefix, r.ip) == Step(p, PairView(db, prefix, r.ip), h)
  {
    var prefix := ExtractPrefix(r.plaintext);
    PairKeysInjective(prefix, r.ip, prefix, r.ip);
    StatusIsLocked(db, now, prefix, r.ip);
    match r.outcome {
      case Invalid =>
        FailureRecordedView(p, db, now, FailureCounterKey(prefix, r.ip), LockoutKey(prefix, r.ip));
      case Accepted(id, rpm) =>
        ThrottledKeepsPair(ClearedPair(db, prefix, r.ip), now, id, rpm, prefix, r.ip);
    }
  }

  /** A request leaves every other pair's bucket alone. */
  lemma HandledOtherPair(p: Policy, db: Db, now: nat, r: Request, prefix: string, ip: string)
    requires |prefix| == PREFIX_LENGTH
    requires ExtractPrefix(r.plaintext) != prefix || r.ip != ip || r.outcome.Broken?
    ensures PairView(Handled(p, db, now, r), prefix, ip) == PairView(db, prefix, ip)
  {
    var own := ExtractPrefix(r.plaintext);
    if own != "" {
      PairKeysInjective(own, r.ip, own, r.ip);
      PairKeysInjective(own, r.ip, prefix, ip);
      PairKeysInjective(prefix, ip, own, r.ip);
      FailureRecordedView(p, db, now, FailureCounterKey(own, r.ip), LockoutKey(own, r.ip));
    }
    match r.outcome {
      case Broken(_) =>
      case Invalid =>
      case Accepted(id, rpm) =>
        ThrottledKeepsPair(ClearedPair(db, own, r.ip), now, id, rpm, prefix, ip);
    }
  }

  /**
   In every run of the middleware the server holds, for each (prefix, address) pair, the bucket of
   that pair's own history; so everything Lockout proves of one history holds of each pair.
   */
  lemma {:induction false} PairRefinesHistory(p: Policy, es: seq<Event>, prefix: string, ip: string)
    requires |prefix| == PREFIX_LENGTH && ip != ""
    ensures PairView(RunDb(p, es), prefix, ip) == After(p, Hits(es, prefix, ip))
  {
    if es != [] {
      var init, e := es[..|es| - 1], es[|es| - 1];
      PairRefinesHistory(p, init, prefix, ip);
      var hs := Hits(es, prefix, ip);
      if ExtractPrefix(e.request.plaintext) != prefix || e.request.ip != ip || e.request.outcome.Broken? {
        HandledOtherPair(p, RunDb(p, init), e.at, e.request, prefix, ip);
      } else {
        HandledOwnPair(p, RunDb(p, init), e.at, e.request);
        assert hs[..|hs| - 1] == Hits(init, prefix, ip);
      }
    }
  }

  predicate Chronological(es: seq<Event>) {
    forall i, j :: 0 <= i < j < |es| ==> es[i].at <= es[j].at
  }

  lemma {:induction false} HitsBefore(es: seq<Event>, now: nat, prefix: string, ip: string)
    requires forall i :: 0 <= i < |es| ==> es[i].at <= now
    ensures forall k :: 0 <= k < |Hits(es, prefix, ip)| ==> Hits(es, prefix, ip)[k].at <= now
  {
    hide ExtractPrefix;
    if es != [] {
      HitsBefore(es[..|es| - 1], now, prefix, ip);
    }
  }

  lemma {:induction false} HitsOrdered(es: seq<Event>, prefix: string, ip: string)
    requires Chronological(es)
    ensures Ordered(Hits(es, prefix, ip))
  {
    hide ExtractPrefix;
    if es != [] {
      HitsOrdered(es[..|es| - 1], prefix, ip);
      HitsBefore(es[..|es| - 1], es[|es| - 1].at, prefix, ip);
    }
  }

  /** A tracked request is refused unverified exactly while its pair's history is locked, until the deadline. */
  lemma LockedOutIff(p: Policy, es: seq<Event>, now: nat, required: bool, r: Request)
    requires ExtractPrefix(r.plaintext) != "" && r.ip != ""
    ensures var b := After(p, Hits(es, ExtractPrefix(r.plaintext), r.ip));
            var v := VerdictOf(RunDb(p, es), now, required, r);
            && (v.LockedOut? <==> Locked(b, now))
            && (v.LockedOut? ==> b.lock.value.expiry == Some(now + v.retryAfter))
  {
    var prefix := ExtractPrefix(r.plaintext);
    PairRefinesHistory(p, es, prefix, r.ip);
    StatusIsLocked(RunDb(p, es), now, prefix, r.ip);
  }

  /**
   From the failure that starts a lockout to the deadline, every request of the pair is refused with
   exactly the time left, whatever else the run contains.
   */
  lemma LockoutIsEnforced(p: Policy, es: seq<Event>, k: nat, now: nat, required: bool, r: Request)
    requires ExtractPrefix(r.plaintext) != "" && r.ip != ""
    requires Chronological(es) && forall e :: e in es ==> e.at <= now
    requires var hs := Hits(es, ExtractPrefix(r.plaintext), r.ip);
             k < |hs| && Starts(p, hs, k) && now <= hs[k].at + p.lockFor
    ensures var hs := Hits(es, ExtractPrefix(r.plaintext), r.ip);
            VerdictOf(RunDb(p, es), now, required, r) == LockedOut(hs[k].at + p.lockFor - now)
  {
    hide Starts, RunDb, VerdictOf, Hits;
    var hs := Hits(es, ExtractPrefix(r.plaintext), r.ip);
    HitsOrdered(es, ExtractPrefix(r.plaintext), r.ip);
    HitsBefore(es, now, ExtractPrefix(r.plaintext), r.ip);
    assert hs[..|hs|] == hs;
    LockoutKeepsItsDeadline(p, hs, k, |hs|);
    StartedLock(p, hs, k);
    LockedOutIff(p, es, now, required, r);
  }
}
