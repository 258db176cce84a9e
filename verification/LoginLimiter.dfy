/** The login limiter's two independent buckets (internal/identity/ratelimit.go). Every Valkey call succeeds. */
module LoginLimiter {
  import opened Wrappers
  import opened Text
  import opened Valkey
  import opened Lockout
  import opened LimiterKeys
  import opened RateLimiter

  /** The two policies, and strings.ToLower. */
  datatype Config = Config(account: Policy, address: Policy, lower: string -> string)

  const ACCOUNT_POLICY: Policy := Policy(300_000, 5, 900_000)
  const ADDRESS_POLICY: Policy := Policy(300_000, 20, 900_000)

  function Defaulted(c: Config): Config {
    c.(account := WithDefaults(c.account, ACCOUNT_POLICY), address := WithDefaults(c.address, ADDRESS_POLICY))
  }

  function Normalize(c: Config, email: string): string {
    c.lower(TrimSpace(email))
  }

  function AccountView(db: Db, email: string): Bucket {
    View(db, LoginAccountFailKey(email), LoginAccountLockoutKey(email))
  }

  function AddressView(db: Db, ip: string): Bucket {
    View(db, LoginIpFailKey(ip), LoginIpLockoutKey(ip))
  }

  /** Milliseconds a bucket's lock has left; 0 without one. */
  function LockLeft(b: Bucket, now: nat): (left: nat) {
    if Locked(b, now) then b.lock.value.expiry.value - now else 0
  }

  function AccountFailed(c: Config, db: Db, now: nat, e: string): Db {
    if e == "" then db
    else FailureRecorded(c.account, db, now, LoginAccountFailKey(e), LoginAccountLockoutKey(e))
  }

  function AddressFailed(c: Config, db: Db, now: nat, ip: string): Db {
    if ip == "" then db else FailureRecorded(c.address, db, now, LoginIpFailKey(ip), LoginIpLockoutKey(ip))
  }

  function LoginFailed(c: Config, db: Db, now: nat, email: string, ip: string): Db {
    AddressFailed(c, AccountFailed(c, db, now, Normalize(c, email)), now, ip)
  }

  function LoginCleared(c: Config, db: Db, email: string): Db {
    var e := Normalize(c, email);
    if email == "" then db else db - {LoginAccountFailKey(e), LoginAccountLockoutKey(e)}
  }

  class LoginRateLimiter {
    const client: Server
    const cfg: Config

    constructor (client: Server, cfg: Config)
      ensures this.client == client && this.cfg == Defaulted(cfg) && this.cfg.lower == cfg.lower
      ensures cfg.account == cfg.address == Policy(0, 0, 0) ==>
                this.cfg.account == Policy(300_000, 5, 900_000) && this.cfg.address == Policy(300_000, 20, 900_000)
    {
      this.client, this.cfg := client, Defaulted(cfg);
    }

    /** Locked exactly when one of the two locks has time left; RetryAfter is the longer of the two. */
    method Check(email: string, ip: string) returns (s: LockoutStatus)
      ensures var e := Normalize(cfg, email);
              var account := if e == "" then 0 else LockLeft(AccountView(client.data, e), client.now);
              var address := if ip == "" then 0 else LockLeft(AddressView(client.data, ip), client.now);
              && (s.locked <==> account > 0 || address > 0)
              && s.retryAfter == if account >= address then account else address
    {
      var e := Normalize(cfg, email);
      var maxRetry, locked := 0, false;
      if e != "" {
        var ttl := client.Pttl(LoginAccountLockoutKey(e));
        if ttl > 0 {
          locked, maxRetry := true, ttl;
        }
      }
      if ip != "" {
        var ttl := client.Pttl(LoginIpLockoutKey(ip));
        if ttl > 0 {
          locked := true;
          if ttl > maxRetry {
            maxRetry := ttl;
          }
        }
      }
      s := LockoutStatus(locked, maxRetry);
    }

    method RecordFailure(email: string, ip: string) returns (accountLockedNow: bool, ipLockedNow: bool)
      modifies client`data
      ensures client.data == LoginFailed(cfg, old(client.data), client.now, email, ip)
      ensures var e := Normalize(cfg, email);
              var b := old(AccountView(client.data, e));
              accountLockedNow <==>
              e != "" && CountOf(Live(b.counter, client.now)) + 1 >= cfg.account.threshold
              && Live(b.lock, client.now).None?
      ensures var b := old(AddressView(client.data, ip));
              ipLockedNow <==>
              ip != "" && CountOf(Live(b.counter, client.now)) + 1 >= cfg.address.threshold
              && Live(b.lock, client.now).None?
    {
      var e := Normalize(cfg, email);
      LoginKeysInjective(e, ip);
      LoginKeysInjective(ip, ip);
      LoginKeysInjective(e, e);
      accountLockedNow, ipLockedNow := false, false;
      ghost var before := client.data;
      if e != "" {
        FailureRecordedView(cfg.account, before, client.now, LoginAccountFailKey(e), LoginAccountLockoutKey(e));
        accountLockedNow :=
          Lockout.RecordFailure(client, cfg.account, LoginAccountFailKey(e), LoginAccountLockoutKey(e));
      }
      assert AddressView(client.data, ip) == AddressView(before, ip);
      if ip != "" {
        ipLockedNow := Lockout.RecordFailure(client, cfg.address, LoginIpFailKey(ip), LoginIpLockoutKey(ip));
      }
    }

    method Clear(email: string)
      modifies client`data
      ensures client.data == LoginCleared(cfg, old(client.data), email)
    {
      if email == "" {
        return;
      }
      var e := Normalize(cfg, email);
      client.Del({LoginAccountFailKey(e), LoginAccountLockoutKey(e)});
    }
  }

  // ---- runs -------------------------------------------------------------

  datatype Op = Fail(at: nat, email: string, ip: string) | Clear(email: string)

  function RunLogin(c: Config, ops: seq<Op>): Db {
    if ops == [] then map[]
    else
      var db := RunLogin(c, ops[..|ops| - 1]);
      match ops[|ops| - 1]
      case Fail(at, email, ip) => LoginFailed(c, db, at, email, ip)
      case Clear(email) => LoginCleared(c, db, email)
  }

  /** The times at which logins from an address failed. */
  function FailuresFrom(ops: seq<Op>, ip: string): (times: seq<nat>) {
    if ops == [] then []
    else
      var init, op := FailuresFrom(ops[..|ops| - 1], ip), ops[|ops| - 1];
      if op.Fail? && op.ip == ip then init + [op.at] else init
  }

  /** The email is core between spaces, and core has none at its ends. */
  ghost predicate Surrounds(email: string, core: string) {
    Bare(core) && exists pre, post :: email == pre + core + post && AllSpace(pre) && AllSpace(post)
  }

  /** The email without the spaces around it lower-cases to e. */
  ghost predicate Names(c: Config, email: string, e: string) {
    exists core :: Surrounds(email, core) && c.lower(core) == e
  }

  lemma NamesIff(c: Config, email: string, e: string)
    ensures Names(c, email, e) <==> Normalize(c, email) == e
  {
    TrimSpaceSplits(email);
    assert Surrounds(email, TrimSpace(email));
    forall core | Surrounds(email, core)
      ensures TrimSpace(email) == core
    {
      var pre, post :| email == pre + core + post && AllSpace(pre) && AllSpace(post);
      TrimSpaceIs(pre, core, post);
    }
  }

  /** What was done to an account: Some(time) for a failure, None for a clear. */
  ghost function DoneTo(c: Config, ops: seq<Op>, e: string): (hs: seq<Option<nat>>) {
    if ops == [] then []
    else
      var init, op := DoneTo(c, ops[..|ops| - 1], e), ops[|ops| - 1];
      if (op.email == "" && op.Clear?) || !Names(c, op.email, e) then init
      else init + [if op.Fail? then Some(op.at) else None]
  }

  function AfterFailures(p: Policy, times: seq<nat>): Bucket {
    if times == [] then FRESH else Recorded(p, AfterFailures(p, times[..|times| - 1]), times[|times| - 1])
  }

  function AfterAll(p: Policy, hs: seq<Option<nat>>): Bucket {
    if hs == [] then FRESH
    else if hs[|hs| - 1].None? then FRESH
    else Recorded(p, AfterAll(p, hs[..|hs| - 1]), hs[|hs| - 1].value)
  }

  lemma FailedViews(c: Config, db: Db, now: nat, email: string, own: string, e: string, ip: string)
    requires e != "" && ip != ""
    ensures var after := LoginFailed(c, db, now, email, own);
            && AccountView(after, e) == (if Normalize(c, email) == e then Recorded(c.account, AccountView(db, e), now)
                                         else AccountView(db, e))
            && AddressView(after, ip) == (if own == ip then Recorded(c.address, AddressView(db, ip), now)
                                          else AddressView(db, ip))
  {
    hide Recorded, FailureRecorded;
    var n := Normalize(c, email);
    var mid := AccountFailed(c, db, now, n);
    KeysApart(n, e, own, ip);
    if n != "" {
      FailureRecordedView(c.account, db, now, LoginAccountFailKey(n), LoginAccountLockoutKey(n));
    }
    if own != "" {
      FailureRecordedView(c.address, mid, now, LoginIpFailKey(own), LoginIpLockoutKey(own));
    }
  }

  lemma KeysApart(n: string, e: string, own: string, ip: string)
    ensures LoginAccountFailKey(n) != LoginAccountLockoutKey(n) && LoginIpFailKey(own) != LoginIpLockoutKey(own)
    ensures n != e ==> {LoginAccountFailKey(e), LoginAccountLockoutKey(e)}
                       !! {LoginAccountFailKey(n), LoginAccountLockoutKey(n)}
    ensures own != ip ==> {LoginIpFailKey(ip), LoginIpLockoutKey(ip)} !! {LoginIpFailKey(own), LoginIpLockoutKey(own)}
    ensures {LoginAccountFailKey(e), LoginAccountLockoutKey(e)} !! {LoginIpFailKey(own), LoginIpLockoutKey(own)}
    ensures {LoginIpFailKey(ip), LoginIpLockoutKey(ip)} !! {LoginAccountFailKey(n), LoginAccountLockoutKey(n)}
  {
    LoginKeysInjective(n, n);
    LoginKeysInjective(n, e);
    LoginKeysInjective(e, n);
    LoginKeysInjective(own, own);
    LoginKeysInjective(own, ip);
    LoginKeysInjective(ip, own);
    LoginKeysInjective(e, own);
    LoginKeysInjective(n, ip);
  }

  lemma ClearedViews(c: Config, db: Db, email: string, e: string, ip: string)
    ensures var after := LoginCleared(c, db, email);
            && AccountView(after, e) == (if email != "" && Normalize(c, email) == e then FRESH else AccountView(db, e))
            && AddressView(after, ip) == AddressView(db, ip)
  {
    KeysApart(Normalize(c, email), e, ip, ip);
  }

  /** Each bucket of a run is the one made by its own operations alone. */
  lemma {:induction false} BucketsAreIndependent(c: Config, ops: seq<Op>, e: string, ip: string)
    requires e != "" && ip != ""
    ensures AddressView(RunLogin(c, ops), ip) == AfterFailures(c.address, FailuresFrom(ops, ip))
    ensures AccountView(RunLogin(c, ops), e) == AfterAll(c.account, DoneTo(c, ops, e))
  {
    hide Recorded, LoginFailed, LoginCleared, Normalize, Names;
    if ops != [] {
      var init := ops[..|ops| - 1];
      BucketsAreIndependent(c, init, e, ip);
      NamesIff(c, ops[|ops| - 1].email, e);
      var db := RunLogin(c, init);
      match ops[|ops| - 1] {
        case Fail(at, email, own) => FailedViews(c, db, at, email, own, e, ip);
        case Clear(email) => ClearedViews(c, db, email, e, ip);
      }
      Snoc(FailuresFrom(ops, ip), FailuresFrom(init, ip));
      Snoc(DoneTo(c, ops, e), DoneTo(c, init, e));
    }
  }

  lemma Snoc<T>(s: seq<T>, init: seq<T>)
    ensures |s| == |init| + 1 && init == s[..|init|] ==> s[..|s| - 1] == init
  {
  }

  function WithoutClears(ops: seq<Op>): (r: seq<Op>) {
    if ops == [] then []
    else
      var init, op := WithoutClears(ops[..|ops| - 1]), ops[|ops| - 1];
      if op.Clear? then init else init + [op]
  }

  lemma {:induction false} ClearsAreNotFailures(ops: seq<Op>, ip: string)
    ensures FailuresFrom(WithoutClears(ops), ip) == FailuresFrom(ops, ip)
  {
    if ops != [] {
      ClearsAreNotFailures(ops[..|ops| - 1], ip);
      var w := WithoutClears(ops);
      if ops[|ops| - 1].Fail? {
        assert w[..|w| - 1] == WithoutClears(ops[..|ops| - 1]);
      }
    }
  }

  /** Deleting every Clear from a run changes no address bucket. */
  lemma AddressesIgnoreClears(c: Config, ops: seq<Op>, ip: string)
    requires ip != ""
    ensures AddressView(RunLogin(c, WithoutClears(ops)), ip) == AddressView(RunLogin(c, ops), ip)
  {
    BucketsAreIndependent(c, ops, "x", ip);
    BucketsAreIndependent(c, WithoutClears(ops), "x", ip);
    ClearsAreNotFailures(ops, ip);
  }

  /** Two runs that treat an account alike, or see the same failures from an address, leave it alike. */
  lemma {:induction false} OnlyOwnOperationsMatter(c: Config, a: seq<Op>, b: seq<Op>, e: string, ip: string)
    requires e != "" && ip != ""
    ensures FailuresFrom(a, ip) == FailuresFrom(b, ip) ==>
              AddressView(RunLogin(c, a), ip) == AddressView(RunLogin(c, b), ip)
    ensures DoneTo(c, a, e) == DoneTo(c, b, e) ==>
              AccountView(RunLogin(c, a), e) == AccountView(RunLogin(c, b), e)
  {
    BucketsAreIndependent(c, a, e, ip);
    BucketsAreIndependent(c, b, e, ip);
  }

  // ---- when a login bucket locks ----------------------------------------

  /** The trailing failures, each at most the configured window after the one before. */
  function TrailingFailures(p: Policy, times: seq<nat>): (n: nat) {
    if |times| <= 1 then |times|
    else if times[|times| - 1] <= times[|times| - 2] + p.window then TrailingFailures(p, times[..|times| - 1]) + 1
    else 1
  }

  lemma {:induction false} CounterIsTrailing(p: Policy, times: seq<nat>)
    requires p.window % 1000 == 0 && times != []
    ensures AfterFailures(p, times).counter
         == Some(Entry(TrailingFailures(p, times), Some(times[|times| - 1] + p.window)))
  {
    WindowIsConfigured(p);
    if |times| > 1 {
      CounterIsTrailing(p, times[..|times| - 1]);
    } else {
      assert times[..0] == [];
    }
  }

  /**
   For a configured window of whole seconds, a failure locks its bucket for the lockout time exactly when
   the failures up to it, each within a window of the one before, reach the threshold and no lock is alive.
   */
  lemma {:induction false} FailureLocksIff(p: Policy, times: seq<nat>)
    requires p.window % 1000 == 0 && times != []
    ensures var last, before := times[|times| - 1], AfterFailures(p, times[..|times| - 1]);
            AfterFailures(p, times).lock ==
            if TrailingFailures(p, times) >= p.threshold && Live(before.lock, last).None?
            then Some(Entry(1, Some(last + p.lockFor))) else before.lock
  {
    CounterIsTrailing(p, times);
  }
}
