/**
 Brute-force lockout of one bucket: a failure counter whose expiry every failure re-arms, and a
 lock that is set only when absent (internal/identity/ratelimit.go). Times are milliseconds.
 */
module Lockout {
  import opened Wrappers
  import opened Valkey

  datatype Policy = Policy(window: nat, threshold: int, lockFor: nat)

  /** The window as EXPIRE receives it. */
  function Window(p: Policy): (w: nat) {
    WholeSeconds(p.window)
  }

  /** The two server entries of a bucket, expired or not. */
  datatype Bucket = Bucket(counter: Option<Entry>, lock: Option<Entry>)

  const FRESH: Bucket := Bucket(None, None)

  function Live(e: Option<Entry>, now: nat): Option<Entry> {
    if e.Some? && AliveAt(e.value, now) then e else None
  }

  function View(db: Db, failKey: string, lockKey: string): (b: Bucket) {
    Bucket(if failKey in db then Some(db[failKey]) else None, if lockKey in db then Some(db[lockKey]) else None)
  }

  /** What one recorded failure makes of a bucket. */
  function Recorded(p: Policy, b: Bucket, now: nat): Bucket {
    var count := CountOf(Live(b.counter, now)) + 1;
    Bucket(Some(Entry(count, Some(now + Window(p)))),
           if count < p.threshold || Live(b.lock, now).Some? then b.lock
           else Some(Entry(1, Some(now + p.lockFor))))
  }

  /** INCR and EXPIRE on the counter, then SETNX on the lock once the threshold is reached. */
  function FailureRecorded(p: Policy, db: Db, now: nat, failKey: string, lockKey: string): Db {
    var counted := Expiring(Incremented(db, now, failKey), now, failKey, Window(p));
    if counted[failKey].value < p.threshold then counted
    else SetIfAbsent(counted, now, lockKey, 1, p.lockFor)
  }

  /** The server commands do to the bucket what Recorded says, and nothing to any other key. */
  lemma FailureRecordedView(p: Policy, db: Db, now: nat, failKey: string, lockKey: string)
    requires failKey != lockKey
    ensures View(FailureRecorded(p, db, now, failKey, lockKey), failKey, lockKey)
         == Recorded(p, View(db, failKey, lockKey), now)
    ensures forall f, l :: f !in {failKey, lockKey} && l !in {failKey, lockKey} ==>
              View(FailureRecorded(p, db, now, failKey, lockKey), f, l) == View(db, f, l)
  {
  }

  method RecordFailure(client: Server, p: Policy, failKey: string, lockKey: string) returns (lockedNow: bool)
    requires failKey != lockKey
    modifies client`data
    ensures client.data == FailureRecorded(p, old(client.data), client.now, failKey, lockKey)
    ensures var b := old(View(client.data, failKey, lockKey));
            lockedNow <==> CountOf(Live(b.counter, client.now)) + 1 >= p.threshold && Live(b.lock, client.now).None?
  {
    var count := client.Incr(failKey);
    client.Expire(failKey, p.window);
    if count < p.threshold {
      return false;
    }
    lockedNow := client.SetNX(lockKey, 1, p.lockFor);
  }

  // ---- the history of one bucket behind the middleware ------------------

  datatype Attempt = Failure | Success
  datatype Hit = Hit(at: nat, attempt: Attempt)

  predicate Locked(b: Bucket, now: nat) {
    var e := Live(b.lock, now);
    e.Some? && e.value.expiry.Some?
  }

  /** While the bucket is locked an attempt is refused before it is verified. */
  function Step(p: Policy, b: Bucket, h: Hit): Bucket {
    if Locked(b, h.at) then b
    else if h.attempt == Failure then Recorded(p, b, h.at)
    else FRESH
  }

  function After(p: Policy, hs: seq<Hit>): Bucket {
    if hs == [] then FRESH else Step(p, After(p, hs[..|hs| - 1]), hs[|hs| - 1])
  }

  predicate Ordered(hs: seq<Hit>) {
    forall i, j :: 0 <= i < j < |hs| ==> hs[i].at <= hs[j].at
  }

  /** Attempt k was verified, failed and was counted. */
  predicate Counts(p: Policy, hs: seq<Hit>, k: nat)
    requires k < |hs|
  {
    hs[k].attempt == Failure && !Locked(After(p, hs[..k]), hs[k].at)
  }

  /** Attempt k established a lockout. */
  predicate Starts(p: Policy, hs: seq<Hit>, k: nat)
    requires k < |hs|
  {
    Counts(p, hs, k) && Locked(After(p, hs[..k + 1]), hs[k].at)
  }

  lemma AfterStep(p: Policy, hs: seq<Hit>, k: nat)
    requires k < |hs|
    ensures After(p, hs[..k + 1]) == Step(p, After(p, hs[..k]), hs[k])
  {
    assert hs[..k + 1][..k] == hs[..k];
  }

  // ---- what triggers a lockout ------------------------------------------

  /** The counted failures up to n, each within a window of the one before, since the last success. */
  datatype Chain = Chain(length: nat, last: nat)

  function ChainAfter(p: Policy, hs: seq<Hit>, n: nat): (c: Chain)
    requires n <= |hs|
  {
    if n == 0 then Chain(0, 0)
    else
      var c := ChainAfter(p, hs, n - 1);
      var h := hs[n - 1];
      if Counts(p, hs, n - 1) then Chain(if h.at <= c.last + Window(p) then c.length + 1 else 1, h.at)
      else if h.attempt == Success && !Locked(After(p, hs[..n - 1]), h.at) then Chain(0, 0)
      else c
  }

  lemma {:induction false} CounterIsChain(p: Policy, hs: seq<Hit>, n: nat)
    requires n <= |hs|
    ensures var c := ChainAfter(p, hs, n);
            After(p, hs[..n]).counter ==
            if c.length == 0 then None else Some(Entry(c.length, Some(c.last + Window(p))))
    ensures var l := After(p, hs[..n]).lock; l.Some? ==> l.value.expiry.Some?
  {
    if n > 0 {
      CounterIsChain(p, hs, n - 1);
      AfterStep(p, hs, n - 1);
    }
  }

  /**
   A lockout starts exactly at the counted failure that makes the chain of failures, each at most a
   window after the previous one, as long as the threshold.
   */
  lemma LockoutIffChain(p: Policy, hs: seq<Hit>, k: nat)
    requires k < |hs|
    ensures Starts(p, hs, k) <==> Counts(p, hs, k) && ChainAfter(p, hs, k + 1).length >= p.threshold
  {
    CounterIsChain(p, hs, k);
    CounterIsChain(p, hs, k + 1);
    AfterStep(p, hs, k);
  }

  function CountedIn(p: Policy, hs: seq<Hit>, a: nat, b: nat): (n: nat)
    requires a <= b <= |hs|
  {
    if a == b then 0 else CountedIn(p, hs, a, b - 1) + if Counts(p, hs, b - 1) then 1 else 0
  }

  lemma {:induction false} ChainCountsFailures(p: Policy, hs: seq<Hit>, a: nat, b: nat)
    requires a < b <= |hs| && Ordered(hs) && Counts(p, hs, a)
    requires forall k :: a <= k < b ==> hs[k].attempt == Failure && hs[k].at <= hs[a].at + Window(p)
    ensures ChainAfter(p, hs, b).length >= CountedIn(p, hs, a, b) >= 1
    ensures hs[a].at <= ChainAfter(p, hs, b).last
  {
    if b == a + 1 {
      assert CountedIn(p, hs, a, a) == 0;
    } else {
      ChainCountsFailures(p, hs, a, b - 1);
    }
  }

  /** Threshold counted failures inside one window, with no success between, start a lockout. */
  lemma {:induction false} FailuresInsideWindowLock(p: Policy, hs: seq<Hit>, a: nat, b: nat)
    requires a <= b < |hs| && Ordered(hs) && Counts(p, hs, a) && Counts(p, hs, b)
    requires forall k :: a <= k <= b ==> hs[k].attempt == Failure && hs[k].at <= hs[a].at + Window(p)
    requires CountedIn(p, hs, a, b + 1) >= p.threshold
    ensures Starts(p, hs, b) && Locked(After(p, hs[..b + 1]), hs[b].at + p.lockFor)
  {
    ChainCountsFailures(p, hs, a, b + 1);
    LockoutIffChain(p, hs, b);
    StartedLock(p, hs, b);
  }

  /** The bucket just after a lockout starts. */
  lemma StartedLock(p: Policy, hs: seq<Hit>, k: nat)
    requires k < |hs| && Starts(p, hs, k)
    ensures var b := After(p, hs[..k + 1]);
            && b.lock == Some(Entry(1, Some(hs[k].at + p.lockFor)))
            && b.counter.Some? && b.counter.value.expiry == Some(hs[k].at + Window(p))
            && b.counter.value.value >= p.threshold
  {
    AfterStep(p, hs, k);
    CounterIsChain(p, hs, k);
  }

  /** n failures, d apart. */
  function Spaced(d: nat, n: nat): (hs: seq<Hit>)
    ensures |hs| == n && forall i :: 0 <= i < n ==> hs[i] == Hit(i * d, Failure)
  {
    seq(n, i requires 0 <= i => Hit(i * d, Failure))
  }

  lemma SpacedPrefix(d: nat, n: nat, m: nat)
    requires n <= m
    ensures Spaced(d, m)[..n] == Spaced(d, n)
  {
  }

  lemma StartsPrefix(p: Policy, a: seq<Hit>, b: seq<Hit>, k: nat)
    requires k < |a| && k < |b| && a[..k + 1] == b[..k + 1]
    ensures Starts(p, a, k) <==> Starts(p, b, k)
  {
    assert a[..k] == a[..k + 1][..k] && b[..k] == b[..k + 1][..k];
    assert a[k] == a[..k + 1][k] && b[k] == b[..k + 1][k];
  }

  /**
   The window slides although it is described as fixed: failures spaced d apart, for any
   d up to the window, lock at the threshold however long they take together.
   */
  lemma {:induction false} SpacedFailuresLock(p: Policy, d: nat, n: nat)
    requires d <= Window(p) && n >= 1 && n <= p.threshold
    ensures var hs := Spaced(d, n);
            && ChainAfter(p, hs, n) == Chain(n, (n - 1) * d)
            && Counts(p, hs, n - 1)
            && (Starts(p, hs, n - 1) <==> n == p.threshold)
            && (n < p.threshold ==> After(p, hs).lock == None)
  {
    hide Spaced;
    var hs := Spaced(d, n);
    assert hs[..n] == hs;
    if n > 1 {
      SpacedFailuresLock(p, d, n - 1);
      var init := Spaced(d, n - 1);
      SpacedPrefix(d, n - 1, n);
      assert init[..n - 1] == init;
      ChainPrefix(p, init, hs, n - 1);
      assert (n - 1) * d == (n - 2) * d + d;
    } else {
      assert hs[..0] == [];
    }
    AfterStep(p, hs, n - 1);
    CounterIsChain(p, hs, n - 1);
    LockoutIffChain(p, hs, n - 1);
  }

  lemma {:induction false} ChainPrefix(p: Policy, a: seq<Hit>, b: seq<Hit>, n: nat)
    requires n <= |a| && n <= |b| && a[..n] == b[..n]
    ensures ChainAfter(p, a, n) == ChainAfter(p, b, n)
  {
    if n > 0 {
      assert a[..n - 1] == a[..n][..n - 1] == b[..n][..n - 1] == b[..n - 1];
      assert a[n - 1] == a[..n][n - 1] == b[n - 1];
      ChainPrefix(p, a, b, n - 1);
    }
  }

  // ---- the configured window --------------------------------------------

  /** EXPIRE cuts the configured window to whole seconds, but never below one. */
  lemma WindowIsConfigured(p: Policy)
    ensures p.window % 1000 == 0 ==> Window(p) == p.window
    ensures p.window >= 1000 ==> p.window - 1000 < Window(p) <= p.window
    ensures 0 < p.window < 1000 ==> Window(p) == 1000
  {
  }

  /** The server forgets a lone failure exactly when more than the configured window of whole seconds has passed. */
  lemma FailureIsForgottenIff(p: Policy, b: Bucket, at: nat, now: nat)
    requires p.window % 1000 == 0
    ensures Live(Recorded(p, b, at).counter, now).None? <==> now > at + p.window
  {
    WindowIsConfigured(p);
  }

  /** For a configured window of whole seconds, failures spaced up to it lock at the threshold. */
  lemma SpacedByWindowLock(p: Policy, d: nat)
    requires p.window % 1000 == 0 && d <= p.window && p.threshold >= 1
    ensures var hs := Spaced(d, p.threshold);
            Starts(p, hs, p.threshold - 1) && forall k :: 0 <= k < p.threshold - 1 ==> !Starts(p, hs, k)
  {
    hide Spaced, Starts, Window;
    WindowIsConfigured(p);
    SpacedFailuresLock(p, d, p.threshold);
    forall k | 0 <= k < p.threshold - 1
      ensures !Starts(p, Spaced(d, p.threshold), k)
    {
      SpacedFailuresLock(p, d, k + 1);
      SpacedPrefix(d, k + 1, p.threshold);
      assert Spaced(d, k + 1)[..k + 1] == Spaced(d, k + 1);
      StartsPrefix(p, Spaced(d, k + 1), Spaced(d, p.threshold), k);
    }
  }

  /** Each failure comes more than the configured window after every earlier one. */
  predicate Sparse(p: Policy, hs: seq<Hit>) {
    forall i, j :: 0 <= i < j < |hs| && hs[i].attempt == Failure && hs[j].attempt == Failure ==>
      hs[j].at > hs[i].at + p.window
  }

  lemma {:induction false} SparseChain(p: Policy, hs: seq<Hit>, n: nat)
    requires n <= |hs| && Sparse(p, hs) && (p.window == 0 || p.window >= 1000)
    ensures var c := ChainAfter(p, hs, n);
            c.length <= 1 && (c.length == 1 ==> exists i :: 0 <= i < n && hs[i] == Hit(c.last, Failure))
  {
    if n > 0 {
      SparseChain(p, hs, n - 1);
      WindowIsConfigured(p);
    }
  }

  /** With a threshold of two or more, failures further apart than the configured window never start a lockout. */
  lemma SparseFailuresNeverLock(p: Policy, hs: seq<Hit>, k: nat)
    requires k < |hs| && Sparse(p, hs) && (p.window == 0 || p.window >= 1000) && p.threshold >= 2
    ensures !Starts(p, hs, k)
  {
    SparseChain(p, hs, k + 1);
    LockoutIffChain(p, hs, k);
  }

  // ---- what a lockout does ----------------------------------------------

  /** Up to its deadline a lockout is neither extended nor lifted, and counts nothing. */
  lemma {:induction false} LockoutKeepsItsDeadline(p: Policy, hs: seq<Hit>, k: nat, n: nat)
    requires k < n <= |hs| && Ordered(hs) && Starts(p, hs, k)
    requires hs[n - 1].at <= hs[k].at + p.lockFor
    ensures After(p, hs[..n]) == After(p, hs[..k + 1])
    ensures Locked(After(p, hs[..n]), hs[k].at + p.lockFor)
    ensures CountedIn(p, hs, k + 1, n) == 0
  {
    StartedLock(p, hs, k);
    if n > k + 1 {
      LockoutKeepsItsDeadline(p, hs, k, n - 1);
      AfterStep(p, hs, n - 1);
    }
  }

  /** The counter is gone once the lockout has ended exactly when the window is no longer than the lockout. */
  lemma CounterGoneAfterLockout(p: Policy, hs: seq<Hit>, k: nat)
    requires k < |hs| && Starts(p, hs, k)
    ensures Live(After(p, hs[..k + 1]).counter, hs[k].at + p.lockFor + 1).None? <==> Window(p) <= p.lockFor
  {
    StartedLock(p, hs, k);
  }

  /** Past the deadline the counter is no larger than the number of failures counted since the start. */
  lemma {:induction false} FreshCountAfterLockout(p: Policy, hs: seq<Hit>, k: nat, n: nat)
    requires k < n <= |hs| && Ordered(hs) && Starts(p, hs, k) && Window(p) <= p.lockFor
    requires hs[n - 1].at > hs[k].at + p.lockFor
    ensures CountOf(After(p, hs[..n]).counter) <= CountedIn(p, hs, k + 1, n)
  {
    hide Starts, After;
    AfterStep(p, hs, n - 1);
    if hs[n - 2].at > hs[k].at + p.lockFor {
      FreshCountAfterLockout(p, hs, k, n - 1);
    } else {
      LockoutKeepsItsDeadline(p, hs, k, n - 1);
      StartedLock(p, hs, k);
    }
  }

  /**
   Two lockouts start more than a lockout apart and, when the window is no longer than the lockout, at
   least a threshold of counted failures apart.
   */
  lemma LockoutsAreFarApart(p: Policy, hs: seq<Hit>, j: nat, k: nat)
    requires j < k < |hs| && Ordered(hs)
    requires Starts(p, hs, j) && Starts(p, hs, k)
    ensures hs[k].at > hs[j].at + p.lockFor
    ensures Window(p) <= p.lockFor ==> CountedIn(p, hs, j + 1, k + 1) >= p.threshold
  {
    StartedLock(p, hs, j);
    StartedLock(p, hs, k);
    AfterStep(p, hs, k);
    if hs[k - 1].at <= hs[j].at + p.lockFor {
      LockoutKeepsItsDeadline(p, hs, j, k);
    } else if Window(p) <= p.lockFor {
      FreshCountAfterLockout(p, hs, j, k);
    }
  }

  /** With a longer window than lockout, one more failure starts the next lockout. */
  lemma ShortLockoutsRestartAtOnce(p: Policy, hs: seq<Hit>, k: nat)
    requires k + 1 < |hs| && Starts(p, hs, k) && Window(p) > p.lockFor
    requires hs[k + 1] == Hit(hs[k].at + p.lockFor + 1, Failure)
    ensures Starts(p, hs, k + 1)
  {
    StartedLock(p, hs, k);
    AfterStep(p, hs, k + 1);
  }
}
