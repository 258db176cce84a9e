/** The Valkey keys of the three limiters (internal/identity/ratelimit.go). */
module LimiterKeys {
  import opened Text

  /** len("cy_") + 8. */
  const PREFIX_LENGTH: nat := 11

  /** The canonical text of a UUID. */
  type Uuid = s: string | |s| == 36 witness seq(36, i => '0')

  const NIL_UUID: string := "00000000-0000-0000-0000-000000000000"

  function FailureCounterKey(prefix: string, ip: string): string {
    "apikey:bf:fail:" + prefix + ":" + ip
  }

  function LockoutKey(prefix: string, ip: string): string {
    "apikey:bf:lock:" + prefix + ":" + ip
  }

  function PerKeyCounterKey(id: string, minute: nat): string {
    "apikey:rl:" + id + ":" + Digits(minute)
  }

  function LoginAccountFailKey(email: string): string {
    "login:bf:account:fail:" + email
  }

  function LoginAccountLockoutKey(email: string): string {
    "login:bf:account:lock:" + email
  }

  function LoginIpFailKey(ip: string): string {
    "login:bf:ip:fail:" + ip
  }

  function LoginIpLockoutKey(ip: string): string {
    "login:bf:ip:lock:" + ip
  }

  lemma SuffixEqual(head: string, a: string, b: string)
    requires head + a == head + b
    ensures a == b
  {
    assert a == (head + a)[|head|..] && b == (head + b)[|head|..];
  }

  lemma HeadsDiffer(h1: string, h2: string, a: string, b: string, i: nat)
    requires i < |h1| && i < |h2| && h1[i] != h2[i]
    ensures h1 + a != h2 + b
  {
    assert (h1 + a)[i] == h1[i] && (h2 + b)[i] == h2[i];
  }

  /** Joining with ':' is injective when the first part has a fixed length, whatever it contains. */
  lemma JoinInjective(head: string, p: string, a: string, q: string, b: string)
    requires |p| == |q| && head + p + ":" + a == head + q + ":" + b
    ensures p == q && a == b
  {
    var s, t := head + p + ":" + a, head + q + ":" + b;
    assert s == head + (p + (":" + a)) && t == head + (q + (":" + b));
    SuffixEqual(head, p + (":" + a), q + (":" + b));
    assert p == (p + (":" + a))[..|p|] && q == (q + (":" + b))[..|q|];
    SuffixEqual(p, ":" + a, ":" + b);
    SuffixEqual(":", a, b);
  }

  /** The lockout keys of a pair belong to no other pair. */
  lemma PairKeysInjective(p: string, a: string, q: string, b: string)
    requires |p| == |q| == PREFIX_LENGTH
    ensures FailureCounterKey(p, a) == FailureCounterKey(q, b) ==> p == q && a == b
    ensures LockoutKey(p, a) == LockoutKey(q, b) ==> p == q && a == b
    ensures FailureCounterKey(p, a) != LockoutKey(q, b)
  {
    if FailureCounterKey(p, a) == FailureCounterKey(q, b) {
      JoinInjective("apikey:bf:fail:", p, a, q, b);
    }
    if LockoutKey(p, a) == LockoutKey(q, b) {
      JoinInjective("apikey:bf:lock:", p, a, q, b);
    }
    assert FailureCounterKey(p, a) == "apikey:bf:fail:" + (p + ":" + a);
    assert LockoutKey(q, b) == "apikey:bf:lock:" + (q + ":" + b);
    HeadsDiffer("apikey:bf:fail:", "apikey:bf:lock:", p + ":" + a, q + ":" + b, 10);
  }

  /** Per-key counters collide neither with each other nor with the lockout keys. */
  lemma ThrottleKeysInjective(id: Uuid, m: nat, id2: Uuid, m2: nat, p: string, a: string)
    ensures PerKeyCounterKey(id, m) == PerKeyCounterKey(id2, m2) ==> id == id2 && m == m2
    ensures PerKeyCounterKey(id, m) != FailureCounterKey(p, a)
    ensures PerKeyCounterKey(id, m) != LockoutKey(p, a)
  {
    if PerKeyCounterKey(id, m) == PerKeyCounterKey(id2, m2) {
      JoinInjective("apikey:rl:", id, Digits(m), id2, Digits(m2));
      assert Value(Digits(m)) == Value(Digits(m2));
    }
    var tail := id + ":" + Digits(m);
    assert PerKeyCounterKey(id, m) == "apikey:rl:" + tail;
    assert FailureCounterKey(p, a) == "apikey:bf:fail:" + (p + ":" + a);
    assert LockoutKey(p, a) == "apikey:bf:lock:" + (p + ":" + a);
    HeadsDiffer("apikey:rl:", "apikey:bf:fail:", tail, p + ":" + a, 7);
    HeadsDiffer("apikey:rl:", "apikey:bf:lock:", tail, p + ":" + a, 7);
  }

  /** Distinct accounts, distinct addresses and the four login key families never share a key. */
  lemma LoginKeysInjective(a: string, b: string)
    ensures LoginAccountFailKey(a) == LoginAccountFailKey(b) ==> a == b
    ensures LoginAccountLockoutKey(a) == LoginAccountLockoutKey(b) ==> a == b
    ensures LoginIpFailKey(a) == LoginIpFailKey(b) ==> a == b
    ensures LoginIpLockoutKey(a) == LoginIpLockoutKey(b) ==> a == b
    ensures LoginAccountFailKey(a) != LoginAccountLockoutKey(b)
    ensures LoginIpFailKey(a) != LoginIpLockoutKey(b)
    ensures {LoginAccountFailKey(a), LoginAccountLockoutKey(a)} !! {LoginIpFailKey(b), LoginIpLockoutKey(b)}
  {
    if LoginAccountFailKey(a) == LoginAccountFailKey(b) {
      SuffixEqual("login:bf:account:fail:", a, b);
    }
    if LoginAccountLockoutKey(a) == LoginAccountLockoutKey(b) {
      SuffixEqual("login:bf:account:lock:", a, b);
    }
    if LoginIpFailKey(a) == LoginIpFailKey(b) {
      SuffixEqual("login:bf:ip:fail:", a, b);
    }
    if LoginIpLockoutKey(a) == LoginIpLockoutKey(b) {
      SuffixEqual("login:bf:ip:lock:", a, b);
    }
    HeadsDiffer("login:bf:account:fail:", "login:bf:account:lock:", a, b, 17);
    HeadsDiffer("login:bf:ip:fail:", "login:bf:ip:lock:", a, b, 12);
    HeadsDiffer("login:bf:account:fail:", "login:bf:ip:fail:", a, b, 9);
    HeadsDiffer("login:bf:account:fail:", "login:bf:ip:lock:", a, b, 9);
    HeadsDiffer("login:bf:account:lock:", "login:bf:ip:fail:", a, b, 9);
    HeadsDiffer("login:bf:account:lock:", "login:bf:ip:lock:", a, b, 9);
  }
}
