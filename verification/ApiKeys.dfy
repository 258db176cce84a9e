/** API-key rows, the two-stage lookup, creation and revocation (internal/identity/apikey.go). */
module ApiKeys {
  import opened Wrappers
  import opened RateLimiter

  type Id = nat

  datatype Status = Active | Revoked | Expired

  /** A row of app.api_keys; prefix None is NULL. */
  datatype KeyRow = KeyRow(
    id: Id, tenant: Option<Id>, agent: string, hash: string, prefix: Option<string>,
    scopes: seq<string>, rpm: int, status: Status, expires: Option<nat>)

  datatype Claims = Claims(id: Id, tenant: Option<Id>, agent: string, scopes: seq<string>, rpm: int)

  datatype Verification = Match | Mismatch | BadHash

  /** HashAPIKey with its salt, and VerifyAPIKey. */
  datatype Crypto = Crypto(hash: (string, string) -> string, verify: (string, string) -> Verification)

  /** A plaintext verifies against its own hash, and no hash verifies two plaintexts. */
  ghost predicate Sound(c: Crypto) {
    && (forall t, salt :: c.verify(t, c.hash(t, salt)) == Match)
    && (forall t, u, h :: c.verify(t, h) == Match && c.verify(u, h) == Match ==> t == u)
  }

  const BRAND: string := "cy_"

  predicate Usable(r: KeyRow, now: nat) {
    r.status == Active && (r.expires.None? || r.expires.value > now)
  }

  function ClaimsOf(r: KeyRow): Claims {
    Claims(r.id, r.tenant, r.agent, r.scopes, r.rpm)
  }

  /** The row is a candidate of the given stage: its prefix is NULL, or it is the presented one. */
  predicate Candidate(r: KeyRow, now: nat, stage: Option<string>) {
    Usable(r, now) && r.prefix == stage
  }

  /** The first candidate row that the plaintext verifies against. */
  function FirstMatch(c: Crypto, rows: seq<KeyRow>, now: nat, stage: Option<string>, t: string): (r: Option<Claims>) {
    if rows == [] then None
    else
      var earlier := FirstMatch(c, rows[..|rows| - 1], now, stage, t);
      var row := rows[|rows| - 1];
      if earlier.None? && Candidate(row, now, stage) && c.verify(t, row.hash) == Match then Some(ClaimsOf(row))
      else earlier
  }

  function Authenticated(c: Crypto, rows: seq<KeyRow>, now: nat, t: string): (r: Option<Claims>) {
    if !(BRAND <= t) then None
    else
      var prefix := ExtractPrefix(t);
      var fast := if prefix == "" then None else FirstMatch(c, rows, now, Some(prefix), t);
      if fast.Some? then fast else FirstMatch(c, rows, now, None, t)
  }

  function Created(c: Crypto, rows: seq<KeyRow>, id: Id, t: string, salt: string, tenant: Option<Id>, agent: string,
                   scopes: seq<string>, rpm: int, expires: Option<nat>): seq<KeyRow>
  {
    var prefix := ExtractPrefix(t);
    rows + [KeyRow(id, tenant, agent, c.hash(t, salt), if prefix == "" then None else Some(prefix),
                   scopes, if rpm <= 0 then 600 else rpm, Active, expires)]
  }

  predicate IdTaken(rows: seq<KeyRow>, id: Id) {
    exists r :: r in rows && r.id == id
  }

  predicate Owned(rows: seq<KeyRow>, id: Id, tenant: Id) {
    exists r :: r in rows && r.id == id && r.tenant == Some(tenant)
  }

  function RevokedRow(r: KeyRow, id: Id): KeyRow {
    if r.id == id && r.status == Active then r.(status := Revoked) else r
  }

  /** UPDATE ... SET status = 'revoked' WHERE id = $1 AND status = 'active'. */
  function RevokedRows(rows: seq<KeyRow>, id: Id): (s: seq<KeyRow>)
    ensures |s| == |rows|
    ensures forall i :: 0 <= i < |rows| ==> s[i] == RevokedRow(rows[i], id)
  {
    seq(|rows|, i requires 0 <= i < |rows| => RevokedRow(rows[i], id))
  }

  class ApiKeyStore {
    var rows: seq<KeyRow>
    const crypto: Crypto

    constructor (crypto: Crypto)
      ensures rows == [] && this.crypto == crypto
    {
      rows := [];
      this.crypto := crypto;
    }

    /** One stage: scan the candidate rows, skipping mismatches and malformed hashes. */
    method Scan(now: nat, stage: Option<string>, t: string) returns (r: Option<Claims>)
      ensures r == FirstMatch(crypto, rows, now, stage, t)
    {
      for i := 0 to |rows|
        invariant FirstMatch(crypto, rows[..i], now, stage, t) == None
      {
        assert rows[..i + 1][..i] == rows[..i];
        if Candidate(rows[i], now, stage) && crypto.verify(t, rows[i].hash) == Match {
          FirstMatchStable(crypto, rows, i + 1, now, stage, t);
          return Some(ClaimsOf(rows[i]));
        }
      }
      assert rows[..|rows|] == rows;
      r := None;
    }

    method Authenticate(now: nat, t: string) returns (r: Option<Claims>)
      ensures r == Authenticated(crypto, rows, now, t)
    {
      if !(BRAND <= t) {
        return None;
      }
      var prefix := ExtractPrefix(t);
      if prefix != "" {
        r := Scan(now, Some(prefix), t);
        if r.Some? {
          return;
        }
      }
      r := Scan(now, None, t);
    }

    /** The primary key rejects an id in use. */
    method Create(id: Id, t: string, salt: string, tenant: Option<Id>, agent: string, scopes: seq<string>,
                  rpm: int, expires: Option<nat>) returns (ok: bool)
      modifies this`rows
      ensures ok <==> !IdTaken(old(rows), id)
      ensures rows == if ok then Created(crypto, old(rows), id, t, salt, tenant, agent, scopes, rpm, expires)
                      else old(rows)
      ensures ok ==> |rows| == |old(rows)| + 1 &&
                     rows[|rows| - 1] == KeyRow(id, tenant, agent, crypto.hash(t, salt),
                                                if |t| < 11 then None else Some(t[..11]), scopes,
                                                if rpm > 0 then rpm else 600, Active, expires)
    {
      ok := !IdTaken(rows, id);
      if ok {
        var limit := if rpm <= 0 then 600 else rpm;
        var prefix := ExtractPrefix(t);
        var column := if prefix == "" then None else Some(prefix);
        rows := rows + [KeyRow(id, tenant, agent, crypto.hash(t, salt), column, scopes, limit, Active, expires)];
      }
    }

    /** False is ErrAPIKeyNotFound. */
    method Revoke(id: Id, tenant: Option<Id>) returns (found: bool)
      modifies this`rows
      ensures found <==> tenant.None? || Owned(old(rows), id, tenant.value)
      ensures rows == if found then RevokedRows(old(rows), id) else old(rows)
      ensures tenant.Some? && (forall r :: r in old(rows) && r.id == id ==> r.tenant != tenant) ==>
                !found && rows == old(rows)
    {
      if tenant.Some? {
        OtherTenantRevokesNothing(crypto, rows, id, tenant.value);
      }
      if tenant.Some? && !Owned(rows, id, tenant.value) {
        return false;
      }
      rows := RevokedRows(rows, id);
      found := true;
    }
  }

  /** Once a row has matched, later rows do not change the answer. */
  lemma {:induction false} FirstMatchStable(c: Crypto, rows: seq<KeyRow>, i: nat, now: nat,
                                            stage: Option<string>, t: string)
    requires i <= |rows| && FirstMatch(c, rows[..i], now, stage, t).Some?
    ensures FirstMatch(c, rows, now, stage, t) == FirstMatch(c, rows[..i], now, stage, t)
    decreases |rows| - i
  {
    if i == |rows| {
      assert rows[..i] == rows;
    } else {
      assert rows[..i + 1][..i] == rows[..i];
      FirstMatchStable(c, rows, i + 1, now, stage, t);
    }
  }

  // ---- the index agrees with a full scan --------------------------------

  predicate Matches(c: Crypto, r: KeyRow, now: nat, t: string) {
    Usable(r, now) && c.verify(t, r.hash) == Match
  }

  lemma {:induction false} FirstMatchFound(c: Crypto, rows: seq<KeyRow>, now: nat, stage: Option<string>, t: string)
    ensures var m := FirstMatch(c, rows, now, stage, t);
            && (m.Some? <==> exists r :: r in rows && r.prefix == stage && Matches(c, r, now, t))
            && (m.Some? ==>
                  exists r :: r in rows && r.prefix == stage && Matches(c, r, now, t) && m.value == ClaimsOf(r))
  {
    if rows != [] {
      var init, row := rows[..|rows| - 1], rows[|rows| - 1];
      FirstMatchFound(c, init, now, stage, t);
      assert rows == init + [row];
    }
  }

  /** key_prefix is NULL or the prefix of every plaintext the row's hash accepts. */
  ghost predicate Indexed(c: Crypto, r: KeyRow) {
    r.prefix.None?
    || (r.prefix.value != "" && forall t :: c.verify(t, r.hash) == Match ==> ExtractPrefix(t) == r.prefix.value)
  }

  ghost predicate AllIndexed(c: Crypto, rows: seq<KeyRow>) {
    forall r :: r in rows ==> Indexed(c, r)
  }

  /** The two stages accept exactly the branded plaintexts a scan of every active unexpired row would. */
  lemma AuthenticationIsFullScan(c: Crypto, rows: seq<KeyRow>, now: nat, t: string)
    requires AllIndexed(c, rows)
    ensures var a := Authenticated(c, rows, now, t);
            && (a.Some? <==>
                  && "cy_" <= t
                  && exists r :: r in rows && r.status == Active && (r.expires.None? || now < r.expires.value)
                                 && c.verify(t, r.hash) == Match)
            && (a.Some? ==> exists r :: r in rows && Matches(c, r, now, t) && a.value == ClaimsOf(r))
  {
    FirstMatchFound(c, rows, now, Some(ExtractPrefix(t)), t);
    FirstMatchFound(c, rows, now, None, t);
    forall r | r in rows
      ensures Matches(c, r, now, t) <==> r.status == Active && (r.expires.None? || now < r.expires.value)
                                         && c.verify(t, r.hash) == Match
    {
    }
    if r :| r in rows && Matches(c, r, now, t) {
      assert Indexed(c, r);
    }
  }

  /** A stage answers with its first row that verifies. */
  lemma {:induction false} FirstMatchIsFirst(c: Crypto, rows: seq<KeyRow>, now: nat, stage: Option<string>, t: string,
                                             i: nat)
    requires i < |rows| && rows[i].prefix == stage && Matches(c, rows[i], now, t)
    requires forall j :: 0 <= j < i ==> !(rows[j].prefix == stage && Matches(c, rows[j], now, t))
    ensures FirstMatch(c, rows, now, stage, t) == Some(ClaimsOf(rows[i]))
  {
    if i < |rows| - 1 {
      FirstMatchIsFirst(c, rows[..|rows| - 1], now, stage, t, i);
    } else {
      FirstMatchFound(c, rows[..i], now, stage, t);
    }
  }

  /** The first row of the key's own prefix that verifies answers before any row without a prefix. */
  lemma PrefixRowsAnswerFirst(c: Crypto, rows: seq<KeyRow>, now: nat, t: string, i: nat)
    requires "cy_" <= t && |t| >= 11
    requires i < |rows| && rows[i].prefix == Some(t[..11]) && Matches(c, rows[i], now, t)
    requires forall j :: 0 <= j < i ==> !(rows[j].prefix == Some(t[..11]) && Matches(c, rows[j], now, t))
    ensures Authenticated(c, rows, now, t)
         == Some(Claims(rows[i].id, rows[i].tenant, rows[i].agent, rows[i].scopes, rows[i].rpm))
  {
    FirstMatchIsFirst(c, rows, now, Some(t[..11]), t, i);
  }

  /** A prefix other than the key's own hides the key from both stages. */
  lemma WrongPrefixHidesTheKey(c: Crypto, r: KeyRow, now: nat, t: string)
    requires Matches(c, r, now, t) && BRAND <= t
    ensures Authenticated(c, [r], now, t).Some? <==> r.prefix.None? || (r.prefix.value == ExtractPrefix(t) != "")
  {
    FirstMatchFound(c, [r], now, Some(ExtractPrefix(t)), t);
    FirstMatchFound(c, [r], now, None, t);
    assert r in [r];
  }

  // ---- runs -------------------------------------------------------------

  datatype Op =
    | CreateKey(id: Id, plaintext: string, salt: string, tenant: Option<Id>, agent: string, scopes: seq<string>,
                rpm: int, expires: Option<nat>)
    | RevokeKey(id: Id, tenant: Option<Id>)

  function Apply(c: Crypto, rows: seq<KeyRow>, op: Op): seq<KeyRow> {
    match op
    case CreateKey(id, t, salt, tenant, agent, scopes, rpm, expires) =>
      if IdTaken(rows, id) then rows else Created(c, rows, id, t, salt, tenant, agent, scopes, rpm, expires)
    case RevokeKey(id, tenant) =>
      if tenant.Some? && !Owned(rows, id, tenant.value) then rows else RevokedRows(rows, id)
  }

  function Run(c: Crypto, rows: seq<KeyRow>, ops: seq<Op>): seq<KeyRow> {
    if ops == [] then rows else Apply(c, Run(c, rows, ops[..|ops| - 1]), ops[|ops| - 1])
  }

  /** A revocation under a tenant that no row with the id has finds nothing and changes nothing. */
  lemma OtherTenantRevokesNothing(c: Crypto, rows: seq<KeyRow>, id: Id, tenant: Id)
    ensures !Owned(rows, id, tenant) <==> forall r :: r in rows && r.id == id ==> r.tenant != Some(tenant)
    ensures !Owned(rows, id, tenant) ==> Apply(c, rows, RevokeKey(id, Some(tenant))) == rows
  {
  }

  /** A revocation that may touch it leaves every other row alone and takes exactly the status of an active one. */
  lemma RevokedFields(c: Crypto, rows: seq<KeyRow>, id: Id, tenant: Option<Id>)
    requires tenant.None? || exists r :: r in rows && r.id == id && r.tenant == tenant
    ensures var after := Apply(c, rows, RevokeKey(id, tenant));
            && |after| == |rows|
            && forall i :: 0 <= i < |rows| ==>
                 && after[i].(status := rows[i].status) == rows[i]
                 && after[i].status == if rows[i].id == id && rows[i].status == Active then Revoked else rows[i].status
  {
  }

  /** Creation and revocation keep the index invariant. */
  lemma {:induction false} RunKeepsIndex(c: Crypto, rows: seq<KeyRow>, ops: seq<Op>)
    requires Sound(c) && AllIndexed(c, rows)
    ensures AllIndexed(c, Run(c, rows, ops))
  {
    if ops != [] {
      var before, op := Run(c, rows, ops[..|ops| - 1]), ops[|ops| - 1];
      RunKeepsIndex(c, rows, ops[..|ops| - 1]);
      forall r | r in Apply(c, before, op)
        ensures Indexed(c, r)
      {
        if op.CreateKey? && r !in before {
          assert c.verify(op.plaintext, c.hash(op.plaintext, op.salt)) == Match;
        } else if op.RevokeKey? && r !in before {
          var i :| 0 <= i < |before| && r == RevokedRow(before[i], op.id);
          assert Indexed(c, before[i]);
        }
      }
    }
  }

  /** An id in use that no active row carries. */
  predicate Dead(rows: seq<KeyRow>, id: Id) {
    IdTaken(rows, id) && forall r :: r in rows && r.id == id ==> r.status != Active
  }

  lemma ApplyKeepsDead(c: Crypto, rows: seq<KeyRow>, op: Op, id: Id)
    requires Dead(rows, id)
    ensures Dead(Apply(c, rows, op), id)
  {
    var after := Apply(c, rows, op);
    var r :| r in rows && r.id == id;
    var i :| 0 <= i < |rows| && rows[i] == r;
    assert after[i].id == id && after[i] in after;
  }

  lemma {:induction false} RunKeepsDead(c: Crypto, rows: seq<KeyRow>, ops: seq<Op>, id: Id)
    requires Dead(rows, id)
    ensures Dead(Run(c, rows, ops), id)
  {
    if ops != [] {
      RunKeepsDead(c, rows, ops[..|ops| - 1], id);
      ApplyKeepsDead(c, Run(c, rows, ops[..|ops| - 1]), ops[|ops| - 1], id);
    }
  }

  /** A revoked key never authenticates again, whatever is created or revoked afterwards. */
  lemma RevokedKeyNeverAuthenticates(c: Crypto, rows: seq<KeyRow>, id: Id, tenant: Option<Id>, ops: seq<Op>,
                                     now: nat, t: string)
    requires exists r :: r in rows && r.id == id && (tenant.Some? ==> r.tenant == tenant)
    ensures var later := Run(c, Apply(c, rows, RevokeKey(id, tenant)), ops);
            var a := Authenticated(c, later, now, t);
            a.Some? ==> a.value.id != id
  {
    var revoked := RevokedRows(rows, id);
    var r :| r in rows && r.id == id;
    var i :| 0 <= i < |rows| && rows[i] == r;
    assert revoked[i] in revoked;
    RunKeepsDead(c, revoked, ops, id);
    var later := Run(c, revoked, ops);
    FirstMatchFound(c, later, now, Some(ExtractPrefix(t)), t);
    FirstMatchFound(c, later, now, None, t);
  }

  // ---- a created key ----------------------------------------------------

  /** The row a creation inserts. */
  function RowOf(c: Crypto, op: Op): KeyRow
    requires op.CreateKey?
  {
    var rows := Created(c, [], op.id, op.plaintext, op.salt, op.tenant, op.agent, op.scopes, op.rpm, op.expires);
    rows[0]
  }

  /** No other row verifies the plaintext. */
  ghost predicate OnlyMatch(c: Crypto, rows: seq<KeyRow>, row: KeyRow, t: string) {
    forall r :: r in rows && c.verify(t, r.hash) == Match ==> r == row
  }

  /** No row has verified the plaintext of a creation before it, and no later creation repeats the plaintext. */
  ghost predicate FreshPlaintext(c: Crypto, rows: seq<KeyRow>, op: Op, ops: seq<Op>)
    requires op.CreateKey?
  {
    && (forall r :: r in rows ==> c.verify(op.plaintext, r.hash) != Match)
    && (forall o :: o in ops && o.CreateKey? ==> o.plaintext != op.plaintext)
  }

  /** No revocation of the key's id, but under a tenant that is not the key's. */
  ghost predicate NotRevoked(op: Op, ops: seq<Op>)
    requires op.CreateKey?
  {
    forall o :: o in ops && o.RevokeKey? && o.id == op.id ==> o.tenant.Some? && o.tenant != op.tenant
  }

  /** The row of a created key stays, alone with its id, as long as its own tenant does not revoke it. */
  lemma {:induction false} CreatedRowStays(c: Crypto, rows: seq<KeyRow>, op: Op, ops: seq<Op>)
    requires op.CreateKey? && !IdTaken(rows, op.id) && NotRevoked(op, ops)
    ensures var later := Run(c, Apply(c, rows, op), ops);
            RowOf(c, op) in later && forall r :: r in later && r.id == op.id ==> r == RowOf(c, op)
  {
    var row, first := RowOf(c, op), Apply(c, rows, op);
    if ops == [] {
      assert first[|first| - 1] == row;
    } else {
      var before, o := Run(c, first, ops[..|ops| - 1]), ops[|ops| - 1];
      CreatedRowStays(c, rows, op, ops[..|ops| - 1]);
      assert o in ops;
      StepKeepsRow(c, before, o, row);
    }
  }

  lemma StepKeepsRow(c: Crypto, before: seq<KeyRow>, o: Op, row: KeyRow)
    requires row in before && forall r :: r in before && r.id == row.id ==> r == row
    requires o.RevokeKey? && o.id == row.id ==> o.tenant.Some? && o.tenant != row.tenant
    ensures row in Apply(c, before, o) && forall r :: r in Apply(c, before, o) && r.id == row.id ==> r == row
  {
    var i :| 0 <= i < |before| && before[i] == row;
    if o.RevokeKey? && o.id == row.id {
      OtherTenantRevokesNothing(c, before, o.id, o.tenant.value);
    } else {
      assert Apply(c, before, o)[i] == row;
    }
  }

  lemma {:induction false} CreatedRowMatchesAlone(c: Crypto, rows: seq<KeyRow>, op: Op, ops: seq<Op>)
    requires Sound(c) && op.CreateKey? && !IdTaken(rows, op.id) && NotRevoked(op, ops)
    requires FreshPlaintext(c, rows, op, ops)
    ensures OnlyMatch(c, Run(c, Apply(c, rows, op), ops), RowOf(c, op), op.plaintext)
  {
    if ops != [] {
      var init, o := ops[..|ops| - 1], ops[|ops| - 1];
      CreatedRowMatchesAlone(c, rows, op, init);
      var before := Run(c, Apply(c, rows, op), init);
      assert o in ops;
      if o.CreateKey? {
        assert c.verify(o.plaintext, c.hash(o.plaintext, o.salt)) == Match;
      } else {
        CreatedRowStays(c, rows, op, init);
        if o.id == op.id {
          OtherTenantRevokesNothing(c, before, o.id, o.tenant.value);
        } else {
          RevocationKeepsOnlyMatch(c, before, o, RowOf(c, op), op.plaintext);
        }
      }
    }
  }

  lemma RevocationKeepsOnlyMatch(c: Crypto, before: seq<KeyRow>, o: Op, row: KeyRow, t: string)
    requires o.RevokeKey? && o.id != row.id && OnlyMatch(c, before, row, t)
    ensures OnlyMatch(c, Apply(c, before, o), row, t)
  {
    forall r | r in RevokedRows(before, o.id) && c.verify(t, r.hash) == Match
      ensures r == row
    {
      var i :| 0 <= i < |before| && r == RevokedRow(before[i], o.id);
      assert before[i] in before;
    }
  }

  /**
   After any later creations, and any revocations of other ids or under other tenants, a created key
   authenticates until it expires.
   When its plaintext is no other row's, it authenticates exactly until then, and with its own claims.
   */
  lemma CreatedKeyAuthenticates(c: Crypto, rows: seq<KeyRow>, op: Op, ops: seq<Op>, now: nat)
    requires Sound(c) && AllIndexed(c, rows) && op.CreateKey? && BRAND <= op.plaintext
    requires !IdTaken(rows, op.id) && NotRevoked(op, ops)
    ensures var a := Authenticated(c, Run(c, Apply(c, rows, op), ops), now, op.plaintext);
            var unexpired := op.expires.None? || op.expires.value > now;
            && (unexpired ==> a.Some?)
            && (FreshPlaintext(c, rows, op, ops) ==>
                  a == if unexpired then
                         Some(Claims(op.id, op.tenant, op.agent, op.scopes, if op.rpm <= 0 then 600 else op.rpm))
                       else None)
  {
    hide Authenticated, Apply;
    var row, later := RowOf(c, op), Run(c, Apply(c, rows, op), ops);
    RunKeepsIndex(c, rows, [op]);
    assert [op][..0] == [] && Run(c, rows, [op]) == Apply(c, rows, op);
    RunKeepsIndex(c, Apply(c, rows, op), ops);
    CreatedRowStays(c, rows, op, ops);
    AuthenticationIsFullScan(c, later, now, op.plaintext);
    assert c.verify(op.plaintext, c.hash(op.plaintext, op.salt)) == Match;
    if FreshPlaintext(c, rows, op, ops) {
      CreatedRowMatchesAlone(c, rows, op, ops);
    }
  }
}
