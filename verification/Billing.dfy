/**
 Budget creation and consumption (internal/billing/store.go), sequentially and as interleaved
 transactions that hold the budget's row lock. Satoshi columns are BIGINT.
 */
module Billing {
  import opened Int64
  import opened Wrappers

  type Id = nat
  type Client = nat

  datatype Budget = Budget(tenant: Id, budget: int, consumed: int, hardLimit: bool)

  datatype Error = Validation | NotFound | HardLimitHit | OutOfRange | CommitFailed

  datatype Outcome = Granted(row: Budget) | Refused(error: Error)

  /** CreateBudget's checks; the columns are bigints. */
  predicate Creatable(tenant: Id, scopeType: string, budget: int) {
    tenant != 0 && scopeType != "" && 0 < budget <= MAX
  }

  /** The guard as Go evaluates it: the sum wraps. */
  predicate OverLimit(b: Budget, satoshis: int) {
    b.hardLimit && Wrap(b.consumed + satoshis) > b.budget
  }

  /** consumed_satoshis + $2, and the generated remaining_satoshis, must fit their columns. */
  predicate ColumnsFit(b: Budget, satoshis: int) {
    Fits(b.consumed + satoshis) && Fits(b.budget - (b.consumed + satoshis))
  }

  /** What a Consume that sees row b does. */
  function Consumed(b: Budget, satoshis: int): (o: Outcome) {
    if satoshis < 0 then Refused(Validation)
    else if OverLimit(b, satoshis) then Refused(HardLimitHit)
    else if !ColumnsFit(b, satoshis) then Refused(OutOfRange)
    else Granted(b.(consumed := b.consumed + satoshis))
  }

  /** What every row satisfies. */
  predicate RowOk(b: Budget) {
    0 < b.budget <= MAX && 0 <= b.consumed <= MAX && (b.hardLimit ==> b.consumed <= b.budget)
  }

  /** For int64 requests the wrapped guard and the column check refuse exactly what exceeds the limit or the range. */
  lemma GrantIff(b: Budget, satoshis: int)
    requires RowOk(b) && 0 <= satoshis <= MAX
    ensures Consumed(b, satoshis).Granted? <==>
            b.consumed + satoshis <= if b.hardLimit then b.budget else MAX
    ensures Consumed(b, satoshis).Granted? ==> RowOk(Consumed(b, satoshis).row)
    ensures OverLimit(b, satoshis) <==> b.hardLimit && b.budget < b.consumed + satoshis <= MAX
  {
    if b.consumed + satoshis > MAX {
      assert Wrap(b.consumed + satoshis) == b.consumed + satoshis - MODULUS;
    }
  }

  /** The Go guard alone lets a huge request through; only the column's range rejects it. */
  lemma GuardAloneIsNotEnough()
    ensures var b := Budget(1, 100, 50, true);
            && RowOk(b) && !OverLimit(b, MAX)
            && b.consumed + MAX > b.budget && Consumed(b, MAX) == Refused(OutOfRange)
  {
    GrantIff(Budget(1, 100, 50, true), MAX);
  }

  class Store {
    var rows: map<Id, Budget>

    ghost predicate Valid()
      reads this
    {
      forall id :: id in rows ==> RowOk(rows[id])
    }

    constructor ()
      ensures Valid() && rows == map[]
    {
      rows := map[];
    }

    /** The id is a fresh UUID. */
    method CreateBudget(id: Id, tenant: Id, scopeType: string, budget: int, hardLimit: bool) returns (e: Option<Error>)
      requires Valid() && id !in rows && Fits(budget)
      modifies this
      ensures Valid()
      ensures e == if tenant != 0 && scopeType != "" && budget > 0 then None else Some(Validation)
      ensures rows == if e == None then old(rows)[id := Budget(tenant, budget, 0, hardLimit)] else old(rows)
    {
      if tenant == 0 {
        return Some(Validation);
      }
      if scopeType == "" {
        return Some(Validation);
      }
      if budget <= 0 {
        return Some(Validation);
      }
      rows := rows[id := Budget(tenant, budget, 0, hardLimit)];
      e := None;
    }

    method Consume(tenant: Id, id: Id, satoshis: int, commits: bool) returns (o: Outcome)
      requires Valid() && Fits(satoshis)
      modifies this
      ensures Valid()
      ensures satoshis < 0 ==> o == Refused(Validation)
      ensures satoshis >= 0 && !(id in old(rows) && old(rows)[id].tenant == tenant) ==> o == Refused(NotFound)
      ensures satoshis >= 0 && id in old(rows) && old(rows)[id].tenant == tenant ==>
                var b := old(rows)[id];
                var fits := b.consumed + satoshis <= if b.hardLimit then b.budget else MAX;
                && (o.Granted? <==> fits && commits)
                && (o.Granted? ==> o.row == b.(consumed := b.consumed + satoshis))
                && (fits && !commits ==> o == Refused(CommitFailed))
                && (!fits ==> o == Refused(if b.consumed + satoshis <= MAX then HardLimitHit else OutOfRange))
      ensures rows == if o.Granted? then old(rows)[id := o.row] else old(rows)
    {
      if satoshis < 0 {
        return Refused(Validation);
      }
      if !(id in rows && rows[id].tenant == tenant) {
        return Refused(NotFound);
      }
      var current := rows[id];
      GrantIff(current, satoshis);
      if current.hardLimit && Wrap(current.consumed + satoshis) > current.budget {
        return Refused(HardLimitHit);
      }
      if !ColumnsFit(current, satoshis) {
        return Refused(OutOfRange);
      }
      if !commits {
        return Refused(CommitFailed);
      }
      var updated := current.(consumed := current.consumed + satoshis);
      rows := rows[id := updated];
      o := Granted(updated);
    }
  }

  // ---- interleaved transactions -----------------------------------------

  /** Selected: the row is read and locked. Updated: the new row is written but not visible. */
  datatype Tx = Selected(id: Id, seen: Budget, satoshis: int) | Updated(id: Id, next: Budget, satoshis: int)

  /** grants is bookkeeping: what committed transactions consumed, in commit order. */
  datatype World = World(
    rows: map<Id, Budget>, locks: map<Id, Client>, txs: map<Client, Tx>, grants: seq<(Id, int)>)

  datatype Action =
    | Create(id: Id, tenant: Id, scopeType: string, budget: int, hardLimit: bool)
    | Select(client: Client, tenant: Id, id: Id, satoshis: int)
    | Update(client: Client)
    | Commit(client: Client)
    | Abort(client: Client)

  /** Select waits for the lock; the other steps belong to a running transaction. */
  predicate Enabled(w: World, a: Action) {
    match a
    case Create(id, _, _, budget, _) => id !in w.rows && Fits(budget)
    case Select(c, tenant, id, satoshis) =>
      c !in w.txs && Fits(satoshis) && satoshis >= 0 && id in w.rows && w.rows[id].tenant == tenant && id !in w.locks
    case Update(c) => c in w.txs && w.txs[c].Selected?
    case Commit(c) => c in w.txs && w.txs[c].Updated?
    case Abort(c) => c in w.txs
  }

  function Released(w: World, c: Client): World
    requires c in w.txs
  {
    w.(locks := w.locks - {w.txs[c].id}, txs := w.txs - {c})
  }

  function Next(w: World, a: Action): World
    requires Enabled(w, a)
  {
    match a
    case Create(id, tenant, scopeType, budget, hardLimit) =>
      if Creatable(tenant, scopeType, budget) then w.(rows := w.rows[id := Budget(tenant, budget, 0, hardLimit)]) else w
    case Select(c, _, id, satoshis) =>
      w.(locks := w.locks[id := c], txs := w.txs[c := Selected(id, w.rows[id], satoshis)])
    case Update(c) =>
      var t := w.txs[c];
      var o := Consumed(t.seen, t.satoshis);
      if o.Granted? then w.(txs := w.txs[c := Updated(t.id, o.row, t.satoshis)]) else Released(w, c)
    case Commit(c) =>
      var t := w.txs[c];
      Released(w, c).(rows := w.rows[t.id := t.next], grants := w.grants + [(t.id, t.satoshis)])
    case Abort(c) => Released(w, c)
  }

  function GrantSum(grants: seq<(Id, int)>, id: Id): int {
    if grants == [] then 0
    else GrantSum(grants[..|grants| - 1], id) + if grants[|grants| - 1].0 == id then grants[|grants| - 1].1 else 0
  }

  lemma GrantSumAppend(grants: seq<(Id, int)>, g: (Id, int), id: Id)
    ensures GrantSum(grants + [g], id) == GrantSum(grants, id) + if g.0 == id then g.1 else 0
  {
    assert (grants + [g])[..|grants + [g]| - 1] == grants;
  }

  /** A running transaction holds its row's lock and knows the row as committed. */
  predicate TxOk(w: World, c: Client)
    requires c in w.txs
  {
    var t := w.txs[c];
    && t.id in w.rows && t.id in w.locks && w.locks[t.id] == c && 0 <= t.satoshis <= MAX
    && (t.Selected? ==> t.seen == w.rows[t.id])
    && (t.Updated? ==> Consumed(w.rows[t.id], t.satoshis) == Granted(t.next))
  }

  ghost predicate RowsOk(w: World) {
    && (forall id :: id in w.rows ==>
          && RowOk(w.rows[id]) && w.rows[id].consumed == GrantSum(w.grants, id) && w.rows[id].tenant != 0)
    && (forall id :: id !in w.rows ==> GrantSum(w.grants, id) == 0)
  }

  /** Every lock belongs to a running transaction on its row. */
  ghost predicate LocksOk(w: World) {
    forall id :: id in w.locks ==> w.locks[id] in w.txs && w.txs[w.locks[id]].id == id
  }

  ghost predicate Inv(w: World) {
    RowsOk(w) && LocksOk(w) && forall c :: c in w.txs ==> TxOk(w, c)
  }

  lemma NextKeepsTxs(w: World, a: Action)
    requires Inv(w) && Enabled(w, a)
    ensures forall c :: c in Next(w, a).txs ==> TxOk(Next(w, a), c)
  {
    hide GrantSum, Consumed, RowOk, RowsOk, LocksOk;
    forall c | c in Next(w, a).txs
      ensures TxOk(Next(w, a), c)
    {
      assert c in w.txs ==> TxOk(w, c);
      if !a.Create? && a.client in w.txs {
        assert TxOk(w, a.client);
      }
    }
  }

  lemma NextKeepsLocks(w: World, a: Action)
    requires Inv(w) && Enabled(w, a)
    ensures LocksOk(Next(w, a))
  {
    hide GrantSum, Consumed, RowsOk;
    if !a.Create? && a.client in w.txs {
      assert TxOk(w, a.client);
    }
  }

  lemma NextKeepsInv(w: World, a: Action)
    requires Inv(w) && Enabled(w, a)
    ensures Inv(Next(w, a))
  {
    NextKeepsTxs(w, a);
    NextKeepsLocks(w, a);
    NextKeepsRows(w, a);
  }

  lemma NextKeepsRows(w: World, a: Action)
    requires Inv(w) && Enabled(w, a)
    ensures RowsOk(Next(w, a))
  {
    hide Consumed, LocksOk;
    if a.Commit? {
      var t := w.txs[a.client];
      assert TxOk(w, a.client);
      CommitMatches(w.rows[t.id], t.satoshis, t.next);
      forall id
        ensures GrantSum(w.grants + [(t.id, t.satoshis)], id)
             == GrantSum(w.grants, id) + if t.id == id then t.satoshis else 0
      {
        GrantSumAppend(w.grants, (t.id, t.satoshis), id);
      }
    }
  }

  lemma CommitMatches(b: Budget, satoshis: int, next: Budget)
    requires RowOk(b) && 0 <= satoshis <= MAX && Consumed(b, satoshis) == Granted(next)
    ensures RowOk(next) && next.consumed == b.consumed + satoshis && next.tenant == b.tenant
  {
    GrantIff(b, satoshis);
  }

  ghost predicate IsRun(ws: seq<World>, actions: seq<Action>) {
    && |ws| == |actions| + 1 && ws[0] == World(map[], map[], map[], [])
    && forall n :: 0 <= n < |actions| ==> Enabled(ws[n], actions[n]) && ws[n + 1] == Next(ws[n], actions[n])
  }

  lemma {:induction false} RunKeepsInv(ws: seq<World>, actions: seq<Action>, n: nat)
    requires IsRun(ws, actions) && n < |ws|
    ensures Inv(ws[n])
  {
    if n > 0 {
      RunKeepsInv(ws, actions, n - 1);
      assert ws[n - 1 + 1] == Next(ws[n - 1], actions[n - 1]);
      NextKeepsInv(ws[n - 1], actions[n - 1]);
    }
  }

  /** In every interleaving each budget has consumed exactly its committed grants, within a hard limit. */
  lemma BudgetsNeverOverrun(ws: seq<World>, actions: seq<Action>, n: nat, id: Id)
    requires IsRun(ws, actions) && n < |ws| && id in ws[n].rows
    ensures ws[n].rows[id].consumed == GrantSum(ws[n].grants, id)
    ensures ws[n].rows[id].hardLimit ==> ws[n].rows[id].consumed <= ws[n].rows[id].budget
  {
    RunKeepsInv(ws, actions, n);
  }

  /** In every interleaving a row is locked exactly while some transaction runs on it, so locks are always released. */
  lemma LockedIff(ws: seq<World>, actions: seq<Action>, n: nat, id: Id)
    requires IsRun(ws, actions) && n < |ws|
    ensures id in ws[n].locks <==> exists c :: c in ws[n].txs && ws[n].txs[c].id == id
  {
    RunKeepsInv(ws, actions, n);
    forall c | c in ws[n].txs
      ensures ws[n].txs[c].id in ws[n].locks
    {
      assert TxOk(ws[n], c);
    }
  }

  /** A commit takes effect as one Consume of the row as it then is: interleavings are serial in commit order. */
  lemma CommitsAreSerial(ws: seq<World>, actions: seq<Action>, n: nat)
    requires IsRun(ws, actions) && n < |actions| && actions[n].Commit?
    ensures var t := ws[n].txs[actions[n].client];
            && t.id in ws[n].rows
            && Consumed(ws[n].rows[t.id], t.satoshis) == Granted(ws[n + 1].rows[t.id])
            && ws[n + 1].rows == ws[n].rows[t.id := ws[n + 1].rows[t.id]]
  {
    RunKeepsInv(ws, actions, n);
    assert TxOk(ws[n], actions[n].client);
  }

  /** Between commits nothing that any transaction does is visible. */
  lemma OnlyCommitsAreVisible(w: World, a: Action, id: Id)
    requires Enabled(w, a) && id in w.rows && !a.Commit?
    ensures id in Next(w, a).rows && Next(w, a).rows[id] == w.rows[id]
  {
  }
}
