/**
 The per-case evidence hash chain: AppendEvidence and ListEvidence of internal/fox/store.go and
 internal/casemgmt/store.go, one append at a time.
 */
module Evidence {
  import opened Wrappers

  type Id = nat
  type Hash = nat

  /** A row of detection.case_evidence; prev None is NULL. */
  datatype Row = Row(id: Id, caseId: Id, hash: Hash, prev: Option<Hash>, collectedAt: nat)

  datatype Table = Table(evidence: seq<Row>, actions: seq<(Id, Hash)>)

  function OfCase(rows: seq<Row>, c: Id): (r: seq<Row>)
    ensures forall x :: x in r <==> x in rows && x.caseId == c
  {
    if rows == [] then []
    else
      var x := rows[|rows| - 1];
      OfCase(rows[..|rows| - 1], c) + if x.caseId == c then [x] else []
  }

  ghost predicate Listed(l: seq<Row>) {
    forall i, j :: 0 <= i < j < |l| ==> l[i].collectedAt <= l[j].collectedAt
  }

  /** A result ListEvidence may return: the case's rows ordered by collected_at, ties in any order. */
  ghost predicate IsListing(l: seq<Row>, rows: seq<Row>, c: Id) {
    multiset(l) == multiset(OfCase(rows, c)) && Listed(l)
  }

  /** A row that ORDER BY collected_at DESC LIMIT 1 may return. */
  ghost predicate IsNewest(x: Row, rows: seq<Row>, c: Id) {
    x in rows && x.caseId == c && forall y :: y in rows && y.caseId == c ==> y.collectedAt <= x.collectedAt
  }

  /** The first link is NULL and each later one is its predecessor's payload hash. */
  predicate Complete(l: seq<Row>) {
    && (l != [] ==> l[0].prev == None)
    && forall i :: 0 < i < |l| ==> l[i].prev == Some(l[i - 1].hash)
  }

  class Store {
    var evidence: seq<Row>
    var actions: seq<(Id, Hash)>
    const hash: string -> Hash

    constructor (hash: string -> Hash)
      ensures evidence == [] && actions == [] && this.hash == hash
    {
      evidence, actions := [], [];
      this.hash := hash;
    }

    /** The hash the SELECT finds: the last inserted of the case's newest rows, None without rows. */
    method PrevHash(c: Id) returns (prev: Option<Hash>)
      ensures prev.None? <==> OfCase(evidence, c) == []
      ensures prev.Some? ==> exists x :: IsNewest(x, evidence, c) && prev == Some(x.hash)
    {
      hide OfCase;
      EmptyCase(c);
      var newest: Option<Row> := None;
      for i := 0 to |evidence|
        invariant newest.None? <==> OfCase(evidence[..i], c) == []
        invariant newest.Some? ==> IsNewest(newest.value, evidence[..i], c)
      {
        var x := evidence[i];
        assert evidence[..i + 1] == evidence[..i] + [x];
        OfCaseAppend(evidence[..i], x, c);
        if x.caseId == c && (newest.None? || x.collectedAt >= newest.value.collectedAt) {
          newest := Some(x);
        }
      }
      assert evidence[..|evidence|] == evidence;
      prev := if newest.Some? then Some(newest.value.hash) else None;
    }

    /** fox.AppendEvidence: the payload defaults to {}, and an action row mirrors the evidence in one transaction. */
    method FoxAppend(id: Id, c: Id, payload: string, collectedAt: nat, commits: bool) returns (x: Option<Row>)
      modifies this
      ensures x.Some? <==> commits
      ensures x.None? ==> evidence == old(evidence) && actions == old(actions)
      ensures x.Some? ==>
                && evidence == old(evidence) + [x.value] && actions == old(actions) + [(id, x.value.hash)]
                && x.value.id == id && x.value.hash == hash(if payload == "" then "{}" else payload)
                && x.value.caseId == c && x.value.collectedAt == collectedAt
                && LinksTo(x.value, old(evidence))
    {
      var body := if payload == "" then "{}" else payload;
      var h := hash(body);
      var prev := PrevHash(c);
      if !commits {
        return None;
      }
      var row := Row(id, c, h, prev, collectedAt);
      evidence := evidence + [row];
      actions := actions + [(id, h)];
      x := Some(row);
    }

    /** casemgmt.AppendEvidence: the database stamps collected_at; no action row. */
    method CaseAppend(id: Id, c: Id, evidenceType: string, payload: string, now: nat, commits: bool)
      returns (x: Option<Row>)
      modifies this
      ensures x.Some? <==> evidenceType != "" && commits
      ensures actions == old(actions)
      ensures x.None? ==> evidence == old(evidence)
      ensures x.Some? ==>
                && evidence == old(evidence) + [x.value]
                && x.value.id == id && x.value.hash == hash(payload)
                && x.value.caseId == c && x.value.collectedAt == now
                && LinksTo(x.value, old(evidence))
    {
      if evidenceType == "" {
        return None;
      }
      var h := hash(payload);
      var prev := PrevHash(c);
      if !commits {
        return None;
      }
      var row := Row(id, c, h, prev, now);
      evidence := evidence + [row];
      x := Some(row);
    }
  }

  /** A new row's prev is the hash of a newest row of its case, or NULL when the case has none. */
  ghost predicate LinksTo(x: Row, rows: seq<Row>) {
    if OfCase(rows, x.caseId) == [] then x.prev == None
    else exists y :: IsNewest(y, rows, x.caseId) && x.prev == Some(y.hash)
  }

  // ---- runs -------------------------------------------------------------

  /** rows was built by serialized appends, each collected later than the case's earlier ones. */
  ghost predicate BuiltInOrder(rows: seq<Row>) {
    forall n :: 0 <= n < |rows| ==> LinksTo(rows[n], rows[..n]) && Later(rows[n], rows[..n])
  }

  predicate Later(x: Row, rows: seq<Row>) {
    forall y :: y in rows && y.caseId == x.caseId ==> y.collectedAt < x.collectedAt
  }

  lemma EmptyCase(c: Id)
    ensures OfCase([], c) == []
  {
  }

  lemma OfCaseAppend(rows: seq<Row>, x: Row, c: Id)
    ensures OfCase(rows + [x], c) == OfCase(rows, c) + if x.caseId == c then [x] else []
  {
    assert (rows + [x])[..|rows + [x]| - 1] == rows;
  }

  ghost predicate Rising(l: seq<Row>) {
    forall i, j :: 0 <= i < j < |l| ==> l[i].collectedAt < l[j].collectedAt
  }

  lemma OfCaseLast(rows: seq<Row>, c: Id)
    requires rows != []
    ensures var init, x := rows[..|rows| - 1], rows[|rows| - 1];
            OfCase(rows, c) == if x.caseId == c then OfCase(init, c) + [x] else OfCase(init, c)
  {
  }

  lemma BuiltEarlier(rows: seq<Row>)
    requires BuiltInOrder(rows) && rows != []
    ensures var init, x := rows[..|rows| - 1], rows[|rows| - 1];
            BuiltInOrder(init) && LinksTo(x, init) && Later(x, init)
  {
    hide LinksTo, Later;
    var init := rows[..|rows| - 1];
    assert forall k :: 0 <= k < |init| ==> init[..k] == rows[..k];
  }

  /** In insertion order a case's rows rise in time and form a complete chain. */
  lemma {:induction false} InsertionOrderIsChain(rows: seq<Row>, c: Id)
    requires BuiltInOrder(rows)
    ensures Rising(OfCase(rows, c)) && Complete(OfCase(rows, c))
  {
    if rows == [] {
      EmptyCase(c);
    } else {
      hide OfCase, LinksTo, Later, Rising, Complete, BuiltInOrder;
      var init, x := rows[..|rows| - 1], rows[|rows| - 1];
      BuiltEarlier(rows);
      InsertionOrderIsChain(init, c);
      OfCaseLast(rows, c);
      if x.caseId == c {
        AppendExtendsChain(init, x);
      }
    }
  }

  /** In a case whose rows rise in time the newest row is the last one. */
  lemma NewestIsLast(rows: seq<Row>, c: Id, y: Row)
    requires Rising(OfCase(rows, c)) && IsNewest(y, rows, c)
    ensures OfCase(rows, c) != [] && y == OfCase(rows, c)[|OfCase(rows, c)| - 1]
  {
    var l := OfCase(rows, c);
    assert y in l;
    var k :| 0 <= k < |l| && l[k] == y;
    var last := l[|l| - 1];
    assert last in l;
  }

  /** The hash a new row of a rising case is linked to. */
  lemma LinkedToLast(rows: seq<Row>, x: Row)
    requires Rising(OfCase(rows, x.caseId)) && LinksTo(x, rows)
    ensures var l := OfCase(rows, x.caseId); x.prev == if l == [] then None else Some(l[|l| - 1].hash)
  {
    if OfCase(rows, x.caseId) != [] {
      var y :| IsNewest(y, rows, x.caseId) && x.prev == Some(y.hash);
      NewestIsLast(rows, x.caseId, y);
    }
  }

  lemma AppendExtendsChain(rows: seq<Row>, x: Row)
    requires Rising(OfCase(rows, x.caseId)) && Complete(OfCase(rows, x.caseId))
    requires LinksTo(x, rows) && Later(x, rows)
    ensures Rising(OfCase(rows, x.caseId) + [x]) && Complete(OfCase(rows, x.caseId) + [x])
  {
    hide OfCase, LinksTo;
    var l := OfCase(rows, x.caseId);
    LinkedToLast(rows, x);
    assert forall i :: 0 <= i < |l| ==> l[i] in l;
  }

  lemma LastAgrees(a: seq<Row>, b: seq<Row>)
    requires multiset(a) == multiset(b) && Listed(a) && Rising(b) && b != []
    ensures a != [] && a[|a| - 1] == b[|b| - 1]
  {
    var x := b[|b| - 1];
    assert x in multiset(b) && x in multiset(a);
    assert a != [];
    var y := a[|a| - 1];
    assert y in multiset(a) && y in multiset(b);
    var i :| 0 <= i < |a| && a[i] == x;
    var j :| 0 <= j < |b| && b[j] == y;
    assert i < |a| - 1 ==> x.collectedAt <= y.collectedAt;
    assert j < |b| - 1 ==> y.collectedAt < x.collectedAt;
  }

  lemma DropLast(a: seq<Row>)
    requires a != []
    ensures multiset(a) == multiset(a[..|a| - 1]) + multiset{a[|a| - 1]}
  {
    assert a == a[..|a| - 1] + [a[|a| - 1]];
  }

  lemma DropEqual(m: multiset<Row>, n: multiset<Row>, x: Row)
    requires m + multiset{x} == n + multiset{x}
    ensures m == n
  {
    assert m == (m + multiset{x}) - multiset{x};
    assert n == (n + multiset{x}) - multiset{x};
  }

  /** A time-ordered listing of distinct times is the rising one. */
  lemma {:induction false} ListingIsUnique(a: seq<Row>, b: seq<Row>)
    requires multiset(a) == multiset(b) && Listed(a) && Rising(b)
    ensures a == b
  {
    if b == [] {
      assert |multiset(a)| == 0;
    } else {
      LastAgrees(a, b);
      DropLast(a);
      DropLast(b);
      var a', b' := a[..|a| - 1], b[..|b| - 1];
      DropEqual(multiset(a'), multiset(b'), b[|b| - 1]);
      ListingIsUnique(a', b');
      assert a == a' + [a[|a| - 1]] && b == b' + [b[|b| - 1]];
    }
  }

  /** After every run of serialized, time-ordered appends each case's only listing is a complete chain. */
  lemma {:induction false} EveryListingIsComplete(rows: seq<Row>, c: Id, l: seq<Row>)
    requires BuiltInOrder(rows) && IsListing(l, rows, c)
    ensures Complete(l) && l == OfCase(rows, c)
  {
    InsertionOrderIsChain(rows, c);
    ListingIsUnique(l, OfCase(rows, c));
  }

  /** An append to one case leaves the listings of every other case as they were. */
  lemma OtherCasesUnchanged(rows: seq<Row>, x: Row, c: Id, l: seq<Row>)
    requires x.caseId != c
    ensures IsListing(l, rows + [x], c) <==> IsListing(l, rows, c)
  {
    OfCaseAppend(rows, x, c);
  }

  // ---- back-dated evidence ----------------------------------------------

  ghost predicate DistinctHashes(l: seq<Row>) {
    forall i, j :: 0 <= i < j < |l| ==> l[i].hash != l[j].hash
  }

  /** x placed before position k of a listing. */
  function Inserted(l: seq<Row>, x: Row, k: nat): seq<Row>
    requires k <= |l|
  {
    l[..k] + [x] + l[k..]
  }

  lemma {:induction false} InsertedIsListing(rows: seq<Row>, x: Row, k: nat)
    requires Rising(OfCase(rows, x.caseId)) && k <= |OfCase(rows, x.caseId)|
    requires forall i :: 0 <= i < k ==> OfCase(rows, x.caseId)[i].collectedAt <= x.collectedAt
    requires forall i :: k <= i < |OfCase(rows, x.caseId)| ==> x.collectedAt <= OfCase(rows, x.caseId)[i].collectedAt
    ensures IsListing(Inserted(OfCase(rows, x.caseId), x, k), rows + [x], x.caseId)
  {
    hide OfCase;
    var l := OfCase(rows, x.caseId);
    OfCaseAppend(rows, x, x.caseId);
    InsertedElements(l, x, k);
    InsertedIsListed(l, x, k);
  }

  lemma InsertedElements(l: seq<Row>, x: Row, k: nat)
    requires k <= |l|
    ensures multiset(Inserted(l, x, k)) == multiset(l + [x])
  {
    assert l == l[..k] + l[k..];
  }

  lemma InsertedIsListed(l: seq<Row>, x: Row, k: nat)
    requires Rising(l) && k <= |l|
    requires forall i :: 0 <= i < k ==> l[i].collectedAt <= x.collectedAt
    requires forall i :: k <= i < |l| ==> x.collectedAt <= l[i].collectedAt
    ensures Listed(Inserted(l, x, k))
  {
    var s := Inserted(l, x, k);
    forall i, j | 0 <= i < j < |s|
      ensures s[i].collectedAt <= s[j].collectedAt
    {
      assert s[i] == if i < k then l[i] else if i == k then x else l[i - 1];
      assert s[j] == if j < k then l[j] else if j == k then x else l[j - 1];
    }
  }

  /** The first position whose row is not older than x. */
  lemma {:induction false} Position(l: seq<Row>, x: Row) returns (k: nat)
    requires Rising(l)
    ensures k <= |l|
    ensures forall i :: 0 <= i < k ==> l[i].collectedAt < x.collectedAt
    ensures forall i :: k <= i < |l| ==> x.collectedAt <= l[i].collectedAt
  {
    if l == [] || l[|l| - 1].collectedAt < x.collectedAt {
      k := |l|;
    } else {
      k := Position(l[..|l| - 1], x);
    }
  }

  /** A row placed in a complete chain, but linked to its end, keeps it complete exactly in these cases. */
  lemma InsertedIsComplete(l: seq<Row>, x: Row, k: nat)
    requires k <= |l| && Complete(l)
    requires x.prev == if l == [] then None else Some(l[|l| - 1].hash)
    ensures Complete(Inserted(l, x, k)) <==> k == |l| || SameLinks(l, x, k)
  {
    var s := Inserted(l, x, k);
    assert forall i :: 0 <= i < |s| ==> s[i] == if i < k then l[i] else if i == k then x else l[i - 1];
    if 0 < k < |l| {
      assert s[k] == x && s[k - 1] == l[k - 1] && s[k + 1] == l[k];
    } else if k < |l| {
      assert s[0] == x;
    }
  }

  /** The payloads before position k, at the end of the chain, and of x have one hash. */
  predicate SameLinks(l: seq<Row>, x: Row, k: nat)
    requires k < |l|
  {
    k > 0 && l[k - 1].hash == l[|l| - 1].hash == x.hash
  }

  /** x fits in time before position k of a listing. */
  predicate Fits(l: seq<Row>, x: Row, k: nat)
    requires k <= |l|
  {
    (k > 0 ==> l[k - 1].collectedAt <= x.collectedAt) && (k < |l| ==> x.collectedAt <= l[k].collectedAt)
  }

  /** A listing without its row i. */
  function Removed(m: seq<Row>, i: nat): seq<Row>
    requires i < |m|
  {
    m[..i] + m[i + 1..]
  }

  lemma RemovedElements(m: seq<Row>, i: nat)
    requires i < |m|
    ensures m == Inserted(Removed(m, i), m[i], i)
    ensures multiset(m) == multiset(Removed(m, i)) + multiset{m[i]}
  {
    var a, b := m[..i], m[i + 1..];
    assert m == a + [m[i]] + b;
    assert (a + b)[..i] == a && (a + b)[i..] == b;
  }

  lemma RemovedIsListed(m: seq<Row>, i: nat)
    requires i < |m| && Listed(m)
    ensures Listed(Removed(m, i)) && Fits(Removed(m, i), m[i], i)
  {
    var rest := Removed(m, i);
    forall j, k | 0 <= j < k < |rest|
      ensures rest[j].collectedAt <= rest[k].collectedAt
    {
      assert rest[j] == m[if j < i then j else j + 1] && rest[k] == m[if k < i then k else k + 1];
    }
  }

  /** Every listing of a case with one more row is the old listing with the row placed where it fits. */
  lemma {:induction false} ListingIsInserted(rows: seq<Row>, x: Row, m: seq<Row>) returns (k: nat)
    requires Rising(OfCase(rows, x.caseId)) && IsListing(m, rows + [x], x.caseId)
    ensures k <= |OfCase(rows, x.caseId)| && Fits(OfCase(rows, x.caseId), x, k)
    ensures m == Inserted(OfCase(rows, x.caseId), x, k)
  {
    hide OfCase, Removed, Inserted, Fits, Rising, Listed;
    var l := OfCase(rows, x.caseId);
    OfCaseAppend(rows, x, x.caseId);
    assert x in multiset(l + [x]) && x in multiset(m);
    k :| 0 <= k < |m| && m[k] == x;
    RemovedElements(m, k);
    RemovedIsListed(m, k);
    DropEqual(multiset(Removed(m, k)), multiset(l), x);
    ListingIsUnique(Removed(m, k), l);
  }

  /** Where a row fits in a rising case, it makes a listing. */
  lemma {:induction false} FittingIsListing(rows: seq<Row>, x: Row, k: nat)
    requires Rising(OfCase(rows, x.caseId)) && k <= |OfCase(rows, x.caseId)|
    requires Fits(OfCase(rows, x.caseId), x, k)
    ensures IsListing(Inserted(OfCase(rows, x.caseId), x, k), rows + [x], x.caseId)
  {
    hide OfCase;
    var l := OfCase(rows, x.caseId);
    assert forall i :: 0 <= i < k ==> l[i].collectedAt <= l[k - 1].collectedAt;
    assert forall i :: k <= i < |l| ==> l[k].collectedAt <= l[i].collectedAt;
    InsertedIsListing(rows, x, k);
  }

  /**
   Appending to a complete chain leaves every listing complete exactly when, wherever the new row fits
   before the end, the payloads of its neighbour, of the chain's end and of the row itself have one hash.
   */
  lemma {:induction false} ChainSurvivesIff(rows: seq<Row>, x: Row)
    requires var l := OfCase(rows, x.caseId); Rising(l) && Complete(l)
    requires LinksTo(x, rows)
    ensures var l := OfCase(rows, x.caseId);
            (forall m :: IsListing(m, rows + [x], x.caseId) ==> Complete(m)) <==>
            forall k :: 0 <= k < |l| && Fits(l, x, k) ==> SameLinks(l, x, k)
  {
    hide OfCase, LinksTo, Complete, IsListing, Inserted, Fits, SameLinks;
    var l := OfCase(rows, x.caseId);
    LinkedToLast(rows, x);
    forall k | 0 <= k < |l| && Fits(l, x, k)
      ensures IsListing(Inserted(l, x, k), rows + [x], x.caseId)
      ensures Complete(Inserted(l, x, k)) <==> SameLinks(l, x, k)
    {
      FittingIsListing(rows, x, k);
      InsertedIsComplete(l, x, k);
    }
    forall m | IsListing(m, rows + [x], x.caseId)
      ensures Complete(m) <==> exists k :: 0 <= k <= |l| && m == Inserted(l, x, k) && (k == |l| || SameLinks(l, x, k))
      ensures exists k :: 0 <= k <= |l| && m == Inserted(l, x, k) && Fits(l, x, k)
    {
      var k := ListingIsInserted(rows, x, m);
      InsertedIsComplete(l, x, k);
      forall j | 0 <= j <= |l|
        ensures Complete(Inserted(l, x, j)) <==> j == |l| || SameLinks(l, x, j)
      {
        InsertedIsComplete(l, x, j);
      }
    }
  }

  /** For distinct payloads that is exactly a row collected later than all of its case. */
  lemma {:induction false} DistinctChainSurvivesIff(rows: seq<Row>, x: Row)
    requires var l := OfCase(rows, x.caseId); Rising(l) && Complete(l) && DistinctHashes(l)
    requires LinksTo(x, rows)
    ensures Later(x, rows) <==> forall m :: IsListing(m, rows + [x], x.caseId) ==> Complete(m)
  {
    hide LinksTo, Complete, IsListing;
    var l := OfCase(rows, x.caseId);
    ChainSurvivesIff(rows, x);
    if Later(x, rows) {
      assert forall k :: 0 <= k < |l| ==> l[k] in l && !Fits(l, x, k);
    } else {
      var k := Position(l, x);
      var late :| late in rows && late.caseId == x.caseId && late.collectedAt >= x.collectedAt;
      assert late in l;
      assert k < |l| && Fits(l, x, k) && !SameLinks(l, x, k);
    }
  }

  /** Two equal payloads, and a third collected between them: the chain survives back-dated evidence. */
  lemma {:induction false} EqualPayloadsHideBackDating(a: Row, b: Row, x: Row)
    requires a.caseId == b.caseId == x.caseId && a.hash == b.hash == x.hash
    requires a.prev == None && b.prev == Some(a.hash) && x.prev == Some(b.hash)
    requires a.collectedAt < x.collectedAt < b.collectedAt
    ensures LinksTo(x, [a, b]) && !Later(x, [a, b])
    ensures forall m :: IsListing(m, [a, b, x], x.caseId) ==> Complete(m)
  {
    hide IsListing;
    PairOfCase(a, b);
    var l := OfCase([a, b], x.caseId);
    assert l == [a, b];
    assert IsNewest(b, [a, b], x.caseId);
    assert LinksTo(x, [a, b]);
    assert b in [a, b];
    assert forall k :: 0 <= k < |l| && Fits(l, x, k) ==> SameLinks(l, x, k);
    hide OfCase, LinksTo, Complete, Fits, SameLinks;
    assert [a, b] + [x] == [a, b, x];
    ChainSurvivesIff([a, b], x);
  }

  lemma PairOfCase(a: Row, b: Row)
    requires a.caseId == b.caseId
    ensures OfCase([a, b], a.caseId) == [a, b]
  {
    OfCaseAppend([], a, a.caseId);
    OfCaseAppend([a], b, a.caseId);
    assert [] + [a] == [a] && [a] + [b] == [a, b];
  }
}
