/**
 The Counterpoint poll cursor of one merchant (internal/poller/poller.go). Dates are nanoseconds
 since Go's zero time, the stored cursor is in whole seconds, and the server holds a fixed document
 set that it returns in ascending date order from an inclusive `since`.
 */
module Poller {
  import opened Wrappers

  /** A raw document: its identity, its DocumentDate (0 when absent), and whether its header parses. */
  datatype Document = Document(id: nat, date: nat, parses: bool)

  const FETCH_LIMIT: nat := 500
  const SECOND: nat := 1_000_000_000

  /** What goes wrong in a poll: the cursor read, the fetch, the nth publication, the cursor write. */
  datatype Faults = Faults(load: bool, fetch: bool, publish: Option<nat>, save: bool)

  /** stream is what was published, in order; the cursor expires with its key. */
  datatype State = State(cursor: Option<nat>, stream: seq<Document>)

  ghost predicate Ascending(docs: seq<Document>) {
    forall i, j :: 0 <= i < j < |docs| ==> docs[i].date <= docs[j].date
  }

  /** Documents dated at or after since, in the server's order. */
  function From(docs: seq<Document>, since: nat): (r: seq<Document>) {
    if docs == [] then []
    else if docs[0].date >= since then docs else From(docs[1..], since)
  }

  function LimitDocs(docs: seq<Document>): (r: seq<Document>)
    ensures r <= docs && |r| == if |docs| > FETCH_LIMIT then FETCH_LIMIT else |docs|
  {
    if |docs| > FETCH_LIMIT then docs[..FETCH_LIMIT] else docs
  }

  /** A missing cursor fetches everything, like the zero time. */
  function Since(cursor: Option<nat>): nat {
    if cursor.None? then 0 else cursor.value * SECOND
  }

  function Fetched(docs: seq<Document>, cursor: Option<nat>): (r: seq<Document>)
    ensures |r| <= FETCH_LIMIT
  {
    LimitDocs(From(docs, Since(cursor)))
  }

  function Wrappable(batch: seq<Document>): (r: seq<Document>) {
    if batch == [] then []
    else
      var d := batch[|batch| - 1];
      Wrappable(batch[..|batch| - 1]) + if d.parses then [d] else []
  }

  function LatestDate(batch: seq<Document>): (t: nat) {
    if batch == [] then 0
    else
      var d, t := batch[|batch| - 1], LatestDate(batch[..|batch| - 1]);
      if d.parses && d.date > t then d.date else t
  }

  /** One poll: a fault before its end leaves the cursor alone and keeps what was already published. */
  function Polled(docs: seq<Document>, s: State, f: Faults): (t: State) {
    if f.load || f.fetch then s
    else
      var batch := Fetched(docs, s.cursor);
      var all := Wrappable(batch);
      if f.publish.Some? && f.publish.value < |all| then s.(stream := s.stream + all[..f.publish.value])
      else
        var latest := LatestDate(batch);
        State(if latest == 0 || f.save then s.cursor else Some(latest / SECOND), s.stream + all)
  }

  /** A poll succeeds unless it cannot read the cursor, fetch, or publish; a cursor write may fail. */
  predicate Succeeds(docs: seq<Document>, s: State, f: Faults) {
    !f.load && !f.fetch && (f.publish.Some? ==> f.publish.value >= |Wrappable(Fetched(docs, s.cursor))|)
  }

  class Poller {
    var cursor: Option<nat>
    var stream: seq<Document>
    const server: seq<Document>

    constructor (server: seq<Document>)
      ensures cursor == None && stream == [] && this.server == server
    {
      cursor, stream := None, [];
      this.server := server;
    }

    function Abs(): State
      reads this
    {
      State(cursor, stream)
    }

    method PollMerchant(f: Faults) returns (ok: bool)
      modifies this
      ensures Abs() == Polled(server, old(Abs()), f)
      ensures ok <==> Succeeds(server, old(Abs()), f)
    {
      if f.load {
        return false;
      }
      if f.fetch {
        return false;
      }
      var batch := Fetched(server, cursor);
      if |batch| == 0 {
        return true;
      }
      var latest, published := 0, 0;
      ghost var before := stream;
      for i := 0 to |batch|
        invariant published == |Wrappable(batch[..i])|
        invariant f.publish.Some? ==> published <= f.publish.value
        invariant stream == before + Wrappable(batch[..i]) && cursor == old(cursor)
        invariant latest == LatestDate(batch[..i])
      {
        assert batch[..i + 1][..i] == batch[..i];
        var d := batch[i];
        if !d.parses {
          continue;
        }
        if f.publish == Some(published) {
          WrappablePrefix(batch, i);
          WrappablePrefix(batch, i + 1);
          return false;
        }
        stream := stream + [d];
        published := published + 1;
        if d.date > latest {
          latest := d.date;
        }
      }
      assert batch[..|batch|] == batch;
      if latest != 0 {
        if !f.save {
          cursor := Some(latest / SECOND);
        }
      }
      ok := true;
    }
  }

  lemma {:induction false} WrappablePrefix(batch: seq<Document>, i: nat)
    requires i <= |batch|
    ensures Wrappable(batch[..i]) <= Wrappable(batch)
    decreases |batch| - i
  {
    if i == |batch| {
      assert batch[..i] == batch;
    } else {
      assert batch[..i + 1][..i] == batch[..i];
      WrappablePrefix(batch, i + 1);
    }
  }

  /** published are the documents of the batch at idx, in its order. */
  predicate TakenInOrder(batch: seq<Document>, published: seq<Document>, idx: seq<nat>) {
    && |idx| == |published| && (forall a, b :: 0 <= a < b < |idx| ==> idx[a] < idx[b])
    && forall a :: 0 <= a < |idx| ==> idx[a] < |batch| && published[a] == batch[idx[a]]
  }

  predicate NamesParseable(batch: seq<Document>, idx: seq<nat>) {
    forall k :: 0 <= k < |batch| ==> (k in idx <==> batch[k].parses)
  }

  lemma TakenOneMore(batch: seq<Document>, published: seq<Document>, idx: seq<nat>)
    requires batch != [] && TakenInOrder(batch[..|batch| - 1], published, idx)
    ensures TakenInOrder(batch, published, idx)
    ensures TakenInOrder(batch, published + [batch[|batch| - 1]], idx + [|batch| - 1])
  {
  }

  lemma NamesOneMore(batch: seq<Document>, published: seq<Document>, idx: seq<nat>)
    requires batch != [] && TakenInOrder(batch[..|batch| - 1], published, idx)
    requires NamesParseable(batch[..|batch| - 1], idx)
    ensures NamesParseable(batch, if batch[|batch| - 1].parses then idx + [|batch| - 1] else idx)
  {
  }

  /** Publishing takes exactly the parseable documents of a batch, in the server's order; idx names them. */
  lemma {:induction false} WrappableInOrder(batch: seq<Document>) returns (idx: seq<nat>)
    ensures TakenInOrder(batch, Wrappable(batch), idx) && NamesParseable(batch, idx)
  {
    if batch == [] {
      idx := [];
    } else {
      hide TakenInOrder, NamesParseable;
      var k := |batch| - 1;
      var before := WrappableInOrder(batch[..k]);
      TakenOneMore(batch, Wrappable(batch[..k]), before);
      NamesOneMore(batch, Wrappable(batch[..k]), before);
      idx := if batch[k].parses then before + [k] else before;
      if !batch[k].parses {
        assert Wrappable(batch) == Wrappable(batch[..k]);
      }
    }
  }

  /** How many of the batch's documents a poll publishes before it stops or succeeds, and that it forgets none. */
  lemma PollPublishes(docs: seq<Document>, s: State, f: Faults)
    ensures var t, count := Polled(docs, s, f), |Wrappable(Fetched(docs, s.cursor))|;
            && s.stream <= t.stream
            && |t.stream| - |s.stream| ==
               (if f.load || f.fetch then 0 else if f.publish.Some? && f.publish.value < count then f.publish.value
                else count)
            && t.cursor == if Succeeds(docs, s, f) && !f.save && LatestDate(Fetched(docs, s.cursor)) > 0
                           then Some(LatestDate(Fetched(docs, s.cursor)) / 1_000_000_000) else s.cursor
  {
    hide Fetched, Wrappable, LatestDate;
  }

  // ---- what a batch covers ----------------------------------------------

  lemma {:induction false} FromKeeps(docs: seq<Document>, since: nat, d: Document)
    requires Ascending(docs)
    ensures d in From(docs, since) <==> d in docs && d.date >= since
    ensures Ascending(From(docs, since))
  {
    if docs != [] && docs[0].date < since {
      FromKeeps(docs[1..], since, d);
      assert docs == [docs[0]] + docs[1..];
    }
  }

  lemma {:induction false} WrappableMembers(batch: seq<Document>, d: Document)
    ensures d in Wrappable(batch) <==> d in batch && d.parses
    ensures d in batch && d.parses ==> d.date <= LatestDate(batch)
  {
    if batch != [] {
      WrappableMembers(batch[..|batch| - 1], d);
      assert batch == batch[..|batch| - 1] + [batch[|batch| - 1]];
    }
  }

  lemma {:induction false} LatestIsAMember(batch: seq<Document>) returns (k: nat)
    requires LatestDate(batch) > 0
    ensures k < |batch| && batch[k].parses && batch[k].date == LatestDate(batch)
  {
    var d, init := batch[|batch| - 1], batch[..|batch| - 1];
    if d.parses && d.date > LatestDate(init) {
      k := |batch| - 1;
    } else {
      k := LatestIsAMember(init);
    }
  }

  /** Every server document from since up to the batch's latest date is in the batch, despite the cap. */
  lemma BatchCovers(docs: seq<Document>, cursor: Option<nat>, d: Document)
    requires Ascending(docs) && d in docs
    requires Since(cursor) <= d.date < LatestDate(Fetched(docs, cursor))
    ensures d in Fetched(docs, cursor)
  {
    var all, batch := From(docs, Since(cursor)), Fetched(docs, cursor);
    FromKeeps(docs, Since(cursor), d);
    var k := LatestIsAMember(batch);
    var i :| 0 <= i < |all| && all[i] == d;
    assert all[k] == batch[k];
    assert i < k;
    assert batch[i] == all[i];
  }

  // ---- runs -------------------------------------------------------------

  /** Each parseable document dated before the cursor has been published. */
  ghost predicate Covered(docs: seq<Document>, s: State) {
    forall d :: d in docs && d.parses && d.date < Since(s.cursor) ==> d in s.stream
  }

  lemma PolledCovers(docs: seq<Document>, s: State, f: Faults)
    requires Ascending(docs) && Covered(docs, s)
    ensures Covered(docs, Polled(docs, s, f))
    ensures s.cursor.Some? ==>
              Polled(docs, s, f).cursor.Some? && s.cursor.value <= Polled(docs, s, f).cursor.value
  {
    hide Fetched, LatestDate, Wrappable;
    var batch := Fetched(docs, s.cursor);
    var latest := LatestDate(batch);
    var t := Polled(docs, s, f);
    if t.cursor != s.cursor {
      TruncationBounds(latest);
      forall d | d in docs && d.parses && d.date < Since(t.cursor)
        ensures d in t.stream
      {
        if d.date >= Since(s.cursor) {
          BatchCovers(docs, s.cursor, d);
          WrappableMembers(batch, d);
        }
      }
      LatestAfterSince(docs, s.cursor);
    }
  }

  lemma TruncationBounds(t: nat)
    ensures t / SECOND * SECOND <= t < t / SECOND * SECOND + SECOND
  {
  }

  lemma LatestAfterSince(docs: seq<Document>, cursor: Option<nat>)
    requires Ascending(docs) && LatestDate(Fetched(docs, cursor)) > 0
    ensures LatestDate(Fetched(docs, cursor)) >= Since(cursor)
  {
    var k := LatestIsAMember(Fetched(docs, cursor));
    var d := Fetched(docs, cursor)[k];
    assert d == From(docs, Since(cursor))[k];
    FromKeeps(docs, Since(cursor), d);
  }

  datatype Action = Poll(faults: Faults) | Expire

  function Next(docs: seq<Document>, s: State, a: Action): State {
    match a
    case Poll(f) => Polled(docs, s, f)
    case Expire => s.(cursor := None)
  }

  function Run(docs: seq<Document>, actions: seq<Action>): State {
    if actions == [] then State(None, [])
    else Next(docs, Run(docs, actions[..|actions| - 1]), actions[|actions| - 1])
  }

  /** In every run of failing and succeeding polls and cursor expiries, what lies before the cursor is published. */
  lemma {:induction false} NothingSkippedBeforeCursor(docs: seq<Document>, actions: seq<Action>)
    requires Ascending(docs)
    ensures Covered(docs, Run(docs, actions))
  {
    if actions != [] {
      NothingSkippedBeforeCursor(docs, actions[..|actions| - 1]);
      if actions[|actions| - 1].Poll? {
        PolledCovers(docs, Run(docs, actions[..|actions| - 1]), actions[|actions| - 1].faults);
      }
    }
  }

  /** Without an expiry between, the cursor never moves back. */
  lemma {:induction false} CursorNeverMovesBack(docs: seq<Document>, actions: seq<Action>, n: nat)
    requires Ascending(docs) && n <= |actions|
    requires forall k :: n <= k < |actions| ==> actions[k] != Expire
    requires Run(docs, actions[..n]).cursor.Some?
    ensures Run(docs, actions).cursor.Some?
    ensures Run(docs, actions[..n]).cursor.value <= Run(docs, actions).cursor.value
    decreases |actions| - n
  {
    if n == |actions| {
      assert actions[..n] == actions;
    } else {
      var init := actions[..|actions| - 1];
      assert init[..n] == actions[..n];
      CursorNeverMovesBack(docs, init, n);
      NothingSkippedBeforeCursor(docs, init);
      PolledCovers(docs, Run(docs, init), actions[|actions| - 1].faults);
    }
  }

  /** Everything published is a parseable document of the server. */
  lemma {:induction false} OnlyServerDocuments(docs: seq<Document>, actions: seq<Action>, d: Document)
    requires Ascending(docs) && d in Run(docs, actions).stream
    ensures d in docs && d.parses
  {
    hide Fetched;
    var init, a := actions[..|actions| - 1], actions[|actions| - 1];
    var s := Run(docs, init);
    if d in s.stream {
      OnlyServerDocuments(docs, init, d);
    } else {
      var batch := Fetched(docs, s.cursor);
      WrappableMembers(batch, d);
      FetchedFromServer(docs, s.cursor, d);
    }
  }

  lemma FetchedFromServer(docs: seq<Document>, cursor: Option<nat>, d: Document)
    requires Ascending(docs) && d in Fetched(docs, cursor)
    ensures d in docs && d.date >= Since(cursor)
  {
    FromKeeps(docs, Since(cursor), d);
    var k :| 0 <= k < |Fetched(docs, cursor)| && Fetched(docs, cursor)[k] == d;
    assert From(docs, Since(cursor))[k] == d;
  }

  // ---- where polling stops making progress ------------------------------

  const FAULTLESS: Faults := Faults(false, false, None, false)

  /** The batch has nothing past the cursor's second. */
  predicate Stalled(docs: seq<Document>, cursor: Option<nat>) {
    var latest := LatestDate(Fetched(docs, cursor));
    latest == 0 || (cursor.Some? && latest < Since(cursor) + SECOND)
  }

  /** A faultless poll leaves the cursor where it is exactly when its batch has nothing past the cursor's second. */
  lemma ProgressIff(docs: seq<Document>, s: State, f: Faults)
    requires Ascending(docs) && f == FAULTLESS
    ensures Polled(docs, s, f).cursor == s.cursor <==> Stalled(docs, s.cursor)
  {
    hide Fetched, LatestDate, Wrappable;
    var latest := LatestDate(Fetched(docs, s.cursor));
    TruncationBounds(latest);
    if latest > 0 {
      LatestAfterSince(docs, s.cursor);
    }
  }

  /**
   A batch without progress is final: no number of polls publishes anything outside it. So when the
   batch is full, 500 documents within the cursor's second, or 500 that do not parse, hide all later ones.
   */
  lemma {:induction false} FullBatchCanStarve(docs: seq<Document>, s: State, polls: seq<Faults>, d: Document)
    requires Ascending(docs) && Stalled(docs, s.cursor)
    requires d !in Fetched(docs, s.cursor) && d !in s.stream
    ensures var t := PolledAll(docs, s, polls); t.cursor == s.cursor && d !in t.stream
  {
    hide Fetched, LatestDate, Wrappable;
    if polls != [] {
      var init := polls[..|polls| - 1];
      FullBatchCanStarve(docs, s, init, d);
      var t := PolledAll(docs, s, init);
      var latest := LatestDate(Fetched(docs, s.cursor));
      WrappableMembers(Fetched(docs, s.cursor), d);
      TruncationBounds(latest);
      if latest > 0 {
        LatestAfterSince(docs, s.cursor);
      }
    }
  }

  function PolledAll(docs: seq<Document>, s: State, polls: seq<Faults>): State {
    if polls == [] then s else Polled(docs, PolledAll(docs, s, polls[..|polls| - 1]), polls[|polls| - 1])
  }

  // ---- which documents are ever published -------------------------------

  /** How many seconds the cursor can still advance over. */
  function Room(docs: seq<Document>, cursor: Option<nat>): (n: nat) {
    var top := if docs == [] then 0 else docs[|docs| - 1].date / SECOND + 1;
    var at := if cursor.None? then 0 else cursor.value + 1;
    if at > top then 0 else top - at
  }

  lemma Advances(docs: seq<Document>, cursor: Option<nat>)
    requires Ascending(docs) && !Stalled(docs, cursor)
    ensures var next := Some(LatestDate(Fetched(docs, cursor)) / SECOND);
            Room(docs, next) < Room(docs, cursor) && Since(cursor) <= Since(next)
  {
    hide Fetched, LatestDate;
    var latest := LatestDate(Fetched(docs, cursor));
    LatestAfterSince(docs, cursor);
    TruncationBounds(latest);
    var k := LatestIsAMember(Fetched(docs, cursor));
    FetchedFromServer(docs, cursor, Fetched(docs, cursor)[k]);
    var i :| 0 <= i < |docs| && docs[i].date == latest;
    assert docs[i].date <= docs[|docs| - 1].date;
    Quotients(latest, docs[|docs| - 1].date);
  }

  lemma Quotients(a: nat, b: nat)
    requires a <= b
    ensures a / SECOND <= b / SECOND
  {
  }

  lemma {:induction false} FromDrops(docs: seq<Document>, since: nat) returns (k: nat)
    ensures k <= |docs| && From(docs, since) == docs[k..]
    ensures forall i :: 0 <= i < k ==> docs[i].date < since
  {
    if docs == [] || docs[0].date >= since {
      k := 0;
    } else {
      var j := FromDrops(docs[1..], since);
      k := j + 1;
      assert forall i :: 1 <= i < k ==> docs[i] == docs[1..][i - 1];
    }
  }

  /** What an earlier batch held from a later cursor on, the later batch holds too. */
  lemma FetchedLater(docs: seq<Document>, a: Option<nat>, b: Option<nat>, d: Document)
    requires Ascending(docs) && Since(a) <= Since(b)
    requires d in Fetched(docs, a) && d.date >= Since(b)
    ensures d in Fetched(docs, b)
  {
    var j := FromDrops(docs, Since(a));
    var k := FromDrops(docs, Since(b));
    var i :| 0 <= i < |Fetched(docs, a)| && Fetched(docs, a)[i] == d;
    assert docs[j + i] == d && k <= j + i;
    FromKeeps(docs, Since(b), d);
    assert j <= k by {
      if k < j {
        assert docs[k].date < Since(a) && docs[k] == From(docs, Since(b))[0];
        FromKeeps(docs, Since(b), docs[k]);
      }
    }
    assert From(docs, Since(b))[j + i - k] == d;
    assert Fetched(docs, b)[j + i - k] == d;
  }

  /** A document at or after a cursor's second, but not in the batch fetched there. */
  predicate Beyond(docs: seq<Document>, c: Option<nat>, d: Document) {
    d.date >= Since(c) && d !in Fetched(docs, c)
  }

  /** A document beyond a batch that has nothing past its cursor's second. */
  ghost predicate Hidden(docs: seq<Document>, d: Document) {
    exists c: Option<nat> :: Stalled(docs, c) && Beyond(docs, c, d)
  }

  /** No poll takes the cursor past a cursor at which polling stalls. */
  lemma StallIsNotPassed(docs: seq<Document>, s: State, f: Faults, c: Option<nat>)
    requires Ascending(docs) && Stalled(docs, c) && Since(s.cursor) <= Since(c)
    ensures Since(Polled(docs, s, f).cursor) <= Since(c)
  {
    hide Fetched, LatestDate, Wrappable;
    var batch := Fetched(docs, s.cursor);
    var latest := LatestDate(batch);
    TruncationBounds(latest);
    if latest > 0 && latest >= Since(c) {
      var k := LatestIsAMember(batch);
      FetchedLater(docs, s.cursor, c, batch[k]);
      WrappableMembers(Fetched(docs, c), batch[k]);
      if c.None? {
        assert false;
      }
      Quotients(latest, Since(c) + SECOND - 1);
    }
  }

  lemma {:induction false} RunStaysBehind(docs: seq<Document>, actions: seq<Action>, c: Option<nat>)
    requires Ascending(docs) && Stalled(docs, c)
    ensures Since(Run(docs, actions).cursor) <= Since(c)
  {
    hide Stalled, Polled;
    if actions != [] {
      RunStaysBehind(docs, actions[..|actions| - 1], c);
      if actions[|actions| - 1].Poll? {
        StallIsNotPassed(docs, Run(docs, actions[..|actions| - 1]), actions[|actions| - 1].faults, c);
      }
    }
  }

  lemma {:induction false} BeyondIsNeverPublished(docs: seq<Document>, actions: seq<Action>,
                                                  c: Option<nat>, d: Document)
    requires Ascending(docs) && Stalled(docs, c) && Beyond(docs, c, d)
    ensures d !in Run(docs, actions).stream
  {
    hide Fetched, LatestDate, Wrappable, Stalled, Since;
    if actions != [] {
      var init := actions[..|actions| - 1];
      BeyondIsNeverPublished(docs, init, c, d);
      RunStaysBehind(docs, init, c);
      var s := Run(docs, init);
      WrappableMembers(Fetched(docs, s.cursor), d);
      if d in Fetched(docs, s.cursor) {
        FetchedLater(docs, s.cursor, c, d);
      }
    }
  }

  ghost predicate Faultless(actions: seq<Action>) {
    forall a :: a in actions ==> a == Poll(FAULTLESS)
  }

  lemma RunMore(docs: seq<Document>, before: seq<Action>)
    ensures Run(docs, before + [Poll(FAULTLESS)]) == Polled(docs, Run(docs, before), FAULTLESS)
  {
    assert (before + [Poll(FAULTLESS)])[..|before|] == before;
  }

  /** A faultless poll at a stalled cursor publishes whatever is not hidden. */
  lemma StalledPollCatchesUp(docs: seq<Document>, before: seq<Action>, d: Document)
    requires Ascending(docs) && Stalled(docs, Run(docs, before).cursor)
    requires d in docs && d.parses && !Hidden(docs, d)
    ensures d in Polled(docs, Run(docs, before), FAULTLESS).stream
  {
    hide Fetched, LatestDate, Wrappable, Run, Stalled;
    var s := Run(docs, before);
    NothingSkippedBeforeCursor(docs, before);
    assert !Beyond(docs, s.cursor, d);
    WrappableMembers(Fetched(docs, s.cursor), d);
  }

  lemma PolledAdvances(docs: seq<Document>, s: State)
    requires Ascending(docs) && !Stalled(docs, s.cursor)
    ensures Room(docs, Polled(docs, s, FAULTLESS).cursor) < Room(docs, s.cursor)
  {
    hide Fetched, LatestDate, Wrappable, Room;
    Advances(docs, s.cursor);
  }

  /** After any run, enough faultless polls publish every parseable document that is not hidden. */
  lemma {:induction false} FaultlessPollsCatchUp(docs: seq<Document>, before: seq<Action>) returns (polls: seq<Action>)
    requires Ascending(docs)
    ensures Faultless(polls)
    ensures forall d :: d in docs && d.parses && !Hidden(docs, d) ==> d in Run(docs, before + polls).stream
    decreases Room(docs, Run(docs, before).cursor)
  {
    hide Stalled, Room, Polled, Hidden, Run;
    RunMore(docs, before);
    if Stalled(docs, Run(docs, before).cursor) {
      polls := [Poll(FAULTLESS)];
      forall d | d in docs && d.parses && !Hidden(docs, d)
        ensures d in Run(docs, before + polls).stream
      {
        StalledPollCatchesUp(docs, before, d);
      }
    } else {
      PolledAdvances(docs, Run(docs, before));
      var rest := FaultlessPollsCatchUp(docs, before + [Poll(FAULTLESS)]);
      polls := [Poll(FAULTLESS)] + rest;
      assert before + polls == before + [Poll(FAULTLESS)] + rest;
    }
  }

  /**
   In every run of failing and succeeding polls and cursor expiries, a parseable document of the server
   is unpublished for good exactly when it is hidden: a hidden one never appears, and any other appears
   after enough faultless polls.
   */
  lemma NeverPublishedIff(docs: seq<Document>, actions: seq<Action>, d: Document)
    requires Ascending(docs) && d in docs && d.parses
    ensures Hidden(docs, d) ==> d !in Run(docs, actions).stream
    ensures Hidden(docs, d) <==>
            forall polls :: Faultless(polls) ==> d !in Run(docs, actions + polls).stream
  {
    hide Run, Stalled, Beyond;
    if Hidden(docs, d) {
      var c :| Stalled(docs, c) && Beyond(docs, c, d);
      BeyondIsNeverPublished(docs, actions, c, d);
      forall polls
        ensures d !in Run(docs, actions + polls).stream
      {
        BeyondIsNeverPublished(docs, actions + polls, c, d);
      }
    } else {
      var polls := FaultlessPollsCatchUp(docs, actions);
      assert Faultless(polls);
    }
  }

  /** Nothing is hidden when no cursor with more than 500 documents after it stalls. */
  lemma NothingHiddenWithoutFullStalls(docs: seq<Document>, d: Document)
    requires Ascending(docs) && d in docs
    requires forall c :: Stalled(docs, c) ==> |From(docs, Since(c))| <= FETCH_LIMIT
    ensures !Hidden(docs, d)
  {
    hide Stalled;
    forall c: Option<nat> | Stalled(docs, c)
      ensures !Beyond(docs, c, d)
    {
      FromKeeps(docs, Since(c), d);
    }
  }

  ghost predicate Distinct(docs: seq<Document>) {
    forall i, j :: 0 <= i < j < |docs| ==> docs[i] != docs[j]
  }

  /** Of distinct documents some are hidden exactly when a cursor with more than 500 documents after it stalls. */
  lemma SomethingHiddenIff(docs: seq<Document>)
    requires Ascending(docs) && Distinct(docs)
    ensures (exists d :: d in docs && Hidden(docs, d)) <==>
            exists c :: Stalled(docs, c) && |From(docs, Since(c))| > FETCH_LIMIT
  {
    hide Stalled, From, Since;
    if c :| Stalled(docs, c) && |From(docs, Since(c))| > FETCH_LIMIT {
      var k := FromDrops(docs, Since(c));
      var d := docs[k + FETCH_LIMIT];
      assert d == From(docs, Since(c))[FETCH_LIMIT];
      FromKeeps(docs, Since(c), d);
      assert forall i :: 0 <= i < FETCH_LIMIT ==> Fetched(docs, c)[i] == docs[k + i];
      assert Beyond(docs, c, d);
    } else {
      forall d | d in docs
        ensures !Hidden(docs, d)
      {
        NothingHiddenWithoutFullStalls(docs, d);
      }
    }
  }

  /** 501 documents within one second: the last is published in no run. */
  lemma {:induction false} DocumentsOfOneSecondStarve(docs: seq<Document>, actions: seq<Action>)
    requires docs == seq(FETCH_LIMIT + 1, i requires i >= 0 => Document(i, SECOND, true))
    ensures Ascending(docs) && Hidden(docs, docs[FETCH_LIMIT])
    ensures docs[FETCH_LIMIT] !in Run(docs, actions).stream
  {
    var first := docs[..FETCH_LIMIT];
    assert Fetched(docs, None) == first && Fetched(docs, Some(1)) == first;
    SameDates(first, SECOND);
    assert Stalled(docs, Some(1)) && Beyond(docs, Some(1), docs[FETCH_LIMIT]);
    BeyondIsNeverPublished(docs, actions, Some(1), docs[FETCH_LIMIT]);
  }

  lemma {:induction false} SameDates(batch: seq<Document>, t: nat)
    requires forall d :: d in batch ==> d.parses && d.date == t
    ensures LatestDate(batch) == if batch == [] then 0 else t
  {
    if batch != [] {
      SameDates(batch[..|batch| - 1], t);
    }
  }
}
