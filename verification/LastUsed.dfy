/**
 The last-used recorder (internal/identity/lastused.go): touches, snapshot swaps and batch writes
 as separate steps of one flusher and any number of touching callers, interleaved in any order.
 */
module LastUsed {
  import opened Wrappers

  /** uuid.UUID; 0 is uuid.Nil. */
  type Id = nat

  /** The flusher goroutine; final marks the flush before it exits. */
  datatype Flusher = NotStarted | Waiting | Writing(snapshot: map<Id, nat>, final: bool) | Exited

  /**
   table holds last_used_at of every api_keys row. latest and lost are bookkeeping: the last touch of
   each key, and the keys whose last touch was in a snapshot that failed to be written.
   */
  datatype State = State(
    clock: nat, pending: map<Id, nat>, started: bool, closed: bool, cancelled: bool,
    flusher: Flusher, table: map<Id, Option<nat>>, latest: map<Id, nat>, lost: set<Id>)

  datatype Signal = Timer | CloseRequested | ContextDone

  datatype Action =
    | Pass(delay: nat) | CreateRow(id: Id) | Touch(id: Id) | Start | Close | Cancel
    | Wake(signal: Signal) | Write(ok: bool)

  predicate Enabled(s: State, a: Action) {
    match a
    case CreateRow(id) => id !in s.table
    case Wake(signal) =>
      s.flusher.Waiting? && (signal.CloseRequested? ==> s.closed) && (signal.ContextDone? ==> s.cancelled)
    case Write(_) => s.flusher.Writing?
    case _ => true
  }

  /** UPDATE ... FROM unnest(ids, timestamps): only existing rows are written. */
  function Written(table: map<Id, Option<nat>>, snapshot: map<Id, nat>): map<Id, Option<nat>> {
    map k | k in table :: if k in snapshot then Some(snapshot[k]) else table[k]
  }

  function Next(s: State, a: Action): State
    requires Enabled(s, a)
  {
    match a
    case Pass(delay) => s.(clock := s.clock + delay)
    case CreateRow(id) => s.(table := s.table[id := None])
    case Touch(id) =>
      if id == 0 then s
      else s.(pending := s.pending[id := s.clock], latest := s.latest[id := s.clock], lost := s.lost - {id})
    case Start => if s.closed || s.started then s else s.(started := true, flusher := Waiting)
    case Close => s.(closed := true)
    case Cancel => s.(cancelled := true)
    case Wake(signal) =>
      if s.pending != map[] then s.(pending := map[], flusher := Writing(s.pending, !signal.Timer?))
      else s.(flusher := if signal.Timer? then Waiting else Exited)
    case Write(ok) =>
      var f := s.flusher;
      var t := s.(flusher := if f.final then Exited else Waiting);
      if ok then t.(table := Written(s.table, f.snapshot))
      else t.(lost := s.lost + (f.snapshot.Keys - s.pending.Keys))
  }

  const INITIAL: State := State(0, map[], false, false, false, NotStarted, map[], map[], {})

  class LastUsedRecorder {
    var clock: nat
    var pending: map<Id, nat>
    var started: bool
    var closed: bool
    var cancelled: bool
    var flusher: Flusher
    var table: map<Id, Option<nat>>
    ghost var latest: map<Id, nat>
    ghost var lost: set<Id>

    ghost function Abs(): State
      reads this
    {
      State(clock, pending, started, closed, cancelled, flusher, table, latest, lost)
    }

    constructor ()
      ensures Abs() == INITIAL
    {
      clock, pending, started, closed, cancelled := 0, map[], false, false, false;
      flusher, table, latest, lost := NotStarted, map[], map[], {};
    }

    method TouchKey(id: Id)
      modifies this
      ensures Abs() == Next(old(Abs()), Touch(id))
      ensures pending == if id == 0 then old(pending) else old(pending)[id := clock]
    {
      if id == 0 {
        return;
      }
      pending := pending[id := clock];
      latest, lost := latest[id := clock], lost - {id};
    }

    method StartFlusher()
      modifies this
      ensures Abs() == Next(old(Abs()), Start)
    {
      if closed || started {
        return;
      }
      started, flusher := true, Waiting;
    }

    method CloseRecorder()
      modifies this
      ensures Abs() == Next(old(Abs()), Close)
    {
      closed := true;
    }

    /** The part of Flush under the lock, as the flusher loop calls it on a signal. */
    method TakeSnapshot(signal: Signal)
      requires Enabled(Abs(), Wake(signal))
      modifies this
      ensures Abs() == Next(old(Abs()), Wake(signal))
    {
      var final := signal != Timer;
      if |pending| == 0 {
        flusher := if final then Exited else Waiting;
        return;
      }
      var snapshot := pending;
      pending := map[];
      flusher := Writing(snapshot, final);
    }

    /** The rest of Flush: one batched UPDATE, which may fail; the snapshot is dropped either way. */
    method WriteSnapshot(ok: bool)
      requires Enabled(Abs(), Write(ok))
      modifies this
      ensures Abs() == Next(old(Abs()), Write(ok))
    {
      var snapshot, final := flusher.snapshot, flusher.final;
      if ok {
        var current := table;
        table := map k | k in current :: if k in snapshot then Some(snapshot[k]) else current[k];
      } else {
        lost := lost + (snapshot.Keys - pending.Keys);
      }
      flusher := if final then Exited else Waiting;
    }
  }

  // ---- runs -------------------------------------------------------------

  function Snapshot(s: State): map<Id, nat> {
    if s.flusher.Writing? then s.flusher.snapshot else map[]
  }

  /** Where the latest touch of a key is to be found. */
  predicate Located(s: State, k: Id)
    requires k in s.latest
  {
    if k in s.pending then s.pending[k] == s.latest[k]
    else if k in Snapshot(s) then Snapshot(s)[k] == s.latest[k]
    else k in s.table ==> s.table[k] == Some(s.latest[k])
  }

  /** Times only grow from the table through the snapshot and the pending map to the clock. */
  predicate Ascending(s: State, k: Id) {
    var inTable := k in s.table && s.table[k].Some?;
    && (k in s.pending ==> k in s.latest && s.pending[k] <= s.clock)
    && (k in Snapshot(s) ==> k in s.latest && Snapshot(s)[k] <= s.clock)
    && (inTable ==> s.table[k].value <= s.clock)
    && (k in Snapshot(s) && k in s.pending ==> Snapshot(s)[k] <= s.pending[k])
    && (inTable && k in s.pending ==> s.table[k].value <= s.pending[k])
    && (inTable && k in Snapshot(s) ==> s.table[k].value <= Snapshot(s)[k])
  }

  predicate KeyInv(s: State, k: Id) {
    && Ascending(s, k)
    && (k in s.latest && k !in s.lost ==> Located(s, k))
    && (k in s.lost ==> k !in s.pending)
  }

  ghost predicate Inv(s: State) {
    (forall k :: KeyInv(s, k)) && (s.flusher != NotStarted ==> s.started)
  }

  /** A key gets its row before it is used. */
  ghost predicate RowsFirst(s: State, a: Action) {
    && (a.CreateRow? ==> a.id !in s.latest)
  }

  lemma NextKeepsInv(s: State, a: Action)
    requires Inv(s) && Enabled(s, a) && RowsFirst(s, a)
    ensures Inv(Next(s, a))
  {
    forall k
      ensures KeyInv(Next(s, a), k)
    {
      hide KeyInv;
      NextKeepsKey(s, a, k);
    }
  }

  lemma {:induction false} NextKeepsKey(s: State, a: Action, k: Id)
    requires KeyInv(s, k) && (s.flusher != NotStarted ==> s.started) && Enabled(s, a) && RowsFirst(s, a)
    ensures KeyInv(Next(s, a), k)
  {
    match a {
      case Touch(id) => TouchKeepsKey(s, id, k);
      case Wake(signal) => WakeKeepsKey(s, signal, k);
      case Write(ok) => WriteKeepsKey(s, ok, k);
      case _ =>
    }
  }

  /** KeyInv looks at one key only. */
  lemma SameKey(s: State, t: State, k: Id)
    requires KeyInv(s, k) && t.clock == s.clock && t.table == s.table && Snapshot(t) == Snapshot(s)
    requires k in t.pending <==> k in s.pending
    requires k in t.pending ==> t.pending[k] == s.pending[k]
    requires k in t.latest <==> k in s.latest
    requires k in t.latest ==> t.latest[k] == s.latest[k]
    requires k in t.lost <==> k in s.lost
    ensures KeyInv(t, k)
  {
    hide Snapshot;
  }

  lemma TouchKeepsKey(s: State, id: Id, k: Id)
    requires KeyInv(s, k)
    ensures KeyInv(Next(s, Touch(id)), k)
  {
    var t := Next(s, Touch(id));
    assert Snapshot(t) == Snapshot(s);
    if id != 0 && k == id {
      hide Snapshot;
      assert t.pending[k] == t.latest[k] == s.clock && k !in t.lost;
    } else {
      hide KeyInv, Snapshot;
      SameKey(s, t, k);
    }
  }

  lemma WakeKeepsKey(s: State, signal: Signal, k: Id)
    requires KeyInv(s, k) && s.flusher.Waiting?
    requires Enabled(s, Wake(signal))
    ensures KeyInv(Next(s, Wake(signal)), k)
  {
  }

  lemma WriteKeepsKey(s: State, ok: bool, k: Id)
    requires KeyInv(s, k) && s.flusher.Writing?
    ensures KeyInv(Next(s, Write(ok)), k)
  {
    var t, snapshot := Next(s, Write(ok)), s.flusher.snapshot;
    assert Snapshot(t) == map[] && Snapshot(s) == snapshot && t.pending == s.pending && t.latest == s.latest;
    if ok {
      assert k in s.table ==> t.table[k] == if k in snapshot then Some(snapshot[k]) else s.table[k];
    } else {
      assert k in snapshot && k !in s.pending ==> k in t.lost;
    }
  }

  /** No step lowers or clears a stored last_used_at. */
  lemma NextIsMonotone(s: State, a: Action, k: Id)
    requires Inv(s) && Enabled(s, a) && k in s.table && s.table[k].Some?
    ensures var t := Next(s, a).table; k in t && t[k].Some? && s.table[k].value <= t[k].value
  {
    assert KeyInv(s, k);
  }

  /** states[i + 1] follows states[i] by actions[i]. */
  ghost predicate IsRun(states: seq<State>, actions: seq<Action>) {
    && |states| == |actions| + 1
    && forall i :: 0 <= i < |actions| ==>
         && Enabled(states[i], actions[i]) && RowsFirst(states[i], actions[i])
         && states[i + 1] == Next(states[i], actions[i])
  }

  lemma {:induction false} RunKeepsInv(states: seq<State>, actions: seq<Action>, n: nat)
    requires IsRun(states, actions) && states[0] == INITIAL && n < |states|
    ensures Inv(states[n])
  {
    if n > 0 {
      RunKeepsInv(states, actions, n - 1);
      assert states[n - 1 + 1] == Next(states[n - 1], actions[n - 1]);
      NextKeepsInv(states[n - 1], actions[n - 1]);
    }
  }

  lemma {:induction false} NothingLost(states: seq<State>, actions: seq<Action>, n: nat)
    requires IsRun(states, actions) && states[0] == INITIAL && n < |states|
    requires Write(false) !in actions
    ensures states[n].lost == {}
  {
    if n > 0 {
      NothingLost(states, actions, n - 1);
      assert states[n - 1 + 1] == Next(states[n - 1], actions[n - 1]);
      assert actions[n - 1] in actions;
    }
  }

  /**
   At every point of every interleaving without failed writes, a key's latest touch is pending, else in
   the snapshot being written, else stored.
   */
  lemma LatestTouchIsSomewhere(states: seq<State>, actions: seq<Action>, n: nat, k: Id)
    requires IsRun(states, actions) && states[0] == INITIAL && n < |states|
    requires Write(false) !in actions && k in states[n].latest
    ensures Located(states[n], k)
  {
    RunKeepsInv(states, actions, n);
    NothingLost(states, actions, n);
    assert KeyInv(states[n], k);
  }

  /** A stored last_used_at never goes back, whatever writes fail. */
  lemma {:induction false} StoredNeverGoesBack(states: seq<State>, actions: seq<Action>, i: nat, j: nat, k: Id)
    requires IsRun(states, actions) && states[0] == INITIAL && i <= j < |states|
    requires k in states[i].table && states[i].table[k].Some?
    ensures k in states[j].table && states[j].table[k].Some?
    ensures states[i].table[k].value <= states[j].table[k].value
  {
    if i < j {
      StoredNeverGoesBack(states, actions, i, j - 1, k);
      RunKeepsInv(states, actions, j - 1);
      assert states[j - 1 + 1] == Next(states[j - 1], actions[j - 1]);
      NextIsMonotone(states[j - 1], actions[j - 1], k);
    }
  }

  // ---- flushing ---------------------------------------------------------

  /** The flusher is writing the snapshot of the wake-up at state w; only new rows have joined the table. */
  predicate InFlight(w: State, final: bool, s: State) {
    && s.flusher == Writing(w.pending, final)
    && forall k :: k in w.table ==> k in s.table && s.table[k] == w.table[k]
  }

  lemma WakeTakesSnapshot(w: State, a: Action)
    requires Enabled(w, a) && a.Wake? && w.pending != map[]
    ensures InFlight(w, a.signal != Timer, Next(w, a))
  {
  }

  lemma InFlightStep(w: State, final: bool, s: State, a: Action)
    requires InFlight(w, final, s) && Enabled(s, a) && !a.Write? && s.started
    ensures InFlight(w, final, Next(s, a)) && !a.Wake?
  {
  }

  lemma {:induction false} StaysInFlight(states: seq<State>, actions: seq<Action>, i: nat, j: nat)
    requires IsRun(states, actions) && states[0] == INITIAL && i < j < |states|
    requires actions[i].Wake? && states[i].pending != map[]
    requires forall m :: i < m < j ==> !actions[m].Write?
    ensures InFlight(states[i], actions[i].signal != Timer, states[j])
    ensures forall m :: i < m < j ==> !actions[m].Wake?
  {
    hide Inv, InFlight, Next;
    assert states[j - 1 + 1] == Next(states[j - 1], actions[j - 1]);
    if j == i + 1 {
      WakeTakesSnapshot(states[i], actions[i]);
    } else {
      StaysInFlight(states, actions, i, j - 1);
      RunKeepsInv(states, actions, j - 1);
      InFlightIsStarted(states[i], actions[i].signal != Timer, states[j - 1]);
      InFlightStep(states[i], actions[i].signal != Timer, states[j - 1], actions[j - 1]);
    }
  }

  lemma InFlightIsStarted(w: State, final: bool, s: State)
    requires Inv(s) && InFlight(w, final, s)
    ensures s.started
  {
  }

  /**
   In every run the first write after a wake-up that found touches, if it succeeds, stores exactly what was
   pending at that wake-up in the rows there were; the flusher then waits on after a timer and exits otherwise.
   */
  lemma {:induction false} WakeUpsAreStored(states: seq<State>, actions: seq<Action>, i: nat, j: nat, k: Id)
    requires IsRun(states, actions) && states[0] == INITIAL && i < j < |actions|
    requires actions[i].Wake? && states[i].pending != map[] && actions[j] == Write(true)
    requires forall m :: i < m < j ==> !actions[m].Write?
    ensures k in states[i].table ==>
              && k in states[j + 1].table
              && states[j + 1].table[k]
                 == if k in states[i].pending then Some(states[i].pending[k]) else states[i].table[k]
    ensures states[j + 1].flusher == if actions[i].signal == Timer then Waiting else Exited
    ensures forall m :: i < m < j ==> !actions[m].Wake?
  {
    StaysInFlight(states, actions, i, j);
    assert states[j + 1] == Next(states[j], actions[j]);
  }

  /** Starting works once and not after Close; waking without touches exits on Close or cancellation, and only then. */
  lemma FlusherLifecycle(s: State, signal: Signal)
    ensures !s.closed && !s.started ==> Next(s, Start).started && Next(s, Start).flusher == Waiting
    ensures s.closed || s.started ==> Next(s, Start) == s
    ensures Next(s, Close) == s.(closed := true) && Next(s, Cancel) == s.(cancelled := true)
    ensures Enabled(s, Wake(signal)) && s.pending == map[] ==>
              Next(s, Wake(signal)) == s.(flusher := if signal == Timer then Waiting else Exited)
  {
  }

  /** Only a successful write changes what is stored, and only for the keys of its snapshot. */
  lemma OnlyWritesStore(s: State, a: Action, k: Id)
    requires Enabled(s, a) && k in s.table
    requires a != Write(true) || k !in s.flusher.snapshot
    ensures k in Next(s, a).table && Next(s, a).table[k] == s.table[k]
  {
  }

  /** A failed write leaves the flusher as a successful one does, and drops the snapshot for good. */
  lemma FailedWriteDrops(s: State)
    requires s.flusher.Writing?
    ensures Next(s, Write(false)).flusher == Next(s, Write(true)).flusher == if s.flusher.final then Exited else Waiting
    ensures Next(s, Write(false)).pending == s.pending
  {
  }

  // ---- shutdown ---------------------------------------------------------

  /** No flusher is left and none can start. */
  predicate Stopped(s: State) {
    s.flusher == Exited || (s.flusher == NotStarted && s.closed)
  }

  /** Once stopped the recorder writes nothing more, although touches are still accepted; Close is too late. */
  lemma {:induction false} StoppedWritesNothing(states: seq<State>, actions: seq<Action>, i: nat, j: nat)
    requires IsRun(states, actions) && states[0] == INITIAL && i <= j < |states| && Stopped(states[i])
    ensures Stopped(states[j])
    ensures forall k :: k in states[i].table ==> k in states[j].table && states[j].table[k] == states[i].table[k]
    ensures forall k :: k in states[i].pending ==> k in states[j].pending
  {
    if i < j {
      StoppedWritesNothing(states, actions, i, j - 1);
      RunKeepsInv(states, actions, j - 1);
      assert states[j - 1 + 1] == Next(states[j - 1], actions[j - 1]);
    }
  }

  /** A wake-up after which the flusher exits. */
  predicate IsLastWake(a: Action) {
    a.Wake? && a.signal != Timer
  }

  /** What a row holds once the snapshot of the wake-up at state w is written. */
  function Drained(w: State, k: Id): Option<nat>
    requires k in w.table
  {
    if k in w.pending then Some(w.pending[k]) else w.table[k]
  }

  /** Since its last wake-up at state w the flusher is writing the snapshot, or has written it and exited. */
  predicate Finishing(w: State, s: State, k: Id) {
    && (s.flusher == Exited || s.flusher == Writing(w.pending, true))
    && (k in w.table ==>
          k in s.table && s.table[k] == if s.flusher == Exited then Drained(w, k) else w.table[k])
  }

  lemma WakeStartsFinishing(w: State, a: Action, k: Id)
    requires Enabled(w, a) && IsLastWake(a)
    ensures Finishing(w, Next(w, a), k)
  {
  }

  lemma FinishingStep(w: State, s: State, a: Action, k: Id)
    requires Finishing(w, s, k) && Enabled(s, a) && a != Write(false) && s.started
    ensures Finishing(w, Next(s, a), k) && !a.Wake?
  {
  }

  lemma {:induction false} AfterLastWake(states: seq<State>, actions: seq<Action>, w: nat, n: nat, k: Id)
    requires IsRun(states, actions) && states[0] == INITIAL && w < n < |states|
    requires IsLastWake(actions[w]) && forall j :: w < j < n ==> actions[j] != Write(false)
    ensures Finishing(states[w], states[n], k)
    ensures forall j :: w < j < n ==> !actions[j].Wake?
  {
    hide Finishing, Next, KeyInv;
    RunKeepsInv(states, actions, n - 1);
    assert states[n - 1 + 1] == Next(states[n - 1], actions[n - 1]);
    if n - 1 == w {
      WakeStartsFinishing(states[w], actions[w], k);
    } else {
      AfterLastWake(states, actions, w, n - 1, k);
      StartedOnce(states[w], states[n - 1], k);
      FinishingStep(states[w], states[n - 1], actions[n - 1], k);
    }
  }

  lemma StartedOnce(w: State, s: State, k: Id)
    requires Inv(s) && Finishing(w, s, k)
    ensures s.started
  {
  }

  lemma {:induction false} ExitHasLastWake(states: seq<State>, actions: seq<Action>, n: nat) returns (w: nat)
    requires IsRun(states, actions) && states[0] == INITIAL && n < |states|
    requires states[n].flusher == Exited || (states[n].flusher.Writing? && states[n].flusher.final)
    ensures w < n && IsLastWake(actions[w])
  {
    assert states[n - 1 + 1] == Next(states[n - 1], actions[n - 1]);
    if IsLastWake(actions[n - 1]) {
      w := n - 1;
    } else {
      RunKeepsInv(states, actions, n - 1);
      w := ExitHasLastWake(states, actions, n - 1);
    }
  }

  /**
   An exited flusher drained, in every run: it has one last wake-up, on Close or cancellation, and unless
   the write after it failed, every touch made before it to an existing row is stored (an earlier failed
   write loses only what was not touched since), whatever was touched while it was writing.
   */
  lemma {:induction false} CloseDrains(states: seq<State>, actions: seq<Action>, n: nat) returns (w: nat)
    requires IsRun(states, actions) && states[0] == INITIAL && n < |states| && states[n].flusher == Exited
    ensures w < n && IsLastWake(actions[w])
    ensures (forall j :: w < j < n ==> actions[j] != Write(false)) ==>
              && (forall j :: w < j < n ==> !actions[j].Wake?)
              && forall k :: k in states[w].latest && k in states[w].table && k !in states[w].lost ==>
                               k in states[n].table && states[n].table[k] == Some(states[w].latest[k])
  {
    w := ExitHasLastWake(states, actions, n);
    if forall j :: w < j < n ==> actions[j] != Write(false) {
      AfterLastWake(states, actions, w, n, 0);
      RunKeepsInv(states, actions, w);
      assert Enabled(states[w], actions[w]);
      forall k | k in states[w].latest && k in states[w].table && k !in states[w].lost
        ensures k in states[n].table && states[n].table[k] == Some(states[w].latest[k])
      {
        AfterLastWake(states, actions, w, n, k);
        assert KeyInv(states[w], k);
      }
    }
  }
}
