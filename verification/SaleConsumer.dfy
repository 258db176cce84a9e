/**
 The sale consumer (internal/inventory/consumer.go): one consumer turns unlinked transaction lines
 into movements, and can be interrupted between appending a movement and linking it to its line.
 */
module SaleConsumer {
  import opened Wrappers
  import opened Inventory

  /** A transaction line in created_at order, with its transaction's location; movement None is NULL. */
  datatype Line = Line(
    tenant: Id, item: Option<Id>, location: Id, quantity: int, isReturn: bool, cost: Option<int>,
    isVoid: bool, movement: Option<nat>)

  /** What goes wrong while a line is processed: its transaction does not commit, or its link is not written. */
  datatype Fault = NoFault | CommitFails | LinkFails

  /** orphans is bookkeeping: the movements whose link failed. */
  datatype World = World(lines: seq<Line>, ledger: Ledger, signals: seq<(Place, int)>, orphans: seq<nat>)

  const BATCH: nat := 100

  predicate Unlinked(l: Line) {
    l.movement.None? && !l.isVoid && l.item.Some?
  }

  function PlaceOf(l: Line): Place
    requires l.item.Some?
  {
    Place(l.tenant, l.item.value, l.location)
  }

  /** The stock change a line stands for. */
  function Signed(l: Line): int {
    if l.isReturn then l.quantity else -l.quantity
  }

  /** The line's columns are numeric(14,4). */
  predicate WellTyped(l: Line) {
    InColumn(l.quantity) && (l.cost.Some? ==> InColumn(l.cost.value))
  }

  function RequestFor(l: Line): MovementRequest
    requires l.item.Some?
  {
    MovementRequest(
      PlaceOf(l), if l.isReturn then "return" else "sale",
      if l.isReturn then NumericText(l.quantity) else "-" + NumericText(l.quantity),
      if l.cost.Some? then Some(NumericText(l.cost.value)) else None)
  }

  function UnlinkedIndices(lines: seq<Line>): (s: seq<nat>)
    ensures forall k :: 0 <= k < |s| ==> s[k] < |lines| && Unlinked(lines[s[k]])
    ensures forall j, k :: 0 <= j < k < |s| ==> s[j] < s[k]
  {
    if lines == [] then []
    else
      var n := |lines| - 1;
      UnlinkedIndices(lines[..n]) + if Unlinked(lines[n]) then [n] else []
  }

  /** ORDER BY created_at LIMIT 100. */
  function Batch(lines: seq<Line>): (s: seq<nat>)
    ensures |s| <= BATCH
    ensures forall k :: 0 <= k < |s| ==> s[k] < |lines| && Unlinked(lines[s[k]])
    ensures forall j, k :: 0 <= j < k < |s| ==> s[j] < s[k]
  {
    var s := UnlinkedIndices(lines);
    if |s| > BATCH then s[..BATCH] else s
  }

  function Processed(w: World, i: nat, fault: Fault): World
    requires i < |w.lines| && Unlinked(w.lines[i])
  {
    var l := w.lines[i];
    var x := Prepared(w.ledger, RequestFor(l));
    if x.None? || fault == CommitFails then w
    else
      var id := |w.ledger.movements|;
      var after := w.(ledger := Appended(w.ledger, RequestFor(l), true));
      if fault == LinkFails then after.(orphans := w.orphans + [id])
      else
        after.(lines := w.lines[i := l.(movement := Some(id))],
               signals := if !l.isReturn && x.value.1.onHand <= 0 then w.signals + [(PlaceOf(l), x.value.1.onHand)]
                          else w.signals)
  }

  /** The lines of a batch from position k on are still to be processed. */
  predicate Pending(w: World, batch: seq<nat>, k: nat) {
    && (forall j :: k <= j < |batch| ==> batch[j] < |w.lines| && Unlinked(w.lines[batch[j]]))
    && (forall i, j :: 0 <= i < j < |batch| ==> batch[i] < batch[j])
  }

  function ProcessedFrom(w: World, batch: seq<nat>, k: nat, fault: nat -> Fault): (r: World)
    requires k <= |batch| && Pending(w, batch, k)
    decreases |batch| - k
  {
    if k == |batch| then w else ProcessedFrom(Processed(w, batch[k], fault(k)), batch, k + 1, fault)
  }

  function Ticked(w: World, fault: nat -> Fault): World {
    ProcessedFrom(w, Batch(w.lines), 0, fault)
  }

  class Consumer {
    var lines: seq<Line>
    var signals: seq<(Place, int)>
    const store: Store
    ghost var orphans: seq<nat>

    ghost function Abs(): World
      reads this, store
    {
      World(lines, store.Abs(), signals, orphans)
    }

    constructor (store: Store)
      ensures this.store == store && Abs() == World([], store.Abs(), [], [])
    {
      this.store := store;
      lines, signals, orphans := [], [], [];
    }

    method FetchUnlinked() returns (batch: seq<nat>)
      ensures batch == Batch(lines)
      ensures forall i :: 0 <= i < |lines| ==>
                (i in batch <==> !lines[i].isVoid && lines[i].item.Some? && lines[i].movement.None?
                                 && Waiting(lines[..i]) < 100)
    {
      var out: seq<nat> := [];
      for i := 0 to |lines|
        invariant out == UnlinkedIndices(lines[..i])
      {
        assert lines[..i + 1][..i] == lines[..i];
        if Unlinked(lines[i]) {
          out := out + [i];
        }
      }
      assert lines[..|lines|] == lines;
      batch := if |out| > BATCH then out[..BATCH] else out;
      forall i | 0 <= i < |lines| {
        FetchedIff(lines, i);
      }
    }

    /** UPDATE ... SET inventory_movement_id WHERE id. */
    method LinkMovement(i: nat, id: nat)
      requires i < |lines|
      modifies this`lines
      ensures lines == old(lines)[i := old(lines)[i].(movement := Some(id))]
    {
      lines := lines[i := lines[i].(movement := Some(id))];
    }

    method ProcessLine(i: nat, fault: Fault)
      requires i < |lines| && Unlinked(lines[i])
      modifies this, store
      ensures Abs() == Processed(old(Abs()), i, fault)
    {
      hide Prepared;
      var l := lines[i];
      var quantity := NumericText(l.quantity);
      var kind, qty := "sale", "-" + quantity;
      if l.isReturn {
        kind, qty := "return", quantity;
      }
      var cost := if l.cost.Some? then Some(NumericText(l.cost.value)) else None;
      var request := MovementRequest(PlaceOf(l), kind, qty, cost);
      assert request == RequestFor(l);
      assert fault != CommitFails ==>
          Appended(store.Abs(), request, fault != CommitFails) == Appended(store.Abs(), request, true);
      var x := store.AppendMovement(request, fault != CommitFails);
      if x.None? {
        return;
      }
      var (id, pos) := x.value;
      if fault == LinkFails {
        orphans := orphans + [id];
        return;
      }
      LinkMovement(i, id);
      ZeroOrNegativeText(pos.onHand);
      var low := IsZeroOrNegative(NumericText(pos.onHand));
      if low && !l.isReturn {
        signals := signals + [(PlaceOf(l), pos.onHand)];
      }
    }

    /** One batch; a line that fails does not stop the others. */
    method Tick(fault: nat -> Fault)
      modifies this, store
      ensures Abs() == Ticked(old(Abs()), fault)
    {
      hide Processed;
      var batch := FetchUnlinked();
      for k := 0 to |batch|
        invariant Pending(Abs(), batch, k)
        invariant ProcessedFrom(Abs(), batch, k, fault) == Ticked(old(Abs()), fault)
      {
        PendingNext(Abs(), batch, k, fault(k));
        ProcessLine(batch[k], fault(k));
      }
    }
  }

  lemma PendingNext(w: World, batch: seq<nat>, k: nat, fault: Fault)
    requires k < |batch| && Pending(w, batch, k)
    ensures Pending(Processed(w, batch[k], fault), batch, k + 1)
  {
    hide Prepared;
    var after := Processed(w, batch[k], fault);
    forall j | k < j < |batch|
      ensures batch[j] < |after.lines| && Unlinked(after.lines[batch[j]])
    {
      assert batch[k] < batch[j] && Unlinked(w.lines[batch[j]]);
    }
  }

  // ---- the invariant ----------------------------------------------------

  function LinkedCount(lines: seq<Line>): (n: nat) {
    if lines == [] then 0
    else LinkedCount(lines[..|lines| - 1]) + if lines[|lines| - 1].movement.Some? then 1 else 0
  }

  /** Returns less sales over the linked lines of a place. */
  function LinkedSum(lines: seq<Line>, p: Place): int {
    if lines == [] then 0
    else LinkedSum(lines[..|lines| - 1], p) + Contribution(lines[|lines| - 1], p)
  }

  function Contribution(l: Line, p: Place): int {
    if l.movement.Some? && l.item.Some? && PlaceOf(l) == p then Signed(l) else 0
  }

  predicate OrphansExist(w: World) {
    forall k :: 0 <= k < |w.orphans| ==> w.orphans[k] < |w.ledger.movements|
  }

  function OrphanSum(ms: seq<Movement>, orphans: seq<nat>, p: Place): int
    requires forall k :: 0 <= k < |orphans| ==> orphans[k] < |ms|
  {
    if orphans == [] then 0
    else
      var m := ms[orphans[|orphans| - 1]];
      OrphanSum(ms, orphans[..|orphans| - 1], p) + if m.place == p then m.delta else 0
  }

  /** A linked line names an existing movement of its place with its signed quantity. */
  predicate LinkIsRight(w: World, i: nat)
    requires i < |w.lines|
  {
    var l := w.lines[i];
    l.movement.Some? ==>
      && l.movement.value < |w.ledger.movements| && l.item.Some?
      && w.ledger.movements[l.movement.value].place == PlaceOf(l)
      && w.ledger.movements[l.movement.value].delta == Signed(l)
      && l.movement.value !in w.orphans
  }

  ghost predicate Links(w: World) {
    && (forall i :: 0 <= i < |w.lines| ==> WellTyped(w.lines[i]) && LinkIsRight(w, i))
    && (forall i, j :: 0 <= i < j < |w.lines| && w.lines[i].movement.Some? && w.lines[j].movement.Some? ==>
          w.lines[i].movement != w.lines[j].movement)
    && OrphansExist(w)
  }

  /** Movements that are neither linked nor orphans. */
  function Unaccounted(w: World): int {
    |w.ledger.movements| - LinkedCount(w.lines) - |w.orphans|
  }

  /** The stock of a place that its linked lines and orphans do not explain. */
  function Outside(w: World, p: Place): int
    requires OrphansExist(w)
  {
    OnHand(w.ledger, p) - LinkedSum(w.lines, p) - OrphanSum(w.ledger.movements, w.orphans, p)
  }

  lemma {:induction false} LinkOne(lines: seq<Line>, i: nat, id: nat, p: Place)
    requires i < |lines| && Unlinked(lines[i])
    ensures var after := lines[i := lines[i].(movement := Some(id))];
            && LinkedCount(after) == LinkedCount(lines) + 1
            && LinkedSum(after, p) == LinkedSum(lines, p) + if PlaceOf(lines[i]) == p then Signed(lines[i]) else 0
  {
    var n := |lines| - 1;
    var after := lines[i := lines[i].(movement := Some(id))];
    if i < n {
      LinkOne(lines[..n], i, id, p);
      assert after[..n] == lines[..n][i := lines[i].(movement := Some(id))];
    } else {
      assert after[..n] == lines[..n];
    }
  }

  lemma {:induction false} OrphanSumFrame(ms: seq<Movement>, m: Movement, orphans: seq<nat>, p: Place)
    requires forall k :: 0 <= k < |orphans| ==> orphans[k] < |ms|
    ensures OrphanSum(ms + [m], orphans, p) == OrphanSum(ms, orphans, p)
  {
    if orphans != [] {
      OrphanSumFrame(ms, m, orphans[..|orphans| - 1], p);
    }
  }

  /** What the ledger takes: no sale of a negative quantity, and only while the stock stays within its column. */
  predicate Accepted(l: Ledger, line: Line)
    requires line.item.Some?
  {
    (line.isReturn || line.quantity >= 0) && InColumn(OnHand(l, PlaceOf(line)) + Signed(line))
  }

  /** Exactly the accepted lines are appended, each with its signed quantity at its place. */
  lemma {:induction false} RequestDelta(l: Ledger, line: Line)
    requires Unlinked(line) && WellTyped(line)
    ensures var x := Prepared(l, RequestFor(line));
            && (x.Some? <==> Accepted(l, line))
            && (x.Some? ==>
                  x.value.0 == Movement(PlaceOf(line), if line.isReturn then "return" else "sale",
                                        Signed(line), line.cost))
  {
    hide ParseNumeric, NumericText;
    NumericRoundTrip(line.quantity);
    MinusNegates(line.quantity);
    if line.cost.Some? {
      NumericRoundTrip(line.cost.value);
    }
  }

  lemma AppendedOnHand(l: Ledger, r: MovementRequest, p: Place)
    requires Prepared(l, r).Some?
    ensures var after := Appended(l, r, true);
            && after.movements == l.movements + [Prepared(l, r).value.0]
            && OnHand(after, p) == OnHand(l, p) + if r.place == p then Prepared(l, r).value.0.delta else 0
  {
    hide ParseNumeric, ParseCost;
  }

  lemma {:induction false} ProcessedKeepsLinks(w: World, i: nat, fault: Fault)
    requires i < |w.lines| && Unlinked(w.lines[i]) && Links(w)
    ensures Links(Processed(w, i, fault))
  {
    hide Prepared;
    var l := w.lines[i];
    RequestDelta(w.ledger, l);
    var x := Prepared(w.ledger, RequestFor(l));
    if x.Some? {
      AppendedOnHand(w.ledger, RequestFor(l), PlaceOf(l));
      var after := Processed(w, i, fault);
      forall j | 0 <= j < |after.lines|
        ensures WellTyped(after.lines[j]) && LinkIsRight(after, j)
      {
        assert LinkIsRight(w, j);
      }
      forall j, k | 0 <= j < k < |after.lines| && after.lines[j].movement.Some? && after.lines[k].movement.Some?
        ensures after.lines[j].movement != after.lines[k].movement
      {
        assert LinkIsRight(w, j) && LinkIsRight(w, k);
      }
    }
  }

  /** An appended movement whose link fails is accounted for by its orphan. */
  lemma OrphanAccounts(w: World, r: MovementRequest, p: Place)
    requires OrphansExist(w) && Prepared(w.ledger, r).Some?
    ensures var after := Appended(w.ledger, r, true);
            var orphans := w.orphans + [|w.ledger.movements|];
            && (forall k :: 0 <= k < |orphans| ==> orphans[k] < |after.movements|)
            && OnHand(after, p) - OrphanSum(after.movements, orphans, p)
               == OnHand(w.ledger, p) - OrphanSum(w.ledger.movements, w.orphans, p)
  {
    hide Prepared, Appended;
    var m, orphans := Prepared(w.ledger, r).value.0, w.orphans + [|w.ledger.movements|];
    AppendedOnHand(w.ledger, r, p);
    OrphanSumFrame(w.ledger.movements, m, w.orphans, p);
    assert orphans[..|orphans| - 1] == w.orphans;
  }

  /** A linked movement is accounted for by its line. */
  lemma {:induction false} LinkAccounts(w: World, i: nat, p: Place)
    requires i < |w.lines| && Unlinked(w.lines[i]) && WellTyped(w.lines[i]) && OrphansExist(w)
    requires Prepared(w.ledger, RequestFor(w.lines[i])).Some?
    ensures var after := Appended(w.ledger, RequestFor(w.lines[i]), true);
            var lines := w.lines[i := w.lines[i].(movement := Some(|w.ledger.movements|))];
            && |after.movements| == |w.ledger.movements| + 1 && LinkedCount(lines) == LinkedCount(w.lines) + 1
            && OnHand(after, p) - LinkedSum(lines, p) == OnHand(w.ledger, p) - LinkedSum(w.lines, p)
            && OrphanSum(after.movements, w.orphans, p) == OrphanSum(w.ledger.movements, w.orphans, p)
  {
    hide Prepared, Appended;
    var r := RequestFor(w.lines[i]);
    RequestDelta(w.ledger, w.lines[i]);
    AppendedOnHand(w.ledger, r, p);
    LinkOne(w.lines, i, |w.ledger.movements|, p);
    OrphanSumFrame(w.ledger.movements, Prepared(w.ledger, r).value.0, w.orphans, p);
  }

  /** Processing a line accounts for what it appends. */
  lemma {:induction false} ProcessedAccounts(w: World, i: nat, fault: Fault, p: Place)
    requires i < |w.lines| && Unlinked(w.lines[i]) && Links(w)
    ensures var after := Processed(w, i, fault);
            OrphansExist(after) && Unaccounted(after) == Unaccounted(w) && Outside(after, p) == Outside(w, p)
  {
    hide Prepared, LinkIsRight, Appended, RequestFor, OnHand;
    var r := RequestFor(w.lines[i]);
    if Prepared(w.ledger, r).Some? && fault != CommitFails {
      AppendedOnHand(w.ledger, r, p);
      if fault == LinkFails {
        OrphanAccounts(w, r, p);
      } else {
        LinkAccounts(w, i, p);
      }
    }
  }

  lemma {:induction false} BatchAccounts(w: World, batch: seq<nat>, k: nat, fault: nat -> Fault, p: Place)
    requires k <= |batch| && Pending(w, batch, k) && Links(w)
    ensures var after := ProcessedFrom(w, batch, k, fault);
            Links(after) && Unaccounted(after) == Unaccounted(w) && Outside(after, p) == Outside(w, p)
    decreases |batch| - k
  {
    hide Processed, Unaccounted, Outside, LinkIsRight;
    if k < |batch| {
      ProcessedKeepsLinks(w, batch[k], fault(k));
      ProcessedAccounts(w, batch[k], fault(k), p);
      PendingNext(w, batch, k, fault(k));
      BatchAccounts(Processed(w, batch[k], fault(k)), batch, k + 1, fault, p);
    }
  }

  // ---- runs -------------------------------------------------------------

  /** Other writers of the ledger append any movement, or flag a discrepancy without a position. */
  datatype Action =
    | NewLine(line: Line) | VoidLine(i: nat) | TickAction(fault: nat -> Fault)
    | ForeignAppend(request: MovementRequest, commits: bool) | ForeignFlag(place: Place, delta: int)

  predicate Legal(w: World, a: Action) {
    match a
    case NewLine(l) => l.movement.None? && WellTyped(l)
    case VoidLine(i) => i < |w.lines|
    case _ => true
  }

  function Next(w: World, a: Action): World
    requires Legal(w, a)
  {
    match a
    case NewLine(l) => w.(lines := w.lines + [l])
    case VoidLine(i) => w.(lines := w.lines[i := w.lines[i].(isVoid := true)])
    case TickAction(fault) => Ticked(w, fault)
    case ForeignAppend(r, commits) => w.(ledger := Appended(w.ledger, r, commits))
    case ForeignFlag(p, delta) => w.(ledger := Flagged(w.ledger, p, delta))
  }

  /** A run starts with any ledger and any lines whose links are right, before the first interruption. */
  ghost predicate IsRun(worlds: seq<World>, actions: seq<Action>) {
    && |worlds| == |actions| + 1 && Links(worlds[0]) && worlds[0].orphans == []
    && forall n :: 0 <= n < |actions| ==> Legal(worlds[n], actions[n]) && worlds[n + 1] == Next(worlds[n], actions[n])
  }

  lemma {:induction false} VoidKeepsSums(lines: seq<Line>, i: nat, p: Place)
    requires i < |lines|
    ensures var after := lines[i := lines[i].(isVoid := true)];
            LinkedCount(after) == LinkedCount(lines) && LinkedSum(after, p) == LinkedSum(lines, p)
  {
    var n := |lines| - 1;
    var after := lines[i := lines[i].(isVoid := true)];
    if i < n {
      VoidKeepsSums(lines[..n], i, p);
      assert after[..n] == lines[..n][i := lines[i].(isVoid := true)];
    } else {
      assert after[..n] == lines[..n];
    }
  }

  /** Links survive a longer ledger, more unlinked lines, and voided ones. */
  lemma LinksSurvive(w: World, after: World)
    requires Links(w) && after.orphans == w.orphans
    requires w.ledger.movements <= after.ledger.movements && |w.lines| <= |after.lines|
    requires forall i :: 0 <= i < |after.lines| ==> WellTyped(after.lines[i])
    requires forall i :: 0 <= i < |w.lines| ==> after.lines[i].(isVoid := false) == w.lines[i].(isVoid := false)
    requires forall i :: |w.lines| <= i < |after.lines| ==> after.lines[i].movement.None?
    ensures Links(after)
  {
    forall i | 0 <= i < |after.lines|
      ensures LinkIsRight(after, i)
    {
      assert i < |w.lines| ==> LinkIsRight(w, i) && after.lines[i].(isVoid := false) == w.lines[i].(isVoid := false);
    }
  }

  /** Links stay right and unique, whoever writes the ledger. */
  lemma {:induction false} NextKeepsLinks(w: World, a: Action)
    requires Legal(w, a) && Links(w)
    ensures Links(Next(w, a))
  {
    hide LinkIsRight, Prepared, ProcessedFrom, Batch;
    match a {
      case TickAction(fault) => BatchAccounts(w, Batch(w.lines), 0, fault, Place(0, 0, 0));
      case _ => LinksSurvive(w, Next(w, a));
    }
  }

  /** What other writers move of a place's on-hand stock in one step; a flag moves none. */
  function ForeignStep(w: World, a: Action, p: Place): int {
    if a.ForeignAppend? && a.commits && a.request.place == p && Prepared(w.ledger, a.request).Some?
    then Prepared(w.ledger, a.request).value.0.delta
    else 0
  }

  function Grown(w: World, after: World): int {
    |after.ledger.movements| - |w.ledger.movements|
  }

  /** A step leaves unexplained exactly what another writer did. */
  lemma {:induction false} NextAccounts(w: World, a: Action, p: Place)
    requires Legal(w, a) && Links(w)
    ensures OrphansExist(Next(w, a))
    ensures Unaccounted(Next(w, a)) == Unaccounted(w) + if a.TickAction? then 0 else Grown(w, Next(w, a))
    ensures Outside(Next(w, a), p) == Outside(w, p) + ForeignStep(w, a, p)
  {
    hide LinkIsRight, Prepared, ProcessedFrom, Batch;
    match a {
      case NewLine(l) => assert Next(w, a).lines[..|w.lines|] == w.lines;
      case VoidLine(i) => VoidKeepsSums(w.lines, i, p);
      case TickAction(fault) => BatchAccounts(w, Batch(w.lines), 0, fault, p);
      case ForeignAppend(r, commits) =>
        if commits && Prepared(w.ledger, r).Some? {
          AppendedOnHand(w.ledger, r, p);
          OrphanSumFrame(w.ledger.movements, Prepared(w.ledger, r).value.0, w.orphans, p);
        }
      case ForeignFlag(place, delta) =>
        OrphanSumFrame(w.ledger.movements, Movement(place, "adjustment", delta, None), w.orphans, p);
    }
  }

  lemma {:induction false} RunKeepsLinks(worlds: seq<World>, actions: seq<Action>, n: nat)
    requires IsRun(worlds, actions) && n < |worlds|
    ensures Links(worlds[n])
  {
    hide Links;
    if n > 0 {
      RunKeepsLinks(worlds, actions, n - 1);
      assert worlds[n - 1 + 1] == Next(worlds[n - 1], actions[n - 1]);
      NextKeepsLinks(worlds[n - 1], actions[n - 1]);
    }
  }

  /** The movements the consumer appended in the first n steps. */
  function ConsumerMovements(worlds: seq<World>, actions: seq<Action>, n: nat): int
    requires n <= |actions| && |worlds| == |actions| + 1
  {
    if n == 0 then 0
    else
      ConsumerMovements(worlds, actions, n - 1)
      + if actions[n - 1].TickAction? then Grown(worlds[n - 1], worlds[n]) else 0
  }

  /** What other writers moved of a place's on-hand stock in the first n steps. */
  function ForeignDelta(worlds: seq<World>, actions: seq<Action>, n: nat, p: Place): int
    requires n <= |actions| && |worlds| == |actions| + 1
  {
    if n == 0 then 0
    else ForeignDelta(worlds, actions, n - 1, p) + ForeignStep(worlds[n - 1], actions[n - 1], p)
  }

  /** The change in a place's stock, less what other writers did, is the newly linked lines and the orphans. */
  lemma {:induction false} RunAccounts(worlds: seq<World>, actions: seq<Action>, n: nat, p: Place)
    requires IsRun(worlds, actions) && n < |worlds|
    ensures Links(worlds[n])
    ensures ConsumerMovements(worlds, actions, n)
         == LinkedCount(worlds[n].lines) - LinkedCount(worlds[0].lines) + |worlds[n].orphans|
    ensures Outside(worlds[n], p) == Outside(worlds[0], p) + ForeignDelta(worlds, actions, n, p)
  {
    hide Links, Outside, Next, ForeignStep;
    RunKeepsLinks(worlds, actions, n);
    if n > 0 {
      RunAccounts(worlds, actions, n - 1, p);
      assert worlds[n - 1 + 1] == Next(worlds[n - 1], actions[n - 1]);
      NextAccounts(worlds[n - 1], actions[n - 1], p);
    }
  }

  /**
   In every run beside any other writers of the ledger, every link is right and unique, the consumer's
   movements less the lines it linked are the interrupted links, and with none the change in a place's
   stock, less what the others moved, is exactly the newly linked returns less the newly linked sales.
   */
  lemma ConsumerAccounts(worlds: seq<World>, actions: seq<Action>, n: nat, p: Place)
    requires IsRun(worlds, actions) && n < |worlds|
    ensures Links(worlds[n])
    ensures ConsumerMovements(worlds, actions, n) - (LinkedCount(worlds[n].lines) - LinkedCount(worlds[0].lines))
         == |worlds[n].orphans|
    ensures worlds[n].orphans == [] ==>
              OnHand(worlds[n].ledger, p) - OnHand(worlds[0].ledger, p) - ForeignDelta(worlds, actions, n, p) ==
              LinkedSum(worlds[n].lines, p) - LinkedSum(worlds[0].lines, p)
  {
    RunAccounts(worlds, actions, n, p);
  }

  // ---- which lines a tick takes -----------------------------------------

  /** How many of the lines are not void, have an item and no movement. */
  function Waiting(lines: seq<Line>): (n: nat) {
    if lines == [] then 0
    else
      var l := lines[|lines| - 1];
      Waiting(lines[..|lines| - 1]) + if !l.isVoid && l.item.Some? && l.movement.None? then 1 else 0
  }

  lemma {:induction false} IndicesIff(lines: seq<Line>, i: nat)
    ensures i in UnlinkedIndices(lines) <==>
            i < |lines| && !lines[i].isVoid && lines[i].item.Some? && lines[i].movement.None?
    ensures |UnlinkedIndices(lines)| == Waiting(lines)
  {
    if lines != [] {
      IndicesIff(lines[..|lines| - 1], i);
    }
  }

  lemma {:induction false} IndicesOfPrefix(lines: seq<Line>, i: nat)
    requires i <= |lines|
    ensures UnlinkedIndices(lines[..i]) <= UnlinkedIndices(lines)
    decreases |lines| - i
  {
    if i == |lines| {
      assert lines[..i] == lines;
    } else {
      assert lines[..i + 1][..i] == lines[..i];
      IndicesOfPrefix(lines, i + 1);
    }
  }

  /** A waiting line stands in the list of waiting lines behind those that were recorded before it. */
  lemma IndexPosition(lines: seq<Line>, i: nat)
    requires i < |lines| && !lines[i].isVoid && lines[i].item.Some? && lines[i].movement.None?
    ensures Waiting(lines[..i]) < |UnlinkedIndices(lines)| && UnlinkedIndices(lines)[Waiting(lines[..i])] == i
  {
    assert lines[..i + 1][..i] == lines[..i];
    IndicesIff(lines[..i], i);
    IndicesOfPrefix(lines, i + 1);
    var s := UnlinkedIndices(lines[..i + 1]);
    assert s == UnlinkedIndices(lines[..i]) + [i];
    assert s[|s| - 1] == i;
  }

  /**
   A tick fetches a line exactly when it is not void, has an item and no movement, and fewer than a
   hundred such lines were recorded before it.
   */
  lemma FetchedIff(lines: seq<Line>, i: nat)
    ensures i in Batch(lines) <==>
            && i < |lines| && !lines[i].isVoid && lines[i].item.Some? && lines[i].movement.None?
            && Waiting(lines[..i]) < 100
  {
    var s := UnlinkedIndices(lines);
    IndicesIff(lines, i);
    if i in s {
      IndexPosition(lines, i);
      var k := Waiting(lines[..i]);
      if k < BATCH {
        assert Batch(lines)[k] == i;
      }
    }
  }

  lemma ProcessedElsewhere(w: World, j: nat, fault: Fault, i: nat)
    requires j < |w.lines| && Unlinked(w.lines[j]) && i < |w.lines| && i != j
    ensures |Processed(w, j, fault).lines| == |w.lines| && Processed(w, j, fault).lines[i] == w.lines[i]
  {
    hide Prepared, Appended;
  }

  /** A line outside the batch is left as it is. */
  lemma {:induction false} OthersUntouched(w: World, batch: seq<nat>, k: nat, fault: nat -> Fault, i: nat)
    requires k <= |batch| && Pending(w, batch, k) && i < |w.lines| && i !in batch[k..]
    ensures var after := ProcessedFrom(w, batch, k, fault); |after.lines| == |w.lines| && after.lines[i] == w.lines[i]
    decreases |batch| - k
  {
    hide Processed;
    if k < |batch| {
      PendingNext(w, batch, k, fault(k));
      assert batch[k] == batch[k..][0] && batch[k + 1..] == batch[k..][1..];
      ProcessedElsewhere(w, batch[k], fault(k), i);
      OthersUntouched(Processed(w, batch[k], fault(k)), batch, k + 1, fault, i);
    }
  }

  /** In every run a line that is void, has no item or is already linked when a step starts keeps its movement. */
  lemma IneligibleLinesKeepTheirMovement(worlds: seq<World>, actions: seq<Action>, n: nat, i: nat)
    requires IsRun(worlds, actions) && n < |actions| && i < |worlds[n].lines|
    requires var l := worlds[n].lines[i]; l.isVoid || l.item.None? || l.movement.Some?
    ensures i < |worlds[n + 1].lines| && worlds[n + 1].lines[i].movement == worlds[n].lines[i].movement
  {
    hide ProcessedFrom, Batch, Prepared;
    var w, a := worlds[n], actions[n];
    assert worlds[n + 1] == Next(w, a);
    if a.TickAction? {
      FetchedIff(w.lines, i);
      assert Batch(w.lines)[0..] == Batch(w.lines);
      OthersUntouched(w, Batch(w.lines), 0, a.fault, i);
    }
  }

  /** The world when a tick has gone through the first k lines of its batch. */
  ghost function Midway(w: World, batch: seq<nat>, k: nat, fault: nat -> Fault): (r: World)
    requires k <= |batch| && Pending(w, batch, 0)
    ensures Pending(r, batch, k) && ProcessedFrom(w, batch, 0, fault) == ProcessedFrom(r, batch, k, fault)
  {
    if k == 0 then w
    else
      var m := Midway(w, batch, k - 1, fault);
      PendingNext(m, batch, k - 1, fault(k - 1));
      Processed(m, batch[k - 1], fault(k - 1))
  }

  /** What becomes of one line whose turn it is. */
  ghost predicate Handled(before: World, i: nat, fault: Fault, after: World)
    requires i < |before.lines| && before.lines[i].item.Some?
  {
    var l := before.lines[i];
    var p, n := Place(l.tenant, l.item.value, l.location), |before.ledger.movements|;
    if !Accepted(before.ledger, l) || fault == CommitFails then after == before
    else
      && after.ledger.movements == before.ledger.movements
           + [Movement(p, if l.isReturn then "return" else "sale", Signed(l), l.cost)]
      && (forall q :: OnHand(after.ledger, q) == OnHand(before.ledger, q) + if q == p then Signed(l) else 0)
      && (fault == NoFault ==>
            && after.lines == before.lines[i := l.(movement := Some(n))] && after.orphans == before.orphans
            && after.signals == before.signals
                 + if !l.isReturn && OnHand(after.ledger, p) <= 0 then [(p, OnHand(after.ledger, p))] else [])
      && (fault == LinkFails ==>
            after.lines == before.lines && after.orphans == before.orphans + [n] && after.signals == before.signals)
  }

  lemma {:induction false} ProcessedIsHandled(w: World, i: nat, fault: Fault)
    requires i < |w.lines| && Unlinked(w.lines[i]) && WellTyped(w.lines[i])
    ensures Handled(w, i, fault, Processed(w, i, fault))
  {
    hide Accepted, Prepared, Appended, OnHand;
    var l := w.lines[i];
    RequestDelta(w.ledger, l);
    if Prepared(w.ledger, RequestFor(l)).Some? {
      forall q {
        AppendedOnHand(w.ledger, RequestFor(l), q);
      }
      AppendedOnHand(w.ledger, RequestFor(l), PlaceOf(l));
      AppendedPosition(w.ledger, RequestFor(l));
    }
  }

  lemma AppendedPosition(l: Ledger, r: MovementRequest)
    requires Prepared(l, r).Some?
    ensures Prepared(l, r).value.1.onHand == OnHand(Appended(l, r, true), r.place)
  {
    hide ParseNumeric, ParseCost;
  }

  lemma {:induction false} MidwayKeepsTypes(w: World, batch: seq<nat>, k: nat, fault: nat -> Fault)
    requires k <= |batch| && Pending(w, batch, 0) && AllWellTyped(w)
    ensures AllWellTyped(Midway(w, batch, k, fault))
  {
    hide Processed;
    if k > 0 {
      MidwayKeepsTypes(w, batch, k - 1, fault);
      var m := Midway(w, batch, k - 1, fault);
      ProcessedStallsIff(m, batch[k - 1], fault(k - 1));
    }
  }

  /**
   A tick handles the lines of its batch one after the other: an accepted line appends its movement and,
   unless the link fails, names it and signals exactly when a sale leaves no stock; any other line does nothing.
   */
  lemma {:induction false} TickHandlesItsBatch(w: World, fault: nat -> Fault, k: nat)
    requires AllWellTyped(w) && k < |Batch(w.lines)|
    ensures Midway(w, Batch(w.lines), 0, fault) == w
    ensures Midway(w, Batch(w.lines), |Batch(w.lines)|, fault) == Next(w, TickAction(fault))
    ensures var before, i := Midway(w, Batch(w.lines), k, fault), Batch(w.lines)[k];
            && i < |before.lines| && before.lines[i].item.Some?
            && Handled(before, i, fault(k), Midway(w, Batch(w.lines), k + 1, fault))
  {
    hide Processed, Handled, Batch;
    MidwayKeepsTypes(w, Batch(w.lines), k, fault);
    ProcessedIsHandled(Midway(w, Batch(w.lines), k, fault), Batch(w.lines)[k], fault(k));
  }

  // ---- head-of-line blocking --------------------------------------------

  ghost predicate AllWellTyped(w: World) {
    forall i :: 0 <= i < |w.lines| ==> WellTyped(w.lines[i])
  }

  lemma {:induction false} ProcessedStallsIff(w: World, i: nat, fault: Fault)
    requires i < |w.lines| && Unlinked(w.lines[i]) && WellTyped(w.lines[i])
    ensures Grown(w, Processed(w, i, fault)) >= 0
    ensures Processed(w, i, fault) == w <==> Grown(w, Processed(w, i, fault)) == 0
    ensures Processed(w, i, fault) == w <==> Accepted(w.ledger, w.lines[i]) ==> fault == CommitFails
    ensures AllWellTyped(w) ==> AllWellTyped(Processed(w, i, fault))
  {
    hide Prepared, Accepted;
    RequestDelta(w.ledger, w.lines[i]);
  }

  lemma {:induction false} BatchGrows(w: World, batch: seq<nat>, k: nat, fault: nat -> Fault)
    requires k <= |batch| && Pending(w, batch, k) && AllWellTyped(w)
    ensures Grown(w, ProcessedFrom(w, batch, k, fault)) >= 0
    decreases |batch| - k
  {
    hide Processed;
    if k < |batch| {
      ProcessedStallsIff(w, batch[k], fault(k));
      PendingNext(w, batch, k, fault(k));
      BatchGrows(Processed(w, batch[k], fault(k)), batch, k + 1, fault);
    }
  }

  lemma {:induction false} BatchStallsIff(w: World, batch: seq<nat>, k: nat, fault: nat -> Fault)
    requires k <= |batch| && Pending(w, batch, k) && AllWellTyped(w)
    ensures ProcessedFrom(w, batch, k, fault) == w <==>
            forall j :: k <= j < |batch| ==> Accepted(w.ledger, w.lines[batch[j]]) ==> fault(j) == CommitFails
    decreases |batch| - k
  {
    hide Processed, Accepted;
    if k < |batch| {
      ProcessedStallsIff(w, batch[k], fault(k));
      PendingNext(w, batch, k, fault(k));
      var after := Processed(w, batch[k], fault(k));
      if after == w {
        BatchStallsIff(w, batch, k + 1, fault);
      } else {
        BatchGrows(after, batch, k + 1, fault);
      }
    }
  }

  /** A tick changes nothing exactly when every line of its batch is rejected or fails to commit. */
  lemma TickStallsIff(w: World, fault: nat -> Fault)
    requires AllWellTyped(w)
    ensures Ticked(w, fault) == w <==>
            forall k :: 0 <= k < |Batch(w.lines)| ==>
              Accepted(w.ledger, w.lines[Batch(w.lines)[k]]) ==> fault(k) == CommitFails
  {
    hide Accepted, ProcessedFrom;
    BatchStallsIff(w, Batch(w.lines), 0, fault);
  }

  predicate NegativeSale(l: Line) {
    !l.isReturn && l.quantity < 0
  }

  /** The next batch is full, and the ledger takes none of its lines. */
  ghost predicate Blocked(w: World) {
    && AllWellTyped(w) && |Batch(w.lines)| == BATCH
    && forall k :: 0 <= k < BATCH ==> !Accepted(w.ledger, w.lines[Batch(w.lines)[k]])
  }

  /** No void, and no foreign stock movement that could make room for a line of the batch. */
  ghost predicate Harmless(w: World, a: Action) {
    && !a.VoidLine?
    && (a.ForeignAppend? ==>
          forall k :: 0 <= k < |Batch(w.lines)| ==>
            var l := w.lines[Batch(w.lines)[k]]; NegativeSale(l) || PlaceOf(l) != a.request.place)
  }

  lemma BatchIsStable(lines: seq<Line>, l: Line)
    requires |Batch(lines)| == BATCH
    ensures Batch(lines + [l]) == Batch(lines)
  {
    assert (lines + [l])[..|lines|] == lines;
  }

  /** after has the same batch and signals as w, and links nothing that w does not. */
  predicate Untouched(w: World, after: World) {
    && Batch(after.lines) == Batch(w.lines) && after.signals == w.signals && after.orphans == w.orphans
    && w.lines <= after.lines && forall i :: |w.lines| <= i < |after.lines| ==> after.lines[i].movement.None?
  }

  /** One harmless step leaves a blocked consumer blocked, and a tick of it does nothing at all. */
  lemma {:induction false} BlockedStaysBlocked(w: World, a: Action)
    requires Blocked(w) && Legal(w, a) && Harmless(w, a)
    ensures Blocked(Next(w, a)) && Untouched(w, Next(w, a))
    ensures a.TickAction? ==> Next(w, a) == w
  {
    hide Batch, Prepared;
    match a {
      case NewLine(l) => BatchIsStable(w.lines, l);
      case TickAction(fault) => TickStallsIff(w, fault);
      case ForeignAppend(r, commits) =>
        if commits && Prepared(w.ledger, r).Some? {
          forall k | 0 <= k < BATCH
            ensures !Accepted(Next(w, a).ledger, w.lines[Batch(w.lines)[k]])
          {
            AppendedOnHand(w.ledger, r, PlaceOf(w.lines[Batch(w.lines)[k]]));
          }
        }
      case ForeignFlag(p, delta) =>
    }
  }

  /** Over any run of harmless steps a blocked consumer links nothing, whatever is queued behind its batch. */
  lemma {:induction false} BlockedForGood(worlds: seq<World>, actions: seq<Action>, i: nat, n: nat)
    requires IsRun(worlds, actions) && i <= n < |worlds| && Blocked(worlds[i])
    requires forall j :: i <= j < n ==> Harmless(worlds[j], actions[j])
    ensures Blocked(worlds[n]) && Untouched(worlds[i], worlds[n])
    ensures ConsumerMovements(worlds, actions, n) == ConsumerMovements(worlds, actions, i)
  {
    hide Blocked, Batch, Next, Harmless;
    if i < n {
      BlockedForGood(worlds, actions, i, n - 1);
      assert worlds[n - 1 + 1] == Next(worlds[n - 1], actions[n - 1]);
      BlockedStaysBlocked(worlds[n - 1], actions[n - 1]);
    }
  }

  // ---- a run that reaches a blocked state -------------------------------

  function Copies(l: Line, n: nat): (s: seq<Line>) {
    seq(n, _ => l)
  }

  lemma {:induction false} CopiesUnlinked(l: Line, n: nat)
    requires Unlinked(l)
    ensures UnlinkedIndices(Copies(l, n)) == seq(n, i => i)
  {
    if n > 0 {
      CopiesUnlinked(l, n - 1);
      assert Copies(l, n)[..n - 1] == Copies(l, n - 1);
    }
  }

  /** A hundred recorded sales of a negative quantity block a consumer that starts with nothing. */
  lemma {:induction false} BlockedIsReachable(l: Line) returns (worlds: seq<World>, actions: seq<Action>)
    requires Unlinked(l) && WellTyped(l) && NegativeSale(l)
    ensures IsRun(worlds, actions) && worlds[0] == World([], EMPTY, [], [])
    ensures forall a :: a in actions ==> a == NewLine(l)
    ensures Blocked(worlds[|actions|])
  {
    worlds := seq(BATCH + 1, n requires n >= 0 => World(Copies(l, n), EMPTY, [], []));
    actions := seq(BATCH, _ => NewLine(l));
    forall n | 0 <= n < BATCH
      ensures worlds[n + 1] == Next(worlds[n], actions[n])
    {
      assert Copies(l, n + 1) == Copies(l, n) + [l];
    }
    CopiesUnlinked(l, BATCH);
    var s := Copies(l, BATCH);
    assert Batch(s) == seq(BATCH, i => i);
    assert forall k :: 0 <= k < BATCH ==> s[Batch(s)[k]] == l;
  }
}
