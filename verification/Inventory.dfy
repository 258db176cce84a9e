/**
 The movement ledger and its cached positions: inventory.Store.AppendMovement
 (internal/inventory/store.go) and asset.Store.Flag (internal/asset/store.go).
 Quantities and costs are numeric(14,4): integers of ten-thousandths below 10^14.
 */
module Inventory {
  import opened Wrappers
  import opened Text
  import opened Money

  type Id = nat

  datatype Place = Place(tenant: Id, item: Id, location: Id)

  datatype Movement = Movement(place: Place, kind: string, delta: int, cost: Option<int>)

  /** The location-level position row (zone_id NULL). */
  datatype Position = Position(onHand: int, cost: Option<int>)

  datatype MovementRequest = MovementRequest(place: Place, kind: string, quantity: string, cost: Option<string>)

  /** Movement ids are positions in the log. */
  datatype Ledger = Ledger(movements: seq<Movement>, positions: map<Place, Position>)

  const LIMIT: int := 100_000_000_000_000
  const SCALE: nat := 10_000

  predicate InColumn(x: int) {
    -LIMIT < x < LIMIT
  }

  // ---- numeric text -----------------------------------------------------

  /** quantity::text of a numeric(14,4). */
  function NumericText(q: int): (s: string)
    decreases q < 0
  {
    if q < 0 then "-" + NumericText(-q) else FormatFixed(q / SCALE, q % SCALE, 4)
  }

  /** $n::numeric stored in a numeric(14,4): one optional sign, decimal text, rounded half away from zero. */
  function ParseNumeric(s: string): (r: Option<int>) {
    var t := TrimSpace(s);
    var negative := t != "" && t[0] == '-';
    var magnitude := if negative then t[1..] else t;
    if magnitude == "" || (!IsDigit(magnitude[0]) && magnitude[0] != '.' && (negative || magnitude[0] != '+')) then None
    else
      match ParseScaled(magnitude, SCALE)
      case Err(_) => None
      case Ok(v) => if v < LIMIT then Some(if negative then 0 - v else v) else None
  }

  lemma NumericTextEnds(q: nat)
    ensures var s := NumericText(q); s != "" && IsDigit(s[0]) && IsDigit(s[|s| - 1])
  {
    ScalePowers();
    FixedValue(q / SCALE, q % SCALE, 4);
  }

  /** A column value survives the round trip through its text. */
  lemma NumericRoundTrip(q: int)
    requires InColumn(q)
    ensures ParseNumeric(NumericText(q)) == Some(q)
  {
    hide ParseScaled, TrimSpace;
    var n: nat := if q < 0 then -q else q;
    NumericTextEnds(n);
    ScalePowers();
    FormatFixedRoundTrip(n / SCALE, n % SCALE, 4, n);
    var s := NumericText(q);
    TrimSpaceNoop(s);
    assert q < 0 ==> s[1..] == NumericText(n);
  }

  /** Prefixing '-' negates a non-negative quantity and is a syntax error before a negative one. */
  lemma {:induction false} MinusNegates(q: int)
    requires InColumn(q)
    ensures ParseNumeric("-" + NumericText(q)) == if q >= 0 then Some(-q) else None
  {
    hide ParseScaled, TrimSpace;
    var n: nat := if q < 0 then -q else q;
    NumericTextEnds(n);
    var s := "-" + NumericText(q);
    TrimSpaceNoop(s);
    assert s[1..] == NumericText(q);
    if q >= 0 {
      ScalePowers();
      FormatFixedRoundTrip(n / SCALE, n % SCALE, 4, n);
    }
  }

  predicate ZeroText(s: string) {
    forall i :: 0 <= i < |s| ==> s[i] in {'0', '.'}
  }

  method IsZeroOrNegative(qty: string) returns (b: bool)
    ensures b <==> (qty != "" && qty[0] == '-') || ZeroText(qty)
  {
    if qty == "" {
      return true;
    }
    if qty[0] == '-' {
      return true;
    }
    for i := 0 to |qty|
      invariant ZeroText(qty[..i])
    {
      if qty[i] == '.' {
        continue;
      }
      if qty[i] != '0' {
        assert !ZeroText(qty);
        return false;
      }
    }
    assert qty[..|qty|] == qty;
    b := true;
  }

  lemma {:induction false} ZeroDigits(s: string)
    requires AllDigits(s)
    ensures Value(s) == 0 <==> ZeroText(s)
  {
    if s != "" {
      ZeroDigits(s[..|s| - 1]);
      assert ZeroText(s) <==> ZeroText(s[..|s| - 1]) && s[|s| - 1] in {'0', '.'};
      assert IsDigit(s[|s| - 1]);
    }
  }

  /** On every column value the textual test is the numeric one. */
  lemma ZeroOrNegativeText(q: int)
    ensures var s := NumericText(q); q <= 0 <==> (s != "" && s[0] == '-') || ZeroText(s)
  {
    if q >= 0 {
      ScalePowers();
      FixedValue(q / SCALE, q % SCALE, 4);
      var w, f := Digits(q / SCALE), PadLeft(Digits(q % SCALE), 4);
      NumericTextEnds(q);
      ZeroDigits(w);
      ZeroDigits(f);
      hide ZeroText, AllDigits, Value, Digits, PadLeft;
      ZeroPointed(w, f);
      ValueConcat(w, f);
      ZeroSum(Value(w), Pow10(|f|), Value(f));
    }
  }

  lemma ZeroSum(a: nat, b: nat, c: nat)
    requires b >= 1
    ensures a * b + c == 0 <==> a == 0 && c == 0
  {
  }

  lemma ZeroPointed(w: string, f: string)
    ensures ZeroText(w + "." + f) <==> ZeroText(w) && ZeroText(f)
  {
    var s := w + "." + f;
    assert forall i :: 0 <= i < |w| ==> s[i] == w[i];
    assert forall i :: 0 <= i < |f| ==> s[|w| + 1 + i] == f[i];
    assert s[|w|] == '.';
  }

  // ---- operations -------------------------------------------------------

  /** The cast of an optional numeric parameter; the outer None is a rejected cast. */
  function ParseCost(cost: Option<string>): (r: Option<Option<int>>) {
    if cost.None? then Some(None)
    else
      var c := ParseNumeric(cost.value);
      if c.None? then None else Some(c)
  }

  function Upserted(current: Option<Position>, delta: int, cost: Option<int>): Position {
    match current
    case None => Position(delta, cost)
    case Some(p) => Position(p.onHand + delta, if cost.Some? then cost else p.cost)
  }

  function PositionAt(l: Ledger, p: Place): Option<Position> {
    if p in l.positions then Some(l.positions[p]) else None
  }

  /** The movement and position rows of a request, unless a cast or a column range rejects them. */
  function Prepared(l: Ledger, r: MovementRequest): (x: Option<(Movement, Position)>)
    ensures x.Some? ==> InColumn(x.value.0.delta) && x.value.0.place == r.place && InColumn(x.value.1.onHand)
  {
    var delta, cost := ParseNumeric(r.quantity), ParseCost(r.cost);
    if delta.None? || cost.None? || !InColumn(delta.value) then None
    else
      var pos := Upserted(PositionAt(l, r.place), delta.value, cost.value);
      if InColumn(pos.onHand) then Some((Movement(r.place, r.kind, delta.value, cost.value), pos)) else None
  }

  /** Both rows or neither. */
  function Appended(l: Ledger, r: MovementRequest, commits: bool): Ledger {
    var x := Prepared(l, r);
    if x.None? || !commits then l
    else Ledger(l.movements + [x.value.0], l.positions[r.place := x.value.1])
  }

  /** A movement without a position update. */
  function Flagged(l: Ledger, p: Place, delta: int): Ledger {
    if InColumn(delta) then l.(movements := l.movements + [Movement(p, "adjustment", delta, None)]) else l
  }

  class Store {
    var movements: seq<Movement>
    var positions: map<Place, Position>

    function Abs(): Ledger
      reads this
    {
      Ledger(movements, positions)
    }

    constructor ()
      ensures Abs() == Ledger([], map[])
    {
      movements, positions := [], map[];
    }

    /** Returns the id of the new movement and the new position, or None on a rolled back transaction. */
    method AppendMovement(r: MovementRequest, commits: bool) returns (x: Option<(nat, Position)>)
      modifies this
      ensures Abs() == Appended(old(Abs()), r, commits)
      ensures x.Some? <==> commits && Prepared(old(Abs()), r).Some?
      ensures x.Some? ==> x.value.0 == |old(movements)| && r.place in positions && x.value.1 == positions[r.place]
      ensures x.Some? ==>
                && ParseNumeric(r.quantity).Some? && ParseCost(r.cost).Some? && |movements| == |old(movements)| + 1
                && movements[|movements| - 1]
                   == Movement(r.place, r.kind, ParseNumeric(r.quantity).value, ParseCost(r.cost).value)
    {
      hide ParseNumeric, ParseCost;
      var delta := ParseNumeric(r.quantity);
      var cost := ParseCost(r.cost);
      if delta.None? || cost.None? || !InColumn(delta.value) {
        return None;
      }
      var id := |movements|;
      var inserted := movements + [Movement(r.place, r.kind, delta.value, cost.value)];
      var pos := Position(delta.value, cost.value);
      if r.place in positions {
        var current := positions[r.place];
        pos := Position(current.onHand + delta.value, if cost.value.Some? then cost.value else current.cost);
      }
      if !InColumn(pos.onHand) || !commits {
        return None;
      }
      movements, positions := inserted, positions[r.place := pos];
      x := Some((id, pos));
    }

    method Flag(p: Place, delta: int) returns (ok: bool)
      modifies this
      ensures Abs() == Flagged(old(Abs()), p, delta)
      ensures ok <==> InColumn(delta)
      ensures movements == if ok then old(movements) + [Movement(p, "adjustment", delta, None)] else old(movements)
      ensures positions == old(positions)
    {
      ok := InColumn(delta);
      if ok {
        movements := movements + [Movement(p, "adjustment", delta, None)];
      }
    }
  }

  // ---- runs -------------------------------------------------------------

  datatype Op = Append(request: MovementRequest, commits: bool) | FlagOp(place: Place, delta: int)

  const EMPTY: Ledger := Ledger([], map[])

  function Run(ops: seq<Op>): Ledger {
    if ops == [] then EMPTY
    else
      var l := Run(ops[..|ops| - 1]);
      match ops[|ops| - 1]
      case Append(r, commits) => Appended(l, r, commits)
      case FlagOp(p, delta) => Flagged(l, p, delta)
  }

  function OnHand(l: Ledger, p: Place): int {
    if p in l.positions then l.positions[p].onHand else 0
  }

  function MovementSum(ms: seq<Movement>, p: Place): int {
    if ms == [] then 0
    else MovementSum(ms[..|ms| - 1], p) + if ms[|ms| - 1].place == p then ms[|ms| - 1].delta else 0
  }

  lemma SumAppend(ms: seq<Movement>, m: Movement, p: Place)
    ensures MovementSum(ms + [m], p) == MovementSum(ms, p) + if m.place == p then m.delta else 0
  {
    assert (ms + [m])[..|ms + [m]| - 1] == ms;
  }

  /** The deltas of the recorded flags of a place. */
  function FlagSum(ops: seq<Op>, p: Place): int {
    if ops == [] then 0
    else
      var op := ops[|ops| - 1];
      FlagSum(ops[..|ops| - 1], p) + if op.FlagOp? && op.place == p && InColumn(op.delta) then op.delta else 0
  }

  /** The last cost appended to a place by a committed movement that carried one. */
  function LatestCost(ops: seq<Op>, p: Place): Option<int> {
    if ops == [] then None
    else
      var init, op := ops[..|ops| - 1], ops[|ops| - 1];
      if op.Append? && op.commits && op.request.place == p && Prepared(Run(init), op.request).Some?
         && ParseCost(op.request.cost).value.Some?
      then ParseCost(op.request.cost).value
      else LatestCost(init, p)
  }

  function CostAt(l: Ledger, p: Place): Option<int> {
    if p in l.positions then l.positions[p].cost else None
  }

  /** An append moves on-hand and the log of its place by the same delta. */
  lemma AppendBalances(l: Ledger, r: MovementRequest, commits: bool, p: Place)
    ensures var after := Appended(l, r, commits);
            && OnHand(after, p) - OnHand(l, p) == MovementSum(after.movements, p) - MovementSum(l.movements, p)
            && CostAt(after, p) == (if commits && r.place == p && Prepared(l, r).Some? && ParseCost(r.cost).value.Some?
                                    then ParseCost(r.cost).value else CostAt(l, p))
  {
    hide ParseNumeric, ParseCost;
    var x := Prepared(l, r);
    if x.Some? {
      SumAppend(l.movements, x.value.0, p);
    }
  }

  /**
   In every run the location's on-hand quantity and the flags that bypassed it add up to the movement
   log, and its cost basis is the latest one appended.
   */
  lemma {:induction false} LedgerBalances(ops: seq<Op>, p: Place)
    ensures OnHand(Run(ops), p) + FlagSum(ops, p) == MovementSum(Run(ops).movements, p)
    ensures CostAt(Run(ops), p) == LatestCost(ops, p)
  {
    hide ParseNumeric, ParseCost, Prepared, Appended;
    if ops != [] {
      var init := ops[..|ops| - 1];
      LedgerBalances(init, p);
      var l := Run(init);
      match ops[|ops| - 1] {
        case Append(r, commits) => AppendBalances(l, r, commits, p);
        case FlagOp(q, delta) => SumAppend(l.movements, Movement(q, "adjustment", delta, None), p);
      }
    }
  }
}
