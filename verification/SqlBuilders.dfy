/**
 The statement builders of item.Update and item.List (internal/item/store.go) and fox.ListCases
 (internal/fox/store.go). Clauses are data with 1-based argument numbers; an interpreter gives
 them the meaning Postgres gives the text.
 */
module SqlBuilders {
  import opened Wrappers

  datatype Value =
    | Null | Text(s: string) | Uid(n: nat) | Flag(b: bool) | Int(i: int) | Json(j: string)
    | Numeric(x: int) | Instant(t: int)

  /** Columns of catalog.items and detection.cases; RowId is id. */
  datatype Column =
    | Description | ShortDescription | ItemType | CategoryId | UnitOfMeasure | UomQuantity | DefaultPrice
    | DefaultCost | DefaultCurrency | TaxClass | FoodStampEligible | AgeRestriction | Weighable | Attributes
    | Status | UpdatedAt | TenantId | RowId | OpenedAt | Other(name: string)

  type Row = map<Column, Value>

  /** The argument $n of a statement. */
  function Arg(args: seq<Value>, n: nat): Option<Value> {
    if 1 <= n <= |args| then Some(args[n - 1]) else None
  }

  // ---- UPDATE -----------------------------------------------------------

  datatype SetClause = Assign(column: Column, arg: nat, numeric: bool) | TouchUpdatedAt

  /** Text to numeric, failing on malformed text. */
  type Cast = string -> Option<int>

  /** The value of "col = $n" or "col = $n::numeric". */
  function Assigned(cast: Cast, cl: SetClause, args: seq<Value>, now: int): (v: Option<Value>) {
    match cl
    case TouchUpdatedAt => Some(Instant(now))
    case Assign(_, n, numeric) =>
      match Arg(args, n)
      case None => None
      case Some(v) =>
        if !numeric then Some(v)
        else if v.Text? && cast(v.s).Some? then Some(Numeric(cast(v.s).value))
        else None
  }

  function Target(cl: SetClause): Column {
    match cl
    case TouchUpdatedAt => UpdatedAt
    case Assign(c, _, _) => c
  }

  /** The row an UPDATE leaves; None when an argument is missing or a cast fails. */
  function ExecSets(cast: Cast, sets: seq<SetClause>, args: seq<Value>, row: Row, now: int): (r: Option<Row>) {
    if sets == [] then Some(row)
    else
      var before := ExecSets(cast, sets[..|sets| - 1], args, row, now);
      var cl := sets[|sets| - 1];
      var v := Assigned(cast, cl, args, now);
      if before.None? || v.None? then None else Some(before.value[Target(cl) := v.value])
  }

  datatype Patch = Patch(
    description: Option<string>, shortDescription: Option<string>, itemType: Option<string>,
    categoryId: Option<nat>, unitOfMeasure: Option<string>, uomQuantity: Option<string>,
    defaultPrice: Option<string>, defaultCost: Option<string>, defaultCurrency: Option<string>,
    taxClass: Option<string>, foodStampEligible: Option<bool>, ageRestriction: Option<int>,
    weighable: Option<bool>, attributes: string, status: Option<string>)

  function TextOf(x: Option<string>): Option<Value> {
    if x.Some? then Some(Text(x.value)) else None
  }

  function FlagOf(x: Option<bool>): Option<Value> {
    if x.Some? then Some(Flag(x.value)) else None
  }

  /** A column the patch may set, and the value it sets it to. */
  datatype Field = Field(column: Column, value: Option<Value>, numeric: bool)

  /** What the builder has accumulated: SET clauses and positional arguments. */
  datatype Built = Built(sets: seq<SetClause>, args: seq<Value>)

  function Compiled(head: seq<Value>, fs: seq<Field>): (b: Built)
    ensures |b.args| >= |head|
  {
    if fs == [] then Built([], head)
    else
      var b, f := Compiled(head, fs[..|fs| - 1]), fs[|fs| - 1];
      if f.value.None? then b
      else Built(b.sets + [Assign(f.column, |b.args| + 1, f.numeric)], b.args + [f.value.value])
  }

  class UpdateBuilder {
    var sets: seq<SetClause>
    var args: seq<Value>
    var idx: nat
    ghost const head: seq<Value>
    ghost const plan: seq<Field>
    ghost var done: nat

    ghost predicate Valid()
      reads this
    {
      done <= |plan| && Built(sets, args) == Compiled(head, plan[..done]) && idx == |args| + 1
    }

    constructor (tenant: nat, id: nat, ghost plan: seq<Field>)
      ensures Valid() && done == 0 && head == [Uid(tenant), Uid(id)] && this.plan == plan
    {
      sets, args, idx := [], [Uid(tenant), Uid(id)], 3;
      head, this.plan, done := [Uid(tenant), Uid(id)], plan, 0;
    }

    /** if patch.X != nil { add(column, *patch.X) }, or addNumeric. */
    method AddPresent(column: Column, value: Option<Value>, numeric: bool)
      requires Valid() && done < |plan| && plan[done] == Field(column, value, numeric)
      modifies this
      ensures Valid() && done == old(done) + 1
    {
      assert plan[..done + 1][..done] == plan[..done];
      done := done + 1;
      if value.Some? {
        sets := sets + [Assign(column, idx, numeric)];
        args := args + [value.value];
        idx := idx + 1;
      }
    }
  }

  /** The optional columns in the order Update considers them. */
  function FieldAt(p: Patch, k: nat): Field
    requires k < 15
  {
    match k
    case 0 => Field(Description, TextOf(p.description), false)
    case 1 => Field(ShortDescription, TextOf(p.shortDescription), false)
    case 2 => Field(ItemType, TextOf(p.itemType), false)
    case 3 => Field(CategoryId, if p.categoryId.Some? then Some(Uid(p.categoryId.value)) else None, false)
    case 4 => Field(UnitOfMeasure, TextOf(p.unitOfMeasure), false)
    case 5 => Field(UomQuantity, TextOf(p.uomQuantity), true)
    case 6 => Field(DefaultPrice, TextOf(p.defaultPrice), true)
    case 7 => Field(DefaultCost, TextOf(p.defaultCost), true)
    case 8 => Field(DefaultCurrency, TextOf(p.defaultCurrency), false)
    case 9 => Field(TaxClass, TextOf(p.taxClass), false)
    case 10 => Field(FoodStampEligible, FlagOf(p.foodStampEligible), false)
    case 11 => Field(AgeRestriction, if p.ageRestriction.Some? then Some(Int(p.ageRestriction.value)) else None, false)
    case 12 => Field(Weighable, FlagOf(p.weighable), false)
    case 13 => Field(Attributes, if p.attributes != "" then Some(Json(p.attributes)) else None, false)
    case 14 => Field(Status, TextOf(p.status), false)
  }

  function PatchFields(p: Patch): (fs: seq<Field>)
    ensures |fs| == 15 && forall k :: 0 <= k < 15 ==> fs[k] == FieldAt(p, k)
  {
    seq(15, k requires 0 <= k < 15 => FieldAt(p, k))
  }

  /** Update's statement; None is the empty patch, which issues no UPDATE. */
  function UpdateStatement(tenant: nat, id: nat, p: Patch): (b: Option<Built>) {
    var b := Compiled([Uid(tenant), Uid(id)], PatchFields(p));
    if b.sets == [] then None else Some(Built(b.sets + [TouchUpdatedAt], b.args))
  }

  method AddFirstFields(b: UpdateBuilder, patch: Patch)
    requires b.Valid() && b.done == 0 && b.plan == PatchFields(patch)
    modifies b
    ensures b.Valid() && b.done == 8
  {
    hide UpdateBuilder.Valid, Compiled, TextOf, FlagOf, PatchFields;
    b.AddPresent(Description, TextOf(patch.description), false);
    b.AddPresent(ShortDescription, TextOf(patch.shortDescription), false);
    b.AddPresent(ItemType, TextOf(patch.itemType), false);
    b.AddPresent(CategoryId, if patch.categoryId.Some? then Some(Uid(patch.categoryId.value)) else None, false);
    b.AddPresent(UnitOfMeasure, TextOf(patch.unitOfMeasure), false);
    b.AddPresent(UomQuantity, TextOf(patch.uomQuantity), true);
    b.AddPresent(DefaultPrice, TextOf(patch.defaultPrice), true);
    b.AddPresent(DefaultCost, TextOf(patch.defaultCost), true);
  }

  method AddLastFields(b: UpdateBuilder, patch: Patch)
    requires b.Valid() && b.done == 8 && b.plan == PatchFields(patch)
    modifies b
    ensures b.Valid() && b.done == 15
  {
    hide UpdateBuilder.Valid, Compiled, TextOf, FlagOf, PatchFields;
    b.AddPresent(DefaultCurrency, TextOf(patch.defaultCurrency), false);
    b.AddPresent(TaxClass, TextOf(patch.taxClass), false);
    b.AddPresent(FoodStampEligible, FlagOf(patch.foodStampEligible), false);
    var age := if patch.ageRestriction.Some? then Some(Int(patch.ageRestriction.value)) else None;
    b.AddPresent(AgeRestriction, age, false);
    b.AddPresent(Weighable, FlagOf(patch.weighable), false);
    b.AddPresent(Attributes, if patch.attributes != "" then Some(Json(patch.attributes)) else None, false);
    b.AddPresent(Status, TextOf(patch.status), false);
  }

  method BuildUpdate(tenant: nat, id: nat, patch: Patch) returns (q: Option<Built>)
    ensures q == UpdateStatement(tenant, id, patch)
  {
    hide Compiled, PatchFields;
    ghost var plan := PatchFields(patch);
    var b := new UpdateBuilder(tenant, id, plan);
    AddFirstFields(b, patch);
    AddLastFields(b, patch);
    assert plan[..15] == plan;
    if |b.sets| == 0 {
      return None;
    }
    q := Some(Built(b.sets + [TouchUpdatedAt], b.args));
  }

  // ---- what an UPDATE does ----------------------------------------------

  predicate DistinctColumns(fs: seq<Field>) {
    forall i, j :: 0 <= i < j < |fs| ==> fs[i].column != fs[j].column
  }

  /** The column value a field stores. */
  function Stored(cast: Cast, f: Field): (v: Option<Value>)
    requires f.value.Some?
  {
    if !f.numeric then f.value
    else if f.value.value.Text? && cast(f.value.value.s).Some? then Some(Numeric(cast(f.value.value.s).value))
    else None
  }

  predicate Castable(cast: Cast, fs: seq<Field>) {
    forall f :: f in fs && f.value.Some? ==> Stored(cast, f).Some?
  }

  /** Every clause refers to one of n arguments. */
  predicate InRange(sets: seq<SetClause>, n: nat) {
    forall k :: 0 <= k < |sets| ==> sets[k].Assign? && 1 <= sets[k].arg <= n
  }

  lemma {:induction false} CompiledInRange(head: seq<Value>, fs: seq<Field>)
    ensures InRange(Compiled(head, fs).sets, |Compiled(head, fs).args|)
  {
    if fs != [] {
      CompiledInRange(head, fs[..|fs| - 1]);
    }
  }

  /** Clauses do not see arguments appended after theirs. */
  lemma {:induction false} MoreArgsSameRow(cast: Cast, sets: seq<SetClause>, a: seq<Value>, b: seq<Value>,
                                           row: Row, now: int)
    requires a <= b && InRange(sets, |a|)
    ensures ExecSets(cast, sets, a, row, now) == ExecSets(cast, sets, b, row, now)
  {
    if sets != [] {
      MoreArgsSameRow(cast, sets[..|sets| - 1], a, b, row, now);
    }
  }

  /** Executing compiled fields executes the last one on what the others leave. */
  lemma CompiledStep(cast: Cast, head: seq<Value>, fs: seq<Field>, row: Row, now: int)
    requires fs != []
    ensures var f := fs[|fs| - 1];
            var before := ExecFields(cast, head, fs[..|fs| - 1], row, now);
            ExecFields(cast, head, fs, row, now) ==
            if f.value.None? then before
            else if before.None? || Stored(cast, f).None? then None
            else Some(before.value[f.column := Stored(cast, f).value])
  {
    var init, f := fs[..|fs| - 1], fs[|fs| - 1];
    if f.value.Some? {
      var b, b' := Compiled(head, init), Compiled(head, fs);
      assert b'.sets[..|b'.sets| - 1] == b.sets;
      CompiledInRange(head, init);
      MoreArgsSameRow(cast, b.sets, b.args, b'.args, row, now);
    }
  }

  function ExecFields(cast: Cast, head: seq<Value>, fs: seq<Field>, row: Row, now: int): Option<Row> {
    var b := Compiled(head, fs);
    ExecSets(cast, b.sets, b.args, row, now)
  }

  lemma {:induction false} FieldsSucceed(cast: Cast, head: seq<Value>, fs: seq<Field>, row: Row, now: int)
    ensures ExecFields(cast, head, fs, row, now).Some? <==> Castable(cast, fs)
    ensures ExecFields(cast, head, fs, row, now).Some? ==> row.Keys <= ExecFields(cast, head, fs, row, now).value.Keys
  {
    hide ExecFields, Stored;
    if fs == [] {
      assert ExecSets(cast, [], head, row, now) == Some(row);
      EmptyFields(cast, head, row, now);
    } else {
      var init, f := fs[..|fs| - 1], fs[|fs| - 1];
      FieldsSucceed(cast, head, init, row, now);
      CompiledStep(cast, head, fs, row, now);
      assert fs == init + [f];
    }
  }

  lemma EmptyFields(cast: Cast, head: seq<Value>, row: Row, now: int)
    ensures ExecFields(cast, head, [], row, now) == Some(row)
  {
  }

  /** A column that no present field names keeps its value. */
  lemma {:induction false} UntouchedColumn(cast: Cast, head: seq<Value>, fs: seq<Field>, row: Row, now: int, c: Column)
    requires forall f :: f in fs && f.value.Some? ==> f.column != c
    requires c in row && ExecFields(cast, head, fs, row, now).Some?
    ensures c in ExecFields(cast, head, fs, row, now).value && ExecFields(cast, head, fs, row, now).value[c] == row[c]
  {
    hide ExecFields, Stored;
    if fs == [] {
      EmptyFields(cast, head, row, now);
    } else {
      CompiledStep(cast, head, fs, row, now);
      UntouchedColumn(cast, head, fs[..|fs| - 1], row, now, c);
    }
  }

  /** A present field's column gets its value. */
  lemma {:induction false} TouchedColumn(cast: Cast, head: seq<Value>, fs: seq<Field>, row: Row, now: int, k: nat)
    requires k < |fs| && fs[k].value.Some? && DistinctColumns(fs)
    requires ExecFields(cast, head, fs, row, now).Some?
    ensures var r := ExecFields(cast, head, fs, row, now).value;
            fs[k].column in r && Some(r[fs[k].column]) == Stored(cast, fs[k])
  {
    hide ExecFields, Stored;
    CompiledStep(cast, head, fs, row, now);
    if k < |fs| - 1 {
      TouchedColumn(cast, head, fs[..|fs| - 1], row, now, k);
    }
  }

  const ITEM_COLUMNS: set<Column> := {
    Description, ShortDescription, ItemType, CategoryId, UnitOfMeasure, UomQuantity,
    DefaultPrice, DefaultCost, DefaultCurrency, TaxClass, FoodStampEligible,
    AgeRestriction, Weighable, Attributes, Status }

  function Or(x: Option<Value>, otherwise: Value): Value {
    if x.Some? then x.value else otherwise
  }

  function NumericOr(cast: Cast, x: Option<string>, otherwise: Value): Value {
    if x.None? then otherwise else if cast(x.value).Some? then Numeric(cast(x.value).value) else otherwise
  }

  predicate NumericTextOk(cast: Cast, x: Option<string>) {
    x.Some? ==> cast(x.value).Some?
  }

  /** The plain text columns of a patched row. */
  ghost predicate AppliesText(p: Patch, row: Row, r: Row)
    requires ITEM_COLUMNS <= row.Keys && ITEM_COLUMNS <= r.Keys
  {
    && r[Description] == Or(TextOf(p.description), row[Description])
    && r[ShortDescription] == Or(TextOf(p.shortDescription), row[ShortDescription])
    && r[ItemType] == Or(TextOf(p.itemType), row[ItemType])
    && r[UnitOfMeasure] == Or(TextOf(p.unitOfMeasure), row[UnitOfMeasure])
    && r[DefaultCurrency] == Or(TextOf(p.defaultCurrency), row[DefaultCurrency])
    && r[TaxClass] == Or(TextOf(p.taxClass), row[TaxClass])
    && r[Status] == Or(TextOf(p.status), row[Status])
  }

  /** The other columns a patch may set. */
  ghost predicate AppliesNumerics(cast: Cast, p: Patch, row: Row, r: Row)
    requires ITEM_COLUMNS <= row.Keys && ITEM_COLUMNS <= r.Keys
  {
    && r[CategoryId] == (if p.categoryId.Some? then Uid(p.categoryId.value) else row[CategoryId])
    && r[UomQuantity] == NumericOr(cast, p.uomQuantity, row[UomQuantity])
    && r[DefaultPrice] == NumericOr(cast, p.defaultPrice, row[DefaultPrice])
    && r[DefaultCost] == NumericOr(cast, p.defaultCost, row[DefaultCost])
  }

  ghost predicate AppliesFlags(p: Patch, row: Row, r: Row)
    requires ITEM_COLUMNS <= row.Keys && ITEM_COLUMNS <= r.Keys
  {
    && r[FoodStampEligible] == Or(FlagOf(p.foodStampEligible), row[FoodStampEligible])
    && r[AgeRestriction] == (if p.ageRestriction.Some? then Int(p.ageRestriction.value) else row[AgeRestriction])
    && r[Weighable] == Or(FlagOf(p.weighable), row[Weighable])
    && r[Attributes] == (if p.attributes != "" then Json(p.attributes) else row[Attributes])
  }

  /** The patch applied to a row field by field, and nothing else changed but updated_at. */
  ghost predicate AppliesPatch(cast: Cast, p: Patch, row: Row, r: Row, now: int)
    requires ITEM_COLUMNS <= row.Keys
  {
    && row.Keys <= r.Keys
    && AppliesText(p, row, r)
    && AppliesNumerics(cast, p, row, r)
    && AppliesFlags(p, row, r)
    && UpdatedAt in r && r[UpdatedAt] == Instant(now)
    && forall c :: c in row && c !in ITEM_COLUMNS && c != UpdatedAt ==> r[c] == row[c]
  }

  lemma PatchColumns(p: Patch)
    ensures DistinctColumns(PatchFields(p))
    ensures forall f :: f in PatchFields(p) ==> f.column in ITEM_COLUMNS
  {
  }

  /** Field k of the patch decides its column. */
  lemma PatchColumn(cast: Cast, head: seq<Value>, p: Patch, row: Row, now: int, k: nat)
    requires k < 15 && FieldAt(p, k).column in row
    requires ExecFields(cast, head, PatchFields(p), row, now).Some?
    ensures var r, f := ExecFields(cast, head, PatchFields(p), row, now).value, FieldAt(p, k);
            f.column in r &&
            if f.value.None? then r[f.column] == row[f.column] else Some(r[f.column]) == Stored(cast, f)
  {
    hide ExecFields, Stored;
    var fs := PatchFields(p);
    PatchColumns(p);
    if fs[k].value.Some? {
      TouchedColumn(cast, head, fs, row, now, k);
    } else {
      forall f | f in fs && f.value.Some?
        ensures f.column != fs[k].column
      {
        var j :| 0 <= j < |fs| && fs[j] == f;
        assert j != k;
      }
      UntouchedColumn(cast, head, fs, row, now, fs[k].column);
    }
  }

  lemma TextColumnsApply(cast: Cast, head: seq<Value>, p: Patch, row: Row, now: int)
    requires ITEM_COLUMNS <= row.Keys
    requires ExecFields(cast, head, PatchFields(p), row, now).Some?
    ensures ITEM_COLUMNS <= ExecFields(cast, head, PatchFields(p), row, now).value.Keys
    ensures AppliesText(p, row, ExecFields(cast, head, PatchFields(p), row, now).value)
  {
    hide ExecFields, PatchFields;
    FieldsSucceed(cast, head, PatchFields(p), row, now);
    PatchColumn(cast, head, p, row, now, 0);
    PatchColumn(cast, head, p, row, now, 1);
    PatchColumn(cast, head, p, row, now, 2);
    PatchColumn(cast, head, p, row, now, 4);
    PatchColumn(cast, head, p, row, now, 8);
    PatchColumn(cast, head, p, row, now, 9);
    PatchColumn(cast, head, p, row, now, 14);
  }

  lemma NumericColumnsApply(cast: Cast, head: seq<Value>, p: Patch, row: Row, now: int)
    requires ITEM_COLUMNS <= row.Keys
    requires ExecFields(cast, head, PatchFields(p), row, now).Some?
    ensures ITEM_COLUMNS <= ExecFields(cast, head, PatchFields(p), row, now).value.Keys
    ensures AppliesNumerics(cast, p, row, ExecFields(cast, head, PatchFields(p), row, now).value)
  {
    hide ExecFields, PatchFields;
    FieldsSucceed(cast, head, PatchFields(p), row, now);
    PatchColumn(cast, head, p, row, now, 3);
    PatchColumn(cast, head, p, row, now, 5);
    PatchColumn(cast, head, p, row, now, 6);
    PatchColumn(cast, head, p, row, now, 7);
  }

  lemma FlagColumnsApply(cast: Cast, head: seq<Value>, p: Patch, row: Row, now: int)
    requires ITEM_COLUMNS <= row.Keys
    requires ExecFields(cast, head, PatchFields(p), row, now).Some?
    ensures ITEM_COLUMNS <= ExecFields(cast, head, PatchFields(p), row, now).value.Keys
    ensures AppliesFlags(p, row, ExecFields(cast, head, PatchFields(p), row, now).value)
  {
    hide ExecFields, PatchFields;
    FieldsSucceed(cast, head, PatchFields(p), row, now);
    PatchColumn(cast, head, p, row, now, 10);
    PatchColumn(cast, head, p, row, now, 11);
    PatchColumn(cast, head, p, row, now, 12);
    PatchColumn(cast, head, p, row, now, 13);
  }

  /** Executing the compiled patch fields and then touching updated_at applies the patch. */
  lemma FieldsApplyPatch(cast: Cast, head: seq<Value>, p: Patch, row: Row, now: int)
    requires ITEM_COLUMNS <= row.Keys
    requires ExecFields(cast, head, PatchFields(p), row, now).Some?
    ensures AppliesPatch(cast, p, row,
                         ExecFields(cast, head, PatchFields(p), row, now).value[UpdatedAt := Instant(now)], now)
  {
    hide ExecFields, PatchFields, Stored;
    var r := ExecFields(cast, head, PatchFields(p), row, now).value;
    FieldsSucceed(cast, head, PatchFields(p), row, now);
    TextColumnsApply(cast, head, p, row, now);
    NumericColumnsApply(cast, head, p, row, now);
    FlagColumnsApply(cast, head, p, row, now);
    forall c | c in row && c !in ITEM_COLUMNS
      ensures r[c] == row[c]
    {
      PatchColumns(p);
      UntouchedColumn(cast, head, PatchFields(p), row, now, c);
    }
  }

  /** Only the three numeric fields can fail to be stored. */
  lemma PatchCastable(cast: Cast, p: Patch)
    ensures Castable(cast, PatchFields(p)) <==>
            && NumericTextOk(cast, p.uomQuantity) && NumericTextOk(cast, p.defaultPrice)
            && NumericTextOk(cast, p.defaultCost)
  {
    var fs := PatchFields(p);
    assert fs[5] in fs && fs[6] in fs && fs[7] in fs;
    assert forall k :: 0 <= k < 15 && FieldAt(p, k).numeric ==> k == 5 || k == 6 || k == 7;
  }

  lemma {:induction false} NoClausesIff(head: seq<Value>, fs: seq<Field>)
    ensures Compiled(head, fs).sets == [] <==> forall f :: f in fs ==> f.value.None?
    ensures head <= Compiled(head, fs).args
  {
    if fs != [] {
      NoClausesIff(head, fs[..|fs| - 1]);
      assert fs == fs[..|fs| - 1] + [fs[|fs| - 1]];
    }
  }

  /** No statement exactly for an empty patch; otherwise its execution is the patch, failing only on a bad numeric. */
  lemma UpdateIsPatch(cast: Cast, tenant: nat, id: nat, p: Patch, row: Row, now: int)
    requires ITEM_COLUMNS <= row.Keys
    ensures UpdateStatement(tenant, id, p).None? <==> forall f :: f in PatchFields(p) ==> f.value.None?
    ensures UpdateStatement(tenant, id, p).Some? ==>
              var b := UpdateStatement(tenant, id, p).value;
              var r := ExecSets(cast, b.sets, b.args, row, now);
              && Arg(b.args, 1) == Some(Uid(tenant)) && Arg(b.args, 2) == Some(Uid(id))
              && (r.Some? <==> NumericTextOk(cast, p.uomQuantity) && NumericTextOk(cast, p.defaultPrice)
                               && NumericTextOk(cast, p.defaultCost))
              && (r.Some? ==> AppliesPatch(cast, p, row, r.value, now))
  {
    hide PatchFields, AppliesPatch, Castable, Compiled;
    var head, fs := [Uid(tenant), Uid(id)], PatchFields(p);
    NoClausesIff(head, fs);
    var c := Compiled(head, fs);
    if c.sets != [] {
      FieldsSucceed(cast, head, fs, row, now);
      PatchCastable(cast, p);
      var b := UpdateStatement(tenant, id, p).value;
      assert b.sets[..|b.sets| - 1] == c.sets;
      if ExecFields(cast, head, fs, row, now).Some? {
        FieldsApplyPatch(cast, head, p, row, now);
      }
    }
  }

  /** WHERE tenant_id = $1 AND id = $2. */
  predicate Targets(q: Built, row: Row) {
    Holds(Equals(TenantId, 1), q.args, row, {}) && Holds(Equals(RowId, 2), q.args, row, {})
  }

  /** The table an UPDATE leaves; None when setting a row it targets fails. */
  function ExecUpdate(cast: Cast, q: Built, table: seq<Row>, now: int): (r: Option<seq<Row>>) {
    if table == [] then Some([])
    else
      var before, row := ExecUpdate(cast, q, table[..|table| - 1], now), table[|table| - 1];
      var after := if Targets(q, row) then ExecSets(cast, q.sets, q.args, row, now) else Some(row);
      if before.None? || after.None? then None else Some(before.value + [after.value])
  }

  predicate IsRow(row: Row, tenant: nat, id: nat) {
    At(row, TenantId) == Uid(tenant) && At(row, RowId) == Uid(id)
  }

  predicate NumericsOk(cast: Cast, p: Patch) {
    NumericTextOk(cast, p.uomQuantity) && NumericTextOk(cast, p.defaultPrice) && NumericTextOk(cast, p.defaultCost)
  }

  /** The row of that tenant and id is patched, and any other row is as it was. */
  ghost predicate RowPatched(cast: Cast, tenant: nat, id: nat, p: Patch, row: Row, r: Row, now: int)
    requires ITEM_COLUMNS <= row.Keys
  {
    if IsRow(row, tenant, id) then AppliesPatch(cast, p, row, r, now) else r == row
  }

  ghost predicate HasColumns(table: seq<Row>) {
    forall k :: 0 <= k < |table| ==> ITEM_COLUMNS <= table[k].Keys
  }

  ghost predicate TablePatched(cast: Cast, tenant: nat, id: nat, p: Patch, table: seq<Row>, r: seq<Row>, now: int)
    requires HasColumns(table)
  {
    |r| == |table| && forall k :: 0 <= k < |table| ==> RowPatched(cast, tenant, id, p, table[k], r[k], now)
  }

  /** What the statement does to one row of the table. */
  lemma UpdatedRow(cast: Cast, tenant: nat, id: nat, p: Patch, row: Row, now: int)
    requires ITEM_COLUMNS <= row.Keys && UpdateStatement(tenant, id, p).Some?
    ensures var q := UpdateStatement(tenant, id, p).value;
            var r := ExecSets(cast, q.sets, q.args, row, now);
            && (Targets(q, row) <==> IsRow(row, tenant, id))
            && (r.Some? <==> NumericsOk(cast, p))
            && (r.Some? && IsRow(row, tenant, id) ==> RowPatched(cast, tenant, id, p, row, r.value, now))
  {
    hide UpdateStatement, AppliesPatch, ExecSets, NumericTextOk;
    UpdateIsPatch(cast, tenant, id, p, row, now);
  }

  /** On any table Update patches exactly its row, and fails exactly when that row meets a malformed numeric. */
  lemma {:induction false} UpdatePatchesItsRow(cast: Cast, tenant: nat, id: nat, p: Patch, table: seq<Row>, now: int)
    requires HasColumns(table) && UpdateStatement(tenant, id, p).Some?
    ensures var r := ExecUpdate(cast, UpdateStatement(tenant, id, p).value, table, now);
            && (r.None? <==> !NumericsOk(cast, p) && exists k :: 0 <= k < |table| && IsRow(table[k], tenant, id))
            && (r.Some? ==> TablePatched(cast, tenant, id, p, table, r.value, now))
  {
    hide UpdateStatement, AppliesPatch, ExecSets, NumericsOk, Targets, IsRow;
    if table != [] {
      var init, row := table[..|table| - 1], table[|table| - 1];
      UpdatePatchesItsRow(cast, tenant, id, p, init, now);
      UpdatedRow(cast, tenant, id, p, row, now);
    }
  }

  // ---- SELECT -----------------------------------------------------------

  datatype Cond =
    | Equals(column: Column, arg: nat)
    | AtLeast(column: Column, arg: nat)
    | AtMost(column: Column, arg: nat)
    | LinkedToVendor(arg: nat)

  /** A boolean expression, as the joined text parses. */
  datatype Expr = True | Leaf(c: Cond) | And(l: Expr, r: Expr)

  /** catalog.item_vendors as (tenant, item, vendor) triples. */
  type Links = set<(Value, Value, Value)>

  function At(row: Row, c: Column): Value {
    if c in row then row[c] else Null
  }

  /** NULL compares to nothing. */
  predicate Holds(c: Cond, args: seq<Value>, row: Row, links: Links) {
    match c
    case Equals(col, n) => At(row, col) != Null && Arg(args, n) == Some(At(row, col))
    case AtLeast(col, n) =>
      var v, a := At(row, col), Arg(args, n);
      v.Instant? && a.Some? && a.value.Instant? && v.t >= a.value.t
    case AtMost(col, n) =>
      var v, a := At(row, col), Arg(args, n);
      v.Instant? && a.Some? && a.value.Instant? && v.t <= a.value.t
    case LinkedToVendor(n) =>
      var a := Arg(args, n);
      a.Some? && (At(row, TenantId), At(row, RowId), a.value) in links
  }

  predicate Eval(e: Expr, args: seq<Value>, row: Row, links: Links) {
    match e
    case True => true
    case Leaf(c) => Holds(c, args, row, links)
    case And(l, r) => Eval(l, args, row, links) && Eval(r, args, row, links)
  }

  function Joined(parts: seq<Cond>): Expr {
    if parts == [] then True
    else if |parts| == 1 then Leaf(parts[0])
    else And(Joined(parts[..|parts| - 1]), Leaf(parts[|parts| - 1]))
  }

  method JoinAnd(parts: seq<Cond>) returns (e: Expr)
    ensures e == Joined(parts)
  {
    if |parts| == 0 {
      return True;
    }
    e := Leaf(parts[0]);
    for i := 1 to |parts|
      invariant e == Joined(parts[..i])
    {
      assert parts[..i + 1][..i] == parts[..i];
      e := And(e, Leaf(parts[i]));
    }
    assert parts[..|parts|] == parts;
  }

  /** A joined predicate holds exactly when all its parts do; none means TRUE. */
  lemma {:induction false} JoinedHolds(parts: seq<Cond>, args: seq<Value>, row: Row, links: Links)
    ensures Eval(Joined(parts), args, row, links) <==> forall c :: c in parts ==> Holds(c, args, row, links)
  {
    if |parts| > 1 {
      JoinedHolds(parts[..|parts| - 1], args, row, links);
      assert parts == parts[..|parts| - 1] + [parts[|parts| - 1]];
    }
  }

  /** WHERE, LIMIT $n and OFFSET $m. */
  datatype Query = Query(filter: Expr, limit: nat, offset: nat)

  function Filtered(q: Query, args: seq<Value>, rows: seq<Row>, links: Links): (r: seq<Row>) {
    if rows == [] then []
    else
      var row := rows[|rows| - 1];
      Filtered(q, args, rows[..|rows| - 1], links) + if Eval(q.filter, args, row, links) then [row] else []
  }

  function Page(rows: seq<Row>, limit: nat, offset: nat): (r: seq<Row>)
    ensures |r| <= limit
  {
    var rest := if offset <= |rows| then rows[offset..] else [];
    if limit <= |rest| then rest[..limit] else rest
  }

  /** A page starts offset rows in, keeps the order, and stops at limit rows or at the end. */
  lemma PageRows(rows: seq<Row>, limit: nat, offset: nat)
    ensures var r := Page(rows, limit, offset);
            && (forall k :: 0 <= k < |r| ==> offset + k < |rows| && r[k] == rows[offset + k])
            && (|r| < limit ==> offset + |r| >= |rows|)
  {
  }

  /** The rows of an ordered table that a query returns; None on a negative or missing bound. */
  function Exec(q: Query, args: seq<Value>, rows: seq<Row>, links: Links): (r: Option<seq<Row>>) {
    var l, o := Arg(args, q.limit), Arg(args, q.offset);
    if l.None? || o.None? || !l.value.Int? || !o.value.Int? || l.value.i < 0 || o.value.i < 0 then None
    else Some(Page(Filtered(q, args, rows, links), l.value.i, o.value.i))
  }

  // ---- the two WHERE builders -------------------------------------------

  /** A condition with its value instead of an argument number. */
  datatype Test =
    | Is(column: Column, v: Value) | From(column: Column, v: Value) | Upto(column: Column, v: Value) | Vendor(v: Value)

  function CondFor(t: Test, n: nat): Cond {
    match t
    case Is(c, _) => Equals(c, n)
    case From(c, _) => AtLeast(c, n)
    case Upto(c, _) => AtMost(c, n)
    case Vendor(_) => LinkedToVendor(n)
  }

  function Conds(ts: seq<Test>): (cs: seq<Cond>)
    ensures |cs| == |ts| && forall k :: 0 <= k < |ts| ==> cs[k] == CondFor(ts[k], k + 1)
  {
    seq(|ts|, k requires 0 <= k < |ts| => CondFor(ts[k], k + 1))
  }

  function Values(ts: seq<Test>): (vs: seq<Value>)
    ensures |vs| == |ts| && forall k :: 0 <= k < |ts| ==> vs[k] == ts[k].v
  {
    seq(|ts|, k requires 0 <= k < |ts| => ts[k].v)
  }

  class WhereBuilder {
    var conds: seq<Cond>
    var args: seq<Value>
    var idx: nat
    ghost var tests: seq<Test>

    ghost predicate Valid()
      reads this
    {
      conds == Conds(tests) && args == Values(tests) && idx == |args| + 1
    }

    constructor (tenant: nat)
      ensures Valid() && tests == [Is(TenantId, Uid(tenant))]
    {
      conds, args, idx := [Equals(TenantId, 1)], [Uid(tenant)], 2;
      tests := [Is(TenantId, Uid(tenant))];
    }

    method Add(t: Test)
      requires Valid()
      modifies this
      ensures Valid() && tests == old(tests) + [t]
    {
      conds := conds + [CondFor(t, idx)];
      args := args + [t.v];
      idx := idx + 1;
      tests := tests + [t];
    }

    /** The joined conditions, and the bounds as the last two arguments. */
    method Finish(limit: int, offset: int) returns (q: Query, args: seq<Value>)
      requires Valid()
      ensures (q, args) == Statement(tests, limit, offset)
    {
      var filter := JoinAnd(conds);
      q := Query(filter, idx, idx + 1);
      args := this.args + [Int(limit), Int(offset)];
    }
  }

  /** The statement made of some tests and the two bounds. */
  function Statement(ts: seq<Test>, limit: int, offset: int): (Query, seq<Value>) {
    (Query(Joined(Conds(ts)), |ts| + 1, |ts| + 2), Values(ts) + [Int(limit), Int(offset)])
  }

  datatype ListFilters = ListFilters(
    tenant: nat, category: Option<nat>, vendor: Option<nat>, status: Option<string>, limit: int, offset: int)

  function ListTests(f: ListFilters): (ts: seq<Test>) {
    [Is(TenantId, Uid(f.tenant))]
    + (if f.category.Some? then [Is(CategoryId, Uid(f.category.value))] else [])
    + (if f.status.Some? then [Is(Status, Text(f.status.value))] else [])
    + (if f.vendor.Some? then [Vendor(Uid(f.vendor.value))] else [])
  }

  function ListStatement(f: ListFilters): (Query, seq<Value>) {
    Statement(ListTests(f), if f.limit <= 0 then 50 else f.limit, f.offset)
  }

  method BuildList(f: ListFilters) returns (q: Query, args: seq<Value>)
    ensures (q, args) == ListStatement(f)
  {
    hide WhereBuilder.Valid, Statement;
    var b := new WhereBuilder(f.tenant);
    if f.category.Some? {
      b.Add(Is(CategoryId, Uid(f.category.value)));
    }
    if f.status.Some? {
      b.Add(Is(Status, Text(f.status.value)));
    }
    if f.vendor.Some? {
      b.Add(Vendor(Uid(f.vendor.value)));
    }
    assert b.tests == ListTests(f);
    var limit := if f.limit <= 0 then 50 else f.limit;
    q, args := b.Finish(limit, f.offset);
  }

  datatype CaseFilter = CaseFilter(status: string, from: Option<int>, to: Option<int>)

  function CaseTests(tenant: nat, f: CaseFilter): (ts: seq<Test>) {
    [Is(TenantId, Uid(tenant))]
    + (if f.status != "" then [Is(Status, Text(f.status))] else [])
    + (if f.from.Some? then [From(OpenedAt, Instant(f.from.value))] else [])
    + (if f.to.Some? then [Upto(OpenedAt, Instant(f.to.value))] else [])
  }

  method BuildListCases(tenant: nat, f: CaseFilter, limit: int, offset: int) returns (q: Query, args: seq<Value>)
    ensures (q, args) == Statement(CaseTests(tenant, f), limit, offset)
  {
    hide WhereBuilder.Valid, Statement;
    var b := new WhereBuilder(tenant);
    if f.status != "" {
      b.Add(Is(Status, Text(f.status)));
    }
    if f.from.Some? {
      b.Add(From(OpenedAt, Instant(f.from.value)));
    }
    if f.to.Some? {
      b.Add(Upto(OpenedAt, Instant(f.to.value)));
    }
    assert b.tests == CaseTests(tenant, f);
    q, args := b.Finish(limit, offset);
  }

  predicate Passes(t: Test, row: Row, links: Links) {
    match t
    case Is(c, v) => At(row, c) == v != Null
    case From(c, v) => At(row, c).Instant? && v.Instant? && At(row, c).t >= v.t
    case Upto(c, v) => At(row, c).Instant? && v.Instant? && At(row, c).t <= v.t
    case Vendor(v) => (At(row, TenantId), At(row, RowId), v) in links
  }

  /** A built statement selects by its tests; each condition finds its own argument and so do the bounds. */
  lemma StatementMeaning(ts: seq<Test>, limit: int, offset: int, row: Row, links: Links)
    ensures var (q, args) := Statement(ts, limit, offset);
            && (Eval(q.filter, args, row, links) <==> forall t :: t in ts ==> Passes(t, row, links))
            && Arg(args, q.limit) == Some(Int(limit)) && Arg(args, q.offset) == Some(Int(offset))
  {
    var (q, args) := Statement(ts, limit, offset);
    JoinedHolds(Conds(ts), args, row, links);
    forall k | 0 <= k < |ts|
      ensures Holds(Conds(ts)[k], args, row, links) <==> Passes(ts[k], row, links)
    {
      assert args[k] == ts[k].v;
    }
    assert forall k :: 0 <= k < |ts| ==> Conds(ts)[k] in Conds(ts) && ts[k] in ts;
  }

  /** The filters of List, directly on a row. */
  predicate ItemPasses(f: ListFilters, row: Row, links: Links) {
    && At(row, TenantId) == Uid(f.tenant)
    && (f.category.Some? ==> At(row, CategoryId) == Uid(f.category.value))
    && (f.status.Some? ==> At(row, Status) == Text(f.status.value))
    && (f.vendor.Some? ==> (At(row, TenantId), At(row, RowId), Uid(f.vendor.value)) in links)
  }

  predicate CasePasses(tenant: nat, f: CaseFilter, row: Row) {
    && At(row, TenantId) == Uid(tenant)
    && (f.status != "" ==> At(row, Status) == Text(f.status))
    && (f.from.Some? ==> At(row, OpenedAt).Instant? && At(row, OpenedAt).t >= f.from.value)
    && (f.to.Some? ==> At(row, OpenedAt).Instant? && At(row, OpenedAt).t <= f.to.value)
  }

  lemma ListTestsMean(f: ListFilters, row: Row, links: Links)
    ensures (forall t :: t in ListTests(f) ==> Passes(t, row, links)) <==> ItemPasses(f, row, links)
  {
    var ts := ListTests(f);
    assert Is(TenantId, Uid(f.tenant)) in ts;
    assert f.category.Some? ==> Is(CategoryId, Uid(f.category.value)) in ts;
    assert f.status.Some? ==> Is(Status, Text(f.status.value)) in ts;
    assert f.vendor.Some? ==> Vendor(Uid(f.vendor.value)) in ts;
  }

  lemma CaseTestsMean(tenant: nat, f: CaseFilter, row: Row, links: Links)
    ensures (forall t :: t in CaseTests(tenant, f) ==> Passes(t, row, links)) <==> CasePasses(tenant, f, row)
  {
    var ts := CaseTests(tenant, f);
    assert Is(TenantId, Uid(tenant)) in ts;
    assert f.status != "" ==> Is(Status, Text(f.status)) in ts;
    assert f.from.Some? ==> From(OpenedAt, Instant(f.from.value)) in ts;
    assert f.to.Some? ==> Upto(OpenedAt, Instant(f.to.value)) in ts;
  }

  function Passing(keep: Row -> bool, rows: seq<Row>): (r: seq<Row>) {
    if rows == [] then []
    else Passing(keep, rows[..|rows| - 1]) + if keep(rows[|rows| - 1]) then [rows[|rows| - 1]] else []
  }

  /** A query whose filter means keep returns the requested page of the rows that keep lets through. */
  lemma {:induction false} ExecIsPage(q: Query, args: seq<Value>, rows: seq<Row>, links: Links, keep: Row -> bool)
    requires forall row :: Eval(q.filter, args, row, links) <==> keep(row)
    ensures Filtered(q, args, rows, links) == Passing(keep, rows)
  {
    if rows != [] {
      ExecIsPage(q, args, rows[..|rows| - 1], links, keep);
    }
  }

  /** List returns the page of the items its filters let through. */
  lemma ListIsPageOfFilter(f: ListFilters, rows: seq<Row>, links: Links)
    ensures var (q, args) := ListStatement(f);
            Exec(q, args, rows, links) ==
            if f.offset < 0 then None
            else
              Some(Page(Passing(row => ItemPasses(f, row, links), rows),
                        if f.limit <= 0 then 50 else f.limit, f.offset))
  {
    var (q, args) := ListStatement(f);
    forall row
      ensures Eval(q.filter, args, row, links) <==> ItemPasses(f, row, links)
    {
      StatementMeaning(ListTests(f), if f.limit <= 0 then 50 else f.limit, f.offset, row, links);
      ListTestsMean(f, row, links);
    }
    StatementMeaning(ListTests(f), if f.limit <= 0 then 50 else f.limit, f.offset, map[], links);
    ExecIsPage(q, args, rows, links, row => ItemPasses(f, row, links));
  }

  /** ListCases returns the page of the cases its filter lets through, for the bounds as given. */
  lemma ListCasesIsPageOfFilter(tenant: nat, f: CaseFilter, limit: int, offset: int, rows: seq<Row>, links: Links)
    ensures var (q, args) := Statement(CaseTests(tenant, f), limit, offset);
            Exec(q, args, rows, links) ==
            if limit < 0 || offset < 0 then None
            else Some(Page(Passing(row => CasePasses(tenant, f, row), rows), limit, offset))
  {
    var (q, args) := Statement(CaseTests(tenant, f), limit, offset);
    forall row
      ensures Eval(q.filter, args, row, links) <==> CasePasses(tenant, f, row)
    {
      StatementMeaning(CaseTests(tenant, f), limit, offset, row, links);
      CaseTestsMean(tenant, f, row, links);
    }
    StatementMeaning(CaseTests(tenant, f), limit, offset, map[], links);
    ExecIsPage(q, args, rows, links, row => CasePasses(tenant, f, row));
  }
}
