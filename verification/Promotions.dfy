/** Promotion eligibility and selection for one cart line (internal/pricing/promotions.go). */
module Promotions {
  import opened Int64
  import opened Money
  import opened Wrappers

  /** uuid.UUID; 0 is uuid.Nil. */
  type Id = nat

  datatype Promotion = Promotion(
    id: Id, code: string, name: string, scopeType: string,
    activeChannels: seq<string>, customerSegments: seq<string>, stackable: bool)

  /** A rule with its JSON qualifiers decoded. */
  datatype Rule = Rule(
    triggerType: string,
    minQuantity: Option<string>, itemIds: Option<seq<Id>>, categoryIds: Option<seq<Id>>,
    benefitType: string,
    percent: Option<string>, amount: Option<string>, fixedPrice: Option<string>)

  datatype EvalContext = EvalContext(channel: string, customerSegments: seq<string>)

  datatype Evaluation =
    | NotApplicable
    | Applies(discount: int, benefitType: string)
    | Failed(error: AmountError)

  datatype EvaluatedPromo = EvaluatedPromo(promo: Promotion, discount: int, benefitType: string)

  // ---- eligibility ------------------------------------------------------

  predicate AnyOverlap(a: seq<string>, b: seq<string>) {
    exists x :: x in a && x in b
  }

  predicate Unrestricted(ids: Option<seq<Id>>) {
    ids.None? || ids.value == []
  }

  predicate ItemMatchesAnyRule(rules: seq<Rule>, item: Id) {
    exists r :: r in rules && (Unrestricted(r.itemIds) || item in r.itemIds.value)
  }

  predicate CategoryMatchesAnyRule(rules: seq<Rule>, category: Id) {
    exists r :: r in rules && (Unrestricted(r.categoryIds) || category in r.categoryIds.value)
  }

  predicate InScope(promo: Promotion, rules: seq<Rule>, item: Id, category: Option<Id>) {
    match promo.scopeType
    case "item" => ItemMatchesAnyRule(rules, item)
    case "category" => category.Some? && CategoryMatchesAnyRule(rules, category.value)
    case _ => false
  }

  /** The channel, segment and scope filters: everything that does not look at the quantity. */
  predicate Targeted(promo: Promotion, rules: seq<Rule>, item: Id, category: Option<Id>, ctx: EvalContext) {
    && (promo.activeChannels == [] || ctx.channel in promo.activeChannels)
    && (promo.customerSegments == [] || AnyOverlap(promo.customerSegments, ctx.customerSegments))
    && InScope(promo, rules, item, category)
  }

  function MinQuantity(r: Rule): (m: int) {
    match r.minQuantity
    case None => 1_000_000
    case Some(text) =>
      var p := ParseQuantityToMicros(text);
      if p.Ok? then p.amount else 1_000_000
  }

  predicate TriggersMet(rules: seq<Rule>, qtyMicros: int) {
    forall r :: r in rules ==> r.triggerType == "buy_quantity" ==> MinQuantity(r) <= qtyMicros
  }

  /** The per-unit discount of a rule's benefit. */
  function Benefit(r: Rule, baseCents: int): (e: Evaluation)
    requires 0 <= baseCents <= MAX
    ensures e.Applies? ==> 0 <= e.discount <= MAX
    ensures e.Applies? && r.benefitType != "percent_off" ==> e.discount <= baseCents
  {
    match r.benefitType
    case "percent_off" =>
      if r.percent.None? then NotApplicable
      else
        var p := PercentOff(baseCents, r.percent.value);
        if p.Err? then Failed(p.error) else Applies(p.amount, r.benefitType)
    case "amount_off" =>
      if r.amount.None? then NotApplicable
      else
        var p := ParseMajorToCents(r.amount.value);
        if p.Err? then Failed(p.error)
        else Applies(if p.amount > baseCents then baseCents else p.amount, r.benefitType)
    case "fixed_price" =>
      if r.fixedPrice.None? then NotApplicable
      else
        var p := ParseMajorToCents(r.fixedPrice.value);
        if p.Err? then Failed(p.error)
        else
          var d := Wrap(baseCents - p.amount);
          Applies(if d < 0 then 0 else d, r.benefitType)
    case _ => NotApplicable
  }

  function EvaluatePromotion(promo: Promotion, rules: seq<Rule>, item: Id, category: Option<Id>,
                             baseCents: int, qtyMicros: int, ctx: EvalContext): (e: Evaluation)
    requires 0 <= baseCents <= MAX
    ensures e.Applies? ==> 0 <= e.discount <= MAX
  {
    if !Targeted(promo, rules, item, category, ctx) || !TriggersMet(rules, qtyMicros) || rules == [] then
      NotApplicable
    else
      Benefit(rules[0], baseCents)
  }

  // ---- selection --------------------------------------------------------

  function Stackables(c: seq<EvaluatedPromo>): (r: seq<EvaluatedPromo>) {
    if c == [] then []
    else
      var x, init := c[|c| - 1], c[..|c| - 1];
      if x.promo.stackable then Stackables(init) + [x] else Stackables(init)
  }

  /** The first of the non-stackable candidates with the largest discount. */
  function BestNonStackable(c: seq<EvaluatedPromo>): (r: Option<EvaluatedPromo>) {
    if c == [] then None
    else
      var x, best := c[|c| - 1], BestNonStackable(c[..|c| - 1]);
      if !x.promo.stackable && (best.None? || x.discount > best.value.discount) then Some(x) else best
  }

  function Picked(c: seq<EvaluatedPromo>): (r: seq<EvaluatedPromo>) {
    var best := BestNonStackable(c);
    Stackables(c) + if best.Some? then [best.value] else []
  }

  method PickBestPromotions(candidates: seq<EvaluatedPromo>) returns (out: seq<EvaluatedPromo>)
    ensures out == Picked(candidates)
  {
    if |candidates| == 0 {
      return [];
    }
    var stackables: seq<EvaluatedPromo> := [];
    var best: Option<EvaluatedPromo> := None;
    for i := 0 to |candidates|
      invariant stackables == Stackables(candidates[..i])
      invariant best == BestNonStackable(candidates[..i])
    {
      var c := candidates[i];
      assert candidates[..i + 1][..i] == candidates[..i];
      if c.promo.stackable {
        stackables := stackables + [c];
        continue;
      }
      if best.None? || c.discount > best.value.discount {
        best := Some(c);
      }
    }
    assert candidates[..|candidates|] == candidates;
    out := stackables;
    if best.Some? {
      out := out + [best.value];
    }
  }

  /** The best non-stackable candidate is the first of the largest. */
  lemma {:induction false} BestIsFirst(c: seq<EvaluatedPromo>, k: nat)
    requires k < |c| && !c[k].promo.stackable
    requires forall i :: 0 <= i < |c| && !c[i].promo.stackable ==>
               if i < k then c[i].discount < c[k].discount else c[i].discount <= c[k].discount
    ensures BestNonStackable(c) == Some(c[k])
  {
    var x, init := c[|c| - 1], c[..|c| - 1];
    if k < |init| {
      BestIsFirst(init, k);
    } else {
      BestIsBelow(init, x.discount);
    }
  }

  lemma {:induction false} BestIsBelow(c: seq<EvaluatedPromo>, d: int)
    requires forall i :: 0 <= i < |c| && !c[i].promo.stackable ==> c[i].discount < d
    ensures BestNonStackable(c).Some? ==> BestNonStackable(c).value.discount < d
  {
    if c != [] {
      BestIsBelow(c[..|c| - 1], d);
    }
  }

  /** The stackable candidates of a list are those of its parts, in order. */
  lemma {:induction false} StackablesConcat(a: seq<EvaluatedPromo>, b: seq<EvaluatedPromo>)
    ensures Stackables(a + b) == Stackables(a) + Stackables(b)
  {
    if b == [] {
      assert a + b == a;
    } else {
      assert (a + b)[..|a + b| - 1] == a + b[..|b| - 1];
      StackablesConcat(a, b[..|b| - 1]);
    }
  }

  function Total(sel: seq<EvaluatedPromo>): (t: int) {
    if sel == [] then 0 else Total(sel[..|sel| - 1]) + sel[|sel| - 1].discount
  }

  function NonStackableCount(sel: seq<EvaluatedPromo>): (n: nat) {
    if sel == [] then 0
    else NonStackableCount(sel[..|sel| - 1]) + if sel[|sel| - 1].promo.stackable then 0 else 1
  }

  /** sel takes candidates from c, each at most as often as it occurs, with at most one non-stackable. */
  ghost predicate Admissible(sel: seq<EvaluatedPromo>, c: seq<EvaluatedPromo>) {
    multiset(sel) <= multiset(c) && NonStackableCount(sel) <= 1
  }

  ghost predicate NoNegativeDiscount(c: seq<EvaluatedPromo>) {
    forall x :: x in c ==> x.discount >= 0
  }

  lemma {:induction false} TotalsConcat(a: seq<EvaluatedPromo>, b: seq<EvaluatedPromo>)
    ensures Total(a + b) == Total(a) + Total(b)
    ensures NonStackableCount(a + b) == NonStackableCount(a) + NonStackableCount(b)
  {
    if b == [] {
      assert a + b == a;
    } else {
      assert (a + b)[..|a + b| - 1] == a + b[..|b| - 1];
      TotalsConcat(a, b[..|b| - 1]);
    }
  }

  lemma TotalsSingle(x: EvaluatedPromo)
    ensures Total([x]) == x.discount
    ensures NonStackableCount([x]) == if x.promo.stackable then 0 else 1
  {
    assert [x][..0] == [];
  }

  /** Taking one occurrence of x out of a selection. */
  lemma Remove(sel: seq<EvaluatedPromo>, x: EvaluatedPromo) returns (rest: seq<EvaluatedPromo>)
    requires x in sel
    ensures multiset(sel) == multiset(rest) + multiset{x}
    ensures Total(sel) == Total(rest) + x.discount
    ensures NonStackableCount(sel) == NonStackableCount(rest) + if x.promo.stackable then 0 else 1
  {
    var k :| 0 <= k < |sel| && sel[k] == x;
    var a, b := sel[..k], sel[k + 1..];
    rest := a + b;
    assert sel == a + [x] + b;
    TotalsConcat(a + [x], b);
    TotalsConcat(a, [x]);
    TotalsConcat(a, b);
    TotalsSingle(x);
  }

  /** A selection from init + [x], less an x if it has one, is a selection from init. */
  lemma WithoutLast(sel: seq<EvaluatedPromo>, init: seq<EvaluatedPromo>, x: EvaluatedPromo)
    returns (rest: seq<EvaluatedPromo>)
    requires multiset(sel) <= multiset(init + [x])
    ensures multiset(rest) <= multiset(init)
    ensures Total(sel) == Total(rest) + if x in sel then x.discount else 0
    ensures NonStackableCount(sel) == NonStackableCount(rest) + if x in sel && !x.promo.stackable then 1 else 0
  {
    assert multiset(init + [x]) == multiset(init) + multiset{x};
    if x in sel {
      rest := Remove(sel, x);
      assert forall y :: multiset(rest)[y] == multiset(sel)[y] - multiset{x}[y];
    } else {
      rest := sel;
      assert multiset(sel)[x] == 0;
    }
  }

  lemma {:induction false} StackablesBound(sel: seq<EvaluatedPromo>, c: seq<EvaluatedPromo>)
    requires multiset(sel) <= multiset(c) && NonStackableCount(sel) == 0
    requires NoNegativeDiscount(c)
    ensures Total(sel) <= Total(Stackables(c))
    decreases c
  {
    if c != [] {
      var x, init := c[|c| - 1], c[..|c| - 1];
      assert c == init + [x];
      var rest := WithoutLast(sel, init, x);
      StackablesBound(rest, init);
      TotalsConcat(Stackables(init), [x]);
      TotalsSingle(x);
    } else {
      assert |multiset(sel)| == 0;
      assert sel == [];
    }
  }

  function BestDiscount(c: seq<EvaluatedPromo>): (d: int) {
    var best := BestNonStackable(c);
    if best.Some? then best.value.discount else 0
  }

  lemma PickedTotal(c: seq<EvaluatedPromo>)
    ensures Total(Picked(c)) == Total(Stackables(c)) + BestDiscount(c)
  {
    var best := BestNonStackable(c);
    if best.Some? {
      TotalsConcat(Stackables(c), [best.value]);
      TotalsSingle(best.value);
    } else {
      assert Picked(c) == Stackables(c);
    }
  }

  lemma {:induction false} PickedIsAdmissible(c: seq<EvaluatedPromo>)
    ensures Admissible(Picked(c), c)
    ensures NonStackableCount(Stackables(c)) == 0
    ensures BestNonStackable(c).Some? ==> !BestNonStackable(c).value.promo.stackable
  {
    if c != [] {
      var x, init := c[|c| - 1], c[..|c| - 1];
      assert c == init + [x];
      PickedIsAdmissible(init);
      TotalsConcat(Stackables(init), [x]);
      TotalsSingle(x);
      var best := BestNonStackable(c);
      if best.Some? {
        TotalsConcat(Stackables(c), [best.value]);
        TotalsSingle(best.value);
      } else {
        assert Picked(c) == Stackables(c);
      }
    }
  }

  /** No admissible selection has a larger total discount than the picked one. */
  lemma {:induction false} PickedIsOptimal(sel: seq<EvaluatedPromo>, c: seq<EvaluatedPromo>)
    requires Admissible(sel, c) && NoNegativeDiscount(c)
    ensures Total(sel) <= Total(Picked(c))
    decreases c
  {
    PickedTotal(c);
    if c == [] {
      assert |multiset(sel)| == 0;
      assert sel == [];
    } else {
      hide Picked, Total, NonStackableCount;
      var x, init := c[|c| - 1], c[..|c| - 1];
      assert c == init + [x];
      PickedTotal(init);
      TotalsConcat(Stackables(init), [x]);
      TotalsSingle(x);
      var rest := WithoutLast(sel, init, x);
      if x in sel && !x.promo.stackable {
        StackablesBound(rest, init);
      } else {
        PickedIsOptimal(rest, init);
      }
    }
  }

  lemma FewerNoNegative(a: seq<EvaluatedPromo>, b: seq<EvaluatedPromo>)
    requires multiset(a) <= multiset(b) && NoNegativeDiscount(b)
    ensures NoNegativeDiscount(a)
  {
    forall x | x in a
      ensures x.discount >= 0
    {
      assert x in multiset(a) && x in multiset(b);
    }
  }

  /** More candidates never lower the total, and so equal candidates in any order give equal totals. */
  lemma MoreCandidatesMoreDiscount(a: seq<EvaluatedPromo>, b: seq<EvaluatedPromo>)
    requires multiset(a) <= multiset(b) && NoNegativeDiscount(b)
    ensures 0 <= Total(Picked(a)) <= Total(Picked(b))
  {
    hide Picked, NoNegativeDiscount;
    FewerNoNegative(a, b);
    PickedIsAdmissible(a);
    PickedIsOptimal(Picked(a), b);
    PickedIsOptimal([], a);
  }

  lemma OrderDoesNotMatter(a: seq<EvaluatedPromo>, b: seq<EvaluatedPromo>)
    requires multiset(a) == multiset(b) && NoNegativeDiscount(b)
    ensures Total(Picked(a)) == Total(Picked(b))
  {
    hide Picked, Total, NoNegativeDiscount;
    FewerNoNegative(a, b);
    MoreCandidatesMoreDiscount(a, b);
    MoreCandidatesMoreDiscount(b, a);
  }
}
