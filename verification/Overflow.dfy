/** When resolving a cart reaches -2^63, the one int64 that formatCents (internal/pricing/money.go) never prints. */
module Overflow {
  import opened Int64
  import opened Money
  import opened Wrappers
  import opened Promotions
  import opened Resolver
  import opened CartAccounting

  /** The unit price is -2^63 exactly when the discounts wrapped to base - 2^63. */
  lemma UnitOverflowIff(base: int, picked: seq<EvaluatedPromo>)
    requires 0 <= base <= MAX
    ensures UnitAfterDiscount(base, picked) == MIN <==> base - Wrap(Total(picked)) == MAX + 1
  {
    hide Total;
    var t := Wrap(Total(picked));
    var x := base - if t > base then base else t;
    assert 0 <= x <= MAX - MIN;
    WrapsToMin(x);
  }

  lemma WrapsToMin(x: int)
    ensures Wrap(x) == MIN <==> (x - (MAX + 1)) % MODULUS == 0
    ensures 0 <= x < MODULUS ==> (Wrap(x) == MIN <==> x == MAX + 1)
  {
  }

  /** The unprintable amounts of a line: its unit price, subtotal, tax, or their wrapped sum. */
  lemma {:induction false} LineOverflow(store: Store, p: Pricing, line: RequestLine, item: Item, qty: int, base: int,
                                        c: Costing)
    requires 0 <= base <= MAX
    requires Candidates(p, p.promos, line, item, base, qty).Success?
    requires var picked := Picked(Candidates(p, p.promos, line, item, base, qty).value);
             WithTax(store, item, CostOf(qty, base, picked)) == Success(c)
    ensures AssembledLine(store, p, line, item, qty, base) ==
            if Unprintable(c) then Failure(StackOverflow) else Success(Rendered(line.item, qty, base, c))
    ensures |c.taxes| <= 1 && (|c.taxes| == 1 ==> c.taxes[0].taxCents == MultiplyCents(c.subtotal, c.taxes[0].ratePpm))
    ensures c.subtotal >= 0 ==> forall t :: t in c.taxes ==> 0 <= t.taxCents <= MAX
  {
    hide Candidates, Picked, MultiplyCents, UnitAfterDiscount, Rendered, Unprintable;
  }

  /** A line whose unit price is not negative is printed exactly when its subtotal and tax do not add up to 2^63. */
  lemma {:induction false} LineOverflowIff(store: Store, p: Pricing, line: RequestLine, item: Item, qty: int, base: int,
                                           c: Costing)
    requires 0 <= base <= MAX && 0 < qty <= MAX
    requires Candidates(p, p.promos, line, item, base, qty).Success?
    requires var picked := Picked(Candidates(p, p.promos, line, item, base, qty).value);
             UnitAfterDiscount(base, picked) >= 0 && WithTax(store, item, CostOf(qty, base, picked)) == Success(c)
    ensures AssembledLine(store, p, line, item, qty, base) ==
            if c.subtotal + TotalTax(c.taxes) == MAX + 1 then Failure(StackOverflow)
            else Success(Rendered(line.item, qty, base, c))
  {
    hide Candidates, Picked, ComputeTax, MultiplyCents, UnitAfterDiscount, Rendered, Wrap, TotalTax, AssembledLine;
    assert 0 <= c.unit <= MAX && 0 <= c.subtotal <= MAX;
    LineOverflow(store, p, line, item, qty, base, c);
    OneTax(c.taxes);
    WrapsToMin(c.subtotal + TotalTax(c.taxes));
  }

  /** The product's quotient, truncated toward zero, is -2^63. */
  predicate ReachesMin(cents: int, factor: int) {
    (MIN - 1) * 1_000_000 < cents * factor + 500_000 <= MIN * 1_000_000
  }

  lemma ProductOverflowIff(cents: int, factor: int)
    ensures MultiplyCents(cents, factor) == MIN <==> ReachesMin(cents, factor)
  {
  }

  lemma UnprintableIff(c: Costing, qty: int, base: int)
    requires 0 <= base <= MAX && c.unit == UnitAfterDiscount(base, c.picked) && c.subtotal == MultiplyCents(c.unit, qty)
    requires |c.taxes| <= 1 && (|c.taxes| == 1 ==> c.taxes[0].taxCents == MultiplyCents(c.subtotal, c.taxes[0].ratePpm))
    ensures Unprintable(c) <==>
            || base - Wrap(Total(c.picked)) == MAX + 1
            || ReachesMin(c.unit, qty)
            || (|c.taxes| == 1 && ReachesMin(c.subtotal, c.taxes[0].ratePpm))
            || (c.subtotal + TotalTax(c.taxes) - (MAX + 1)) % MODULUS == 0
  {
    hide MultiplyCents, UnitAfterDiscount, Wrap, TotalTax, Total, ReachesMin;
    UnitOverflowIff(base, c.picked);
    ProductOverflowIff(c.unit, qty);
    if |c.taxes| == 1 {
      ProductOverflowIff(c.subtotal, c.taxes[0].ratePpm);
    }
    WrapsToMin(c.subtotal + TotalTax(c.taxes));
  }

  /**
   Any line, also one whose discounts wrapped to a negative unit price, is printed exactly when the wrapped
   discounts are not base - 2^63, neither product reaches -2^63, and subtotal and tax do not add up to 2^63
   modulo 2^64.
   */
  lemma {:induction false} AnyLineOverflowIff(store: Store, p: Pricing, line: RequestLine, item: Item, qty: int,
                                              base: int, c: Costing)
    requires 0 <= base <= MAX
    requires Candidates(p, p.promos, line, item, base, qty).Success?
    requires var picked := Picked(Candidates(p, p.promos, line, item, base, qty).value);
             WithTax(store, item, CostOf(qty, base, picked)) == Success(c)
    ensures AssembledLine(store, p, line, item, qty, base) == Failure(StackOverflow) <==>
            || base - Wrap(Total(c.picked)) == MAX + 1
            || ReachesMin(c.unit, qty)
            || (|c.taxes| == 1 && ReachesMin(c.subtotal, c.taxes[0].ratePpm))
            || (c.subtotal + TotalTax(c.taxes) - (MAX + 1)) % MODULUS == 0
  {
    hide Candidates, Picked, MultiplyCents, UnitAfterDiscount, Rendered, Wrap, TotalTax, AssembledLine, Total,
      Unprintable, ReachesMin;
    LineOverflow(store, p, line, item, qty, base, c);
    UnprintableIff(c, qty, base);
  }

  /** A cart whose lines resolve is printed exactly when its line totals do not add up to 2^63 modulo 2^64. */
  lemma {:induction false} CartOverflowIff(store: Store, req: Request, p: Pricing)
    requires PricingFor(store, req) == Success(p) && ResolvedLines(store, p, req.lines).Success?
    ensures var (out, cart) := ResolvedLines(store, p, req.lines).value;
            && TotalsReadable(out)
            && Resolved(store, req) ==
               if (LineTotalSum(out) - (MAX + 1)) % MODULUS == 0 then Failure(StackOverflow)
               else Success(Response(out, FormatCents(cart)))
  {
    hide PricingFor, ResolvedLines, ParseScaled, LineTotalSum, FormatCents;
    ResolvedLinesFacts(store, p, req.lines);
    WrapsToMin(LineTotalSum(ResolvedLines(store, p, req.lines).value.0));
  }

  // ---- carts that get there ---------------------------------------------

  /** One item at the largest price, and a tax class at a rate of 100%. */
  function RichStore(taxClass: Option<string>): Store {
    Store(_ => Found(Item(None, taxClass, None)), _ => Found(FormatCents(MAX)), _ => Found(TaxClass(1, "full")),
          _ => Found(TaxRate("percentage", FormatRatePpm(1_000_000), None)), Found([]), _ => Found([]))
  }

  const TWO: RequestLine := RequestLine(1, FormatMicros(2_000_000))

  function CartOf(lines: seq<RequestLine>): Request {
    Request(1, 1, "", [], lines)
  }

  /** Two units at the largest price saturate the subtotal at 2^62, and so does the tax on it at 100%. */
  lemma {:induction false} RichLine(taxClass: Option<string>, p: Pricing)
    requires p.promos == [] && (taxClass.None? || taxClass.value != "")
    ensures var r := ResolvedLine(RichStore(taxClass), p, TWO);
            if taxClass.Some? then r == Failure(StackOverflow)
            else r.Success? && ParseMajorToCents(r.value.lineTotal) == Ok(SATURATED)
  {
    hide ParseScaled, FormatCents, FormatMicros, FormatRatePpm;
    var store := RichStore(taxClass);
    CentsRoundTrip(MAX);
    MicrosRoundTrip(2_000_000);
    RateRoundTrip(1_000_000);
    CentsRoundTrip(SATURATED);
    var item := Item(None, taxClass, None);
    assert LineInputs(store, TWO) == Success((2_000_000, item, MAX));
    assert Picked([]) == [];
    var c := CostOf(2_000_000, MAX, []);
    assert c.unit == MAX && c.subtotal == SATURATED;
    var taxes := ComputeTax(store, item, SATURATED).value;
    if taxClass.Some? {
      assert taxes == [ResolvedTax(1, "full", None, 1_000_000, SATURATED)];
      assert taxes[..0] == [];
    }
    LineOverflowIff(store, p, TWO, item, 2_000_000, MAX, c.(taxes := taxes));
  }

  /** A taxed line of two such units reaches 2^63. */
  lemma {:induction false} TaxedCartOverflows()
    ensures Resolved(RichStore(Some("full")), CartOf([TWO])) == Failure(StackOverflow)
  {
    hide ResolvedLine, ParseScaled, FormatCents, RichStore, Wrap;
    var p := Pricing([], map[], EvalContext("brick", []));
    RichPricing(Some("full"), [TWO]);
    RichLine(Some("full"), p);
    assert [TWO][..0] == [] && [TWO][..1] == [TWO];
    LinesStep(RichStore(Some("full")), p, [TWO], 0);
  }

  /** So do two untaxed lines together. */
  lemma {:induction false} UntaxedCartOverflows()
    ensures Resolved(RichStore(None), CartOf([TWO, TWO])) == Failure(StackOverflow)
  {
    hide ResolvedLine, ParseScaled, FormatCents, RichStore, Wrap;
    var store, p, lines := RichStore(None), Pricing([], map[], EvalContext("brick", [])), [TWO, TWO];
    RichPricing(None, lines);
    RichLine(None, p);
    assert lines[..0] == [] && lines[..1][..0] == [] && lines[..2] == lines;
    LinesStep(store, p, lines, 0);
    LinesStep(store, p, lines, 1);
    WrapsToMin(SATURATED + SATURATED);
  }

  lemma RichPricing(taxClass: Option<string>, lines: seq<RequestLine>)
    requires lines != []
    ensures PricingFor(RichStore(taxClass), CartOf(lines)) == Success(Pricing([], map[], EvalContext("brick", [])))
  {
    hide FormatCents, FormatRatePpm;
  }

  // ---- a price above the base price -------------------------------------

  function Promoted(id: Id): Promotion {
    Promotion(id, "", "", "item", [], [], true)
  }

  /** The largest percentage there is, on every item. */
  function PercentRule(): Rule {
    Rule("", None, None, None, "percent_off", Some(FormatRatePpm(MAX)), None, None)
  }

  /** Two stackable promotions with that rule, and one item of $10,000.00. */
  function PromotedStore(): Store {
    Store(_ => Found(Item(None, None, None)), _ => Found(FormatCents(1_000_000)), _ => NotFound, _ => NotFound,
          Found([Promoted(1), Promoted(2)]), _ => Found([PercentRule()]))
  }

  function PromotedPricing(): Pricing {
    Pricing([Promoted(1), Promoted(2)], map[1 := [PercentRule()], 2 := [PercentRule()]], EvalContext("brick", []))
  }

  const ONE: RequestLine := RequestLine(1, FormatMicros(1_000_000))

  lemma PromotedStorePricing()
    ensures PricingFor(PromotedStore(), CartOf([ONE])) == Success(PromotedPricing())
  {
    hide FormatCents, FormatMicros, FormatRatePpm;
    var promos, rules := [Promoted(1), Promoted(2)], [PercentRule()];
    assert promos[..1] == [Promoted(1)] && promos[..1][..0] == [];
    assert PromoRules(PromotedStore(), []) == Success(map[]);
    assert PromoRules(PromotedStore(), promos[..1]) == Success(map[1 := rules]);
    assert map[1 := rules][2 := rules] == map[1 := rules, 2 := rules];
  }

  lemma {:induction false} BothPromotionsApply(id: Id, item: Item, qty: int)
    requires id in {1, 2}
    ensures Evaluate(PromotedPricing(), Promoted(id), ONE, item, 1_000_000, qty) == Applies(MAX, "percent_off")
  {
    hide FormatRatePpm, FormatMicros, ParseScaled;
    RateRoundTrip(MAX);
    assert PercentRule() in [PercentRule()];
    assert Unrestricted(PercentRule().itemIds);
  }

  lemma {:induction false} PromotedCandidates(item: Item, qty: int)
    ensures Candidates(PromotedPricing(), PromotedPricing().promos, ONE, item, 1_000_000, qty) ==
            Success([EvaluatedPromo(Promoted(1), MAX, "percent_off"), EvaluatedPromo(Promoted(2), MAX, "percent_off")])
  {
    hide Evaluate, PercentRule, FormatMicros;
    var p := PromotedPricing();
    BothPromotionsApply(1, item, qty);
    BothPromotionsApply(2, item, qty);
    assert p.promos[..0] == [] && p.promos[..2] == p.promos;
    CandidatesStep(p, 0, ONE, item, 1_000_000, qty);
    CandidatesStep(p, 1, ONE, item, 1_000_000, qty);
    var e1, e2 := EvaluatedPromo(Promoted(1), MAX, "percent_off"), EvaluatedPromo(Promoted(2), MAX, "percent_off");
    assert [] + [e1] == [e1] && [e1] + [e2] == [e1, e2];
  }

  lemma {:induction false} PromotedLine() returns (l: ResponseLine)
    ensures ResolvedLine(PromotedStore(), PromotedPricing(), ONE) == Success(l)
    ensures l.basePrice == FormatCents(1_000_000) && l.unitPriceAfterDiscount == FormatCents(1_000_002)
    ensures l.lineTotal == FormatCents(1_000_002)
  {
    hide ParseScaled, FormatCents, FormatMicros, FormatRatePpm, Candidates, Picked, PromotedPricing, Applied;
    var store, p, item := PromotedStore(), PromotedPricing(), Item(None, None, None);
    CentsRoundTrip(1_000_000);
    MicrosRoundTrip(1_000_000);
    assert LineInputs(store, ONE) == Success((1_000_000, item, 1_000_000));
    PromotedCandidates(item, 1_000_000);
    var candidates := Candidates(p, p.promos, ONE, item, 1_000_000, 1_000_000).value;
    DiscountsCanRaiseThePrice(PercentRule(), candidates[0], candidates[1]);
    assert candidates == [candidates[0], candidates[1]];
    var c := CostOf(1_000_000, 1_000_000, Picked(candidates));
    assert c.unit == 1_000_002 && c.subtotal == 1_000_002;
    LineOverflowIff(store, p, ONE, item, 1_000_000, 1_000_000, c);
    l := Rendered(1, 1_000_000, 1_000_000, c);
  }

  /** Two promotions of one request raise the resolved price of a $10,000.00 item to $10,000.02. */
  lemma {:induction false} ResolvedPriceAboveBase() returns (resp: Response)
    ensures Resolved(PromotedStore(), CartOf([ONE])) == Success(resp) && |resp.lines| == 1
    ensures ParseMajorToCents(resp.lines[0].basePrice) == Ok(1_000_000)
    ensures ParseMajorToCents(resp.lines[0].unitPriceAfterDiscount) == Ok(1_000_002)
    ensures ParseMajorToCents(resp.cartTotal) == Ok(1_000_002)
  {
    hide ResolvedLine, ParseScaled, FormatCents, FormatMicros, PromotedStore, PromotedPricing;
    PromotedStorePricing();
    var l := PromotedLine();
    CentsRoundTrip(1_000_000);
    CentsRoundTrip(1_000_002);
    assert [ONE][..0] == [] && [ONE][..1] == [ONE];
    LinesStep(PromotedStore(), PromotedPricing(), [ONE], 0);
    assert [] + [l] == [l];
    assert ResolvedLines(PromotedStore(), PromotedPricing(), [ONE]) == Success(([l], 1_000_002));
    resp := Response([l], FormatCents(1_000_002));
  }
}
