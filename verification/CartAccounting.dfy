/** What a resolved cart's printed amounts add up to. */
module CartAccounting {
  import opened Int64
  import opened Money
  import opened Wrappers
  import opened Promotions
  import opened Resolver

  // ---- the unit price ---------------------------------------------------

  function Min(a: int, b: int): int {
    if a <= b then a else b
  }

  /**
   The discounts are summed in an int64. The unit price lies in [0, base] exactly when that sum
   does not wrap to a negative number, and it is base less the clamped discount exactly when the
   sum did not wrap or wrapped to something the clamp hides.
   */
  lemma UnitPriceRange(base: int, picked: seq<EvaluatedPromo>)
    requires 0 <= base <= MAX && Total(picked) >= 0
    ensures 0 <= UnitAfterDiscount(base, picked) <= base <==> Wrap(Total(picked)) >= 0
    ensures base - UnitAfterDiscount(base, picked) == Min(base, Total(picked)) <==>
            Fits(Total(picked)) || Wrap(Total(picked)) >= base
  {
    var t := Wrap(Total(picked));
    if t < 0 && !Fits(base - t) {
      assert Wrap(base - t) == base - t - MODULUS;
    }
  }

  /** One selection's unit price is no higher than another's, and both lie in [0, base], exactly when this holds. */
  predicate NoDearerTotals(base: int, a: int, b: int) {
    0 <= Wrap(a) && Min(base, Wrap(a)) <= Wrap(b)
  }

  lemma NoDearerUnitIff(base: int, a: seq<EvaluatedPromo>, b: seq<EvaluatedPromo>)
    requires 0 <= base <= MAX && Total(a) >= 0 && Total(b) >= 0
    ensures 0 <= UnitAfterDiscount(base, b) <= UnitAfterDiscount(base, a) <= base <==>
            NoDearerTotals(base, Total(a), Total(b))
  {
    hide Total, Wrap;
    UnitPriceRange(base, a);
    UnitPriceRange(base, b);
  }

  /**
   The unit price does not depend on the order of the candidates. Another candidate keeps it in range
   and does not raise it exactly when the wrapped sums allow, which they do while the larger selection's
   discounts sum to an int64.
   */
  lemma UnitPriceFromCandidates(base: int, a: seq<EvaluatedPromo>, b: seq<EvaluatedPromo>)
    requires 0 <= base <= MAX && multiset(a) <= multiset(b) && NoNegativeDiscount(b)
    ensures multiset(a) == multiset(b) ==> UnitAfterDiscount(base, Picked(a)) == UnitAfterDiscount(base, Picked(b))
    ensures 0 <= UnitAfterDiscount(base, Picked(b)) <= UnitAfterDiscount(base, Picked(a)) <= base <==>
            NoDearerTotals(base, Total(Picked(a)), Total(Picked(b)))
    ensures Total(Picked(b)) <= MAX ==> NoDearerTotals(base, Total(Picked(a)), Total(Picked(b)))
  {
    hide Picked, Total;
    MoreCandidatesMoreDiscount(a, b);
    NoDearerUnitIff(base, Picked(a), Picked(b));
    if multiset(a) == multiset(b) {
      OrderDoesNotMatter(a, b);
    }
  }

  /** Two stackable percent promotions on a $10,000.00 item can raise its price. */
  lemma {:induction false} DiscountsCanRaiseThePrice(rule: Rule, c: EvaluatedPromo, d: EvaluatedPromo)
    requires c.promo.stackable && d.promo.stackable && c.discount == d.discount == MAX
    requires rule == Rule("", None, None, None, "percent_off", Some(FormatRatePpm(MAX)), None, None)
    ensures Benefit(rule, 1_000_000) == Applies(MAX, "percent_off")
    ensures UnitAfterDiscount(1_000_000, Picked([c, d])) == 1_000_002
  {
    hide ParseScaled, FormatRatePpm, Picked;
    RateRoundTrip(MAX);
    PickedTotal([c, d]);
    TwoStackables(c, d);
  }

  lemma TwoStackables(c: EvaluatedPromo, d: EvaluatedPromo)
    requires c.promo.stackable && d.promo.stackable
    ensures Total(Stackables([c, d])) == c.discount + d.discount && BestDiscount([c, d]) == 0
  {
    assert [c, d][..1] == [c] && [c][..0] == [];
    assert Stackables([c]) == [c];
    assert Stackables([c, d]) == [c] + [d];
    TotalsConcat([c], [d]);
    TotalsSingle(c);
    TotalsSingle(d);
    assert BestNonStackable([c]).None?;
  }

  // ---- amounts as a reader of the response sees them ---------------------

  ghost function Cents(s: string): int
    requires ParseMajorToCents(s).Ok?
  {
    ParseMajorToCents(s).amount
  }

  ghost predicate DiscountsReadable(a: seq<AppliedPromotion>) {
    forall i :: 0 <= i < |a| ==> ParseMajorToCents(a[i].discountAmount).Ok?
  }

  ghost function DiscountSum(a: seq<AppliedPromotion>): int
    requires DiscountsReadable(a)
  {
    if a == [] then 0 else DiscountSum(a[..|a| - 1]) + Cents(a[|a| - 1].discountAmount)
  }

  ghost predicate TaxesReadable(t: seq<TaxLine>) {
    forall i :: 0 <= i < |t| ==> ParseMajorToCents(t[i].taxAmount).Ok? && ParseRateToPpm(t[i].rate).Ok?
  }

  ghost function TaxSum(t: seq<TaxLine>): int
    requires TaxesReadable(t)
  {
    if t == [] then 0 else TaxSum(t[..|t| - 1]) + Cents(t[|t| - 1].taxAmount)
  }

  ghost predicate Readable(l: ResponseLine) {
    && ParseMajorToCents(l.basePrice).Ok? && ParseMajorToCents(l.unitPriceAfterDiscount).Ok?
    && ParseMajorToCents(l.lineSubtotal).Ok? && ParseMajorToCents(l.lineTotal).Ok?
    && ParseQuantityToMicros(l.quantity).Ok?
    && DiscountsReadable(l.appliedPromotions) && TaxesReadable(l.taxLines)
  }

  /** The printed breakdown of a line adds up. */
  ghost predicate Conserved(l: ResponseLine)
    requires Readable(l)
  {
    && Cents(l.basePrice) - Cents(l.unitPriceAfterDiscount)
       == Min(Cents(l.basePrice), DiscountSum(l.appliedPromotions))
    && Cents(l.lineTotal) == Cents(l.lineSubtotal) + TaxSum(l.taxLines)
  }

  ghost function Micros(l: ResponseLine): int
    requires Readable(l)
  {
    ParseQuantityToMicros(l.quantity).amount
  }

  /** The printed tax rate in ppm; 0 for an untaxed line. */
  ghost function RatePpm(l: ResponseLine): int
    requires Readable(l)
  {
    if l.taxLines == [] then 0 else ParseRateToPpm(l.taxLines[0].rate).amount
  }

  /** Subtotal and tax are the rounded products of the other printed numbers. */
  ghost predicate Recomputes(l: ResponseLine)
    requires Readable(l)
  {
    && |l.taxLines| <= 1
    && Cents(l.lineSubtotal) == MultiplyCents(Cents(l.unitPriceAfterDiscount), Micros(l))
    && (|l.taxLines| == 1 ==> Cents(l.taxLines[0].taxAmount) == MultiplyCents(Cents(l.lineSubtotal), RatePpm(l)))
  }

  // ---- one line ---------------------------------------------------------

  lemma {:induction false} AppliedReadable(picked: seq<EvaluatedPromo>)
    requires forall x :: x in picked ==> 0 <= x.discount <= MAX
    ensures DiscountsReadable(Applied(picked)) && DiscountSum(Applied(picked)) == Total(picked)
  {
    hide FormatCents, ParseScaled;
    if picked != [] {
      var init, x := picked[..|picked| - 1], picked[|picked| - 1];
      AppliedReadable(init);
      CentsRoundTrip(x.discount);
      var a := Applied(picked);
      assert a[..|a| - 1] == Applied(init);
      assert forall i :: 0 <= i < |a| - 1 ==> a[i] == Applied(init)[i];
    }
  }

  lemma {:induction false} TaxesReadableOnce(taxes: seq<ResolvedTax>)
    requires |taxes| <= 1
    requires forall t :: t in taxes ==> 0 <= t.taxCents <= MAX && 0 <= t.ratePpm <= MAX
    ensures TaxesReadable(TaxLines(taxes)) && TaxSum(TaxLines(taxes)) == TotalTax(taxes)
    ensures |taxes| == 1 ==> && ParseRateToPpm(TaxLines(taxes)[0].rate) == Ok(taxes[0].ratePpm)
                             && ParseMajorToCents(TaxLines(taxes)[0].taxAmount) == Ok(taxes[0].taxCents)
  {
    hide FormatCents, FormatRatePpm, ParseScaled;
    if |taxes| == 1 {
      var t := taxes[0];
      CentsRoundTrip(t.taxCents);
      RateRoundTrip(t.ratePpm);
      assert taxes[..0] == [];
      assert TaxLines(taxes)[..0] == [];
    }
  }

  lemma PickedSubset(c: seq<EvaluatedPromo>)
    ensures forall x :: x in Picked(c) ==> x in c
  {
    PickedIsAdmissible(c);
    forall x | x in Picked(c)
      ensures x in c
    {
      assert x in multiset(Picked(c)) && x in multiset(c);
    }
  }

  lemma {:induction false} TotalNonNegative(sel: seq<EvaluatedPromo>)
    requires forall x :: x in sel ==> 0 <= x.discount
    ensures Total(sel) >= 0
  {
    if sel != [] {
      TotalNonNegative(sel[..|sel| - 1]);
    }
  }

  /** The selection and the taxes behind an assembled line. */
  lemma {:induction false} LineParts(store: Store, p: Pricing, line: RequestLine, item: Item, qty: int, base: int,
                                     l: ResponseLine)
    returns (c: Costing)
    requires 0 <= base <= MAX && 0 < qty <= MAX
    requires AssembledLine(store, p, line, item, qty, base) == Success(l)
    ensures Candidates(p, p.promos, line, item, base, qty).Success?
    ensures c.picked == Picked(Candidates(p, p.promos, line, item, base, qty).value)
    ensures forall x :: x in c.picked ==> 0 <= x.discount <= MAX
    ensures c.unit == UnitAfterDiscount(base, c.picked) && c.subtotal == MultiplyCents(c.unit, qty)
    ensures ComputeTax(store, item, c.subtotal) == Success(c.taxes)
    ensures !Unprintable(c) && l == Rendered(line.item, qty, base, c)
  {
    hide Picked, Candidates, ComputeTax, MultiplyCents, UnitAfterDiscount, Rendered, Unprintable;
    var candidates := Candidates(p, p.promos, line, item, base, qty).value;
    PickedSubset(candidates);
    c := WithTax(store, item, CostOf(qty, base, Picked(candidates))).value;
  }

  lemma {:induction false} RenderedPrices(item: Id, qty: int, base: int, c: Costing, l: ResponseLine)
    requires l == Rendered(item, qty, base, c)
    requires 0 <= base <= MAX && 0 < qty <= MAX && 0 <= c.unit <= MAX && 0 <= c.subtotal <= MAX
    ensures ParseMajorToCents(l.basePrice) == Ok(base)
    ensures ParseMajorToCents(l.unitPriceAfterDiscount) == Ok(c.unit)
    ensures ParseMajorToCents(l.lineSubtotal) == Ok(c.subtotal)
    ensures ParseQuantityToMicros(l.quantity) == Ok(qty)
  {
    hide FormatCents, FormatMicros, ParseScaled;
    CentsRoundTrip(base);
    CentsRoundTrip(c.unit);
    CentsRoundTrip(c.subtotal);
    MicrosRoundTrip(qty);
  }

  /** A unit price below zero is printed, and cannot be read back. */
  lemma {:induction false} RenderedUnit(item: Id, qty: int, base: int, c: Costing, l: ResponseLine)
    requires l == Rendered(item, qty, base, c) && 0 <= base <= MAX && Fits(c.unit) && !Unprintable(c)
    ensures ParseMajorToCents(l.basePrice) == Ok(base)
    ensures ParseMajorToCents(l.unitPriceAfterDiscount) == if c.unit >= 0 then Ok(c.unit) else Err(Negative)
  {
    hide FormatCents, FormatMicros, ParseScaled;
    CentsRoundTrip(base);
    CentsRoundTrip(c.unit);
  }

  lemma {:induction false} RenderedTotal(item: Id, qty: int, base: int, c: Costing, l: ResponseLine)
    requires l == Rendered(item, qty, base, c)
    requires 0 <= c.subtotal <= MAX && 0 <= TotalTax(c.taxes) <= MAX
    requires !Unprintable(c)
    ensures ParseMajorToCents(l.lineTotal) ==
            if c.subtotal + TotalTax(c.taxes) <= MAX then Ok(c.subtotal + TotalTax(c.taxes)) else Err(Negative)
  {
    hide FormatCents, ParseScaled;
    CentsRoundTrip(Wrap(c.subtotal + TotalTax(c.taxes)));
    WrapNegative(c.subtotal + TotalTax(c.taxes));
  }

  /** What can be read back from a line: its discounts always, all of it when they sum to an int64. */
  lemma {:induction false} LineFacts(store: Store, p: Pricing, line: RequestLine, item: Item, qty: int, base: int,
                                     l: ResponseLine)
    returns (picked: seq<EvaluatedPromo>)
    requires 0 <= base <= MAX && 0 < qty <= MAX
    requires AssembledLine(store, p, line, item, qty, base) == Success(l)
    ensures Candidates(p, p.promos, line, item, base, qty).Success?
    ensures picked == Picked(Candidates(p, p.promos, line, item, base, qty).value)
    ensures DiscountsReadable(l.appliedPromotions) && DiscountSum(l.appliedPromotions) == Total(picked) >= 0
    ensures Total(picked) <= MAX && ParseMajorToCents(l.lineTotal).Ok? ==>
              Readable(l) && Conserved(l) && Recomputes(l)
    ensures ParseMajorToCents(l.basePrice) == Ok(base)
    ensures var unit := UnitAfterDiscount(base, picked);
            ParseMajorToCents(l.unitPriceAfterDiscount) == if unit >= 0 then Ok(unit) else Err(Negative)
  {
    hide FormatCents, FormatRatePpm, FormatMicros, ParseMajorToCents, ParseQuantityToMicros, ParseRateToPpm,
      Picked, Candidates, ComputeTax, MultiplyCents, UnitAfterDiscount, AssembledLine, Readable, Conserved, Recomputes;
    var c := LineParts(store, p, line, item, qty, base, l);
    picked := c.picked;
    AppliedReadable(picked);
    TotalNonNegative(picked);
    RenderedUnit(line.item, qty, base, c, l);
    if Total(picked) <= MAX {
      UnitPriceRange(base, picked);
      RenderedPrices(line.item, qty, base, c, l);
      if ParseMajorToCents(l.lineTotal).Ok? {
        TaxedLine(store, line.item, item, qty, base, c, l);
      }
    }
  }

  /** A line rendered from its unit price, rounded subtotal and tax adds up when it can be read. */
  lemma {:induction false} TaxedLine(store: Store, id: Id, item: Item, qty: int, base: int, c: Costing, l: ResponseLine)
    requires 0 <= base <= MAX && 0 < qty <= MAX && 0 <= c.unit <= MAX && 0 <= c.subtotal <= MAX
    requires forall x :: x in c.picked ==> 0 <= x.discount <= MAX
    requires base - c.unit == Min(base, Total(c.picked)) && c.subtotal == MultiplyCents(c.unit, qty)
    requires ComputeTax(store, item, c.subtotal) == Success(c.taxes)
    requires !Unprintable(c) && l == Rendered(id, qty, base, c)
    requires ParseMajorToCents(l.lineTotal).Ok?
    ensures Readable(l) && Conserved(l) && Recomputes(l)
  {
    hide FormatCents, FormatRatePpm, FormatMicros, ParseMajorToCents, ParseQuantityToMicros, ParseRateToPpm,
      ComputeTax, MultiplyCents, Applied, TaxLines, Total, TotalTax, DiscountSum, TaxSum, Unprintable, Wrap;
    AppliedReadable(c.picked);
    RenderedPrices(id, qty, base, c, l);
    TaxesReadableOnce(c.taxes);
    OneTax(c.taxes);
    RenderedTotal(id, qty, base, c, l);
  }

  lemma OneTax(taxes: seq<ResolvedTax>)
    requires |taxes| <= 1 && forall t :: t in taxes ==> 0 <= t.taxCents <= MAX
    ensures 0 <= TotalTax(taxes) <= MAX
  {
    if |taxes| == 1 {
      assert taxes[..0] == [];
      assert TotalTax(taxes) == taxes[0].taxCents;
    }
  }

  /** A sum of two amounts that does not fit an int64 is printed with a minus sign. */
  lemma WrapNegative(x: int)
    requires 0 <= x <= 2 * MAX
    ensures Wrap(x) == x || Wrap(x) < 0
  {
  }

  // ---- the cart ---------------------------------------------------------

  ghost predicate TotalsReadable(lines: seq<ResponseLine>) {
    forall i :: 0 <= i < |lines| ==> ParseMajorToCents(lines[i].lineTotal).Ok?
  }

  ghost function LineTotalSum(lines: seq<ResponseLine>): int
    requires TotalsReadable(lines)
  {
    if lines == [] then 0 else LineTotalSum(lines[..|lines| - 1]) + Cents(lines[|lines| - 1].lineTotal)
  }

  /** A line whose printed discounts sum to an int64 adds up. */
  ghost predicate AddsUp(l: ResponseLine) {
    && DiscountsReadable(l.appliedPromotions)
    && (DiscountSum(l.appliedPromotions) <= MAX ==> Readable(l) && Conserved(l) && Recomputes(l))
  }

  lemma {:induction false} ResolvedLinesFacts(store: Store, p: Pricing, lines: seq<RequestLine>)
    requires ResolvedLines(store, p, lines).Success?
    ensures var (out, cart) := ResolvedLines(store, p, lines).value;
            && TotalsReadable(out)
            && cart == Wrap(LineTotalSum(out))
            && LineTotalSum(out) >= 0
            && forall i :: 0 <= i < |out| ==> AddsUp(out[i])
  {
    hide AssembledLine, LineInputs, ParseScaled, Wrap, Readable, Conserved, Recomputes, Picked, Candidates, Total;
    if lines != [] {
      var init := lines[..|lines| - 1];
      ResolvedLinesFacts(store, p, init);
      var (initOut, initCart) := ResolvedLines(store, p, init).value;
      var (out, cart) := ResolvedLines(store, p, lines).value;
      var line := lines[|lines| - 1];
      var l := ResolvedLine(store, p, line).value;
      assert out == initOut + [l];
      assert out[..|out| - 1] == initOut;
      assert forall i :: 0 <= i < |initOut| ==> out[i] == initOut[i];
      var (qty, item, base) := LineInputs(store, line).value;
      var picked := LineFacts(store, p, line, item, qty, base, l);
      WrapAdd(LineTotalSum(initOut), Cents(l.lineTotal));
    }
  }

  /**
   Accounting on the printed text of every successful resolve: each line whose discounts sum to an
   int64 adds up, and the cart total reads as the sum of the line totals exactly when that sum is an int64.
   */
  lemma {:induction false} CartConservation(store: Store, req: Request, resp: Response)
    requires Resolved(store, req) == Success(resp)
    ensures |resp.lines| == |req.lines| && TotalsReadable(resp.lines)
    ensures forall i :: 0 <= i < |resp.lines| ==> AddsUp(resp.lines[i])
    ensures ParseMajorToCents(resp.cartTotal) == Ok(LineTotalSum(resp.lines)) <==> LineTotalSum(resp.lines) <= MAX
  {
    hide ParseScaled, FormatCents, ResolvedLines, PricingFor, AddsUp;
    var p := PricingFor(store, req).value;
    ResolvedLinesFacts(store, p, req.lines);
    CentsRoundTrip(ResolvedLines(store, p, req.lines).value.1);
  }

  // ---- rounding ---------------------------------------------------------

  const PPM: int := 1_000_000
  const TRILLION: int := 1_000_000_000_000

  /** unit * quantity * (1 + rate), in cents scaled by 10^12. */
  ghost function ExactLine(l: ResponseLine): int
    requires Readable(l)
  {
    Cents(l.unitPriceAfterDiscount) * Micros(l) * (PPM + RatePpm(l))
  }

  /** 1 + rate / 2 cents, scaled by 10^12. */
  ghost function Slack(l: ResponseLine): int
    requires Readable(l)
  {
    TRILLION + 500_000 * RatePpm(l)
  }

  ghost predicate BelowSaturation(l: ResponseLine)
    requires Readable(l)
  {
    && Unsaturated(Cents(l.unitPriceAfterDiscount), Micros(l))
    && Unsaturated(Cents(l.lineSubtotal), RatePpm(l))
  }

  lemma RoundingArithmetic(uq: int, p: nat, sub: int, tax: int)
    requires -500_000 <= sub * PPM - uq <= 500_000
    requires -500_000 <= tax * PPM - sub * p <= 500_000
    ensures -(TRILLION + 500_000 * p) <= TRILLION * (sub + tax) - uq * (PPM + p) <= TRILLION + 500_000 * p
  {
    var e1, e2 := sub * PPM - uq, tax * PPM - sub * p;
    assert TRILLION * (sub + tax) - uq * (PPM + p) == PPM * e1 + PPM * e2 + e1 * p by {
      assert e1 * p == PPM * (sub * p) - uq * p;
      assert uq * (PPM + p) == uq * PPM + uq * p;
    }
    ScaledError(e1, p);
  }

  lemma ScaledError(e: int, p: nat)
    requires -500_000 <= e <= 500_000
    ensures -(500_000 * p) <= e * p <= 500_000 * p
  {
    assert (e + 500_000) * p >= 0 && (500_000 - e) * p >= 0;
  }

  lemma {:induction false} LineRounding(l: ResponseLine)
    requires Readable(l) && Conserved(l) && Recomputes(l) && BelowSaturation(l)
    ensures -Slack(l) <= TRILLION * Cents(l.lineTotal) - ExactLine(l) <= Slack(l)
  {
    hide ParseScaled, MultiplyCents;
    var u, q, p, sub := Cents(l.unitPriceAfterDiscount), Micros(l), RatePpm(l), Cents(l.lineSubtotal);
    MultiplyIsNearest(u, q);
    MultiplyIsNearest(sub, p);
    if l.taxLines == [] {
      RoundingArithmetic(u * q, 0, sub, 0);
    } else {
      assert l.taxLines[..0] == [];
      assert TaxSum(l.taxLines) == Cents(l.taxLines[0].taxAmount);
      RoundingArithmetic(u * q, p, sub, Cents(l.taxLines[0].taxAmount));
    }
  }

  ghost predicate Exactable(lines: seq<ResponseLine>) {
    forall i :: 0 <= i < |lines| ==>
      && Readable(lines[i]) && BelowSaturation(lines[i])
      && DiscountSum(lines[i].appliedPromotions) <= MAX
  }

  ghost function ExactCart(lines: seq<ResponseLine>): int
    requires Exactable(lines)
  {
    if lines == [] then 0 else ExactCart(lines[..|lines| - 1]) + ExactLine(lines[|lines| - 1])
  }

  ghost function CartSlack(lines: seq<ResponseLine>): int
    requires Exactable(lines)
  {
    if lines == [] then 0 else CartSlack(lines[..|lines| - 1]) + Slack(lines[|lines| - 1])
  }

  lemma {:induction false} LinesRounding(lines: seq<ResponseLine>)
    requires Exactable(lines) && TotalsReadable(lines)
    requires forall i :: 0 <= i < |lines| ==> AddsUp(lines[i])
    ensures -CartSlack(lines) <= TRILLION * LineTotalSum(lines) - ExactCart(lines) <= CartSlack(lines)
  {
    hide ParseScaled, Slack, ExactLine, BelowSaturation, Recomputes, Conserved;
    if lines != [] {
      LinesRounding(lines[..|lines| - 1]);
      LineRounding(lines[|lines| - 1]);
    }
  }

  /**
   The printed cart total differs from the exact sum of unit price * quantity * (1 + rate) by at
   most 1 + rate/2 cents per line, for every cart below saturation whose total is an int64.
   */
  lemma {:induction false} CartWithinRounding(store: Store, req: Request, resp: Response)
    requires Resolved(store, req) == Success(resp)
    requires Exactable(resp.lines)
    requires TotalsReadable(resp.lines) && LineTotalSum(resp.lines) <= MAX
    ensures ParseMajorToCents(resp.cartTotal).Ok?
    ensures -CartSlack(resp.lines)
            <= TRILLION * Cents(resp.cartTotal) - ExactCart(resp.lines)
            <= CartSlack(resp.lines)
  {
    hide ParseScaled, Resolved, AddsUp, Exactable;
    CartConservation(store, req, resp);
    LinesRounding(resp.lines);
  }

  // ---- buying more ------------------------------------------------------

  lemma TriggersMonotone(rules: seq<Rule>, q1: int, q2: int)
    requires q1 <= q2 && TriggersMet(rules, q1)
    ensures TriggersMet(rules, q2)
  {
  }

  /** A larger quantity keeps every candidate, with the same discount. */
  lemma {:induction false} CandidatesGrow(p: Pricing, promos: seq<Promotion>, line1: RequestLine, line2: RequestLine,
                                          item: Item, base: int, q1: int, q2: int)
    requires 0 <= base <= MAX && q1 <= q2 && line1.item == line2.item
    requires Candidates(p, promos, line1, item, base, q1).Success?
    requires Candidates(p, promos, line2, item, base, q2).Success?
    ensures multiset(Candidates(p, promos, line1, item, base, q1).value)
         <= multiset(Candidates(p, promos, line2, item, base, q2).value)
  {
    hide Targeted, TriggersMet, Benefit;
    if promos != [] {
      var init, last := promos[..|promos| - 1], promos[|promos| - 1];
      CandidatesGrow(p, init, line1, line2, item, base, q1, q2);
      var rules := RulesOf(p, last);
      if TriggersMet(rules, q1) {
        TriggersMonotone(rules, q1, q2);
      }
    }
  }

  ghost predicate NoDearer(l1: ResponseLine, l2: ResponseLine) {
    && ParseMajorToCents(l1.unitPriceAfterDiscount).Ok? && ParseMajorToCents(l2.unitPriceAfterDiscount).Ok?
    && ParseMajorToCents(l1.basePrice).Ok? && ParseMajorToCents(l2.basePrice).Ok?
    && Cents(l1.basePrice) == Cents(l2.basePrice)
    && 0 <= Cents(l2.unitPriceAfterDiscount) <= Cents(l1.unitPriceAfterDiscount) <= Cents(l1.basePrice)
  }

  /**
   Buying more of an item never raises its printed unit price, exactly when the discounts of the two
   lines allow, which they do while those of the larger quantity sum to an int64.
   */
  lemma {:induction false} BuyingMoreNeverRaisesThePrice(store: Store, p: Pricing,
                                                         line1: RequestLine, line2: RequestLine, q1: int, q2: int,
                                                         l1: ResponseLine, l2: ResponseLine)
    requires line1.item == line2.item && q1 <= q2
    requires ParseQuantityToMicros(line1.quantity) == Ok(q1) && ParseQuantityToMicros(line2.quantity) == Ok(q2)
    requires ResolvedLine(store, p, line1) == Success(l1) && ResolvedLine(store, p, line2) == Success(l2)
    ensures DiscountsReadable(l1.appliedPromotions) && DiscountsReadable(l2.appliedPromotions)
    ensures ParseMajorToCents(l1.basePrice).Ok?
    ensures var base := Cents(l1.basePrice);
            var d1, d2 := DiscountSum(l1.appliedPromotions), DiscountSum(l2.appliedPromotions);
            && (NoDearer(l1, l2) <==> NoDearerTotals(base, d1, d2))
            && (d2 <= MAX ==> NoDearer(l1, l2))
  {
    hide ParseMajorToCents, ParseQuantityToMicros, AssembledLine, Candidates, Picked, UnitAfterDiscount, Total, Wrap;
    var (_, item, base) := LineInputs(store, line1).value;
    var picked1 := LineFacts(store, p, line1, item, q1, base, l1);
    var picked2 := LineFacts(store, p, line2, item, q2, base, l2);
    CandidatesGrow(p, p.promos, line1, line2, item, base, q1, q2);
    var c1 := Candidates(p, p.promos, line1, item, base, q1).value;
    var c2 := Candidates(p, p.promos, line2, item, base, q2).value;
    MoreCandidatesMoreDiscount(c1, c2);
    NoDearerUnitIff(base, picked1, picked2);
  }
}
