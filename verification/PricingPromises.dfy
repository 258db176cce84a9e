/**
 What a resolved cart owes to the store and the request: where each line's price and tax come from
 (internal/pricing/resolver.go, tax.go), when a promotion applies and what it makes of the price
 (internal/pricing/promotions.go).
 */
module PricingPromises {
  import opened Int64
  import opened Money
  import opened Wrappers
  import opened Promotions
  import opened Resolver
  import opened CartAccounting

  // ---- the base price ---------------------------------------------------

  /** The price row decides; the catalog default only when there is no row; a failing store never prices. */
  ghost predicate PricedFromStore(store: Store, id: Id, basePrice: string) {
    match store.getItemPrice(id)
    case Found(amount) => ParseMajorToCents(amount).Ok? && ParseMajorToCents(basePrice) == ParseMajorToCents(amount)
    case Unavailable => false
    case NotFound =>
      && store.getItem(id).Found? && store.getItem(id).value.defaultPrice.Some?
      && ParseMajorToCents(store.getItem(id).value.defaultPrice.value).Ok?
      && ParseMajorToCents(basePrice) == ParseMajorToCents(store.getItem(id).value.defaultPrice.value)
  }

  /** The line is about the requested item and quantity, which are there and positive. */
  ghost predicate AsRequested(line: RequestLine, l: ResponseLine) {
    && line.item != 0 && l.item == line.item
    && ParseQuantityToMicros(line.quantity).Ok? && ParseQuantityToMicros(line.quantity).amount > 0
    && ParseQuantityToMicros(l.quantity) == ParseQuantityToMicros(line.quantity)
  }

  lemma {:induction false} LineSource(store: Store, p: Pricing, line: RequestLine, l: ResponseLine)
    requires ResolvedLine(store, p, line) == Success(l)
    ensures store.getItem(line.item).Found? && AsRequested(line, l) && PricedFromStore(store, line.item, l.basePrice)
  {
    hide ParseScaled, Candidates, ComputeTax, Picked, UnitAfterDiscount, MultiplyCents, Unprintable, FormatCents,
      FormatMicros, Applied, TaxLines, Wrap;
    var (qty, item, base) := LineInputs(store, line).value;
    CentsRoundTrip(base);
    MicrosRoundTrip(qty);
  }

  /** The lines of a resolved cart are its resolved lines, in order. */
  lemma {:induction false} LinesInOrder(store: Store, p: Pricing, lines: seq<RequestLine>, i: nat)
    requires ResolvedLines(store, p, lines).Success? && i < |lines|
    ensures ResolvedLine(store, p, lines[i]) == Success(ResolvedLines(store, p, lines).value.0[i])
  {
    hide ResolvedLine, ParseMajorToCents, Wrap;
    if i < |lines| - 1 {
      LinesInOrder(store, p, lines[..|lines| - 1], i);
    }
  }

  /** In every resolved cart each line answers its request line, at the price the store gives. */
  lemma {:induction false} PricesComeFromTheStore(store: Store, req: Request, resp: Response, i: nat)
    requires Resolved(store, req) == Success(resp) && i < |req.lines|
    ensures req.tenant != 0 && req.location != 0 && |resp.lines| == |req.lines|
    ensures AsRequested(req.lines[i], resp.lines[i])
    ensures PricedFromStore(store, req.lines[i].item, resp.lines[i].basePrice)
  {
    hide ResolvedLine, ResolvedLines, ParseMajorToCents, ParseQuantityToMicros, FormatCents;
    var p := PricingFor(store, req).value;
    LinesInOrder(store, p, req.lines, i);
    LineSource(store, p, req.lines[i], resp.lines[i]);
  }

  /** The errors of a line that name no store failure or amount, and exactly when each is reported. */
  lemma {:induction false} LineErrorsIff(store: Store, p: Pricing, line: RequestLine)
    ensures var r, qty := ResolvedLine(store, p, line), ParseQuantityToMicros(line.quantity);
            && (r == Failure(InvalidRequest) <==> line.item == 0)
            && (r == Failure(ZeroQuantity) <==> line.item != 0 && qty == Ok(0))
            && (r == Failure(NoPrice) <==>
                  && line.item != 0 && qty.Ok? && qty.amount != 0 && store.getItem(line.item).Found?
                  && store.getItemPrice(line.item) == NotFound && store.getItem(line.item).value.defaultPrice.None?)
  {
    hide ParseScaled;
    if LineInputs(store, line).Success? {
      var (qty, item, base) := LineInputs(store, line).value;
      AssembledErrors(store, p, line, item, qty, base);
    }
  }

  lemma {:induction false} AssembledErrors(store: Store, p: Pricing, line: RequestLine, item: Item, qty: int, base: int)
    requires 0 <= base <= MAX
    ensures var r := AssembledLine(store, p, line, item, qty, base);
            r.Failure? ==> r.error == StoreFailed || r.error == StackOverflow || r.error.BadAmount?
  {
    hide ParseScaled, Picked, MultiplyCents, UnitAfterDiscount, Unprintable, Rendered;
    CandidateErrors(p, p.promos, line, item, base, qty);
  }

  lemma {:induction false} CandidateErrors(p: Pricing, promos: seq<Promotion>, line: RequestLine, item: Item, base: int,
                                           qty: int)
    requires 0 <= base <= MAX
    ensures var r := Candidates(p, promos, line, item, base, qty); r.Failure? ==> r.error.BadAmount?
  {
    hide Evaluate;
    if promos != [] {
      CandidateErrors(p, promos[..|promos| - 1], line, item, base, qty);
    }
  }

  /** The first line that does not resolve decides the error of the cart. */
  lemma {:induction false} FirstErrorIsReported(store: Store, req: Request, p: Pricing, i: nat)
    requires PricingFor(store, req) == Success(p) && i < |req.lines|
    requires ResolvedLines(store, p, req.lines[..i]).Success?
    requires ResolvedLine(store, p, req.lines[i]).Failure?
    ensures Resolved(store, req) == Failure(ResolvedLine(store, p, req.lines[i]).error)
  {
    hide ResolvedLine, ParseMajorToCents, Wrap, FormatCents, PricingFor;
    LinesStep(store, p, req.lines, i);
    LinesFail(store, p, req.lines, i + 1);
  }

  // ---- tax --------------------------------------------------------------

  /** The item has no tax class, or an unknown one, or one without a percentage rate. */
  predicate Untaxed(store: Store, item: Item) {
    || item.taxClass.None? || item.taxClass.value == ""
    || store.getTaxClass(item.taxClass.value) == NotFound
    || (store.getTaxClass(item.taxClass.value).Found?
        && var rate := store.getTaxRate(store.getTaxClass(item.taxClass.value).value.id);
           rate == NotFound || (rate.Found? && rate.value.rateType != "percentage"))
  }

  /** An untaxed item has no tax line, any other exactly one, with its class and rate; a failing store never taxes. */
  ghost predicate TaxedFromStore(store: Store, item: Item, taxLines: seq<TaxLine>) {
    if Untaxed(store, item) then taxLines == []
    else
      var cls := store.getTaxClass(item.taxClass.value);
      && cls.Found? && store.getTaxRate(cls.value.id).Found? && |taxLines| == 1
      && var rate := store.getTaxRate(cls.value.id).value;
         && taxLines[0].taxClass == cls.value.id && taxLines[0].taxClassCode == cls.value.code
         && taxLines[0].jurisdiction == rate.jurisdiction
         && ParseRateToPpm(rate.rate).Ok? && ParseRateToPpm(taxLines[0].rate) == ParseRateToPpm(rate.rate)
  }

  lemma {:induction false} TaxLinesFromStore(store: Store, item: Item, subtotal: int)
    requires ComputeTax(store, item, subtotal).Success?
    ensures TaxedFromStore(store, item, TaxLines(ComputeTax(store, item, subtotal).value))
  {
    hide ParseScaled, FormatRatePpm, FormatCents, MultiplyCents;
    var taxes := ComputeTax(store, item, subtotal).value;
    if taxes != [] {
      assert taxes[..0] == [];
      RateRoundTrip(taxes[0].ratePpm);
    }
  }

  lemma {:induction false} LineTax(store: Store, p: Pricing, line: RequestLine, l: ResponseLine)
    requires ResolvedLine(store, p, line) == Success(l)
    ensures store.getItem(line.item).Found? && TaxedFromStore(store, store.getItem(line.item).value, l.taxLines)
  {
    hide ParseScaled, Candidates, ComputeTax, Picked, UnitAfterDiscount, MultiplyCents, Unprintable, FormatCents,
      FormatMicros, Applied, TaxLines, Wrap, TaxedFromStore;
    var (qty, item, base) := LineInputs(store, line).value;
    var picked := Picked(Candidates(p, p.promos, line, item, base, qty).value);
    TaxLinesFromStore(store, item, CostOf(qty, base, picked).subtotal);
  }

  /** In every resolved cart each line is taxed as the store says. */
  lemma {:induction false} TaxesComeFromTheStore(store: Store, req: Request, resp: Response, i: nat)
    requires Resolved(store, req) == Success(resp) && i < |req.lines|
    ensures |resp.lines| == |req.lines| && store.getItem(req.lines[i].item).Found?
    ensures TaxedFromStore(store, store.getItem(req.lines[i].item).value, resp.lines[i].taxLines)
  {
    hide ResolvedLine, ResolvedLines, FormatCents, TaxedFromStore;
    var p := PricingFor(store, req).value;
    LinesInOrder(store, p, req.lines, i);
    LineTax(store, p, req.lines[i], resp.lines[i]);
  }

  // ---- one promotion ----------------------------------------------------

  /** The item is in the scope of the promotion: an item or category scope some rule of which admits it. */
  ghost predicate Covers(promo: Promotion, rules: seq<Rule>, id: Id, category: Option<Id>) {
    || (promo.scopeType == "item"
        && exists k :: 0 <= k < |rules| && (rules[k].itemIds.None? || rules[k].itemIds.value == []
                                            || id in rules[k].itemIds.value))
    || (promo.scopeType == "category" && category.Some?
        && exists k :: 0 <= k < |rules| && (rules[k].categoryIds.None? || rules[k].categoryIds.value == []
                                            || category.value in rules[k].categoryIds.value))
  }

  /** The quantity reaches the minimum of a rule: one unit when it names none that can be read. */
  ghost predicate ReachesMinimum(r: Rule, qty: int) {
    if r.minQuantity.Some? && ParseQuantityToMicros(r.minQuantity.value).Ok?
    then qty >= ParseQuantityToMicros(r.minQuantity.value).amount
    else qty >= 1_000_000
  }

  /** The first rule names one of the three benefits, with its qualifier. */
  predicate HasBenefit(r: Rule) {
    || (r.benefitType == "percent_off" && r.percent.Some?)
    || (r.benefitType == "amount_off" && r.amount.Some?)
    || (r.benefitType == "fixed_price" && r.fixedPrice.Some?)
  }

  /** When a promotion applies: channel, segment, scope, every minimum quantity, and a benefit in the first rule. */
  ghost predicate AppliesTo(promo: Promotion, rules: seq<Rule>, id: Id, category: Option<Id>, qty: int,
                            channel: string, segments: seq<string>)
  {
    && (promo.activeChannels == [] || channel in promo.activeChannels)
    && (promo.customerSegments == [] || exists s :: s in promo.customerSegments && s in segments)
    && Covers(promo, rules, id, category)
    && (forall k :: 0 <= k < |rules| && rules[k].triggerType == "buy_quantity" ==> ReachesMinimum(rules[k], qty))
    && rules != [] && HasBenefit(rules[0])
  }

  lemma CoversIff(promo: Promotion, rules: seq<Rule>, id: Id, category: Option<Id>)
    ensures InScope(promo, rules, id, category) <==> Covers(promo, rules, id, category)
  {
    if Covers(promo, rules, id, category) {
      if promo.scopeType == "item" {
        var k :| 0 <= k < |rules| && (rules[k].itemIds.None? || rules[k].itemIds.value == []
                                      || id in rules[k].itemIds.value);
        assert rules[k] in rules;
      } else {
        var k :| 0 <= k < |rules| && (rules[k].categoryIds.None? || rules[k].categoryIds.value == []
                                      || category.value in rules[k].categoryIds.value);
        assert rules[k] in rules;
      }
    }
  }

  lemma MinimumIff(rules: seq<Rule>, qty: int)
    ensures TriggersMet(rules, qty) <==>
            forall k :: 0 <= k < |rules| && rules[k].triggerType == "buy_quantity" ==> ReachesMinimum(rules[k], qty)
  {
    hide ParseScaled;
    forall k | 0 <= k < |rules| {
      MinimumOf(rules[k], qty);
    }
    if TriggersMet(rules, qty) {
      assert forall k :: 0 <= k < |rules| ==> rules[k] in rules;
    }
  }

  lemma MinimumOf(r: Rule, qty: int)
    ensures ReachesMinimum(r, qty) <==> MinQuantity(r) <= qty
  {
    hide ParseScaled;
  }

  /** A promotion is no candidate exactly when it does not apply. */
  lemma {:induction false} AppliesIff(promo: Promotion, rules: seq<Rule>, id: Id, category: Option<Id>, base: int,
                                      qty: int, ctx: EvalContext)
    requires 0 <= base <= MAX
    ensures EvaluatePromotion(promo, rules, id, category, base, qty, ctx) != NotApplicable <==>
            AppliesTo(promo, rules, id, category, qty, ctx.channel, ctx.customerSegments)
    ensures EvaluatePromotion(promo, rules, id, category, base, qty, ctx).Applies? ==>
              EvaluatePromotion(promo, rules, id, category, base, qty, ctx) == Benefit(rules[0], base)
  {
    hide InScope, Covers, TriggersMet, ParseScaled, ReachesMinimum;
    CoversIff(promo, rules, id, category);
    MinimumIff(rules, qty);
  }

  /** d is price * percent in cents, to the nearest, ties up. */
  predicate NearestShare(price: int, ppm: int, d: int) {
    -500_000 < d * 1_000_000 - price * ppm <= 500_000
  }

  /**
   What a benefit makes of the base price: a fixed price is the price unless it is above the base, an amount
   is taken off down to zero, and a percentage takes off the nearest cent of its share, down to zero.
   */
  ghost predicate Reprices(r: Rule, base: int, unit: int, discount: int) {
    && unit == base - Min(base, discount)
    && (r.benefitType == "fixed_price" && r.fixedPrice.Some? ==>
          ParseMajorToCents(r.fixedPrice.value).Ok? && unit == Min(base, ParseMajorToCents(r.fixedPrice.value).amount))
    && (r.benefitType == "amount_off" && r.amount.Some? ==>
          ParseMajorToCents(r.amount.value).Ok? && discount == Min(base, ParseMajorToCents(r.amount.value).amount))
    && (r.benefitType == "percent_off" && r.percent.Some? ==>
          ParseRateToPpm(r.percent.value).Ok?
          && (Unsaturated(base, ParseRateToPpm(r.percent.value).amount) ==>
                NearestShare(base, ParseRateToPpm(r.percent.value).amount, discount)))
  }

  lemma {:induction false} BenefitReprices(r: Rule, base: int)
    requires 0 <= base <= MAX && Benefit(r, base).Applies?
    ensures var d := Benefit(r, base).discount; Reprices(r, base, base - Min(base, d), d)
    ensures Benefit(r, base).benefitType == r.benefitType
  {
    hide ParseScaled, MultiplyCents;
    if r.benefitType == "percent_off" {
      MultiplyIsNearest(base, ParseRateToPpm(r.percent.value).amount);
    }
  }

  lemma PickedOne(e: EvaluatedPromo)
    ensures Picked([e]) == [e] && Total([e]) == e.discount
  {
    assert [e][..0] == [];
    assert Stackables([]) == [] && BestNonStackable([]) == None;
    assert Stackables([e]) == if e.promo.stackable then [e] else [];
    TotalsSingle(e);
  }

  /** What a line shows of the only promotion of the store. */
  ghost predicate ShowsPromotion(promo: Promotion, r: Rule, l: ResponseLine) {
    && |l.appliedPromotions| == 1
    && var a := l.appliedPromotions[0];
       && a.promotion == promo.id && a.code == promo.code && a.name == promo.name && a.stackable == promo.stackable
       && a.benefitType == r.benefitType
       && ParseMajorToCents(a.discountAmount).Ok? && ParseMajorToCents(l.basePrice).Ok?
       && ParseMajorToCents(l.unitPriceAfterDiscount).Ok?
       && Reprices(r, Cents(l.basePrice), Cents(l.unitPriceAfterDiscount), Cents(a.discountAmount))
  }

  /** Evaluate gives a candidate exactly where the promotion applies, with the benefit of its first rule. */
  lemma {:induction false} EvaluateIff(p: Pricing, promo: Promotion, line: RequestLine, item: Item, base: int,
                                       qty: int)
    requires 0 <= base <= MAX
    ensures var e, rules := Evaluate(p, promo, line, item, base, qty), RulesOf(p, promo);
            var applies :=
              AppliesTo(promo, rules, line.item, item.category, qty, p.ctx.channel, p.ctx.customerSegments);
            && (e != NotApplicable <==> applies) && (applies ==> rules != [])
            && (e.Applies? ==> e == Benefit(rules[0], base))
  {
    hide EvaluatePromotion, Covers, Benefit, ReachesMinimum;
    AppliesIff(promo, RulesOf(p, promo), line.item, item.category, base, qty, p.ctx);
  }

  lemma {:induction false} OneCandidate(p: Pricing, promo: Promotion, line: RequestLine, item: Item, base: int,
                                        qty: int)
    requires 0 <= base <= MAX && Candidates(p, [promo], line, item, base, qty).Success?
    ensures var c := Candidates(p, [promo], line, item, base, qty).value;
            if AppliesTo(promo, RulesOf(p, promo), line.item, item.category, qty, p.ctx.channel, p.ctx.customerSegments)
            then
              && Benefit(RulesOf(p, promo)[0], base).Applies?
              && c == [EvaluatedPromo(promo, Benefit(RulesOf(p, promo)[0], base).discount,
                                      Benefit(RulesOf(p, promo)[0], base).benefitType)]
            else c == []
  {
    hide EvaluatePromotion, AppliesTo, Benefit;
    AppliesIff(promo, RulesOf(p, promo), line.item, item.category, base, qty, p.ctx);
    assert [promo][..0] == [];
    assert Candidates(p, [], line, item, base, qty) == Success([]);
  }

  /** The quantity of a request line in micros. */
  function QuantityOf(line: RequestLine): int {
    var q := ParseQuantityToMicros(line.quantity);
    if q.Ok? then q.amount else 0
  }

  /** What the only promotion does to a line: it is shown and reprices the line, or the price stays. */
  ghost predicate Promoted(promo: Promotion, rules: seq<Rule>, item: Item, channel: string, segments: seq<string>,
                           line: RequestLine, l: ResponseLine)
  {
    if AppliesTo(promo, rules, line.item, item.category, QuantityOf(line), channel, segments)
    then ShowsPromotion(promo, rules[0], l)
    else
      && l.appliedPromotions == [] && ParseMajorToCents(l.basePrice).Ok?
      && ParseMajorToCents(l.unitPriceAfterDiscount) == ParseMajorToCents(l.basePrice)
  }

  lemma {:induction false} CandidateIsShown(store: Store, p: Pricing, line: RequestLine, item: Item, qty: int,
                                            base: int, l: ResponseLine, e: EvaluatedPromo, r: Rule)
    requires 0 <= base <= MAX && 0 < qty <= MAX && AssembledLine(store, p, line, item, qty, base) == Success(l)
    requires Candidates(p, p.promos, line, item, base, qty) == Success([e])
    requires Benefit(r, base) == Applies(e.discount, e.benefitType)
    ensures ShowsPromotion(e.promo, r, l)
  {
    hide ParseScaled, FormatCents, FormatMicros, FormatRatePpm, Candidates, Picked, Benefit, ComputeTax, MultiplyCents,
      Reprices, UnitAfterDiscount, Total, Readable, Conserved, Recomputes;
    var picked := LineFacts(store, p, line, item, qty, base, l);
    var c := LineParts(store, p, line, item, qty, base, l);
    PickedOne(e);
    BenefitReprices(r, base);
    UnitPriceRange(base, [e]);
    AppliedOne(e);
    CentsRoundTrip(e.discount);
  }

  lemma AppliedOne(e: EvaluatedPromo)
    ensures Applied([e]) == [AppliedPromotion(e.promo.id, e.promo.code, e.promo.name, e.benefitType,
                                              FormatCents(e.discount), e.promo.stackable)]
  {
    hide FormatCents;
    assert [e][..0] == [];
    assert Applied([]) == [];
  }

  lemma {:induction false} NoCandidate(store: Store, p: Pricing, line: RequestLine, item: Item, qty: int, base: int,
                                       l: ResponseLine)
    requires 0 <= base <= MAX && 0 < qty <= MAX && AssembledLine(store, p, line, item, qty, base) == Success(l)
    requires Candidates(p, p.promos, line, item, base, qty) == Success([])
    ensures l.appliedPromotions == [] && ParseMajorToCents(l.basePrice).Ok?
    ensures ParseMajorToCents(l.unitPriceAfterDiscount) == ParseMajorToCents(l.basePrice)
  {
    hide ParseScaled, FormatCents, FormatMicros, FormatRatePpm, Candidates, ComputeTax, MultiplyCents,
      Readable, Conserved, Recomputes;
    var picked := LineFacts(store, p, line, item, qty, base, l);
    var c := LineParts(store, p, line, item, qty, base, l);
    assert picked == [];
  }

  lemma {:induction false} PromotedLine(store: Store, p: Pricing, line: RequestLine, l: ResponseLine, promo: Promotion)
    requires p.promos == [promo] && ResolvedLine(store, p, line) == Success(l)
    ensures store.getItem(line.item).Found?
    ensures Promoted(promo, RulesOf(p, promo), store.getItem(line.item).value, p.ctx.channel, p.ctx.customerSegments,
                     line, l)
  {
    hide ParseMajorToCents, ParseQuantityToMicros, AssembledLine, Candidates, AppliesTo, Benefit, ShowsPromotion;
    var (qty, item, base) := LineInputs(store, line).value;
    assert qty == QuantityOf(line);
    AssembledCandidates(store, p, line, item, qty, base, l);
    OneCandidate(p, promo, line, item, base, qty);
    if AppliesTo(promo, RulesOf(p, promo), line.item, item.category, qty, p.ctx.channel, p.ctx.customerSegments) {
      var e := Candidates(p, [promo], line, item, base, qty).value[0];
      EvaluateIff(p, promo, line, item, base, qty);
      CandidateIsShown(store, p, line, item, qty, base, l, e, RulesOf(p, promo)[0]);
    } else {
      NoCandidate(store, p, line, item, qty, base, l);
    }
  }

  lemma AssembledCandidates(store: Store, p: Pricing, line: RequestLine, item: Item, qty: int, base: int,
                            l: ResponseLine)
    requires 0 <= base <= MAX && AssembledLine(store, p, line, item, qty, base) == Success(l)
    ensures Candidates(p, p.promos, line, item, base, qty).Success?
  {
    hide Candidates, WithTax, PrintedLine;
  }

  // ---- the promotions of the store --------------------------------------

  lemma {:induction false} RulesFromStore(store: Store, promos: seq<Promotion>)
    requires PromoRules(store, promos).Success?
    ensures forall x :: x in promos ==>
              && x.id in PromoRules(store, promos).value
              && store.listRules(x.id) == Found(PromoRules(store, promos).value[x.id])
  {
    if promos != [] {
      RulesFromStore(store, promos[..|promos| - 1]);
      assert promos == promos[..|promos| - 1] + [promos[|promos| - 1]];
      RulesAreTheStores(store, promos[..|promos| - 1]);
    }
  }

  lemma {:induction false} RulesAreTheStores(store: Store, promos: seq<Promotion>)
    requires PromoRules(store, promos).Success?
    ensures forall id :: id in PromoRules(store, promos).value ==>
              store.listRules(id) == Found(PromoRules(store, promos).value[id])
  {
    if promos != [] {
      RulesAreTheStores(store, promos[..|promos| - 1]);
    }
  }

  /** Promotions are those of the store with its rules; the channel is the request's, or the register's. */
  lemma {:induction false} PricingFromStore(store: Store, req: Request)
    requires PricingFor(store, req).Success?
    ensures var p := PricingFor(store, req).value;
            && store.listPromotions == Found(p.promos) && req.lines != []
            && (forall x :: x in p.promos ==> store.listRules(x.id) == Found(RulesOf(p, x)))
            && p.ctx == EvalContext(if req.channel == "" then "brick" else req.channel, req.customerSegments)
  {
    RulesFromStore(store, store.listPromotions.value);
  }

  /**
   In every resolved cart of a store with one promotion, the promotion reprices exactly the lines it applies
   to, as its first rule says, and every other line keeps its base price.
   */
  lemma {:induction false} OnePromotionReprices(store: Store, req: Request, resp: Response, i: nat, promo: Promotion)
    requires Resolved(store, req) == Success(resp) && i < |req.lines| && store.listPromotions == Found([promo])
    ensures |resp.lines| == |req.lines| && store.getItem(req.lines[i].item).Found? && store.listRules(promo.id).Found?
    ensures Promoted(promo, store.listRules(promo.id).value, store.getItem(req.lines[i].item).value,
                     if req.channel == "" then "brick" else req.channel, req.customerSegments,
                     req.lines[i], resp.lines[i])
  {
    hide ResolvedLine, ResolvedLines, FormatCents, AppliesTo, Promoted, PromoRules;
    var p := PricingFor(store, req).value;
    PricingFromStore(store, req);
    assert promo in p.promos;
    LinesInOrder(store, p, req.lines, i);
    PromotedLine(store, p, req.lines[i], resp.lines[i], promo);
  }

  // ---- several promotions -----------------------------------------------

  /** Candidate a comes from promotion idx[a], in order, with the benefit of its first rule. */
  ghost predicate ComesFrom(p: Pricing, promos: seq<Promotion>, base: int, c: seq<EvaluatedPromo>, idx: seq<nat>)
    requires 0 <= base <= MAX
  {
    && |idx| == |c| && (forall a, b :: 0 <= a < b < |idx| ==> idx[a] < idx[b])
    && forall a :: 0 <= a < |idx| ==>
         && idx[a] < |promos| && c[a].promo == promos[idx[a]] && RulesOf(p, c[a].promo) != []
         && Benefit(RulesOf(p, c[a].promo)[0], base) == Applies(c[a].discount, c[a].benefitType)
  }

  /** idx names the promotions that apply. */
  ghost predicate NamesApplicable(p: Pricing, promos: seq<Promotion>, line: RequestLine, item: Item, qty: int,
                                  idx: seq<nat>)
  {
    forall k :: 0 <= k < |promos| ==>
      (k in idx <==> AppliesTo(promos[k], RulesOf(p, promos[k]), line.item, item.category, qty,
                               p.ctx.channel, p.ctx.customerSegments))
  }

  lemma NamesOneMore(p: Pricing, promos: seq<Promotion>, line: RequestLine, item: Item, qty: int, idx: seq<nat>,
                     applies: bool)
    requires promos != [] && NamesApplicable(p, promos[..|promos| - 1], line, item, qty, idx)
    requires forall a :: 0 <= a < |idx| ==> idx[a] < |promos| - 1
    requires var x := promos[|promos| - 1];
             applies <==> AppliesTo(x, RulesOf(p, x), line.item, item.category, qty,
                                    p.ctx.channel, p.ctx.customerSegments)
    ensures NamesApplicable(p, promos, line, item, qty, if applies then idx + [|promos| - 1] else idx)
  {
    hide AppliesTo, RulesOf;
  }

  lemma ComesFromOneMore(p: Pricing, promos: seq<Promotion>, base: int, c: seq<EvaluatedPromo>, idx: seq<nat>,
                         e: EvaluatedPromo)
    requires 0 <= base <= MAX && promos != [] && ComesFrom(p, promos[..|promos| - 1], base, c, idx)
    ensures ComesFrom(p, promos, base, c, idx)
    ensures forall a :: 0 <= a < |idx| ==> idx[a] < |promos| - 1
    ensures e.promo == promos[|promos| - 1] && RulesOf(p, e.promo) != []
            && Benefit(RulesOf(p, e.promo)[0], base) == Applies(e.discount, e.benefitType) ==>
              ComesFrom(p, promos, base, c + [e], idx + [|promos| - 1])
  {
    hide RulesOf, Benefit;
  }

  /** The candidates of a line are exactly its applicable promotions, in order, each with its benefit. */
  lemma {:induction false} CandidatesAreApplicable(p: Pricing, promos: seq<Promotion>, line: RequestLine, item: Item,
                                                   base: int, qty: int) returns (idx: seq<nat>)
    requires 0 <= base <= MAX && Candidates(p, promos, line, item, base, qty).Success?
    ensures ComesFrom(p, promos, base, Candidates(p, promos, line, item, base, qty).value, idx)
    ensures NamesApplicable(p, promos, line, item, qty, idx)
  {
    hide AppliesTo, Evaluate, Benefit, RulesOf, NamesApplicable, ComesFrom;
    if promos == [] {
      idx := [];
      ComesFromNone(p, base);
      NamesNone(p, line, item, qty);
    } else {
      var init, k := promos[..|promos| - 1], |promos| - 1;
      var before := CandidatesAreApplicable(p, init, line, item, base, qty);
      EvaluateIff(p, promos[k], line, item, base, qty);
      var x := Evaluate(p, promos[k], line, item, base, qty);
      var e := if x.Applies? then EvaluatedPromo(promos[k], x.discount, x.benefitType)
               else EvaluatedPromo(promos[k], 0, "");
      ComesFromOneMore(p, promos, base, Candidates(p, init, line, item, base, qty).value, before, e);
      NamesOneMore(p, promos, line, item, qty, before, x.Applies?);
      idx := if x.Applies? then before + [k] else before;
    }
  }

  lemma ComesFromNone(p: Pricing, base: int)
    requires 0 <= base <= MAX
    ensures ComesFrom(p, [], base, [], [])
  {
  }

  lemma NamesNone(p: Pricing, line: RequestLine, item: Item, qty: int)
    ensures NamesApplicable(p, [], line, item, qty, [])
  {
  }

  lemma {:induction false} AppliedShowsPicks(picked: seq<EvaluatedPromo>)
    ensures |Applied(picked)| == |picked| && forall j :: 0 <= j < |picked| ==>
              Applied(picked)[j] ==
              AppliedPromotion(picked[j].promo.id, picked[j].promo.code, picked[j].promo.name, picked[j].benefitType,
                               FormatCents(picked[j].discount), picked[j].promo.stackable)
  {
    hide FormatCents;
    if picked != [] {
      AppliedShowsPicks(picked[..|picked| - 1]);
    }
  }

  /** A line shows an admissible selection of its candidates, and no other takes more off. */
  lemma {:induction false} ShownIsBest(store: Store, p: Pricing, line: RequestLine, item: Item, qty: int, base: int,
                                       l: ResponseLine, other: seq<EvaluatedPromo>) returns (shown: seq<EvaluatedPromo>)
    requires 0 <= base <= MAX && 0 < qty <= MAX && AssembledLine(store, p, line, item, qty, base) == Success(l)
    requires Candidates(p, p.promos, line, item, base, qty).Success?
    requires Admissible(other, Candidates(p, p.promos, line, item, base, qty).value)
    ensures Admissible(shown, Candidates(p, p.promos, line, item, base, qty).value)
    ensures |l.appliedPromotions| == |shown| && forall j :: 0 <= j < |shown| ==>
              l.appliedPromotions[j] ==
              AppliedPromotion(shown[j].promo.id, shown[j].promo.code, shown[j].promo.name, shown[j].benefitType,
                               FormatCents(shown[j].discount), shown[j].promo.stackable)
    ensures Total(other) <= Total(shown)
    ensures Total(shown) <= MAX ==>
              ParseMajorToCents(l.unitPriceAfterDiscount) == Ok(base - Min(base, Total(shown)))
  {
    hide ParseScaled, FormatCents, FormatMicros, FormatRatePpm, Candidates, Picked, ComputeTax, MultiplyCents,
      UnitAfterDiscount, Total, Readable, Conserved, Recomputes, Admissible, AssembledLine, Applied;
    shown := LineFacts(store, p, line, item, qty, base, l);
    var c := LineParts(store, p, line, item, qty, base, l);
    var candidates := Candidates(p, p.promos, line, item, base, qty).value;
    PickedIsAdmissible(candidates);
    PickedIsOptimal(other, candidates);
    AppliedShowsPicks(shown);
    UnitPriceRange(base, shown);
    TotalNonNegative(shown);
  }
}
