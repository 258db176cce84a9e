/** Cart price resolution (internal/pricing/resolver.go) and line tax (internal/pricing/tax.go). */
module Resolver {
  import opened Int64
  import opened Money
  import opened Wrappers
  import opened Promotions

  /** Outcome of a store query: ErrNotFound is told apart from every other error. */
  datatype Lookup<+T> = Found(value: T) | NotFound | Unavailable

  datatype Item = Item(category: Option<Id>, taxClass: Option<string>, defaultPrice: Option<string>)
  datatype TaxClass = TaxClass(id: Id, code: string)
  datatype TaxRate = TaxRate(rateType: string, rate: string, jurisdiction: Option<string>)

  /** The store as the resolver sees it for one (tenant, location, channel, as-of). */
  datatype Store = Store(
    getItem: Id -> Lookup<Item>,
    getItemPrice: Id -> Lookup<string>,
    getTaxClass: string -> Lookup<TaxClass>,
    getTaxRate: Id -> Lookup<TaxRate>,
    listPromotions: Lookup<seq<Promotion>>,
    listRules: Id -> Lookup<seq<Rule>>)

  datatype RequestLine = RequestLine(item: Id, quantity: string)
  datatype Request = Request(
    tenant: Id, location: Id, channel: string, customerSegments: seq<string>, lines: seq<RequestLine>)

  datatype AppliedPromotion = AppliedPromotion(
    promotion: Id, code: string, name: string, benefitType: string, discountAmount: string, stackable: bool)
  datatype TaxLine = TaxLine(
    taxClass: Id, taxClassCode: string, jurisdiction: Option<string>, rate: string, taxAmount: string)
  datatype ResponseLine = ResponseLine(
    item: Id, quantity: string, basePrice: string, appliedPromotions: seq<AppliedPromotion>,
    unitPriceAfterDiscount: string, lineSubtotal: string, taxLines: seq<TaxLine>, lineTotal: string)
  datatype Response = Response(lines: seq<ResponseLine>, cartTotal: string)

  /** StackOverflow: formatCents negates its argument and calls itself, which never ends for -2^63. */
  datatype ResolveError =
    | InvalidRequest | StoreFailed | NoPrice | ZeroQuantity | BadAmount(reason: AmountError) | StackOverflow

  datatype Result<+T> = Success(value: T) | Failure(error: ResolveError) {
    predicate IsFailure() {
      Failure?
    }
    function PropagateFailure<U>(): Result<U>
      requires Failure?
    {
      Failure(error)
    }
    function Extract(): T
      requires Success?
    {
      value
    }
  }

  datatype ResolvedTax = ResolvedTax(
    taxClass: Id, taxClassCode: string, jurisdiction: Option<string>, ratePpm: int, taxCents: int)

  // ---- tax --------------------------------------------------------------

  function ComputeTax(store: Store, item: Item, subtotalCents: int): (r: Result<seq<ResolvedTax>>)
    ensures r.Success? ==> |r.value| <= 1
    ensures r.Success? && subtotalCents >= 0 ==>
              forall t :: t in r.value ==> 0 <= t.taxCents && 0 <= t.ratePpm <= MAX
    ensures r.Success? ==>
              forall t :: t in r.value ==> t.taxCents == MultiplyCents(subtotalCents, t.ratePpm) && Fits(t.ratePpm)
  {
    if item.taxClass.None? || item.taxClass.value == "" then Success([])
    else
      match store.getTaxClass(item.taxClass.value)
      case NotFound => Success([])
      case Unavailable => Failure(StoreFailed)
      case Found(cls) =>
        match store.getTaxRate(cls.id)
        case NotFound => Success([])
        case Unavailable => Failure(StoreFailed)
        case Found(rate) =>
          if rate.rateType != "percentage" then Success([])
          else
            match ParseRateToPpm(rate.rate)
            case Err(e) => Failure(BadAmount(e))
            case Ok(ppm) =>
              Success([ResolvedTax(cls.id, cls.code, rate.jurisdiction, ppm, MultiplyCents(subtotalCents, ppm))])
  }

  // ---- one line ---------------------------------------------------------

  datatype Pricing = Pricing(promos: seq<Promotion>, rules: map<Id, seq<Rule>>, ctx: EvalContext)

  function RulesOf(p: Pricing, promo: Promotion): seq<Rule> {
    if promo.id in p.rules then p.rules[promo.id] else []
  }

  function Evaluate(p: Pricing, promo: Promotion, line: RequestLine, item: Item, base: int, qty: int): (e: Evaluation)
    requires 0 <= base <= MAX
    ensures e.Applies? ==> 0 <= e.discount <= MAX
  {
    EvaluatePromotion(promo, RulesOf(p, promo), line.item, item.category, base, qty, p.ctx)
  }

  /** The promotions of promos that apply to the line, in order; the first evaluation error wins. */
  function Candidates(p: Pricing, promos: seq<Promotion>, line: RequestLine, item: Item, base: int, qty: int)
    : (r: Result<seq<EvaluatedPromo>>)
    requires 0 <= base <= MAX
    ensures r.Success? ==> forall x :: x in r.value ==> 0 <= x.discount <= MAX
  {
    if promos == [] then Success([])
    else
      var last := promos[|promos| - 1];
      var init :- Candidates(p, promos[..|promos| - 1], line, item, base, qty);
      match Evaluate(p, last, line, item, base, qty)
      case Failed(e) => Failure(BadAmount(e))
      case NotApplicable => Success(init)
      case Applies(d, b) => Success(init + [EvaluatedPromo(last, d, b)])
  }

  function UnitAfterDiscount(base: int, picked: seq<EvaluatedPromo>): (unit: int)
    ensures Fits(unit)
  {
    var total := Wrap(Total(picked));
    Wrap(base - if total > base then base else total)
  }

  function Applied(picked: seq<EvaluatedPromo>): (r: seq<AppliedPromotion>)
    ensures |r| == |picked|
  {
    if picked == [] then []
    else
      var c := picked[|picked| - 1];
      Applied(picked[..|picked| - 1]) +
      [AppliedPromotion(c.promo.id, c.promo.code, c.promo.name, c.benefitType,
                        FormatCents(c.discount), c.promo.stackable)]
  }

  function TaxLines(taxes: seq<ResolvedTax>): (r: seq<TaxLine>)
    ensures |r| == |taxes|
  {
    if taxes == [] then []
    else
      var t := taxes[|taxes| - 1];
      TaxLines(taxes[..|taxes| - 1]) +
      [TaxLine(t.taxClass, t.taxClassCode, t.jurisdiction, FormatRatePpm(t.ratePpm), FormatCents(t.taxCents))]
  }

  function TotalTax(taxes: seq<ResolvedTax>): int {
    if taxes == [] then 0 else TotalTax(taxes[..|taxes| - 1]) + taxes[|taxes| - 1].taxCents
  }

  function Rendered(item: Id, qty: int, base: int, c: Costing): (l: ResponseLine) {
    ResponseLine(
      item, FormatMicros(qty), FormatCents(base), Applied(c.picked), FormatCents(c.unit),
      FormatCents(c.subtotal), TaxLines(c.taxes), FormatCents(Wrap(c.subtotal + TotalTax(c.taxes))))
  }

  /** What a line costs, before it is printed. */
  datatype Costing = Costing(picked: seq<EvaluatedPromo>, unit: int, subtotal: int, taxes: seq<ResolvedTax>)

  function CostOf(qty: int, base: int, picked: seq<EvaluatedPromo>): (c: Costing) {
    var unit := UnitAfterDiscount(base, picked);
    Costing(picked, unit, MultiplyCents(unit, qty), [])
  }

  function WithTax(store: Store, item: Item, c: Costing): (r: Result<Costing>) {
    var taxes :- ComputeTax(store, item, c.subtotal);
    Success(c.(taxes := taxes))
  }

  /** Some amount of the line is the int64 that formatCents cannot print. */
  predicate Unprintable(c: Costing) {
    || c.unit == MIN || c.subtotal == MIN || Wrap(c.subtotal + TotalTax(c.taxes)) == MIN
    || exists t :: t in c.taxes && t.taxCents == MIN
  }

  function PrintedLine(item: Id, qty: int, base: int, c: Costing): (r: Result<ResponseLine>) {
    if Unprintable(c) then Failure(StackOverflow) else Success(Rendered(item, qty, base, c))
  }

  function AssembledLine(store: Store, p: Pricing, line: RequestLine, item: Item, qty: int, base: int)
    : (r: Result<ResponseLine>)
    requires 0 <= base <= MAX
  {
    var candidates :- Candidates(p, p.promos, line, item, base, qty);
    var c :- WithTax(store, item, CostOf(qty, base, Picked(candidates)));
    PrintedLine(line.item, qty, base, c)
  }

  method GatherCandidates(p: Pricing, line: RequestLine, item: Item, qty: int, base: int)
    returns (r: Result<seq<EvaluatedPromo>>)
    requires 0 <= base <= MAX
    ensures r == Candidates(p, p.promos, line, item, base, qty)
  {
    var candidates: seq<EvaluatedPromo> := [];
    for i := 0 to |p.promos|
      invariant Candidates(p, p.promos[..i], line, item, base, qty) == Success(candidates)
    {
      CandidatesStep(p, i, line, item, base, qty);
      match Evaluate(p, p.promos[i], line, item, base, qty) {
        case Failed(e) =>
          CandidatesFail(p, i + 1, line, item, base, qty);
          return Failure(BadAmount(e));
        case NotApplicable =>
        case Applies(d, b) =>
          candidates := candidates + [EvaluatedPromo(p.promos[i], d, b)];
      }
    }
    assert p.promos[..|p.promos|] == p.promos;
    r := Success(candidates);
  }

  method RenderApplied(picked: seq<EvaluatedPromo>) returns (applied: seq<AppliedPromotion>, totalDiscount: int)
    ensures applied == Applied(picked)
    ensures totalDiscount == Wrap(Total(picked))
  {
    totalDiscount, applied := 0, [];
    for i := 0 to |picked|
      invariant applied == Applied(picked[..i])
      invariant totalDiscount == Wrap(Total(picked[..i]))
    {
      assert picked[..i + 1][..i] == picked[..i];
      var c := picked[i];
      applied := applied + [AppliedPromotion(c.promo.id, c.promo.code, c.promo.name, c.benefitType,
                                             FormatCents(c.discount), c.promo.stackable)];
      WrapAdd(Total(picked[..i]), c.discount);
      totalDiscount := Wrap(totalDiscount + c.discount);
    }
    assert picked[..|picked|] == picked;
  }

  method RenderTaxes(taxes: seq<ResolvedTax>) returns (taxLines: seq<TaxLine>, totalTax: int)
    ensures taxLines == TaxLines(taxes)
    ensures totalTax == Wrap(TotalTax(taxes))
  {
    totalTax, taxLines := 0, [];
    for i := 0 to |taxes|
      invariant taxLines == TaxLines(taxes[..i])
      invariant totalTax == Wrap(TotalTax(taxes[..i]))
    {
      assert taxes[..i + 1][..i] == taxes[..i];
      var t := taxes[i];
      taxLines := taxLines + [TaxLine(t.taxClass, t.taxClassCode, t.jurisdiction,
                                      FormatRatePpm(t.ratePpm), FormatCents(t.taxCents))];
      WrapAdd(TotalTax(taxes[..i]), t.taxCents);
      totalTax := Wrap(totalTax + t.taxCents);
    }
    assert taxes[..|taxes|] == taxes;
  }

  method AssembleLine(store: Store, p: Pricing, line: RequestLine, item: Item, qty: int, base: int)
    returns (r: Result<ResponseLine>)
    requires 0 <= base <= MAX
    ensures r == AssembledLine(store, p, line, item, qty, base)
  {
    hide Wrap, MultiplyCents, FormatCents, FormatMicros, Candidates, ComputeTax, Picked, Total;
    var candidates :- GatherCandidates(p, line, item, qty, base);
    var picked := PickBestPromotions(candidates);
    var applied, totalDiscount := RenderApplied(picked);
    if totalDiscount > base {
      totalDiscount := base;
    }
    var unit := Wrap(base - totalDiscount);
    var subtotal := MultiplyCents(unit, qty);
    var taxes :- ComputeTax(store, item, subtotal);
    var taxLines, totalTax := RenderTaxes(taxes);
    WrapAdd(TotalTax(taxes), subtotal);
    if Unprintable(Costing(picked, unit, subtotal, taxes)) {
      return Failure(StackOverflow);
    }
    r := Success(ResponseLine(
                   line.item, FormatMicros(qty), FormatCents(base), applied, FormatCents(unit),
                   FormatCents(subtotal), taxLines, FormatCents(Wrap(subtotal + totalTax))));
  }

  lemma {:induction false} CandidatesStep(p: Pricing, i: nat, line: RequestLine, item: Item, base: int, qty: int)
    requires i < |p.promos| && 0 <= base <= MAX
    requires Candidates(p, p.promos[..i], line, item, base, qty).Success?
    ensures var init := Candidates(p, p.promos[..i], line, item, base, qty).value;
            Candidates(p, p.promos[..i + 1], line, item, base, qty) ==
            match Evaluate(p, p.promos[i], line, item, base, qty)
            case Failed(e) => Failure(BadAmount(e))
            case NotApplicable => Success(init)
            case Applies(d, b) => Success(init + [EvaluatedPromo(p.promos[i], d, b)])
  {
    assert p.promos[..i + 1][..i] == p.promos[..i];
  }

  /** An evaluation error is final: later promotions do not change it. */
  lemma {:induction false} CandidatesFail(p: Pricing, i: nat, line: RequestLine, item: Item, base: int, qty: int)
    requires i <= |p.promos| && 0 <= base <= MAX
    requires Candidates(p, p.promos[..i], line, item, base, qty).Failure?
    ensures Candidates(p, p.promos, line, item, base, qty) == Candidates(p, p.promos[..i], line, item, base, qty)
    decreases |p.promos| - i
  {
    if i == |p.promos| {
      assert p.promos[..i] == p.promos;
    } else {
      assert p.promos[..i + 1][..i] == p.promos[..i];
      CandidatesFail(p, i + 1, line, item, base, qty);
    }
  }

  /** The parsed base price: the price row if there is one, else the item's default price. */
  function BasePrice(store: Store, line: RequestLine, item: Item): (r: Result<int>)
    ensures r.Success? ==> 0 <= r.value <= MAX
  {
    var text :- match store.getItemPrice(line.item)
                case Found(amount) => Success(amount)
                case Unavailable => Failure(StoreFailed)
                case NotFound =>
                  if item.defaultPrice.None? then Failure(NoPrice) else Success(item.defaultPrice.value);
    match ParseMajorToCents(text)
    case Err(e) => Failure(BadAmount(e))
    case Ok(cents) => Success(cents)
  }

  /** The parsed quantity, item and base price of a line, or the first error in that order. */
  function LineInputs(store: Store, line: RequestLine): (r: Result<(int, Item, int)>)
    ensures r.Success? ==> 0 < r.value.0 <= MAX && 0 <= r.value.2 <= MAX
  {
    if line.item == 0 then Failure(InvalidRequest)
    else
      match ParseQuantityToMicros(line.quantity)
      case Err(e) => Failure(BadAmount(e))
      case Ok(qty) =>
        if qty == 0 then Failure(ZeroQuantity)
        else
          match store.getItem(line.item)
          case NotFound => Failure(StoreFailed)
          case Unavailable => Failure(StoreFailed)
          case Found(item) =>
            var base :- BasePrice(store, line, item);
            Success((qty, item, base))
  }

  function ResolvedLine(store: Store, p: Pricing, line: RequestLine): (r: Result<ResponseLine>) {
    var (qty, item, base) :- LineInputs(store, line);
    AssembledLine(store, p, line, item, qty, base)
  }

  // ---- the cart ---------------------------------------------------------

  function PromoRules(store: Store, promos: seq<Promotion>): (r: Result<map<Id, seq<Rule>>>) {
    if promos == [] then Success(map[])
    else
      var last := promos[|promos| - 1];
      var m :- PromoRules(store, promos[..|promos| - 1]);
      match store.listRules(last.id)
      case Found(rules) => Success(m[last.id := rules])
      case _ => Failure(StoreFailed)
  }

  function PricingFor(store: Store, req: Request): (r: Result<Pricing>) {
    if req.lines == [] || req.tenant == 0 || req.location == 0 then Failure(InvalidRequest)
    else
      match store.listPromotions
      case Found(promos) =>
        var rules :- PromoRules(store, promos);
        Success(Pricing(promos, rules,
                        EvalContext(if req.channel == "" then "brick" else req.channel, req.customerSegments)))
      case _ => Failure(StoreFailed)
  }

  /** The resolved lines of a cart and the int64 cart total. */
  function ResolvedLines(store: Store, p: Pricing, lines: seq<RequestLine>): (r: Result<(seq<ResponseLine>, int)>)
    ensures r.Success? ==> |r.value.0| == |lines|
  {
    if lines == [] then Success(([], 0))
    else
      var (init, cart) :- ResolvedLines(store, p, lines[..|lines| - 1]);
      var l :- ResolvedLine(store, p, lines[|lines| - 1]);
      match ParseMajorToCents(l.lineTotal)
      case Err(e) => Failure(BadAmount(e))
      case Ok(cents) => Success((init + [l], Wrap(cart + cents)))
  }

  function Resolved(store: Store, req: Request): (r: Result<Response>) {
    var p :- PricingFor(store, req);
    var (lines, cart) :- ResolvedLines(store, p, req.lines);
    if cart == MIN then Failure(StackOverflow) else Success(Response(lines, FormatCents(cart)))
  }

  method ResolveLine(store: Store, p: Pricing, line: RequestLine) returns (r: Result<ResponseLine>)
    ensures r == ResolvedLine(store, p, line)
  {
    var inputs :- LineInputs(store, line);
    r := AssembleLine(store, p, line, inputs.1, inputs.0, inputs.2);
  }

  method Resolve(store: Store, req: Request) returns (r: Result<Response>)
    ensures r == Resolved(store, req)
  {
    hide ResolvedLine, ParseMajorToCents, Wrap, FormatCents, PricingFor;
    var p :- PricingFor(store, req);
    var lines: seq<ResponseLine> := [];
    var cart := 0;
    for i := 0 to |req.lines|
      invariant ResolvedLines(store, p, req.lines[..i]) == Success((lines, cart))
    {
      LinesStep(store, p, req.lines, i);
      var line := ResolveLine(store, p, req.lines[i]);
      if line.Failure? {
        LinesFail(store, p, req.lines, i + 1);
        return Failure(line.error);
      }
      match ParseMajorToCents(line.value.lineTotal) {
        case Err(e) =>
          LinesFail(store, p, req.lines, i + 1);
          return Failure(BadAmount(e));
        case Ok(cents) =>
          lines := lines + [line.value];
          cart := Wrap(cart + cents);
      }
    }
    assert req.lines[..|req.lines|] == req.lines;
    if cart == MIN {
      return Failure(StackOverflow);
    }
    r := Success(Response(lines, FormatCents(cart)));
  }

  lemma {:induction false} LinesStep(store: Store, p: Pricing, lines: seq<RequestLine>, i: nat)
    requires i < |lines| && ResolvedLines(store, p, lines[..i]).Success?
    ensures var (init, cart) := ResolvedLines(store, p, lines[..i]).value;
            var l := ResolvedLine(store, p, lines[i]);
            ResolvedLines(store, p, lines[..i + 1]) ==
            if l.Failure? then Failure(l.error)
            else
              match ParseMajorToCents(l.value.lineTotal)
              case Err(e) => Failure(BadAmount(e))
              case Ok(cents) => Success((init + [l.value], Wrap(cart + cents)))
  {
    hide ResolvedLine, ParseMajorToCents, Wrap;
    assert lines[..i + 1][..i] == lines[..i];
  }

  lemma {:induction false} LinesFail(store: Store, p: Pricing, lines: seq<RequestLine>, i: nat)
    requires i <= |lines| && ResolvedLines(store, p, lines[..i]).Failure?
    ensures ResolvedLines(store, p, lines) == ResolvedLines(store, p, lines[..i])
    decreases |lines| - i
  {
    if i == |lines| {
      assert lines[..i] == lines;
    } else {
      assert lines[..i + 1][..i] == lines[..i];
      LinesFail(store, p, lines, i + 1);
    }
  }
}
