/**
 * The quote calculator of pricing.service.js: a rate table, `calculatePrice`
 * (an itemised quote in integer IQD), `applyDiscount` and `getPriceList`.
 * Human-readable descriptions (Arabic text, `toLocaleString`) are not modelled.
 */
module Pricing {
  import opened Js

  // The constructor's default rate table, in IQD.
  const FullServicePerPage: nat := 15000
  const SelfTranslationPerPage: nat := 5000
  const AiTranslationPerPage: nat := 10000
  const PerWord: nat := 66
  const CertificationPerDoc: nat := 5000
  const AdditionalCopy: nat := 2500
  const DeliveryFee: nat := 5000

  /** `this.prices.insurance[tier]`; an unknown tier has no price. */
  function InsuranceRate(tier: string): Option<nat> {
    if tier == "31days" then Some(5000)
    else if tier == "45days" then Some(7500)
    else if tier == "90days" then Some(12500)
    else if tier == "1year" then Some(25000)
    else None
  }

  /** The per-page rate chosen by the `switch` on the service type; any
      unknown type silently uses the full-service rate. */
  function PageRate(serviceType: string): nat {
    if serviceType == "self-translation" then SelfTranslationPerPage
    else if serviceType == "ai-translation" then AiTranslationPerPage
    else FullServicePerPage
  }

  /** `Math.round(x * (1.5 - 1))` for an integer `x`: JavaScript rounds
      halves towards +infinity, which is floor((x + 1) / 2). */
  function RoundHalf(x: int): (r: int)
    ensures x <= 2 * r <= x + 1
  {
    (x + 1) / 2
  }

  /** The options object of `calculatePrice`; `None` is an absent
      (`undefined`) field, the only case in which a default applies. */
  datatype PriceOptions = PriceOptions(
    serviceType: Option<string>,
    pages: Option<int>,
    words: Option<int>,
    certification: bool,
    numDocs: Option<int>,
    insurance: Option<string>,
    insuranceCount: Option<int>,
    additionalCopies: Option<int>,
    deliveryMethod: Option<string>,
    rushTranslation: bool)

  // The destructuring defaults of `calculatePrice`.
  function ServiceTypeOf(o: PriceOptions): string { Default(o.serviceType, "full-service") }
  function PagesOf(o: PriceOptions): int { Default(o.pages, 1) }
  function WordsOf(o: PriceOptions): int { Default(o.words, 0) }
  function NumDocsOf(o: PriceOptions): int { Default(o.numDocs, 1) }
  function InsuranceCountOf(o: PriceOptions): int { Default(o.insuranceCount, 1) }
  function CopiesOf(o: PriceOptions): int { Default(o.additionalCopies, 0) }
  function DeliveryOf(o: PriceOptions): string { Default(o.deliveryMethod, "pickup") }

  /** The insurance tier, when it is given and has a price. */
  function InsuranceTierRate(o: PriceOptions): Option<nat> {
    if StrTruthy(o.insurance) then InsuranceRate(o.insurance.value) else None
  }

  // The five base lines and the rush line, as the source promises them.

  /** Word-based pricing only for a full-service order with words > 0. */
  function ServiceAmount(o: PriceOptions): int {
    if ServiceTypeOf(o) == "full-service" && WordsOf(o) > 0 then WordsOf(o) * PerWord
    else PagesOf(o) * PageRate(ServiceTypeOf(o))
  }

  function CertificationAmount(o: PriceOptions): int {
    if o.certification then NumDocsOf(o) * CertificationPerDoc else 0
  }

  function InsuranceAmount(o: PriceOptions): int {
    match InsuranceTierRate(o)
    case Some(rate) => InsuranceCountOf(o) * rate
    case None => 0
  }

  function CopiesAmount(o: PriceOptions): int {
    if CopiesOf(o) > 0 then CopiesOf(o) * PagesOf(o) * AdditionalCopy else 0
  }

  function DeliveryAmount(o: PriceOptions): int {
    if DeliveryOf(o) == "delivery" then DeliveryFee else 0
  }

  /** The rush surcharge: half the service line, rounded; nothing else. */
  function RushAmount(o: PriceOptions): int {
    if o.rushTranslation then RoundHalf(ServiceAmount(o)) else 0
  }

  /** The keys of the breakdown object, in the order they are declared. */
  datatype LineKind = ServiceLine | CertificationLine | InsuranceLine | CopiesLine | DeliveryLine | RushLine

  datatype Line = Line(kind: LineKind, amount: int)

  /** The breakdown object the source fills in field by field. */
  datatype Breakdown = Breakdown(service: int, certification: int, insurance: int, copies: int, delivery: int, rush: int)

  /** `Object.entries(breakdown)` */
  function Entries(b: Breakdown): seq<Line> {
    [Line(ServiceLine, b.service), Line(CertificationLine, b.certification), Line(InsuranceLine, b.insurance),
     Line(CopiesLine, b.copies), Line(DeliveryLine, b.delivery), Line(RushLine, b.rush)]
  }

  /** `reduce((sum, item) => sum + item.amount, 0)` */
  function SumAmounts(lines: seq<Line>): int {
    if lines == [] then 0 else lines[0].amount + SumAmounts(lines[1..])
  }

  lemma SumOfEntries(b: Breakdown)
    ensures SumAmounts(Entries(b)) == b.service + b.certification + b.insurance + b.copies + b.delivery + b.rush
  {
    var e := Entries(b);
    assert e[5..][1..] == [];
    assert e[4..][1..] == e[5..];
    assert e[3..][1..] == e[4..];
    assert e[2..][1..] == e[3..];
    assert e[1..][1..] == e[2..];
    assert SumAmounts(e[5..]) == b.rush;
    assert SumAmounts(e[4..]) == b.delivery + b.rush;
    assert SumAmounts(e[3..]) == b.copies + b.delivery + b.rush;
    assert SumAmounts(e[2..]) == b.insurance + b.copies + b.delivery + b.rush;
    assert SumAmounts(e[1..]) == b.certification + b.insurance + b.copies + b.delivery + b.rush;
  }

  /** `filter(([key, value]) => value.amount > 0)`, keeping the order. */
  function Positive(lines: seq<Line>): (r: seq<Line>)
    ensures |r| <= |lines|
    ensures forall i :: 0 <= i < |r| ==> r[i].amount > 0
  {
    if lines == [] then []
    else if lines[0].amount > 0 then [lines[0]] + Positive(lines[1..])
    else Positive(lines[1..])
  }

  /** A line survives the filter exactly when it is one of the input lines
      and its amount is positive. */
  lemma {:induction false} PositiveKeeps(lines: seq<Line>, l: Line)
    ensures l in Positive(lines) <==> l in lines && l.amount > 0
  {
    if lines != [] {
      PositiveKeeps(lines[1..], l);
      assert lines == [lines[0]] + lines[1..];
    }
  }

  /** The `summary` object (without the Arabic service name). */
  datatype Summary = Summary(
    serviceType: string, pages: int, words: Option<int>, certification: bool, insurance: Option<string>,
    additionalCopies: int, deliveryMethod: string, rushTranslation: bool)

  datatype Quote = Quote(subtotal: int, total: int, currency: string, breakdown: seq<Line>, summary: Summary)

  /** The six lines of a quote, rush included. */
  function AllLines(o: PriceOptions): seq<Line> {
    Entries(Breakdown(ServiceAmount(o), CertificationAmount(o), InsuranceAmount(o), CopiesAmount(o),
                      DeliveryAmount(o), RushAmount(o)))
  }

  function SummaryOf(o: PriceOptions): Summary {
    Summary(ServiceTypeOf(o), PagesOf(o), if IntTruthy(Some(WordsOf(o))) then Some(WordsOf(o)) else None,
            o.certification, if StrTruthy(o.insurance) then o.insurance else None,
            CopiesOf(o), DeliveryOf(o), o.rushTranslation)
  }

  /** The quote the source promises: subtotal is the five base lines, the
      total adds the rush line, and the breakdown lists the non-zero lines. */
  function QuoteOf(o: PriceOptions): Quote {
    Quote(SubtotalOf(o), SubtotalOf(o) + RushAmount(o), "IQD", Positive(AllLines(o)), SummaryOf(o))
  }

  /** The five base lines; the rush line is not part of the subtotal. */
  function SubtotalOf(o: PriceOptions): int {
    ServiceAmount(o) + CertificationAmount(o) + InsuranceAmount(o) + CopiesAmount(o) + DeliveryAmount(o)
  }

  /** Step 1 of `calculatePrice`: the `switch` that picks the page rate,
      then the word-count override for full service. */
  method ServiceCost(serviceType: string, pages: int, words: int) returns (amount: int)
    ensures amount == ServiceAmount(PriceOptions(Some(serviceType), Some(pages), Some(words),
                                                 false, None, None, None, None, None, false))
  {
    var baseRate: int;
    if serviceType == "full-service" {
      baseRate := FullServicePerPage;
    } else if serviceType == "self-translation" {
      baseRate := SelfTranslationPerPage;
    } else if serviceType == "ai-translation" {
      baseRate := AiTranslationPerPage;
    } else {
      baseRate := FullServicePerPage;
    }
    if words > 0 && serviceType == "full-service" {
      amount := words * PerWord;
    } else {
      amount := pages * baseRate;
    }
  }

  /** `calculatePrice`, step by step as the source fills its breakdown. */
  method CalculatePrice(o: PriceOptions) returns (q: Quote)
    ensures q == QuoteOf(o)
  {
    var serviceType := Default(o.serviceType, "full-service");
    var pages := Default(o.pages, 1);
    var words := Default(o.words, 0);
    var numDocs := Default(o.numDocs, 1);
    var insuranceCount := Default(o.insuranceCount, 1);
    var additionalCopies := Default(o.additionalCopies, 0);
    var deliveryMethod := Default(o.deliveryMethod, "pickup");

    var breakdown := Breakdown(0, 0, 0, 0, 0, 0);

    // 1. Base service cost
    var service := ServiceCost(serviceType, pages, words);
    breakdown := breakdown.(service := service);
    assert breakdown == Breakdown(ServiceAmount(o), 0, 0, 0, 0, 0);

    // 2. Certification
    if o.certification {
      breakdown := breakdown.(certification := numDocs * CertificationPerDoc);
    }
    assert breakdown == Breakdown(ServiceAmount(o), CertificationAmount(o), 0, 0, 0, 0);

    // 3. Insurance
    if StrTruthy(o.insurance) && InsuranceRate(o.insurance.value).Some? {
      var insurancePrice := InsuranceRate(o.insurance.value).value;
      breakdown := breakdown.(insurance := insuranceCount * insurancePrice);
    }
    assert breakdown == Breakdown(ServiceAmount(o), CertificationAmount(o), InsuranceAmount(o), 0, 0, 0);

    // 4. Additional copies
    if additionalCopies > 0 {
      breakdown := breakdown.(copies := additionalCopies * pages * AdditionalCopy);
    }
    assert breakdown == Breakdown(ServiceAmount(o), CertificationAmount(o), InsuranceAmount(o), CopiesAmount(o), 0, 0);

    // 5. Delivery
    if deliveryMethod == "delivery" {
      breakdown := breakdown.(delivery := DeliveryFee);
    }
    assert breakdown == Breakdown(ServiceAmount(o), CertificationAmount(o), InsuranceAmount(o), CopiesAmount(o),
                                  DeliveryAmount(o), 0);

    // The subtotal is summed while the rush entry is still 0.
    SumOfEntries(breakdown);
    var subtotal := SumAmounts(Entries(breakdown));
    assert subtotal == SubtotalOf(o);

    // 6. Rush
    if o.rushTranslation {
      breakdown := breakdown.(rush := RoundHalf(breakdown.service));
    }

    assert breakdown == Breakdown(ServiceAmount(o), CertificationAmount(o), InsuranceAmount(o),
                                  CopiesAmount(o), DeliveryAmount(o), RushAmount(o));
    assert Entries(breakdown) == AllLines(o);
    var total := subtotal + breakdown.rush;
    q := Quote(subtotal, total, "IQD", Positive(Entries(breakdown)), SummaryOf(o));
  }

  // ---------------------------------------------------------------------
  // What the quote means
  // ---------------------------------------------------------------------

  /** The subtotal is the five base lines; the total adds exactly the rush
      line, which is half the service line (rounded) or nothing. */
  lemma QuoteIsSumOfLines(o: PriceOptions)
    ensures QuoteOf(o).subtotal == ServiceAmount(o) + CertificationAmount(o) + InsuranceAmount(o)
                                   + CopiesAmount(o) + DeliveryAmount(o)
    ensures QuoteOf(o).total == QuoteOf(o).subtotal + RushAmount(o)
    ensures !o.rushTranslation ==> QuoteOf(o).total == QuoteOf(o).subtotal
    ensures o.rushTranslation ==> ServiceAmount(o) <= 2 * RushAmount(o) <= ServiceAmount(o) + 1
  {
  }

  /** The rush line depends on the service line and the rush flag only:
      certification, insurance, copies and delivery do not change it. */
  lemma RushIndependentOfOtherLines(o: PriceOptions, o': PriceOptions)
    requires o.rushTranslation == o'.rushTranslation
    requires ServiceAmount(o) == ServiceAmount(o')
    ensures RushAmount(o) == RushAmount(o')
    ensures QuoteOf(o).total - QuoteOf(o).subtotal == QuoteOf(o').total - QuoteOf(o').subtotal
  {
  }

  /** The service line is word based exactly for a full-service order with
      a positive word count; otherwise it is pages times the type's rate. */
  lemma ServiceLineRule(o: PriceOptions)
    ensures ServiceTypeOf(o) == "full-service" && WordsOf(o) > 0 ==> ServiceAmount(o) == WordsOf(o) * 66
    ensures !(ServiceTypeOf(o) == "full-service" && WordsOf(o) > 0) ==>
      ServiceAmount(o) == PagesOf(o) * PageRate(ServiceTypeOf(o))
    ensures ServiceTypeOf(o) !in {"self-translation", "ai-translation"} ==> PageRate(ServiceTypeOf(o)) == 15000
  {
  }

  /** For any service type other than full service, the word count is ignored. */
  lemma WordsIgnoredUnlessFullService(o: PriceOptions, words: Option<int>)
    requires ServiceTypeOf(o) != "full-service"
    ensures ServiceAmount(o.(words := words)) == ServiceAmount(o)
    ensures QuoteOf(o.(words := words)).total == QuoteOf(o).total
  {
  }

  /** Certification and copies lines. */
  lemma CertificationAndCopies(o: PriceOptions)
    ensures CertificationAmount(o) == if o.certification then NumDocsOf(o) * 5000 else 0
    ensures CopiesAmount(o) == if CopiesOf(o) > 0 then CopiesOf(o) * PagesOf(o) * 2500 else 0
  {
  }

  /** Only the four known tiers are charged; an absent or unknown tier
      costs nothing and is not an error. Delivery costs 5000 iff chosen. */
  lemma InsuranceAndDelivery(o: PriceOptions)
    ensures (o.insurance.None? || o.insurance.value !in {"31days", "45days", "90days", "1year"}) ==> InsuranceAmount(o) == 0
    ensures o.insurance == Some("31days") ==> InsuranceAmount(o) == InsuranceCountOf(o) * 5000
    ensures o.insurance == Some("45days") ==> InsuranceAmount(o) == InsuranceCountOf(o) * 7500
    ensures o.insurance == Some("90days") ==> InsuranceAmount(o) == InsuranceCountOf(o) * 12500
    ensures o.insurance == Some("1year") ==> InsuranceAmount(o) == InsuranceCountOf(o) * 25000
    ensures DeliveryAmount(o) == 5000 <==> DeliveryOf(o) == "delivery"
    ensures DeliveryAmount(o) == 0 <==> DeliveryOf(o) != "delivery"
  {
  }

  /** The destructuring defaults apply to absent fields only. Without a
      word count, an explicit 0 page count is priced as 0 pages and an
      absent one as 1; an absent document or insurance count is 1 and an
      explicit 0 is 0; an absent type is full service; absent copies,
      delivery and insurance cost nothing. */
  lemma DefaultsOnlyForAbsentFields(o: PriceOptions)
    ensures ServiceAmount(o.(pages := Some(0), words := None)) == 0
    ensures ServiceAmount(o.(pages := None, words := None)) == PageRate(ServiceTypeOf(o))
    ensures ServiceAmount(o.(serviceType := None)) == ServiceAmount(o.(serviceType := Some("full-service")))
    ensures CertificationAmount(o.(certification := true, numDocs := None)) == CertificationPerDoc
    ensures CertificationAmount(o.(numDocs := Some(0))) == 0
    ensures InsuranceAmount(o.(insuranceCount := None)) ==
      (if InsuranceTierRate(o).Some? then InsuranceTierRate(o).value else 0)
    ensures InsuranceAmount(o.(insuranceCount := Some(0))) == 0
    ensures InsuranceAmount(o.(insurance := None)) == 0
    ensures CopiesAmount(o.(additionalCopies := None)) == 0
    ensures DeliveryAmount(o.(deliveryMethod := None)) == 0
  {
  }

  /** The breakdown lists exactly the lines with a positive amount, in the
      declared order; the subtotal and total still count every line. */
  lemma BreakdownListsPositiveLines(o: PriceOptions, l: Line)
    ensures l in QuoteOf(o).breakdown <==> l in AllLines(o) && l.amount > 0
    ensures Line(ServiceLine, ServiceAmount(o)) in QuoteOf(o).breakdown <==> ServiceAmount(o) > 0
    ensures Line(RushLine, RushAmount(o)) in QuoteOf(o).breakdown <==> RushAmount(o) > 0
  {
    PositiveKeeps(AllLines(o), l);
    PositiveKeeps(AllLines(o), Line(ServiceLine, ServiceAmount(o)));
    PositiveKeeps(AllLines(o), Line(RushLine, RushAmount(o)));
  }

  /** Three pages of full service with one certified document. */
  lemma QuoteScenarioCertified()
    ensures var a := PriceOptions(Some("full-service"), Some(3), None, true, Some(1), None, None, None, None, false);
      QuoteOf(a).subtotal == 50000 && QuoteOf(a).total == 50000 && ServiceAmount(a) == 45000 && CertificationAmount(a) == 5000
  {
  }

  /** A thousand words of full service, rushed. */
  lemma QuoteScenarioRushedWords()
    ensures var b := PriceOptions(Some("full-service"), None, Some(1000), false, None, None, None, None, None, true);
      ServiceAmount(b) == 66000 && RushAmount(b) == 33000 && QuoteOf(b).total == 99000
  {
  }

  /** Two pages of AI translation, insured for 45 days and delivered. */
  lemma QuoteScenarioInsuredDelivery()
    ensures var c := PriceOptions(Some("ai-translation"), Some(2), None, false, None, Some("45days"), Some(1), None, Some("delivery"), false);
      ServiceAmount(c) == 20000 && DeliveryAmount(c) == 5000 && InsuranceAmount(c) == 7500 && QuoteOf(c).total == 32500
  {
  }

  // ---------------------------------------------------------------------
  // applyDiscount
  // ---------------------------------------------------------------------

  datatype Discounted = Discounted(originalTotal: int, discount: int, discountedTotal: int)

  /** `applyDiscount(total, type, value)`; a percentage is rounded to the
      nearest IQD (halves up), a fixed amount never takes the total below 0. */
  function ApplyDiscount(total: int, discountType: string, value: int): (r: Discounted)
    ensures r.originalTotal == total
    ensures discountType == "percentage" ==>
      && r.discountedTotal == total - r.discount
      && 100 * r.discount - 50 <= total * value < 100 * r.discount + 50
    ensures discountType == "fixed" ==>
      && r.discount == value
      && r.discountedTotal == (if total - value > 0 then total - value else 0)
    ensures discountType != "percentage" && discountType != "fixed" ==>
      r.discount == 0 && r.discountedTotal == total
  {
    if discountType == "percentage" then
      var discount := (total * value + 50) / 100;
      Discounted(total, discount, total - discount)
    else if discountType == "fixed" then
      Discounted(total, value, if 0 > total - value then 0 else total - value)
    else
      Discounted(total, 0, total)
  }

  /** A percentage between 0 and 100 of a non-negative total never raises
      the total and never makes it negative. */
  lemma PercentageDiscountBounds(total: int, value: int)
    requires total >= 0 && 0 <= value <= 100
    ensures 0 <= ApplyDiscount(total, "percentage", value).discount
    ensures 0 <= ApplyDiscount(total, "percentage", value).discountedTotal <= total
  {
    assert 0 <= total * value <= total * 100 by {
      MulMonotone(total, value, 100);
    }
  }

  lemma MulMonotone(a: int, b: int, c: int)
    requires a >= 0 && 0 <= b <= c
    ensures 0 <= a * b <= a * c
  {
    assert a * c == a * b + a * (c - b);
  }

  // ---------------------------------------------------------------------
  // getPriceList
  // ---------------------------------------------------------------------

  datatype ServiceEntry = ServiceEntry(id: string, pricePerPage: nat, pricePerWord: Option<nat>)
  datatype PricedOption = PricedOption(id: string, price: nat)
  datatype PriceList = PriceList(
    services: seq<ServiceEntry>, certification: nat, additionalCopy: nat, delivery: nat,
    insurance: seq<PricedOption>, deliveryMethods: seq<PricedOption>, currency: string)

  function GetPriceList(): PriceList {
    PriceList(
      [ServiceEntry("full-service", FullServicePerPage, Some(PerWord)),
       ServiceEntry("self-translation", SelfTranslationPerPage, None),
       ServiceEntry("ai-translation", AiTranslationPerPage, None)],
      CertificationPerDoc, AdditionalCopy, DeliveryFee,
      [PricedOption("31days", 5000), PricedOption("45days", 7500),
       PricedOption("90days", 12500), PricedOption("1year", 25000)],
      [PricedOption("digital", 0), PricedOption("pickup", 0), PricedOption("delivery", DeliveryFee)],
      "IQD")
  }

  /** A quote for one page of a listed service, with no extras. */
  function OnePage(serviceType: string): PriceOptions {
    PriceOptions(Some(serviceType), None, None, false, None, None, None, None, None, false)
  }

  /** The published price list agrees with what `calculatePrice` charges
      for one page of each listed service. */
  lemma PriceListServicesAgree()
    ensures forall s :: s in GetPriceList().services ==> QuoteOf(OnePage(s.id)).total == s.pricePerPage
  {
    forall s | s in GetPriceList().services ensures QuoteOf(OnePage(s.id)).total == s.pricePerPage {
      assert s.pricePerPage == PageRate(s.id);
      OnePageTotal(s.id);
    }
  }

  /** One page with no extras costs the type's page rate. */
  lemma OnePageTotal(serviceType: string)
    ensures QuoteOf(OnePage(serviceType)).total == PageRate(serviceType)
  {
    var o := OnePage(serviceType);
    assert PagesOf(o) == 1 && WordsOf(o) == 0 && CopiesOf(o) == 0 && DeliveryOf(o) == "pickup";
    assert ServiceAmount(o) == PageRate(serviceType);
    assert InsuranceTierRate(o).None?;
    assert SubtotalOf(o) == PageRate(serviceType);
  }

  /** Each listed insurance tier and delivery method is charged at its
      published price. */
  lemma PriceListOptionsAgree()
    ensures forall t :: t in GetPriceList().insurance ==> InsuranceRate(t.id) == Some(t.price)
    ensures forall d :: d in GetPriceList().deliveryMethods ==>
      DeliveryAmount(OnePage("full-service").(deliveryMethod := Some(d.id))) == d.price
  {
  }
}
