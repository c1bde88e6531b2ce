/**
 The live prediction path: the raw model output adjusted by the portfolio
 rules (app.py:94-105), the valuation impact (app.py:107-111), the concession
 structure and net effective rent (app.py:113-121), and the WALE meter
 (app.py:78-80). The functions follow app.py's branching; their contracts
 tie them to the policy table and state the promises the dashboard relies on.
 */
module Pricing {
  import opened Deal
  import opened Features
  import Policy

  datatype PricingError = ZeroLeaseTerm

  datatype Result<T> = Ok(value: T) | Err(error: PricingError)

  /** The vacancy adjustment alone (app.py:96 and 100, repeated by the credit sweep). */
  function VacancyAdjusted(l: Landlord, raw: real, vacancyPct: real): (r: real)
    ensures r == raw * Policy.VacancyFactor(Policy.PolicyFor(l), vacancyPct)
  {
    if l == WestProp then raw * (1.0 + vacancyPct / 250.0)
    else raw * (1.0 - vacancyPct / 150.0)
  }

  /** The brand behaviours: vacancy adjustment, then the tenant-type multiplier (app.py:95-105). */
  function BrandAdjusted(l: Landlord, t: TenantType, raw: real, vacancyPct: real): (r: real)
    ensures r == raw * Policy.VacancyFactor(Policy.PolicyFor(l), vacancyPct)
                     * Policy.TenantFactor(Policy.PolicyFor(l), t)
  {
    var p := VacancyAdjusted(l, raw, vacancyPct);
    if l == WestProp then
      if t == DiplomaticNGO then p * 1.10 else p
    else
      if t == SupermarketAnchor then p * 0.85 else p
  }

  /** The fit-out multiplier chosen alongside the brand behaviours (app.py:98, 103, 105). */
  function FitOutMultiplier(l: Landlord, t: TenantType): (m: real)
    ensures m == Policy.FitOutMultiplier(Policy.PolicyFor(l), t)
    ensures m >= 1.0
  {
    if l == WestProp then 1.0
    else if t == SupermarketAnchor then 2.5
    else 1.0
  }

  /** The exit cap rate of the landlord's portfolio (app.py:53-60). */
  function CapRate(l: Landlord): (c: real)
    ensures c == Policy.PolicyFor(l).capRate
    ensures c > 0.0
  {
    if l == WestProp then 0.075 else 0.105
  }

  /** The adjusted prediction of the live deal: encode, predict, apply the brand behaviours (app.py:83-105). */
  function LiveAdjusted(model: RentModel, names: seq<string>, d: DealInput): (r: real)
    ensures r == model(Encode(names, d)) * Policy.VacancyFactor(Policy.PolicyFor(d.landlord), d.vacancyPct)
                                         * Policy.TenantFactor(Policy.PolicyFor(d.landlord), d.tenant)
  {
    BrandAdjusted(d.landlord, d.tenant, model(Encode(names, d)), d.vacancyPct)
  }

  datatype Valuation = Valuation(assetValue: real, targetValue: real, valueDiff: real)

  /** Annual rent capitalised at the portfolio's cap rate, for the prediction and for the target (app.py:108-111). */
  function Value(l: Landlord, prediction: real, targetRent: real): (v: Valuation)
    ensures v.assetValue * CapRate(l) == prediction * 12.0
    ensures v.targetValue * CapRate(l) == targetRent * 12.0
    ensures v.valueDiff == v.assetValue - v.targetValue
    ensures v.valueDiff >= 0.0 <==> prediction >= targetRent
  {
    var annualRent := prediction * 12.0;
    var assetValue := annualRent / CapRate(l);
    var targetValue := (targetRent * 12.0) / CapRate(l);
    ValueSignFollowsRent(prediction, targetRent, CapRate(l));
    Valuation(assetValue, targetValue, assetValue - targetValue)
  }

  /** Capitalising at a positive rate keeps the order of two rents. */
  lemma ValueSignFollowsRent(p: real, target: real, cap: real)
    requires cap > 0.0
    ensures (p * 12.0) / cap - (target * 12.0) / cap >= 0.0 <==> p >= target
  {
    assert (p * 12.0) / cap - (target * 12.0) / cap == (p - target) * (12.0 / cap);
  }

  datatype Concessions = Concessions(freeRentMonths: nat, fitOut: real)

  /** Rent-free months and fit-out contribution, chosen by the credit threshold (app.py:114-119). */
  function Concede(l: Landlord, t: TenantType, credit: int): (c: Concessions)
    ensures c.freeRentMonths == Policy.FreeRentMonths(Policy.PolicyFor(l), credit)
    ensures c.fitOut == Policy.FitOutBase(Policy.PolicyFor(l), credit) * FitOutMultiplier(l, t)
    ensures c.freeRentMonths <= 2
    ensures c.fitOut >= 25.0
  {
    var m := FitOutMultiplier(l, t);
    if credit > 750 then
      Concessions(if l == WestProp then 0 else 1, (if l == TerraceAfrica then 150.0 else 50.0) * m)
    else
      Concessions(if l == TerraceAfrica then 2 else 1, 25.0 * m)
  }

  /**
   Net effective rent: the prediction over the paying months, less the fit-out,
   spread over the whole term (app.py:121). The term selector (app.py:74) never
   offers a zero term; for one, app.py's floating-point division would give
   inf or nan without raising, and this model instead reports its own domain
   error `ZeroLeaseTerm`.
   */
  function NetEffectiveRent(prediction: real, term: int, freeRentMonths: nat, fitOut: real): (r: Result<real>)
    ensures r.Err? <==> term == 0
    ensures r.Ok? ==> r.value * (term as real) == prediction * ((term - freeRentMonths) as real) - fitOut
    ensures term > 0 ==> (r.value <= prediction <==> prediction * (freeRentMonths as real) + fitOut >= 0.0)
    ensures term > 0 ==> (r.value < prediction <==> prediction * (freeRentMonths as real) + fitOut > 0.0)
  {
    if term == 0 then Err(ZeroLeaseTerm)
    else
      var ner := (prediction * ((term - freeRentMonths) as real) - fitOut) / (term as real);
      NerGap(prediction, term, freeRentMonths, fitOut);
      Ok(ner)
  }

  /** The gap between prediction and NER is the concessions amortised over the term. */
  lemma NerGap(p: real, term: int, rf: nat, fitOut: real)
    requires term != 0
    ensures p - (p * ((term - rf) as real) - fitOut) / (term as real) == (p * (rf as real) + fitOut) / (term as real)
  {
    var t := term as real;
    assert p * ((term - rf) as real) == p * t - p * (rf as real);
    assert p == (p * t) / t;
  }

  /** The WALE meter: the term as a share of a ten-year horizon, capped at 1 (app.py:78-80). */
  function WaleScore(term: int): (w: real)
    ensures w <= 1.0
    ensures term <= 120 ==> w * 120.0 == term as real
    ensures term >= 120 ==> w == 1.0
  {
    var score := (term as real) / 120.0;
    if score < 1.0 then score else 1.0
  }

  datatype PredictionResult = PredictionResult(
    raw: real,
    adjusted: real,
    fitOutMultiplier: real,
    valuation: Valuation,
    concessions: Concessions,
    ner: real)

  /** The live prediction path for one deal, from encoding to net effective rent (app.py:83-121). */
  function Price(model: RentModel, names: seq<string>, d: DealInput): (r: Result<PredictionResult>)
    ensures r.Err? <==> d.term == 0
    ensures r.Ok? ==> r.value.raw == model(Encode(names, d))
    ensures r.Ok? ==> r.value.adjusted == LiveAdjusted(model, names, d)
    ensures r.Ok? ==> r.value.concessions == Concede(d.landlord, d.tenant, d.credit)
                      && r.value.fitOutMultiplier == FitOutMultiplier(d.landlord, d.tenant)
    ensures r.Ok? ==> r.value.valuation == Value(d.landlord, r.value.adjusted, d.targetRent)
    ensures r.Ok? ==> r.value.ner * (d.term as real)
                      == r.value.adjusted * ((d.term - r.value.concessions.freeRentMonths) as real)
                         - r.value.concessions.fitOut
  {
    var raw := model(Encode(names, d));
    var adjusted := BrandAdjusted(d.landlord, d.tenant, raw, d.vacancyPct);
    var concessions := Concede(d.landlord, d.tenant, d.credit);
    match NetEffectiveRent(adjusted, d.term, concessions.freeRentMonths, concessions.fitOut)
    case Err(e) => Err(e)
    case Ok(ner) =>
      Ok(PredictionResult(raw, adjusted, FitOutMultiplier(d.landlord, d.tenant),
                          Value(d.landlord, adjusted, d.targetRent), concessions, ner))
  }
}
