/**
 Properties of the live prediction path: sign and direction of the portfolio
 adjustment, the credit threshold, the net-effective-rent bound, and the two
 worked scenarios of the pricing rules.
 */
module PricingProperties {
  import opened Deal
  import opened Features
  import opened Pricing
  import Policy

  /** Within the slider's vacancy range a positive raw prediction stays positive after adjustment. */
  lemma AdjustedStaysPositive(l: Landlord, t: TenantType, raw: real, vacancyPct: real)
    requires 0.0 <= vacancyPct <= 20.0
    ensures raw > 0.0 ==> BrandAdjusted(l, t, raw, vacancyPct) > 0.0
    ensures raw >= 0.0 ==> BrandAdjusted(l, t, raw, vacancyPct) >= 0.0
  {
    var f := Policy.VacancyFactor(Policy.PolicyFor(l), vacancyPct);
    assert f > 0.0;
    var m := Policy.TenantFactor(Policy.PolicyFor(l), t);
    assert BrandAdjusted(l, t, raw, vacancyPct) == raw * (f * m);
    assert f * m > 0.0;
  }

  /**
   For a positive raw prediction, vacancy moves the adjusted rent in opposite
   directions for the two portfolios, whatever the tenant type: strictly up
   for WestProp, strictly down for Terrace Africa.
   */
  lemma VacancyDirection(l: Landlord, t: TenantType, raw: real, v1: real, v2: real)
    requires raw > 0.0
    ensures l == WestProp ==>
      (BrandAdjusted(l, t, raw, v1) < BrandAdjusted(l, t, raw, v2) <==> v1 < v2)
    ensures l == TerraceAfrica ==>
      (BrandAdjusted(l, t, raw, v1) > BrandAdjusted(l, t, raw, v2) <==> v1 < v2)
  {
    var m := Policy.TenantFactor(Policy.PolicyFor(l), t);
    var k := raw * m;
    assert k > 0.0 by { PositiveScaleKeepsSign(m, raw); }
    var slope := if l == WestProp then k / 250.0 else -(k / 150.0);
    AdjustedIsLinear(l, t, raw, k, slope, v1);
    AdjustedIsLinear(l, t, raw, k, slope, v2);
    var a1 := BrandAdjusted(l, t, raw, v1);
    var a2 := BrandAdjusted(l, t, raw, v2);
    var step := v2 - v1;
    var change := slope * step;
    assert a2 - a1 == change;
    if l == WestProp {
      assert slope > 0.0;
      PositiveScaleKeepsSign(slope, step);
    } else {
      assert -slope > 0.0;
      var drop := -slope * step;
      assert change == -drop;
      PositiveScaleKeepsSign(-slope, step);
    }
  }

  /** The adjusted prediction is affine in the vacancy percentage. */
  lemma AdjustedIsLinear(l: Landlord, t: TenantType, raw: real, k: real, slope: real, v: real)
    requires k == raw * Policy.TenantFactor(Policy.PolicyFor(l), t)
    requires slope == if l == WestProp then k / 250.0 else -(k / 150.0)
    ensures BrandAdjusted(l, t, raw, v) == k + slope * v
  {
  }

  lemma PositiveScaleKeepsSign(g: real, x: real)
    requires g > 0.0
    ensures g * x > 0.0 <==> x > 0.0
  {
    if x > 0.0 {
      assert g * x > 0.0;
    } else {
      assert g * -x >= 0.0;
    }
  }

  /** The concession schedule for each landlord on each side of the threshold. */
  lemma ConcessionSchedule(l: Landlord, t: TenantType, credit: int)
    ensures var c := Concede(l, t, credit);
      l == WestProp && credit > 750 ==> c.freeRentMonths == 0 && c.fitOut == 50.0
    ensures var c := Concede(l, t, credit);
      l == WestProp && credit <= 750 ==> c.freeRentMonths == 1 && c.fitOut == 25.0
    ensures var c := Concede(l, t, credit);
      l == TerraceAfrica && credit > 750 ==>
        c.freeRentMonths == 1 && c.fitOut == (if t == SupermarketAnchor then 375.0 else 150.0)
    ensures var c := Concede(l, t, credit);
      l == TerraceAfrica && credit <= 750 ==>
        c.freeRentMonths == 2 && c.fitOut == (if t == SupermarketAnchor then 62.5 else 25.0)
  {
  }

  /**
   The threshold is hard: every score at or below 750 (750 included) gets the
   concessions of 750, every score above gets those of 751, and the two differ.
   */
  lemma CreditThresholdIsHard(l: Landlord, t: TenantType, credit: int)
    ensures credit <= 750 ==> Concede(l, t, credit) == Concede(l, t, 750)
    ensures credit > 750 ==> Concede(l, t, credit) == Concede(l, t, 751)
    ensures Concede(l, t, 750).freeRentMonths == Concede(l, t, 751).freeRentMonths + 1
    ensures Concede(l, t, 750).fitOut < Concede(l, t, 751).fitOut
  {
  }

  /**
   For any deal the sidebar allows and a non-negative raw prediction, pricing
   succeeds (the free-rent months are fewer than the term, which is never
   zero), the fit-out is non-negative, and concessions only lower the rent:
   NER is strictly below the adjusted prediction.
   */
  lemma LiveNerBelowPrediction(model: RentModel, names: seq<string>, d: DealInput)
    requires ValidDeal(d)
    requires model(Encode(names, d)) >= 0.0
    ensures Price(model, names, d).Ok?
    ensures var r := Price(model, names, d).value;
      && r.adjusted >= 0.0
      && r.concessions.fitOut >= 0.0
      && r.concessions.freeRentMonths < d.term
      && r.ner < r.adjusted
  {
    var raw := model(Encode(names, d));
    AdjustedStaysPositive(d.landlord, d.tenant, raw, d.vacancyPct);
    var p := BrandAdjusted(d.landlord, d.tenant, raw, d.vacancyPct);
    var c := Concede(d.landlord, d.tenant, d.credit);
    assert p * (c.freeRentMonths as real) >= 0.0;
    var ner := NetEffectiveRent(p, d.term, c.freeRentMonths, c.fitOut);
    assert ner.Ok? && ner.value < p;
  }

  /**
   Terrace Africa, Supermarket Anchor, target 35, vacancy 12%, credit 750,
   term 36: fit-out multiplier 2.5, two rent-free months, fit-out 62.5, and
   the NER formula over 34 paying months.
   */
  lemma TerraceAnchorScenario(model: RentModel, names: seq<string>, asset: string)
    ensures var d := DealInput(TerraceAfrica, SupermarketAnchor, asset, 35.0, 12.0, 750, 36);
      var r := Price(model, names, d);
      && r.Ok?
      && r.value.fitOutMultiplier == 2.5
      && r.value.concessions.freeRentMonths == 2
      && r.value.concessions.fitOut == 62.5
      && r.value.adjusted == r.value.raw * 0.85 * (1.0 - 12.0 / 150.0)
      && r.value.ner == (r.value.adjusted * 34.0 - 62.5) / 36.0
  {
  }

  /**
   WestProp, Diplomatic/NGO, credit 800: no rent-free months, fit-out 50 at
   multiplier 1, and the 10% diplomatic premium on top of the vacancy factor.
   */
  lemma WestPropDiplomaticScenario(model: RentModel, names: seq<string>, asset: string,
                                   rent: real, vacancyPct: real, term: int)
    requires term in LeaseTerms
    ensures var d := DealInput(WestProp, DiplomaticNGO, asset, rent, vacancyPct, 800, term);
      var r := Price(model, names, d);
      && r.Ok?
      && r.value.concessions.freeRentMonths == 0
      && r.value.fitOutMultiplier == 1.0
      && r.value.concessions.fitOut == 50.0
      && r.value.adjusted == r.value.raw * 1.10 * (1.0 + vacancyPct / 250.0)
  {
  }
}
