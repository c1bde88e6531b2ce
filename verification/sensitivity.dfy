/**
 The sensitivity analyses: the credit sweep behind the strategy line chart
 (app.py:164-169) and the vacancy stress test table (app.py:184-197). Both
 re-evaluate the model on the live feature row with one feature replaced.
 */
module Sensitivity {
  import opened Deal
  import opened Features
  import opened Pricing
  import Policy

  const SweepLow: real := 400.0
  const SweepHigh: real := 850.0
  const SweepCount: nat := 15

  /** The i-th of SweepCount evenly spaced scores from SweepLow to SweepHigh, both included. */
  function CreditPoint(i: int): real
  {
    SweepLow + (i as real) * ((SweepHigh - SweepLow) / ((SweepCount - 1) as real))
  }

  /** The live feature row with the credit feature replaced by `c`. */
  function CreditRow(names: seq<string>, d: DealInput, c: real): (row: FeatureRow)
    ensures row.Keys == Encode(names, d).Keys
    ensures row[TenantCredit] == c
    ensures forall k :: k in row && k != TenantCredit ==> row[k] == Encode(names, d)[k]
  {
    Encode(names, d)[TenantCredit := c]
  }

  /**
   One point of the credit sweep as app.py computes it: the model on the
   credit-replaced row, times the vacancy factor only. The tenant-type
   multiplier of the live path is not applied.
   */
  function CreditSweepPoint(model: RentModel, names: seq<string>, d: DealInput, c: real): (r: real)
    ensures r == model(CreditRow(names, d, c)) * Policy.VacancyFactor(Policy.PolicyFor(d.landlord), d.vacancyPct)
  {
    VacancyAdjusted(d.landlord, model(CreditRow(names, d, c)), d.vacancyPct)
  }

  /** The credit sweep: 15 scores from 400 to 850 and the rent predicted at each (app.py:164-169). */
  method CreditSweep(model: RentModel, names: seq<string>, d: DealInput)
    returns (credits: seq<real>, rents: seq<real>)
    ensures |credits| == SweepCount && |rents| == SweepCount
    ensures credits[0] == SweepLow && credits[SweepCount - 1] == SweepHigh
    ensures forall i :: 0 <= i < SweepCount - 1 ==> credits[i + 1] - credits[i] == (SweepHigh - SweepLow) / ((SweepCount - 1) as real)
    ensures forall i :: 0 <= i < SweepCount ==> rents[i] == CreditSweepPoint(model, names, d, credits[i])
  {
    var liveRow := Encode(names, d);
    credits := [];
    rents := [];
    var i := 0;
    while i < SweepCount
      invariant 0 <= i <= SweepCount
      invariant |credits| == i && |rents| == i
      invariant forall j :: 0 <= j < i ==> credits[j] == CreditPoint(j)
      invariant forall j :: 0 <= j < i ==> rents[j] == CreditSweepPoint(model, names, d, credits[j])
    {
      var c := CreditPoint(i);
      var r := model(liveRow[TenantCredit := c]);
      if d.landlord == WestProp {
        r := r * (1.0 + d.vacancyPct / 250.0);
      } else {
        r := r * (1.0 - d.vacancyPct / 150.0);
      }
      credits := credits + [c];
      rents := rents + [r];
      i := i + 1;
    }
  }

  /**
   Every sweep row differs from the live row only in the credit feature, so a
   sweep point at the deal's own score uses the live row itself.
   */
  lemma CreditRowAtLiveScore(names: seq<string>, d: DealInput)
    ensures CreditRow(names, d, d.credit as real) == Encode(names, d)
  {
    var row := Encode(names, d);
    assert CreditRow(names, d, d.credit as real).Keys == row.Keys;
  }

  /**
   The credit sweep disagrees with the live prediction: for a WestProp deal
   with a Diplomatic/NGO tenant and any integer score c with a positive raw
   prediction, the sweep point at c lacks the 10% premium the live price with
   credit c carries. The sweep does pass through integer scores: 400, 625
   and 850 are among its points.
   */
  lemma CreditSweepMissesTenantPremium(model: RentModel, names: seq<string>, d: DealInput, c: int)
    requires d.landlord == WestProp && d.tenant == DiplomaticNGO
    requires 0.0 <= d.vacancyPct <= 20.0
    requires model(Encode(names, d.(credit := c))) > 0.0
    ensures CreditPoint(0) == 400.0 && CreditPoint(7) == 625.0 && CreditPoint(14) == 850.0
    ensures CreditSweepPoint(model, names, d, c as real) * 1.10 == LiveAdjusted(model, names, d.(credit := c))
    ensures CreditSweepPoint(model, names, d, c as real) != LiveAdjusted(model, names, d.(credit := c))
  {
    CorrectedSweepIsLivePrediction(model, names, d, c);
    EncodeWithCredit(names, d, c);
    var p := CreditSweepPoint(model, names, d, c as real);
    assert p > 0.0;
  }

  /** The sweep point with the live path's tenant multiplier applied as well. */
  function CorrectedCreditSweepPoint(model: RentModel, names: seq<string>, d: DealInput, c: real): (r: real)
    ensures r == CreditSweepPoint(model, names, d, c) * Policy.TenantFactor(Policy.PolicyFor(d.landlord), d.tenant)
  {
    BrandAdjusted(d.landlord, d.tenant, model(CreditRow(names, d, c)), d.vacancyPct)
  }

  /**
   The corrected sweep point at an integer score is the live adjusted
   prediction of the same deal with that credit score, for every landlord and
   tenant type.
   */
  lemma CorrectedSweepIsLivePrediction(model: RentModel, names: seq<string>, d: DealInput, c: int)
    ensures CorrectedCreditSweepPoint(model, names, d, c as real) == LiveAdjusted(model, names, d.(credit := c))
  {
    EncodeWithCredit(names, d, c);
  }

  /** The vacancy checkpoints of the stress test, as fractions. */
  const VacancySteps: seq<real> := [0.0, 0.05, 0.10, 0.15, 0.20]

  /**
   The stress test (app.py:184-197): the live row with the vacancy feature
   overridden by each checkpoint, adjusted with the landlord's vacancy rule
   and tenant multiplier at that checkpoint. Each entry is exactly the live
   adjusted prediction the dashboard would show with the vacancy slider at that
   percentage, whatever the slider's actual value.
   */
  method StressTest(model: RentModel, names: seq<string>, d: DealInput) returns (rents: seq<real>)
    ensures |rents| == |VacancySteps|
    ensures forall i :: 0 <= i < |rents| ==>
      rents[i] == LiveAdjusted(model, names, d.(vacancyPct := 100.0 * VacancySteps[i]))
  {
    var liveRow := Encode(names, d);
    rents := [];
    for i := 0 to |VacancySteps|
      invariant |rents| == i
      invariant forall j :: 0 <= j < i ==>
        rents[j] == LiveAdjusted(model, names, d.(vacancyPct := 100.0 * VacancySteps[j]))
    {
      var v := VacancySteps[i];
      var raw := model(liveRow[MarketVacancy := v]);
      var p: real;
      if d.landlord == WestProp {
        p := raw * (1.0 + (v * 100.0 / 250.0));
        if d.tenant == DiplomaticNGO { p := p * 1.10; }
      } else {
        p := raw * (1.0 - (v * 100.0 / 150.0));
        if d.tenant == SupermarketAnchor { p := p * 0.85; }
      }
      EncodeWithVacancy(names, d, v);
      rents := rents + [p];
    }
  }
}
