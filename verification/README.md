# Lease pricing engine — Dafny model

A model of the pricing core of the Institutional Lease Negotiation Engine, a
dashboard that prices a commercial lease for two portfolios, WestProp Holdings
and Terrace Africa. For one deal (landlord, tenant type, asset class, target
rent, market vacancy, tenant credit score and lease term) the engine does five
things:

- it encodes the deal as a one-row feature vector over the columns fixed at training time;
- it asks a trained random forest for a raw closing rent;
- it adjusts that rent by landlord-specific vacancy and tenant-type rules;
- it derives the valuation impact, the concession structure and the net effective rent (NER);
- it runs two sensitivity analyses: a credit-score sweep and a vacancy stress test.

All of it is written as pure functions over `real`. The random forest is a
parameter `model: FeatureRow -> real`: the trained model is an immutable value
passed into every call. Wherever a property needs the raw prediction to be
non-negative, that is a precondition on the one row the property uses.

Files and modules:

- `deal.dfy` (`Deal`): landlords, tenant types, the deal record and the ranges the sidebar allows.
- `features.dfy` (`Features`): the feature row as `map<string, real>`, the encoder, and how the encoder relates to single-column overrides.
- `policy.dfy` (`Policy`): the two portfolio policies as a table of parameters. This is a reference definition, independent of app.py's branching.
- `pricing.dfy` (`Pricing`): the live prediction path, written branch for branch like app.py. Each contract ties a function to the policy table.
- `properties.dfy` (`PricingProperties`): positivity, direction of the vacancy rule, the credit threshold, the NER bound and two worked scenarios.
- `sensitivity.dfy` (`Sensitivity`): the credit sweep, the vacancy stress test and the corrected sweep point.

Three facts of the code that a reader might not expect:

- The credit sweep runs over 15 scores from 400 to 850 (app.py:164), although the credit input accepts 300 to 850 (app.py:73).
- The credit sweep applies only the vacancy factor, not the tenant-type multiplier (app.py:166-169). See Findings.
- A Terrace Africa Supermarket Anchor with credit above 750 gets a fit-out of 150 × 2.5 = 375 (app.py:116, 103).

## Model

| member | source | states |
|---|---|---|
| Features.ZeroRow | app.py:83 | the starting row has exactly the training columns, all zero |
| Features.Encode | app.py:83-90 | the row holds the training columns plus the four continuous ones; asking rent is target × 1.15, credit and term are copied, the vacancy feature is the percentage / 100; an indicator is 1 only when its column was seen in training; every other column is 0 |
| Features.EncodeKeepsTrainingColumns | app.py:83-87 | when the training columns include the continuous fields, the live row has exactly the training columns |
| Features.EncodedIndicatorsAreOneHot | app.py:89-90 | a non-zero `Landlord_*` column is the deal's landlord column, is known to training and equals 1; the same holds for `Asset_Class_*`; an unseen category leaves its block all zero |
| Features.IndicatorsAreNotContinuous | app.py:84-90 | indicator columns never coincide with a continuous column or with each other, so the order of the assignments does not matter |
| Features.EncodeWithVacancy | app.py:188-189 | overriding the vacancy feature with v gives the row the encoder builds with the slider at 100·v; every other feature is unchanged |
| Features.EncodeWithCredit | app.py:165 | overriding the credit feature with an integer score gives the row the encoder builds for that score |
| Pricing.VacancyAdjusted | app.py:95-100 | the vacancy rule is raw × the policy's vacancy factor: 1 + vac/250 for WestProp, 1 − vac/150 for Terrace Africa |
| Pricing.BrandAdjusted | app.py:95-105 | the adjusted prediction is raw × the vacancy factor × the policy's tenant factor: 1.10 only for a WestProp Diplomatic/NGO tenant, 0.85 only for a Terrace Supermarket Anchor, otherwise 1 |
| Pricing.FitOutMultiplier | app.py:98-105 | the fit-out multiplier is the policy's: 2.5 only for a Terrace Supermarket Anchor, otherwise 1.0; it is never below 1 |
| Pricing.CapRate | app.py:53-60 | the cap rate is the policy's, 0.075 for WestProp and 0.105 otherwise, and is positive |
| Pricing.Value | app.py:108-111 | asset value × cap rate = 12 × prediction, target value × cap rate = 12 × target rent, and value diff ≥ 0 exactly when prediction ≥ target rent |
| Pricing.ValueSignFollowsRent | app.py:131-132 | capitalising both rents at a positive rate keeps their order, so "Value Added" is shown exactly when the prediction reaches the target |
| Pricing.Concede | app.py:113-119 | rent-free months and fit-out base follow the policy's schedule on either side of the 750 threshold; fit-out = base × multiplier, which is at least 25 |
| Pricing.NetEffectiveRent | app.py:121 | fails exactly when the term is 0; otherwise NER × term = prediction × (term − free months) − fit-out, and NER ≤ prediction (< prediction) exactly when the concessions are non-negative (positive) |
| Pricing.NerGap | app.py:121 | prediction − NER equals the concessions, prediction × free months + fit-out, spread over the term |
| Pricing.WaleScore | app.py:78-80 | the WALE bar value is at most 1, equals term / 120 up to 120 months, and is 1 from 120 months on |
| Pricing.LiveAdjusted | app.py:83-105 | the live adjusted prediction is the model's output on the encoded deal times the policy's vacancy factor and tenant factor |
| Pricing.Price | app.py:83-121 | the live path fails exactly for a zero term; otherwise it reports the model's raw output for the encoded row and the brand-adjusted prediction; the concessions and fit-out multiplier are those of the deal's landlord, tenant and credit; the valuation capitalises the adjusted prediction, not the raw one; and NER × term = adjusted × (term − free months) − fit-out |
| PricingProperties.AdjustedStaysPositive | app.py:94-105 | for vacancy in [0, 20] a positive (non-negative) raw prediction stays positive (non-negative) after adjustment |
| PricingProperties.VacancyDirection | app.py:95-100 | for a positive raw prediction, more vacancy means a strictly higher WestProp rent and a strictly lower Terrace rent, in both directions of the equivalence |
| PricingProperties.ConcessionSchedule | app.py:113-119 | above 750: 0 or 1 free months, fit-out 50 (WestProp) or 150, 375 for an anchor (Terrace); at or below: 1 or 2 months, fit-out 25, 62.5 for an anchor |
| PricingProperties.CreditThresholdIsHard | app.py:114-119 | every score up to 750 is treated like 750 and every score above like 751, and 750 gets one more free month and a smaller fit-out than 751 |
| PricingProperties.LiveNerBelowPrediction | app.py:114-121 | for every allowed deal with a non-negative raw prediction, pricing succeeds, free months < term, fit-out ≥ 0, adjusted ≥ 0 and NER < adjusted |
| PricingProperties.TerraceAnchorScenario | app.py:99-121 | Terrace, anchor, vacancy 12, credit 750, term 36: multiplier 2.5, 2 free months, fit-out 62.5, adjusted = raw × 0.85 × (1 − 12/150), NER = (adjusted × 34 − 62.5)/36 |
| PricingProperties.WestPropDiplomaticScenario | app.py:95-121 | WestProp, Diplomatic/NGO, credit 800, any offered term: 0 free months, multiplier 1, fit-out 50, adjusted = raw × 1.10 × (1 + vac/250) |
| Sensitivity.CreditRow | app.py:165 | a sweep row has the live row's columns and differs from it only in `Tenant_Credit` |
| Sensitivity.CreditSweepPoint | app.py:165-169 | an as-written sweep point is the model's output on the credit-replaced row times the policy's vacancy factor alone |
| Sensitivity.CreditSweep | app.py:164-169 | 15 scores (`Sensitivity.CreditPoint` i, the i-th value of the linspace), from exactly 400 to exactly 850, evenly spaced by 450/14; each rent is the model on that score's row times the vacancy factor alone |
| Sensitivity.CreditRowAtLiveScore | app.py:165 | the sweep row at the deal's own score is the live row itself |
| Sensitivity.CreditSweepMissesTenantPremium | app.py:164-169 | for a WestProp Diplomatic/NGO deal and any integer score c with a positive raw prediction, the as-written sweep point at c is the live prediction with credit c divided by 1.10, so it differs from it; 400, 625 and 850 are sweep points |
| Sensitivity.CorrectedCreditSweepPoint | app.py:164-169 | the corrected sweep point is the as-written one times the policy's tenant factor |
| Sensitivity.CorrectedSweepIsLivePrediction | app.py:164-169 | the corrected sweep point at score c equals the live adjusted prediction of the same deal with credit c |
| Sensitivity.StressTest | app.py:184-197 | five entries; entry i is exactly the live adjusted prediction with the vacancy slider at 100 × step i (0, 5, 10, 15, 20), with the same landlord branch and tenant multiplier, whatever the slider's actual value |

## Findings

| source | as written | input that shows it | evidently intended | confidence | as-written member | corrected member |
|---|---|---|---|---|---|---|
| app.py:166-169 | the credit sweep multiplies each raw prediction by the vacancy factor only | WestProp Holdings, Diplomatic/NGO, credit 400 (or 625, or 850), any positive raw prediction: the sweep point at that score is the displayed prediction divided by 1.10 | the sweep applies the same tenant multiplier as the live prediction and the stress test (app.py:97, 102, 193, 196), so the curve passes through the displayed price | medium; not executed | Sensitivity.CreditSweepMissesTenantPremium | Sensitivity.CorrectedCreditSweepPoint |

`Sensitivity.CreditSweep` still models the chart as written. The corrected
point is proved equal to the live prediction by
`Sensitivity.CorrectedSweepIsLivePrediction`.

## Left out

- The Streamlit page, its widgets and styling, and the slider/number-input syncing through session state (app.py:7-19, 40-74) are UI plumbing. The deal arrives as a `DealInput`, and `ValidDeal` states the ranges the widgets allow; `Deal.TenantOptions` is the per-landlord tenant list (app.py:54, 58).
- Loading the CSV, one-hot encoding the dataset and halting on a missing file (app.py:22-37) are I/O and library behaviour. The training column list is the parameter `names`. The asset-class options drawn from the dataset (app.py:63) are an arbitrary string.
- Random forest training and prediction (app.py:31, 92, 165, 190) belong to a foreign library. The model is the function parameter `model`.
- If the training columns lacked one of the four continuous fields, the live row would gain an extra column and the library's prediction would reject it. `Features.Encode` shows the extra column, but the model does not represent the library's error. `Features.EncodeKeepsTrainingColumns` states when the columns match.
- The row is a map, so it has no column order. The library checks at predict time that the column names and their order equal those seen at fit, and then reads columns by position. Dropping the order is safe because app.py:83 builds the row with `columns=feature_names`, in training order, and app.py:84-90, 165 and 189 only overwrite columns that already exist, so each keeps its position. This holds when the column set equals the training set, which is the hypothesis of `Features.EncodeKeepsTrainingColumns`.
- Charts, the OLS trendline, the recommendation HTML, the negotiation script, the "% vs Target" delta and all number formatting (app.py:124-179, 197-200) are presentation only. This includes the stress table's "Vacancy %" labels.
- Pricing.NetEffectiveRent: for a zero term, app.py:121 divides a floating-point value by zero and gives inf or nan without raising; the model returns its own domain error `ZeroLeaseTerm` instead. The term selector (app.py:74) never offers a zero term.
- Floating-point rounding is left out. All arithmetic is over `real`, so, for example, 0.05 × 100 is exactly 5.
