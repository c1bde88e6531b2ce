/**
 The feature encoder: one deal becomes a one-row feature vector over the
 column list fixed when the model was trained (app.py:83-90).
 */
module Features {
  import opened Deal

  /** A one-row feature vector: column name to numeric value. */
  type FeatureRow = map<string, real>

  /**
   The trained regression model, seen only through the raw rent it predicts
   for a feature row. Training and the forest's internals are outside the model.
   */
  type RentModel = FeatureRow -> real

  const StartingAsk: string := "Starting_Ask_psm"
  const TenantCredit: string := "Tenant_Credit"
  const MarketVacancy: string := "Market_Vacancy"
  const LeaseTermMonths: string := "Lease_Term_Months"

  /** The four continuous columns the encoder always writes. */
  const ContinuousColumns: set<string> := {StartingAsk, TenantCredit, MarketVacancy, LeaseTermMonths}

  /** The live asking rent is modelled as the target rent plus a 15% markup. */
  const AskMarkup: real := 1.15

  const LandlordPrefix: string := "Landlord_"
  const AssetPrefix: string := "Asset_Class_"

  predicate HasPrefix(k: string, prefix: string)
  {
    |prefix| <= |k| && k[..|prefix|] == prefix
  }

  /** The one-hot column for a landlord, as one-hot encoding of the dataset names it. */
  function LandlordColumn(l: Landlord): string
  {
    LandlordPrefix + LandlordName(l)
  }

  /** The one-hot column for an asset class. */
  function AssetColumn(asset: string): string
  {
    AssetPrefix + asset
  }

  /** Every training column, each set to zero. */
  function ZeroRow(names: seq<string>): (row: FeatureRow)
    ensures forall k :: k in row <==> k in names
    ensures forall k :: k in row ==> row[k] == 0.0
  {
    map k | k in names :: 0.0
  }

  /**
   The live feature row. Assigning a column that is not among `names` adds it,
   as column assignment on a data frame does; the indicator columns are only
   written when they are already known.
   */
  function Encode(names: seq<string>, d: DealInput): (row: FeatureRow)
    ensures forall k :: k in row <==> k in names || k in ContinuousColumns
    ensures row[StartingAsk] == d.targetRent * AskMarkup
    ensures row[TenantCredit] == d.credit as real
    ensures row[MarketVacancy] == d.vacancyPct / 100.0
    ensures row[LeaseTermMonths] == d.term as real
    ensures LandlordColumn(d.landlord) in names ==> row[LandlordColumn(d.landlord)] == 1.0
    ensures AssetColumn(d.assetClass) in names ==> row[AssetColumn(d.assetClass)] == 1.0
    ensures forall k :: (k in row && k !in ContinuousColumns
                         && k != LandlordColumn(d.landlord) && k != AssetColumn(d.assetClass)) ==> row[k] == 0.0
  {
    IndicatorsAreNotContinuous(d.landlord, d.assetClass);
    var filled := ZeroRow(names)[StartingAsk := d.targetRent * AskMarkup]
                                [TenantCredit := d.credit as real]
                                [MarketVacancy := d.vacancyPct / 100.0]
                                [LeaseTermMonths := d.term as real];
    var withLandlord :=
      if LandlordColumn(d.landlord) in names then filled[LandlordColumn(d.landlord) := 1.0] else filled;
    if AssetColumn(d.assetClass) in names then withLandlord[AssetColumn(d.assetClass) := 1.0] else withLandlord
  }

  /** The indicator columns are distinct from each other and from the continuous columns. */
  lemma IndicatorsAreNotContinuous(l: Landlord, asset: string)
    ensures LandlordColumn(l) !in ContinuousColumns
    ensures AssetColumn(asset) !in ContinuousColumns
    ensures LandlordColumn(l) != AssetColumn(asset)
    ensures HasPrefix(LandlordColumn(l), LandlordPrefix) && HasPrefix(AssetColumn(asset), AssetPrefix)
    ensures forall k :: k in ContinuousColumns ==> !HasPrefix(k, LandlordPrefix) && !HasPrefix(k, AssetPrefix)
    ensures !HasPrefix(AssetColumn(asset), LandlordPrefix) && !HasPrefix(LandlordColumn(l), AssetPrefix)
  {
    assert LandlordColumn(l)[1] == 'a';
    assert AssetColumn(asset)[0] == 'A';
    assert (LandlordColumn(l)[..|LandlordPrefix|]) == LandlordPrefix;
    assert (AssetColumn(asset)[..|AssetPrefix|]) == AssetPrefix;
    forall k | k in ContinuousColumns
      ensures !HasPrefix(k, LandlordPrefix) && !HasPrefix(k, AssetPrefix)
    {
      assert k[0] != 'A';
      assert k[..2] != LandlordPrefix[..2];
    }
  }

  /**
   When the training columns include the four continuous fields (they do, since
   training keeps every dataset column but the target and the identifiers), the
   live row has exactly the training columns.
   */
  lemma EncodeKeepsTrainingColumns(names: seq<string>, d: DealInput)
    requires ContinuousColumns <= set k | k in names
    ensures Encode(names, d).Keys == set k | k in names
  {
  }

  /**
   The one-hot blocks: a `Landlord_*` column is non-zero only if it is the
   deal's landlord column and that column was seen in training, and likewise
   for `Asset_Class_*`; an unseen category leaves its block all zero.
   */
  lemma EncodedIndicatorsAreOneHot(names: seq<string>, d: DealInput)
    ensures var row := Encode(names, d);
      forall k :: k in row && HasPrefix(k, LandlordPrefix) && row[k] != 0.0 ==>
        k == LandlordColumn(d.landlord) && k in names && row[k] == 1.0
    ensures var row := Encode(names, d);
      forall k :: k in row && HasPrefix(k, AssetPrefix) && row[k] != 0.0 ==>
        k == AssetColumn(d.assetClass) && k in names && row[k] == 1.0
  {
    var row := Encode(names, d);
    IndicatorsAreNotContinuous(d.landlord, d.assetClass);
    forall k | k in row && HasPrefix(k, LandlordPrefix) && row[k] != 0.0
      ensures k == LandlordColumn(d.landlord) && k in names && row[k] == 1.0
    {
      assert k !in ContinuousColumns;
      assert k != AssetColumn(d.assetClass);
    }
    forall k | k in row && HasPrefix(k, AssetPrefix) && row[k] != 0.0
      ensures k == AssetColumn(d.assetClass) && k in names && row[k] == 1.0
    {
      assert k !in ContinuousColumns;
      assert k != LandlordColumn(d.landlord);
    }
  }

  /**
   Overwriting the vacancy feature of the live row with a fraction `v` gives
   the row the encoder builds for the same deal with the vacancy slider at
   100 * v: nothing else in the row changes.
   */
  lemma EncodeWithVacancy(names: seq<string>, d: DealInput, v: real)
    ensures Encode(names, d.(vacancyPct := 100.0 * v)) == Encode(names, d)[MarketVacancy := v]
  {
    var a := Encode(names, d.(vacancyPct := 100.0 * v));
    var b := Encode(names, d)[MarketVacancy := v];
    assert a.Keys == b.Keys;
    forall k | k in a
      ensures a[k] == b[k]
    {
      IndicatorsAreNotContinuous(d.landlord, d.assetClass);
    }
  }

  /**
   Overwriting the credit feature of the live row with an integer score `c`
   gives the row the encoder builds for the same deal with credit `c`.
   */
  lemma EncodeWithCredit(names: seq<string>, d: DealInput, c: int)
    ensures Encode(names, d.(credit := c)) == Encode(names, d)[TenantCredit := c as real]
  {
    var a := Encode(names, d.(credit := c));
    var b := Encode(names, d)[TenantCredit := c as real];
    assert a.Keys == b.Keys;
    forall k | k in a
      ensures a[k] == b[k]
    {
      IndicatorsAreNotContinuous(d.landlord, d.assetClass);
    }
  }
}
