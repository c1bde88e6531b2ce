/**
 The live negotiation parameters of one lease deal, as the dashboard's sidebar
 collects them (app.py:50-74).
 */
module Deal {

  /** The two portfolios the engine prices for. */
  datatype Landlord = WestProp | TerraceAfrica

  /** Tenant segments; the first three are offered for WestProp, the last three for Terrace Africa. */
  datatype TenantType =
    | CorporateHQ | DiplomaticNGO | LuxuryBoutique
    | SupermarketAnchor | LineShop | QsrRestaurant

  /** The landlord's name as it appears in the historical dataset and in the one-hot column names. */
  function LandlordName(l: Landlord): string
  {
    match l
    case WestProp => "WestProp Holdings"
    case TerraceAfrica => "Terrace Africa"
  }

  /** The tenant segments the sidebar offers for a landlord. */
  function TenantOptions(l: Landlord): seq<TenantType>
  {
    match l
    case WestProp => [CorporateHQ, DiplomaticNGO, LuxuryBoutique]
    case TerraceAfrica => [SupermarketAnchor, LineShop, QsrRestaurant]
  }

  /** The lease terms, in months, the term selector offers. */
  const LeaseTerms: seq<int> := [12, 24, 36, 60, 120]

  /**
   One deal. `vacancyPct` is the market vacancy as a percentage (0-100), the
   unit the slider uses; `assetClass` is a category value from the dataset.
   */
  datatype DealInput = DealInput(
    landlord: Landlord,
    tenant: TenantType,
    assetClass: string,
    targetRent: real,
    vacancyPct: real,
    credit: int,
    term: int)

  /** The ranges the sidebar widgets allow. */
  predicate ValidDeal(d: DealInput)
  {
    && d.tenant in TenantOptions(d.landlord)
    && 10.0 <= d.targetRent <= 60.0
    && 0.0 <= d.vacancyPct <= 20.0
    && 300 <= d.credit <= 850
    && d.term in LeaseTerms
  }
}
