/**
 The two portfolio policies as a table of parameters: the business rules of
 the pricing engine stated once per landlord, independently of the branching
 in which the live prediction path writes them. The pricing module is proved
 to agree with this table.
 */
module Policy {
  import opened Deal

  /** Whether market vacancy raises or lowers the achievable rent. */
  datatype VacancyEffect = Raises | Lowers

  datatype PortfolioPolicy = PortfolioPolicy(
    vacancyEffect: VacancyEffect,
    vacancyDivisor: real,          // vacancy percentage per unit of rent change
    premiumTenant: TenantType,     // the one tenant segment priced off-model
    premiumFactor: real,           // multiplier on that segment's rent
    premiumFitOutMultiplier: real, // fit-out multiplier for that segment (1 for the rest)
    capRate: real,
    freeRentAbove: nat,            // rent-free months for credit above the threshold
    freeRentAtOrBelow: nat,
    fitOutBaseAbove: real,         // fit-out base for credit above the threshold
    fitOutBaseAtOrBelow: real)

  /** Credit scores strictly above this earn the better concession schedule. */
  const CreditThreshold: int := 750

  /** WestProp Holdings: scarcity premium, diplomatic premium, 7.5% cap rate. */
  const PolicyA: PortfolioPolicy :=
    PortfolioPolicy(Raises, 250.0, DiplomaticNGO, 1.10, 1.0, 0.075, 0, 1, 50.0, 25.0)

  /** Terrace Africa: vacancy discount, anchor discount with larger fit-out, 10.5% cap rate. */
  const PolicyB: PortfolioPolicy :=
    PortfolioPolicy(Lowers, 150.0, SupermarketAnchor, 0.85, 2.5, 0.105, 1, 2, 150.0, 25.0)

  function PolicyFor(l: Landlord): PortfolioPolicy
  {
    match l
    case WestProp => PolicyA
    case TerraceAfrica => PolicyB
  }

  /** Factor applied to the raw prediction for a vacancy percentage. */
  function VacancyFactor(p: PortfolioPolicy, vacancyPct: real): real
    requires p.vacancyDivisor > 0.0
  {
    match p.vacancyEffect
    case Raises => 1.0 + vacancyPct / p.vacancyDivisor
    case Lowers => 1.0 - vacancyPct / p.vacancyDivisor
  }

  function TenantFactor(p: PortfolioPolicy, t: TenantType): real
  {
    if t == p.premiumTenant then p.premiumFactor else 1.0
  }

  function FitOutMultiplier(p: PortfolioPolicy, t: TenantType): real
  {
    if t == p.premiumTenant then p.premiumFitOutMultiplier else 1.0
  }

  function FreeRentMonths(p: PortfolioPolicy, credit: int): nat
  {
    if credit > CreditThreshold then p.freeRentAbove else p.freeRentAtOrBelow
  }

  function FitOutBase(p: PortfolioPolicy, credit: int): real
  {
    if credit > CreditThreshold then p.fitOutBaseAbove else p.fitOutBaseAtOrBelow
  }
}
