/**
 * The static rule configuration of the VISE card service: the five card tiers,
 * the per-tier requirements table and the restricted-country list, plus the
 * plain records the handlers pass around (a registered client, a purchase).
 */
module Domain {
  import opened Wrappers

  /** The five card tiers known to the service. */
  datatype CardType = Classic | Gold | Platinum | Black | White

  /** The static requirements of one tier. */
  datatype TierConfig = TierConfig(minIncome: real, requiresViseClub: bool, restrictedCountries: bool)

  /** Day of the week as JavaScript's `getDay()` numbers it: 0 is Sunday, 6 is Saturday. */
  type Weekday = d: int | 0 <= d <= 6

  /** A registered client as the registration handler stores it. */
  datatype Client = Client(
    clientId: int,
    name: string,
    country: string,
    monthlyIncome: real,
    viseClub: bool,
    cardType: string)

  /** The part of a purchase request that the benefit rules read. */
  datatype Purchase = Purchase(amount: real, dayOfWeek: Weekday, purchaseCountry: string)

  /** The name under which a tier is requested and stored. */
  function Name(t: CardType): string
  {
    match t
    case Classic => "Classic"
    case Gold => "Gold"
    case Platinum => "Platinum"
    case Black => "Black"
    case White => "White"
  }

  /** The tier a card-type string names, if it names one of the five. */
  function ParseCardType(s: string): (r: Option<CardType>)
    ensures r.Some? ==> Name(r.value) == s
    ensures r.None? ==> forall t: CardType :: Name(t) != s
  {
    if s == "Classic" then Some(Classic)
    else if s == "Gold" then Some(Gold)
    else if s == "Platinum" then Some(Platinum)
    else if s == "Black" then Some(Black)
    else if s == "White" then Some(White)
    else None
  }

  /** Parsing a tier's own name gives the tier back. */
  lemma ParseName(t: CardType)
    ensures ParseCardType(Name(t)) == Some(t)
  {
  }

  /**
   * The tier requirements table. Income floors are non-negative; the club is
   * required from Platinum up, and only the two top tiers, which also need the
   * club and the highest floor, restrict countries.
   */
  function Config(t: CardType): (c: TierConfig)
    ensures 0.0 <= c.minIncome <= 2000.0
    ensures c.requiresViseClub <==> Rank(t) >= 2
    ensures c.restrictedCountries <==> Rank(t) == 3
    ensures c.restrictedCountries ==> c.requiresViseClub && c.minIncome == 2000.0
  {
    match t
    case Classic => TierConfig(0.0, false, false)
    case Gold => TierConfig(500.0, false, false)
    case Platinum => TierConfig(1000.0, true, false)
    case Black => TierConfig(2000.0, true, true)
    case White => TierConfig(2000.0, true, true)
  }

  /** Position of a tier in the order Classic < Gold < Platinum < Black, White. */
  function Rank(t: CardType): nat
  {
    match t
    case Classic => 0
    case Gold => 1
    case Platinum => 2
    case Black => 3
    case White => 3
  }

  /**
   * The requirements only grow with the tier: a higher tier never asks for less
   * income, and any flag a lower tier sets is set by every higher tier too.
   */
  lemma RequirementsGrowWithRank(lo: CardType, hi: CardType)
    requires Rank(lo) <= Rank(hi)
    ensures Config(lo).minIncome <= Config(hi).minIncome
    ensures Config(lo).requiresViseClub ==> Config(hi).requiresViseClub
    ensures Config(lo).restrictedCountries ==> Config(hi).restrictedCountries
    ensures 0.0 <= Config(lo).minIncome
  {
  }

  /** Countries whose clients may not hold, and whose merchants may not charge, Black and White cards. */
  const RestrictedCountries: seq<string> := ["China", "Vietnam", "India", "Iran"]

  /**
   * Whether a country is on the restricted list: an exact, case-sensitive
   * match against one of the four names, so a missing (empty) country never is.
   */
  predicate IsRestricted(country: string): (r: bool)
    ensures r <==> country == "China" || country == "Vietnam" || country == "India" || country == "Iran"
    ensures r ==> country != ""
  {
    country in RestrictedCountries
  }
}
