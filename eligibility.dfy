/**
 * Card eligibility: whether a prospective client may hold the card tier they
 * ask for. The checks run in a fixed order (unknown tier, minimum income,
 * VISE CLUB subscription, restricted country) and the first one that fails
 * is the single reason reported.
 */
module Eligibility {
  import opened Wrappers
  import opened Domain

  /** What the eligibility check reads of a prospective client. */
  datatype Profile = Profile(name: string, country: string, monthlyIncome: real, viseClub: bool)

  /** The reasons a request is refused, with the values the message interpolates. */
  datatype EligibilityError =
    | UnknownCardType(cardType: string)
    | InsufficientIncome(minIncome: real, cardType: string)
    | ViseClubRequired(cardType: string)
    | CountryRestricted(country: string, cardType: string)

  datatype Verdict = Eligible | Ineligible(error: EligibilityError)

  /** The three requirements a known tier imposes, in the order they are checked. */
  datatype Requirement = MinimumIncome | ViseClubMembership | PermittedCountry

  function Order(q: Requirement): nat
  {
    match q
    case MinimumIncome => 0
    case ViseClubMembership => 1
    case PermittedCountry => 2
  }

  /** Whether a profile meets one requirement of a tier configuration. */
  predicate Satisfies(p: Profile, cfg: TierConfig, q: Requirement)
  {
    match q
    case MinimumIncome => p.monthlyIncome >= cfg.minIncome
    case ViseClubMembership => cfg.requiresViseClub ==> p.viseClub
    case PermittedCountry => cfg.restrictedCountries ==> !IsRestricted(p.country)
  }

  /** The requirement an error (other than an unknown tier) reports as unmet. */
  function Unmet(e: EligibilityError): Requirement
    requires !e.UnknownCardType?
  {
    match e
    case InsufficientIncome(_, _) => MinimumIncome
    case ViseClubRequired(_) => ViseClubMembership
    case CountryRestricted(_, _) => PermittedCountry
  }

  /**
   * The checks that follow a successful configuration lookup. A refusal names
   * a requirement the profile fails, every requirement checked before it
   * holds, and the error carries the tier name, the income floor and the
   * client's country as the message shows them.
   */
  function CheckRequirements(p: Profile, cardType: string, cfg: TierConfig): (r: Verdict)
    ensures r.Eligible? <==> forall q: Requirement :: Satisfies(p, cfg, q)
    ensures r.Ineligible? ==> !r.error.UnknownCardType? && r.error.cardType == cardType
    ensures r.Ineligible? ==> !Satisfies(p, cfg, Unmet(r.error))
    ensures r.Ineligible? ==>
      forall q: Requirement :: Order(q) < Order(Unmet(r.error)) ==> Satisfies(p, cfg, q)
    ensures r.Ineligible? && r.error.InsufficientIncome? ==> r.error.minIncome == cfg.minIncome
    ensures r.Ineligible? && r.error.CountryRestricted? ==> r.error.country == p.country
  {
    if p.monthlyIncome < cfg.minIncome then
      assert !Satisfies(p, cfg, MinimumIncome);
      Ineligible(InsufficientIncome(cfg.minIncome, cardType))
    else if cfg.requiresViseClub && !p.viseClub then
      assert !Satisfies(p, cfg, ViseClubMembership);
      Ineligible(ViseClubRequired(cardType))
    else if cfg.restrictedCountries && IsRestricted(p.country) then
      assert !Satisfies(p, cfg, PermittedCountry);
      Ineligible(CountryRestricted(p.country, cardType))
    else
      assert Satisfies(p, cfg, MinimumIncome) && Satisfies(p, cfg, ViseClubMembership);
      Eligible
  }

  /** All requirements of the named tier hold: the declarative meaning of "eligible". */
  predicate MeetsTier(p: Profile, t: CardType)
  {
    && p.monthlyIncome >= Config(t).minIncome
    && (Config(t).requiresViseClub ==> p.viseClub)
    && (Config(t).restrictedCountries ==> p.country !in RestrictedCountries)
  }

  /**
   * Eligibility as the service intends it: a card type that is not one of the
   * five tiers is refused first, then the tier's requirements are checked in order.
   */
  function ValidateCardEligibility(p: Profile, cardType: string): (r: Verdict)
    ensures r.Eligible? <==> ParseCardType(cardType).Some? && MeetsTier(p, ParseCardType(cardType).value)
    ensures r == Ineligible(UnknownCardType(cardType)) <==> ParseCardType(cardType).None?
    ensures r.Ineligible? ==> r.error.cardType == cardType
  {
    match ParseCardType(cardType)
    case None => Ineligible(UnknownCardType(cardType))
    case Some(t) =>
      var r := CheckRequirements(p, cardType, Config(t));
      assert r.Eligible? <==> (Satisfies(p, Config(t), MinimumIncome)
        && Satisfies(p, Config(t), ViseClubMembership) && Satisfies(p, Config(t), PermittedCountry));
      r
  }

  /**
   * Each requirement is checked only after the earlier ones pass: a known tier
   * that is refused reports the earliest requirement the profile fails. In
   * particular low income is reported even when the club subscription is
   * missing as well.
   */
  lemma {:induction false} FirstFailureIsReported(p: Profile, t: CardType, q: Requirement)
    requires !Satisfies(p, Config(t), q)
    ensures ValidateCardEligibility(p, Name(t)).Ineligible?
    ensures var e := ValidateCardEligibility(p, Name(t)).error;
      && !e.UnknownCardType?
      && !Satisfies(p, Config(t), Unmet(e))
      && Order(Unmet(e)) <= Order(q)
  {
    ParseName(t);
    assert ValidateCardEligibility(p, Name(t)) == CheckRequirements(p, Name(t), Config(t));
  }

  /** Being eligible for a tier makes a client eligible for every lower tier. */
  lemma EligibleForLowerTiers(p: Profile, lo: CardType, hi: CardType)
    requires Rank(lo) <= Rank(hi)
    requires ValidateCardEligibility(p, Name(hi)).Eligible?
    ensures ValidateCardEligibility(p, Name(lo)).Eligible?
  {
    ParseName(lo);
    ParseName(hi);
    RequirementsGrowWithRank(lo, hi);
  }

  // ---------------------------------------------------------------------------
  // The lookup as the code writes it
  // ---------------------------------------------------------------------------

  /**
   * What indexing the configuration object with a string yields in JavaScript:
   * one of its own tier entries, a member every object inherits (a function or
   * the prototype object itself, truthy but with none of the tier fields), or
   * `undefined`.
   */
  datatype ConfigLookup = OwnEntry(config: TierConfig) | InheritedMember | Undefined

  /** The names every plain JavaScript object inherits from `Object.prototype`. */
  const ObjectPrototypeKeys: set<string> := {
    "constructor", "hasOwnProperty", "isPrototypeOf", "propertyIsEnumerable",
    "toLocaleString", "toString", "valueOf", "__proto__",
    "__defineGetter__", "__defineSetter__", "__lookupGetter__", "__lookupSetter__"
  }

  function LookupAsWritten(cardType: string): (r: ConfigLookup)
    ensures r.OwnEntry? <==> ParseCardType(cardType).Some?
    ensures r.OwnEntry? ==> r.config == Config(ParseCardType(cardType).value)
    ensures r.InheritedMember? <==> cardType in ObjectPrototypeKeys
  {
    match ParseCardType(cardType)
    case Some(t) => OwnEntry(Config(t))
    case None => if cardType in ObjectPrototypeKeys then InheritedMember else Undefined
  }

  /**
   * The eligibility check exactly as the code runs it. An inherited member
   * passes the `!config` test; its `minIncome` is `undefined`, so the income
   * comparison is false, and its two flags are `undefined`, so both remaining
   * checks are skipped and the request is accepted.
   */
  function ValidateAsWritten(p: Profile, cardType: string): (r: Verdict)
    ensures cardType !in ObjectPrototypeKeys ==> r == ValidateCardEligibility(p, cardType)
    ensures cardType in ObjectPrototypeKeys ==> r.Eligible?
  {
    match LookupAsWritten(cardType)
    case Undefined => Ineligible(UnknownCardType(cardType))
    case InheritedMember => Eligible
    case OwnEntry(cfg) => CheckRequirements(p, cardType, cfg)
  }

  /** The discrepancy: "toString" is not a tier, yet the code as written accepts it. */
  lemma PrototypeKeyAccepted(p: Profile)
    ensures ValidateAsWritten(p, "toString") == Eligible
    ensures ValidateCardEligibility(p, "toString") == Ineligible(UnknownCardType("toString"))
  {
  }

  // ---------------------------------------------------------------------------
  // Scenarios
  // ---------------------------------------------------------------------------

  /** A Black applicant earning 1500 is refused for income (the tier needs 2000), not for the club. */
  lemma BlackWithLowIncome(name: string, country: string, club: bool)
    ensures ValidateCardEligibility(Profile(name, country, 1500.0, club), "Black")
      == Ineligible(InsufficientIncome(2000.0, "Black"))
  {
  }

  /** A White applicant from India with enough income and the club is refused for the country. */
  lemma WhiteFromIndia(name: string)
    ensures ValidateCardEligibility(Profile(name, "India", 3000.0, true), "White")
      == Ineligible(CountryRestricted("India", "White"))
  {
  }
}
