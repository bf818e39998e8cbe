/**
 * Purchase benefits: the discount a client's card earns on one purchase. Each
 * tier tries its rules in a fixed order (a weekday rule, a Saturday or weekend
 * rule, a purchase-abroad rule) and the first rule that applies decides the
 * rate; the amount thresholds are strict. The discount and the final amount
 * are then rounded to cents.
 */
module Benefits {
  import opened Wrappers
  import opened Domain

  /** The rate a rule grants and the label that names it; the empty label means no rule applied. */
  datatype Discount = Discount(rate: real, benefit: string)

  /** What the purchase handler reports back. */
  datatype BenefitResult = BenefitResult(discountApplied: real, finalAmount: real, benefit: string)

  const NoDiscount := Discount(0.0, "")

  /** The label reported when no rule applied. */
  const NoBenefitLabel := "Sin beneficios aplicables"

  const GoldWeekdayLabel := "Lunes/Martes/Miércoles - Descuento 15%"
  const PlatinumWeekdayLabel := "Lunes/Martes/Miércoles - Descuento 20%"
  const PlatinumSaturdayLabel := "Sábado - Descuento 30%"
  const BlackWeekdayLabel := "Lunes/Martes/Miércoles - Descuento 25%"
  const BlackSaturdayLabel := "Sábado - Descuento 35%"
  const WhiteWeekdayLabel := "Lunes a Viernes - Descuento 25%"
  const WhiteWeekendLabel := "Fin de semana - Descuento 35%"
  const AbroadLabel := "Compra en el exterior - Descuento 5%"

  /**
   * The tier's rule chain as the code writes it, one if / else-if chain per
   * tier; a card type outside the five tiers falls through with no discount.
   */
  function SelectDiscount(cardType: string, day: Weekday, amount: real, isAbroad: bool): (d: Discount)
    ensures d.rate in {0.0, 0.05, 0.15, 0.20, 0.25, 0.30, 0.35}
    ensures 0.0 <= d.rate < 1.0
    ensures d.benefit == "" <==> d.rate == 0.0
    ensures d.benefit != NoBenefitLabel
    ensures ParseCardType(cardType) == Some(Classic) ==> d == NoDiscount
    ensures ParseCardType(cardType).None? ==> d == NoDiscount
    ensures d.rate > 0.05 ==> amount > 100.0
    ensures d.rate >= 0.30 ==> amount > 200.0 && (day == 6 || day == 0)
    ensures d.rate == 0.05 ==> isAbroad
  {
    match ParseCardType(cardType)
    case None => NoDiscount
    case Some(Classic) => NoDiscount
    case Some(Gold) =>
      if day in [1, 2, 3] && amount > 100.0 then Discount(0.15, GoldWeekdayLabel)
      else NoDiscount
    case Some(Platinum) =>
      if day in [1, 2, 3] && amount > 100.0 then Discount(0.20, PlatinumWeekdayLabel)
      else if day == 6 && amount > 200.0 then Discount(0.30, PlatinumSaturdayLabel)
      else if isAbroad then Discount(0.05, AbroadLabel)
      else NoDiscount
    case Some(Black) =>
      if day in [1, 2, 3] && amount > 100.0 then Discount(0.25, BlackWeekdayLabel)
      else if day == 6 && amount > 200.0 then Discount(0.35, BlackSaturdayLabel)
      else if isAbroad then Discount(0.05, AbroadLabel)
      else NoDiscount
    case Some(White) =>
      if day in [1, 2, 3, 4, 5] && amount > 100.0 then Discount(0.25, WhiteWeekdayLabel)
      else if day in [6, 0] && amount > 200.0 then Discount(0.35, WhiteWeekendLabel)
      else if isAbroad then Discount(0.05, AbroadLabel)
      else NoDiscount
  }

  // ---------------------------------------------------------------------------
  // The rule table, as data, and a first-match interpreter for it
  // ---------------------------------------------------------------------------

  /** When a rule applies: on some days with an amount strictly above a threshold, or abroad. */
  datatype Condition = OnDaysAbove(days: set<int>, threshold: real) | Abroad

  datatype Rule = Rule(condition: Condition, rate: real, benefit: string)

  predicate Applies(c: Condition, day: Weekday, amount: real, isAbroad: bool)
  {
    match c
    case OnDaysAbove(days, threshold) => day in days && amount > threshold
    case Abroad => isAbroad
  }

  /** The benefit rules of each tier, in the order they are tried. */
  function RuleTable(t: CardType): seq<Rule>
  {
    match t
    case Classic => []
    case Gold => [Rule(OnDaysAbove({1, 2, 3}, 100.0), 0.15, GoldWeekdayLabel)]
    case Platinum => [
      Rule(OnDaysAbove({1, 2, 3}, 100.0), 0.20, PlatinumWeekdayLabel),
      Rule(OnDaysAbove({6}, 200.0), 0.30, PlatinumSaturdayLabel),
      Rule(Abroad, 0.05, AbroadLabel)]
    case Black => [
      Rule(OnDaysAbove({1, 2, 3}, 100.0), 0.25, BlackWeekdayLabel),
      Rule(OnDaysAbove({6}, 200.0), 0.35, BlackSaturdayLabel),
      Rule(Abroad, 0.05, AbroadLabel)]
    case White => [
      Rule(OnDaysAbove({1, 2, 3, 4, 5}, 100.0), 0.25, WhiteWeekdayLabel),
      Rule(OnDaysAbove({0, 6}, 200.0), 0.35, WhiteWeekendLabel),
      Rule(Abroad, 0.05, AbroadLabel)]
  }

  /** The position of the first rule that applies, if any does. */
  function FirstMatch(rules: seq<Rule>, day: Weekday, amount: real, isAbroad: bool): (r: Option<nat>)
    ensures r.Some? ==> r.value < |rules| && Applies(rules[r.value].condition, day, amount, isAbroad)
    ensures r.Some? ==> forall j :: 0 <= j < r.value ==> !Applies(rules[j].condition, day, amount, isAbroad)
    ensures r.None? ==> forall j :: 0 <= j < |rules| ==> !Applies(rules[j].condition, day, amount, isAbroad)
    decreases |rules|
  {
    if rules == [] then None
    else if Applies(rules[0].condition, day, amount, isAbroad) then Some(0)
    else
      match FirstMatch(rules[1..], day, amount, isAbroad)
      case None => None
      case Some(i) => Some(i + 1)
  }

  /** The discount the table grants: the first applicable rule, or none. */
  function TableDiscount(t: CardType, day: Weekday, amount: real, isAbroad: bool): Discount
  {
    match FirstMatch(RuleTable(t), day, amount, isAbroad)
    case None => NoDiscount
    case Some(i) => Discount(RuleTable(t)[i].rate, RuleTable(t)[i].benefit)
  }

  /** The code's if / else-if chains agree with the rule table for every tier and every purchase. */
  lemma {:induction false} SelectDiscountFollowsTable(t: CardType, day: Weekday, amount: real, isAbroad: bool)
    ensures SelectDiscount(Name(t), day, amount, isAbroad) == TableDiscount(t, day, amount, isAbroad)
  {
    ParseName(t);
    var rules := RuleTable(t);
    var m := FirstMatch(rules, day, amount, isAbroad);
    if m.Some? {
      assert m.value < |rules|;
      assert m.value > 0 ==> !Applies(rules[0].condition, day, amount, isAbroad);
      assert m.value > 1 ==> !Applies(rules[1].condition, day, amount, isAbroad);
    } else if rules != [] {
      assert !Applies(rules[0].condition, day, amount, isAbroad);
      assert |rules| > 1 ==> !Applies(rules[1].condition, day, amount, isAbroad);
      assert |rules| > 2 ==> !Applies(rules[2].condition, day, amount, isAbroad);
    }
  }

  // ---------------------------------------------------------------------------
  // Amounts
  // ---------------------------------------------------------------------------

  /**
   * `Math.round(x * 100) / 100` on exact reals: `Math.round` rounds half up,
   * that is floor(y + 1/2). The result is a whole number of cents within half
   * a cent of `x`.
   */
  function Round2(x: real): (r: real)
    ensures IsCents(r)
    ensures x - 0.005 < r <= x + 0.005
  {
    ((x * 100.0 + 0.5).Floor as real) / 100.0
  }

  lemma Round2Monotone(x: real, y: real)
    requires x <= y
    ensures Round2(x) <= Round2(y)
  {
    assert (x * 100.0 + 0.5).Floor <= (y * 100.0 + 0.5).Floor;
  }

  /** An amount that is a whole number of cents. */
  predicate IsCents(x: real)
  {
    (x * 100.0).Floor as real == x * 100.0
  }

  lemma Round2OfCents(x: real)
    requires IsCents(x)
    ensures Round2(x) == x
  {
    var k := (x * 100.0).Floor;
    assert x * 100.0 + 0.5 == k as real + 0.5;
    assert (x * 100.0 + 0.5).Floor == k;
  }

  /** The discount amount and the final amount before rounding. */
  datatype Split = Split(discountAmount: real, finalAmount: real)

  /**
   * Splits an amount at a rate: the discount is the rate's share of the
   * amount and the two parts always add up to the amount.
   */
  function SplitAmount(amount: real, rate: real): (s: Split)
    ensures s.discountAmount == amount * rate
    ensures s.discountAmount + s.finalAmount == amount
    ensures 0.0 <= amount && 0.0 <= rate < 1.0 ==>
      0.0 <= s.discountAmount && 0.0 <= s.finalAmount <= amount
    ensures 0.0 < amount && 0.0 <= rate < 1.0 ==> 0.0 < s.finalAmount
  {
    var discountAmount := amount * rate;
    Split(discountAmount, amount - discountAmount)
  }

  /**
   * Applies a selected discount to an amount: the discount is the rate's share
   * of the amount and the final amount is the rest, each rounded to whole cents and
   * so within half a cent of its exact value; the rounded parts add up to the
   * amount within a cent. A rule label is reported as is and the sentinel
   * stands in when no rule applied. For a non-negative amount in whole cents
   * and a rate in [0, 1), the discount is never negative and the final amount
   * never exceeds what was charged.
   */
  function ApplyDiscount(amount: real, d: Discount): (r: BenefitResult)
    ensures IsCents(r.discountApplied) && IsCents(r.finalAmount)
    ensures d.benefit == "" ==> r.benefit == NoBenefitLabel
    ensures d.benefit != "" ==> r.benefit == d.benefit
    ensures d.rate == 0.0 ==> r.discountApplied == 0.0
    ensures var s := SplitAmount(amount, d.rate);
      && s.discountAmount - 0.005 < r.discountApplied <= s.discountAmount + 0.005
      && s.finalAmount - 0.005 < r.finalAmount <= s.finalAmount + 0.005
    ensures amount - 0.01 < r.discountApplied + r.finalAmount <= amount + 0.01
    ensures 0.0 <= amount && IsCents(amount) && 0.0 <= d.rate < 1.0 ==>
      0.0 <= r.discountApplied && r.finalAmount <= amount
  {
    var s := SplitAmount(amount, d.rate);
    var r := BenefitResult(
      Round2(s.discountAmount),
      Round2(s.finalAmount),
      if d.benefit == "" then NoBenefitLabel else d.benefit);
    if 0.0 <= amount && IsCents(amount) && 0.0 <= d.rate < 1.0 then
      Round2Monotone(0.0, s.discountAmount);
      Round2OfCents(0.0);
      Round2Monotone(s.finalAmount, amount);
      Round2OfCents(amount);
      r
    else
      r
  }

  /**
   * The benefit of one purchase: pick the discount from the card's rule chain
   * (abroad means a purchase country other than the client's own) and apply
   * it to the amount. The label is the sentinel exactly when no rule applied;
   * the discount is the amount times the selected rate and the final amount
   * the rest, each within half a cent; a non-negative amount in whole cents
   * never yields a negative discount or a final amount above what was charged.
   */
  function CalculateBenefits(client: Client, purchase: Purchase): (r: BenefitResult)
    ensures IsCents(r.discountApplied) && IsCents(r.finalAmount)
    ensures var d := SelectDiscount(client.cardType, purchase.dayOfWeek, purchase.amount,
                                    purchase.purchaseCountry != client.country);
      && (r.benefit == NoBenefitLabel <==> d.rate == 0.0)
      && (d.rate != 0.0 ==> r.benefit == d.benefit)
      && (d.rate == 0.0 ==> r.discountApplied == 0.0)
    ensures var s := SplitAmount(purchase.amount, SelectDiscount(client.cardType, purchase.dayOfWeek,
                                   purchase.amount, purchase.purchaseCountry != client.country).rate);
      && s.discountAmount - 0.005 < r.discountApplied <= s.discountAmount + 0.005
      && s.finalAmount - 0.005 < r.finalAmount <= s.finalAmount + 0.005
    ensures purchase.amount - 0.01 < r.discountApplied + r.finalAmount <= purchase.amount + 0.01
    ensures 0.0 <= purchase.amount && IsCents(purchase.amount) ==>
      0.0 <= r.discountApplied && r.finalAmount <= purchase.amount
  {
    var isAbroad := purchase.purchaseCountry != client.country;
    ApplyDiscount(purchase.amount, SelectDiscount(client.cardType, purchase.dayOfWeek, purchase.amount, isAbroad))
  }

  // ---------------------------------------------------------------------------
  // Rule properties and scenarios
  // ---------------------------------------------------------------------------

  /** A Classic card never earns a discount, not even abroad. */
  lemma ClassicHasNoBenefit(client: Client, purchase: Purchase)
    requires client.cardType == "Classic"
    ensures CalculateBenefits(client, purchase).benefit == NoBenefitLabel
    ensures CalculateBenefits(client, purchase).discountApplied == 0.0
  {
  }

  /** Thresholds are strict: exactly 100 on Monday to Wednesday earns a Gold card nothing. */
  lemma GoldThresholdIsStrict(day: Weekday, isAbroad: bool)
    requires 1 <= day <= 3
    ensures SelectDiscount("Gold", day, 100.0, isAbroad) == NoDiscount
    ensures SelectDiscount("Gold", day, 100.01, isAbroad).rate == 0.15
  {
  }

  /** Exactly 200 on a Saturday triggers no Saturday or weekend rule. */
  lemma SaturdayThresholdIsStrict(cardType: string, isAbroad: bool)
    ensures SelectDiscount(cardType, 6, 200.0, isAbroad).rate < 0.30
  {
  }

  /** The first applicable rule wins: a Platinum purchase abroad on a Saturday above 200 gets 30%, not 5%. */
  lemma SaturdayBeatsAbroad(amount: real)
    requires amount > 200.0
    ensures SelectDiscount("Platinum", 6, amount, true) == Discount(0.30, PlatinumSaturdayLabel)
  {
  }

  /** The 5% abroad rate applies only when no day rule applies. */
  lemma {:induction false} AbroadOnlyAsFallback(t: CardType, day: Weekday, amount: real, isAbroad: bool)
    requires SelectDiscount(Name(t), day, amount, isAbroad).rate == 0.05
    ensures isAbroad && t in {Platinum, Black, White}
    ensures forall j :: 0 <= j < 2 ==> !Applies(RuleTable(t)[j].condition, day, amount, isAbroad)
  {
    SelectDiscountFollowsTable(t, day, amount, isAbroad);
    var m := FirstMatch(RuleTable(t), day, amount, isAbroad);
    assert m == Some(2);
  }

  /** Platinum, home country Colombia, 250 on a Saturday: 75.00 off, 175.00 to pay. */
  lemma PlatinumSaturdayScenario(client: Client)
    requires client.cardType == "Platinum" && client.country == "Colombia"
    ensures CalculateBenefits(client, Purchase(250.0, 6, "Colombia"))
      == BenefitResult(75.0, 175.0, PlatinumSaturdayLabel)
  {
    assert SelectDiscount("Platinum", 6, 250.0, false) == Discount(0.30, PlatinumSaturdayLabel);
    Round2OfCents(75.0);
    Round2OfCents(175.0);
  }

  /** Black, from Brazil, 150 on a Monday at home: 37.50 off, 112.50 to pay. */
  lemma BlackMondayScenario(client: Client)
    requires client.cardType == "Black" && client.country == "Brazil"
    ensures CalculateBenefits(client, Purchase(150.0, 1, "Brazil"))
      == BenefitResult(37.5, 112.5, BlackWeekdayLabel)
  {
    assert SelectDiscount("Black", 1, 150.0, false) == Discount(0.25, BlackWeekdayLabel);
    Round2OfCents(37.5);
    Round2OfCents(112.5);
  }
}
