# VISE card service: tier rules in Dafny

A model of the rule engine of the VISE card API (`app.js`). It covers four parts:

- **Configuration.** There are five card tiers: Classic, Gold, Platinum, Black and White. Each has a minimum monthly income, a VISE CLUB subscription flag and a restricted-country flag (`CARD_CONFIG`). A fixed list of restricted countries applies (`RESTRICTED_COUNTRIES`: China, Vietnam, India, Iran).
- **Eligibility** (`validateCardEligibility`). The checks run in a fixed order: unknown card type, minimum income, VISE CLUB subscription, restricted country. The first check that fails is the single error returned.
- **Benefits** (`calculateBenefits`). Each tier has an ordered if / else-if chain over the day of the week, strict amount thresholds (`> 100`, `> 200`) and whether the purchase is abroad. The first rule that applies wins. The result is the discount, the final amount rounded to cents, and the rule's label or the sentinel `Sin beneficios aplicables`.
- **In-memory state.** The client list and the `nextClientId` counter are updated by registration. The purchase handler reads them, looks the client up and applies the restricted-country gate for Black and White cards. The API logger's request history is bounded to the last 100 requests.

Modules:

- `Domain` holds the tiers, the requirement table, the restricted-country list and the client and purchase records.
- `Eligibility` holds the eligibility check, both as the code writes it and corrected.
- `Benefits` holds the rule chains, the same rules as a data table with a first-match interpreter, and the rounding.
- `Registry` is a class over `clients` and `nextClientId`, plus the lookup and the purchase gate.
- `RequestLog` is a class over `requestHistory`.

Conventions:

- Amounts and incomes are `real`.
- The day of the week is a parameter numbered as JavaScript's `getDay()` numbers it: 0 is Sunday, 6 is Saturday.
- `Math.round(x * 100) / 100` is modelled on exact reals as floor(100·x + 1/2) / 100.

The code differs from what a reader might expect in three places, and the model follows the code:

- The purchase gate refuses only Black and White cards used from a restricted country. It does not refuse every purchase from such a country.
- The final amount is rounded from `amount - discountAmount`, where the discount is unrounded. It is not computed from the rounded discount.
- There is no separate error for malformed purchase input. A zero amount or a zero client id is reported as a missing field, as the handler's falsy test does.

## Model

| member | source | states |
|---|---|---|
| Domain.ParseCardType | app.js:243 | A card-type string selects a tier exactly when it is that tier's own name; every other string selects none |
| Domain.Config | app.js:213-239 | Every income floor is between 0 and 2000; the club is required exactly from Platinum up; only Black and White restrict countries, and they also require the club and have the 2000 floor |
| Domain.IsRestricted | app.js:210 | A country is restricted exactly when it is China, Vietnam, India or Iran, compared as exact, case-sensitive strings, so an empty country never is |
| Domain.ParseName | app.js:213-239 | Each tier is found under its own name in the configuration |
| Domain.RequirementsGrowWithRank | app.js:213-239 | Requirements never decrease from Classic to Gold to Platinum to Black/White: minimum income, club flag and country flag; every minimum income is non-negative |
| Eligibility.CheckRequirements | app.js:248-269 | Accepts iff income, club and country requirements all hold; a refusal names a requirement that fails, all requirements checked before it hold, and the error carries the card type, the income floor and the client's country |
| Eligibility.ValidateCardEligibility | app.js:242-270 | Eligible iff the card type is one of the five tiers, income ≥ minIncome, the club is present when required and the country is not restricted when the tier restricts countries; an unknown card type is refused with UnknownCardType and nothing else |
| Eligibility.FirstFailureIsReported | app.js:242-267 | If a profile fails any requirement of a tier, it is refused; the reported requirement is one the profile fails and comes no later in the check order than the failed one (income before club before country) |
| Eligibility.EligibleForLowerTiers | app.js:213-270 | A client eligible for a tier is eligible for every lower tier |
| Eligibility.LookupAsWritten | app.js:243 | Indexing the configuration object gives an own tier entry exactly for the five names, an inherited member exactly for the Object.prototype names, otherwise undefined |
| Eligibility.ValidateAsWritten | app.js:242-270 | The check as the code runs it: it agrees with the corrected check except on Object.prototype names, which are all accepted |
| Eligibility.PrototypeKeyAccepted | app.js:243-269 | "toString" is accepted by the code as written and refused as an unknown card type by the corrected check |
| Eligibility.BlackWithLowIncome | app.js:248-253 | A Black applicant earning 1500 is refused for income (floor 2000), whatever their club status |
| Eligibility.WhiteFromIndia | app.js:262-267 | A White applicant from India with income 3000 and the club is refused for the country |
| Benefits.SelectDiscount | app.js:281-339 | The rate is one of 0, 0.05, 0.15, 0.20, 0.25, 0.30, 0.35 (so 0 ≤ rate < 1); the label is empty iff the rate is 0; Classic and unknown card types get nothing; a rate above 5% needs amount > 100, a rate of 30% or more needs amount > 200 on a weekend day, and 5% only abroad |
| Benefits.FirstMatch | app.js:284-339 | The index returned is of an applicable rule with no applicable rule before it; none is returned only when no rule applies |
| Benefits.SelectDiscountFollowsTable | app.js:284-339 | For every tier, day, amount and abroad flag, the code's if / else-if chain grants exactly the discount of the first applicable rule of the tier's rule table |
| Benefits.Round2 | app.js:345-346 | Rounding gives a whole number of cents and moves a value by more than -0.005 and at most +0.005 |
| Benefits.Round2Monotone | app.js:345-346 | Rounding to cents preserves order |
| Benefits.Round2OfCents | app.js:345-346 | A value already in whole cents is unchanged by rounding |
| Benefits.SplitAmount | app.js:341-342 | Before rounding, the discount is the amount times the rate and discount plus final amount equals the amount; for amount ≥ 0 and 0 ≤ rate < 1 both parts are non-negative and the final amount is at most the amount (positive when the amount is) |
| Benefits.ApplyDiscount | app.js:341-348 | The discount and final amount are whole numbers of cents, each within half a cent of the amount times the rate and of the rest; they add up to the amount within 0.01; an empty rule label becomes the sentinel, any other is kept; a zero rate gives a zero discount; for a non-negative amount in cents and 0 ≤ rate < 1, the discount is non-negative and the final amount does not exceed the amount |
| Benefits.CalculateBenefits | app.js:273-349 | The label is the sentinel iff no rule applied, otherwise the rule's label; no rule means no discount; the discount and final amount are whole numbers of cents; the discount is within half a cent of the amount times the selected rate and the final amount within half a cent of the rest; the rounded discount and final amount add up to the amount within 0.01; for a non-negative amount in cents, the discount is non-negative and the final amount does not exceed the amount |
| Benefits.ClassicHasNoBenefit | app.js:284-347 | A Classic card gets no discount and the sentinel label, even abroad |
| Benefits.GoldThresholdIsStrict | app.js:288-293 | Gold on Monday to Wednesday: amount 100 earns nothing, 100.01 earns 15% |
| Benefits.SaturdayThresholdIsStrict | app.js:295-338 | Amount 200 on a Saturday never triggers a Saturday or weekend rule, for any card type |
| Benefits.SaturdayBeatsAbroad | app.js:295-307 | A Platinum purchase abroad on a Saturday above 200 gets 30%, not the 5% abroad rate |
| Benefits.AbroadOnlyAsFallback | app.js:295-337 | The 5% rate is granted only abroad, only to Platinum, Black and White, and only when neither day rule of the tier applies |
| Benefits.PlatinumSaturdayScenario | app.js:273-349 | Platinum from Colombia buying 250 at home on a Saturday: discount 75, final 175, Saturday 30% label |
| Benefits.BlackMondayScenario | app.js:310-346 | Black from Brazil buying 150 at home on a Monday: discount 37.5, final 112.5, 25% label |
| Registry.FindClient | app.js:434 | Nothing is found iff no stored client has the id; otherwise the result is the first stored client with that id |
| Registry.FindRegisteredClient | app.js:434 | With strictly increasing ids, looking up a stored client's id returns that client |
| Registry.PurchaseAllowed | app.js:443-444 | The purchase gate refuses exactly the tiers whose configuration restricts countries, when the purchase country is restricted |
| Registry.EligibleClientBuysAtHome | app.js:443-450 | A client accepted by the eligibility check is never refused by the gate when buying in their home country |
| Registry.ClientRegistry.constructor | app.js:206-207 | The store starts empty with next id 1 |
| Registry.ClientRegistry.Register | app.js:356-393 | Registers iff all fields are present and the eligibility check passes. Otherwise it returns the missing-fields error or the eligibility error and changes nothing. On success it appends exactly one client whose id is the previous next id, unused so far, and advances the counter by one. It keeps ids increasing and every stored client eligible |
| Registry.ClientRegistry.ProcessPurchase | app.js:424-465 | Missing fields (including a zero id or amount) come first, then an unknown client. Then a Black or White card used from a restricted country is refused. Otherwise the purchase is approved with the original amount and the found client's benefit, and approval happens exactly when the gate allows the purchase |
| RequestLog.UserAgentField | app.js:87-99 | The stored agent is at most the first 50 characters of the header (or of "Unknown" when missing) followed by "..." |
| RequestLog.Append | app.js:104-110 | After push-then-shift the newest entry is last. The history is a suffix of the old history plus the entry. From at most 100 entries, its length is min(old length + 1, 100) |
| RequestLog.Window | app.js:107-110 | The last min(n, 100) requests of a log of n, in order: element i of the window is element n - min(n, 100) + i of the log, so it ends with the latest |
| RequestLog.AppendKeepsWindow | app.js:104-110 | Logging one request onto the last-100 window of a log gives the last-100 window of the longer log |
| RequestLog.ReplayKeepsWindow | app.js:104-110 | Logging any sequence of requests keeps the history equal to the last 100 requests of the whole log |
| RequestLog.HistoryIsLastHundred | app.js:104-110 | From an empty history, the history never holds more than 100 entries, holds min(n, 100) after n requests and always ends with the most recent |
| RequestLog.RequestLogger.constructor | app.js:59-62 | The history starts empty |
| RequestLog.RequestLogger.LogRequest | app.js:82-110 | The new history is the old one with the entry pushed and, past 100, the oldest shifted off. The entry's id is the old length plus one, so at most 101. The bound of 100 is kept |

## Findings

| source | as written | input that shows it | evidently intended | confidence | as-written member | corrected member |
|---|---|---|---|---|---|---|
| app.js:243-269 | `CARD_CONFIG[cardType]` also finds members every object inherits from `Object.prototype`. Such a member is truthy with no tier fields: `monthlyIncome < undefined` is false and both flags are `undefined`, so the request is accepted | `cardType: "toString"` (or `"constructor"`, `"__proto__"`) with any income, club status and country | refuse any card type that is not one of the five tiers | high (JavaScript property lookup), not executed | Eligibility.ValidateAsWritten | Eligibility.ValidateCardEligibility |

The registry uses the corrected check, so a stored client's card type is always one of the five tiers. Eligibility.PrototypeKeyAccepted exhibits the discrepancy on `"toString"`.

## Left out

- The HTTP layer is not modelled: Express setup, routing, CORS, static files, status codes, JSON response shapes and the 500 path of the `try`/`catch` blocks.
- Third-party telemetry is not modelled: Application Insights setup, `axiom-logger.js`, `tracing.js`, `test-axiom.js` and `public/script.js`. These are network and console calls outside the rules.
- Console output is not modelled: `APILogger.log` and the coloured printing in `logRequest`.
- `getStats`, `GET /clients` and `GET /api/history` are not modelled. They are read-only reporting, and the uptime reading depends on the clock.
- Date parsing (`new Date(purchaseDate).getDay()`) is not modelled. The day of the week is an input in 0..6, so an unparseable date, where `getDay()` gives NaN, is not covered. Neither is the time zone: a date-only string such as `"2024-01-06"` parses as midnight UTC while `getDay()` reads local time, so west of UTC the code sees the previous weekday (that Saturday runs as a Friday).
- Amounts are exact reals, not binary floating point. `Math.round(x * 100) / 100` is modelled exactly, but representation error is not, for example 1.005 * 100 landing just below 100.5.
- Error messages are not rendered as text. Each error carries the values the message interpolates: the card type, the income floor and the country.
- Registry.ClientRegistry.Register: the request's field types and `=== undefined` tests are not modelled. Income is a real and the club flag a boolean. Missing text fields are the empty string. JavaScript type coercion of mistyped JSON values is not covered.
- Registry.ClientRegistry.ProcessPurchase: the client id is compared as an integer, so a string id failing `===` is not covered. The purchase date's own missing-field test is not covered either, because the day is an input.
- Registry.ClientRegistry.Register: it uses the corrected eligibility check from the Findings table, not the as-written one.
- RequestLog.RequestLogger.LogRequest: the request and response bodies are not part of an entry, because they are arbitrary JSON. The client address is taken as given rather than resolved through `req.ip || req.connection.remoteAddress || 'Unknown'`. The start time is a clock reading and is not modelled.
