/**
 * The in-memory client store and the two handlers that use it: registering a
 * client (validated first, then given the next id and appended) and processing
 * a purchase (client lookup, the restricted-country gate for Black and White
 * cards, then the benefit calculation).
 */
module Registry {
  import opened Wrappers
  import opened Domain
  import opened Eligibility
  import opened Benefits

  datatype RegistrationError = MissingFields | NotEligible(reason: EligibilityError)

  datatype Registration = Registered(client: Client) | RegistrationRejected(error: RegistrationError)

  datatype PurchaseError =
    | MissingPurchaseFields
    | ClientNotFound
    | RestrictedPurchase(cardType: string, purchaseCountry: string)

  datatype PurchaseOutcome =
    | Approved(clientId: int, originalAmount: real, result: BenefitResult)
    | PurchaseRejected(error: PurchaseError)

  function ProfileOf(c: Client): Profile
  {
    Profile(c.name, c.country, c.monthlyIncome, c.viseClub)
  }

  /** The first client with the given id, as `Array.prototype.find` returns it. */
  function FindClient(clients: seq<Client>, id: int): (r: Option<Client>)
    ensures r.None? <==> forall i :: 0 <= i < |clients| ==> clients[i].clientId != id
    ensures r.Some? ==>
      exists i :: 0 <= i < |clients| && clients[i] == r.value && r.value.clientId == id
        && forall j :: 0 <= j < i ==> clients[j].clientId != id
  {
    if clients == [] then None
    else if clients[0].clientId == id then Some(clients[0])
    else
      var r := FindClient(clients[1..], id);
      assert forall j :: 1 <= j < |clients| ==> clients[j] == clients[1..][j - 1];
      if r.Some? then
        var i :| 0 <= i < |clients[1..]| && clients[1..][i] == r.value && r.value.clientId == id
          && forall j :: 0 <= j < i ==> clients[1..][j].clientId != id;
        assert clients[i + 1] == r.value;
        r
      else
        r
  }

  /** Client ids strictly increase along the store. */
  predicate IdsIncreasing(clients: seq<Client>)
  {
    forall i, j :: 0 <= i < j < |clients| ==> clients[i].clientId < clients[j].clientId
  }

  /** With increasing ids, looking a client's id up finds exactly that client. */
  lemma FindRegisteredClient(clients: seq<Client>, k: nat)
    requires IdsIncreasing(clients)
    requires k < |clients|
    ensures FindClient(clients, clients[k].clientId) == Some(clients[k])
  {
  }

  /**
   * The purchase gate: a Black or White card may not be used from a
   * restricted country, whatever the client's home country. It refuses
   * exactly the tiers whose configuration restricts countries.
   */
  predicate PurchaseAllowed(cardType: string, purchaseCountry: string): (r: bool)
    ensures !r <==>
      ParseCardType(cardType).Some? && Config(ParseCardType(cardType).value).restrictedCountries
        && IsRestricted(purchaseCountry)
  {
    !((cardType == "Black" || cardType == "White") && IsRestricted(purchaseCountry))
  }

  /** A client the eligibility check accepted may always buy in their home country. */
  lemma EligibleClientBuysAtHome(c: Client)
    requires ValidateCardEligibility(ProfileOf(c), c.cardType).Eligible?
    ensures PurchaseAllowed(c.cardType, c.country)
  {
  }

  /** The module-level `clients` list and `nextClientId` counter. */
  class ClientRegistry {
    var clients: seq<Client>
    var nextClientId: int

    /**
     * Ids start at 1, are all below the next id and strictly increase along
     * the list, and every stored client passed the eligibility check for its card.
     */
    ghost predicate Valid()
      reads this
    {
      && nextClientId >= 1
      && (forall i :: 0 <= i < |clients| ==> 1 <= clients[i].clientId < nextClientId)
      && IdsIncreasing(clients)
      && (forall i :: 0 <= i < |clients| ==>
            ValidateCardEligibility(ProfileOf(clients[i]), clients[i].cardType).Eligible?)
    }

    constructor ()
      ensures Valid()
      ensures clients == [] && nextClientId == 1
    {
      clients := [];
      nextClientId := 1;
    }

    /**
     * POST /client: refuse missing fields, then refuse an ineligible request
     * with the eligibility error; otherwise store the client under the next id
     * and advance the counter. A refusal changes nothing.
     */
    method Register(name: string, country: string, monthlyIncome: real, viseClub: bool, cardType: string)
      returns (r: Registration)
      requires Valid()
      modifies this
      ensures Valid()
      ensures var missing := name == "" || country == "" || cardType == "";
        var v := ValidateCardEligibility(Profile(name, country, monthlyIncome, viseClub), cardType);
        && (r.Registered? <==> !missing && v.Eligible?)
        && (r.RegistrationRejected? ==>
              r.error == if missing then MissingFields else NotEligible(v.error))
      ensures r.Registered? ==>
        && r.client == Client(old(nextClientId), name, country, monthlyIncome, viseClub, cardType)
        && clients == old(clients) + [r.client]
        && nextClientId == old(nextClientId) + 1
      ensures r.Registered? ==>
        forall i :: 0 <= i < |old(clients)| ==> old(clients)[i].clientId != r.client.clientId
      ensures r.RegistrationRejected? ==> clients == old(clients) && nextClientId == old(nextClientId)
    {
      if name == "" || country == "" || cardType == "" {
        return RegistrationRejected(MissingFields);
      }
      var validation := ValidateCardEligibility(Profile(name, country, monthlyIncome, viseClub), cardType);
      if validation.Ineligible? {
        return RegistrationRejected(NotEligible(validation.error));
      }
      var client := Client(nextClientId, name, country, monthlyIncome, viseClub, cardType);
      nextClientId := nextClientId + 1;
      clients := clients + [client];
      r := Registered(client);
    }

    /**
     * POST /purchase: refuse missing fields (a zero id or amount counts as
     * missing), refuse an unknown client, refuse a Black or White card used
     * from a restricted country; otherwise approve with the client's benefit.
     */
    method ProcessPurchase(clientId: int, amount: real, currency: string, dayOfWeek: Weekday, purchaseCountry: string)
      returns (r: PurchaseOutcome)
      requires Valid()
      ensures var missing := clientId == 0 || amount == 0.0 || currency == "" || purchaseCountry == "";
        && (r == PurchaseRejected(MissingPurchaseFields) <==> missing)
        && (r == PurchaseRejected(ClientNotFound) <==>
              !missing && forall i :: 0 <= i < |clients| ==> clients[i].clientId != clientId)
      ensures var found := FindClient(clients, clientId);
        r.PurchaseRejected? && r.error.RestrictedPurchase? ==>
          && found.Some? && r.error == RestrictedPurchase(found.value.cardType, purchaseCountry)
          && !PurchaseAllowed(found.value.cardType, purchaseCountry)
      ensures var found := FindClient(clients, clientId);
        r.Approved? ==>
          && found.Some? && r.clientId == clientId && r.originalAmount == amount
          && PurchaseAllowed(found.value.cardType, purchaseCountry)
          && r.result == CalculateBenefits(found.value, Purchase(amount, dayOfWeek, purchaseCountry))
      ensures var found := FindClient(clients, clientId);
        found.Some? && r != PurchaseRejected(MissingPurchaseFields) ==>
          (r.Approved? <==> PurchaseAllowed(found.value.cardType, purchaseCountry))
    {
      if clientId == 0 || amount == 0.0 || currency == "" || purchaseCountry == "" {
        return PurchaseRejected(MissingPurchaseFields);
      }
      var found := FindClient(clients, clientId);
      if found.None? {
        return PurchaseRejected(ClientNotFound);
      }
      var client := found.value;
      if (client.cardType == "Black" || client.cardType == "White") && IsRestricted(purchaseCountry) {
        return PurchaseRejected(RestrictedPurchase(client.cardType, purchaseCountry));
      }
      var benefits := CalculateBenefits(client, Purchase(amount, dayOfWeek, purchaseCountry));
      r := Approved(client.clientId, amount, benefits);
    }
  }
}
