/**
 * Agreement (src/market/agreement/agreement.ts): its seven states, finality and the
 * provider information read from the agreed offer.
 */
module Agreements {
  import opened Wrappers
  import Market

  datatype AgreementState = Proposal | Pending | Cancelled | Rejected | Approved | Expired | Terminated

  /** The state names as the market API spells them. */
  function StateName(s: AgreementState): string
  {
    match s
    case Proposal => "Proposal"
    case Pending => "Pending"
    case Cancelled => "Cancelled"
    case Rejected => "Rejected"
    case Approved => "Approved"
    case Expired => "Expired"
    case Terminated => "Terminated"
  }

  /** Reading a state name; only the seven names are states. */
  function ParseState(name: string): (r: Option<AgreementState>)
    ensures r.Some? ==> StateName(r.value) == name
  {
    if name == "Proposal" then Some(Proposal)
    else if name == "Pending" then Some(Pending)
    else if name == "Cancelled" then Some(Cancelled)
    else if name == "Rejected" then Some(Rejected)
    else if name == "Approved" then Some(Approved)
    else if name == "Expired" then Some(Expired)
    else if name == "Terminated" then Some(Terminated)
    else None
  }

  /** Every state has its own name, and its name reads back as that state. */
  lemma StateNameRoundTrip(s: AgreementState)
    ensures ParseState(StateName(s)) == Some(s)
  {
  }

  lemma StateNamesDistinct(s: AgreementState, t: AgreementState)
    ensures StateName(s) == StateName(t) ==> s == t
  {
    StateNameRoundTrip(s);
    StateNameRoundTrip(t);
  }

  datatype OfferModel = OfferModel(providerId: string, properties: map<string, string>)
  datatype AgreementModel = AgreementModel(state: AgreementState, offer: OfferModel)
  datatype Demand = Demand(paymentPlatform: string)
  datatype Agreement = Agreement(id: string, model: AgreementModel, demand: Demand)

  /** A property lookup; an absent key reads as undefined. */
  function Lookup(props: map<string, string>, key: string): Option<string>
  {
    if key in props then Some(props[key]) else None
  }

  datatype ProviderInfo = ProviderInfo(id: string, name: Option<string>, walletAddress: Option<string>)

  /** `getState`: the state the market API reported in the agreement's model, one of the seven names. */
  function GetState(a: Agreement): (s: AgreementState)
    ensures s == a.model.state
    ensures ParseState(StateName(s)) == Some(s)
  {
    StateNameRoundTrip(a.model.state);
    a.model.state
  }

  /**
   * Final: the agreement will not change state any more. The final states are exactly the
   * five that are neither Pending nor Proposal.
   */
  function IsFinalState(a: Agreement): (r: bool)
    ensures r <==> GetState(a) in {Cancelled, Rejected, Approved, Expired, Terminated}
  {
    var state := GetState(a);
    state != Pending && state != Proposal
  }

  /**
   * `getProviderInfo`: the provider id of the offer, its node name, and the wallet address
   * published for the demand's payment platform.
   */
  function GetProviderInfo(a: Agreement): (p: ProviderInfo)
    ensures p.id == a.model.offer.providerId
    ensures p.name == Lookup(a.model.offer.properties, "golem.node.id.name")
    ensures p.walletAddress.Some? <==> Market.PaymentAddressKey(a.demand.paymentPlatform) in a.model.offer.properties
    ensures p.walletAddress.Some? ==> p.walletAddress.value == a.model.offer.properties[Market.PaymentAddressKey(a.demand.paymentPlatform)]
  {
    var props := a.model.offer.properties;
    ProviderInfo(a.model.offer.providerId,
                 Lookup(props, "golem.node.id.name"),
                 Lookup(props, "golem.com.payment.platform." + a.demand.paymentPlatform + ".address"))
  }
}
