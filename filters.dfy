/**
 * The ready-made offer proposal filters and payment filters exported by dist/golem-js.mjs.
 * Each factory returns a predicate; the regular-expression filters are not modelled.
 */
module ProposalFilters {
  import opened Wrappers
  import opened Seqs
  import ScannedOffers

  datatype Provider = Provider(id: string, name: string)

  /** What the filters read from an offer proposal. */
  datatype OfferProposal = OfferProposal(provider: Provider, pricing: ScannedOffers.PricingInfo)

  datatype PriceLimits = PriceLimits(start: real, cpuPerSec: real, envPerSec: real)

  function AcceptAll(): (f: OfferProposal -> bool)
    ensures forall p :: f(p)
  {
    (p: OfferProposal) => true
  }

  /** Only proposals from a provider whose id is listed pass. */
  function AllowProvidersById(ids: seq<string>): (f: OfferProposal -> bool)
    ensures forall p :: f(p) <==> p.provider.id in ids
  {
    (p: OfferProposal) => p.provider.id in ids
  }

  /** Proposals from a provider whose id is listed are blocked; every other passes. */
  function DisallowProvidersById(ids: seq<string>): (f: OfferProposal -> bool)
    ensures forall p :: f(p) <==> p.provider.id !in ids
  {
    (p: OfferProposal) => p.provider.id !in ids
  }

  /** Only proposals from a provider whose name is listed pass. */
  function AllowProvidersByName(names: seq<string>): (f: OfferProposal -> bool)
    ensures forall p :: f(p) <==> p.provider.name in names
  {
    (p: OfferProposal) => p.provider.name in names
  }

  /** Proposals from a provider whose name is listed are blocked; every other passes. */
  function DisallowProvidersByName(names: seq<string>): (f: OfferProposal -> bool)
    ensures forall p :: f(p) <==> p.provider.name !in names
  {
    (p: OfferProposal) => p.provider.name !in names
  }

  /** Each disallow filter is the exact negation of the allow filter over the same list. */
  lemma DisallowIsNegationOfAllow(xs: seq<string>, p: OfferProposal)
    ensures DisallowProvidersById(xs)(p) <==> !AllowProvidersById(xs)(p)
    ensures DisallowProvidersByName(xs)(p) <==> !AllowProvidersByName(xs)(p)
  {
  }

  /**
   * Applied to the same proposals, an allow filter and its disallow filter split them:
   * every proposal goes to exactly one side, and the sides' sizes add up.
   */
  lemma {:induction false} AllowAndDisallowPartition(ps: seq<OfferProposal>, ids: seq<string>)
    ensures |Filter(ps, AllowProvidersById(ids))| + |Filter(ps, DisallowProvidersById(ids))| == |ps|
    ensures forall p :: p in ps ==> (p in Filter(ps, AllowProvidersById(ids)) <==> p !in Filter(ps, DisallowProvidersById(ids)))
  {
    FilterMembership(ps, AllowProvidersById(ids));
    FilterMembership(ps, DisallowProvidersById(ids));
    if |ps| > 0 {
      AllowAndDisallowPartition(ps[1..], ids);
    }
  }

  /**
   * `limitPriceFilter`: every price at most its limit. A proposal without a start price
   * (`undefined <= limit` is false in JavaScript) is refused.
   */
  function LimitPriceFilter(limits: PriceLimits): (f: OfferProposal -> bool)
    ensures forall p :: f(p) <==>
      p.pricing.cpuSec <= limits.cpuPerSec && p.pricing.envSec <= limits.envPerSec &&
      p.pricing.start.Some? && p.pricing.start.value <= limits.start
  {
    (p: OfferProposal) =>
      p.pricing.cpuSec <= limits.cpuPerSec && p.pricing.envSec <= limits.envPerSec &&
      p.pricing.start.Some? && p.pricing.start.value <= limits.start
  }

  /** Raising any of the limits never refuses a proposal that was accepted before. */
  lemma LimitPriceFilterMonotone(lo: PriceLimits, hi: PriceLimits, ps: seq<OfferProposal>)
    requires lo.start <= hi.start && lo.cpuPerSec <= hi.cpuPerSec && lo.envPerSec <= hi.envPerSec
    ensures forall p :: p in Filter(ps, LimitPriceFilter(lo)) ==> p in Filter(ps, LimitPriceFilter(hi))
  {
    FilterMembership(ps, LimitPriceFilter(lo));
    FilterMembership(ps, LimitPriceFilter(hi));
  }

  // Payment filters: the amounts are the documents' decimal amounts.

  datatype DebitNote = DebitNote(totalAmountDue: real)
  datatype Invoice = Invoice(amount: real)

  function AcceptAllDebitNotesFilter(): (f: DebitNote -> bool)
    ensures forall d :: f(d)
  {
    (d: DebitNote) => true
  }

  function AcceptAllInvoicesFilter(): (f: Invoice -> bool)
    ensures forall i :: f(i)
  {
    (i: Invoice) => true
  }

  function AcceptMaxAmountDebitNoteFilter(maxAmount: real): (f: DebitNote -> bool)
    ensures forall d :: f(d) <==> d.totalAmountDue <= maxAmount
  {
    (d: DebitNote) => d.totalAmountDue <= maxAmount
  }

  function AcceptMaxAmountInvoiceFilter(maxAmount: real): (f: Invoice -> bool)
    ensures forall i :: f(i) <==> i.amount <= maxAmount
  {
    (i: Invoice) => i.amount <= maxAmount
  }

  /** The invoices a max-amount filter accepts never add up to more than the count times the cap. */
  lemma {:induction false} AcceptedInvoicesBounded(invoices: seq<Invoice>, maxAmount: real)
    ensures Total(Filter(invoices, AcceptMaxAmountInvoiceFilter(maxAmount))) <= (|Filter(invoices, AcceptMaxAmountInvoiceFilter(maxAmount))| as real) * maxAmount
  {
    var accepted := Filter(invoices, AcceptMaxAmountInvoiceFilter(maxAmount));
    TotalBounded(accepted, maxAmount);
  }

  function Total(invoices: seq<Invoice>): real
  {
    if |invoices| == 0 then 0.0 else invoices[0].amount + Total(invoices[1..])
  }

  lemma {:induction false} TotalBounded(invoices: seq<Invoice>, cap: real)
    requires forall i :: 0 <= i < |invoices| ==> invoices[i].amount <= cap
    ensures Total(invoices) <= (|invoices| as real) * cap
  {
    if |invoices| > 0 {
      TotalBounded(invoices[1..], cap);
    }
  }
}
