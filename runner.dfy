/**
 * The legacy runner (yajsapi/runner/index.ts): the dummy market strategy's offer scoring,
 * the offer buffer that `find_offers` fills and `worker_starter` drains, and the matching
 * of invoices with agreements waiting to be paid.
 *
 * The runner's concurrent tasks become methods run one step at a time; what the market
 * and payment APIs answer is given to each step.
 */
module Runners {
  import opened Wrappers
  import opened Seqs

  const ScoreNeutral: real := 0.0
  const ScoreRejected: real := -1.0

  datatype BillingScheme = Payu | OtherScheme(name: string)

  datatype Counter = TimeCounter | CpuCounter | OtherCounter(name: string)

  /** The linear pricing read from an offer: scheme, fixed price and the per-counter prices in property order. */
  datatype ComLinear = ComLinear(scheme: BillingScheme, fixedPrice: real, priceFor: seq<(Counter, real)>)

  /** `DummyMS`'s limits: 0.05 fixed, 0.002 per second of time and ten times that per CPU second. */
  const DefaultMaxFixed: real := 0.05
  const DefaultMaxForCounter: map<Counter, real> := map[TimeCounter := 0.002, CpuCounter := 0.002 * 10.0]

  /** The `for ... of Object.entries(price_for)` check: every counter known and within its maximum. */
  function PricesWithin(prices: seq<(Counter, real)>, maxForCounter: map<Counter, real>): (ok: bool)
    ensures ok <==> forall i :: 0 <= i < |prices| ==>
                      prices[i].0 in maxForCounter && prices[i].1 <= maxForCounter[prices[i].0]
  {
    if |prices| == 0 then true
    else
      var (counter, price) := prices[0];
      if counter !in maxForCounter then false
      else if price > maxForCounter[counter] then false
      else
        var rest := PricesWithin(prices[1..], maxForCounter);
        assert forall i :: 1 <= i < |prices| ==> prices[i] == prices[1..][i - 1];
        rest
  }

  /** `DummyMS.score_offer`: neutral for a pay-as-you-go offer within every limit, rejected otherwise. */
  function ScoreOffer(linear: ComLinear, maxFixed: real, maxForCounter: map<Counter, real>): (score: real)
    ensures score == ScoreNeutral || score == ScoreRejected
    ensures score == ScoreNeutral <==>
              linear.scheme == Payu && linear.fixedPrice <= maxFixed &&
              forall i :: 0 <= i < |linear.priceFor| ==>
                linear.priceFor[i].0 in maxForCounter && linear.priceFor[i].1 <= maxForCounter[linear.priceFor[i].0]
  {
    if linear.scheme != Payu then ScoreRejected
    else if linear.fixedPrice > maxFixed then ScoreRejected
    else if !PricesWithin(linear.priceFor, maxForCounter) then ScoreRejected
    else ScoreNeutral
  }

  /** Lowering a price never turns an accepted offer into a rejected one. */
  lemma {:induction false} CheaperOfferStillAccepted(linear: ComLinear, cheaper: ComLinear, maxFixed: real, maxForCounter: map<Counter, real>)
    requires ScoreOffer(linear, maxFixed, maxForCounter) == ScoreNeutral
    requires cheaper.scheme == linear.scheme && cheaper.fixedPrice <= linear.fixedPrice
    requires |cheaper.priceFor| == |linear.priceFor|
    requires forall i :: 0 <= i < |cheaper.priceFor| ==>
               cheaper.priceFor[i].0 == linear.priceFor[i].0 && cheaper.priceFor[i].1 <= linear.priceFor[i].1
    ensures ScoreOffer(cheaper, maxFixed, maxForCounter) == ScoreNeutral
  {
    assert forall i :: 0 <= i < |linear.priceFor| ==>
             linear.priceFor[i].0 in maxForCounter && linear.priceFor[i].1 <= maxForCounter[linear.priceFor[i].0];
  }

  /** With the default limits a counter the strategy does not price rejects the offer. */
  lemma UnknownCounterRejected(fixedPrice: real, name: string, price: real)
    ensures ScoreOffer(ComLinear(Payu, fixedPrice, [(OtherCounter(name), price)]), DefaultMaxFixed, DefaultMaxForCounter) == ScoreRejected
  {
  }

  lemma DefaultLimits()
    ensures ScoreOffer(ComLinear(Payu, 0.05, [(TimeCounter, 0.002), (CpuCounter, 0.02)]), DefaultMaxFixed, DefaultMaxForCounter) == ScoreNeutral
    ensures ScoreOffer(ComLinear(Payu, 0.05, [(CpuCounter, 0.03)]), DefaultMaxFixed, DefaultMaxForCounter) == ScoreRejected
    ensures ScoreOffer(ComLinear(OtherScheme("payd"), 0.0, []), DefaultMaxFixed, DefaultMaxForCounter) == ScoreRejected
  {
  }

  // ---------------------------------------------------------------------------
  // find_offers and the offer buffer

  datatype Proposal = Proposal(id: string, issuer: string, isDraft: bool)

  /**
   * One proposal as `find_offers` sees it: the proposal, its score (or the error scoring
   * raised), the outcomes of rejecting or responding to it, and the time it was seen.
   */
  datatype Sighting = Sighting(proposal: Proposal, score: Result<real, string>, reject: Outcome<string>, respond: Outcome<string>, time: int)

  datatype BufferItem = BufferItem(ts: int, score: real, proposal: Proposal)

  datatype RunnerEvent =
    | ProposalReceived(proposalId: string, providerId: string)
    | ProposalRejected(proposalId: string)
    | ProposalResponded(proposalId: string)
    | ProposalFailed(proposalId: string)
    | ProposalConfirmed(proposalId: string)
    | AgreementCreated(agreementId: string)
    | AgreementConfirmed(agreementId: string)
    | AgreementRejected(agreementId: string)
    | InvoiceReceived(agreementId: string, invoiceId: string)
    | PaymentPrepared(agreementId: string)
    | PaymentQueued(agreementId: string)
    | PaymentAccepted(agreementId: string, invoiceId: string)

  /** A draft proposal that scored at least neutral is kept in the buffer. */
  predicate Kept(s: Sighting)
  {
    s.score.Ok? && s.score.value >= ScoreNeutral && s.proposal.isDraft
  }

  function ToItem(s: Sighting): BufferItem
    requires s.score.Ok?
  {
    BufferItem(s.time, s.score.value, s.proposal)
  }

  function ItemIssuer(item: BufferItem): string
  {
    item.proposal.issuer
  }

  /** The buffer items the sightings produce, in order. */
  function Items(ss: seq<Sighting>): (items: seq<BufferItem>)
    ensures |items| <= |ss|
  {
    if |ss| == 0 then []
    else Items(ss[..|ss| - 1]) + (if Kept(ss[|ss| - 1]) then [ToItem(ss[|ss| - 1])] else [])
  }

  /** What `find_offers` emits for one proposal. */
  function SightingEvents(s: Sighting): seq<RunnerEvent>
  {
    var p := s.proposal;
    [ProposalReceived(p.id, p.issuer)] +
    if s.score.Err? then [ProposalRejected(p.id)]
    else if s.score.value < ScoreNeutral then (if s.reject.Pass? then [ProposalRejected(p.id)] else [])
    else if !p.isDraft then (if s.respond.Pass? then [ProposalResponded(p.id)] else [ProposalFailed(p.id)])
    else [ProposalConfirmed(p.id)]
  }

  function AllSightingEvents(ss: seq<Sighting>): seq<RunnerEvent>
  {
    if |ss| == 0 then [] else AllSightingEvents(ss[..|ss| - 1]) + SightingEvents(ss[|ss| - 1])
  }

  datatype Invoice = Invoice(invoiceId: string, agreementId: string, amount: real)

  /**
   * The agreements waiting for an invoice and the invoices waiting for a payment.
   * `accepted` lists the invoices accepted against the allocation, in order.
   */
  datatype PaymentBook = PaymentBook(toPay: set<string>, invoices: map<string, Invoice>, accepted: seq<Invoice>)

  /**
   * One incoming invoice of `process_invoices`: an awaited agreement's invoice is
   * accepted and the agreement leaves the queue; any other invoice is kept for later.
   */
  function ReceiveInvoice(b: PaymentBook, inv: Invoice): (c: PaymentBook)
    ensures inv.agreementId in b.toPay ==>
              c == PaymentBook(b.toPay - {inv.agreementId}, b.invoices, b.accepted + [inv])
    ensures inv.agreementId !in b.toPay ==>
              c == b.(invoices := b.invoices[inv.agreementId := inv])
  {
    if inv.agreementId in b.toPay then
      b.(toPay := b.toPay - {inv.agreementId}, accepted := b.accepted + [inv])
    else b.(invoices := b.invoices[inv.agreementId := inv])
  }

  /**
   * `accept_payment_for_agreement`: without a stored invoice the agreement is queued and
   * the answer is false; otherwise the invoice leaves the store, is accepted when there is
   * an allocation, and the answer is true.
   */
  function AcceptPayment(b: PaymentBook, agreementId: string, allocation: Option<string>): (r: (bool, PaymentBook))
    ensures !r.0 <==> agreementId !in b.invoices
    ensures !r.0 ==> r.1 == b.(toPay := b.toPay + {agreementId})
    ensures r.0 ==> r.1.toPay == b.toPay && r.1.invoices == b.invoices - {agreementId} &&
                    r.1.accepted == b.accepted + (if allocation.Some? then [b.invoices[agreementId]] else [])
  {
    if agreementId !in b.invoices then (false, b.(toPay := b.toPay + {agreementId}))
    else
      var inv := b.invoices[agreementId];
      (true, b.(invoices := b.invoices - {agreementId}, accepted := b.accepted + (if allocation.Some? then [inv] else [])))
  }

  /**
   * Whichever arrives first, the finished agreement's payment request or its invoice,
   * the invoice ends up accepted and nothing is left waiting for that agreement.
   */
  lemma PaymentOrderIrrelevant(b: PaymentBook, inv: Invoice, allocation: string)
    requires inv.agreementId !in b.toPay && inv.agreementId !in b.invoices
    ensures var c := AcceptPayment(ReceiveInvoice(b, inv), inv.agreementId, Some(allocation));
            c.0 && c.1.accepted == b.accepted + [inv] && inv.agreementId !in c.1.toPay && inv.agreementId !in c.1.invoices
    ensures var d := ReceiveInvoice(AcceptPayment(b, inv.agreementId, Some(allocation)).1, inv);
            !AcceptPayment(b, inv.agreementId, Some(allocation)).0 &&
            d.accepted == b.accepted + [inv] && inv.agreementId !in d.toPay && inv.agreementId !in d.invoices
  {
  }

  /** No agreement is both waiting for an invoice and holding a stored one. */
  predicate Consistent(b: PaymentBook)
  {
    forall id :: id in b.toPay ==> id !in b.invoices
  }

  lemma ReceiveKeepsConsistent(b: PaymentBook, inv: Invoice)
    requires Consistent(b)
    ensures Consistent(ReceiveInvoice(b, inv))
  {
  }

  lemma AcceptKeepsConsistent(b: PaymentBook, agreementId: string, allocation: Option<string>)
    requires Consistent(b)
    ensures Consistent(AcceptPayment(b, agreementId, allocation).1)
  {
  }

  /** An accepted invoice stays accepted: both steps only append to `accepted`. */
  lemma {:induction false} ReceiveAllKeepsAccepted(b: PaymentBook, invoices: seq<Invoice>)
    requires Consistent(b)
    ensures Consistent(ReceiveAll(b, invoices))
    ensures b.accepted <= ReceiveAll(b, invoices).accepted
    ensures ReceiveAll(b, invoices).toPay <= b.toPay
  {
    if |invoices| > 0 {
      var prefix := invoices[..|invoices| - 1];
      ReceiveAllKeepsAccepted(b, prefix);
      ReceiveKeepsConsistent(ReceiveAll(b, prefix), invoices[|invoices| - 1]);
    }
  }

  /**
   * As written, `process_invoices` stores an early invoice with `invoices[id] = invoice`,
   * a plain property write on the Map object that `invoices.has` never sees. `stray`
   * holds those properties.
   */
  datatype WrittenBook = WrittenBook(book: PaymentBook, stray: map<string, Invoice>)

  function ReceiveInvoiceAsWritten(w: WrittenBook, inv: Invoice): (v: WrittenBook)
    ensures inv.agreementId in w.book.toPay ==> v.book == ReceiveInvoice(w.book, inv) && v.stray == w.stray
    ensures inv.agreementId !in w.book.toPay ==> v.book == w.book && v.stray == w.stray[inv.agreementId := inv]
  {
    if inv.agreementId in w.book.toPay then w.(book := ReceiveInvoice(w.book, inv))
    else w.(stray := w.stray[inv.agreementId := inv])
  }

  /**
   * The discrepancy: an invoice that arrives before its agreement's payment request is
   * never accepted; the request finds no invoice and queues the agreement instead.
   */
  lemma EarlyInvoiceLostAsWritten(inv: Invoice, allocation: string)
    ensures var w := ReceiveInvoiceAsWritten(WrittenBook(PaymentBook({}, map[], []), map[]), inv);
            var c := AcceptPayment(w.book, inv.agreementId, Some(allocation));
            !c.0 && c.1.accepted == [] && inv.agreementId in c.1.toPay
  {
  }

  // ---------------------------------------------------------------------------
  // The engine's state

  class Engine {
    const maxWorkers: nat
    const allocation: Option<string>
    var offerBuffer: map<string, BufferItem>
    var offersCollected: nat
    var proposalsConfirmed: nat
    /** The agreements whose workers were started. */
    var workers: set<string>
    var book: PaymentBook
    var events: seq<RunnerEvent>

    constructor (maxWorkers: nat, allocation: Option<string>)
      ensures this.maxWorkers == maxWorkers && this.allocation == allocation
      ensures offerBuffer == map[] && offersCollected == 0 && proposalsConfirmed == 0 && workers == {}
      ensures book == PaymentBook({}, map[], []) && events == []
    {
      this.maxWorkers := maxWorkers;
      this.allocation := allocation;
      offerBuffer := map[];
      offersCollected := 0;
      proposalsConfirmed := 0;
      workers := {};
      book := PaymentBook({}, map[], []);
      events := [];
    }

    /**
     * `find_offers` over the proposals of the subscription: every proposal is counted;
     * drafts scoring at least neutral go into the buffer under their issuer, a later one
     * replacing an earlier one, and are counted as confirmed.
     */
    method FindOffers(sightings: seq<Sighting>)
      modifies this
      ensures offersCollected == old(offersCollected) + |sightings|
      ensures proposalsConfirmed == old(proposalsConfirmed) + |Items(sightings)|
      ensures offerBuffer == old(offerBuffer) + IndexBy(Items(sightings), ItemIssuer)
      ensures events == old(events) + AllSightingEvents(sightings)
      ensures workers == old(workers) && book == old(book)
    {
      var c := Collection(offerBuffer, offersCollected, proposalsConfirmed, events);
      var d := HandleSightings(c, sightings);
      HandleAllCounts(c, sightings);
      HandleAllBuffer(c, sightings);
      offerBuffer, offersCollected, proposalsConfirmed, events := d.buffer, d.collected, d.confirmed, d.log;
    }

    /**
     * One turn of `worker_starter`: when not cancelled, with offers buffered and fewer
     * workers than allowed, the offer of `pick` (the random choice) leaves the buffer
     * before the agreement is attempted; a worker starts only for a confirmed agreement.
     */
    method StartWorker(cancelled: bool, pick: string, agreement: Result<string, string>, confirm: Outcome<string>)
      returns (started: Option<string>)
      requires |offerBuffer| > 0 ==> pick in offerBuffer
      modifies this
      ensures var eligible := !cancelled && |old(offerBuffer)| > 0 && |old(workers)| < maxWorkers;
              (!eligible ==> offerBuffer == old(offerBuffer) && started.None? && events == old(events)) &&
              (eligible ==> offerBuffer == old(offerBuffer) - {pick}) &&
              (eligible && agreement.Ok? && confirm.Pass? <==> started.Some?) &&
              (started.Some? ==> started.value == agreement.value)
      ensures workers == old(workers) + (if started.Some? then {started.value} else {})
      ensures |old(workers)| <= maxWorkers ==> |workers| <= maxWorkers
      ensures events == old(events) + StarterEvents(!cancelled && |old(offerBuffer)| > 0 && |old(workers)| < maxWorkers,
                                                    if pick in old(offerBuffer) then old(offerBuffer)[pick].proposal.id else "",
                                                    agreement, confirm)
      ensures offersCollected == old(offersCollected) && proposalsConfirmed == old(proposalsConfirmed) && book == old(book)
    {
      started := None;
      if cancelled || |offerBuffer| == 0 || |workers| >= maxWorkers {
        return;
      }
      var item := offerBuffer[pick];
      offerBuffer := offerBuffer - {pick};
      if agreement.Err? {
        events := events + [ProposalFailed(item.proposal.id)];
        return;
      }
      events := events + [AgreementCreated(agreement.value)];
      if confirm.Fail? {
        events := events + [AgreementRejected(agreement.value)];
        return;
      }
      events := events + [AgreementConfirmed(agreement.value)];
      workers := workers + {agreement.value};
      started := Some(agreement.value);
    }

    /**
     * `process_invoices` over the incoming invoices; `closing[k]` is the closing flag when
     * invoice k has been handled. The loop stops after the first invoice that leaves the
     * runner closing with no agreement waiting for payment. Returns how many were handled.
     * Each invoice goes through the corrected `ReceiveInvoice`, which keeps an early
     * invoice as a Map entry; the code as written is `ReceiveInvoiceAsWritten`.
     */
    method ProcessInvoices(incoming: seq<Invoice>, closing: seq<bool>) returns (handled: nat)
      requires |closing| == |incoming|
      modifies this
      ensures handled <= |incoming|
      ensures book == ReceiveAll(old(book), incoming[..handled])
      ensures events == old(events) + ReceiveAllEvents(old(book), incoming[..handled])
      ensures handled < |incoming| ==> handled > 0 && closing[handled - 1] && book.toPay == {}
      ensures forall k :: 0 <= k < handled - 1 ==> !(closing[k] && ReceiveAll(old(book), incoming[..k + 1]).toPay == {})
      ensures offerBuffer == old(offerBuffer) && workers == old(workers)
    {
      handled := 0;
      var stop := false;
      while handled < |incoming| && !stop
        invariant 0 <= handled <= |incoming|
        invariant book == ReceiveAll(old(book), incoming[..handled])
        invariant events == old(events) + ReceiveAllEvents(old(book), incoming[..handled])
        invariant stop ==> handled > 0 && closing[handled - 1] && book.toPay == {}
        invariant forall k :: 0 <= k < handled - 1 ==> !(closing[k] && ReceiveAll(old(book), incoming[..k + 1]).toPay == {})
        invariant !stop ==> forall k :: 0 <= k < handled ==> !(closing[k] && ReceiveAll(old(book), incoming[..k + 1]).toPay == {})
        invariant offerBuffer == old(offerBuffer) && workers == old(workers)
      {
        var inv := incoming[handled];
        assert incoming[..handled + 1][..handled] == incoming[..handled];
        events := events + ReceiveEvents(book, inv);
        book := ReceiveInvoice(book, inv);
        handled := handled + 1;
        stop := closing[handled - 1] && book.toPay == {};
      }
    }

    /** `accept_payment_for_agreement` on the engine's book. */
    method AcceptPaymentForAgreement(agreementId: string) returns (paid: bool)
      modifies this
      ensures (paid, book) == AcceptPayment(old(book), agreementId, allocation)
      ensures events == old(events) + [PaymentPrepared(agreementId)] +
                        (if paid then [PaymentAccepted(agreementId, old(book).invoices[agreementId].invoiceId)] else [PaymentQueued(agreementId)])
      ensures offerBuffer == old(offerBuffer) && workers == old(workers)
    {
      events := events + [PaymentPrepared(agreementId)];
      var r := AcceptPayment(book, agreementId, allocation);
      if !r.0 {
        events := events + [PaymentQueued(agreementId)];
      } else {
        events := events + [PaymentAccepted(agreementId, book.invoices[agreementId].invoiceId)];
      }
      paid, book := r.0, r.1;
    }
  }

  /** What `find_offers` keeps between proposals: the buffer, the two counters and the event log. */
  datatype Collection = Collection(buffer: map<string, BufferItem>, collected: nat, confirmed: nat, log: seq<RunnerEvent>)

  /** One proposal handled by `find_offers`. */
  function Handle(c: Collection, s: Sighting): Collection
  {
    Collection(if Kept(s) then c.buffer[s.proposal.issuer := ToItem(s)] else c.buffer,
               c.collected + 1,
               if Kept(s) then c.confirmed + 1 else c.confirmed,
               c.log + SightingEvents(s))
  }

  function HandleAll(c: Collection, ss: seq<Sighting>): Collection
  {
    if |ss| == 0 then c else Handle(HandleAll(c, ss[..|ss| - 1]), ss[|ss| - 1])
  }

  /** After the proposals each one was counted, the kept ones confirmed, and every one logged. */
  lemma {:induction false} HandleAllCounts(c: Collection, ss: seq<Sighting>)
    ensures HandleAll(c, ss).collected == c.collected + |ss|
    ensures HandleAll(c, ss).confirmed == c.confirmed + |Items(ss)|
    ensures HandleAll(c, ss).log == c.log + AllSightingEvents(ss)
  {
    if |ss| > 0 {
      var n := |ss| - 1;
      var prefix, last := ss[..n], ss[n];
      HandleAllCounts(c, prefix);
      assert HandleAll(c, ss) == Handle(HandleAll(c, prefix), last);
    }
  }

  /** The buffer holds the old entries overridden by the last kept proposal of every issuer. */
  lemma {:induction false} HandleAllBuffer(c: Collection, ss: seq<Sighting>)
    ensures HandleAll(c, ss).buffer == c.buffer + IndexBy(Items(ss), ItemIssuer)
  {
    if |ss| > 0 {
      var n := |ss| - 1;
      var prefix, last := ss[..n], ss[n];
      HandleAllBuffer(c, prefix);
      var prev := HandleAll(c, prefix).buffer;
      assert HandleAll(c, ss).buffer == if Kept(last) then prev[last.proposal.issuer := ToItem(last)] else prev;
      var items := Items(prefix);
      var index := IndexBy(items, ItemIssuer);
      assert prev == c.buffer + index;
      if Kept(last) {
        var item := ToItem(last);
        assert Items(ss) == items + [item];
        IndexBySnoc(items, item);
        MergeUpdate(c.buffer, index, last.proposal.issuer, item);
      } else {
        assert Items(ss) == items;
      }
    }
  }

  lemma IndexBySnoc(items: seq<BufferItem>, item: BufferItem)
    ensures IndexBy(items + [item], ItemIssuer) == IndexBy(items, ItemIssuer)[item.proposal.issuer := item]
  {
    assert (items + [item])[..|items|] == items;
  }

  lemma MergeUpdate(m: map<string, BufferItem>, n: map<string, BufferItem>, k: string, v: BufferItem)
    ensures (m + n)[k := v] == m + n[k := v]
  {
  }

  /** The loop of `find_offers`. */
  method HandleSightings(c: Collection, sightings: seq<Sighting>) returns (d: Collection)
    ensures d == HandleAll(c, sightings)
  {
    d := c;
    var i := 0;
    while i < |sightings|
      invariant 0 <= i <= |sightings|
      invariant d == HandleAll(c, sightings[..i])
    {
      assert sightings[..i + 1][..i] == sightings[..i];
      d := Handle(d, sightings[i]);
      i := i + 1;
    }
    assert sightings[..i] == sightings;
  }

  /** How one more sighting extends the items, the buffer index and the events. */
  lemma SightingStep(ss: seq<Sighting>, i: nat)
    requires i < |ss|
    ensures Kept(ss[i]) ==> Items(ss[..i + 1]) == Items(ss[..i]) + [ToItem(ss[i])]
    ensures !Kept(ss[i]) ==> Items(ss[..i + 1]) == Items(ss[..i])
    ensures Kept(ss[i]) ==> IndexBy(Items(ss[..i + 1]), ItemIssuer) ==
                              IndexBy(Items(ss[..i]), ItemIssuer)[ss[i].proposal.issuer := ToItem(ss[i])]
    ensures !Kept(ss[i]) ==> IndexBy(Items(ss[..i + 1]), ItemIssuer) == IndexBy(Items(ss[..i]), ItemIssuer)
    ensures AllSightingEvents(ss[..i + 1]) == AllSightingEvents(ss[..i]) + SightingEvents(ss[i])
  {
    var prefix := ss[..i + 1];
    assert prefix[..i] == ss[..i] && prefix[i] == ss[i];
    if Kept(ss[i]) {
      var items := Items(ss[..i]);
      assert (items + [ToItem(ss[i])])[..|items|] == items;
    }
  }

  /** What `worker_starter` emits in one turn, for the proposal of the picked offer. */
  function StarterEvents(eligible: bool, proposalId: string, agreement: Result<string, string>, confirm: Outcome<string>): seq<RunnerEvent>
  {
    if !eligible then []
    else if agreement.Err? then [ProposalFailed(proposalId)]
    else [AgreementCreated(agreement.value)] +
         (if confirm.Fail? then [AgreementRejected(agreement.value)] else [AgreementConfirmed(agreement.value)])
  }

  function ReceiveEvents(b: PaymentBook, inv: Invoice): seq<RunnerEvent>
  {
    if inv.agreementId in b.toPay then [InvoiceReceived(inv.agreementId, inv.invoiceId)] else []
  }

  function ReceiveAllEvents(b: PaymentBook, invoices: seq<Invoice>): seq<RunnerEvent>
  {
    if |invoices| == 0 then []
    else
      var prefix := invoices[..|invoices| - 1];
      ReceiveAllEvents(b, prefix) + ReceiveEvents(ReceiveAll(b, prefix), invoices[|invoices| - 1])
  }

  function ReceiveAll(b: PaymentBook, invoices: seq<Invoice>): PaymentBook
  {
    if |invoices| == 0 then b else ReceiveInvoice(ReceiveAll(b, invoices[..|invoices| - 1]), invoices[|invoices| - 1])
  }

  /** The buffer holds, for each issuer, the last kept sighting of that issuer. */
  lemma BufferKeepsLastSighting(ss: seq<Sighting>, issuer: string)
    ensures issuer in IndexBy(Items(ss), ItemIssuer) ==>
              var item := IndexBy(Items(ss), ItemIssuer)[issuer];
              item in Items(ss) && item.proposal.issuer == issuer
  {
    if issuer in IndexBy(Items(ss), ItemIssuer) {
      IndexByValueIsEntry(Items(ss), ItemIssuer, issuer);
    }
  }

  /** Every item in the buffer comes from a kept sighting. */
  lemma {:induction false} ItemsComeFromKeptSightings(ss: seq<Sighting>, item: BufferItem)
    requires item in Items(ss)
    ensures exists i :: 0 <= i < |ss| && Kept(ss[i]) && ToItem(ss[i]) == item
  {
    var n := |ss| - 1;
    var prefix := ss[..n];
    if item in Items(prefix) {
      ItemsComeFromKeptSightings(prefix, item);
      var i :| 0 <= i < |prefix| && Kept(prefix[i]) && ToItem(prefix[i]) == item;
      assert ss[i] == prefix[i];
    } else {
      assert Kept(ss[n]) && ToItem(ss[n]) == item;
    }
  }
}
