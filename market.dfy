/**
 * The market module's proposal funnel (src/market/market.module.ts): demand decorations,
 * local GVMI serving, the proposal event feed, admission, de-duplication of initial
 * proposals by provider key, negotiation, and the buffering of drafts.
 * Timers are replaced by explicit release steps and buffer ticks.
 */
module Market {
  import opened Wrappers
  import opened Strings
  import opened Seqs

  type ProviderKey = string
  type DemandId = string

  datatype ProposalState = Initial | Draft | Rejected

  /** The proposal model delivered by the market API; `valid` is the outcome of `isValid()`. */
  datatype ProposalModel = ProposalModel(id: string, providerKey: ProviderKey, state: ProposalState, valid: bool)

  /** An event of the demand's proposal feed; rejection events carry a reason. */
  datatype ProposalEvent = NewProposal(proposal: ProposalModel) | ProposalRejected(reason: string)

  /** A proposal model bound to the demand it answers (ProposalNew). */
  datatype Proposal = Proposal(model: ProposalModel, demand: DemandId)
  {
    function Provider(): ProviderKey { model.providerKey }
    predicate IsInitial() { model.state == Initial }
    predicate IsDraft() { model.state == Draft }
    predicate IsValid() { model.valid }
  }

  // ---------------------------------------------------------------------------
  // Demand decorations (buildDemand)
  // ---------------------------------------------------------------------------

  datatype PropValue = BoolValue(b: bool) | NumValue(n: int) | TextValue(s: string)
  datatype Comparison = Eq | Gt
  datatype DemandProperty = DemandProperty(key: string, value: PropValue)
  datatype DemandConstraint = DemandConstraint(key: string, op: Comparison, value: string)
  datatype Decorations = Decorations(properties: seq<DemandProperty>, constraints: seq<DemandConstraint>)

  /** The values buildDemand reads from its DemandConfig. */
  datatype DemandSettings = DemandSettings(
    expirationSec: int,
    subnetTag: string,
    debitNotesAcceptanceTimeoutSec: int,
    midAgreementDebitNoteIntervalSec: int,
    midAgreementPaymentTimeoutSec: int)

  function PaymentAddressKey(platform: string): string
  {
    "golem.com.payment.platform." + platform + ".address"
  }

  /**
   * The decorations buildDemand adds after the package's own, in call order.
   * `now` is Date.now() in milliseconds.
   */
  function BuildDemand(package: Decorations, settings: DemandSettings, platform: string, payerAddress: string, now: int): (d: Decorations)
    ensures package.properties <= d.properties && package.constraints <= d.constraints
    ensures DemandProperty(PaymentAddressKey(platform), TextValue(payerAddress)) in d.properties
    ensures DemandConstraint(PaymentAddressKey(platform), Eq, "*") in d.constraints
    ensures DemandConstraint("golem.com.payment.protocol.version", Gt, "1") in d.constraints
    ensures DemandProperty("golem.srv.comp.expiration", NumValue(now + settings.expirationSec * 1000)) in d.properties
    ensures DemandConstraint("golem.com.pricing.model", Eq, "linear") in d.constraints
  {
    var props := [
      DemandProperty("golem.srv.caps.multi-activity", BoolValue(true)),
      DemandProperty("golem.srv.comp.expiration", NumValue(now + settings.expirationSec * 1000)),
      DemandProperty("golem.node.debug.subnet", TextValue(settings.subnetTag)),
      DemandProperty("golem.com.payment.debit-notes.accept-timeout?", NumValue(settings.debitNotesAcceptanceTimeoutSec)),
      DemandProperty("golem.com.scheme.payu.debit-note.interval-sec?", NumValue(settings.midAgreementDebitNoteIntervalSec)),
      DemandProperty("golem.com.scheme.payu.payment-timeout-sec?", NumValue(settings.midAgreementPaymentTimeoutSec)),
      DemandProperty(PaymentAddressKey(platform), TextValue(payerAddress)),
      DemandProperty("golem.com.payment.protocol.version", TextValue("2"))
    ];
    var cons := [
      DemandConstraint("golem.com.pricing.model", Eq, "linear"),
      DemandConstraint("golem.node.debug.subnet", Eq, settings.subnetTag),
      DemandConstraint(PaymentAddressKey(platform), Eq, "*"),
      DemandConstraint("golem.com.payment.protocol.version", Gt, "1")
    ];
    assert props[6] in props && props[1] in props;
    assert cons[0] in cons && cons[2] in cons && cons[3] in cons;
    Decorations(package.properties + props, package.constraints + cons)
  }

  // ---------------------------------------------------------------------------
  // Local GVMI serving (applyLocalGVMIServeSupport)
  // ---------------------------------------------------------------------------

  datatype DemandOptions = DemandOptions(imageUrl: Option<string>, imageHash: Option<string>, imageTag: Option<string>)
  datatype PublishInfo = PublishInfo(fileUrl: string, fileHash: string)

  /** `s.replace(pattern, "")`: removes the first occurrence of pattern. */
  function RemoveFirst(s: string, pattern: string): string
    requires |pattern| > 0
  {
    if StartsWith(s, pattern) then s[|pattern|..]
    else if |s| == 0 then s
    else [s[0]] + RemoveFirst(s[1..], pattern)
  }

  const FilePrefix: string := "file://"

  datatype ServeResult = ServeResult(options: DemandOptions, publishedPath: Option<string>)

  /**
   * A "file://" image is served by the requestor: the prefix is removed, and the URL
   * and hash come from the file server's existing publication of that path or, when
   * there is none, from publishing it now (publishedPath). Other options are returned as given.
   */
  function ApplyLocalGvmiServeSupport(options: DemandOptions, published: map<string, PublishInfo>, publish: string -> PublishInfo): (r: ServeResult)
    ensures options.imageUrl.None? || !StartsWith(options.imageUrl.value, FilePrefix) ==>
              r.options == options && r.publishedPath.None?
    ensures options.imageUrl.Some? && StartsWith(options.imageUrl.value, FilePrefix) ==>
              var path := options.imageUrl.value[|FilePrefix|..];
              var info := if path in published then published[path] else publish(path);
              r.options == options.(imageUrl := Some(info.fileUrl), imageHash := Some(info.fileHash)) &&
              r.options.imageTag == options.imageTag &&
              (r.publishedPath.Some? <==> path !in published) &&
              (r.publishedPath.Some? ==> r.publishedPath.value == path)
  {
    match options.imageUrl
    case None => ServeResult(options, None)
    case Some(url) =>
      if StartsWith(url, FilePrefix) then
        var sourcePath := RemoveFirst(url, FilePrefix);
        var info := if sourcePath in published then published[sourcePath] else publish(sourcePath);
        ServeResult(options.(imageUrl := Some(info.fileUrl), imageHash := Some(info.fileHash)),
                    if sourcePath in published then None else Some(sourcePath))
      else
        ServeResult(options, None)
  }

  // ---------------------------------------------------------------------------
  // Proposal feed (subscribeForProposals) and admission
  // ---------------------------------------------------------------------------

  /** Rejection events are dropped; every other event is bound to its demand. */
  function SubscribeForProposals(events: seq<ProposalEvent>, demand: DemandId): (r: seq<Proposal>)
    ensures |r| <= |events|
    ensures forall i :: 0 <= i < |r| ==> r[i].demand == demand
  {
    if |events| == 0 then []
    else
      match events[0]
      case NewProposal(m) => [Proposal(m, demand)] + SubscribeForProposals(events[1..], demand)
      case ProposalRejected(_) => SubscribeForProposals(events[1..], demand)
  }

  lemma {:induction false} SubscribeKeepsExactlyNewProposals(events: seq<ProposalEvent>, demand: DemandId)
    ensures forall m :: Proposal(m, demand) in SubscribeForProposals(events, demand) <==> NewProposal(m) in events
    ensures forall i :: 0 <= i < |events| && events[i].ProposalRejected? ==> |SubscribeForProposals(events, demand)| < |events|
  {
    if |events| > 0 {
      SubscribeKeepsExactlyNewProposals(events[1..], demand);
      assert events == [events[0]] + events[1..];
    }
  }

  predicate Admissible(p: Proposal, userFilter: Option<Proposal -> bool>)
  {
    p.IsValid() && (userFilter.None? || userFilter.value(p))
  }

  /** The two admission filters of startCollectingProposals. */
  function AdmitProposals(ps: seq<Proposal>, userFilter: Option<Proposal -> bool>): (r: seq<Proposal>)
    ensures forall p :: p in r <==> p in ps && Admissible(p, userFilter)
  {
    var validOnly := Filter(ps, (p: Proposal) => p.IsValid());
    var r := Filter(validOnly, (p: Proposal) => userFilter.None? || userFilter.value(p));
    FilterMembership(ps, (p: Proposal) => p.IsValid());
    FilterMembership(validOnly, (p: Proposal) => userFilter.None? || userFilter.value(p));
    r
  }

  // ---------------------------------------------------------------------------
  // The de-duplicating batch (ProposalsBatch, only its contract)
  // ---------------------------------------------------------------------------

  predicate KeysDistinct(items: seq<Proposal>)
  {
    forall i, j :: 0 <= i < j < |items| ==> items[i].Provider() != items[j].Provider()
  }

  /** The batch's entry for provider k. */
  function EntryFor(items: seq<Proposal>, k: ProviderKey): (r: Option<Proposal>)
    ensures r.Some? ==> r.value in items && r.value.Provider() == k
    ensures r.None? ==> forall i :: 0 <= i < |items| ==> items[i].Provider() != k
  {
    if |items| == 0 then None
    else if items[0].Provider() == k then Some(items[0])
    else EntryFor(items[1..], k)
  }

  /** addProposal: the proposal replaces its provider's entry, or joins the batch. */
  function BatchInsert(items: seq<Proposal>, p: Proposal): (r: seq<Proposal>)
    ensures |r| == |items| || |r| == |items| + 1
  {
    if |items| == 0 then [p]
    else if items[0].Provider() == p.Provider() then [p] + items[1..]
    else [items[0]] + BatchInsert(items[1..], p)
  }

  lemma {:induction false} BatchInsertEntry(items: seq<Proposal>, p: Proposal, k: ProviderKey)
    ensures EntryFor(BatchInsert(items, p), k) == if k == p.Provider() then Some(p) else EntryFor(items, k)
  {
    if |items| > 0 && items[0].Provider() != p.Provider() {
      BatchInsertEntry(items[1..], p, k);
    }
  }

  lemma {:induction false} BatchInsertMembers(items: seq<Proposal>, p: Proposal)
    ensures forall q :: q in BatchInsert(items, p) ==> q == p || q in items
  {
    if |items| > 0 && items[0].Provider() != p.Provider() {
      BatchInsertMembers(items[1..], p);
    }
  }

  lemma {:induction false} BatchInsertKeepsKeysDistinct(items: seq<Proposal>, p: Proposal)
    requires KeysDistinct(items)
    ensures KeysDistinct(BatchInsert(items, p))
  {
    if |items| > 0 && items[0].Provider() != p.Provider() {
      BatchInsertKeepsKeysDistinct(items[1..], p);
      var r := BatchInsert(items, p);
      forall i, j | 0 <= i < j < |r|
        ensures r[i].Provider() != r[j].Provider()
      {
        if i == 0 {
          BatchInsertMembers(items[1..], p);
          assert r[j] in BatchInsert(items[1..], p);
        }
      }
    }
  }

  /** The batch after adding ps one by one. */
  function BatchInsertAll(items: seq<Proposal>, ps: seq<Proposal>): seq<Proposal>
    decreases |ps|
  {
    if |ps| == 0 then items else BatchInsertAll(BatchInsert(items, ps[0]), ps[1..])
  }

  /** The last proposal of ps from provider k. */
  function LastFrom(ps: seq<Proposal>, k: ProviderKey): (r: Option<Proposal>)
    ensures r.Some? ==> r.value in ps && r.value.Provider() == k
  {
    if |ps| == 0 then None
    else if ps[|ps| - 1].Provider() == k then Some(ps[|ps| - 1])
    else LastFrom(ps[..|ps| - 1], k)
  }

  lemma {:induction false} LastFromCons(p: Proposal, ps: seq<Proposal>, k: ProviderKey)
    ensures LastFrom([p] + ps, k) == if LastFrom(ps, k).Some? then LastFrom(ps, k) else if p.Provider() == k then Some(p) else None
    decreases |ps|
  {
    var s := [p] + ps;
    if |ps| > 0 {
      assert s[|s| - 1] == ps[|ps| - 1];
      if ps[|ps| - 1].Provider() != k {
        assert s[..|s| - 1] == [p] + ps[..|ps| - 1];
        LastFromCons(p, ps[..|ps| - 1], k);
      }
    }
  }

  /** Last write wins: after a window, a provider's entry is its latest sighting. */
  lemma {:induction false} BatchKeepsLatestSighting(items: seq<Proposal>, ps: seq<Proposal>, k: ProviderKey)
    ensures EntryFor(BatchInsertAll(items, ps), k) == if LastFrom(ps, k).Some? then LastFrom(ps, k) else EntryFor(items, k)
    decreases |ps|
  {
    if |ps| > 0 {
      BatchKeepsLatestSighting(BatchInsert(items, ps[0]), ps[1..], k);
      BatchInsertEntry(items, ps[0], k);
      assert ps == [ps[0]] + ps[1..];
      LastFromCons(ps[0], ps[1..], k);
    }
  }

  lemma {:induction false} BatchInsertAllKeepsKeysDistinct(items: seq<Proposal>, ps: seq<Proposal>)
    requires KeysDistinct(items)
    ensures KeysDistinct(BatchInsertAll(items, ps))
    decreases |ps|
  {
    if |ps| > 0 {
      BatchInsertKeepsKeysDistinct(items, ps[0]);
      BatchInsertAllKeepsKeysDistinct(BatchInsert(items, ps[0]), ps[1..]);
    }
  }

  /** With distinct keys, a provider present in the batch has exactly one entry. */
  lemma {:induction false} OneEntryPerProvider(items: seq<Proposal>, k: ProviderKey)
    requires KeysDistinct(items)
    ensures EntryFor(items, k).Some? ==> Count(items, (q: Proposal) => q.Provider() == k) == 1
  {
    if |items| > 0 {
      OneEntryPerProvider(items[1..], k);
      if items[0].Provider() == k {
        NoEntryCountsZero(items[1..], k);
      }
    }
  }

  lemma {:induction false} NoEntryCountsZero(items: seq<Proposal>, k: ProviderKey)
    requires forall i :: 0 <= i < |items| ==> items[i].Provider() != k
    ensures Count(items, (q: Proposal) => q.Provider() == k) == 0
  {
    if |items| > 0 {
      NoEntryCountsZero(items[1..], k);
    }
  }

  /**
   * De-duplication: however many initial proposals of provider k arrive in one window,
   * the released batch holds exactly one proposal of k, the last one added.
   */
  lemma DedupKeepsOnlyLatest(items: seq<Proposal>, ps: seq<Proposal>, k: ProviderKey)
    requires KeysDistinct(items)
    requires LastFrom(ps, k).Some?
    ensures EntryFor(BatchInsertAll(items, ps), k) == LastFrom(ps, k)
    ensures Count(BatchInsertAll(items, ps), (q: Proposal) => q.Provider() == k) == 1
  {
    BatchKeepsLatestSighting(items, ps, k);
    BatchInsertAllKeepsKeysDistinct(items, ps);
    OneEntryPerProvider(BatchInsertAll(items, ps), k);
  }

  /** The de-duplicating batch; its release policy is outside the model. */
  class ProposalsBatch {
    var items: seq<Proposal>

    ghost predicate Valid()
      reads this
    {
      KeysDistinct(items)
    }

    constructor ()
      ensures Valid() && items == []
    {
      items := [];
    }

    method AddProposal(p: Proposal)
      requires Valid()
      modifies this
      ensures Valid()
      ensures items == BatchInsert(old(items), p)
    {
      var i := 0;
      while i < |items| && items[i].Provider() != p.Provider()
        invariant 0 <= i <= |items|
        invariant forall k :: 0 <= k < i ==> items[k].Provider() != p.Provider()
      {
        i := i + 1;
      }
      BatchInsertAt(items, p, i);
      BatchInsertKeepsKeysDistinct(items, p);
      if i < |items| {
        items := items[i := p];
      } else {
        items := items + [p];
      }
    }

    /** getProposals: hands out the whole window and starts a new one. */
    method GetProposals() returns (ps: seq<Proposal>)
      requires Valid()
      modifies this
      ensures Valid()
      ensures ps == old(items) && items == []
    {
      ps := items;
      items := [];
    }
  }

  lemma {:induction false} BatchInsertAt(items: seq<Proposal>, p: Proposal, i: nat)
    requires i <= |items|
    requires forall k :: 0 <= k < i ==> items[k].Provider() != p.Provider()
    requires i < |items| ==> items[i].Provider() == p.Provider()
    ensures BatchInsert(items, p) == if i < |items| then items[i := p] else items + [p]
  {
    if i > 0 {
      BatchInsertAt(items[1..], p, i - 1);
      if i < |items| {
        assert [items[0]] + items[1..][i - 1 := p] == items[i := p];
      } else {
        assert [items[0]] + (items[1..] + [p]) == items + [p];
      }
    } else if i < |items| {
      assert [p] + items[1..] == items[0 := p];
    }
  }

  // ---------------------------------------------------------------------------
  // reduceInitialProposalsByProviderKey
  // ---------------------------------------------------------------------------

  /** Outcome of one wait-and-get cycle of the batch loop. */
  datatype BatchRelease = Released | ReleaseFailed(reason: string)

  function NonInitial(ps: seq<Proposal>): seq<Proposal>
  {
    Filter(ps, (p: Proposal) => !p.IsInitial())
  }

  function Initials(ps: seq<Proposal>): seq<Proposal>
  {
    Filter(ps, (p: Proposal) => p.IsInitial())
  }

  /** `destination.next` for each of ps; a subscriber that received an error ignores them. */
  function Deliver(emitted: seq<Proposal>, failure: Option<string>, ps: seq<Proposal>): seq<Proposal>
  {
    if failure.None? then emitted + ps else emitted
  }

  class InitialProposalReducer {
    const batch: ProposalsBatch
    var cancelled: bool
    /** What the destination subscriber received, in order. */
    var emitted: seq<Proposal>
    /** The error the destination received, after which it ignores values. */
    var failure: Option<string>

    ghost predicate Valid()
      reads this, batch
    {
      batch.Valid()
    }

    constructor ()
      ensures Valid() && fresh(batch)
      ensures !cancelled && emitted == [] && failure.None? && batch.items == []
    {
      batch := new ProposalsBatch();
      cancelled := false;
      emitted := [];
      failure := None;
    }

    /** The source subscription: initial proposals go to the batch, others straight on. */
    method OnProposal(p: Proposal)
      requires Valid()
      modifies this, batch
      ensures Valid()
      ensures cancelled == old(cancelled) && failure == old(failure)
      ensures p.IsInitial() ==> batch.items == BatchInsert(old(batch.items), p) && emitted == old(emitted)
      ensures !p.IsInitial() ==> batch.items == old(batch.items) && emitted == Deliver(old(emitted), failure, [p])
    {
      if p.IsInitial() {
        batch.AddProposal(p);
      } else if failure.None? {
        emitted := emitted + [p];
      }
    }

    /** The source delivering ps in order. */
    method Feed(ps: seq<Proposal>)
      requires Valid()
      modifies this, batch
      ensures Valid()
      ensures cancelled == old(cancelled) && failure == old(failure)
      ensures batch.items == BatchInsertAll(old(batch.items), Initials(ps))
      ensures emitted == Deliver(old(emitted), failure, NonInitial(ps))
    {
      var i := 0;
      while i < |ps|
        invariant 0 <= i <= |ps|
        invariant Valid()
        invariant cancelled == old(cancelled) && failure == old(failure)
        invariant BatchInsertAll(old(batch.items), Initials(ps)) == BatchInsertAll(batch.items, Initials(ps[i..]))
        invariant emitted == Deliver(old(emitted), failure, NonInitial(ps[..i]))
      {
        assert ps[i..] == [ps[i]] + ps[i + 1..];
        assert ps[..i + 1] == ps[..i] + [ps[i]];
        FilterConcat(ps[..i], [ps[i]], (p: Proposal) => !p.IsInitial());
        OnProposal(ps[i]);
        i := i + 1;
      }
      assert ps[..i] == ps;
    }

    /**
     * One run of the async batch loop: unless cancelled, wait for the batch, emit its
     * proposals one by one, report a failure to the destination, and re-arm.
     */
    method BatchCycle(release: BatchRelease) returns (rearmed: bool)
      requires Valid()
      modifies this, batch
      ensures Valid()
      ensures rearmed == !old(cancelled)
      ensures cancelled == old(cancelled)
      ensures old(cancelled) ==> emitted == old(emitted) && failure == old(failure) && batch.items == old(batch.items)
      ensures !old(cancelled) && release.Released? ==>
                batch.items == [] && failure == old(failure) && emitted == Deliver(old(emitted), failure, old(batch.items))
      ensures !old(cancelled) && release.ReleaseFailed? ==>
                batch.items == old(batch.items) && emitted == old(emitted) &&
                failure == (if old(failure).Some? then old(failure) else Some(release.reason))
    {
      if cancelled {
        return false;
      }
      rearmed := true;
      match release
      case Released =>
        var ps := batch.GetProposals();
        for i := 0 to |ps|
          invariant Valid() && batch.items == []
          invariant cancelled == old(cancelled) && failure == old(failure)
          invariant emitted == Deliver(old(emitted), failure, ps[..i])
        {
          assert ps[..i + 1] == ps[..i] + [ps[i]];
          if failure.None? {
            emitted := emitted + [ps[i]];
          }
        }
        assert ps[..|ps|] == ps;
      case ReleaseFailed(reason) =>
        if failure.None? {
          failure := Some(reason);
        }
    }

    /** The teardown of the operator: the loop stops re-arming. */
    method Unsubscribe()
      modifies this
      ensures cancelled
      ensures emitted == old(emitted) && failure == old(failure)
    {
      cancelled := true;
    }
  }

  // ---------------------------------------------------------------------------
  // After de-duplication: negotiation, repository, drafts, buffering
  // ---------------------------------------------------------------------------

  datatype TapEffects = TapEffects(negotiated: seq<Proposal>, stored: seq<Proposal>, drafts: seq<Proposal>)

  /** The two tap stages and the draft filter applied to the de-duplicated stream. */
  function AfterDeduplication(emitted: seq<Proposal>): (t: TapEffects)
    ensures t.stored == emitted
    ensures forall p :: p in t.negotiated <==> p in emitted && p.IsInitial()
    ensures forall p :: p in t.drafts <==> p in emitted && p.IsDraft()
    ensures |t.negotiated| + |t.drafts| <= |emitted|
  {
    var negotiated := Initials(emitted);
    var drafts := Filter(emitted, (p: Proposal) => p.IsDraft());
    FilterMembership(emitted, (p: Proposal) => p.IsInitial());
    FilterMembership(emitted, (p: Proposal) => p.IsDraft());
    DisjointFiltersFit(emitted);
    TapEffects(negotiated, emitted, drafts)
  }

  lemma {:induction false} DisjointFiltersFit(ps: seq<Proposal>)
    ensures |Initials(ps)| + |Filter(ps, (p: Proposal) => p.IsDraft())| <= |ps|
  {
    if |ps| > 0 {
      DisjointFiltersFit(ps[1..]);
    }
  }

  /** `options.bufferSize || 10` */
  function BufferSizeOption(bufferSize: Option<nat>): (n: nat)
    ensures n >= 1
    ensures bufferSize.Some? && bufferSize.value != 0 ==> n == bufferSize.value
    ensures bufferSize.None? || bufferSize.value == 0 ==> n == 10
  {
    if bufferSize.Some? && bufferSize.value != 0 then bufferSize.value else 10
  }

  /** `options.bufferTimeout ?? 1000` */
  function BufferTimeoutOption(bufferTimeout: Option<int>): (t: int)
    ensures bufferTimeout.Some? ==> t == bufferTimeout.value
    ensures bufferTimeout.None? ==> t == 1000
  {
    bufferTimeout.GetOr(1000)
  }

  /** The input of bufferTime: a proposal, or the end of the current time span. */
  datatype BufferInput = Item(p: Proposal) | Tick

  function Items(inputs: seq<BufferInput>): seq<Proposal>
  {
    if |inputs| == 0 then []
    else if inputs[0].Item? then [inputs[0].p] + Items(inputs[1..])
    else Items(inputs[1..])
  }

  /**
   * bufferTime(span, null, size): a buffer is emitted at the end of each time span,
   * as soon as it holds `size` proposals, and when the stream completes.
   */
  function BufferTime(inputs: seq<BufferInput>, size: nat, current: seq<Proposal>): seq<seq<Proposal>>
    requires size >= 1
    decreases |inputs|
  {
    if |inputs| == 0 then [current]
    else match inputs[0]
      case Tick => [current] + BufferTime(inputs[1..], size, [])
      case Item(p) =>
        if |current + [p]| >= size then [current + [p]] + BufferTime(inputs[1..], size, [])
        else BufferTime(inputs[1..], size, current + [p])
  }

  lemma {:induction false} BufferTimeKeepsOrder(inputs: seq<BufferInput>, size: nat, current: seq<Proposal>)
    requires size >= 1
    ensures Flatten(BufferTime(inputs, size, current)) == current + Items(inputs)
    decreases |inputs|
  {
    if |inputs| > 0 {
      match inputs[0]
      case Tick =>
        BufferTimeKeepsOrder(inputs[1..], size, []);
      case Item(p) =>
        BufferTimeKeepsOrder(inputs[1..], size, if |current + [p]| >= size then [] else current + [p]);
    }
  }

  lemma {:induction false} BufferTimeBounded(inputs: seq<BufferInput>, size: nat, current: seq<Proposal>)
    requires size >= 1 && |current| < size
    ensures forall i :: 0 <= i < |BufferTime(inputs, size, current)| ==> |BufferTime(inputs, size, current)[i]| <= size
    decreases |inputs|
  {
    if |inputs| > 0 {
      match inputs[0]
      case Tick =>
        BufferTimeBounded(inputs[1..], size, []);
      case Item(p) =>
        BufferTimeBounded(inputs[1..], size, if |current + [p]| >= size then [] else current + [p]);
    }
  }

  function DropEmpty(bs: seq<seq<Proposal>>): (r: seq<seq<Proposal>>)
    ensures forall i :: 0 <= i < |r| ==> |r[i]| > 0
    ensures forall b :: b in r ==> b in bs
    ensures Flatten(r) == Flatten(bs)
  {
    if |bs| == 0 then []
    else if |bs[0]| == 0 then DropEmpty(bs[1..])
    else [bs[0]] + DropEmpty(bs[1..])
  }

  function KeepDrafts(inputs: seq<BufferInput>): seq<BufferInput>
  {
    Filter(inputs, (x: BufferInput) => x.Tick? || x.p.IsDraft())
  }

  lemma {:induction false} KeepDraftsItems(inputs: seq<BufferInput>)
    ensures Items(KeepDrafts(inputs)) == Filter(Items(inputs), (p: Proposal) => p.IsDraft())
  {
    if |inputs| > 0 {
      KeepDraftsItems(inputs[1..]);
    }
  }

  /**
   * The tail of startCollectingProposals: only drafts, cut into non-empty buffers of at
   * most `bufferSize || 10` proposals, whose concatenation is the drafts in order.
   */
  function CollectDraftBuffers(inputs: seq<BufferInput>, bufferSize: Option<nat>): (r: seq<seq<Proposal>>)
    ensures forall i :: 0 <= i < |r| ==> 0 < |r[i]| <= BufferSizeOption(bufferSize)
    ensures Flatten(r) == Filter(Items(inputs), (p: Proposal) => p.IsDraft())
    ensures forall i, j :: 0 <= i < |r| && 0 <= j < |r[i]| ==> r[i][j].IsDraft()
  {
    var size := BufferSizeOption(bufferSize);
    var bs := BufferTime(KeepDrafts(inputs), size, []);
    BufferTimeKeepsOrder(KeepDrafts(inputs), size, []);
    BufferTimeBounded(KeepDrafts(inputs), size, []);
    KeepDraftsItems(inputs);
    var r := DropEmpty(bs);
    forall i | 0 <= i < |r|
      ensures |r[i]| <= size
    {
      assert r[i] in bs;
      var k :| 0 <= k < |bs| && bs[k] == r[i];
    }
    forall i, j | 0 <= i < |r| && 0 <= j < |r[i]|
      ensures r[i][j].IsDraft()
    {
      FlattenMember(r, i, j);
      FilterMembership(Items(inputs), (p: Proposal) => p.IsDraft());
    }
    r
  }

  lemma {:induction false} FlattenMember<T>(ss: seq<seq<T>>, i: nat, j: nat)
    requires i < |ss| && j < |ss[i]|
    ensures ss[i][j] in Flatten(ss)
  {
    if i > 0 {
      FlattenMember(ss[1..], i - 1, j);
    } else {
      assert ss[0][j] in ss[0];
    }
  }
}
