/**
 * ScannedOffer (src/market/scan/scanned-offer.ts): getters over the offer's property bag,
 * chiefly the linear pricing vector.
 */
module ScannedOffers {
  import opened Wrappers

  const DurationUsage := "golem.usage.duration_sec"
  const CpuUsage := "golem.usage.cpu_sec"
  const UnknownProviderName := "<unknown>"

  /** The offer properties the getters read; an absent key is `None`. */
  datatype OfferProperties = OfferProperties(
    usageVector: Option<seq<string>>,    // golem.com.usage.vector
    coeffs: Option<seq<real>>,           // golem.com.pricing.model.linear.coeffs
    nodeName: Option<string>,            // golem.node.id.name
    memGib: Option<real>,                // golem.inf.mem.gib
    storageGib: Option<real>)            // golem.inf.storage.gib

  datatype ScannedOffer = ScannedOffer(offerId: string, providerId: string, properties: OfferProperties)

  /** The linear prices; `start` is absent when the coefficient vector is empty. */
  datatype PricingInfo = PricingInfo(cpuSec: real, envSec: real, start: Option<real>)

  datatype PricingError = MissingUsageVector | MissingCoeffs

  datatype ProviderRef = ProviderRef(id: string, name: string)

  /** `findIndex((e) => e === x)`: the first index holding x, or -1. */
  function FindIndex(xs: seq<string>, x: string): (i: int)
    ensures -1 <= i < |xs|
    ensures i == -1 <==> x !in xs
    ensures i >= 0 ==> xs[i] == x && forall k :: 0 <= k < i ==> xs[k] != x
  {
    if |xs| == 0 then -1
    else if xs[0] == x then 0
    else
      var j := FindIndex(xs[1..], x);
      if j == -1 then -1 else j + 1
  }

  /** `v[i] ?? 0.0`: an index outside the vector (including -1) reads as undefined. */
  function CoeffOrZero(v: seq<real>, i: int): real
  {
    if 0 <= i < |v| then v[i] else 0.0
  }

  function Pricing(o: ScannedOffer): (r: Result<PricingInfo, PricingError>)
    ensures o.properties.usageVector.None? <==> r == Err(MissingUsageVector)
    ensures o.properties.usageVector.Some? && o.properties.coeffs.None? <==> r == Err(MissingCoeffs)
    ensures r.Ok? ==> (r.value.start.None? <==> |o.properties.coeffs.value| == 0)
    ensures r.Ok? && r.value.start.Some? ==> r.value.start.value == o.properties.coeffs.value[|o.properties.coeffs.value| - 1]
  {
    match o.properties.usageVector
    case None => Err(MissingUsageVector)
    case Some(usage) =>
      match o.properties.coeffs
      case None => Err(MissingCoeffs)
      case Some(coeffs) =>
        var envIdx := FindIndex(usage, DurationUsage);
        var cpuIdx := FindIndex(usage, CpuUsage);
        Ok(PricingInfo(CoeffOrZero(coeffs, cpuIdx), CoeffOrZero(coeffs, envIdx),
                       if |coeffs| == 0 then None else Some(coeffs[|coeffs| - 1])))
  }

  /**
   * The duration and CPU prices are the coefficients at the first position of their usage
   * counter, and 0 when the counter is not listed or has no coefficient.
   */
  lemma PricingReadsUsagePositions(o: ScannedOffer, counter: string, k: nat)
    requires Pricing(o).Ok? && (counter == DurationUsage || counter == CpuUsage)
    requires k < |o.properties.usageVector.value| && o.properties.usageVector.value[k] == counter
    requires forall j :: 0 <= j < k ==> o.properties.usageVector.value[j] != counter
    ensures var price := if counter == DurationUsage then Pricing(o).value.envSec else Pricing(o).value.cpuSec;
            price == (if k < |o.properties.coeffs.value| then o.properties.coeffs.value[k] else 0.0)
  {
    var i := FindIndex(o.properties.usageVector.value, counter);
    assert i == k;
  }

  lemma PricingWithoutCounter(o: ScannedOffer)
    requires Pricing(o).Ok?
    ensures DurationUsage !in o.properties.usageVector.value ==> Pricing(o).value.envSec == 0.0
    ensures CpuUsage !in o.properties.usageVector.value ==> Pricing(o).value.cpuSec == 0.0
  {
  }

  /** The properties of a linear offer published with the usage vector [duration, cpu]. */
  function LinearOffer(offerId: string, providerId: string, envPrice: real, cpuPrice: real, startPrice: real): ScannedOffer
  {
    ScannedOffer(offerId, providerId,
      OfferProperties(Some([DurationUsage, CpuUsage]), Some([envPrice, cpuPrice, startPrice]), None, None, None))
  }

  /** Reading the pricing of a published linear offer gives back its three prices. */
  lemma LinearOfferPricingRoundTrip(offerId: string, providerId: string, envPrice: real, cpuPrice: real, startPrice: real)
    ensures Pricing(LinearOffer(offerId, providerId, envPrice, cpuPrice, startPrice)) == Ok(PricingInfo(cpuPrice, envPrice, Some(startPrice)))
  {
    var usage := [DurationUsage, CpuUsage];
    assert usage[0] == DurationUsage;
    assert usage[1] == CpuUsage && usage[0] != CpuUsage;
    assert FindIndex(usage, DurationUsage) == 0;
    assert FindIndex(usage, CpuUsage) == 1;
  }

  /** When the counters are listed the other way round, the prices follow their positions. */
  lemma SwappedUsageVector(cpuPrice: real, envPrice: real, startPrice: real)
    ensures Pricing(ScannedOffer("", "", OfferProperties(Some([CpuUsage, DurationUsage]), Some([cpuPrice, envPrice, startPrice]), None, None, None)))
            == Ok(PricingInfo(cpuPrice, envPrice, Some(startPrice)))
  {
    var usage := [CpuUsage, DurationUsage];
    assert usage[0] == CpuUsage && usage[0] != DurationUsage;
    assert FindIndex(usage, CpuUsage) == 0;
    assert FindIndex(usage, DurationUsage) == 1;
  }

  /** `provider`: the provider id, and the node name with `||` falling back to "<unknown>". */
  function Provider(o: ScannedOffer): (p: ProviderRef)
    ensures p.id == o.providerId
    ensures o.properties.nodeName.Some? && o.properties.nodeName.value != "" ==> p.name == o.properties.nodeName.value
    ensures o.properties.nodeName.None? || o.properties.nodeName.value == "" ==> p.name == UnknownProviderName
    ensures p.name != ""
  {
    var name := if o.properties.nodeName.Some? && o.properties.nodeName.value != "" then o.properties.nodeName.value else UnknownProviderName;
    ProviderRef(o.providerId, name)
  }

  /** `memoryGib`: the value published under golem.inf.mem.gib. */
  function MemoryGib(o: ScannedOffer): (r: Option<real>)
    ensures r == o.properties.memGib
  {
    o.properties.memGib
  }

  /** `storageGib`: the value published under golem.inf.storage.gib. */
  function StorageGib(o: ScannedOffer): (r: Option<real>)
    ensures r == o.properties.storageGib
  {
    o.properties.storageGib
  }

  /** The deprecated `memory` getter. */
  function Memory(o: ScannedOffer): (r: Option<real>)
    ensures r == MemoryGib(o)
  {
    MemoryGib(o)
  }

  /** The deprecated `storage` getter. */
  function Storage(o: ScannedOffer): (r: Option<real>)
    ensures r == StorageGib(o)
  {
    StorageGib(o)
  }

  /**
   * Each size getter and its deprecated alias read back exactly the value published under
   * its own key, and neither depends on the other key or any other property.
   */
  lemma SizeGettersReadTheirKeys(o: ScannedOffer, mem: Option<real>, storage: Option<real>)
    ensures var p := o.(properties := o.properties.(memGib := mem, storageGib := storage));
            Memory(p) == MemoryGib(p) == mem && Storage(p) == StorageGib(p) == storage
    ensures var q := o.(properties := o.properties.(memGib := mem));
            Storage(q) == Storage(o) && Pricing(q) == Pricing(o) && Provider(q) == Provider(o)
  {
  }
}
