/**
 * GolemNetwork (src/golem-network/golem-network.ts): the entry point that builds the
 * services, connects and disconnects them, and registers the cleanup that `oneOf` and
 * `manyOf` leave for `disconnect`.
 *
 * Services are named by their source (an override or the built-in one); the calls the
 * network makes into other modules are recorded, in order, as actions.
 */
module GolemNetworks {
  import opened Wrappers
  import YagnaApis

  /** A key of the caller's options object: missing, present but undefined, or given. */
  datatype Field<T> = Absent | Undefined | Given(value: T)

  /** The `dataTransferProtocol` option: a protocol name, or a storage provider object. */
  datatype DataTransferProtocol = ProtocolName(name: string) | ProviderObject(id: string)

  datatype StorageProvider = WebSocketBrowserStorage | GftpStorage | NullStorage | CustomStorage(id: string)

  /** `{ dataTransferProtocol: "gftp", ...options }`: only a missing key takes the default. */
  function MergedProtocol(option: Field<DataTransferProtocol>): (p: Option<DataTransferProtocol>)
    ensures option.Absent? ==> p == Some(ProtocolName("gftp"))
    ensures option.Undefined? ==> p.None?
    ensures option.Given? ==> p == Some(option.value)
  {
    match option
    case Absent => Some(ProtocolName("gftp"))
    case Undefined => None
    case Given(v) => Some(v)
  }

  /** `createStorageProvider`. */
  function CreateStorageProvider(protocol: Option<DataTransferProtocol>): (s: StorageProvider)
    ensures protocol == Some(ProtocolName("ws")) <==> s == WebSocketBrowserStorage
    ensures protocol.Some? && protocol.value.ProtocolName? && protocol.value.name != "ws" <==> s == GftpStorage
    ensures protocol.None? <==> s == NullStorage
    ensures s.CustomStorage? <==> protocol.Some? && protocol.value.ProviderObject?
    ensures s.CustomStorage? ==> protocol == Some(ProviderObject(s.id))
  {
    match protocol
    case Some(ProtocolName(name)) => if name == "ws" then WebSocketBrowserStorage else GftpStorage
    case Some(ProviderObject(id)) => CustomStorage(id)
    case None => NullStorage
  }

  /** Without the option the network transfers files over GFTP; an explicit undefined means no storage. */
  lemma DefaultProtocolIsGftp()
    ensures CreateStorageProvider(MergedProtocol(Absent)) == GftpStorage
    ensures CreateStorageProvider(MergedProtocol(Undefined)) == NullStorage
  {
  }

  /** The services and modules the constructor wires, each either overridden or built in. */
  const Overridable := ["yagna", "storageProvider", "paymentApi", "activityApi", "agreementApi", "marketApi",
                        "networkApi", "fileServer", "network", "market", "payment", "activity", "lease"]

  datatype Source = Overridden(id: string) | BuiltIn

  datatype GolemNetworkOptions = GolemNetworkOptions(
    apiKey: Option<string>,
    apiUrl: Option<string>,
    dataTransferProtocol: Field<DataTransferProtocol>,
    /** The override objects given, by service name. */
    overrides: map<string, string>)

  datatype Setup = Setup(
    services: map<string, Source>,
    storage: StorageProvider,
    /** The Yagna API built when it is not overridden. */
    yagna: Option<YagnaApis.YagnaApi>)

  function SourceOf(overrides: map<string, string>, name: string): Source
  {
    if name in overrides then Overridden(overrides[name]) else BuiltIn
  }

  /**
   * The constructor: each overridable service is the override when given, else built in.
   * Building the Yagna API can fail (no key); every other default stands once it exists.
   */
  function Configure(options: GolemNetworkOptions, envAppKey: string, envApiUrl: string): (r: Result<Setup, YagnaApis.YagnaError>)
    ensures "yagna" in options.overrides ==> r.Ok? && r.value.yagna.None?
    ensures "yagna" !in options.overrides ==>
              var y := YagnaApis.NewYagnaApi(Some(YagnaApis.YagnaOptions(options.apiKey, options.apiUrl)), envAppKey, envApiUrl);
              (r.Err? <==> y.Err?) && (r.Err? ==> r.error == y.error) && (r.Ok? ==> r.value.yagna == Some(y.value))
    ensures r.Ok? ==> forall name :: name in Overridable ==>
              (name in r.value.services &&
               (name in options.overrides ==> r.value.services[name] == Overridden(options.overrides[name])) &&
               (name !in options.overrides ==> r.value.services[name] == BuiltIn))
    ensures r.Ok? ==>
              (r.value.storage ==
                 if "storageProvider" in options.overrides then CustomStorage(options.overrides["storageProvider"])
                 else CreateStorageProvider(MergedProtocol(options.dataTransferProtocol)))
  {
    var yagna :=
      if "yagna" in options.overrides then Ok(None)
      else
        var y := YagnaApis.NewYagnaApi(Some(YagnaApis.YagnaOptions(options.apiKey, options.apiUrl)), envAppKey, envApiUrl);
        if y.Err? then Err(y.error) else Ok(Some(y.value));
    if yagna.Err? then Err(yagna.error)
    else
      var services := map name | name in Overridable :: SourceOf(options.overrides, name);
      var storage :=
        if "storageProvider" in options.overrides then CustomStorage(options.overrides["storageProvider"])
        else CreateStorageProvider(MergedProtocol(options.dataTransferProtocol));
      Ok(Setup(services, storage, yagna.value))
  }

  /** With an overridden Yagna API the constructor never fails for want of a key. */
  lemma OverriddenYagnaNeedsNoKey(options: GolemNetworkOptions)
    requires "yagna" in options.overrides
    ensures Configure(options, "", "").Ok?
  {
  }

  /** Without an override, a missing key in the options and in the environment fails construction. */
  lemma MissingKeyFails(options: GolemNetworkOptions)
    requires "yagna" !in options.overrides && (options.apiKey.None? || options.apiKey == Some(""))
    ensures Configure(options, "", "") == Err(YagnaApis.GolemConfigError("Yagna API key not defined"))
  {
  }

  // ---------------------------------------------------------------------------
  // Connection, cleanup and the calls into other modules

  datatype Action =
    | YagnaConnect | PaymentConnect | StorageInit
    | CloseStorage | PaymentDisconnect | YagnaDisconnect | FlushProposalCache
    | CreateAllocation(allocation: string, budget: real, expirationSec: real)
    | CollectProposals(subscription: string)
    | SignAgreement(agreement: string)
    | CreateNetworkNode(network: string, providerId: string)
    | CreateLease(lease: string)
    | CreatePool(pool: string, replicas: nat)
    | Unsubscribe(subscription: string)
    | FinalizeLease(lease: string)
    | RemoveNetworkNode(network: string, node: string)
    | ReleaseAllocation(allocation: string)
    | DrainPool(pool: string)

  datatype NetworkEvent = Connected | Disconnected | ErrorEvent(error: string)

  /** A task registered for `disconnect`. */
  datatype CleanupTask =
    | LeaseCleanup(lease: string, node: Option<(string, string)>, allocation: string)
    | UnsubscribeTask(subscription: string)
    | PoolCleanup(pool: string, allocation: string)

  /**
   * What a cleanup task does. Each step's failure is only logged, so every step runs:
   * a lease is finalized, its network node (if any) removed, and only then is the
   * allocation released; a pool is drained before its allocation is released.
   */
  function CleanupActions(t: CleanupTask): (acts: seq<Action>)
    ensures t.LeaseCleanup? ==> |acts| >= 2 && (|acts| == 3 <==> t.node.Some?)
    ensures t.LeaseCleanup? ==> acts[0] == FinalizeLease(t.lease) && acts[|acts| - 1] == ReleaseAllocation(t.allocation)
    ensures t.PoolCleanup? ==> acts == [DrainPool(t.pool), ReleaseAllocation(t.allocation)]
    ensures t.UnsubscribeTask? ==> acts == [Unsubscribe(t.subscription)]
  {
    match t
    case LeaseCleanup(lease, node, allocation) =>
      [FinalizeLease(lease)] + (if node.Some? then [RemoveNetworkNode(node.value.0, node.value.1)] else []) + [ReleaseAllocation(allocation)]
    case UnsubscribeTask(s) => [Unsubscribe(s)]
    case PoolCleanup(pool, allocation) => [DrainPool(pool), ReleaseAllocation(allocation)]
  }

  function AllCleanup(tasks: seq<CleanupTask>): seq<Action>
  {
    if |tasks| == 0 then [] else AllCleanup(tasks[..|tasks| - 1]) + CleanupActions(tasks[|tasks| - 1])
  }

  /** Every registered task's allocation release is among the cleanup actions. */
  lemma {:induction false} CleanupReleasesEveryAllocation(tasks: seq<CleanupTask>, k: nat)
    requires k < |tasks| && !tasks[k].UnsubscribeTask?
    ensures ReleaseAllocation(tasks[k].allocation) in AllCleanup(tasks)
    decreases |tasks|
  {
    var acts := CleanupActions(tasks[|tasks| - 1]);
    if k == |tasks| - 1 {
      assert acts[|acts| - 1] in acts;
    } else {
      CleanupReleasesEveryAllocation(tasks[..|tasks| - 1], k);
      assert tasks[..|tasks| - 1][k] == tasks[k];
    }
  }

  /**
   * The shutdown steps `disconnect` takes after the cleanup tasks: storage closes, then
   * payment, then Yagna, and the proposal cache is flushed; each failure stops the rest.
   */
  function ShutdownActions(storage: Outcome<string>, payment: Outcome<string>, yagna: Outcome<string>): (acts: seq<Action>)
    ensures |acts| > 0 && acts[0] == CloseStorage
    ensures storage.Pass? && payment.Pass? && yagna.Pass? <==> acts == [CloseStorage, PaymentDisconnect, YagnaDisconnect, FlushProposalCache]
    ensures storage.Fail? <==> acts == [CloseStorage]
  {
    [CloseStorage] +
    if storage.Fail? then []
    else [PaymentDisconnect] + if payment.Fail? then [] else [YagnaDisconnect] + if yagna.Fail? then [] else [FlushProposalCache]
  }

  class GolemNetwork {
    const setup: Setup
    var hasConnection: bool
    var cleanupTasks: seq<CleanupTask>
    var actions: seq<Action>
    var events: seq<NetworkEvent>

    constructor (setup: Setup)
      ensures this.setup == setup && !hasConnection && cleanupTasks == [] && actions == [] && events == []
    {
      this.setup := setup;
      hasConnection := false;
      cleanupTasks := [];
      actions := [];
      events := [];
    }

    function IsConnected(): (c: bool)
      reads this
      ensures c == hasConnection
    {
      hasConnection
    }

    /**
     * `connect`: the Yagna API, the payment API and the storage provider start in that
     * order; the first failure stops the rest, is emitted and rethrown, and leaves the
     * connection flag as it was.
     */
    method Connect(yagna: Outcome<string>, payment: Outcome<string>, storage: Outcome<string>) returns (r: Outcome<string>)
      modifies this
      ensures r.Pass? <==> yagna.Pass? && payment.Pass? && storage.Pass?
      ensures r.Pass? ==> hasConnection && events == old(events) + [Connected] &&
                          actions == old(actions) + [YagnaConnect, PaymentConnect, StorageInit]
      ensures r.Fail? ==> hasConnection == old(hasConnection) && events == old(events) + [ErrorEvent(r.error)]
      ensures yagna.Fail? ==> r == yagna && actions == old(actions) + [YagnaConnect]
      ensures yagna.Pass? && payment.Fail? ==> r == payment && actions == old(actions) + [YagnaConnect, PaymentConnect]
      ensures yagna.Pass? && payment.Pass? && storage.Fail? ==> r == storage && actions == old(actions) + [YagnaConnect, PaymentConnect, StorageInit]
      ensures cleanupTasks == old(cleanupTasks)
    {
      actions := actions + [YagnaConnect];
      if yagna.Fail? {
        events := events + [ErrorEvent(yagna.error)];
        return yagna;
      }
      actions := actions + [PaymentConnect];
      if payment.Fail? {
        events := events + [ErrorEvent(payment.error)];
        return payment;
      }
      actions := actions + [StorageInit];
      if storage.Fail? {
        events := events + [ErrorEvent(storage.error)];
        return storage;
      }
      events := events + [Connected];
      hasConnection := true;
      r := Pass;
    }

    /**
     * `disconnect`: all cleanup tasks run (their failures are settled, not thrown), then
     * storage closes, then payment, then Yagna; a failure in one of those three stops
     * the rest and is rethrown with the connection flag unchanged. The tasks stay registered.
     */
    method Disconnect(storage: Outcome<string>, payment: Outcome<string>, yagna: Outcome<string>) returns (r: Outcome<string>)
      modifies this
      ensures cleanupTasks == old(cleanupTasks)
      ensures actions == old(actions) + AllCleanup(cleanupTasks) + ShutdownActions(storage, payment, yagna)
      ensures r.Pass? <==> storage.Pass? && payment.Pass? && yagna.Pass?
      ensures r.Pass? ==> !hasConnection && events == old(events) + [Disconnected]
      ensures r.Fail? ==> hasConnection == old(hasConnection) && events == old(events)
    {
      var tasks := cleanupTasks;
      var settled: seq<Action> := [];
      var i := 0;
      while i < |tasks|
        invariant 0 <= i <= |tasks|
        invariant settled == AllCleanup(tasks[..i])
      {
        assert tasks[..i + 1][..i] == tasks[..i];
        settled := settled + CleanupActions(tasks[i]);
        i := i + 1;
      }
      assert tasks[..i] == tasks;
      actions := actions + settled + ShutdownActions(storage, payment, yagna);
      if storage.Fail? {
        return storage;
      }
      if payment.Fail? {
        return payment;
      }
      if yagna.Fail? {
        return yagna;
      }
      events := events + [Disconnected];
      hasConnection := false;
      r := Pass;
    }

    /**
     * `oneOf`: an allocation for the order, proposal collection, one signed agreement,
     * a network node when the order names a network, then the lease; collection is
     * unsubscribed once the lease exists, and a cleanup for the lease is registered.
     * A failure to sign an agreement rejects before any cleanup is registered.
     */
    method OneOf(budget: real, rentHours: real, allocation: string, subscription: string,
                 agreement: Result<(string, string), string>, network: Option<string>, node: string, lease: string)
      returns (r: Result<string, string>)
      modifies this
      ensures var start := [CreateAllocation(allocation, budget, rentHours * 60.0 * 60.0), CollectProposals(subscription)];
              (agreement.Err? ==> r == Err(agreement.error) && actions == old(actions) + start && cleanupTasks == old(cleanupTasks)) &&
              (agreement.Ok? ==>
                 var nodeActs := if network.Some? then [CreateNetworkNode(network.value, agreement.value.1)] else [];
                 r == Ok(lease) &&
                 actions == old(actions) + start + [SignAgreement(agreement.value.0)] + nodeActs + [CreateLease(lease), Unsubscribe(subscription)] &&
                 cleanupTasks == old(cleanupTasks) + [LeaseCleanup(lease, if network.Some? then Some((network.value, node)) else None, allocation)])
      ensures hasConnection == old(hasConnection) && events == old(events)
    {
      actions := actions + [CreateAllocation(allocation, budget, rentHours * 60.0 * 60.0), CollectProposals(subscription)];
      if agreement.Err? {
        return Err(agreement.error);
      }
      actions := actions + [SignAgreement(agreement.value.0)];
      var networkNode: Option<(string, string)> := None;
      if network.Some? {
        actions := actions + [CreateNetworkNode(network.value, agreement.value.1)];
        networkNode := Some((network.value, node));
      }
      actions := actions + [CreateLease(lease), Unsubscribe(subscription)];
      cleanupTasks := cleanupTasks + [LeaseCleanup(lease, networkNode, allocation)];
      r := Ok(lease);
    }

    /**
     * `manyOf`: an allocation, proposal collection and a lease pool of `concurrency`
     * replicas; the unsubscribe is registered first, then the drain-then-release cleanup.
     */
    method ManyOf(concurrency: nat, budget: real, rentHours: real, allocation: string, subscription: string, pool: string)
      returns (r: string)
      modifies this
      ensures r == pool
      ensures actions == old(actions) + [CreateAllocation(allocation, budget, rentHours * 60.0 * 60.0), CollectProposals(subscription), CreatePool(pool, concurrency)]
      ensures cleanupTasks == old(cleanupTasks) + [UnsubscribeTask(subscription), PoolCleanup(pool, allocation)]
      ensures hasConnection == old(hasConnection) && events == old(events)
    {
      actions := actions + [CreateAllocation(allocation, budget, rentHours * 60.0 * 60.0), CollectProposals(subscription), CreatePool(pool, concurrency)];
      cleanupTasks := cleanupTasks + [UnsubscribeTask(subscription), PoolCleanup(pool, allocation)];
      r := pool;
    }
  }

  /** A connected network that has rented one lease with `oneOf`, without a network node. */
  method ConnectAndRent(setup: Setup, allocation: string, subscription: string, agreementId: string, providerId: string, lease: string)
    returns (gn: GolemNetwork)
    ensures fresh(gn) && gn.IsConnected()
    ensures gn.actions == [YagnaConnect, PaymentConnect, StorageInit,
                           CreateAllocation(allocation, 1.0, 3600.0), CollectProposals(subscription),
                           SignAgreement(agreementId), CreateLease(lease), Unsubscribe(subscription)]
    ensures gn.cleanupTasks == [LeaseCleanup(lease, None, allocation)]
  {
    gn := new GolemNetwork(setup);
    var c := gn.Connect(Pass, Pass, Pass);
    var l := gn.OneOf(1.0, 1.0, allocation, subscription, Ok((agreementId, providerId)), None, "", lease);
  }

  /**
   * A lease taken with `oneOf` and then a disconnect: the lease is finalized before its
   * allocation is released, and both happen before storage is closed.
   */
  method OneOfThenDisconnect(setup: Setup, allocation: string, subscription: string, agreementId: string, providerId: string, lease: string)
    returns (gn: GolemNetwork)
    ensures fresh(gn)
    ensures gn.actions == [YagnaConnect, PaymentConnect, StorageInit,
                           CreateAllocation(allocation, 1.0, 3600.0), CollectProposals(subscription),
                           SignAgreement(agreementId), CreateLease(lease), Unsubscribe(subscription),
                           FinalizeLease(lease), ReleaseAllocation(allocation),
                           CloseStorage, PaymentDisconnect, YagnaDisconnect, FlushProposalCache]
    ensures !gn.IsConnected()
  {
    gn := ConnectAndRent(setup, allocation, subscription, agreementId, providerId, lease);
    assert AllCleanup(gn.cleanupTasks) == [FinalizeLease(lease), ReleaseAllocation(allocation)] by {
      assert gn.cleanupTasks[..0] == [];
    }
    var d := gn.Disconnect(Pass, Pass, Pass);
  }
}
