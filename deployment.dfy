/**
 * Deployments of the experimental API (dist/golem-js-experimental.js): network
 * validation, the Deployment lifecycle guards and the builder's unique names.
 * The services a deployment calls (network, market, payment, rental) are parameters.
 */
module Deployments {
  import opened Wrappers

  datatype Replicas = ReplicaCount(n: int) | ReplicaRange(min: Option<int>, max: Option<int>) | NoReplicas
  datatype DeploymentOptions = DeploymentOptions(network: Option<string>, replicas: Replicas)
  datatype PoolOptions = PoolOptions(deployment: Option<DeploymentOptions>, rentHours: real)
  datatype PoolComponent = PoolComponent(name: string, options: PoolOptions)
  datatype NetworkOptions = NetworkOptions(ip: Option<string>, mask: Option<string>)
  datatype NetworkComponent = NetworkComponent(name: string, options: NetworkOptions)
  datatype Components = Components(pools: seq<PoolComponent>, networks: seq<NetworkComponent>)

  datatype DeploymentState = Initial | Starting | Ready | Stopping | Stopped | Error

  datatype DeploymentError =
    | UnknownNetwork(pool: string, network: string)   // GolemConfigError
    | DuplicatePool(name: string)                     // GolemConfigError
    | DuplicateNetwork(name: string)                  // GolemConfigError
    | StartAfterAbort                                 // GolemAbortError
    | NotInitial(state: DeploymentState)              // GolemUserError
    | PoolNotFound(name: string)                      // GolemUserError
    | NetworkNotFound(name: string)                   // GolemUserError
    | MissingDeploymentOptions(pool: string)          // TypeError reading `deployment.replicas`
    | ServiceFailure(reason: string)                  // an error raised by a module the deployment calls

  function NetworkNames(networks: seq<NetworkComponent>): set<string>
  {
    set i | 0 <= i < |networks| :: networks[i].name
  }

  function PoolNames(pools: seq<PoolComponent>): set<string>
  {
    set i | 0 <= i < |pools| :: pools[i].name
  }

  /** `pool.options.deployment?.network` when it is truthy (a non-empty name). */
  function PoolNetwork(p: PoolComponent): Option<string>
  {
    if p.options.deployment.Some? && p.options.deployment.value.network.Some? && p.options.deployment.value.network.value != "" then
      p.options.deployment.value.network
    else None
  }

  predicate ReferencesKnownNetwork(p: PoolComponent, names: set<string>)
  {
    PoolNetwork(p).None? || PoolNetwork(p).value in names
  }

  function FirstUnknownNetwork(pools: seq<PoolComponent>, names: set<string>): (r: Outcome<DeploymentError>)
    ensures r.Pass? <==> forall i :: 0 <= i < |pools| ==> ReferencesKnownNetwork(pools[i], names)
    ensures r.Fail? ==> exists i :: 0 <= i < |pools| && !ReferencesKnownNetwork(pools[i], names) &&
                          r.error == UnknownNetwork(pools[i].name, PoolNetwork(pools[i]).value) &&
                          forall k :: 0 <= k < i ==> ReferencesKnownNetwork(pools[k], names)
  {
    if |pools| == 0 then Pass
    else if !ReferencesKnownNetwork(pools[0], names) then Fail(UnknownNetwork(pools[0].name, PoolNetwork(pools[0]).value))
    else
      var rest := FirstUnknownNetwork(pools[1..], names);
      if rest.Fail? then
        var i :| 0 <= i < |pools[1..]| && !ReferencesKnownNetwork(pools[1..][i], names) &&
                 rest.error == UnknownNetwork(pools[1..][i].name, PoolNetwork(pools[1..][i]).value) &&
                 forall k :: 0 <= k < i ==> ReferencesKnownNetwork(pools[1..][k], names);
        assert pools[i + 1] == pools[1..][i];
        forall k | 0 <= k < i + 1
          ensures ReferencesKnownNetwork(pools[k], names)
        {
          if k > 0 {
            assert pools[k] == pools[1..][k - 1];
          }
        }
        rest
      else
        forall i | 0 <= i < |pools|
          ensures ReferencesKnownNetwork(pools[i], names)
        {
          if i > 0 {
            assert pools[i] == pools[1..][i - 1];
          }
        }
        rest
  }

  /**
   * `validateNetworks`: every pool with a network must name a declared network; the first
   * pool that does not is reported.
   */
  function ValidateNetworks(c: Components): (r: Outcome<DeploymentError>)
    ensures r.Pass? <==> forall i :: 0 <= i < |c.pools| ==> ReferencesKnownNetwork(c.pools[i], NetworkNames(c.networks))
    ensures r.Fail? ==> exists i :: 0 <= i < |c.pools| && !ReferencesKnownNetwork(c.pools[i], NetworkNames(c.networks)) &&
                          r.error == UnknownNetwork(c.pools[i].name, PoolNetwork(c.pools[i]).value)
  {
    FirstUnknownNetwork(c.pools, NetworkNames(c.networks))
  }

  /** `typeof replicas === "number" ? replicas : replicas?.max ?? replicas?.min ?? 1` */
  function MaxAgreements(replicas: Replicas): (n: int)
    ensures replicas.ReplicaCount? ==> n == replicas.n
    ensures replicas.ReplicaRange? && replicas.max.Some? ==> n == replicas.max.value
    ensures replicas.ReplicaRange? && replicas.max.None? && replicas.min.Some? ==> n == replicas.min.value
    ensures replicas.NoReplicas? || (replicas.ReplicaRange? && replicas.max.None? && replicas.min.None?) ==> n == 1
  {
    match replicas
    case ReplicaCount(k) => k
    case ReplicaRange(min, max) => if max.Some? then max.value else if min.Some? then min.value else 1
    case NoReplicas => 1
  }

  predicate AllDeployed(pools: seq<PoolComponent>)
  {
    forall i :: 0 <= i < |pools| ==> pools[i].options.deployment.Some?
  }

  /** `estimateBudget({order: pool.options, maxAgreements})` for one pool. */
  function PoolEstimate(p: PoolComponent, estimate: (PoolOptions, int) -> real): real
    requires p.options.deployment.Some?
  {
    estimate(p.options, MaxAgreements(p.options.deployment.value.replicas))
  }

  /** The pools' estimates added up, first pool first. */
  function SumOfEstimates(pools: seq<PoolComponent>, estimate: (PoolOptions, int) -> real): real
    requires AllDeployed(pools)
  {
    if |pools| == 0 then 0.0 else PoolEstimate(pools[0], estimate) + SumOfEstimates(pools[1..], estimate)
  }

  lemma {:induction false} SumOfEstimatesSnoc(pools: seq<PoolComponent>, estimate: (PoolOptions, int) -> real)
    requires |pools| > 0 && AllDeployed(pools)
    ensures AllDeployed(pools[..|pools| - 1])
    ensures SumOfEstimates(pools, estimate) == SumOfEstimates(pools[..|pools| - 1], estimate) + PoolEstimate(pools[|pools| - 1], estimate)
  {
    var n := |pools| - 1;
    assert forall i :: 0 <= i < n ==> pools[..n][i] == pools[i];
    if n > 0 {
      var tail := pools[1..];
      assert forall i :: 0 <= i < |tail| ==> tail[i] == pools[i + 1];
      SumOfEstimatesSnoc(tail, estimate);
      assert tail[..|tail| - 1] == pools[..n][1..];
      assert pools[..n][0] == pools[0];
    }
  }

  /**
   * The allocation budget: the `reduce` over the pools adds the market's estimate for
   * each; it throws at the first pool without deployment options.
   */
  function TotalBudget(pools: seq<PoolComponent>, estimate: (PoolOptions, int) -> real): (r: Result<real, DeploymentError>)
    ensures r.Ok? <==> AllDeployed(pools)
    ensures r.Ok? ==> AllDeployed(pools) && r.value == SumOfEstimates(pools, estimate)
    ensures r.Err? ==> exists i :: 0 <= i < |pools| && pools[i].options.deployment.None? &&
                          r.error == MissingDeploymentOptions(pools[i].name) &&
                          forall k :: 0 <= k < i ==> pools[k].options.deployment.Some?
  {
    if |pools| == 0 then Ok(0.0)
    else
      var n := |pools| - 1;
      var before := TotalBudget(pools[..n], estimate);
      assert forall i :: 0 <= i < n ==> pools[i] == pools[..n][i];
      if before.Err? then
        var i :| 0 <= i < n && pools[..n][i].options.deployment.None? &&
                 before.error == MissingDeploymentOptions(pools[..n][i].name) &&
                 forall k :: 0 <= k < i ==> pools[..n][k].options.deployment.Some?;
        assert pools[i] == pools[..n][i];
        before
      else if pools[n].options.deployment.None? then Err(MissingDeploymentOptions(pools[n].name))
      else
        SumOfEstimatesSnoc(pools, estimate);
        Ok(before.value + estimate(pools[n].options, MaxAgreements(pools[n].options.deployment.value.replicas)))
  }

  /** The allocation lifetime: the longest rent of any pool, in seconds; none without pools. */
  function LongestExpirationSec(pools: seq<PoolComponent>): (r: Option<real>)
    ensures r.None? <==> |pools| == 0
    ensures r.Some? ==> forall i :: 0 <= i < |pools| ==> pools[i].options.rentHours * 3600.0 <= r.value
    ensures r.Some? ==> exists i :: 0 <= i < |pools| && r.value == pools[i].options.rentHours * 3600.0
  {
    if |pools| == 0 then None
    else
      var n := |pools| - 1;
      var before := LongestExpirationSec(pools[..n]);
      var last := pools[n].options.rentHours * 3600.0;
      assert forall i :: 0 <= i < n ==> pools[i] == pools[..n][i];
      if before.None? || before.value < last then Some(last) else before
  }

  type NetworkHandle = string
  type AllocationId = string

  /** What a pool is created with: its network (when it names one) and the shared allocation. */
  datatype PoolHandle = PoolHandle(network: Option<NetworkHandle>, allocation: AllocationId)

  /**
   * The `createAllocation` call: the total budget and the longest expiration, which is
   * absent when there are no pools (`Math.max()` of nothing, minus infinity).
   */
  datatype AllocationRequest = AllocationRequest(budget: real, expirationSec: Option<real>)

  /** The outcomes of the calls `start` makes. */
  datatype StartEnvironment = StartEnvironment(
    createNetwork: NetworkComponent -> Result<NetworkHandle, DeploymentError>,
    estimate: (PoolOptions, int) -> real,
    createAllocation: AllocationRequest -> Result<AllocationId, DeploymentError>,
    poolsReady: Outcome<DeploymentError>)

  predicate NetworksCreated(env: StartEnvironment, c: Components)
  {
    forall i :: 0 <= i < |c.networks| ==> env.createNetwork(c.networks[i]).Ok?
  }

  /** Creating the `k`-th network is the first network creation that fails. */
  predicate FirstNetworkFailure(env: StartEnvironment, c: Components, k: int)
  {
    0 <= k < |c.networks| && env.createNetwork(c.networks[k]).Err? &&
    forall j :: 0 <= j < k ==> env.createNetwork(c.networks[j]).Ok?
  }

  /** The allocation `start` asks for once the networks exist and the budget is known. */
  function RequestFor(env: StartEnvironment, c: Components): AllocationRequest
    requires TotalBudget(c.pools, env.estimate).Ok?
  {
    AllocationRequest(TotalBudget(c.pools, env.estimate).value, LongestExpirationSec(c.pools))
  }

  /** Every call `start` makes for these components succeeds. */
  predicate ServicesSucceed(env: StartEnvironment, c: Components)
  {
    NetworksCreated(env, c) && TotalBudget(c.pools, env.estimate).Ok? &&
    env.createAllocation(RequestFor(env, c)).Ok? && env.poolsReady.Pass?
  }

  /** The network table after creating `nets` in order, each under its name. */
  function WithNetworks(base: map<string, NetworkHandle>, nets: seq<NetworkComponent>,
                        create: NetworkComponent -> Result<NetworkHandle, DeploymentError>): map<string, NetworkHandle>
  {
    if |nets| == 0 then base
    else
      var m := WithNetworks(base, nets[..|nets| - 1], create);
      var last := nets[|nets| - 1];
      if create(last).Ok? then m[last.name := create(last).value] else m
  }

  /** The pool's network handle: looked up when its deployment names a network. */
  function PoolNetworkHandle(p: PoolComponent, networks: map<string, NetworkHandle>): Option<NetworkHandle>
  {
    var net := PoolNetwork(p);
    if net.Some? && net.value in networks then Some(networks[net.value]) else None
  }

  /** The pool table after creating a rental pool for each of `ps`, in order. */
  function WithPools(base: map<string, PoolHandle>, ps: seq<PoolComponent>, networks: map<string, NetworkHandle>,
                     allocation: AllocationId): map<string, PoolHandle>
  {
    if |ps| == 0 then base
    else
      var last := ps[|ps| - 1];
      WithPools(base, ps[..|ps| - 1], networks, allocation)[last.name := PoolHandle(PoolNetworkHandle(last, networks), allocation)]
  }

  /** Once every network is created, each declared name is in the table and nothing else is added. */
  lemma {:induction false} WithNetworksKeys(base: map<string, NetworkHandle>, nets: seq<NetworkComponent>,
                                            create: NetworkComponent -> Result<NetworkHandle, DeploymentError>)
    requires forall i :: 0 <= i < |nets| ==> create(nets[i]).Ok?
    ensures WithNetworks(base, nets, create).Keys == base.Keys + NetworkNames(nets)
  {
    if |nets| > 0 {
      var n := |nets| - 1;
      assert forall i :: 0 <= i < n ==> nets[..n][i] == nets[i];
      WithNetworksKeys(base, nets[..n], create);
      assert NetworkNames(nets) == NetworkNames(nets[..n]) + {nets[n].name} by {
        forall x | x in NetworkNames(nets) ensures x in NetworkNames(nets[..n]) + {nets[n].name} {
          var i :| 0 <= i < |nets| && nets[i].name == x;
          if i < n { assert nets[..n][i] == nets[i]; }
        }
      }
    }
  }

  /** Every pool name is in the table afterwards, each with the given allocation. */
  lemma {:induction false} WithPoolsKeys(base: map<string, PoolHandle>, ps: seq<PoolComponent>, networks: map<string, NetworkHandle>,
                                         allocation: AllocationId)
    ensures WithPools(base, ps, networks, allocation).Keys == base.Keys + PoolNames(ps)
    ensures forall n :: n in PoolNames(ps) ==> WithPools(base, ps, networks, allocation)[n].allocation == allocation
  {
    if |ps| > 0 {
      var n := |ps| - 1;
      assert forall i :: 0 <= i < n ==> ps[..n][i] == ps[i];
      WithPoolsKeys(base, ps[..n], networks, allocation);
      assert PoolNames(ps) == PoolNames(ps[..n]) + {ps[n].name} by {
        forall x | x in PoolNames(ps) ensures x in PoolNames(ps[..n]) + {ps[n].name} {
          var i :| 0 <= i < |ps| && ps[i].name == x;
          if i < n { assert ps[..n][i] == ps[i]; }
        }
      }
    }
  }

  class Deployment {
    const components: Components
    var state: DeploymentState
    /** Whether the deployment's abort signal has fired; only `stop` fires it. */
    var aborted: bool
    var networks: map<string, NetworkHandle>
    var pools: map<string, PoolHandle>
    /** The `createAllocation` calls made, in order. */
    var allocationRequests: seq<AllocationRequest>
    /** The pools drained and the networks removed by `stop`. */
    var drainedPools: set<string>
    var removedNetworks: set<NetworkHandle>

    constructor (components: Components)
      requires ValidateNetworks(components).Pass?
      ensures this.components == components
      ensures state == Initial && !aborted && networks == map[] && pools == map[] && allocationRequests == []
      ensures drainedPools == {} && removedNetworks == {}
    {
      this.components := components;
      state := Initial;
      aborted := false;
      networks := map[];
      pools := map[];
      allocationRequests := [];
      drainedPools := {};
      removedNetworks := {};
    }

    /**
     * The work of `start` after its guards: the networks are created in order, the
     * allocation is requested with the total budget and the longest expiration, a pool
     * is created for each component on that allocation, and the deployment waits until
     * the pools are ready.
     */
    method Provision(env: StartEnvironment) returns (r: Outcome<DeploymentError>)
      modifies this
      ensures state == old(state) && aborted == old(aborted)
      ensures drainedPools == old(drainedPools) && removedNetworks == old(removedNetworks)
      ensures forall n :: n in networks ==> n in old(networks) || n in NetworkNames(components.networks)
      ensures forall n :: n in pools ==> n in old(pools) || n in PoolNames(components.pools)
      ensures r.Pass? <==> ServicesSucceed(env, components)
      ensures r.Pass? ==> forall n :: n in NetworkNames(components.networks) ==> n in networks
      ensures r.Pass? ==> forall n :: n in PoolNames(components.pools) ==> n in pools
      ensures NetworksCreated(env, components) ==> networks == WithNetworks(old(networks), components.networks, env.createNetwork)
      ensures forall k :: FirstNetworkFailure(env, components, k) ==>
                r == Fail(env.createNetwork(components.networks[k]).error) &&
                networks == WithNetworks(old(networks), components.networks[..k], env.createNetwork)
      ensures NetworksCreated(env, components) && TotalBudget(components.pools, env.estimate).Ok? ==>
                allocationRequests == old(allocationRequests) + [RequestFor(env, components)]
      ensures !(NetworksCreated(env, components) && TotalBudget(components.pools, env.estimate).Ok?) ==>
                allocationRequests == old(allocationRequests) && pools == old(pools)
      ensures NetworksCreated(env, components) && TotalBudget(components.pools, env.estimate).Ok? &&
              env.createAllocation(RequestFor(env, components)).Ok? ==>
                pools == WithPools(old(pools), components.pools, networks, env.createAllocation(RequestFor(env, components)).value)
      ensures NetworksCreated(env, components) && TotalBudget(components.pools, env.estimate).Ok? &&
              env.createAllocation(RequestFor(env, components)).Err? ==>
                r == Fail(env.createAllocation(RequestFor(env, components)).error) && pools == old(pools)
    {
      var nets := components.networks;
      for i := 0 to |nets|
        invariant state == old(state) && aborted == old(aborted) && pools == old(pools)
        invariant allocationRequests == old(allocationRequests)
        invariant drainedPools == old(drainedPools) && removedNetworks == old(removedNetworks)
        invariant forall n :: n in networks ==> n in old(networks) || n in NetworkNames(nets)
        invariant forall k :: 0 <= k < i ==> env.createNetwork(nets[k]).Ok?
        invariant networks == WithNetworks(old(networks), nets[..i], env.createNetwork)
      {
        assert nets[..i + 1][..i] == nets[..i];
        var created := env.createNetwork(nets[i]);
        if created.Err? {
          assert FirstNetworkFailure(env, components, i);
          assert forall k :: FirstNetworkFailure(env, components, k) ==> k == i;
          return Fail(created.error);
        }
        networks := networks[nets[i].name := created.value];
      }
      assert nets[..|nets|] == nets;
      assert forall k :: !FirstNetworkFailure(env, components, k);
      var budget := TotalBudget(components.pools, env.estimate);
      if budget.Err? {
        return Fail(budget.error);
      }
      var request := AllocationRequest(budget.value, LongestExpirationSec(components.pools));
      allocationRequests := allocationRequests + [request];
      var allocation := env.createAllocation(request);
      if allocation.Err? {
        return Fail(allocation.error);
      }
      var ps := components.pools;
      ghost var created := networks;
      for i := 0 to |ps|
        invariant state == old(state) && aborted == old(aborted)
        invariant allocationRequests == old(allocationRequests) + [request]
        invariant drainedPools == old(drainedPools) && removedNetworks == old(removedNetworks)
        invariant networks == created
        invariant forall n :: n in pools ==> n in old(pools) || n in PoolNames(ps)
        invariant pools == WithPools(old(pools), ps[..i], networks, allocation.value)
      {
        assert ps[..i + 1][..i] == ps[..i];
        var handle := PoolNetworkHandle(ps[i], networks);
        pools := pools[ps[i].name := PoolHandle(handle, allocation.value)];
        assert forall n :: n in pools ==> n in old(pools) || n in PoolNames(ps) by {
          assert ps[i].name in PoolNames(ps);
        }
      }
      assert ps[..|ps|] == ps;
      if env.poolsReady.Fail? {
        return Fail(env.poolsReady.error);
      }
      WithNetworksKeys(old(networks), nets, env.createNetwork);
      WithPoolsKeys(old(pools), ps, networks, allocation.value);
      r := Pass;
    }

    /** `start` as written: after its guards it provisions, but never moves the state on. */
    method StartAsWritten(env: StartEnvironment) returns (r: Outcome<DeploymentError>)
      modifies this
      ensures state == old(state) && aborted == old(aborted)
      ensures old(aborted) ==> r == Fail(StartAfterAbort) && networks == old(networks) && pools == old(pools)
      ensures !old(aborted) && old(state) != Initial ==> r == Fail(NotInitial(old(state))) && networks == old(networks) && pools == old(pools)
      ensures !old(aborted) && old(state) == Initial ==> (r.Pass? <==> ServicesSucceed(env, components))
      ensures r.Pass? ==> forall n :: n in PoolNames(components.pools) ==> n in pools
      ensures old(aborted) || old(state) != Initial ==> allocationRequests == old(allocationRequests)
      ensures !old(aborted) && old(state) == Initial && ServicesSucceed(env, components) ==>
                allocationRequests == old(allocationRequests) + [RequestFor(env, components)]
    {
      if aborted {
        return Fail(StartAfterAbort);
      }
      if state != Initial {
        return Fail(NotInitial(state));
      }
      r := Provision(env);
    }

    /** `start` with the transitions its state type provides: STARTING while provisioning, then READY or ERROR. */
    method Start(env: StartEnvironment) returns (r: Outcome<DeploymentError>)
      modifies this
      ensures aborted == old(aborted)
      ensures old(aborted) ==> r == Fail(StartAfterAbort) && state == old(state) && networks == old(networks) && pools == old(pools)
      ensures !old(aborted) && old(state) != Initial ==> r == Fail(NotInitial(old(state))) && state == old(state) && networks == old(networks) && pools == old(pools)
      ensures !old(aborted) && old(state) == Initial ==> (r.Pass? <==> ServicesSucceed(env, components))
      ensures !old(aborted) && old(state) == Initial ==> (r.Pass? <==> state == Ready) && (r.Fail? <==> state == Error)
      ensures r.Pass? ==> forall n :: n in PoolNames(components.pools) ==> n in pools
      ensures old(aborted) || old(state) != Initial ==> allocationRequests == old(allocationRequests)
      ensures !old(aborted) && old(state) == Initial && ServicesSucceed(env, components) ==>
                allocationRequests == old(allocationRequests) + [RequestFor(env, components)]
    {
      if aborted {
        return Fail(StartAfterAbort);
      }
      if state != Initial {
        return Fail(NotInitial(state));
      }
      state := Starting;
      r := Provision(env);
      state := if r.Pass? then Ready else Error;
    }

    /**
     * `stop`: a no-op while stopping or stopped; otherwise it aborts, drains every pool and
     * removes every network, and ends STOPPED, or ERROR when the teardown throws.
     */
    method Stop(teardown: Outcome<DeploymentError>) returns (r: Outcome<DeploymentError>)
      modifies this
      ensures networks == old(networks) && pools == old(pools)
      ensures old(state) == Stopping || old(state) == Stopped ==>
                r == Pass && state == old(state) && aborted == old(aborted) &&
                drainedPools == old(drainedPools) && removedNetworks == old(removedNetworks)
      ensures old(state) != Stopping && old(state) != Stopped ==> aborted && r == teardown
      ensures old(state) != Stopping && old(state) != Stopped && teardown.Pass? ==>
                state == Stopped && drainedPools == pools.Keys && removedNetworks == networks.Values
      ensures old(state) != Stopping && old(state) != Stopped && teardown.Fail? ==>
                state == Error && drainedPools == old(drainedPools) && removedNetworks == old(removedNetworks)
    {
      if state == Stopping || state == Stopped {
        return Pass;
      }
      state := Stopping;
      aborted := true;
      if teardown.Fail? {
        state := Error;
        return teardown;
      }
      drainedPools := pools.Keys;
      removedNetworks := networks.Values;
      state := Stopped;
      r := Pass;
    }

    function GetResourceRentalPool(name: string): (r: Result<PoolHandle, DeploymentError>)
      reads this
      ensures r.Ok? <==> name in pools
      ensures r.Ok? ==> r.value == pools[name]
      ensures r.Err? ==> r.error == PoolNotFound(name)
    {
      if name in pools then Ok(pools[name]) else Err(PoolNotFound(name))
    }

    function GetNetwork(name: string): (r: Result<NetworkHandle, DeploymentError>)
      reads this
      ensures r.Ok? <==> name in networks
      ensures r.Ok? ==> r.value == networks[name]
      ensures r.Err? ==> r.error == NetworkNotFound(name)
    {
      if name in networks then Ok(networks[name]) else Err(NetworkNotFound(name))
    }
  }

  /** `new Deployment(components, deps)`: the constructor validates the components first and throws on an unknown network. */
  method NewDeployment(c: Components) returns (r: Result<Deployment, DeploymentError>)
    ensures ValidateNetworks(c).Fail? ==> r == Err(ValidateNetworks(c).error)
    ensures ValidateNetworks(c).Pass? ==>
              r.Ok? && fresh(r.value) && r.value.components == c && r.value.state == Initial &&
              !r.value.aborted && r.value.networks == map[] && r.value.pools == map[]
  {
    var v := ValidateNetworks(c);
    if v.Fail? {
      return Err(v.error);
    }
    var d := new Deployment(c);
    r := Ok(d);
  }

  /** As written, a started deployment stays INITIAL, so a second `start` provisions everything again. */
  method SecondStartAsWritten(c: Components, env: StartEnvironment)
    returns (first: Outcome<DeploymentError>, second: Outcome<DeploymentError>, requests: seq<AllocationRequest>)
    requires ValidateNetworks(c).Pass? && ServicesSucceed(env, c)
    ensures first == Pass && second == Pass
    ensures requests == [RequestFor(env, c), RequestFor(env, c)]
  {
    var d := new Deployment(c);
    first := d.StartAsWritten(env);
    second := d.StartAsWritten(env);
    requests := d.allocationRequests;
  }

  /** With the state transitions in place, the second `start` is refused. */
  method SecondStartRefused(c: Components, env: StartEnvironment)
    returns (first: Outcome<DeploymentError>, second: Outcome<DeploymentError>, requests: seq<AllocationRequest>)
    requires ValidateNetworks(c).Pass?
    ensures first.Pass? <==> ServicesSucceed(env, c)
    ensures first.Pass? ==> second == Fail(NotInitial(Ready))
    ensures first.Fail? ==> second == Fail(NotInitial(Error))
    ensures first.Pass? ==> requests == [RequestFor(env, c)]
  {
    var d := new Deployment(c);
    first := d.Start(env);
    second := d.Start(env);
    requests := d.allocationRequests;
  }

  predicate HasPoolNamed(pools: seq<PoolComponent>, name: string)
  {
    exists i :: 0 <= i < |pools| && pools[i].name == name
  }

  predicate HasNetworkNamed(networks: seq<NetworkComponent>, name: string)
  {
    exists i :: 0 <= i < |networks| && networks[i].name == name
  }

  class DeploymentBuilder {
    var pools: seq<PoolComponent>
    var networks: seq<NetworkComponent>

    /** No two pools and no two networks share a name. */
    ghost predicate Valid()
      reads this
    {
      (forall i, j :: 0 <= i < j < |pools| ==> pools[i].name != pools[j].name) &&
      (forall i, j :: 0 <= i < j < |networks| ==> networks[i].name != networks[j].name)
    }

    constructor ()
      ensures Valid() && pools == [] && networks == []
    {
      pools := [];
      networks := [];
    }

    method CreateResourceRentalPool(name: string, options: PoolOptions) returns (r: Outcome<DeploymentError>)
      requires Valid()
      modifies this
      ensures Valid()
      ensures networks == old(networks)
      ensures HasPoolNamed(old(pools), name) ==> r == Fail(DuplicatePool(name)) && pools == old(pools)
      ensures !HasPoolNamed(old(pools), name) ==> r == Pass && pools == old(pools) + [PoolComponent(name, options)]
    {
      if HasPoolNamed(pools, name) {
        return Fail(DuplicatePool(name));
      }
      pools := pools + [PoolComponent(name, options)];
      r := Pass;
    }

    method CreateNetwork(name: string, options: NetworkOptions) returns (r: Outcome<DeploymentError>)
      requires Valid()
      modifies this
      ensures Valid()
      ensures pools == old(pools)
      ensures HasNetworkNamed(old(networks), name) ==> r == Fail(DuplicateNetwork(name)) && networks == old(networks)
      ensures !HasNetworkNamed(old(networks), name) ==> r == Pass && networks == old(networks) + [NetworkComponent(name, options)]
    {
      if HasNetworkNamed(networks, name) {
        return Fail(DuplicateNetwork(name));
      }
      networks := networks + [NetworkComponent(name, options)];
      r := Pass;
    }

    /** `getDeployment`: validates, hands the components to a new deployment and resets. */
    method GetDeployment() returns (r: Result<Deployment, DeploymentError>)
      requires Valid()
      modifies this
      ensures Valid()
      ensures ValidateNetworks(Components(old(pools), old(networks))).Fail? ==>
                r == Err(ValidateNetworks(Components(old(pools), old(networks))).error) &&
                pools == old(pools) && networks == old(networks)
      ensures ValidateNetworks(Components(old(pools), old(networks))).Pass? ==>
                r.Ok? && fresh(r.value) && r.value.components == Components(old(pools), old(networks)) &&
                r.value.state == Initial && pools == [] && networks == []
    {
      var c := Components(pools, networks);
      var v := ValidateNetworks(c);
      if v.Fail? {
        return Err(v.error);
      }
      r := NewDeployment(c);
      pools := [];
      networks := [];
    }
  }
}
