/**
 * The experimental Job API (dist/golem-js-experimental.js, Job and JobManager):
 * a job's lifecycle states, starting work, the outcome of one run, cancellation
 * and waiting for the result, and the manager's job table.
 */
module Jobs {
  import opened Wrappers
  import Storage
  import YagnaApis
  import GolemNetworks

  datatype JobState = New | Queued | Pending | Done | Retry | Rejected

  /** `isRunning()`: the in-progress states. */
  predicate InProgress(s: JobState)
  {
    s == Pending || s == Retry
  }

  type WorkResult = string

  datatype JobError =
    | AlreadyRunning(jobId: string)     // GolemUserError "Job … is already running"
    | NotRunning(jobId: string)         // GolemUserError "Job … is not running"
    | Canceled                          // GolemAbortError "Canceled"
    | NotInitialized                    // GolemUserError "GolemNetwork not initialized …"
    | Failure(reason: string)           // an error raised by the rental or the work function
    | Config(error: YagnaApis.YagnaError) // the network's constructor refused the configuration
    | GlmUndefined                      // TypeError reading `services` of the unassigned `this.glm`

  /** What the environment does during one `runWork`. */
  datatype RunEnvironment = RunEnvironment(
    abortedAtStart: bool,                 // signal state when runWork begins
    rental: Outcome<JobError>,            // glm.oneOf
    exeUnit: Outcome<JobError>,           // rental.getExeUnit
    abortedAfterExeUnit: bool,            // signal state once the exe unit is ready
    work: Result<WorkResult, JobError>,   // the user's work function
    finalize: Outcome<JobError>)          // rental.stopAndFinalize in the finally block

  datatype RunReport = RunReport(outcome: Result<WorkResult, JobError>, finalized: bool)

  /**
   * `runWork`: a signal aborted before renting or after the exe unit is ready cancels the
   * run; once a rental exists it is always finalized, and a failing finalization replaces
   * the run's own outcome (an exception thrown in `finally`).
   */
  function RunWork(env: RunEnvironment): (r: RunReport)
    ensures r.finalized <==> !env.abortedAtStart && env.rental.Pass?
    ensures env.abortedAtStart ==> r.outcome == Err(Canceled)
    ensures r.outcome.Ok? <==>
              !env.abortedAtStart && env.rental.Pass? && env.exeUnit.Pass? &&
              !env.abortedAfterExeUnit && env.work.Ok? && env.finalize.Pass?
    ensures r.outcome.Ok? ==> r.outcome == env.work
    ensures r.finalized && env.finalize.Fail? ==> r.outcome == Err(env.finalize.error)
  {
    if env.abortedAtStart then RunReport(Err(Canceled), false)
    else if env.rental.Fail? then RunReport(Err(env.rental.error), false)
    else
      var inner :=
        if env.exeUnit.Fail? then Err(env.exeUnit.error)
        else if env.abortedAfterExeUnit then Err(Canceled)
        else env.work;
      var outcome := if env.finalize.Fail? then Err(env.finalize.error) else inner;
      RunReport(outcome, true)
  }

  /** What `waitForResult` does in a given state. */
  datatype WaitOutcome = Returned(value: WorkResult) | Threw(error: JobError) | WaitsForEnd

  /** A JavaScript value as tested by `!`: the guard in `cancel` tests `this.isRunning` itself. */
  datatype JsValue = FunctionRef | JsBool(b: bool)

  predicate Truthy(v: JsValue)
  {
    match v
    case FunctionRef => true
    case JsBool(b) => b
  }

  /** The guard of `cancel` as written: `!this.isRunning`, a method reference, not a call. */
  function CancelGuardAsWritten(s: JobState): (rejects: bool)
    ensures !rejects
  {
    !Truthy(FunctionRef)
  }

  /** The guard its documentation describes: reject when the job is not running. */
  function CancelGuard(s: JobState): (rejects: bool)
    ensures rejects <==> !InProgress(s)
  {
    !Truthy(JsBool(InProgress(s)))
  }

  /** A job that was never started is not rejected by the written guard, but is by the intended one. */
  lemma CancelGuardDiscrepancy()
    ensures !CancelGuardAsWritten(New) && CancelGuard(New)
    ensures forall s :: CancelGuardAsWritten(s) != CancelGuard(s) <==> !InProgress(s)
  {
  }

  class Job {
    const id: string
    var state: JobState
    var results: Option<WorkResult>
    var error: Option<JobError>
    /** Whether the current abort controller's signal has fired. */
    var aborted: bool

    ghost predicate Valid()
      reads this
    {
      (state == Done ==> results.Some?) && (state == Rejected ==> error.Some?)
    }

    constructor (id: string)
      ensures Valid()
      ensures this.id == id && state == New && results.None? && error.None? && !aborted
    {
      this.id := id;
      state := New;
      results := None;
      error := None;
      aborted := false;
    }

    function IsRunning(): (r: bool)
      reads this
      ensures r <==> state == Pending || state == Retry
    {
      InProgress(state)
    }

    /** `startWork`: refuses a running job, otherwise moves to Pending with a fresh abort signal. */
    method StartWork() returns (r: Outcome<JobError>)
      requires Valid()
      modifies this
      ensures Valid()
      ensures old(IsRunning()) ==> r == Fail(AlreadyRunning(id)) && state == old(state) && aborted == old(aborted)
      ensures !old(IsRunning()) ==> r == Pass && state == Pending && !aborted
      ensures results == old(results) && error == old(error)
    {
      if IsRunning() {
        return Fail(AlreadyRunning(id));
      }
      state := Pending;
      aborted := false;
      r := Pass;
    }

    /** The `then`/`catch` continuation of the run started by `startWork`. */
    method Settle(report: RunReport)
      requires Valid() && state == Pending
      modifies this
      ensures Valid()
      ensures report.outcome.Ok? ==> state == Done && results == Some(report.outcome.value) && error == old(error)
      ensures report.outcome.Err? ==> state == Rejected && error == Some(report.outcome.error) && results == old(results)
      ensures aborted == old(aborted)
    {
      match report.outcome
      case Ok(v) =>
        results := Some(v);
        state := Done;
      case Err(e) =>
        error := Some(e);
        state := Rejected;
    }

    /** `cancel` as written: the guard never fires, so the signal is always aborted. */
    method CancelAsWritten() returns (r: Outcome<JobError>)
      requires Valid()
      modifies this
      ensures Valid()
      ensures r == Pass && aborted
      ensures state == old(state) && results == old(results) && error == old(error)
    {
      if CancelGuardAsWritten(state) {
        return Fail(NotRunning(id));
      }
      aborted := true;
      r := Pass;
    }

    /** `cancel` with the guard it documents: a job that is not running is refused. */
    method Cancel() returns (r: Outcome<JobError>)
      requires Valid()
      modifies this
      ensures Valid()
      ensures !old(IsRunning()) ==> r == Fail(NotRunning(id)) && aborted == old(aborted)
      ensures old(IsRunning()) ==> r == Pass && aborted
      ensures state == old(state) && results == old(results) && error == old(error)
    {
      if CancelGuard(state) {
        return Fail(NotRunning(id));
      }
      aborted := true;
      r := Pass;
    }

    /** The abort of the signal, as `cancel` performs it on a running job. */
    method Abort()
      modifies this
      ensures aborted
      ensures state == old(state) && results == old(results) && error == old(error)
    {
      aborted := true;
    }

    /** `waitForResult`: results when Done, the stored error when Rejected, an error when idle. */
    function WaitForResult(): (r: WaitOutcome)
      requires Valid()
      reads this
      ensures state == Done <==> r.Returned?
      ensures state == Done ==> r == Returned(results.value)
      ensures state == Rejected ==> r == Threw(error.value)
      ensures state != Done && state != Rejected && !InProgress(state) ==> r == Threw(NotRunning(id))
      ensures r == WaitsForEnd <==> InProgress(state)
    {
      if state == Done then Returned(results.value)
      else if state == Rejected then Threw(error.value)
      else if !IsRunning() then Threw(NotRunning(id))
      else WaitsForEnd
    }
  }

  /** A run that ends with the work's result is observed by waitForResult. */
  method RunToCompletion(job: Job, env: RunEnvironment) returns (w: WaitOutcome)
    requires job.Valid() && !job.IsRunning()
    modifies job
    ensures job.Valid()
    ensures RunWork(env).outcome.Ok? ==> w == Returned(env.work.value) && job.state == Done
    ensures RunWork(env).outcome.Err? ==> w == Threw(RunWork(env).outcome.error) && job.state == Rejected
  {
    var started := job.StartWork();
    job.Settle(RunWork(env));
    w := job.WaitForResult();
  }

  /** A provider's identity when it is handed to GolemNetwork as a provider object. */
  function ProviderObjectId(p: Storage.StorageProvider): string
  {
    match p
    case GftpProvider(_) => "GftpStorageProvider"
    case WebSocketBrowserProvider(_) => "WebSocketBrowserStorageProvider"
    case NullProvider => "NullStorageProvider"
    case CustomProvider(id) => id
  }

  /** The options the manager's constructor hands to `new GolemNetwork`. */
  function ManagerNetworkOptions(apiKey: Option<string>, basePath: Option<string>, storage: Storage.StorageProvider)
    : GolemNetworks.GolemNetworkOptions
  {
    GolemNetworks.GolemNetworkOptions(apiKey, basePath, GolemNetworks.Given(GolemNetworks.ProviderObject(ProviderObjectId(storage))), map[])
  }

  class JobManager {
    /** The network the constructor builds; `isInitialized()` is its connection flag. */
    const glm: GolemNetworks.GolemNetwork
    /** The storage provider chosen before the network is built. */
    const storage: Storage.StorageProvider
    var jobs: map<string, Job>

    /** Every managed job keeps its own invariant. */
    ghost predicate Valid()
      reads this, jobs.Values
    {
      forall id :: id in jobs ==> jobs[id].Valid()
    }

    constructor (glm: GolemNetworks.GolemNetwork, storage: Storage.StorageProvider)
      ensures Valid()
      ensures this.glm == glm && this.storage == storage && jobs == map[]
    {
      this.glm := glm;
      this.storage := storage;
      jobs := map[];
    }

    /** `isInitialized`: the network is connected. */
    function IsInitialized(): (c: bool)
      reads this, glm
      ensures c == glm.hasConnection
    {
      glm.IsConnected()
    }

    /**
     * `init`: connects the network. The outcomes are those of the Yagna API, the payment
     * API and the storage provider starting up; a failure is rethrown and leaves the
     * manager as it was.
     */
    method Init(yagnaStart: Outcome<string>, paymentStart: Outcome<string>, storageStart: Outcome<string>) returns (r: Outcome<string>)
      modifies glm
      ensures r.Pass? <==> yagnaStart.Pass? && paymentStart.Pass? && storageStart.Pass?
      ensures r.Pass? ==> IsInitialized()
      ensures r.Fail? ==> IsInitialized() == old(IsInitialized())
      ensures jobs == old(jobs)
    {
      r := glm.Connect(yagnaStart, paymentStart, storageStart);
    }

    /** `createJob`; `jobId` is the fresh uuid. */
    method CreateJob(jobId: string) returns (r: Result<Job, JobError>)
      requires Valid()
      modifies this
      ensures Valid()
      ensures !IsInitialized() ==> r == Err(NotInitialized) && jobs == old(jobs)
      ensures IsInitialized() ==> r.Ok? && fresh(r.value) && r.value.Valid() && r.value.id == jobId &&
                                  r.value.state == New && jobs == old(jobs)[jobId := r.value]
    {
      if !glm.IsConnected() {
        return Err(NotInitialized);
      }
      var job := new Job(jobId);
      jobs := jobs[jobId := job];
      r := Ok(job);
    }

    function GetJobById(jobId: string): (r: Result<Option<Job>, JobError>)
      reads this, glm
      ensures !IsInitialized() <==> r == Err(NotInitialized)
      ensures IsInitialized() ==> r == Ok(if jobId in jobs then Some(jobs[jobId]) else None)
    {
      if !glm.IsConnected() then Err(NotInitialized)
      else if jobId in jobs then Ok(Some(jobs[jobId]))
      else Ok(None)
    }

    /**
     * `close`: every running job is cancelled, and then the network is disconnected with
     * the given outcomes of closing storage, payment and Yagna; a failure there is
     * rethrown with the connection left as it was. `cancelled` holds the jobs that were
     * running.
     */
    method Close(storageClose: Outcome<string>, paymentClose: Outcome<string>, yagnaClose: Outcome<string>)
      returns (cancelled: set<Job>, r: Outcome<string>)
      modifies jobs.Values, glm
      ensures jobs == old(jobs)
      ensures forall j :: j in jobs.Values ==>
                j.state == old(j.state) && j.results == old(j.results) && j.error == old(j.error)
      ensures forall j :: j in jobs.Values ==> j.aborted == (old(j.aborted) || old(j.IsRunning()))
      ensures cancelled == set j | j in jobs.Values && old(j.IsRunning())
      ensures r.Pass? <==> storageClose.Pass? && paymentClose.Pass? && yagnaClose.Pass?
      ensures r.Pass? ==> !IsInitialized()
      ensures r.Fail? ==> IsInitialized() == old(IsInitialized())
    {
      var remaining := jobs.Values;
      cancelled := {};
      while remaining != {}
        invariant remaining <= jobs.Values && jobs == old(jobs)
        invariant forall j :: j in jobs.Values ==>
                    j.state == old(j.state) && j.results == old(j.results) && j.error == old(j.error)
        invariant forall j :: j in jobs.Values && j !in remaining ==> j.aborted == (old(j.aborted) || old(j.IsRunning()))
        invariant forall j :: j in remaining ==> j.aborted == old(j.aborted)
        invariant cancelled == set j | j in jobs.Values && j !in remaining && old(j.IsRunning())
        invariant glm.hasConnection == old(glm.hasConnection)
        decreases |remaining|
      {
        var job :| job in remaining;
        if job.IsRunning() {
          job.Abort();
          cancelled := cancelled + {job};
        }
        remaining := remaining - {job};
      }
      r := glm.Disconnect(storageClose, paymentClose, yagnaClose);
    }
  }

  /**
   * The manager's storage provider as written: `getDefaultStorageProvider` runs before
   * the constructor assigns `this.glm`, so the browser branch, which reads
   * `this.glm.services.yagna`, throws a TypeError.
   */
  function ManagerStorageProviderAsWritten(isNode: bool, isBrowser: bool): (r: Result<Storage.StorageProvider, JobError>)
    ensures r.Err? <==> !isNode && isBrowser
    ensures r.Err? ==> r.error == GlmUndefined
    ensures r.Ok? ==> r.value == Storage.CreateDefaultStorageProvider(isNode, isBrowser, None)
  {
    if isNode then Ok(Storage.GftpProvider(None))
    else if isBrowser then Err(GlmUndefined)
    else Ok(Storage.NullProvider)
  }

  /**
   * The manager's storage provider once the Yagna API it needs exists: the runtime's
   * default choice, without a logger, in every runtime.
   */
  function ManagerStorageProvider(isNode: bool, isBrowser: bool): (r: Storage.StorageProvider)
    ensures r == Storage.CreateDefaultStorageProvider(isNode, isBrowser, None)
    ensures r.GftpProvider? ==> r.logger.None?
  {
    if isNode then Storage.GftpProvider(None)
    else if isBrowser then Storage.WebSocketBrowserProvider(None)
    else Storage.NullProvider
  }

  /** In a browser the written constructor throws, while the corrected one picks the WebSocket provider. */
  lemma BrowserManagerFailsAsWritten()
    ensures ManagerStorageProviderAsWritten(false, true) == Err(GlmUndefined)
    ensures ManagerStorageProvider(false, true) == Storage.WebSocketBrowserProvider(None)
    ensures forall isNode, isBrowser :: ManagerStorageProviderAsWritten(isNode, isBrowser).Ok? ==>
              ManagerStorageProviderAsWritten(isNode, isBrowser).value == ManagerStorageProvider(isNode, isBrowser)
  {
  }

  /**
   * `new JobManager(config)` with the corrected storage-provider choice
   * (`ManagerStorageProvider`): the provider is chosen, then the network is built from
   * the configured key and base path with that provider; building the Yagna API fails
   * without a key in the options and in the environment. The code as written throws in
   * a browser first (`ManagerStorageProviderAsWritten`).
   */
  method NewJobManager(apiKey: Option<string>, basePath: Option<string>, isNode: bool, isBrowser: bool,
                       envAppKey: string, envApiUrl: string)
    returns (r: Result<JobManager, JobError>)
    ensures var setup := GolemNetworks.Configure(ManagerNetworkOptions(apiKey, basePath, ManagerStorageProvider(isNode, isBrowser)), envAppKey, envApiUrl);
            (setup.Err? ==> r == Err(Config(setup.error))) &&
            (setup.Ok? ==> r.Ok? && fresh(r.value) && fresh(r.value.glm) && r.value.Valid() &&
                           r.value.glm.setup == setup.value && !r.value.IsInitialized() && r.value.jobs == map[] &&
                           r.value.storage == ManagerStorageProvider(isNode, isBrowser))
  {
    var storage := ManagerStorageProvider(isNode, isBrowser);
    var setup := GolemNetworks.Configure(ManagerNetworkOptions(apiKey, basePath, storage), envAppKey, envApiUrl);
    if setup.Err? {
      return Err(Config(setup.error));
    }
    var glm := new GolemNetworks.GolemNetwork(setup.value);
    var m := new JobManager(glm, storage);
    r := Ok(m);
  }

  /** Without a key anywhere the manager cannot be built; the network's own constructor refuses. */
  lemma ManagerWithoutKeyFails(basePath: Option<string>, storage: Storage.StorageProvider)
    ensures GolemNetworks.Configure(ManagerNetworkOptions(None, basePath, storage), "", "").Err?
  {
    GolemNetworks.MissingKeyFails(ManagerNetworkOptions(None, basePath, storage));
  }
}
