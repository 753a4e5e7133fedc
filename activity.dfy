/**
 * Activity (src/activity/activity.ts): the runtime on a provider in which exe-script
 * batches run. Covered here: turning a streamed event into a command result, how read
 * failures are classified and retried, the two read loops (polling and streaming) driven
 * round by round by what the environment reports, `stop` and `getState`.
 *
 * Time, the network and the event source are inputs: each loop round is told the current
 * time, whether the activity is still running, and what the API answered.
 */
module Activities {
  import opened Wrappers
  import opened Strings

  datatype ActivityState = New | Initialized | Deployed | Ready | Unresponsive | Terminated

  /** `ActivityStateEnum[name]`: undefined for a name that is not a state. */
  function StateNamed(name: string): (r: Option<ActivityState>)
    ensures r.Some? ==> StateName(r.value) == name
  {
    if name == "New" then Some(New)
    else if name == "Initialized" then Some(Initialized)
    else if name == "Deployed" then Some(Deployed)
    else if name == "Ready" then Some(Ready)
    else if name == "Unresponsive" then Some(Unresponsive)
    else if name == "Terminated" then Some(Terminated)
    else None
  }

  function StateName(s: ActivityState): string
  {
    match s
    case New => "New"
    case Initialized => "Initialized"
    case Deployed => "Deployed"
    case Ready => "Ready"
    case Unresponsive => "Unresponsive"
    case Terminated => "Terminated"
  }

  lemma StateNameRoundTrip(s: ActivityState)
    ensures StateNamed(StateName(s)) == Some(s)
  {
  }

  datatype ResultState = ResultOk | ResultError

  /** One command's result in a batch. */
  datatype ActivityResult = ActivityResult(
    index: int,
    eventDate: string,
    result: ResultState,
    stdout: Option<string>,
    stderr: Option<string>,
    message: Option<string>,
    isBatchFinished: bool)

  datatype Finished = Finished(returnCode: int, message: Option<string>)

  datatype EventKind = EventKind(finished: Option<Finished>, stdout: Option<string>, stderr: Option<string>)

  /** A runtime event of the event stream, once its JSON text has been read. */
  datatype StreamingBatchEvent = StreamingBatchEvent(index: int, timestamp: string, kind: Option<EventKind>)

  datatype HandleFailure =
    | Rethrown(message: string)          // the activity was terminated: the read error itself
    | GaveUp(cmdIndex: int, message: string)   // "Command #<i> getExecBatchResults error: <message>"

  datatype ActivityError =
    | ActivityTimeout(activityId: string)             // "Activity <id> timeout."
    | ActivityInterrupted(activityId: string)         // "Activity <id> has been interrupted."
    | StreamErrors(errors: seq<string>)               // "GetExecBatchResults failed due to errors: ..."
    | ResultsUnavailable(cause: HandleFailure)        // "Unable to get activity results. ..."
    | EventNotParsed(text: string)                    // "Cannot parse <msg> as StreamingBatchEvent"
    | DestroyFailed(activityId: string, message: string)

  // ---------------------------------------------------------------------------
  // parseEventToResult

  function Finish(e: StreamingBatchEvent): Option<Finished>
  {
    if e.kind.Some? then e.kind.value.finished else None
  }

  /** `kind.stderr` read for truthiness: present and not empty. */
  predicate HasStderr(e: StreamingBatchEvent)
  {
    e.kind.Some? && e.kind.value.stderr.Some? && e.kind.value.stderr.value != ""
  }

  /**
   * `parseEventToResult`: `event` is the event read from the text `msg`, or None when the
   * text is not such an event.
   */
  function ParseEventToResult(event: Option<StreamingBatchEvent>, msg: string, batchSize: int): (r: Result<ActivityResult, ActivityError>)
    ensures event.None? <==> r == Err(EventNotParsed(msg))
    ensures r.Ok? ==> r.value.index == event.value.index && r.value.eventDate == event.value.timestamp
    ensures r.Ok? && event.value.kind.None? ==> r.value.stdout.None? && r.value.stderr.None? && r.value.message.None?
    ensures r.Ok? && event.value.kind.Some? ==>
              r.value.stdout == event.value.kind.value.stdout && r.value.stderr == event.value.kind.value.stderr &&
              r.value.message == (if Finish(event.value).Some? then Finish(event.value).value.message else None)
  {
    match event
    case None => Err(EventNotParsed(msg))
    case Some(e) =>
      var fin := Finish(e);
      var state :=
        if fin.Some? then (if fin.value.returnCode == 0 then ResultOk else ResultError)
        else if HasStderr(e) then ResultError else ResultOk;
      Ok(ActivityResult(
        e.index, e.timestamp, state,
        if e.kind.Some? then e.kind.value.stdout else None,
        if e.kind.Some? then e.kind.value.stderr else None,
        if fin.Some? then fin.value.message else None,
        e.index + 1 >= batchSize && fin.Some?))
  }

  /**
   * The state of a parsed result: a finished command is Ok exactly when its return code
   * is 0; an unfinished one is an error exactly when it wrote to stderr.
   */
  lemma ResultStateRule(e: StreamingBatchEvent, msg: string, batchSize: int)
    ensures var r := ParseEventToResult(Some(e), msg, batchSize).value;
            (Finish(e).Some? ==> (r.result == ResultOk <==> Finish(e).value.returnCode == 0)) &&
            (Finish(e).None? ==> (r.result == ResultError <==> HasStderr(e)))
  {
  }

  /** A parsed result ends the batch exactly when it is the last command's and it finished. */
  lemma BatchFinishedRule(e: StreamingBatchEvent, msg: string, batchSize: int)
    ensures ParseEventToResult(Some(e), msg, batchSize).value.isBatchFinished <==> e.index + 1 >= batchSize && Finish(e).Some?
  {
  }

  // ---------------------------------------------------------------------------
  // isTimeoutError and handleError

  datatype ResponseInfo = ResponseInfo(status: Option<int>)

  /** What the loops see of a failed request. */
  datatype RequestError = RequestError(response: Option<ResponseInfo>, code: Option<string>, message: Option<string>)

  /** `isAxiosError`: the error carries a response object with a status. */
  predicate IsAxiosError(e: RequestError)
  {
    e.response.Some? && e.response.value.status.Some?
  }

  /** `isTimeoutError`: an HTTP 408 response, an ETIMEDOUT code, or ECONNABORTED with "timeout" in its message. */
  predicate IsTimeoutError(e: RequestError)
    ensures IsAxiosError(e) && (e.response.value.status == Some(408) || e.code == Some("ETIMEDOUT")) ==> IsTimeoutError(e)
    ensures IsAxiosError(e) && e.code == Some("ECONNABORTED") && e.message.Some? && Contains(e.message.value, "timeout") ==> IsTimeoutError(e)
  {
    IsAxiosError(e) &&
    (e.response.value.status == Some(408) ||
     e.code == Some("ETIMEDOUT") ||
     (e.code == Some("ECONNABORTED") && e.message.Some? && e.message.value != "" && Contains(e.message.value, "timeout")))
  }

  /** Only errors with an HTTP response can be timeouts, and an aborted connection only with "timeout" in its message. */
  lemma TimeoutNeedsResponse(e: RequestError)
    ensures !IsAxiosError(e) ==> !IsTimeoutError(e)
    ensures (IsAxiosError(e) && e.response.value.status != Some(408) && e.code == Some("ECONNABORTED") &&
             (e.message.None? || !Contains(e.message.value, "timeout"))) ==> !IsTimeoutError(e)
  {
  }

  function ErrorText(e: RequestError): string
  {
    if e.message.Some? then e.message.value else ""
  }

  /** `isTerminated`: the first state reported is Terminated; a failed query counts as not terminated. */
  predicate IsTerminated(query: Result<seq<string>, string>)
  {
    query.Ok? && |query.value| > 0 && query.value[0] == "Terminated"
  }

  /**
   * `handleError`: a timeout keeps the retry count; otherwise a terminated activity passes
   * the error on, and any other failure counts one more retry, given up at `maxRetries`.
   * `query` is the answer of the state query that isTerminated makes.
   */
  function HandleError(e: RequestError, cmdIndex: Option<int>, retryCount: nat, maxRetries: nat, query: Result<seq<string>, string>)
    : (r: Result<nat, HandleFailure>)
    ensures IsTimeoutError(e) ==> r == Ok(retryCount)
    ensures !IsTimeoutError(e) && IsTerminated(query) ==> r == Err(Rethrown(ErrorText(e)))
    ensures !IsTimeoutError(e) && !IsTerminated(query) ==>
              (retryCount + 1 < maxRetries ==> r == Ok(retryCount + 1)) &&
              (retryCount + 1 >= maxRetries ==> r == Err(GaveUp(if cmdIndex.Some? then cmdIndex.value else 0, ErrorText(e))))
    ensures r.Ok? && retryCount < maxRetries ==> r.value < maxRetries
  {
    if IsTimeoutError(e) then Ok(retryCount)
    else if IsTerminated(query) then Err(Rethrown(ErrorText(e)))
    else if retryCount + 1 < maxRetries then Ok(retryCount + 1)
    else Err(GaveUp(if cmdIndex.Some? then cmdIndex.value else 0, ErrorText(e)))
  }

  // ---------------------------------------------------------------------------
  // The polling loop

  const MaxRetries: nat := 5

  /** `timeout || activityExecuteTimeout` after `startTime`: the deadline has passed at `now`. */
  predicate DeadlinePassed(startTime: real, timeout: Option<real>, executeTimeout: real, now: real)
  {
    var limit := if timeout.Some? && timeout.value != 0.0 then timeout.value else executeTimeout;
    startTime + limit <= now
  }

  datatype LoopEnv = LoopEnv(activityId: string, startTime: real, timeout: Option<real>, executeTimeout: real)

  datatype Fetch =
    | Fetched(results: seq<ActivityResult>)
    | FetchFailed(error: RequestError, stateQuery: Result<seq<string>, string>)

  /** One turn of the polling loop: the time, whether the activity runs, and the API's answer. */
  datatype PollRound = PollRound(now: real, running: bool, fetch: Fetch)

  datatype PollState = PollState(
    pushed: seq<ActivityResult>,
    lastIndex: Option<int>,
    retryCount: nat,
    finished: bool,
    failure: Option<ActivityError>)

  const PollStart := PollState([], None, 0, false, None)

  /** `slice(k)`: a negative start counts from the end; `undefined + 1` is NaN, read as 0. */
  function SliceFrom<T>(s: seq<T>, k: int): (r: seq<T>)
    ensures k >= 0 ==> r == (if k >= |s| then [] else s[k..])
    ensures r <= s || (|r| <= |s| && r == s[|s| - |r|..])
  {
    if k >= |s| then []
    else if k >= 0 then s[k..]
    else if |s| + k <= 0 then s
    else s[|s| + k..]
  }

  function NextResults(raw: seq<ActivityResult>, lastIndex: Option<int>): seq<ActivityResult>
  {
    if lastIndex.None? then raw else SliceFrom(raw, lastIndex.value + 1)
  }

  /** The `forEach` over new results: push each, keeping the last one's index and finished flag. */
  function Absorb(s: PollState, rs: seq<ActivityResult>): (t: PollState)
    ensures t.pushed == s.pushed + rs
    ensures t.retryCount == s.retryCount && t.failure == s.failure
    ensures |rs| == 0 ==> t == s
    ensures |rs| > 0 ==> t.lastIndex == Some(rs[|rs| - 1].index) && t.finished == rs[|rs| - 1].isBatchFinished
    decreases |rs|
  {
    if |rs| == 0 then s
    else
      var t := Absorb(s.(pushed := s.pushed + [rs[0]], lastIndex := Some(rs[0].index), finished := rs[0].isBatchFinished), rs[1..]);
      assert s.pushed + [rs[0]] + rs[1..] == s.pushed + rs;
      t
  }

  function PollStep(env: LoopEnv, s: PollState, round: PollRound): PollState
  {
    if DeadlinePassed(env.startTime, env.timeout, env.executeTimeout, round.now) then
      s.(failure := Some(ActivityTimeout(env.activityId)))
    else if !round.running then
      s.(failure := Some(ActivityInterrupted(env.activityId)))
    else
      match round.fetch
      case Fetched(raw) => Absorb(s.(retryCount := 0), NextResults(raw, s.lastIndex))
      case FetchFailed(e, query) =>
        match HandleError(e, s.lastIndex, s.retryCount, MaxRetries, query)
        case Ok(n) => s.(retryCount := n)
        case Err(cause) => s.(failure := Some(ResultsUnavailable(cause)))
  }

  /** The loop runs while the batch is unfinished, nothing failed and rounds remain. */
  predicate Polling(s: PollState)
  {
    !s.finished && s.failure.None?
  }

  function PollRun(env: LoopEnv, s: PollState, rounds: seq<PollRound>): PollState
    decreases |rounds|
  {
    if |rounds| == 0 || !Polling(s) then s else PollRun(env, PollStep(env, s, rounds[0]), rounds[1..])
  }

  /**
   * `pollingBatch`'s read loop, fed round by round; stops early once the batch is
   * finished or the stream was destroyed with an error.
   */
  method PollingBatch(env: LoopEnv, rounds: seq<PollRound>) returns (s: PollState)
    ensures s == PollRun(env, PollStart, rounds)
  {
    s := PollStart;
    var i := 0;
    while i < |rounds| && Polling(s)
      invariant 0 <= i <= |rounds|
      invariant PollRun(env, s, rounds[i..]) == PollRun(env, PollStart, rounds)
      decreases |rounds| - i
    {
      var round := rounds[i];
      assert rounds[i..][1..] == rounds[i + 1..];
      if DeadlinePassed(env.startTime, env.timeout, env.executeTimeout, round.now) {
        s := s.(failure := Some(ActivityTimeout(env.activityId)));
      } else if !round.running {
        s := s.(failure := Some(ActivityInterrupted(env.activityId)));
      } else if round.fetch.Fetched? {
        var newResults := NextResults(round.fetch.results, s.lastIndex);
        var t := s.(retryCount := 0);
        var j := 0;
        while j < |newResults|
          invariant 0 <= j <= |newResults|
          invariant Absorb(t, newResults[j..]) == Absorb(s.(retryCount := 0), newResults)
          decreases |newResults| - j
        {
          assert newResults[j..][1..] == newResults[j + 1..];
          t := t.(pushed := t.pushed + [newResults[j]], lastIndex := Some(newResults[j].index), finished := newResults[j].isBatchFinished);
          j := j + 1;
        }
        s := t;
      } else {
        var handled := HandleError(round.fetch.error, s.lastIndex, s.retryCount, MaxRetries, round.fetch.stateQuery);
        if handled.Ok? {
          s := s.(retryCount := handled.value);
        } else {
          s := s.(failure := Some(ResultsUnavailable(handled.error)));
        }
      }
      i := i + 1;
    }
    if i < |rounds| {
      assert !Polling(s);
    } else {
      assert rounds[i..] == [];
    }
  }

  /**
   * A successful fetch resets the retry count and pushes exactly the results after the
   * last index seen, the last of them setting the index and the finished flag.
   */
  lemma SuccessfulFetch(env: LoopEnv, s: PollState, round: PollRound)
    requires !DeadlinePassed(env.startTime, env.timeout, env.executeTimeout, round.now) && round.running && round.fetch.Fetched?
    ensures var t := PollStep(env, s, round);
            var newResults := NextResults(round.fetch.results, s.lastIndex);
            t.retryCount == 0 && t.pushed == s.pushed + newResults && t.failure == s.failure &&
            (|newResults| > 0 ==> t.lastIndex == Some(newResults[|newResults| - 1].index) && t.finished == newResults[|newResults| - 1].isBatchFinished) &&
            (|newResults| == 0 ==> t.lastIndex == s.lastIndex && t.finished == s.finished)
  {
  }

  /** Results already seen are not pushed again when the API repeats them with their positions as indices. */
  lemma RepeatedResultsSkipped(raw: seq<ActivityResult>, last: nat)
    requires last < |raw|
    ensures NextResults(raw, Some(last)) == raw[last + 1..]
  {
  }

  /** Every state the polling loop reaches keeps its retry count below the limit. */
  lemma {:induction false} PollRetriesStayBelowLimit(env: LoopEnv, s: PollState, rounds: seq<PollRound>)
    requires s.retryCount < MaxRetries
    ensures PollRun(env, s, rounds).retryCount < MaxRetries
    decreases |rounds|
  {
    if |rounds| > 0 && Polling(s) {
      var t := PollStep(env, s, rounds[0]);
      assert t.retryCount < MaxRetries;
      PollRetriesStayBelowLimit(env, t, rounds[1..]);
    }
  }

  /** The loop ends as finished only after pushing a result that finished the batch. */
  lemma {:induction false} PollFinishedMeansLastResultFinished(env: LoopEnv, s: PollState, rounds: seq<PollRound>)
    requires s.finished ==> |s.pushed| > 0 && s.pushed[|s.pushed| - 1].isBatchFinished
    ensures var t := PollRun(env, s, rounds);
            t.finished ==> |t.pushed| > 0 && t.pushed[|t.pushed| - 1].isBatchFinished
    decreases |rounds|
  {
    if |rounds| > 0 && Polling(s) {
      var t := PollStep(env, s, rounds[0]);
      PollFinishedMeansLastResultFinished(env, t, rounds[1..]);
    }
  }

  /** A failing read that is neither a timeout nor a termination. */
  predicate PlainFailure(env: LoopEnv, round: PollRound)
  {
    !DeadlinePassed(env.startTime, env.timeout, env.executeTimeout, round.now) && round.running &&
    round.fetch.FetchFailed? && !IsTimeoutError(round.fetch.error) && !IsTerminated(round.fetch.stateQuery)
  }

  /** Five plain failures in a row make the polling loop give up. */
  lemma {:induction false} FiveFailuresGiveUp(env: LoopEnv, s: PollState, rounds: seq<PollRound>)
    requires Polling(s) && s.retryCount < MaxRetries && |rounds| == MaxRetries - s.retryCount
    requires forall k :: 0 <= k < |rounds| ==> PlainFailure(env, rounds[k])
    ensures PollRun(env, s, rounds).failure.Some? && PollRun(env, s, rounds).failure.value.ResultsUnavailable?
    ensures PollRun(env, s, rounds).pushed == s.pushed
    decreases |rounds|
  {
    var t := PollStep(env, s, rounds[0]);
    if s.retryCount + 1 < MaxRetries {
      assert t == s.(retryCount := s.retryCount + 1);
      FiveFailuresGiveUp(env, t, rounds[1..]);
    } else {
      assert t.failure.Some?;
    }
  }

  // ---------------------------------------------------------------------------
  // The streaming loop

  /**
   * One turn of the streaming loop: the time, whether the activity runs, and the results
   * and errors the event source delivered since the previous turn.
   */
  datatype StreamRound = StreamRound(now: real, running: bool, arrived: seq<ActivityResult>, errors: seq<string>)

  datatype StreamOutcome = StreamEnded | StreamFailed(error: ActivityError) | StreamPending

  /** The error a streaming turn stops with: each later check overrides an earlier one. */
  function StreamError(env: LoopEnv, now: real, running: bool, errors: seq<string>): (r: Option<ActivityError>)
    ensures r.None? <==> !DeadlinePassed(env.startTime, env.timeout, env.executeTimeout, now) && running && |errors| == 0
  {
    if |errors| > 0 then Some(StreamErrors(errors))
    else if !running then Some(ActivityInterrupted(env.activityId))
    else if DeadlinePassed(env.startTime, env.timeout, env.executeTimeout, now) then Some(ActivityTimeout(env.activityId))
    else None
  }

  /** All results delivered during the first i rounds, in arrival order. */
  function ArrivedUpTo(rounds: seq<StreamRound>, i: nat): seq<ActivityResult>
    requires i <= |rounds|
  {
    if i == 0 then [] else ArrivedUpTo(rounds, i - 1) + rounds[i - 1].arrived
  }

  lemma {:induction false} ArrivedGrows(rounds: seq<StreamRound>, i: nat, j: nat)
    requires i <= j <= |rounds|
    ensures ArrivedUpTo(rounds, i) <= ArrivedUpTo(rounds, j)
    decreases j - i
  {
    if i < j {
      ArrivedGrows(rounds, i, j - 1);
    }
  }

  /** What the streaming loop keeps between turns. */
  datatype StreamState = StreamState(
    pushed: seq<ActivityResult>,
    queue: seq<ActivityResult>,
    errors: seq<string>,
    finished: bool,
    failure: Option<ActivityError>)

  const StreamStart := StreamState([], [], [], false, None)

  /**
   * One turn: the round's results join the queue and its errors the error list; a turn
   * that sees an error stops the stream with it, otherwise the oldest queued result is
   * pushed and decides whether the batch is finished.
   */
  function StreamStep(env: LoopEnv, s: StreamState, round: StreamRound): StreamState
  {
    var queue := s.queue + round.arrived;
    var errors := s.errors + round.errors;
    var error := StreamError(env, round.now, round.running, errors);
    if error.Some? then s.(queue := queue, errors := errors, failure := error)
    else if |queue| > 0 then s.(pushed := s.pushed + [queue[0]], queue := queue[1..], errors := errors, finished := queue[0].isBatchFinished)
    else s.(queue := queue, errors := errors)
  }

  predicate Streaming(s: StreamState)
  {
    !s.finished && s.failure.None?
  }

  function StreamRun(env: LoopEnv, s: StreamState, rounds: seq<StreamRound>): StreamState
    decreases |rounds|
  {
    if |rounds| == 0 || !Streaming(s) then s else StreamRun(env, StreamStep(env, s, rounds[0]), rounds[1..])
  }

  function OutcomeOf(s: StreamState): StreamOutcome
  {
    if s.failure.Some? then StreamFailed(s.failure.value) else if s.finished then StreamEnded else StreamPending
  }

  /**
   * What every state of the stream keeps: the batch is finished exactly when the last
   * pushed result finishes it, no earlier pushed result does, and a failed stream did
   * not finish.
   */
  predicate PushOrder(s: StreamState)
  {
    (s.finished <==> |s.pushed| > 0 && s.pushed[|s.pushed| - 1].isBatchFinished) &&
    (forall k :: 0 <= k < |s.pushed| - 1 ==> !s.pushed[k].isBatchFinished) &&
    (s.failure.Some? ==> !s.finished)
  }

  /** A turn with an error reported, or one that is stopped or late. */
  predicate FailingRound(env: LoopEnv, round: StreamRound)
  {
    StreamError(env, round.now, round.running, []).Some? || |round.errors| > 0
  }

  lemma {:induction false} ArrivedUpToCons(rounds: seq<StreamRound>, i: nat)
    requires 1 <= i <= |rounds|
    ensures ArrivedUpTo(rounds, i) == rounds[0].arrived + ArrivedUpTo(rounds[1..], i - 1)
  {
    if i > 1 {
      ArrivedUpToCons(rounds, i - 1);
      assert rounds[1..][i - 2] == rounds[i - 1];
    }
  }

  /** The stream keeps its push order through any run of turns and pushes at most one result per turn. */
  lemma {:induction false} StreamRunKeepsOrder(env: LoopEnv, s: StreamState, rounds: seq<StreamRound>)
    requires PushOrder(s)
    ensures PushOrder(StreamRun(env, s, rounds)) && |StreamRun(env, s, rounds).pushed| <= |s.pushed| + |rounds|
    decreases |rounds|
  {
    if |rounds| > 0 && Streaming(s) {
      var t := StreamStep(env, s, rounds[0]);
      assert PushOrder(t);
      StreamRunKeepsOrder(env, t, rounds[1..]);
    }
  }

  /** Only results that arrived are pushed, in arrival order. */
  lemma {:induction false} StreamRunPushesArrived(env: LoopEnv, s: StreamState, rounds: seq<StreamRound>)
    ensures StreamRun(env, s, rounds).pushed <= s.pushed + s.queue + ArrivedUpTo(rounds, |rounds|)
    decreases |rounds|
  {
    if |rounds| == 0 || !Streaming(s) {
      if |rounds| > 0 {
        ArrivedGrows(rounds, 0, |rounds|);
      }
    } else {
      var t := StreamStep(env, s, rounds[0]);
      assert t.pushed + t.queue == s.pushed + s.queue + rounds[0].arrived;
      StreamRunPushesArrived(env, t, rounds[1..]);
      ArrivedUpToCons(rounds, |rounds|);
      assert s.pushed + s.queue + ArrivedUpTo(rounds, |rounds|) == t.pushed + t.queue + ArrivedUpTo(rounds[1..], |rounds| - 1);
    }
  }

  /** A stream fails only after an error was reported or a turn was stopped or late. */
  lemma {:induction false} StreamRunFailsForAReason(env: LoopEnv, s: StreamState, rounds: seq<StreamRound>)
    requires s.failure.None? && StreamRun(env, s, rounds).failure.Some?
    ensures |s.errors| > 0 || exists k :: 0 <= k < |rounds| && FailingRound(env, rounds[k])
    decreases |rounds|
  {
    if |s.errors| == 0 {
      var round, rest := rounds[0], rounds[1..];
      var t := StreamStep(env, s, round);
      var errors := s.errors + round.errors;
      if |errors| == 0 {
        assert errors == [];
      }
      if t.failure.Some? {
        assert FailingRound(env, rounds[0]);
      } else {
        StreamRunFailsForAReason(env, t, rest);
        var k :| 0 <= k < |rest| && FailingRound(env, rest[k]);
        assert rounds[k + 1] == rest[k];
      }
    }
  }

  /**
   * What the stream promises from a fresh state (`StreamStart`, or any state with nothing
   * pushed, queued or reported yet): the properties `StreamingBatch` states.
   */
  lemma StreamFromStart(env: LoopEnv, s: StreamState, rounds: seq<StreamRound>)
    requires s.pushed == [] && s.queue == [] && s.errors == [] && !s.finished && s.failure.None?
    ensures var t := StreamRun(env, s, rounds);
            t.pushed <= ArrivedUpTo(rounds, |rounds|) && |t.pushed| <= |rounds| &&
            (OutcomeOf(t) == StreamEnded <==> |t.pushed| > 0 && t.pushed[|t.pushed| - 1].isBatchFinished) &&
            (forall k :: 0 <= k < |t.pushed| - 1 ==> !t.pushed[k].isBatchFinished) &&
            (OutcomeOf(t).StreamFailed? ==> exists k :: 0 <= k < |rounds| && FailingRound(env, rounds[k]))
  {
    var t := StreamRun(env, s, rounds);
    StreamRunKeepsOrder(env, s, rounds);
    StreamRunPushesArrived(env, s, rounds);
    assert s.pushed + s.queue + ArrivedUpTo(rounds, |rounds|) == ArrivedUpTo(rounds, |rounds|);
    PushOrderOutcome(t);
    if t.failure.Some? {
      StreamRunFailsForAReason(env, s, rounds);
    }
  }

  /** In a state that keeps its push order, the stream has ended exactly when the last pushed result finished the batch. */
  lemma PushOrderOutcome(t: StreamState)
    requires PushOrder(t)
    ensures OutcomeOf(t) == StreamEnded <==> |t.pushed| > 0 && t.pushed[|t.pushed| - 1].isBatchFinished
    ensures forall k :: 0 <= k < |t.pushed| - 1 ==> !t.pushed[k].isBatchFinished
    ensures OutcomeOf(t).StreamFailed? <==> t.failure.Some?
  {
  }

  lemma StreamRunStep(env: LoopEnv, s: StreamState, rounds: seq<StreamRound>, i: nat)
    requires i < |rounds| && Streaming(s)
    ensures StreamRun(env, s, rounds[i..]) == StreamRun(env, StreamStep(env, s, rounds[i]), rounds[i + 1..])
  {
    assert rounds[i..][0] == rounds[i] && rounds[i..][1..] == rounds[i + 1..];
  }

  /**
   * `streamingBatch`'s read loop: results queue up as they arrive and each turn emits at
   * most one of them, the oldest; the loop stops on the first error or when a result
   * finishes the batch.
   */
  method StreamingBatch(env: LoopEnv, rounds: seq<StreamRound>) returns (pushed: seq<ActivityResult>, outcome: StreamOutcome)
    ensures pushed == StreamRun(env, StreamStart, rounds).pushed
    ensures outcome == OutcomeOf(StreamRun(env, StreamStart, rounds))
    ensures pushed <= ArrivedUpTo(rounds, |rounds|)
    ensures |pushed| <= |rounds|
    ensures outcome == StreamEnded <==> |pushed| > 0 && pushed[|pushed| - 1].isBatchFinished
    ensures forall k :: 0 <= k < |pushed| - 1 ==> !pushed[k].isBatchFinished
    ensures outcome.StreamFailed? ==> exists k :: 0 <= k < |rounds| && FailingRound(env, rounds[k])
  {
    pushed := [];
    var queue: seq<ActivityResult> := [];
    var errors: seq<string> := [];
    var finished := false;
    var i := 0;
    while i < |rounds| && !finished
      invariant 0 <= i <= |rounds|
      invariant StreamRun(env, StreamState(pushed, queue, errors, finished, None), rounds[i..]) == StreamRun(env, StreamStart, rounds)
      decreases |rounds| - i
    {
      ghost var before := StreamState(pushed, queue, errors, finished, None);
      var round := rounds[i];
      StreamRunStep(env, before, rounds, i);
      queue := queue + round.arrived;
      errors := errors + round.errors;
      var error := StreamError(env, round.now, round.running, errors);
      if error.Some? {
        assert StreamStep(env, before, round) == StreamState(pushed, queue, errors, finished, error);
        StreamFromStart(env, StreamStart, rounds);
        return pushed, StreamFailed(error.value);
      }
      if |queue| > 0 {
        var result := queue[0];
        queue := queue[1..];
        pushed := pushed + [result];
        finished := result.isBatchFinished;
      }
      assert StreamStep(env, before, round) == StreamState(pushed, queue, errors, finished, None);
      i := i + 1;
    }
    if i == |rounds| {
      assert rounds[i..] == [];
    }
    outcome := if finished then StreamEnded else StreamPending;
    StreamFromStart(env, StreamStart, rounds);
  }

  /** A turn that is on time, running, and delivers nothing and no error. */
  predicate QuietRound(env: LoopEnv, round: StreamRound)
  {
    !DeadlinePassed(env.startTime, env.timeout, env.executeTimeout, round.now) && round.running &&
    round.arrived == [] && round.errors == []
  }

  /**
   * Progress: with no error seen, as many quiet turns as there are queued results push
   * all of them, in the order they arrived.
   */
  lemma {:induction false} QuietRoundsDrainQueue(env: LoopEnv, s: StreamState, rounds: seq<StreamRound>)
    requires Streaming(s) && s.errors == []
    requires |s.queue| <= |rounds|
    requires forall k :: 0 <= k < |rounds| ==> QuietRound(env, rounds[k])
    requires forall k :: 0 <= k < |s.queue| - 1 ==> !s.queue[k].isBatchFinished
    ensures StreamRun(env, s, rounds).pushed == s.pushed + s.queue
    decreases |rounds|
  {
    if |rounds| == 0 {
      assert s.queue == [];
    } else {
      var t := StreamStep(env, s, rounds[0]);
      assert rounds[0].arrived == [] && rounds[0].errors == [];
      assert s.queue + rounds[0].arrived == s.queue && s.errors + rounds[0].errors == [];
      if |s.queue| == 0 {
        assert t == s;
        QuietRoundsDrainQueue(env, t, rounds[1..]);
      } else {
        assert t.pushed == s.pushed + [s.queue[0]] && t.queue == s.queue[1..];
        assert s.pushed + [s.queue[0]] + s.queue[1..] == s.pushed + s.queue;
        if Streaming(t) {
          QuietRoundsDrainQueue(env, t, rounds[1..]);
        } else {
          assert |s.queue| == 1;
        }
      }
    }
  }

  /** The first turn that sees an error ends the stream with it; errors are reported before any interruption or timeout. */
  lemma FirstErrorEndsStream(env: LoopEnv, s: StreamState, round: StreamRound, rest: seq<StreamRound>)
    requires Streaming(s) && |s.errors + round.errors| > 0
    ensures var t := StreamRun(env, s, [round] + rest);
            t.failure == Some(StreamErrors(s.errors + round.errors)) && t.pushed == s.pushed
  {
    assert ([round] + rest)[0] == round && ([round] + rest)[1..] == rest;
    var t := StreamStep(env, s, round);
    assert !Streaming(t);
    if |rest| > 0 {
      assert StreamRun(env, t, rest) == t;
    }
  }

  /**
   * Both read loops end with an error in a turn where the deadline has passed or the
   * activity no longer runs, and push nothing in that turn.
   */
  lemma StoppedOrLateEndsBothLoops(env: LoopEnv, s: PollState, now: real, running: bool, fetch: Fetch, errors: seq<string>)
    requires DeadlinePassed(env.startTime, env.timeout, env.executeTimeout, now) || !running
    ensures var t := PollStep(env, s, PollRound(now, running, fetch));
            t.failure.Some? && t.pushed == s.pushed && t.retryCount == s.retryCount
    ensures StreamError(env, now, running, errors).Some?
  {
  }

  // ---------------------------------------------------------------------------
  // The activity object

  class Activity {
    const id: string
    var isRunning: bool
    /** None once the API reported a state name that is not a state. */
    var currentState: Option<ActivityState>
    /** The states announced by ActivityStateChanged events, oldest first. */
    var stateChanges: seq<Option<ActivityState>>
    /** Whether ActivityDestroyed was dispatched. */
    var destroyed: bool

    constructor (id: string)
      ensures this.id == id && isRunning && currentState == Some(New) && stateChanges == [] && !destroyed
    {
      this.id := id;
      isRunning := true;
      currentState := Some(New);
      stateChanges := [];
      destroyed := false;
    }

    /**
     * `stop`: the activity stops running first, then is destroyed through the API
     * (`destroy` is that call's outcome); a failed destroy is reported as an error.
     */
    method Stop(destroy: Outcome<string>) returns (r: Result<bool, ActivityError>)
      modifies this
      ensures !isRunning
      ensures destroy.Pass? ==> r == Ok(true) && destroyed
      ensures destroy.Fail? ==> r == Err(DestroyFailed(id, destroy.error)) && destroyed == old(destroyed)
      ensures currentState == old(currentState) && stateChanges == old(stateChanges)
    {
      isRunning := false;
      if destroy.Fail? {
        return Err(DestroyFailed(id, destroy.error));
      }
      destroyed := true;
      r := Ok(true);
    }

    /**
     * `getState`: `query` is the state list the API answered (or its failure, passed on).
     * The state is the first name's; a change event fires only when it differs.
     */
    method GetState(query: Result<seq<string>, string>) returns (r: Result<Option<ActivityState>, string>)
      modifies this
      ensures query.Err? ==> r == Err(query.error) && currentState == old(currentState) && stateChanges == old(stateChanges)
      ensures query.Ok? ==>
                var s := if |query.value| > 0 then StateNamed(query.value[0]) else None;
                r == Ok(s) && currentState == s &&
                stateChanges == (if s == old(currentState) then old(stateChanges) else old(stateChanges) + [s])
      ensures isRunning == old(isRunning) && destroyed == old(destroyed)
    {
      if query.Err? {
        return Err(query.error);
      }
      var s := if |query.value| > 0 then StateNamed(query.value[0]) else None;
      if currentState != s {
        stateChanges := stateChanges + [s];
        currentState := s;
      }
      r := Ok(s);
    }
  }

  /** Asking twice and hearing the same state announces it at most once. */
  method GetStateTwice(activity: Activity, query: Result<seq<string>, string>) returns (first: Result<Option<ActivityState>, string>, second: Result<Option<ActivityState>, string>)
    modifies activity
    ensures first == second
    ensures |activity.stateChanges| <= |old(activity.stateChanges)| + 1
  {
    first := activity.GetState(query);
    second := activity.GetState(query);
  }

  /** After `stop`, the next turn of either read loop ends it with an error. */
  method StopEndsPolling(activity: Activity, env: LoopEnv, destroy: Outcome<string>, now: real, fetch: Fetch)
    returns (stopped: Result<bool, ActivityError>, s: PollState)
    modifies activity
    ensures !activity.isRunning
    ensures s.failure.Some? && s.pushed == []
  {
    stopped := activity.Stop(destroy);
    s := PollingBatch(env, [PollRound(now, activity.isRunning, fetch)]);
  }
}
