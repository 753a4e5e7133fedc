/**
 * Batch (src/task/batch.ts): a builder collecting exe-script commands, and the two ways
 * of running them, `end` (collect every result) and `endStream` (pass results on until
 * the first failing one).
 *
 * The Script object's `before` and `after` hooks and the activity's `execute` are calls
 * into code that is not part of this model: their outcomes are parameters, and the batch
 * records the result lists handed to `after`.
 */
module Batches {
  import opened Wrappers
  import opened Strings
  import Activities

  type CommandResult = Activities.ActivityResult

  datatype Command =
    | Run(executable: string, args: seq<string>)
    | Transfer(from: string, to: string)
    | UploadFile(src: string, dst: string)
    | UploadData(data: seq<bv8>, dst: string)
    | DownloadFile(src: string, dst: string)

  /** What the results stream of `execute` delivers, in order. */
  datatype StreamEvent = Data(result: CommandResult) | End | Failure(error: string)

  datatype EndOutcome = Resolved(results: seq<CommandResult>) | Rejected(error: string) | Pending

  predicate Terminal(e: StreamEvent)
  {
    !e.Data?
  }

  /** The results that arrive before the stream ends or fails, in arrival order. */
  function Collected(events: seq<StreamEvent>): seq<CommandResult>
  {
    if |events| == 0 || Terminal(events[0]) then [] else [events[0].result] + Collected(events[1..])
  }

  /** The position of the event that settles `end`, or |events| when none does. */
  function FirstTerminal(events: seq<StreamEvent>): (n: nat)
    ensures n <= |events|
    ensures n < |events| ==> Terminal(events[n])
    ensures forall k :: 0 <= k < n ==> events[k].Data?
  {
    if |events| == 0 then 0
    else if Terminal(events[0]) then 0
    else 1 + FirstTerminal(events[1..])
  }

  function AsData(results: seq<CommandResult>): (events: seq<StreamEvent>)
    ensures |events| == |results|
    ensures forall k :: 0 <= k < |events| ==> events[k] == Data(results[k])
  {
    if |results| == 0 then [] else [Data(results[0])] + AsData(results[1..])
  }

  /**
   * `end` hands `after` exactly the results that arrived before the stream settled, in
   * the order they arrived; what comes after the settling event is not collected.
   */
  lemma {:induction false} CollectedInArrivalOrder(results: seq<CommandResult>, last: StreamEvent, rest: seq<StreamEvent>)
    requires Terminal(last)
    ensures Collected(AsData(results) + [last] + rest) == results
    ensures FirstTerminal(AsData(results) + [last] + rest) == |results|
  {
    var events := AsData(results) + [last] + rest;
    if |results| == 0 {
      assert events[0] == last;
    } else {
      assert events[0] == Data(results[0]);
      assert events[1..] == AsData(results[1..]) + [last] + rest;
      CollectedInArrivalOrder(results[1..], last, rest);
    }
  }

  /** How the stream's event text for a failing result reads: message, then trimmed stdout and stderr. */
  function Shown(s: Option<string>): string
  {
    if s.Some? then s.value else "undefined"
  }

  function TrimmedShown(s: Option<string>): string
  {
    if s.Some? then Trim(s.value) else "undefined"
  }

  function ChunkErrorMessage(chunk: CommandResult): string
  {
    Shown(chunk.message) + ". Stdout: " + TrimmedShown(chunk.stdout) + ". Stderr: " + TrimmedShown(chunk.stderr)
  }

  predicate IsErrorChunk(chunk: CommandResult)
  {
    chunk.result == Activities.ResultError
  }

  /** The chunks `endStream` passes on: those before the first chunk whose result is an error. */
  function PassThrough(chunks: seq<CommandResult>): (passed: seq<CommandResult>)
    ensures passed <= chunks
    ensures forall k :: 0 <= k < |passed| ==> !IsErrorChunk(passed[k])
    ensures |passed| < |chunks| ==> IsErrorChunk(chunks[|passed|])
  {
    if |chunks| == 0 || IsErrorChunk(chunks[0]) then [] else [chunks[0]] + PassThrough(chunks[1..])
  }

  /** The chunks passed on, and the error the returned stream ends with, if any. */
  datatype EndStreamOutcome = Streamed(passed: seq<CommandResult>, failure: Option<string>)

  /**
   * The transform of `endStream`: chunks are passed on one by one until the first error
   * chunk, whose message destroys the stream.
   */
  method PassChunks(chunks: seq<CommandResult>) returns (decoded: seq<CommandResult>, failure: Option<string>)
    ensures decoded == PassThrough(chunks)
    ensures |decoded| == |chunks| ==> failure.None?
    ensures |decoded| < |chunks| ==> failure == Some(ChunkErrorMessage(chunks[|decoded|]))
  {
    decoded := [];
    failure := None;
    var i := 0;
    while i < |chunks| && failure.None?
      invariant 0 <= i <= |chunks|
      invariant failure.None? ==> decoded + PassThrough(chunks[i..]) == PassThrough(chunks) && |decoded| == i
      invariant failure.Some? ==> decoded == PassThrough(chunks) && i == |decoded| + 1 &&
                                  failure == Some(ChunkErrorMessage(chunks[|decoded|]))
      decreases |chunks| - i
    {
      var chunk := chunks[i];
      assert chunks[i..][0] == chunk && chunks[i..][1..] == chunks[i + 1..];
      if IsErrorChunk(chunk) {
        failure := Some(ChunkErrorMessage(chunk));
      } else {
        decoded := decoded + [chunk];
      }
      i := i + 1;
    }
    if failure.None? {
      assert chunks[i..] == [];
    }
  }

  class Batch {
    var script: seq<Command>
    /** The result lists handed to the script's `after`, in call order. */
    var afterCalls: seq<seq<CommandResult>>

    constructor ()
      ensures script == [] && afterCalls == []
    {
      script := [];
      afterCalls := [];
    }

    /** `run`: with arguments the executable runs as given, otherwise the line runs in /bin/sh. */
    method Run(executableOrCommand: string, executableArgs: Option<seq<string>>) returns (b: Batch)
      modifies this
      ensures b == this
      ensures executableArgs.Some? ==> script == old(script) + [Command.Run(executableOrCommand, executableArgs.value)]
      ensures executableArgs.None? ==> script == old(script) + [Command.Run("/bin/sh", ["-c", executableOrCommand])]
      ensures afterCalls == old(afterCalls)
    {
      if executableArgs.Some? {
        script := script + [Command.Run(executableOrCommand, executableArgs.value)];
      } else {
        script := script + [Command.Run("/bin/sh", ["-c", executableOrCommand])];
      }
      b := this;
    }

    method Transfer(from: string, to: string) returns (b: Batch)
      modifies this
      ensures b == this && script == old(script) + [Command.Transfer(from, to)] && afterCalls == old(afterCalls)
    {
      script := script + [Command.Transfer(from, to)];
      b := this;
    }

    method UploadFile(src: string, dst: string) returns (b: Batch)
      modifies this
      ensures b == this && script == old(script) + [Command.UploadFile(src, dst)] && afterCalls == old(afterCalls)
    {
      script := script + [Command.UploadFile(src, dst)];
      b := this;
    }

    /** `uploadJson`: `encoded` is the UTF-8 text of the JSON serialisation, uploaded as data. */
    method UploadJson(encoded: seq<bv8>, dst: string) returns (b: Batch)
      modifies this
      ensures b == this && script == old(script) + [Command.UploadData(encoded, dst)] && afterCalls == old(afterCalls)
    {
      script := script + [Command.UploadData(encoded, dst)];
      b := this;
    }

    method UploadData(data: seq<bv8>, dst: string) returns (b: Batch)
      modifies this
      ensures b == this && script == old(script) + [Command.UploadData(data, dst)] && afterCalls == old(afterCalls)
    {
      script := script + [Command.UploadData(data, dst)];
      b := this;
    }

    method DownloadFile(src: string, dst: string) returns (b: Batch)
      modifies this
      ensures b == this && script == old(script) + [Command.DownloadFile(src, dst)] && afterCalls == old(afterCalls)
    {
      script := script + [Command.DownloadFile(src, dst)];
      b := this;
    }

    /**
     * `end`: `before` is the script's preparation, `send` the outcome of sending the
     * script, `events` what the results stream delivers and `after` the outcome of the
     * script's `after` hook, `afterEmpty` the outcome of the `after([])` a failed send
     * awaits: the send error is rethrown only when that call succeeds, and a failure of
     * `after([])` rejects in its place. A stream error rejects with that error whatever
     * `after` does.
     */
    method End(before: Outcome<string>, send: Outcome<string>, afterEmpty: Outcome<string>, events: seq<StreamEvent>, after: Result<seq<CommandResult>, string>)
      returns (r: EndOutcome)
      modifies this
      ensures script == old(script)
      ensures before.Fail? ==> r == Rejected(before.error) && afterCalls == old(afterCalls)
      ensures before.Pass? && send.Fail? ==>
                r == Rejected(if afterEmpty.Fail? then afterEmpty.error else send.error) && afterCalls == old(afterCalls) + [[]]
      ensures before.Pass? && send.Pass? ==>
                var n := FirstTerminal(events);
                (n == |events| ==> r == Pending && afterCalls == old(afterCalls)) &&
                (n < |events| ==> afterCalls == old(afterCalls) + [Collected(events)]) &&
                (n < |events| && events[n].End? ==> r == (if after.Ok? then Resolved(after.value) else Rejected(after.error))) &&
                (n < |events| && events[n].Failure? ==> r == Rejected(events[n].error))
    {
      if before.Fail? {
        return Rejected(before.error);
      }
      if send.Fail? {
        afterCalls := afterCalls + [[]];
        if afterEmpty.Fail? {
          return Rejected(afterEmpty.error);
        }
        return Rejected(send.error);
      }
      var allResults: seq<CommandResult> := [];
      var i := 0;
      while i < |events| && events[i].Data?
        invariant 0 <= i <= |events|
        invariant i <= FirstTerminal(events)
        invariant allResults + Collected(events[i..]) == Collected(events)
        invariant FirstTerminal(events[i..]) + i == FirstTerminal(events)
        decreases |events| - i
      {
        assert events[i..][1..] == events[i + 1..];
        allResults := allResults + [events[i].result];
        i := i + 1;
      }
      if i == |events| {
        return Pending;
      }
      assert FirstTerminal(events[i..]) == 0;
      assert allResults == Collected(events);
      afterCalls := afterCalls + [allResults];
      match events[i]
      case End =>
        r := if after.Ok? then Resolved(after.value) else Rejected(after.error);
      case Failure(error) =>
        r := Rejected(error);
    }

    /**
     * `endStream`: `chunks` are the results the activity streams, and `upstream` the error
     * the activity's stream fails with after them, if it does. Chunks pass on until the
     * first one whose result is an error, which destroys the stream with its message; the
     * transform hands `after` the chunks passed so far, and the pipeline's completion
     * hands them over again. When every chunk passes, the pipeline's completion hands
     * them to `after` once and the stream ends with the upstream error, if any. A failed
     * send awaits `after([])` (`afterEmpty`) as `end` does.
     */
    method EndStream(before: Outcome<string>, send: Outcome<string>, afterEmpty: Outcome<string>,
                     chunks: seq<CommandResult>, upstream: Option<string>)
      returns (r: Result<EndStreamOutcome, string>)
      modifies this
      ensures script == old(script)
      ensures before.Fail? ==> r == Err(before.error) && afterCalls == old(afterCalls)
      ensures before.Pass? && send.Fail? ==>
                r == Err(if afterEmpty.Fail? then afterEmpty.error else send.error) && afterCalls == old(afterCalls) + [[]]
      ensures before.Pass? && send.Pass? ==>
                var passed := PassThrough(chunks);
                r.Ok? && r.value.Streamed? && r.value.passed == passed &&
                (|passed| == |chunks| ==> r.value.failure == upstream && afterCalls == old(afterCalls) + [passed]) &&
                (|passed| < |chunks| ==>
                   r.value.failure == Some(ChunkErrorMessage(chunks[|passed|])) &&
                   afterCalls == old(afterCalls) + [passed, passed])
    {
      if before.Fail? {
        return Err(before.error);
      }
      if send.Fail? {
        afterCalls := afterCalls + [[]];
        if afterEmpty.Fail? {
          return Err(afterEmpty.error);
        }
        return Err(send.error);
      }
      var decoded, failure := PassChunks(chunks);
      if failure.Some? {
        afterCalls := afterCalls + [decoded];
      } else {
        failure := upstream;
      }
      afterCalls := afterCalls + [decoded];
      r := Ok(Streamed(decoded, failure));
    }
  }

  /** Building a batch appends one command per call, in call order, to the same batch. */
  method BuildInOrder(cmd: string, exe: string, args: seq<string>, from: string, to: string) returns (b: Batch)
    ensures fresh(b)
    ensures b.script == [Command.Run("/bin/sh", ["-c", cmd]), Command.Run(exe, args), Command.Transfer(from, to)]
  {
    b := new Batch();
    var b1 := b.Run(cmd, None);
    var b2 := b1.Run(exe, Some(args));
    var b3 := b2.Transfer(from, to);
    assert b3 == b;
  }
}
