/**
  The task runner: a `Task` holds its command lines, job and owner; `Execute`
  writes the command file and records its path; `Finish` is the background run
  after the subprocess has ended: it forwards the captured standard output as
  log messages and then reports the outcome on the exit-code and error
  channels, closing them, and removes the command file only on success.

  The three channels are fields holding what has been sent on them and whether
  they are closed; every send, close and removal is also appended, in order,
  to `trace`, and `Valid()` ties the channel fields to projections of it.
 */
module Runner {
  import opened CommandFile

  datatype Option<T> = None | Some(value: T)

  /** The error value sent on the error channel after a failed run. */
  datatype Error = RunError(reason: string)

  /**
    How the subprocess ended, as the runner library reports it: no error, or
    an error (a start failure or a non-zero exit, with its standard error).
   */
  datatype RunResult = Succeeded | Failed(reason: string)

  /** One chunk of the subprocess's standard output and the time it was captured. */
  datatype Chunk = Chunk(text: string, timestamp: int)

  /** One captured chunk of output, attributed to the task's job and owner. */
  datatype LogMessage = LogMessage(message: string, timestamp: int, job: string, owner: string)

  /** One observable step of a run, in the order it happens. */
  datatype Effect =
    | SendLog(msg: LogMessage)
    | CloseLog
    | SendErr(err: Option<Error>)
    | CloseErr
    | SendExit(code: int)
    | Remove(path: string)

  /** Where a task is in its life: built, running in the background, or finished. */
  datatype Phase = Created | Running | Finished

  /** The exit classification reported for a run result: 0 on success, 1 on failure. */
  function ExitCode(result: RunResult): (code: int)
    ensures code == 0 || code == 1
    ensures code == 0 <==> result.Succeeded?
  {
    match result
    case Succeeded => 0
    case Failed(_) => 1
  }

  /** The error value reported for a run result: none on success, the failure otherwise. */
  function ErrorValue(result: RunResult): (err: Option<Error>)
    ensures err.None? <==> result.Succeeded?
    ensures result.Failed? ==> err.value.reason == result.reason
  {
    match result
    case Succeeded => None
    case Failed(reason) => Some(RunError(reason))
  }

  /** The log message for one output chunk of a task with this job and owner. */
  function Message(chunk: Chunk, job: string, owner: string): LogMessage
  {
    LogMessage(chunk.text, chunk.timestamp, job, owner)
  }

  /** The log messages for a run's output, one per chunk, in capture order. */
  function Messages(output: seq<Chunk>, job: string, owner: string): seq<LogMessage>
  {
    seq(|output|, k requires 0 <= k < |output| => Message(output[k], job, owner))
  }

  /** The sends of a run's output on the log channel. */
  function LogSends(output: seq<Chunk>, job: string, owner: string): seq<Effect>
  {
    seq(|output|, k requires 0 <= k < |output| => SendLog(Message(output[k], job, owner)))
  }

  /**
    The ordered steps that end a run. On failure: exit code 1, close the log
    channel, send the error, close the error channel, keep the command file.
    On success: exit code 0, send no error, close both channels, then remove
    the command file at `path`.
   */
  function Completion(result: RunResult, path: string): seq<Effect>
  {
    match result
    case Failed(reason) => [SendExit(1), CloseLog, SendErr(Some(RunError(reason))), CloseErr]
    case Succeeded => [SendExit(0), SendErr(None), CloseLog, CloseErr, Remove(path)]
  }

  /** Everything the background run does, from the first output chunk to the end. */
  function Background(result: RunResult, output: seq<Chunk>, job: string, owner: string, path: string): seq<Effect>
  {
    LogSends(output, job, owner) + Completion(result, path)
  }

  // Projections of a trace onto each channel: what a consumer of it receives.

  function LogsOf(t: seq<Effect>): seq<LogMessage>
  {
    if t == [] then []
    else (if t[0].SendLog? then [t[0].msg] else []) + LogsOf(t[1..])
  }

  function ErrorsOf(t: seq<Effect>): seq<Option<Error>>
  {
    if t == [] then []
    else (if t[0].SendErr? then [t[0].err] else []) + ErrorsOf(t[1..])
  }

  function ExitCodesOf(t: seq<Effect>): seq<int>
  {
    if t == [] then []
    else (if t[0].SendExit? then [t[0].code] else []) + ExitCodesOf(t[1..])
  }

  function RemovalsOf(t: seq<Effect>): seq<string>
  {
    if t == [] then []
    else (if t[0].Remove? then [t[0].path] else []) + RemovalsOf(t[1..])
  }

  /** The projections distribute over concatenation of traces. */
  lemma {:induction false} ProjectionsAppend(a: seq<Effect>, b: seq<Effect>)
    ensures LogsOf(a + b) == LogsOf(a) + LogsOf(b)
    ensures ErrorsOf(a + b) == ErrorsOf(a) + ErrorsOf(b)
    ensures ExitCodesOf(a + b) == ExitCodesOf(a) + ExitCodesOf(b)
    ensures RemovalsOf(a + b) == RemovalsOf(a) + RemovalsOf(b)
    decreases |a|
  {
    if a != [] {
      assert (a + b)[1..] == a[1..] + b;
      ProjectionsAppend(a[1..], b);
    } else {
      assert a + b == b;
    }
  }

  /** Forwarding output sends exactly its messages on the log channel and nothing else. */
  lemma {:induction false} LogSendsProjections(output: seq<Chunk>, job: string, owner: string)
    ensures LogsOf(LogSends(output, job, owner)) == Messages(output, job, owner)
    ensures ErrorsOf(LogSends(output, job, owner)) == []
    ensures ExitCodesOf(LogSends(output, job, owner)) == []
    ensures RemovalsOf(LogSends(output, job, owner)) == []
    decreases |output|
  {
    if output != [] {
      LogSendsProjections(output[1..], job, owner);
      assert LogSends(output, job, owner)[1..] == LogSends(output[1..], job, owner);
      assert Messages(output, job, owner) == [Message(output[0], job, owner)] + Messages(output[1..], job, owner);
    }
  }

  /** After the log channel is closed nothing is sent on it and it is not closed again. */
  ghost predicate LogClosedLast(t: seq<Effect>)
  {
    forall i, j :: 0 <= i < j < |t| && t[i] == CloseLog ==> !t[j].SendLog? && t[j] != CloseLog
  }

  /** After the error channel is closed nothing is sent on it and it is not closed again. */
  ghost predicate ErrClosedLast(t: seq<Effect>)
  {
    forall i, j :: 0 <= i < j < |t| && t[i] == CloseErr ==> !t[j].SendErr? && t[j] != CloseErr
  }

  /**
    The command file is removed only once both channels are closed and the
    nil error of a successful run has been sent.
   */
  ghost predicate RemovedAfterSuccess(t: seq<Effect>)
  {
    forall i :: 0 <= i < |t| && t[i].Remove? ==>
      CloseLog in t[..i] && CloseErr in t[..i] && ErrorsOf(t[..i]) == [None]
  }

  /**
    The channel discipline of one run: exactly one exit code and exactly one
    error value are sent, both the log and the error channel are closed and
    stay closed, and the command file is removed only after success is reported.
   */
  ghost predicate Disciplined(t: seq<Effect>)
  {
    && |ExitCodesOf(t)| == 1
    && |ErrorsOf(t)| == 1
    && CloseLog in t && CloseErr in t
    && LogClosedLast(t)
    && ErrClosedLast(t)
    && RemovedAfterSuccess(t)
  }

  /** Nothing but log sends happens before the completion steps. */
  lemma CompletionTail(result: RunResult, output: seq<Chunk>, job: string, owner: string, path: string, i: int)
    requires 0 <= i < |Background(result, output, job, owner, path)|
    requires !Background(result, output, job, owner, path)[i].SendLog?
    ensures i >= |output|
    ensures Background(result, output, job, owner, path)[i] == Completion(result, path)[i - |output|]
  {
  }

  /** Sends and closes of `[a, b, c, d]` are those of its elements, in order. */
  lemma ProjectionsOfFour(a: Effect, b: Effect, c: Effect, d: Effect)
    ensures var t := [a, b, c, d];
      && LogsOf(t) == LogsOf([a]) + LogsOf([b]) + LogsOf([c]) + LogsOf([d])
      && ErrorsOf(t) == ErrorsOf([a]) + ErrorsOf([b]) + ErrorsOf([c]) + ErrorsOf([d])
      && ExitCodesOf(t) == ExitCodesOf([a]) + ExitCodesOf([b]) + ExitCodesOf([c]) + ExitCodesOf([d])
      && RemovalsOf(t) == RemovalsOf([a]) + RemovalsOf([b]) + RemovalsOf([c]) + RemovalsOf([d])
  {
    assert [a, b, c, d] == [a] + [b] + [c] + [d];
    ProjectionsAppend([a], [b]);
    ProjectionsAppend([a] + [b], [c]);
    ProjectionsAppend([a] + [b] + [c], [d]);
  }

  /**
    The completion steps send exactly one exit code and one error value, and
    nothing on the log channel; they remove the command file only on success.
   */
  lemma CompletionChannels(result: RunResult, path: string)
    ensures var c := Completion(result, path);
      && LogsOf(c) == []
      && ExitCodesOf(c) == [ExitCode(result)]
      && ErrorsOf(c) == [ErrorValue(result)]
      && RemovalsOf(c) == (if result.Succeeded? then [path] else [])
  {
    match result {
      case Failed(reason) =>
        ProjectionsOfFour(SendExit(1), CloseLog, SendErr(Some(RunError(reason))), CloseErr);
      case Succeeded =>
        var c := Completion(result, path);
        ProjectionsOfFour(SendExit(0), SendErr(None), CloseLog, CloseErr);
        assert c[..4] == [SendExit(0), SendErr(None), CloseLog, CloseErr];
        assert c == c[..4] + [Remove(path)];
        ProjectionsAppend(c[..4], [Remove(path)]);
    }
  }

  /**
    What a consumer of each channel receives from a run: the output as log
    messages, exactly one exit code (0 on success, 1 on failure) and exactly
    one error value (nil exactly on success); the command file at `path` is
    removed exactly on success.
   */
  lemma BackgroundChannels(result: RunResult, output: seq<Chunk>, job: string, owner: string, path: string)
    ensures var t := Background(result, output, job, owner, path);
      && LogsOf(t) == Messages(output, job, owner)
      && ExitCodesOf(t) == [ExitCode(result)]
      && ErrorsOf(t) == [ErrorValue(result)]
      && RemovalsOf(t) == (if result.Succeeded? then [path] else [])
  {
    ProjectionsAppend(LogSends(output, job, owner), Completion(result, path));
    LogSendsProjections(output, job, owner);
    CompletionChannels(result, path);
  }

  /** In a run, the log channel is closed once and nothing is sent on it afterwards. */
  lemma BackgroundLogClosedLast(result: RunResult, output: seq<Chunk>, job: string, owner: string, path: string)
    ensures var t := Background(result, output, job, owner, path);
      CloseLog in t && LogClosedLast(t)
  {
    var t := Background(result, output, job, owner, path);
    assert t[|output| + if result.Succeeded? then 2 else 1] == CloseLog;
    forall i, j | 0 <= i < j < |t| && t[i] == CloseLog
      ensures !t[j].SendLog? && t[j] != CloseLog
    {
      CompletionTail(result, output, job, owner, path, i);
      CompletionTail(result, output, job, owner, path, j);
    }
  }

  /** In a run, the error channel is closed once and nothing is sent on it afterwards. */
  lemma BackgroundErrClosedLast(result: RunResult, output: seq<Chunk>, job: string, owner: string, path: string)
    ensures var t := Background(result, output, job, owner, path);
      CloseErr in t && ErrClosedLast(t)
  {
    var t := Background(result, output, job, owner, path);
    assert t[|output| + 3] == CloseErr;
    forall i, j | 0 <= i < j < |t| && t[i] == CloseErr
      ensures !t[j].SendErr? && t[j] != CloseErr
    {
      CompletionTail(result, output, job, owner, path, i);
      CompletionTail(result, output, job, owner, path, j);
    }
  }

  /** In a run, the command file is removed only after success has been reported. */
  lemma BackgroundRemovedAfterSuccess(result: RunResult, output: seq<Chunk>, job: string, owner: string, path: string)
    ensures RemovedAfterSuccess(Background(result, output, job, owner, path))
  {
    var sends, tail := LogSends(output, job, owner), Completion(result, path);
    var t := sends + tail;
    var n := |output|;
    forall i | 0 <= i < |t| && t[i].Remove?
      ensures CloseLog in t[..i] && CloseErr in t[..i] && ErrorsOf(t[..i]) == [None]
    {
      CompletionTail(result, output, job, owner, path, i);
      assert result.Succeeded? && i == n + 4;
      assert tail[..4] == [SendExit(0), SendErr(None), CloseLog, CloseErr];
      assert t[..i] == sends + tail[..4];
      ProjectionsAppend(sends, tail[..4]);
      LogSendsProjections(output, job, owner);
      ProjectionsOfFour(SendExit(0), SendErr(None), CloseLog, CloseErr);
      assert t[..i][n + 2] == CloseLog && t[..i][n + 3] == CloseErr;
    }
  }

  /** Every run, successful or not, keeps the channel discipline. */
  lemma BackgroundDisciplined(result: RunResult, output: seq<Chunk>, job: string, owner: string, path: string)
    ensures Disciplined(Background(result, output, job, owner, path))
  {
    BackgroundChannels(result, output, job, owner, path);
    BackgroundLogClosedLast(result, output, job, owner, path);
    BackgroundErrClosedLast(result, output, job, owner, path);
    BackgroundRemovedAfterSuccess(result, output, job, owner, path);
  }

  /**
    A unit of work: command lines with the job and owner they belong to, the
    command file recorded by `Execute`, the channels of the current run and
    the filesystem the command file lives on.
   */
  class Task {
    const commands: seq<string>
    const job: string
    const owner: string
    var commandFile: string
    var basePath: string
    ghost var phase: Phase

    var logs: seq<LogMessage>
    var logClosed: bool
    var errors: seq<Option<Error>>
    var errClosed: bool
    var exitCodes: seq<int>
    var fs: FileSystem
    ghost var trace: seq<Effect>

    /** The channel fields are what the trace has sent on, and closed, each channel. */
    ghost predicate ChannelsAgree()
      reads this`logs, this`errors, this`exitCodes, this`logClosed, this`errClosed, this`trace
    {
      && logs == LogsOf(trace)
      && errors == ErrorsOf(trace)
      && exitCodes == ExitCodesOf(trace)
      && logClosed == (CloseLog in trace)
      && errClosed == (CloseErr in trace)
    }

    /** Once a run has started, `commandFile` is the `.sh` path of its base path. */
    ghost predicate PathRecorded()
      reads this`phase, this`commandFile, this`basePath
    {
      && (phase == Created ==> commandFile == "")
      && (phase != Created ==> commandFile == ScriptPath(basePath))
    }

    /** Nothing happens on the channels before the run ends; a finished run kept the discipline. */
    ghost predicate PhaseTrace()
      reads this`phase, this`trace
    {
      && (phase != Finished ==> trace == [])
      && (phase == Finished ==> Disciplined(trace))
    }

    ghost predicate Valid()
      reads this
    {
      ChannelsAgree() && PathRecorded() && PhaseTrace()
    }

    /** A task with the given commands, job and owner; no command file yet. */
    constructor NewTask(c: seq<string>, j: string, o: string, world: FileSystem)
      ensures Valid() && phase == Created
      ensures commands == c && job == j && owner == o
      ensures commandFile == ""
      ensures fs == world
      ensures logs == [] && errors == [] && exitCodes == [] && !logClosed && !errClosed
    {
      commands, job, owner := c, j, o;
      commandFile, basePath := "", "";
      phase := Created;
      logs, errors, exitCodes := [], [], [];
      logClosed, errClosed := false, false;
      fs := world;
      trace := [];
    }

    /**
      Starts a run: writes the script for `commands` at `<dir>/<token>.sh`, where
      `dir` is the scratch directory chosen from `env`, the value of `TEMP_DIR`
      read at start-up, and records that path in `commandFile`; the run's
      channels start empty and open.
     */
    method Execute(env: string, token: string)
      requires Valid()
      requires |commands| > 0
      modifies this`phase, this`commandFile, this`basePath, this`fs
      modifies this`logs, this`logClosed, this`errors, this`errClosed, this`exitCodes, this`trace
      ensures Valid() && phase == Running
      ensures basePath == JoinPath(TempDirectory(env), token)
      ensures commandFile == ScriptPath(basePath)
      ensures fs == CreateCommandFile(old(fs), basePath, commands)
      ensures logs == [] && errors == [] && exitCodes == [] && !logClosed && !errClosed
    {
      var cf := JoinPath(TempDirectory(env), token);
      CreateCommandFileIn(cf);
      commandFile, basePath := ScriptPath(cf), cf;
      OpenChannels();
      phase := Running;
    }

    /** Writes the command file for this task's commands at `fp + ".sh"`. */
    method CreateCommandFileIn(fp: string)
      requires |commands| > 0
      modifies this`fs
      ensures fs == CreateCommandFile(old(fs), fp, commands)
      ensures ScriptPath(fp) in fs && fs[ScriptPath(fp)] == ScriptText(commands)
    {
      fs := CreateCommandFile(fs, fp, commands);
    }

    /** Makes the channels of a new run: nothing sent, nothing closed. */
    method OpenChannels()
      modifies this`logs, this`errors, this`exitCodes, this`logClosed, this`errClosed, this`trace
      ensures ChannelsAgree() && trace == []
      ensures logs == [] && errors == [] && exitCodes == [] && !logClosed && !errClosed
    {
      logs, errors, exitCodes := [], [], [];
      logClosed, errClosed := false, false;
      trace := [];
    }

    /** Sends one message on the log channel. */
    method SendLogMessage(msg: LogMessage)
      requires ChannelsAgree() && !logClosed
      modifies this`logs, this`trace
      ensures ChannelsAgree()
      ensures logs == old(logs) + [msg] && trace == old(trace) + [SendLog(msg)]
    {
      ProjectionsAppend(trace, [SendLog(msg)]);
      logs := logs + [msg];
      trace := trace + [SendLog(msg)];
    }

    /** Sends the exit classification on the exit-code channel. */
    method SendExitCode(code: int)
      requires ChannelsAgree()
      modifies this`exitCodes, this`trace
      ensures ChannelsAgree()
      ensures exitCodes == old(exitCodes) + [code] && trace == old(trace) + [SendExit(code)]
    {
      ProjectionsAppend(trace, [SendExit(code)]);
      exitCodes := exitCodes + [code];
      trace := trace + [SendExit(code)];
    }

    /** Sends an error value (nil is `None`) on the error channel. */
    method SendError(err: Option<Error>)
      requires ChannelsAgree() && !errClosed
      modifies this`errors, this`trace
      ensures ChannelsAgree()
      ensures errors == old(errors) + [err] && trace == old(trace) + [SendErr(err)]
    {
      ProjectionsAppend(trace, [SendErr(err)]);
      errors := errors + [err];
      trace := trace + [SendErr(err)];
    }

    /** Closes the log channel. */
    method CloseLogChannel()
      requires ChannelsAgree() && !logClosed
      modifies this`logClosed, this`trace
      ensures ChannelsAgree()
      ensures logClosed && trace == old(trace) + [CloseLog]
    {
      ProjectionsAppend(trace, [CloseLog]);
      logClosed := true;
      trace := trace + [CloseLog];
    }

    /** Closes the error channel. */
    method CloseErrChannel()
      requires ChannelsAgree() && !errClosed
      modifies this`errClosed, this`trace
      ensures ChannelsAgree()
      ensures errClosed && trace == old(trace) + [CloseErr]
    {
      ProjectionsAppend(trace, [CloseErr]);
      errClosed := true;
      trace := trace + [CloseErr];
    }

    /**
      Removes `fp + ".sh"`. A missing file is not an error that reaches the
      channels: `removed` is false (the source only logs it) and nothing but
      the filesystem and the trace changes.
     */
    method CleanupCommandFile(fp: string) returns (removed: bool)
      requires ChannelsAgree()
      modifies this`fs, this`trace
      ensures ChannelsAgree()
      ensures removed <==> ScriptPath(fp) in old(fs)
      ensures fs == Cleanup(old(fs), fp)
      ensures trace == old(trace) + [Remove(ScriptPath(fp))]
    {
      ProjectionsAppend(trace, [Remove(ScriptPath(fp))]);
      removed := ScriptPath(fp) in fs;
      fs := Cleanup(fs, fp);
      trace := trace + [Remove(ScriptPath(fp))];
    }

    /** Forwards every output chunk, in order, as a log message of this task. */
    method ForwardOutput(output: seq<Chunk>)
      requires ChannelsAgree() && trace == [] && !logClosed && !errClosed
      modifies this`logs, this`trace
      ensures ChannelsAgree() && !logClosed && !errClosed
      ensures trace == LogSends(output, job, owner)
    {
      var i := 0;
      while i < |output|
        invariant 0 <= i <= |output|
        invariant ChannelsAgree() && !logClosed && !errClosed
        invariant trace == LogSends(output[..i], job, owner)
      {
        SendLogMessage(Message(output[i], job, owner));
        assert output[..i + 1] == output[..i] + [output[i]];
        i := i + 1;
      }
      assert output[..i] == output;
    }

    /**
      The end of a failed run: exit code 1, close the log channel, send the
      error, close the error channel. The command file is kept.
     */
    method ReportFailure(reason: string)
      requires ChannelsAgree() && !logClosed && !errClosed
      modifies this`exitCodes, this`logClosed, this`errors, this`errClosed, this`trace
      ensures ChannelsAgree()
      ensures trace == old(trace) + Completion(Failed(reason), ScriptPath(basePath))
    {
      SendExitCode(1);
      CloseLogChannel();
      SendError(Some(RunError(reason)));
      CloseErrChannel();
    }

    /**
      The end of a successful run: exit code 0, send a nil error, close both
      channels, then remove the command file; a missing file changes nothing
      that has been reported.
     */
    method ReportSuccess()
      requires ChannelsAgree() && !logClosed && !errClosed
      modifies this`exitCodes, this`logClosed, this`errors, this`errClosed, this`trace, this`fs
      ensures ChannelsAgree()
      ensures trace == old(trace) + Completion(Succeeded, ScriptPath(basePath))
      ensures fs == Cleanup(old(fs), basePath)
    {
      SendSuccess();
      var _ := CleanupCommandFile(basePath);
    }

    /** Exit code 0, a nil error, and both channels closed. */
    method SendSuccess()
      requires ChannelsAgree() && !logClosed && !errClosed
      modifies this`exitCodes, this`logClosed, this`errors, this`errClosed, this`trace
      ensures ChannelsAgree()
      ensures trace == old(trace) + [SendExit(0), SendErr(None), CloseLog, CloseErr]
    {
      SendExitCode(0);
      SendError(None);
      CloseLogChannel();
      CloseErrChannel();
    }

    /** The end of a run, on the branch `result` selects. */
    method ReportOutcome(result: RunResult)
      requires ChannelsAgree() && !logClosed && !errClosed
      modifies this`exitCodes, this`logClosed, this`errors, this`errClosed, this`trace, this`fs
      ensures ChannelsAgree()
      ensures trace == old(trace) + Completion(result, ScriptPath(basePath))
      ensures result.Succeeded? ==> fs == Cleanup(old(fs), basePath)
      ensures result.Failed? ==> fs == old(fs)
    {
      match result {
        case Failed(reason) => ReportFailure(reason);
        case Succeeded => ReportSuccess();
      }
    }

    /**
      The background run once the subprocess has ended with `result`, having
      written `output` to its standard output: every chunk becomes a log
      message, then exactly one exit code and one error value are sent and the
      channels closed in the order of `Completion`; the command file is
      removed on success and kept on failure.
     */
    method Finish(result: RunResult, output: seq<Chunk>)
      requires Valid() && phase == Running
      modifies this`phase, this`logs, this`logClosed, this`errors, this`errClosed, this`exitCodes, this`fs, this`trace
      ensures Valid() && phase == Finished
      ensures trace == Background(result, output, job, owner, commandFile)
      ensures logs == Messages(output, job, owner)
      ensures exitCodes == [ExitCode(result)]
      ensures errors == [ErrorValue(result)]
      ensures logClosed && errClosed
      ensures result.Succeeded? ==> fs == Cleanup(old(fs), basePath)
      ensures result.Failed? ==> fs == old(fs)
    {
      ForwardOutput(output);
      ReportOutcome(result);
      Conclude(result, output);
    }

    /**
      The bookkeeping at the end of the background run: once the trace is the
      whole run, the task is marked finished and its channel values follow.
     */
    ghost method Conclude(result: RunResult, output: seq<Chunk>)
      requires ChannelsAgree() && PathRecorded() && phase == Running
      requires trace == LogSends(output, job, owner) + Completion(result, ScriptPath(basePath))
      modifies this`phase
      ensures Valid() && phase == Finished
      ensures trace == Background(result, output, job, owner, commandFile)
      ensures logs == Messages(output, job, owner)
      ensures exitCodes == [ExitCode(result)]
      ensures errors == [ErrorValue(result)]
      ensures logClosed && errClosed
    {
      BackgroundChannels(result, output, job, owner, commandFile);
      BackgroundDisciplined(result, output, job, owner, commandFile);
      phase := Finished;
    }
  }
}
