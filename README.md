# task — a Dafny model of the task runner

`task` turns a list of shell command lines into a bash script and runs it in the
background. It reports the run on three channels:

- the script's standard output, as log messages attributed to the task's job and owner;
- exactly one error value;
- exactly one exit code.

After a successful run it removes the script. This project models that core and proves
what the runner promises about it.

- `lines.dfy`, module `Lines`: joining lines with a separator, as `strings.Join` does.
  Its partner is `Split`, which reads the lines back. Splitting undoes joining for
  non-empty lists of separator-free lines, and joining undoes splitting for every text.
- `command_file.dfy`, module `CommandFile`: the command-file builder. It covers:
  - shebang normalisation (`#!/bin/bash` is put in front unless it is already the first line);
  - the script text;
  - the `.sh` path;
  - the scratch directory taken from `TEMP_DIR`;
  - writing and removing the file.

  The filesystem is an abstract map from path to contents.
- `runner.dfy`, module `Runner`: the class `Task`.
  - `NewTask` builds a task.
  - `Execute` writes the command file and records its path.
  - `Finish` is the background run once the subprocess has ended: it forwards every
    output chunk, then sends the outcome and closes the channels in the order of the
    branch taken.

  Each channel is a field holding what has been sent on it and whether it is closed.
  Every send, close and removal is also appended to a ghost `trace` of effects. The
  class invariant `Valid()` ties the channel fields to projections of that trace, and
  states that a finished run kept the channel discipline (`Disciplined`).

The scratch directory falls back to `/tmp` when `TEMP_DIR` is unset and also when
it is set to the empty string (`task.go:24`). `Execute` receives that raw value and
applies the same choice. An empty command list is a caller error: `task.go:108`
indexes `commands[0]` unconditionally. Hence `|commands| > 0` on the builder and on
`Execute`.

## Model

| member | source | states |
|---|---|---|
| Lines.Join | task.go:111 | `strings.Join`: the elements with the separator between each pair. It has no ensures of its own; `JoinEnds`, `SplitJoin`, `JoinSplit` and `FirstLineOfJoin` characterise it |
| Lines.JoinEnds | task.go:111 | the joined text starts with the first line and ends with the last: nothing is added before the first line or after the last |
| Lines.SplitJoin | task.go:111 | for every non-empty list whose lines do not hold the separator, splitting the joined lines gives the list back |
| Lines.JoinSplit | task.go:111 | joining the pieces of any text with the separator gives the text back |
| Lines.FirstLineOfJoin | task.go:111 | the first line read back from a joined text is the first element whenever that element is free of the separator |
| CommandFile.TempDirectory | task.go:19-26 | the scratch directory is `TEMP_DIR` when it is non-empty and `/tmp` otherwise; it is never empty |
| CommandFile.JoinPath | task.go:59 | the base path `<dir>/<token>`. It has no ensures of its own; `Runner.Task.Execute` states the base path it records with it |
| CommandFile.Normalize | task.go:108-110 | the shebang put in front unless it is the first command. It has no ensures of its own; `NormalizeShape` and `NormalizeDetermined` characterise it completely, and `NormalizeIdempotent` shows the shebang is never doubled |
| CommandFile.NormalizeShape | task.go:108-110 | the script lines start with the shebang; the caller's commands end the list verbatim and in order; exactly one line is added iff the first command is not the shebang |
| CommandFile.NormalizeDetermined | task.go:108-110 | those shape facts admit exactly one line list: the normalised one |
| CommandFile.NormalizeIdempotent | task.go:108-109 | the shebang is never duplicated: normalising normalised lines changes nothing |
| CommandFile.ScriptText | task.go:108-111 | the normalised lines joined by newlines. It has no ensures of its own; `ScriptTextEnds`, `FirstLineIsShebang` and `ScriptLines` characterise it |
| CommandFile.ScriptTextEnds | task.go:108-111 | the script text starts with `#!/bin/bash` and ends with the last command: no newline is added after the last command |
| CommandFile.FirstLineIsShebang | task.go:108-111 | for every non-empty command list, the first line of the script is exactly `#!/bin/bash` |
| CommandFile.ScriptLines | task.go:108-111 | when no command holds a newline, the lines read back from the script are the shebang followed by every command in order |
| CommandFile.ScriptPath | task.go:112 | the command file's path is the base path followed by exactly `.sh` |
| CommandFile.ScriptPathInjective | task.go:112 | distinct base paths give distinct command files |
| CommandFile.WriteFile | task.go:119 | a write creates or overwrites exactly one file with the given content and leaves every other file as it was |
| CommandFile.CreateCommandFile | task.go:107-120 | the file `fp + ".sh"` holds the script text afterwards; no other file is created or changed |
| CommandFile.RemoveFile | task.go:123 | a removal deletes exactly the named path, if present, and leaves every other file as it was |
| CommandFile.Cleanup | task.go:122-127 | exactly `fp + ".sh"` is gone afterwards; a missing file leaves the filesystem unchanged |
| CommandFile.CleanupIdempotent | task.go:122-127 | removing a command file twice is the same as removing it once |
| CommandFile.CleanupUndoesCreate | task.go:119-123 | when no file was at `fp + ".sh"` before, cleanup with the same base path after the create restores the earlier filesystem; an overwritten earlier file is not restored |
| CommandFile.CleanupKeepsOtherScript | task.go:122-127 | cleanup with another base path keeps the command file and its text |
| Runner.ExitCode | task.go:77-90 | the exit code is 0 or 1, and 0 exactly when the run succeeded |
| Runner.ErrorValue | task.go:87-91 | the error value is nil exactly when the run succeeded; a failure's error carries its reason |
| Runner.Message | task.go:69-74 | one output chunk as a log message with its text, its timestamp and the task's job and owner. It has no ensures of its own; `LogSendsProjections` states what the forwarded messages are |
| Runner.Messages | task.go:68-75 | one log message per output chunk, in capture order. It has no ensures of its own; `LogSendsProjections` and `BackgroundChannels` show that the log channel receives exactly these |
| Runner.LogSends | task.go:68-75 | the log sends of the whole output. It has no ensures of its own; `LogSendsProjections` states their projections, and `Runner.Task.ForwardOutput` is proved against it |
| Runner.LogSendsProjections | task.go:68-75 | forwarding output sends one message per chunk, in order, with the task's job and owner, and nothing on the other channels |
| Runner.Completion | task.go:77-95 | the ordered end steps of each branch. It has no ensures of its own; `CompletionChannels` states what each branch sends and removes, and `Runner.Task.ReportOutcome` is proved against it |
| Runner.CompletionChannels | task.go:77-95 | each branch sends exactly one exit code and one error value and nothing on the log channel; only the success branch removes the command file |
| Runner.Background | task.go:65-95 | the whole goroutine: the log sends followed by the completion. It has no ensures of its own; `BackgroundChannels` and `BackgroundDisciplined` characterise it, and `Runner.Task.Finish` is proved against it |
| Runner.BackgroundChannels | task.go:65-95 | a whole run delivers the output as log messages, exactly one exit code, exactly one error value, and removes the command file exactly on success |
| Runner.BackgroundLogClosedLast | task.go:86-92 | in every run the log channel is closed, and nothing is sent on it or closes it afterwards |
| Runner.BackgroundErrClosedLast | task.go:87-93 | in every run the error channel is closed, and nothing is sent on it or closes it afterwards |
| Runner.BackgroundRemovedAfterSuccess | task.go:89-94 | the command file is removed only after both channels are closed and the single nil error has been sent |
| Runner.BackgroundDisciplined | task.go:65-96 | every run, successful or failed, keeps the whole channel discipline |
| Runner.Task.NewTask | task.go:48-55 | a new task holds the given commands, job and owner, has no command file yet, and its channel fields are empty and not closed (the channels themselves are made by `Execute`) |
| Runner.Task.Execute | task.go:58-61 | the script is written at `<dir>/<token>.sh`, where `dir` is `TEMP_DIR` or `/tmp` when that is empty, and that same path is recorded in `commandFile`; the channels start empty and open; the invariant is kept |
| Runner.Task.CreateCommandFileIn | task.go:60 | the filesystem afterwards is the old one with the task's command file written at `fp + ".sh"` |
| Runner.Task.OpenChannels | task.go:62-64 | the new channels have nothing sent and are not closed |
| Runner.Task.SendLogMessage | task.go:69-74 | the message is appended to the log channel and to the trace; the channel fields still agree with the trace |
| Runner.Task.SendExitCode | task.go:78 | the code is appended to the exit-code channel and to the trace |
| Runner.Task.SendError | task.go:87 | the error value is appended to the error channel and to the trace |
| Runner.Task.CloseLogChannel | task.go:86 | the log channel is closed and the close is appended to the trace |
| Runner.Task.CloseErrChannel | task.go:88 | the error channel is closed and the close is appended to the trace |
| Runner.Task.CleanupCommandFile | task.go:122-127 | removes exactly `fp + ".sh"`; reports whether it existed; changes no channel |
| Runner.Task.ForwardOutput | task.go:66-76 | the trace afterwards is one log send per output chunk, in capture order |
| Runner.Task.ReportFailure | task.go:77-88 | a failure appends exit code 1, closes the log channel, sends the error and closes the error channel, in that order; the filesystem is untouched |
| Runner.Task.SendSuccess | task.go:90-93 | a success appends exit code 0, sends a nil error, then closes the log and the error channel, in that order |
| Runner.Task.ReportSuccess | task.go:89-95 | the success steps are followed by the removal of the command file at the recorded base path |
| Runner.Task.ReportOutcome | task.go:77-95 | the trace grows by the completion steps of the branch that `result` selects; the file is removed only on success |
| Runner.Task.Finish | task.go:65-96 | the trace of the background run is the output's log sends followed by the completion of the result, with the removal at the recorded `commandFile`; the channels hold the messages, one exit code and one error, and both are closed; the file is removed only on success; the invariant holds with the discipline proved |
| Runner.Task.Conclude | task.go:65-96 | ghost bookkeeping at the end of the background run: once the trace is the whole run, the task is finished, valid, and its channel fields hold the values `BackgroundChannels` gives |

## Left out

- The subprocess launch and its stdout/stderr capture through the `deputy` runner library and `exec.Command` (`task.go:66-77`) are foreign process I/O. The run result is an input of `Finish`: `Succeeded`, or `Failed` with the error text. The captured output is an input sequence of chunks.
- Goroutine and channel concurrency: the background run is one sequential method. Channel buffer sizes (100, 100 and 1) and the blocking of a full channel are not modelled.
- The random token from `generateRandomString` (`crypto/rand` with base64url encoding) is a parameter of `Execute`. Its probable uniqueness is not modelled.
- The value of `TEMP_DIR` is read once by the process at start-up; here it is passed to `Execute`.
- `time.Now()` timestamps are supplied with each output chunk.
- logrus logging (the creation, failure and cleanup-error events) is a side channel and is not modelled.
- The 0777 permissions of the written file, and the write error that the source ignores: the write always succeeds.
- `filepath.Join`'s path cleaning is not modelled: the base path is `dir + "/" + token`.
- `os.Remove` failures other than a missing file are not modelled. `CleanupCommandFile` reports only whether the file existed.
- The task's `ID` field and the `ID` of a log message belong to the persistence layer and are not modelled.
- The filesystem the task works on is passed to `NewTask`. The source uses the process's real filesystem.
- Calling `Execute` again while an earlier background run is still going is not modelled. The model starts fresh, empty channels; the orphaned earlier run is not represented.
