# File logger model

A Dafny model of the `file_logger` package. Callers ask it to log messages that carry a
severity. A message below the configured level is dropped. An accepted message gets a
timestamp and goes to one worker. The worker appends it as a line to a file, and also to
standard output when console echo is on. `Stop` tells the worker to exit.

The model has two modules:

- `Severity` (`severity.dfy`): `LogLevel` is a signed 16-bit integer with the constants
  `Undefined = 0` up to `Debug = 5`. `Name` is `String()`. `Passes` is the filter test
  `severity >= currentLevel`.
- `FileLogger` (`file_logger.dfy`): the class `FileLogger` holds the fields set at
  construction: `currentLevel`, `tag`, `maxRecords`, `logToConsole`. It also holds the
  lifecycle state `stopChannel` and the output written so far, `fileLines` and
  `consoleLines`. Methods for `LogMessage`, its wrappers, the worker's write step, and
  `Stop`. `NewFileLogger` models the constructor function together with its error path.

Four specification functions sit beside the class:

- `Accepted`: the lines a given level writes for a history of calls.
- `Text`: what `Fprintln` produces for a sequence of lines.
- `FormatLine`: the line format, `timestamp + " " + message`.
- `StopSelect`: the `select` inside `Stop`.

The class invariant `Valid()` links the class to these functions:

- the file holds exactly `Accepted(currentLevel, submitted)`, where `submitted` is the ghost
  history of calls made while the worker is running;
- the console holds the same lines when echo is on, and nothing otherwise;
- the tag is the name of the level.

The model makes the following choices:

- Hand-off is synchronous. The unbuffered message channel and the single worker become one
  step. An accepted `LogMessage` on a running logger calls `WriteLine` before it returns, so
  lines appear in call order.
- The timestamp (`time.Now().Format(timeFormat)`) is a string parameter. So is the
  `fmt.Sprintf` result, and so is the stack text that `LogFatal` logs. Each `LogMessage`
  call takes its own timestamp, so `LogFatal` takes two.
- `fileLines` holds only the lines this logger appended. The file's earlier content (it is
  opened with `O_APPEND`) is not modelled.
- The failure of `os.OpenFile` is the parameter `openError` of `NewFileLogger`.
- The logger must still be running when `Stop` is called. The first `Stop` sends into the
  empty one-slot channel and then closes it. The model has the worker take the signal at
  once and return, so nothing is written afterwards. Any later `Stop` runs a `select` whose
  send case targets a closed channel. In Go that panics, and the `default` case does not prevent it.
  `SecondStopPanics` proves this about `StopSelect`.
- Fatal is dropped at level Error. Ordinal 1 is below ordinal 2, so `severity >= Error`
  excludes it. The model keeps this comparison. `ErrorDropsFatal` and the scenario
  `FatalDroppedAtError` state the result.
- In the source, `LogFatal` passes the `[]byte` result of `utils.GetCurrentStack()` where
  `LogMessage` expects a `string`. Go does not accept that conversion implicitly. The model
  takes the stack text as an already formatted string.

## Model

| member | source | states |
|---|---|---|
| `Severity.Name` | file_logger/file_logger.go:25-40 | The name is "Undefined" exactly when the value is outside Fatal..Debug. Every name has at least four characters. |
| `Severity.LevelOrdinals` | file_logger/file_logger.go:16-23 | The constants are 0 to 5 in declaration order and strictly increase. A value is one of the named levels exactly when it is one of those six. |
| `Severity.LevelNames` | file_logger/file_logger.go:25-40 | Fatal, Error, Warn, Info and Debug have their own names. Every value at or below 0, or above 5, is shown as "Undefined". |
| `Severity.Passes` | file_logger/file_logger.go:98 | The filter test `severity >= currentLevel`. Between named levels, a message passes exactly when its level is declared no earlier than the configured level. |
| `Severity.NameIdentifiesLevel` | file_logger/file_logger.go:25-40 | A defined level shares its name with no other value. So for a defined level, the tag identifies the level. |
| `Severity.ErrorDropsFatal` | file_logger/file_logger.go:98 | At level Error the filter drops Fatal. Among the named levels, it keeps exactly those with ordinal Error or higher. |
| `Severity.DebugPassesOnlyDebug` | file_logger/file_logger.go:98 | At level Debug, the only named level that passes is Debug. |
| `Severity.OnlyUndefinedPassesAll` | file_logger/file_logger.go:98 | A named configuration lets every named level through if and only if it is Undefined. |
| `Severity.PassesMonotone` | file_logger/file_logger.go:98 | If a message passes, a message with a higher ordinal also passes, and so does the same message under a lower configured level. |
| `FileLogger.FormatLine` | file_logger/file_logger.go:99-100 | The line is the timestamp, one space, then the formatted message. Removing the first \|timestamp\|+1 characters gives the message back. |
| `FileLogger.Text` | file_logger/file_logger.go:134 | What `Fprintln` writes for a sequence of lines: each line followed by a newline, in order. The text is at least as long as the number of lines. |
| `FileLogger.TextConcat` | file_logger/file_logger.go:134 | Writing two batches of lines with `Fprintln` gives the concatenation of their texts. |
| `FileLogger.TextAppend` | file_logger/file_logger.go:134 | Writing one more line adds that line and a newline to the end of the file text. |
| `FileLogger.TextInjective` | file_logger/file_logger.go:134 | If no line contains a newline, the file text determines the sequence of lines. Two line sequences with the same text are equal. |
| `FileLogger.Accepted` | file_logger/file_logger.go:97-103 | The lines written for a history of calls. There are never more lines than calls. |
| `FileLogger.AcceptedConcat` | file_logger/file_logger.go:97-103 | Filtering a longer history extends what was written and keeps the earlier lines, in order. |
| `FileLogger.AcceptedSound` | file_logger/file_logger.go:97-103 | Every written line is the line of some call whose severity passed the filter. |
| `FileLogger.AcceptedComplete` | file_logger/file_logger.go:97-103 | Every call whose severity passes has its line written. |
| `FileLogger.AcceptedCount` | file_logger/file_logger.go:97-103 | The number of written lines equals the number of calls whose severity passed the filter. |
| `FileLogger.AcceptedAllPass` | file_logger/file_logger.go:97-103 | When every call passes, each call yields exactly its own line, in call order. Nothing is duplicated and nothing is merged. |
| `FileLogger.AcceptedNonePass` | file_logger/file_logger.go:97-103 | When no call passes, nothing is written. |
| `FileLogger.UndefinedWritesEveryLevel` | file_logger/file_logger.go:98 | At level Undefined, every call at a named level is written, one line per call, in order. |
| `FileLogger.DebugWritesOnlyDebug` | file_logger/file_logger.go:98 | At level Debug, when all calls are at named levels, every written line comes from a Debug call. |
| `FileLogger.StopSelect` | file_logger/file_logger.go:59-65 | The select panics exactly when the stop channel is closed. It takes `default` exactly when the channel is open with a full slot. Otherwise it sends, and the channel is then full and closed. |
| `FileLogger.SecondStopPanics` | file_logger/file_logger.go:59-65 | The first `Stop` on a fresh channel sends. Every later `Stop` panics, whether or not the worker has taken the signal yet. |
| `FileLogger.FileLogger.Running` | file_logger/file_logger.go:127-145 | The worker loop is still live exactly when the stop channel is open. That is also exactly when `Stop`'s select would not panic. |
| `FileLogger.FileLogger.Echoed` | file_logger/file_logger.go:137-140 | The console receives the same lines as the file when echo is on, and nothing when it is off. |
| `FileLogger.FileLogger.Emitted` | file_logger/file_logger.go:97-103 | One call adds either nothing or exactly its line. It adds the line exactly when the logger is running and the severity passes. |
| `FileLogger.FileLogger.constructor` | file_logger/file_logger.go:82-92 | The level, maximum record count and echo flag are stored. The tag is the level's name. The logger is running with nothing written, and the invariant holds. |
| `FileLogger.FileLogger.WriteLine` | file_logger/file_logger.go:133-141 | Runs only while the worker is live. The worker step appends the line to the file (the text gains the line and a newline). It appends the same line to the console exactly when echo is on. |
| `FileLogger.FileLogger.LogMessage` | file_logger/file_logger.go:97-103 | A dropped message, or any message after `Stop`, changes nothing. An accepted message on a running logger appends exactly `timestamp + " " + formatted`, plus a newline in the text, to the file. It appends the same line to the console when echo is on. Earlier lines are kept, and the invariant is preserved. |
| `FileLogger.FileLogger.LogFatal` | file_logger/file_logger.go:105-108 | Two Fatal calls, the message line first and the stack line second. Either both lines are written or neither is. The file text gains each written line plus a newline. The console receives the same new lines when echo is on. Both calls enter the history, in order, and the invariant is preserved. |
| `FileLogger.FileLogger.LogError` | file_logger/file_logger.go:110-112 | Same as `LogMessage` at level Error: file, file text, console, history and invariant. |
| `FileLogger.FileLogger.LogWarning` | file_logger/file_logger.go:114-116 | Same as `LogMessage` at level Warn: file, file text, console, history and invariant. |
| `FileLogger.FileLogger.LogInfo` | file_logger/file_logger.go:118-120 | Same as `LogMessage` at level Info: file, file text, console, history and invariant. |
| `FileLogger.FileLogger.LogDebug` | file_logger/file_logger.go:122-124 | Same as `LogMessage` at level Debug: file, file text, console, history and invariant. |
| `FileLogger.FileLogger.Stop` | file_logger/file_logger.go:59-65 | Requires a running logger, because a second call panics. Afterwards the stop channel is closed, and the worker has received the signal and returned (lines 142-143). Later calls write nothing. |
| `FileLogger.NewFileLogger` | file_logger/file_logger.go:76-95 | If the open fails, the result is an error and its message names the file and the OS error. Otherwise the result is a fresh, running logger with the given configuration, nothing written and an empty call history. |
| `FileLogger.StopBeforeLogging` | file_logger/file_logger.go:59-65 | After `Stop`, a call to `LogMessage` leaves the file empty. |
| `FileLogger.FatalDroppedAtError` | file_logger/file_logger.go:105-108 | At level Error, `LogFatal` writes nothing to the file or the console. |
| `FileLogger.FatalWritesMessageThenStack` | file_logger/file_logger.go:105-108 | At level Fatal or below, `LogFatal` writes exactly the message line and then the stack line. The echoing console receives the same two lines. |
| `FileLogger.InfoKeepsDebugDropsWarn` | file_logger/file_logger.go:97-124 | At level Info, a Warn message is dropped and a Debug message is written. Without echo, the console stays empty. |

## Left out

- Concurrency is collapsed into sequential steps: goroutine scheduling, the unbuffered `messageChannel` rendezvous, the random choice in the worker's `select`, and `syncMutex`. So is a caller blocking on a busy worker.
- `LogMessage` after `Stop` writes nothing in the model. In the source, `Stop` does not wait for the worker. If the worker has not yet taken the stop signal, its next `select` may take a waiting message instead, so a message logged after `Stop` can still be written. Once the worker has returned, the caller blocks forever. Neither outcome is modelled.
- The worker's `!ok` branch (lines 130-132) is not modelled. It is unreachable: `messageChannel` is never closed.
- `handleWriteError` (lines 149-153) discards every write error. The model treats every write as successful.
- `os.OpenFile`, with its flags and its 0666 permission, is reduced to an optional error string.
- The file is never closed. The model has no file handle.
- `time.Now().Format(timeFormat)` and the constant `timeFormat` are reduced to an opaque timestamp string.
- `fmt.Sprintf` with its template and arguments is reduced to an opaque formatted string.
- `utils.GetCurrentStack` is reduced to an opaque stack string. It grows a buffer until `runtime.Stack` fits, and `runtime.Stack` is a runtime call.
- `FileLoggerInterface` (lines 42-44) is a one-method interface with no behaviour of its own.
