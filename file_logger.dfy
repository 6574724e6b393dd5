/** The file logger: a level filter in front of a single worker that appends
    each accepted line to a file, and to the console when echo is on.

    The unbuffered hand-off from a caller to the worker is one synchronous
    step here: an accepted `LogMessage` runs the worker's write step before
    it returns, so lines are written in call order. The timestamp, the
    `Sprintf` expansion and the stack text are parameters. */
module FileLogger {
  import opened Severity

  /** `maxRecords` is a `uint64` in the source. */
  newtype uint64 = x: int | 0 <= x < 0x1_0000_0000_0000_0000

  datatype Option<T> = None | Some(value: T)

  datatype Result<T, E> = Success(value: T) | Failure(error: E)

  /** A line as `LogMessage` builds it: the timestamp, one space, and the
      formatted message. Dropping the first |timestamp| + 1 characters gives
      the message back. The timestamp itself may contain spaces. */
  function FormatLine(timestamp: string, formatted: string): (line: string)
    ensures |line| == |timestamp| + 1 + |formatted|
    ensures line[..|timestamp|] == timestamp && line[|timestamp|] == ' '
    ensures line[|timestamp| + 1..] == formatted
  {
    timestamp + " " + formatted
  }

  // ---------------------------------------------------------------------
  // File contents

  /** What `Fprintln` (and `Println`) put out for a sequence of lines: each
      line followed by a newline, in order. */
  function Text(lines: seq<string>): (text: string)
    ensures |text| >= |lines|
  {
    if lines == [] then "" else lines[0] + "\n" + Text(lines[1..])
  }

  lemma {:induction false} TextConcat(a: seq<string>, b: seq<string>)
    ensures Text(a + b) == Text(a) + Text(b)
  {
    if a == [] {
      assert a + b == b;
    } else {
      assert (a + b)[1..] == a[1..] + b;
      TextConcat(a[1..], b);
    }
  }

  /** Appending one line to the file appends the line and a newline to its text. */
  lemma TextAppend(lines: seq<string>, line: string)
    ensures Text(lines + [line]) == Text(lines) + line + "\n"
  {
    TextConcat(lines, [line]);
    assert [line][1..] == [];
  }

  predicate NoNewlines(lines: seq<string>) {
    forall i :: 0 <= i < |lines| ==> '\n' !in lines[i]
  }

  /** The position of the first newline in `s`, or |s| when there is none. */
  function FirstNewline(s: string): (k: nat)
    ensures k <= |s|
  {
    if s == [] then 0 else if s[0] == '\n' then 0 else 1 + FirstNewline(s[1..])
  }

  lemma {:induction false} FirstNewlineAfter(x: string, rest: string)
    requires '\n' !in x
    ensures FirstNewline(x + "\n" + rest) == |x|
  {
    if x != [] {
      assert (x + "\n" + rest)[1..] == x[1..] + "\n" + rest;
      FirstNewlineAfter(x[1..], rest);
    }
  }

  /** When no line contains a newline, the file text determines the lines:
      nothing written was merged, split, lost or duplicated. A stack trace
      usually contains newlines, so this does not cover `LogFatal`'s
      second line. */
  lemma {:induction false} TextInjective(a: seq<string>, b: seq<string>)
    requires NoNewlines(a) && NoNewlines(b)
    requires Text(a) == Text(b)
    ensures a == b
  {
    if a != [] && b != [] {
      var x, y := a[0], b[0];
      var t := Text(a);
      assert t == x + "\n" + Text(a[1..]);
      assert t == y + "\n" + Text(b[1..]);
      assert '\n' !in x && '\n' !in y;
      FirstNewlineAfter(x, Text(a[1..]));
      FirstNewlineAfter(y, Text(b[1..]));
      assert x == t[..|x|] == y;
      assert Text(a[1..]) == t[|x| + 1..] == Text(b[1..]);
      TextInjective(a[1..], b[1..]);
      assert a == [x] + a[1..] && b == [y] + b[1..];
    }
  }

  // ---------------------------------------------------------------------
  // The filter over a history of calls

  /** One `LogMessage` call: its severity and the line it would write. */
  datatype Submission = Submission(severity: LogLevel, line: string)

  /** The lines a logger configured at `current` writes for the calls `subs`,
      in call order. */
  function Accepted(current: LogLevel, subs: seq<Submission>): (lines: seq<string>)
    ensures |lines| <= |subs|
  {
    if subs == [] then []
    else
      (if Passes(current, subs[0].severity) then [subs[0].line] else [])
      + Accepted(current, subs[1..])
  }

  /** Filtering a longer history extends the file, keeping what was written. */
  lemma {:induction false} AcceptedConcat(current: LogLevel, a: seq<Submission>, b: seq<Submission>)
    ensures Accepted(current, a + b) == Accepted(current, a) + Accepted(current, b)
  {
    if a == [] {
      assert a + b == b;
    } else {
      assert (a + b)[1..] == a[1..] + b;
      AcceptedConcat(current, a[1..], b);
    }
  }

  /** Every written line belongs to a call whose severity passed the filter. */
  lemma {:induction false} AcceptedSound(current: LogLevel, subs: seq<Submission>, line: string)
    requires line in Accepted(current, subs)
    ensures exists s :: s in subs && Passes(current, s.severity) && s.line == line
  {
    if subs != [] {
      if Passes(current, subs[0].severity) && line == subs[0].line {
        assert subs[0] in subs;
      } else {
        AcceptedSound(current, subs[1..], line);
        var s :| s in subs[1..] && Passes(current, s.severity) && s.line == line;
        assert s in subs;
      }
    }
  }

  /** Every call whose severity passed the filter has its line written. */
  lemma {:induction false} AcceptedComplete(current: LogLevel, subs: seq<Submission>, s: Submission)
    requires s in subs && Passes(current, s.severity)
    ensures s.line in Accepted(current, subs)
  {
    if subs[0] != s {
      assert s in subs[1..];
      AcceptedComplete(current, subs[1..], s);
    }
  }

  /** The positions in `subs` of the calls that pass the filter. */
  ghost function PassingIndices(current: LogLevel, subs: seq<Submission>): set<nat>
  {
    set i: nat | i < |subs| && Passes(current, subs[i].severity)
  }

  /** Appending a call adds its position exactly when it passes. */
  lemma PassingIndicesAppend(current: LogLevel, init: seq<Submission>, last: Submission)
    ensures PassingIndices(current, init + [last])
         == PassingIndices(current, init) + (if Passes(current, last.severity) then {|init|} else {})
  {
    var subs := init + [last];
    forall i: nat
      ensures i in PassingIndices(current, subs)
          <==> i in PassingIndices(current, init) + (if Passes(current, last.severity) then {|init|} else {})
    {
      if i < |init| {
        assert subs[i] == init[i];
      }
    }
  }

  /** One line per passing call: the file has exactly as many lines as there
      are calls whose severity passed, so no line is duplicated or merged. */
  lemma {:induction false} AcceptedCount(current: LogLevel, subs: seq<Submission>)
    ensures |Accepted(current, subs)| == |PassingIndices(current, subs)|
  {
    if subs == [] {
      assert PassingIndices(current, subs) == {};
    } else {
      var init, last := subs[..|subs| - 1], subs[|subs| - 1];
      assert subs == init + [last];
      AcceptedConcat(current, init, [last]);
      AcceptedCount(current, init);
      PassingIndicesAppend(current, init, last);
      assert |init| !in PassingIndices(current, init);
    }
  }

  /** When every call passes, each call yields exactly its own line, in order. */
  lemma {:induction false} AcceptedAllPass(current: LogLevel, subs: seq<Submission>)
    requires forall i :: 0 <= i < |subs| ==> Passes(current, subs[i].severity)
    ensures |Accepted(current, subs)| == |subs|
    ensures forall i :: 0 <= i < |subs| ==> Accepted(current, subs)[i] == subs[i].line
  {
    if subs != [] {
      AcceptedAllPass(current, subs[1..]);
    }
  }

  /** When no call passes, nothing is written. */
  lemma {:induction false} AcceptedNonePass(current: LogLevel, subs: seq<Submission>)
    requires forall i :: 0 <= i < |subs| ==> !Passes(current, subs[i].severity)
    ensures Accepted(current, subs) == []
  {
    if subs != [] {
      AcceptedNonePass(current, subs[1..]);
    }
  }

  /** At Undefined, every call at a named level is written, one line each. */
  lemma {:induction false} UndefinedWritesEveryLevel(subs: seq<Submission>)
    requires forall i :: 0 <= i < |subs| ==> IsNamed(subs[i].severity)
    ensures |Accepted(Undefined, subs)| == |subs|
    ensures forall i :: 0 <= i < |subs| ==> Accepted(Undefined, subs)[i] == subs[i].line
  {
    AcceptedAllPass(Undefined, subs);
  }

  /** At Debug, a history of named levels has only its Debug calls written. */
  lemma {:induction false} DebugWritesOnlyDebug(subs: seq<Submission>, line: string)
    requires forall i :: 0 <= i < |subs| ==> IsNamed(subs[i].severity)
    requires line in Accepted(Debug, subs)
    ensures exists s :: s in subs && s.severity == Debug && s.line == line
  {
    AcceptedSound(Debug, subs, line);
    var s :| s in subs && Passes(Debug, s.severity) && s.line == line;
    var i :| 0 <= i < |subs| && subs[i] == s;
    assert IsNamed(subs[i].severity);
  }

  // ---------------------------------------------------------------------
  // The stop channel

  /** The one-slot buffered stop channel: whether its slot holds a signal
      the worker has not received, and whether it has been closed. */
  datatype StopChannel = StopChannel(pending: bool, closed: bool)

  /** What `Stop`'s `select` does. */
  datatype StopOutcome =
    | Sent(channel: StopChannel)  // the send case ran, then the channel was closed
    | Skipped                     // the slot was full: the `default` case ran
    | Panic                       // a send on a closed channel

  const OpenStopChannel := StopChannel(false, false)

  /** `Stop`'s select: a send on a closed channel panics whether or not its
      slot is full; otherwise a free slot takes the signal and the channel is
      closed at once, and a full slot makes the send fall to `default`. */
  function StopSelect(ch: StopChannel): (r: StopOutcome)
    ensures r.Panic? <==> ch.closed
    ensures r.Skipped? <==> !ch.closed && ch.pending
    ensures r.Sent? ==> r.channel.pending && r.channel.closed
  {
    if ch.closed then Panic
    else if ch.pending then Skipped
    else Sent(StopChannel(true, true))
  }

  /** The first `Stop` on a fresh logger sends and closes; any `Stop` after
      that, whether or not the worker has taken the signal, panics. */
  lemma SecondStopPanics(received: bool)
    ensures StopSelect(OpenStopChannel).Sent?
    ensures StopSelect(StopSelect(OpenStopChannel).channel) == Panic
    ensures StopSelect(StopChannel(!received, true)) == Panic
  {
  }

  // ---------------------------------------------------------------------
  // The logger

  class FileLogger {
    const tag: string
    const maxRecords: uint64
    const currentLevel: LogLevel
    const logToConsole: bool

    var stopChannel: StopChannel
    /** The lines this logger has appended to its file. */
    var fileLines: seq<string>
    /** The lines this logger has echoed to standard output. */
    var consoleLines: seq<string>
    /** Every `LogMessage` call made while the worker was running. */
    ghost var submitted: seq<Submission>

    /** The file holds, in order, the accepted calls' lines; the console
        holds the same lines when echo is on and nothing otherwise; a stop
        signal is received as soon as it is sent. */
    ghost predicate Valid()
      reads this
    {
      && tag == Name(currentLevel)
      && !stopChannel.pending
      && fileLines == Accepted(currentLevel, submitted)
      && consoleLines == (if logToConsole then fileLines else [])
    }

    /** The worker is still looping: `Stop` has not closed the stop channel. */
    predicate Running()
      reads this
      ensures Running() <==> StopSelect(stopChannel) != Panic
    {
      !stopChannel.closed
    }

    /** The lines one `LogMessage(severity, …)` producing `line` adds to the file. */
    function Emitted(severity: LogLevel, line: string): (lines: seq<string>)
      reads this
      ensures lines == [] || lines == [line]
      ensures lines == [line] <==> Running() && Passes(currentLevel, severity)
    {
      if Running() && Passes(currentLevel, severity) then [line] else []
    }

    /** The history entry one `LogMessage(severity, …)` producing `line` makes:
        calls are recorded while the worker runs. */
    ghost function Recorded(severity: LogLevel, line: string): seq<Submission>
      reads this
    {
      if Running() then [Submission(severity, line)] else []
    }

    /** The lines the console receives for lines added to the file. */
    function Echoed(lines: seq<string>): (echo: seq<string>)
      reads this
      ensures logToConsole ==> echo == lines
      ensures !logToConsole ==> echo == []
    {
      if logToConsole then lines else []
    }

    /** The field initialisation of `NewFileLogger` and the start of the
        worker: the tag is the level's name, and nothing is written yet. */
    constructor (level: LogLevel, maxRecords: uint64, toConsole: bool)
      ensures Valid() && Running()
      ensures currentLevel == level && tag == Name(level)
      ensures this.maxRecords == maxRecords && logToConsole == toConsole
      ensures fileLines == [] && consoleLines == [] && submitted == []
    {
      tag := Name(level);
      this.maxRecords := maxRecords;
      currentLevel := level;
      logToConsole := toConsole;
      stopChannel := OpenStopChannel;
      fileLines := [];
      consoleLines := [];
      submitted := [];
    }

    /** The worker's step for one received message: append it to the file,
        then to the console when echo is on. */
    method WriteLine(line: string)
      requires Running()
      modifies this`fileLines, this`consoleLines
      ensures fileLines == old(fileLines) + [line]
      ensures consoleLines == old(consoleLines) + Echoed([line])
      ensures Text(fileLines) == old(Text(fileLines)) + line + "\n"
    {
      TextAppend(fileLines, line);
      fileLines := fileLines + [line];
      if logToConsole {
        consoleLines := consoleLines + [line];
      }
    }

    /** Filter, format and hand the line to the worker. A dropped message
        changes nothing; an accepted one on a running logger adds exactly
        its line to the file (and the console, with echo), keeping every
        earlier line in place. */
    method LogMessage(severity: LogLevel, timestamp: string, formatted: string)
      requires Valid()
      modifies this`fileLines, this`consoleLines, this`submitted
      ensures Valid()
      ensures fileLines == old(fileLines) + Emitted(severity, FormatLine(timestamp, formatted))
      ensures consoleLines == old(consoleLines) + Echoed(Emitted(severity, FormatLine(timestamp, formatted)))
      ensures Text(fileLines) == old(Text(fileLines)) + Text(Emitted(severity, FormatLine(timestamp, formatted)))
      ensures submitted == old(submitted) + Recorded(severity, FormatLine(timestamp, formatted))
    {
      if severity >= currentLevel {
        var line := FormatLine(timestamp, formatted);
        if Running() {
          WriteLine(line);
        }
      }
      if Running() {
        var s := Submission(severity, FormatLine(timestamp, formatted));
        AcceptedConcat(currentLevel, submitted, [s]);
        submitted := submitted + [s];
      }
    }

    /** Logs the message and then the stack text, both at Fatal: either both
        lines are written, in that order, or neither. */
    method LogFatal(timestamp: string, formatted: string, stackTimestamp: string, stack: string)
      requires Valid()
      modifies this`fileLines, this`consoleLines, this`submitted
      ensures Valid()
      ensures fileLines == old(fileLines) + Emitted(Fatal, FormatLine(timestamp, formatted))
                                          + Emitted(Fatal, FormatLine(stackTimestamp, stack))
      ensures consoleLines == old(consoleLines) + Echoed(Emitted(Fatal, FormatLine(timestamp, formatted))
                                                        + Emitted(Fatal, FormatLine(stackTimestamp, stack)))
      ensures |fileLines| == |old(fileLines)| + if Running() && Passes(currentLevel, Fatal) then 2 else 0
      ensures Text(fileLines) == old(Text(fileLines)) + Text(Emitted(Fatal, FormatLine(timestamp, formatted)))
                                                      + Text(Emitted(Fatal, FormatLine(stackTimestamp, stack)))
      ensures submitted == old(submitted) + Recorded(Fatal, FormatLine(timestamp, formatted))
                                          + Recorded(Fatal, FormatLine(stackTimestamp, stack))
    {
      ghost var first := Emitted(Fatal, FormatLine(timestamp, formatted));
      ghost var second := Emitted(Fatal, FormatLine(stackTimestamp, stack));
      LogMessage(Fatal, timestamp, formatted);
      LogMessage(Fatal, stackTimestamp, stack);
      assert Echoed(first + second) == Echoed(first) + Echoed(second);
    }

    method LogError(timestamp: string, formatted: string)
      requires Valid()
      modifies this`fileLines, this`consoleLines, this`submitted
      ensures Valid()
      ensures fileLines == old(fileLines) + Emitted(Error, FormatLine(timestamp, formatted))
      ensures consoleLines == old(consoleLines) + Echoed(Emitted(Error, FormatLine(timestamp, formatted)))
      ensures Text(fileLines) == old(Text(fileLines)) + Text(Emitted(Error, FormatLine(timestamp, formatted)))
      ensures submitted == old(submitted) + Recorded(Error, FormatLine(timestamp, formatted))
    {
      LogMessage(Error, timestamp, formatted);
    }

    method LogWarning(timestamp: string, formatted: string)
      requires Valid()
      modifies this`fileLines, this`consoleLines, this`submitted
      ensures Valid()
      ensures fileLines == old(fileLines) + Emitted(Warn, FormatLine(timestamp, formatted))
      ensures consoleLines == old(consoleLines) + Echoed(Emitted(Warn, FormatLine(timestamp, formatted)))
      ensures Text(fileLines) == old(Text(fileLines)) + Text(Emitted(Warn, FormatLine(timestamp, formatted)))
      ensures submitted == old(submitted) + Recorded(Warn, FormatLine(timestamp, formatted))
    {
      LogMessage(Warn, timestamp, formatted);
    }

    method LogInfo(timestamp: string, formatted: string)
      requires Valid()
      modifies this`fileLines, this`consoleLines, this`submitted
      ensures Valid()
      ensures fileLines == old(fileLines) + Emitted(Info, FormatLine(timestamp, formatted))
      ensures consoleLines == old(consoleLines) + Echoed(Emitted(Info, FormatLine(timestamp, formatted)))
      ensures Text(fileLines) == old(Text(fileLines)) + Text(Emitted(Info, FormatLine(timestamp, formatted)))
      ensures submitted == old(submitted) + Recorded(Info, FormatLine(timestamp, formatted))
    {
      LogMessage(Info, timestamp, formatted);
    }

    method LogDebug(timestamp: string, formatted: string)
      requires Valid()
      modifies this`fileLines, this`consoleLines, this`submitted
      ensures Valid()
      ensures fileLines == old(fileLines) + Emitted(Debug, FormatLine(timestamp, formatted))
      ensures consoleLines == old(consoleLines) + Echoed(Emitted(Debug, FormatLine(timestamp, formatted)))
      ensures Text(fileLines) == old(Text(fileLines)) + Text(Emitted(Debug, FormatLine(timestamp, formatted)))
      ensures submitted == old(submitted) + Recorded(Debug, FormatLine(timestamp, formatted))
    {
      LogMessage(Debug, timestamp, formatted);
    }

    /** Sends the stop signal and closes the channel. Here the worker takes
        the signal at once and returns, so nothing is written afterwards (in
        the source its next `select` may still take a waiting message first).
        A second call would send on the closed channel, which panics (see
        `SecondStopPanics`), so the logger must still be running. */
    method Stop()
      requires Valid() && Running()
      modifies this`stopChannel
      ensures Valid() && !Running()
      ensures stopChannel == StopChannel(false, true)
    {
      var outcome := StopSelect(stopChannel);
      if outcome.Sent? {
        stopChannel := outcome.channel;
      }
      // The worker's next select takes the signal and returns (taken at once here).
      stopChannel := stopChannel.(pending := false);
    }
  }

  /** `NewFileLogger`: `openError` is the error `os.OpenFile` reports, if
      any. On failure no logger is made and the error names the file; on
      success the logger is running with nothing written. */
  method NewFileLogger(fileName: string, level: LogLevel, maxRecords: uint64, toConsole: bool,
                       openError: Option<string>)
    returns (r: Result<FileLogger, string>)
    ensures r.Failure? <==> openError.Some?
    ensures openError.Some? ==> r.error == "cant open file" + fileName + " error:" + openError.value
    ensures r.Success? ==> fresh(r.value) && r.value.Valid() && r.value.Running()
    ensures r.Success? ==> r.value.currentLevel == level && r.value.tag == Name(level)
    ensures r.Success? ==> r.value.maxRecords == maxRecords && r.value.logToConsole == toConsole
    ensures r.Success? ==> r.value.fileLines == [] && r.value.consoleLines == [] && r.value.submitted == []
  {
    if openError.Some? {
      return Failure("cant open file" + fileName + " error:" + openError.value);
    }
    var logger := new FileLogger(level, maxRecords, toConsole);
    return Success(logger);
  }

  // ---------------------------------------------------------------------
  // Scenarios, stated through the logger's contracts alone

  /** A logger stopped before any message writes nothing. */
  method StopBeforeLogging(level: LogLevel, severity: LogLevel, timestamp: string, formatted: string)
    returns (file: seq<string>)
    ensures file == []
  {
    var logger := new FileLogger(level, 0, true);
    logger.Stop();
    logger.LogMessage(severity, timestamp, formatted);
    file := logger.fileLines;
  }

  /** A logger configured at Error drops both lines of `LogFatal`. */
  method FatalDroppedAtError(toConsole: bool, timestamp: string, formatted: string, stack: string)
    returns (file: seq<string>, console: seq<string>)
    ensures file == [] && console == []
  {
    var logger := new FileLogger(Error, 0, toConsole);
    logger.LogFatal(timestamp, formatted, timestamp, stack);
    file, console := logger.fileLines, logger.consoleLines;
  }

  /** At Fatal or below, `LogFatal` writes the message line, then the stack
      line, to the file and the echoing console alike. */
  method FatalWritesMessageThenStack(level: LogLevel, timestamp: string, formatted: string,
                                     stackTimestamp: string, stack: string)
    returns (file: seq<string>, console: seq<string>)
    requires level <= Fatal
    ensures file == [FormatLine(timestamp, formatted), FormatLine(stackTimestamp, stack)]
    ensures console == file
  {
    var logger := new FileLogger(level, 0, true);
    logger.LogFatal(timestamp, formatted, stackTimestamp, stack);
    file, console := logger.fileLines, logger.consoleLines;
  }

  /** Configured at Info, a Debug message is written and a Warn one dropped. */
  method InfoKeepsDebugDropsWarn(timestamp: string, formatted: string)
    returns (file: seq<string>, console: seq<string>)
    ensures file == [FormatLine(timestamp, formatted)]
    ensures console == []
  {
    var logger := new FileLogger(Info, 0, false);
    logger.LogWarning(timestamp, formatted);
    logger.LogDebug(timestamp, formatted);
    file, console := logger.fileLines, logger.consoleLines;
  }
}
