/**
 * The extension's logger (src/logger.ts) as objects: the output channel it
 * writes to, the logger itself, and the process-wide holder of the single
 * instance. The clock is not read here: every call that formats a line takes
 * the ISO timestamp and the current time in milliseconds (`now`) as inputs.
 */
module Logging {
  import opened Wrappers
  import opened LogFormat

  /** The host's output channel: the lines written so far and whether it was disposed. */
  class OutputChannel {
    const name: string
    var lines: seq<string>
    var disposed: bool

    constructor (name: string)
      ensures this.name == name && lines == [] && !disposed
    {
      this.name := name;
      lines := [];
      disposed := false;
    }

    method AppendLine(line: string)
      modifies this
      ensures lines == old(lines) + [line] && disposed == old(disposed)
    {
      lines := lines + [line];
    }

    method Dispose()
      modifies this
      ensures disposed && lines == old(lines)
    {
      disposed := true;
    }
  }

  /** The holder of the process-wide instance (the static `Logger.instance`). */
  class Singleton {
    var instance: Logger?

    constructor ()
      ensures instance == null
    {
      instance := null;
    }

    /**
     * The current logger; a fresh one, with a new channel, the DEBUG level and
     * `now` as start time, only when there is none.
     */
    method GetInstance(now: int) returns (logger: Logger)
      modifies this
      ensures instance == logger
      ensures old(instance) != null ==> logger == old(instance)
      ensures old(instance) == null ==>
                fresh(logger) && fresh(logger.channel) && logger.channel.name == ChannelName
                && logger.logLevel == DEBUG && logger.startTime == now
                && logger.channel.lines == [] && !logger.channel.disposed
    {
      if instance == null {
        instance := new Logger(now);
      }
      logger := instance;
    }
  }

  /** The convenience accessor: the same as asking the holder for its instance. */
  method GetLogger(holder: Singleton, now: int) returns (logger: Logger)
    modifies holder
    ensures holder.instance == logger
    ensures old(holder.instance) != null ==> logger == old(holder.instance)
    ensures old(holder.instance) == null ==>
              fresh(logger) && fresh(logger.channel) && logger.channel.name == ChannelName
              && logger.logLevel == DEBUG && logger.startTime == now
              && logger.channel.lines == [] && !logger.channel.disposed
  {
    logger := holder.GetInstance(now);
  }

  /** The name the logger's channel is created under. */
  const ChannelName := "Lumina Blocks Preview"

  class Logger {
    const channel: OutputChannel
    var logLevel: LogLevel
    const startTime: int

    constructor (now: int)
      ensures fresh(channel) && channel.name == ChannelName && channel.lines == [] && !channel.disposed
      ensures logLevel == DEBUG && startTime == now
    {
      channel := new OutputChannel(ChannelName);
      logLevel := DEBUG;
      startTime := now;
    }

    /** Releases the channel and empties the holder, so the next access builds a new logger. */
    method Dispose(holder: Singleton)
      modifies channel, holder
      ensures channel.disposed && channel.lines == old(channel.lines)
      ensures holder.instance == null
    {
      channel.Dispose();
      holder.instance := null;
    }

    /** Stores the new threshold, then announces it at INFO under that threshold. */
    method SetLogLevel(level: LogLevel, timestamp: string, now: int)
      modifies this, channel
      ensures logLevel == level
      ensures channel.lines == old(channel.lines) + MessageLines(level, INFO, timestamp, now - startTime, Announcement(level), "")
      ensures channel.disposed == old(channel.disposed)
    {
      logLevel := level;
      Info(Announcement(level), "", timestamp, now);
    }

    method GetLogLevel() returns (level: LogLevel)
      ensures level == logLevel
    {
      level := logLevel;
    }

    method Debug(message: string, context: string, timestamp: string, now: int)
      modifies channel
      ensures channel.lines == old(channel.lines) + MessageLines(logLevel, DEBUG, timestamp, now - startTime, message, context)
      ensures channel.disposed == old(channel.disposed)
    {
      if Rank(logLevel) <= Rank(DEBUG) {
        channel.AppendLine(FormatMessage(timestamp, now - startTime, DEBUG, message, context));
      }
    }

    method Info(message: string, context: string, timestamp: string, now: int)
      modifies channel
      ensures channel.lines == old(channel.lines) + MessageLines(logLevel, INFO, timestamp, now - startTime, message, context)
      ensures channel.disposed == old(channel.disposed)
    {
      if Rank(logLevel) <= Rank(INFO) {
        channel.AppendLine(FormatMessage(timestamp, now - startTime, INFO, message, context));
      }
    }

    method Warn(message: string, context: string, timestamp: string, now: int)
      modifies channel
      ensures channel.lines == old(channel.lines) + MessageLines(logLevel, WARN, timestamp, now - startTime, message, context)
      ensures channel.disposed == old(channel.disposed)
    {
      if Rank(logLevel) <= Rank(WARN) {
        channel.AppendLine(FormatMessage(timestamp, now - startTime, WARN, message, context));
      }
    }

    method Error(message: string, err: ErrorArg, context: string, timestamp: string, now: int)
      modifies channel
      ensures channel.lines == old(channel.lines) + ErrorLines(logLevel, timestamp, now - startTime, message, err, context)
      ensures channel.disposed == old(channel.disposed)
    {
      if Rank(logLevel) <= Rank(ERROR) {
        channel.AppendLine(FormatMessage(timestamp, now - startTime, ERROR, message, context));
        match err
        case NoError =>
        case ErrObj(errorMessage, stack) =>
          channel.AppendLine("  Error: " + errorMessage);
          if HasStack(stack) {
            channel.AppendLine("  Stack: " + stack.value);
          }
        case Other(text) =>
          channel.AppendLine("  Error: " + text);
      }
    }

    /** Logs the label, then the value's JSON one indented line at a time. */
    method DebugObject(heading: string, json: Option<string>, context: string, timestamp: string, now: int)
      modifies channel
      ensures channel.lines == old(channel.lines) + DebugObjectLines(logLevel, timestamp, now - startTime, heading, json, context)
      ensures channel.disposed == old(channel.disposed)
    {
      if Rank(logLevel) <= Rank(DEBUG) {
        var first := FormatMessage(timestamp, now - startTime, DEBUG, heading + ":", context);
        ghost var before := channel.lines;
        channel.AppendLine(first);
        AppendJson(json);
        Text.AppendAssoc(before, [first], JsonLines(json));
      }
    }

    /** The `try`/`catch` of `debugObject`: the JSON lines, or the placeholder when there is no JSON text. */
    method AppendJson(json: Option<string>)
      modifies channel
      ensures channel.lines == old(channel.lines) + JsonLines(json)
      ensures channel.disposed == old(channel.disposed)
    {
      match json
      case None =>
        channel.AppendLine(StringifyFailure);
      case Some(text) =>
        AppendIndented(Text.Split(text, '\n'));
    }

    /** The `forEach` of `debugObject`: appends each JSON line, indented, in order. */
    method AppendIndented(parts: seq<string>)
      modifies channel
      ensures channel.lines == old(channel.lines) + Indented(parts)
      ensures channel.disposed == old(channel.disposed)
    {
      var i := 0;
      while i < |parts|
        invariant 0 <= i <= |parts|
        invariant channel.lines == old(channel.lines) + Indented(parts[..i])
        invariant channel.disposed == old(channel.disposed)
      {
        IndentedSnoc(parts, i);
        channel.AppendLine("  " + parts[i]);
        i := i + 1;
      }
      assert parts[..i] == parts;
    }

    /** Logs the start of an operation at DEBUG and hands back its token. */
    method StartOperation(name: string, context: string, timestamp: string, now: int) returns (op: Operation)
      modifies channel
      ensures op == Operation(name, context, now)
      ensures channel.lines == old(channel.lines) + MessageLines(logLevel, DEBUG, timestamp, now - startTime, StartedMessage(name), context)
      ensures channel.disposed == old(channel.disposed)
    {
      op := Operation(name, context, now);
      Debug(StartedMessage(name), context, timestamp, now);
    }

    /** One call of the closure `startOperation` returns: logs the completion and its duration at DEBUG. */
    method CompleteOperation(op: Operation, timestamp: string, now: int)
      modifies channel
      ensures channel.lines == old(channel.lines)
                + MessageLines(logLevel, DEBUG, timestamp, now - startTime, CompletedMessage(op.name, now - op.start), op.context)
      ensures channel.disposed == old(channel.disposed)
    {
      var duration := now - op.start;
      Debug(CompletedMessage(op.name, duration), op.context, timestamp, now);
    }

    /** Writes a divider line, whatever the threshold. */
    method Separator(title: string)
      modifies channel
      ensures channel.lines == old(channel.lines) + [SeparatorLine(title)]
      ensures channel.disposed == old(channel.disposed)
    {
      if title != "" {
        channel.AppendLine("\n" + Text.Repeat('=', 20) + " " + title + " " + Text.Repeat('=', 20));
      } else {
        channel.AppendLine(Text.Repeat('=', 50));
      }
    }
  }
}
