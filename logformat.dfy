/**
 * The pure part of the extension logger (src/logger.ts): its levels, the
 * filter, and the exact lines each logging call emits. Every function here
 * gives the lines a call appends to the output channel, as a function of the
 * logger's threshold and of the clock readings passed in.
 */
module LogFormat {
  import opened Wrappers
  import opened Text

  /** The four log levels, ordered DEBUG < INFO < WARN < ERROR. */
  datatype LogLevel = DEBUG | INFO | WARN | ERROR

  /** The numeric value of each level in the source's enum. */
  function Rank(level: LogLevel): nat
  {
    match level
    case DEBUG => 0
    case INFO => 1
    case WARN => 2
    case ERROR => 3
  }

  /** The name printed for a level. */
  function LevelName(level: LogLevel): (r: string)
    ensures LevelOf(r) == Some(level)
    ensures forall k :: 0 <= k < |r| ==> r[k] != ']'
  {
    match level
    case DEBUG => "DEBUG"
    case INFO => "INFO"
    case WARN => "WARN"
    case ERROR => "ERROR"
  }

  /** The level a printed name stands for. */
  function LevelOf(name: string): Option<LogLevel>
  {
    if name == "DEBUG" then Some(DEBUG)
    else if name == "INFO" then Some(INFO)
    else if name == "WARN" then Some(WARN)
    else if name == "ERROR" then Some(ERROR)
    else None
  }

  /** The levels a threshold lets through: itself and every level above it. */
  function PassedBy(threshold: LogLevel): set<LogLevel>
  {
    match threshold
    case DEBUG => {DEBUG, INFO, WARN, ERROR}
    case INFO => {INFO, WARN, ERROR}
    case WARN => {WARN, ERROR}
    case ERROR => {ERROR}
  }

  /**
   * A message of `level` passes a logger whose threshold is `threshold`: the
   * source compares the enum values, `logLevel <= level`.
   */
  function IsEnabled(threshold: LogLevel, level: LogLevel): (r: bool)
    ensures r <==> level in PassedBy(threshold)
  {
    Rank(threshold) <= Rank(level)
  }

  /** ERROR messages pass every threshold; DEBUG messages pass only the DEBUG threshold. */
  lemma FilterExtremes(threshold: LogLevel)
    ensures IsEnabled(threshold, ERROR)
    ensures IsEnabled(threshold, DEBUG) <==> threshold == DEBUG
  {
  }

  /** Raising the threshold never lets more messages through. */
  lemma FilterMonotone(low: LogLevel, high: LogLevel, level: LogLevel)
    requires Rank(low) <= Rank(high)
    ensures IsEnabled(high, level) ==> IsEnabled(low, level)
  {
  }

  /** The `[ctx]` part of a line: empty when the context is absent or empty. */
  function ContextPart(context: string): (r: string)
    ensures context == "" ==> r == ""
    ensures context != "" ==> |r| == |context| + 2 && r[0] == '[' && r[1..|r| - 1] == context && r[|r| - 1] == ']'
  {
    if context == "" then "" else "[" + context + "]"
  }

  /**
   * One formatted line: timestamp, elapsed milliseconds since the logger was
   * created, level name, optional context and the message.
   */
  function FormatMessage(timestamp: string, elapsed: int, level: LogLevel, message: string, context: string): (r: string)
    ensures |r| > |timestamp| + |message| + 4
    ensures r[..|timestamp| + 5] == "[" + timestamp + "] [+"
    ensures r[|r| - |message| - 1..] == " " + message
  {
    LineEnds("[", timestamp, "] [+", IntToString(elapsed), "ms] [", LevelName(level), "]", ContextPart(context), " ", message);
    "[" + timestamp + "] [+" + IntToString(elapsed) + "ms] [" + LevelName(level) + "]" + ContextPart(context) + " " + message
  }

  /** The fields a formatted line carries. */
  datatype LogEntry = LogEntry(timestamp: string, elapsed: int, level: LogLevel, context: string, message: string)

  /** Reads the fields back out of a line; None when the line does not have the format. */
  function ParseLine(line: string): Option<LogEntry>
  {
    if |line| == 0 || line[0] != '[' then None
    else
      var body := line[1..];
      var i := IndexOf(body, ']');
      match DropPrefix("] [+", body[i..])
      case None => None
      case Some(rest) => ParseAfterTimestamp(body[..i], rest)
  }

  function ParseAfterTimestamp(timestamp: string, rest: string): Option<LogEntry>
  {
    var j := IndexOf(rest, 'm');
    match (ParseInt(rest[..j]), DropPrefix("ms] [", rest[j..]))
    case (Some(elapsed), Some(after)) => ParseAfterElapsed(timestamp, elapsed, after)
    case _ => None
  }

  function ParseAfterElapsed(timestamp: string, elapsed: int, rest: string): Option<LogEntry>
  {
    var k := IndexOf(rest, ']');
    match (LevelOf(rest[..k]), DropPrefix("]", rest[k..]))
    case (Some(level), Some(after)) => ParseAfterLevel(timestamp, elapsed, level, after)
    case _ => None
  }

  function ParseAfterLevel(timestamp: string, elapsed: int, level: LogLevel, rest: string): Option<LogEntry>
  {
    if |rest| > 0 && rest[0] == ' ' then
      Some(LogEntry(timestamp, elapsed, level, "", rest[1..]))
    else if |rest| > 0 && rest[0] == '[' then
      var inner := rest[1..];
      var c := IndexOf(inner, ']');
      match DropPrefix("] ", inner[c..])
      case None => None
      case Some(message) => Some(LogEntry(timestamp, elapsed, level, inner[..c], message))
    else None
  }

  /**
   * Cutting `a + p + b` at the first `c`, where `a` holds no `c` and `p` starts
   * with it, gives back `a`, and dropping `p` from the remainder gives back `b`.
   */
  lemma CutAt(a: string, p: string, b: string, c: char)
    requires forall k :: 0 <= k < |a| ==> a[k] != c
    requires |p| > 0 && p[0] == c
    ensures IndexOf(a + p + b, c) == |a|
    ensures (a + p + b)[..|a|] == a
    ensures DropPrefix(p, (a + p + b)[|a|..]) == Some(b)
  {
    var s := a + p + b;
    assert s == a + (p + b);
    IndexOfConcat(a, p + b, c);
    assert s[|a|..] == p + b;
    assert (p + b)[..|p|] == p;
  }

  /** The fields after the level: `[ctx] message`, or ` message` when there is no context. */
  lemma ParseAfterLevelOk(timestamp: string, elapsed: int, level: LogLevel, message: string, context: string)
    requires forall k :: 0 <= k < |context| ==> context[k] != ']'
    ensures ParseAfterLevel(timestamp, elapsed, level, ContextPart(context) + " " + message)
            == Some(LogEntry(timestamp, elapsed, level, context, message))
  {
    var after := ContextPart(context) + " " + message;
    if context != "" {
      assert after == "[" + (context + "] " + message);
      assert after[1..] == context + "] " + message;
      CutAt(context, "] ", message, ']');
    } else {
      assert after == " " + message;
    }
  }

  lemma ParseAfterElapsedOk(timestamp: string, elapsed: int, level: LogLevel, after: string, entry: LogEntry)
    requires ParseAfterLevel(timestamp, elapsed, level, after) == Some(entry)
    ensures ParseAfterElapsed(timestamp, elapsed, LevelName(level) + "]" + after) == Some(entry)
  {
    CutAt(LevelName(level), "]", after, ']');
  }

  lemma ParseAfterTimestampOk(timestamp: string, elapsed: int, after: string, entry: LogEntry)
    requires ParseAfterElapsed(timestamp, elapsed, after) == Some(entry)
    ensures ParseAfterTimestamp(timestamp, IntToString(elapsed) + "ms] [" + after) == Some(entry)
  {
    IntToStringChars(elapsed);
    IntToStringRoundTrip(elapsed);
    CutAt(IntToString(elapsed), "ms] [", after, 'm');
  }

  lemma ParseLineOk(timestamp: string, after: string, entry: LogEntry)
    requires forall k :: 0 <= k < |timestamp| ==> timestamp[k] != ']'
    requires ParseAfterTimestamp(timestamp, after) == Some(entry)
    ensures ParseLine("[" + timestamp + "] [+" + after) == Some(entry)
  {
    var body := timestamp + "] [+" + after;
    var line := "[" + timestamp + "] [+" + after;
    assert line == "[" + body by {
      AppendAssoc("[", timestamp, "] [+");
      AppendAssoc("[", timestamp + "] [+", after);
    }
    assert line[0] == '[' && line[1..] == body;
    assert IndexOf(body, ']') == |timestamp| && body[..|timestamp|] == timestamp
           && DropPrefix("] [+", body[|timestamp|..]) == Some(after) by {
      CutAt(timestamp, "] [+", after, ']');
    }
  }

  /**
   * Every line the logger formats can be read back field by field, so long as
   * the timestamp and the context hold no `]` (an ISO-8601 timestamp never does).
   */
  lemma FormatMessageParses(timestamp: string, elapsed: int, level: LogLevel, message: string, context: string)
    requires forall k :: 0 <= k < |timestamp| ==> timestamp[k] != ']'
    requires forall k :: 0 <= k < |context| ==> context[k] != ']'
    ensures ParseLine(FormatMessage(timestamp, elapsed, level, message, context))
            == Some(LogEntry(timestamp, elapsed, level, context, message))
  {
    var entry := LogEntry(timestamp, elapsed, level, context, message);
    var a3 := ContextPart(context) + " " + message;
    var a2 := LevelName(level) + "]" + a3;
    var a1 := IntToString(elapsed) + "ms] [" + a2;
    ParseAfterLevelOk(timestamp, elapsed, level, message, context);
    ParseAfterElapsedOk(timestamp, elapsed, level, a3, entry);
    ParseAfterTimestampOk(timestamp, elapsed, a2, entry);
    ParseLineOk(timestamp, a1, entry);
    Reassociate("[", timestamp, "] [+", IntToString(elapsed), "ms] [", LevelName(level), "]", ContextPart(context), " ", message);
  }

  /**
   * Without the restriction on the context the format is ambiguous: a context
   * holding `]` prints the same line as a different context and message.
   */
  lemma ContextAmbiguity()
    ensures FormatMessage("Z", 0, INFO, "b] c", "a") == FormatMessage("Z", 0, INFO, "c", "a] b")
  {
  }

  /** The head and the tail of the ten-part concatenation `FormatMessage` is written as. */
  lemma LineEnds(s0: string, s1: string, s2: string, s3: string, s4: string, s5: string, s6: string, s7: string, s8: string, s9: string)
    ensures var r := s0 + s1 + s2 + s3 + s4 + s5 + s6 + s7 + s8 + s9;
            && r[..|s0| + |s1| + |s2|] == s0 + s1 + s2
            && r[|r| - |s8| - |s9|..] == s8 + s9
  {
  }

  /** Regrouping of the eleven-part concatenation `FormatMessage` is written as. */
  lemma Reassociate(s0: string, s1: string, s2: string, s3: string, s4: string, s5: string, s6: string, s7: string, s8: string, s9: string)
    ensures s0 + s1 + s2 + s3 + s4 + s5 + s6 + s7 + s8 + s9
            == s0 + s1 + s2 + (s3 + s4 + (s5 + s6 + (s7 + s8 + s9)))
  {
  }

  /** The lines `debug`, `info` and `warn` append: one formatted line if the filter lets it through, else none. */
  function MessageLines(threshold: LogLevel, level: LogLevel, timestamp: string, elapsed: int, message: string, context: string): (r: seq<string>)
    ensures |r| <= 1
    ensures r != [] <==> Rank(threshold) <= Rank(level)
  {
    if IsEnabled(threshold, level) then [FormatMessage(timestamp, elapsed, level, message, context)] else []
  }

  /** The announcement `setLogLevel` logs at INFO after storing the new level. */
  function Announcement(level: LogLevel): string
  {
    "Log level set to: " + LevelName(level)
  }

  /**
   * The lines `setLogLevel(level)` appends: the announcement passes the new
   * threshold exactly when that threshold is DEBUG or INFO.
   */
  lemma AnnouncementShown(level: LogLevel, timestamp: string, elapsed: int)
    ensures MessageLines(level, INFO, timestamp, elapsed, Announcement(level), "") != [] <==> (level == DEBUG || level == INFO)
    ensures level == WARN || level == ERROR ==> MessageLines(level, INFO, timestamp, elapsed, Announcement(level), "") == []
  {
  }

  /**
   * The second argument of `error`, as far as the logger looks at it: a falsy
   * value, an `Error` instance (its message and its optional stack), or any
   * other truthy value together with its `String(...)` rendering.
   */
  datatype ErrorArg = NoError | ErrObj(message: string, stack: Option<string>) | Other(text: string)

  /** The stack of an `Error` counts only when it is present and non-empty (truthy). */
  predicate HasStack(stack: Option<string>)
  {
    stack.Some? && stack.value != ""
  }

  /** The indented lines `error` appends after its formatted line. */
  function ErrorDetail(err: ErrorArg): seq<string>
  {
    match err
    case NoError => []
    case ErrObj(message, stack) =>
      ["  Error: " + message] + (if HasStack(stack) then ["  Stack: " + stack.value] else [])
    case Other(text) => ["  Error: " + text]
  }

  /**
   * The detail lines read back as what they report: each is indented, so none
   * can be taken for a formatted log line; the first gives back the error's
   * message (or the value's rendering) behind `  Error: `, and a second line,
   * present exactly when an `Error` has a non-empty stack, gives back that
   * stack behind `  Stack: `.
   */
  lemma ErrorDetailReadBack(err: ErrorArg)
    ensures var r := ErrorDetail(err);
            && (forall i :: 0 <= i < |r| ==> IsIndented(r[i]) && ParseLine(r[i]) == None)
            && (r == [] <==> err.NoError?)
            && (err.ErrObj? ==> |r| >= 1 && DropPrefix("  Error: ", r[0]) == Some(err.message))
            && (err.Other? ==> |r| == 1 && DropPrefix("  Error: ", r[0]) == Some(err.text))
            && (err.ErrObj? ==> (|r| == 2 <==> HasStack(err.stack)))
            && (err.ErrObj? && HasStack(err.stack) ==> DropPrefix("  Stack: ", r[1]) == Some(err.stack.value))
  {
  }

  /**
   * The lines `error(message, err, context)` appends. `error` is never
   * filtered out: it appends its formatted line first and then one, two or no
   * detail lines depending on the error argument.
   */
  function ErrorLines(threshold: LogLevel, timestamp: string, elapsed: int, message: string, err: ErrorArg, context: string): (r: seq<string>)
    ensures |r| == (match err
                    case NoError => 1
                    case ErrObj(_, stack) => if HasStack(stack) then 3 else 2
                    case Other(_) => 2)
    ensures r[0] == FormatMessage(timestamp, elapsed, ERROR, message, context)
    ensures r[1..] == ErrorDetail(err)
  {
    if IsEnabled(threshold, ERROR) then [FormatMessage(timestamp, elapsed, ERROR, message, context)] + ErrorDetail(err)
    else []
  }

  /** The line `separator` writes without a title: fifty `=`. */
  const PlainSeparator := Repeat('=', 50)

  /**
   * The line `separator(title)` writes: the title framed by a blank line and
   * twenty `=` on each side, or a plain rule when the title is absent or empty.
   */
  function SeparatorLine(title: string): (r: string)
    ensures title == "" ==> |r| == 50 && forall k :: 0 <= k < |r| ==> r[k] == '='
    ensures title != "" ==> |r| == |title| + 43 && r[0] == '\n'
                            && (forall k :: 1 <= k <= 20 ==> r[k] == '=')
                            && r[21] == ' ' && r[22..22 + |title|] == title && r[22 + |title|] == ' '
                            && (forall k :: 23 + |title| <= k < |r| ==> r[k] == '=')
  {
    if title != "" then "\n" + Repeat('=', 20) + " " + title + " " + Repeat('=', 20)
    else PlainSeparator
  }

  /** The operation token `startOperation` hands back: what it names and when it began. */
  datatype Operation = Operation(name: string, context: string, start: int)

  function StartedMessage(name: string): string
  {
    "Starting: " + name
  }

  function CompletedMessage(name: string, duration: int): string
  {
    "Completed: " + name + " (" + IntToString(duration) + "ms)"
  }

  /**
   * When the clock has not gone backwards, the duration a completion line
   * reports is unsigned and reads back as exactly the time since the start.
   */
  lemma CompletedDuration(op: Operation, now: int)
    requires op.start <= now
    ensures var m := CompletedMessage(op.name, now - op.start);
            var d := IntToString(now - op.start);
            && m == "Completed: " + op.name + " (" + d + "ms)"
            && AllDigits(d) && ParseInt(d) == Some(now - op.start) && now - op.start >= 0
  {
    IntToStringChars(now - op.start);
    IntToStringRoundTrip(now - op.start);
  }

  /** A continuation line: it starts with two spaces, so it never starts a formatted line's `[`. */
  predicate IsIndented(line: string)
  {
    |line| >= 2 && line[0] == ' ' && line[1] == ' '
  }

  /** A continuation line is never read as a formatted log line. */
  lemma IndentedIsNotEntry(line: string)
    requires IsIndented(line)
    ensures ParseLine(line) == None
  {
  }

  /** Each JSON line indented by two spaces, as `debugObject` writes it, in order. */
  function Indented(parts: seq<string>): (r: seq<string>)
    ensures |r| == |parts|
    ensures forall i :: 0 <= i < |r| ==> IsIndented(r[i])
  {
    if |parts| == 0 then [] else Indented(parts[..|parts| - 1]) + ["  " + parts[|parts| - 1]]
  }

  /** The `i`-th written line is the `i`-th JSON line behind a two-space indent. */
  lemma {:induction false} IndentedAt(parts: seq<string>, i: nat)
    requires i < |parts|
    ensures Indented(parts)[i] == "  " + parts[i]
    decreases |parts|
  {
    var n := |parts| - 1;
    if i < n {
      assert parts[..n][i] == parts[i];
      IndentedAt(parts[..n], i);
    }
  }

  lemma IndentedSnoc(parts: seq<string>, i: nat)
    requires i < |parts|
    ensures Indented(parts[..i + 1]) == Indented(parts[..i]) + ["  " + parts[i]]
  {
    assert parts[..i + 1][..i] == parts[..i];
  }

  /** The line `debugObject` writes when the value cannot be serialised. */
  const StringifyFailure := "  [Unable to stringify object]"

  /**
   * The lines `debugObject` writes below its label line, given the value's
   * pretty-printed JSON (None when serialising throws or yields nothing).
   */
  function JsonLines(json: Option<string>): (r: seq<string>)
    ensures |r| >= 1
    ensures forall i :: 0 <= i < |r| ==> IsIndented(r[i])
  {
    match json
    case None => [StringifyFailure]
    case Some(text) => Indented(Split(text, '\n'))
  }

  /** The lines `debugObject(label, value, context)` appends, `heading` being the label. */
  function DebugObjectLines(threshold: LogLevel, timestamp: string, elapsed: int, heading: string, json: Option<string>, context: string): (r: seq<string>)
    ensures r == [] <==> threshold != DEBUG
    ensures r != [] ==> |r| >= 2 && r[0] == FormatMessage(timestamp, elapsed, DEBUG, heading + ":", context)
                        && forall i :: 1 <= i < |r| ==> IsIndented(r[i])
  {
    if IsEnabled(threshold, DEBUG) then [FormatMessage(timestamp, elapsed, DEBUG, heading + ":", context)] + JsonLines(json)
    else []
  }

  /**
   * What `debugObject` writes loses nothing: below the label line there is
   * one line per JSON line, each that line behind a two-space indent; no JSON
   * line holds a newline, and joining them with newlines gives back the text.
   */
  lemma {:induction false} DebugObjectRecoversJson(threshold: LogLevel, timestamp: string, elapsed: int, heading: string, text: string, context: string)
    requires threshold == DEBUG
    ensures var r := DebugObjectLines(threshold, timestamp, elapsed, heading, Some(text), context);
            var pieces := Split(text, '\n');
            && |r| == |pieces| + 1
            && r[0] == FormatMessage(timestamp, elapsed, DEBUG, heading + ":", context)
            && (forall i :: 0 <= i < |pieces| ==> r[i + 1] == "  " + pieces[i])
            && (forall i, k :: 0 <= i < |pieces| && 0 <= k < |pieces[i]| ==> pieces[i][k] != '\n')
            && Join(pieces, '\n') == text
  {
    var r := DebugObjectLines(threshold, timestamp, elapsed, heading, Some(text), context);
    var pieces := Split(text, '\n');
    assert r[1..] == Indented(pieces);
    forall i | 0 <= i < |pieces|
      ensures r[i + 1] == "  " + pieces[i]
    {
      assert r[i + 1] == r[1..][i];
      IndentedAt(pieces, i);
    }
    SplitPieces(text, '\n');
    JoinSplit(text, '\n');
  }
}
