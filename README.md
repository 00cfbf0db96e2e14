# Lumina Blocks Preview logger, in Dafny

This project models the leveled logger of the Lumina Blocks Preview editor
extension (`src/logger.ts`). The logger is a process-wide singleton with a
threshold level (DEBUG < INFO < WARN < ERROR), a start time and an output
channel. Its calls append fully formatted lines to that channel, or nothing
when the level filter stops them.

Files:

- `wrappers.dfy` — `Option`, used for the source's optional values.
- `text.dfy` — string helpers the line format is built from:
  - first-occurrence search;
  - `'='.repeat(n)`;
  - decimal rendering of integers, with its parser and the round trip between them;
  - `split('\n')`, with the join that undoes it.
- `logformat.dfy` — the pure side:
  - levels, their names and the filter;
  - the exact line `formatMessage` builds, with a parser that reads its fields back;
  - the lines each logging call appends, as functions of the threshold and the clock readings.
- `logger.dfy` — the stateful side:
  - the output channel (its lines and a disposed flag);
  - the `Logger` class, whose methods append to the channel;
  - the `Singleton` holder of the static instance, with `GetInstance`, `GetLogger` and `Dispose`.

The clock is not read. Each call that formats a line takes the ISO timestamp
(`timestamp`) and the current time in milliseconds (`now`) as parameters; the
elapsed field is `now - startTime`. Optional `context` and `title` arguments
are strings, where `""` stands for both an absent and an empty argument; the
source treats the two alike because it tests their truthiness. The `error?`
argument of `error` is `ErrorArg`:

- `NoError` stands for any falsy value;
- `ErrObj(message, stack)` stands for an `Error` instance;
- `Other(text)` stands for any other truthy value, carrying its `String(...)` rendering.

## Model

| member | source | states |
|---|---|---|
| `Logging.Singleton.GetInstance` | src/logger.ts:32-37 | returns the held logger unchanged when there is one; otherwise builds and stores a fresh logger with a fresh channel named "Lumina Blocks Preview", level DEBUG, no lines and start time `now` |
| `Logging.GetLogger` | src/logger.ts:199-201 | same outcome as `GetInstance` on the process-wide holder |
| `Logging.Logger.constructor` | src/logger.ts:19-27 | a new logger owns a new, empty, undisposed channel named "Lumina Blocks Preview", has level DEBUG and records `now` as its start time |
| `Logging.OutputChannel.AppendLine` | src/logger.ts:108 | the channel's lines grow by exactly the given line |
| `Logging.Logger.Dispose` | src/logger.ts:42-45 | the channel is disposed with its lines untouched, and the holder is emptied, so the next `GetInstance` builds a new logger |
| `Logging.OutputChannel.Dispose` | src/logger.ts:43 | the channel is marked disposed and keeps the lines written to it |
| `Logging.Logger.SetLogLevel` | src/logger.ts:50-54 | the level is stored first; the appended lines are the INFO announcement `Log level set to: <NAME>` filtered by the new level |
| `LogFormat.AnnouncementShown` | src/logger.ts:50-54 | the announcement is written iff the new level is DEBUG or INFO, and is suppressed for WARN and ERROR |
| `Logging.Logger.GetLogLevel` | src/logger.ts:77-79 | returns the current threshold |
| `LogFormat.LevelName` | src/logger.ts:59-72 | each level's printed name reads back as that level (so names are distinct) and holds no `]` |
| `LogFormat.ContextPart` | src/logger.ts:98 | empty for an absent or empty context; otherwise the context framed by `[` and `]`, two characters longer |
| `LogFormat.FormatMessage` | src/logger.ts:91-100 | a formatted line starts with `[`, the timestamp and `] [+`, and ends with a space followed by the message |
| `LogFormat.FormatMessageParses` | src/logger.ts:91-100 | a formatted line reads back as exactly its timestamp, elapsed milliseconds, level, context and message; the `[ctx]` part appears only for a non-empty context; this holds whenever timestamp and context hold no `]` |
| `LogFormat.ContextAmbiguity` | src/logger.ts:98-99 | a context holding `]` can print the same line as a different context and message, so the read-back above needs a context free of `]` |
| `Text.IntToStringRoundTrip` | src/logger.ts:97 | the decimal rendering of any integer, negative ones included, reads back as that integer |
| `Text.NatToString` | src/logger.ts:97 | a non-negative number renders as a non-empty digit string with no leading zero |
| `Text.IntToString` | src/logger.ts:97 | a non-negative number renders as a non-empty digit string; a negative one as `-` followed by a non-empty digit string |
| `LogFormat.MessageLines` | src/logger.ts:105-130 | a `debug`/`info`/`warn` call appends at most one line, and appends one iff the threshold's rank is at most the message level's rank |
| `LogFormat.FilterExtremes` | src/logger.ts:105-150 | ERROR passes every threshold; DEBUG passes only the DEBUG threshold |
| `LogFormat.FilterMonotone` | src/logger.ts:105-150 | raising the threshold never lets more messages through |
| `LogFormat.IsEnabled` | src/logger.ts:105-150 | the `logLevel <= level` test of each call lets a message through exactly when its level is the threshold or one above it: DEBUG lets all four through, INFO three, WARN two, ERROR only ERROR |
| `Logging.Logger.Debug` | src/logger.ts:105-110 | appends the DEBUG line when the filter passes it, else leaves the channel unchanged |
| `Logging.Logger.Info` | src/logger.ts:115-120 | appends the INFO line when the filter passes it, else leaves the channel unchanged |
| `Logging.Logger.Warn` | src/logger.ts:125-130 | appends the WARN line when the filter passes it, else leaves the channel unchanged |
| `Logging.Logger.Error` | src/logger.ts:135-150 | appends exactly the lines `ErrorLines` gives for the current threshold and error argument |
| `LogFormat.ErrorDetailReadBack` | src/logger.ts:139-148 | the detail lines read back as what they report: each starts with two spaces, so none parses as a formatted log line; there is none exactly for a falsy argument; the first gives back the Error's message, or the other value's rendering, behind `  Error: `; an Error gets a second line exactly when its stack is present and non-empty, and that line gives back the stack behind `  Stack: ` |
| `LogFormat.ErrorLines` | src/logger.ts:135-150 | an `error` call always writes, whatever the threshold: 1 line for a falsy argument, 2 for an Error without stack or another value, 3 for an Error with stack; the formatted ERROR line comes first and the detail lines follow |
| `Logging.Logger.DebugObject` | src/logger.ts:155-168 | when DEBUG is enabled, appends the `label:` line, then either one indented line per JSON line or the placeholder line; otherwise nothing |
| `Logging.Logger.AppendJson` | src/logger.ts:159-166 | appends the JSON lines, indented, when there is JSON text, and the `  [Unable to stringify object]` placeholder when serialising failed |
| `Logging.Logger.AppendIndented` | src/logger.ts:161-163 | the `forEach` loop appends every JSON line behind a two-space indent, in order, and nothing else |
| `LogFormat.Indented` | src/logger.ts:161-163 | one written line per JSON line, each starting with two spaces |
| `LogFormat.IndentedAt` | src/logger.ts:161-163 | the i-th indented line is two spaces followed by the i-th JSON line |
| `LogFormat.JsonLines` | src/logger.ts:159-166 | at least one line is written below the label, the placeholder included, and every such line starts with two spaces |
| `LogFormat.DebugObjectLines` | src/logger.ts:155-168 | nothing unless the threshold is DEBUG; otherwise at least two lines: the DEBUG `label:` line, then only lines starting with two spaces |
| `LogFormat.DebugObjectRecoversJson` | src/logger.ts:155-168 | with DEBUG enabled, the label line comes first and then one line per JSON line, each that line behind a two-space indent; no JSON line holds a newline, and joining them with newlines gives back the JSON text |
| `Text.Split` | src/logger.ts:161 | yields at least one piece, even for empty text |
| `Text.SplitPieces` | src/logger.ts:161 | no piece of a split contains the separator |
| `Text.JoinSplit` | src/logger.ts:161 | joining the pieces of a split with the separator gives back the original text |
| `Text.SplitJoin` | src/logger.ts:161 | splitting a join of separator-free pieces gives back the same pieces |
| `Logging.Logger.StartOperation` | src/logger.ts:173-176 | returns a token holding the name, the context and the start time; appends the DEBUG `Starting: <name>` line when DEBUG is enabled |
| `Logging.Logger.CompleteOperation` | src/logger.ts:176-179 | each call appends the DEBUG `Completed: <name> (<now - start>ms)` line when DEBUG is enabled |
| `LogFormat.CompletedDuration` | src/logger.ts:176-179 | when the clock has not gone back, the duration reported is non-negative, written with digits only, and reads back as `now - start` |
| `Logging.Logger.Separator` | src/logger.ts:185-193 | always appends exactly one line, whatever the level |
| `LogFormat.SeparatorLine` | src/logger.ts:185-193 | with a non-empty title: a newline, 20 `=`, a space, the title, a space and 20 `=` (length of the title + 43); with no title: 50 `=` |
| `Text.Repeat` | src/logger.ts:188-191 | `c.repeat(n)` is exactly `n` characters, each of them `c` |

## Left out

- `show` (src/logger.ts:84-86) only reveals the channel in the host UI; nothing in the model depends on it.
- `LevelName`: TypeScript lets any number stand for a `LogLevel`. The model's level type has exactly the four members, so the `UNKNOWN` branch of `getLevelName` cannot be reached. Neither can the way an out-of-range number would react to the filter.
- Clock readings: a call is modelled as happening at one instant, `now`, with one `timestamp`. The source reads `Date.now()` and `new Date()` anew inside `formatMessage`. `startOperation`, for example, reads the clock twice, and the model uses the same value for both readings.
- `toISOString()` is not modelled; the timestamp is an input. `FormatMessageParses` needs a timestamp with no `]`, and an ISO-8601 string never holds one.
- `JSON.stringify(obj, null, 2)` (src/logger.ts:160) is a runtime library. `DebugObject` takes its result as an `Option<string>`, where `None` stands for it throwing or returning `undefined`. In both cases the source falls back to the placeholder line.
- `Logging.Logger.Error`: `String(value)` (src/logger.ts:146) can itself throw, for instance for an object without a prototype; `error` then raises after its formatted line is written. `ErrorArg.Other` carries a rendering that always exists, so that exception is not modelled.
- `Logging.OutputChannel.AppendLine`: the host's reaction to writes after `dispose` is not modelled; the model just keeps appending.
- `Text.IntToString`: number-to-text conversion covers integers only. Clock differences are always safe integers, so JavaScript's exponent notation for huge numbers is not modelled.
- `Logging.Logger.CompleteOperation`: the closure of `startOperation` is a token (`Operation`) plus a method on the logger. The closure's hidden link to the logger that created it is left to the caller.
- The rest of the repository is not part of this model:
  - `src/utils.ts` wraps the runtime's JSON parser;
  - `src/LuminaBlocksEditorProvider.ts` returns a fixed page;
  - `src/extension.ts` is host registration plumbing;
  - `src/errors.ts` holds plain error classes.
