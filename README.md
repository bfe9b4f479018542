# go-log formatting and routing core, in Dafny

This project models the internal layer of the `go-log` leveled console logger
(`logger_internal.go`). Every public print function goes through this layer.

- `formatMessage` joins the operands of a log call with single spaces, the way
  `fmt.Sprintln` does. It then trims the trailing spaces, newlines and carriage returns.
- `formatSeparator` builds a banner line: a fill string repeated to a width, or
  four fills, `[ label ]`, and a trailing run of fills that pads to the width
  without ever cutting the label.
- `printMessage` upper-cases the level and optionally puts `"<time> | LEVEL | "` in
  front of the message. It optionally wraps the line in the level's colour. It then
  writes the line and a newline to standard error (ERROR, FATAL) or to standard
  output (every other level).
- `causeOfError` follows `Cause()` links down a chain of wrapped errors. It stops
  at the first error that is nil or has no `Cause()`.

Modules:

- `Text` (`text.dfy`): the library helpers the core relies on, as functions with
  their properties. These are `strings.Repeat`, the space join of `fmt.Sprintln`,
  `strings.TrimRight` and ASCII `strings.ToUpper`.
- `Format` (`format.dfy`): `FormatMessage` and `FormatSeparator`, which are pure
  functions, with lemmas for the layout they produce.
- `Printer` (`printer.dfy`): a `Logger` class. It holds the two print switches
  and the text written so far to each stream. `PrintMessage` appends to the
  streams, and its contract is stated through the `FormatLine` and `SinkFor`
  functions.
- `Causes` (`causes.dfy`): errors as a datatype `Nil | Plain | Causer(cause)`.
  `CauseOfError` is the source's loop, proved against the recursive `RootCause`.

The level is only upper-cased (logger_internal.go:53), never padded. The
five-character width of `"INFO "` and `"WARN "` comes from the callers, which pass
the padded names.

With a one-character fill, a labelled banner is exactly `length` wide when
`length >= len(label) + 8`, which includes the equality case. Otherwise it is
`len(label) + 8` wide. With a longer fill the code subtracts `4 * len(fill)` for
the prefix but adds the fill `suffixLength` times, so the width is not honoured.
`Format.SeparatorLength` states the general length as written.

## Model

| member | source | states |
|---|---|---|
| `Text.RepeatLength` | logger_internal.go:38 | `strings.Repeat(s, n)` has length `len(s) * n` |
| `Text.RepeatAt` | logger_internal.go:38 | each character of `strings.Repeat(s, n)` is `s[i mod len(s)]`, so the result is whole copies of `s` |
| `Text.RepeatShape` | logger_internal.go:44 | the length and the character-by-character content of a repetition, together |
| `Text.JoinEndsWithLast` | logger_internal.go:31 | the space-joined operands of `Sprintln` end with the last operand |
| `Text.TrimRight` | logger_internal.go:32 | the trimmed text is a prefix of the input, only characters of the cut set were removed, and it does not end in one |
| `Text.TrimRightUnique` | logger_internal.go:32 | those three properties determine the trimmed text uniquely (maximal trim) |
| `Text.ToUpperAt` | logger_internal.go:53 | upper-casing keeps the length and maps each character by ASCII upper-casing |
| `Text.ToUpperShape` | logger_internal.go:53 | upper-casing keeps the length, capitalises ASCII lower-case letters, leaves other characters, and is idempotent |
| `Format.FormatMessageTrims` | logger_internal.go:30-34 | the message is a prefix of the space-joined operands, only trailing ' ', '\n', '\r' were removed, and it ends in none of them |
| `Format.FormatMessageKeepsText` | logger_internal.go:30-34 | when the last operand ends in a character other than ' ', '\n', '\r', the message is exactly the space-joined operands, with interior "\r\n" and '%' kept |
| `Format.FormatMessageExample` | logger_internal_test.go:13-19 | the table case: `"Hello %s\r\n%d 100%\r\n"`, `"world"`, `1` give `"Hello %s\r\n%d 100%\r\n world 1"` |
| `Format.SeparatorWithoutLabel` | logger_internal.go:37-39 | with an empty label and `length >= 0`, the banner is `length` whole copies of the fill |
| `Format.SeparatorLength` | logger_internal.go:41-46 | with a label, the banner's length is `4*len(fill) + len(label) + 4 + len(fill) * max(0, suffixLength)` |
| `Format.SeparatorHead` | logger_internal.go:40-46 | with a label, the banner starts with four fills followed by `"[ " + label + " ]"`, so the label is never truncated |
| `Format.SeparatorTail` | logger_internal.go:42-46 | with a label, everything after `" ]"` is whole copies of the fill |
| `Format.SeparatorWidth` | logger_internal.go:41-46 | with a one-character fill and a label, the width is `max(length, len(label) + 8)`, and it equals `length` iff `length >= len(label) + 8` |
| `Format.SeparatorExamplesWithoutLabel` | logger_internal_test.go:34-35 | the table cases without a label |
| `Format.SeparatorExamplesShort` | logger_internal_test.go:36-38 | the table cases with `"hello"`, including a width too small for the label |
| `Format.SeparatorExamplesLong` | logger_internal_test.go:39-40 | the table cases with a 31-character label |
| `Printer.PlainLine` | logger_internal.go:55-62 | with colours off, the line is the message, or `time + " | " + ToUpper(level) + " | " + message` with timestamps on |
| `Printer.ColorGate` | logger_internal.go:63-67 | colour wraps the whole line, timestamp included, only when colours are on and the upper-cased level is a colour-table key; otherwise the line is unchanged |
| `Printer.RoutingIgnoresCase` | logger_internal.go:69-72 | a level goes to the error stream iff it has five characters that spell ERROR or FATAL once each is upper-cased (so "error" and "Fatal" do too); upper-casing again does not change the choice |
| `Printer.RoutingExamples` | logger_internal_test.go:64-73 | the table levels: lower-case "error" goes to standard error, "debug", "info ", "warn " to standard output; "fatal" going to standard error is an extra case, not a table row |
| `Printer.TimestampExamples` | logger_internal_test.go:68-74 | the timestamped table lines carry the upper-cased five-character levels `INFO ` and `ERROR` |
| `Printer.Logger.PrintMessage` | logger_internal.go:49-78 | appends the formatted line plus "\n" to exactly the stream chosen by the upper-cased level and leaves the other stream unchanged |
| `Causes.RootCause` | logger_internal.go:86-94 | the error the walk ends at is nil or has no `Cause()`; an error without `Cause()` is returned unchanged |
| `Causes.RootCauseIsFirstWithoutCause` | logger_internal.go:86-92 | the walk's result lies `Depth` links down the chain, and every error before it has a `Cause()` |
| `Causes.RootCauseExamples` | logger_internal_test.go:115-126 | an error whose `Cause()` is a plain error yields that plain error; a plain error or nil is returned as it is |
| `Causes.CauseOfError` | logger_internal.go:80-95 | the loop returns an error that is nil or has no `Cause()`, and it is the root cause of the input chain |

## Left out

- The mutex around `printMessage` (logger_internal.go:13, 51, 76) is left out. `PrintMessage` is one atomic sequential update, so interleaving between concurrent callers is not modelled.
- `Printer.Logger.PrintMessage` models the two streams as two distinct, append-only texts. In Go, `Stdout` and `Stderr` are writer variables that callers may reassign (logger_internal.go:69-71), possibly to the same writer; then a line sent to one is also seen on the other, which the model's "the other stream is left as it was" does not capture.
- `Printer.Logger.PrintMessage` always appends the whole line. The error returned by `w.Write` (logger_internal.go:74) is ignored by the source, so a failed or short write loses text silently; the model's writes never fail.
- `time.Now`, the time-zone conversion and `Format(TimeFormat)` (logger_internal.go:56-60) are clock and library formatting. The formatted time is a parameter of `PrintMessage`.
- The `fatih/color` escape sequences (logger_internal.go:15-21, 65) come from a foreign library. Colouring is an abstract `paint(level, text)` parameter. The colour table is modelled by its five keys.
- `init` (logger_internal.go:23-28) reads environment variables and loads a time zone. It is left out; the switches are fields of `Logger` set by its constructor or by callers.
- Text is ASCII only. Go's `len` counts bytes, and `strings.ToUpper` also maps non-ASCII letters. The model counts characters and upper-cases only `a`-`z`.
- `Text.Repeat` takes a `nat` count. Go's `strings.Repeat` panics on a negative count, so `FormatSeparator` requires `length >= 0` when the label is empty. The panic on a count whose result size overflows is not modelled.
- `FormatMessage` takes its operands already rendered as text. Go's `%v` rendering of non-string operands is not modelled.
- The public wrappers (Debug, Info, Warn, Error, Fatal, their `f`, `Dump` and `Separator` forms, CheckError, DebugSQL, StackTrace) and the `OsExit` hook are not part of this model. They live outside logger_internal.go, gate on the debug switches and then call `printMessage`; beyond that they depend on an SQL formatter, a value pretty-printer and runtime stack frames. The level gating they perform is therefore not modelled either.
- cmd/go-log/main.go (a demo program) and versioninfo/versioninfo.go (constant metadata) are not part of this model.
- `Causes.CauseOfError` only sees finite, acyclic chains, because they are datatype values. The Go loop does not terminate on a cyclic chain, and that behaviour is not modelled.
