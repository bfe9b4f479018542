/** `printMessage`: the one place that writes a log line. The two output streams
    are modelled as the text written to them so far, held by a `Logger` object with
    the two print switches the function reads. The clock and the colour library are
    parameters: the caller supplies the already formatted time and a function that
    wraps text in a level's colour. */
module Printer {
  import opened Text

  /** The two output streams. */
  datatype Sink = Stdout | Stderr

  /** The levels the colour table has an entry for (the exact, upper-cased and
      five-character keys). */
  const ColorLevels: set<string> := {"DEBUG", "INFO ", "WARN ", "ERROR", "FATAL"}

  /** The stream a line goes to, given its upper-cased level. */
  function SinkFor(level: string): Sink
  {
    if level == "ERROR" || level == "FATAL" then Stderr else Stdout
  }

  /** The line `printMessage` writes, before its newline: the level is upper-cased;
      with timestamps on, `"<time> | <LEVEL> | "` goes in front of the message; with
      colours on and a colour for the level, the whole line is wrapped in it. */
  function FormatLine(printTimestamp: bool, printColors: bool, level: string, message: string,
                      formattedTime: string, paint: (string, string) -> string): string
  {
    var upper := ToUpper(level);
    var stamped := if printTimestamp then formattedTime + " | " + upper + " | " + message else message;
    if printColors && upper in ColorLevels then paint(upper, stamped) else stamped
  }

  /** With colours off, the line is the message, behind the timestamp and the
      upper-cased level when timestamps are on. */
  lemma PlainLine(printTimestamp: bool, level: string, message: string,
                  formattedTime: string, paint: (string, string) -> string)
    ensures !printTimestamp ==> FormatLine(false, false, level, message, formattedTime, paint) == message
    ensures printTimestamp ==>
              FormatLine(true, false, level, message, formattedTime, paint)
              == formattedTime + " | " + ToUpper(level) + " | " + message
  {
  }

  /** Colour is applied only when colours are on and the upper-cased level is a key
      of the colour table, and then it wraps the whole line, timestamp included; an
      unknown level passes through as it is. */
  lemma ColorGate(printTimestamp: bool, printColors: bool, level: string, message: string,
                  formattedTime: string, paint: (string, string) -> string)
    ensures printColors && ToUpper(level) in ColorLevels ==>
              FormatLine(printTimestamp, true, level, message, formattedTime, paint)
              == paint(ToUpper(level), FormatLine(printTimestamp, false, level, message, formattedTime, paint))
    ensures !(printColors && ToUpper(level) in ColorLevels) ==>
              FormatLine(printTimestamp, printColors, level, message, formattedTime, paint)
              == FormatLine(printTimestamp, false, level, message, formattedTime, paint)
  {
  }

  /** Routing looks at the upper-cased level, so it ignores case: a level goes to
      the error stream exactly when it is five characters long and spells ERROR or
      FATAL once each of its letters is capitalised ("error", "Fatal", ...). */
  lemma RoutingIgnoresCase(level: string)
    ensures SinkFor(ToUpper(level)) == Stderr <==>
              |level| == 5 &&
              ((forall i :: 0 <= i < 5 ==> UpperChar(level[i]) == "ERROR"[i]) ||
               (forall i :: 0 <= i < 5 ==> UpperChar(level[i]) == "FATAL"[i]))
    ensures SinkFor(ToUpper(ToUpper(level))) == SinkFor(ToUpper(level))
  {
    ToUpperAt(level);
    ToUpperShape(level);
    var upper := ToUpper(level);
    if |level| == 5 {
      if forall i :: 0 <= i < 5 ==> UpperChar(level[i]) == "ERROR"[i] {
        assert upper == "ERROR";
      }
      if forall i :: 0 <= i < 5 ==> UpperChar(level[i]) == "FATAL"[i] {
        assert upper == "FATAL";
      }
    }
  }

  /** Upper-casing a five-character level, one character at a time. */
  lemma UpperLevel(a: char, b: char, c: char, d: char, e: char)
    ensures ToUpper([a, b, c, d, e]) == [UpperChar(a), UpperChar(b), UpperChar(c), UpperChar(d), UpperChar(e)]
  {
    ToUpperAt([a, b, c, d, e]);
  }

  /** The levels of the table test of `printMessage`: lower-case "error" goes to the
      error stream, the others to the standard stream. */
  lemma RoutingExamples()
    ensures SinkFor(ToUpper("error")) == Stderr && SinkFor(ToUpper("fatal")) == Stderr
    ensures SinkFor(ToUpper("debug")) == Stdout && SinkFor(ToUpper("info ")) == Stdout
    ensures SinkFor(ToUpper("warn ")) == Stdout
  {
    UpperLevel('e', 'r', 'r', 'o', 'r');
    UpperLevel('f', 'a', 't', 'a', 'l');
    UpperLevel('d', 'e', 'b', 'u', 'g');
    UpperLevel('i', 'n', 'f', 'o', ' ');
    UpperLevel('w', 'a', 'r', 'n', ' ');
  }

  /** The timestamped lines of the table test carry the upper-cased,
      five-character level. */
  lemma TimestampExamples(formattedTime: string, paint: (string, string) -> string)
    ensures FormatLine(true, false, "info ", "message", formattedTime, paint)
            == formattedTime + " | INFO  | message"
    ensures FormatLine(true, false, "error", "message", formattedTime, paint)
            == formattedTime + " | ERROR | message"
  {
    UpperLevel('i', 'n', 'f', 'o', ' ');
    UpperLevel('e', 'r', 'r', 'o', 'r');
  }

  /** The logger's configuration switches and the text written to each stream. */
  class Logger {
    var printTimestamp: bool
    var printColors: bool
    var stdout: string
    var stderr: string

    constructor (printTimestamp: bool, printColors: bool)
      ensures this.printTimestamp == printTimestamp && this.printColors == printColors
      ensures stdout == [] && stderr == []
    {
      this.printTimestamp := printTimestamp;
      this.printColors := printColors;
      stdout := [];
      stderr := [];
    }

    /** `printMessage(level, message)`: the formatted line and one newline are
        appended to exactly one stream, chosen by the upper-cased level, and the
        other stream is left as it was. */
    method PrintMessage(level: string, message: string, formattedTime: string,
                        paint: (string, string) -> string)
      modifies this`stdout, this`stderr
      ensures var line := FormatLine(printTimestamp, printColors, level, message, formattedTime, paint);
        if SinkFor(ToUpper(level)) == Stderr
        then stderr == old(stderr) + line + "\n" && stdout == old(stdout)
        else stdout == old(stdout) + line + "\n" && stderr == old(stderr)
    {
      var upper := ToUpper(level);
      var line := message;
      if printTimestamp {
        line := formattedTime + " | " + upper + " | " + line;
      }
      if printColors {
        if upper in ColorLevels {
          line := paint(upper, line);
        }
      }
      if upper == "ERROR" || upper == "FATAL" {
        stderr := stderr + (line + "\n");
      } else {
        stdout := stdout + (line + "\n");
      }
    }
  }

  /** Clients of `Logger` that derive the table cases of `printMessage` from the
      contracts alone: with timestamps off each level's line is the bare message on
      its own stream; with them on it carries the time and the upper-cased level. */
  method PrintMessageTablePlain(formattedTime: string, paint: (string, string) -> string)
  {
    RoutingExamples();
    var logger := new Logger(false, false);
    logger.PrintMessage("debug", "message", formattedTime, paint);
    assert logger.stdout == "message\n" && logger.stderr == "";
    logger.PrintMessage("error", "message", formattedTime, paint);
    assert logger.stdout == "message\n" && logger.stderr == "message\n";
  }

  method PrintMessageTableStamped(formattedTime: string, paint: (string, string) -> string)
  {
    RoutingExamples();
    TimestampExamples(formattedTime, paint);
    var logger := new Logger(true, false);
    logger.PrintMessage("info ", "message", formattedTime, paint);
    assert logger.stdout == [] + (formattedTime + " | INFO  | message") + "\n";
    assert logger.stderr == "";
    logger.PrintMessage("error", "message", formattedTime, paint);
    assert logger.stderr == [] + (formattedTime + " | ERROR | message") + "\n";
  }
}
