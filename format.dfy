/** The two pure builders of logger_internal.go: `formatMessage`, which turns the
    operands of a log call into one line of text, and `formatSeparator`, which lays
    out a banner of fill characters around an optional bracketed label. */
module Format {
  import opened Text

  /** The characters `formatMessage` strips from the end of its text. */
  const TrailingCut: set<char> := {' ', '\n', '\r'}

  /** `formatMessage`: `fmt.Sprintln` of the operands (already rendered as text)
      is their space-joined text plus a newline; every trailing space, newline and
      carriage return is then trimmed. */
  function FormatMessage(args: seq<string>): string
  {
    TrimRight(Join(args, " ") + "\n", TrailingCut)
  }

  /** The message is the joined operands cut back to their last character outside
      the trimmed set: a prefix of the joined text, with only trimmed characters
      removed, and not itself ending in one. */
  lemma FormatMessageTrims(args: seq<string>)
    ensures FormatMessage(args) <= Join(args, " ")
    ensures forall i :: |FormatMessage(args)| <= i < |Join(args, " ")| ==> Join(args, " ")[i] in TrailingCut
    ensures |FormatMessage(args)| == 0 || FormatMessage(args)[|FormatMessage(args)| - 1] !in TrailingCut
  {
    var joined := Join(args, " ");
    var r := FormatMessage(args);
    assert (joined + "\n")[|joined|] == '\n';
    if |r| == |joined| + 1 {
      assert false;
    }
    assert r == (joined + "\n")[..|r|];
    assert r == joined[..|r|];
  }

  /** When the last operand ends in a character that is not trimmed, the message is
      exactly the space-joined operands: interior line breaks and `%` signs are kept. */
  lemma FormatMessageKeepsText(args: seq<string>)
    requires |args| > 0
    requires |args[|args| - 1]| > 0
    requires args[|args| - 1][|args[|args| - 1]| - 1] !in TrailingCut
    ensures FormatMessage(args) == Join(args, " ")
  {
    var joined := Join(args, " ");
    var last := args[|args| - 1];
    JoinEndsWithLast(args, " ");
    assert joined[|joined| - 1] == last[|last| - 1];
    var s := joined + "\n";
    assert s[..|joined|] == joined;
    assert |s[..|s| - 1]| > 0 && s[..|s| - 1][|s[..|s| - 1]| - 1] !in TrailingCut;
    assert TrimRight(s[..|s| - 1], TrailingCut) == joined;
  }

  /** The operands of the table test of `formatMessage`. */
  lemma FormatMessageExample()
    ensures FormatMessage(["Hello %s\r\n%d 100%\r\n", "world", "1"]) == "Hello %s\r\n%d 100%\r\n world 1"
  {
    FormatMessageKeepsText(["Hello %s\r\n%d 100%\r\n", "world", "1"]);
  }

  /** `formatSeparator(message, separator, length)`. An empty label gives the fill
      repeated `length` times (Go's `strings.Repeat` panics on a negative count, so
      that call needs `length >= 0`). A label gives four fills, `"[ "`, the label,
      `" ]"` and a trailing run of fills whose count is what remains of `length`
      after the label, the four-fill prefix and four more characters; the run is
      added only when that count is positive, so the label is never cut short. */
  function FormatSeparator(message: string, separator: string, length: int): string
    requires message != [] || length >= 0
  {
    if message == [] then Repeat(separator, length)
    else
      var prefix := Repeat(separator, 4);
      var suffixLength := length - |message| - |prefix| - 4;
      var suffix := if suffixLength > 0 then Repeat(separator, suffixLength) else [];
      prefix + "[ " + message + " ]" + suffix
  }

  function Max(a: int, b: int): int
  {
    if a < b then b else a
  }

  /** Without a label the banner is `length` whole copies of the fill. */
  lemma SeparatorWithoutLabel(separator: string, length: int)
    requires length >= 0
    ensures |FormatSeparator([], separator, length)| == |separator| * length
    ensures forall i :: 0 <= i < |FormatSeparator([], separator, length)| ==>
              FormatSeparator([], separator, length)[i] == separator[i % |separator|]
  {
    RepeatShape(separator, length);
  }

  /** The label case as the concatenation it builds, with the trailing run written
      as a (possibly empty) repetition. */
  lemma SeparatorParts(message: string, separator: string, length: int)
    requires message != []
    ensures FormatSeparator(message, separator, length)
            == Repeat(separator, 4) + "[ " + message + " ]"
               + Repeat(separator, Max(0, length - |message| - 4 * |separator| - 4))
  {
    RepeatLength(separator, 4);
  }

  /** With a label the banner is as long as the four-fill prefix, the bracketed
      label and as many copies of the fill as `length` leaves after the prefix, the
      label and four more characters (or none). */
  lemma SeparatorLength(message: string, separator: string, length: int)
    requires message != []
    ensures |FormatSeparator(message, separator, length)|
            == 4 * |separator| + |message| + 4 + |separator| * Max(0, length - |message| - 4 * |separator| - 4)
  {
    SeparatorParts(message, separator, length);
    RepeatLength(separator, 4);
    RepeatLength(separator, Max(0, length - |message| - 4 * |separator| - 4));
  }

  /** With a label the banner starts with four fills, then `"[ "`, the whole label
      and `" ]"`: the label is never cut short. */
  lemma SeparatorHead(message: string, separator: string, length: int)
    requires message != []
    ensures var r, p := FormatSeparator(message, separator, length), 4 * |separator|;
      && |r| >= p + |message| + 4
      && (forall i :: 0 <= i < p ==> r[i] == separator[i % |separator|])
      && r[p..p + |message| + 4] == "[ " + message + " ]"
  {
    var r, p := FormatSeparator(message, separator, length), 4 * |separator|;
    SeparatorParts(message, separator, length);
    RepeatShape(separator, 4);
    var prefix := Repeat(separator, 4);
    var rest := Repeat(separator, Max(0, length - |message| - p - 4));
    assert r == prefix + ("[ " + message + " ]" + rest);
    assert forall i :: 0 <= i < p ==> r[i] == prefix[i];
  }

  /** With a label everything after `" ]"` is whole copies of the fill. */
  lemma SeparatorTail(message: string, separator: string, length: int)
    requires message != []
    ensures var r, h := FormatSeparator(message, separator, length), 4 * |separator| + |message| + 4;
      && |r| >= h
      && (forall i :: h <= i < |r| ==> |separator| > 0 && r[i] == separator[(i - h) % |separator|])
  {
    var r, h := FormatSeparator(message, separator, length), 4 * |separator| + |message| + 4;
    SeparatorParts(message, separator, length);
    RepeatLength(separator, 4);
    var head := Repeat(separator, 4) + "[ " + message + " ]";
    var rest := Repeat(separator, Max(0, length - |message| - 4 * |separator| - 4));
    RepeatShape(separator, Max(0, length - |message| - 4 * |separator| - 4));
    assert |head| == h;
    forall i | h <= i < |r| ensures |separator| > 0 && r[i] == separator[(i - h) % |separator|] {
      assert r[i] == rest[i - h];
    }
  }

  /** With a one-character fill and a label, the banner is `length` characters wide
      when that leaves room for the label, and otherwise exactly as wide as the
      bracketed label with its four-fill prefix. */
  lemma SeparatorWidth(message: string, fill: char, length: int)
    requires message != []
    ensures |FormatSeparator(message, [fill], length)| == Max(length, |message| + 8)
    ensures |FormatSeparator(message, [fill], length)| == length <==> length >= |message| + 8
  {
    SeparatorLength(message, [fill], length);
  }

  /** The cases of the table test of `formatSeparator`. */
  lemma SeparatorExamplesWithoutLabel()
    ensures FormatSeparator("", "=", 12) == "============"
    ensures FormatSeparator("", "=", 2) == "=="
  {
  }

  lemma SeparatorExamplesShort()
    ensures FormatSeparator("hello", "=", 2) == "====[ hello ]"
    ensures FormatSeparator("hello", "=", 12) == "====[ hello ]"
    ensures FormatSeparator("hello", "=", 20) == "====[ hello ]======="
  {
    assert Repeat("=", 4) == "====";
    assert Repeat("=", 7) == "=======";
  }

  /** The long-label cases, with the 31-character label kept as a named part of
      the expected text. */
  lemma SeparatorExamplesLong()
    ensures var title := "hello world, how are you doing?";
      && FormatSeparator(title, "=", 12) == "====[ " + title + " ]"
      && FormatSeparator(title, "=", 50) == "====[ " + title + " ]" + "==========="
  {
    var title := "hello world, how are you doing?";
    assert |title| == 31;
    SeparatorParts(title, "=", 12);
    SeparatorParts(title, "=", 50);
    assert Repeat("=", 0) == [];
    assert Repeat("=", 4) == "====";
    assert Repeat("=", 11) == "===========";
  }
}
