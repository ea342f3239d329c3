/**
 The terminal output manager of `src/cli/output.rs`: an immutable value holding a verbosity
 flag and an indentation depth, which writes leveled, indented and coloured lines to standard
 output and reads answers to prompts from standard input.

 Standard output is a `Stdout` object whose `log` holds, in order, every piece of text written
 to it; whether it is attached to a terminal (`isTty`) and how the colouring library paints a
 text (`paint`) are fixed, otherwise unknown, properties of that object. What a prompt reads
 from standard input, and whether flushing standard output first succeeds, are parameters.
 */
module Output {
  import opened Text

  const StepPrefixMarker: string := "+"
  const ErrorPrefixMarker: string := "!"
  const DebugPrefixMarker: string := "-"
  const QuestionPrefixMarker: string := "?"
  const NoPrefix: string := ""

  /** One level of indentation. */
  const PadUnit: string := "|   "

  const MaxI32: int := 0x7fff_ffff

  /** Rust's `i32`, the type of the indentation depth. */
  type I32 = x: int | -0x8000_0000 <= x <= MaxI32

  /** The colours the channels use; `Plain` is a `ColoredString` with no colour set. */
  datatype Color = Plain | Yellow | Green | Blue | Red

  /** An `io::Error`, known only by its description. */
  datatype IoError = IoError(message: string)

  /** `io::Result<T>`. */
  datatype IoResult<T> = Ok(value: T) | Err(error: IoError)

  /** Standard output. */
  class Stdout {
    /** Whether standard output is attached to a terminal (`atty::is(Stream::Stdout)`). */
    const isTty: bool
    /** How the colouring library renders a text in a colour on a terminal. */
    const paint: (string, Color) -> string
    /** Everything written so far, one entry per write. */
    var log: seq<string>

    constructor (isTty: bool, paint: (string, Color) -> string)
      ensures this.isTty == isTty && this.paint == paint && log == []
    {
      this.isTty := isTty;
      this.paint := paint;
      log := [];
    }

    /** The `Display` of a `ColoredString`: a string with no colour set is written as it is. */
    function Colorize(text: string, color: Color): string {
      if color == Plain then text else paint(text, color)
    }

    method Write(text: string)
      modifies this
      ensures log == old(log) + [text]
    {
      log := log + [text];
    }
  }

  /**
   The indentation for depth `n`: `n` copies of the unit `"|   "` one after the other, so `4 * n`
   characters, and nothing at all for a depth that is zero or negative.
   */
  function Padding(n: int): (r: string)
    ensures |r| == if n > 0 then 4 * n else 0
    decreases n
  {
    if n <= 0 then "" else Padding(n - 1) + PadUnit
  }

  /** Every character of the indentation is the one at the same place in the unit. */
  lemma {:induction false} PaddingRepeatsUnit(n: int)
    ensures forall i :: 0 <= i < |Padding(n)| ==> Padding(n)[i] == PadUnit[i % 4]
    decreases n
  {
    if n > 0 {
      PaddingRepeatsUnit(n - 1);
    }
  }

  /** Indentation composes: depth `a + b` is depth `a` followed by depth `b`. */
  lemma {:induction false} PaddingAdditive(a: nat, b: nat)
    ensures Padding(a + b) == Padding(a) + Padding(b)
    decreases b
  {
    if b > 0 {
      PaddingAdditive(a, b - 1);
    }
  }

  /** One unit in front of depth `n` is depth `n + 1`. */
  lemma PaddingAfterUnit(n: nat)
    ensures Padding(n + 1) == PadUnit + Padding(n)
  {
    PaddingAdditive(1, n);
    assert Padding(1) == PadUnit;
  }

  /** `make_padding`: builds the indentation one unit at a time. */
  method MakePadding(length: I32) returns (pad: string)
    ensures pad == Padding(length)
    ensures |pad| == if length > 0 then 4 * length else 0
  {
    pad := "";
    if length > 0 {
      pad := "";
      for i := 0 to length
        invariant pad == Padding(i)
      {
        pad := pad + PadUnit;
      }
    }
  }

  /** The hint a yes/no prompt appends to its message, showing the default in upper case. */
  function YesNoHint(default: bool): string {
    if default then " [Y/n] - " else " [y/N] - "
  }

  /**
   The answer `prompt_yn` derives from the line it read: the line is trimmed and lowered;
   with a `true` default only `"n"` says no, with a `false` default only `"y"` says yes.
   */
  function PickYesNo(line: string, default: bool): (yes: bool)
    ensures yes != default ==> ToAsciiLowercase(Trim(line)) == (if default then "n" else "y")
    ensures AllWhitespace(line) ==> yes == default
  {
    TrimEmptyIffBlank(line);
    var pick := ToAsciiLowercase(Trim(line));
    if default then pick != "n" else pick == "y"
  }

  /** `line` is the letter `lower` or `upper` with nothing but white space around it. */
  ghost predicate IsLoneAnswer(line: string, lower: char, upper: char) {
    exists i :: 0 <= i < |line| && (line[i] == lower || line[i] == upper)
      && AllWhitespace(line[..i]) && AllWhitespace(line[i + 1..])
  }

  /** An ASCII letter is never white space. */
  lemma LetterIsNotWhitespace(c: char)
    requires 'a' <= c <= 'z' || 'A' <= c <= 'Z'
    ensures !IsWhitespace(c)
  {
  }

  lemma AnswerIsLone(line: string, lower: char)
    requires 'a' <= lower <= 'z'
    requires ToAsciiLowercase(Trim(line)) == [lower]
    ensures IsLoneAnswer(line, lower, (lower as int - 32) as char)
  {
    var upper := (lower as int - 32) as char;
    var t := Trim(line);
    LowercaseIsLetter(t, lower);
    assert |t| == 1;
    TrimPosition(line);
    var i := TrimStart(line);
    assert line[i] == t[0];
    assert AllWhitespace(line[i + 1..]);
    assert (line[i] == lower || line[i] == upper) && AllWhitespace(line[..i]);
  }

  lemma LoneIsAnswer(line: string, lower: char, i: nat)
    requires 'a' <= lower <= 'z'
    requires i < |line| && (line[i] == lower || line[i] == (lower as int - 32) as char)
    requires AllWhitespace(line[..i]) && AllWhitespace(line[i + 1..])
    ensures ToAsciiLowercase(Trim(line)) == [lower]
  {
    assert line == line[..i] + [line[i]] + line[i + 1..];
    LetterIsNotWhitespace(line[i]);
    TrimOfPadded(line[..i], [line[i]], line[i + 1..]);
    LowercaseIsLetter([line[i]], lower);
  }

  lemma LoneAnswer(line: string, lower: char)
    requires 'a' <= lower <= 'z'
    ensures ToAsciiLowercase(Trim(line)) == [lower] <==>
      IsLoneAnswer(line, lower, (lower as int - 32) as char)
  {
    var upper := (lower as int - 32) as char;
    if ToAsciiLowercase(Trim(line)) == [lower] {
      AnswerIsLone(line, lower);
    }
    if IsLoneAnswer(line, lower, upper) {
      var i :| 0 <= i < |line| && (line[i] == lower || line[i] == upper)
        && AllWhitespace(line[..i]) && AllWhitespace(line[i + 1..]);
      LoneIsAnswer(line, lower, i);
    }
  }

  /**
   What a yes/no answer means: with a `true` default the answer is no exactly when the line
   is a lone `n` or `N` amid white space; with a `false` default it is yes exactly when the
   line is a lone `y` or `Y` amid white space. Every other line, the empty one included,
   gives the default.
   */
  lemma PickYesNoMeaning(line: string, default: bool)
    ensures default ==> (PickYesNo(line, default) <==> !IsLoneAnswer(line, 'n', 'N'))
    ensures !default ==> (PickYesNo(line, default) <==> IsLoneAnswer(line, 'y', 'Y'))
  {
    LoneAnswer(line, 'n');
    LoneAnswer(line, 'y');
  }

  /** With a `true` default, `n` in either case, amid white space, says no. */
  lemma DefaultYesRefused()
    ensures forall line | line in ["n", "N\n", " n "] :: !PickYesNo(line, true)
  {
    forall line | line in ["n", "N\n", " n "] ensures !PickYesNo(line, true) {
      LoneIsAnswer(line, 'n', if line == " n " then 1 else 0);
    }
  }

  /** With a `true` default, the empty line and any other word say yes. */
  lemma DefaultYesKept()
    ensures forall line | line in ["", "y", "anything"] :: PickYesNo(line, true)
  {
    forall line | line in ["", "y", "anything"] ensures PickYesNo(line, true) {
      TrimOfWord(line);
    }
  }

  /** With a `false` default, `y` in either case, amid white space, says yes. */
  lemma DefaultNoAccepted()
    ensures forall line | line in ["y", "Y\n", " y "] :: PickYesNo(line, false)
  {
    forall line | line in ["y", "Y\n", " y "] ensures PickYesNo(line, false) {
      LoneIsAnswer(line, 'y', if line == " y " then 1 else 0);
    }
  }

  /** With a `false` default, the empty line and any other word say no. */
  lemma DefaultNoKept()
    ensures forall line | line in ["", "n", "maybe"] :: !PickYesNo(line, false)
  {
    forall line | line in ["", "n", "maybe"] ensures !PickYesNo(line, false) {
      TrimOfWord(line);
    }
  }

  datatype OutputManager = OutputManager(verbose: bool, padding: I32) {

    /** `OutputManager::new`: the given verbosity, no indentation. */
    static function New(verbose: bool): (m: OutputManager)
      ensures m.verbose == verbose && m.padding == 0
    {
      OutputManager(verbose, 0)
    }

    /** `push`: a new manager one level deeper, with the same verbosity. */
    function Push(): (m: OutputManager)
      requires padding < MaxI32
      ensures m.verbose == verbose && m.padding == padding + 1
    {
      OutputManager(verbose, padding + 1)
    }

    /** `with_padding`: a new manager at the given depth, with the same verbosity. */
    function WithPadding(p: I32): (m: OutputManager)
      ensures m.verbose == verbose && m.padding == p
    {
      OutputManager(verbose, p)
    }

    /** Whether a message is dropped: only a verbose-only channel of a quiet manager is. */
    predicate Silenced(verboseOnly: bool) {
      !verbose && verboseOnly
    }

    /**
     The text a print writes for `msg` when it is not dropped (without the newline): on a
     terminal the indentation, the marker, a space and the coloured message; otherwise the bare
     message.
     */
    function Line(out: Stdout, msg: string, color: Color, marker: string): (r: string)
      ensures !out.isTty ==> r == msg
      ensures out.isTty ==> |Padding(padding)| + |marker| + 1 <= |r|
      ensures out.isTty ==> r[..|Padding(padding)|] == Padding(padding)
      ensures out.isTty ==> r[|Padding(padding)| + |marker| + 1..] == out.Colorize(msg, color)
    {
      if out.isTty then Padding(padding) + marker + " " + out.Colorize(msg, color) else msg
    }

    /** `print`: one line, unless the channel is verbose-only and the manager is not verbose. */
    method Print(out: Stdout, msg: string, color: Color, marker: string, verboseOnly: bool)
      modifies out
      ensures Silenced(verboseOnly) ==> out.log == old(out.log)
      ensures !Silenced(verboseOnly) && !out.isTty ==> out.log == old(out.log) + [msg + "\n"]
      ensures !Silenced(verboseOnly) && out.isTty ==>
        out.log == old(out.log) + [Padding(padding) + marker + " " + out.Colorize(msg, color) + "\n"]
    {
      if !verbose && verboseOnly {
        return;
      }
      if !out.isTty {
        out.Write(msg + "\n");
      } else {
        var pad := MakePadding(padding);
        out.Write(pad + marker + " " + out.Colorize(msg, color) + "\n");
      }
    }

    /** `print_sameline`: as `Print`, but no newline follows the text. */
    method PrintSameline(out: Stdout, msg: string, color: Color, marker: string, verboseOnly: bool)
      modifies out
      ensures Silenced(verboseOnly) ==> out.log == old(out.log)
      ensures !Silenced(verboseOnly) && !out.isTty ==> out.log == old(out.log) + [msg]
      ensures !Silenced(verboseOnly) && out.isTty ==>
        out.log == old(out.log) + [Padding(padding) + marker + " " + out.Colorize(msg, color)]
    {
      if !verbose && verboseOnly {
        return;
      }
      if !out.isTty {
        out.Write(msg);
      } else {
        var pad := MakePadding(padding);
        out.Write(pad + marker + " " + out.Colorize(msg, color));
      }
    }

    /** `step`: a yellow line marked `+`, whatever the verbosity. */
    method Step(out: Stdout, msg: string)
      modifies out
      ensures out.log == old(out.log) + [Line(out, msg, Yellow, StepPrefixMarker) + "\n"]
    {
      Print(out, msg, Yellow, StepPrefixMarker, false);
    }

    /** `progress`: an uncoloured line with no marker, whatever the verbosity. */
    method Progress(out: Stdout, msg: string)
      modifies out
      ensures out.log == old(out.log) + [Line(out, msg, Plain, NoPrefix) + "\n"]
      ensures out.isTty ==> out.log == old(out.log) + [Padding(padding) + " " + msg + "\n"]
    {
      Print(out, msg, Plain, NoPrefix, false);
      assert Padding(padding) + NoPrefix + " " == Padding(padding) + " ";
    }

    /** `success`: a green line marked `+`, whatever the verbosity. */
    method Success(out: Stdout, msg: string)
      modifies out
      ensures out.log == old(out.log) + [Line(out, msg, Green, StepPrefixMarker) + "\n"]
    {
      Print(out, msg, Green, StepPrefixMarker, false);
    }

    /** `debug`: a blue line marked `-`, written only by a verbose manager. */
    method Debug(out: Stdout, msg: string)
      modifies out
      ensures !verbose ==> out.log == old(out.log)
      ensures verbose ==> out.log == old(out.log) + [Line(out, msg, Blue, DebugPrefixMarker) + "\n"]
    {
      Print(out, msg, Blue, DebugPrefixMarker, true);
    }

    /** `error`: a red line marked `!`, whatever the verbosity. */
    method Error(out: Stdout, msg: string)
      modifies out
      ensures out.log == old(out.log) + [Line(out, msg, Red, ErrorPrefixMarker) + "\n"]
    {
      Print(out, msg, Red, ErrorPrefixMarker, false);
    }

    /**
     `prompt`: writes the blue question, marked `?`, with no newline; then flushes standard
     output and reads a line. Either failure is returned; otherwise the line, trimmed.
     */
    method Prompt(out: Stdout, msg: string, flush: IoResult<()>, input: IoResult<string>)
      returns (r: IoResult<string>)
      modifies out
      ensures out.log == old(out.log) + [Line(out, msg, Blue, QuestionPrefixMarker)]
      ensures flush.Err? ==> r == Err(flush.error)
      ensures flush.Ok? && input.Err? ==> r == Err(input.error)
      ensures flush.Ok? && input.Ok? ==> r == Ok(Trim(input.value))
    {
      PrintSameline(out, msg, Blue, QuestionPrefixMarker, false);
      if flush.Err? {
        return Err(flush.error);
      }
      if input.Err? {
        return Err(input.error);
      }
      r := Ok(Trim(input.value));
    }

    /**
     `prompt_yn`: writes the question followed by the hint for the default, flushes, reads a
     line and turns it into an answer.
     */
    method PromptYesNo(out: Stdout, msg: string, default: bool, flush: IoResult<()>, input: IoResult<string>)
      returns (r: IoResult<bool>)
      modifies out
      ensures out.log == old(out.log) + [Line(out, msg + YesNoHint(default), Blue, QuestionPrefixMarker)]
      ensures flush.Err? ==> r == Err(flush.error)
      ensures flush.Ok? && input.Err? ==> r == Err(input.error)
      ensures flush.Ok? && input.Ok? ==> r == Ok(PickYesNo(input.value, default))
    {
      if default {
        PrintSameline(out, msg + " [Y/n] - ", Blue, QuestionPrefixMarker, false);
      } else {
        PrintSameline(out, msg + " [y/N] - ", Blue, QuestionPrefixMarker, false);
      }
      if flush.Err? {
        return Err(flush.error);
      }
      if input.Err? {
        return Err(input.error);
      }
      r := Ok(PickYesNo(input.value, default));
    }

    /**
     `prompt_password`: writes the question, flushes, and reads the masked entry, which is
     returned as it was read, untrimmed.
     */
    method PromptPassword(out: Stdout, msg: string, flush: IoResult<()>, input: IoResult<string>)
      returns (r: IoResult<string>)
      modifies out
      ensures out.log == old(out.log) + [Line(out, msg, Blue, QuestionPrefixMarker)]
      ensures flush.Err? ==> r == Err(flush.error)
      ensures flush.Ok? ==> r == input
    {
      PrintSameline(out, msg, Blue, QuestionPrefixMarker, false);
      if flush.Err? {
        return Err(flush.error);
      }
      r := input;
    }
  }

  /** Two pushes reach the same manager as re-padding two levels deeper. */
  lemma PushPushIsWithPadding(m: OutputManager)
    requires m.padding < MaxI32 - 1
    ensures m.Push().Push() == m.WithPadding(m.padding + 2)
  {
  }

  /**
   On a terminal, a line written through a pushed manager is the parent's line with one more
   indentation unit in front of it.
   */
  lemma PushIndentsOneUnit(m: OutputManager, out: Stdout, msg: string, color: Color, marker: string)
    requires 0 <= m.padding < MaxI32 && out.isTty
    ensures m.Push().Line(out, msg, color, marker) == PadUnit + m.Line(out, msg, color, marker)
  {
    var p := m.padding;
    PaddingAfterUnit(p);
    var coloured := out.Colorize(msg, color);
    assert (PadUnit + Padding(p)) + marker + " " + coloured
      == PadUnit + (Padding(p) + marker + " " + coloured);
  }

  /** Off a terminal, the depth and the marker never reach the output. */
  lemma PipedLineIsBare(m: OutputManager, out: Stdout, msg: string, color: Color, marker: string)
    requires !out.isTty
    ensures m.Line(out, msg, color, marker) == msg
  {
  }

  /** A step at depth 2 on a terminal. */
  lemma StepAtDepthTwo(out: Stdout)
    requires out.isTty
    ensures OutputManager(false, 2).Line(out, "build", Yellow, StepPrefixMarker)
      == "|   |   + " + out.paint("build", Yellow)
  {
    assert Padding(2) == "|   |   ";
  }

  /** A debug message of a verbose manager at depth 0 on a terminal. */
  lemma DebugAtDepthZero(out: Stdout)
    requires out.isTty
    ensures OutputManager(true, 0).Line(out, "cache miss", Blue, DebugPrefixMarker)
      == "- " + out.paint("cache miss", Blue)
  {
  }
}
