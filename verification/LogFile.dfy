/** What the log file contains, in plain text (includes/LogSystem.h). */
module LogFile {
  import opened LogModel

  /** A line of the file: [time] [LEVEL] message, then a line break. */
  function LineText(line: Line): string {
    match line.msg.level
    case DEBUG => "[" + line.stamp + "] [DEBUG] " + line.msg.text + "\n"
    case INFO => "[" + line.stamp + "] [INFO] " + line.msg.text + "\n"
    case WARN => "[" + line.stamp + "] [WARN] " + line.msg.text + "\n"
    case ERROR => "[" + line.stamp + "] [ERROR] " + line.msg.text + "\n"
  }

  /** Line after line. */
  function FileText(lines: seq<Line>): string {
    if lines == [] then "" else LineText(lines[0]) + FileText(lines[1..])
  }

  /** The insertions of one call add up to its line. */
  lemma WholeLine(line: Line)
    ensures Partial(line, PIECES) == LineText(line)
  {
    var stamp, text := line.stamp, line.msg.text;
    var head := "[" + stamp + "] [" + LevelString(line.msg.level);
    assert Partial(line, 3) == "[" + stamp + "] [" by {
      assert Partial(line, 1) == "" + "[" && Partial(line, 2) == "[" + stamp;
    }
    assert Partial(line, 4) == head;
    assert Partial(line, 6) == head + "] " + text by {
      assert Partial(line, 5) == head + "] ";
    }
    assert Partial(line, 7) == head + "] " + text + "\n";
    LevelInBrackets(line);
  }

  lemma LevelInBrackets(line: Line)
    ensures LineText(line) == "[" + line.stamp + "] [" + LevelString(line.msg.level) + "] " + line.msg.text + "\n"
  {
    var rest := line.msg.text + "\n";
    match line.msg.level
    case DEBUG => assert "] [" + "DEBUG" + "] " == "] [DEBUG] ";
    case INFO => assert "] [" + "INFO" + "] " == "] [INFO] ";
    case WARN => assert "] [" + "WARN" + "] " == "] [WARN] ";
    case ERROR => assert "] [" + "ERROR" + "] " == "] [ERROR] ";
  }

  lemma {:induction false} PartialIsPrefix(line: Line, j: nat)
    requires j <= PIECES
    ensures Partial(line, j) <= LineText(line)
    decreases PIECES - j
  {
    if j == PIECES {
      WholeLine(line);
    } else {
      PartialIsPrefix(line, j + 1);
    }
  }

  lemma {:induction false} FileTextAppend(lines: seq<Line>, last: Line)
    ensures FileText(lines + [last]) == FileText(lines) + LineText(last)
  {
    if lines == [] {
      assert lines + [last] == [last] && LineText(last) + "" == LineText(last);
    } else {
      assert (lines + [last])[1..] == lines[1..] + [last];
      FileTextAppend(lines[1..], last);
    }
  }

  lemma {:induction false} TextIsFileText(lines: seq<Line>)
    ensures Text(lines) == FileText(lines)
  {
    if lines != [] {
      var before, last := lines[..|lines| - 1], lines[|lines| - 1];
      TextIsFileText(before);
      WholeLine(last);
      FileTextAppend(before, last);
      assert before + [last] == lines;
    }
  }
}
