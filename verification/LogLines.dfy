/** What the lines of a pod's log are, and what of them reaches the client: the
    raw text as lines with their ends, without the scanner that cuts it up. */
module LogLines {
  import opened Text
  import opened Sse

  /** A line of the log: its text, and whether it ends in `\r\n` or only `\n`. */
  datatype Line = Line(text: string, cr: bool)

  /** How the log stops after its ended lines: at once, in a last line without an
      end, or in text that no 1 MiB buffer holds a whole line of. */
  datatype Ending = Ended | Unended(last: Line) | Overlong(text: string)

  /** The line with the carriage return it may have, without a line feed. */
  function Bare(l: Line): string {
    if l.cr then l.text + "\r" else l.text
  }

  function LogText(lines: seq<Line>, e: Ending): string {
    if lines != [] then Bare(lines[0]) + "\n" + LogText(lines[1..], e)
    else
      match e
      case Ended => ""
      case Unended(last) => Bare(last)
      case Overlong(text) => text
  }

  /** One line feed at most, at the end; one carriage return before it counts to
      the end; less than 1 MiB. */
  predicate IsLine(l: Line) {
    && '\n' !in l.text
    && (!l.cr && l.text != "" ==> l.text[|l.text| - 1] != '\r')
    && |Bare(l)| < 1024 * 1024
  }

  predicate IsEnding(e: Ending) {
    match e
    case Ended => true
    case Unended(last) => IsLine(last) && Bare(last) != ""
    case Overlong(text) => |text| >= 1024 * 1024 && '\n' !in text[..1024 * 1024]
  }

  ghost predicate IsLog(lines: seq<Line>, e: Ending) {
    (forall i :: 0 <= i < |lines| ==> IsLine(lines[i])) && IsEnding(e)
  }

  /** The texts of the lines, the unended last one among them. */
  function Texts(lines: seq<Line>, e: Ending): seq<string> {
    if lines != [] then [lines[0].text] + Texts(lines[1..], e)
    else if e.Unended? then [e.last.text]
    else []
  }

  lemma FeedAt(s: string)
    ensures var i := IndexOf(s, "\n");
            if i < 0 then '\n' !in s else i < |s| && s[i] == '\n' && '\n' !in s[..i]
  {
    var i := IndexOf(s, "\n");
    forall j | 0 <= j < |s| && s[j] == '\n'
      ensures 0 <= i <= j
    {
      assert At(s, "\n", j) by { assert s[j..j + 1] == "\n"; }
    }
    if i >= 0 {
      assert s[i..i + 1][0] == s[i];
    }
  }

  lemma FirstFeed(a: string, b: string)
    requires '\n' !in a
    ensures IndexOf(a + "\n" + b, "\n") == |a|
    ensures (a + "\n" + b)[..|a|] == a && (a + "\n" + b)[|a| + 1..] == b
  {
    var s := a + "\n" + b;
    assert At(s, "\n", |a|);
    forall j | 0 <= j < |a|
      ensures s[j] != '\n'
    {
      assert s[j] == a[j];
    }
    FeedAt(s);
  }

  lemma LineText(l: Line)
    requires IsLine(l)
    ensures DropCR(Bare(l)) == l.text && '\n' !in Bare(l)
  {
  }

  /** Text of which the scanner's buffer holds no whole line. */
  lemma TooLong(text: string)
    requires |text| >= 1024 * 1024 && '\n' !in text[..1024 * 1024]
    ensures ScanLines(text) == ([], true)
  {
    forall j | 0 <= j < 1024 * 1024
      ensures text[j] != '\n'
    {
      assert text[..1024 * 1024][j] == text[j];
    }
    FeedAt(text);
  }

  lemma ScanOne(bare: string, later: string)
    requires '\n' !in bare && |bare| < 1024 * 1024
    ensures ScanLines(bare + "\n" + later) == ([DropCR(bare)] + ScanLines(later).0, ScanLines(later).1)
  {
    FirstFeed(bare, later);
  }

  lemma ScanLast(bare: string)
    requires '\n' !in bare && bare != "" && |bare| < 1024 * 1024
    ensures ScanLines(bare) == ([DropCR(bare)], false)
  {
    FeedAt(bare);
  }

  lemma FirstText(lines: seq<Line>, e: Ending)
    requires lines != []
    ensures LogText(lines, e) == Bare(lines[0]) + "\n" + LogText(lines[1..], e)
    ensures Texts(lines, e) == [lines[0].text] + Texts(lines[1..], e)
  {
  }

  lemma EndingScan(e: Ending)
    requires IsEnding(e)
    ensures ScanLines(LogText([], e)) == (Texts([], e), e.Overlong?)
  {
    match e
    case Ended =>
    case Unended(last) =>
      LineText(last);
      ScanLast(Bare(last));
    case Overlong(text) => TooLong(text);
  }

  /** Scanning gives the lines, each without its end, and stops before text that
      no buffer holds a line of. */
  lemma {:induction false} LinesScan(lines: seq<Line>, e: Ending)
    requires IsLog(lines, e)
    ensures ScanLines(LogText(lines, e)) == (Texts(lines, e), e.Overlong?)
  {
    if lines == [] {
      EndingScan(e);
    } else {
      LineText(lines[0]);
      ScanOne(Bare(lines[0]), LogText(lines[1..], e));
      LinesScan(lines[1..], e);
      FirstText(lines, e);
    }
  }

  function LineOf(bare: string): Line {
    if bare != "" && bare[|bare| - 1] == '\r' then Line(bare[..|bare| - 1], true) else Line(bare, false)
  }

  lemma LineOfIs(bare: string)
    requires '\n' !in bare && |bare| < 1024 * 1024
    ensures IsLine(LineOf(bare)) && Bare(LineOf(bare)) == bare
  {
  }

  /** A text that starts with a whole line, and what follows the line. */
  lemma CutLine(raw: string) returns (line: Line, later: string)
    requires '\n' in raw && !(|raw| >= 1024 * 1024 && '\n' !in raw[..1024 * 1024])
    ensures IsLine(line) && raw == Bare(line) + "\n" + later
  {
    FeedAt(raw);
    var i := IndexOf(raw, "\n");
    LineOfIs(raw[..i]);
    line, later := LineOf(raw[..i]), raw[i + 1..];
    assert raw == raw[..i] + "\n" + raw[i + 1..];
  }

  lemma OneMoreLine(line: Line, lines: seq<Line>, e: Ending)
    requires IsLine(line) && IsLog(lines, e)
    ensures IsLog([line] + lines, e) && LogText([line] + lines, e) == Bare(line) + "\n" + LogText(lines, e)
  {
    assert ([line] + lines)[1..] == lines;
  }

  /** Every text is such a log. */
  lemma {:induction false} EveryLog(raw: string) returns (lines: seq<Line>, e: Ending)
    ensures IsLog(lines, e) && LogText(lines, e) == raw
    decreases |raw|
  {
    if raw == "" {
      lines, e := [], Ended;
    } else if |raw| >= 1024 * 1024 && '\n' !in raw[..1024 * 1024] {
      lines, e := [], Overlong(raw);
    } else if '\n' !in raw {
      LineOfIs(raw);
      lines, e := [], Unended(LineOf(raw));
    } else {
      var line, later := CutLine(raw);
      lines, e := EveryLog(later);
      OneMoreLine(line, lines, e);
      lines := [line] + lines;
    }
  }

  // ----- what the client is told -------------------------------------------

  /** Escaping goes character by character: a carriage return is left out, a line
      feed becomes a space, and everything else stays. */
  lemma {:induction false} EscapesEach(a: string, c: char, b: string)
    ensures SseEscape(a + [c] + b) == SseEscape(a) + (if c == '\r' then "" else if c == '\n' then " " else [c]) + SseEscape(b)
    ensures SseEscape("") == ""
  {
    if a == "" {
      assert (a + [c] + b)[1..] == b;
    } else {
      assert (a + [c] + b)[1..] == a[1..] + [c] + b;
      EscapesEach(a[1..], c, b);
    }
  }

  /** What StreamPodLogs writes to a client that takes it all, and the client reads
      in whatever chunks: the log's own lines in order, up to a cancellation or an
      overlong line, and the end event exactly where the log was read to its end. */
  lemma LogIsDelivered(lines: seq<Line>, e: Ending, limit: nat, broken: bool, room: nat, chunks: seq<string>)
    requires IsLog(lines, e)
    requires var raw := LogText(lines, e);
             Concat(chunks) == Take(LogFrames(Framed(raw, limit)) + EndOf(raw, limit, broken), room)
    requires |Concat(chunks)| < room
    ensures var (delivered, ended) := LogRun(Concat(chunks));
            var texts := Texts(lines, e);
            && |delivered| == (if 0 < limit <= |texts| then limit else |texts|)
            && (forall i :: 0 <= i < |delivered| ==> delivered[i] == SseEscape(texts[i]))
            && (forall i :: 0 <= i < |delivered| && '\r' !in texts[i] && '\n' !in texts[i] ==> delivered[i] == texts[i])
            && (ended <==> !e.Overlong? && !broken && (limit == 0 || |texts| < limit))
  {
    LinesScan(lines, e);
    var raw := LogText(lines, e);
    LogFramesParse(Framed(raw, limit), EndOf(raw, limit, broken));
    EndFrameStops();
    assert LogRun("") == ([], false);
  }
}
