/** The two server-sent-event streams: the printers in the API server and the
    incremental parsers in the browser client. Text is decoded characters. */
module Sse {
  import opened Text

  const SEP: string := "\n\n"
  const DATA: string := "data: "
  const END: string := "event: end"
  const END_FRAME: string := "event: end\ndata: \n\n"
  const MAX_TOKEN: int := 1024 * 1024

  // ----- client: what the parser makes of a whole text ---------------------

  /** Lines delivered from one frame, and whether an end event stopped it. */
  function FrameLines(lines: seq<string>): (r: (seq<string>, bool)) {
    if lines == [] then ([], false)
    else if DATA <= lines[0] then
      var rest := FrameLines(lines[1..]);
      ([lines[0][|DATA|..]] + rest.0, rest.1)
    else if END <= lines[0] then ([], true)
    else FrameLines(lines[1..])
  }

  /** Lines delivered from a whole text, and whether an end event was seen. */
  function LogRun(text: string): (r: (seq<string>, bool))
    decreases |text|
  {
    var i := IndexOf(text, SEP);
    if i < 0 then ([], false)
    else
      var f := FrameLines(Split(text[..i], '\n'));
      if f.1 then f
      else
        var rest := LogRun(text[i + |SEP|..]);
        (f.0 + rest.0, rest.1)
  }

  /** Reading a chunk moves text from the stream to the buffer. */
  lemma ReadChunk(buf: string, chunks: seq<string>, n: nat)
    requires n < |chunks|
    ensures buf + Concat(chunks[n..]) == buf + chunks[n] + Concat(chunks[n + 1..])
  {
    assert chunks[n..][1..] == chunks[n + 1..];
  }

  lemma LogRunFrame(buf: string, later: string)
    requires IndexOf(buf, SEP) >= 0
    ensures var i := IndexOf(buf, SEP);
            var f := FrameLines(Split(buf[..i], '\n'));
            LogRun(buf + later) ==
            if f.1 then f
            else (f.0 + LogRun(buf[i + |SEP|..] + later).0, LogRun(buf[i + |SEP|..] + later).1)
  {
    IndexOfStable(buf, SEP, later);
    var i := IndexOf(buf, SEP);
    assert (buf + later)[..i] == buf[..i];
    assert (buf + later)[i + |SEP|..] == buf[i + |SEP|..] + later;
  }

  /** How the response body ends once every chunk has been read. */
  datatype Fate = Finished | Aborted | Failed

  /** One frame of the log client: onLine per data line, up to an end event. */
  method DeliverFrame(lines: seq<string>) returns (delivered: seq<string>, ended: bool)
    ensures delivered == FrameLines(lines).0 && ended == FrameLines(lines).1
  {
    delivered, ended := [], false;
    for k := 0 to |lines|
      invariant !ended
      invariant FrameLines(lines).0 == delivered + FrameLines(lines[k..]).0
      invariant FrameLines(lines).1 == FrameLines(lines[k..]).1
    {
      if DATA <= lines[k] {
        delivered := delivered + [lines[k][|DATA|..]];
      } else if END <= lines[k] {
        ended := true;
        return;
      }
    }
  }

  /** The log client. Whatever the cut into chunks, it delivers what the whole
      text says, and calls onEnd or onError at most once, never both. */
  method StreamLogEndpoint(chunks: seq<string>, fate: Fate)
    returns (delivered: seq<string>, ends: nat, errors: nat)
    ensures delivered == LogRun(Concat(chunks)).0
    ensures ends == if LogRun(Concat(chunks)).1 || fate.Finished? then 1 else 0
    ensures errors == if !LogRun(Concat(chunks)).1 && fate.Failed? then 1 else 0
  {
    delivered, ends, errors := [], 0, 0;
    var buf := "";
    var n := 0;
    ghost var rest := Concat(chunks);
    while n < |chunks|
      invariant n <= |chunks| && ends == 0
      invariant rest == buf + Concat(chunks[n..])
      invariant LogRun(Concat(chunks)).0 == delivered + LogRun(rest).0
      invariant LogRun(Concat(chunks)).1 == LogRun(rest).1
      invariant IndexOf(buf, SEP) < 0
    {
      ghost var later := Concat(chunks[n + 1..]);
      ReadChunk(buf, chunks, n);
      buf := buf + chunks[n];
      n := n + 1;
      var idx := IndexOf(buf, SEP);
      while idx >= 0
        invariant ends == 0
        invariant idx == IndexOf(buf, SEP)
        invariant rest == buf + later
        invariant LogRun(Concat(chunks)).0 == delivered + LogRun(rest).0
        invariant LogRun(Concat(chunks)).1 == LogRun(rest).1
        decreases |buf|
      {
        LogRunFrame(buf, later);
        var lines, ended := DeliverFrame(Split(buf[..idx], '\n'));
        AppendAssoc(delivered, lines, LogRun(buf[idx + |SEP|..] + later).0);
        delivered := delivered + lines;
        if ended {
          ends := 1;
          return;
        }
        buf := buf[idx + |SEP|..];
        rest := buf + later;
        idx := IndexOf(buf, SEP);
      }
    }
    assert rest == buf;
    match fate {
      case Finished => ends := 1;
      case Aborted =>
      case Failed => errors := 1;
    }
  }

  // ----- server: the log printer -------------------------------------------

  function SseEscape(s: string): (r: string)
    ensures '\n' !in r && '\r' !in r
    ensures '\n' !in s && '\r' !in s ==> r == s
  {
    if s == "" then ""
    else if s[0] == '\r' then SseEscape(s[1..])
    else if s[0] == '\n' then " " + SseEscape(s[1..])
    else
      assert s == [s[0]] + s[1..];
      [s[0]] + SseEscape(s[1..])
  }

  lemma {:induction false} SseEscapeAppend(a: string, c: char)
    ensures SseEscape(a + [c]) == SseEscape(a) + (if c == '\r' then "" else if c == '\n' then " " else [c])
  {
    if a != "" {
      assert (a + [c])[1..] == a[1..] + [c];
      SseEscapeAppend(a[1..], c);
    }
  }

  method EscapeLine(s: string) returns (out: string)
    ensures out == SseEscape(s)
  {
    out := "";
    for i := 0 to |s|
      invariant out == SseEscape(s[..i])
    {
      assert s[..i + 1] == s[..i] + [s[i]];
      SseEscapeAppend(s[..i], s[i]);
      if s[i] == '\r' {
        continue;
      }
      if s[i] == '\n' {
        out := out + " ";
        continue;
      }
      out := out + [s[i]];
    }
    assert s[..|s|] == s;
  }

  function DropCR(s: string): string {
    if s != "" && s[|s| - 1] == '\r' then s[..|s| - 1] else s
  }

  /** bufio.Scanner over the raw log: its lines, and whether a line outgrew the
      scanner's 1 MiB buffer and stopped it. */
  function ScanLines(raw: string): (r: (seq<string>, bool))
    decreases |raw|
  {
    if raw == "" then ([], false)
    else
      var i := IndexOf(raw, "\n");
      if i >= MAX_TOKEN || (i < 0 && |raw| >= MAX_TOKEN) then ([], true)
      else if i < 0 then ([DropCR(raw)], false)
      else
        var rest := ScanLines(raw[i + 1..]);
        ([DropCR(raw[..i])] + rest.0, rest.1)
  }

  function LogFrame(line: string): string {
    DATA + SseEscape(line) + SEP
  }

  function LogFrames(lines: seq<string>): string {
    if lines == [] then "" else LogFrame(lines[0]) + LogFrames(lines[1..])
  }

  lemma {:induction false} LogFramesAppend(a: seq<string>, b: seq<string>)
    ensures LogFrames(a + b) == LogFrames(a) + LogFrames(b)
  {
    if a == [] {
      assert a + b == b;
    } else {
      assert (a + b)[1..] == a[1..] + b;
      LogFramesAppend(a[1..], b);
    }
  }

  lemma NextLine(all: seq<string>, k: nat, line: string, later: seq<string>)
    requires k <= |all| && all[k..] == [line] + later
    ensures k < |all| && all[k + 1..] == later && LogFrames(all[..k + 1]) == LogFrames(all[..k]) + LogFrame(line)
  {
    assert all[k..][0] == all[k] && all[k..][1..] == all[k + 1..];
    LogFramesAppend(all[..k], [line]);
    assert all[..k + 1] == all[..k] + [line];
    assert LogFrames([line]) == LogFrame(line) + LogFrames([line][1..]);
  }

  /** The lines that get a frame before the request's context is found cancelled
      after `limit` frames (0: never). */
  function Framed(raw: string, limit: nat): seq<string> {
    var lines := ScanLines(raw).0;
    if 0 < limit <= |lines| then lines[..limit] else lines
  }

  /** The log was read to its end: no line outgrew the scanner, the log API did
      not break off, and the request was not cancelled. */
  predicate ReadThrough(raw: string, limit: nat, broken: bool) {
    !ScanLines(raw).1 && !broken && (limit == 0 || |ScanLines(raw).0| < limit)
  }

  lemma FramesPrefix(lines: seq<string>, k: nat, n: nat, end: string, room: nat)
    requires k <= n <= |lines| && |LogFrames(lines[..k])| > room
    ensures Take(LogFrames(lines[..k]), room) == Take(LogFrames(lines[..n]) + end, room)
    ensures |LogFrames(lines[..n])| > room
  {
    assert lines[..n] == lines[..k] + lines[k..n];
    LogFramesAppend(lines[..k], lines[k..n]);
    assert (LogFrames(lines[..k]) + LogFrames(lines[k..n]) + end)[..room] == LogFrames(lines[..k])[..room];
  }

  function EndOf(raw: string, limit: nat, broken: bool): string {
    if ReadThrough(raw, limit, broken) then END_FRAME else ""
  }

  /** A write that fails while the lines are being framed. */
  lemma CutShort(raw: string, limit: nat, broken: bool, room: nat, written: nat)
    requires written <= |ScanLines(raw).0| && (limit == 0 || written <= limit)
    requires |LogFrames(ScanLines(raw).0[..written])| > room
    ensures Take(LogFrames(ScanLines(raw).0[..written]), room)
            == Take(LogFrames(Framed(raw, limit)) + EndOf(raw, limit, broken), room)
    ensures |LogFrames(Framed(raw, limit))| > room
  {
    var lines := ScanLines(raw).0;
    var framed := Framed(raw, limit);
    assert lines[..|framed|] == framed;
    FramesPrefix(lines, written, |framed|, EndOf(raw, limit, broken), room);
  }

  /** The scanner's next line, or none where it would outgrow the buffer. */
  method Scan(rest: string) returns (line: Option<string>, later: string)
    requires rest != ""
    ensures ScanLines(rest) == if line.None? then ([], true) else ([line.value] + ScanLines(later).0, ScanLines(later).1)
    ensures |later| < |rest|
  {
    var i := IndexOf(rest, "\n");
    if i >= MAX_TOKEN || (i < 0 && |rest| >= MAX_TOKEN) {
      return None, "";
    }
    line := Some(DropCR(if i < 0 then rest else rest[..i]));
    later := if i < 0 then "" else rest[i + 1..];
    AppendAssoc([line.value], [], []);
  }

  /** The reading stops short after `written` frames, all of which fit. */
  lemma StoppedHere(raw: string, limit: nat, broken: bool, room: nat, written: nat)
    requires written <= |ScanLines(raw).0| && (limit == 0 || written <= limit) && !ReadThrough(raw, limit, broken)
    requires written == limit || written == |ScanLines(raw).0|
    requires limit == 0 ==> written == |ScanLines(raw).0|
    requires |LogFrames(ScanLines(raw).0[..written])| <= room
    ensures Take(LogFrames(Framed(raw, limit)) + EndOf(raw, limit, broken), room) == LogFrames(ScanLines(raw).0[..written])
  {
    var lines := ScanLines(raw).0;
    assert lines[..written] == Framed(raw, limit) by { assert written == |lines| ==> lines[..written] == lines; }
    AppendAssoc(LogFrames(lines[..written]), [], []);
  }

  /** StreamPodLogs. `broken` says whether the log API ends in an error, `room` how
      many bytes the client takes before writing fails. A failed write of the end
      frame goes unnoticed. */
  method StreamPodLogs(raw: string, limit: nat, broken: bool, room: nat) returns (out: string, ok: bool)
    ensures ok <==> ReadThrough(raw, limit, broken) && |LogFrames(Framed(raw, limit))| <= room
    ensures out == Take(LogFrames(Framed(raw, limit)) + EndOf(raw, limit, broken), room)
  {
    out := "";
    ghost var all := ScanLines(raw);
    var rest := raw;
    var written := 0;
    while rest != ""
      invariant written <= |all.0|
      invariant all.0[written..] == ScanLines(rest).0 && all.1 == ScanLines(rest).1
      invariant out == LogFrames(all.0[..written]) && |out| <= room
      invariant limit == 0 || written < limit
      decreases |rest|
    {
      var token, later := Scan(rest);
      if token.None? {
        StoppedHere(raw, limit, broken, room, written);
        return out, false;
      }
      var line := token.value;
      rest := later;
      NextLine(all.0, written, line, ScanLines(rest).0);
      var escaped := EscapeLine(line);
      out := out + (DATA + escaped + SEP);
      written := written + 1;
      if |out| > room {
        CutShort(raw, limit, broken, room, written);
        return Take(out, room), false;
      }
      if written == limit {
        StoppedHere(raw, limit, broken, room, written);
        return out, false;
      }
    }
    if broken {
      StoppedHere(raw, limit, broken, room, written);
      return out, false;
    }
    assert all.0[..written] == all.0;
    out := Take(out + END_FRAME, room);
    ok := true;
  }

  // ----- printer and parser undo each other --------------------------------

  function Escaped(lines: seq<string>): seq<string> {
    seq(|lines|, i requires 0 <= i < |lines| => SseEscape(lines[i]))
  }

  /** How many whole frames the first `n` characters of the output hold. */
  function WholeFrames(lines: seq<string>, n: nat): (k: nat)
    ensures k <= |lines|
    ensures |LogFrames(lines[..k])| <= n
    ensures k < |lines| ==> n < |LogFrames(lines[..k + 1])|
  {
    if lines == [] || n < |LogFrame(lines[0])| then
      assert lines != [] ==> lines[..1] == [lines[0]] && lines[..1][1..] == [];
      0
    else
      var k := WholeFrames(lines[1..], n - |LogFrame(lines[0])|);
      assert lines[..k + 1][1..] == lines[1..][..k];
      assert k + 1 < |lines| ==> lines[..k + 2][1..] == lines[1..][..k + 1];
      k + 1
  }

  /** A frame body: every line feed is followed by another kind of character. */
  ghost predicate Body(body: string) {
    forall i :: 0 <= i < |body| && body[i] == '\n' ==> i + 1 < |body| && body[i + 1] != '\n'
  }

  lemma TwoFeeds(t: string, i: int)
    ensures At(t, SEP, i) <==> 0 <= i && i + 1 < |t| && t[i] == t[i + 1] == '\n'
  {
    if 0 <= i && i + 1 < |t| {
      assert t[i..i + 2] == [t[i], t[i + 1]];
    }
  }

  /** So the first separator is the one that ends the frame. */
  lemma FrameEnds(body: string, later: string)
    requires Body(body)
    ensures IndexOf(body + SEP + later, SEP) == |body|
    ensures (body + SEP + later)[..|body|] == body
    ensures (body + SEP + later)[|body| + |SEP|..] == later
  {
    var s := body + SEP + later;
    assert At(s, SEP, |body|);
    var i := IndexOf(s, SEP);
    TwoFeeds(s, i);
  }

  /** A cut before the separator is complete leaves no frame. */
  lemma PartialFrame(body: string, m: nat)
    requires Body(body) && m < |body| + |SEP|
    ensures IndexOf((body + SEP)[..m], SEP) < 0
  {
    var t := (body + SEP)[..m];
    var i := IndexOf(t, SEP);
    if i >= 0 {
      TwoFeeds(t, i);
      assert false;
    }
  }

  lemma FirstFrame(body: string, later: string)
    requires Body(body)
    ensures var f := FrameLines(Split(body, '\n'));
            LogRun(body + SEP + later) ==
            if f.1 then f else (f.0 + LogRun(later).0, LogRun(later).1)
  {
    FrameEnds(body, later);
  }

  lemma OneDataLine(line: string)
    requires DATA <= line
    ensures FrameLines([line]) == ([line[|DATA|..]], false)
    ensures DataLines([line]) == [line[|DATA|..]]
  {
    var tail: seq<string> := [line][1..];
    assert tail == [];
    assert [line[|DATA|..]] + [] == [line[|DATA|..]];
  }

  lemma LogBody(line: string)
    ensures Body(DATA + SseEscape(line))
    ensures FrameLines(Split(DATA + SseEscape(line), '\n')) == ([SseEscape(line)], false)
  {
    var body := DATA + SseEscape(line);
    SplitWhole(body, '\n');
    assert body[|DATA|..] == SseEscape(line);
    OneDataLine(body);
  }

  lemma EndBody()
    ensures END_FRAME == END + "\n" + DATA + SEP
    ensures Body(END + "\n" + DATA)
    ensures Split(END + "\n" + DATA, '\n') == [END, DATA]
    ensures !(DATA <= END) && DATA[|DATA|..] == ""
  {
    SplitWhole(DATA, '\n');
    SplitHead(END, '\n', DATA);
    assert END[0] != DATA[0];
  }

  lemma LogFrameParses(line: string, later: string)
    ensures LogRun(LogFrame(line) + later) == ([SseEscape(line)] + LogRun(later).0, LogRun(later).1)
  {
    LogBody(line);
    FirstFrame(DATA + SseEscape(line), later);
  }

  lemma EndFrameStops()
    ensures LogRun(END_FRAME) == ([], true)
  {
    EndBody();
    var body := END + "\n" + DATA;
    FirstFrame(body, "");
    assert body + SEP + "" == END_FRAME;
  }

  lemma EscapedCons(lines: seq<string>)
    requires lines != []
    ensures Escaped(lines) == [SseEscape(lines[0])] + Escaped(lines[1..])
  {
  }

  lemma {:induction false} LogFramesParse(lines: seq<string>, later: string)
    ensures LogRun(LogFrames(lines) + later) == (Escaped(lines) + LogRun(later).0, LogRun(later).1)
  {
    if lines == [] {
      assert LogFrames(lines) + later == later;
      assert Escaped(lines) + LogRun(later).0 == LogRun(later).0;
    } else {
      var tail := LogFrames(lines[1..]) + later;
      AppendAssoc(LogFrame(lines[0]), LogFrames(lines[1..]), later);
      LogFrameParses(lines[0], tail);
      LogFramesParse(lines[1..], later);
      EscapedCons(lines);
      AppendAssoc([SseEscape(lines[0])], Escaped(lines[1..]), LogRun(later).0);
    }
  }

  /** Every line of a log that was streamed to its end reaches the client,
      escaped and in order, and the client sees the end event. */
  lemma LogStreamRoundTrip(lines: seq<string>, chunks: seq<string>)
    requires Concat(chunks) == LogFrames(lines) + END_FRAME
    ensures LogRun(Concat(chunks)) == (Escaped(lines), true)
  {
    LogFramesParse(lines, END_FRAME);
    EndFrameStops();
    assert Escaped(lines) + [] == Escaped(lines);
  }

  lemma SplitFrames(lines: seq<string>, k: nat)
    requires k <= |lines|
    ensures LogFrames(lines) == LogFrames(lines[..k]) + LogFrames(lines[k..])
    ensures k == |lines| ==> LogFrames(lines[..k]) == LogFrames(lines)
  {
    assert lines == lines[..k] + lines[k..];
    LogFramesAppend(lines[..k], lines[k..]);
    assert k == |lines| ==> lines[..k] == lines;
  }

  /** A stream cut anywhere before its end frame is complete delivers exactly
      the frames that arrived whole. */
  lemma LogStreamTruncated(lines: seq<string>, n: nat)
    requires n < |LogFrames(lines) + END_FRAME|
    ensures LogRun((LogFrames(lines) + END_FRAME)[..n]) == (Escaped(lines[..WholeFrames(lines, n)]), false)
  {
    var k := WholeFrames(lines, n);
    SplitFrames(lines, k);
    var m := n - |LogFrames(lines[..k])|;
    CutInside(LogFrames(lines), LogFrames(lines[..k]), LogFrames(lines[k..]), END_FRAME, n);
    LogFramesParse(lines[..k], (LogFrames(lines[k..]) + END_FRAME)[..m]);
    UnfinishedFrame(lines, k, m);
    AppendAssoc(Escaped(lines[..k]), [], []);
  }

  lemma CutInside(whole: string, a: string, b: string, end: string, n: nat)
    requires whole == a + b && |a| <= n <= |whole + end|
    ensures (whole + end)[..n] == a + (b + end)[..n - |a|]
  {
    assert whole + end == a + (b + end);
  }

  /** What follows the last whole frame does not yet make another. */
  lemma UnfinishedFrame(lines: seq<string>, k: nat, m: nat)
    requires k <= |lines| && m <= |LogFrames(lines[k..]) + END_FRAME|
    requires if k < |lines| then m + |LogFrames(lines[..k])| < |LogFrames(lines[..k + 1])| else m < |END_FRAME|
    ensures LogRun((LogFrames(lines[k..]) + END_FRAME)[..m]) == ([], false)
  {
    var rest := LogFrames(lines[k..]) + END_FRAME;
    if k < |lines| {
      assert lines[..k + 1] == lines[..k] + [lines[k]];
      LogFramesAppend(lines[..k], [lines[k]]);
      assert LogFrames([lines[k]]) == LogFrame(lines[k]) + LogFrames([lines[k]][1..]);
      LogBody(lines[k]);
      PartialFrame(DATA + SseEscape(lines[k]), m);
      assert rest[..m] == LogFrame(lines[k])[..m];
    } else {
      EndBody();
      PartialFrame(END + "\n" + DATA, m);
      assert rest == END_FRAME;
    }
  }

  // ----- the agent stream --------------------------------------------------

  /** JSON as a codec. */
  datatype Codec<!E> = Codec(enc: E -> string, dec: string -> Option<E>, fallback: string -> E)

  predicate OneLineObject(s: string) {
    |s| >= 2 && s[0] == '{' && s[|s| - 1] == '}' && '\n' !in s
  }

  /** Each of these events prints as one line that starts and ends with a brace,
      and is read back. */
  ghost predicate Faithful<E>(c: Codec<E>, events: seq<E>) {
    forall i :: 0 <= i < |events| ==> OneLineObject(c.enc(events[i])) && c.dec(c.enc(events[i])) == Some(events[i])
  }

  function DataLines(lines: seq<string>): seq<string> {
    if lines == [] then []
    else if DATA <= lines[0] then [lines[0][|DATA|..]] + DataLines(lines[1..])
    else DataLines(lines[1..])
  }

  /** The data of one frame, trimmed; blank data counts for nothing. */
  function FrameData(frame: string): (r: seq<string>)
    ensures |r| <= 1
  {
    var data := Trim(Js, Join(DataLines(Split(frame, '\n')), "\n"));
    if data == "" then [] else [data]
  }

  function AgentRun(text: string): seq<string>
    decreases |text|
  {
    var i := IndexOf(text, SEP);
    if i < 0 then [] else FrameData(text[..i]) + AgentRun(text[i + |SEP|..])
  }

  /** Data that is not JSON becomes the fallback event. */
  function Decode<E>(c: Codec<E>, data: string): E {
    match c.dec(data)
    case Some(e) => e
    case None => c.fallback(data)
  }

  function DecodeAll<E>(c: Codec<E>, datas: seq<string>): seq<E> {
    if datas == [] then [] else [Decode(c, datas[0])] + DecodeAll(c, datas[1..])
  }

  function EncodeAll<E>(c: Codec<E>, events: seq<E>): seq<string> {
    if events == [] then [] else [c.enc(events[0])] + EncodeAll(c, events[1..])
  }

  lemma {:induction false} DecodeAllAppend<E>(c: Codec<E>, datas: seq<string>, data: string)
    ensures DecodeAll(c, datas + [data]) == DecodeAll(c, datas) + [Decode(c, data)]
  {
    if datas == [] {
      assert [data][1..] == [] && [] + [data] == [data];
    } else {
      assert (datas + [data])[1..] == datas[1..] + [data];
      DecodeAllAppend(c, datas[1..], data);
    }
  }

  lemma {:induction false} EncodeAllAppend<E>(c: Codec<E>, events: seq<E>, e: E)
    ensures EncodeAll(c, events + [e]) == EncodeAll(c, events) + [c.enc(e)]
  {
    if events == [] {
      assert [e][1..] == [] && [] + [e] == [e];
    } else {
      assert (events + [e])[1..] == events[1..] + [e];
      EncodeAllAppend(c, events[1..], e);
    }
  }

  lemma AgentRunFrame(buf: string, later: string)
    requires IndexOf(buf, SEP) >= 0
    ensures var i := IndexOf(buf, SEP);
            AgentRun(buf + later) == FrameData(buf[..i]) + AgentRun(buf[i + |SEP|..] + later)
  {
    IndexOfStable(buf, SEP, later);
    var i := IndexOf(buf, SEP);
    assert (buf + later)[..i] == buf[..i];
    assert (buf + later)[i + |SEP|..] == buf[i + |SEP|..] + later;
  }

  /** The agent client, after these chunks: the events do not depend on the cut
      into chunks, and the call is done only where the body ends by itself; a read
      that fails or is aborted rejects it. */
  method StreamAgentSession<E>(c: Codec<E>, chunks: seq<string>, fate: Fate)
    returns (events: seq<E>, dones: nat, rejected: bool)
    ensures events == DecodeAll(c, AgentRun(Concat(chunks)))
    ensures dones == (if fate.Finished? then 1 else 0) && rejected == !fate.Finished?
  {
    events := [];
    var buf := "";
    var n := 0;
    ghost var rest, seen := Concat(chunks), [];
    while n < |chunks|
      invariant n <= |chunks|
      invariant rest == buf + Concat(chunks[n..])
      invariant AgentRun(Concat(chunks)) == seen + AgentRun(rest)
      invariant events == DecodeAll(c, seen)
      invariant IndexOf(buf, SEP) < 0
    {
      ghost var later := Concat(chunks[n + 1..]);
      ReadChunk(buf, chunks, n);
      buf := buf + chunks[n];
      n := n + 1;
      var idx := IndexOf(buf, SEP);
      while idx >= 0
        invariant idx == IndexOf(buf, SEP)
        invariant rest == buf + later
        invariant AgentRun(Concat(chunks)) == seen + AgentRun(rest)
        invariant events == DecodeAll(c, seen)
        decreases |buf|
      {
        AgentRunFrame(buf, later);
        var data := FrameData(buf[..idx]);
        buf := buf[idx + |SEP|..];
        rest := buf + later;
        AppendAssoc(seen, data, AgentRun(rest));
        if data != [] {
          DecodeAllAppend(c, seen, data[0]);
          events := events + [Decode(c, data[0])];
          assert data == [data[0]];
        } else {
          assert seen + data == seen;
        }
        seen := seen + data;
        idx := IndexOf(buf, SEP);
      }
    }
    assert rest == buf;
    assert seen == AgentRun(Concat(chunks));
    if !fate.Finished? {
      return events, 0, true;
    }
    dones, rejected := 1, false;
  }

  function AgentFrames(raws: seq<string>): string {
    if raws == [] then "" else DATA + raws[0] + SEP + AgentFrames(raws[1..])
  }

  lemma {:induction false} AgentFramesAppend(raws: seq<string>, raw: string)
    ensures AgentFrames(raws + [raw]) == AgentFrames(raws) + DATA + raw + SEP
  {
    if raws == [] {
      assert [raw][1..] == [] && [] + [raw] == [raw];
    } else {
      assert (raws + [raw])[1..] == raws[1..] + [raw];
      AgentFramesAppend(raws[1..], raw);
    }
  }

  /** runAgent: one frame per event, one more for a failure, then the end frame. */
  method RunAgent<E>(c: Codec<E>, events: seq<E>, failure: Option<E>) returns (out: string)
    ensures var sent := events + (if failure.Some? then [failure.value] else []);
            out == AgentFrames(EncodeAll(c, sent)) + END_FRAME
  {
    out := "";
    for i := 0 to |events|
      invariant out == AgentFrames(EncodeAll(c, events[..i]))
    {
      assert events[..i + 1] == events[..i] + [events[i]];
      EncodeAllAppend(c, events[..i], events[i]);
      AgentFramesAppend(EncodeAll(c, events[..i]), c.enc(events[i]));
      out := out + DATA + c.enc(events[i]) + SEP;
    }
    assert events[..|events|] == events;
    if failure.Some? {
      EncodeAllAppend(c, events, failure.value);
      AgentFramesAppend(EncodeAll(c, events), c.enc(failure.value));
      out := out + DATA + c.enc(failure.value) + SEP;
    } else {
      assert events + [] == events;
    }
    out := out + END_FRAME;
  }

  lemma AgentBody(raw: string)
    requires OneLineObject(raw)
    ensures Body(DATA + raw)
    ensures FrameData(DATA + raw) == [raw]
  {
    var body := DATA + raw;
    assert DataLines(Split(body, '\n')) == [raw] by {
      SplitWhole(body, '\n');
      assert body[|DATA|..] == raw;
      OneDataLine(body);
    }
    assert Trim(Js, raw) == raw by { TrimIdentity(Js, raw); }
  }

  lemma FirstAgentFrame(body: string, later: string)
    requires Body(body)
    ensures AgentRun(body + SEP + later) == FrameData(body) + AgentRun(later)
  {
    FrameEnds(body, later);
  }

  lemma AgentEndFrame()
    ensures AgentRun(END_FRAME) == []
  {
    EndBody();
    var body := END + "\n" + DATA;
    FirstAgentFrame(body, "");
    assert body + SEP + "" == END_FRAME;
    OneDataLine(DATA);
    assert [END, DATA][1..] == [DATA];
    assert DataLines([END, DATA]) == [""];
    assert FrameData(body) == [];
  }

  lemma {:induction false} AgentFramesParse(raws: seq<string>)
    requires forall r :: r in raws ==> OneLineObject(r)
    ensures AgentRun(AgentFrames(raws) + END_FRAME) == raws
  {
    if raws == [] {
      AgentEndFrame();
      assert AgentFrames(raws) + END_FRAME == END_FRAME;
    } else {
      var later := AgentFrames(raws[1..]) + END_FRAME;
      assert AgentFrames(raws) + END_FRAME == (DATA + raws[0]) + SEP + later;
      AgentBody(raws[0]);
      FirstAgentFrame(DATA + raws[0], later);
      AgentFramesParse(raws[1..]);
      assert [raws[0]] + raws[1..] == raws;
    }
  }

  lemma {:induction false} DecodeEncoded<E>(c: Codec<E>, events: seq<E>)
    requires Faithful(c, events)
    ensures DecodeAll(c, EncodeAll(c, events)) == events
    ensures forall r :: r in EncodeAll(c, events) ==> OneLineObject(r)
  {
    if events != [] {
      DecodeEncoded(c, events[1..]);
      var raw := c.enc(events[0]);
      assert OneLineObject(raw);
      assert EncodeAll(c, events)[1..] == EncodeAll(c, events[1..]);
      assert [events[0]] + events[1..] == events;
    }
  }

  /** The client receives exactly the events the server emitted. */
  lemma AgentStreamRoundTrip<E>(c: Codec<E>, events: seq<E>, chunks: seq<string>)
    requires Faithful(c, events)
    requires Concat(chunks) == AgentFrames(EncodeAll(c, events)) + END_FRAME
    ensures DecodeAll(c, AgentRun(Concat(chunks))) == events
  {
    DecodeEncoded(c, events);
    AgentFramesParse(EncodeAll(c, events));
  }

  // ----- any frame, whatever its data --------------------------------------

  /** Several data lines under one another. */
  function DataText(datas: seq<string>): string {
    if datas == [] then ""
    else if |datas| == 1 then "data: " + datas[0]
    else "data: " + datas[0] + "\n" + DataText(datas[1..])
  }

  lemma {:induction false} DataTextSplits(datas: seq<string>)
    requires datas != [] && forall d :: d in datas ==> '\n' !in d
    ensures DataLines(Split(DataText(datas), '\n')) == datas
  {
    var line := "data: " + datas[0];
    assert datas[0] in datas && line[|DATA|..] == datas[0];
    if |datas| == 1 {
      SplitWhole(line, '\n');
      OneDataLine(line);
    } else {
      DataTextSplits(datas[1..]);
      SplitHead(line, '\n', DataText(datas[1..]));
      FirstDataLine(line, Split(DataText(datas[1..]), '\n'));
      assert [datas[0]] + datas[1..] == datas;
    }
  }

  lemma FirstDataLine(line: string, later: seq<string>)
    requires DATA <= line
    ensures DataLines([line] + later) == [line[|DATA|..]] + DataLines(later)
  {
    assert ([line] + later)[1..] == later;
  }

  lemma {:induction false} DataTextBody(datas: seq<string>)
    requires datas != [] && forall d :: d in datas ==> '\n' !in d
    ensures Body(DataText(datas)) && DATA <= DataText(datas)
  {
    var line := "data: " + datas[0];
    assert datas[0] in datas;
    if |datas| > 1 {
      DataTextBody(datas[1..]);
      BodyAfter(line, DataText(datas[1..]));
    }
  }

  lemma BodyAfter(line: string, body: string)
    requires '\n' !in line && Body(body) && DATA <= body
    ensures Body(line + "\n" + body)
  {
    var s := line + "\n" + body;
    forall i | 0 <= i < |s| && s[i] == '\n'
      ensures i + 1 < |s| && s[i + 1] != '\n'
    {
      if i > |line| {
        assert s[i] == body[i - |line| - 1];
      } else {
        assert i == |line| && body[0] == DATA[0];
      }
    }
  }

  lemma DataTextRun(datas: seq<string>, later: string)
    requires datas != [] && forall d :: d in datas ==> '\n' !in d
    ensures AgentRun(DataText(datas) + SEP + later) == FrameData(DataText(datas)) + AgentRun(later)
    ensures FrameData(DataText(datas))
            == var data := Trim(Js, Join(datas, "\n")); if data == "" then [] else [data]
  {
    DataTextBody(datas);
    DataTextSplits(datas);
    FirstAgentFrame(DataText(datas), later);
  }

  lemma DecodeFirst<E>(c: Codec<E>, data: string, datas: seq<string>)
    ensures DecodeAll(c, [data] + datas)
            == [if c.dec(data).Some? then c.dec(data).value else c.fallback(data)] + DecodeAll(c, datas)
  {
    assert ([data] + datas)[1..] == datas;
  }

  /** A frame of data lines becomes one event: the lines under one another without
      the space around them, read as JSON, or as the fallback where they are none;
      blank data is no event. */
  lemma AgentFrameDelivers<E>(c: Codec<E>, datas: seq<string>, later: string)
    requires datas != [] && forall d :: d in datas ==> '\n' !in d
    ensures var data := Trim(Js, Join(datas, "\n"));
            DecodeAll(c, AgentRun(DataText(datas) + "\n\n" + later))
            == (if data == "" then [] else [if c.dec(data).Some? then c.dec(data).value else c.fallback(data)])
               + DecodeAll(c, AgentRun(later))
  {
    DataTextRun(datas, later);
    var data := Trim(Js, Join(datas, "\n"));
    if data == "" {
      AppendAssoc(AgentRun(later), [], []);
      AppendAssoc(DecodeAll(c, AgentRun(later)), [], []);
    } else {
      DecodeFirst(c, data, AgentRun(later));
    }
  }
}
