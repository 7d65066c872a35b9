/** The MCP tool server's framing over stdin/stdout, and its serving loop. A
    `char` stands for one byte. */
module Mcp {
  import opened Text
  import opened Decimal
  import Sse

  datatype ReadError = EOF | UnexpectedEOF | MissingLength

  /** The outcome of one read and the input left after it. */
  datatype Read = Message(payload: string, rest: string) | Failure(error: ReadError, rest: string)

  /** The body length after one header line. */
  function HeaderLength(line: string, length: int): int {
    var i := IndexOf(line, ":");
    if i >= 0 && Lower(Trim(Bytes, line[..i])) == "content-length" then ParseInt64(Trim(Bytes, line[i + 1..])).0
    else length
  }

  function ReadBody(s: string, length: int): Read {
    if length <= 0 then Failure(MissingLength, s)
    else if s == "" then Failure(EOF, "")
    else if |s| < length then Failure(UnexpectedEOF, "")
    else Message(s[..length], s[length..])
  }

  function ReadHeaders(s: string, length: int): (r: Read)
    ensures |r.rest| <= |s|
    ensures r.Message? ==> |r.rest| < |s|
    decreases |s|
  {
    var i := IndexOf(s, "\n");
    if i < 0 then Failure(EOF, "")
    else
      var line := Trim(Bytes, s[..i + 1]);
      if line == "" then ReadBody(s[i + 1..], length)
      else ReadHeaders(s[i + 1..], HeaderLength(line, length))
  }

  /** What reading one message makes of an input. */
  function ReadMessage(s: string): (r: Read)
    ensures r.Message? ==> |r.rest| < |s|
  {
    if s == "" then Failure(EOF, "")
    else if s[0] == '{' then
      var i := IndexOf(s, "\n");
      if i < 0 then Failure(EOF, "") else Message(Trim(Bytes, s[..i + 1]), s[i + 1..])
    else ReadHeaders(s, 0)
  }

  /** A buffered reader over the remaining input. */
  class Reader {
    var rest: string

    constructor (input: string)
      ensures rest == input
    {
      rest := input;
    }

    method ReadLine() returns (line: string, eof: bool)
      modifies this
      ensures var i := IndexOf(old(rest), "\n");
              if i < 0 then eof && line == old(rest) && rest == ""
              else !eof && line == old(rest)[..i + 1] && rest == old(rest)[i + 1..]
    {
      var i := IndexOf(rest, "\n");
      if i < 0 {
        line, eof, rest := rest, true, "";
      } else {
        line, eof, rest := rest[..i + 1], false, rest[i + 1..];
      }
    }

    method ReadMCPMessage() returns (payload: string, error: Option<ReadError>)
      modifies this
      ensures rest == ReadMessage(old(rest)).rest
      ensures match ReadMessage(old(rest))
              case Message(p, _) => error == None && payload == p
              case Failure(e, _) => error == Some(e)
    {
      payload := "";
      if rest == "" {
        return "", Some(EOF);
      }
      if rest[0] == '{' {
        var line, eof := ReadLine();
        return Trim(Bytes, line), if eof then Some(EOF) else None;
      }
      var contentLength := 0;
      ghost var start := rest;
      while true
        invariant ReadHeaders(rest, contentLength) == ReadHeaders(start, 0)
        decreases |rest|
      {
        var line, eof := ReadLine();
        if eof {
          return "", Some(EOF);
        }
        line := Trim(Bytes, line);
        if line == "" {
          break;
        }
        contentLength := HeaderLength(line, contentLength);
      }
      assert ReadBody(rest, contentLength) == ReadHeaders(start, 0);
      if contentLength <= 0 {
        return "", Some(MissingLength);
      }
      if rest == "" {
        return "", Some(EOF);
      }
      if |rest| < contentLength {
        rest := "";
        return "", Some(UnexpectedEOF);
      }
      payload, rest := rest[..contentLength], rest[contentLength..];
      error := None;
    }
  }

  // ----- the writer, and reading it back -----------------------------------

  const LENGTH: string := "Content-Length: "
  const BLANK: string := "\r\n\r\n"

  /** What writeMCPMessage writes for one encoded message. */
  function Frame(raw: string): string {
    LENGTH + Dec(|raw|) + BLANK + raw
  }

  /** The two accepted forms of a message: framed, or a `{...}` line. */
  datatype Wire = Framed(raw: string) | Lined(raw: string) {
    predicate Valid() {
      match this
      case Framed(raw) => 0 < |raw| <= MAX64
      case Lined(raw) => raw != "" && raw[0] == '{' && '\n' !in raw
    }

    function Bytes(): string {
      match this case Framed(raw) => Frame(raw) case Lined(raw) => raw + "\n"
    }

    /** A line loses the white space at its end, a framed body nothing. */
    function Payload(): string {
      match this case Framed(raw) => raw case Lined(raw) => TrimRight(Spaces.Bytes, raw)
    }
  }

  function WireBytes(ws: seq<Wire>): string {
    if ws == [] then "" else ws[0].Bytes() + WireBytes(ws[1..])
  }

  function Payloads(ws: seq<Wire>): (ps: seq<string>)
    ensures |ps| == |ws| && forall i :: 0 <= i < |ws| ==> ps[i] == ws[i].Payload()
  {
    if ws == [] then [] else [ws[0].Payload()] + Payloads(ws[1..])
  }

  lemma FirstLine(line: string, rest: string)
    requires '\n' !in line
    ensures IndexOf(line + "\n" + rest, "\n") == |line|
    ensures (line + "\n" + rest)[..|line| + 1] == line + "\n"
    ensures (line + "\n" + rest)[|line| + 1..] == rest
  {
    var s := line + "\n" + rest;
    assert At(s, "\n", |line|) by { assert s[|line|..|line| + 1] == "\n"; }
    var i := IndexOf(s, "\n");
    assert s[i..i + 1][0] == s[i];
  }

  lemma LengthLine(n: nat)
    ensures '\n' !in LENGTH + Dec(n) + "\r"
    ensures Trim(Spaces.Bytes, LENGTH + Dec(n) + "\r" + "\n") == LENGTH + Dec(n)
  {
    assert AllDigits(Dec(n));
    LengthPrefix();
    EndedLine(LENGTH, Dec(n));
  }

  lemma LengthPrefix()
    ensures LENGTH[0] == 'C' && '\n' !in LENGTH
  {
  }

  /** A header line, ended the way the writer ends it. */
  lemma EndedLine(prefix: string, d: string)
    requires prefix != "" && !IsIn(Spaces.Bytes, prefix[0]) && '\n' !in prefix && d != "" && AllDigits(d)
    ensures '\n' !in prefix + d + "\r"
    ensures Trim(Spaces.Bytes, prefix + d + "\r" + "\n") == prefix + d
  {
    NoFeed(prefix, d);
    var line := prefix + d;
    assert line[0] == prefix[0] && line[|line| - 1] == d[|d| - 1];
    TrimLine(line, "\r" + "\n");
    AppendAssoc(line, "\r", "\n");
  }

  lemma NoFeed(prefix: string, d: string)
    requires '\n' !in prefix && AllDigits(d)
    ensures '\n' !in prefix + d + "\r"
  {
    assert '\n' !in d;
  }

  /** A text that neither starts nor ends with a space, followed by spaces. */
  lemma TrimLine(s: string, tail: string)
    requires s != "" && !IsIn(Spaces.Bytes, s[0]) && !IsIn(Spaces.Bytes, s[|s| - 1])
    requires forall c :: c in tail ==> IsIn(Spaces.Bytes, c)
    ensures Trim(Spaces.Bytes, s + tail) == s
  {
    assert TrimLeft(Spaces.Bytes, s + tail) == s + tail;
    TrimRightSpaces(Spaces.Bytes, s, tail);
  }

  const NAME: string := "Content-Length"

  lemma NamePart(d: string)
    ensures IndexOf(LENGTH + d, ":") == 14
    ensures (LENGTH + d)[..14] == NAME && (LENGTH + d)[15..] == " " + d
  {
    var line := LENGTH + d;
    assert At(line, ":", 14) by { assert line[14..15] == ":"; }
    var i := IndexOf(line, ":");
    assert line[i..i + 1][0] == line[i];
  }

  lemma NameFolds()
    ensures Lower(Trim(Spaces.Bytes, NAME)) == "content-length"
  {
    NameTrims(NAME);
    NameLowers();
  }

  lemma NameTrims(name: string)
    requires name != "" && !IsIn(Spaces.Bytes, name[0]) && !IsIn(Spaces.Bytes, name[|name| - 1])
    ensures Trim(Spaces.Bytes, name) == name
  {
    TrimIdentity(Spaces.Bytes, name);
  }

  lemma NameLowers()
    ensures Lower(NAME) == "content-length"
  {
    Halves();
    LowerHalves();
    LowerHalf();
    LowerConcat("Content", "-Length");
  }

  lemma Halves()
    ensures NAME == "Content" + "-Length"
  {
  }

  lemma LowerHalves()
    ensures "content-length" == "content" + "-length"
  {
  }

  lemma LowerHalf()
    ensures Lower("Content") == "content" && Lower("-Length") == "-length"
  {
  }

  lemma LowerConcat(a: string, b: string)
    ensures Lower(a + b) == Lower(a) + Lower(b)
  {
  }

  lemma TrimDigits(d: string)
    requires d != "" && AllDigits(d)
    ensures Trim(Spaces.Bytes, " " + d) == d
  {
    assert (" " + d)[1..] == d;
    assert IsDigit(d[0]) && IsDigit(d[|d| - 1]);
    assert TrimLeft(Spaces.Bytes, d) == d;
  }

  lemma HeaderIs(n: nat)
    requires n <= MAX64
    ensures HeaderLength(LENGTH + Dec(n), 0) == n
  {
    NamePart(Dec(n));
    NameFolds();
    TrimDigits(Dec(n));
    ParseDec(n);
  }

  /** One header line, then the blank one. */
  lemma ReadHeader(n: nat, body: string)
    requires n <= MAX64
    ensures ReadHeaders(LENGTH + Dec(n) + BLANK + body, 0) == ReadBody(body, n)
  {
    var header := LENGTH + Dec(n) + "\r";
    var after := "\r" + "\n" + body;
    assert LENGTH + Dec(n) + BLANK + body == header + "\n" + after;
    LengthLine(n);
    FirstLine(header, after);
    HeaderIs(n);
    ReadBlank(body, n);
  }

  lemma ReadBlank(body: string, n: int)
    ensures ReadHeaders("\r" + "\n" + body, n) == ReadBody(body, n)
  {
    BlankEnds("\r", body, n);
  }

  /** A line of nothing but spaces ends the headers. */
  lemma BlankEnds(line: string, body: string, n: int)
    requires forall c :: c in line ==> IsIn(Spaces.Bytes, c) && c != '\n'
    ensures ReadHeaders(line + "\n" + body, n) == ReadBody(body, n)
  {
    FirstLine(line, body);
    TrimAllSpaces(Spaces.Bytes, line + "\n");
  }

  lemma ReadFrame(raw: string, rest: string)
    requires 0 < |raw| <= MAX64
    ensures ReadMessage(Frame(raw) + rest) == Message(raw, rest)
  {
    var body := raw + rest;
    assert Frame(raw) + rest == LENGTH + Dec(|raw|) + BLANK + body;
    ReadHeader(|raw|, body);
    assert body[..|raw|] == raw && body[|raw|..] == rest;
    assert (Frame(raw) + rest)[0] == 'C';
  }

  lemma ReadLined(raw: string, rest: string)
    requires Lined(raw).Valid()
    ensures ReadMessage(raw + "\n" + rest) == Message(TrimRight(Spaces.Bytes, raw), rest)
  {
    FirstLine(raw, rest);
    assert TrimLeft(Spaces.Bytes, raw + "\n") == raw + "\n";
    TrimRightSpaces(Spaces.Bytes, raw, "\n");
  }

  /** Reading until the first failure. */
  function ReadAll(s: string): (seq<string>, ReadError)
    decreases |s|
  {
    match ReadMessage(s)
    case Failure(e, _) => ([], e)
    case Message(p, rest) =>
      var tail := ReadAll(rest);
      ([p] + tail.0, tail.1)
  }

  /** Any mix of framed messages and lines reads back payload by payload, up to
      a clean end of input. */
  lemma {:induction false} WireRoundTrip(ws: seq<Wire>)
    requires forall w :: w in ws ==> w.Valid()
    ensures ReadAll(WireBytes(ws)).0 == Payloads(ws)
    ensures ReadAll(WireBytes(ws)).1 == EOF
  {
    if ws != [] {
      ReadWire(ws[0], WireBytes(ws[1..]));
      WireRoundTrip(ws[1..]);
    }
  }

  lemma ReadWire(w: Wire, rest: string)
    requires w.Valid()
    ensures ReadMessage(w.Bytes() + rest) == Message(w.Payload(), rest)
  {
    match w {
      case Framed(raw) => ReadFrame(raw, rest);
      case Lined(raw) => ReadLined(raw, rest);
    }
  }

  // ----- the serving loop --------------------------------------------------

  datatype Id = Number(n: int) | Word(s: string)

  datatype Request = Request(id: Option<Id>, name: string, params: string)

  datatype Response = Response(id: Id, outcome: Result<string>)

  /** JSON: `parse` may reject a text, `unmarshal` is the client's reading. */
  datatype Json = Json(parse: string -> Option<Request>, marshal: Response -> string,
                       unmarshal: string -> Option<Response>)

  /** These responses are printed as something, of a length an int64 holds, and
      the client reads them back. */
  predicate Faithful(j: Json, rs: seq<Response>) {
    forall r :: r in rs ==> 0 < |j.marshal(r)| <= MAX64 && j.unmarshal(j.marshal(r)) == Some(r)
  }

  /** The answer owed for one payload: none unless it is a request with an id. */
  function AnswerTo(j: Json, handle: (string, string) -> Result<string>, payload: string): seq<Response> {
    match j.parse(payload)
    case Some(Request(Some(id), name, params)) => [Response(id, handle(name, params))]
    case _ => []
  }

  function Answers(j: Json, handle: (string, string) -> Result<string>, payloads: seq<string>): seq<Response> {
    if payloads == [] then []
    else AnswerTo(j, handle, payloads[0]) + Answers(j, handle, payloads[1..])
  }

  function FrameAll(j: Json, rs: seq<Response>): string {
    if rs == [] then "" else Frame(j.marshal(rs[0])) + FrameAll(j, rs[1..])
  }

  lemma {:induction false} FrameAllAppend(j: Json, a: seq<Response>, b: seq<Response>)
    ensures FrameAll(j, a + b) == FrameAll(j, a) + FrameAll(j, b)
  {
    if a == [] {
      assert a + b == b;
    } else {
      assert (a + b)[1..] == a[1..] + b;
      FrameAllAppend(j, a[1..], b);
    }
  }

  datatype ServeError = Reading(e: ReadError) | Writing

  /** Serve: reads to the end of the input, answering as it goes. `room` is how
      many bytes the other side takes before writing fails. A clean end of input
      is success; any other read error, or a failed write, is returned. */
  method Serve(j: Json, handle: (string, string) -> Result<string>, input: string, room: nat)
    returns (out: string, error: Option<ServeError>)
    ensures var all := FrameAll(j, Answers(j, handle, ReadAll(input).0));
            && out == Take(all, room)
            && error == if |all| > room then Some(Writing)
                        else if ReadAll(input).1 == EOF then None
                        else Some(Reading(ReadAll(input).1))
  {
    var r := new Reader(input);
    out := "";
    ghost var read: seq<string>, all := [], ReadAll(input);
    assert Answers(j, handle, read) == [] && read + all.0 == all.0;
    while true
      invariant out == FrameAll(j, Answers(j, handle, read)) && |out| <= room
      invariant all.0 == read + ReadAll(r.rest).0
      invariant all.1 == ReadAll(r.rest).1
      decreases |r.rest|
    {
      var raw, e := r.ReadMCPMessage();
      if e.Some? {
        AppendAssoc(read, [], []);
        return out, if e.value == EOF then None else Some(Reading(e.value));
      }
      AppendAssoc(read, [raw], ReadAll(r.rest).0);
      AnswersGrow(j, handle, read, raw, ReadAll(r.rest).0);
      read := read + [raw];
      match j.parse(raw) {
        case Some(Request(Some(id), name, params)) =>
          var frame := Frame(j.marshal(Response(id, handle(name, params))));
          if |out + frame| > room {
            return Take(out + frame, room), Some(Writing);
          }
          out := out + frame;
        case _ => AppendAssoc(out, [], []);
      }
    }
  }

  /** Answering one more payload appends its answer, and all later output comes
      after that. */
  lemma AnswersGrow(j: Json, handle: (string, string) -> Result<string>, read: seq<string>, raw: string,
                    later: seq<string>)
    ensures FrameAll(j, Answers(j, handle, read + [raw]))
            == FrameAll(j, Answers(j, handle, read))
               + match j.parse(raw)
                 case Some(Request(Some(id), name, params)) => Frame(j.marshal(Response(id, handle(name, params))))
                 case _ => ""
    ensures FrameAll(j, Answers(j, handle, read + [raw])) <= FrameAll(j, Answers(j, handle, read + [raw] + later))
  {
    AnswersAppend(j, handle, read, raw);
    OneAnswer(j, handle, raw);
    FrameAllAppend(j, Answers(j, handle, read), AnswerTo(j, handle, raw));
    AnswersConcat(j, handle, read + [raw], later);
    FrameAllAppend(j, Answers(j, handle, read + [raw]), Answers(j, handle, later));
  }

  lemma {:induction false} AnswersConcat(j: Json, handle: (string, string) -> Result<string>, a: seq<string>, b: seq<string>)
    ensures Answers(j, handle, a + b) == Answers(j, handle, a) + Answers(j, handle, b)
  {
    if a == [] {
      assert a + b == b;
    } else {
      assert (a + b)[1..] == a[1..] + b;
      AnswersConcat(j, handle, a[1..], b);
      AppendAssoc(AnswerTo(j, handle, a[0]), Answers(j, handle, a[1..]), Answers(j, handle, b));
    }
  }

  lemma OneAnswer(j: Json, handle: (string, string) -> Result<string>, raw: string)
    ensures FrameAll(j, AnswerTo(j, handle, raw))
            == match j.parse(raw)
               case Some(Request(Some(id), name, params)) => Frame(j.marshal(Response(id, handle(name, params))))
               case _ => ""
  {
    var a := AnswerTo(j, handle, raw);
    if a != [] {
      assert a[1..] == [];
    }
  }

  lemma AnswersAppend(j: Json, handle: (string, string) -> Result<string>, a: seq<string>, p: string)
    ensures Answers(j, handle, a + [p]) == Answers(j, handle, a) + AnswerTo(j, handle, p)
  {
    AnswersConcat(j, handle, a, [p]);
    assert [p][1..] == [] && Answers(j, handle, []) == [];
    AppendAssoc(AnswerTo(j, handle, p), [], []);
  }

  function Framings(j: Json, rs: seq<Response>): (ws: seq<Wire>)
    ensures |ws| == |rs| && forall i :: 0 <= i < |rs| ==> ws[i] == Framed(j.marshal(rs[i]))
  {
    if rs == [] then [] else [Framed(j.marshal(rs[0]))] + Framings(j, rs[1..])
  }

  lemma {:induction false} FramesOf(j: Json, rs: seq<Response>)
    requires Faithful(j, rs)
    ensures FrameAll(j, rs) == WireBytes(Framings(j, rs)) && forall w :: w in Framings(j, rs) ==> w.Valid()
  {
    if rs != [] {
      FramesOf(j, rs[1..]);
      var ws := Framings(j, rs);
      assert ws[1..] == Framings(j, rs[1..]);
    }
  }

  // ----- any headers -------------------------------------------------------

  lemma FirstColon(name: string, value: string)
    requires ':' !in name
    ensures IndexOf(name + ":" + value, ":") == |name|
    ensures (name + ":" + value)[..|name|] == name && (name + ":" + value)[|name| + 1..] == value
  {
    var line := name + ":" + value;
    assert At(line, ":", |name|) by { assert line[|name|..|name| + 1] == ":"; }
    var i := IndexOf(line, ":");
    assert line[i..i + 1][0] == line[i];
  }

  lemma HeaderNamed(name: string, value: string, length: int)
    requires ':' !in name
    ensures HeaderLength(name + ":" + value, length)
            == if Lower(Trim(Spaces.Bytes, name)) == "content-length" then ParseInt64(Trim(Spaces.Bytes, value)).0 else length
  {
    FirstColon(name, value);
  }

  lemma OneLine(line: string, rest: string, length: int)
    requires line != "" && !IsIn(Spaces.Bytes, line[0]) && !IsIn(Spaces.Bytes, line[|line| - 1]) && '\n' !in line
    ensures ReadHeaders(line + "\r" + "\n" + rest, length) == ReadHeaders(rest, HeaderLength(line, length))
  {
    FirstLine(line + "\r", rest);
    AppendAssoc(line, "\r", "\n");
    TrimLine(line, "\r" + "\n");
  }

  /** A header line of any name: only Content-Length counts, in whatever case, and
      of several the last. */
  lemma OneHeader(name: string, value: string, rest: string, length: int)
    requires name != "" && !IsIn(Spaces.Bytes, name[0]) && ':' !in name && '\n' !in name
    requires value != "" && !IsIn(Spaces.Bytes, value[|value| - 1]) && '\n' !in value
    ensures ReadHeaders(name + ":" + value + "\r" + "\n" + rest, length)
            == ReadHeaders(rest, if Lower(Trim(Spaces.Bytes, name)) == "content-length"
                                 then ParseInt64(Trim(Spaces.Bytes, value)).0 else length)
  {
    Ends(name, value);
    OneLine(name + ":" + value, rest, length);
    HeaderNamed(name, value, length);
  }

  lemma Ends(name: string, value: string)
    requires name != "" && value != "" && '\n' !in name && '\n' !in value
    ensures var line := name + ":" + value;
            line[0] == name[0] && line[|line| - 1] == value[|value| - 1] && '\n' !in line
  {
  }

  /** After the blank line: the length must be there, and the body whole. */
  lemma AfterHeaders(body: string, length: int)
    ensures ReadHeaders("\r" + "\n" + body, length)
            == if length <= 0 then Failure(MissingLength, body)
               else if body == "" then Failure(EOF, "")
               else if |body| < length then Failure(UnexpectedEOF, "")
               else Message(body[..length], body[length..])
  {
    ReadBlank(body, length);
  }

  lemma FoundFeed(s: string)
    ensures var i := IndexOf(s, "\n");
            i >= 0 ==> i < |s| && s[i] == '\n'
  {
    var i := IndexOf(s, "\n");
    if i >= 0 {
      assert s[i..i + 1][0] == s[i];
    }
  }

  /** An input that ends inside a line holds no message. */
  lemma CutOff(s: string, length: int)
    requires '\n' !in s
    ensures ReadMessage(s) == ReadHeaders(s, length) == Failure(EOF, "")
  {
    FoundFeed(s);
  }

  // ----- identities --------------------------------------------------------

  /** 2 to the 53rd: up to here a float64 holds every integer. */
  const EXACT: nat := 9007199254740992

  /** How far apart float64 values of this size are. */
  function Spacing(m: nat): (s: nat)
    ensures s > 0
  {
    if m < EXACT then 1 else 2 * Spacing(m / 2)
  }

  /** The nearest multiple of `s`, the even one of two. */
  function Nearest(m: nat, s: nat): nat
    requires s > 0
  {
    var q, r := m / s, m % s;
    if 2 * r < s || (2 * r == s && q % 2 == 0) then m - r else m - r + s
  }

  /** The nearest float64. */
  function Rounded(m: nat): nat {
    Nearest(m, Spacing(m))
  }

  /** An identity decoded into Go's `any`: a number becomes a float64. */
  function Decoded(id: Id): Id {
    match id
    case Number(n) => Number(if n < 0 then 0 - Rounded(-n) as int else Rounded(n))
    case Word(_) => id
  }

  /** The number is one of the float64 values. */
  predicate Held(id: Id) {
    id.Number? ==> var m: nat := if id.n < 0 then -id.n else id.n; m % Spacing(m) == 0
  }

  /** What a number becomes is a float64 value, none of which is nearer. */
  lemma NearestIs(m: nat)
    ensures Rounded(m) % Spacing(m) == 0
    ensures -(Spacing(m) as int) <= 2 * (Rounded(m) - m) <= Spacing(m)
  {
    RoundTo(m, Spacing(m));
  }

  lemma RoundTo(m: nat, s: nat)
    requires s > 0
    ensures Nearest(m, s) % s == 0 && -(s as int) <= 2 * (Nearest(m, s) - m) <= s
  {
    Near(m / s, m % s, s, m, Nearest(m, s));
  }

  lemma Near(q: nat, r: nat, s: nat, m: nat, n: nat)
    requires r < s && m == q * s + r && n == if 2 * r < s || (2 * r == s && q % 2 == 0) then m - r else m - r + s
    ensures n % s == 0 && -(s as int) <= 2 * (n - m) <= s
  {
    ModUnique(q, 0, s);
    ModUnique(q + 1, 0, s);
    assert (q + 1) * s == q * s + s;
  }

  lemma DecodedIff(id: Id)
    ensures Decoded(id) == id <==> Held(id)
  {
  }

  /** Every integer up to 2 to the 53rd is, and the next one is not. */
  lemma SmallNumbersAreHeld(n: int)
    ensures -(EXACT as int) <= n <= EXACT ==> Held(Number(n))
    ensures !Held(Number(EXACT + 1)) && Decoded(Number(EXACT + 1)) == Number(EXACT)
  {
    assert Spacing(EXACT / 2) == 1 && Spacing((EXACT + 1) / 2) == 1;
  }

  /** A request whose identity has been read as `d` reads identities. */
  function Received(d: Id -> Id, r: Request): Request {
    if r.id.Some? then r.(id := Some(d(r.id.value))) else r
  }

  function AllReceived(d: Id -> Id, rs: seq<Request>): (out: seq<Request>)
    ensures |out| == |rs| && forall i :: 0 <= i < |rs| ==> out[i] == Received(d, rs[i])
  {
    seq(|rs|, i requires 0 <= i < |rs| => Received(d, rs[i]))
  }

  /** The server reads each payload as the request the client meant, the identity
      apart, which it decodes. */
  predicate Understood(j: Json, payloads: seq<string>, rs: seq<Request>) {
    |payloads| == |rs|
    && forall i :: 0 <= i < |rs| ==> j.parse(payloads[i]) == Some(Received(Decoded, rs[i]))
  }

  /** The answers owed to these requests: one to each that has an identity. */
  function Owed(handle: (string, string) -> Result<string>, rs: seq<Request>): seq<Response> {
    if rs == [] then []
    else
      (if rs[0].id.Some? then [Response(rs[0].id.value, handle(rs[0].name, rs[0].params))] else [])
      + Owed(handle, rs[1..])
  }

  lemma {:induction false} AnswersAreOwed(j: Json, handle: (string, string) -> Result<string>, payloads: seq<string>,
                                          rs: seq<Request>)
    requires Understood(j, payloads, rs)
    ensures Answers(j, handle, payloads) == Owed(handle, AllReceived(Decoded, rs))
  {
    if rs != [] {
      AnswersAreOwed(j, handle, payloads[1..], rs[1..]);
      assert AllReceived(Decoded, rs)[1..] == AllReceived(Decoded, rs[1..]);
    }
  }

  predicate ReadAsSent(d: Id -> Id, r: Request) {
    r.id.Some? ==> d(r.id.value) == r.id.value
  }

  /** The answers come under the identities sent exactly when those are read as
      they were sent. */
  lemma {:induction false} OwedIff(d: Id -> Id, handle: (string, string) -> Result<string>, rs: seq<Request>)
    ensures Owed(handle, AllReceived(d, rs)) == Owed(handle, rs) <==> forall r :: r in rs ==> ReadAsSent(d, r)
    ensures |Owed(handle, AllReceived(d, rs))| == |Owed(handle, rs)|
  {
    if rs != [] {
      OwedIff(d, handle, rs[1..]);
      var all := AllReceived(d, rs);
      assert all[1..] == AllReceived(d, rs[1..]);
      assert (forall r :: r in rs ==> ReadAsSent(d, r))
             <==> ReadAsSent(d, rs[0]) && forall r :: r in rs[1..] ==> ReadAsSent(d, r) by {
        assert forall r :: r in rs <==> r == rs[0] || r in rs[1..];
      }
      if rs[0].id.Some? {
        var a := Response(d(rs[0].id.value), handle(rs[0].name, rs[0].params));
        var b := Response(rs[0].id.value, handle(rs[0].name, rs[0].params));
        ConsEqual(a, Owed(handle, all[1..]), b, Owed(handle, rs[1..]));
        assert Owed(handle, all) == [a] + Owed(handle, all[1..]);
        assert Owed(handle, rs) == [b] + Owed(handle, rs[1..]);
        assert a == b <==> ReadAsSent(d, rs[0]);
      } else {
        AppendAssoc(Owed(handle, all[1..]), [], []);
        AppendAssoc(Owed(handle, rs[1..]), [], []);
      }
    }
  }

  lemma ConsEqual<T>(a: T, s: seq<T>, b: T, t: seq<T>)
    ensures [a] + s == [b] + t <==> a == b && s == t
  {
    assert ([a] + s)[1..] == s && ([b] + t)[1..] == t;
    assert ([a] + s)[0] == a && ([b] + t)[0] == b;
  }

  /** End to end: a client that sends any mix of frames and lines and reads the
      server's output finds one answer to each request with an identity, in the
      order sent; and all under the identities it sent if and only if each number
      among them is one a float64 holds. */
  lemma ServeEndToEnd(j: Json, handle: (string, string) -> Result<string>, ws: seq<Wire>, rs: seq<Request>)
    requires (forall w :: w in ws ==> w.Valid()) && Understood(j, Payloads(ws), rs)
    requires Faithful(j, Owed(handle, AllReceived(Decoded, rs)))
    ensures var out := FrameAll(j, Answers(j, handle, ReadAll(WireBytes(ws)).0));
            var got, answers := ReadAll(out), Owed(handle, AllReceived(Decoded, rs));
            && got.1 == EOF && |got.0| == |answers| == |Owed(handle, rs)|
            && (forall i :: 0 <= i < |answers| ==> j.unmarshal(got.0[i]) == Some(answers[i]))
            && (answers == Owed(handle, rs) <==> forall r :: r in rs && r.id.Some? ==> Held(r.id.value))
  {
    WireRoundTrip(ws);
    AnswersAreOwed(j, handle, Payloads(ws), rs);
    var answers := Owed(handle, AllReceived(Decoded, rs));
    FramesOf(j, answers);
    WireRoundTrip(Framings(j, answers));
    OwedIff(Decoded, handle, rs);
    forall r | r in rs
      ensures ReadAsSent(Decoded, r) <==> (r.id.Some? ==> Held(r.id.value))
    {
      if r.id.Some? {
        DecodedIff(r.id.value);
      }
    }
  }

  // ----- log text for the pod_logs tool ------------------------------------

  function StripSSE(raw: string): string {
    var out := Sse.DataLines(Split(raw, '\n'));
    if out == [] then raw else Join(out, "\n")
  }

  lemma {:induction false} DataLinesConcat(a: seq<string>, b: seq<string>)
    ensures Sse.DataLines(a + b) == Sse.DataLines(a) + Sse.DataLines(b)
  {
    if a == [] {
      assert a + b == b;
    } else {
      assert (a + b)[1..] == a[1..] + b;
      DataLinesConcat(a[1..], b);
    }
  }

  lemma {:induction false} LogLines(lines: seq<string>)
    ensures Sse.DataLines(Split(Sse.LogFrames(lines) + Sse.END_FRAME, '\n')) == Sse.Escaped(lines) + [""]
  {
    if lines == [] {
      EndLines();
    } else {
      var e := Sse.SseEscape(lines[0]);
      var later := Sse.LogFrames(lines[1..]) + Sse.END_FRAME;
      assert Sse.LogFrames(lines) + Sse.END_FRAME == Sse.DATA + e + "\n" + ("" + "\n" + later) by {
        FrameTail(Sse.DATA + e, Sse.LogFrames(lines[1..]), Sse.END_FRAME);
      }
      OneFrameLines(lines[0], later);
      LogLines(lines[1..]);
      assert Sse.Escaped(lines) == [e] + Sse.Escaped(lines[1..]);
    }
  }

  lemma FrameTail(body: string, frames: string, end: string)
    ensures body + Sse.SEP + frames + end == body + "\n" + ("" + "\n" + (frames + end))
  {
    AppendAssoc4(body, "\n", "\n", frames + end);
    AppendAssoc4(body, Sse.SEP, frames, end);
    assert Sse.SEP == "\n" + "\n" && "" + "\n" == "\n";
  }

  lemma EndLines()
    ensures Sse.DataLines(Split(Sse.LogFrames([]) + Sse.END_FRAME, '\n')) == [""]
  {
    Sse.EndBody();
    assert Sse.LogFrames([]) + Sse.END_FRAME == (Sse.END + "\n" + Sse.DATA) + "\n" + "\n";
    var head := [Sse.END, Sse.DATA];
    SplitConcat(Sse.END + "\n" + Sse.DATA, '\n', "\n");
    SplitHead("", '\n', "");
    assert "" + "\n" + "" == "\n";
    assert Split("\n", '\n') == ["", ""];
    DataLinesConcat(head, ["", ""]);
    BlankLines();
    Sse.OneDataLine(Sse.DATA);
    assert head[1..] == [Sse.DATA];
    assert Sse.DataLines(head) == [""];
  }

  lemma OneFrameLines(line: string, later: string)
    ensures Sse.DataLines(Split(Sse.DATA + Sse.SseEscape(line) + "\n" + ("" + "\n" + later), '\n'))
            == [Sse.SseEscape(line)] + Sse.DataLines(Split(later, '\n'))
  {
    var e := Sse.SseEscape(line);
    var body := Sse.DATA + e;
    SplitHead(body, '\n', "" + "\n" + later);
    SplitHead("", '\n', later);
    var rest := Split(later, '\n');
    assert [body] + ([""] + rest) == [body, ""] + rest;
    DataLinesConcat([body, ""], rest);
    Sse.OneDataLine(body);
    assert [body, ""] == [body] + [""];
    DataLinesConcat([body], [""]);
    BlankLines();
    assert body[|Sse.DATA|..] == e;
  }

  lemma BlankLines()
    ensures Sse.DataLines([""]) == [] && Sse.DataLines(["", ""]) == []
  {
    assert [""][1..] == [] && ["", ""][1..] == [""];
  }

  /** The pod_logs tool gives back the log's lines, one per line. */
  lemma StripSSELog(lines: seq<string>)
    ensures StripSSE(Sse.LogFrames(lines) + Sse.END_FRAME) == Join(Sse.Escaped(lines) + [""], "\n")
  {
    LogLines(lines);
  }
}
