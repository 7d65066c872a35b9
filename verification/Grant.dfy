/** Unpadded base64url, section 5 of RFC 4648, as a concrete codec. */
module Base64Url {
  import opened Text

  type byte = x: int | 0 <= x < 256

  predicate InAlphabet(c: char) {
    'A' <= c <= 'Z' || 'a' <= c <= 'z' || '0' <= c <= '9' || c == '-' || c == '_'
  }

  function CharOf(v: nat): (c: char)
    requires v < 64
    ensures InAlphabet(c) && ValOf(c) == v
  {
    if v < 26 then 'A' + v as char
    else if v < 52 then 'a' + (v - 26) as char
    else if v < 62 then '0' + (v - 52) as char
    else if v == 62 then '-' else '_'
  }

  function ValOf(c: char): (v: nat)
    requires InAlphabet(c)
    ensures v < 64
  {
    if 'A' <= c <= 'Z' then c as int - 'A' as int
    else if 'a' <= c <= 'z' then c as int - 'a' as int + 26
    else if '0' <= c <= '9' then c as int - '0' as int + 52
    else if c == '-' then 62 else 63
  }

  function Encode(b: seq<byte>): (s: string)
    ensures forall i :: 0 <= i < |s| ==> InAlphabet(s[i])
  {
    if |b| == 0 then ""
    else if |b| == 1 then [CharOf(b[0] / 4), CharOf(b[0] % 4 * 16)]
    else if |b| == 2 then [CharOf(b[0] / 4), CharOf(b[0] % 4 * 16 + b[1] / 16), CharOf(b[1] % 16 * 4)]
    else [CharOf(b[0] / 4), CharOf(b[0] % 4 * 16 + b[1] / 16), CharOf(b[1] % 16 * 4 + b[2] / 64), CharOf(b[2] % 64)]
         + Encode(b[3..])
  }

  /** The decoder skips line breaks, and does not look at the unused bits of a
      short last group. */
  function Decode(s: string): Option<seq<byte>> {
    DecodeGroups(SkipBreaks(s))
  }

  function SkipBreaks(s: string): string {
    if s == "" then ""
    else (if s[0] == '\r' || s[0] == '\n' then "" else [s[0]]) + SkipBreaks(s[1..])
  }

  predicate AllIn(s: string) { forall i :: 0 <= i < |s| ==> InAlphabet(s[i]) }

  function DecodeGroups(s: string): Option<seq<byte>> {
    if s == "" then Some([])
    else if |s| == 1 || !AllIn(if |s| < 4 then s else s[..4]) then None
    else
      var n := if |s| < 4 then |s| else 4;
      var g := s[..n];
      if |s| < 4 then Some(Group(g))
      else match DecodeGroups(s[4..])
        case None => None
        case Some(rest) => Some(Group(g) + rest)
  }

  function Group(g: string): (b: seq<byte>)
    requires 2 <= |g| <= 4 && AllIn(g)
    ensures |b| == |g| - 1
  {
    var v0, v1 := ValOf(g[0]), ValOf(g[1]);
    [v0 * 4 + v1 / 16]
    + (if |g| < 3 then [] else [v1 % 16 * 16 + ValOf(g[2]) / 4])
    + (if |g| < 4 then [] else [ValOf(g[2]) % 4 * 64 + ValOf(g[3])])
  }

  lemma {:induction false} SkipNothing(s: string)
    requires AllIn(s)
    ensures SkipBreaks(s) == s
  {
    if s != "" {
      assert InAlphabet(s[0]);
      SkipNothing(s[1..]);
      assert [s[0]] + s[1..] == s;
    }
  }

  /** The bits of one group come back: division and remainder undo the shifts. */
  lemma GroupOf(b: seq<byte>)
    requires 1 <= |b| <= 3
    ensures |Encode(b)| == |b| + 1 && Group(Encode(b)) == b
  {
    var g := Encode(b);
    if |b| == 1 {
      assert ValOf(g[0]) == b[0] / 4 && ValOf(g[1]) == b[0] % 4 * 16;
    } else if |b| == 2 {
      assert ValOf(g[0]) == b[0] / 4 && ValOf(g[1]) == b[0] % 4 * 16 + b[1] / 16 && ValOf(g[2]) == b[1] % 16 * 4;
    } else {
      assert Encode(b[3..]) == "";
      assert ValOf(g[0]) == b[0] / 4 && ValOf(g[1]) == b[0] % 4 * 16 + b[1] / 16;
      assert ValOf(g[2]) == b[1] % 16 * 4 + b[2] / 64 && ValOf(g[3]) == b[2] % 64;
    }
  }

  lemma {:induction false} DecodeGroupsEncode(b: seq<byte>)
    ensures DecodeGroups(Encode(b)) == Some(b)
  {
    var s := Encode(b);
    if |b| == 0 {
    } else if |b| < 3 {
      GroupOf(b);
      assert s[..|s|] == s;
    } else {
      var head := b[..3];
      GroupOf(head);
      DecodeGroupsEncode(b[3..]);
      assert Encode(head[3..]) == "";
      assert s[..4] == Encode(head) && s[4..] == Encode(b[3..]);
      assert head + b[3..] == b;
    }
  }

  /** Decoding undoes encoding, and encoded text holds no dot. */
  lemma DecodeEncode(b: seq<byte>)
    ensures Decode(Encode(b)) == Some(b)
    ensures '.' !in Encode(b)
  {
    SkipNothing(Encode(b));
    DecodeGroupsEncode(b);
  }

  // ----- the standard's own terms ------------------------------------------

  /** The digits, in the order of their values: A to Z, a to z, 0 to 9, - and _. */
  lemma AlphabetIs(v: nat)
    requires v < 64
    ensures CharOf(0) == 'A' && CharOf(25) == 'Z' && CharOf(26) == 'a' && CharOf(51) == 'z' && CharOf(52) == '0'
            && CharOf(61) == '9' && CharOf(62) == '-' && CharOf(63) == '_'
    ensures v !in {25, 51, 61, 62, 63} ==> CharOf(v + 1) as int == CharOf(v) as int + 1
  {
  }

  predicate IsDigit(c: char) { exists v: nat | v < 64 :: CharOf(v) == c }

  lemma DigitsAre(c: char)
    ensures InAlphabet(c) <==> IsDigit(c)
  {
    if InAlphabet(c) {
      assert CharOf(ValOf(c)) == c;
    }
  }

  /** The digits of three bytes are those of their 24 bits in base 64; two bytes and
      one byte get two and four zero bits to fill the last digit. */
  lemma BitsAre(a: byte, b: byte, c: byte, rest: seq<byte>)
    ensures var s := Encode([a, b, c] + rest);
            && s[4..] == Encode(rest)
            && ValOf(s[0]) * 0x40000 + ValOf(s[1]) * 0x1000 + ValOf(s[2]) * 0x40 + ValOf(s[3])
               == a * 0x10000 + b * 0x100 + c
    ensures var s := Encode([a, b]);
            |s| == 3 && ValOf(s[0]) * 0x1000 + ValOf(s[1]) * 0x40 + ValOf(s[2]) == (a * 0x100 + b) * 4
    ensures var s := Encode([a]);
            |s| == 2 && ValOf(s[0]) * 0x40 + ValOf(s[1]) == a * 16
  {
    assert ([a, b, c] + rest)[3..] == rest;
  }

  /** A text decodes exactly if, line breaks aside, it is of digits and no group of
      four has only one. */
  lemma DecodeIff(s: string)
    ensures var t := SkipBreaks(s);
            Decode(s).Some? <==> |t| % 4 != 1 && forall i :: 0 <= i < |t| ==> IsDigit(t[i])
  {
    var t := SkipBreaks(s);
    forall i | 0 <= i < |t|
      ensures InAlphabet(t[i]) <==> IsDigit(t[i])
    {
      DigitsAre(t[i]);
    }
    GroupsIff(t);
  }

  lemma AllInConcat(a: string, b: string)
    ensures AllIn(a + b) <==> AllIn(a) && AllIn(b)
  {
    assert forall i :: 0 <= i < |a| ==> (a + b)[i] == a[i];
    assert forall i :: 0 <= i < |b| ==> (a + b)[|a| + i] == b[i];
  }

  lemma {:induction false} GroupsIff(s: string)
    ensures DecodeGroups(s).Some? <==> |s| % 4 != 1 && AllIn(s)
  {
    if |s| >= 4 {
      GroupsIff(s[4..]);
      assert s == s[..4] + s[4..];
      AllInConcat(s[..4], s[4..]);
      FirstGroup(s);
    }
  }

  lemma FirstGroup(s: string)
    requires |s| >= 4
    ensures DecodeGroups(s).Some? <==> AllIn(s[..4]) && DecodeGroups(s[4..]).Some?
  {
  }

  lemma {:induction false} BreaksAreSkipped(a: string, c: char, b: string)
    ensures SkipBreaks(a + [c] + b) == SkipBreaks(a) + (if c == '\r' || c == '\n' then "" else [c]) + SkipBreaks(b)
    ensures SkipBreaks("") == ""
  {
    if a == "" {
      assert (a + [c] + b)[1..] == b;
    } else {
      assert (a + [c] + b)[1..] == a[1..] + [c] + b;
      BreaksAreSkipped(a[1..], c, b);
    }
  }
}

/** Signed, path-scoped grants. Times are nanoseconds since the epoch; the MAC
    and the JSON encoding are abstract. */
module Grant {
  import opened Text
  import opened Base64Url

  datatype User = User(subject: string, email: string, name: string, groups: seq<string>, isPlatformAdmin: bool)

  datatype Payload = Payload(user: User, scope: string, expUnix: int)

  datatype Store = Store(mac: string -> seq<byte>, marshal: Payload -> seq<byte>,
                         unmarshal: seq<byte> -> Option<Payload>)

  const SECOND: int := 1_000_000_000

  /** JSON reads this payload back. */
  predicate Faithful(g: Store, p: Payload) {
    g.unmarshal(g.marshal(p)) == Some(p)
  }

  function Sign(g: Store, payload: string): string {
    Encode(g.mac(payload))
  }

  function Token(g: Store, payload: string): string {
    "v1." + payload + "." + Sign(g, payload)
  }

  function Mint(g: Store, u: Option<User>, scope: string, ttl: int, now: int): Result<(string, int)> {
    if u.None? then Err("grant: user is required")
    else if scope == "" then Err("grant: scope is required")
    else
      var exp := now + ttl;
      Ok((Token(g, Encode(g.marshal(Payload(u.value, scope, exp / SECOND)))), exp))
  }

  function Verify(g: Store, token: string, path: string, now: int): Result<User> {
    var parts := Split(token, '.');
    if |parts| != 3 || parts[0] != "v1" then Err("grant: bad token shape")
    else if parts[2] != Sign(g, parts[1]) then Err("grant: signature mismatch")
    else match Decode(parts[1])
      case None => Err("grant: payload decode")
      case Some(raw) =>
        match g.unmarshal(raw)
        case None => Err("grant: payload parse")
        case Some(p) =>
          if p.expUnix * SECOND < now then Err("grant: expired")
          else if path != "" && !(p.scope <= path) then Err("grant: scope mismatch")
          else Ok(p.user)
  }

  lemma TokenParts(payload: string, mac: string)
    requires '.' !in payload && '.' !in mac
    ensures Split("v1." + payload + "." + mac, '.') == ["v1", payload, mac]
  {
    SplitHead("v1", '.', payload + "." + mac);
    SplitHead(payload, '.', mac);
    SplitWhole(mac, '.');
    assert "v1." + payload + "." + mac == "v1" + "." + (payload + "." + mac);
  }

  /** Who may be granted what, and until when. */
  lemma MintIff(g: Store, u: Option<User>, scope: string, ttl: int, now: int)
    ensures Mint(g, u, scope, ttl, now).Ok? <==> u.Some? && scope != ""
    ensures Mint(g, u, scope, ttl, now).Ok? ==> Mint(g, u, scope, ttl, now).value.1 == now + ttl
    ensures Mint(g, u, scope, ttl, now).Err? ==>
              Mint(g, u, scope, ttl, now) == Err(if u.None? then "grant: user is required" else "grant: scope is required")
  {
  }

  /** A minted grant gives its user back on exactly the paths under its scope,
      up to the whole second its expiry falls in, and else says which it is. */
  lemma GrantRoundTrip(g: Store, u: User, scope: string, ttl: int, minted: int, path: string, now: int)
    requires Faithful(g, Payload(u, scope, (minted + ttl) / 1_000_000_000)) && scope != ""
    ensures Verify(g, Mint(g, Some(u), scope, ttl, minted).value.0, path, now)
            == if now > (minted + ttl) / 1_000_000_000 * 1_000_000_000 then Err("grant: expired")
               else if path == "" || scope <= path then Ok(u)
               else Err("grant: scope mismatch")
  {
    var p := Payload(u, scope, (minted + ttl) / SECOND);
    var payload := Encode(g.marshal(p));
    DecodeEncode(g.marshal(p));
    DecodeEncode(g.mac(payload));
    TokenParts(payload, Sign(g, payload));
  }

  /** Only a text that carries the MAC of its own payload is accepted. */
  lemma OnlySignedAccepted(g: Store, token: string, path: string, now: int)
    requires Verify(g, token, path, now).Ok?
    ensures token == Token(g, Split(token, '.')[1])
  {
    JoinSplit(token, '.');
    var parts := Split(token, '.');
    assert parts == ["v1", parts[1], parts[2]];
    assert parts[1..] == [parts[1], parts[2]] && parts[2..] == [parts[2]];
    assert Join(parts[2..], ".") == parts[2];
    assert Join(parts[1..], ".") == parts[1] + "." + parts[2];
  }

  lemma {:induction false} JoinSplit(s: string, c: char)
    ensures Join(Split(s, c), [c]) == s
  {
    if s != "" {
      var rest := Split(s[1..], c);
      JoinSplit(s[1..], c);
      assert s == [s[0]] + s[1..];
      if s[0] == c {
        assert ([""] + rest)[1..] == rest;
      } else {
        var all := [[s[0]] + rest[0]] + rest[1..];
        assert all[1..] == rest[1..];
        if |rest| > 1 {
          assert Join(all, [c]) == [s[0]] + (rest[0] + [c] + Join(rest[1..], [c]));
        }
      }
    }
  }

  /** A grant's signature put on another payload is refused as a mismatch exactly
      when the MACs of the two payloads differ. */
  lemma TamperedRejected(g: Store, payload: string, other: string, path: string, now: int)
    requires '.' !in other
    ensures Verify(g, "v1." + other + "." + Sign(g, payload), path, now) == Err("grant: signature mismatch")
            <==> g.mac(payload) != g.mac(other)
  {
    DecodeEncode(g.mac(payload));
    DecodeEncode(g.mac(other));
    TokenParts(other, Sign(g, payload));
  }

  /** What becomes of any token of three parts: its tag, its signature, its payload,
      its expiry and its scope are looked at in this order. */
  lemma VerifyAsks(g: Store, tag: string, payload: string, mac: string, path: string, now: int)
    requires '.' !in tag && '.' !in payload && '.' !in mac
    ensures Verify(g, tag + "." + payload + "." + mac, path, now)
            == if tag != "v1" then Err("grant: bad token shape")
               else if mac != Encode(g.mac(payload)) then Err("grant: signature mismatch")
               else if Decode(payload).None? then Err("grant: payload decode")
               else if g.unmarshal(Decode(payload).value).None? then Err("grant: payload parse")
               else
                 var p := g.unmarshal(Decode(payload).value).value;
                 if now > p.expUnix * 1_000_000_000 then Err("grant: expired")
                 else if path == "" || p.scope <= path then Ok(p.user)
                 else Err("grant: scope mismatch")
  {
    SplitHead(tag, '.', payload + "." + mac);
    SplitHead(payload, '.', mac);
    SplitWhole(mac, '.');
    assert tag + "." + payload + "." + mac == tag + "." + (payload + "." + mac);
  }

  function Dots(s: string): nat {
    if s == "" then 0 else (if s[0] == '.' then 1 else 0) + Dots(s[1..])
  }

  lemma {:induction false} PartsAreDots(s: string)
    ensures |Split(s, '.')| == Dots(s) + 1
  {
    if s != "" {
      PartsAreDots(s[1..]);
    }
  }

  /** Any other text has not the shape of one. */
  lemma ThreeParts(g: Store, token: string, path: string, now: int)
    requires Dots(token) != 2
    ensures Verify(g, token, path, now) == Err("grant: bad token shape")
  {
    PartsAreDots(token);
  }
}
