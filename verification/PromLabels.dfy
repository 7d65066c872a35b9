/** PromQL label matchers built from user-supplied targets, read back by the
    query language's own string rules. */
module PromLabels {
  import opened Text

  function ReplaceAll(s: string, c: char, r: string): string {
    if s == "" then "" else (if s[0] == c then r else [s[0]]) + ReplaceAll(s[1..], c, r)
  }

  /** Two successive replace-alls; the second must not touch what the first wrote. */
  function EscapeLabel(s: string): string {
    ReplaceAll(ReplaceAll(s, '\\', "\\\\"), '"', "\\\"")
  }

  /** How a double-quoted string ends up being read: its value and what follows
      the closing quote. A raw line feed or an unknown escape is an error. */
  function ReadQuoted(s: string): Option<(string, string)> {
    if s == "" || s[0] == '\n' then None
    else if s[0] == '"' then Some(("", s[1..]))
    else if s[0] == '\\' then
      if |s| < 2 || Unescape(s[1]).None? then None
      else Cons(Unescape(s[1]).value, ReadQuoted(s[2..]))
    else Cons(s[0], ReadQuoted(s[1..]))
  }

  function Cons(c: char, r: Option<(string, string)>): Option<(string, string)> {
    match r
    case None => None
    case Some(p) => Some(([c] + p.0, p.1))
  }

  function Unescape(c: char): Option<char> {
    match c
    case '\\' => Some('\\')
    case '"' => Some('"')
    case 'a' => Some('\U{07}')
    case 'b' => Some('\U{08}')
    case 'f' => Some('\U{0C}')
    case 'n' => Some('\n')
    case 'r' => Some('\r')
    case 't' => Some('\t')
    case 'v' => Some('\U{0B}')
    case _ => None
  }

  function EscapeChar(c: char): string {
    if c == '\\' then "\\\\" else if c == '"' then "\\\"" else [c]
  }

  lemma {:induction false} ReplaceAllConcat(a: string, b: string, c: char, r: string)
    ensures ReplaceAll(a + b, c, r) == ReplaceAll(a, c, r) + ReplaceAll(b, c, r)
  {
    if a == "" {
      assert a + b == b;
    } else {
      assert (a + b)[1..] == a[1..] + b;
      ReplaceAllConcat(a[1..], b, c, r);
    }
  }

  lemma EscapeLabelStep(s: string)
    requires s != ""
    ensures EscapeLabel(s) == EscapeChar(s[0]) + EscapeLabel(s[1..])
  {
    var head := if s[0] == '\\' then "\\\\" else [s[0]];
    ReplaceAllConcat(head, ReplaceAll(s[1..], '\\', "\\\\"), '"', "\\\"");
    var tail := head[1..];
    assert ReplaceAll(head, '"', "\\\"") == EscapeChar(s[0]) by {
      assert |tail| <= 1;
      assert tail != "" ==> tail == "\\" && tail[1..] == "";
    }
  }

  /** The escaped text closes at its own final quote and reads back as the
      target, exactly when the target has no line feed. */
  lemma {:induction false} EscapeRoundTrip(t: string, rest: string)
    ensures ReadQuoted(EscapeLabel(t) + "\"" + rest) == (if '\n' in t then None else Some((t, rest)))
  {
    var s := EscapeLabel(t) + "\"" + rest;
    if t == "" {
      assert s[0] == '"' && s[1..] == rest;
    } else {
      EscapeLabelStep(t);
      EscapeRoundTrip(t[1..], rest);
      var e := EscapeChar(t[0]);
      var later := EscapeLabel(t[1..]) + "\"" + rest;
      assert s == e + later;
      assert s[|e|..] == later;
      assert t == [t[0]] + t[1..];
      if t[0] == '\\' || t[0] == '"' {
        assert s[0] == '\\' && s[1] == t[0];
      } else {
        assert s[0] == t[0];
      }
    }
  }

  datatype Scope = Cluster | Node | Namespace | Pod | Unknown

  function ScopeLabel(scope: Scope): string
    requires scope.Node? || scope.Namespace? || scope.Pod?
  {
    match scope case Node => "node" case Namespace => "namespace" case Pod => "pod"
  }

  function ScopeFilter(scope: Scope, target: string): Result<string> {
    if scope.Cluster? then Ok("")
    else if scope.Unknown? then Err("unknown scope")
    else if target == "" then Err("target is required")
    else Ok(ScopeLabel(scope) + "=\"" + EscapeLabel(target) + "\"")
  }

  function NonBlank(parts: seq<string>): seq<string> {
    if parts == [] then []
    else if Trim(Unicode, parts[0]) != "" then [parts[0]] + NonBlank(parts[1..])
    else NonBlank(parts[1..])
  }

  method JoinFilters(parts: seq<string>) returns (joined: string)
    ensures joined == Join(NonBlank(parts), ",")
  {
    var out: seq<string> := [];
    for i := 0 to |parts|
      invariant NonBlank(parts) == out + NonBlank(parts[i..])
    {
      NextPart(parts, i, out);
      if Trim(Unicode, parts[i]) != "" {
        out := out + [parts[i]];
      }
    }
    AppendAssoc(out, [], []);
    joined := Join(out, ",");
  }

  lemma NextPart(parts: seq<string>, i: nat, out: seq<string>)
    requires i < |parts|
    ensures out + NonBlank(parts[i..])
            == (if Trim(Unicode, parts[i]) != "" then out + [parts[i]] else out) + NonBlank(parts[i + 1..])
  {
    assert parts[i..][1..] == parts[i + 1..];
    AppendAssoc(out, [parts[i]], NonBlank(parts[i + 1..]));
  }

  // ----- reading a selector back -------------------------------------------

  datatype Op = Eq | Ne

  datatype Matcher = Matcher(name: string, op: Op, value: string)

  predicate IsNameChar(c: char) { 'a' <= c <= 'z' || c == '_' }

  function NameOf(s: string): (n: string)
    ensures n <= s
  {
    if s != "" && IsNameChar(s[0]) then [s[0]] + NameOf(s[1..]) else ""
  }

  /** One label matcher, and what follows its closing quote. */
  function ReadOne(s: string): (r: Option<(Matcher, string)>)
  {
    var n := NameOf(s);
    if n == "" then None
    else AfterName(n, s[|n|..])
  }

  function AfterName(n: string, s: string): Option<(Matcher, string)> {
    if "=\"" <= s then Valued(n, Eq, ReadQuoted(s[2..]))
    else if "!=\"" <= s then Valued(n, Ne, ReadQuoted(s[3..]))
    else None
  }

  function Valued(n: string, op: Op, r: Option<(string, string)>): Option<(Matcher, string)> {
    match r
    case None => None
    case Some(p) => Some((Matcher(n, op, p.0), p.1))
  }

  /** The body of a selector: comma-separated label matchers. */
  function ReadMatchers(s: string): Option<seq<Matcher>>
    decreases |s|
  {
    match ReadOne(s)
    case None => None
    case Some(p) =>
      if p.1 == "" then Some([p.0])
      else if p.1[0] != ',' || |p.1| >= |s| then None
      else match ReadMatchers(p.1[1..])
        case None => None
        case Some(ms) => Some([p.0] + ms)
  }

  lemma {:induction false} NameOfIs(n: string, rest: string)
    requires forall c :: c in n ==> IsNameChar(c)
    requires rest == "" || !IsNameChar(rest[0])
    ensures NameOf(n + rest) == n
  {
    if n == "" {
      assert n + rest == rest;
    } else {
      assert (n + rest)[1..] == n[1..] + rest;
      NameOfIs(n[1..], rest);
      assert [n[0]] + n[1..] == n;
    }
  }

  predicate Plain(m: Matcher) {
    m.name != "" && NameOf(m.name) == m.name && '\n' !in m.value
  }

  function Sign(op: Op): string { if op.Eq? then "=\"" else "!=\"" }

  function Printed(m: Matcher): string {
    m.name + Sign(m.op) + EscapeLabel(m.value) + "\""
  }

  function PrintedAll(ms: seq<Matcher>): seq<string> {
    if ms == [] then [] else [Printed(ms[0])] + PrintedAll(ms[1..])
  }

  /** One printed matcher reads back. */
  lemma ReadPrinted(m: Matcher, rest: string)
    requires Plain(m)
    ensures ReadOne(Printed(m) + rest) == Some((m, rest))
  {
    var quoted := EscapeLabel(m.value) + "\"" + rest;
    var tail := Sign(m.op) + quoted;
    var s := Printed(m) + rest;
    assert s == m.name + tail;
    NameOfPlain(m.name);
    NameOfIs(m.name, tail);
    assert s[|m.name|..] == tail;
    AfterSign(m.name, m.op, quoted);
    EscapeRoundTrip(m.value, rest);
  }

  lemma AfterSign(n: string, op: Op, quoted: string)
    ensures AfterName(n, Sign(op) + quoted) == Valued(n, op, ReadQuoted(quoted))
  {
    var tail := Sign(op) + quoted;
    assert tail[|Sign(op)|..] == quoted && tail[..|Sign(op)|] == Sign(op);
    assert op.Ne? ==> tail[0] == '!';
  }

  lemma {:induction false} NameOfPlain(n: string)
    requires NameOf(n) == n
    ensures forall c :: c in n ==> IsNameChar(c)
  {
    if n != "" {
      assert NameOf(n)[1..] == NameOf(n[1..]);
      NameOfPlain(n[1..]);
    }
  }

  /** Any list of matchers, printed and joined, reads back as itself: no value
      can add, drop or alter a matcher. */
  lemma {:induction false} SelectorRoundTrip(ms: seq<Matcher>)
    requires ms != [] && forall m :: m in ms ==> Plain(m)
    ensures ReadMatchers(Join(PrintedAll(ms), ",")) == Some(ms)
  {
    assert Plain(ms[0]);
    assert PrintedAll(ms)[1..] == PrintedAll(ms[1..]);
    if |ms| == 1 {
      ReadLast(ms[0]);
      assert [ms[0]] == ms;
    } else {
      var later := Join(PrintedAll(ms[1..]), ",");
      assert Join(PrintedAll(ms), ",") == Printed(ms[0]) + "," + later;
      SelectorRoundTrip(ms[1..]);
      ReadMore(ms[0], later, ms[1..]);
      assert [ms[0]] + ms[1..] == ms;
    }
  }

  lemma ReadLast(m: Matcher)
    requires Plain(m)
    ensures ReadMatchers(Printed(m)) == Some([m])
  {
    ReadPrinted(m, "");
    assert Printed(m) + "" == Printed(m);
  }

  lemma ReadMore(m: Matcher, later: string, ms: seq<Matcher>)
    requires Plain(m) && ReadMatchers(later) == Some(ms)
    ensures ReadMatchers(Printed(m) + "," + later) == Some([m] + ms)
  {
    var rest := "," + later;
    assert Printed(m) + "," + later == Printed(m) + rest;
    assert rest[1..] == later;
    ReadPrinted(m, rest);
  }

  lemma {:induction false} PrintedNotBlank(ms: seq<Matcher>)
    requires forall m :: m in ms ==> Plain(m)
    ensures NonBlank(PrintedAll(ms)) == PrintedAll(ms)
  {
    if ms != [] {
      var m := ms[0];
      assert Plain(m);
      assert m.name[0] == NameOf(m.name)[0] && IsNameChar(m.name[0]);
      assert Printed(m)[0] == m.name[0];
      NotBlank(Printed(m), 0);
      PrintedNotBlank(ms[1..]);
      assert PrintedAll(ms)[1..] == PrintedAll(ms[1..]);
    }
  }

  const CONTAINER: string := "container!=\"\""
  const IMAGE: string := "image!=\"\""

  function ScopeMatchers(scope: Scope, target: string): seq<Matcher>
    requires ScopeFilter(scope, target).Ok?
  {
    if scope.Cluster? then [] else [Matcher(ScopeLabel(scope), Eq, target)]
  }

  const FIXED: seq<Matcher> := [Matcher("container", Ne, ""), Matcher("image", Ne, "")]

  /** A scope needs a target, unless it is the whole cluster. */
  lemma ScopeNeedsTarget(scope: Scope, target: string)
    ensures ScopeFilter(scope, target).Ok? <==> scope.Cluster? || (!scope.Unknown? && target != "")
    ensures ScopeFilter(scope, target).Err? ==>
              ScopeFilter(scope, target) == Err(if scope.Unknown? then "unknown scope" else "target is required")
  {
  }

  /** The selector of a usage query says exactly what was asked: the scope's
      label equals the whole target, and the two fixed conditions follow. */
  lemma UsageSelectorMeans(scope: Scope, target: string)
    requires ScopeFilter(scope, target).Ok? && '\n' !in target
    ensures ReadMatchers(Join(NonBlank([ScopeFilter(scope, target).value, CONTAINER, IMAGE]), ","))
            == Some((if scope.Node? then [Matcher("node", Eq, target)]
                     else if scope.Namespace? then [Matcher("namespace", Eq, target)]
                     else if scope.Pod? then [Matcher("pod", Eq, target)]
                     else [])
                    + [Matcher("container", Ne, ""), Matcher("image", Ne, "")])
  {
    var ms := ScopeMatchers(scope, target) + FIXED;
    UsageParts(scope, target);
    SelectorRoundTrip(ms);
  }

  lemma UsageParts(scope: Scope, target: string)
    requires ScopeFilter(scope, target).Ok? && '\n' !in target
    ensures NonBlank([ScopeFilter(scope, target).value, CONTAINER, IMAGE]) ==
            PrintedAll(ScopeMatchers(scope, target) + FIXED)
    ensures forall m :: m in ScopeMatchers(scope, target) + FIXED ==> Plain(m)
  {
    var ms := ScopeMatchers(scope, target) + FIXED;
    FixedPart();
    var parts := [ScopeFilter(scope, target).value, CONTAINER, IMAGE];
    assert parts[1..] == [CONTAINER, IMAGE];
    if scope.Cluster? {
      assert ms == FIXED;
      PrintedNotBlank(FIXED);
    } else {
      PlainName(ScopeLabel(scope));
      assert ms[1..] == FIXED;
      assert PrintedAll(ms) == parts;
      PrintedNotBlank(ms);
    }
  }

  lemma PlainName(n: string)
    requires forall c :: c in n ==> IsNameChar(c)
    ensures NameOf(n) == n
  {
    NameOfIs(n, "");
    assert n + "" == n;
  }

  lemma FixedPart()
    ensures forall m :: m in FIXED ==> Plain(m)
    ensures PrintedAll(FIXED) == [CONTAINER, IMAGE]
  {
    FixedPrinted();
    FixedPlain("container", "image");
  }

  lemma FixedPlain(a: string, b: string)
    requires a != "" && forall i :: 0 <= i < |a| ==> IsNameChar(a[i])
    requires b != "" && forall i :: 0 <= i < |b| ==> IsNameChar(b[i])
    ensures forall m :: m in [Matcher(a, Ne, ""), Matcher(b, Ne, "")] ==> Plain(m)
  {
    PlainNamed(a, Ne);
    PlainNamed(b, Ne);
  }

  lemma PlainNamed(n: string, op: Op)
    requires n != "" && forall i :: 0 <= i < |n| ==> IsNameChar(n[i])
    ensures Plain(Matcher(n, op, ""))
  {
    PlainName(n);
  }

  lemma FixedPrinted()
    ensures PrintedAll(FIXED) == [CONTAINER, IMAGE]
  {
    assert EscapeLabel("") == "";
    assert Printed(FIXED[0]) == CONTAINER;
    assert Printed(FIXED[1]) == IMAGE;
    var last := FIXED[1..];
    assert last[0] == FIXED[1] && last[1..] == [];
    assert PrintedAll(last) == [IMAGE];
  }

  lemma {:induction false} NotBlank(s: string, k: nat)
    requires k < |s| && !IsIn(Unicode, s[k])
    ensures Trim(Unicode, s) != ""
  {
    KeepsSolid(s, k);
    var l := TrimLeft(Unicode, s);
    KeepsSolidRight(l, k - (|s| - |l|));
  }

  lemma {:induction false} KeepsSolid(s: string, k: nat)
    requires k < |s| && !IsIn(Unicode, s[k])
    ensures |s| - |TrimLeft(Unicode, s)| <= k
  {
    if IsIn(Unicode, s[0]) {
      KeepsSolid(s[1..], k - 1);
    }
  }

  lemma {:induction false} KeepsSolidRight(s: string, k: nat)
    requires k < |s| && !IsIn(Unicode, s[k])
    ensures |TrimRight(Unicode, s)| > k
  {
    if IsIn(Unicode, s[|s| - 1]) {
      KeepsSolidRight(s[..|s| - 1], k);
    }
  }
}
