/** Text helpers shared by the codecs: first occurrence, split, join, trim.
    `p <= s` on strings is Dafny's own prefix test and stands for HasPrefix. */
module Text {

  datatype Option<+T> = None | Some(value: T)

  datatype Result<+T> = Ok(value: T) | Err(error: string)

  predicate HasSuffix(s: string, x: string) {
    |x| <= |s| && s[|s| - |x|..] == x
  }

  /** `p` occurs in `s` at index `j`. */
  predicate At(s: string, p: string, j: int) {
    0 <= j && j + |p| <= |s| && s[j..j + |p|] == p
  }

  /** First index of `p` in `s`, or -1. */
  function IndexOf(s: string, p: string): (i: int)
    ensures i >= 0 ==> At(s, p, i)
    ensures forall j :: At(s, p, j) ==> 0 <= i <= j
    ensures i < 0 ==> i == -1
  {
    IndexFrom(s, p, 0)
  }

  function IndexFrom(s: string, p: string, k: nat): (i: int)
    requires k <= |s|
    ensures i >= 0 ==> k <= i && At(s, p, i)
    ensures forall j :: At(s, p, j) && k <= j ==> 0 <= i <= j
    ensures i < 0 ==> i == -1
    decreases |s| - k
  {
    if At(s, p, k) then k else if k == |s| then -1 else IndexFrom(s, p, k + 1)
  }

  /** Text arriving later does not move an occurrence already found. */
  lemma IndexOfStable(s: string, p: string, t: string)
    requires IndexOf(s, p) >= 0
    ensures IndexOf(s + t, p) == IndexOf(s, p)
  {
    var i := IndexOf(s, p);
    assert At(s + t, p, i) by { assert (s + t)[i..i + |p|] == s[i..i + |p|]; }
    var k := IndexOf(s + t, p);
    assert At(s, p, k) by { assert (s + t)[k..k + |p|] == s[k..k + |p|]; }
  }

  predicate Contains(s: string, p: string) {
    IndexOf(s, p) >= 0
  }

  lemma ContainsAt(s: string, p: string, i: nat)
    requires At(s, p, i)
    ensures Contains(s, p)
  {
  }

  /** Split at every `c`; never empty. */
  function Split(s: string, c: char): (parts: seq<string>)
    ensures |parts| >= 1
  {
    if s == "" then [""]
    else Prepend(s[0], c, Split(s[1..], c))
  }

  /** The parts of a text that gets one more character in front. */
  function Prepend(x: char, c: char, parts: seq<string>): (r: seq<string>)
    requires |parts| >= 1
    ensures |r| >= 1
  {
    if x == c then [""] + parts else [[x] + parts[0]] + parts[1..]
  }

  lemma {:induction false} SplitWhole(s: string, c: char)
    requires c !in s
    ensures Split(s, c) == [s]
  {
    if s != "" {
      SplitWhole(s[1..], c);
      assert [s[0]] + s[1..] == s;
    }
  }

  lemma {:induction false} SplitHead(a: string, c: char, b: string)
    requires c !in a
    ensures Split(a + [c] + b, c) == [a] + Split(b, c)
  {
    if a == "" {
      assert (a + [c] + b)[1..] == b;
    } else {
      SplitHead(a[1..], c, b);
      assert (a + [c] + b)[1..] == a[1..] + [c] + b;
      assert [a[0]] + a[1..] == a;
    }
  }

  /** Splitting a text whose left part ends in `c` splits both sides apart. */
  lemma {:induction false} SplitConcat(a: string, c: char, b: string)
    ensures Split(a + [c] + b, c) == Split(a, c) + Split(b, c)
  {
    if a == "" {
      assert (a + [c] + b)[1..] == b;
    } else {
      SplitConcat(a[1..], c, b);
      assert (a + [c] + b)[1..] == a[1..] + [c] + b;
      PrependConcat(a[0], c, Split(a[1..], c), Split(b, c));
    }
  }

  lemma PrependConcat(x: char, c: char, l: seq<string>, r: seq<string>)
    requires |l| >= 1
    ensures Prepend(x, c, l + r) == Prepend(x, c, l) + r
  {
    if x != c {
      assert (l + r)[0] == l[0] && (l + r)[1..] == l[1..] + r;
    }
  }

  function Join(parts: seq<string>, sep: string): string {
    if parts == [] then ""
    else if |parts| == 1 then parts[0]
    else parts[0] + sep + Join(parts[1..], sep)
  }

  /** Concatenation of the pieces a stream was cut into. */
  function Concat(chunks: seq<string>): string {
    if chunks == [] then "" else chunks[0] + Concat(chunks[1..])
  }

  /** The first `n` characters, or all of a shorter text. */
  function Take(s: string, n: nat): (t: string)
    ensures t <= s && |t| == if |s| <= n then |s| else n
  {
    if |s| <= n then s else s[..n]
  }

  function LowerChar(c: char): char {
    if 'A' <= c <= 'Z' then (c as int + 32) as char else c
  }

  /** ASCII lower case. */
  function Lower(s: string): (r: string)
    ensures |r| == |s|
    ensures forall i :: 0 <= i < |s| ==> r[i] == LowerChar(s[i])
  {
    if s == "" then "" else [LowerChar(s[0])] + Lower(s[1..])
  }

  /** The three notions of white space the codecs trim by: unicode.IsSpace,
      its single-byte members, and JavaScript's String.prototype.trim. */
  datatype Spaces = Unicode | Bytes | Js

  predicate IsIn(sp: Spaces, c: char) {
    match sp
    case Unicode => c == '\U{85}' || IsWide(c)
    case Bytes => IsByte(c)
    case Js => c == '\U{FEFF}' || IsWide(c)
  }

  predicate IsByte(c: char) {
    c == ' ' || '\t' <= c <= '\r'
  }

  predicate IsWide(c: char) {
    IsByte(c)
    || c == '\U{A0}' || c == '\U{1680}' || c == '\U{2028}' || c == '\U{2029}' || c == '\U{202F}'
    || c == '\U{205F}' || c == '\U{3000}'
    || '\U{2000}' <= c <= '\U{200A}'
  }

  function TrimLeft(sp: Spaces, s: string): (r: string)
    ensures |r| <= |s|
    ensures r != "" ==> !IsIn(sp, r[0])
    ensures r == s[|s| - |r|..]
  {
    if s != "" && IsIn(sp, s[0]) then TrimLeft(sp, s[1..]) else s
  }

  function TrimRight(sp: Spaces, s: string): (r: string)
    ensures r <= s
    ensures r != "" ==> !IsIn(sp, r[|r| - 1])
  {
    if s != "" && IsIn(sp, s[|s| - 1]) then TrimRight(sp, s[..|s| - 1]) else s
  }

  function Trim(sp: Spaces, s: string): string {
    TrimRight(sp, TrimLeft(sp, s))
  }

  /** Trimming changes nothing exactly when neither end is a space. */
  lemma TrimIdentity(sp: Spaces, s: string)
    ensures Trim(sp, s) == s <==> (s == "" || (!IsIn(sp, s[0]) && !IsIn(sp, s[|s| - 1])))
  {
  }

  lemma {:induction false} TrimRightSpaces(sp: Spaces, s: string, tail: string)
    requires forall c :: c in tail ==> IsIn(sp, c)
    ensures TrimRight(sp, s + tail) == TrimRight(sp, s)
  {
    if tail == "" {
      assert s + tail == s;
    } else {
      var t := tail[..|tail| - 1];
      assert (s + tail)[..|s + tail| - 1] == s + t;
      TrimRightSpaces(sp, s, t);
    }
  }

  lemma {:induction false} TrimAllSpaces(sp: Spaces, s: string)
    requires forall c :: c in s ==> IsIn(sp, c)
    ensures Trim(sp, s) == ""
  {
    if s != "" {
      assert s[0] in s;
      TrimAllSpaces(sp, s[1..]);
    }
  }

  lemma AppendAssoc4<T>(a: seq<T>, b: seq<T>, c: seq<T>, d: seq<T>)
    ensures a + b + c + d == a + (b + c + d) == (a + b) + (c + d)
  {
    AppendAssoc(a, b, c);
    AppendAssoc(a, b + c, d);
    AppendAssoc(a + b, c, d);
  }

  lemma AppendAssoc<T>(a: seq<T>, b: seq<T>, c: seq<T>)
    ensures a + (b + c) == (a + b) + c
    ensures [] + a == a == a + []
  {
  }
}
