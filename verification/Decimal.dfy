/** Decimal text: the printers (%d, formatInt) and the three parsers that read
    numbers back (parseInt64Quantity, strconv.Atoi, strconv.ParseInt). */
module Decimal {

  const MAX64: int := 0x7FFF_FFFF_FFFF_FFFF
  const MIN64: int := -0x8000_0000_0000_0000

  /** The 64-bit two's complement value an overflowing result wraps to. */
  function Wrap64(v: int): (w: int)
    ensures MIN64 <= w <= MAX64
    ensures MIN64 <= v <= MAX64 ==> w == v
  {
    (v - MIN64) % 0x1_0000_0000_0000_0000 + MIN64
  }

  predicate IsDigit(c: char) { '0' <= c <= '9' }

  predicate AllDigits(s: string) { forall i :: 0 <= i < |s| ==> IsDigit(s[i]) }

  function DigitOf(d: nat): char
    requires d < 10
  {
    '0' + d as char
  }

  function DigitVal(c: char): (d: nat)
    requires IsDigit(c)
    ensures d < 10
  {
    c as int - '0' as int
  }

  /** Decimal form of a natural number. */
  function Dec(n: nat): (s: string)
    ensures |s| >= 1 && AllDigits(s)
    ensures s[0] == '0' ==> n == 0
    ensures n > 0 ==> s[0] != '0'
  {
    if n < 10 then [DigitOf(n)] else Dec(n / 10) + [DigitOf(n % 10)]
  }

  /** Value of a text of digits. */
  function Val(s: string): nat
    requires AllDigits(s)
  {
    if s == "" then 0 else 10 * Val(s[..|s| - 1]) + DigitVal(s[|s| - 1])
  }

  lemma {:induction false} ValDec(n: nat)
    ensures Val(Dec(n)) == n
  {
    if n >= 10 {
      ValDec(n / 10);
      var s := Dec(n);
      assert s[..|s| - 1] == Dec(n / 10);
    }
  }

  lemma {:induction false} ValPrefix(s: string, k: nat)
    requires AllDigits(s) && k <= |s|
    ensures Val(s[..k]) <= Val(s)
    decreases |s|
  {
    if k < |s| {
      ValPrefix(s[..|s| - 1], k);
      assert s[..|s| - 1][..k] == s[..k];
    } else {
      assert s[..k] == s;
    }
  }

  function Pow10(k: nat): (p: nat)
    ensures p >= 1
  {
    if k == 0 then 1 else 10 * Pow10(k - 1)
  }

  lemma {:induction false} DecLength(n: nat, k: nat)
    requires k >= 1 && n < Pow10(k)
    ensures |Dec(n)| <= k
  {
    if n >= 10 {
      assert k > 1 by { assert Pow10(1) == 10; }
      DecLength(n / 10, k - 1);
    }
  }

  /** A 64-bit number has at most nineteen digits. */
  lemma DecLength64(n: nat)
    requires n <= MAX64
    ensures |Dec(n)| <= 19
  {
    assert Pow10(5) == 100_000;
    assert Pow10(10) == 10_000_000_000;
    assert Pow10(15) == 1_000_000_000_000_000;
    assert Pow10(19) == 10_000_000_000_000_000_000;
    DecLength(n, 19);
  }

  /** formatInt: digits pushed least significant first, then read backwards. */
  method FormatInt(i: int) returns (out: string)
    ensures out == Dec(if i < 0 then 0 else i)
  {
    var n := if i < 0 then 0 else i;
    if n == 0 {
      return "0";
    }
    ghost var whole := Dec(n);
    var digits: seq<char> := [];
    while n > 0
      invariant n >= 0
      invariant whole == (if n > 0 then Dec(n) else "") + Reverse(digits)
    {
      ghost var before := digits;
      digits := digits + [DigitOf(n % 10)];
      ReverseAppend(before, DigitOf(n % 10));
      ghost var head := if n >= 10 then Dec(n / 10) else "";
      assert Dec(n) == head + [DigitOf(n % 10)];
      assert whole == head + Reverse(digits);
      n := n / 10;
    }
    out := ReadBackwards(digits);
  }

  method ReadBackwards(digits: seq<char>) returns (out: string)
    ensures out == Reverse(digits)
  {
    out := "";
    var j := |digits|;
    assert digits[..j] == digits;
    while j > 0
      invariant 0 <= j <= |digits|
      invariant Reverse(digits) == out + Reverse(digits[..j])
    {
      j := j - 1;
      assert digits[..j + 1] == digits[..j] + [digits[j]];
      ReverseAppend(digits[..j], digits[j]);
      out := out + [digits[j]];
    }
  }

  function Reverse(s: seq<char>): seq<char> {
    if s == [] then [] else Reverse(s[1..]) + [s[0]]
  }

  lemma {:induction false} ReverseAppend(s: seq<char>, c: char)
    ensures Reverse(s + [c]) == [c] + Reverse(s)
  {
    if s != [] {
      assert (s + [c])[1..] == s[1..] + [c];
      ReverseAppend(s[1..], c);
    }
  }

  /** The digits a text starts with. */
  function Leading(s: string): (d: string)
    ensures d <= s && AllDigits(d)
    ensures |d| < |s| ==> !IsDigit(s[|d|])
  {
    if s != "" && IsDigit(s[0]) then
      var rest := Leading(s[1..]);
      assert [s[0]] + s[1..] == s;
      [s[0]] + rest
    else ""
  }

  lemma {:induction false} LeadingDigits(d: string, unit: string)
    requires AllDigits(d)
    requires unit == "" || !IsDigit(unit[0])
    ensures Leading(d + unit) == d
  {
    if d == "" {
      assert d + unit == unit;
    } else {
      LeadingDigits(d[1..], unit);
      assert (d + unit)[1..] == d[1..] + unit;
      assert [d[0]] + d[1..] == d;
    }
  }

  lemma WrapStep(v: int, d: nat)
    ensures Wrap64(Wrap64(v) * 10 + d) == Wrap64(v * 10 + d)
  {
    var m := 0x1_0000_0000_0000_0000;
    var q := (v - MIN64) / m;
    assert Wrap64(v) == v - q * m;
    var a := v * 10 + d - MIN64;
    assert Wrap64(v) * 10 + d - MIN64 == a - (q * 10) * m;
    ModShift(a, q * 10, m);
  }

  lemma ModShift(a: int, k: int, m: int)
    requires m > 0
    ensures (a - k * m) % m == a % m
  {
    var q, r := a / m, a % m;
    assert a - k * m == (q - k) * m + r;
    ModUnique((q - k), r, m);
  }

  lemma ModUnique(q: int, r: int, m: int)
    requires 0 <= r < m
    ensures (q * m + r) % m == r
  {
    var x := q * m + r;
    var k := x / m - q;
    assert k * m == r - x % m;
    if k >= 1 {
      MulAtLeast(k, m);
    } else if k <= -1 {
      MulAtLeast(-k, m);
    }
  }

  lemma MulAtLeast(k: int, m: int)
    requires k >= 1 && m > 0
    ensures k * m >= m
  {
  }

  /** parseInt64Quantity: the leading digits, in wrapping 64-bit arithmetic. */
  method ParseInt64Quantity(s: string) returns (v: int)
    ensures v == Wrap64(Val(Leading(s)))
  {
    v := 0;
    for i := 0 to |s|
      invariant AllDigits(s[..i]) && i <= |Leading(s)|
      invariant v == Wrap64(Val(s[..i]))
    {
      if IsDigit(s[i]) {
        assert s[..i + 1][..i] == s[..i];
        WrapStep(Val(s[..i]), DigitVal(s[i]));
        v := Wrap64(v * 10 + DigitVal(s[i]));
        continue;
      }
      assert s[..i] == Leading(s);
      break;
    }
    assert |s| <= |Leading(s)| ==> s[..|s|] == Leading(s);
  }

  /** Reading back a printed number gives the number, whatever unit follows. */
  lemma QuantityRoundTrip(n: nat, unit: string)
    requires n <= MAX64
    requires unit == "" || !IsDigit(unit[0])
    ensures Leading(Dec(n) + unit) == Dec(n)
    ensures Wrap64(Val(Leading(Dec(n) + unit))) == n
    ensures forall k :: 0 <= k <= |Dec(n)| ==> Val(Dec(n)[..k]) <= MAX64
  {
    LeadingDigits(Dec(n), unit);
    ValDec(n);
    forall k | 0 <= k <= |Dec(n)|
      ensures Val(Dec(n)[..k]) <= MAX64
    {
      ValPrefix(Dec(n), k);
    }
  }

  /** strconv.ParseInt(s, 10, 64): the value and whether there was no error; on
      a range error the value is the nearest representable one. */
  function ParseInt64(s: string): (r: (int, bool))
    ensures MIN64 <= r.0 <= MAX64
  {
    var signed := s != "" && (s[0] == '-' || s[0] == '+');
    var body := if signed then s[1..] else s;
    if body == "" || !AllDigits(body) then (0, false)
    else if s[0] == '-' then
      var v: int := 0 - Val(body);
      if v < MIN64 then (MIN64, false) else (v, true)
    else
      if Val(body) > MAX64 then (MAX64, false) else (Val(body), true)
  }

  /** A sign and digits: the number they say, or the nearest one that 64 bits hold
      and an error. */
  lemma ParseSigned(digits: string)
    requires digits != "" && AllDigits(digits)
    ensures var v, r := Val(digits), ParseInt64("-" + digits);
            && (r.1 <==> v <= 0x8000_0000_0000_0000)
            && r.0 + (if r.1 then v else 0x8000_0000_0000_0000) == 0
    ensures var v, r := Val(digits), ParseInt64(digits);
            && (r.1 <==> v < 0x8000_0000_0000_0000)
            && r.0 == (if r.1 then v else 0x7FFF_FFFF_FFFF_FFFF)
            && ParseInt64("+" + digits) == r
  {
    assert ("-" + digits)[1..] == digits && ("+" + digits)[1..] == digits;
    assert IsDigit(digits[0]);
  }

  /** Anything else is an error. */
  lemma ParseOther(s: string)
    requires !AllDigits(s) || s == ""
    requires s == "" || (s[0] != '-' && s[0] != '+')
    ensures ParseInt64(s) == ParseInt64("-" + s) == ParseInt64("+" + s) == (0, false)
  {
    assert ("-" + s)[1..] == s && ("+" + s)[1..] == s;
  }

  lemma ParseDec(n: nat)
    requires n <= MAX64
    ensures ParseInt64(Dec(n)) == (n, true)
  {
    ValDec(n);
    assert IsDigit(Dec(n)[0]);
  }
}
