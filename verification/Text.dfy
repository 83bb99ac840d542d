/** Decimal numerals and the "prefix, separator, number" identifiers built from them. */
module Text {

  function Digit(d: nat): char
    requires d < 10
  {
    '0' + d as char
  }

  predicate IsDigit(c: char) {
    '0' <= c <= '9'
  }

  function ToString(n: nat): (s: string)
    ensures s != [] && forall c :: c in s ==> IsDigit(c)
  {
    if n < 10 then [Digit(n)] else ToString(n / 10) + [Digit(n % 10)]
  }

  /** Different numbers have different numerals. */
  lemma {:induction false} ToStringInjective(m: nat, n: nat)
    requires ToString(m) == ToString(n)
    ensures m == n
  {
    var s := ToString(m);
    var last := s[|s| - 1];
    assert last == Digit(m % 10) && last == Digit(n % 10);
    if m >= 10 && n >= 10 {
      assert s[..|s| - 1] == ToString(m / 10) && s[..|s| - 1] == ToString(n / 10);
      ToStringInjective(m / 10, n / 10);
    }
  }

  function Decimal(n: int): string {
    if n < 0 then "-" + ToString(-n) else ToString(n)
  }

  lemma DecimalInjective(m: int, n: int)
    requires Decimal(m) == Decimal(n)
    ensures m == n
  {
    assert ToString(if m < 0 then -m else m)[0] in ToString(if m < 0 then -m else m);
    assert ToString(if n < 0 then -n else n)[0] in ToString(if n < 0 then -n else n);
    assert Decimal(m)[0] == '-' <==> m < 0;
    assert Decimal(n)[0] == '-' <==> n < 0;
    if m < 0 {
      assert Decimal(m)[1..] == ToString(-m) && Decimal(n)[1..] == ToString(-n);
      ToStringInjective(-m, -n);
    } else {
      ToStringInjective(m, n);
    }
  }

  /** The identifiers of notifications (separator '-') and of timed inhibitions ('_'). */
  function Tagged(prefix: string, separator: char, n: nat): string {
    prefix + [separator] + ToString(n)
  }

  lemma SplitAtLastNonDigit(p: string, q: string, x: char, d: string, e: string)
    requires p + [x] + d == q + [x] + e
    requires !IsDigit(x)
    requires forall c :: c in d || c in e ==> IsDigit(c)
    ensures |d| <= |e|
  {
    var s := p + [x] + d;
    assert s[|q|] == (q + [x] + e)[|q|] == x;
    forall k | |p| < k < |s| ensures IsDigit(s[k]) {
      assert s[k] == d[k - |p| - 1];
    }
  }

  /** An identifier determines its prefix and number, even when the prefix holds separators. */
  lemma TaggedInjective(p: string, q: string, x: char, m: nat, n: nat)
    requires !IsDigit(x)
    requires Tagged(p, x, m) == Tagged(q, x, n)
    ensures p == q && m == n
  {
    SplitAtLastNonDigit(p, q, x, ToString(m), ToString(n));
    SplitAtLastNonDigit(q, p, x, ToString(n), ToString(m));
    var s := Tagged(p, x, m);
    assert p == s[..|p|] && q == s[..|q|];
    assert ToString(m) == s[|p| + 1..] && ToString(n) == s[|q| + 1..];
    ToStringInjective(m, n);
  }

  /** A text whose last character is no digit is no such identifier. */
  lemma TaggedEndsInDigit(p: string, x: char, n: nat)
    ensures IsDigit(Tagged(p, x, n)[|Tagged(p, x, n)| - 1])
  {
    var s := Tagged(p, x, n);
    assert s[|s| - 1] == ToString(n)[|ToString(n)| - 1];
  }

  // ---------- Reading a number back ----------

  predicate IsSpace(c: char) {
    c == ' ' || c == '\t' || c == '\n' || c == '\U{0B}' || c == '\U{0C}' || c == '\r'
  }

  const INT_MAX: int := 0x7FFF_FFFF

  /** The number that the leading digits continue. */
  function Digits(s: string, acc: nat): nat {
    if s == [] || !IsDigit(s[0]) then acc
    else Digits(s[1..], 10 * acc + (s[0] - '0') as nat)
  }

  /** A text read as a 32-bit number: spaces, a sign, digits, anything; 0 when that fails. */
  function Number(s: string): int {
    if s != [] && IsSpace(s[0]) then Number(s[1..])
    else if s != [] && s[0] == '-' then Signed(s[1..], -1)
    else if s != [] && s[0] == '+' then Signed(s[1..], 1)
    else Signed(s, 1)
  }

  function Signed(s: string, sign: int): (n: int)
    requires sign == 1 || sign == -1
    ensures -INT_MAX - 1 <= n <= INT_MAX
  {
    var n := sign * Digits(s, 0);
    if -INT_MAX - 1 <= n <= INT_MAX then n else 0
  }

  lemma {:induction false} DigitsOfMore(s: string, c: char, acc: nat)
    requires IsDigit(c) && forall x :: x in s ==> IsDigit(x)
    ensures Digits(s + [c], acc) == 10 * Digits(s, acc) + (c - '0') as nat
  {
    if s == [] {
      assert (s + [c])[1..] == [];
    } else {
      assert s[0] in s && (s + [c])[1..] == s[1..] + [c];
      DigitsOfMore(s[1..], c, 10 * acc + (s[0] - '0') as nat);
    }
  }

  lemma {:induction false} DigitsOfNumeral(n: nat)
    ensures Digits(ToString(n), 0) == n
  {
    if n >= 10 {
      DigitsOfNumeral(n / 10);
      DigitsOfMore(ToString(n / 10), Digit(n % 10), 0);
    } else {
      assert Digits([Digit(n)], 0) == Digits([], n);
    }
  }

  /** A numeral reads back as its number. */
  lemma NumberOfNumeral(n: nat)
    requires n <= INT_MAX
    ensures Number(ToString(n)) == n
  {
    DigitsOfNumeral(n);
    var s := ToString(n);
    assert s[0] in s;
  }
}
