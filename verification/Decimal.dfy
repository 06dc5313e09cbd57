/** Decimal numerals as `sprintf` prints them and `atol` reads them back. */
module Decimal {
  const LONG_MAX := 0x7FFF_FFFF_FFFF_FFFF
  const LONG_MIN := -0x8000_0000_0000_0000

  predicate IsDigit(c: char) { '0' <= c <= '9' }

  function Digit(d: nat): (c: char)
    requires d < 10
    ensures IsDigit(c) && Value(c) == d
  {
    ('0' as int + d) as char
  }

  function Value(c: char): int { c as int - '0' as int }

  ghost predicate AllDigits(s: string) {
    forall i :: 0 <= i < |s| ==> IsDigit(s[i])
  }

  /** `%zu` */
  function Print(n: nat): (s: string)
    ensures s != [] && AllDigits(s)
  {
    if n < 10 then [Digit(n)] else Print(n / 10) + [Digit(n % 10)]
  }

  /** The number a string of digits denotes. */
  function Read(s: string): int {
    if s == [] then 0 else Read(s[..|s| - 1]) * 10 + Value(s[|s| - 1])
  }

  lemma {:induction false} ReadPrint(n: nat)
    ensures Read(Print(n)) == n
  {
    if n < 10 {
      assert Read([Digit(n)]) == Read([]) * 10 + n;
    } else {
      ReadPrint(n / 10);
      assert Print(n)[..|Print(n)| - 1] == Print(n / 10);
    }
  }

  const DIGITS := "0123456789"

  /** The digits from the most significant one on, and no zero in front. */
  lemma {:induction false} PrintDigits(n: nat)
    ensures n < 10 ==> Print(n) == [DIGITS[n]]
    ensures n >= 10 ==> Print(n) == Print(n / 10) + [DIGITS[n % 10]] && Print(n)[0] != '0'
    ensures n > 0 ==> Print(n)[0] != '0'
  {
    DigitIs(n % 10);
    if n >= 10 {
      PrintDigits(n / 10);
    }
  }

  lemma DigitIs(d: nat)
    requires d < 10
    ensures Digit(d) == DIGITS[d]
  {
    assert forall i :: 0 <= i < 10 ==> DIGITS[i] as int == '0' as int + i;
  }

  lemma {:induction false} ReadNat(s: string)
    requires AllDigits(s)
    ensures Read(s) >= 0 && (s != [] && s[0] != '0' ==> Read(s) > 0)
  {
    if s != [] {
      ReadNat(s[..|s| - 1]);
    }
  }

  /** One more digit behind a positive number. */
  lemma PrintGrows(n: nat, c: char)
    requires n > 0 && IsDigit(c)
    ensures Print(n * 10 + Value(c)) == Print(n) + [c]
  {
    var m := n * 10 + Value(c);
    assert m / 10 == n && m % 10 == Value(c);
    assert Digit(Value(c)) == c;
  }

  /** Every string of digits without a zero in front is what printing its number gives. */
  lemma {:induction false} PrintRead(s: string)
    requires s != [] && AllDigits(s) && (|s| > 1 ==> s[0] != '0')
    ensures Read(s) >= 0 && Print(Read(s)) == s
  {
    var front, last := s[..|s| - 1], s[|s| - 1];
    assert s == front + [last] && IsDigit(last);
    if front == [] {
      assert Read(s) == Value(last) && Digit(Value(last)) == last;
    } else {
      ReadNat(front);
      PrintRead(front);
      PrintGrows(Read(front), last);
    }
  }

  /** Numerals of different numbers differ. */
  lemma PrintInjective(m: nat, n: nat)
    requires Print(m) == Print(n)
    ensures m == n
  {
    ReadPrint(m);
    ReadPrint(n);
  }

  // ---------- %06d ----------

  function Zeros(n: nat): (s: string)
    ensures |s| == n && AllDigits(s)
  {
    seq(n, i => '0')
  }

  /** `%06d` of a non-negative number: at least six digits, more when needed. */
  function Padded(n: nat): (s: string)
    ensures |s| >= 6 && AllDigits(s)
  {
    var p := Print(n);
    if |p| < 6 then Zeros(6 - |p|) + p else p
  }

  /** Leading zeros do not change the number. */
  lemma {:induction false} ReadZeros(k: nat, s: string)
    ensures Read(Zeros(k) + s) == Read(s)
    decreases k + |s|
  {
    var t := Zeros(k) + s;
    if s != [] {
      assert t[..|t| - 1] == Zeros(k) + s[..|s| - 1];
      ReadZeros(k, s[..|s| - 1]);
    } else if k > 0 {
      assert t[..|t| - 1] == Zeros(k - 1) + [];
      ReadZeros(k - 1, []);
    }
  }

  lemma ReadPadded(n: nat)
    ensures Read(Padded(n)) == n
  {
    ReadPrint(n);
    if |Print(n)| < 6 {
      ReadZeros(6 - |Print(n)|, Print(n));
    }
  }

  // ---------- atol ----------

  predicate IsSpace(c: char) { c == ' ' || '\t' <= c <= '\r' }

  /** The longest prefix of digits. */
  function LeadingDigits(s: string): (d: string)
    ensures d <= s && AllDigits(d)
    ensures |d| < |s| ==> !IsDigit(s[|d|])
  {
    if s != [] && IsDigit(s[0]) then [s[0]] + LeadingDigits(s[1..]) else []
  }

  function SkipSpace(s: string): string {
    if s != [] && IsSpace(s[0]) then SkipSpace(s[1..]) else s
  }

  function Clamp(n: int): int {
    if n > LONG_MAX then LONG_MAX else if n < LONG_MIN then LONG_MIN else n
  }

  /** Leading blanks, a sign, digits; saturating at the bounds of a 64-bit `long`. */
  function Atol(s: string): int {
    var t := SkipSpace(s);
    if t != [] && t[0] == '-' then Clamp(-Read(LeadingDigits(t[1..])))
    else if t != [] && t[0] == '+' then Clamp(Read(LeadingDigits(t[1..])))
    else Clamp(Read(LeadingDigits(t)))
  }

  lemma {:induction false} LeadingAll(s: string)
    requires AllDigits(s)
    ensures LeadingDigits(s) == s
  {
    if s != [] {
      LeadingAll(s[1..]);
    }
  }

  lemma {:induction false} SkipsBlanks(w: string, s: string)
    requires forall i :: 0 <= i < |w| ==> IsSpace(w[i])
    requires s != [] && !IsSpace(s[0])
    ensures SkipSpace(w + s) == s
  {
    if w == [] {
      assert w + s == s;
    } else {
      assert (w + s)[1..] == w[1..] + s;
      SkipsBlanks(w[1..], s);
    }
  }

  lemma {:induction false} LeadingStops(d: string, rest: string)
    requires AllDigits(d) && (rest != [] ==> !IsDigit(rest[0]))
    ensures LeadingDigits(d + rest) == d
  {
    if d == [] {
      assert d + rest == rest;
    } else {
      assert (d + rest)[1..] == d[1..] + rest;
      LeadingStops(d[1..], rest);
    }
  }

  /** Blanks before a number, a sign and whatever follows its digits are read as they should be. */
  lemma AtolReads(w: string, sign: string, n: nat, rest: string)
    requires forall i :: 0 <= i < |w| ==> IsSpace(w[i])
    requires sign in {"", "+", "-"} && (rest != [] ==> !IsDigit(rest[0]))
    ensures var m: int := n; Atol(w + (sign + (Print(n) + rest))) == Clamp(if sign == "-" then -m else m)
  {
    var digits := Print(n) + rest;
    var t := sign + digits;
    assert IsDigit(digits[0]);
    SkipsBlanks(w, t);
    assert sign == "" ==> t == digits;
    assert sign != "" ==> t[0] == sign[0] && t[1..] == digits;
    LeadingStops(Print(n), rest);
    ReadPrint(n);
  }

  /** Reading a printed length back gives the length exactly when it fits a `long`. */
  lemma AtolPrint(n: nat)
    ensures Atol(Print(n)) == n <==> n <= LONG_MAX
  {
    var s := Print(n);
    assert IsDigit(s[0]);
    assert SkipSpace(s) == s;
    LeadingAll(s);
    ReadPrint(n);
  }
}
