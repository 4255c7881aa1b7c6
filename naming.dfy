/**
 * Bot names: `prefix + String(i + 1).padStart(3, '0')` for the bot created
 * at loop index `i` of a fleet start (main.js:280).
 */
module Naming {

  predicate IsDigit(c: char)
  {
    '0' <= c <= '9'
  }

  function DigitChar(d: nat): (c: char)
    requires d < 10
    ensures IsDigit(c)
  {
    ('0' as int + d) as char
  }

  function DigitValue(c: char): (d: nat)
    requires IsDigit(c)
    ensures d < 10
  {
    c as int - '0' as int
  }

  /** `String(n)` for a natural number: its decimal digits, no leading zeros. */
  function Decimal(n: nat): (s: string)
    ensures |s| >= 1 && AllDigits(s)
    ensures n > 0 ==> s[0] != '0'
    decreases n
  {
    if n < 10 then [DigitChar(n)] else Decimal(n / 10) + [DigitChar(n % 10)]
  }

  /** `s.padStart(width, fill)`: left-pad with `fill` up to `width` characters. */
  function PadStart(s: string, width: nat, fill: char): (r: string)
    ensures |r| == if |s| >= width then |s| else width
    ensures r[|r| - |s|..] == s
    ensures forall i :: 0 <= i < |r| - |s| ==> r[i] == fill
  {
    if |s| >= width then s else Repeat(fill, width - |s|) + s
  }

  function Repeat(c: char, k: nat): (r: string)
    ensures |r| == k && forall i :: 0 <= i < k ==> r[i] == c
  {
    if k == 0 then [] else [c] + Repeat(c, k - 1)
  }

  /** The three-digit, zero-padded bot number of main.js:280. */
  function Pad3(n: nat): (r: string)
    ensures |r| >= 3 && |r| >= |Decimal(n)|
    ensures r[|r| - |Decimal(n)|..] == Decimal(n)
  {
    PadStart(Decimal(n), 3, '0')
  }

  /** Name of the bot created at 0-based index `i`. */
  function Username(prefix: string, i: nat): (name: string)
    ensures |name| >= |prefix| + 3 && prefix <= name
  {
    prefix + Pad3(i + 1)
  }

  predicate AllDigits(s: string)
  {
    forall i :: 0 <= i < |s| ==> IsDigit(s[i])
  }

  /** Reads a string of decimal digits back as a number (the decoder of `Decimal`). */
  function DecimalValue(s: string): (v: nat)
    requires AllDigits(s)
  {
    if s == [] then 0 else DecimalValue(s[..|s| - 1]) * 10 + DigitValue(s[|s| - 1])
  }

  /** `Decimal` writes 1 to 3 digits for the numbers a fleet can use, and only digits. */
  lemma {:induction false} DecimalShape(n: nat)
    ensures AllDigits(Decimal(n)) && |Decimal(n)| >= 1
    ensures n < 1000 ==> |Decimal(n)| <= 3
    decreases n
  {
    if n >= 10 {
      DecimalShape(n / 10);
      assert n / 10 < 100 ==> |Decimal(n / 10)| <= 2 by {
        if n / 10 >= 10 {
          DecimalShape(n / 100);
          assert n / 10 / 10 == n / 100;
        }
      }
    }
  }

  /** Decoding the decimal string of `n` gives back `n`. */
  lemma {:induction false} DecimalRoundTrip(n: nat)
    ensures AllDigits(Decimal(n)) && DecimalValue(Decimal(n)) == n
    decreases n
  {
    DecimalShape(n);
    if n >= 10 {
      DecimalRoundTrip(n / 10);
      var s := Decimal(n);
      assert s[..|s| - 1] == Decimal(n / 10);
    }
  }

  /** A leading zero does not change the value of a digit string. */
  lemma {:induction false} LeadingZero(s: string)
    requires AllDigits(s)
    ensures AllDigits(['0'] + s) && DecimalValue(['0'] + s) == DecimalValue(s)
    decreases |s|
  {
    var z := ['0'] + s;
    if s != [] {
      var init := s[..|s| - 1];
      LeadingZero(init);
      assert z[..|z| - 1] == ['0'] + init;
    }
  }

  lemma {:induction false} LeadingZeros(k: nat, s: string)
    requires AllDigits(s)
    ensures AllDigits(Repeat('0', k) + s) && DecimalValue(Repeat('0', k) + s) == DecimalValue(s)
    decreases k
  {
    if k > 0 {
      LeadingZeros(k - 1, s);
      var t := Repeat('0', k - 1) + s;
      LeadingZero(t);
      assert Repeat('0', k) == ['0'] + Repeat('0', k - 1);
      assert Repeat('0', k) + s == ['0'] + t;
    } else {
      assert Repeat('0', k) + s == s;
    }
  }

  /**
   * The padded number decodes to the number itself, and for 1..999 it is
   * exactly three digits wide.
   */
  lemma Pad3RoundTrip(n: nat)
    ensures AllDigits(Pad3(n)) && DecimalValue(Pad3(n)) == n
    ensures n < 1000 ==> |Pad3(n)| == 3
  {
    DecimalRoundTrip(n);
    DecimalShape(n);
    var d := Decimal(n);
    if |d| < 3 {
      LeadingZeros(3 - |d|, d);
    }
  }

  /** Bots created at different indexes of one start get different names. */
  lemma UsernamesDistinct(prefix: string, i: nat, j: nat)
    requires i != j
    ensures Username(prefix, i) != Username(prefix, j)
  {
    Pad3Injective(i + 1, j + 1);
    PrefixCancel(prefix, Pad3(i + 1), Pad3(j + 1));
  }

  /** Different numbers pad to different strings. */
  lemma Pad3Injective(a: nat, b: nat)
    requires a != b
    ensures Pad3(a) != Pad3(b)
  {
    Pad3RoundTrip(a);
    Pad3RoundTrip(b);
  }

  lemma PrefixCancel(prefix: string, p: string, q: string)
    requires p != q
    ensures prefix + p != prefix + q
  {
    assert (prefix + p)[|prefix|..] == p;
    assert (prefix + q)[|prefix|..] == q;
  }

  /**
   * A fleet of at most 100 bots gets names of the form prefix + three digits,
   * pairwise distinct.
   */
  lemma FleetNames(prefix: string, count: nat)
    requires count <= 100
    ensures forall i :: 0 <= i < count ==> |Username(prefix, i)| == |prefix| + 3
    ensures forall i, j :: 0 <= i < j < count ==> Username(prefix, i) != Username(prefix, j)
  {
    forall i | 0 <= i < count
      ensures |Username(prefix, i)| == |prefix| + 3
    {
      Pad3RoundTrip(i + 1);
    }
    forall i, j | 0 <= i < j < count
      ensures Username(prefix, i) != Username(prefix, j)
    {
      UsernamesDistinct(prefix, i, j);
    }
  }
}
