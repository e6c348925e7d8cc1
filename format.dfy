/** Value types shared by the model and the text formatting that Rust's `Display`
    gives them: `usize` indices as plain decimal and `Ipv4Addr` as dotted quad. */
module Format {

  /** An IPv4 address, held as its 32-bit value (as `u32::from(Ipv4Addr)` gives it). */
  type Ipv4Addr = x: nat | x < 0x1_0000_0000

  predicate IsDigit(c: char) {
    '0' <= c <= '9'
  }

  function DigitChar(d: nat): (c: char)
    requires d < 10
    ensures IsDigit(c) && c as int - '0' as int == d
  {
    (('0' as int) + d) as char
  }

  /** `format!("{}", n)` for an unsigned integer: no sign, no padding. */
  function Decimal(n: nat): (s: string)
    ensures |s| > 0
    ensures forall i :: 0 <= i < |s| ==> IsDigit(s[i])
  {
    if n < 10 then [DigitChar(n)] else Decimal(n / 10) + [DigitChar(n % 10)]
  }

  /** The value a string of decimal digits denotes (most significant digit first). */
  function ParseDecimal(s: string): int {
    if s == [] then 0
    else 10 * ParseDecimal(s[..|s| - 1]) + (s[|s| - 1] as int - '0' as int)
  }

  /** The number of decimal digits of `n`. */
  function DigitCount(n: nat): nat {
    if n < 10 then 1 else 1 + DigitCount(n / 10)
  }

  function Pow10(k: nat): nat {
    if k == 0 then 1 else 10 * Pow10(k - 1)
  }

  /** Reading the decimal text back gives the number: formatting loses nothing. */
  lemma {:induction false} DecimalRoundTrip(n: nat)
    ensures ParseDecimal(Decimal(n)) == n
  {
    var s := Decimal(n);
    if n < 10 {
      assert s[..0] == [];
    } else {
      assert s[..|s| - 1] == Decimal(n / 10);
      DecimalRoundTrip(n / 10);
    }
  }

  /** The text starts with `0` only for zero itself: no leading zeros. */
  lemma {:induction false} DecimalLeadingDigit(n: nat)
    ensures Decimal(n)[0] == '0' <==> n == 0
  {
    if n >= 10 {
      DecimalLeadingDigit(n / 10);
      assert Decimal(n)[0] == Decimal(n / 10)[0];
    }
  }

  lemma DecimalInjective(m: nat, n: nat)
    requires Decimal(m) == Decimal(n)
    ensures m == n
  {
    DecimalRoundTrip(m);
    DecimalRoundTrip(n);
  }

  lemma {:induction false} DecimalLength(n: nat)
    ensures |Decimal(n)| == DigitCount(n)
  {
    if n >= 10 {
      DecimalLength(n / 10);
    }
  }

  lemma {:induction false} Pow10AtLeastTen(k: nat)
    requires k >= 1
    ensures Pow10(k) >= 10
  {
    if k > 1 {
      Pow10AtLeastTen(k - 1);
    }
  }

  /** `n` has at most `k` digits exactly when it is below 10^k. */
  lemma {:induction false} DigitCountBound(n: nat, k: nat)
    requires k >= 1
    ensures DigitCount(n) <= k <==> n < Pow10(k)
  {
    Pow10AtLeastTen(k);
    if n >= 10 {
      if k == 1 {
        assert DigitCount(n) >= 2;
      } else {
        DigitCountBound(n / 10, k - 1);
        var p := Pow10(k - 1);
        assert n == 10 * (n / 10) + n % 10;
        assert n / 10 < p <==> n < 10 * p;
      }
    }
  }

  /** No decimal text holds the character `c` unless `c` is a digit. */
  lemma DecimalAvoids(n: nat, c: char)
    requires !IsDigit(c)
    ensures c !in Decimal(n)
  {
  }

  /** In `x + [c] + y` with no `c` in `x`, the first `c` stands right after `x`. */
  lemma SeparatorPosition(x: string, y: string, c: char, i: nat)
    requires c !in x && i <= |x|
    ensures (x + [c] + y)[i] == c <==> i == |x|
  {
    if i < |x| {
      assert (x + [c] + y)[i] == x[i];
    }
  }

  /** When `c` occurs in neither `x` nor `x'`, `x + [c] + y` splits in one way only. */
  lemma SplitAtSeparator(x: string, y: string, x': string, y': string, c: char)
    requires c !in x && c !in x'
    requires x + [c] + y == x' + [c] + y'
    ensures x == x' && y == y'
  {
    var s := x + [c] + y;
    if |x| <= |x'| {
      SeparatorPosition(x', y', c, |x|);
    } else {
      SeparatorPosition(x, y, c, |x'|);
    }
    assert x == s[..|x|] == x';
    assert y == s[|x| + 1..] == y';
  }

  /** The four octets of an address, most significant first. */
  function Octets(a: Ipv4Addr): (o: seq<nat>)
    ensures |o| == 4
    ensures a == ((o[0] * 256 + o[1]) * 256 + o[2]) * 256 + o[3]
    ensures forall i :: 0 <= i < 4 ==> o[i] < 256
  {
    var a1 := a / 256;
    var a2 := a1 / 256;
    [a2 / 256, a2 % 256, a1 % 256, a % 256]
  }

  /** `Ipv4Addr::to_string`: the four octets in decimal, separated by dots. */
  function Dotted(a: Ipv4Addr): (s: string)
    ensures forall i :: 0 <= i < |s| ==> IsDigit(s[i]) || s[i] == '.'
  {
    var o := Octets(a);
    Decimal(o[0]) + "." + Decimal(o[1]) + "." + Decimal(o[2]) + "." + Decimal(o[3])
  }

  /** Four dot-free fields joined by dots can be split back into the same fields. */
  lemma JoinedFieldsUnique(d0: string, d1: string, d2: string, d3: string,
                           e0: string, e1: string, e2: string, e3: string)
    requires '.' !in d0 && '.' !in d1 && '.' !in d2
    requires '.' !in e0 && '.' !in e1 && '.' !in e2
    requires d0 + "." + d1 + "." + d2 + "." + d3 == e0 + "." + e1 + "." + e2 + "." + e3
    ensures d0 == e0 && d1 == e1 && d2 == e2 && d3 == e3
  {
    assert d0 + "." + d1 + "." + d2 + "." + d3 == d0 + ['.'] + (d1 + ['.'] + (d2 + ['.'] + d3));
    assert e0 + "." + e1 + "." + e2 + "." + e3 == e0 + ['.'] + (e1 + ['.'] + (e2 + ['.'] + e3));
    SplitAtSeparator(d0, d1 + ['.'] + (d2 + ['.'] + d3), e0, e1 + ['.'] + (e2 + ['.'] + e3), '.');
    SplitAtSeparator(d1, d2 + ['.'] + d3, e1, e2 + ['.'] + e3, '.');
    SplitAtSeparator(d2, d3, e2, e3, '.');
  }

  /** Distinct addresses are printed differently. */
  lemma DottedInjective(a: Ipv4Addr, b: Ipv4Addr)
    requires Dotted(a) == Dotted(b)
    ensures a == b
  {
    var o, p := Octets(a), Octets(b);
    DecimalAvoids(o[0], '.');
    DecimalAvoids(o[1], '.');
    DecimalAvoids(o[2], '.');
    DecimalAvoids(p[0], '.');
    DecimalAvoids(p[1], '.');
    DecimalAvoids(p[2], '.');
    JoinedFieldsUnique(Decimal(o[0]), Decimal(o[1]), Decimal(o[2]), Decimal(o[3]),
                       Decimal(p[0]), Decimal(p[1]), Decimal(p[2]), Decimal(p[3]));
    DecimalInjective(o[0], p[0]);
    DecimalInjective(o[1], p[1]);
    DecimalInjective(o[2], p[2]);
    DecimalInjective(o[3], p[3]);
  }
}
