/** Decimal rendering of natural numbers, as `String(n)` and template
  * literals print them, and `padStart(2, '0')`. */
module NatText {
  import Strings
  import opened Wrappers

  function DigitChar(d: nat): (c: char)
    requires d < 10
    ensures Strings.IsDigit(c)
  {
    ('0' as int + d) as char
  }

  function NatStr(n: nat): (r: string)
    ensures |r| >= 1
    ensures forall i :: 0 <= i < |r| ==> Strings.IsDigit(r[i])
    ensures (|r| == 1) == (n < 10)
  {
    if n < 10 then [DigitChar(n)] else NatStr(n / 10) + [DigitChar(n % 10)]
  }

  /** Different numbers print differently, so names built as
    * `prefix + n` are pairwise distinct. */
  lemma {:induction false} NatStrInjective(a: nat, b: nat)
    requires NatStr(a) == NatStr(b)
    ensures a == b
  {
    if a >= 10 && b >= 10 {
      var sa, sb := NatStr(a), NatStr(b);
      assert sa[|sa| - 1] == sb[|sb| - 1];
      assert sa[..|sa| - 1] == NatStr(a / 10);
      assert sb[..|sb| - 1] == NatStr(b / 10);
      NatStrInjective(a / 10, b / 10);
    }
  }

  lemma PrefixedInjective(p: string, a: nat, b: nat)
    requires p + NatStr(a) == p + NatStr(b)
    ensures a == b
  {
    assert NatStr(a) == (p + NatStr(a))[|p|..];
    assert NatStr(b) == (p + NatStr(b))[|p|..];
    NatStrInjective(a, b);
  }

  /** `String(n).padStart(2, '0')`. */
  function Pad2(n: nat): (r: string)
    ensures n < 100 ==> |r| == 2
    ensures forall i :: 0 <= i < |r| ==> Strings.IsDigit(r[i])
  {
    if n < 10 then "0" + NatStr(n) else NatStr(n)
  }

  function HexValue(c: char): (r: Option<nat>)
    ensures r.Some? ==> r.value < 16
    ensures Strings.IsDigit(c) ==> r == Some(c as int - '0' as int)
  {
    if Strings.IsDigit(c) then Some(c as int - '0' as int)
    else if 'a' <= c <= 'f' then Some(c as int - 'a' as int + 10)
    else if 'A' <= c <= 'F' then Some(c as int - 'A' as int + 10)
    else None
  }

  /** The value of `c` as a digit in base `radix` (10 or 16). */
  function DigitIn(c: char, radix: nat): Option<nat>
  {
    var v := HexValue(c);
    if v.Some? && v.value < radix then v else None
  }

  /** The length of the longest prefix of base-`radix` digits. */
  function DigitRun(s: string, radix: nat): (k: nat)
    ensures k <= |s|
    ensures forall i :: 0 <= i < k ==> DigitIn(s[i], radix).Some?
    ensures k < |s| ==> DigitIn(s[k], radix).None?
  {
    if |s| == 0 || DigitIn(s[0], radix).None? then 0 else 1 + DigitRun(s[1..], radix)
  }

  /** The number the digits `d` spell in base `radix`. */
  function DigitsValue(d: string, radix: nat): nat
    requires forall i :: 0 <= i < |d| ==> DigitIn(d[i], radix).Some?
  {
    if |d| == 0 then 0
    else
      var init := d[..|d| - 1];
      assert forall i :: 0 <= i < |init| ==> init[i] == d[i];
      var high: nat := DigitsValue(init, radix);
      MulNat(high, radix);
      high * radix + DigitIn(d[|d| - 1], radix).value
  }

  lemma MulNat(a: nat, b: nat)
    ensures a * b >= 0
  {
  }

  /** The value of the longest run of base-`radix` digits that `s` starts
    * with, None when there is none. */
  function LeadingNumber(s: string, radix: nat): Option<nat>
  {
    var k := DigitRun(s, radix);
    if k == 0 then None else Some(DigitsValue(s[..k], radix))
  }

  /** Whether the text after the sign starts with `0x` or `0X`. */
  predicate HexPrefixed(u: string)
  {
    |u| >= 2 && u[0] == '0' && (u[1] == 'x' || u[1] == 'X')
  }

  /** `parseInt(s)` with no radix: leading white space skipped, an optional
    * sign, a `0x`/`0X` prefix selecting base 16, then the longest run of
    * digits; None stands for NaN, when that run is empty. */
  function ParseInt(s: string): (r: Option<int>)
  {
    var t := Strings.TrimStart(s);
    var negative := |t| > 0 && t[0] == '-';
    var u := if |t| > 0 && (t[0] == '-' || t[0] == '+') then t[1..] else t;
    var n := if HexPrefixed(u) then LeadingNumber(u[2..], 16) else LeadingNumber(u, 10);
    match n
    case None => None
    case Some(v) => var i: int := v; Some(if negative then -i else i)
  }

  lemma DigitsValueSnoc(d: string, c: char, radix: nat)
    requires forall i :: 0 <= i < |d| ==> DigitIn(d[i], radix).Some?
    requires DigitIn(c, radix).Some?
    ensures DigitsValue(d + [c], radix) == DigitsValue(d, radix) * radix + DigitIn(c, radix).value
  {
    assert (d + [c])[..|d|] == d;
  }

  /** Reading back a printed number gives the number: `parseInt(String(n))
    * == n`. */
  lemma {:induction false} ParseNatStr(n: nat)
    ensures ParseInt(NatStr(n)) == Some(n)
  {
    var s := NatStr(n);
    NatStrDigits(n);
    assert !HexPrefixed(s) by {
      assert |s| < 2 || Strings.IsDigit(s[1]);
    }
    ParseIntPlain(s);
    assert s[..|s|] == s;
  }

  lemma {:induction false} NatStrDigits(n: nat)
    ensures DigitRun(NatStr(n), 10) == |NatStr(n)|
    ensures forall i :: 0 <= i < |NatStr(n)| ==> DigitIn(NatStr(n)[i], 10).Some?
    ensures DigitsValue(NatStr(n), 10) == n
  {
    var s := NatStr(n);
    assert forall i :: 0 <= i < |s| ==> DigitIn(s[i], 10).Some?;
    AllDigitsRun(s, 10);
    if n >= 10 {
      NatStrDigits(n / 10);
      DigitsValueSnoc(NatStr(n / 10), DigitChar(n % 10), 10);
    }
  }

  lemma {:induction false} AllDigitsRun(s: string, radix: nat)
    requires forall i :: 0 <= i < |s| ==> DigitIn(s[i], radix).Some?
    ensures DigitRun(s, radix) == |s|
  {
    if |s| > 0 {
      AllDigitsRun(s[1..], radix);
    }
  }

  lemma {:induction false} DigitRunPrefix(d: string, x: string)
    requires forall i :: 0 <= i < |d| ==> Strings.IsDigit(d[i])
    requires |x| > 0 && !Strings.IsDigit(x[0])
    ensures DigitRun(d + x, 10) == |d|
  {
    if |d| > 0 {
      assert (d + x)[1..] == d[1..] + x;
      DigitRunPrefix(d[1..], x);
    }
  }

  /** A printed number followed by text that cannot continue it (no digit,
    * no `x` that would turn a leading `0` into a hex prefix) reads back as
    * that number: `parseInt(String(n) + rest) == n`. */
  lemma ParseNatStrThen(n: nat, x: string)
    requires |x| == 0 || (!Strings.IsDigit(x[0]) && x[0] != 'x' && x[0] != 'X')
    ensures ParseInt(NatStr(n) + x) == Some(n)
  {
    var d := NatStr(n);
    var s := d + x;
    if |x| == 0 {
      assert s == d;
      ParseNatStr(n);
    } else {
      NatStrDigits(n);
      DigitRunPrefix(d, x);
      NoHexAfterDigits(d, x);
      ParseIntPlain(s);
      assert s[..|d|] == d;
    }
  }

  lemma NoHexAfterDigits(d: string, x: string)
    requires |d| >= 1 && forall i :: 0 <= i < |d| ==> Strings.IsDigit(d[i])
    requires |x| > 0 && x[0] != 'x' && x[0] != 'X'
    ensures Strings.IsDigit((d + x)[0]) && !HexPrefixed(d + x)
  {
    var s := d + x;
    assert s[0] == d[0];
    if |d| == 1 {
      assert s[1] == x[0];
    } else {
      assert s[1] == d[1];
    }
  }

  /** Text starting with a digit and no hex prefix is read as its leading
    * decimal number. */
  lemma ParseIntPlain(s: string)
    requires |s| > 0 && Strings.IsDigit(s[0]) && !HexPrefixed(s)
    ensures LeadingNumber(s, 10).Some? ==> ParseInt(s) == Some(LeadingNumber(s, 10).value)
  {
    assert !Strings.IsSpace(s[0]);
    assert Strings.TrimStart(s) == s;
  }

  /** A number printed between a fixed prefix and a text that does not start
    * with a digit can be read back: equal texts carry equal numbers. */
  lemma DelimitedInjective(p: string, a: nat, b: nat, x: string, y: string)
    requires |x| > 0 && |y| > 0 && !Strings.IsDigit(x[0]) && !Strings.IsDigit(y[0])
    requires p + NatStr(a) + x == p + NatStr(b) + y
    ensures a == b
  {
    var s := p + NatStr(a) + x;
    var na, nb := NatStr(a), NatStr(b);
    assert s[|p|..] == na + x;
    assert (p + NatStr(b) + y)[|p|..] == nb + y;
    DigitRunPrefix(na, x);
    DigitRunPrefix(nb, y);
    assert na == s[|p|..|p| + |na|];
    assert nb == s[|p|..|p| + |nb|];
    NatStrInjective(a, b);
  }

  lemma DelimitedDistinct(p: string, a: nat, b: nat, x: string, y: string)
    requires |x| > 0 && |y| > 0 && !Strings.IsDigit(x[0]) && !Strings.IsDigit(y[0])
    requires a != b
    ensures p + NatStr(a) + x != p + NatStr(b) + y
  {
    if p + NatStr(a) + x == p + NatStr(b) + y {
      DelimitedInjective(p, a, b, x, y);
    }
  }

  /** `String(n)` for an integer that may be negative. */
  function IntStr(n: int): (r: string)
    ensures n >= 0 ==> r == NatStr(n)
  {
    if n < 0 then "-" + NatStr(-n) else NatStr(n)
  }

  /** Four-digit numbers print with four characters. */
  lemma NatStrLength4(n: nat)
    requires 1000 <= n <= 9999
    ensures |NatStr(n)| == 4
  {
    assert NatStr(n) == NatStr(n / 10) + [DigitChar(n % 10)];
    assert NatStr(n / 10) == NatStr(n / 100) + [DigitChar(n / 10 % 10)];
    assert NatStr(n / 100) == NatStr(n / 1000) + [DigitChar(n / 100 % 10)];
  }

  /** A padded number below 100 starts with '0' exactly when it is below 10. */
  lemma Pad2Head(n: nat)
    requires n < 100
    ensures (Pad2(n)[0] == '0') == (n < 10)
  {
    if n >= 10 {
      assert NatStr(n) == NatStr(n / 10) + [DigitChar(n % 10)];
    }
  }

  /** Two-digit zero padding tells numbers below 100 apart. */
  lemma Pad2Injective(a: nat, b: nat)
    requires a < 100 && b < 100 && Pad2(a) == Pad2(b)
    ensures a == b
  {
    Pad2Head(a);
    Pad2Head(b);
    if a < 10 {
      PrefixedInjective("0", a, b);
    } else {
      NatStrInjective(a, b);
    }
  }
}
