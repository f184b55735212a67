/**
 * Small pieces shared by the browser scripts and the image generators:
 * an optional value, RGB colours, truncation of a real to an integer the
 * way Python's int() and JavaScript's integer conversions do it, and the
 * two-digit, zero-padded hour names used for the sky image files.
 */
module Common {

  datatype Option<T> = None | Some(value: T)

  /** An RGB colour as the scripts write it: three integer channels. */
  datatype Rgb = Rgb(r: int, g: int, b: int)

  predicate IsByte(x: int) { 0 <= x <= 255 }

  predicate IsByteColor(c: Rgb) { IsByte(c.r) && IsByte(c.g) && IsByte(c.b) }

  /** Truncation toward zero of a real number (Python's int() on a float). */
  function Trunc(x: real): (n: int)
    ensures x >= 0.0 ==> n as real <= x < n as real + 1.0
    ensures x < 0.0 ==> n as real - 1.0 < x <= n as real
  {
    if x >= 0.0 then x.Floor else -((-x).Floor)
  }

  /** On non-negative reals truncation is monotone. */
  lemma TruncMonotone(x: real, y: real)
    requires 0.0 <= x <= y
    ensures Trunc(x) <= Trunc(y)
  {
  }

  function DigitChar(d: nat): (c: char)
    requires d < 10
    ensures '0' <= c <= '9' && c as int - '0' as int == d
  {
    ('0' as int + d) as char
  }

  predicate IsDigits(s: string)
  {
    forall i :: 0 <= i < |s| ==> '0' <= s[i] <= '9'
  }

  /** The decimal spelling of a natural number, without leading zeros. */
  function Decimal(n: nat): (s: string)
    ensures 1 <= |s| && IsDigits(s)
    ensures n < 10 <==> |s| == 1
    ensures 10 <= n < 100 ==> |s| == 2
    decreases n
  {
    if n < 10 then [DigitChar(n)] else Decimal(n / 10) + [DigitChar(n % 10)]
  }

  /** Left padding with '0' to width two: Python's zfill(2), JavaScript's padStart(2, '0'). */
  function ZeroPad2(s: string): (p: string)
    ensures |s| <= 2 ==> |p| == 2
    ensures 2 <= |s| ==> p == s
    ensures IsDigits(s) ==> IsDigits(p)
  {
    if |s| == 0 then "00" else if |s| == 1 then "0" + s else s
  }

  /** Padding keeps the string as the tail and puts only '0's in front of it. */
  lemma ZeroPad2Pads(s: string)
    requires |s| <= 2
    ensures ZeroPad2(s)[2 - |s|..] == s
    ensures forall i :: 0 <= i < 2 - |s| ==> ZeroPad2(s)[i] == '0'
  {
  }

  /** The two-digit name of an hour: "00" .. "23". */
  function TwoDigit(n: nat): (s: string)
    ensures IsDigits(s)
    ensures n < 100 ==> |s| == 2
  {
    ZeroPad2(Decimal(n))
  }

  /** The value of a string of decimal digits, as parseInt or int() read it. */
  function DecimalValue(s: string): nat
    requires IsDigits(s)
  {
    if s == [] then 0
    else 10 * DecimalValue(s[..|s| - 1]) + (s[|s| - 1] as int - '0' as int)
  }

  lemma {:induction false} DecimalRoundTrip(n: nat)
    ensures DecimalValue(Decimal(n)) == n
    decreases n
  {
    if n >= 10 {
      var s := Decimal(n);
      assert s[..|s| - 1] == Decimal(n / 10);
      DecimalRoundTrip(n / 10);
    }
  }

  lemma {:induction false} LeadingZero(s: string)
    requires IsDigits(s)
    ensures IsDigits("0" + s) && DecimalValue("0" + s) == DecimalValue(s)
    decreases |s|
  {
    if s != [] {
      var t := "0" + s;
      assert t[..|t| - 1] == "0" + s[..|s| - 1];
      LeadingZero(s[..|s| - 1]);
    }
  }

  /** Reading a two-digit hour name back gives the hour. */
  lemma TwoDigitRoundTrip(n: nat)
    ensures DecimalValue(TwoDigit(n)) == n
  {
    DecimalRoundTrip(n);
    var d := Decimal(n);
    if |d| == 1 {
      LeadingZero(d);
    }
  }

  /** Different hours get different names. */
  lemma TwoDigitInjective(m: nat, n: nat)
    requires TwoDigit(m) == TwoDigit(n)
    ensures m == n
  {
    TwoDigitRoundTrip(m);
    TwoDigitRoundTrip(n);
  }

  /** The file of an hour's sky image, images/sky/HH.jpg, shared by the page and both generators. */
  function SkyImagePath(hour: nat): string
  {
    "images/sky/" + TwoDigit(hour) + ".jpg"
  }

  /** Different hours get different sky image files, and the file names its hour. */
  lemma SkyImagePathInjective(h1: nat, h2: nat)
    requires h1 < 100 && h2 < 100 && h1 != h2
    ensures SkyImagePath(h1) != SkyImagePath(h2)
    ensures SkyImagePath(h1)[11..13] == TwoDigit(h1) && DecimalValue(TwoDigit(h1)) == h1
  {
    TwoDigitRoundTrip(h1);
    var a, b := TwoDigit(h1), TwoDigit(h2);
    if a == b {
      TwoDigitInjective(h1, h2);
    } else {
      assert SkyImagePath(h1)[11..13] == a && SkyImagePath(h2)[11..13] == b;
    }
  }
}
