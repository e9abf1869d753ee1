/**
 * The `formatTime` helper shared by the cue-card timer and the exam timer:
 * a count of seconds is shown as whole minutes, a colon, and the remaining
 * seconds padded to two digits ("m:ss").  `ParseTime` is its inverse and is
 * used to state what the format means.
 */
module TimeFormat {
  import opened Wrappers

  predicate IsDigit(c: char) {
    '0' <= c <= '9'
  }

  predicate AllDigits(s: string) {
    forall i :: 0 <= i < |s| ==> IsDigit(s[i])
  }

  /** A decimal numeral as JavaScript's `toString` writes a non-negative integer: no leading zeros. */
  predicate Canonical(s: string) {
    |s| > 0 && AllDigits(s) && (|s| > 1 ==> s[0] != '0')
  }

  function DigitChar(d: nat): (c: char)
    requires d < 10
    ensures IsDigit(c) && DigitValue(c) == d
  {
    (48 + d) as char
  }

  function DigitValue(c: char): nat
    requires IsDigit(c)
  {
    (c as int) - 48
  }

  /** The number a string of decimal digits denotes. */
  function Value(s: string): nat
    requires AllDigits(s)
  {
    if |s| == 0 then 0 else Value(s[..|s| - 1]) * 10 + DigitValue(s[|s| - 1])
  }

  /** `n.toString()` for a non-negative integer. */
  function Decimal(n: nat): (r: string)
    ensures Canonical(r)
    ensures Value(r) == n
    decreases n
  {
    if n < 10 then [DigitChar(n)]
    else
      var r := Decimal(n / 10) + [DigitChar(n % 10)];
      assert r[..|r| - 1] == Decimal(n / 10);
      r
  }

  /** `n.toString().padStart(2, '0')` for a value below 100. */
  function Pad2(n: nat): (r: string)
    requires n < 100
    ensures |r| == 2 && AllDigits(r) && Value(r) == n
  {
    var d := Decimal(n);
    if n < 10 then
      var r := "0" + d;
      assert r[..1] == "0";
      r
    else
      NumeralSize(d);
      d
  }

  /** A canonical numeral has one digit exactly when its value is below 10, and three or more only from 100 on. */
  lemma {:induction false} NumeralSize(s: string)
    requires Canonical(s)
    ensures |s| == 1 <==> Value(s) < 10
    ensures |s| >= 3 ==> Value(s) >= 100
  {
    var p := s[..|s| - 1];
    if |s| == 1 {
      assert p == [];
    } else {
      assert p[0] == s[0];
      NumeralSize(p);
      if |p| == 1 {
        assert p[..0] == [];
        assert Value(p) == DigitValue(p[0]) >= 1;
      }
    }
  }

  /** `formatTime(seconds)`: minutes, ':', seconds padded to two digits. */
  function FormatTime(seconds: nat): (r: string)
    ensures |r| >= 4 && r[|r| - 3] == ':'
    ensures Canonical(r[..|r| - 3]) && AllDigits(r[|r| - 2..])
    ensures Value(r[..|r| - 3]) == seconds / 60
    ensures Value(r[|r| - 2..]) == seconds % 60 < 60
    ensures Value(r[..|r| - 3]) * 60 + Value(r[|r| - 2..]) == seconds
  {
    var m := Decimal(seconds / 60);
    var s := Pad2(seconds % 60);
    var r := m + ":" + s;
    assert r[..|r| - 3] == m && r[|r| - 2..] == s;
    r
  }

  /** Reads back an "m:ss" display; `None` for anything `FormatTime` cannot produce. */
  function ParseTime(t: string): (r: Option<nat>)
  {
    if |t| < 4 || t[|t| - 3] != ':' then None
    else
      var m, s := t[..|t| - 3], t[|t| - 2..];
      if !Canonical(m) || !AllDigits(s) || Value(s) >= 60 then None
      else Some(Value(m) * 60 + Value(s))
  }

  /** Every display reads back as the number of seconds it was made from. */
  lemma ParseFormat(seconds: nat)
    ensures ParseTime(FormatTime(seconds)) == Some(seconds)
  {
  }

  /** A canonical numeral is the one `Decimal` writes for its value. */
  lemma {:induction false} DecimalOfValue(s: string)
    requires Canonical(s)
    ensures Decimal(Value(s)) == s
  {
    var n := |s|;
    if n == 1 {
      assert s[..0] == [];
    } else {
      var p := s[..n - 1];
      assert p[0] == s[0];
      NumeralSize(s);
      NumeralSize(p);
      var v := Value(s);
      assert v == Value(p) * 10 + DigitValue(s[n - 1]);
      assert v / 10 == Value(p) && v % 10 == DigitValue(s[n - 1]);
      DecimalOfValue(p);
      assert s == p + [s[n - 1]];
    }
  }

  /** Two digits whose value is below 60 are what `Pad2` writes for that value. */
  lemma Pad2OfValue(s: string)
    requires |s| == 2 && AllDigits(s) && Value(s) < 60
    ensures Pad2(Value(s)) == s
  {
    assert s[..1] == [s[0]] && s[..0] == [];
    if Value(s) < 10 {
      assert DigitValue(s[0]) == 0;
    } else {
      assert s[0] != '0';
      DecimalOfValue(s);
    }
  }

  /** Every display `ParseTime` accepts is exactly the one `FormatTime` writes for its value. */
  lemma {:induction false} FormatParse(t: string, seconds: nat)
    requires ParseTime(t) == Some(seconds)
    ensures FormatTime(seconds) == t
  {
    var m, s := t[..|t| - 3], t[|t| - 2..];
    assert seconds / 60 == Value(m) && seconds % 60 == Value(s);
    DecimalOfValue(m);
    Pad2OfValue(s);
    assert t == m + ":" + s;
  }

  /** Different second counts are never shown alike. */
  lemma FormatTimeInjective(a: nat, b: nat)
    requires FormatTime(a) == FormatTime(b)
    ensures a == b
  {
    ParseFormat(a);
    ParseFormat(b);
  }
}
