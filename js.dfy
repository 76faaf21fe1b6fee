/**
 * The pieces of JavaScript's built-in string and number semantics that the
 * application code relies on: the regular-expression class `\s`,
 * `String.prototype.trim`, and `parseInt` on decimal text.
 */
module Js {
  import opened Wrappers

  /**
   * A character of the `\s` class: the ECMAScript WhiteSpace and
   * LineTerminator characters. `trim` removes exactly this set.
   */
  predicate IsSpace(c: char) {
    var n := c as int;
    n == 0x09 || n == 0x0A || n == 0x0B || n == 0x0C || n == 0x0D || n == 0x20
    || n == 0xA0 || n == 0x1680 || (0x2000 <= n <= 0x200A) || n == 0x2028
    || n == 0x2029 || n == 0x202F || n == 0x205F || n == 0x3000 || n == 0xFEFF
  }

  predicate NoSpace(s: string) {
    forall k :: 0 <= k < |s| ==> !IsSpace(s[k])
  }

  /** `trimStart`: drops the leading `\s` characters. */
  function TrimStart(s: string): (r: string)
    ensures |r| <= |s| && r == s[|s| - |r|..]
    ensures r == [] || !IsSpace(r[0])
    ensures forall k :: 0 <= k < |s| - |r| ==> IsSpace(s[k])
  {
    if s == [] || !IsSpace(s[0]) then s else TrimStart(s[1..])
  }

  /** `trimEnd`: drops the trailing `\s` characters. */
  function TrimEnd(s: string): (r: string)
    ensures |r| <= |s| && r == s[..|r|]
    ensures r == [] || !IsSpace(r[|r| - 1])
    ensures forall k :: |r| <= k < |s| ==> IsSpace(s[k])
  {
    if s == [] || !IsSpace(s[|s| - 1]) then s else TrimEnd(s[..|s| - 1])
  }

  /** `String.prototype.trim`. */
  function Trim(s: string): (r: string)
    ensures |r| <= |s|
    ensures r == [] || (!IsSpace(r[0]) && !IsSpace(r[|r| - 1]))
    ensures |r| <= |TrimStart(s)| && r == s[|s| - |TrimStart(s)|..][..|r|]
  {
    TrimEnd(TrimStart(s))
  }

  /** What `trim` removes, before and after the slice it keeps, is whitespace only. */
  lemma {:induction false} TrimDropsOnlySpace(s: string)
    ensures var i, r := |s| - |TrimStart(s)|, Trim(s);
      (forall k :: 0 <= k < i ==> IsSpace(s[k]))
      && (forall k :: i + |r| <= k < |s| ==> IsSpace(s[k]))
  {
    var t := TrimStart(s);
    var r := TrimEnd(t);
    var i := |s| - |t|;
    assert t == s[i..];
    forall k | i + |r| <= k < |s| ensures IsSpace(s[k]) {
      assert s[k] == t[k - i];
    }
  }

  /** A string without whitespace is its own trim. */
  lemma NoSpaceTrimmed(s: string)
    requires NoSpace(s)
    ensures Trim(s) == s
  {
    assert TrimStart(s) == s;
  }

  /** Trimming is idempotent. */
  lemma TrimIdempotent(s: string)
    ensures Trim(Trim(s)) == Trim(s)
  {
    var r := Trim(s);
    if r != [] {
      assert TrimStart(r) == r;
      assert TrimEnd(r) == r;
    }
  }

  /** `s.trim() !== ''` exactly when `s` holds a character outside `\s`. */
  lemma {:induction false} TrimNonEmpty(s: string)
    ensures Trim(s) != [] <==> exists k :: 0 <= k < |s| && !IsSpace(s[k])
  {
    var t := TrimStart(s);
    if t == [] {
      assert forall k :: 0 <= k < |s| ==> IsSpace(s[k]);
    } else {
      assert !IsSpace(s[|s| - |t|]);
      assert TrimEnd(t) != [] by {
        assert t[0] == s[|s| - |t|];
        assert !IsSpace(t[0]);
      }
    }
  }

  // ----- parseInt ---------------------------------------------------------

  predicate IsDigit(c: char) {
    '0' <= c <= '9'
  }

  function DigitValue(c: char): (d: nat)
    requires IsDigit(c)
    ensures d < 10
  {
    c as int - '0' as int
  }

  function DigitChar(d: nat): (c: char)
    requires d < 10
    ensures IsDigit(c) && DigitValue(c) == d
  {
    ('0' as int + d) as char
  }

  /** Length of the longest prefix of `s` made of decimal digits. */
  function DigitRun(s: string): (n: nat)
    ensures n <= |s|
    ensures forall k :: 0 <= k < n ==> IsDigit(s[k])
    ensures n < |s| ==> !IsDigit(s[n])
  {
    if s == [] || !IsDigit(s[0]) then 0 else 1 + DigitRun(s[1..])
  }

  /** The value of a string of decimal digits, most significant first. */
  function DigitsValue(ds: string): nat
    requires forall k :: 0 <= k < |ds| ==> IsDigit(ds[k])
  {
    if ds == [] then 0 else DigitsValue(ds[..|ds| - 1]) * 10 + DigitValue(ds[|ds| - 1])
  }

  /**
   * `parseInt(s)` with no radix, on decimal text: leading whitespace is
   * skipped, one sign is accepted, then the longest run of digits is read
   * and anything after it ignored. `None` stands for NaN (no digits).
   * `-0` is returned as 0, which is what `|| 0` makes of it anyway.
   */
  function ParseInt(s: string): (r: Option<int>)
    ensures r.None? <==> DigitRun(SignStripped(TrimStart(s))) == 0
  {
    var u := SignStripped(TrimStart(s));
    var n := DigitRun(u);
    if n == 0 then None
    else
      var v: int := DigitsValue(u[..n]);
      var t := TrimStart(s);
      Some(if t[0] == '-' then -v else v)
  }

  /** The text after an optional leading `+` or `-`. */
  function SignStripped(t: string): (u: string)
    ensures u == t || (t != [] && (t[0] == '-' || t[0] == '+') && u == t[1..])
  {
    if t != [] && (t[0] == '-' || t[0] == '+') then t[1..] else t
  }

  /** Decimal rendering of a natural number, as `String(n)` gives it. */
  function Decimal(n: nat): (r: string)
    ensures |r| > 0
    ensures forall k :: 0 <= k < |r| ==> IsDigit(r[k])
  {
    if n < 10 then [DigitChar(n)] else Decimal(n / 10) + [DigitChar(n % 10)]
  }

  /** Decimal rendering of an integer, as `String(i)` gives it. */
  function IntString(i: int): string {
    if i < 0 then "-" + Decimal(-i) else Decimal(i)
  }

  lemma {:induction false} DecimalValue(n: nat)
    ensures DigitsValue(Decimal(n)) == n
  {
    if n >= 10 {
      DecimalValue(n / 10);
      var r := Decimal(n);
      assert r[..|r| - 1] == Decimal(n / 10);
    }
  }

  lemma {:induction false} DigitRunAll(s: string)
    requires forall k :: 0 <= k < |s| ==> IsDigit(s[k])
    ensures DigitRun(s) == |s|
  {
    if s != [] {
      DigitRunAll(s[1..]);
    }
  }

  /** `parseInt` reads back every integer rendered in decimal. */
  lemma {:induction false} ParseIntRoundTrip(i: int)
    ensures ParseInt(IntString(i)) == Some(i)
  {
    var s := IntString(i);
    var m: nat := if i < 0 then -i else i;
    var ds := Decimal(m);
    DecimalValue(m);
    DigitRunAll(ds);
    assert !IsSpace(s[0]) by {
      assert s[0] == '-' || IsDigit(s[0]);
    }
    assert TrimStart(s) == s;
    assert SignStripped(s) == ds by {
      if i >= 0 {
        assert s[0] != '-' && s[0] != '+';
      }
    }
    assert ds[..|ds|] == ds;
  }

  /**
   * `parseInt` on text that starts with a run of `n` digits followed by a
   * non-digit or the end: the value of those digits, whatever comes after.
   */
  lemma ParseIntRun(s: string, n: nat)
    requires 0 < n <= |s| && forall k :: 0 <= k < n ==> IsDigit(s[k])
    requires n == |s| || !IsDigit(s[n])
    ensures ParseInt(s) == Some(DigitsValue(s[..n]) as int)
  {
    assert TrimStart(s) == s;
    assert SignStripped(s) == s;
    DigitRunIs(s, n);
  }

  /** The digit run is determined by where the first non-digit stands. */
  lemma DigitRunIs(s: string, n: nat)
    requires n <= |s| && forall k :: 0 <= k < n ==> IsDigit(s[k])
    requires n == |s| || !IsDigit(s[n])
    ensures DigitRun(s) == n
  {
  }

  /** Digits followed by text that does not start with a digit parse to the digits' value. */
  lemma DigitsThen(ds: string, t: string)
    requires 0 < |ds| && forall k :: 0 <= k < |ds| ==> IsDigit(ds[k])
    requires t == [] || !IsDigit(t[0])
    ensures ParseInt(ds + t) == Some(DigitsValue(ds) as int)
  {
    var s := ds + t;
    assert s[..|ds|] == ds;
    assert ParseInt(s) == Some(DigitsValue(s[..|ds|]) as int) by {
      assert forall k :: 0 <= k < |ds| ==> s[k] == ds[k];
      assert |ds| < |s| ==> s[|ds|] == t[0];
      ParseIntRun(s, |ds|);
    }
  }

  /** Digits followed by a non-digit or nothing: the digit run is exactly those digits. */
  lemma DigitRunThen(ds: string, t: string)
    requires forall k :: 0 <= k < |ds| ==> IsDigit(ds[k])
    requires t == [] || !IsDigit(t[0])
    ensures DigitRun(ds + t) == |ds| && (ds + t)[..|ds|] == ds
  {
    var u := ds + t;
    assert forall k :: 0 <= k < |ds| ==> u[k] == ds[k];
    assert |ds| < |u| ==> u[|ds|] == t[0];
    DigitRunIs(u, |ds|);
  }

  /** Text that does not start with whitespace is its own `trimStart`. */
  lemma TrimStartNoLeadingSpace(s: string)
    requires s != [] && !IsSpace(s[0])
    ensures TrimStart(s) == s
  {
  }

  /** A negative integer rendered and followed by more text: a minus sign, then its digits and the text. */
  lemma NegativeIntStringThen(i: int, t: string)
    requires i < 0
    ensures var s := IntString(i) + t; s[0] == '-' && s[1..] == Decimal(-i) + t
  {
    var u := Decimal(-i) + t;
    assert IntString(i) + t == ['-'] + u;
  }

  /**
   * A decimal integer followed by anything that does not start with a digit
   * reads back as that integer: "12.5" gives 12 and "1e3" gives 1.
   */
  lemma ParseIntPrefix(i: int, t: string)
    requires t == [] || !IsDigit(t[0])
    ensures ParseInt(IntString(i) + t) == Some(i)
  {
    var s := IntString(i) + t;
    var m: nat := if i < 0 then -i else i;
    if i < 0 {
      NegativeIntStringThen(i, t);
    } else {
      assert s[0] == Decimal(m)[0];
    }
    TrimStartNoLeadingSpace(s);
    assert SignStripped(s) == Decimal(m) + t;
    DigitRunThen(Decimal(m), t);
    DecimalValue(m);
  }

  /** A leading zero does not change the value of a digit string. */
  lemma {:induction false} LeadingZeroValue(ds: string)
    requires forall k :: 0 <= k < |ds| ==> IsDigit(ds[k])
    ensures DigitsValue("0" + ds) == DigitsValue(ds)
  {
    if ds != [] {
      var z := "0" + ds;
      assert z[..|z| - 1] == "0" + ds[..|ds| - 1];
      LeadingZeroValue(ds[..|ds| - 1]);
    } else {
      assert ("0" + ds)[..0] == [];
    }
  }

  /** A run of `z` zero digits. */
  function Zeros(z: nat): (r: string)
    ensures |r| == z && forall k :: 0 <= k < z ==> r[k] == '0'
  {
    seq(z, _ => '0')
  }

  /** Any number of leading zeros leaves the value of a digit string unchanged. */
  lemma {:induction false} LeadingZerosValue(z: nat, ds: string)
    requires forall k :: 0 <= k < |ds| ==> IsDigit(ds[k])
    ensures DigitsValue(Zeros(z) + ds) == DigitsValue(ds)
  {
    if z == 0 {
      assert Zeros(z) + ds == ds;
    } else {
      var w := Zeros(z - 1) + ds;
      assert Zeros(z) + ds == "0" + w;
      LeadingZerosValue(z - 1, ds);
      LeadingZeroValue(w);
    }
  }

  /** Leading zeros are read and ignored: "007" gives 7 and "007.5" gives 7 too. */
  lemma ParseIntLeadingZeros(z: nat, n: nat, t: string)
    requires t == [] || !IsDigit(t[0])
    ensures ParseInt(Zeros(z) + Decimal(n) + t) == Some(n)
  {
    var ds := Decimal(n);
    var w := Zeros(z) + ds;
    assert forall k :: 0 <= k < |w| ==> IsDigit(w[k]) by {
      forall k | 0 <= k < |w| ensures IsDigit(w[k]) {
        if k >= z {
          assert w[k] == ds[k - z];
        }
      }
    }
    assert DigitsValue(w) == n by {
      DecimalValue(n);
      LeadingZerosValue(z, ds);
    }
    DigitsThen(w, t);
  }
}
