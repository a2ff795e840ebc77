/** Decimal digit strings and the text form of the big-integer view totals.
    `bigIntToString` formats with `Intl.NumberFormat`; this model fixes that
    format to the en-US one: a leading '-' for negatives and a ',' between
    every group of three digits. `stringToBigInt` keeps the digit characters
    only, so it reads such a string back, sign excepted. */
module Numbers {

  predicate IsDigit(c: char) { '0' <= c <= '9' }

  predicate AllDigits(s: string) { forall i :: 0 <= i < |s| ==> IsDigit(s[i]) }

  function DigitValue(c: char): (d: nat)
    requires IsDigit(c)
    ensures d < 10
  {
    (c as int) - ('0' as int)
  }

  function DigitChar(d: nat): (c: char)
    requires d < 10
    ensures IsDigit(c) && DigitValue(c) == d
  {
    ('0' as int + d) as char
  }

  function Pow10(k: nat): (p: nat)
    ensures p >= 1
  {
    if k == 0 then 1 else 10 * Pow10(k - 1)
  }

  /** The number a digit string denotes, most significant digit first.
      The empty string denotes 0, as `BigInt('')` does. */
  function DigitsValue(s: string): nat
    requires AllDigits(s)
  {
    if s == [] then 0 else DigitsValue(s[..|s| - 1]) * 10 + DigitValue(s[|s| - 1])
  }

  /** Shortest decimal text of `n` (what `n.toString()` gives). */
  function NatToString(n: nat): (s: string)
    ensures |s| >= 1 && AllDigits(s)
    ensures DigitsValue(s) == n
    ensures s[0] == '0' ==> n == 0
  {
    if n < 10 then [DigitChar(n)]
    else
      var s := NatToString(n / 10) + [DigitChar(n % 10)];
      assert s[..|s| - 1] == NatToString(n / 10);
      s
  }

  /** `str.replace(/\D/g, '')`: the digit characters of `s`, in order. */
  function KeepDigits(s: string): (r: string)
    ensures AllDigits(r) && |r| <= |s|
  {
    if s == [] then [] else (if IsDigit(s[0]) then [s[0]] else []) + KeepDigits(s[1..])
  }

  /** `stringToBigInt`: `BigInt` of the digits of `s`. The conversion never
      throws on a string (`BigInt('')` is 0), so the catch branch returning 0
      is not reachable from a string argument. */
  function StringToBigInt(s: string): nat
  {
    DigitsValue(KeepDigits(s))
  }

  /** Three-digit, zero-padded text of a group below 1000. */
  function Pad3(x: nat): (s: string)
    requires x < 1000
    ensures |s| == 3 && AllDigits(s) && DigitsValue(s) == x
  {
    var s := [DigitChar(x / 100), DigitChar((x / 10) % 10), DigitChar(x % 10)];
    var t := s[..2];
    var u := t[..1];
    assert u[..0] == [];
    assert DigitsValue(u) == x / 100;
    assert t[..|t| - 1] == u;
    assert DigitsValue(t) == (x / 100) * 10 + (x / 10) % 10;
    assert s[..|s| - 1] == t;
    assert x / 10 == (x / 100) * 10 + (x / 10) % 10;
    assert x == (x / 10) * 10 + x % 10;
    s
  }

  /** Digit grouping of a non-negative number: "1,234,567". */
  function Group(n: nat): string
  {
    if n < 1000 then NatToString(n) else Group(n / 1000) + "," + Pad3(n % 1000)
  }

  /** `bigIntToString` with the fixed en-US grouping. */
  function BigIntToString(i: int): string
  {
    (if i < 0 then "-" else "") + Group(if i < 0 then -i else i)
  }

  lemma {:induction false} KeepDigitsConcat(a: string, b: string)
    ensures KeepDigits(a + b) == KeepDigits(a) + KeepDigits(b)
  {
    if a == [] {
      assert a + b == b;
    } else {
      assert (a + b)[0] == a[0];
      assert (a + b)[1..] == a[1..] + b;
      KeepDigitsConcat(a[1..], b);
      var h := if IsDigit(a[0]) then [a[0]] else [];
      assert KeepDigits(a + b) == h + (KeepDigits(a[1..]) + KeepDigits(b));
      assert KeepDigits(a) == h + KeepDigits(a[1..]);
    }
  }

  lemma {:induction false} KeepDigitsOfDigits(s: string)
    requires AllDigits(s)
    ensures KeepDigits(s) == s
  {
    if s != [] {
      KeepDigitsOfDigits(s[1..]);
    }
  }

  lemma {:induction false} DigitsValueConcat(a: string, b: string)
    requires AllDigits(a) && AllDigits(b)
    ensures AllDigits(a + b)
    ensures DigitsValue(a + b) == DigitsValue(a) * Pow10(|b|) + DigitsValue(b)
  {
    if b == [] {
      assert a + b == a;
    } else {
      var b' := b[..|b| - 1];
      assert (a + b)[..|a + b| - 1] == a + b';
      DigitsValueConcat(a, b');
      var x, y, p, c := DigitsValue(a), DigitsValue(b'), Pow10(|b'|), DigitValue(b[|b| - 1]);
      assert (a + b)[|a + b| - 1] == b[|b| - 1];
      assert DigitsValue(a + b) == (x * p + y) * 10 + c;
      assert DigitsValue(b) == y * 10 + c;
      assert Pow10(|b|) == 10 * p;
      ShiftDigit(x, p, y, c);
    }
  }

  lemma ShiftDigit(x: int, p: int, y: int, c: int)
    ensures (x * p + y) * 10 + c == x * (10 * p) + (y * 10 + c)
  {
  }

  /** The digits of a grouped number denote that number. */
  lemma {:induction false} GroupDigits(n: nat)
    ensures DigitsValue(KeepDigits(Group(n))) == n
  {
    if n < 1000 {
      KeepDigitsOfDigits(NatToString(n));
    } else {
      var g := Group(n / 1000);
      GroupDigits(n / 1000);
      KeepDigitsConcat(g + ",", Pad3(n % 1000));
      KeepDigitsConcat(g, ",");
      assert KeepDigits(",") == [];
      KeepDigitsOfDigits(Pad3(n % 1000));
      assert KeepDigits(Group(n)) == KeepDigits(g) + Pad3(n % 1000);
      DigitsValueConcat(KeepDigits(g), Pad3(n % 1000));
      assert Pow10(3) == 1000;
    }
  }

  /** `stringToBigInt` inverts `bigIntToString` on non-negative totals and
      returns the magnitude of a negative one: the '-' is not a digit. */
  lemma StringToBigIntOfFormatted(i: int)
    ensures StringToBigInt(BigIntToString(i)) == (if i < 0 then -i else i)
  {
    var m := if i < 0 then -i else i;
    GroupDigits(m);
    if i < 0 {
      assert BigIntToString(i) == "-" + Group(m);
      KeepDigitsConcat("-", Group(m));
      assert "-"[1..] == [];
      assert KeepDigits("-") == [];
      assert KeepDigits(BigIntToString(i)) == KeepDigits(Group(m));
    } else {
      assert BigIntToString(i) == Group(m);
    }
  }

  /** The formatted text of a negative total starts with '-', that of any
      other total with a digit. */
  lemma FormattedSign(i: int)
    ensures |BigIntToString(i)| >= 1
    ensures (BigIntToString(i)[0] == '-') <==> i < 0
  {
    var m := if i < 0 then -i else i;
    GroupStartsWithDigit(m);
  }

  lemma {:induction false} GroupStartsWithDigit(n: nat)
    ensures |Group(n)| >= 1 && IsDigit(Group(n)[0])
  {
    if n >= 1000 {
      GroupStartsWithDigit(n / 1000);
    }
  }

  /** A character JavaScript treats as white space or a line terminator
      (what `\s` matches and what `BigInt(str)` trims). */
  predicate IsJsWhitespace(c: char)
  {
    c == ' ' || c == '\t' || c == '\n' || c == '\r' || c == '\U{000B}' || c == '\U{000C}'
    || c == '\U{00A0}' || c == '\U{1680}' || ('\U{2000}' <= c <= '\U{200A}')
    || c == '\U{2028}' || c == '\U{2029}' || c == '\U{202F}' || c == '\U{205F}'
    || c == '\U{3000}' || c == '\U{FEFF}'
  }

  function TrimStart(s: string): (r: string)
    ensures |r| <= |s| && (r != [] ==> !IsJsWhitespace(r[0]))
  {
    if s != [] && IsJsWhitespace(s[0]) then TrimStart(s[1..]) else s
  }

  function TrimEnd(s: string): (r: string)
    ensures |r| <= |s| && (r != [] ==> !IsJsWhitespace(r[|r| - 1]))
  {
    if s != [] && IsJsWhitespace(s[|s| - 1]) then TrimEnd(s[..|s| - 1]) else s
  }

  /** Outcome of `BigInt(value)`: the integer, or the error it throws. */
  datatype Conversion = Converted(value: int) | Throws

  /** Value of digit `c` in base `radix` (2, 8, 10 or 16), or -1 when `c` is
      not such a digit. */
  function RadixDigit(c: char, radix: nat): (d: int)
    ensures d < radix
  {
    var v := if '0' <= c <= '9' then (c as int) - ('0' as int)
             else if 'a' <= c <= 'f' then (c as int) - ('a' as int) + 10
             else if 'A' <= c <= 'F' then (c as int) - ('A' as int) + 10
             else -1;
    if v < radix then v else -1
  }

  predicate AllRadixDigits(s: string, radix: nat)
  {
    forall i :: 0 <= i < |s| ==> RadixDigit(s[i], radix) >= 0
  }

  function RadixValue(s: string, radix: nat): nat
    requires AllRadixDigits(s, radix)
  {
    if s == [] then 0 else RadixValue(s[..|s| - 1], radix) * radix + RadixDigit(s[|s| - 1], radix)
  }

  /** What `BigInt(str)` yields for a string: surrounding white space is
      ignored, an empty remainder is 0, otherwise a decimal integer with an
      optional sign, or a `0x`/`0o`/`0b` literal without a sign; anything
      else throws. */
  function BigIntOfString(s: string): (r: Conversion)
  {
    var t := TrimEnd(TrimStart(s));
    if t == [] then Converted(0)
    else if |t| >= 2 && t[0] == '0' && t[1] in "xXoObB" then
      var radix := if t[1] in "xX" then 16 else if t[1] in "oO" then 8 else 2;
      var ds := t[2..];
      if ds != [] && AllRadixDigits(ds, radix) then Converted(RadixValue(ds, radix)) else Throws
    else
      var neg := t[0] == '-';
      var ds := if t[0] == '-' || t[0] == '+' then t[1..] else t;
      if ds != [] && AllDigits(ds) then Converted(if neg then 0 - DigitsValue(ds) else DigitsValue(ds))
      else Throws
  }

  /** `String(i)` for an integer: optional '-' then the shortest digits. */
  function DecimalText(i: int): string
  {
    (if i < 0 then "-" else "") + NatToString(if i < 0 then -i else i)
  }

  /** A signed decimal text with nothing to trim. */
  lemma BigIntOfSigned(t: string, d: string)
    requires TrimEnd(TrimStart(t)) == t && d != [] && AllDigits(d)
    requires t == d || t == ['-'] + d
    requires |t| >= 2 ==> t[0] != '0'
    ensures BigIntOfString(t) == Converted(if t[0] == '-' then 0 - DigitsValue(d) else DigitsValue(d))
  {
    if t != d {
      assert t[1..] == d;
    }
  }

  /** `BigInt` reads back the decimal text of every integer. */
  lemma BigIntOfDecimalText(i: int)
    ensures BigIntOfString(DecimalText(i)) == Converted(i)
  {
    var m := if i < 0 then -i else i;
    var d := NatToString(m);
    var t := DecimalText(i);
    if i < 0 {
      assert t == ['-'] + d;
    } else {
      assert t == d;
      if t[0] == '0' {
        assert m == 0;
        assert |t| == 1;
      }
    }
    assert t[|t| - 1] == d[|d| - 1];
    DigitNotSpace(d[|d| - 1]);
    if i >= 0 {
      DigitNotSpace(d[0]);
    }
    Untrimmed(t);
    BigIntOfSigned(t, d);
  }

  lemma DigitNotSpace(c: char)
    requires IsDigit(c)
    ensures !IsJsWhitespace(c)
  {
  }

  lemma Untrimmed(t: string)
    requires t != [] && !IsJsWhitespace(t[0]) && !IsJsWhitespace(t[|t| - 1])
    ensures TrimEnd(TrimStart(t)) == t
  {
  }
}
