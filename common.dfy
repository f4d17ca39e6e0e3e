/**
 * Shared vocabulary of the model: optional values and results, bytes, and
 * the handful of Python string and number operations the controller relies
 * on (`str.lower`, `in`, `str.split`, `str.strip`, `str.replace`, `int()`,
 * `float()`, `round(x, 2)`, `f"{x:.2f}"`, `str.encode()`/`bytes.decode()`),
 * each written out with Python's semantics on ASCII text.
 */
module Common {

  datatype Option<T> = None | Some(value: T) {
    function GetOr(default: T): T
    {
      if Some? then value else default
    }
  }

  datatype Result<T, E> = Ok(value: T) | Err(error: E)

  /** Python truthiness of an optional text (a form field, a JSON string): `None` and `""` are false. */
  predicate Filled(s: Option<string>)
  {
    s.Some? && s.value != ""
  }

  /** One octet on the I2C bus. */
  newtype byte = x: int | 0 <= x < 256

  // ---------------------------------------------------------------------
  // Characters (ASCII semantics of Python's str methods)
  // ---------------------------------------------------------------------

  predicate IsDigit(c: char) { '0' <= c <= '9' }

  predicate IsAlpha(c: char) { 'a' <= c <= 'z' || 'A' <= c <= 'Z' }

  /** `str.isspace` restricted to ASCII: \t \n \v \f \r, the four separators 0x1c..0x1f, and space. */
  predicate IsSpace(c: char) { 9 <= c as int <= 13 || 28 <= c as int <= 32 }

  function LowerChar(c: char): (r: char)
    ensures 'A' <= c <= 'Z' ==> r as int == c as int + 32
    ensures !('A' <= c <= 'Z') ==> r == c
  {
    if 'A' <= c <= 'Z' then (c as int + 32) as char else c
  }

  function UpperChar(c: char): (r: char)
    ensures 'a' <= c <= 'z' ==> r as int == c as int - 32
    ensures !('a' <= c <= 'z') ==> r == c
  {
    if 'a' <= c <= 'z' then (c as int - 32) as char else c
  }

  /** `s.lower()` on ASCII letters. */
  function Lower(s: string): (r: string)
    ensures |r| == |s|
    ensures forall i :: 0 <= i < |s| ==> r[i] == LowerChar(s[i])
  {
    if s == [] then [] else [LowerChar(s[0])] + Lower(s[1..])
  }

  /** `s.upper()` on ASCII letters. */
  function Upper(s: string): (r: string)
    ensures |r| == |s|
    ensures forall i :: 0 <= i < |s| ==> r[i] == UpperChar(s[i])
  {
    if s == [] then [] else [UpperChar(s[0])] + Upper(s[1..])
  }

  // ---------------------------------------------------------------------
  // Substrings
  // ---------------------------------------------------------------------

  predicate StartsWith(s: string, prefix: string)
  {
    |prefix| <= |s| && s[..|prefix|] == prefix
  }

  /** `sub` occurs in `s` starting at index `i`. */
  predicate OccursAt(s: string, sub: string, i: int)
  {
    0 <= i <= |s| - |sub| && s[i..i + |sub|] == sub
  }

  /** Python's `sub in s`. */
  predicate Contains(s: string, sub: string)
  {
    exists i | 0 <= i <= |s| - |sub| :: OccursAt(s, sub, i)
  }

  /** A string never contains a text whose first character it lacks. */
  lemma LacksFirstChar(s: string, sub: string)
    requires |sub| > 0 && forall i :: 0 <= i < |s| ==> s[i] != sub[0]
    ensures !Contains(s, sub)
  {
    forall i | OccursAt(s, sub, i) ensures s[i] == sub[0] {
      assert s[i..i + |sub|][0] == s[i];
    }
  }

  /** A string contains every text placed at one of its positions. */
  lemma ContainsWitness(s: string, sub: string, i: int)
    requires OccursAt(s, sub, i)
    ensures Contains(s, sub)
  {
  }

  /** Every string contains the empty string, and a string contains itself. */
  lemma ContainsTrivial(s: string)
    ensures Contains(s, "") && Contains(s, s)
  {
    assert OccursAt(s, "", 0);
    assert OccursAt(s, s, 0);
  }

  // ---------------------------------------------------------------------
  // strip / split / replace
  // ---------------------------------------------------------------------

  function StripLeft(s: string): (r: string)
    ensures |r| <= |s| && r == s[|s| - |r|..]
    ensures r != [] ==> !IsSpace(r[0])
    ensures forall i :: 0 <= i < |s| - |r| ==> IsSpace(s[i])
  {
    if |s| > 0 && IsSpace(s[0]) then StripLeft(s[1..]) else s
  }

  function StripRight(s: string): (r: string)
    ensures |r| <= |s| && r == s[..|r|]
    ensures r != [] ==> !IsSpace(r[|r| - 1])
    ensures forall i :: |r| <= i < |s| ==> IsSpace(s[i])
  {
    if |s| > 0 && IsSpace(s[|s| - 1]) then StripRight(s[..|s| - 1]) else s
  }

  /** `s.strip()`: drop leading and trailing whitespace. */
  function Strip(s: string): (r: string)
    ensures r != [] ==> !IsSpace(r[0]) && !IsSpace(r[|r| - 1])
  {
    var l := StripLeft(s);
    var r := StripRight(l);
    assert r != [] ==> r[0] == l[0];
    r
  }

  /** `s.split(sep)` with a one-character separator: always at least one piece. */
  function Split(s: string, sep: char): (r: seq<string>)
    ensures |r| >= 1
    ensures forall i :: 0 <= i < |r| ==> sep !in r[i]
  {
    if s == [] then [""]
    else
      var rest := Split(s[1..], sep);
      if s[0] == sep then [""] + rest else [[s[0]] + rest[0]] + rest[1..]
  }

  /** `sep.join(pieces)`. */
  function Join(pieces: seq<string>, sep: char): string
  {
    if pieces == [] then ""
    else if |pieces| == 1 then pieces[0]
    else pieces[0] + [sep] + Join(pieces[1..], sep)
  }

  /** Splitting loses nothing: joining the pieces back gives the original text. */
  lemma {:induction false} JoinSplit(s: string, sep: char)
    ensures Join(Split(s, sep), sep) == s
  {
    if s != [] {
      var rest := Split(s[1..], sep);
      JoinSplit(s[1..], sep);
      if s[0] == sep {
        assert Split(s, sep) == [""] + rest;
        assert Split(s, sep)[1..] == rest;
      } else {
        var r := Split(s, sep);
        assert r == [[s[0]] + rest[0]] + rest[1..];
        if |rest| == 1 {
          assert r == [[s[0]] + rest[0]];
        } else {
          assert r[1..] == rest[1..];
          assert Join(rest, sep) == rest[0] + [sep] + Join(rest[1..], sep);
        }
      }
    }
  }

  /** `s.replace(pattern, replacement)`: non-overlapping occurrences, left to right. */
  function Replace(s: string, pattern: string, replacement: string): (r: string)
    requires |pattern| > 0
    ensures pattern == replacement ==> r == s
    decreases |s|
  {
    if |s| < |pattern| then s
    else if s[..|pattern|] == pattern then replacement + Replace(s[|pattern|..], pattern, replacement)
    else [s[0]] + Replace(s[1..], pattern, replacement)
  }

  /** Replacing a one-character string with the empty string removes that character. */
  lemma {:induction false} ReplaceCharByNothing(s: string, c: char)
    ensures Replace(s, [c], "") == RemoveChar(s, c)
  {
    if |s| >= 1 {
      ReplaceCharByNothing(s[1..], c);
    }
  }

  /** Every occurrence of `c` removed. */
  function RemoveChar(s: string, c: char): (r: string)
    ensures c !in r
    ensures |r| <= |s|
  {
    if s == [] then [] else (if s[0] == c then [] else [s[0]]) + RemoveChar(s[1..], c)
  }

  // ---------------------------------------------------------------------
  // Integers and decimals as Python's int() and float() read them
  // ---------------------------------------------------------------------

  predicate AllDigits(s: string) { forall i :: 0 <= i < |s| ==> IsDigit(s[i]) }

  function DigitValue(c: char): (r: nat)
    requires IsDigit(c)
    ensures r < 10
  {
    c as int - '0' as int
  }

  function DigitChar(d: nat): (c: char)
    requires d < 10
    ensures IsDigit(c) && DigitValue(c) == d
  {
    ('0' as int + d) as char
  }

  /** The number a non-empty run of decimal digits denotes. */
  function DigitsValue(s: string): (r: nat)
    requires AllDigits(s)
  {
    if s == [] then 0 else DigitsValue(s[..|s| - 1]) * 10 + DigitValue(s[|s| - 1])
  }

  /** The shortest decimal text of a natural number (`str(n)`). */
  function NatToString(n: nat): (r: string)
    ensures |r| >= 1 && AllDigits(r)
  {
    if n < 10 then [DigitChar(n)] else NatToString(n / 10) + [DigitChar(n % 10)]
  }

  /** Printing a number and reading it back returns the number. */
  lemma {:induction false} DigitsValueOfNatToString(n: nat)
    ensures DigitsValue(NatToString(n)) == n
  {
    if n >= 10 {
      DigitsValueOfNatToString(n / 10);
      var s := NatToString(n);
      assert s[..|s| - 1] == NatToString(n / 10);
    }
  }

  /** `int(str(n))` gives `n` back. */
  lemma ParseIntOfNat(n: nat)
    ensures ParseInt(NatToString(n)) == Some(n)
  {
    var t := NatToString(n);
    assert !IsSpace(t[0]) && !IsSpace(t[|t| - 1]);
    StripUnpadded(t);
    DigitsValueOfNatToString(n);
  }

  /** `int(s)`: optional surrounding whitespace and sign, then one or more digits. */
  function ParseInt(s: string): (r: Option<int>)
    ensures r.Some? ==> |Strip(s)| >= 1
  {
    var t := Strip(s);
    if |t| >= 2 && (t[0] == '-' || t[0] == '+') && AllDigits(t[1..]) then
      var magnitude: int := DigitsValue(t[1..]);
      Some(if t[0] == '-' then -magnitude else magnitude)
    else if |t| >= 1 && AllDigits(t) then Some(DigitsValue(t))
    else None
  }

  /** A decimal without sign: digits, optionally a point and more digits, at least one digit in all. */
  function ParseUnsignedDecimal(t: string): (r: Option<real>)
    ensures r.Some? ==> r.value >= 0.0
  {
    if '.' !in t then
      if |t| >= 1 && AllDigits(t) then Some(DigitsValue(t) as real) else None
    else
      var pieces := Split(t, '.');
      if |pieces| != 2 || |pieces[0]| + |pieces[1]| == 0 || !AllDigits(pieces[0]) || !AllDigits(pieces[1]) then None
      else Some(DigitsValue(pieces[0]) as real + DigitsValue(pieces[1]) as real / Pow10(|pieces[1]|) as real)
  }

  function Pow10(n: nat): (r: nat)
    ensures r >= 1
  {
    if n == 0 then 1 else 10 * Pow10(n - 1)
  }

  /**
   * `float(s)` for plain decimal text: surrounding whitespace, an optional sign,
   * then digits with at most one decimal point.
   */
  function ParseDecimal(s: string): (r: Option<real>)
  {
    var t := Strip(s);
    if |t| >= 1 && (t[0] == '-' || t[0] == '+') then
      match ParseUnsignedDecimal(t[1..])
      case Some(v) => Some(if t[0] == '-' then -v else v)
      case None => None
    else ParseUnsignedDecimal(t)
  }

  // ---------------------------------------------------------------------
  // Rounding and fixed-point text
  // ---------------------------------------------------------------------

  /** `int(x)` on a float: truncation toward zero. */
  function Trunc(x: real): (r: int)
    ensures x >= 0.0 ==> 0 <= r && r as real <= x < r as real + 1.0
    ensures x < 0.0 ==> r <= 0 && r as real - 1.0 < x <= r as real
  {
    if x >= 0.0 then x.Floor else -((-x).Floor)
  }

  /** Nearest integer, ties to the even neighbour (Python's `round`). */
  function RoundHalfEven(x: real): (r: int)
    ensures x - 0.5 <= r as real <= x + 0.5
  {
    var f := x.Floor;
    var d := x - f as real;
    if d < 0.5 then f else if d > 0.5 then f + 1 else if f % 2 == 0 then f else f + 1
  }

  /** `round(x, 2)`, taken on the exact value. */
  function Round2(x: real): (r: real)
    ensures x - 0.005 <= r <= x + 0.005
  {
    RoundHalfEven(x * 100.0) as real / 100.0
  }

  /** `f"{x:.2f}"`: two decimals, half-even on the exact value. */
  function Fixed2(x: real): (r: string)
    ensures '.' in r
  {
    SignedHundredths(RoundHalfEven(x * 100.0))
  }

  /** The text of `n / 100` with a minus sign when negative and exactly two decimals. */
  function SignedHundredths(n: int): (r: string)
    ensures '.' in r
  {
    if n < 0 then "-" + Hundredths(-n) else Hundredths(n)
  }

  /** The text of `a / 100` with exactly two decimals. */
  function Hundredths(a: nat): (r: string)
    ensures '.' in r && |r| >= 4 && IsDigit(r[0]) && IsDigit(r[|r| - 1])
  {
    NatToString(a / 100) + "." + [DigitChar(a % 100 / 10), DigitChar(a % 10)]
  }

  lemma ParseHundredths(a: nat)
    ensures ParseUnsignedDecimal(Hundredths(a)) == Some(a as real / 100.0)
  {
    var whole := NatToString(a / 100);
    var frac := [DigitChar(a % 100 / 10), DigitChar(a % 10)];
    SplitAroundPoint(whole, frac);
    DigitsValueOfNatToString(a / 100);
    assert DigitsValue(frac) == a % 100 by {
      var d := [DigitChar(a % 100 / 10)];
      assert frac[..1] == d;
      assert d[..0] == [];
      assert DigitsValue(d) == a % 100 / 10;
      assert a % 100 / 10 * 10 + a % 10 == a % 100;
    }
    assert Pow10(2) == 100;
    assert a == (a / 100) * 100 + a % 100;
    assert (a / 100) as real + (a % 100) as real / 100.0 == a as real / 100.0;
  }

  /** Text that neither starts nor ends with whitespace is left alone by `strip()`. */
  lemma StripUnpadded(t: string)
    requires |t| >= 1 && !IsSpace(t[0]) && !IsSpace(t[|t| - 1])
    ensures Strip(t) == t
  {
  }

  /**
   * The two-decimal text reads back, through `float()`, as the number of
   * hundredths it prints; `Fixed2(x)` prints the hundredths of `Round2(x)`.
   */
  lemma ParseSignedHundredths(n: int)
    ensures ParseDecimal(SignedHundredths(n)) == Some(n as real / 100.0)
  {
    if n < 0 {
      var u := Hundredths(-n);
      ParseHundredths(-n);
      ParseNegative(u);
    } else {
      var u := Hundredths(n);
      ParseHundredths(n);
      StripUnpadded(u);
    }
  }

  lemma ParseNegative(u: string)
    requires |u| >= 1 && IsDigit(u[0]) && IsDigit(u[|u| - 1])
    ensures ParseUnsignedDecimal(u).Some? ==> ParseDecimal("-" + u) == Some(-ParseUnsignedDecimal(u).value)
  {
    var t := "-" + u;
    StripUnpadded(t);
    assert t[1..] == u;
  }

  lemma SplitAroundPoint(whole: string, frac: string)
    requires AllDigits(whole) && AllDigits(frac)
    ensures Split(whole + "." + frac, '.') == [whole, frac]
  {
    assert '.' !in whole && '.' !in frac by {
      assert forall i :: 0 <= i < |whole| ==> whole[i] != '.';
      assert forall i :: 0 <= i < |frac| ==> frac[i] != '.';
    }
    SplitWithout(frac, '.');
    SplitPrefix(whole, "." + frac, '.');
    assert ("." + frac)[1..] == frac;
    assert whole + "." + frac == whole + ("." + frac);
  }

  lemma {:induction false} SplitWithout(s: string, sep: char)
    requires sep !in s
    ensures Split(s, sep) == [s]
  {
    if s != [] {
      SplitWithout(s[1..], sep);
      assert s[0] != sep;
      assert [s[0]] + s[1..] == s;
    }
  }

  /** Joining pieces that hold no separator and splitting again gives the pieces back. */
  lemma {:induction false} SplitJoin(pieces: seq<string>, sep: char)
    requires |pieces| >= 1 && forall i :: 0 <= i < |pieces| ==> sep !in pieces[i]
    ensures Split(Join(pieces, sep), sep) == pieces
  {
    if |pieces| == 1 {
      SplitWithout(pieces[0], sep);
    } else {
      var rest := Join(pieces[1..], sep);
      SplitJoin(pieces[1..], sep);
      SplitPrefix(pieces[0], [sep] + rest, sep);
      assert ([sep] + rest)[1..] == rest;
      assert pieces[0] + [sep] + rest == pieces[0] + ([sep] + rest);
      assert [pieces[0]] + pieces[1..] == pieces;
    }
  }

  /** Splitting `w + t`, where `w` holds no separator and `t` starts with one. */
  lemma {:induction false} SplitPrefix(w: string, t: string, sep: char)
    requires sep !in w && |t| >= 1 && t[0] == sep
    ensures Split(w + t, sep) == [w] + Split(t[1..], sep)
  {
    if w == [] {
      assert w + t == t;
    } else {
      SplitPrefix(w[1..], t, sep);
      assert (w + t)[1..] == w[1..] + t;
      assert (w + t)[0] == w[0] != sep;
      assert [w[0]] + w[1..] == w;
    }
  }

  // ---------------------------------------------------------------------
  // Text encoding
  // ---------------------------------------------------------------------

  predicate IsAscii(s: string) { forall i :: 0 <= i < |s| ==> s[i] as int < 128 }

  /** UTF-8 bytes of one character (`str.encode()`). */
  function EncodeChar(c: char): (r: seq<byte>)
    ensures 1 <= |r| <= 4
    ensures c as int < 128 <==> |r| == 1
  {
    var n := c as int;
    if n < 0x80 then [n as byte]
    else if n < 0x800 then [(0xC0 + n / 0x40) as byte, (0x80 + n % 0x40) as byte]
    else if n < 0x1_0000 then
      [(0xE0 + n / 0x1000) as byte, (0x80 + n / 0x40 % 0x40) as byte, (0x80 + n % 0x40) as byte]
    else
      [(0xF0 + n / 0x4_0000) as byte, (0x80 + n / 0x1000 % 0x40) as byte,
       (0x80 + n / 0x40 % 0x40) as byte, (0x80 + n % 0x40) as byte]
  }

  /** UTF-8 bytes of a string. */
  function Encode(s: string): (r: seq<byte>)
    ensures IsAscii(s) ==> |r| == |s| && forall i :: 0 <= i < |s| ==> r[i] as int == s[i] as int
  {
    if s == [] then [] else EncodeChar(s[0]) + Encode(s[1..])
  }

  /** `bytes.decode()` on ASCII bytes; any byte of 0x80 or more is a decode failure here. */
  function DecodeAscii(bs: seq<byte>): (r: Option<string>)
    ensures r.Some? <==> forall i :: 0 <= i < |bs| ==> bs[i] < 0x80
    ensures r.Some? ==> |r.value| == |bs| && IsAscii(r.value)
  {
    if bs == [] then Some("")
    else if bs[0] >= 0x80 then None
    else match DecodeAscii(bs[1..])
      case None => None
      case Some(rest) => Some([bs[0] as int as char] + rest)
  }

  /** Decoding what was encoded gives back the ASCII text. */
  lemma {:induction false} DecodeEncode(s: string)
    requires IsAscii(s)
    ensures DecodeAscii(Encode(s)) == Some(s)
  {
    if s != [] {
      DecodeEncode(s[1..]);
      var bs := Encode(s);
      assert EncodeChar(s[0]) == [s[0] as int as byte];
      assert bs[1..] == Encode(s[1..]);
      assert bs[0] as int as char == s[0];
      assert [s[0]] + s[1..] == s;
    }
  }
}
