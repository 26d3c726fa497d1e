/**
 * The JavaScript string operations the client relies on: prefix and
 * substring tests, case mapping, `trim`, `split(/\s+/)`, decimal printing
 * and the number parsers (`Number(s)`, `parseInt(s)` and `parseInt(s, 10)`).
 */
module Text {
  import opened Wrappers

  // ---------------------------------------------------------------------
  // Prefixes and substrings

  /** `s.startsWith(prefix)` */
  predicate StartsWith(s: string, prefix: string) {
    |prefix| <= |s| && s[..|prefix|] == prefix
  }

  /** `s.includes(sub)`: `sub` occurs somewhere in `s`. */
  predicate Contains(s: string, sub: string)
    decreases |s|
  {
    StartsWith(s, sub) || (|s| > 0 && Contains(s[1..], sub))
  }

  lemma {:induction false} ContainsInfix(a: string, b: string, c: string)
    ensures Contains(a + b + c, b)
    decreases |a|
  {
    if a == [] {
      assert (a + b + c)[..|b|] == b;
    } else {
      assert (a + b + c)[1..] == a[1..] + b + c;
      ContainsInfix(a[1..], b, c);
    }
  }

  // ---------------------------------------------------------------------
  // Case mapping

  /**
   * `toLowerCase` on one character, for the letters up to U+00FF: the ASCII
   * capitals and the Latin-1 capitals U+00C0 to U+00DE (but the sign
   * U+00D7) move 32 places down.
   */
  function LowerChar(c: char): char {
    if 'A' <= c <= 'Z' || ('\U{00C0}' <= c <= '\U{00DE}' && c != '\U{00D7}') then (c as int + 32) as char else c
  }

  /** `s.toLowerCase()` */
  function Lower(s: string): (r: string)
    ensures |r| == |s|
  {
    seq(|s|, i requires 0 <= i < |s| => LowerChar(s[i]))
  }

  /**
   * `toUpperCase` on one character, for the letters up to U+00FF: the ASCII
   * small letters and U+00E0 to U+00FE (but the sign U+00F7) move 32
   * places up, U+00FF becomes U+0178, U+00B5 becomes U+039C, and the sharp
   * s U+00DF becomes the two letters "SS".
   */
  function UpperOf(c: char): (r: string)
    ensures 1 <= |r| <= 2
  {
    if 'a' <= c <= 'z' || ('\U{00E0}' <= c <= '\U{00FE}' && c != '\U{00F7}') then [(c as int - 32) as char]
    else if c == '\U{00DF}' then "SS"
    else if c == '\U{00FF}' then ['\U{0178}']
    else if c == '\U{00B5}' then ['\U{039C}']
    else [c]
  }

  /** `s.toUpperCase()`: each character's upper case, one after the other. */
  function Upper(s: string): (r: string)
    ensures |s| <= |r| <= 2 * |s|
  {
    if s == [] then [] else UpperOf(s[0]) + Upper(s[1..])
  }

  /** `toUpperCase` of one or two characters. */
  lemma UpperOfFew(a: char, b: char)
    ensures Upper([a]) == UpperOf(a)
    ensures Upper([a, b]) == UpperOf(a) + UpperOf(b)
  {
    assert [a][1..] == [];
    assert [a, b][1..] == [b];
    assert [b][1..] == [];
  }

  /** Upper-casing maps a text piece by piece. */
  lemma {:induction false} UpperConcat(a: string, b: string)
    ensures Upper(a + b) == Upper(a) + Upper(b)
    decreases |a|
  {
    if a != [] {
      assert (a + b)[0] == a[0] && (a + b)[1..] == a[1..] + b;
      UpperConcat(a[1..], b);
    } else {
      assert a + b == b;
    }
  }

  /** Lower-casing twice is lower-casing once. */
  lemma LowerIdempotent(s: string)
    ensures Lower(Lower(s)) == Lower(s)
  {
    assert forall i :: 0 <= i < |s| ==> LowerChar(LowerChar(s[i])) == LowerChar(s[i]);
  }

  /** A Latin-1 capital and its small letter lower-case alike. */
  lemma LowerFoldsLatin1(c: char)
    requires '\U{00C0}' <= c <= '\U{00DE}' && c != '\U{00D7}'
    ensures LowerChar(c) == (c as int + 32) as char && LowerChar((c as int + 32) as char) == LowerChar(c)
    ensures UpperOf(LowerChar(c)) == [c]
  {
  }

  /** SQLite's LIKE folds the ASCII letters only. */
  function AsciiLowerChar(c: char): char {
    if 'A' <= c <= 'Z' then (c as int + 32) as char else c
  }

  /** The text LIKE compares: ASCII capitals lowered, every other character kept. */
  function AsciiLower(s: string): (r: string)
    ensures |r| == |s|
  {
    seq(|s|, i requires 0 <= i < |s| => AsciiLowerChar(s[i]))
  }

  /** `s.charAt(0)`: the first character, or "" for the empty string. */
  function FirstChar(s: string): (r: string)
    ensures |r| <= 1
  {
    if s == "" then "" else s[..1]
  }

  // ---------------------------------------------------------------------
  // Whitespace, trim and split

  /**
   * The characters JavaScript's `\s` and `String.prototype.trim` treat as
   * white space: the space, tab to carriage return (U+0009 to U+000D), and
   * the Unicode spaces from U+00A0 up.
   */
  predicate IsSpace(c: char) {
    if c < '\U{00A0}' then c == ' ' || '\t' <= c <= '\r'
    else (c == '\U{00A0}' || c == '\U{1680}' || ('\U{2000}' <= c <= '\U{200A}')
          || c == '\U{2028}' || c == '\U{2029}' || c == '\U{202F}' || c == '\U{205F}'
          || c == '\U{3000}' || c == '\U{FEFF}')
  }

  predicate NoSpace(s: string) {
    forall i :: 0 <= i < |s| ==> !IsSpace(s[i])
  }

  /** `s.trimStart()`: drops the leading white space and nothing else. */
  function TrimStart(s: string): (r: string)
    ensures |r| <= |s| && r == s[|s| - |r|..]
    ensures r == [] || !IsSpace(r[0])
  {
    if |s| > 0 && IsSpace(s[0]) then TrimStart(s[1..]) else s
  }

  /** `s.trimEnd()`: drops the trailing white space and nothing else. */
  function TrimEnd(s: string): (r: string)
    ensures |r| <= |s| && r == s[..|r|]
    ensures forall i :: |r| <= i < |s| ==> IsSpace(s[i])
    ensures r == [] || !IsSpace(r[|r| - 1])
  {
    if |s| > 0 && IsSpace(s[|s| - 1]) then TrimEnd(s[..|s| - 1]) else s
  }

  /** `s.trim()` */
  function Trim(s: string): string {
    TrimEnd(TrimStart(s))
  }

  /** A string with no white space at either end is its own trim. */
  lemma TrimOfTrimmed(s: string)
    requires s != [] && !IsSpace(s[0]) && !IsSpace(s[|s| - 1])
    ensures Trim(s) == s
  {
  }

  /** Trimming never removes a first character that is not white space. */
  lemma TrimKeepsFirst(s: string)
    requires s != [] && !IsSpace(s[0])
    ensures Trim(s) != [] && Trim(s)[0] == s[0]
  {
    assert TrimStart(s) == s;
    assert TrimEnd(s) != [];
  }

  /** `s.split(/\s+/)`: the pieces between maximal runs of white space. */
  function SplitWs(s: string): (r: seq<string>)
    ensures |r| >= 1
  {
    SplitAcc("", s)
  }

  /**
   * Splitting `s` when `word` has already been read as the start of the
   * current piece. Inside a run of white space every character but the
   * last is skipped; the last one closes the current piece.
   */
  function SplitAcc(word: string, s: string): (r: seq<string>)
    ensures |r| >= 1
    decreases |s|
  {
    if s == [] then [word]
    else if IsSpace(s[0]) && |s| > 1 && IsSpace(s[1]) then SplitAcc(word, s[1..])
    else if IsSpace(s[0]) then [word] + SplitAcc("", s[1..])
    else SplitAcc(word + [s[0]], s[1..])
  }

  /** Without white space there is a single piece. */
  lemma {:induction false} SplitAccNoSpace(word: string, s: string)
    requires NoSpace(s)
    ensures SplitAcc(word, s) == [word + s]
    decreases |s|
  {
    if s != [] {
      assert !IsSpace(s[0]);
      assert SplitAcc(word, s) == SplitAcc(word + [s[0]], s[1..]);
      assert NoSpace(s[1..]) by {
        forall i | 0 <= i < |s| - 1 ensures !IsSpace(s[1..][i]) {
          assert s[1..][i] == s[i + 1];
        }
      }
      SplitAccNoSpace(word + [s[0]], s[1..]);
      assert word + [s[0]] + s[1..] == word + s;
    } else {
      assert word + s == word;
    }
  }

  /** A non-empty current piece stays the first piece, so its first character is kept. */
  lemma {:induction false} SplitAccFirst(word: string, s: string)
    requires word != []
    ensures SplitAcc(word, s)[0] != [] && SplitAcc(word, s)[0][0] == word[0]
    decreases |s|
  {
    if s != [] && IsSpace(s[0]) && |s| > 1 && IsSpace(s[1]) {
      SplitAccFirst(word, s[1..]);
    } else if s != [] && !IsSpace(s[0]) {
      SplitAccFirst(word + [s[0]], s[1..]);
    }
  }

  /** When `s[k..]` is the text after the last white space, it is the last piece. */
  lemma {:induction false} SplitAccLast(word: string, s: string, k: nat)
    requires 0 < k <= |s| && IsSpace(s[k - 1]) && NoSpace(s[k..])
    ensures |SplitAcc(word, s)| >= 2
    ensures SplitAcc(word, s)[|SplitAcc(word, s)| - 1] == s[k..]
    decreases |s|
  {
    if k == 1 {
      NoSpaceRest(s);
      SplitAccNoSpace("", s[1..]);
      assert "" + s[1..] == s[1..];
    } else {
      ShiftLast(s, k);
      if IsSpace(s[0]) && IsSpace(s[1]) {
        SplitAccLast(word, s[1..], k - 1);
      } else if IsSpace(s[0]) {
        SplitAccLast("", s[1..], k - 1);
      } else {
        SplitAccLast(word + [s[0]], s[1..], k - 1);
      }
    }
  }

  /** The character after the last white space is not white space. */
  lemma {:induction false} NoSpaceRest(s: string)
    requires |s| >= 1 && NoSpace(s[1..])
    ensures |s| > 1 ==> !IsSpace(s[1])
  {
    if |s| > 1 {
      assert s[1..][0] == s[1];
    }
  }

  /** Dropping the first character moves the last piece's start one place left. */
  lemma {:induction false} ShiftLast(s: string, k: nat)
    requires 1 < k <= |s| && IsSpace(s[k - 1]) && NoSpace(s[k..])
    ensures IsSpace(s[1..][k - 2]) && s[1..][k - 1..] == s[k..]
  {
    assert s[1..][k - 2] == s[k - 1];
  }

  // ---------------------------------------------------------------------
  // Decimal digits

  predicate IsDigit(c: char) {
    '0' <= c <= '9'
  }

  predicate AllDigits(s: string) {
    forall i :: 0 <= i < |s| ==> IsDigit(s[i])
  }

  function DigitChar(d: nat): char
    requires d < 10
  {
    ('0' as int + d) as char
  }

  function DigitValue(c: char): nat
    requires IsDigit(c)
  {
    c as int - '0' as int
  }

  /** `n.toString()` for a non-negative integer. */
  function NatToString(n: nat): (r: string)
    ensures r != [] && AllDigits(r)
  {
    if n < 10 then [DigitChar(n)] else NatToString(n / 10) + [DigitChar(n % 10)]
  }

  /** `String(i)` for an integer. */
  function IntToString(i: int): (r: string)
    ensures r != [] && (r[0] == '-' || IsDigit(r[0])) && IsDigit(r[|r| - 1])
  {
    if i < 0 then "-" + NatToString(-i) else NatToString(i)
  }

  /** The value of a string of decimal digits. */
  function DigitsValue(s: string): nat
    requires AllDigits(s)
  {
    if s == [] then 0 else DigitsValue(s[..|s| - 1]) * 10 + DigitValue(s[|s| - 1])
  }

  /** Printing a number in decimal and reading the digits back gives the number. */
  lemma {:induction false} DigitsValueOfNat(n: nat)
    ensures DigitsValue(NatToString(n)) == n
  {
    if n >= 10 {
      var s := NatToString(n);
      assert s[..|s| - 1] == NatToString(n / 10);
      DigitsValueOfNat(n / 10);
    }
  }

  /** The longest prefix of `s` made of digits. */
  function DigitPrefix(s: string): (r: string)
    ensures |r| <= |s| && r == s[..|r|] && AllDigits(r)
    ensures |r| == |s| || !IsDigit(s[|r|])
  {
    if s != [] && IsDigit(s[0]) then [s[0]] + DigitPrefix(s[1..]) else ""
  }

  lemma {:induction false} DigitPrefixOfDigits(d: string, rest: string)
    requires AllDigits(d)
    requires rest == [] || !IsDigit(rest[0])
    ensures DigitPrefix(d + rest) == d
    decreases |d|
  {
    if d != [] {
      assert (d + rest)[1..] == d[1..] + rest;
      DigitPrefixOfDigits(d[1..], rest);
    }
  }

  /**
   * The value of `c` as a digit of base `radix` (at most 36): '0' to '9',
   * then the letters in either case from 10 up; None when it is no digit
   * of that base.
   */
  function DigitIn(c: char, radix: nat): Option<nat> {
    var v: nat :=
      if '0' <= c <= '9' then c as int - '0' as int
      else if 'a' <= c <= 'z' then c as int - 'a' as int + 10
      else if 'A' <= c <= 'Z' then c as int - 'A' as int + 10
      else 36;
    if v < radix then Some(v) else None
  }

  predicate AllIn(s: string, radix: nat) {
    forall i :: 0 <= i < |s| ==> DigitIn(s[i], radix).Some?
  }

  /** The value of a string of digits of base `radix`. */
  function RadixValue(s: string, radix: nat): nat
    requires AllIn(s, radix)
  {
    if s == [] then 0 else RadixValue(s[..|s| - 1], radix) * radix + DigitIn(s[|s| - 1], radix).value
  }

  /** The longest prefix of `s` made of digits of base `radix`. */
  function RadixPrefix(s: string, radix: nat): (r: string)
    ensures |r| <= |s| && r == s[..|r|] && AllIn(r, radix)
    ensures |r| == |s| || DigitIn(s[|r|], radix).None?
  {
    if s != [] && DigitIn(s[0], radix).Some? then [s[0]] + RadixPrefix(s[1..], radix) else ""
  }

  /** A text of base-`radix` digits is its own longest digit prefix. */
  lemma {:induction false} RadixPrefixOfDigits(h: string, radix: nat)
    requires AllIn(h, radix)
    ensures RadixPrefix(h, radix) == h
    decreases |h|
  {
    if h != [] {
      assert AllIn(h[1..], radix) by {
        forall i | 0 <= i < |h| - 1 ensures DigitIn(h[1..][i], radix).Some? {
          assert h[1..][i] == h[i + 1];
        }
      }
      RadixPrefixOfDigits(h[1..], radix);
    }
  }

  /** Whether `t` starts with the "0x" or "0X" that makes parseInt read hexadecimal. */
  predicate HexLed(t: string) {
    |t| >= 2 && t[0] == '0' && (t[1] == 'x' || t[1] == 'X')
  }

  /**
   * The unsigned part of parseInt. With `autoRadix` (no radix given) a
   * leading "0x" or "0X" selects base 16 for the digits after it;
   * otherwise the digits are decimal. None stands for NaN: no digit at all.
   */
  function UnsignedValue(t: string, autoRadix: bool): Option<nat> {
    if autoRadix && HexLed(t) then
      var h := RadixPrefix(t[2..], 16);
      if h == [] then None else Some(RadixValue(h, 16))
    else
      var d := DigitPrefix(t);
      if d == [] then None else Some(DigitsValue(d))
  }

  /** parseInt: leading white space, an optional sign, then the unsigned part. */
  function ParseWith(s: string, autoRadix: bool): Option<int> {
    var t := TrimStart(s);
    var signed := t != [] && (t[0] == '-' || t[0] == '+');
    var v := UnsignedValue(if signed then t[1..] else t, autoRadix);
    if v.None? then None
    else if signed && t[0] == '-' then Some(-(v.value as int))
    else Some(v.value)
  }

  /** `parseInt(s)`, with no radix: integers only, None for NaN. */
  function ParseInt(s: string): Option<int> {
    ParseWith(s, true)
  }

  /** `parseInt(s, 10)`: integers only, None for NaN. */
  function ParseIntDecimal(s: string): Option<int> {
    ParseWith(s, false)
  }

  /** A text that starts with a digit, and not with "0x", is read as its digit prefix by both parsers. */
  lemma ParseIntOfDigitStart(s: string)
    requires s != [] && IsDigit(s[0])
    ensures DigitPrefix(s) != [] && ParseIntDecimal(s) == Some(DigitsValue(DigitPrefix(s)))
    ensures !HexLed(s) ==> ParseInt(s) == Some(DigitsValue(DigitPrefix(s)))
  {
    assert !IsSpace(s[0]);
    assert TrimStart(s) == s;
  }

  /** parseInt(…, 10) reads back a printed number and stops at the first non-digit after it. */
  lemma ParseIntDecimalOfNatPrefix(n: nat, rest: string)
    requires rest == [] || !IsDigit(rest[0])
    ensures ParseIntDecimal(NatToString(n) + rest) == Some(n)
  {
    var d := NatToString(n);
    var s := d + rest;
    assert s[0] == d[0];
    ParseIntOfDigitStart(s);
    DigitPrefixOfDigits(d, rest);
    DigitsValueOfNat(n);
  }

  /** parseInt(…, 10) reads back a printed number. */
  lemma ParseIntDecimalOfNat(n: nat)
    ensures ParseIntDecimal(NatToString(n)) == Some(n)
  {
    assert NatToString(n) + "" == NatToString(n);
    ParseIntDecimalOfNatPrefix(n, "");
  }

  /** parseInt with no radix reads back a printed number: a printed number never starts with "0x". */
  lemma ParseIntOfNat(n: nat)
    ensures ParseInt(NatToString(n)) == Some(n)
  {
    var d := NatToString(n);
    assert !HexLed(d) by {
      if |d| >= 2 {
        assert IsDigit(d[1]);
      }
    }
    ParseIntOfDigitStart(d);
    assert d + "" == d;
    DigitPrefixOfDigits(d, "");
    DigitsValueOfNat(n);
  }

  /**
   * "0x" followed by hexadecimal digits: parseInt with no radix reads the
   * hexadecimal number, while parseInt(…, 10) stops at the 'x' and reads 0.
   */
  lemma ParseIntReadsHex(h: string)
    requires h != [] && AllIn(h, 16)
    ensures ParseInt("0x" + h) == Some(RadixValue(h, 16))
    ensures ParseIntDecimal("0x" + h) == Some(0)
  {
    var s := "0x" + h;
    assert !IsSpace(s[0]);
    assert TrimStart(s) == s;
    assert s[2..] == h;
    RadixPrefixOfDigits(h, 16);
    assert DigitPrefix(s) == "0" by {
      assert s[1..][0] == 'x';
      assert DigitPrefix(s[1..]) == "";
    }
    assert DigitsValue("0") == 0 by {
      assert "0"[..0] == "";
    }
  }

  /** The base a `Number` literal's second character selects after its leading '0'. */
  function LiteralRadix(c: char): Option<nat> {
    if c == 'x' || c == 'X' then Some(16)
    else if c == 'o' || c == 'O' then Some(8)
    else if c == 'b' || c == 'B' then Some(2)
    else None
  }

  /**
   * `Number(s)` restricted to integer literals: the trimmed text is empty
   * (giving 0), an optional sign followed by decimal digits, or an unsigned
   * hexadecimal, octal or binary literal ("0x1F", "0o17", "0b101"); anything
   * else is NaN, written None.
   */
  function ToNumber(s: string): Option<int> {
    var t := Trim(s);
    if t == [] then Some(0)
    else if (t[0] == '-' || t[0] == '+') && |t| > 1 && AllDigits(t[1..]) then
      Some(if t[0] == '-' then -(DigitsValue(t[1..]) as int) else DigitsValue(t[1..]))
    else if AllDigits(t) then Some(DigitsValue(t))
    else if |t| > 2 && t[0] == '0' && LiteralRadix(t[1]).Some? && AllIn(t[2..], LiteralRadix(t[1]).value) then
      Some(RadixValue(t[2..], LiteralRadix(t[1]).value))
    else None
  }

  /** `Number` reads a hexadecimal literal; a sign in front of it makes NaN. */
  lemma NumberOfHexLiteral(h: string)
    requires h != [] && AllIn(h, 16)
    ensures ToNumber("0x" + h) == Some(RadixValue(h, 16))
    ensures ToNumber("-0x" + h) == None
  {
    var s := "0x" + h;
    assert s[2..] == h;
    assert DigitIn(s[|s| - 1], 16).Some? && s[|s| - 1] == h[|h| - 1];
    TrimOfTrimmed(s);
    assert !AllDigits(s) by { assert !IsDigit(s[1]); }
    var m := "-0x" + h;
    assert m[|m| - 1] == h[|h| - 1];
    TrimOfTrimmed(m);
    assert !AllDigits(m[1..]) by { assert m[1..][1] == 'x'; }
    assert !AllDigits(m) by { assert !IsDigit(m[0]); }
  }

  /** `Number(String(i)) == i` */
  lemma NumberOfIntString(i: int)
    ensures ToNumber(IntToString(i)) == Some(i)
  {
    var s := IntToString(i);
    TrimOfTrimmed(s);
    if i < 0 {
      NumberOfNegativeString(i);
    } else {
      DigitsValueOfNat(i);
    }
  }

  /** The minus-sign case of NumberOfIntString. */
  lemma {:induction false} NumberOfNegativeString(i: int)
    requires i < 0
    ensures ToNumber(IntToString(i)) == Some(i)
  {
    var d := NatToString(-i);
    assert IntToString(i) == "-" + d;
    MinusDigitsTrimmed(d);
    NumberOfMinus("-" + d);
    DigitsValueOfNat(-i);
  }

  /** A minus sign followed by digits is its own trim. */
  lemma {:induction false} MinusDigitsTrimmed(d: string)
    requires d != [] && AllDigits(d)
    ensures |"-" + d| > 1 && ("-" + d)[0] == '-' && ("-" + d)[1..] == d && Trim("-" + d) == "-" + d
  {
    var s := "-" + d;
    assert s[|s| - 1] == d[|d| - 1];
    assert s[1..] == d;
    TrimOfTrimmed(s);
  }

  /** A trimmed '-' followed by digits reads as the negated digits. */
  lemma {:induction false} NumberOfMinus(s: string)
    requires |s| > 1 && s[0] == '-' && Trim(s) == s && AllDigits(s[1..])
    ensures ToNumber(s) == Some(-(DigitsValue(s[1..]) as int))
  {
  }

  /** A string that begins with a letter is not a number. */
  lemma NumberOfLetterLed(s: string)
    requires s != [] && 'a' <= s[0] <= 'z'
    ensures ToNumber(s) == None
  {
    TrimKeepsFirst(s);
    var t := Trim(s);
    assert !IsDigit(t[0]) && t[0] != '0';
  }
}
