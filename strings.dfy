/**
 * The JavaScript string operations the engine-output parser relies on: `startsWith`,
 * `includes`, `split`, `indexOf` on the token array, `parseInt`, and integer-to-text.
 */
module Strings {
  import opened Wrappers

  predicate StartsWith(s: string, prefix: string) {
    |prefix| <= |s| && s[..|prefix|] == prefix
  }

  /** `s.includes(sub)`. */
  predicate Contains(s: string, sub: string)
    decreases |s|
  {
    StartsWith(s, sub) || (|s| > 0 && Contains(s[1..], sub))
  }

  /** `s.split(sep)`: empty pieces are kept, so the result is never empty. */
  function Split(s: string, sep: char): (parts: seq<string>)
    ensures |parts| >= 1
    ensures forall i :: 0 <= i < |parts| ==> sep !in parts[i]
    decreases |s|
  {
    if s == [] then [""]
    else
      var rest := Split(s[1..], sep);
      if s[0] == sep then [""] + rest else [[s[0]] + rest[0]] + rest[1..]
  }

  /** `parts.join(sep)`. */
  function Join(parts: seq<string>, sep: char): string
    decreases |parts|
  {
    if parts == [] then ""
    else if |parts| == 1 then parts[0]
    else parts[0] + [sep] + Join(parts[1..], sep)
  }

  /** Splitting loses nothing: joining the pieces back gives the original string. */
  lemma {:induction false} JoinSplit(s: string, sep: char)
    ensures Join(Split(s, sep), sep) == s
    decreases |s|
  {
    if s != [] {
      var rest := Split(s[1..], sep);
      JoinSplit(s[1..], sep);
      if s[0] == sep {
        assert ([""] + rest)[1..] == rest;
      } else if |rest| > 1 {
        var parts := [[s[0]] + rest[0]] + rest[1..];
        assert parts[1..] == rest[1..];
        assert Join(rest, sep) == rest[0] + [sep] + Join(rest[1..], sep);
      }
    }
  }

  /** `parts.indexOf(x)`: the first position holding `x`, or -1. */
  function IndexOf(parts: seq<string>, x: string): (k: int)
    ensures -1 <= k < |parts|
    ensures k == -1 <==> x !in parts
    ensures 0 <= k ==> parts[k] == x && x !in parts[..k]
    decreases |parts|
  {
    if parts == [] then -1
    else if parts[0] == x then 0
    else
      var k := IndexOf(parts[1..], x);
      assert k >= 0 ==> parts[..k + 1] == [parts[0]] + parts[1..][..k];
      if k == -1 then -1 else k + 1
  }

  /** The characters `parseInt` skips before a number (ECMAScript white space and line terminators). */
  predicate IsJsWhitespace(c: char) {
    c == '\t' || c == '\n' || c == '\U{B}' || c == '\U{C}' || c == '\r' || c == ' ' ||
    c == '\U{A0}' || c == '\U{1680}' || ('\U{2000}' <= c <= '\U{200A}') ||
    c == '\U{2028}' || c == '\U{2029}' || c == '\U{202F}' || c == '\U{205F}' || c == '\U{3000}' || c == '\U{FEFF}'
  }

  function TrimStart(s: string): string
    decreases |s|
  {
    if s != [] && IsJsWhitespace(s[0]) then TrimStart(s[1..]) else s
  }

  /** The value of a digit character in bases up to 16, or 16 for a non-digit. */
  function DigitOf(c: char): nat {
    if '0' <= c <= '9' then c as int - '0' as int
    else if 'a' <= c <= 'f' then c as int - 'a' as int + 10
    else if 'A' <= c <= 'F' then c as int - 'A' as int + 10
    else 16
  }

  /** Length of the longest prefix made of digits of the given radix. */
  function DigitRun(s: string, radix: nat): (n: nat)
    ensures n <= |s|
    ensures forall i :: 0 <= i < n ==> DigitOf(s[i]) < radix
    ensures n < |s| ==> DigitOf(s[n]) >= radix
    decreases |s|
  {
    if s != [] && DigitOf(s[0]) < radix then 1 + DigitRun(s[1..], radix) else 0
  }

  /** The number written by `s` in the given radix, most significant digit first. */
  function RadixValue(s: string, radix: nat): nat
    requires forall i :: 0 <= i < |s| ==> DigitOf(s[i]) < radix
    decreases |s|
  {
    if s == [] then 0 else RadixValue(s[..|s| - 1], radix) * radix + DigitOf(s[|s| - 1])
  }

  /**
   * `parseInt(token)` without a radix: skip leading white space, take an optional sign, then a
   * `0x`/`0X` prefix selects hexadecimal; the longest digit prefix is read and the rest ignored.
   * No digit at all gives NaN, here None.
   */
  function ParseInt(token: string): (r: Option<int>)
    ensures r.Some? ==> DigitRun(ParseBody(token), ParseRadix(token)) > 0
  {
    var digits, radix := ParseBody(token), ParseRadix(token);
    var n := DigitRun(digits, radix);
    if n == 0 then None
    else
      var v: int := RadixValue(digits[..n], radix);
      Some(if ParseNegative(token) then -v else v)
  }

  function Unsigned(token: string): string {
    var t := TrimStart(token);
    if |t| > 0 && (t[0] == '-' || t[0] == '+') then t[1..] else t
  }

  predicate ParseNegative(token: string) {
    var t := TrimStart(token);
    |t| > 0 && t[0] == '-'
  }

  predicate HexPrefixed(body: string) {
    |body| >= 2 && body[0] == '0' && (body[1] == 'x' || body[1] == 'X')
  }

  function ParseRadix(token: string): nat {
    if HexPrefixed(Unsigned(token)) then 16 else 10
  }

  function ParseBody(token: string): string {
    var body := Unsigned(token);
    if HexPrefixed(body) then body[2..] else body
  }

  function DigitChar(d: nat): (c: char)
    requires d < 10
    ensures '0' <= c <= '9' && DigitOf(c) == d
  {
    ('0' as int + d) as char
  }

  /** Decimal text of a natural number, without leading zeros. */
  function NatToString(n: nat): (s: string)
    ensures |s| >= 1 && forall i :: 0 <= i < |s| ==> '0' <= s[i] <= '9'
    ensures |s| > 1 ==> s[0] != '0'
    decreases n
  {
    if n < 10 then [DigitChar(n)] else NatToString(n / 10) + [DigitChar(n % 10)]
  }

  /** Decimal text of an integer, with a leading minus sign when negative. */
  function IntToString(n: int): string {
    if n < 0 then "-" + NatToString(-n) else NatToString(n)
  }

  lemma {:induction false} NatToStringValue(n: nat)
    ensures forall i :: 0 <= i < |NatToString(n)| ==> DigitOf(NatToString(n)[i]) < 10
    ensures RadixValue(NatToString(n), 10) == n
    decreases n
  {
    var s := NatToString(n);
    if n >= 10 {
      NatToStringValue(n / 10);
      assert s[..|s| - 1] == NatToString(n / 10);
    }
  }

  /** Integer-to-text starts with no white space, and its only sign is a leading minus. */
  lemma IntTextShape(n: int)
    ensures TrimStart(IntToString(n)) == IntToString(n)
    ensures Unsigned(IntToString(n)) == NatToString(if n < 0 then -n else n)
    ensures ParseNegative(IntToString(n)) <==> n < 0
  {
    var m: nat := if n < 0 then -n else n;
    var text := IntToString(n);
    assert '0' <= NatToString(m)[0] <= '9';
    assert !IsJsWhitespace(text[0]);
    if n < 0 {
      assert text[1..] == NatToString(m);
    }
  }

  /** Decimal text never carries a hexadecimal prefix. */
  lemma DecimalNotHex(n: nat)
    ensures !HexPrefixed(NatToString(n))
  {
    var digits := NatToString(n);
    if |digits| >= 2 {
      assert '0' <= digits[1] <= '9';
    }
  }

  /** `parseInt` reads back exactly the number that integer-to-text wrote. */
  lemma ParseIntToString(n: int)
    ensures ParseInt(IntToString(n)) == Some(n)
  {
    var m: nat := if n < 0 then -n else n;
    var digits := NatToString(m);
    IntTextShape(n);
    DecimalNotHex(m);
    assert ParseBody(IntToString(n)) == digits && ParseRadix(IntToString(n)) == 10;
    NatToStringValue(m);
    DigitRunAll(digits, 10);
    assert digits[..|digits|] == digits;
  }

  /** `parseInt` stops at the first character that is not a digit: text after a number is ignored. */
  lemma ParseIntIgnoresTrailing(n: int, t: string)
    requires t == [] || (DigitOf(t[0]) >= 10 && (n != 0 || (t[0] != 'x' && t[0] != 'X')))
    ensures ParseInt(IntToString(n) + t) == Some(n)
  {
    var m: nat := if n < 0 then -n else n;
    var digits := NatToString(m);
    var text := IntToString(n) + t;
    SignedTextAppend(n, t);
    DigitsThenNonDigit(m, t);
    assert ParseBody(text) == digits + t && ParseRadix(text) == 10;
    NatToStringValue(m);
    DigitRunPrefix(digits, t, 10);
    assert (digits + t)[..|digits|] == digits;
  }

  /** Text after a printed integer does not change where its sign and digits are read. */
  lemma SignedTextAppend(n: int, t: string)
    ensures Unsigned(IntToString(n) + t) == NatToString(if n < 0 then -n else n) + t
    ensures ParseNegative(IntToString(n) + t) <==> n < 0
  {
    var m: nat := if n < 0 then -n else n;
    var digits := NatToString(m);
    if n < 0 {
      assert IntToString(n) + t == "-" + (digits + t);
      SignedDigits(digits + t, true);
    } else {
      SignedDigits(digits + t, false);
    }
  }

  lemma SignedDigits(body: string, negative: bool)
    requires body != [] && '0' <= body[0] <= '9'
    ensures var text := (if negative then "-" else "") + body;
      Unsigned(text) == body && (ParseNegative(text) <==> negative)
  {
    var text := (if negative then "-" else "") + body;
    NoSpaceStart(text);
    if negative {
      assert text[1..] == body;
    } else {
      assert text == body;
    }
  }

  lemma NoSpaceStart(s: string)
    requires s != [] && (s[0] == '-' || '0' <= s[0] <= '9')
    ensures TrimStart(s) == s
  {
    assert !IsJsWhitespace(s[0]);
  }

  /** Decimal digits followed by anything but `x`/`X` after a lone zero carry no hexadecimal prefix. */
  lemma DigitsThenNonDigit(m: nat, t: string)
    requires t == [] || (DigitOf(t[0]) >= 10 && (m != 0 || (t[0] != 'x' && t[0] != 'X')))
    ensures !HexPrefixed(NatToString(m) + t)
  {
    var digits := NatToString(m);
    if |digits| >= 2 {
      assert (digits + t)[1] == digits[1];
    } else if t != [] {
      assert digits == [DigitChar(m)];
      assert (digits + t)[1] == t[0];
    }
  }

  /** A `0x` prefix reads the hexadecimal digits that follow it, up to the first non-digit. */
  lemma ParseIntHex(h: string, t: string)
    requires |h| > 0 && forall i :: 0 <= i < |h| ==> DigitOf(h[i]) < 16
    requires t == [] || DigitOf(t[0]) >= 16
    ensures ParseInt("0x" + h + t) == Some(RadixValue(h, 16))
  {
    HexText(h + t);
    assert "0x" + h + t == "0x" + (h + t);
    DigitRunPrefix(h, t, 16);
    assert (h + t)[..|h|] == h;
  }

  lemma HexText(body: string)
    ensures ParseBody("0x" + body) == body && ParseRadix("0x" + body) == 16
    ensures !ParseNegative("0x" + body)
  {
    var text := "0x" + body;
    assert text[0] == '0' && text[1] == 'x' && text[2..] == body;
    NoSpaceStart(text);
  }

  /** A token without any decimal digit is NaN, since a hexadecimal prefix needs a `0`. */
  lemma ParseIntNaN(s: string)
    requires forall i :: 0 <= i < |s| ==> !('0' <= s[i] <= '9')
    ensures ParseInt(s) == None
  {
    var t := TrimStart(s);
    TrimStartSuffix(s);
    assert t != [] ==> t[0] == s[|s| - |t|];
    assert |t| >= 2 ==> t[1] == s[|s| - |t| + 1];
    var body := Unsigned(s);
    assert body != [] ==> !('0' <= body[0] <= '9');
    assert !HexPrefixed(body);
    assert ParseBody(s) == body && ParseRadix(s) == 10;
    assert body != [] ==> DigitOf(body[0]) >= 10;
  }

  /** White-space trimming only drops characters from the front. */
  lemma {:induction false} TrimStartSuffix(s: string)
    ensures |TrimStart(s)| <= |s| && TrimStart(s) == s[|s| - |TrimStart(s)|..]
    decreases |s|
  {
    if s != [] && IsJsWhitespace(s[0]) {
      TrimStartSuffix(s[1..]);
    }
  }

  /** The digit run of digits followed by a non-digit is exactly those digits. */
  lemma {:induction false} DigitRunPrefix(s: string, t: string, radix: nat)
    requires forall i :: 0 <= i < |s| ==> DigitOf(s[i]) < radix
    requires t == [] || DigitOf(t[0]) >= radix
    ensures DigitRun(s + t, radix) == |s|
    decreases |s|
  {
    if s == [] {
      assert s + t == t;
    } else {
      assert (s + t)[1..] == s[1..] + t;
      DigitRunPrefix(s[1..], t, radix);
    }
  }

  /** A string without the separator is a single piece. */
  lemma {:induction false} SplitNoSep(a: string, sep: char)
    requires sep !in a
    ensures Split(a, sep) == [a]
    decreases |a|
  {
    if a != [] {
      SplitNoSep(a[1..], sep);
      assert [a[0]] + a[1..] == a;
    }
  }

  /** The first separator ends the first piece. */
  lemma {:induction false} SplitAppend(a: string, b: string, sep: char)
    requires sep !in a
    ensures Split(a + [sep] + b, sep) == [a] + Split(b, sep)
    decreases |a|
  {
    var s := a + [sep] + b;
    if a == [] {
      assert s[1..] == b;
    } else {
      assert s[1..] == a[1..] + [sep] + b;
      SplitAppend(a[1..], b, sep);
      assert [a[0]] + a[1..] == a;
    }
  }

  /** Splitting undoes joining when no piece contains the separator. */
  lemma {:induction false} SplitJoin(parts: seq<string>, sep: char)
    requires |parts| >= 1 && forall i :: 0 <= i < |parts| ==> sep !in parts[i]
    ensures Split(Join(parts, sep), sep) == parts
    decreases |parts|
  {
    if |parts| == 1 {
      SplitNoSep(parts[0], sep);
    } else {
      SplitJoin(parts[1..], sep);
      SplitAppend(parts[0], Join(parts[1..], sep), sep);
      assert [parts[0]] + parts[1..] == parts;
    }
  }

  lemma {:induction false} DigitRunAll(s: string, radix: nat)
    requires forall i :: 0 <= i < |s| ==> DigitOf(s[i]) < radix
    ensures DigitRun(s, radix) == |s|
    decreases |s|
  {
    if s != [] {
      DigitRunAll(s[1..], radix);
    }
  }
}
