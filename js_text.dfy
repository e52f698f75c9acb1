/** The few JavaScript string built-ins the apps lean on, written out: `Number.parseInt`
    on a decimal string, the decimal text of an integer (what `"" + n` and assigning a
    number to an input box produce), `toLowerCase` on ASCII letters, and the `<` / `>`
    order on strings. */
module JsText {

  /** What `Number.parseInt` can return: an integer or NaN. */
  datatype Parsed = Num(n: int) | NaN

  predicate IsDigit(c: char) {
    '0' <= c <= '9'
  }

  /** The white space `parseInt` skips before the number. */
  predicate IsSpace(c: char) {
    c == ' ' || c == '\t' || c == '\n' || c == '\r' || c == '\U{000B}' || c == '\U{000C}'
    || c == '\U{00A0}' || c == '\U{FEFF}'
  }

  predicate AllDigits(s: string) {
    forall i :: 0 <= i < |s| ==> IsDigit(s[i])
  }

  function DigitChar(d: nat): (c: char)
    requires d < 10
    ensures IsDigit(c)
  {
    ('0' as int + d) as char
  }

  /** The value of a string of decimal digits, most significant first. */
  function Value(ds: string): nat
    requires AllDigits(ds)
  {
    if ds == [] then 0 else Value(ds[..|ds| - 1]) * 10 + (ds[|ds| - 1] as int - '0' as int)
  }

  /** The decimal text of a natural number, without leading zeros. */
  function Digits(n: nat): (s: string)
    ensures s != [] && AllDigits(s)
  {
    if n < 10 then [DigitChar(n)] else Digits(n / 10) + [DigitChar(n % 10)]
  }

  /** The decimal text of an integer, with a `-` in front when it is negative. */
  function IntToString(i: int): string {
    if i < 0 then "-" + Digits(-i) else Digits(i)
  }

  /** Leading white space dropped. */
  function SkipSpace(s: string): (r: string)
    ensures |r| <= |s| && r == s[|s| - |r|..]
    ensures r == [] || !IsSpace(r[0])
  {
    if s != [] && IsSpace(s[0]) then SkipSpace(s[1..]) else s
  }

  /** The length of the run of digits `s` starts with. */
  function DigitRun(s: string): (k: nat)
    ensures k <= |s| && AllDigits(s[..k])
    ensures k < |s| ==> !IsDigit(s[k])
  {
    if s != [] && IsDigit(s[0]) then
      var k := 1 + DigitRun(s[1..]);
      assert s[..k] == [s[0]] + s[1..][..k - 1];
      k
    else 0
  }

  /** `Number.parseInt(s)` with no radix: white space skipped, an optional sign, then
      the longest run of decimal digits; NaN when that run is empty. Whatever follows the
      digits is ignored. */
  function ParseInt(s: string): Parsed {
    ParseSigned(SkipSpace(s))
  }

  /** The part of `ParseInt` after the white space. */
  function ParseSigned(t: string): Parsed {
    var negative := t != [] && t[0] == '-';
    var u := if t != [] && (t[0] == '-' || t[0] == '+') then t[1..] else t;
    var k := DigitRun(u);
    var v: int := if k == 0 then 0 else Value(u[..k]);
    if k == 0 then NaN
    else if negative then Num(-v)
    else Num(v)
  }

  lemma {:induction false} ValueOfDigits(n: nat)
    ensures Value(Digits(n)) == n
  {
    if n >= 10 {
      ValueOfDigits(n / 10);
      var s := Digits(n);
      assert s[..|s| - 1] == Digits(n / 10);
    }
  }

  lemma {:induction false} DigitRunOf(ds: string, rest: string)
    requires AllDigits(ds)
    requires rest == [] || !IsDigit(rest[0])
    ensures DigitRun(ds + rest) == |ds|
  {
    if ds != [] {
      assert (ds + rest)[1..] == ds[1..] + rest;
      DigitRunOf(ds[1..], rest);
    } else {
      assert ds + rest == rest;
    }
  }

  /** A digit run followed by a non-digit reads as its value. */
  lemma UnsignedRead(ds: string, rest: string)
    requires ds != [] && AllDigits(ds)
    requires rest == [] || !IsDigit(rest[0])
    ensures ParseSigned(ds + rest) == Num(Value(ds))
  {
    DigitRunOf(ds, rest);
    assert (ds + rest)[..|ds|] == ds;
  }

  lemma NegativeRead(ds: string, rest: string)
    requires ds != [] && AllDigits(ds)
    requires rest == [] || !IsDigit(rest[0])
    ensures ParseSigned("-" + ds + rest) == Num(0 - Value(ds))
  {
    var t := "-" + ds + rest;
    assert t[0] == '-' && t[1..] == ds + rest;
    UnsignedRead(ds, rest);
  }

  /** Reading back the text of an integer gives the integer, whatever non-digit text
      follows it: `parseInt(String(i) + "px") == i`. */
  lemma ParseIntOfText(i: int, rest: string)
    requires rest == [] || !IsDigit(rest[0])
    ensures ParseInt(IntToString(i) + rest) == Num(i)
  {
    if i < 0 {
      NegativeText(i, rest);
    } else {
      UnsignedText(i, rest);
    }
  }

  lemma NegativeText(i: int, rest: string)
    requires i < 0 && (rest == [] || !IsDigit(rest[0]))
    ensures ParseInt(IntToString(i) + rest) == Num(i)
  {
    var ds := Digits(-i);
    ValueOfDigits(-i);
    NothingToSkip("-" + ds + rest);
    NegativeRead(ds, rest);
  }

  lemma UnsignedText(i: int, rest: string)
    requires i >= 0 && (rest == [] || !IsDigit(rest[0]))
    ensures ParseInt(IntToString(i) + rest) == Num(i)
  {
    var ds := Digits(i);
    ValueOfDigits(i);
    assert (ds + rest)[0] == ds[0];
    NothingToSkip(ds + rest);
    UnsignedRead(ds, rest);
  }

  /** Text that starts with a sign or a digit has no white space to skip. */
  lemma NothingToSkip(s: string)
    requires s != [] && (s[0] == '-' || IsDigit(s[0]))
    ensures ParseInt(s) == ParseSigned(s)
  {
  }

  /** The decimal text tells integers apart. */
  lemma IntToStringInjective(i: int, j: int)
    requires IntToString(i) == IntToString(j)
    ensures i == j
  {
    ParseIntOfWhole(i);
    ParseIntOfWhole(j);
  }

  /** The text of an integer on its own reads back as the integer. */
  lemma ParseIntOfWhole(i: int)
    ensures ParseInt(IntToString(i)) == Num(i)
  {
    ParseIntOfText(i, "");
    NothingAppended(IntToString(i));
  }

  /** Stated for any element type, so that the text's characters are not looked into. */
  lemma NothingAppended<T>(s: seq<T>)
    ensures s + [] == s
  {
  }

  /** Text that does not start, after white space and a sign, with a digit is NaN; the
      empty box is NaN. */
  lemma ParseIntNaN(s: string)
    requires var t := SkipSpace(s);
      var u := if t != [] && (t[0] == '-' || t[0] == '+') then t[1..] else t;
      u == [] || !IsDigit(u[0])
    ensures ParseInt(s) == NaN
  {
  }

  /** `toLowerCase` on one character; only the ASCII capitals change. */
  function LowerChar(c: char): char {
    if 'A' <= c <= 'Z' then (c as int + 32) as char else c
  }

  function Lower(s: string): (r: string)
    ensures |r| == |s|
  {
    seq(|s|, i requires 0 <= i < |s| => LowerChar(s[i]))
  }

  /** JavaScript's `a < b` on strings: the first differing character decides, and a
      proper prefix comes first. */
  predicate StringLess(a: string, b: string) {
    if b == [] then false
    else if a == [] then true
    else if a[0] != b[0] then a[0] < b[0]
    else StringLess(a[1..], b[1..])
  }

  /** The string order is a strict total order: exactly one of `a < b`, `a == b`,
      `b < a` holds. */
  lemma {:induction false} StringTrichotomy(a: string, b: string)
    ensures StringLess(a, b) || a == b || StringLess(b, a)
    ensures !(StringLess(a, b) && StringLess(b, a))
    ensures !StringLess(a, a)
  {
    if a != [] && b != [] && a[0] == b[0] {
      StringTrichotomy(a[1..], b[1..]);
      if a[1..] == b[1..] {
        assert a == [a[0]] + a[1..] && b == [b[0]] + b[1..];
      }
    }
    if a != [] {
      StringTrichotomy(a[1..], a[1..]);
    }
  }

  lemma {:induction false} StringLessTransitive(a: string, b: string, c: string)
    requires StringLess(a, b) && StringLess(b, c)
    ensures StringLess(a, c)
  {
    if a != [] && a[0] == b[0] && b[0] == c[0] {
      StringLessTransitive(a[1..], b[1..], c[1..]);
    }
  }
}
