/**
 * The string primitives of Python and JavaScript that the modelled code
 * relies on: whitespace classes, strip/trim, ASCII case folding, digit
 * strings and substring search.
 */
module Text {
  import opened Wrappers

  /** Python's str.isspace(), which is also what `\s` matches in `re` on str patterns. */
  predicate IsPySpace(c: char)
  {
    var n := c as int;
    (9 <= n <= 13) || (28 <= n <= 32) || n == 0x85 || n == 0xA0 || n == 0x1680
    || (0x2000 <= n <= 0x200A) || n == 0x2028 || n == 0x2029 || n == 0x202F
    || n == 0x205F || n == 0x3000
  }

  /** The characters JavaScript's String.prototype.trim() removes. */
  predicate IsJsSpace(c: char)
  {
    var n := c as int;
    (9 <= n <= 13) || n == 32 || n == 0xA0 || n == 0x1680 || (0x2000 <= n <= 0x200A)
    || n == 0x2028 || n == 0x2029 || n == 0x202F || n == 0x205F || n == 0x3000 || n == 0xFEFF
  }

  predicate AllSpace(s: string, ws: char -> bool)
  {
    forall i :: 0 <= i < |s| ==> ws(s[i])
  }

  /** Removes trailing characters of class `ws`: the result is the longest prefix not ending in one. */
  function TrimEnd(s: string, ws: char -> bool): (r: string)
    ensures r <= s
    ensures r == [] || !ws(r[|r| - 1])
    ensures forall i :: |r| <= i < |s| ==> ws(s[i])
  {
    if s == [] || !ws(s[|s| - 1]) then s else TrimEnd(s[..|s| - 1], ws)
  }

  /** Removes leading characters of class `ws`: the result is the longest suffix not starting with one. */
  function TrimStart(s: string, ws: char -> bool): (r: string)
    ensures |r| <= |s| && r == s[|s| - |r|..]
    ensures r == [] || !ws(r[0])
    ensures forall i :: 0 <= i < |s| - |r| ==> ws(s[i])
  {
    if s == [] || !ws(s[0]) then s else TrimStart(s[1..], ws)
  }

  function Trim(s: string, ws: char -> bool): (r: string)
    ensures |r| <= |s|
    ensures r == [] || (!ws(r[0]) && !ws(r[|r| - 1]))
  {
    TrimStart(TrimEnd(s, ws), ws)
  }

  /** Python's str.strip() with no argument. */
  function PyStrip(s: string): string { Trim(s, IsPySpace) }

  /** Python's str.rstrip() with no argument. */
  function PyRStrip(s: string): string { TrimEnd(s, IsPySpace) }

  /** rstrip() of whitespace alone is empty. */
  lemma RStripAllSpace(s: string)
    requires AllSpace(s, IsPySpace)
    ensures PyRStrip(s) == []
  {
    var r := PyRStrip(s);
    assert forall i :: 0 <= i < |r| ==> r[i] == s[i];
  }

  /** rstrip() leaves text that does not end in whitespace unchanged. */
  lemma RStripKeeps(s: string)
    requires s != [] && !IsPySpace(s[|s| - 1])
    ensures PyRStrip(s) == s
  {
  }

  /** JavaScript's String.prototype.trim(). */
  function JsTrim(s: string): string { Trim(s, IsJsSpace) }

  /** Trimming yields the empty string exactly when every character is whitespace. */
  lemma {:induction false} TrimEmptyIffAllSpace(s: string, ws: char -> bool)
    ensures Trim(s, ws) == [] <==> AllSpace(s, ws)
  {
    var e := TrimEnd(s, ws);
    if e == [] {
    } else {
      assert !ws(e[|e| - 1]) && e[|e| - 1] == s[|e| - 1];
    }
  }

  predicate IsUpperAscii(c: char) { 'A' <= c <= 'Z' }
  predicate IsLowerAscii(c: char) { 'a' <= c <= 'z' }
  predicate IsDigitAscii(c: char) { '0' <= c <= '9' }

  function LowerChar(c: char): char
  {
    if IsUpperAscii(c) then (c as int + 32) as char else c
  }

  /** Case folding, on the ASCII letters only. */
  function Lower(s: string): (r: string)
    ensures |r| == |s|
    ensures forall i :: 0 <= i < |s| ==> r[i] == LowerChar(s[i])
  {
    if s == [] then [] else [LowerChar(s[0])] + Lower(s[1..])
  }

  /** Text without capitals is its own lower-case form. */
  lemma LowerKeepsLower(s: string)
    requires forall i :: 0 <= i < |s| ==> !IsUpperAscii(s[i])
    ensures Lower(s) == s
  {
  }

  /** Python's str.isdigit() on ASCII: non-empty and digits only. */
  predicate IsDigits(s: string)
  {
    |s| > 0 && forall i :: 0 <= i < |s| ==> IsDigitAscii(s[i])
  }

  /** The value of a string of decimal digits. */
  function DigitsValue(s: string): (n: nat)
    requires forall i :: 0 <= i < |s| ==> IsDigitAscii(s[i])
  {
    if s == [] then 0
    else
      assert IsDigitAscii(s[|s| - 1]);
      DigitsValue(s[..|s| - 1]) * 10 + (s[|s| - 1] as int - '0' as int)
  }

  function DigitChar(d: nat): (c: char)
    requires d < 10
    ensures IsDigitAscii(c) && c as int - '0' as int == d
  {
    ('0' as int + d) as char
  }

  /** Python's str() of a non-negative int: its decimal digits, which int() reads back. */
  function NatDigits(n: nat): (s: string)
    ensures IsDigits(s) && DigitsValue(s) == n
  {
    if n < 10 then [DigitChar(n)]
    else
      var s := NatDigits(n / 10) + [DigitChar(n % 10)];
      assert s[..|s| - 1] == NatDigits(n / 10);
      s
  }

  /** Python's str() of an int. */
  function IntText(i: int): string
  {
    if i < 0 then "-" + NatDigits(-i) else NatDigits(i)
  }

  /** Stripping removes nothing from text that neither starts nor ends in whitespace. */
  lemma StripKeeps(s: string)
    requires s != [] && !IsPySpace(s[0]) && !IsPySpace(s[|s| - 1])
    ensures PyStrip(s) == s
  {
  }

  /** Python's int() on a string: surrounding whitespace, an optional sign, then decimal digits. */
  function PyInt(s: string): (r: Option<int>)
    ensures r.Some? ==> |PyStrip(s)| > 0
  {
    var t := PyStrip(s);
    if |t| > 0 && (t[0] == '+' || t[0] == '-') then
      if IsDigits(t[1..]) then
        Some(if t[0] == '-' then -(DigitsValue(t[1..]) as int) else DigitsValue(t[1..]))
      else None
    else if IsDigits(t) then Some(DigitsValue(t))
    else None
  }

  /** Substring test (Python `in` on str, JavaScript `includes`). */
  predicate Contains(s: string, sub: string)
    decreases |s|
  {
    sub <= s || (|s| > 0 && Contains(s[1..], sub))
  }

  lemma {:induction false} ContainsAt(s: string, sub: string, i: nat)
    requires i + |sub| <= |s| && s[i..i + |sub|] == sub
    ensures Contains(s, sub)
  {
    if i > 0 {
      assert s[1..][i - 1..i - 1 + |sub|] == s[i..i + |sub|];
      ContainsAt(s[1..], sub, i - 1);
    }
  }

  /** The leading run of ASCII digits. */
  function DigitPrefix(s: string): (d: string)
    ensures d <= s && forall i :: 0 <= i < |d| ==> IsDigitAscii(d[i])
    ensures |d| < |s| ==> !IsDigitAscii(s[|d|])
  {
    if s == [] || !IsDigitAscii(s[0]) then [] else [s[0]] + DigitPrefix(s[1..])
  }

  /** parseInt(s) in base 10: leading whitespace, an optional sign, then the longest run of digits; None is NaN. */
  function JsParseInt(s: string): (r: Option<int>)
  {
    var t := TrimStart(s, IsJsSpace);
    var neg := |t| > 0 && t[0] == '-';
    var body := if |t| > 0 && (t[0] == '-' || t[0] == '+') then t[1..] else t;
    var d := DigitPrefix(body);
    if d == [] then None else Some(if neg then -(DigitsValue(d) as int) else DigitsValue(d))
  }

  /** parseInt reads back the decimal text of a non-negative number. */
  lemma ParseIntOfDigits(n: nat)
    ensures JsParseInt(NatDigits(n)) == Some(n)
  {
    ParseIntPlain(NatDigits(n));
  }

  /** Plain decimal digits parse to their value. */
  lemma ParseIntPlain(s: string)
    requires IsDigits(s)
    ensures JsParseInt(s) == Some(DigitsValue(s))
  {
    assert IsDigitAscii(s[0]);
    assert s[0] != '-' && s[0] != '+';
    assert TrimStart(s, IsJsSpace) == s;
    assert DigitPrefix(s) == s by {
      DigitPrefixAll(s);
    }
  }

  lemma {:induction false} DigitPrefixAll(s: string)
    requires forall i :: 0 <= i < |s| ==> IsDigitAscii(s[i])
    ensures DigitPrefix(s) == s
  {
    if s != [] {
      DigitPrefixAll(s[1..]);
    }
  }

  /** Case-insensitive substring test: `s.toLowerCase().includes(term.toLowerCase())`. */
  predicate ContainsIgnoringCase(s: string, term: string)
  {
    Contains(Lower(s), Lower(term))
  }

  /** Lower-casing twice is lower-casing once. */
  lemma LowerIdempotent(s: string)
    ensures Lower(Lower(s)) == Lower(s)
  {
    assert forall i :: 0 <= i < |s| ==> LowerChar(LowerChar(s[i])) == LowerChar(s[i]);
  }

  /** Every text contains the empty term. */
  lemma ContainsEmpty(s: string)
    ensures ContainsIgnoringCase(s, "")
  {
    ContainsAt(Lower(s), "", 0);
  }
}
