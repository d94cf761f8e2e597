/**
 * The pieces of Python's string and integer semantics that the bot relies on:
 * truthiness of optional strings, `str.strip`, `str.lstrip(c)`, `str.startswith`,
 * `str(int)`, `format(int, ',')` and `int(str)`.
 */
module PyText {
  import opened Wrappers

  // ---------------------------------------------------------------------------
  // Truthiness and prefixes
  // ---------------------------------------------------------------------------

  /** An optional string is truthy in Python when it is present and non-empty. */
  predicate Truthy(o: Option<string>) {
    o.Some? && o.value != ""
  }

  /** An optional integer is truthy when it is present and non-zero. */
  predicate TruthyInt(o: Option<int>) {
    o.Some? && o.value != 0
  }

  /** Python's `s.startswith(p)`. */
  predicate StartsWith(s: string, p: string) {
    |p| <= |s| && s[..|p|] == p
  }

  /** The concatenation of text segments, in order: what repeated `text += seg` builds. */
  function Concat(segs: seq<string>): string {
    if segs == [] then "" else Concat(segs[..|segs| - 1]) + segs[|segs| - 1]
  }

  lemma {:induction false} ConcatAppend(segs: seq<string>, s: string)
    ensures Concat(segs + [s]) == Concat(segs) + s
  {
    assert (segs + [s])[..|segs|] == segs;
  }

  // ---------------------------------------------------------------------------
  // Whitespace stripping
  // ---------------------------------------------------------------------------

  /** Python's `str.isspace()` for one character. */
  predicate IsSpace(c: char) {
    c == ' ' || ('\t' <= c <= '\r') || ('\U{1C}' <= c <= '\U{1F}') || c == '\U{85}' || c == '\U{A0}'
    || c == '\U{1680}' || ('\U{2000}' <= c <= '\U{200A}') || c == '\U{2028}' || c == '\U{2029}'
    || c == '\U{202F}' || c == '\U{205F}' || c == '\U{3000}'
  }

  /** `s.lstrip()`: drops the leading whitespace and nothing else. */
  function LStrip(s: string): (r: string)
    ensures |r| <= |s| && r == s[|s| - |r|..]
    ensures r == [] || !IsSpace(r[0])
    ensures forall i :: 0 <= i < |s| - |r| ==> IsSpace(s[i])
  {
    if s != [] && IsSpace(s[0]) then
      var r := LStrip(s[1..]);
      assert forall i :: 1 <= i < |s| - |r| ==> s[i] == s[1..][i - 1];
      r
    else s
  }

  /** `s.rstrip()`: drops the trailing whitespace and nothing else. */
  function RStrip(s: string): (r: string)
    ensures |r| <= |s| && r == s[..|r|]
    ensures r == [] || !IsSpace(r[|r| - 1])
    ensures forall i :: |r| <= i < |s| ==> IsSpace(s[i])
  {
    if s != [] && IsSpace(s[|s| - 1]) then
      var r := RStrip(s[..|s| - 1]);
      assert forall i :: |r| <= i < |s| - 1 ==> s[i] == s[..|s| - 1][i];
      r
    else s
  }

  /** `s.strip()`: a slice of `s` that neither starts nor ends with whitespace. */
  function Strip(s: string): (r: string)
    ensures |r| <= |s|
    ensures r == [] || (!IsSpace(r[0]) && !IsSpace(r[|r| - 1]))
  {
    var l := LStrip(s);
    var r := RStrip(l);
    assert r != [] ==> r[0] == l[0];
    r
  }

  /** A string with no whitespace at either end is its own strip. */
  lemma {:induction false} StripNoop(s: string)
    requires s == [] || (!IsSpace(s[0]) && !IsSpace(s[|s| - 1]))
    ensures Strip(s) == s
  {
  }

  /** Stripping twice is stripping once. */
  lemma {:induction false} StripIdempotent(s: string)
    ensures Strip(Strip(s)) == Strip(s)
  {
    StripNoop(Strip(s));
  }

  /** `s.lstrip(c)`: drops every leading copy of the character `c`. */
  function LStripChar(s: string, c: char): (r: string)
    ensures |r| <= |s| && r == s[|s| - |r|..]
    ensures r == [] || r[0] != c
    ensures forall i :: 0 <= i < |s| - |r| ==> s[i] == c
  {
    if s != [] && s[0] == c then
      var r := LStripChar(s[1..], c);
      assert forall i :: 1 <= i < |s| - |r| ==> s[i] == s[1..][i - 1];
      r
    else s
  }

  /** Prefixing copies of `c` does not change what `lstrip(c)` returns. */
  lemma {:induction false} LStripCharPrefix(s: string, c: char)
    ensures LStripChar([c] + s, c) == LStripChar(s, c)
  {
    assert ([c] + s)[1..] == s;
  }

  /** `c.lower()` for an ASCII capital; every other character is kept. */
  function LowerChar(c: char): char {
    if 'A' <= c <= 'Z' then (c as int + 32) as char else c
  }

  /** `s.lower()` on ASCII letters; other characters are kept. */
  function LowerAscii(s: string): (r: string)
    ensures |r| == |s|
    ensures forall i :: 0 <= i < |s| ==> r[i] == LowerChar(s[i])
  {
    if s == [] then [] else [LowerChar(s[0])] + LowerAscii(s[1..])
  }

  /** Lower-casing twice is lower-casing once. */
  lemma LowerAsciiIdempotent(s: string)
    ensures LowerAscii(LowerAscii(s)) == LowerAscii(s)
  {
    var l := LowerAscii(s);
    assert forall i :: 0 <= i < |l| ==> LowerAscii(l)[i] == l[i];
  }

  /**
   * Stripping leading copies of a character that is not an ASCII letter
   * commutes with lower-casing.
   */
  lemma {:induction false} LStripCharLower(s: string, c: char)
    requires !('A' <= c <= 'Z') && !('a' <= c <= 'z')
    ensures LStripChar(LowerAscii(s), c) == LowerAscii(LStripChar(s, c))
    decreases |s|
  {
    if s != [] {
      var l := LowerAscii(s);
      assert l[1..] == LowerAscii(s[1..]);
      if s[0] == c {
        LStripCharLower(s[1..], c);
      } else {
        assert l[0] != c;
      }
    }
  }

  // ---------------------------------------------------------------------------
  // Decimal rendering: str(n) and format(n, ',')
  // ---------------------------------------------------------------------------

  predicate IsDigit(c: char) {
    '0' <= c <= '9'
  }

  predicate AllDigits(s: string) {
    forall i :: 0 <= i < |s| ==> IsDigit(s[i])
  }

  function DigitChar(d: nat): (c: char)
    requires d < 10
    ensures IsDigit(c)
  {
    (48 + d) as char
  }

  function DigitValue(c: char): (d: nat)
    requires IsDigit(c)
    ensures d < 10
  {
    c as int - 48
  }

  /** `str(n)` for a natural number: its decimal digits, without leading zeros. */
  function NatToString(n: nat): (r: string)
    ensures |r| >= 1 && AllDigits(r)
    ensures r[0] == '0' ==> n == 0
  {
    if n < 10 then [DigitChar(n)] else NatToString(n / 10) + [DigitChar(n % 10)]
  }

  /** `str(n)` for any integer. */
  function IntToString(n: int): (r: string)
    ensures |r| >= 1 && !IsSpace(r[0]) && IsDigit(r[|r| - 1])
    ensures '\n' !in r
  {
    if n < 0 then "-" + NatToString(-n) else NatToString(n)
  }

  /** The number a string of decimal digits denotes. */
  function DigitsValue(s: string): nat
    requires AllDigits(s)
  {
    if s == [] then 0 else DigitsValue(s[..|s| - 1]) * 10 + DigitValue(s[|s| - 1])
  }

  lemma {:induction false} DigitsValueOfNatToString(n: nat)
    ensures DigitsValue(NatToString(n)) == n
  {
    if n >= 10 {
      var s := NatToString(n);
      assert s[..|s| - 1] == NatToString(n / 10);
      DigitsValueOfNatToString(n / 10);
    }
  }

  /** A string of digits with a comma before every third digit counted from the right. */
  function GroupDigits(d: string): (r: string)
    decreases |d|
  {
    if |d| <= 3 then d else GroupDigits(d[..|d| - 3]) + "," + d[|d| - 3..]
  }

  /** `format(n, ',')`, the `{n:,}` of an f-string. */
  function WithThousands(n: int): string {
    if n < 0 then "-" + GroupDigits(NatToString(-n)) else GroupDigits(NatToString(n))
  }

  /** The string with every comma removed. */
  function RemoveCommas(s: string): (r: string)
  {
    if s == [] then [] else (if s[0] == ',' then [] else [s[0]]) + RemoveCommas(s[1..])
  }

  lemma {:induction false} RemoveCommasAppend(a: string, b: string)
    ensures RemoveCommas(a + b) == RemoveCommas(a) + RemoveCommas(b)
    decreases |a|
  {
    if a != [] {
      assert (a + b)[1..] == a[1..] + b;
      RemoveCommasAppend(a[1..], b);
    } else {
      assert a + b == b;
    }
  }

  lemma {:induction false} RemoveCommasDigits(s: string)
    requires AllDigits(s)
    ensures RemoveCommas(s) == s
    decreases |s|
  {
    if s != [] {
      RemoveCommasDigits(s[1..]);
    }
  }

  lemma {:induction false} GroupDigitsDropCommas(d: string)
    requires AllDigits(d)
    ensures RemoveCommas(GroupDigits(d)) == d
    decreases |d|
  {
    if |d| > 3 {
      var head, tail := d[..|d| - 3], d[|d| - 3..];
      calc {
        RemoveCommas(GroupDigits(d));
        RemoveCommas(GroupDigits(head) + "," + tail);
        { RemoveCommasGroup(GroupDigits(head), tail); }
        RemoveCommas(GroupDigits(head)) + RemoveCommas(tail);
        { GroupDigitsDropCommas(head); RemoveCommasDigits(tail); }
        head + tail;
        d;
      }
    } else {
      RemoveCommasDigits(d);
    }
  }

  /** The comma between two groups goes away with the others. */
  lemma RemoveCommasGroup(a: string, b: string)
    ensures RemoveCommas(a + "," + b) == RemoveCommas(a) + RemoveCommas(b)
  {
    RemoveCommasAppend(a + ",", b);
    RemoveCommasAppend(a, ",");
  }

  /** Removing the grouping commas of `format(n, ',')` gives back `str(n)`. */
  lemma {:induction false} ThousandsDropCommas(n: int)
    ensures RemoveCommas(WithThousands(n)) == IntToString(n)
  {
    if n < 0 {
      GroupDigitsDropCommas(NatToString(-n));
      RemoveCommasAppend("-", GroupDigits(NatToString(-n)));
    } else {
      GroupDigitsDropCommas(NatToString(n));
    }
  }

  // ---------------------------------------------------------------------------
  // Parsing: int(s)
  // ---------------------------------------------------------------------------

  /** A run of ASCII digits with single underscores between digits, as `int()` accepts. */
  predicate DigitGroups(u: string) {
    && |u| > 0 && IsDigit(u[0]) && IsDigit(u[|u| - 1])
    && (forall i :: 0 <= i < |u| ==> IsDigit(u[i]) || u[i] == '_')
    && (forall i :: 0 <= i < |u| - 1 ==> !(u[i] == '_' && u[i + 1] == '_'))
  }

  /** The string with every underscore removed. */
  function RemoveUnderscores(s: string): (r: string)
    ensures (forall i :: 0 <= i < |s| ==> IsDigit(s[i]) || s[i] == '_') ==> AllDigits(r)
  {
    if s == [] then [] else (if s[0] == '_' then [] else [s[0]]) + RemoveUnderscores(s[1..])
  }

  lemma {:induction false} RemoveUnderscoresDigits(s: string)
    requires AllDigits(s)
    ensures RemoveUnderscores(s) == s
    decreases |s|
  {
    if s != [] {
      RemoveUnderscoresDigits(s[1..]);
    }
  }

  /** The value of an unsigned decimal literal as `int()` reads it, or None when it is not one. */
  function UnsignedValue(u: string): (r: Option<nat>)
    ensures r.Some? <==> DigitGroups(u)
  {
    if DigitGroups(u) then Some(DigitsValue(RemoveUnderscores(u))) else None
  }

  /**
   * Python's `int(s)` on a string: surrounding whitespace is ignored, one optional
   * sign, then decimal digits with single underscores between them. None stands
   * for the ValueError that any other string raises.
   */
  function PyInt(s: string): (r: Option<int>)
    ensures r.Some? ==> Strip(s) != []
  {
    SignedValue(Strip(s))
  }

  /** `int` of a string with no surrounding whitespace: an optional sign, then digit groups. */
  function SignedValue(t: string): (r: Option<int>)
    ensures r.Some? ==> t != []
  {
    if t == [] then None
    else if t[0] == '+' || t[0] == '-' then
      match UnsignedValue(t[1..])
      case None => None
      case Some(v) => var x: int := if t[0] == '-' then -(v as int) else v; Some(x)
    else
      match UnsignedValue(t)
      case None => None
      case Some(v) => Some(v)
  }

  /** The digits `str` writes for a natural number read back as that number. */
  lemma {:induction false} UnsignedValueOfNatToString(m: nat)
    ensures UnsignedValue(NatToString(m)) == Some(m)
  {
    var d := NatToString(m);
    assert DigitGroups(d);
    RemoveUnderscoresDigits(d);
    DigitsValueOfNatToString(m);
  }

  /** Surrounding whitespace aside, `int` reads the sign and the digit groups. */
  lemma {:induction false} PyIntUnpadded(s: string)
    requires s == [] || (!IsSpace(s[0]) && !IsSpace(s[|s| - 1]))
    ensures PyInt(s) == SignedValue(s)
  {
    StripNoop(s);
  }

  /** The sign and digits `str` writes read back as the number. */
  lemma {:induction false} SignedValueOfIntToString(n: int)
    ensures SignedValue(IntToString(n)) == Some(n)
  {
    if n < 0 {
      var d := NatToString(-n);
      UnsignedValueOfNatToString(-n);
      assert ("-" + d)[0] == '-' && ("-" + d)[1..] == d;
    } else {
      var d := NatToString(n);
      UnsignedValueOfNatToString(n);
      assert IsDigit(d[0]);
    }
  }

  /** `int(str(n)) == n`: rendering an integer and reading it back is the identity. */
  lemma {:induction false} PyIntOfIntToString(n: int)
    ensures PyInt(IntToString(n)) == Some(n)
  {
    PyIntUnpadded(IntToString(n));
    SignedValueOfIntToString(n);
  }

  /** A string without any digit is never an integer. */
  lemma {:induction false} PyIntNeedsDigit(s: string)
    requires forall i :: 0 <= i < |s| ==> !IsDigit(s[i])
    ensures PyInt(s) == None
  {
    var l := LStrip(s);
    var t := Strip(s);
    if t != [] {
      assert t == l[..|t|] && l == s[|s| - |l|..];
      assert t[|t| - 1] == s[|s| - |l| + |t| - 1];
    }
  }
}
