/** The few JavaScript string operations the application relies on:
    `String(n)` of a non-negative integer, `padStart(2, "0")`, `trim()`, and
    the decimal `parseInt` together with the `parseInt(x) || fallback` idiom. */
module Text {
  import opened Common

  predicate IsDigit(c: char) {
    '0' <= c <= '9'
  }

  predicate AllDigits(s: string) {
    forall i :: 0 <= i < |s| ==> IsDigit(s[i])
  }

  function DigitChar(d: nat): (c: char)
    requires d < 10
    ensures IsDigit(c)
  {
    ('0' as int + d) as char
  }

  function DigitValue(c: char): (d: nat)
    requires IsDigit(c)
    ensures d < 10 && DigitChar(d) == c
  {
    (c as int) - ('0' as int)
  }

  /** The value of a string of decimal digits. */
  function DigitsValue(s: string): nat
    requires AllDigits(s)
  {
    if s == [] then 0 else DigitsValue(s[..|s| - 1]) * 10 + DigitValue(s[|s| - 1])
  }

  /** `String(n)` for a non-negative integer: its decimal digits, no sign and
      no leading zero. */
  function NatToString(n: nat): (s: string)
    ensures 1 <= |s| && AllDigits(s)
    ensures |s| == 1 <==> n < 10
  {
    if n < 10 then [DigitChar(n)] else NatToString(n / 10) + [DigitChar(n % 10)]
  }

  lemma {:induction false} NatToStringValue(n: nat)
    ensures DigitsValue(NatToString(n)) == n
  {
    if n >= 10 {
      var s := NatToString(n);
      NatToStringValue(n / 10);
      assert s[..|s| - 1] == NatToString(n / 10);
    }
  }

  /** `String(n).padStart(2, "0")` for `0 <= n < 100`. */
  function Pad2(n: nat): (s: string)
    requires n < 100
    ensures |s| == 2 && AllDigits(s) && DigitsValue(s) == n
  {
    NatToStringValue(n);
    if n < 10 then
      var s := "0" + NatToString(n);
      assert s[..1] == "0";
      s
    else NatToString(n)
  }

  // ----- trim -----

  /** The UTF-16 code units of one character: two for a character outside
      the Basic Multilingual Plane, which UTF-16 writes as a surrogate pair. */
  function CodeUnits(c: char): (n: nat)
    ensures n == 1 || n == 2
    ensures n == 2 <==> c >= '\U{10000}'
  {
    if c >= '\U{10000}' then 2 else 1
  }

  /** `s.length`: the number of UTF-16 code units of `s`. It equals the
      number of characters exactly when none lies outside the Basic
      Multilingual Plane. */
  function JsLength(s: string): (n: nat)
    ensures |s| <= n <= 2 * |s|
    ensures n == |s| <==> forall k :: 0 <= k < |s| ==> s[k] < '\U{10000}'
  {
    if s == [] then 0
    else
      var init := s[..|s| - 1];
      assert forall k :: 0 <= k < |init| ==> init[k] == s[k];
      JsLength(init) + CodeUnits(s[|s| - 1])
  }

  /** The length of a concatenation is the sum of the lengths. */
  lemma {:induction false} JsLengthAppend(s: string, t: string)
    ensures JsLength(s + t) == JsLength(s) + JsLength(t)
    decreases |t|
  {
    if t == [] {
      assert s + t == s;
    } else {
      var st := s + t;
      assert st[..|st| - 1] == s + t[..|t| - 1] && st[|st| - 1] == t[|t| - 1];
      JsLengthAppend(s, t[..|t| - 1]);
    }
  }

  /** The characters `String.prototype.trim` removes: the white space and line
      terminator code points of ECMAScript, together with the BOM. */
  predicate IsJsWhiteSpace(c: char) {
    c == ' ' || c == '\t' || c == '\n' || c == '\r' || c == '\U{B}' || c == '\U{C}'
    || c == '\U{A0}' || c == '\U{1680}' || ('\U{2000}' <= c <= '\U{200A}')
    || c == '\U{2028}' || c == '\U{2029}' || c == '\U{202F}' || c == '\U{205F}'
    || c == '\U{3000}' || c == '\U{FEFF}'
  }

  /** The first index at or after `i` that does not hold white space. */
  function SkipWhiteSpace(s: string, i: nat): (j: nat)
    requires i <= |s|
    ensures i <= j <= |s|
    ensures forall k :: i <= k < j ==> IsJsWhiteSpace(s[k])
    ensures j < |s| ==> !IsJsWhiteSpace(s[j])
    decreases |s| - i
  {
    if i == |s| || !IsJsWhiteSpace(s[i]) then i else SkipWhiteSpace(s, i + 1)
  }

  /** The end of `s[lo..j]` once trailing white space is dropped. */
  function DropTrailingWhiteSpace(s: string, lo: nat, j: nat): (hi: nat)
    requires lo <= j <= |s|
    ensures lo <= hi <= j
    ensures forall k :: hi <= k < j ==> IsJsWhiteSpace(s[k])
    ensures lo < hi ==> !IsJsWhiteSpace(s[hi - 1])
    decreases j
  {
    if j == lo || !IsJsWhiteSpace(s[j - 1]) then j else DropTrailingWhiteSpace(s, lo, j - 1)
  }

  /** `r` is a slice of `s` whose surroundings are all white space. */
  ghost predicate WhiteSpaceAround(s: string, r: string) {
    exists lo, hi :: 0 <= lo <= hi <= |s| && r == s[lo..hi]
                     && (forall k :: 0 <= k < lo ==> IsJsWhiteSpace(s[k]))
                     && (forall k :: hi <= k < |s| ==> IsJsWhiteSpace(s[k]))
  }

  /** `s.trim()`: `s` with the white space at both ends removed. */
  function Trim(s: string): (r: string)
    ensures |r| <= |s|
    ensures WhiteSpaceAround(s, r)
    ensures r != [] ==> !IsJsWhiteSpace(r[0]) && !IsJsWhiteSpace(r[|r| - 1])
  {
    var lo := SkipWhiteSpace(s, 0);
    var hi := DropTrailingWhiteSpace(s, lo, |s|);
    assert forall k :: hi <= k < |s| ==> IsJsWhiteSpace(s[k]);
    assert WhiteSpaceAround(s, s[lo..hi]);
    s[lo..hi]
  }

  /** The two properties of `Trim` determine it: any slice of `s` with only
      white space around it and no white space at its ends is `Trim(s)`. */
  lemma TrimIsUnique(s: string, r: string)
    requires WhiteSpaceAround(s, r)
    requires r != [] ==> !IsJsWhiteSpace(r[0]) && !IsJsWhiteSpace(r[|r| - 1])
    ensures r == Trim(s)
  {
    var lo, hi :| 0 <= lo <= hi <= |s| && r == s[lo..hi]
                  && (forall k :: 0 <= k < lo ==> IsJsWhiteSpace(s[k]))
                  && (forall k :: hi <= k < |s| ==> IsJsWhiteSpace(s[k]));
    if r == [] {
      forall k | 0 <= k < |s| ensures IsJsWhiteSpace(s[k]) {
        assert k < lo || hi <= k;
      }
      TrimEmptyIff(s);
    } else {
      assert s[lo] == r[0] && s[hi - 1] == r[|r| - 1];
      SkipWhiteSpaceStopsAt(s, lo);
      DropTrailingWhiteSpaceStopsAt(s, lo, hi);
      assert Trim(s) == s[lo..hi];
    }
  }

  /** White space up to a non-white-space character at `lo` is skipped
      exactly up to `lo`. */
  lemma SkipWhiteSpaceStopsAt(s: string, lo: nat)
    requires lo < |s| && !IsJsWhiteSpace(s[lo])
    requires forall k :: 0 <= k < lo ==> IsJsWhiteSpace(s[k])
    ensures SkipWhiteSpace(s, 0) == lo
  {
    var j := SkipWhiteSpace(s, 0);
    assert j <= lo;
    assert j < |s| ==> !IsJsWhiteSpace(s[j]);
  }

  /** Trailing white space after a non-white-space character at `hi - 1`
      is dropped exactly down to `hi`. */
  lemma DropTrailingWhiteSpaceStopsAt(s: string, lo: nat, hi: nat)
    requires lo < hi <= |s| && !IsJsWhiteSpace(s[hi - 1])
    requires forall k :: hi <= k < |s| ==> IsJsWhiteSpace(s[k])
    ensures DropTrailingWhiteSpace(s, lo, |s|) == hi
  {
    var j := DropTrailingWhiteSpace(s, lo, |s|);
    assert j >= hi;
    assert lo < j ==> !IsJsWhiteSpace(s[j - 1]);
  }

  /** A string trims to the empty string exactly when all of it is white space. */
  lemma TrimEmptyIff(s: string)
    ensures Trim(s) == [] <==> forall k :: 0 <= k < |s| ==> IsJsWhiteSpace(s[k])
  {
    var lo := SkipWhiteSpace(s, 0);
    var hi := DropTrailingWhiteSpace(s, lo, |s|);
    if lo < hi {
      assert !IsJsWhiteSpace(s[lo]);
    }
  }

  /** A string whose ends are not white space is its own trim. */
  lemma TrimKeepsTrimmed(s: string)
    requires s != [] ==> !IsJsWhiteSpace(s[0]) && !IsJsWhiteSpace(s[|s| - 1])
    ensures Trim(s) == s
  {
    var lo := SkipWhiteSpace(s, 0);
    assert lo == 0;
    var hi := DropTrailingWhiteSpace(s, 0, |s|);
    assert hi == |s|;
  }

  lemma TrimIdempotent(s: string)
    ensures Trim(Trim(s)) == Trim(s)
  {
    TrimKeepsTrimmed(Trim(s));
  }

  // ----- parseInt -----

  /** The longest run of digits starting at `i`: where it ends. */
  function DigitRunEnd(s: string, i: nat): (j: nat)
    requires i <= |s|
    ensures i <= j <= |s|
    ensures AllDigits(s[i..j])
    ensures j < |s| ==> !IsDigit(s[j])
    decreases |s| - i
  {
    if i == |s| || !IsDigit(s[i]) then i
    else
      var j := DigitRunEnd(s, i + 1);
      assert s[i..j] == [s[i]] + s[i + 1..j];
      j
  }

  /** `parseInt(s)` read in decimal: leading white space is skipped, one
      optional sign is read, then the longest run of digits; `None` stands
      for `NaN`, the result when there is no digit there. The source passes
      no radix, so a "0x" prefix would be read as hexadecimal; the inputs it
      parses are `type="number"` fields, whose value never has one. */
  function ParseInt(s: string): (r: Option<int>)
    ensures r.Some? ==> exists i :: 0 <= i < |s| && IsDigit(s[i])
  {
    var i := SkipWhiteSpace(s, 0);
    var negative := i < |s| && s[i] == '-';
    var start := if i < |s| && (s[i] == '-' || s[i] == '+') then i + 1 else i;
    var end := DigitRunEnd(s, start);
    if end == start then None
    else
      assert IsDigit(s[start]) by { assert s[start..end][0] == s[start]; }
      var v: int := DigitsValue(s[start..end]);
      Some(if negative then -v else v)
  }

  /** `parseInt(s) || fallback`: both `NaN` and `0` are falsy, so either
      gives the fallback. */
  function NumberOr(s: string, fallback: int): (r: int)
    ensures r == fallback || ParseInt(s) == Some(r)
    ensures r == fallback <== ParseInt(s).None? || ParseInt(s) == Some(0)
  {
    match ParseInt(s)
    case Some(v) => if v == 0 then fallback else v
    case None => fallback
  }

  lemma ParseIntOfNatToString(n: nat)
    ensures ParseInt(NatToString(n)) == Some(n)
  {
    var s := NatToString(n);
    assert !IsJsWhiteSpace(s[0]);
    assert SkipWhiteSpace(s, 0) == 0;
    assert DigitRunEnd(s, 0) == |s|;
    assert s[0..|s|] == s;
    NatToStringValue(n);
  }

  /** The text of a positive number is read back as that number; an empty
      field (or `0`) gives the fallback. */
  lemma NumberOrCases(n: nat, fallback: int)
    ensures NumberOr(NatToString(n), fallback) == if n == 0 then fallback else n
    ensures NumberOr("", fallback) == fallback
  {
    ParseIntOfNatToString(n);
  }
}
