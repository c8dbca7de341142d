/**
 * The string operations the client screens and the server rely on:
 * JavaScript's `trim`, `toLowerCase`, `toUpperCase`, `includes`, `parseInt`
 * and number-to-text, a case-insensitive substring test (the `$regex` search
 * with option `i`), and the code-unit order MongoDB sorts names by.
 * Case mapping covers ASCII letters only.
 */
module Text {
  import opened Wrappers

  // ---------------------------------------------------------------------
  // Whitespace and trim
  // ---------------------------------------------------------------------

  /** JavaScript's WhiteSpace and LineTerminator code points: what `trim` and `parseInt` skip. */
  predicate IsJsSpace(c: char) {
    || c == ' ' || c == '\t' || c == '\n' || c == '\r'
    || c == '\U{000B}' || c == '\U{000C}' || c == '\U{00A0}' || c == '\U{1680}'
    || ('\U{2000}' <= c <= '\U{200A}')
    || c == '\U{2028}' || c == '\U{2029}' || c == '\U{202F}' || c == '\U{205F}'
    || c == '\U{3000}' || c == '\U{FEFF}'
  }

  predicate AllSpace(s: string) {
    forall k :: 0 <= k < |s| ==> IsJsSpace(s[k])
  }

  /** The number of whitespace characters that start `s`. */
  function LeadingSpace(s: string): (n: nat)
    ensures n <= |s|
    ensures forall k :: 0 <= k < n ==> IsJsSpace(s[k])
    ensures n < |s| ==> !IsJsSpace(s[n])
  {
    if |s| == 0 || !IsJsSpace(s[0]) then 0 else 1 + LeadingSpace(s[1..])
  }

  /** The index where the trailing run of whitespace of `s` begins. */
  function TrailingSpaceStart(s: string): (j: nat)
    ensures j <= |s|
    ensures forall k :: j <= k < |s| ==> IsJsSpace(s[k])
    ensures j > 0 ==> !IsJsSpace(s[j - 1])
  {
    if |s| == 0 || !IsJsSpace(s[|s| - 1]) then |s| else TrailingSpaceStart(s[..|s| - 1])
  }

  /** `s.trim()`: `s` without its leading and trailing whitespace. */
  function Trim(s: string): (r: string)
    ensures |r| <= |s|
    ensures r == [] <==> AllSpace(s)
    ensures r != [] ==> !IsJsSpace(r[0]) && !IsJsSpace(r[|r| - 1])
  {
    var i, j := LeadingSpace(s), TrailingSpaceStart(s);
    if i < j then s[i..j] else []
  }

  /** Trim removes exactly the whitespace padding around a core that has none at its ends. */
  lemma {:induction false} TrimPadded(front: string, core: string, back: string)
    requires AllSpace(front) && AllSpace(back)
    requires core != [] ==> !IsJsSpace(core[0]) && !IsJsSpace(core[|core| - 1])
    ensures Trim(front + core + back) == core
  {
    var s := front + core + back;
    if core != [] {
      LeadingSpaceOfPadded(front, core + back);
      assert front + core + back == front + (core + back);
      TrailingOfPadded(front + core, back);
      assert s[|front|..|front| + |core|] == core;
    } else {
      assert s == front + back;
      assert AllSpace(s);
    }
  }

  lemma {:induction false} LeadingSpaceOfPadded(front: string, rest: string)
    requires AllSpace(front)
    requires rest != [] ==> !IsJsSpace(rest[0])
    ensures LeadingSpace(front + rest) == |front|
  {
    if front != [] {
      assert (front + rest)[1..] == front[1..] + rest;
      LeadingSpaceOfPadded(front[1..], rest);
    } else {
      assert front + rest == rest;
    }
  }

  lemma {:induction false} TrailingOfPadded(rest: string, back: string)
    requires AllSpace(back)
    requires rest != [] ==> !IsJsSpace(rest[|rest| - 1])
    ensures TrailingSpaceStart(rest + back) == |rest|
  {
    if back != [] {
      assert (rest + back)[..|rest + back| - 1] == rest + back[..|back| - 1];
      TrailingOfPadded(rest, back[..|back| - 1]);
    } else {
      assert rest + back == rest;
    }
  }

  /** Trimming twice is trimming once. */
  lemma TrimIdempotent(s: string)
    ensures Trim(Trim(s)) == Trim(s)
  {
    var t := Trim(s);
    TrimPadded([], t, []);
    assert [] + t + [] == t;
  }

  // ---------------------------------------------------------------------
  // Case mapping (ASCII letters)
  // ---------------------------------------------------------------------

  predicate IsUpper(c: char) { 'A' <= c <= 'Z' }
  predicate IsLower(c: char) { 'a' <= c <= 'z' }

  function LowerChar(c: char): char {
    if IsUpper(c) then (c as int + 32) as char else c
  }

  function UpperChar(c: char): char {
    if IsLower(c) then (c as int - 32) as char else c
  }

  /** `s.toLowerCase()`: same length, no upper-case letter left, every other character kept. */
  function ToLower(s: string): (r: string)
    ensures |r| == |s|
    ensures forall i :: 0 <= i < |r| ==> !IsUpper(r[i])
    ensures forall i :: 0 <= i < |r| && !IsUpper(s[i]) ==> r[i] == s[i]
  {
    seq(|s|, i requires 0 <= i < |s| => LowerChar(s[i]))
  }

  /** `s.toUpperCase()`: same length, no lower-case letter left, every other character kept. */
  function ToUpper(s: string): (r: string)
    ensures |r| == |s|
    ensures forall i :: 0 <= i < |r| ==> !IsLower(r[i])
    ensures forall i :: 0 <= i < |r| && !IsLower(s[i]) ==> r[i] == s[i]
  {
    seq(|s|, i requires 0 <= i < |s| => UpperChar(s[i]))
  }

  lemma ToLowerIdempotent(s: string)
    ensures ToLower(ToLower(s)) == ToLower(s)
  {
  }

  /** Case mapping never touches whitespace, so its run lengths are unchanged. */
  lemma {:induction false} LeadingSpaceToLower(s: string)
    ensures LeadingSpace(ToLower(s)) == LeadingSpace(s)
  {
    if |s| > 0 {
      assert ToLower(s)[1..] == ToLower(s[1..]);
      if IsJsSpace(s[0]) {
        LeadingSpaceToLower(s[1..]);
      }
    }
  }

  lemma {:induction false} TrailingSpaceToLower(s: string)
    ensures TrailingSpaceStart(ToLower(s)) == TrailingSpaceStart(s)
  {
    if |s| > 0 {
      assert ToLower(s)[..|s| - 1] == ToLower(s[..|s| - 1]);
      if IsJsSpace(s[|s| - 1]) {
        TrailingSpaceToLower(s[..|s| - 1]);
      }
    }
  }

  /** Lower-casing commutes with taking a slice. */
  lemma ToLowerSlice(s: string, i: nat, j: nat)
    requires i <= j <= |s|
    ensures ToLower(s)[i..j] == ToLower(s[i..j])
  {
    var a, b := ToLower(s)[i..j], ToLower(s[i..j]);
    forall k | 0 <= k < j - i ensures a[k] == b[k] {
      assert a[k] == LowerChar(s[i + k]);
    }
  }

  /** `s.toLowerCase().trim()` and `s.trim().toLowerCase()` agree. */
  lemma TrimToLowerCommute(s: string)
    ensures Trim(ToLower(s)) == ToLower(Trim(s))
  {
    LeadingSpaceToLower(s);
    TrailingSpaceToLower(s);
    var i, j := LeadingSpace(s), TrailingSpaceStart(s);
    if i < j {
      ToLowerSlice(s, i, j);
    }
  }

  /** The email normalisation of the login, register and add-student forms. */
  function NormalizeEmail(s: string): string {
    Trim(ToLower(s))
  }

  /** A normalised email is already lower-case, already trimmed, and normalising it again changes nothing. */
  lemma NormalizeEmailStable(s: string)
    ensures ToLower(NormalizeEmail(s)) == NormalizeEmail(s)
    ensures Trim(NormalizeEmail(s)) == NormalizeEmail(s)
    ensures NormalizeEmail(NormalizeEmail(s)) == NormalizeEmail(s)
  {
    var l := ToLower(s);
    TrimToLowerCommute(l);
    ToLowerIdempotent(s);
    TrimIdempotent(l);
    TrimToLowerCommute(Trim(l));
    assert ToLower(Trim(l)) == Trim(ToLower(l));
  }

  /** A character that is neither whitespace nor a letter survives normalisation. */
  lemma {:induction false} NormalizeKeepsMark(s: string, c: char)
    requires c in s && !IsJsSpace(c) && !IsUpper(c)
    ensures c in NormalizeEmail(s)
  {
    var l := ToLower(s);
    var i :| 0 <= i < |s| && s[i] == c;
    assert l[i] == c;
    var a, b := LeadingSpace(l), TrailingSpaceStart(l);
    assert !IsJsSpace(l[i]);
    assert a <= i;
    assert i < b;
    assert Trim(l) == l[a..b];
    assert Trim(l)[i - a] == c;
  }

  // ---------------------------------------------------------------------
  // Substrings
  // ---------------------------------------------------------------------

  /** `hay.includes(needle)`. */
  predicate IsInfix(needle: string, hay: string)
    decreases |hay|
  {
    needle <= hay || (|hay| > 0 && IsInfix(needle, hay[1..]))
  }

  lemma {:induction false} InfixAt(needle: string, hay: string, i: nat)
    requires i + |needle| <= |hay| && hay[i..i + |needle|] == needle
    ensures IsInfix(needle, hay)
    decreases i
  {
    if i > 0 {
      assert hay[1..][i - 1..i - 1 + |needle|] == needle;
      InfixAt(needle, hay[1..], i - 1);
    }
  }

  /** A case-insensitive substring test: MongoDB's `{ $regex: needle, $options: 'i' }`
      with a needle free of regular-expression metacharacters. */
  predicate ContainsIgnoringCase(hay: string, needle: string) {
    IsInfix(ToLower(needle), ToLower(hay))
  }

  /** Case does not matter to the search: a needle matches its own upper-case spelling. */
  lemma ContainsOwnCase(s: string)
    ensures ContainsIgnoringCase(ToUpper(s), s)
  {
    var u := ToUpper(s);
    assert ToLower(u) == ToLower(s) by {
      forall i | 0 <= i < |s| ensures ToLower(u)[i] == ToLower(s)[i] {
        assert LowerChar(UpperChar(s[i])) == LowerChar(s[i]);
      }
    }
    assert ToLower(s) <= ToLower(u);
  }

  // ---------------------------------------------------------------------
  // Numbers as text
  // ---------------------------------------------------------------------

  predicate IsDigit(c: char) { '0' <= c <= '9' }

  function DigitChar(d: nat): (c: char)
    requires d < 10
    ensures IsDigit(c)
  {
    ('0' as int + d) as char
  }

  /** Decimal text of `n` with no leading zero: JavaScript's `String(n)`. */
  function NatToDecimal(n: nat): (r: string)
    ensures r != []
    ensures forall k :: 0 <= k < |r| ==> IsDigit(r[k])
    ensures |r| > 1 ==> r[0] != '0'
    ensures n > 0 ==> r[0] != '0'
  {
    if n < 10 then [DigitChar(n)] else NatToDecimal(n / 10) + [DigitChar(n % 10)]
  }

  /** `String(i)` for an integer: a minus sign before the decimal text of |i|. */
  function IntToDecimal(i: int): (r: string)
    ensures r != []
  {
    if i < 0 then "-" + NatToDecimal(-i) else NatToDecimal(i)
  }

  /** Digit value in bases up to 36 (0-9, then a-z or A-Z); 36 for any other character. */
  function DigitValue(c: char): (v: nat)
    ensures v <= 36
  {
    if IsDigit(c) then c as int - '0' as int
    else if IsLower(c) then c as int - 'a' as int + 10
    else if IsUpper(c) then c as int - 'A' as int + 10
    else 36
  }

  /** The length of the longest prefix of `s` made of digits of base `radix`. */
  function DigitRun(s: string, radix: nat): (n: nat)
    ensures n <= |s|
    ensures forall k :: 0 <= k < n ==> DigitValue(s[k]) < radix
    ensures n < |s| ==> DigitValue(s[n]) >= radix
  {
    if |s| == 0 || DigitValue(s[0]) >= radix then 0 else 1 + DigitRun(s[1..], radix)
  }

  /** The number that the digits of `z` spell in base `radix`. */
  function DigitsValue(z: string, radix: nat): nat {
    if z == [] then 0
    else DigitsValue(z[..|z| - 1], radix) * radix + DigitValue(z[|z| - 1])
  }

  /** JavaScript's `parseInt(s)` with no radix: skip leading whitespace, an optional sign,
      base 16 after a `0x`/`0X` prefix and base 10 otherwise, then the longest run of digits;
      `None` (NaN) when that run is empty. Trailing text after the digits is ignored. */
  function ParseInt(s: string): Option<int> {
    var t := s[LeadingSpace(s)..];
    var negative := |t| > 0 && t[0] == '-';
    var u := if |t| > 0 && (t[0] == '-' || t[0] == '+') then t[1..] else t;
    var hex := |u| >= 2 && u[0] == '0' && (u[1] == 'x' || u[1] == 'X');
    var radix := if hex then 16 else 10;
    var body := if hex then u[2..] else u;
    var n := DigitRun(body, radix);
    var v: int := DigitsValue(body[..n], radix);
    if n == 0 then None else Some(if negative then -v else v)
  }

  lemma {:induction false} DecimalValue(n: nat)
    ensures DigitsValue(NatToDecimal(n), 10) == n
  {
    var r := NatToDecimal(n);
    if n < 10 {
      assert r[..0] == [];
    } else {
      assert r[..|r| - 1] == NatToDecimal(n / 10);
      DecimalValue(n / 10);
    }
  }

  /** `parseInt(String(n)) === n`: the decimal text of a natural number parses back to it. */
  lemma ParseDecimalRoundTrip(n: nat)
    ensures ParseInt(NatToDecimal(n)) == Some(n)
  {
    var r := NatToDecimal(n);
    assert !IsJsSpace(r[0]);
    assert LeadingSpace(r) == 0;
    assert r[0..] == r;
    assert DigitRun(r, 10) == |r| by {
      DigitRunAll(r, 10);
    }
    assert r[..|r|] == r;
    DecimalValue(n);
  }

  lemma {:induction false} DigitRunAll(s: string, radix: nat)
    requires forall k :: 0 <= k < |s| ==> DigitValue(s[k]) < radix
    ensures DigitRun(s, radix) == |s|
  {
    if |s| > 0 {
      DigitRunAll(s[1..], radix);
    }
  }

  /** `parseInt('')` and `parseInt` of pure whitespace are NaN. */
  lemma ParseBlankIsNaN(s: string)
    requires AllSpace(s)
    ensures ParseInt(s) == None
  {
    assert LeadingSpace(s) == |s| by {
      LeadingSpaceOfPadded(s, []);
      assert s + [] == s;
    }
  }

  // ---------------------------------------------------------------------
  // Ordering
  // ---------------------------------------------------------------------

  /** Code-unit (binary) order on strings, the order of MongoDB's `sort({ name: 1 })`
      under the default collation. */
  predicate TextLe(a: string, b: string) {
    |a| == 0 || (|b| > 0 && (a[0] < b[0] || (a[0] == b[0] && TextLe(a[1..], b[1..]))))
  }

  lemma {:induction false} TextLeTotal(a: string, b: string)
    ensures TextLe(a, b) || TextLe(b, a)
  {
    if |a| > 0 && |b| > 0 && a[0] == b[0] {
      TextLeTotal(a[1..], b[1..]);
    }
  }

  lemma {:induction false} TextLeTransitive(a: string, b: string, c: string)
    requires TextLe(a, b) && TextLe(b, c)
    ensures TextLe(a, c)
  {
    if |a| > 0 && a[0] == b[0] && b[0] == c[0] {
      TextLeTransitive(a[1..], b[1..], c[1..]);
    }
  }

  lemma {:induction false} TextLeAntisymmetric(a: string, b: string)
    requires TextLe(a, b) && TextLe(b, a)
    ensures a == b
  {
    if |a| > 0 {
      TextLeAntisymmetric(a[1..], b[1..]);
      assert a == [a[0]] + a[1..];
      assert b == [b[0]] + b[1..];
    }
  }
}
