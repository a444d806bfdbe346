/**
 * The JavaScript string operations the data layer relies on:
 * `String.prototype.trim`, `toLowerCase`, `includes`, the ordering used by the
 * name comparators, number-to-string conversion in template literals, and
 * `Number.parseInt(s, 10)`. Strings are sequences of characters.
 */
module Text {
  import opened Wrappers

  /** ECMAScript WhiteSpace and LineTerminator characters, the set `trim` removes. */
  predicate IsWhitespace(c: char) {
    || c == '\t' || c == '\n' || c == '\U{000B}' || c == '\U{000C}' || c == '\r'
    || c == ' ' || c == '\U{00A0}' || c == '\U{1680}'
    || ('\U{2000}' <= c <= '\U{200A}')
    || c == '\U{2028}' || c == '\U{2029}' || c == '\U{202F}' || c == '\U{205F}'
    || c == '\U{3000}' || c == '\U{FEFF}'
  }

  /** `trimStart`: drops the leading whitespace. */
  function TrimStart(s: string): (r: string)
    ensures |r| <= |s| && r == s[|s| - |r|..]
    ensures r == [] || !IsWhitespace(r[0])
    ensures forall i :: 0 <= i < |s| - |r| ==> IsWhitespace(s[i])
  {
    if s != [] && IsWhitespace(s[0]) then TrimStart(s[1..]) else s
  }

  /** `trimEnd`: drops the trailing whitespace. */
  function TrimEnd(s: string): (r: string)
    ensures |r| <= |s| && r == s[..|r|]
    ensures r == [] || !IsWhitespace(r[|r| - 1])
    ensures forall i :: |r| <= i < |s| ==> IsWhitespace(s[i])
  {
    if s != [] && IsWhitespace(s[|s| - 1]) then TrimEnd(s[..|s| - 1]) else s
  }

  /** `trim`: removes whitespace from both ends and keeps the middle untouched. */
  function Trim(s: string): (r: string)
  {
    TrimEnd(TrimStart(s))
  }

  lemma SliceOfSuffix<T>(s: seq<T>, i: int, n: int)
    requires 0 <= i && 0 <= n && i + n <= |s|
    ensures s[i..][..n] == s[i..i + n]
  {
  }

  lemma SliceOfTail<T>(s: seq<T>, i: int, j: int)
    requires s != [] && 0 <= i <= j <= |s| - 1
    ensures s[1..][i..j] == s[i + 1..j + 1]
  {
  }

  lemma PrefixAsSlice<T>(p: seq<T>, s: seq<T>)
    requires |p| <= |s|
    ensures p <= s <==> s[..|p|] == p
  {
  }

  /** `part` occurs in `s` starting at offset `i`. */
  predicate OccursAt(s: string, part: string, i: int)
  {
    0 <= i <= |s| - |part| && s[i..i + |part|] == part
  }

  /** Where `Trim(s)` sits in `s`: after the leading whitespace, with only whitespace after it. */
  lemma TrimOffset(s: string) returns (i: int)
    ensures OccursAt(s, Trim(s), i)
    ensures forall k :: 0 <= k < i ==> IsWhitespace(s[k])
    ensures forall k :: i + |Trim(s)| <= k < |s| ==> IsWhitespace(s[k])
  {
    var t := TrimStart(s);
    var r := TrimEnd(t);
    i := |s| - |t|;
    SliceOfSuffix(s, i, |r|);
    forall k | i + |r| <= k < |s| ensures IsWhitespace(s[k]) {
      assert s[k] == t[k - i];
    }
  }

  /** `Trim(s)` is `s` without a whitespace prefix and a whitespace suffix, and it has neither itself. */
  lemma TrimSpec(s: string)
    ensures var r := Trim(s);
      && (r == [] || (!IsWhitespace(r[0]) && !IsWhitespace(r[|r| - 1])))
      && (exists i :: OccursAt(s, r, i)
            && (forall k :: 0 <= k < i ==> IsWhitespace(s[k]))
            && (forall k :: i + |r| <= k < |s| ==> IsWhitespace(s[k])))
  {
    var t := TrimStart(s);
    var r := TrimEnd(t);
    var i := TrimOffset(s);
    if r != [] {
      assert r[0] == t[0];
    }
  }

  /** A string with no whitespace at either end is left alone by `trim`. */
  lemma {:induction false} TrimOfTrimmed(s: string)
    requires s == [] || (!IsWhitespace(s[0]) && !IsWhitespace(s[|s| - 1]))
    ensures Trim(s) == s
  {
  }

  predicate IsUpperAscii(c: char) { 'A' <= c <= 'Z' }

  function LowerChar(c: char): (d: char)
    ensures !IsUpperAscii(d)
    ensures !IsUpperAscii(c) ==> d == c
  {
    if IsUpperAscii(c) then (c as int - 'A' as int + 'a' as int) as char else c
  }

  /** `toLowerCase`, restricted to the ASCII letters. */
  function ToLower(s: string): (r: string)
    ensures |r| == |s|
    ensures forall i :: 0 <= i < |s| ==> r[i] == LowerChar(s[i])
  {
    seq(|s|, i requires 0 <= i < |s| => LowerChar(s[i]))
  }

  /**
   * `String(value || '').trim().toLowerCase()`; a missing value is the empty
   * string. This is `normalizeString` of the catalogue route and the inline
   * normalisation of type names and Pokémon names in the data layer.
   */
  function NormalizeString(s: string): string
  {
    ToLower(Trim(s))
  }

  /** Normalising twice is normalising once: the result has no outer whitespace and no upper-case letter. */
  lemma NormalizeIdempotent(s: string)
    ensures NormalizeString(NormalizeString(s)) == NormalizeString(s)
  {
    var t := Trim(s);
    var n := ToLower(t);
    TrimSpec(s);
    if n != [] {
      LowerCharKeepsWhitespace(t[0]);
      LowerCharKeepsWhitespace(t[|t| - 1]);
    }
    TrimOfTrimmed(n);
    ToLowerIdempotent(t);
  }

  /** A string already trimmed and in lower case is its own normalisation. */
  lemma NormalizeFixesNormal(s: string)
    requires s == [] || (!IsWhitespace(s[0]) && !IsWhitespace(s[|s| - 1]))
    requires forall i :: 0 <= i < |s| ==> !IsUpperAscii(s[i])
    ensures NormalizeString(s) == s
  {
    TrimOfTrimmed(s);
  }

  lemma LowerCharKeepsWhitespace(c: char)
    ensures IsWhitespace(LowerChar(c)) == IsWhitespace(c)
  {
  }

  lemma ToLowerIdempotent(s: string)
    ensures ToLower(ToLower(s)) == ToLower(s)
  {
  }

  /** `haystack.includes(needle)`. */
  predicate Contains(haystack: string, needle: string)
  {
    needle <= haystack || (haystack != [] && Contains(haystack[1..], needle))
  }

  /** `Contains` holds exactly when the needle occurs at some offset of the haystack. */
  lemma {:induction false} ContainsAtOffset(haystack: string, needle: string)
    ensures Contains(haystack, needle) <==> exists i :: OccursAt(haystack, needle, i)
  {
    if |needle| <= |haystack| {
      PrefixAsSlice(needle, haystack);
    }
    if needle <= haystack {
      assert OccursAt(haystack, needle, 0);
    } else if haystack == [] {
    } else {
      var tail := haystack[1..];
      ContainsAtOffset(tail, needle);
      if Contains(tail, needle) {
        var i :| OccursAt(tail, needle, i);
        SliceOfTail(haystack, i, i + |needle|);
        assert OccursAt(haystack, needle, i + 1);
      }
      if exists i :: OccursAt(haystack, needle, i) {
        var i :| OccursAt(haystack, needle, i);
        if i > 0 {
          SliceOfTail(haystack, i - 1, i - 1 + |needle|);
          assert OccursAt(tail, needle, i - 1);
        }
      }
    }
  }

  /**
   * Code-point lexicographic order: `a` may come before `b`. This stands in for
   * `a.localeCompare(b) <= 0`.
   */
  predicate LexLe(a: string, b: string)
  {
    a == [] || (b != [] && (a[0] < b[0] || (a[0] == b[0] && LexLe(a[1..], b[1..]))))
  }

  lemma {:induction false} LexLeTotal(a: string, b: string)
    ensures LexLe(a, b) || LexLe(b, a)
  {
    if a != [] && b != [] && a[0] == b[0] {
      LexLeTotal(a[1..], b[1..]);
    }
  }

  lemma {:induction false} LexLeTransitive(a: string, b: string, c: string)
    requires LexLe(a, b) && LexLe(b, c)
    ensures LexLe(a, c)
  {
    if a != [] && a[0] == b[0] && b[0] == c[0] {
      LexLeTransitive(a[1..], b[1..], c[1..]);
    }
  }

  lemma {:induction false} LexLeAntisymmetric(a: string, b: string)
    requires LexLe(a, b) && LexLe(b, a)
    ensures a == b
  {
    if a != [] {
      LexLeAntisymmetric(a[1..], b[1..]);
    }
  }

  // ---------------------------------------------------------------- numbers

  predicate IsDigit(c: char) { '0' <= c <= '9' }

  predicate AllDigits(s: string) { forall i :: 0 <= i < |s| ==> IsDigit(s[i]) }

  function DigitChar(d: nat): (c: char)
    requires d < 10
    ensures IsDigit(c) && c as int - '0' as int == d
  {
    ('0' as int + d) as char
  }

  /** The decimal digits of a natural number, without leading zeros. */
  function NatToString(n: nat): (s: string)
    ensures s != [] && AllDigits(s)
  {
    if n < 10 then [DigitChar(n)] else NatToString(n / 10) + [DigitChar(n % 10)]
  }

  /** `${n}` for an integer-valued JavaScript number. */
  function IntToString(n: int): (s: string)
    ensures s != []
  {
    if n < 0 then "-" + NatToString(-n) else NatToString(n)
  }

  /** The value of a run of decimal digits (leading zeros allowed, as `Number("007")` allows them). */
  function DigitsValue(s: string): nat
    requires AllDigits(s)
  {
    if s == [] then 0 else DigitsValue(s[..|s| - 1]) * 10 + (s[|s| - 1] as int - '0' as int)
  }

  /** Reading back the decimal form of `n` gives `n`. */
  lemma {:induction false} NatToStringRoundTrip(n: nat)
    ensures DigitsValue(NatToString(n)) == n
  {
    if n >= 10 {
      var s := NatToString(n);
      NatToStringRoundTrip(n / 10);
      assert s[..|s| - 1] == NatToString(n / 10);
    }
  }

  /** Different integers print differently, so keys and URLs built from them never collide. */
  lemma IntToStringInjective(a: int, b: int)
    requires IntToString(a) == IntToString(b)
    ensures a == b
  {
    ParseIntRoundTrip(a, []);
    ParseIntRoundTrip(b, []);
    assert IntToString(a) + [] == IntToString(a);
    assert IntToString(b) + [] == IntToString(b);
  }

  /** Length of the longest prefix of `s` made of digits. */
  function DigitPrefixLength(s: string): (k: nat)
    ensures k <= |s| && AllDigits(s[..k])
    ensures k < |s| ==> !IsDigit(s[k])
  {
    if s != [] && IsDigit(s[0]) then
      var k := 1 + DigitPrefixLength(s[1..]);
      assert s[..k] == [s[0]] + s[1..][..k - 1];
      k
    else 0
  }

  /** Length of the run of digits that ends just before offset `end` of `s`. */
  function DigitRunBefore(s: string, end: nat): (k: nat)
    requires end <= |s|
    ensures k <= end
    ensures forall i :: end - k <= i < end ==> IsDigit(s[i])
    ensures k < end ==> !IsDigit(s[end - k - 1])
  {
    if end > 0 && IsDigit(s[end - 1]) then 1 + DigitRunBefore(s, end - 1) else 0
  }

  /** Length of the longest suffix of `s` made of digits. */
  function DigitSuffixLength(s: string): (k: nat)
    ensures k <= |s| && AllDigits(s[|s| - k..])
    ensures k < |s| ==> !IsDigit(s[|s| - k - 1])
  {
    var k := DigitRunBefore(s, |s|);
    AllDigitsFrom(s, |s| - k);
    k
  }

  lemma AllDigitsFrom(s: string, from: int)
    requires 0 <= from <= |s|
    requires forall i :: from <= i < |s| ==> IsDigit(s[i])
    ensures AllDigits(s[from..])
  {
  }

  lemma {:induction false} DigitRunOfConcat(x: string, d: string, n: nat)
    requires AllDigits(d) && n <= |d|
    requires x != [] && !IsDigit(x[|x| - 1])
    ensures DigitRunBefore(x + d, |x| + n) == n
  {
    if n > 0 {
      assert (x + d)[|x| + n - 1] == d[n - 1];
      DigitRunOfConcat(x, d, n - 1);
    } else {
      assert (x + d)[|x| - 1] == x[|x| - 1];
    }
  }

  lemma DigitSuffixOfConcat(x: string, d: string)
    requires AllDigits(d)
    requires x != [] && !IsDigit(x[|x| - 1])
    ensures DigitSuffixLength(x + d) == |d|
  {
    DigitRunOfConcat(x, d, |d|);
  }

  lemma {:induction false} DigitPrefixOfConcat(d: string, y: string)
    requires AllDigits(d)
    requires y == [] || !IsDigit(y[0])
    ensures DigitPrefixLength(d + y) == |d|
  {
    if d == [] {
      assert d + y == y;
    } else {
      assert (d + y)[1..] == d[1..] + y;
      DigitPrefixOfConcat(d[1..], y);
    }
  }

  /** The digit run at the start of `rest`, or `None` when it does not start with a digit. */
  function LeadingDigits(rest: string): Option<nat>
  {
    var k := DigitPrefixLength(rest);
    if k == 0 then None else Some(DigitsValue(rest[..k]))
  }

  /**
   * `Number.parseInt(s, 10)`: skip leading whitespace, read an optional sign
   * and then the longest run of decimal digits; with no digit the result is
   * NaN, here `None`.
   */
  function ParseInt(s: string): Option<int>
  {
    var t := TrimStart(s);
    if t != [] && t[0] == '-' then
      match LeadingDigits(t[1..])
      case Some(v) => Some(-(v as int))
      case None => None
    else if t != [] && t[0] == '+' then
      match LeadingDigits(t[1..])
      case Some(v) => Some(v)
      case None => None
    else
      match LeadingDigits(t)
      case Some(v) => Some(v)
      case None => None
  }

  /** A run of digits followed by a non-digit: the leading digits are exactly that run. */
  lemma LeadingDigitsThenTail(d: string, tail: string)
    requires d != [] && AllDigits(d)
    requires tail == [] || !IsDigit(tail[0])
    ensures LeadingDigits(d + tail) == Some(DigitsValue(d))
  {
    DigitPrefixOfConcat(d, tail);
    assert (d + tail)[..|d|] == d;
  }

  lemma DropFirstOfConcat(a: string, b: string)
    requires a != []
    ensures (a + b)[1..] == a[1..] + b
  {
  }

  /** A string that does not start with whitespace is left alone by `trimStart`. */
  lemma TrimStartKeeps(s: string)
    requires s != [] && !IsWhitespace(s[0])
    ensures TrimStart(s) == s
  {
  }

  /** `parseInt` of a digit run followed by a non-digit. */
  lemma ParseDigits(d: string, tail: string)
    requires d != [] && AllDigits(d)
    requires tail == [] || !IsDigit(tail[0])
    ensures ParseInt(d + tail) == Some(DigitsValue(d))
  {
    LeadingDigitsThenTail(d, tail);
    var s := d + tail;
    assert s[0] == d[0] && IsDigit(d[0]);
    TrimStartKeeps(s);
    assert s[0] != '-' && s[0] != '+';
  }

  /** `parseInt` of a minus sign, a digit run and then a non-digit. */
  lemma ParseNegatedDigits(d: string, tail: string)
    requires d != [] && AllDigits(d)
    requires tail == [] || !IsDigit(tail[0])
    ensures ParseInt(("-" + d) + tail) == Some(-(DigitsValue(d) as int))
  {
    LeadingDigitsThenTail(d, tail);
    var neg := ("-" + d) + tail;
    DropFirstOfConcat("-" + d, tail);
    assert ("-" + d)[1..] == d;
    assert neg[0] == '-';
    TrimStartKeeps(neg);
  }

  /** `parseInt` reads back what `${n}` prints, even when something that is not a digit follows. */
  lemma ParseIntRoundTrip(n: int, tail: string)
    requires tail == [] || !IsDigit(tail[0])
    ensures ParseInt(IntToString(n) + tail) == Some(n)
  {
    var m: nat := if n < 0 then -n else n;
    var d := NatToString(m);
    NatToStringRoundTrip(m);
    if n < 0 {
      assert IntToString(n) == "-" + d;
      ParseNegatedDigits(d, tail);
    } else {
      assert IntToString(n) == d;
      ParseDigits(d, tail);
    }
  }
}
