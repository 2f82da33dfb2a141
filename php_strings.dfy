/**
 * The PHP string built-ins the connection context relies on: `intval` on a
 * decimal string, `strpos` and the `preg_replace` that strips a class name
 * down to its last namespace segment.
 */
module PhpStrings {
  import opened Wrappers

  predicate IsDigit(c: char) { '0' <= c <= '9' }

  predicate AllDigits(s: string) { forall i :: 0 <= i < |s| ==> IsDigit(s[i]) }

  /** The whitespace PHP skips in front of a numeric string: space, \t, \n, \r, \v and \f. */
  predicate IsSpace(c: char) { c == ' ' || c == '\t' || c == '\n' || c == '\r' || c as int == 0x0B || c as int == 0x0C }

  function DigitValue(c: char): (v: nat)
    requires IsDigit(c)
    ensures v < 10
  {
    c as int - '0' as int
  }

  function DigitChar(d: nat): (c: char)
    requires d < 10
    ensures IsDigit(c) && DigitValue(c) == d
  {
    ('0' as int + d) as char
  }

  /** `s` with its leading whitespace removed. */
  function SkipSpace(s: string): string
  {
    if s != [] && IsSpace(s[0]) then SkipSpace(s[1..]) else s
  }

  /** What `SkipSpace` drops is whitespace, and what it keeps starts with something else. */
  lemma {:induction false} SkipSpaceDropsSpace(s: string)
    ensures var t := SkipSpace(s);
      && |t| <= |s| && t == s[|s| - |t|..]
      && (forall i :: 0 <= i < |s| - |t| ==> IsSpace(s[i]))
      && (t == [] || !IsSpace(t[0]))
  {
    if s != [] && IsSpace(s[0]) {
      SkipSpaceDropsSpace(s[1..]);
      var t := SkipSpace(s);
      assert s[1..][|s| - 1 - |t|..] == s[|s| - |t|..];
      forall i | 0 <= i < |s| - |t|
        ensures IsSpace(s[i])
      {
        if i > 0 {
          assert s[i] == s[1..][i - 1];
        }
      }
    }
  }

  /** The longest prefix of `s` made of decimal digits. */
  function LeadingDigits(s: string): (d: string)
    ensures d <= s && AllDigits(d)
    ensures |d| < |s| ==> !IsDigit(s[|d|])
  {
    if s == [] || !IsDigit(s[0]) then [] else [s[0]] + LeadingDigits(s[1..])
  }

  /** The number a string of decimal digits denotes, most significant digit first. */
  function DigitsValue(d: string): nat
    requires AllDigits(d)
  {
    if d == [] then 0 else DigitsValue(d[..|d| - 1]) * 10 + DigitValue(d[|d| - 1])
  }

  /**
   * PHP's `intval` of a string, restricted to decimal integers: leading
   * whitespace, an optional sign, then the longest run of digits; 0 when
   * there are no digits.
   */
  function IntVal(s: string): int
  {
    var t := SkipSpace(s);
    if t != [] && (t[0] == '-' || t[0] == '+') then
      var v: int := DigitsValue(LeadingDigits(t[1..]));
      if t[0] == '-' then -v else v
    else
      DigitsValue(LeadingDigits(t))
  }

  /** The decimal text of `n`, as PHP renders an integer in a string. */
  function Decimal(n: nat): (s: string)
    ensures s != [] && AllDigits(s)
  {
    if n < 10 then [DigitChar(n)] else Decimal(n / 10) + [DigitChar(n % 10)]
  }

  lemma {:induction false} DigitsValueOfDecimal(n: nat)
    ensures DigitsValue(Decimal(n)) == n
  {
    if n >= 10 {
      var d := Decimal(n);
      DigitsValueOfDecimal(n / 10);
      assert d[..|d| - 1] == Decimal(n / 10);
    }
  }

  lemma {:induction false} LeadingDigitsOfDigits(d: string, rest: string)
    requires AllDigits(d)
    requires rest == [] || !IsDigit(rest[0])
    ensures LeadingDigits(d + rest) == d
  {
    if d != [] {
      assert (d + rest)[1..] == d[1..] + rest;
      LeadingDigitsOfDigits(d[1..], rest);
    }
  }

  /** A string that starts with a digit has no whitespace or sign for `intval` to skip. */
  lemma IntValOfDigitStart(s: string)
    requires s != [] && IsDigit(s[0])
    ensures IntVal(s) == DigitsValue(LeadingDigits(s))
  {
    assert SkipSpace(s) == s;
  }

  /**
   * `intval` reads back the number whose decimal text starts a string, as
   * long as no further digit follows it ("5_media" reads as 5).
   */
  lemma IntValOfDecimal(n: nat, rest: string)
    requires rest == [] || !IsDigit(rest[0])
    ensures IntVal(Decimal(n) + rest) == n
  {
    var d := Decimal(n);
    assert (d + rest)[0] == d[0];
    IntValOfDigitStart(d + rest);
    LeadingDigitsOfDigits(d, rest);
    DigitsValueOfDecimal(n);
  }

  /** Whether `needle` occurs in `haystack` starting at offset `i`. */
  predicate OccursAt(haystack: string, needle: string, i: nat)
  {
    i + |needle| <= |haystack| && haystack[i..i + |needle|] == needle
  }

  /** The first offset at or after `from` where `needle` occurs in `haystack`. */
  function StrPosFrom(haystack: string, needle: string, from: nat): Option<nat>
    decreases |haystack| - from
  {
    if from + |needle| > |haystack| then None
    else if OccursAt(haystack, needle, from) then Some(from)
    else StrPosFrom(haystack, needle, from + 1)
  }

  /** StrPosFrom finds an occurrence with none before it, or reports that there is none. */
  lemma {:induction false} StrPosFromFinds(haystack: string, needle: string, from: nat)
    decreases |haystack| - from
    ensures var r := StrPosFrom(haystack, needle, from);
      && (r.Some? ==> from <= r.value && OccursAt(haystack, needle, r.value))
      && (r.Some? ==> forall j: nat :: from <= j < r.value ==> !OccursAt(haystack, needle, j))
      && (r.None? ==> forall j: nat :: from <= j ==> !OccursAt(haystack, needle, j))
  {
    if from + |needle| <= |haystack| && !OccursAt(haystack, needle, from) {
      StrPosFromFinds(haystack, needle, from + 1);
    }
  }

  /** PHP's `strpos`: the offset of the first occurrence, or `false` (here None). */
  function StrPos(haystack: string, needle: string): Option<nat>
  {
    StrPosFrom(haystack, needle, 0)
  }

  /** `strpos(haystack, needle) !== false`. */
  predicate Contains(haystack: string, needle: string)
  {
    StrPos(haystack, needle).Some?
  }

  /** `strpos` reports the first occurrence of the needle, and `false` only when there is none. */
  lemma StrPosIsFirstOccurrence(haystack: string, needle: string)
    ensures StrPos(haystack, needle).Some? ==> OccursAt(haystack, needle, StrPos(haystack, needle).value)
    ensures StrPos(haystack, needle).Some? ==> forall j: nat :: j < StrPos(haystack, needle).value ==> !OccursAt(haystack, needle, j)
    ensures Contains(haystack, needle) <==> exists i: nat :: OccursAt(haystack, needle, i)
  {
    StrPosFromFinds(haystack, needle, 0);
  }

  /** The offset of the last `c` in `s`, or -1 when there is none. */
  function LastIndexOf(s: string, c: char): (i: int)
    ensures -1 <= i < |s|
  {
    if s == [] then -1
    else if s[|s| - 1] == c then |s| - 1
    else LastIndexOf(s[..|s| - 1], c)
  }

  /** LastIndexOf finds a `c`, and no `c` follows it; -1 means there is no `c` at all. */
  lemma {:induction false} LastIndexOfIsLast(s: string, c: char)
    ensures var i := LastIndexOf(s, c);
      && (i >= 0 ==> s[i] == c)
      && (forall j :: i < j < |s| ==> s[j] != c)
  {
    if s != [] && s[|s| - 1] != c {
      LastIndexOfIsLast(s[..|s| - 1], c);
      var i := LastIndexOf(s, c);
      forall j | i < j < |s|
        ensures s[j] != c
      {
        if j < |s| - 1 {
          assert s[j] == s[..|s| - 1][j];
        }
      }
    }
  }

  /**
   * `preg_replace('/.*\\\\/', '', s)` on a one-line string: everything up to
   * and including the last backslash is removed.
   */
  function ShortName(s: string): string
  {
    s[LastIndexOf(s, '\\') + 1..]
  }

  /** ShortName keeps the part of `s` after its last backslash, which holds no backslash. */
  lemma ShortNameIsLastSegment(s: string)
    ensures |ShortName(s)| <= |s| && ShortName(s) == s[|s| - |ShortName(s)|..]
    ensures forall j :: 0 <= j < |ShortName(s)| ==> ShortName(s)[j] != '\\'
    ensures |ShortName(s)| < |s| ==> s[|s| - |ShortName(s)| - 1] == '\\'
  {
    LastIndexOfIsLast(s, '\\');
  }
}
