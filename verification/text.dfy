/**
  The string operations the pages and routes rely on: ASCII case mapping
  (`toLowerCase`, `toUpperCase`), `trim` with JavaScript's whitespace set,
  `includes`, the first-letter capitalisation of chart labels and the
  decimal rendering of `String(n)` for a natural number.
 */
module Text {

  /** ASCII `toLowerCase` of one character. */
  function LowerChar(c: char): char
  {
    if 'A' <= c <= 'Z' then (c as int + 32) as char else c
  }

  /** ASCII `toUpperCase` of one character. */
  function UpperChar(c: char): char
  {
    if 'a' <= c <= 'z' then (c as int - 32) as char else c
  }

  /** `s.toLowerCase()`, character by character. */
  function Lower(s: string): (r: string)
    ensures |r| == |s|
    ensures forall i :: 0 <= i < |s| ==> r[i] == LowerChar(s[i])
  {
    seq(|s|, i requires 0 <= i < |s| => LowerChar(s[i]))
  }

  /**
    JavaScript's `WhiteSpace` and `LineTerminator` characters, the set that
    `String.prototype.trim` removes.
   */
  predicate IsWhitespace(c: char)
  {
    var n := c as int;
    || n == 0x09 || n == 0x0A || n == 0x0B || n == 0x0C || n == 0x0D
    || n == 0x20 || n == 0xA0 || n == 0x1680
    || (0x2000 <= n <= 0x200A)
    || n == 0x2028 || n == 0x2029 || n == 0x202F || n == 0x205F
    || n == 0x3000 || n == 0xFEFF
  }

  /** Every character of `s` from position `lo` up to `hi` is whitespace. */
  predicate WhitespaceBetween(s: string, lo: int, hi: int)
  {
    forall k :: lo <= k < hi && 0 <= k < |s| ==> IsWhitespace(s[k])
  }

  /** Every character of `s` is whitespace. */
  predicate AllWhitespace(s: string)
  {
    WhitespaceBetween(s, 0, |s|)
  }

  /** The first position at or after `i` that does not hold whitespace, or `|s|`. */
  function SkipLeading(s: string, i: nat): (j: nat)
    requires i <= |s|
    ensures i <= j <= |s|
    ensures WhitespaceBetween(s, i, j)
    ensures j < |s| ==> !IsWhitespace(s[j])
    decreases |s| - i
  {
    if i < |s| && IsWhitespace(s[i]) then SkipLeading(s, i + 1) else i
  }

  /** The end of `s[lo..j]` once the whitespace at its end is dropped. */
  function SkipTrailing(s: string, lo: nat, j: nat): (e: nat)
    requires lo <= j <= |s|
    ensures lo <= e <= j
    ensures WhitespaceBetween(s, e, j)
    ensures e > lo ==> !IsWhitespace(s[e - 1])
    decreases j - lo
  {
    if j > lo && IsWhitespace(s[j - 1]) then SkipTrailing(s, lo, j - 1) else j
  }

  /** `r` is the slice of `s` at `i` with nothing but whitespace around it. */
  predicate TrimmedAt(s: string, r: string, i: int)
  {
    && 0 <= i <= |s| - |r| && r == s[i..i + |r|]
    && WhitespaceBetween(s, 0, i) && WhitespaceBetween(s, i + |r|, |s|)
  }

  /**
    `s.trim()`: the input with its leading and trailing whitespace removed.
    The result is a slice of `s` with only whitespace before and after it,
    and it neither starts nor ends with whitespace.
   */
  function Trim(s: string): (r: string)
    ensures |r| <= |s|
    ensures exists i :: TrimmedAt(s, r, i)
    ensures r == "" <==> AllWhitespace(s)
    ensures |r| > 0 ==> !IsWhitespace(r[0]) && !IsWhitespace(r[|r| - 1])
  {
    var a := SkipLeading(s, 0);
    var b := SkipTrailing(s, a, |s|);
    assert a < |s| ==> b > a;
    assert TrimmedAt(s, s[a..b], a);
    s[a..b]
  }

  /** Skipping from `i` stops at `j` when only whitespace lies between and `s[j]` is not whitespace. */
  lemma {:induction false} SkipLeadingAt(s: string, i: nat, j: nat)
    requires i <= j <= |s|
    requires WhitespaceBetween(s, i, j)
    requires j < |s| ==> !IsWhitespace(s[j])
    ensures SkipLeading(s, i) == j
    decreases j - i
  {
    if i < j {
      SkipLeadingAt(s, i + 1, j);
    }
  }

  /** Dropping from `j` stops at `e` when only whitespace lies after it and `s[e - 1]` is not whitespace. */
  lemma {:induction false} SkipTrailingAt(s: string, lo: nat, e: nat, j: nat)
    requires lo <= e <= j <= |s|
    requires WhitespaceBetween(s, e, j)
    requires e > lo ==> !IsWhitespace(s[e - 1])
    ensures SkipTrailing(s, lo, j) == e
    decreases j - e
  {
    if e < j {
      SkipTrailingAt(s, lo, e, j - 1);
    }
  }

  /**
    `trim` is pinned down by its description: whenever `s` is whitespace,
    then `m`, then whitespace, and `m` is empty or starts and ends with
    something else, trimming `s` gives exactly `m`.
   */
  lemma TrimUnique(pre: string, m: string, post: string)
    requires AllWhitespace(pre) && AllWhitespace(post)
    requires |m| > 0 ==> !IsWhitespace(m[0]) && !IsWhitespace(m[|m| - 1])
    ensures Trim(pre + m + post) == m
  {
    var s := pre + m + post;
    var a, b := |pre|, |pre| + |m|;
    assert forall k :: 0 <= k < a ==> s[k] == pre[k];
    assert forall k :: b <= k < |s| ==> s[k] == post[k - b];
    if |m| == 0 {
      assert AllWhitespace(s);
    } else {
      assert s[a] == m[0] && s[b - 1] == m[|m| - 1];
      SkipLeadingAt(s, 0, a);
      SkipTrailingAt(s, a, b, |s|);
      assert s[a..b] == m;
    }
  }

  /** Trimming an already trimmed string changes nothing. */
  lemma TrimIdempotent(s: string)
    ensures Trim(Trim(s)) == Trim(s)
  {
    var r := Trim(s);
    assert "" + r + "" == r;
    TrimUnique("", r, "");
  }

  /** Trimming a lower-case string leaves it in lower case. */
  lemma TrimKeepsLower(s: string)
    requires Lower(s) == s
    ensures Lower(Trim(s)) == Trim(s)
  {
    var r := Trim(s);
    var i :| TrimmedAt(s, r, i);
    forall k | 0 <= k < |r|
      ensures Lower(r)[k] == r[k]
    {
      assert r[k] == s[i + k];
      assert Lower(s)[i + k] == LowerChar(s[i + k]);
    }
  }

  /** `needle` occurs in `hay` starting at position `i`. */
  predicate OccursAt(hay: string, needle: string, i: int)
  {
    0 <= i <= |hay| - |needle| && hay[i..i + |needle|] == needle
  }

  /** `hay.includes(needle)`: `needle` occurs somewhere in `hay`. */
  predicate Includes(hay: string, needle: string): (b: bool)
    ensures b <==> exists i :: OccursAt(hay, needle, i)
    decreases |hay|
  {
    if needle <= hay then
      assert OccursAt(hay, needle, 0);
      true
    else if |hay| == 0 then false
    else
      var b := Includes(hay[1..], needle);
      OccursShift(hay, needle);
      b
  }

  /** Without a match at the front, `needle` occurs in `hay` exactly when it occurs in its tail. */
  lemma OccursShift(hay: string, needle: string)
    requires |hay| > 0 && !(needle <= hay)
    ensures (exists i :: OccursAt(hay[1..], needle, i)) <==> (exists i :: OccursAt(hay, needle, i))
  {
    if exists i :: OccursAt(hay[1..], needle, i) {
      var i :| OccursAt(hay[1..], needle, i);
      assert hay[1..][i..i + |needle|] == hay[i + 1..i + 1 + |needle|];
      assert OccursAt(hay, needle, i + 1);
    }
    if exists i :: OccursAt(hay, needle, i) {
      var i :| OccursAt(hay, needle, i);
      assert i != 0;
      assert hay[1..][i - 1..i - 1 + |needle|] == hay[i..i + |needle|];
      assert OccursAt(hay[1..], needle, i - 1);
    }
  }

  /** Nothing but the empty string occurs in the empty string. */
  lemma IncludedInEmpty(needle: string)
    ensures Includes("", needle) <==> needle == ""
  {
  }

  /**
    `s.charAt(0).toUpperCase() + s.slice(1)`: only the first character may
    change, and an empty string stays empty.
   */
  function Capitalize(s: string): (r: string)
    ensures |r| == |s|
    ensures |s| > 0 ==> r[0] == UpperChar(s[0]) && r[1..] == s[1..]
  {
    if |s| == 0 then "" else [UpperChar(s[0])] + s[1..]
  }

  /** Capitalising never changes a string's lower-case form. */
  lemma {:induction false} CapitalizeKeepsLower(s: string)
    ensures Lower(Capitalize(s)) == Lower(s)
  {
    if |s| > 0 {
      var c := s[0];
      assert LowerChar(UpperChar(c)) == LowerChar(c);
      assert Lower(Capitalize(s))[0] == Lower(s)[0];
    }
  }

  predicate IsDigit(c: char)
  {
    '0' <= c <= '9'
  }

  predicate AllDigits(s: string)
  {
    forall i :: 0 <= i < |s| ==> IsDigit(s[i])
  }

  function DigitChar(d: nat): (c: char)
    requires d < 10
    ensures IsDigit(c)
  {
    ('0' as int + d) as char
  }

  /** `String(n)` for a natural number: its decimal digits, most significant first. */
  function NatToString(n: nat): (s: string)
    ensures |s| > 0 && AllDigits(s)
    ensures |s| > 1 ==> s[0] != '0'
    decreases n
  {
    if n < 10 then [DigitChar(n)] else NatToString(n / 10) + [DigitChar(n % 10)]
  }

  /** The value of a string of decimal digits. */
  function ParseDecimal(s: string): nat
    requires AllDigits(s)
  {
    if |s| == 0 then 0 else ParseDecimal(s[..|s| - 1]) * 10 + (s[|s| - 1] as int - '0' as int)
  }

  /** Reading back the decimal rendering of `n` yields `n`. */
  lemma {:induction false} ParseNatToString(n: nat)
    ensures ParseDecimal(NatToString(n)) == n
    decreases n
  {
    if n >= 10 {
      var s := NatToString(n / 10);
      ParseNatToString(n / 10);
      assert (s + [DigitChar(n % 10)])[..|s|] == s;
    }
  }

  /** Distinct numbers render as distinct strings. */
  lemma NatToStringInjective(m: nat, n: nat)
    ensures NatToString(m) == NatToString(n) <==> m == n
  {
    ParseNatToString(m);
    ParseNatToString(n);
  }
}
