/** The few pieces of Rust's standard string handling the back-end relies on:
    `str::trim`, `char::is_whitespace`, `u16::to_string`, `str::parse::<u16>` and
    `split('/').last()`. */
module Text {
  import opened Errors

  /** Rust's `u16`. */
  type uint16 = x: int | 0 <= x < 0x1_0000

  /** Unicode White_Space, the set `char::is_whitespace` (and so `str::trim`) uses. */
  predicate IsWhitespace(c: char) {
    || c == ' ' || ('\t' <= c <= '\r')
    || c == '\U{0085}' || c == '\U{00A0}' || c == '\U{1680}'
    || ('\U{2000}' <= c <= '\U{200A}')
    || c == '\U{2028}' || c == '\U{2029}' || c == '\U{202F}' || c == '\U{205F}' || c == '\U{3000}'
  }

  predicate AllWhitespace(s: string) {
    forall i | 0 <= i < |s| :: IsWhitespace(s[i])
  }

  /** Where the white space that starts at `i` ends. */
  function LeadingEnd(s: string, i: nat): (k: nat)
    requires i <= |s|
    ensures i <= k <= |s|
    ensures forall j | i <= j < k :: IsWhitespace(s[j])
    ensures k < |s| ==> !IsWhitespace(s[k])
    decreases |s| - i
  {
    if i < |s| && IsWhitespace(s[i]) then LeadingEnd(s, i + 1) else i
  }

  /** Where the white space that ends at `j` starts, looking no further back
      than `lo`. */
  function TrailingStart(s: string, lo: nat, j: nat): (e: nat)
    requires lo <= j <= |s|
    ensures lo <= e <= j
    ensures forall m | e <= m < j :: IsWhitespace(s[m])
    ensures e > lo ==> !IsWhitespace(s[e - 1])
  {
    if j > lo && IsWhitespace(s[j - 1]) then TrailingStart(s, lo, j - 1) else j
  }

  /** `str::trim`: the infix of `s` left once the white space at both ends is
      dropped. It starts where the leading white space ends, it neither
      starts nor ends with white space, and only white space follows it. */
  function Trim(s: string): (r: string)
    ensures var k := LeadingEnd(s, 0);
      && k + |r| <= |s| && r == s[k..k + |r|]
      && (forall j | 0 <= j < k :: IsWhitespace(s[j]))
      && (forall j | k + |r| <= j < |s| :: IsWhitespace(s[j]))
    ensures r != [] ==> !IsWhitespace(r[0]) && !IsWhitespace(r[|r| - 1])
  {
    var k := LeadingEnd(s, 0);
    s[k..TrailingStart(s, k, |s|)]
  }

  /** `s.trim().is_empty()` holds exactly for the strings made of white space only. */
  lemma TrimEmptyIffBlank(s: string)
    ensures Trim(s) == [] <==> AllWhitespace(s)
  {
    var k := LeadingEnd(s, 0);
    if Trim(s) == [] {
      forall j | 0 <= j < |s| ensures IsWhitespace(s[j]) {
        if j >= k { assert k + |Trim(s)| <= j; }
      }
    }
  }

  /** Trimming twice is trimming once. */
  lemma TrimIdempotent(s: string)
    ensures Trim(Trim(s)) == Trim(s)
  {
    var r := Trim(s);
    if r != [] {
      assert LeadingEnd(r, 0) == 0;
      assert TrailingStart(r, 0, |r|) == |r|;
      assert r[0..|r|] == r;
    }
  }

  predicate IsDigit(c: char) { '0' <= c <= '9' }

  predicate AllDigits(s: string) {
    forall i | 0 <= i < |s| :: IsDigit(s[i])
  }

  function DigitChar(d: int): (c: char)
    requires 0 <= d < 10
    ensures IsDigit(c) && c as int - '0' as int == d
  {
    ('0' as int + d) as char
  }

  /** Value of a string of decimal digits, most significant first. */
  function DigitsValue(s: string): nat
    requires AllDigits(s)
  {
    if s == [] then 0
    else 10 * DigitsValue(s[..|s| - 1]) + (s[|s| - 1] as int - '0' as int)
  }

  /** `n.to_string()` for an unsigned integer: its decimal digits, with no
      leading zero except for 0 itself. */
  function DecimalString(n: nat): (s: string)
    ensures |s| >= 1 && AllDigits(s)
    ensures s[0] == '0' ==> n == 0
  {
    if n < 10 then [DigitChar(n)] else DecimalString(n / 10) + [DigitChar(n % 10)]
  }

  lemma {:induction false} DecimalValue(n: nat)
    ensures DigitsValue(DecimalString(n)) == n
  {
    if n >= 10 {
      var s := DecimalString(n);
      assert s[..|s| - 1] == DecimalString(n / 10);
      DecimalValue(n / 10);
    }
  }

  /** Distinct numbers have distinct decimal strings. */
  lemma DecimalInjective(m: nat, n: nat)
    ensures DecimalString(m) == DecimalString(n) ==> m == n
  {
    DecimalValue(m);
    DecimalValue(n);
  }

  /** `s.parse::<u16>().ok()`: an optional `+`, then one or more ASCII digits
      whose value fits in 16 bits; anything else (empty text, a lone sign, a
      `-`, white space, overflow) is rejected. */
  function ParseU16(s: string): (r: Option<uint16>)
    ensures r.Some? ==> s != [] && s != "+"
    ensures r.Some? ==> var d := if s[0] == '+' then s[1..] else s;
                        AllDigits(d) && DigitsValue(d) == r.value
  {
    var digits := if |s| > 0 && s[0] == '+' then s[1..] else s;
    if digits == [] || !AllDigits(digits) then None
    else
      var v := DigitsValue(digits);
      if v < 0x1_0000 then Some(v) else None
  }

  /** What `u16::to_string` writes, `str::parse::<u16>` reads back. */
  lemma ParseDecimalRoundTrip(p: uint16)
    ensures ParseU16(DecimalString(p)) == Some(p)
  {
    DecimalValue(p);
  }

  /** `u` is a suffix of `s` without `/` that is either all of `s` or
      preceded by a `/`. */
  predicate IsLastSegment(s: string, u: string) {
    && |u| <= |s| && s[|s| - |u|..] == u
    && '/' !in u
    && (|u| < |s| ==> s[|s| - |u| - 1] == '/')
  }

  /** Each string has at most one last segment. */
  lemma LastSegmentUnique(s: string, u: string, v: string)
    requires IsLastSegment(s, u) && IsLastSegment(s, v)
    ensures u == v
  {
  }

  /** `s.split('/').last()`: the text after the last `/`, or all of `s` when it
      has none (so never absent). */
  function LastSegment(s: string): (r: string)
    ensures IsLastSegment(s, r)
  {
    if s == [] then []
    else if s[|s| - 1] == '/' then []
    else LastSegment(s[..|s| - 1]) + [s[|s| - 1]]
  }

  /** The last segment is shorter than the whole string exactly when the
      string contains a `/`; otherwise it is the whole string. */
  lemma {:induction false} SegmentShorterIffSlash(s: string)
    ensures |LastSegment(s)| < |s| <==> '/' in s
    ensures '/' !in s ==> LastSegment(s) == s
  {
    if s != [] && s[|s| - 1] != '/' {
      var init := s[..|s| - 1];
      SegmentShorterIffSlash(init);
      assert s == init + [s[|s| - 1]];
      assert '/' in s <==> '/' in init;
    }
  }
}
