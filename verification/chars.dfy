/** Character classes and the handful of Python `str` operations the
    original relies on (`isdigit`, `isspace`, `isalpha`, `upper`, `strip`,
    `find`, `rfind`, `startswith`), restricted to ASCII. */
module Chars {
  import opened Results

  predicate IsDigit(c: char) {
    '0' <= c <= '9'
  }

  function DigitValue(c: char): (v: nat)
    requires IsDigit(c)
    ensures v < 10
  {
    (c as int) - ('0' as int)
  }

  /** Python's `str.isspace` on ASCII: blank, tab, line feed, vertical
      tab, form feed, carriage return and the four separators 0x1C-0x1F,
      which `strip` and `split` also treat as whitespace. */
  predicate IsSpace(c: char) {
    c == ' ' || '\t' <= c <= '\r' || '\U{1C}' <= c <= '\U{1F}'
  }

  predicate IsAlpha(c: char) {
    ('a' <= c <= 'z') || ('A' <= c <= 'Z')
  }

  /** Python's `str.upper` on one character: ASCII letters are folded,
      everything else is returned unchanged. */
  function Upper(c: char): (u: char)
    ensures 'a' <= c <= 'z' ==> u as int == c as int - 32
    ensures !('a' <= c <= 'z') ==> u == c
    ensures IsAlpha(c) <==> IsAlpha(u) && 'A' <= u <= 'Z'
  {
    if 'a' <= c <= 'z' then (c as int - 32) as char else c
  }

  /** `n` copies of `c`. */
  function Repeat(c: char, n: nat): (r: string)
    ensures |r| == n
    ensures forall k :: 0 <= k < n ==> r[k] == c
  {
    if n == 0 then "" else Repeat(c, n - 1) + [c]
  }

  /** Spaces appended until `s` is `w` long; a longer `s` is kept. */
  function PadTo(s: string, w: nat): (r: string)
    ensures |r| == if |s| < w then w else |s|
    ensures r[..|s|] == s
    ensures forall k :: |s| <= k < |r| ==> r[k] == ' '
  {
    if |s| < w then s + Repeat(' ', w - |s|) else s
  }

  predicate AllIn(s: string, allowed: set<char>) {
    forall k :: 0 <= k < |s| ==> s[k] in allowed
  }

  predicate AllSpace(s: string) {
    forall k :: 0 <= k < |s| ==> IsSpace(s[k])
  }

  predicate StartsWith(s: string, prefix: string) {
    |prefix| <= |s| && s[..|prefix|] == prefix
  }

  /** `s.lstrip()`: drops the leading whitespace. */
  function LStrip(s: string): (r: string)
    ensures |r| <= |s| && r == s[|s| - |r|..]
    ensures AllSpace(s[..|s| - |r|])
    ensures |r| > 0 ==> !IsSpace(r[0])
  {
    if |s| > 0 && IsSpace(s[0]) then LStrip(s[1..]) else s
  }

  /** `s.rstrip()`: drops the trailing whitespace. */
  function RStrip(s: string): (r: string)
    ensures |r| <= |s| && r == s[..|r|]
    ensures AllSpace(s[|r|..])
    ensures |r| > 0 ==> !IsSpace(r[|r| - 1])
  {
    if |s| > 0 && IsSpace(s[|s| - 1]) then RStrip(s[..|s| - 1]) else s
  }

  /** `s.strip()`: drops whitespace at both ends. */
  function Strip(s: string): (r: string)
    ensures exists i :: 0 <= i <= |s| - |r| && r == s[i..i + |r|] && AllSpace(s[..i]) && AllSpace(s[i + |r|..])
    ensures |r| == 0 <==> AllSpace(s)
    ensures |r| > 0 ==> !IsSpace(r[0]) && !IsSpace(r[|r| - 1])
  {
    RStrip(LStrip(s))
  }

  /** Stripping a stripped line changes nothing. */
  lemma StripIdempotent(s: string)
    ensures Strip(Strip(s)) == Strip(s)
  {
  }

  /** `s.find(c)`: the first index of `c`, or -1. */
  function Find(s: string, c: char): (r: int)
    ensures -1 <= r < |s|
    ensures r >= 0 ==> s[r] == c && c !in s[..r]
    ensures r == -1 <==> c !in s
  {
    if |s| == 0 then -1
    else if s[0] == c then 0
    else
      var k := Find(s[1..], c);
      if k < 0 then -1
      else
        assert s[..k + 1] == [s[0]] + s[1..][..k];
        k + 1
  }

  /** `s.rfind(c)`: the last index of `c`, or -1. */
  function RFind(s: string, c: char): (r: int)
    ensures -1 <= r < |s|
    ensures r >= 0 ==> s[r] == c && c !in s[r + 1..]
    ensures r == -1 <==> c !in s
  {
    if |s| == 0 then -1
    else if s[|s| - 1] == c then |s| - 1
    else RFind(s[..|s| - 1], c)
  }

  predicate AllDigits(t: string) {
    forall k :: 0 <= k < |t| ==> IsDigit(t[k])
  }

  /** The value of a string of decimal digits, most significant first: what
      `int()` makes of it. */
  function DecimalValue(t: string): (v: nat)
    requires AllDigits(t)
    ensures |t| == 1 ==> v == DigitValue(t[0])
    ensures |t| == 2 ==> v == 10 * DigitValue(t[0]) + DigitValue(t[1])
  {
    if |t| == 0 then 0 else 10 * DecimalValue(t[..|t| - 1]) + DigitValue(t[|t| - 1])
  }

  /** The decimal text of `n`, with no leading zeros. */
  function DecimalText(n: nat): (t: string)
    ensures |t| > 0 && AllDigits(t)
    ensures n < 10 ==> |t| == 1
    ensures 10 <= n < 100 ==> |t| == 2
  {
    if n < 10 then [('0' as int + n) as char]
    else DecimalText(n / 10) + [('0' as int + n % 10) as char]
  }

  /** Reading the decimal text of a number gives the number back. */
  lemma {:induction false} DecimalRoundTrip(n: nat)
    ensures DecimalValue(DecimalText(n)) == n
  {
    if n >= 10 {
      DecimalRoundTrip(n / 10);
      var t := DecimalText(n);
      assert t[..|t| - 1] == DecimalText(n / 10);
    }
  }

  /** `s.expandtabs(size)` continued from column `col`: each tab becomes
      the spaces that reach the next multiple of `size` (none when `size`
      is 0), and a line break sends the column back to 0. */
  function ExpandTabsFrom(s: string, size: nat, col: nat): (r: string)
    ensures forall k :: 0 <= k < |r| ==> r[k] != '\t'
    ensures |r| >= |s| - Count(s, '\t')
    decreases |s|
  {
    if |s| == 0 then ""
    else if s[0] == '\t' then
      var n := if size > 0 then size - col % size else 0;
      Repeat(' ', n) + ExpandTabsFrom(s[1..], size, col + n)
    else if s[0] == '\n' || s[0] == '\r' then [s[0]] + ExpandTabsFrom(s[1..], size, 0)
    else [s[0]] + ExpandTabsFrom(s[1..], size, col + 1)
  }

  /** `s.expandtabs(size)`. */
  function ExpandTabs(s: string, size: nat): (r: string)
    ensures forall k :: 0 <= k < |r| ==> r[k] != '\t'
  {
    ExpandTabsFrom(s, size, 0)
  }

  /** How often `c` occurs in `s`. */
  function Count(s: string, c: char): (n: nat)
    ensures n <= |s|
    ensures n == 0 <==> c !in s
    ensures (exists k :: 0 <= k < |s| && s[k] != c) ==> n < |s|
  {
    if |s| == 0 then 0 else (if s[0] == c then 1 else 0) + Count(s[1..], c)
  }

  /** A line without tabs is left as it is, and a tab is replaced by
      between 1 and `size` spaces. */
  lemma {:induction false} ExpandTabsIdentity(s: string, size: nat, col: nat)
    requires '\t' !in s
    ensures ExpandTabsFrom(s, size, col) == s
    decreases |s|
  {
    if |s| > 0 {
      assert s[0] != '\t' && '\t' !in s[1..];
      ExpandTabsIdentity(s[1..], size, if s[0] == '\n' || s[0] == '\r' then 0 else col + 1);
    }
  }

  lemma TabWidth(size: nat, col: nat, rest: string)
    requires size > 0
    ensures var r := ExpandTabsFrom("\t" + rest, size, col);
      var n := size - col % size;
      && 1 <= n <= size
      && r == Repeat(' ', n) + ExpandTabsFrom(rest, size, col + n)
  {
    assert ("\t" + rest)[1..] == rest;
  }

  /** A line keeps a character after right-stripping and tab expansion
      exactly when it is not blank. */
  lemma NonBlankStays(raw: string, size: nat)
    ensures |ExpandTabs(RStrip(raw), size)| == 0 <==> AllSpace(raw)
  {
    var s := RStrip(raw);
    if |s| > 0 {
      assert !IsSpace(s[|s| - 1]) && s[|s| - 1] == raw[|s| - 1];
    }
  }
}
