/** regexUtilLibrary.py: escaping of regular-expression metacharacters by a
    per-character translation table. */
module RegexEscape {

  /** The characters the translation table maps to a backslash pair. */
  const SpecialChars: string := ".^$*+?{}()\\[]|:-"

  predicate IsSpecial(c: char) {
    c in SpecialChars
  }

  /** `escapeRegexSpecChrs(u)`: every special character becomes a backslash
      followed by itself; all other characters are copied. */
  function Escape(u: string): (r: string)
    ensures |r| == |u| + CountSpecial(u)
    ensures |u| > 0 && IsSpecial(u[0]) ==> r[..2] == ['\\', u[0]]
    ensures |u| > 0 && !IsSpecial(u[0]) ==> r[0] == u[0]
  {
    if |u| == 0 then ""
    else (if IsSpecial(u[0]) then ['\\', u[0]] else [u[0]]) + Escape(u[1..])
  }

  function CountSpecial(u: string): nat {
    if |u| == 0 then 0
    else (if IsSpecial(u[0]) then 1 else 0) + CountSpecial(u[1..])
  }

  /** Reading an escaped string back: a backslash is dropped and the
      character after it is kept literally. */
  function Unescape(s: string): string {
    if |s| == 0 then ""
    else if s[0] == '\\' && |s| >= 2 then [s[1]] + Unescape(s[2..])
    else [s[0]] + Unescape(s[1..])
  }

  /** Escaping is lossless: dropping each escaping backslash recovers the
      input. */
  lemma {:induction false} UnescapeEscape(u: string)
    ensures Unescape(Escape(u)) == u
    decreases |u|
  {
    if |u| > 0 {
      UnescapeEscape(u[1..]);
      var tail := Escape(u[1..]);
      var e := Escape(u);
      if IsSpecial(u[0]) {
        assert e == ['\\', u[0]] + tail;
        assert e[0] == '\\' && e[1] == u[0] && e[2..] == tail;
        assert Unescape(e) == [u[0]] + Unescape(tail);
      } else {
        assert u[0] != '\\' by { assert SpecialChars[10] == '\\'; }
        assert e == [u[0]] + tail;
        assert e[0] == u[0] && e[1..] == tail;
        assert Unescape(e) == [u[0]] + Unescape(tail);
      }
      assert u == [u[0]] + u[1..];
    }
  }

  /** Escaping works character by character, so it distributes over
      concatenation. */
  lemma {:induction false} EscapeConcat(a: string, b: string)
    ensures Escape(a + b) == Escape(a) + Escape(b)
    decreases |a|
  {
    if |a| > 0 {
      assert (a + b)[0] == a[0];
      assert (a + b)[1..] == a[1..] + b;
      EscapeConcat(a[1..], b);
    } else {
      assert a + b == b;
    }
  }

  /** A string without special characters is returned unchanged. */
  lemma {:induction false} EscapePlain(u: string)
    requires forall k :: 0 <= k < |u| ==> !IsSpecial(u[k])
    ensures Escape(u) == u
    decreases |u|
  {
    if |u| > 0 {
      EscapePlain(u[1..]);
      assert u == [u[0]] + u[1..];
    }
  }

  /** The example of the source's documentation: "+" becomes "\+". */
  lemma EscapePlus()
    ensures Escape("+") == "\\+"
  {
    assert IsSpecial('+');
    assert "+"[1..] == "";
  }
}
