/** What the two configuration readers (configUtilLibrary.py and
    configUtils.py) share: the normalisation of the configuration file's
    lines, the `ID=value` setting lines, and the values a setting may
    take. */
module ConfigText {
  import opened Results
  import opened Chars

  const Comment: char := '#'
  const SettingYes: string := "true"
  const SettingNo: string := "false"

  /** `"".join(line.split())`: the line with every whitespace character
      removed. */
  function RemoveSpace(s: string): (r: string)
    ensures |r| <= |s|
    ensures forall k :: 0 <= k < |r| ==> !IsSpace(r[k])
    ensures (forall k :: 0 <= k < |s| ==> !IsSpace(s[k])) ==> r == s
    ensures forall c :: c in r <==> c in s && !IsSpace(c)
    ensures |s| == 1 ==> r == if IsSpace(s[0]) then "" else s
  {
    if |s| == 0 then ""
    else
      var rest := RemoveSpace(s[1..]);
      assert forall c :: c in s <==> c == s[0] || c in s[1..];
      if IsSpace(s[0]) then rest else [s[0]] + rest
  }

  /** Removing whitespace distributes over concatenation; with the
      one-character case this makes the result the non-whitespace
      characters of the line in their original order. */
  lemma {:induction false} RemoveSpaceConcat(a: string, b: string)
    ensures RemoveSpace(a + b) == RemoveSpace(a) + RemoveSpace(b)
    decreases |a|
  {
    if |a| > 0 {
      assert (a + b)[1..] == a[1..] + b;
      RemoveSpaceConcat(a[1..], b);
    } else {
      assert a + b == b;
    }
  }

  /** The line a configuration file line becomes, if it is kept: a line
      that begins with the comment character is dropped; otherwise all
      whitespace is removed, an empty result is dropped, and a comment
      character after the first position cuts the rest of the line. */
  function NormaliseLine(line: string): (r: Option<string>)
    ensures StartsWith(line, [Comment]) ==> r.None?
    ensures r.None? <==> StartsWith(line, [Comment]) || |RemoveSpace(line)| == 0
    ensures r.Some? ==> |r.value| > 0 && forall k :: 0 <= k < |r.value| ==> !IsSpace(r.value[k])
    ensures r.Some? && r.value[0] != Comment ==> Comment !in r.value
    ensures r.Some? ==> StartsWith(RemoveSpace(line), r.value)
  {
    if StartsWith(line, [Comment]) then None
    else
      var s := RemoveSpace(line);
      if |s| == 0 then None
      else
        var idx := Find(s, Comment);
        if idx > 0 then Some(s[..idx]) else Some(s)
  }

  /** A kept line that does not open with the comment character is kept
      unchanged when normalised again. */
  lemma NormaliseIdempotent(line: string)
    requires NormaliseLine(line).Some? && NormaliseLine(line).value[0] != Comment
    ensures NormaliseLine(NormaliseLine(line).value) == NormaliseLine(line)
  {
    var s := NormaliseLine(line).value;
    assert !StartsWith(s, [Comment]);
    assert RemoveSpace(s) == s;
    assert Find(s, Comment) == -1;
  }

  /** A comment indented by whitespace is not recognised: once its
      whitespace is removed it is kept as a line that opens with the
      comment character. */
  lemma IndentedCommentKept(text: string)
    requires |text| > 0 && forall k :: 0 <= k < |text| ==> !IsSpace(text[k])
    ensures NormaliseLine([' ', Comment] + text) == Some([Comment] + text)
  {
    var line := [' ', Comment] + text;
    assert line[0] == ' ';
    assert line[1..] == [Comment] + text;
    assert RemoveSpace(line) == RemoveSpace(line[1..]);
    assert RemoveSpace([Comment] + text) == [Comment] + text;
    assert Find([Comment] + text, Comment) == 0;
  }

  /** `checkConfigFileLoaded`, the same in both configuration readers: a
      reader without stored lines has no file loaded. */
  function CheckConfigFileLoaded(lines: seq<string>): (r: Result<()>)
    ensures r.Ok? <==> |lines| > 0
    ensures r.Err? ==> r.error == ConfigError("config file not loaded", 0)
  {
    Need(|lines| > 0, ConfigError("config file not loaded", 0))
  }

  /** The lines the reader stores: each raw line normalised, the dropped
      ones left out, in order. */
  function LoadLines(raw: seq<string>): (r: seq<string>)
    ensures |r| <= |raw|
    ensures forall k :: 0 <= k < |r| ==> Normalised(r[k])
  {
    if |raw| == 0 then [] else LoadLines(raw[..|raw| - 1]) + Stored(raw[|raw| - 1])
  }

  /** The last raw line is stored after the ones before it. */
  lemma LoadLast(raw: seq<string>)
    requires |raw| > 0
    ensures LoadLines(raw) == LoadLines(raw[..|raw| - 1]) + Stored(raw[|raw| - 1])
  {
  }

  /** A stored line: not empty, free of whitespace, and free of the
      comment character unless it opens with it. */
  predicate Normalised(line: string) {
    && |line| > 0
    && (forall k :: 0 <= k < |line| ==> !IsSpace(line[k]))
    && (line[0] != Comment ==> Comment !in line)
  }

  /** What one raw line adds to the stored lines. */
  function Stored(line: string): (r: seq<string>)
    ensures |r| == 0 <==> NormaliseLine(line).None?
    ensures |r| > 0 ==> r == [NormaliseLine(line).value]
  {
    match NormaliseLine(line)
    case None => []
    case Some(s) => [s]
  }

  /** Loading the stored lines a second time stores them again, unless
      one of them opens with the comment character. */
  lemma {:induction false} ReloadStable(raw: seq<string>)
    requires NoneCommented(LoadLines(raw))
    ensures LoadLines(LoadLines(raw)) == LoadLines(raw)
  {
    if |raw| > 0 {
      var front := LoadLines(raw[..|raw| - 1]);
      var last := NormaliseLine(raw[|raw| - 1]);
      if last.Some? {
        var all := front + [last.value];
        assert all == LoadLines(raw);
        assert all[..|all| - 1] == front;
        assert all[|all| - 1] == last.value;
        assert NoneCommented(front) by {
          forall k | 0 <= k < |front| ensures front[k][0] != Comment {
            assert front[k] == all[k];
          }
        }
        ReloadStable(raw[..|raw| - 1]);
        NormaliseIdempotent(raw[|raw| - 1]);
      } else {
        assert LoadLines(raw) == front;
        ReloadStable(raw[..|raw| - 1]);
      }
    }
  }

  /** No stored line opens with the comment character. */
  predicate NoneCommented(lines: seq<string>) {
    forall k :: 0 <= k < |lines| ==> |lines[k]| > 0 && lines[k][0] != Comment
  }

  /** Lines are loaded one at a time: loading two runs of lines stores
      the first run's kept lines, then the second's. */
  lemma {:induction false} LoadLinesAppend(a: seq<string>, b: seq<string>)
    ensures LoadLines(a + b) == LoadLines(a) + LoadLines(b)
  {
    if |b| == 0 {
      assert a + b == a;
    } else {
      var ab := a + b;
      var front := b[..|b| - 1];
      var last := b[|b| - 1];
      assert ab[..|ab| - 1] == a + front;
      assert ab[|ab| - 1] == last;
      LoadLast(ab);
      LoadLast(b);
      LoadLinesAppend(a, front);
      var la, lf, st := LoadLines(a), LoadLines(front), Stored(last);
      assert (la + lf) + st == la + (lf + st);
    }
  }

  /** A line that is not empty and holds neither whitespace nor the
      comment character is stored as it is. */
  predicate Plain(line: string) {
    |line| > 0 && forall k :: 0 <= k < |line| ==> !IsSpace(line[k]) && line[k] != Comment
  }

  /** Plain lines are stored unchanged. */
  lemma {:induction false} LoadPlain(plain: seq<string>)
    requires forall k :: 0 <= k < |plain| ==> Plain(plain[k])
    ensures LoadLines(plain) == plain
  {
    if |plain| > 0 {
      var line := plain[|plain| - 1];
      assert RemoveSpace(line) == line;
      assert Comment !in line;
      LoadPlain(plain[..|plain| - 1]);
      assert plain[..|plain| - 1] + [line] == plain;
    }
  }

  /** Comment lines are dropped. */
  lemma {:induction false} LoadComments(comments: seq<string>)
    requires forall k :: 0 <= k < |comments| ==> StartsWith(comments[k], [Comment])
    ensures LoadLines(comments) == []
  {
    if |comments| > 0 {
      LoadComments(comments[..|comments| - 1]);
    }
  }

  /** The setting on a stored line for the option named `name`: the line
      must open with the name, and its first '=' must follow the name
      directly. Errors report `lineNo`. */
  function SettingOf(line: string, name: string, lineNo: int): (r: Result<string>)
    ensures r.Ok? <==> StartsWith(line, name) && Find(line, '=') == |name|
    ensures r.Err? ==> r.error.ConfigError? && r.error.line == lineNo
    ensures r.Ok? ==> line == name + "=" + r.value
  {
    if !StartsWith(line, name) then Err(ConfigError("improper ID", lineNo))
    else
      var idx := Find(line, '=');
      if idx != |name| then Err(ConfigError("missing \"=\"", lineNo))
      else
        assert line == line[..idx] + [line[idx]] + line[idx + 1..];
        Ok(line[idx + 1..])
  }

  /** A line written as the name, '=' and a value gives the value back,
      whenever the name holds no '='. */
  lemma SettingRoundTrip(name: string, value: string, lineNo: int)
    requires '=' !in name
    ensures SettingOf(name + "=" + value, name, lineNo) == Ok(value)
  {
    var line := name + "=" + value;
    assert line[..|name|] == name;
    assert line[|name|] == '=';
    assert line[..|name|] == name;
    FindFirst(line, '=', |name|);
    assert line[|name| + 1..] == value;
  }

  /** `Find` answers the first position of `c`. */
  lemma FindFirst(s: string, c: char, i: nat)
    requires i < |s| && s[i] == c && c !in s[..i]
    ensures Find(s, c) == i
  {
    assert c in s;
  }

  /** The boolean settings: exactly "true" or "false". */
  function ParseFlag(s: string): (r: Option<bool>)
    ensures r == Some(true) <==> s == SettingYes
    ensures r == Some(false) <==> s == SettingNo
  {
    if s == SettingYes then Some(true) else if s == SettingNo then Some(false) else None
  }

  /** The text of a flag. */
  function FlagText(b: bool): string {
    if b then SettingYes else SettingNo
  }

  lemma FlagRoundTrip(b: bool, s: string)
    ensures ParseFlag(FlagText(b)) == Some(b)
    ensures ParseFlag(s) == Some(b) ==> s == FlagText(b)
  {
  }

  /** `int(s)` on ASCII text: an optional sign and at least one decimal
      digit. */
  function ParseInt(s: string): (r: Option<int>)
    ensures r.Some? ==> |s| > 0
    ensures |s| > 0 && AllDigits(s) ==> r == Some(DecimalValue(s))
    ensures |s| > 1 && s[0] == '-' && AllDigits(s[1..]) ==> r == Some(0 - DecimalValue(s[1..]))
    ensures |s| > 1 && s[0] == '+' && AllDigits(s[1..]) ==> r == Some(DecimalValue(s[1..]))
    ensures r.Some? ==> AllDigits(s) || ((s[0] == '-' || s[0] == '+') && |s| > 1 && AllDigits(s[1..]))
  {
    if |s| > 0 && AllDigits(s) then Some(DecimalValue(s))
    else if |s| > 1 && (s[0] == '-' || s[0] == '+') && AllDigits(s[1..]) then
      var v := DecimalValue(s[1..]);
      Some(if s[0] == '-' then 0 - v else v)
    else None
  }

  /** The counting settings: an integer that is not negative. */
  function ParseCount(s: string): (r: Option<nat>)
    ensures r.Some? <==> ParseInt(s).Some? && ParseInt(s).value >= 0
    ensures r.Some? ==> r.value == ParseInt(s).value
  {
    match ParseInt(s)
    case Some(n) => if n >= 0 then Some(n) else None
    case None => None
  }

  /** Every count is read back from its decimal text; a minus sign makes
      any count but zero unreadable. */
  lemma CountRoundTrip(n: nat)
    ensures ParseCount(DecimalText(n)) == Some(n)
    ensures ParseCount("-" + DecimalText(n)) == if n == 0 then Some(0) else None
  {
    DecimalRoundTrip(n);
    var t := DecimalText(n);
    assert ("-" + t)[1..] == t;
  }
}
