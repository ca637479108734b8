/** configUtils.py: the configuration reader of the first parser. It knows
    two options, each at a fixed index among the stored lines and named in
    lower case; errors report the index itself as the line. */
module ConfigUtils {
  import opened Results
  import opened Chars
  import opened ConfigText

  const TimingSuppliedID: string := "timingsupplied"
  const GapsizeID: string := "gapsize"

  /** `ConfigReader`: the stored lines only. */
  datatype ConfigReader = ConfigReader(lines: seq<string>)

  /** `readConfigFile` once the file's lines are at hand: the kept lines
      are appended to the stored ones. */
  function ReadConfigFile(c: ConfigReader, raw: seq<string>): (r: ConfigReader)
    ensures r.lines == c.lines + LoadLines(raw)
  {
    ConfigReader(c.lines + LoadLines(raw))
  }

  /** `getSetting`: the text after the '=' on stored line `lineNum`, which
      must open with `id`. An index past the stored lines fails on the
      list access itself. */
  function GetSetting(c: ConfigReader, lineNum: nat, id: string): (r: Result<string>)
    ensures r.Ok? <==>
      && lineNum < |c.lines|
      && StartsWith(c.lines[lineNum], id)
      && Find(c.lines[lineNum], '=') == |id|
    ensures r.Ok? ==> c.lines[lineNum] == id + "=" + r.value
    ensures |c.lines| == 0 ==> r == Err(ConfigError("config file not loaded", 0))
    ensures 0 < |c.lines| <= lineNum ==> r.Err? && r.error.IndexError?
    ensures lineNum < |c.lines| && r.Err? ==> r.error.ConfigError? && r.error.line == lineNum
  {
    var _ :- CheckConfigFileLoaded(c.lines);
    if lineNum >= |c.lines| then Err(IndexError("list index out of range"))
    else SettingOf(c.lines[lineNum], id, lineNum)
  }

  /** `getTiming`: stored line 0 holds "timingsupplied=true" or
      "timingsupplied=false". */
  function GetTiming(c: ConfigReader): (r: Result<bool>)
    ensures r.Ok? <==> GetSetting(c, 0, TimingSuppliedID).Ok? && GetSetting(c, 0, TimingSuppliedID).value in {SettingYes, SettingNo}
    ensures r.Ok? ==> (r.value <==> c.lines[0] == TimingSuppliedID + "=" + SettingYes)
    ensures GetSetting(c, 0, TimingSuppliedID).Ok? && r.Err? ==> r.error == ConfigError("setting not recognized", 1)
  {
    var s :- GetSetting(c, 0, TimingSuppliedID);
    match ParseFlag(s)
    case Some(b) => Ok(b)
    case None => Err(ConfigError("setting not recognized", 1))
  }

  /** `getGapsize`: stored line 1 holds "gapsize=" and an integer that is
      not negative. */
  function GetGapsize(c: ConfigReader): (r: Result<nat>)
    ensures r.Ok? <==> GetSetting(c, 1, GapsizeID).Ok? && ParseInt(GetSetting(c, 1, GapsizeID).value).Some? && ParseInt(GetSetting(c, 1, GapsizeID).value).value >= 0
    ensures r.Ok? ==> r.value == ParseInt(GetSetting(c, 1, GapsizeID).value).value
    ensures GetSetting(c, 1, GapsizeID).Ok? && r.Err? ==> r.error == ConfigError("setting not recognized", 2)
  {
    var s :- GetSetting(c, 1, GapsizeID);
    match ParseCount(s)
    case Some(n) => Ok(n)
    case None => Err(ConfigError("setting not recognized", 2))
  }

  /** The file `buildDefaultConfigFile` writes: comment lines, then the
      two settings. */
  function DefaultConfig(comments: seq<string>, timing: bool, gapsize: nat): seq<string> {
    comments + SettingLines(timing, gapsize)
  }

  /** The two setting lines of such a file. */
  function SettingLines(timing: bool, gapsize: nat): seq<string> {
    [TimingSuppliedID + "=" + FlagText(timing), GapsizeID + "=" + DecimalText(gapsize)]
  }

  /** A file written like the default one, with any flag and any gap size,
      is read back with those values; the default itself has timing off
      and a gap size of 3. */
  lemma ConfigRoundTrip(comments: seq<string>, timing: bool, gapsize: nat)
    requires forall k :: 0 <= k < |comments| ==> StartsWith(comments[k], [Comment])
    ensures var c := ReadConfigFile(ConfigReader([]), DefaultConfig(comments, timing, gapsize));
      GetTiming(c) == Ok(timing) && GetGapsize(c) == Ok(gapsize)
  {
    SettingLinesStored(comments, timing, gapsize);
    SettingLinesRead(ConfigReader(SettingLines(timing, gapsize)), timing, gapsize);
  }

  lemma SettingLinesStored(comments: seq<string>, timing: bool, gapsize: nat)
    requires forall k :: 0 <= k < |comments| ==> StartsWith(comments[k], [Comment])
    ensures LoadLines(DefaultConfig(comments, timing, gapsize)) == SettingLines(timing, gapsize)
  {
    SettingLinesPlain(timing, gapsize);
    LoadComments(comments);
    LoadPlain(SettingLines(timing, gapsize));
    LoadLinesAppend(comments, SettingLines(timing, gapsize));
  }

  /** Setting lines hold no whitespace and no comment character. */
  lemma SettingLinesPlain(timing: bool, gapsize: nat)
    ensures forall k :: 0 <= k < 2 ==> Plain(SettingLines(timing, gapsize)[k])
  {
    var t := TimingSuppliedID + "=" + FlagText(timing);
    var g := GapsizeID + "=" + DecimalText(gapsize);
    assert Plain(t);
    assert Plain(g) by {
      var d := DecimalText(gapsize);
      forall k | 0 <= k < |g| ensures !IsSpace(g[k]) && g[k] != Comment {
        if k >= |GapsizeID| + 1 {
          assert g[k] == d[k - |GapsizeID| - 1];
        }
      }
    }
  }

  lemma SettingLinesRead(c: ConfigReader, timing: bool, gapsize: nat)
    requires c.lines == SettingLines(timing, gapsize)
    ensures GetTiming(c) == Ok(timing) && GetGapsize(c) == Ok(gapsize)
  {
    SettingRoundTrip(TimingSuppliedID, FlagText(timing), 0);
    SettingRoundTrip(GapsizeID, DecimalText(gapsize), 1);
    CountRoundTrip(gapsize);
  }

  /** `split()` also treats the separator characters 0x1C-0x1F as
      whitespace, so setting lines that end in one still read. */
  lemma SeparatorIsWhitespace(timing: bool, gapsize: nat, sep: char)
    requires '\U{1C}' <= sep <= '\U{1F}'
    ensures var lines := SettingLines(timing, gapsize);
      var c := ReadConfigFile(ConfigReader([]), [lines[0] + [sep], lines[1] + [sep]]);
      GetTiming(c) == Ok(timing) && GetGapsize(c) == Ok(gapsize)
  {
    var lines := SettingLines(timing, gapsize);
    var raw := [lines[0] + [sep], lines[1] + [sep]];
    SettingLinesPlain(timing, gapsize);
    SeparatorDropped(lines[0], sep);
    SeparatorDropped(lines[1], sep);
    LoadLast(raw);
    LoadLast(raw[..1]);
    assert raw[..1][..0] == [];
    assert LoadLines(raw) == lines;
    SettingLinesRead(ConfigReader(lines), timing, gapsize);
  }

  /** A plain line followed by a separator is stored without it. */
  lemma SeparatorDropped(g: string, sep: char)
    requires Plain(g) && '\U{1C}' <= sep <= '\U{1F}'
    ensures Stored(g + [sep]) == [g]
  {
    RemoveSpaceConcat(g, [sep]);
    assert RemoveSpace(g) == g;
    assert Comment !in g;
    assert !StartsWith(g + [sep], [Comment]) by {
      assert (g + [sep])[0] == g[0];
    }
  }
}
