/** configUtilLibrary.py: the configuration reader of the newer parser. Each
    option has a number that is both its identifier and the index of the
    stored line that must hold it; each `read…` call checks one line and
    records the setting, and the getters refuse an option not yet read. */
module ConfigLibrary {
  import opened Results
  import opened Chars
  import opened Legends
  import opened ConfigText

  /** `ConfigOptionID`. */
  datatype OptionID =
    | TimingSupplied | Gapsize | TabSpacing | HasExtra | PlayingLegend | TimingSymbols | KeepExtra
  {
    /** The option's number: its identifier and the index of its line. */
    function Value(): (v: nat)
      ensures v < 7
    {
      match this
      case TimingSupplied => 0
      case Gapsize => 1
      case TabSpacing => 2
      case HasExtra => 3
      case PlayingLegend => 4
      case TimingSymbols => 5
      case KeepExtra => 6
    }

    /** The option's name, which opens its line. */
    function Name(): (s: string)
      ensures |s| > 0 && '=' !in s
      ensures forall k :: 0 <= k < |s| ==> !IsSpace(s[k]) && s[k] != Comment
    {
      match this
      case TimingSupplied => "TIMING_SUPPLIED"
      case Gapsize => "GAPSIZE"
      case TabSpacing => "TAB_SPACING"
      case HasExtra => "HAS_EXTRA"
      case PlayingLegend => "PLAYING_LEGEND"
      case TimingSymbols => "TIMING_SYMBOLS"
      case KeepExtra => "KEEP_EXTRA"
    }
  }

  /** The options in the order of their numbers. */
  const Options: seq<OptionID> :=
    [TimingSupplied, Gapsize, TabSpacing, HasExtra, PlayingLegend, TimingSymbols, KeepExtra]

  /** Each option's number is its position in the enumeration, so no two
      options share a line. */
  lemma OptionNumbering(o: OptionID, p: OptionID)
    ensures Options[o.Value()] == o
    ensures o.Value() == p.Value() ==> o == p
  {
  }

  /** The values an option's setting may hold once read. */
  datatype Setting = Flag(flag: bool) | Count(count: nat) | Text(text: string)

  /** Python truthiness of a stored setting. */
  predicate Truthy(s: Setting) {
    match s
    case Flag(b) => b
    case Count(n) => n != 0
    case Text(t) => |t| > 0
  }

  /** `ConfigReader`: the stored lines and the settings read so far (an
      option absent from the map still holds `None`). */
  datatype ConfigReader = ConfigReader(lines: seq<string>, settings: map<OptionID, Setting>)

  /** `ConfigReader()`. */
  function NewReader(): (c: ConfigReader)
    ensures |c.lines| == 0 && forall o :: o !in c.settings
  {
    ConfigReader([], map[])
  }

  /** `open` once the file's lines are at hand: the kept lines are
      appended to the stored ones. */
  function Open(c: ConfigReader, raw: seq<string>): (r: ConfigReader)
    ensures r.lines == c.lines + LoadLines(raw) && r.settings == c.settings
  {
    c.(lines := c.lines + LoadLines(raw))
  }

  /** `readSetting`: the text after the '=' on the option's line. A file
      with too few lines makes the error message itself fail, on the
      undefined name `lines`. */
  function ReadSetting(c: ConfigReader, o: OptionID): (r: Result<string>)
    ensures r.Ok? <==>
      && |c.lines| > o.Value()
      && StartsWith(c.lines[o.Value()], o.Name())
      && Find(c.lines[o.Value()], '=') == |o.Name()|
    ensures r.Ok? ==> c.lines[o.Value()] == o.Name() + "=" + r.value
    ensures |c.lines| == 0 ==> r == Err(ConfigError("config file not loaded", 0))
    ensures 0 < |c.lines| <= o.Value() ==> r == Err(NameError("lines"))
    ensures |c.lines| > o.Value() && r.Err? ==> r.error.ConfigError? && r.error.line == o.Value() + 1
  {
    var _ :- CheckConfigFileLoaded(c.lines);
    if o.Value() >= |c.lines| then Err(NameError("lines"))
    else SettingOf(c.lines[o.Value()], o.Name(), o.Value() + 1)
  }

  /** A line written as the option's name, '=' and a value, at the option's
      index, is read back as that value. */
  lemma ReadSettingRoundTrip(c: ConfigReader, o: OptionID, value: string)
    requires o.Value() < |c.lines| && c.lines[o.Value()] == o.Name() + "=" + value
    ensures ReadSetting(c, o) == Ok(value)
  {
    SettingRoundTrip(o.Name(), value, o.Value() + 1);
  }

  /** Records a setting read for option `o`. */
  function Record(c: ConfigReader, o: OptionID, s: Setting): (r: ConfigReader)
    ensures r.lines == c.lines
    ensures o in r.settings && r.settings[o] == s
    ensures forall p :: p != o ==> (p in r.settings <==> p in c.settings)
    ensures forall p :: p != o && p in c.settings ==> r.settings[p] == c.settings[p]
  {
    c.(settings := c.settings[o := s])
  }

  /** The "not recognized" error of option `o`. */
  function Unrecognized(o: OptionID): Error {
    ConfigError("setting not recognized", o.Value() + 1)
  }

  /** `readTiming` (with `TimingSupplied`) and `readHasExtra` (with
      `HasExtra`): exactly "true" or "false". */
  function ReadFlag(c: ConfigReader, o: OptionID): (r: Result<ConfigReader>)
    ensures r.Ok? <==> ReadSetting(c, o).Ok? && ReadSetting(c, o).value in {SettingYes, SettingNo}
    ensures r.Ok? ==> r.value == Record(c, o, Flag(ReadSetting(c, o).value == SettingYes))
    ensures ReadSetting(c, o).Ok? && r.Err? ==> r.error == Unrecognized(o)
  {
    var s :- ReadSetting(c, o);
    match ParseFlag(s)
    case Some(b) => Ok(Record(c, o, Flag(b)))
    case None => Err(Unrecognized(o))
  }

  /** `readGapsize` (with `Gapsize`) and `readTabSpacing` (with
      `TabSpacing`): an integer that is not
      negative. */
  function ReadCount(c: ConfigReader, o: OptionID): (r: Result<ConfigReader>)
    ensures r.Ok? <==> ReadSetting(c, o).Ok? && ParseInt(ReadSetting(c, o).value).Some? && ParseInt(ReadSetting(c, o).value).value >= 0
    ensures r.Ok? ==> r.value == Record(c, o, Count(ParseInt(ReadSetting(c, o).value).value))
    ensures ReadSetting(c, o).Ok? && r.Err? ==> r.error == Unrecognized(o)
  {
    var s :- ReadSetting(c, o);
    match ParseCount(s)
    case Some(n) => Ok(Record(c, o, Count(n)))
    case None => Err(Unrecognized(o))
  }

  /** A character the playing legend may not hold. */
  predicate Illegal(ch: char) {
    ch == ' ' || IsDigit(ch)
  }

  /** `readPlayingLegend`: any text without a space or a digit. */
  function ReadPlayingLegend(c: ConfigReader): (r: Result<ConfigReader>)
    ensures r.Ok? <==> ReadSetting(c, PlayingLegend).Ok? && forall ch :: ch in ReadSetting(c, PlayingLegend).value ==> !Illegal(ch)
    ensures r.Ok? ==> r.value == Record(c, PlayingLegend, Text(ReadSetting(c, PlayingLegend).value))
    ensures ReadSetting(c, PlayingLegend).Ok? && r.Err? ==> r.error == ConfigError("illegal legend value", 5)
  {
    var s :- ReadSetting(c, PlayingLegend);
    if exists k :: 0 <= k < |s| && Illegal(s[k]) then Err(ConfigError("illegal legend value", PlayingLegend.Value() + 1))
    else Ok(Record(c, PlayingLegend, Text(s)))
  }

  /** `set(s)`: the characters of `s`. */
  function CharSet(s: string): set<char> {
    set k | 0 <= k < |s| :: s[k]
  }

  /** `len(set(s)) == len(s)` exactly when no character repeats. */
  lemma {:induction false} CharSetCard(s: string)
    ensures |CharSet(s)| <= |s|
    ensures |CharSet(s)| == |s| <==> Distinct(s)
  {
    if |s| > 0 {
      var p := s[..|s| - 1];
      var c := s[|s| - 1];
      CharSetCard(p);
      assert CharSet(s) == CharSet(p) + {c} by {
        forall x ensures x in CharSet(s) <==> x in CharSet(p) + {c} {
          if x in CharSet(s) {
            var k :| 0 <= k < |s| && s[k] == x;
            if k < |s| - 1 { assert p[k] == x; }
          }
          if x in CharSet(p) {
            var k :| 0 <= k < |p| && p[k] == x;
            assert s[k] == x;
          }
        }
      }
      if c in CharSet(p) {
        var k :| 0 <= k < |p| && p[k] == c;
        assert s[k] == s[|s| - 1];
        assert !Distinct(s);
      } else {
        assert |CharSet(s)| == |CharSet(p)| + 1;
        if Distinct(p) {
          forall i, j | 0 <= i < j < |s| ensures s[i] != s[j] {
            if j < |s| - 1 {
              assert p[i] == s[i] && p[j] == s[j];
            } else {
              assert p[i] == s[i];
            }
          }
        }
        if Distinct(s) {
          forall i, j | 0 <= i < j < |p| ensures p[i] != p[j] {
            assert p[i] == s[i] && p[j] == s[j];
          }
        }
      }
    }
  }

  /** `readTimingSymbolsList`: exactly ten characters with no repeats. */
  function ReadTimingSymbolsList(c: ConfigReader): (r: Result<ConfigReader>)
    ensures r.Ok? <==> ReadSetting(c, TimingSymbols).Ok? && |ReadSetting(c, TimingSymbols).value| == 10 && Distinct(ReadSetting(c, TimingSymbols).value)
    ensures r.Ok? ==> r.value == Record(c, TimingSymbols, Text(ReadSetting(c, TimingSymbols).value))
    ensures ReadSetting(c, TimingSymbols).Ok? && r.Err? ==> r.error == Unrecognized(TimingSymbols)
  {
    var s :- ReadSetting(c, TimingSymbols);
    CharSetCard(s);
    if |s| != 10 || |CharSet(s)| < 10 then Err(Unrecognized(TimingSymbols))
    else Ok(Record(c, TimingSymbols, Text(s)))
  }

  /** An accepted list of timing symbols always loads into the legend,
      with its first two symbols as the tie and dot marks and every
      duration symbol standing for its own length. */
  lemma AcceptedSymbolsLoad(c: ConfigReader, l: Legend)
    requires ReadTimingSymbolsList(c).Ok?
    ensures var s := ReadSetting(c, TimingSymbols).value;
      && LoadTimingData(l, s).Ok?
      && LoadTimingData(l, s).value.tieSymbol == Some(s[0])
      && LoadTimingData(l, s).value.dotSymbol == Some(s[1])
      && forall k :: 2 <= k < 10 ==> LoadTimingData(l, s).value.timing[s[k]] == DurationEntry(k - 2)
  {
    var s := ReadSetting(c, TimingSymbols).value;
    assert Distinct(s[2..10]) by {
      forall i, j | 0 <= i < j < 8 ensures s[2..10][i] != s[2..10][j] {
        assert s[2..10][i] == s[i + 2] && s[2..10][j] == s[j + 2];
      }
    }
  }

  /** `checkIfOptionRead`. */
  function CheckIfOptionRead(c: ConfigReader, o: OptionID): (r: Result<()>)
    ensures r.Ok? <==> o in c.settings
    ensures r.Err? ==> r.error == ConfigError("option not read", o.Value() + 1)
  {
    Need(o in c.settings, ConfigError("option not read", o.Value() + 1))
  }

  /** `getSettingForOption`. */
  function GetSettingForOption(c: ConfigReader, o: OptionID): (r: Result<Setting>)
    ensures r.Ok? <==> o in c.settings
    ensures r.Ok? ==> r.value == c.settings[o]
    ensures r.Err? ==> r.error == ConfigError("option not read", o.Value() + 1)
  {
    var _ :- CheckIfOptionRead(c, o);
    Ok(c.settings[o])
  }

  /** `readKeepExtra`: "true" or "false" once HAS_EXTRA is read, and
      "true" only when HAS_EXTRA holds. */
  function ReadKeepExtra(c: ConfigReader): (r: Result<ConfigReader>)
    ensures r.Ok? <==>
      && HasExtra in c.settings
      && ReadSetting(c, KeepExtra).Ok?
      && (|| ReadSetting(c, KeepExtra).value == SettingNo
          || (ReadSetting(c, KeepExtra).value == SettingYes && Truthy(c.settings[HasExtra])))
    ensures r.Ok? ==> r.value == Record(c, KeepExtra, Flag(ReadSetting(c, KeepExtra).value == SettingYes))
    ensures HasExtra in c.settings && !Truthy(c.settings[HasExtra]) && ReadSetting(c, KeepExtra) == Ok(SettingYes) ==>
      r == Err(ConfigError("conflicting configuration options", 0))
  {
    var _ :- CheckIfOptionRead(c, HasExtra);
    var s :- ReadSetting(c, KeepExtra);
    if s == SettingYes then
      if !Truthy(c.settings[HasExtra]) then Err(ConfigError("conflicting configuration options", 0))
      else Ok(Record(c, KeepExtra, Flag(true)))
    else if s == SettingNo then Ok(Record(c, KeepExtra, Flag(false)))
    else Err(Unrecognized(KeepExtra))
  }

  /** A setting read is what the getter returns afterwards. */
  lemma ReadThenGet(c: ConfigReader)
    ensures ReadFlag(c, TimingSupplied).Ok? ==>
      GetSettingForOption(ReadFlag(c, TimingSupplied).value, TimingSupplied) == Ok(Flag(ReadSetting(c, TimingSupplied).value == SettingYes))
    ensures ReadCount(c, Gapsize).Ok? ==>
      GetSettingForOption(ReadCount(c, Gapsize).value, Gapsize) == Ok(Count(ParseInt(ReadSetting(c, Gapsize).value).value))
    ensures ReadPlayingLegend(c).Ok? ==> GetSettingForOption(ReadPlayingLegend(c).value, PlayingLegend) == Ok(Text(ReadSetting(c, PlayingLegend).value))
  {
  }

  /** The value the default configuration file writes for each option. */
  function DefaultValue(o: OptionID): string {
    match o
    case TimingSupplied => SettingNo
    case Gapsize => "3"
    case TabSpacing => "8"
    case HasExtra => SettingYes
    case PlayingLegend => ""
    case TimingSymbols => "+.WHQESTFO"
    case KeepExtra => SettingYes
  }

  /** The setting lines of the default configuration file, in option
      order. */
  function DefaultSettingLines(): (r: seq<string>)
    ensures |r| == 7
    ensures forall k :: 0 <= k < 7 ==> r[k] == Options[k].Name() + "=" + DefaultValue(Options[k])
  {
    seq(7, k requires 0 <= k < 7 => Options[k].Name() + "=" + DefaultValue(Options[k]))
  }

  /** The default configuration file: an empty line, the comment lines,
      an empty line, then one setting line per option. */
  function DefaultConfig(comments: seq<string>): seq<string> {
    [""] + comments + [""] + DefaultSettingLines()
  }

  /** Every read of the program, in option order. */
  function ReadAll(c: ConfigReader): Result<ConfigReader> {
    var c :- ReadNumbers(c);
    ReadTexts(c)
  }

  /** The reads of the timing flag, the gap size and the tab spacing. */
  function ReadNumbers(c: ConfigReader): Result<ConfigReader> {
    var c :- ReadFlag(c, TimingSupplied);
    var c :- ReadCount(c, Gapsize);
    ReadCount(c, TabSpacing)
  }

  /** The reads of the extra-text flag, the two legends and keeping extra
      text. */
  function ReadTexts(c: ConfigReader): Result<ConfigReader> {
    var c :- ReadFlag(c, HasExtra);
    var c :- ReadLegends(c);
    ReadKeepExtra(c)
  }

  /** The reads of the playing legend and the timing symbols. */
  function ReadLegends(c: ConfigReader): Result<ConfigReader> {
    var c :- ReadPlayingLegend(c);
    ReadTimingSymbolsList(c)
  }

  /** The default file stores exactly its seven setting lines, whatever
      its comment lines say. */
  lemma DefaultLinesLoad(comments: seq<string>)
    requires forall k :: 0 <= k < |comments| ==> StartsWith(comments[k], [Comment])
    ensures LoadLines(DefaultConfig(comments)) == DefaultSettingLines()
  {
    var lines := DefaultSettingLines();
    SettingLinesKept();
    LoadComments(comments);
    LoadLinesAppend([""], comments);
    LoadLinesAppend([""] + comments, [""]);
    LoadLinesAppend([""] + comments + [""], lines);
    assert LoadLines([""]) == [] by {
      assert [""][..0] == [];
    }
  }

  /** The setting lines of the default file are stored unchanged. */
  lemma SettingLinesKept()
    ensures LoadLines(DefaultSettingLines()) == DefaultSettingLines()
  {
    var lines := DefaultSettingLines();
    forall k | 0 <= k < 7 ensures Plain(lines[k]) {
      DefaultValuePlain(Options[k]);
    }
    LoadPlain(lines);
  }

  lemma DefaultValuePlain(o: OptionID)
    ensures forall k :: 0 <= k < |o.Name() + "=" + DefaultValue(o)| ==>
      var c := (o.Name() + "=" + DefaultValue(o))[k]; !IsSpace(c) && c != Comment
  {
  }

  /** Every option's line in the default file reads back as its default
      value. */
  lemma DefaultSettingsRead(c: ConfigReader, o: OptionID)
    requires c.lines == DefaultSettingLines()
    ensures ReadSetting(c, o) == Ok(DefaultValue(o))
  {
    OptionNumbering(o, o);
    ReadSettingRoundTrip(c, o, DefaultValue(o));
  }

  /** The settings the default file gives. */
  function DefaultSettings(): map<OptionID, Setting> {
    map[TimingSupplied := Flag(false), Gapsize := Count(3), TabSpacing := Count(8), HasExtra := Flag(true),
        PlayingLegend := Text(""), TimingSymbols := Text("+.WHQESTFO"), KeepExtra := Flag(true)]
  }

  /** A reader that opened the default file accepts every option, with
      timing off, a gap size of 3, tabs of 8, extra text present and kept,
      no playing legend and the standard timing symbols. */
  lemma DefaultConfigReads(comments: seq<string>)
    requires forall k :: 0 <= k < |comments| ==> StartsWith(comments[k], [Comment])
    ensures ReadAll(Open(NewReader(), DefaultConfig(comments))) == Ok(ConfigReader(DefaultSettingLines(), DefaultSettings()))
  {
    DefaultLinesLoad(comments);
    var c0 := Open(NewReader(), DefaultConfig(comments));
    var c3 := DefaultNumbersRead(c0);
    var c7 := DefaultTextsRead(c3);
  }

  /** The first three reads of the default file. */
  lemma DefaultNumbersRead(c0: ConfigReader) returns (c3: ConfigReader)
    requires c0.lines == DefaultSettingLines() && c0.settings == map[]
    ensures c3.lines == DefaultSettingLines()
    ensures c3.settings == map[TimingSupplied := Flag(false), Gapsize := Count(3), TabSpacing := Count(8)]
    ensures ReadNumbers(c0) == Ok(c3)
  {
    DefaultSettingsRead(c0, TimingSupplied);
    var c1 := Record(c0, TimingSupplied, Flag(false));
    assert ReadFlag(c0, TimingSupplied) == Ok(c1);
    DefaultSettingsRead(c1, Gapsize);
    SmallCountsParse();
    var c2 := Record(c1, Gapsize, Count(3));
    assert ReadCount(c1, Gapsize) == Ok(c2);
    DefaultSettingsRead(c2, TabSpacing);
    c3 := Record(c2, TabSpacing, Count(8));
    assert ReadCount(c2, TabSpacing) == Ok(c3);
  }

  /** The last four reads of the default file. */
  lemma DefaultTextsRead(c3: ConfigReader) returns (c7: ConfigReader)
    requires c3.lines == DefaultSettingLines()
    requires c3.settings == map[TimingSupplied := Flag(false), Gapsize := Count(3), TabSpacing := Count(8)]
    ensures c7 == ConfigReader(DefaultSettingLines(), DefaultSettings())
    ensures ReadTexts(c3) == Ok(c7)
  {
    DefaultSettingsRead(c3, HasExtra);
    var c4 := Record(c3, HasExtra, Flag(true));
    assert ReadFlag(c3, HasExtra) == Ok(c4);
    var c6 := DefaultLegendsRead(c4);
    DefaultSettingsRead(c6, KeepExtra);
    c7 := Record(c6, KeepExtra, Flag(true));
    assert ReadKeepExtra(c6) == Ok(c7);
  }

  /** The two legend reads of the default file. */
  lemma DefaultLegendsRead(c4: ConfigReader) returns (c6: ConfigReader)
    requires c4.lines == DefaultSettingLines()
    requires c4.settings == map[TimingSupplied := Flag(false), Gapsize := Count(3), TabSpacing := Count(8), HasExtra := Flag(true)]
    ensures c6.lines == DefaultSettingLines()
    ensures c6.settings == map[TimingSupplied := Flag(false), Gapsize := Count(3), TabSpacing := Count(8), HasExtra := Flag(true),
                               PlayingLegend := Text(""), TimingSymbols := Text("+.WHQESTFO")]
    ensures ReadLegends(c4) == Ok(c6)
  {
    DefaultSettingsRead(c4, PlayingLegend);
    var c5 := Record(c4, PlayingLegend, Text(""));
    assert ReadPlayingLegend(c4) == Ok(c5);
    DefaultSettingsRead(c5, TimingSymbols);
    DefaultSymbolsDistinct();
    c6 := Record(c5, TimingSymbols, Text("+.WHQESTFO"));
    assert ReadTimingSymbolsList(c5) == Ok(c6);
  }

  lemma SmallCountsParse()
    ensures ParseInt("3") == Some(3) && ParseInt("8") == Some(8)
  {
  }

  lemma DefaultSymbolsDistinct()
    ensures Distinct("+.WHQESTFO")
  {
  }
}
