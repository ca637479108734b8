/** tabReader.py: the first tab parser. `loadLinesIntoLists` collects the
    whole file into a timing array and four string arrays, and `buildSong`
    scans them once, with the notes-first column step of tabParser.py. */
module TabReader {
  import opened Results
  import opened Chars
  import opened Legends
  import opened Slices
  import opened Measures
  import opened Songs
  import opened Scan
  import TabParser

  /** The characters a timing line may hold. */
  const NoteLineChars: set<char> := {'\t', '+', '.', ' ', 'W', 'H', 'Q', 'E', 'S'}

  /** `checkNoteLine`: a non-empty line of tie and dot marks, spaces, tabs
      and length letters. */
  predicate CheckNoteLine(line: string) {
    |line| > 0 && AllIn(line, NoteLineChars)
  }

  /** The characters a string line may hold after its name. */
  const StringLineChars: set<char> := {'\t', '|', '-', '(', ')', ' '} + Digits

  /** `checkStringLine`: at least four characters, a string name and a bar
      first, then bars, dashes, parentheses, blanks and digits, and a bar
      last. */
  predicate CheckStringLine(line: string) {
    && |line| >= 4
    && line[0] in "GDAE" && line[1] == '|'
    && AllIn(line[1..], StringLineChars)
    && line[|line| - 1] == '|'
  }

  /** A timing line of the newer parser is one here too once it is not
      empty. */
  lemma NoteLinesAgree(line: string)
    requires |line| > 0 && TabParser.CheckNoteLine(line)
    ensures CheckNoteLine(line)
  {
  }

  /** A string line here without parentheses or blanks is a simple string
      line of the newer parser, whatever its playing legend. */
  lemma StringLinesAgree(line: string, playingLegend: set<char>)
    requires CheckStringLine(line)
    requires forall k :: 1 <= k < |line| ==> line[k] !in {'\t', '(', ')', ' '}
    ensures TabParser.CheckSimpleStringLine(line, playingLegend)
  {
    forall k | 0 <= k < |line[1..]|
      ensures line[1..][k] in TabParser.StringLineChars(playingLegend)
    {
      assert line[1..][k] == line[k + 1];
    }
  }

  /** The marks of this parser: '+' ties, '.' dots, and the bar test looks
      at the G string only. */
  function ReaderMarks(): (m: TabParser.Marks)
    ensures m.tie == Some('+') && m.dot == Some('.') && m.bar == GOnly
  {
    TabParser.Marks(Some('+'), Some('.'), GOnly)
  }

  /** `buildSong`: one scan of all the columns, starting with a fresh
      `lastSlice`; a measure still open at the end is dropped. */
  function BuildSong(l: Legend, song: Song, notes: string, cols: Strings): (r: Result<Song>)
    requires Ready(l, notes, cols)
    ensures r.Ok? && Built(l, song) ==> Built(l, r.value)
    ensures r.Ok? ==> r.value.extraText == song.extraText && r.value.gapsize == song.gapsize
    ensures r.Ok? ==> Extends(song.measures, r.value.measures)
    ensures r.Ok? && NoBarFrom(cols, 0) ==> |r.value.measures| == |song.measures|
  {
    var st :- TabParser.ScanRange(l, ReaderMarks(), notes, cols, 0, ScanState(song, EmptyMeasure(), Detached(EmptySlice(l))));
    Ok(st.song)
  }

  /** A column with a bar on the D, A and E strings but not on G is passed
      over: only the G string triggers the bar test. */
  lemma BarWithoutGIgnored(l: Legend, notes: string, cols: Strings, i: nat, st: ScanState)
    requires Ready(l, notes, cols) && i < |cols.g| && st.Located()
    requires cols.g[i] == '-' && cols.d[i] == '|' && cols.a[i] == '|' && cols.e[i] == '|'
    ensures TabParser.Step(l, ReaderMarks(), notes, cols, i, st) == Ok((st, 1))
  {
    TabParser.NoteFreeColumn(l, ReaderMarks(), notes, cols, i, st);
  }

  /** The arrays `loadLinesIntoLists` fills, the number of lines taken as
      timing or string lines, and the length of the last timing line. */
  datatype Lists = Lists(notes: string, cols: Strings, count: nat, lastNoteExt: nat)

  /** With timing, the G line pads the timing array with one space for
      each character by which it is longer than the last timing line. */
  function PadNotes(ls: Lists, arr: string): (r: string)
    ensures |r| == |ls.notes| + (if |arr| > ls.lastNoteExt then |arr| - ls.lastNoteExt else 0)
    ensures r[..|ls.notes|] == ls.notes
    ensures forall k :: |ls.notes| <= k < |r| ==> r[k] == ' '
  {
    ls.notes + Repeat(' ', if |arr| > ls.lastNoteExt then |arr| - ls.lastNoteExt else 0)
  }

  /** One pass of the `loadLinesIntoLists` loop: the line is stripped at
      both ends; a line that is neither the timing line nor a string line
      where one is due is skipped. */
  function LoadLine(ls: Lists, hasTiming: bool, line: string): (r: Lists)
    ensures r.count == ls.count || r.count == ls.count + 1
    ensures !hasTiming ==> r.notes == ls.notes
    ensures r.count == ls.count ==> r == ls
    ensures !hasTiming ==> (r.count == ls.count + 1 <==> CheckStringLine(Strip(line)))
    ensures hasTiming && ls.count % 5 == 0 ==> (r.count == ls.count + 1 <==> CheckNoteLine(Strip(line)))
    ensures hasTiming && ls.count % 5 != 0 ==> (r.count == ls.count + 1 <==> CheckStringLine(Strip(line)))
    ensures hasTiming && ls.count % 5 == 0 && r.count == ls.count + 1 ==>
      r == ls.(notes := ls.notes + Strip(line), count := r.count, lastNoteExt := |Strip(line)|)
    ensures hasTiming && ls.count % 5 != 0 && r.count == ls.count + 1 ==>
      && r.cols == AddString(ls.cols, ls.count % 5 - 1, Strip(line))
      && r.notes == (if ls.count % 5 == 1 then PadNotes(ls, Strip(line)) else ls.notes)
      && r.lastNoteExt == ls.lastNoteExt
    ensures !hasTiming && r.count == ls.count + 1 ==>
      r == ls.(cols := AddString(ls.cols, ls.count % 4, Strip(line)), count := r.count)
  {
    var s := Strip(line);
    if hasTiming then
      if ls.count % 5 == 0 then
        if CheckNoteLine(s) then ls.(notes := ls.notes + s, count := ls.count + 1, lastNoteExt := |s|) else ls
      else if CheckStringLine(s) then
        var slot := ls.count % 5 - 1;
        var notes := if slot == 0 then PadNotes(ls, s) else ls.notes;
        ls.(cols := AddString(ls.cols, slot, s), notes := notes, count := ls.count + 1)
      else ls
    else if CheckStringLine(s) then ls.(cols := AddString(ls.cols, ls.count % 4, s), count := ls.count + 1)
    else ls
  }

  /** The `loadLinesIntoLists` loop over the lines. */
  function LoadAll(ls: Lists, hasTiming: bool, lines: seq<string>): (r: Lists)
    ensures ls.count <= r.count <= ls.count + |lines|
    ensures !hasTiming ==> r.notes == ls.notes
    decreases |lines|
  {
    if |lines| == 0 then ls else LoadAll(LoadLine(ls, hasTiming, lines[0]), hasTiming, lines[1..])
  }

  /** The two checks `loadLinesIntoLists` makes once the arrays are
      collected: the timing line count, then the array lengths. */
  function CheckLists(ls: Lists, hasTiming: bool): (r: Result<(string, Strings, nat)>)
    ensures r.Ok? ==> r.value == (ls.notes, ls.cols, ls.count)
    ensures r.Ok? ==> r.value.1.Aligned() && (|r.value.0| == 0 || |r.value.0| == |r.value.1.g|)
    ensures r.Err? <==> (hasTiming && ls.count % 20 != 0) || !ls.cols.Aligned() || (|ls.notes| > 0 && |ls.cols.g| != |ls.notes|)
    ensures r.Err? ==> r.error.TabFileError?
  {
    MultipleOfTwenty(ls.count);
    if (hasTiming && ls.count % 5 != 0) || (hasTiming && ls.count % 4 != 0) then
      Err(TabFileError("input file line count incorrect"))
    else if !ls.cols.Aligned() || (|ls.notes| > 0 && |ls.cols.g| != |ls.notes|) then
      Err(TabFileError("arrays not loaded properly"))
    else Ok((ls.notes, ls.cols, ls.count))
  }

  /** `loadLinesIntoLists`: collects the timing and string arrays, then
      checks the line count and the array lengths. The count check as
      written rejects a timing count that is not a multiple of both 5 and 4
      and never checks a count without timing. */
  function LoadLinesIntoLists(lines: seq<string>, hasTiming: bool): (r: Result<(string, Strings, nat)>)
    ensures r.Ok? ==> r.value.1.Aligned() && (|r.value.0| == 0 || |r.value.0| == |r.value.1.g|)
    ensures r.Ok? && hasTiming ==> r.value.2 % 20 == 0
    ensures r.Ok? && !hasTiming ==> r.value.0 == ""
    ensures r.Err? ==> r.error.TabFileError?
    ensures r.Ok? ==> r.value.2 <= |lines|
    ensures var ls := LoadAll(NoLists(), hasTiming, lines);
      && (r.Ok? ==> r.value == (ls.notes, ls.cols, ls.count))
      && (r.Err? <==> (hasTiming && ls.count % 20 != 0) || !ls.cols.Aligned() || (|ls.notes| > 0 && |ls.cols.g| != |ls.notes|))
  {
    CheckLists(LoadAll(NoLists(), hasTiming, lines), hasTiming)
  }

  /** A count is a multiple of both 5 and 4 exactly when it is a multiple
      of 20. */
  lemma MultipleOfTwenty(n: nat)
    ensures n % 5 == 0 && n % 4 == 0 <==> n % 20 == 0
  {
    if n % 5 == 0 && n % 4 == 0 {
      FourAndFive(n);
    }
    if n % 20 == 0 {
      var p := n / 20;
      assert n == 5 * (4 * p) && n == 4 * (5 * p);
    }
  }

  /** The harder half: a multiple of 4 and of 5 is a multiple of 20. */
  lemma FourAndFive(n: nat)
    requires n % 5 == 0 && n % 4 == 0
    ensures n % 20 == 0
  {
    var q := n / 4;
    assert n == 4 * q;
    assert q % 5 == 0 by {
      assert (4 * q) % 5 == 0;
      assert (4 * q) % 5 == (4 * (q % 5)) % 5;
    }
    assert n == 20 * (q / 5);
  }

  /** Without timing the line count is never checked: only unequal arrays
      are refused. */
  lemma UntimedCountUnchecked(lines: seq<string>)
    ensures LoadLinesIntoLists(lines, false).Err? <==>
      !LoadAll(NoLists(), false, lines).cols.Aligned()
  {
  }

  /** The lists `loadLinesIntoLists` starts from. */
  function NoLists(): (ls: Lists)
    ensures ls.count == 0 && ls.notes == "" && ls.lastNoteExt == 0
  {
    Lists("", Strings("", "", "", ""), 0, 0)
  }

  /** One complete group with timing, five counted lines, is refused by
      the count check, although it is what the file format asks for. */
  lemma OneTimedGroupRefused(lines: seq<string>)
    requires LoadAll(NoLists(), true, lines).count == 5
    ensures LoadLinesIntoLists(lines, true).Err?
  {
    assert 5 % 4 != 0;
  }
}
