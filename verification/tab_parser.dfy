/** tabParser.py: the second tab parser. Its column scanner reads the frets
    first and times a column only when it holds notes; its line reader keeps
    growing string and timing arrays and scans each group's new columns. */
module TabParser {
  import opened Results
  import opened Chars
  import opened Legends
  import opened Slices
  import opened Measures
  import opened Songs
  import opened Scan

  /** The timing characters `checkNoteLine` allows. */
  const NoteLineChars: set<char> := {'+', '.', ' ', 'W', 'H', 'Q', 'E', 'S'}

  /** `checkNoteLine`: every character is a tie or dot mark, a space or a
      length letter. */
  predicate CheckNoteLine(line: string) {
    AllIn(line, NoteLineChars)
  }

  /** The characters a simple string line may hold after its first one. */
  function StringLineChars(playingLegend: set<char>): set<char> {
    {'|', '-'} + Digits + playingLegend
  }

  /** `checkSimpleStringLine`: at least three characters, opening with a
      string name and a bar or with a bar, made of bars, dashes, digits and
      playing-legend characters, and closing with a bar. */
  predicate CheckSimpleStringLine(line: string, playingLegend: set<char>) {
    && |line| >= 3
    && ((line[0] in "GDAE" && line[1] == '|') || StartsWith(line, "|"))
    && AllIn(line[1..], StringLineChars(playingLegend))
    && line[|line| - 1] == '|'
  }

  /** `shortenNonSimpleString`: the part of the line from its first bar to
      its last bar, with the number of characters cut from the front, when
      the bars are at least two apart; otherwise the line, with nothing cut. */
  function Shorten(line: string): (r: (string, nat))
    ensures r.1 + |r.0| <= |line| && r.0 == line[r.1..r.1 + |r.0|]
    ensures r.0 != line ==> |r.0| >= 3 && r.0[0] == '|' && r.0[|r.0| - 1] == '|'
    ensures r.0 != line ==> '|' !in line[..r.1] && '|' !in line[r.1 + |r.0|..]
    ensures r.0 == line ==> r.1 == 0
  {
    var s := Find(line, '|');
    var e := RFind(line, '|');
    if e - s >= 2 then (line[s..e + 1], s) else (line, 0)
  }

  /** Shortening twice cuts nothing more. */
  lemma ShortenIdempotent(line: string)
    ensures Shorten(Shorten(line).0) == (Shorten(line).0, 0)
  {
    var r := Shorten(line).0;
    if r != line {
      assert Find(r, '|') == 0;
      assert RFind(r, '|') == |r| - 1;
    }
  }

  /** The marks the notes-first scanner reads: the tie and dot symbols and
      the bar test of an empty column. */
  datatype Marks = Marks(tie: Option<char>, dot: Option<char>, bar: BarTest)

  /** The marks of this parser: the legend's tie and dot symbols, and the
      bar test that misses the A string. */
  function ParserMarks(l: Legend): (m: Marks)
    ensures m.bar == AnyButA && m.tie == l.tieSymbol && m.dot == l.dotSymbol
  {
    Marks(l.tieSymbol, l.dotSymbol, AnyButA)
  }

  /** The timing of a column that holds notes: its length symbol, a tie to
      `lastSlice` when the character before the symbol is the tie mark, and
      one dot for each dot mark after the symbol. Without timing nothing
      changes. */
  function TimeSlice(l: Legend, m: Marks, notes: string, i: nat, st: ScanState, sl: Slice): (r: Result<(ScanState, Slice)>)
    requires NoTimingSymbol in l.timing && (|notes| == 0 || i < |notes|) && st.Located() && !sl.tieBegins
    ensures |notes| == 0 ==> r == Ok((st, sl))
    ensures |notes| > 0 && notes[i] !in l.timing ==> r.Err? && r.error.TabFileError?
    ensures (|notes| > 0 && notes[i] in l.timing && i > 0 && Some(notes[i - 1]) == m.tie &&
             !SameNotes(LastOf(st).notes, sl.notes)) ==> r.Err? && r.error.TabError?
    ensures r.Ok? && |notes| > 0 ==>
      var n := DotRun(notes, i + 1, m.dot);
      var len := l.timing[notes[i]].length;
      && r.value.1.symbol == notes[i] && r.value.1.numDots == sl.numDots + n
      && r.value.1.length + 2.0 * r.value.1.nextDotLength == 2.0 * len
    ensures r.Ok? ==> r.value.1.notes == sl.notes && (Summarised(sl) ==> Summarised(r.value.1))
    ensures r.Ok? ==> !r.value.1.tieBegins && (r.value.1.tieEnds <==> sl.tieEnds || (i > 0 && |notes| > 0 && Some(notes[i - 1]) == m.tie))
    ensures r.Ok? && (sl.symbol in l.timing || |notes| > 0) ==> r.value.1.symbol in l.timing
    ensures r.Ok? ==> r.value.0.Located() && |r.value.0.song.measures| == |st.song.measures|
    ensures r.Ok? ==> r.value.0.song.extraText == st.song.extraText && r.value.0.song.gapsize == st.song.gapsize
    ensures r.Ok? ==> Extends(st.song.measures, r.value.0.song.measures)
    ensures r.Ok? && Sound(l, st) ==> Sound(l, r.value.0)
  {
    if |notes| == 0 then Ok((st, sl))
    else
      var timed :- SetLength(l, sl, notes[i]);
      var tied :- if i > 0 && Some(notes[i - 1]) == m.tie then TieToLast(st, timed) else Ok((st, timed));
      TieKeepsSoundIf(l, st, timed);
      var n := DotRun(notes, i + 1, m.dot);
      DotsConserve(tied.1, n);
      Ok((tied.0, ApplyDots(tied.1, n)))
  }

  /** One pass of the `updateSong` loop at column `i`: the frets first; a
      column without notes takes the bar test, any other is timed and
      joins the open measure. The cursor moves past a two-digit fret and
      never over dot marks. */
  function Step(l: Legend, m: Marks, notes: string, cols: Strings, i: nat, st: ScanState): (r: Result<(ScanState, nat)>)
    requires Ready(l, notes, cols) && i < |cols.g| && st.Located()
    ensures BadFret(cols, i) ==> r.Err? && r.error.TabFileError?
    ensures r.Ok? ==> r.value.1 == if AnyTwoDigits(cols, i) then 2 else 1
    ensures r.Ok? ==> r.value.0.Located() && i + r.value.1 <= |cols.g|
    ensures r.Ok? && Sound(l, st) ==> Sound(l, r.value.0)
    ensures r.Ok? ==> r.value.0.song.extraText == st.song.extraText && r.value.0.song.gapsize == st.song.gapsize
    ensures r.Ok? ==> Extends(st.song.measures, r.value.0.song.measures)
    ensures r.Ok? && |r.value.0.song.measures| != |st.song.measures| ==> FullBar(cols, i)
  {
    var c :- ParseColumn(cols, i, EmptySlice(l));
    FreshColumn(l, cols, i);
    if Slices.IsEmpty(c.0) then
      var b :- AtBar(m.bar, cols, i, st);
      CloseKeepsSoundIf(l, st);
      Ok((b, if c.1 then 2 else 1))
    else
      var t :- TimeAndAppend(l, m, notes, i, st, c.0);
      Ok((t, if c.1 then 2 else 1))
  }

  /** The slice read from a column, before any timing: no timing symbol
      yet, no tie, and a skip only where a second column exists. */
  lemma FreshColumn(l: Legend, cols: Strings, i: nat)
    requires NoTimingSymbol in l.timing && cols.Aligned() && i < |cols.g|
    requires ParseColumn(cols, i, EmptySlice(l)).Ok?
    ensures var c := ParseColumn(cols, i, EmptySlice(l)).value;
      && c.0.symbol in l.timing && Summarised(c.0) && !c.0.tieBegins
      && (c.1 ==> i + 2 <= |cols.g|)
  {
    var c := ParseColumn(cols, i, EmptySlice(l)).value;
    assert SameTiming(EmptySlice(l), c.0);
    assert c.1 ==> AnyTwoDigits(cols, i);
  }

  /** A column holding notes is timed and joins the open measure; no
      measure is added. */
  function TimeAndAppend(l: Legend, m: Marks, notes: string, i: nat, st: ScanState, sl: Slice): (r: Result<ScanState>)
    requires NoTimingSymbol in l.timing && (|notes| == 0 || i < |notes|) && st.Located()
    requires !sl.tieBegins && sl.symbol in l.timing && Summarised(sl)
    ensures r.Ok? ==> r.value.Located() && |r.value.song.measures| == |st.song.measures|
    ensures r.Ok? && Sound(l, st) ==> Sound(l, r.value)
    ensures r.Ok? ==> r.value.song.extraText == st.song.extraText && r.value.song.gapsize == st.song.gapsize
    ensures r.Ok? ==> Extends(st.song.measures, r.value.song.measures)
  {
    var t :- TimeSlice(l, m, notes, i, st, sl);
    AppendKeepsSoundIf(l, t.0, t.1);
    Ok(Append(t.0, t.1))
  }

  /** A column without a digit adds no slice: it only takes the bar test,
      and the cursor moves one column. */
  lemma NoteFreeColumn(l: Legend, m: Marks, notes: string, cols: Strings, i: nat, st: ScanState)
    requires Ready(l, notes, cols) && i < |cols.g| && st.Located() && DigitCount(cols, i) == 0
    ensures Step(l, m, notes, cols, i, st) == (var b :- AtBar(m.bar, cols, i, st); Ok((b, 1)))
  {
    assert !BadFret(cols, i) && !AnyTwoDigits(cols, i);
  }

  /** The `updateSong` loop from column `i` to the last column. A measure
      closes only at a bar column: when the G array holds no bar from `i`
      on, no measure is added. */
  function ScanRange(l: Legend, m: Marks, notes: string, cols: Strings, i: nat, st: ScanState): (r: Result<ScanState>)
    requires Ready(l, notes, cols) && st.Located()
    ensures r.Ok? ==> r.value.Located()
    ensures r.Ok? && Sound(l, st) ==> Sound(l, r.value)
    ensures r.Ok? ==> r.value.song.extraText == st.song.extraText && r.value.song.gapsize == st.song.gapsize
    ensures r.Ok? ==> Extends(st.song.measures, r.value.song.measures)
    ensures r.Ok? && NoBarFrom(cols, i) ==> |r.value.song.measures| == |st.song.measures|
    decreases |cols.g| - i
  {
    if i >= |cols.g| then Ok(st)
    else
      var p :- Step(l, m, notes, cols, i, st);
      var r := ScanRange(l, m, notes, cols, i + p.1, p.0);
      if r.Ok? then ExtendsTransitive(st.song.measures, p.0.song.measures, r.value.song.measures); r
      else r
  }

  /** `updateSong`: scans the columns from `start` to the end of the arrays
      into the song. A measure still open at the end is dropped. Measures
      are only added, each non-empty and at most a whole note long. */
  function UpdateSong(l: Legend, m: Marks, song: Song, start: nat, notes: string, cols: Strings, last: LastSlice): (r: Result<(Song, LastSlice)>)
    requires Ready(l, notes, cols) && Anchored(song, last)
    ensures r.Ok? ==> Anchored(r.value.0, r.value.1)
    ensures r.Ok? && Built(l, song) ==> Built(l, r.value.0)
    ensures r.Ok? ==> r.value.0.extraText == song.extraText && r.value.0.gapsize == song.gapsize
    ensures r.Ok? ==> Extends(song.measures, r.value.0.measures)
    ensures start >= |cols.g| ==> r == Ok((song, last))
  {
    var st :- ScanRange(l, m, notes, cols, start, ScanState(song, EmptyMeasure(), last));
    Ok((st.song, Release(st)))
  }

  /** The A-string slip of this scanner: a column with no notes whose only
      bar is on the A string is passed over. */
  lemma ALoneBarIgnored(l: Legend, notes: string, cols: Strings, i: nat, st: ScanState)
    requires Ready(l, notes, cols) && i < |cols.g| && st.Located()
    requires cols.g[i] == '-' && cols.d[i] == '-' && cols.a[i] == '|' && cols.e[i] == '-'
    ensures Step(l, ParserMarks(l), notes, cols, i, st) == Ok((st, 1))
  {
    NoteFreeColumn(l, ParserMarks(l), notes, cols, i, st);
  }

  /** The configuration options `buildSong` reads. */
  datatype ParserOptions = ParserOptions(
    hasTiming: bool,
    hasExtra: bool,
    tabSpacing: nat,
    playingLegend: set<char>,
    hasSimpleStrings: bool)

  /** The local state of `buildSong`: the song, the growing timing and
      string arrays, the first column of the group being read, `lastSlice`,
      and the number of lines taken as timing or string lines. */
  datatype ParserState = ParserState(
    song: Song,
    notes: string,
    cols: Strings,
    nextUpdate: nat,
    last: LastSlice,
    counted: nat)

  predicate Consistent(o: ParserOptions, b: ParserState) {
    Anchored(b.song, b.last) && (!o.hasTiming ==> b.notes == "")
  }

  /** The G line realigns the timing array: `front` characters are
      deleted one by one at `nextUpdate`, failing as `del` does past the
      end, and it is then padded with spaces to the G array's length. */
  function Realign(notes: string, nextUpdate: nat, front: nat, width: nat): (r: Result<string>)
    ensures r.Err? <==> front > 0 && nextUpdate + front > |notes|
    ensures r.Err? ==> r.error.IndexError?
    ensures r.Ok? ==> |r.value| == if |notes| - front < width then width else |notes| - front
    ensures r.Ok? && nextUpdate <= |notes| ==> r.value[..nextUpdate] == notes[..nextUpdate]
    ensures r.Ok? && nextUpdate <= |notes| ==> r.value[nextUpdate..|notes| - front] == notes[nextUpdate + front..]
    ensures r.Ok? ==> forall k :: |notes| - front <= k < |r.value| ==> r.value[k] == ' '
  {
    if front == 0 then Ok(PadTo(notes, width))
    else if nextUpdate + front > |notes| then Err(IndexError("del notes[nextUpdate]"))
    else Ok(PadTo(notes[..nextUpdate] + notes[nextUpdate + front..], width))
  }

  /** Appends string line data to the array of string `slot` (G first).
      Without timing the G line marks the first column of the group; with
      timing the G line realigns the timing array. The E line completes the
      group. */
  function StoreString(l: Legend, o: ParserOptions, b: ParserState, slot: nat, arr: string, front: nat): (r: Result<ParserState>)
    requires slot < 4 && NoTimingSymbol in l.timing && Consistent(o, b)
    ensures r.Ok? ==> Consistent(o, r.value) && r.value.counted == b.counted
    ensures r.Ok? && Built(l, b.song) ==> Built(l, r.value.song)
    ensures r.Ok? ==> r.value.song.gapsize == b.song.gapsize && Extends(b.song.measures, r.value.song.measures)
    ensures r.Ok? ==> r.value.cols == AddString(b.cols, slot, arr)
    ensures slot == 0 && !o.hasTiming ==> r.Ok? && r.value.nextUpdate == |b.cols.g|
    ensures slot == 0 && o.hasTiming ==> r.Ok? == Realign(b.notes, b.nextUpdate, front, |b.cols.g| + |arr|).Ok?
    ensures slot == 0 && o.hasTiming && r.Ok? ==>
      r.value.notes == Realign(b.notes, b.nextUpdate, front, |b.cols.g| + |arr|).value && r.value.nextUpdate == b.nextUpdate
    ensures slot != 0 && r.Ok? ==> r.value.notes == b.notes && r.value.nextUpdate == b.nextUpdate
    ensures slot == 3 && !(b.cols.(e := b.cols.e + arr).Aligned() && (o.hasTiming ==> |b.notes| == |b.cols.g|)) ==>
      r.Err? && r.error.TabFileError?
    ensures slot < 3 && r.Ok? ==> r.value.song == b.song
  {
    if slot == 0 then
      var g := b.cols.g + arr;
      if o.hasTiming then
        var notes :- Realign(b.notes, b.nextUpdate, front, |g|);
        Ok(b.(cols := b.cols.(g := g), notes := notes))
      else Ok(b.(nextUpdate := |b.cols.g|, cols := b.cols.(g := g)))
    else if slot == 1 then Ok(b.(cols := b.cols.(d := b.cols.d + arr)))
    else if slot == 2 then Ok(b.(cols := b.cols.(a := b.cols.a + arr)))
    else CloseGroup(l, o, b, b.cols.(e := b.cols.e + arr))
  }

  /** The E line completes a group: the arrays must have one length, and
      `updateSong` scans the group's columns. */
  function CloseGroup(l: Legend, o: ParserOptions, b: ParserState, cols: Strings): (r: Result<ParserState>)
    requires NoTimingSymbol in l.timing && Consistent(o, b)
    ensures r.Ok? ==> Consistent(o, r.value) && r.value.counted == b.counted && r.value.cols == cols
    ensures r.Ok? ==> r.value.notes == b.notes && r.value.nextUpdate == b.nextUpdate
    ensures r.Ok? && Built(l, b.song) ==> Built(l, r.value.song)
    ensures r.Ok? ==> r.value.song.gapsize == b.song.gapsize && Extends(b.song.measures, r.value.song.measures)
    ensures !(cols.Aligned() && (o.hasTiming ==> |b.notes| == |cols.g|)) ==> r.Err? && r.error.TabFileError?
  {
    if !cols.Aligned() || (o.hasTiming && |b.notes| != |cols.g|) then Err(TabFileError("lists not loaded properly"))
    else
      var u :- UpdateSong(l, ParserMarks(l), b.song, b.nextUpdate, b.notes, cols, b.last);
      Ok(b.(song := u.0, last := u.1, cols := cols))
  }

  /** Anything the parser would keep as extra text: `placeExtraLine` is
      called with the line alone, while it takes three arguments, so the
      call fails. */
  function ExtraLine(): (r: Result<ParserState>)
    ensures r.Err? && r.error.ArityError?
  {
    Err(ArityError("placeExtraLine"))
  }

  /** The text `buildSong` reads from a raw line: trailing whitespace cut
      and tabs expanded. */
  function LineText(o: ParserOptions, raw: string): (line: string)
    ensures |line| == 0 <==> AllSpace(raw)
  {
    NonBlankStays(raw, o.tabSpacing);
    ExpandTabs(RStrip(raw), o.tabSpacing)
  }

  /** The array slot a string line goes to, G first. */
  function Slot(o: ParserOptions, b: ParserState): (slot: nat)
    ensures slot < 4
  {
    if o.hasTiming then (if b.counted % 5 == 0 then 0 else b.counted % 5 - 1) else b.counted % 4
  }

  /** A string line's data: the line without its leading whitespace and,
      unless strings are simple, shortened to its bars; with the number of
      characters cut from its front. */
  function StringText(o: ParserOptions, line: string): (r: (string, nat))
    ensures o.hasSimpleStrings ==> r == (LStrip(line), |line| - |LStrip(line)|)
  {
    var trimmed := LStrip(line);
    var cut := if o.hasSimpleStrings then (trimmed, 0) else Shorten(trimmed);
    (cut.0, |line| - |trimmed| + cut.1)
  }

  /** Whether the line is taken as the timing or string line that is due:
      without extra text always, with extra text only a timing line or a
      simple string line. */
  predicate Takes(o: ParserOptions, b: ParserState, line: string) {
    if o.hasTiming && b.counted % 5 == 0 then !o.hasExtra || CheckNoteLine(line)
    else !o.hasExtra || CheckSimpleStringLine(StringText(o, line).0, o.playingLegend)
  }

  /** One pass of the `buildSong` loop over the raw line `raw`. */
  function ReadLine(l: Legend, o: ParserOptions, b: ParserState, raw: string): (r: Result<ParserState>)
    requires NoTimingSymbol in l.timing && Consistent(o, b)
    ensures r.Ok? ==> Consistent(o, r.value)
    ensures r.Ok? && Built(l, b.song) ==> Built(l, r.value.song)
    ensures r.Ok? ==> r.value.song.gapsize == b.song.gapsize && Extends(b.song.measures, r.value.song.measures)
    ensures r.Ok? ==> r.value.counted == b.counted || r.value.counted == b.counted + 1
    ensures AllSpace(raw) && b.counted % GroupSize(o.hasTiming) == 0 ==> r.Err? && r.error.ArityError?
    ensures AllSpace(raw) && b.counted % GroupSize(o.hasTiming) != 0 ==> r == Ok(b)
    ensures !AllSpace(raw) && r.Ok? ==> r.value.counted == b.counted + 1
    ensures !AllSpace(raw) && !Takes(o, b, LineText(o, raw)) ==> r.Err? && r.error.ArityError?
    ensures !AllSpace(raw) && o.hasTiming && b.counted % 5 == 0 && Takes(o, b, LineText(o, raw)) ==>
      r == Ok(b.(nextUpdate := |b.notes|, notes := b.notes + LineText(o, raw), counted := b.counted + 1))
    ensures !AllSpace(raw) && !(o.hasTiming && b.counted % 5 == 0) && Takes(o, b, LineText(o, raw)) ==>
      var cut := StringText(o, LineText(o, raw));
      && r.Ok? == StoreString(l, o, b, Slot(o, b), cut.0, cut.1).Ok?
      && (r.Ok? ==> r.value.cols == AddString(b.cols, Slot(o, b), cut.0))
  {
    var line := LineText(o, raw);
    if |line| == 0 then
      if b.counted % GroupSize(o.hasTiming) == 0 then ExtraLine() else Ok(b)
    else if !Takes(o, b, line) then ExtraLine()
    else if o.hasTiming && b.counted % 5 == 0 then
      Ok(b.(nextUpdate := |b.notes|, notes := b.notes + line, counted := b.counted + 1))
    else
      var cut := StringText(o, line);
      var stored :- StoreString(l, o, b, Slot(o, b), cut.0, cut.1);
      Ok(stored.(counted := b.counted + 1))
  }

  /** The `buildSong` loop over the remaining lines. */
  function ReadLines(l: Legend, o: ParserOptions, b: ParserState, lines: seq<string>): (r: Result<ParserState>)
    requires NoTimingSymbol in l.timing && Consistent(o, b)
    ensures r.Ok? ==> Consistent(o, r.value)
    ensures r.Ok? && Built(l, b.song) ==> Built(l, r.value.song)
    ensures r.Ok? ==> r.value.song.gapsize == b.song.gapsize && Extends(b.song.measures, r.value.song.measures)
    ensures r.Ok? ==> b.counted <= r.value.counted <= b.counted + |lines|
    decreases |lines|
  {
    if |lines| == 0 then Ok(b)
    else
      var next :- ReadLine(l, o, b, lines[0]);
      var r := ReadLines(l, o, next, lines[1..]);
      if r.Ok? then ExtendsTransitive(b.song.measures, next.song.measures, r.value.song.measures); r
      else r
  }

  /** The state `buildSong` starts from. */
  function Start(l: Legend, song: Song): (b: ParserState)
    requires NoTimingSymbol in l.timing
    ensures b.song == song && b.counted == 0 && b.notes == "" && b.nextUpdate == 0
    ensures forall o :: Consistent(o, b)
  {
    ParserState(song, "", Strings("", "", "", ""), 0, Detached(EmptySlice(l)), 0)
  }

  /** `buildSong`: reads the lines into the song, then demands that the
      number of lines taken as timing or string lines be a whole number of
      groups. Returns the song and that number. Every measure it adds is
      non-empty and at most a whole note long, so each one meets the
      drawing precondition. */
  function BuildSong(l: Legend, o: ParserOptions, lines: seq<string>, song: Song): (r: Result<(Song, nat)>)
    requires NoTimingSymbol in l.timing
    ensures r.Ok? ==> r.value.1 % GroupSize(o.hasTiming) == 0 && r.value.1 <= |lines|
    ensures r.Ok? && Built(l, song) ==> Built(l, r.value.0)
    ensures r.Ok? ==> r.value.0.gapsize == song.gapsize && Extends(song.measures, r.value.0.measures)
  {
    var b :- ReadLines(l, o, Start(l, song), lines);
    if b.counted % GroupSize(o.hasTiming) != 0 then Err(TabFileError("input file line count incorrect"))
    else Ok((b.song, b.counted))
  }

  /** A blank line before the first group reaches the one-argument
      `placeExtraLine` call, so no file that opens with one is read. */
  lemma LeadingBlankLineFails(l: Legend, o: ParserOptions, lines: seq<string>, song: Song)
    requires NoTimingSymbol in l.timing && |lines| > 0 && AllSpace(lines[0])
    ensures BuildSong(l, o, lines, song).Err? && BuildSong(l, o, lines, song).error.ArityError?
  {
    assert ReadLine(l, o, Start(l, song), lines[0]).Err?;
  }

  /** Without extra text every non-blank line counts: a timing line where
      one is due, a string line otherwise. */
  lemma {:induction false} PlainLinesAllCount(l: Legend, o: ParserOptions, b: ParserState, lines: seq<string>)
    requires NoTimingSymbol in l.timing && Consistent(o, b) && !o.hasExtra
    requires forall k :: 0 <= k < |lines| ==> !AllSpace(lines[k])
    ensures ReadLines(l, o, b, lines).Ok? ==> ReadLines(l, o, b, lines).value.counted == b.counted + |lines|
    decreases |lines|
  {
    if |lines| > 0 {
      var next := ReadLine(l, o, b, lines[0]);
      if next.Ok? {
        PlainLinesAllCount(l, o, next.value, lines[1..]);
      }
    }
  }
}
