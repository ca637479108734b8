/** parsingUtils.py: the current tab parser. A group of tab lines (an
    optional timing line and four string lines) becomes four aligned string
    arrays and a timing array; `updateSong` scans them column by column,
    turning each column into a slice and closing a measure at each bar. */
module ParsingUtils {
  import opened Results
  import opened Chars
  import opened Notes
  import opened Legends
  import opened Slices
  import opened Measures
  import opened Songs
  import opened Scan
  import ConfigLibrary

  /** Column `i` carries a legend symbol in the timing array. */
  predicate Timed(l: Legend, notes: string, i: nat)
    requires |notes| == 0 || i < |notes|
  {
    |notes| > 0 && notes[i] in l.timing
  }

  /** The frets of column `i` are read: there is no timing at all, or the
      column carries a legend symbol. */
  predicate Reads(l: Legend, notes: string, i: nat)
    requires |notes| == 0 || i < |notes|
  {
    |notes| == 0 || Timed(l, notes, i)
  }

  /** The slice of column `i` before any tie: a legend symbol at `notes[i]`
      gives the slice its length and each dot symbol right after it adds a
      dot; the frets are read only when the column `Reads`. */
  function ColumnSlice(l: Legend, notes: string, cols: Strings, i: nat): (r: Result<(Slice, bool)>)
    requires Ready(l, notes, cols) && i < |cols.g|
    ensures !Reads(l, notes, i) ==> r == Ok((EmptySlice(l), false))
    ensures Reads(l, notes, i) ==> (r.Err? <==> BadFret(cols, i))
    ensures r.Err? ==> r.error.TabFileError?
    ensures r.Ok? && Reads(l, notes, i) ==>
      |r.value.0.notes| == DigitCount(cols, i) && (r.value.1 <==> AnyTwoDigits(cols, i))
    ensures r.Ok? && Timed(l, notes, i) ==>
      var n := DotRun(notes, i + 1, l.dotSymbol);
      var len := l.timing[notes[i]].length;
      && r.value.0.symbol == notes[i] && r.value.0.numDots == n
      && r.value.0.length == 2.0 * len - len / (Pow2(n) as real)
    ensures r.Ok? && !Timed(l, notes, i) ==>
      r.value.0.symbol == NoTimingSymbol && r.value.0.numDots == 0 && r.value.0.length == l.NoTimingLength()
    ensures r.Ok? ==> Drawn(l, r.value.0) && !r.value.0.tieBegins && !r.value.0.tieEnds
    ensures r.Ok? ==> i + Advance(r.value.0.numDots, r.value.1) <= |cols.g|
  {
    var s0 := EmptySlice(l);
    if !Reads(l, notes, i) then Ok((s0, false))
    else if |notes| == 0 then ParseColumn(cols, i, s0)
    else
      var n := DotRun(notes, i + 1, l.dotSymbol);
      var timed := SetLength(l, s0, notes[i]).value;
      DotsConserve(timed, n);
      DottedLength(l, s0, notes[i], n);
      ParseColumn(cols, i, ApplyDots(timed, n))
  }

  /** The tie test: the column carries a legend symbol and the timing
      character before it is the tie symbol. */
  predicate TieWanted(l: Legend, notes: string, i: nat)
    requires |notes| == 0 || i < |notes|
  {
    i > 0 && Timed(l, notes, i) && Some(notes[i - 1]) == l.tieSymbol
  }

  /** How far the cursor moves past a slice: over its dots when it has
      some, otherwise over a two-digit fret, otherwise one column. */
  function Advance(numDots: nat, skip: bool): (n: nat)
    ensures n >= 1
    ensures numDots > 0 ==> n == numDots
    ensures numDots == 0 ==> (n == 2 <==> skip) && (n == 1 <==> !skip)
  {
    if numDots > 0 then numDots else if skip then 2 else 1
  }

  /** The tie of the new slice to `lastSlice`, done only when the tie
      test holds; it changes tie flags and nothing else. */
  function TieStep(l: Legend, notes: string, i: nat, st: ScanState, sl: Slice): (r: Result<(ScanState, Slice)>)
    requires (|notes| == 0 || i < |notes|) && st.Located()
    ensures !TieWanted(l, notes, i) ==> r == Ok((st, sl))
    ensures TieWanted(l, notes, i) && !SameNotes(LastOf(st).notes, sl.notes) ==> r.Err? && r.error.TabError?
    ensures r.Ok? ==> r.value.1 == sl || r.value.1 == sl.(tieEnds := true)
    ensures r.Ok? ==> r.value.0.Located()
    ensures r.Ok? ==> r.value.0.song.extraText == st.song.extraText && r.value.0.song.gapsize == st.song.gapsize
    ensures r.Ok? ==> Extends(st.song.measures, r.value.0.song.measures)
    ensures r.Ok? ==> |r.value.0.song.measures| == |st.song.measures|
    ensures r.Ok? && Sound(l, st) ==> Sound(l, r.value.0)
  {
    if !TieWanted(l, notes, i) then Ok((st, sl))
    else
      var t :- TieToLast(st, sl);
      TieKeepsSoundIf(l, st, sl);
      Ok(t)
  }

  /** Storing the slice: a rest or a slice with notes joins the open
      measure; any other slice is dropped and the column takes the bar
      test, which looks at G, D and E only. */
  function Place(l: Legend, cols: Strings, i: nat, st: ScanState, sl: Slice): (r: Result<ScanState>)
    requires NoTimingSymbol in l.timing && cols.Aligned() && i < |cols.g| && st.Located()
    ensures IsRest(l, sl) || !Slices.IsEmpty(sl) ==> r == Ok(Append(st, sl))
    ensures !(IsRest(l, sl) || !Slices.IsEmpty(sl)) ==> r == AtBar(AnyButA, cols, i, st)
    ensures r.Ok? ==> r.value.Located()
    ensures r.Ok? ==> r.value.song.extraText == st.song.extraText && r.value.song.gapsize == st.song.gapsize
    ensures r.Ok? ==> Extends(st.song.measures, r.value.song.measures)
    ensures r.Ok? && |r.value.song.measures| != |st.song.measures| ==> FullBar(cols, i)
    ensures r.Ok? && Sound(l, st) && Drawn(l, sl) ==> Sound(l, r.value)
  {
    if IsRest(l, sl) || !Slices.IsEmpty(sl) then
      AppendKeepsSoundIf(l, st, sl);
      Ok(Append(st, sl))
    else
      var r := AtBar(AnyButA, cols, i, st);
      CloseKeepsSoundIf(l, st);
      r
  }

  /** One pass of the `updateSong` loop at column `i`: build the slice, tie
      it to `lastSlice` when asked, then store it or run the bar test.
      Returns the new state and how far the cursor moves. */
  function Step(l: Legend, notes: string, cols: Strings, i: nat, st: ScanState): (r: Result<(ScanState, nat)>)
    requires Ready(l, notes, cols) && i < |cols.g| && st.Located()
    ensures ColumnSlice(l, notes, cols, i).Err? ==> r.Err?
    ensures r.Ok? ==> var c := ColumnSlice(l, notes, cols, i).value;
      r.value.1 == Advance(c.0.numDots, c.1)
    ensures r.Ok? ==> r.value.0.Located() && i + r.value.1 <= |cols.g|
    ensures r.Ok? && Sound(l, st) ==> Sound(l, r.value.0)
    ensures r.Ok? ==> r.value.0.song.extraText == st.song.extraText && r.value.0.song.gapsize == st.song.gapsize
    ensures r.Ok? ==> Extends(st.song.measures, r.value.0.song.measures)
    ensures r.Ok? && |r.value.0.song.measures| != |st.song.measures| ==> FullBar(cols, i)
    ensures ColumnSlice(l, notes, cols, i).Ok? && TieWanted(l, notes, i) &&
            !SameNotes(LastOf(st).notes, ColumnSlice(l, notes, cols, i).value.0.notes) ==>
              r.Err? && r.error.TabError?
  {
    var c :- ColumnSlice(l, notes, cols, i);
    var t :- TieStep(l, notes, i, st, c.0);
    var next :- Place(l, cols, i, t.0, t.1);
    ExtendsTransitive(st.song.measures, t.0.song.measures, next.song.measures);
    Ok((next, Advance(t.1.numDots, c.1)))
  }

  /** The `updateSong` loop from column `i` on. Measures close only at bar
      columns: when the G array holds no bar, no measure is added. */
  function ScanFrom(l: Legend, notes: string, cols: Strings, i: nat, st: ScanState): (r: Result<ScanState>)
    requires Ready(l, notes, cols) && i <= |cols.g| && st.Located()
    ensures r.Ok? ==> r.value.Located()
    ensures r.Ok? && Sound(l, st) ==> Sound(l, r.value)
    ensures r.Ok? ==> r.value.song.extraText == st.song.extraText && r.value.song.gapsize == st.song.gapsize
    ensures r.Ok? ==> Extends(st.song.measures, r.value.song.measures)
    ensures r.Ok? && NoBarFrom(cols, i) ==> |r.value.song.measures| == |st.song.measures|
    decreases |cols.g| - i
  {
    if i == |cols.g| then Ok(st)
    else
      var p :- Step(l, notes, cols, i, st);
      var r := ScanFrom(l, notes, cols, i + p.1, p.0);
      if r.Ok? then ExtendsTransitive(st.song.measures, p.0.song.measures, r.value.song.measures); r
      else r
  }

  /** `updateSong`: scans all columns of one group. A measure still open
      when the scan ends is dropped, and the returned `lastSlice` is held
      by the caller or is the last slice of the song. Measures are only
      added, each non-empty and at most a whole note long. */
  function UpdateSong(l: Legend, song: Song, notes: string, cols: Strings, last: LastSlice): (r: Result<(Song, LastSlice)>)
    requires Ready(l, notes, cols) && Anchored(song, last)
    ensures r.Ok? ==> Anchored(r.value.0, r.value.1)
    ensures r.Ok? && Built(l, song) ==> Built(l, r.value.0)
    ensures r.Ok? ==> r.value.0.extraText == song.extraText && r.value.0.gapsize == song.gapsize
    ensures r.Ok? ==> Extends(song.measures, r.value.0.measures)
    ensures r.Ok? && NoBarFrom(cols, 0) ==> |r.value.0.measures| == |song.measures|
  {
    var st :- ScanFrom(l, notes, cols, 0, ScanState(song, EmptyMeasure(), last));
    Ok((st.song, Release(st)))
  }

  /** The A-string slip: a column with no notes whose only bar is on the A
      string passes the bar test and closes nothing. */
  lemma ALoneBarIgnored(l: Legend, cols: Strings, i: nat, st: ScanState)
    requires Ready(l, "", cols) && i < |cols.g| && st.Located()
    requires cols.g[i] == '-' && cols.d[i] == '-' && cols.a[i] == '|' && cols.e[i] == '-'
    ensures Step(l, "", cols, i, st).Ok?
    ensures Step(l, "", cols, i, st).value == (st, 1)
  {
    assert !TwoDigits(cols.g, i) && !TwoDigits(cols.d, i) && !TwoDigits(cols.a, i) && !TwoDigits(cols.e, i);
  }

  /** A column with a bar on G but not on D is rejected. */
  lemma BrokenBarRejected(l: Legend, cols: Strings, i: nat, st: ScanState)
    requires Ready(l, "", cols) && i < |cols.g| && st.Located()
    requires cols.g[i] == '|' && cols.d[i] == '-' && !IsDigit(cols.a[i]) && !IsDigit(cols.e[i])
    ensures Step(l, "", cols, i, st).Err?
  {
  }

  /** `isTimingLine`: the line is not empty and holds only characters
      allowed in timing lines (the space and the configured symbols). */
  predicate IsTimingLine(l: Legend, line: string) {
    |line| > 0 && AllIn(line, l.timingChars)
  }

  /** A reading of the pattern `^([^|]*)(\|[P]+\|)(.*)$` of
      `extractStringData`, P the characters allowed in string data: the
      string data runs from the bar at `p` to the bar at `q`. */
  predicate Splits(l: Legend, line: string, p: int, q: int) {
    && 0 <= p && p + 2 <= q < |line|
    && '|' !in line[..p]
    && line[p] == '|' && line[q] == '|'
    && AllIn(line[p + 1..q], l.playingChars)
  }

  /** The length of the longest run of `allowed` characters from `j`. */
  function RunLength(s: string, j: nat, allowed: set<char>): (n: nat)
    requires j <= |s|
    ensures j + n <= |s|
    ensures forall k :: j <= k < j + n ==> s[k] in allowed
    ensures j + n < |s| ==> s[j + n] !in allowed
    decreases |s| - j
  {
    if j < |s| && s[j] in allowed then 1 + RunLength(s, j + 1, allowed) else 0
  }

  /** The largest index in [lo, hi] holding `c`, or -1 when there is none. */
  function LastAt(s: string, c: char, lo: nat, hi: int): (k: int)
    requires hi < |s|
    ensures k == -1 || (lo <= k <= hi && s[k] == c)
    ensures forall j :: lo <= j <= hi && s[j] == c ==> j <= k
    decreases hi - lo + 1
  {
    if hi < lo then -1 else if s[hi] == c then hi else LastAt(s, c, lo, hi - 1)
  }

  /** `extractStringData`: the text before the first bar, the string data
      from that bar to the last bar the greedy pattern can reach, and the
      rest of the line; `None` when the pattern does not match. */
  function ExtractStringData(l: Legend, line: string): (r: Option<(string, string, string)>)
    ensures r.Some? ==> r.value.0 + r.value.1 + r.value.2 == line
    ensures r.Some? ==> '|' !in r.value.0
    ensures r.Some? ==> Splits(l, line, |r.value.0|, |r.value.0| + |r.value.1| - 1)
  {
    match MatchBars(l, line)
    case None => None
    case Some((p, q)) => SplitParts(l, line, p, q)
  }

  /** The three parts of a split line: the text before the first bar, the
      string data, and the rest. They join to the line, and the split read
      back from their lengths is the same one. */
  function SplitParts(l: Legend, line: string, p: nat, q: nat): (r: Option<(string, string, string)>)
    requires Splits(l, line, p, q)
    ensures r.Some? && |r.value.0| == p && |r.value.1| == q + 1 - p
    ensures r.value.0 + r.value.1 + r.value.2 == line
    ensures '|' !in r.value.0
    ensures Splits(l, line, |r.value.0|, |r.value.0| + |r.value.1| - 1)
  {
    ThreeParts(line, p, q + 1);
    Some((line[..p], line[p..q + 1], line[q + 1..]))
  }

  /** Cutting a sequence at two places and joining the parts again gives
      it back. */
  lemma ThreeParts<T>(s: seq<T>, i: nat, j: nat)
    requires i <= j <= |s|
    ensures s[..i] + s[i..j] + s[j..] == s
    ensures |s[..i]| == i && |s[i..j]| == j - i
  {
  }

  /** Where the pattern of `extractStringData` puts its two bars: the
      first bar of the line, and the last bar the string data can reach
      from it. */
  function MatchBars(l: Legend, line: string): (r: Option<(nat, nat)>)
    ensures r.Some? ==> Splits(l, line, r.value.0, r.value.1)
  {
    var p := Find(line, '|');
    if p < 0 then None
    else
      var run := RunLength(line, p + 1, l.playingChars);
      var hi := if p + run + 1 < |line| then p + run + 1 else |line| - 1;
      var q := LastAt(line, '|', p + 2, hi);
      if q < 0 then None
      else
        MatchSplits(l, line, p, q);
        Some((p, q))
  }

  /** Bars at `p` and `q` with only allowed characters between them, and
      no bar before `p`, split the line. */
  lemma MatchSplits(l: Legend, line: string, p: nat, q: nat)
    requires p < |line| && line[p] == '|' && '|' !in line[..p]
    requires p + 2 <= q < |line| && line[q] == '|'
    requires q <= p + RunLength(line, p + 1, l.playingChars) + 1
    ensures Splits(l, line, p, q)
  {
    var data := line[p + 1..q];
    forall k | 0 <= k < |data| ensures data[k] in l.playingChars {
      assert data[k] == line[p + 1 + k];
    }
  }

  /** `extractStringData` finds string data exactly when the pattern can
      match, and it takes the longest string data the pattern allows. */
  lemma ExtractIsGreedyMatch(l: Legend, line: string, p: int, q: int)
    requires Splits(l, line, p, q)
    ensures ExtractStringData(l, line).Some?
    ensures var v := ExtractStringData(l, line).value;
      |v.0| == p && q <= |v.0| + |v.1| - 1
  {
    BarsAreGreedy(l, line, p, q);
    var k := MatchBars(l, line).value.1;
    ThreeParts(line, p, k + 1);
  }

  /** The pattern's bars: the first bar of the line, and a last bar no
      earlier than that of any split. */
  lemma BarsAreGreedy(l: Legend, line: string, p: int, q: int)
    requires Splits(l, line, p, q)
    ensures MatchBars(l, line).Some?
    ensures MatchBars(l, line).value.0 == p && q <= MatchBars(l, line).value.1
  {
    var f := Find(line, '|');
    assert line[p] == '|' && '|' in line;
    assert f == p;
    var run := RunLength(line, p + 1, l.playingChars);
    var hi := if p + run + 1 < |line| then p + run + 1 else |line| - 1;
    assert q <= hi;
    var k := LastAt(line, '|', p + 2, hi);
    assert q <= k;
  }

  /** With no match there is no string data at all. */
  lemma NoMatchNoSplit(l: Legend, line: string)
    requires ExtractStringData(l, line).None?
    ensures forall p, q :: !Splits(l, line, p, q)
  {
    forall p, q | Splits(l, line, p, q)
      ensures false
    {
      ExtractIsGreedyMatch(l, line, p, q);
    }
  }

  /** `Song.STRING_NAMES`, G first: the string a line of a group stands
      for. */
  const StringNames: string := "GDAE"

  /** `checkChrToStringName`: `name` must be a string name, and the
      character found in the tab must equal it. The bad-name branch raises
      `TabException`, which parsingUtils.py does not import, so it ends in a
      NameError; every caller passes a string name, so it is never taken. */
  function CheckChrToStringName(c: char, name: char): (r: Result<()>)
    ensures r.Ok? <==> name in StringNames && c == name
    ensures name !in StringNames ==> r.Err? && r.error.NameError?
    ensures name in StringNames && c != name ==> r.Err? && r.error.TabFileError?
  {
    if name !in StringNames then Err(NameError("TabException"))
    else if c != name then Err(TabFileError("invalid string name found"))
    else Ok(())
  }

  /** The last character of `text` stands where a string name goes: it is
      not whitespace, and it is the whole text or follows whitespace. */
  predicate NameSlot(text: string) {
    && |text| > 0
    && !IsSpace(text[|text| - 1])
    && (|text| == 1 || IsSpace(text[|text| - 2]))
  }

  /** `removeStringName`: a character in the name slot must be the
      expected string name (in either case) and is removed; text without a
      name slot is returned unchanged. */
  function RemoveStringName(text: string, name: char): (r: Result<string>)
    ensures !NameSlot(text) ==> r == Ok(text)
    ensures NameSlot(text) ==> (r.Ok? <==> name in StringNames && Upper(text[|text| - 1]) == name)
    ensures NameSlot(text) && r.Ok? ==> r.value == text[..|text| - 1]
  {
    if |text| > 0 && ((|text| > 1 && IsSpace(text[|text| - 2])) || |text| == 1) && !IsSpace(Upper(text[|text| - 1])) then
      var _ :- CheckChrToStringName(Upper(text[|text| - 1]), name);
      Ok(text[..|text| - 1])
    else Ok(text)
  }

  /** Writing a string name after a caption (or alone) and removing it gives
      the caption back, whichever case the name was written in. */
  lemma RemoveWrittenName(caption: string, written: char, name: char)
    requires name in StringNames && Upper(written) == name
    requires |caption| == 0 || IsSpace(caption[|caption| - 1])
    ensures RemoveStringName(caption + [written], name) == Ok(caption)
  {
    var t := caption + [written];
    assert t[..|t| - 1] == caption;
    assert !IsSpace(written) by {
      assert name == 'G' || name == 'D' || name == 'A' || name == 'E';
    }
    if |caption| > 0 {
      assert t[|t| - 2] == caption[|caption| - 1];
    }
  }

  /** `Song.EXTRA_TEXT_DELIMITER`. */
  const Delimiter: char := ';'

  /** `saveSameLineExtraText`: a whitespace-only fragment is ignored;
      otherwise the stripped fragment is appended, after the delimiter when
      text was already saved. */
  function SaveSameLineExtraText(saved: string, fragment: string): (r: string)
    ensures AllSpace(fragment) ==> r == saved
    ensures !AllSpace(fragment) && saved == "" ==> r == Strip(fragment)
    ensures !AllSpace(fragment) && saved != "" ==> r == saved + [Delimiter] + Strip(fragment)
  {
    var t := Strip(fragment);
    if t == "" then saved
    else if saved != "" then saved + [Delimiter] + t
    else t
  }

  /** The fragments that are not whitespace only, stripped. */
  function Kept(fragments: seq<string>): (r: seq<string>)
    ensures forall k :: 0 <= k < |r| ==> r[k] != ""
  {
    if |fragments| == 0 then []
    else
      var rest := Kept(fragments[..|fragments| - 1]);
      var last := fragments[|fragments| - 1];
      if AllSpace(last) then rest else rest + [Strip(last)]
  }

  /** Pieces joined with the delimiter between neighbours. */
  function JoinDelimited(pieces: seq<string>): string {
    if |pieces| == 0 then ""
    else if |pieces| == 1 then pieces[0]
    else JoinDelimited(pieces[..|pieces| - 1]) + [Delimiter] + pieces[|pieces| - 1]
  }

  /** Saving fragments one at a time, from nothing. */
  function SaveAll(fragments: seq<string>): string {
    if |fragments| == 0 then ""
    else SaveSameLineExtraText(SaveAll(fragments[..|fragments| - 1]), fragments[|fragments| - 1])
  }

  /** Whatever the order of saves, the saved text is the non-blank
      fragments, stripped and joined by the delimiter. */
  lemma {:induction false} SaveAllJoins(fragments: seq<string>)
    ensures SaveAll(fragments) == JoinDelimited(Kept(fragments))
  {
    if |fragments| > 0 {
      var init := fragments[..|fragments| - 1];
      SaveAllJoins(init);
      var pieces := Kept(init);
      var last := fragments[|fragments| - 1];
      if !AllSpace(last) {
        var more := pieces + [Strip(last)];
        assert more[..|more| - 1] == pieces;
        if |pieces| > 0 {
          JoinNonEmpty(pieces);
        }
      }
    }
  }

  lemma {:induction false} JoinNonEmpty(pieces: seq<string>)
    requires |pieces| > 0 && forall k :: 0 <= k < |pieces| ==> pieces[k] != ""
    ensures JoinDelimited(pieces) != ""
  {
    if |pieces| > 1 {
      JoinNonEmpty(pieces[..|pieces| - 1]);
    }
  }

  /** The configuration options `buildSong` reads. */
  datatype TabOptions = TabOptions(hasTiming: bool, hasExtra: bool, tabSpacing: nat, keepExtra: bool)

  /** The local state of `buildSong`: the song, the timing and string
      arrays of the current group, the extra text collected on the group's
      lines, `lastSlice`, and the number of lines taken as timing or
      string lines. */
  datatype Builder = Builder(
    song: Song,
    notes: string,
    cols: Strings,
    startText: string,
    endText: string,
    last: LastSlice,
    counted: nat)

  predicate Consistent(o: TabOptions, b: Builder) {
    Anchored(b.song, b.last) && (!o.hasTiming ==> b.notes == "")
  }

  /** Where `lastSlice` lies depends on the measures alone. */
  lemma AnchoredByMeasures(s1: Song, s2: Song, last: LastSlice)
    requires s1.measures == s2.measures && Anchored(s1, last)
    ensures Anchored(s2, last)
  {
  }

  /** `notes[trim:]`: empty once `trim` passes the end. */
  function Drop(s: string, trim: nat): (r: string)
    ensures trim <= |s| ==> r == s[trim..]
    ensures trim > |s| ==> r == ""
  {
    if trim <= |s| then s[trim..] else ""
  }

  /** The string data of a string line, with the extra text collected
      around it and the number of characters before it; `None` when the
      line holds no string data. */
  function StringData(l: Legend, o: TabOptions, b: Builder, line: string, slot: nat): (r: Result<Option<(string, string, string, nat)>>)
    requires slot < 4
    ensures o.hasExtra ==> (r.Ok? && r.value.None? <==> ExtractStringData(l, line).None?)
    ensures !o.hasExtra && r.Ok? ==> r.value.Some? && r.value.value.0 == LStrip(line)
    ensures o.hasExtra && r.Ok? && r.value.Some? ==> r.value.value.0 == ExtractStringData(l, line).value.1
    ensures r.Ok? && r.value.Some? && !o.keepExtra ==> r.value.value.1 == b.startText && r.value.value.2 == b.endText
  {
    if o.hasExtra then ExtraStringData(l, o.keepExtra, b, line, slot)
    else PlainStringData(b, line, slot)
  }

  /** With extra text, the string data is what the string line regex
      matches; with `keepExtra` the text before it, less the string name,
      and the text after it are saved. */
  function ExtraStringData(l: Legend, keepExtra: bool, b: Builder, line: string, slot: nat): (r: Result<Option<(string, string, string, nat)>>)
    requires slot < 4
    ensures r.Ok? && r.value.None? <==> ExtractStringData(l, line).None?
    ensures r.Ok? && r.value.Some? ==>
      var m := ExtractStringData(l, line).value;
      r.value.value.0 == m.1 && r.value.value.3 == |m.0|
    ensures r.Ok? && r.value.Some? && !keepExtra ==> r.value.value.1 == b.startText && r.value.value.2 == b.endText
    ensures r.Err? ==> keepExtra && ExtractStringData(l, line).Some?
  {
    var m := ExtractStringData(l, line);
    if m.None? then Ok(None)
    else
      var parts := m.value;
      var texts :- SavedTexts(keepExtra, b, parts.0, parts.2, slot);
      Ok(Some((parts.1, texts.0, texts.1, |parts.0|)))
  }

  /** The start and end texts after a string line: with `keepExtra` the
      text before the string data, less the string name, and the text
      after it are saved; otherwise both stay as they were. */
  function SavedTexts(keepExtra: bool, b: Builder, before: string, after: string, slot: nat): (r: Result<(string, string)>)
    requires slot < 4
    ensures !keepExtra ==> r == Ok((b.startText, b.endText))
  {
    if !keepExtra then Ok((b.startText, b.endText))
    else
      var pre :- RemoveStringName(before, StringNames[slot]);
      Ok((SaveSameLineExtraText(b.startText, pre), SaveSameLineExtraText(b.endText, after)))
  }

  /** Without extra text the line is only left-stripped, and a leading
      letter must be the expected string name. */
  function PlainStringData(b: Builder, line: string, slot: nat): (r: Result<Option<(string, string, string, nat)>>)
    requires slot < 4
    ensures r.Ok? ==> r.value == Some((LStrip(line), b.startText, b.endText, |line| - |LStrip(line)|))
    ensures r.Err? <==> |LStrip(line)| == 0 || (IsAlpha(LStrip(line)[0]) && CheckChrToStringName(Upper(LStrip(line)[0]), StringNames[slot]).Err?)
  {
    var arr := LStrip(line);
    if |arr| == 0 then Err(IndexError("arr[0] of an empty line"))
    else
      var data := Some((arr, b.startText, b.endText, |line| - |arr|));
      if !IsAlpha(arr[0]) then Ok(data)
      else
        var check := CheckChrToStringName(Upper(arr[0]), StringNames[slot]);
        if check.Err? then Err(check.error) else Ok(data)
  }

  /** Stores the string data of string `slot` (G first). With timing, the
      G line also realigns the timing array: `trim` characters are dropped
      from its front and it is padded with spaces to the G array's length.
      The E line completes the group. */
  function StoreString(l: Legend, o: TabOptions, b: Builder, slot: nat, arr: string, trim: nat): (r: Result<Builder>)
    requires slot < 4 && NoTimingSymbol in l.timing && Consistent(o, b)
    ensures r.Ok? ==> Consistent(o, r.value) && r.value.counted == b.counted
    ensures r.Ok? && Built(l, b.song) ==> Built(l, r.value.song)
    ensures r.Ok? ==> r.value.song.gapsize == b.song.gapsize && Extends(b.song.measures, r.value.song.measures)
    ensures r.Ok? ==> r.value.cols == SetString(b.cols, slot, arr)
    ensures slot == 0 ==> r.Ok? && r.value.cols.g == arr
    ensures slot == 0 && o.hasTiming ==> r.Ok? && r.value.notes == PadTo(Drop(b.notes, trim), |arr|)
    ensures (slot == 0 && !o.hasTiming) || slot == 1 || slot == 2 ==> r == Ok(b.(cols := SetString(b.cols, slot, arr)))
    ensures slot == 3 && !(b.cols.(e := arr).Aligned() && (o.hasTiming ==> |b.notes| == |arr|)) ==>
      r.Err? && r.error.TabFileError?
    ensures slot < 3 ==> r.Ok? && r.value.song == b.song
  {
    if slot < 3 then
      var notes := if slot == 0 && o.hasTiming then PadTo(Drop(b.notes, trim), |arr|) else b.notes;
      Ok(b.(cols := SetString(b.cols, slot, arr), notes := notes))
    else CloseGroup(l, o, b, SetString(b.cols, slot, arr))
  }

  /** The E line completes a group: the arrays must have one length, the
      text collected before the strings goes at the start of the group's
      first line, `updateSong` scans the group, and the text collected
      after the strings goes at the end of the line. */
  function CloseGroup(l: Legend, o: TabOptions, b: Builder, cols: Strings): (r: Result<Builder>)
    requires NoTimingSymbol in l.timing && Consistent(o, b)
    ensures r.Ok? ==> Consistent(o, r.value) && r.value.counted == b.counted
    ensures r.Ok? && Built(l, b.song) ==> Built(l, r.value.song)
    ensures r.Ok? ==> r.value.song.gapsize == b.song.gapsize && Extends(b.song.measures, r.value.song.measures)
    ensures r.Ok? ==> r.value.cols == cols && r.value.startText == "" && r.value.endText == ""
    ensures !(cols.Aligned() && (o.hasTiming ==> |b.notes| == |cols.g|)) ==> r.Err? && r.error.TabFileError?
  {
    if !cols.Aligned() || (o.hasTiming && |b.notes| != |cols.g|) then Err(TabFileError("lists not loaded properly"))
    else
      var scanned :- ScanGroup(l, b, cols);
      Ok(b.(song := scanned.0, cols := cols, last := scanned.1, startText := "", endText := ""))
  }

  /** The start text, the scan and the end text of a complete group. */
  function ScanGroup(l: Legend, b: Builder, cols: Strings): (r: Result<(Song, LastSlice)>)
    requires Ready(l, b.notes, cols) && Anchored(b.song, b.last)
    ensures r.Ok? ==> Anchored(r.value.0, r.value.1)
    ensures r.Ok? && Built(l, b.song) ==> Built(l, r.value.0)
    ensures r.Ok? ==> r.value.0.gapsize == b.song.gapsize && Extends(b.song.measures, r.value.0.measures)
  {
    var n := |b.song.measures|;
    var start := if HasExtraText(b.song, n + 1, StartOfLine) then "\n" + b.startText else b.startText;
    var before := PlaceExtraLine(b.song, start, n + 1, StartOfLine);
    AnchoredByMeasures(b.song, before, b.last);
    var scanned :- UpdateSong(l, before, b.notes, cols, b.last);
    var after := PlaceExtraLine(scanned.0, b.endText, |scanned.0.measures|, EndOfLine);
    AnchoredByMeasures(scanned.0, after, scanned.1);
    Ok((after, scanned.1))
  }

  /** The start text opens the entry after the next measure before the
      scan runs, even when it is empty. A group with no bar on G adds no
      measure, so the song it leaves meets the drawing precondition but
      holds more extra text than printing accepts. */
  lemma BarlessGroupUnprintable(l: Legend, b: Builder, cols: Strings)
    requires Ready(l, b.notes, cols) && Anchored(b.song, b.last) && Built(l, b.song)
    requires NoBarFrom(cols, 0) && ScanGroup(l, b, cols).Ok?
    ensures Drawable(l, ScanGroup(l, b, cols).value.0)
    ensures Render(l, ScanGroup(l, b, cols).value.0).Err?
  {
    BarlessGroupCounts(l, b, cols);
    TooMuchTextUnprintable(l, ScanGroup(l, b, cols).value.0);
  }

  /** The counts behind `BarlessGroupUnprintable`: the group keeps the
      number of measures, and the table reaches the entry after the next
      measure. */
  lemma BarlessGroupCounts(l: Legend, b: Builder, cols: Strings)
    requires Ready(l, b.notes, cols) && Anchored(b.song, b.last)
    requires NoBarFrom(cols, 0) && ScanGroup(l, b, cols).Ok?
    ensures |ScanGroup(l, b, cols).value.0.measures| == |b.song.measures|
    ensures |ScanGroup(l, b, cols).value.0.extraText| >= |b.song.measures| + 2
  {
    var n := |b.song.measures|;
    var start := if HasExtraText(b.song, n + 1, StartOfLine) then "\n" + b.startText else b.startText;
    var before := PlaceExtraLine(b.song, start, n + 1, StartOfLine);
    assert |before.extraText| >= n + 2;
    var scanned := UpdateSong(l, before, b.notes, cols, b.last).value;
    assert |scanned.0.measures| == n && scanned.0.extraText == before.extraText;
    assert ScanGroup(l, b, cols).value.0 == PlaceExtraLine(scanned.0, b.endText, n, EndOfLine);
  }

  /** A built song with more extra-text entries than its measures plus one
      meets the drawing precondition, but printing refuses it. */
  lemma TooMuchTextUnprintable(l: Legend, song: Song)
    requires Built(l, song) && |song.extraText| > |song.measures| + 1
    ensures Drawable(l, song) && Render(l, song).Err?
  {
    BuiltIsDrawable(l, song);
  }

  /** One pass of the `buildSong` loop over the raw line `raw`: the line
      is right-stripped and its tabs expanded; a blank line at a group
      boundary becomes a blank extra line. */
  function ReadLine(l: Legend, o: TabOptions, b: Builder, raw: string): (r: Result<Builder>)
    requires NoTimingSymbol in l.timing && Consistent(o, b)
    ensures r.Ok? ==> Consistent(o, r.value)
    ensures r.Ok? && Built(l, b.song) ==> Built(l, r.value.song)
    ensures r.Ok? ==> r.value.song.gapsize == b.song.gapsize && Extends(b.song.measures, r.value.song.measures)
    ensures r.Ok? ==> r.value.counted == b.counted || r.value.counted == b.counted + 1
    ensures AllSpace(raw) ==> r.Ok? && r.value.counted == b.counted && r.value.song.measures == b.song.measures
  {
    var line := ExpandTabs(RStrip(raw), o.tabSpacing);
    NonBlankStays(raw, o.tabSpacing);
    if |line| == 0 then Ok(BlankLine(o, b))
    else if o.hasTiming && b.counted % 5 == 0 then Ok(ReadTimingSlot(l, o, b, line))
    else ReadStringSlot(l, o, b, line, if o.hasTiming then b.counted % 5 - 1 else b.counted % 4)
  }

  /** A blank line: at a group boundary it becomes a blank extra line
      following the song so far; inside a group it is ignored. */
  function BlankLine(o: TabOptions, b: Builder): (r: Builder)
    requires Consistent(o, b)
    ensures Consistent(o, r) && r.counted == b.counted
    ensures r.song.measures == b.song.measures && r.song.gapsize == b.song.gapsize
  {
    if b.counted % GroupSize(o.hasTiming) == 0 then
      var song := PlaceExtraLine(b.song, " ", |b.song.measures|, Following);
      AnchoredByMeasures(b.song, song, b.last);
      b.(song := song)
    else b
  }

  /** A line where a timing line is due: a timing line is taken, anything
      else is extra text following the song so far. */
  function ReadTimingSlot(l: Legend, o: TabOptions, b: Builder, line: string): (r: Builder)
    requires Consistent(o, b) && o.hasTiming
    ensures Consistent(o, r) && r.song.measures == b.song.measures && r.song.gapsize == b.song.gapsize
    ensures IsTimingLine(l, line) <==> r.counted == b.counted + 1
    ensures IsTimingLine(l, line) ==> r.notes == line
    ensures !IsTimingLine(l, line) ==> r.counted == b.counted
  {
    if IsTimingLine(l, line) then b.(notes := line, counted := b.counted + 1)
    else if o.keepExtra then b.(song := PlaceExtraLine(b.song, line, |b.song.measures|, Following))
    else b
  }

  /** A line where string `slot` is due: a line with string data is
      stored and counted, anything else is extra text. */
  function ReadStringSlot(l: Legend, o: TabOptions, b: Builder, line: string, slot: nat): (r: Result<Builder>)
    requires NoTimingSymbol in l.timing && Consistent(o, b) && slot < 4
    ensures r.Ok? ==> Consistent(o, r.value)
    ensures r.Ok? && Built(l, b.song) ==> Built(l, r.value.song)
    ensures r.Ok? ==> r.value.song.gapsize == b.song.gapsize && Extends(b.song.measures, r.value.song.measures)
    ensures r.Ok? ==> r.value.counted == b.counted || r.value.counted == b.counted + 1
    ensures !o.hasExtra && r.Ok? ==> r.value.counted == b.counted + 1
    ensures o.hasExtra && r.Ok? ==> (r.value.counted == b.counted + 1 <==> ExtractStringData(l, line).Some?)
  {
    match StringData(l, o, b, line, slot)
    case Err(e) => Err(e)
    case Ok(None) => Ok(UnmatchedLine(l, o, b, line, slot))
    case Ok(Some(v)) => StoreFound(l, o, b, slot, v)
  }

  /** A line that counts stores, as the array of its string, the string
      data the pattern finds with extra text, and the left-stripped line
      without. */
  lemma ReadStringSlotStores(l: Legend, o: TabOptions, b: Builder, line: string, slot: nat)
    requires NoTimingSymbol in l.timing && Consistent(o, b) && slot < 4
    ensures var r := ReadStringSlot(l, o, b, line, slot);
      r.Ok? && r.value.counted == b.counted + 1 ==>
      StringAt(r.value.cols, slot) == if o.hasExtra then ExtractStringData(l, line).value.1 else LStrip(line)
  {
    var r := ReadStringSlot(l, o, b, line, slot);
    if r.Ok? && r.value.counted == b.counted + 1 {
      var found := StringData(l, o, b, line, slot);
      assert found.Ok? && found.value.Some?;
      assert r == StoreFound(l, o, b, slot, found.value.value);
    }
  }

  /** With extra text, a line the pattern does not match is not counted:
      with `keepExtra` it becomes start-of-line text before the next
      measure (following text after the last measure for an untimed G
      slot), and otherwise the line changes nothing. */
  lemma ReadStringSlotUnmatched(l: Legend, o: TabOptions, b: Builder, line: string, slot: nat)
    requires NoTimingSymbol in l.timing && Consistent(o, b) && slot < 4
    requires o.hasExtra && ExtractStringData(l, line).None?
    ensures var n := |b.song.measures|;
      ReadStringSlot(l, o, b, line, slot) ==
        Ok(if !o.keepExtra then b
           else if !o.hasTiming && slot == 0 then b.(song := PlaceExtraLine(b.song, line, n, Following))
           else b.(song := PlaceExtraLine(b.song, line, n + 1, StartOfLine)))
  {
    assert StringData(l, o, b, line, slot) == Ok(None);
  }

  /** A line without string data: with `keepExtra` it is extra text, placed
      after the last measure for an untimed G slot and before the next
      measure otherwise. */
  function UnmatchedLine(l: Legend, o: TabOptions, b: Builder, line: string, slot: nat): (r: Builder)
    requires Consistent(o, b)
    ensures Consistent(o, r) && r.counted == b.counted && r.song.measures == b.song.measures
    ensures Built(l, b.song) ==> Built(l, r.song)
    ensures r.song.gapsize == b.song.gapsize && Extends(b.song.measures, r.song.measures)
    ensures !o.keepExtra ==> r == b
  {
    var n := |b.song.measures|;
    if !o.keepExtra then b
    else if !o.hasTiming && slot == 0 then b.(song := PlaceExtraLine(b.song, line, n, Following))
    else b.(song := PlaceExtraLine(b.song, line, n + 1, StartOfLine))
  }

  /** A line with string data `v` (data, start text, end text, trim): the
      texts are saved, the data is stored, and the line counts. */
  function StoreFound(l: Legend, o: TabOptions, b: Builder, slot: nat, v: (string, string, string, nat)): (r: Result<Builder>)
    requires NoTimingSymbol in l.timing && Consistent(o, b) && slot < 4
    ensures r.Ok? ==> Consistent(o, r.value) && r.value.counted == b.counted + 1
    ensures r.Ok? && Built(l, b.song) ==> Built(l, r.value.song)
    ensures r.Ok? ==> r.value.song.gapsize == b.song.gapsize && Extends(b.song.measures, r.value.song.measures)
    ensures r.Ok? ==> StringAt(r.value.cols, slot) == v.0
  {
    var stored :- StoreString(l, o, b.(startText := v.1, endText := v.2), slot, v.0, v.3);
    Ok(stored.(counted := b.counted + 1))
  }

  /** The `buildSong` loop over the remaining lines. */
  function ReadLines(l: Legend, o: TabOptions, b: Builder, lines: seq<string>): (r: Result<Builder>)
    requires NoTimingSymbol in l.timing && Consistent(o, b)
    ensures r.Ok? ==> Consistent(o, r.value)
    ensures r.Ok? && Built(l, b.song) ==> Built(l, r.value.song)
    ensures r.Ok? ==> r.value.song.gapsize == b.song.gapsize && Extends(b.song.measures, r.value.song.measures)
    ensures r.Ok? ==> b.counted <= r.value.counted <= b.counted + |lines|
    ensures (forall k :: 0 <= k < |lines| ==> AllSpace(lines[k])) ==>
      r.Ok? && r.value.counted == b.counted && r.value.song.measures == b.song.measures
    decreases |lines|
  {
    if |lines| == 0 then Ok(b)
    else
      var next :- ReadLine(l, o, b, lines[0]);
      var r := ReadLines(l, o, next, lines[1..]);
      if r.Ok? then ExtendsTransitive(b.song.measures, next.song.measures, r.value.song.measures); r
      else r
  }

  /** `buildSong`: with timing the legend must be loaded first. The lines
      are read in groups, and the number of lines taken as timing or string
      lines must be a whole number of groups. Returns the song and that
      number. Every measure it adds is non-empty and at most a whole note
      long, so each one meets the drawing precondition; printing can still
      fail on the extra text (`BarlessGroupUnprintable`). */
  function BuildSong(l: Legend, o: TabOptions, lines: seq<string>, song: Song): (r: Result<(Song, nat)>)
    requires NoTimingSymbol in l.timing
    ensures o.hasTiming && !l.TimingLoaded() ==> r == Err(ConfigError("timing legend was not loaded", 6))
    ensures r.Ok? ==> r.value.1 % GroupSize(o.hasTiming) == 0 && r.value.1 <= |lines|
    ensures r.Ok? && Built(l, song) ==> Built(l, r.value.0)
    ensures r.Ok? ==> r.value.0.gapsize == song.gapsize && Extends(song.measures, r.value.0.measures)
  {
    if o.hasTiming && !l.TimingLoaded() then Err(ConfigError("timing legend was not loaded", ConfigLibrary.OptionID.TimingSymbols.Value() + 1))
    else
      var b :- ReadLines(l, o, Builder(song, "", Strings("", "", "", ""), "", "", Detached(EmptySlice(l)), 0), lines);
      if b.counted % GroupSize(o.hasTiming) != 0 then Err(TabFileError("input file line count incorrect"))
      else Ok((b.song, b.counted))
  }

  /** A file of blank lines builds no measure and passes the count
      check. */
  lemma BlankFileAddsNothing(l: Legend, o: TabOptions, lines: seq<string>, song: Song)
    requires NoTimingSymbol in l.timing && (o.hasTiming ==> l.TimingLoaded())
    requires forall k :: 0 <= k < |lines| ==> AllSpace(lines[k])
    ensures BuildSong(l, o, lines, song).Ok?
    ensures BuildSong(l, o, lines, song).value.0.measures == song.measures
    ensures BuildSong(l, o, lines, song).value.1 == 0
  {
  }
}
