/** What the column scanners of the three tab parsers (parsingUtils.py,
    tabParser.py and tabReader.py) have in common: the four string arrays of
    a group of tab lines, `parseNote`, the measure being built, and the
    place where the scanner's `lastSlice` lives. */
module Scan {
  import opened Results
  import opened Chars
  import opened Notes
  import opened Legends
  import opened Slices
  import opened Measures
  import opened Songs

  /** The four string arrays of one group of tab lines, G first. */
  datatype Strings = Strings(g: string, d: string, a: string, e: string) {
    predicate Aligned() {
      |d| == |g| && |a| == |g| && |e| == |g|
    }
  }

  /** A two-digit fret starts at `idx`. */
  predicate TwoDigits(s: string, idx: int) {
    0 <= idx && idx + 1 < |s| && IsDigit(s[idx]) && IsDigit(s[idx + 1])
  }

  /** The text of the fret that starts at `idx`: its digit, and the next
      character too when that is a digit. */
  function FretText(s: string, idx: nat): (t: string)
    requires idx < |s| && IsDigit(s[idx])
    ensures AllDigits(t) && 1 <= |t| <= 2
    ensures |t| == 2 <==> TwoDigits(s, idx)
    ensures t == s[idx..idx + |t|]
  {
    if TwoDigits(s, idx) then s[idx..idx + 2] else s[idx..idx + 1]
  }

  /** The fret written at `idx`. */
  function FretAt(s: string, idx: nat): nat
    requires idx < |s| && IsDigit(s[idx])
  {
    DecimalValue(FretText(s, idx))
  }

  /** The slice fields the note parser leaves alone: only the notes and the
      summaries derived from them may differ. */
  predicate SameTiming(a: Slice, b: Slice) {
    b == a.(notes := b.notes, maxStaffPos := b.maxStaffPos, minStaffPos := b.minStaffPos, hasSharp := b.hasSharp)
  }

  /** `parseNote`: a digit at `idx` adds a note on string `name` whose fret
      is that digit, or the two digits when the next character is a digit
      as well (the result flag then tells the caller to skip a column).
      Anything else leaves the slice as it is. */
  function ParseNote(s: string, idx: nat, sl: Slice, name: char): (r: Result<(Slice, bool)>)
    requires idx < |s|
    ensures !IsDigit(s[idx]) ==> r == Ok((sl, false))
    ensures IsDigit(s[idx]) ==> (r.Ok? <==> NewNote(name, FretAt(s, idx)).Ok?)
    ensures r.Err? ==> r.error.TabFileError?
    ensures r.Ok? ==> (r.value.1 <==> TwoDigits(s, idx))
    ensures r.Ok? && IsDigit(s[idx]) ==> r.value.0.notes == sl.notes + [NewNote(name, FretAt(s, idx)).value]
    ensures r.Ok? ==> SameTiming(sl, r.value.0)
    ensures r.Ok? && Summarised(sl) ==> Summarised(r.value.0)
    ensures r.Ok? ==> |r.value.0.notes| == |sl.notes| + (if IsDigit(s[idx]) then 1 else 0)
    ensures r.Ok? ==> r.value.0.notes[..|sl.notes|] == sl.notes
    ensures IsStringName(name) ==> (r.Err? <==> BadFretAt(s, idx))
  {
    if !IsDigit(s[idx]) then Ok((sl, false))
    else
      var added :- AddNote(sl, name, FretAt(s, idx));
      Ok((added, TwoDigits(s, idx)))
  }

  /** A fret written in a tab is read back: after the decimal text of a
      valid fret, followed by anything but a digit, `parseNote` adds a note
      with that fret, and asks for a skip exactly when the fret has two
      digits. */
  lemma ParseWrittenFret(s: string, idx: nat, sl: Slice, name: char, fret: nat)
    requires IsStringName(name) && fret <= MaxFret
    requires idx + |DecimalText(fret)| <= |s| && s[idx..idx + |DecimalText(fret)|] == DecimalText(fret)
    requires idx + |DecimalText(fret)| < |s| ==> !IsDigit(s[idx + |DecimalText(fret)|])
    ensures ParseNote(s, idx, sl, name).Ok?
    ensures ParseNote(s, idx, sl, name).value.1 <==> fret >= 10
    ensures ParseNote(s, idx, sl, name).value.0.notes == sl.notes + [NewNote(name, fret).value]
  {
    var t := DecimalText(fret);
    assert s[idx] == t[0];
    DecimalRoundTrip(fret);
    if fret >= 10 {
      assert s[idx + 1] == t[1];
      assert FretText(s, idx) == t;
    } else {
      assert FretText(s, idx) == t;
    }
  }

  /** The number of arrays holding a digit at column `i`. */
  function DigitCount(cols: Strings, i: nat): nat
    requires cols.Aligned() && i < |cols.g|
  {
    (if IsDigit(cols.g[i]) then 1 else 0) + (if IsDigit(cols.d[i]) then 1 else 0) +
    (if IsDigit(cols.a[i]) then 1 else 0) + (if IsDigit(cols.e[i]) then 1 else 0)
  }

  /** A fret no note can have starts at `i`. */
  predicate BadFretAt(s: string, i: nat)
    requires i < |s|
  {
    IsDigit(s[i]) && FretAt(s, i) > MaxFret
  }

  predicate BadFret(cols: Strings, i: nat)
    requires cols.Aligned() && i < |cols.g|
  {
    BadFretAt(cols.g, i) || BadFretAt(cols.d, i) || BadFretAt(cols.a, i) || BadFretAt(cols.e, i)
  }

  /** Some array holds a two-digit fret at column `i`. */
  predicate AnyTwoDigits(cols: Strings, i: nat) {
    TwoDigits(cols.g, i) || TwoDigits(cols.d, i) || TwoDigits(cols.a, i) || TwoDigits(cols.e, i)
  }

  /** The four `parseNote` calls of a column, G, D, A, E in that order. The
      column fails exactly when it holds a fret above the highest fret;
      otherwise one note is added per array holding a digit, and the skip
      flag is shared by all four arrays. */
  function ParseColumn(cols: Strings, i: nat, sl: Slice): (r: Result<(Slice, bool)>)
    requires cols.Aligned() && i < |cols.g|
    ensures r.Err? <==> BadFret(cols, i)
    ensures r.Err? ==> r.error.TabFileError?
    ensures r.Ok? ==> (r.value.1 <==> AnyTwoDigits(cols, i))
    ensures r.Ok? ==> |r.value.0.notes| == |sl.notes| + DigitCount(cols, i)
    ensures r.Ok? ==> r.value.0.notes[..|sl.notes|] == sl.notes
    ensures r.Ok? ==> SameTiming(sl, r.value.0)
    ensures r.Ok? && Summarised(sl) ==> Summarised(r.value.0)
  {
    var gd :- ParsePair(cols.g, cols.d, i, sl, 'G', 'D');
    var ae :- ParsePair(cols.a, cols.e, i, gd.0, 'A', 'E');
    PrefixChain(sl.notes, gd.0.notes, ae.0.notes);
    Ok((ae.0, gd.1 || ae.1))
  }

  /** 1 when `s` holds a digit at `i`, else 0. */
  function DigitAt(s: string, i: nat): nat
    requires i < |s|
  {
    if IsDigit(s[i]) then 1 else 0
  }

  /** Two `parseNote` calls in a row, on strings `m` and then `n`. */
  function ParsePair(s: string, t: string, i: nat, sl: Slice, m: char, n: char): (r: Result<(Slice, bool)>)
    requires i < |s| && i < |t| && IsStringName(m) && IsStringName(n)
    ensures r.Err? <==> BadFretAt(s, i) || BadFretAt(t, i)
    ensures r.Err? ==> r.error.TabFileError?
    ensures r.Ok? ==> (r.value.1 <==> TwoDigits(s, i) || TwoDigits(t, i))
    ensures r.Ok? ==> |r.value.0.notes| == |sl.notes| + DigitAt(s, i) + DigitAt(t, i)
    ensures r.Ok? ==> r.value.0.notes[..|sl.notes|] == sl.notes
    ensures r.Ok? ==> SameTiming(sl, r.value.0)
    ensures r.Ok? && Summarised(sl) ==> Summarised(r.value.0)
  {
    var x :- ParseNote(s, i, sl, m);
    var y :- ParseNote(t, i, x.0, n);
    PrefixChain(sl.notes, x.0.notes, y.0.notes);
    Ok((y.0, x.1 || y.1))
  }

  /** A prefix of a prefix is a prefix. */
  lemma PrefixChain<T>(a: seq<T>, b: seq<T>, c: seq<T>)
    requires |a| <= |b| <= |c| && b[..|a|] == a && c[..|b|] == b
    ensures c[..|a|] == a
  {
    assert c[..|a|] == c[..|b|][..|a|];
  }

  /** The number of dot symbols right after position `j` of the timing
      array: the dots the slice of the preceding column takes. An unset dot
      symbol matches nothing. */
  function DotRun(notes: string, j: nat, dot: Option<char>): (n: nat)
    ensures n > 0 ==> j + n <= |notes|
    ensures forall k :: j <= k < j + n ==> Some(notes[k]) == dot
    ensures j + n < |notes| ==> Some(notes[j + n]) != dot
    decreases |notes| - j
  {
    if j < |notes| && Some(notes[j]) == dot then 1 + DotRun(notes, j + 1, dot) else 0
  }

  /** Where the scanner's `lastSlice` lives. A tie updates that slice in
      place, even after it was stored, so the model records its location:
      held only by the scanner, the last slice of the measure being built,
      or the last slice of the song's last measure. */
  datatype LastSlice = Detached(slice: Slice) | OpenTail | SongTail

  datatype ScanState = ScanState(song: Song, measure: Measure, last: LastSlice) {
    /** The location of `lastSlice` exists, and a slice added to the open
        measure is always the latest one. */
    predicate Located() {
      && (last.OpenTail? <==> |measure.slices| > 0)
      && (last.SongTail? ==> |song.measures| > 0 && |song.measures[|song.measures| - 1].slices| > 0)
    }
  }

  /** Between two scans no measure is open, so `lastSlice` is either held
      by the scanner or the last slice of the song. */
  predicate Anchored(song: Song, last: LastSlice) {
    !last.OpenTail? && ScanState(song, EmptyMeasure(), last).Located()
  }

  function LastMeasure(song: Song): Measure
    requires |song.measures| > 0
  {
    song.measures[|song.measures| - 1]
  }

  /** The slice `lastSlice` refers to. */
  function LastOf(st: ScanState): Slice
    requires st.Located()
  {
    match st.last
    case Detached(s) => s
    case OpenTail => st.measure.slices[|st.measure.slices| - 1]
    case SongTail => var m := LastMeasure(st.song); m.slices[|m.slices| - 1]
  }

  /** `m` with its last slice replaced, its recorded length kept. */
  function ReplaceLast(m: Measure, s: Slice): (r: Measure)
    requires |m.slices| > 0
    ensures |r.slices| == |m.slices| && r.slices[|r.slices| - 1] == s
    ensures forall j :: 0 <= j < |m.slices| - 1 ==> r.slices[j] == m.slices[j]
    ensures r.length == m.length
  {
    Measure(m.slices[..|m.slices| - 1] + [s], m.length)
  }

  /** `lastSlice` changed in place: wherever it lives, that copy is the one
      replaced, and nothing else changes. */
  function WithLast(st: ScanState, s: Slice): (r: ScanState)
    requires st.Located()
    ensures r.Located() && LastOf(r) == s && r.last.OpenTail? == st.last.OpenTail? && r.last.SongTail? == st.last.SongTail?
    ensures r.song.gapsize == st.song.gapsize && r.song.extraText == st.song.extraText
    ensures |r.song.measures| == |st.song.measures| && Extends(st.song.measures, r.song.measures)
    ensures st.last.SongTail? ==> r.measure == st.measure
    ensures !st.last.SongTail? ==> r.song == st.song
    ensures !st.last.OpenTail? ==> r.measure == st.measure
  {
    match st.last
    case Detached(_) => st.(last := Detached(s))
    case OpenTail => st.(measure := ReplaceLast(st.measure, s))
    case SongTail =>
      var n := |st.song.measures|;
      st.(song := st.song.(measures := st.song.measures[..n - 1] + [ReplaceLast(LastMeasure(st.song), s)]))
  }

  /** `lastSlice.tie(slice)`: fails unless both hold the same notes; on
      success the stored copy of `lastSlice` begins the tie and the new
      slice ends it. */
  function TieToLast(st: ScanState, sl: Slice): (r: Result<(ScanState, Slice)>)
    requires st.Located()
    ensures r.Ok? <==> SameNotes(LastOf(st).notes, sl.notes)
    ensures r.Err? ==> r.error.TabError?
    ensures r.Ok? ==> r.value.0 == WithLast(st, LastOf(st).(tieBegins := true))
    ensures r.Ok? ==> r.value.1 == sl.(tieEnds := true)
  {
    var p :- Tie(LastOf(st), sl);
    Ok((WithLast(st, p.0), p.1))
  }

  /** `measure.addSlice(slice)` followed by `lastSlice = slice`. */
  function Append(st: ScanState, sl: Slice): (r: ScanState)
    ensures r.Located() && LastOf(r) == sl
    ensures r.measure.slices == st.measure.slices + [sl]
    ensures r.song == st.song
  {
    st.(measure := AddSlice(st.measure, sl), last := OpenTail)
  }

  /** A full bar: a non-empty open measure goes to the song (failing as
      `addMeasure` does) and a new one is begun; an empty one is not added.
      `lastSlice` keeps referring to the same slice. */
  function CloseMeasure(st: ScanState): (r: Result<ScanState>)
    requires st.Located()
    ensures Measures.IsEmpty(st.measure) ==> r == Ok(st)
    ensures !Measures.IsEmpty(st.measure) ==> (r.Ok? <==> 0.0 <= st.measure.length <= 1.0)
    ensures r.Err? ==> r.error == MeasureError(st.measure.length)
    ensures r.Ok? && !Measures.IsEmpty(st.measure) ==>
      r.value.song == st.song.(measures := st.song.measures + [st.measure]) && Measures.IsEmpty(r.value.measure)
    ensures r.Ok? ==> r.value.Located() && LastOf(r.value) == LastOf(st)
    ensures r.Ok? && !Measures.IsEmpty(st.measure) ==> !r.value.last.OpenTail?
  {
    if Measures.IsEmpty(st.measure) then Ok(st)
    else
      var song :- AddMeasure(st.song, st.measure);
      var last := if st.last.OpenTail? then SongTail else st.last;
      Ok(ScanState(song, EmptyMeasure(), last))
  }

  /** Four bars in one column. */
  predicate FullBar(cols: Strings, i: nat)
    requires cols.Aligned() && i < |cols.g|
  {
    cols.g[i] == '|' && cols.d[i] == '|' && cols.a[i] == '|' && cols.e[i] == '|'
  }

  /** Which arrays the bar test of an empty column looks at. The two newer
      parsers test G, D and E: their A test compares the whole array with
      "|", which never holds. The oldest parser tests G only. */
  datatype BarTest = AnyButA | GOnly

  predicate Triggered(bt: BarTest, cols: Strings, i: nat)
    requires cols.Aligned() && i < |cols.g|
  {
    match bt
    case AnyButA => cols.g[i] == '|' || cols.d[i] == '|' || cols.e[i] == '|'
    case GOnly => cols.g[i] == '|'
  }

  /** The bar test of a column that adds no slice: once triggered, the
      column must hold four bars, and it then closes the measure. */
  function AtBar(bt: BarTest, cols: Strings, i: nat, st: ScanState): (r: Result<ScanState>)
    requires cols.Aligned() && i < |cols.g| && st.Located()
    ensures !Triggered(bt, cols, i) ==> r == Ok(st)
    ensures Triggered(bt, cols, i) && !FullBar(cols, i) ==> r.Err? && r.error.TabFileError?
    ensures Triggered(bt, cols, i) && FullBar(cols, i) ==> r == CloseMeasure(st)
  {
    if !Triggered(bt, cols, i) then Ok(st)
    else if !FullBar(cols, i) then Err(TabFileError("improper measure line detected"))
    else CloseMeasure(st)
  }

  /** A measure as the scanner stores it: not empty, no longer than a whole
      note, its length the sum of its slices' lengths, every slice
      drawable. */
  predicate GoodMeasure(l: Legend, m: Measure) {
    && |m.slices| > 0
    && m.length == TotalLength(m.slices)
    && 0.0 <= m.length <= 1.0
    && AllDrawn(l, m.slices)
  }

  predicate Built(l: Legend, song: Song) {
    forall j :: 0 <= j < |song.measures| ==> GoodMeasure(l, song.measures[j])
  }

  /** What every scan keeps: the stored measures are good, the open
      measure's length is the sum of its slices' lengths, its slices are
      drawable, and `lastSlice` has a location. */
  predicate Sound(l: Legend, st: ScanState) {
    && st.Located()
    && Built(l, st.song)
    && st.measure.length == TotalLength(st.measure.slices)
    && AllDrawn(l, st.measure.slices)
  }

  /** Every measure of a song the scanners build meets the precondition
      of drawing. Printing can still fail on the extra-text bound. */
  lemma BuiltIsDrawable(l: Legend, song: Song)
    requires Built(l, song)
    ensures Drawable(l, song)
  {
  }

  /** Re-flagging the last slice of a measure keeps it good. */
  lemma ReplaceLastKeeps(l: Legend, m: Measure, s: Slice)
    requires |m.slices| > 0 && m.length == TotalLength(m.slices) && AllDrawn(l, m.slices)
    requires s.length == m.slices[|m.slices| - 1].length && Drawn(l, s)
    ensures ReplaceLast(m, s).length == TotalLength(ReplaceLast(m, s).slices)
    ensures AllDrawn(l, ReplaceLast(m, s).slices)
  {
    var r := ReplaceLast(m, s);
    assert r.slices[..|r.slices| - 1] == m.slices[..|m.slices| - 1];
  }

  /** A tie only sets flags, so it keeps the scan sound. */
  lemma TieKeepsSound(l: Legend, st: ScanState, sl: Slice)
    requires Sound(l, st) && TieToLast(st, sl).Ok?
    ensures Sound(l, TieToLast(st, sl).value.0)
  {
    var s := LastOf(st).(tieBegins := true);
    match st.last
    case Detached(_) =>
    case OpenTail =>
      ReplaceLastKeeps(l, st.measure, s);
    case SongTail =>
      SongTailKeepsSound(l, st, s);
  }

  lemma SongTailKeepsSound(l: Legend, st: ScanState, s: Slice)
    requires Sound(l, st) && st.last.SongTail?
    requires s.length == LastOf(st).length && Drawn(l, s)
    ensures Sound(l, WithLast(st, s))
  {
    var n := |st.song.measures|;
    var m := LastMeasure(st.song);
    ReplaceLastKeeps(l, m, s);
    var r := WithLast(st, s);
    assert r.song.measures == st.song.measures[..n - 1] + [ReplaceLast(m, s)];
    forall j | 0 <= j < n
      ensures GoodMeasure(l, r.song.measures[j])
    {
      if j < n - 1 {
        assert r.song.measures[j] == st.song.measures[j];
      }
    }
  }

  /** Adding a drawable slice keeps the scan sound. */
  lemma AppendKeepsSound(l: Legend, st: ScanState, sl: Slice)
    requires Sound(l, st) && Drawn(l, sl)
    ensures Sound(l, Append(st, sl))
  {
  }

  /** Closing a measure keeps the scan sound. */
  lemma CloseKeepsSound(l: Legend, st: ScanState)
    requires Sound(l, st) && CloseMeasure(st).Ok?
    ensures Sound(l, CloseMeasure(st).value)
  {
  }

  /** `lastSlice` once the scan ends: the open measure is dropped, so a
      slice that lived there is now held by the scanner alone. */
  function Release(st: ScanState): (r: LastSlice)
    requires st.Located()
    ensures Anchored(st.song, r)
    ensures !st.last.OpenTail? ==> r == st.last
    ensures r.Detached? ==> r.slice == LastOf(st)
  {
    if st.last.OpenTail? then Detached(LastOf(st)) else st.last
  }

  /** `after` continues `before`: measures are only added, every earlier
      measure keeps its length and its number of slices, and all but the
      last are unchanged (a tie may re-flag the last one's last slice). */
  predicate Extends(before: seq<Measure>, after: seq<Measure>) {
    && |before| <= |after|
    && (forall j :: 0 <= j < |before| ==>
          after[j].length == before[j].length && |after[j].slices| == |before[j].slices|)
    && (forall j :: 0 <= j < |before| - 1 ==> after[j] == before[j])
  }

  lemma ExtendsTransitive(a: seq<Measure>, b: seq<Measure>, c: seq<Measure>)
    requires Extends(a, b) && Extends(b, c)
    ensures Extends(a, c)
  {
  }

  /** What the scanners expect of their arrays: the legend holds the
      no-timing entry, the string arrays have one length, and a non-empty
      timing array has that length too. */
  predicate Ready(l: Legend, notes: string, cols: Strings) {
    NoTimingSymbol in l.timing && cols.Aligned() && (|notes| == 0 || |notes| == |cols.g|)
  }

  /** The tie, append and close steps keep `Sound` whenever they succeed. */
  lemma TieKeepsSoundIf(l: Legend, st: ScanState, sl: Slice)
    requires st.Located()
    ensures TieToLast(st, sl).Ok? && Sound(l, st) ==> Sound(l, TieToLast(st, sl).value.0)
  {
    if TieToLast(st, sl).Ok? && Sound(l, st) {
      TieKeepsSound(l, st, sl);
    }
  }

  lemma AppendKeepsSoundIf(l: Legend, st: ScanState, sl: Slice)
    ensures Sound(l, st) && Drawn(l, sl) ==> Sound(l, Append(st, sl))
  {
    if Sound(l, st) && Drawn(l, sl) {
      AppendKeepsSound(l, st, sl);
    }
  }

  lemma CloseKeepsSoundIf(l: Legend, st: ScanState)
    requires st.Located()
    ensures CloseMeasure(st).Ok? && Sound(l, st) ==> Sound(l, CloseMeasure(st).value)
  {
    if CloseMeasure(st).Ok? && Sound(l, st) {
      CloseKeepsSound(l, st);
    }
  }

  /** Lines per group: a timing line and four string lines, or the four
      string lines alone. */
  function GroupSize(hasTiming: bool): nat {
    if hasTiming then 5 else 4
  }

  /** The array of string `slot`, G first. */
  function StringAt(cols: Strings, slot: nat): string
    requires slot < 4
  {
    if slot == 0 then cols.g else if slot == 1 then cols.d else if slot == 2 then cols.a else cols.e
  }

  /** Appends string line data to the array of string `slot` (G first), as
      the `extend` calls of the older parsers do. */
  function AddString(cols: Strings, slot: nat, arr: string): (r: Strings)
    requires slot < 4
    ensures StringAt(r, slot) == StringAt(cols, slot) + arr
    ensures forall k :: 0 <= k < 4 && k != slot ==> StringAt(r, k) == StringAt(cols, k)
  {
    if slot == 0 then cols.(g := cols.g + arr)
    else if slot == 1 then cols.(d := cols.d + arr)
    else if slot == 2 then cols.(a := cols.a + arr)
    else cols.(e := cols.e + arr)
  }

  /** Replaces the array of string `slot` (G first) by the line's data, as
      the assignments of parsingUtils.py do. */
  function SetString(cols: Strings, slot: nat, arr: string): (r: Strings)
    requires slot < 4
    ensures StringAt(r, slot) == arr
    ensures forall k :: 0 <= k < 4 && k != slot ==> StringAt(r, k) == StringAt(cols, k)
  {
    if slot == 0 then cols.(g := arr)
    else if slot == 1 then cols.(d := arr)
    else if slot == 2 then cols.(a := arr)
    else cols.(e := arr)
  }

  /** No column of the G array from `i` on holds a bar. */
  predicate NoBarFrom(cols: Strings, i: nat) {
    forall k :: i <= k < |cols.g| ==> cols.g[k] != '|'
  }
}
