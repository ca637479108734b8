/** The `Song` class of typeLibrary.py (its instance part): the measures,
    the gap size, the table of extra text placed around the measures, and
    the rendering of the whole song as staff text. */
module Songs {
  import opened Results
  import opened Legends
  import opened StaffStrings
  import opened Measures

  /** `ExtraTextPlacementOption`. */
  datatype Placement = Following | StartOfLine | EndOfLine

  /** One entry of `extraText`: the text on the lines after a measure, the
      text before it on its line, and the text after it on its line. */
  datatype ExtraEntry = ExtraEntry(following: string, startOfLine: string, endOfLine: string)

  const EmptyEntry: ExtraEntry := ExtraEntry("", "", "")

  function Cell(e: ExtraEntry, place: Placement): string {
    match place
    case Following => e.following
    case StartOfLine => e.startOfLine
    case EndOfLine => e.endOfLine
  }

  function WithCell(e: ExtraEntry, place: Placement, text: string): (r: ExtraEntry)
    ensures Cell(r, place) == text
    ensures forall p :: p != place ==> Cell(r, p) == Cell(e, p)
  {
    match place
    case Following => e.(following := text)
    case StartOfLine => e.(startOfLine := text)
    case EndOfLine => e.(endOfLine := text)
  }

  /** `extraText[i]` belongs to the position after the i-th measure: entry 0
      precedes the first measure, entry i+1 follows measure i. */
  datatype Song = Song(measures: seq<Measure>, gapsize: nat, extraText: seq<ExtraEntry>)

  /** `Song(gapsize)`. */
  function NewSong(gapsize: nat): (s: Song)
    ensures |s.measures| == 0 && |s.extraText| == 0 && s.gapsize == gapsize
  {
    Song([], gapsize, [])
  }

  /** `addMeasure`: a measure longer than a whole note or of negative length
      is rejected and the song is left unchanged. A measure of untimed
      slices has length 0 and is accepted. */
  function AddMeasure(song: Song, m: Measure): (r: Result<Song>)
    ensures r.Ok? <==> 0.0 <= m.length <= 1.0
    ensures r.Err? ==> r.error == MeasureError(m.length)
    ensures r.Ok? ==> r.value == song.(measures := song.measures + [m])
  {
    if m.length > 1.0 || m.length < 0.0 then Err(MeasureError(m.length))
    else Ok(song.(measures := song.measures + [m]))
  }

  /** `extraText` padded with empty entries until entry `n` exists. */
  function Padded(extra: seq<ExtraEntry>, n: nat): (r: seq<ExtraEntry>)
    ensures |r| == if n < |extra| then |extra| else n + 1
    ensures forall j :: 0 <= j < |r| ==> r[j] == if j < |extra| then extra[j] else EmptyEntry
    decreases n + 1 - |extra|
  {
    if n >= |extra| then Padded(extra + [EmptyEntry], n) else extra
  }

  /** `getMeasureExtraTextAt`: the text at `place` of entry `measure`, or
      nothing when the entry does not exist. */
  function ExtraTextAt(song: Song, measure: int, place: Placement): (r: Option<string>)
    ensures r.Some? <==> 0 <= measure < |song.extraText|
    ensures r.Some? ==> r.value == Cell(song.extraText[measure], place)
  {
    if 0 <= measure < |song.extraText| then Some(Cell(song.extraText[measure], place)) else None
  }

  /** `measureHasFollowingExtraText`, `measureHasStartingExtraText` and
      `measureHasEndingExtraText`: the entry exists and its text at `place`
      is not empty. */
  predicate HasExtraText(song: Song, measure: int, place: Placement) {
    var t := ExtraTextAt(song, measure, place);
    t.Some? && t.value != ""
  }

  /** `placeExtraLine`: pads the table up to entry `measureCount`, then
      appends `line` to the cell at `place`; following-line text is
      separated from text already there by a newline. Nothing else
      changes. */
  function PlaceExtraLine(song: Song, line: string, measureCount: nat, place: Placement): (r: Song)
    ensures r.measures == song.measures && r.gapsize == song.gapsize
    ensures |r.extraText| == if measureCount < |song.extraText| then |song.extraText| else measureCount + 1
    ensures forall j :: 0 <= j < |r.extraText| && j != measureCount ==>
      r.extraText[j] == if j < |song.extraText| then song.extraText[j] else EmptyEntry
    ensures var before := if measureCount < |song.extraText| then song.extraText[measureCount] else EmptyEntry;
      && (forall p :: p != place ==> Cell(r.extraText[measureCount], p) == Cell(before, p))
      && Cell(r.extraText[measureCount], place) ==
           if place == Following && Cell(before, place) != "" then Cell(before, place) + "\n" + line
           else Cell(before, place) + line
  {
    var extra := Padded(song.extraText, measureCount);
    var e := extra[measureCount];
    var current := Cell(e, place);
    var text := if place == Following && current != "" then current + "\n" + line else current + line;
    song.(extraText := extra[measureCount := WithCell(e, place, text)])
  }

  /** After placing a non-empty line, the queries report text at that
      place, and the stored text ends with the line. */
  lemma PlacedTextIsFound(song: Song, line: string, measureCount: nat, place: Placement)
    requires line != ""
    ensures var r := PlaceExtraLine(song, line, measureCount, place);
      && HasExtraText(r, measureCount, place)
      && var t := ExtraTextAt(r, measureCount, place).value;
         |line| <= |t| && t[|t| - |line|..] == line
  {
  }

  /** The bar column `StaffString("|")`. */
  function Bar(): Staff {
    CharColumn('|')
  }

  /** Every slice of every measure can be drawn. */
  predicate Drawable(l: Legend, song: Song) {
    forall i :: 0 <= i < |song.measures| ==> AllDrawn(l, song.measures[i].slices)
  }

  /** The staff pictures of the measures, one per measure. */
  function MeasurePictures(l: Legend, song: Song): (pics: seq<Staff>)
    requires Drawable(l, song)
    ensures Pictured(song, pics)
    ensures forall i :: 0 <= i < |pics| ==> pics[i] == MeasureStaff(l, song.measures[i], song.gapsize)
  {
    seq(|song.measures|, i requires 0 <= i < |song.measures| => MeasureStaff(l, song.measures[i], song.gapsize))
  }

  /** One well-formed picture per measure. */
  predicate Pictured(song: Song, pics: seq<Staff>) {
    |pics| == |song.measures| && forall i :: 0 <= i < |pics| ==> pics[i].WellFormed()
  }

  /** The output of `__str__` so far and the staff line being built. */
  datatype Progress = Progress(text: string, line: Staff)

  /** The text of a placement with the newline `__str__` writes after it,
      or nothing when there is none. */
  function TextLine(song: Song, measure: int, place: Placement): string {
    if HasExtraText(song, measure, place) then ExtraTextAt(song, measure, place).value + "\n" else ""
  }

  /** The line after measure `i` is added to it: the double bar before the
      first measure, the measure and a bar, and a second bar after the
      last measure. */
  function Extend(song: Song, pics: seq<Staff>, i: nat, line: Staff): (r: Staff)
    requires i < |song.measures| && Pictured(song, pics) && line.WellFormed()
    ensures r.WellFormed()
    ensures r.width == line.width + pics[i].width + 1 + (if i == 0 then 2 else 0)
                       + (if i == |song.measures| - 1 then 1 else 0)
  {
    var s0 := if i == 0 then Union(Union(line, Bar()), Bar()) else line;
    var s1 := Union(Union(s0, pics[i]), Bar());
    if i == |song.measures| - 1 then Union(s1, Bar()) else s1
  }

  /** Text after measure `i`, on its line or below it, ends the line. */
  predicate Flushes(song: Song, i: nat) {
    HasExtraText(song, i + 1, EndOfLine) || HasExtraText(song, i + 1, Following)
  }

  /** One iteration of the measure loop of `__str__`: starting text goes
      above the line and the measure is added; text after the measure
      flushes the line, with that text, and restarts it with a bar. The
      output only ever grows. */
  function RenderStep(song: Song, pics: seq<Staff>, i: nat, p: Progress): (r: Progress)
    requires i < |song.measures| && Pictured(song, pics) && p.line.WellFormed()
    ensures r.line.WellFormed()
    ensures |p.text| <= |r.text| && r.text[..|p.text|] == p.text
    ensures !Flushes(song, i) ==> r.line == Extend(song, pics, i, p.line)
    ensures !Flushes(song, i) ==> r.text == p.text + TextLine(song, i + 1, StartOfLine)
    ensures Flushes(song, i) ==> r.line == Bar()
  {
    var text := p.text + TextLine(song, i + 1, StartOfLine);
    var line := Extend(song, pics, i, p.line);
    if Flushes(song, i) then
      Progress(text + ToString(line) + "\n" + TextLine(song, i + 1, EndOfLine) + TextLine(song, i + 1, Following), Bar())
    else Progress(text, line)
  }

  /** The state of `__str__` after the first `k` measures. */
  function RenderUpTo(song: Song, pics: seq<Staff>, k: nat): (r: Progress)
    requires k <= |song.measures| && Pictured(song, pics)
    ensures r.line.WellFormed()
  {
    if k == 0 then Progress(TextLine(song, 0, Following), EmptyStaff())
    else RenderStep(song, pics, k - 1, RenderUpTo(song, pics, k - 1))
  }

  /** The loop of `__str__` and its last step, over given measure
      pictures. */
  function RenderPictures(song: Song, pics: seq<Staff>): (r: Result<string>)
    requires Pictured(song, pics)
    ensures r.Err? <==> |song.extraText| > |song.measures| + 1
    ensures r.Err? ==> r.error.TabFileError?
  {
    if |song.extraText| > |song.measures| + 1 then Err(TabFileError("extra text loading failure"))
    else
      var p := RenderUpTo(song, pics, |song.measures|);
      Ok(p.text + if p.line.width > 1 then ToString(p.line) else "")
  }

  /** `__str__`: fails when the extra-text table has more entries than
      there are positions around the measures; otherwise the collected
      text followed by the unflushed line, if it holds more than a bar. A
      song without measures prints only the text before the first
      measure. */
  function Render(l: Legend, song: Song): (r: Result<string>)
    requires Drawable(l, song)
    ensures r.Err? <==> |song.extraText| > |song.measures| + 1
    ensures r.Err? ==> r.error.TabFileError?
    ensures |song.measures| == 0 && r.Ok? ==> r.value == TextLine(song, 0, Following)
  {
    RenderPictures(song, MeasurePictures(l, song))
  }

  /** A song with no measures and no extra text prints as nothing. */
  lemma EmptySongIsEmpty(l: Legend, gapsize: nat)
    ensures Render(l, NewSong(gapsize)) == Ok("")
  {
  }

  /** The text before the first measure opens the output. */
  lemma {:induction false} LeadingTextFirst(song: Song, pics: seq<Staff>, k: nat)
    requires k <= |song.measures| && Pictured(song, pics)
    ensures var t := RenderUpTo(song, pics, k).text;
      var lead := TextLine(song, 0, Following);
      |lead| <= |t| && t[..|lead|] == lead
  {
    if k > 0 {
      LeadingTextFirst(song, pics, k - 1);
    }
  }

  /** All parts are well formed. */
  predicate AllWellFormed(parts: seq<Staff>) {
    forall j :: 0 <= j < |parts| ==> parts[j].WellFormed()
  }

  /** The union, left to right, of `parts`. */
  function UnionAll(parts: seq<Staff>): (r: Staff)
    requires AllWellFormed(parts)
    ensures r.WellFormed()
  {
    if |parts| == 0 then EmptyStaff()
    else
      assert AllWellFormed(parts[..|parts| - 1]);
      Union(UnionAll(parts[..|parts| - 1]), parts[|parts| - 1])
  }

  /** Appending one part to the list unions it onto the result. */
  lemma UnionAllSnoc(parts: seq<Staff>, x: Staff)
    requires AllWellFormed(parts) && x.WellFormed()
    ensures AllWellFormed(parts + [x])
    ensures UnionAll(parts + [x]) == Union(UnionAll(parts), x)
  {
    assert (parts + [x])[..|parts|] == parts;
  }

  /** Each measure followed by its bar, for the first `k` measures. */
  function MeasureParts(pics: seq<Staff>, k: nat): (r: seq<Staff>)
    requires k <= |pics| && AllWellFormed(pics)
    ensures |r| == 2 * k && AllWellFormed(r)
  {
    if k == 0 then [] else MeasureParts(pics, k - 1) + [pics[k - 1], Bar()]
  }

  /** The staff line of a song drawn without extra text: a double bar, each
      measure followed by a bar, then a closing bar. */
  function LineParts(pics: seq<Staff>): (r: seq<Staff>)
    requires AllWellFormed(pics)
    ensures AllWellFormed(r)
  {
    [Bar(), Bar()] + MeasureParts(pics, |pics|) + [Bar()]
  }

  /** No entry of the extra-text table holds any text. */
  predicate NoExtraText(song: Song) {
    forall j :: 0 <= j < |song.extraText| ==> song.extraText[j] == EmptyEntry
  }

  /** The line once the first `k` measures are in, before the closing
      bar. */
  function OpenLine(pics: seq<Staff>, k: nat): (r: Staff)
    requires k <= |pics| && AllWellFormed(pics)
    ensures r.WellFormed()
  {
    UnionAll([Bar(), Bar()] + MeasureParts(pics, k))
  }

  /** The double bar is the union of two bars onto the empty line. */
  lemma DoubleBar()
    ensures AllWellFormed([Bar(), Bar()])
    ensures UnionAll([Bar(), Bar()]) == Union(Union(EmptyStaff(), Bar()), Bar())
  {
    var b := Bar();
    assert [b] == [] + [b];
    UnionAllSnoc([], b);
    assert [b, b] == [b] + [b];
    UnionAllSnoc([b], b);
  }

  /** Adding a measure to the open line unions the measure and a bar. */
  lemma OpenLineStep(pics: seq<Staff>, k: nat)
    requires 0 < k <= |pics| && AllWellFormed(pics)
    ensures OpenLine(pics, k) == Union(Union(OpenLine(pics, k - 1), pics[k - 1]), Bar())
  {
    var b := Bar();
    var prev := [b, b] + MeasureParts(pics, k - 1);
    assert AllWellFormed(prev);
    assert [b, b] + MeasureParts(pics, k) == (prev + [pics[k - 1]]) + [b];
    UnionAllSnoc(prev, pics[k - 1]);
    UnionAllSnoc(prev + [pics[k - 1]], b);
  }

  /** Without extra text the output stays empty until the last line. */
  lemma {:induction false} UnflushedText(song: Song, pics: seq<Staff>, k: nat)
    requires k <= |song.measures| && Pictured(song, pics) && NoExtraText(song)
    ensures RenderUpTo(song, pics, k).text == ""
    ensures 0 < k ==> !Flushes(song, k - 1)
  {
    if k == 0 {
      NoText(song, 0, Following);
    } else {
      UnflushedText(song, pics, k - 1);
      NoFlush(song, k - 1);
      NoText(song, k, StartOfLine);
    }
  }

  /** Without extra text every text line is empty. */
  lemma NoText(song: Song, measure: int, place: Placement)
    requires NoExtraText(song)
    ensures TextLine(song, measure, place) == ""
  {
  }

  /** Without extra text the loop never flushes: after k > 0 measures the
      line is the double bar followed by each measure and its bar, and the
      closing bar once every measure is in. */
  lemma {:induction false} UnflushedLine(song: Song, pics: seq<Staff>, k: nat)
    requires 0 < k <= |song.measures| && Pictured(song, pics) && NoExtraText(song)
    ensures RenderUpTo(song, pics, k).line ==
      if k == |song.measures| then Union(OpenLine(pics, k), Bar()) else OpenLine(pics, k)
  {
    NoFlush(song, k - 1);
    if k == 1 {
      FirstLine(song, pics);
    } else {
      UnflushedLine(song, pics, k - 1);
      NextLine(song, pics, k);
    }
  }

  /** Without extra text no measure flushes the line. */
  lemma NoFlush(song: Song, i: nat)
    requires NoExtraText(song)
    ensures !Flushes(song, i)
  {
  }

  /** The line after the first measure, when nothing flushes it. */
  lemma FirstLine(song: Song, pics: seq<Staff>)
    requires 0 < |song.measures| && Pictured(song, pics) && !Flushes(song, 0)
    ensures RenderUpTo(song, pics, 1).line ==
      if 1 == |song.measures| then Union(OpenLine(pics, 1), Bar()) else OpenLine(pics, 1)
  {
    OpenLineStep(pics, 1);
    DoubleBar();
    assert [Bar(), Bar()] + MeasureParts(pics, 0) == [Bar(), Bar()];
    assert RenderUpTo(song, pics, 1).line == Extend(song, pics, 0, EmptyStaff());
  }

  /** The line after measure k, when nothing flushes it and the line
      before it is still open. */
  lemma NextLine(song: Song, pics: seq<Staff>, k: nat)
    requires 1 < k <= |song.measures| && Pictured(song, pics) && !Flushes(song, k - 1)
    requires RenderUpTo(song, pics, k - 1).line == OpenLine(pics, k - 1)
    ensures RenderUpTo(song, pics, k).line ==
      if k == |song.measures| then Union(OpenLine(pics, k), Bar()) else OpenLine(pics, k)
  {
    OpenLineStep(pics, k);
  }

  /** The single-line layout over given measure pictures. */
  lemma SingleLinePictures(song: Song, pics: seq<Staff>)
    requires |song.measures| > 0 && Pictured(song, pics) && NoExtraText(song)
    requires |song.extraText| <= |song.measures| + 1
    ensures RenderPictures(song, pics) == Ok(ToString(UnionAll(LineParts(pics))))
  {
    var n := |song.measures|;
    var p := RenderUpTo(song, pics, n);
    UnflushedText(song, pics, n);
    UnflushedLine(song, pics, n);
    var line := Union(OpenLine(pics, n), Bar());
    var head := [Bar(), Bar()] + MeasureParts(pics, n);
    UnionAllSnoc(head, Bar());
    assert LineParts(pics) == head + [Bar()];
    assert p.line == line == UnionAll(LineParts(pics));
    OpenLineStep(pics, n);
    assert line.width > 1;
    assert p.text + ToString(p.line) == ToString(line);
  }

  /** A song without extra text prints as its single staff line: the
      double bar, each measure followed by a bar, and a closing bar. */
  lemma SingleLineLayout(l: Legend, song: Song)
    requires |song.measures| > 0 && Drawable(l, song) && NoExtraText(song)
    requires |song.extraText| <= |song.measures| + 1
    ensures Render(l, song) == Ok(ToString(UnionAll(LineParts(MeasurePictures(l, song)))))
  {
    SingleLinePictures(song, MeasurePictures(l, song));
  }
}
