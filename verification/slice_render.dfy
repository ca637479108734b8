/** `Slice.getStaffStr` of typeLibrary.py and its three helpers: a slice is
    drawn as a block of default columns wide enough for the note glyph, an
    optional sharp and its dots, then ledger lines, note (or rest) glyphs and
    tie marks are written over it row by row.

    Row r of the block shows the note with unsigned staff position
    StaffHeight - 1 - r. */
module SliceRender {
  import opened Results
  import opened Notes
  import opened Legends
  import opened Slices
  import opened StaffStrings
  import opened Chars

  const SharpGlyph: char := '\U{266F}'
  const DotGlyph: char := '\U{B7}'
  const TieGlyph: char := '_'
  /** The row that holds a rest glyph (the middle line of the clef). */
  const RestRow: nat := BassClefBtm - 4

  /** The columns a slice occupies: padding, glyph, trailing padding, one
      for a sharp if any note is sharp, one per dot. */
  function SliceWidth(sl: Slice): nat {
    3 + (if sl.hasSharp then 1 else 0) + sl.numDots
  }

  /** The row that shows `n`. */
  function NoteRow(n: Note): int {
    StaffHeight - 1 - Abs(n.staffPos)
  }

  /** `n` unions of `StaffString()`. */
  function DefaultColumns(n: nat): (s: Staff)
    requires n >= 1
    ensures s.WellFormed() && s.width == n
    ensures forall k :: 0 <= k < StaffHeight ==> s.rows[k] == Repeat(DefaultChar(k), n)
  {
    if n == 1 then
      var d := DefaultColumn();
      assert forall k :: 0 <= k < StaffHeight ==> d.rows[k] == Repeat(DefaultChar(k), 1);
      d
    else Union(DefaultColumns(n - 1), DefaultColumn())
  }

  /** The upper ledger loop of `fillLedgerLinesInToStaffStr`, from row `i`. */
  function FillUpper(s: Staff, i: int, line: string): (r: Staff)
    requires s.Valid() && 0 <= i && i % 2 == 0 && |line| == s.width
    ensures r.Valid() && r.width == s.width
    ensures s.WellFormed() ==> r.WellFormed()
    ensures forall k :: 0 <= k < StaffHeight ==>
      r.rows[k] == if i <= k < BassClefTop && k % 2 == 0 then line else s.rows[k]
    decreases BassClefTop - i
  {
    if i < BassClefTop then FillUpper(SetRow(s, i, line), i + 2, line) else s
  }

  /** The lower ledger loop of `fillLedgerLinesInToStaffStr`, from row `j`. */
  function FillLower(s: Staff, j: int, line: string): (r: Staff)
    requires s.Valid() && j < StaffHeight && j % 2 == 0 && |line| == s.width
    ensures r.Valid() && r.width == s.width
    ensures s.WellFormed() ==> r.WellFormed()
    ensures forall k :: 0 <= k < StaffHeight ==>
      r.rows[k] == if BassClefBtm < k <= j && k % 2 == 0 then line else s.rows[k]
    decreases j
  {
    if j > BassClefBtm then FillLower(SetRow(s, j, line), j - 2, line) else s
  }

  /** The rows that receive a ledger line: even rows above the clef up to
      the highest note, and even rows below it down to the lowest. */
  predicate LedgerRow(sl: Slice, k: int) {
    k % 2 == 0 &&
    (StaffHeight - 1 - sl.maxStaffPos <= k < BassClefTop || BassClefBtm < k <= StaffHeight - 1 - sl.minStaffPos)
  }

  /** `fillLedgerLinesInToStaffStr`. */
  function FillLedger(s: Staff, sl: Slice): (r: Staff)
    requires s.WellFormed() && Summarised(sl)
    ensures r.WellFormed() && r.width == s.width
    ensures forall k :: 0 <= k < StaffHeight ==>
      r.rows[k] == if LedgerRow(sl, k) then Repeat('-', s.width) else s.rows[k]
  {
    var line := Repeat('-', s.width);
    var i := StaffHeight - 1 - sl.maxStaffPos;
    var i' := if i % 2 != 0 then i + 1 else i;
    var j := StaffHeight - 1 - sl.minStaffPos;
    var j' := if j % 2 != 0 then j - 1 else j;
    LedgerRows(sl, i', j');
    FillLower(FillUpper(s, i', line), j', line)
  }

  /** The ledger rows, with the highest and lowest note rows rounded to the
      nearest even row inside them. */
  lemma LedgerRows(sl: Slice, i: int, j: int)
    requires i == (if (StaffHeight - 1 - sl.maxStaffPos) % 2 != 0 then StaffHeight - sl.maxStaffPos else StaffHeight - 1 - sl.maxStaffPos)
    requires j == (if (StaffHeight - 1 - sl.minStaffPos) % 2 != 0 then StaffHeight - 2 - sl.minStaffPos else StaffHeight - 1 - sl.minStaffPos)
    ensures forall k :: LedgerRow(sl, k) <==> k % 2 == 0 && (i <= k < BassClefTop || BassClefBtm < k <= j)
  {
  }

  /** The padding of a note's row: a staff line for even positions, a space
      for odd ones. */
  function Pad(n: Note): char {
    if n.staffPos % 2 == 0 then '-' else ' '
  }

  /** The text `loadNotesInToStaffStr` writes for one note: padding, glyph,
      sharp, dots, then padding up to the width. */
  function NoteText(glyph: char, n: Note, numDots: nat, width: nat): (r: string)
    requires width >= 3 + (if n.IsSharp() then 1 else 0) + numDots
    ensures |r| == width
    ensures r[0] == Pad(n) && r[1] == glyph
    ensures n.IsSharp() ==> r[2] == SharpGlyph
    ensures var first := 2 + (if n.IsSharp() then 1 else 0);
      && (forall c :: first <= c < first + numDots ==> r[c] == DotGlyph)
      && (forall c :: first + numDots <= c < width ==> r[c] == Pad(n))
  {
    var sharp := if n.IsSharp() then [SharpGlyph] else [];
    var fill := 2 + |sharp| + numDots;
    [Pad(n)] + [glyph] + sharp + Repeat(DotGlyph, numDots) + Repeat(Pad(n), width - fill)
  }

  /** The text `loadNotesInToStaffStr` writes for a rest. */
  function RestText(glyph: char, numDots: nat): (r: string)
    ensures |r| == 3 + numDots
    ensures r[0] == '-' && r[1] == glyph && r[|r| - 1] == '-'
    ensures forall c :: 2 <= c < 2 + numDots ==> r[c] == DotGlyph
  {
    "-" + [glyph] + Repeat(DotGlyph, numDots) + "-"
  }

  /** The index of the last of `notes` drawn on row `k`, or -1. */
  function WriterOf(notes: seq<Note>, k: int): (w: int)
    ensures -1 <= w < |notes|
    ensures w >= 0 ==> NoteRow(notes[w]) == k && forall j :: w < j < |notes| ==> NoteRow(notes[j]) != k
    ensures w == -1 <==> forall j :: 0 <= j < |notes| ==> NoteRow(notes[j]) != k
  {
    if |notes| == 0 then -1
    else if NoteRow(notes[|notes| - 1]) == k then |notes| - 1
    else WriterOf(notes[..|notes| - 1], k)
  }

  /** Every note fits on the staff and leaves room for its text. */
  predicate Drawable(s: Staff, notes: seq<Note>, numDots: nat) {
    forall j :: 0 <= j < |notes| ==>
      Abs(notes[j].staffPos) <= 30 && s.width >= 3 + (if notes[j].IsSharp() then 1 else 0) + numDots
  }

  /** The note loop of `loadNotesInToStaffStr`: each note in turn writes its
      text on its row, so a row shared by two notes shows the later one. */
  function LoadNotes(s: Staff, notes: seq<Note>, glyph: char, numDots: nat): (r: Staff)
    requires s.WellFormed() && Drawable(s, notes, numDots)
    ensures r.WellFormed() && r.width == s.width
    ensures forall k :: 0 <= k < StaffHeight ==>
      r.rows[k] == if WriterOf(notes, k) >= 0 then NoteText(glyph, notes[WriterOf(notes, k)], numDots, s.width)
                   else s.rows[k]
  {
    if |notes| == 0 then s
    else
      var prefix := notes[..|notes| - 1];
      assert Drawable(s, prefix, numDots);
      var last := notes[|notes| - 1];
      var t := LoadNotes(s, prefix, glyph, numDots);
      var r := SetRow(t, NoteRow(last), NoteText(glyph, last, numDots, s.width));
      assert forall k :: 0 <= k < StaffHeight && k != NoteRow(last) ==> WriterOf(notes, k) == WriterOf(prefix, k);
      r
  }

  /** A tie mark: `_` replaces the last character (a tie begins) or the
      first character (a tie ends). */
  function Mark(row: string, begins: bool): (r: string)
    requires |row| >= 1
    ensures |r| == |row|
    ensures begins ==> r[|r| - 1] == TieGlyph && r[..|r| - 1] == row[..|row| - 1]
    ensures !begins ==> r[0] == TieGlyph && r[1..] == row[1..]
  {
    if begins then row[..|row| - 1] + [TieGlyph] else [TieGlyph] + row[1..]
  }

  /** Marking twice is marking once. */
  lemma MarkIdempotent(row: string, begins: bool)
    requires |row| >= 1
    ensures Mark(Mark(row, begins), begins) == Mark(row, begins)
  {
  }

  predicate OnSomeNote(notes: seq<Note>, k: int) {
    exists j :: 0 <= j < |notes| && NoteRow(notes[j]) == k
  }

  /** A row shows one of the notes exactly when it shows one of the
      notes before the last, or the last one. */
  lemma OnSomeNoteSnoc(notes: seq<Note>)
    requires |notes| > 0
    ensures forall k :: OnSomeNote(notes, k) <==>
      OnSomeNote(notes[..|notes| - 1], k) || k == NoteRow(notes[|notes| - 1])
  {
    var prefix := notes[..|notes| - 1];
    var row := NoteRow(notes[|notes| - 1]);
    forall k ensures OnSomeNote(notes, k) <==> OnSomeNote(prefix, k) || k == row {
      if OnSomeNote(prefix, k) {
        var j :| 0 <= j < |prefix| && NoteRow(prefix[j]) == k;
        assert notes[j] == prefix[j];
      }
      if OnSomeNote(notes, k) && k != row {
        var j :| 0 <= j < |notes| && NoteRow(notes[j]) == k;
        assert prefix[j] == notes[j];
      }
    }
  }

  /** One loop of `attachTiesToStaffStr`: every row that shows a note gets
      the tie mark, once however many notes share it. */
  function MarkRows(s: Staff, notes: seq<Note>, begins: bool): (r: Staff)
    requires s.WellFormed() && s.width >= 1
    requires forall j :: 0 <= j < |notes| ==> Abs(notes[j].staffPos) <= 30
    ensures r.WellFormed() && r.width == s.width
    ensures forall k :: 0 <= k < StaffHeight ==>
      r.rows[k] == if OnSomeNote(notes, k) then Mark(s.rows[k], begins) else s.rows[k]
  {
    if |notes| == 0 then s
    else
      var prefix := notes[..|notes| - 1];
      var last := notes[|notes| - 1];
      var t := MarkRows(s, prefix, begins);
      var row := NoteRow(last);
      var r := SetRow(t, row, Mark(t.rows[row], begins));
      OnSomeNoteSnoc(notes);
      MarkIdempotent(s.rows[row], begins);
      r
  }

  /** The tie marks a slice puts on a row that shows one of its notes. */
  function TieMarks(sl: Slice, row: string): string
    requires |row| >= 1
  {
    var begun := if sl.tieBegins then Mark(row, true) else row;
    if sl.tieEnds then Mark(begun, false) else begun
  }

  /** What a well-formed slice draws on row `k`, stated row by row. */
  function ExpectedRow(l: Legend, sl: Slice, k: int): string
    requires NoTimingSymbol in l.timing && sl.symbol in l.timing && Summarised(sl)
  {
    var w := SliceWidth(sl);
    var base := if LedgerRow(sl, k) then Repeat('-', w) else Repeat(DefaultChar(k), w);
    var entry := l.timing[sl.symbol];
    if IsRest(l, sl) then (if k == RestRow then RestText(entry.restGlyph, sl.numDots) else base)
    else if WriterOf(sl.notes, k) >= 0 then
      TieMarks(sl, NoteText(entry.noteGlyph, sl.notes[WriterOf(sl.notes, k)], sl.numDots, w))
    else base
  }

  /** A note with a sharp sets the slice's sharp summary. */
  lemma SharpSummarised(sl: Slice)
    requires Summarised(sl)
    ensures forall j :: 0 <= j < |sl.notes| && sl.notes[j].IsSharp() ==> sl.hasSharp
  {
  }

  /** A row shows a note exactly when some note writes it. */
  lemma WriterShows(notes: seq<Note>)
    ensures forall k :: OnSomeNote(notes, k) <==> WriterOf(notes, k) >= 0
  {
  }

  /** `getStaffStr`: the block of default columns, then ledger lines, then
      the notes or the rest, then the tie marks. */
  function SliceStaff(l: Legend, sl: Slice): (r: Staff)
    requires NoTimingSymbol in l.timing && sl.symbol in l.timing && Summarised(sl)
    ensures r.WellFormed() && r.width == SliceWidth(sl)
    ensures forall k :: 0 <= k < StaffHeight ==> r.rows[k] == ExpectedRow(l, sl, k)
  {
    var w := SliceWidth(sl);
    var entry := l.timing[sl.symbol];
    var ledgered := FillLedger(DefaultColumns(w), sl);
    SharpSummarised(sl);
    if IsRest(l, sl) then
      Ties(SetRow(ledgered, RestRow, RestText(entry.restGlyph, sl.numDots)), sl)
    else
      var loaded := LoadNotes(ledgered, sl.notes, entry.noteGlyph, sl.numDots);
      WriterShows(sl.notes);
      Ties(loaded, sl)
  }

  /** The tie loops of `attachTiesToStaffStr`: the rows showing a note of
      the slice get its tie marks, the others are left alone. */
  function Ties(s: Staff, sl: Slice): (r: Staff)
    requires s.WellFormed() && s.width >= 1
    requires forall j :: 0 <= j < |sl.notes| ==> Abs(sl.notes[j].staffPos) <= 30
    ensures r.WellFormed() && r.width == s.width
    ensures forall k :: 0 <= k < StaffHeight ==>
      r.rows[k] == if OnSomeNote(sl.notes, k) then TieMarks(sl, s.rows[k]) else s.rows[k]
  {
    var begun := if sl.tieBegins then MarkRows(s, sl.notes, true) else s;
    if sl.tieEnds then MarkRows(begun, sl.notes, false) else begun
  }

  /** A slice without notes gets no ledger line. */
  lemma NoLedgerWithoutNotes(sl: Slice, k: int)
    requires Summarised(sl) && |sl.notes| == 0
    ensures !LedgerRow(sl, k)
  {
  }

  /** Ledger lines lie on even rows outside the clef, between the clef and
      the row of the outermost note on that side. */
  lemma LedgerPlacement(sl: Slice, k: int)
    requires Summarised(sl) && LedgerRow(sl, k)
    ensures k % 2 == 0 && !InClef(k)
    ensures k < BassClefTop ==> exists j :: 0 <= j < |sl.notes| && NoteRow(sl.notes[j]) <= k
    ensures k > BassClefBtm ==> exists j :: 0 <= j < |sl.notes| && NoteRow(sl.notes[j]) >= k
  {
  }

  /** The row of a note that is not a rest: the full width, padding by the
      parity of the position (or a tie mark), the glyph, the sharp, then
      dots. */
  lemma NoteRowShape(l: Legend, sl: Slice, j: nat)
    requires NoTimingSymbol in l.timing && sl.symbol in l.timing && Summarised(sl)
    requires j < |sl.notes| && WriterOf(sl.notes, NoteRow(sl.notes[j])) == j
    ensures var row := SliceStaff(l, sl).rows[NoteRow(sl.notes[j])];
      && |row| == SliceWidth(sl)
      && row[0] == (if sl.tieEnds then TieGlyph else Pad(sl.notes[j]))
      && row[1] == l.timing[sl.symbol].noteGlyph
      && (sl.notes[j].IsSharp() ==> row[2] == SharpGlyph)
      && (sl.tieBegins ==> row[|row| - 1] == TieGlyph)
      && (!sl.tieBegins ==> row[|row| - 1] != TieGlyph)
  {
    NoteRowText(l, sl, j);
    var t := NoteText(l.timing[sl.symbol].noteGlyph, sl.notes[j], sl.numDots, SliceWidth(sl));
    assert t[|t| - 1] == Pad(sl.notes[j]);
    TieMarksShape(sl, t);
  }

  /** The row of a note that is not a rest is its note text with the tie
      marks. */
  lemma NoteRowText(l: Legend, sl: Slice, j: nat)
    requires NoTimingSymbol in l.timing && sl.symbol in l.timing && Summarised(sl)
    requires j < |sl.notes| && WriterOf(sl.notes, NoteRow(sl.notes[j])) == j
    ensures SharpFits(sl, sl.notes[j])
    ensures SliceStaff(l, sl).rows[NoteRow(sl.notes[j])] ==
      TieMarks(sl, NoteText(l.timing[sl.symbol].noteGlyph, sl.notes[j], sl.numDots, SliceWidth(sl)))
  {
    assert 0 <= NoteRow(sl.notes[j]) < StaffHeight;
    assert !IsRest(l, sl);
    SharpSummarised(sl);
  }

  /** The slice is wide enough for the note's text. */
  predicate SharpFits(sl: Slice, n: Note) {
    SliceWidth(sl) >= 3 + (if n.IsSharp() then 1 else 0) + sl.numDots
  }

  /** Tie marks touch only the first and the last character of a row. */
  lemma TieMarksShape(sl: Slice, t: string)
    requires |t| >= 3
    ensures var row := TieMarks(sl, t);
      && |row| == |t| && row[1] == t[1] && (|t| >= 4 ==> row[2] == t[2])
      && row[0] == (if sl.tieEnds then TieGlyph else t[0])
      && row[|row| - 1] == (if sl.tieBegins then TieGlyph else t[|t| - 1])
  {
    var begun := if sl.tieBegins then Mark(t, true) else t;
    assert begun[1] == t[1] && (|t| >= 4 ==> begun[2] == t[2]);
    if sl.tieEnds {
      var row := Mark(begun, false);
      assert row[1..] == begun[1..];
      assert row[1] == begun[1] && row[2] == begun[2] && row[|row| - 1] == begun[|begun| - 1];
    }
  }
}
