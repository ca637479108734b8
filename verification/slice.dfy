/** The `Slice` class of typeLibrary.py: the notes played together at one
    column of the tab, their duration, their dots and their tie flags, with
    the summary fields the renderer reads (highest and lowest unsigned staff
    position, presence of a sharp). */
module Slices {
  import opened Results
  import opened Notes
  import opened Legends
  import StaffStrings

  datatype Slice = Slice(
    notes: seq<Note>,
    symbol: char,
    length: real,
    numDots: nat,
    nextDotLength: real,
    maxStaffPos: int,
    minStaffPos: int,
    hasSharp: bool,
    tieBegins: bool,
    tieEnds: bool)

  /** The largest unsigned position among `notes`, -1 when there are none. */
  function MaxAbs(notes: seq<Note>): (m: int)
    ensures forall k :: 0 <= k < |notes| ==> Abs(notes[k].staffPos) <= m
    ensures |notes| == 0 <==> m == -1
    ensures |notes| > 0 ==> exists k :: 0 <= k < |notes| && Abs(notes[k].staffPos) == m
  {
    if |notes| == 0 then -1
    else
      var m := MaxAbs(notes[..|notes| - 1]);
      var a := Abs(notes[|notes| - 1].staffPos);
      if a > m then a else m
  }

  /** The smallest unsigned position among `notes`, the staff height when
      there are none. */
  function MinAbs(notes: seq<Note>): (m: int)
    ensures forall k :: 0 <= k < |notes| ==> m <= Abs(notes[k].staffPos)
    ensures |notes| == 0 ==> m == StaffStrings.StaffHeight
    ensures |notes| > 0 ==> exists k :: 0 <= k < |notes| && Abs(notes[k].staffPos) == m
  {
    if |notes| == 0 then StaffStrings.StaffHeight
    else
      var a := Abs(notes[|notes| - 1].staffPos);
      if |notes| == 1 then a
      else
        var m := MinAbs(notes[..|notes| - 1]);
        if a < m then a else m
  }

  predicate AnySharp(notes: seq<Note>) {
    exists k :: 0 <= k < |notes| && notes[k].IsSharp()
  }

  /** What `addNote` maintains: the summary fields describe the notes, and
      every note fits on the staff. */
  predicate Summarised(s: Slice) {
    && s.maxStaffPos == MaxAbs(s.notes)
    && s.minStaffPos == MinAbs(s.notes)
    && s.hasSharp == AnySharp(s.notes)
    && forall k :: 0 <= k < |s.notes| ==> Abs(s.notes[k].staffPos) <= 30
  }

  /** `Slice()`: no notes, the no-timing symbol and its length, no dots, no
      ties. */
  function EmptySlice(l: Legend): (s: Slice)
    requires NoTimingSymbol in l.timing
    ensures |s.notes| == 0 && s.numDots == 0 && s.symbol == NoTimingSymbol
    ensures s.length == l.NoTimingLength() && s.nextDotLength * 2.0 == s.length
    ensures !s.tieBegins && !s.tieEnds
    ensures Summarised(s)
    ensures l.WellFormed() ==> s.length == 0.0
  {
    var len := l.timing[NoTimingSymbol].length;
    Slice([], NoTimingSymbol, len, 0, len / 2.0, -1, StaffStrings.StaffHeight, false, false, false)
  }

  /** `addNote`: builds the note (failing as the `Note` constructor does)
      and appends it, updating the summary fields. */
  function AddNote(s: Slice, stringName: char, fret: int): (r: Result<Slice>)
    ensures r.Ok? <==> NewNote(stringName, fret).Ok?
    ensures r.Err? ==> r == Err(NewNote(stringName, fret).error)
    ensures r.Ok? ==> r.value.notes == s.notes + [NewNote(stringName, fret).value]
    ensures r.Ok? ==> r.value == s.(notes := r.value.notes, maxStaffPos := r.value.maxStaffPos,
                                     minStaffPos := r.value.minStaffPos, hasSharp := r.value.hasSharp)
    ensures r.Ok? && Summarised(s) ==> Summarised(r.value)
  {
    var note :- NewNote(stringName, fret);
    NotePositionBound(stringName, fret);
    AddedSummarised(s, note);
    Ok(Added(s, note))
  }

  /** The slice with `note` appended and its summaries updated. */
  function Added(s: Slice, note: Note): Slice {
    var a := Abs(note.staffPos);
    s.(notes := s.notes + [note],
       hasSharp := s.hasSharp || note.IsSharp(),
       maxStaffPos := if a > s.maxStaffPos then a else s.maxStaffPos,
       minStaffPos := if a < s.minStaffPos then a else s.minStaffPos)
  }

  /** Updating the summaries note by note keeps them exact. */
  lemma AddedSummarised(s: Slice, note: Note)
    requires Abs(note.staffPos) <= 30
    ensures Summarised(s) ==> Summarised(Added(s, note))
  {
    if Summarised(s) {
      SummariesSnoc(s.notes, note);
      AnySharpSnoc(s.notes, note);
    }
  }

  /** The largest and smallest unsigned positions after one more note. */
  lemma SummariesSnoc(notes: seq<Note>, note: Note)
    requires Abs(note.staffPos) <= 30
    ensures var a := Abs(note.staffPos);
      && MaxAbs(notes + [note]) == (if a > MaxAbs(notes) then a else MaxAbs(notes))
      && MinAbs(notes + [note]) == (if a < MinAbs(notes) then a else MinAbs(notes))
  {
    var all := notes + [note];
    assert all[..|all| - 1] == notes;
    assert all[|all| - 1] == note;
  }

  /** One more note has a sharp exactly when the notes before did or the
      new note does. */
  lemma AnySharpSnoc(notes: seq<Note>, note: Note)
    ensures AnySharp(notes + [note]) <==> AnySharp(notes) || note.IsSharp()
  {
    var all := notes + [note];
    if AnySharp(notes) {
      var k :| 0 <= k < |notes| && notes[k].IsSharp();
      assert all[k] == notes[k];
    }
    if note.IsSharp() {
      assert all[|notes|] == note;
    }
    if AnySharp(all) && !note.IsSharp() {
      var k :| 0 <= k < |all| && all[k].IsSharp();
      assert notes[k] == all[k];
    }
  }

  /** `setLength` (with `checkLengthSymbol`): a symbol missing from the
      legend is rejected; otherwise the slice takes its length and the first
      dot will add half of it. Dots already applied are kept. */
  function SetLength(l: Legend, s: Slice, symbol: char): (r: Result<Slice>)
    ensures r.Ok? <==> symbol in l.timing
    ensures r.Err? ==> r.error.TabFileError?
    ensures r.Ok? ==> r.value == s.(symbol := symbol, length := l.timing[symbol].length,
                                     nextDotLength := r.value.nextDotLength)
    ensures r.Ok? ==> r.value.nextDotLength * 2.0 == l.timing[symbol].length
  {
    if symbol !in l.timing then Err(TabFileError("symbol not recognized"))
    else
      var len := l.timing[symbol].length;
      Ok(s.(symbol := symbol, length := len, nextDotLength := len / 2.0))
  }

  /** `applyDot`. Its guard compares the length with a whole legend entry,
      which never holds, so a dot is always applied, timed or not. Each dot
      adds the pending dot length and halves it, so the length plus twice
      the pending dot length never changes. */
  function ApplyDot(s: Slice): (r: Slice)
    ensures r.numDots == s.numDots + 1
    ensures r.length + 2.0 * r.nextDotLength == s.length + 2.0 * s.nextDotLength
    ensures r.nextDotLength * 2.0 == s.nextDotLength
    ensures r == s.(numDots := r.numDots, length := r.length, nextDotLength := r.nextDotLength)
  {
    s.(numDots := s.numDots + 1, length := s.length + s.nextDotLength, nextDotLength := s.nextDotLength / 2.0)
  }

  /** `n` successive `applyDot` calls. */
  function ApplyDots(s: Slice, n: nat): Slice {
    if n == 0 then s else ApplyDot(ApplyDots(s, n - 1))
  }

  /** The pending dot length halves with every dot and the length absorbs
      what it loses. */
  lemma {:induction false} DotsConserve(s: Slice, n: nat)
    ensures ApplyDots(s, n).numDots == s.numDots + n
    ensures ApplyDots(s, n).length + 2.0 * ApplyDots(s, n).nextDotLength == s.length + 2.0 * s.nextDotLength
    ensures ApplyDots(s, n).nextDotLength * (Pow2(n) as real) == s.nextDotLength
    ensures ApplyDots(s, n) == s.(numDots := s.numDots + n, length := ApplyDots(s, n).length,
                                  nextDotLength := ApplyDots(s, n).nextDotLength)
  {
    if n > 0 {
      DotsConserve(s, n - 1);
      var t := ApplyDots(s, n - 1);
      var p := Pow2(n - 1) as real;
      assert Pow2(n) as real == 2.0 * p;
      calc {
        ApplyDot(t).nextDotLength * (2.0 * p);
        (t.nextDotLength / 2.0) * (2.0 * p);
        t.nextDotLength * p;
      }
    }
  }

  /** After `setLength` with a symbol of length L and n dots, the slice
      lasts L * (2 - 1/2^n): one dot adds half, two add three quarters. */
  lemma DottedLength(l: Legend, s: Slice, symbol: char, n: nat)
    requires symbol in l.timing
    ensures var t := ApplyDots(SetLength(l, s, symbol).value, n);
      var len := l.timing[symbol].length;
      && t.numDots == s.numDots + n
      && t.length == 2.0 * len - len / (Pow2(n) as real)
      && t.symbol == symbol && t.notes == s.notes
  {
    var u := SetLength(l, s, symbol).value;
    var len := l.timing[symbol].length;
    DotsConserve(u, n);
    var t := ApplyDots(u, n);
    var p := Pow2(n) as real;
    assert t.nextDotLength * p == len / 2.0;
    Quotient(2.0 * t.nextDotLength, p, len);
  }

  lemma Quotient(x: real, p: real, y: real)
    requires p > 0.0 && x * p == y
    ensures x == y / p
  {
  }

  /** The dead guard of `applyDot`: a slice whose length was never set still
      takes a dot, and its length stays the no-timing length. */
  lemma DotWithoutLength(l: Legend)
    requires l.WellFormed()
    ensures ApplyDot(EmptySlice(l)).numDots == 1
    ensures ApplyDot(EmptySlice(l)).length == 0.0
  {
  }

  /** `isEmpty`. */
  predicate IsEmpty(s: Slice) {
    |s.notes| == 0
  }

  /** `isRest`: no notes, and a length other than the no-timing length. */
  predicate IsRest(l: Legend, s: Slice)
    requires NoTimingSymbol in l.timing
  {
    IsEmpty(s) && s.length != l.NoTimingLength()
  }

  /** A fresh slice is not a rest, and it becomes one exactly when a
      symbol of non-zero length is set. */
  lemma RestAfterSetLength(l: Legend, symbol: char)
    requires l.WellFormed() && symbol in l.timing
    ensures !IsRest(l, EmptySlice(l))
    ensures IsRest(l, SetLength(l, EmptySlice(l), symbol).value) <==> l.timing[symbol].length != 0.0
  {
  }

  /** Pairwise equality of two note lists under `Note.__eq__`. */
  predicate SameNotes(a: seq<Note>, b: seq<Note>) {
    |a| == |b| && forall i :: 0 <= i < |a| ==> SameNote(a[i], b[i])
  }

  /** `tie`: this slice begins a tie that the other ends. It fails, and
      neither flag changes, unless both hold the same number of notes and
      the notes are pairwise equal. */
  function Tie(a: Slice, b: Slice): (r: Result<(Slice, Slice)>)
    ensures r.Ok? <==> SameNotes(a.notes, b.notes)
    ensures r.Err? ==> r.error.TabError?
    ensures r.Ok? ==> r.value.0 == a.(tieBegins := true) && r.value.1 == b.(tieEnds := true)
  {
    if |b.notes| != |a.notes| then Err(TabError("varying numbers of notes"))
    else if exists i :: 0 <= i < |a.notes| && !SameNote(b.notes[i], a.notes[i]) then
      Err(TabError("different notes"))
    else Ok((a.(tieBegins := true), b.(tieEnds := true)))
  }

  /** Whether a tie succeeds does not depend on which slice comes first. */
  lemma TieSymmetric(a: Slice, b: Slice)
    ensures Tie(a, b).Ok? <==> Tie(b, a).Ok?
  {
  }

  /** Two slices built from the same string/fret pairs can always be
      tied. */
  lemma TieSameFrets(a: Slice, b: Slice)
    requires |a.notes| == |b.notes|
    requires forall i :: 0 <= i < |a.notes| ==> a.notes[i].staffPos == b.notes[i].staffPos
    ensures Tie(a, b).Ok?
  {
  }
}
