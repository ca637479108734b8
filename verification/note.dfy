/** The `Note` class of typeLibrary.py: a bass string and a fret, converted to
    a signed diatonic position on the bass clef. Position 0 is the open E
    string; a negative position marks a sharp of the same staff line. */
module Notes {
  import opened Results

  const MaxFret: int := 36

  /** The string names the constructor accepts. */
  predicate IsStringName(s: char) {
    s == 'E' || s == 'A' || s == 'D' || s == 'G'
  }

  /** Halfsteps of an open string above the open E string. */
  function StringOffset(s: char): (n: nat)
    requires IsStringName(s)
    ensures n <= 15 && n % 5 == 0
  {
    match s
    case 'E' => 0
    case 'A' => 5
    case 'D' => 10
    case _ => 15
  }

  /** Staff lines climbed by each of the twelve halfsteps of an octave
      starting from E. */
  const Counts: seq<nat> := [0, 1, 1, 2, 2, 3, 3, 4, 5, 5, 6, 6]

  /** The pitch classes whose name in the source's `order` table has two
      characters: F#, G#, A#, C#, D#. */
  predicate IsSharpClass(r: int) {
    r == 2 || r == 4 || r == 6 || r == 9 || r == 11
  }

  /** The signed staff position of a note `h` halfsteps above the open E. */
  function StaffPosOf(h: nat): int {
    var p := 7 * (h / 12) + Counts[h % 12];
    if IsSharpClass(h % 12) then -p else p
  }

  function Abs(x: int): nat {
    if x < 0 then -x else x
  }

  datatype Note = Note(stringName: char, fret: int, staffPos: int) {

    /** `isSharp`. */
    predicate IsSharp() {
      staffPos < 0
    }
  }

  /** `Note(string, fret)`: the fret is checked first, then the string name. */
  function NewNote(stringName: char, fret: int): (r: Result<Note>)
    ensures r.Ok? <==> 0 <= fret <= MaxFret && IsStringName(stringName)
    ensures r.Err? ==> r.error.TabFileError?
    ensures r.Ok? ==> r.value.stringName == stringName && r.value.fret == fret
    ensures r.Ok? ==> var h := fret + StringOffset(stringName);
      && Abs(r.value.staffPos) == 7 * (h / 12) + Counts[h % 12]
      && (r.value.staffPos < 0 <==> IsSharpClass(h % 12))
  {
    if fret < 0 || fret > MaxFret then Err(TabFileError("invalid fret value"))
    else if !IsStringName(stringName) then Err(TabFileError("invalid string name"))
    else
      var h := fret + StringOffset(stringName);
      assert IsSharpClass(h % 12) ==> Counts[h % 12] > 0;
      Ok(Note(stringName, fret, StaffPosOf(h)))
  }

  /** `__eq__`: two notes are equal when they sit on the same staff position,
      whatever string and fret produced them. */
  predicate SameNote(a: Note, b: Note) {
    a.staffPos == b.staffPos
  }

  /** An independent reading of the position: the number of natural
      (non-sharp) halfsteps climbed from the open E up to `h`. */
  function NaturalsUpTo(h: nat): nat {
    if h == 0 then 0 else NaturalsUpTo(h - 1) + (if IsSharpClass(h % 12) then 0 else 1)
  }

  /** The 12-to-7 table counts natural halfsteps: the unsigned position is
      the number of natural notes climbed. */
  lemma {:induction false} StaffPosCountsNaturals(h: nat)
    ensures Abs(StaffPosOf(h)) == NaturalsUpTo(h)
  {
    if h > 0 {
      StaffPosCountsNaturals(h - 1);
      var q, r := (h - 1) / 12, (h - 1) % 12;
      assert h - 1 == 12 * q + r;
      if r == 11 {
        assert h / 12 == q + 1 && h % 12 == 0;
      } else {
        assert h / 12 == q && h % 12 == r + 1;
      }
    }
  }

  /** Climbing never lowers the unsigned position. */
  lemma {:induction false} NaturalsMonotone(h1: nat, h2: nat)
    requires h1 <= h2
    ensures NaturalsUpTo(h1) <= NaturalsUpTo(h2)
    decreases h2 - h1
  {
    if h1 < h2 {
      NaturalsMonotone(h1, h2 - 1);
    }
  }

  /** A higher note never sits lower on the staff. */
  lemma StaffPosMonotone(h1: nat, h2: nat)
    requires h1 <= h2
    ensures Abs(StaffPosOf(h1)) <= Abs(StaffPosOf(h2))
  {
    StaffPosCountsNaturals(h1);
    StaffPosCountsNaturals(h2);
    NaturalsMonotone(h1, h2);
  }

  /** No two consecutive halfsteps are both sharps. */
  lemma NoAdjacentSharps(h: nat)
    ensures !(IsSharpClass(h % 12) && IsSharpClass((h + 1) % 12))
  {
    var q, r := h / 12, h % 12;
    if r == 11 {
      assert h + 1 == 12 * (q + 1);
    } else {
      assert h + 1 == 12 * q + (r + 1);
    }
  }

  /** Between two halfsteps with the same unsigned position lies exactly
      one step, and it lands on a sharp. */
  lemma {:induction false} SamePositionAdjacent(h1: nat, h2: nat)
    requires h1 < h2 && NaturalsUpTo(h1) == NaturalsUpTo(h2)
    ensures h2 == h1 + 1 && IsSharpClass(h2 % 12) && !IsSharpClass(h1 % 12)
  {
    NaturalsMonotone(h1, h2 - 1);
    assert IsSharpClass(h2 % 12);
    NoAdjacentSharps(h2 - 1);
    if h1 < h2 - 1 {
      NaturalsMonotone(h1, h2 - 2);
      assert false;
    }
  }

  /** The position determines the pitch: distinct halfsteps land on
      distinct signed positions. */
  lemma StaffPosInjective(h1: nat, h2: nat)
    ensures StaffPosOf(h1) == StaffPosOf(h2) <==> h1 == h2
  {
    if h1 != h2 && StaffPosOf(h1) == StaffPosOf(h2) {
      StaffPosCountsNaturals(h1);
      StaffPosCountsNaturals(h2);
      var lo, hi := if h1 < h2 then h1 else h2, if h1 < h2 then h2 else h1;
      SamePositionAdjacent(lo, hi);
    }
  }

  /** Every note the constructor accepts fits on the 33-row staff: its
      unsigned position is at most 30 (the G string at fret 36). */
  lemma NotePositionBound(stringName: char, fret: int)
    requires NewNote(stringName, fret).Ok?
    ensures Abs(NewNote(stringName, fret).value.staffPos) <= 30
    ensures Abs(NewNote(stringName, fret).value.staffPos) == 30 <==> stringName == 'G' && fret == MaxFret
  {
    var h := fret + StringOffset(stringName);
    assert h <= 51;
    StaffPosMonotone(h, 51);
    if h < 51 {
      StaffPosMonotone(h, 50);
      assert Abs(StaffPosOf(50)) == 29;
    }
  }

  /** `isSharp` holds exactly for the five sharp pitch classes. */
  lemma SharpIffClass(stringName: char, fret: int)
    requires NewNote(stringName, fret).Ok?
    ensures NewNote(stringName, fret).value.IsSharp() <==>
      IsSharpClass((fret + StringOffset(stringName)) % 12)
  {
  }

  /** Equality ignores the string: E at fret 5 and the open A are equal. */
  lemma UnisonAcrossStrings()
    ensures NewNote('E', 5).Ok? && NewNote('A', 0).Ok?
    ensures SameNote(NewNote('E', 5).value, NewNote('A', 0).value)
    ensures NewNote('E', 5).value != NewNote('A', 0).value
  {
  }

  /** Two accepted notes are equal exactly when they sound the same pitch. */
  lemma SameNoteIffSamePitch(s1: char, f1: int, s2: char, f2: int)
    requires NewNote(s1, f1).Ok? && NewNote(s2, f2).Ok?
    ensures SameNote(NewNote(s1, f1).value, NewNote(s2, f2).value) <==>
      f1 + StringOffset(s1) == f2 + StringOffset(s2)
  {
    StaffPosInjective(f1 + StringOffset(s1), f2 + StringOffset(s2));
  }
}
