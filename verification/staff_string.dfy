/** displayUtilLibrary.py: the StaffString, a fixed-height grid of text rows
    that is grown only by horizontal union and trimmed when printed.

    Row 0 is the top of the picture; rows BassClefTop..BassClefBtm (22..30)
    hold the five staff lines and the four spaces between them. */
module StaffStrings {
  import opened Results
  import opened Chars

  const StaffHeight: nat := 33
  const BassClefBtm: nat := StaffHeight - 3
  const BassClefTop: nat := StaffHeight - 11
  /** The sentinel the constructor uses for "no explicit fill string". */
  const DefaultStr: string := "default"

  datatype Staff = Staff(rows: seq<string>, width: nat) {

    /** Every constructor produces exactly StaffHeight rows. */
    predicate Valid() {
      |rows| == StaffHeight
    }

    /** Valid, and every row is exactly `width` characters long. */
    predicate WellFormed() {
      Valid() && forall k :: 0 <= k < |rows| ==> |rows[k]| == width
    }
  }

  predicate InClef(k: int) {
    BassClefTop <= k <= BassClefBtm
  }

  /** The character of the default one-column buffer at row `k`: a staff
      line on even rows of the clef, a space everywhere else. */
  function DefaultChar(k: int): char {
    if InClef(k) && k % 2 == 0 then '-' else ' '
  }

  /** `StaffString(str, restrict)`. */
  function NewStaff(str: string, restrict: bool): (r: Result<Staff>)
    ensures r.Err? <==> str != DefaultStr && |str| > 1
    ensures r.Err? ==> r.error.StaffError?
    ensures r.Ok? ==> r.value.Valid()
    ensures r.Ok? ==> r.value.width == if str == DefaultStr then 1 else |str|
    ensures r.Ok? ==> forall k :: 0 <= k < StaffHeight ==>
      r.value.rows[k] ==
        if !restrict then str
        else if !InClef(k) then " "
        else if str == DefaultStr then [DefaultChar(k)]
        else str
    ensures r.Ok? ==> (r.value.WellFormed() <==>
      if str == DefaultStr then restrict else !restrict || |str| == 1)
  {
    if str != DefaultStr && |str| > 1 then Err(StaffError("string too large"))
    else
      var width := if str == DefaultStr then 1 else |str|;
      var rows := seq(StaffHeight, k =>
        if !restrict then str
        else if !InClef(k) then " "
        else if str == DefaultStr then [DefaultChar(k)]
        else str);
      var s := Staff(rows, width);
      assert str == DefaultStr && !restrict ==> |rows[0]| != width;
      assert str != DefaultStr && restrict && |str| != 1 ==> |rows[0]| != width;
      Ok(s)
  }

  /** `StaffString()`: one column of staff lines and spaces. */
  function DefaultColumn(): (s: Staff)
    ensures s.WellFormed() && s.width == 1
    ensures forall k :: 0 <= k < StaffHeight ==> s.rows[k] == [DefaultChar(k)]
  {
    Staff(seq(StaffHeight, k => [DefaultChar(k)]), 1)
  }

  /** `StaffString("", restrict=False)`: the empty buffer of width 0. */
  function EmptyStaff(): (s: Staff)
    ensures s.WellFormed() && s.width == 0
  {
    Staff(seq(StaffHeight, k => ""), 0)
  }

  /** `StaffString(c)` for a single character `c`: `c` across the clef,
      spaces elsewhere. */
  function CharColumn(c: char): (s: Staff)
    ensures s.WellFormed() && s.width == 1
    ensures forall k :: 0 <= k < StaffHeight ==> s.rows[k] == if InClef(k) then [c] else " "
  {
    Staff(seq(StaffHeight, k => if InClef(k) then [c] else " "), 1)
  }

  /** The constructor calls the model uses agree with the general one. */
  lemma ConstructorsAgree()
    ensures NewStaff(DefaultStr, true) == Ok(DefaultColumn())
    ensures NewStaff("", false) == Ok(EmptyStaff())
    ensures NewStaff("|", true) == Ok(CharColumn('|'))
  {
    assert NewStaff("", false).value.rows == EmptyStaff().rows;
    assert NewStaff("|", true).value.rows == CharColumn('|').rows;
    assert NewStaff(DefaultStr, true).value.rows == DefaultColumn().rows;
  }

  /** `StaffString.checkIndex`. */
  function CheckIndex(index: int): (r: Result<()>)
    ensures r.Ok? <==> 0 <= index < StaffHeight
    ensures r.Err? ==> r.error.StaffOutOfBounds?
  {
    if index < 0 || index >= StaffHeight then Err(StaffOutOfBounds("index out of bounds")) else Ok(())
  }

  /** `getRowAtIndex`. */
  function GetRowAtIndex(s: Staff, index: int): (r: Result<string>)
    requires s.Valid()
    ensures r.Ok? <==> 0 <= index < StaffHeight
    ensures r.Err? ==> r.error.StaffOutOfBounds?
    ensures r.Ok? ==> r.value == s.rows[index]
  {
    var _ :- CheckIndex(index);
    Ok(s.rows[index])
  }

  /** `updateIndexToStr`: replaces one row, checking the row width first,
      then the forbidden newline row, then the index. */
  function UpdateIndexToStr(s: Staff, index: int, str: string): (r: Result<Staff>)
    requires s.Valid()
    ensures r.Ok? <==> |str| == s.width && str != "\n" && 0 <= index < StaffHeight
    ensures |str| != s.width ==> r == Err(StaffOutOfBounds("row size"))
    ensures |str| == s.width && str == "\n" ==> r.Err? && r.error.StaffError?
    ensures r.Err? ==> r.error.StaffError? || r.error.StaffOutOfBounds?
    ensures r.Ok? ==> r.value.Valid() && r.value.width == s.width
    ensures r.Ok? ==> r.value.rows[index] == str
    ensures r.Ok? ==> forall k :: 0 <= k < StaffHeight && k != index ==> r.value.rows[k] == s.rows[k]
    ensures r.Ok? && s.WellFormed() ==> r.value.WellFormed()
  {
    if |str| != s.width then Err(StaffOutOfBounds("row size"))
    else if str == "\n" then Err(StaffError("newline row"))
    else
      var _ :- CheckIndex(index);
      Ok(SetRow(s, index, str))
  }

  /** The effect of a successful `updateIndexToStr`. */
  function SetRow(s: Staff, index: nat, str: string): (r: Staff)
    requires s.Valid() && index < StaffHeight
    ensures r.Valid() && r.width == s.width
    ensures r.rows[index] == str
    ensures forall k :: 0 <= k < StaffHeight && k != index ==> r.rows[k] == s.rows[k]
    ensures s.WellFormed() && |str| == s.width ==> r.WellFormed()
  {
    s.(rows := s.rows[index := str])
  }

  /** `union`: horizontal concatenation, row by row. */
  function Union(s: Staff, other: Staff): (r: Staff)
    requires s.Valid() && other.Valid()
    ensures r.Valid()
    ensures r.width == s.width + other.width
    ensures forall k :: 0 <= k < StaffHeight ==> r.rows[k] == s.rows[k] + other.rows[k]
    ensures s.WellFormed() && other.WellFormed() ==> r.WellFormed()
  {
    Staff(seq(StaffHeight, k requires 0 <= k < StaffHeight => s.rows[k] + other.rows[k]), s.width + other.width)
  }

  /** Union of well-formed buffers: the columns of each operand appear
      unchanged and side by side. */
  lemma UnionColumns(s: Staff, other: Staff, k: nat, c: nat)
    requires s.WellFormed() && other.WellFormed() && k < StaffHeight
    requires c < s.width + other.width
    ensures c < s.width ==> Union(s, other).rows[k][c] == s.rows[k][c]
    ensures c >= s.width ==> Union(s, other).rows[k][c] == other.rows[k][c - s.width]
  {
  }

  /** The characters `str.strip("\n\t ")` removes. */
  predicate BlankChar(c: char) {
    c == '\n' || c == '\t' || c == ' '
  }

  predicate BlankRow(row: string) {
    forall c :: 0 <= c < |row| ==> BlankChar(row[c])
  }

  /** `rowIsEmpty`. */
  predicate RowIsEmpty(s: Staff, index: nat)
    requires s.Valid() && index < StaffHeight
  {
    BlankRow(s.rows[index])
  }

  /** The declarative trimming rule: rows `top..bottom` are printed, the
      clef rows are always among them, and exactly the blank rows at the
      outer edges are dropped. */
  ghost predicate Kept(s: Staff, top: nat, bottom: nat)
    requires s.Valid()
  {
    && top <= BassClefTop && BassClefBtm <= bottom < StaffHeight
    && (forall k :: 0 <= k < top ==> BlankRow(s.rows[k]))
    && (top < BassClefTop ==> !BlankRow(s.rows[top]))
    && (forall k :: bottom < k < StaffHeight ==> BlankRow(s.rows[k]))
    && (bottom > BassClefBtm ==> !BlankRow(s.rows[bottom]))
  }

  /** The upward trimming loop of `__str__`, started at row `j`. */
  function TrimTop(s: Staff, j: nat): (top: nat)
    requires s.Valid() && j <= BassClefTop
    requires forall k :: 0 <= k < j ==> BlankRow(s.rows[k])
    ensures j <= top <= BassClefTop
    ensures forall k :: 0 <= k < top ==> BlankRow(s.rows[k])
    ensures top < BassClefTop ==> !BlankRow(s.rows[top])
    decreases BassClefTop - j
  {
    if j < BassClefTop && RowIsEmpty(s, j) then TrimTop(s, j + 1) else j
  }

  /** The downward trimming loop of `__str__`, started at row `i`. */
  function TrimBottom(s: Staff, i: nat): (bottom: nat)
    requires s.Valid() && BassClefBtm <= i < StaffHeight
    requires forall k :: i < k < StaffHeight ==> BlankRow(s.rows[k])
    ensures BassClefBtm <= bottom <= i
    ensures forall k :: bottom < k < StaffHeight ==> BlankRow(s.rows[k])
    ensures bottom > BassClefBtm ==> !BlankRow(s.rows[bottom])
    decreases i
  {
    if i > BassClefBtm && RowIsEmpty(s, i) then TrimBottom(s, i - 1) else i
  }

  /** The trimming loops compute the only pair of bounds the rule allows. */
  lemma {:induction false} KeptIsTrim(s: Staff, top: nat, bottom: nat)
    requires s.Valid()
    ensures Kept(s, TrimTop(s, 0), TrimBottom(s, StaffHeight - 1))
    ensures Kept(s, top, bottom) ==> top == TrimTop(s, 0) && bottom == TrimBottom(s, StaffHeight - 1)
  {
    var t, b := TrimTop(s, 0), TrimBottom(s, StaffHeight - 1);
    if Kept(s, top, bottom) {
      assert top == BassClefTop || !BlankRow(s.rows[top]);
      assert t == BassClefTop || !BlankRow(s.rows[t]);
      assert bottom == BassClefBtm || !BlankRow(s.rows[bottom]);
      assert b == BassClefBtm || !BlankRow(s.rows[b]);
    }
  }

  /** `"\n".join(lines)`. */
  function Join(lines: seq<string>): string {
    if |lines| == 0 then ""
    else if |lines| == 1 then lines[0]
    else lines[0] + "\n" + Join(lines[1..])
  }

  /** `__str__` of a buffer without newline columns: the kept rows joined
      by newlines, followed by the separator line the original appends; an
      empty buffer prints as the empty string. */
  function ToString(s: Staff): (r: string)
    requires s.WellFormed()
    ensures s.width == 0 ==> r == ""
    ensures s.width > 0 ==> exists top: nat, bottom: nat ::
      (Kept(s, top, bottom) && r == Join(s.rows[top..bottom + 1]) + "\n\n")
  {
    if s.width == 0 then ""
    else
      var top := TrimTop(s, 0);
      var bottom := TrimBottom(s, StaffHeight - 1);
      KeptIsTrim(s, top, bottom);
      Join(s.rows[top..bottom + 1]) + "\n\n"
  }
}
