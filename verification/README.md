# Bass tablature to staff text — a Dafny model

Music_Tab_Project reads a text file of bass guitar tablature: four string lines (G, D, A, E) per group, with an optional timing line above them. It turns that file into a song made of measures, slices and notes, and prints the song as a text-drawn bass staff.

This project models the core of that conversion as immutable datatypes and pure functions. The core is:

- the music types: `Note`, `Slice`, `Measure` and `Song` with its timing legend;
- the 33-row staff buffer `StaffString`;
- the column scanner and line grouping of the three tab parsers (`parsingUtils.py`, and the earlier `tabParser.py` and `tabReader.py`);
- the two configuration readers;
- the regular-expression escaper.

Every Python exception becomes an `Err` of the `Results.Error` datatype. This includes the crashes the code can reach: an `IndexError`, a `NameError`, and a call with the wrong number of arguments. The process-wide timing legend (`Song.timingLegend`, `tieSymbol`, `dotSymbol` and the allowed characters) is an immutable `Legends.Legend` value passed to every operation that reads it.

Layout, one module per file:

| file | module | models |
|---|---|---|
| results.dfy | `Results` | exceptions as `Result`/`Option` |
| chars.dfy | `Chars` | the Python string methods the code relies on, on ASCII text |
| regex_escape.dfy | `RegexEscape` | `escapeRegexSpecChrs` |
| staff_string.dfy | `StaffStrings` | `StaffString` |
| legend.dfy | `Legends` | the timing and playing legends of `Song` |
| note.dfy | `Notes` | `Note` |
| slice.dfy | `Slices` | `Slice` data, dots and ties |
| slice_render.dfy | `SliceRender` | `Slice.getStaffStr` and its helpers |
| measure.dfy | `Measures` | `Measure` |
| song.dfy | `Songs` | `Song`: measures, extra text, `__str__` |
| scan.dfy | `Scan` | what the three column scanners share |
| parsing_utils.dfy | `ParsingUtils` | parsingUtils.py |
| tab_parser.dfy | `TabParser` | tabParser.py |
| tab_reader.dfy | `TabReader` | tabReader.py |
| config_text.dfy | `ConfigText` | line normalisation and setting parsing shared by both readers |
| config_library.dfy | `ConfigLibrary` | configUtilLibrary.py |
| config_utils.dfy | `ConfigUtils` | configUtils.py |

Note lengths are exact dyadic fractions, so they are modelled as `real` with no rounding. Text is `seq<char>`. Digits and letters are the ASCII ones. Whitespace is what Python's `str.isspace` accepts among ASCII characters: blank, tab, line feed, vertical tab, form feed, carriage return and the separators 0x1C-0x1F.

## Model

| member | source | states |
|---|---|---|
| Chars.RStrip | parsingUtils.py:259 | `rstrip()`: the result is a prefix of the line, everything cut is whitespace, and a non-empty result does not end in whitespace |
| Chars.LStrip | tabParser.py:246-248 | `lstrip()`: the result is a suffix of the line, everything cut is whitespace, and a non-empty result does not start with whitespace |
| Chars.Strip | tabReader.py:161 | `strip()` is a contiguous piece of the line with only whitespace cut before and after it; it is empty exactly for an all-whitespace line, and otherwise neither end is whitespace |
| Chars.StripIdempotent | tabReader.py:161 | stripping a stripped line gives it back unchanged |
| Chars.Find | configUtilLibrary.py:101 | `find` gives the first position of the character, or -1 exactly when it is absent |
| Chars.RFind | tabParser.py:177 | `rfind` gives the last position of the character, or -1 exactly when it is absent |
| Chars.Upper | parsingUtils.py:179 | `upper()` moves exactly the lower-case ASCII letters to upper case and keeps letters letters |
| Chars.PadTo | parsingUtils.py:303-304 | padding with spaces up to a width keeps the text as a prefix and adds only spaces |
| Chars.ExpandTabs | parsingUtils.py:259 | `expandtabs` leaves no tab in the line |
| Chars.TabWidth | parsingUtils.py:259 | a tab becomes between 1 and `tabsize` spaces, enough to reach the next multiple of `tabsize` |
| Chars.ExpandTabsIdentity | parsingUtils.py:259 | a line without tabs is unchanged by `expandtabs` |
| Chars.NonBlankStays | parsingUtils.py:259-260 | after `rstrip().expandtabs()` a line is empty exactly when it was whitespace only |
| Chars.DecimalRoundTrip | configUtilLibrary.py:158 | `int()` reads every count back from its decimal text |
| RegexEscape.Escape | regexUtilLibrary.py:19-20 | the escaped text is longer than the input by the number of special characters; it opens with a backslash and the first character when that character is special, and with the first character itself otherwise |
| RegexEscape.UnescapeEscape | regexUtilLibrary.py:19-20 | dropping each escaping backslash recovers the input, so escaping loses nothing |
| RegexEscape.EscapeConcat | regexUtilLibrary.py:19-20 | escaping works character by character: escaping a concatenation concatenates the escapes |
| RegexEscape.EscapePlain | regexUtilLibrary.py:19-20 | text without special characters is returned unchanged |
| RegexEscape.EscapePlus | regexUtilLibrary.py:10-20 | "+" becomes "\+" |
| StaffStrings.NewStaff | displayUtilLibrary.py:49-71 | construction fails exactly for a non-default string longer than one character; otherwise there are 33 rows, the clef band holds the string (or '-'/' ' alternating by default) and the other rows hold " " when restricted; the rows all have the buffer's width exactly in the default, one-character and unrestricted cases |
| StaffStrings.DefaultColumn | displayUtilLibrary.py:49-71 | the default one-column buffer: '-' on the even clef rows, ' ' everywhere else |
| StaffStrings.EmptyStaff | displayUtilLibrary.py:49-71 | an unrestricted empty string gives a well-formed buffer of width 0 |
| StaffStrings.CharColumn | displayUtilLibrary.py:49-71 | a one-character buffer holds the character on the clef rows and ' ' elsewhere |
| StaffStrings.ConstructorsAgree | displayUtilLibrary.py:49-71 | the three named buffers are exactly what the constructor builds for those arguments |
| StaffStrings.CheckIndex | displayUtilLibrary.py:78-80 | an index is accepted exactly when it lies in [0, 33) |
| StaffStrings.GetRowAtIndex | displayUtilLibrary.py:90-92 | a row is returned exactly for an index in [0, 33); any other index is an out-of-bounds error |
| StaffStrings.UpdateIndexToStr | displayUtilLibrary.py:104-110 | the update succeeds exactly when the text has the buffer's width, is not "\n", and the index is in range; on success only that row changes and well-formedness is kept |
| StaffStrings.SetRow | displayUtilLibrary.py:104-110 | replacing one row leaves every other row and the width alone |
| StaffStrings.Union | displayUtilLibrary.py:118-125 | the union's width is the sum of both widths and each row is the two rows joined |
| StaffStrings.UnionColumns | displayUtilLibrary.py:118-125 | column c of a union comes from the left buffer when c is below its width, and from column c minus that width of the right one otherwise |
| StaffStrings.TrimTop | displayUtilLibrary.py:145-147 | top trimming stops at the clef top: every row above the result is blank, and the result row is not blank unless it is the clef top |
| StaffStrings.TrimBottom | displayUtilLibrary.py:142-144 | bottom trimming stops at the clef bottom: every row below the result is blank, and the result row is not blank unless it is the clef bottom |
| StaffStrings.KeptIsTrim | displayUtilLibrary.py:133-147 | the rows `__str__` keeps are exactly the band from the first non-blank row above the clef to the last one below it, and no other bounds meet that description |
| StaffStrings.ToString | displayUtilLibrary.py:139-161 | a width-0 buffer prints as ""; otherwise the output is the kept rows joined by newlines, followed by "\n\n" |
| Legends.DefaultLegend | typeLibrary.py:444-450 | the initial legend is well formed and its timing is not loaded |
| Legends.LengthsArePowers | typeLibrary.py:464-471 | the eight durations are 1, 1/2, ..., 1/128, each half the one before |
| Legends.LoadTimingData | typeLibrary.py:461-472 | loading fails (IndexError) exactly for fewer than ten symbols; otherwise symbol 0 is the tie, symbol 1 the dot, symbol k names duration k-2, other entries are kept, and all symbols become allowed timing characters |
| Legends.DefaultSymbolsLoad | typeLibrary.py:461-472 | the default symbols "+.WHQESTFO" load into a well-formed legend in which 'Q' is a quarter note |
| Legends.LoadPlayingLegend | typeLibrary.py:480-481 | the playing characters are added to the allowed ones and nothing else changes |
| Notes.StringOffset | typeLibrary.py:51-58 | the open strings are E=0, A=5, D=10, G=15 semitones, each a multiple of 5 |
| Notes.NewNote | typeLibrary.py:42-70 | a note exists exactly for fret 0..36 on G, D, A or E, otherwise TabFileException; with h = fret + string offset, the staff position is 7·(h div 12) plus the count of naturals in h mod 12, negated exactly for a sharp pitch class |
| Notes.StaffPosCountsNaturals | typeLibrary.py:62-68 | the staff position's magnitude is the number of natural half steps climbed from the open E up to pitch h |
| Notes.NaturalsMonotone | typeLibrary.py:62-68 | that count never decreases as the pitch rises |
| Notes.StaffPosMonotone | typeLibrary.py:62-68 | a higher pitch never sits lower on the staff |
| Notes.NoAdjacentSharps | typeLibrary.py:62-68 | no two neighbouring pitch classes are both sharps |
| Notes.SamePositionAdjacent | typeLibrary.py:62-68 | two different pitches share a staff line only as a natural and the sharp just above it |
| Notes.StaffPosInjective | typeLibrary.py:62-68 | the signed staff position identifies the pitch: equal positions iff equal pitches |
| Notes.NotePositionBound | typeLibrary.py:42-68 | no valid note is more than 30 rows from the top, and only G fret 36 is exactly 30 |
| Notes.SharpIffClass | typeLibrary.py:62-76 | `isSharp` holds exactly for pitches in the classes 2, 4, 6, 9, 11 |
| Notes.UnisonAcrossStrings | typeLibrary.py:86-87 | E fret 5 and A fret 0 are equal notes although they are different values |
| Notes.SameNoteIffSamePitch | typeLibrary.py:86-87 | `==` on notes holds exactly when the two sound the same pitch |
| Slices.MaxAbs | typeLibrary.py:145-146 | `maxStaffPos` is the largest note row magnitude, and -1 exactly for no notes |
| Slices.MinAbs | typeLibrary.py:147-148 | `minStaffPos` is the smallest note row magnitude, and the staff height for no notes |
| Slices.EmptySlice | typeLibrary.py:118-128 | a new slice has no notes, no dots, no ties and the no-timing symbol, with length 0 under a well-formed legend |
| Slices.AddNote | typeLibrary.py:139-148 | adding succeeds exactly when the note can be built; the note is appended, the row and sharp summaries stay exact, and the timing fields do not change |
| Slices.SetLength | typeLibrary.py:187-191 | a symbol is accepted exactly when it is in the legend; it sets the symbol and length, the next dot being worth half the length |
| Slices.ApplyDot | typeLibrary.py:155-160 | a dot adds one to the dot count and the next dot's worth to the length, then halves that worth, so length + 2·next dot worth is unchanged |
| Slices.DotsConserve | typeLibrary.py:155-160 | after n dots the count rises by n, length + 2·next dot worth is unchanged, and the next dot is worth 2^-n of what it was |
| Slices.DottedLength | typeLibrary.py:155-191 | `setLength(s)` followed by n dots gives length L·(2 - 2^-n) for the symbol's length L |
| Slices.DotWithoutLength | typeLibrary.py:155-157 | the guard against dotting an unset length never triggers: a dot on a fresh slice is counted and adds nothing |
| Slices.RestAfterSetLength | typeLibrary.py:202-203 | a fresh slice is no rest; after `setLength` it is a rest exactly when the length is not 0 |
| Slices.Tie | typeLibrary.py:343-350 | a tie succeeds exactly when both slices hold the same number of notes on the same rows; then only the first slice's tie-begins and the second's tie-ends flags are set, otherwise a TabException |
| Slices.TieSymmetric | typeLibrary.py:343-350 | whether two slices can be tied does not depend on their order |
| Slices.TieSameFrets | typeLibrary.py:343-350 | slices with pairwise equal note rows can always be tied |
| SliceRender.DefaultColumns | typeLibrary.py:295-301 | a slice's background is n default columns: '-' on even clef rows and ' ' elsewhere |
| SliceRender.FillUpper | typeLibrary.py:214-229 | upper ledger lines are written on exactly the even rows from the given row down to the clef top |
| SliceRender.FillLower | typeLibrary.py:214-229 | lower ledger lines are written on exactly the even rows below the clef bottom down to the given row |
| SliceRender.FillLedger | typeLibrary.py:214-229 | a row becomes a ledger line exactly when it is a ledger row of the slice; other rows are kept |
| SliceRender.NoLedgerWithoutNotes | typeLibrary.py:214-229 | a slice with no notes gets no ledger lines |
| SliceRender.LedgerPlacement | typeLibrary.py:214-229 | ledger lines sit only on even rows outside the clef band and between the band and the farthest note |
| SliceRender.NoteText | typeLibrary.py:239-270 | a note row is its padding character, the note glyph, a sharp when the note is sharp, one dot glyph per dot, then padding to the slice width |
| SliceRender.RestText | typeLibrary.py:243-248 | a rest is drawn as '-', the rest glyph, one dot glyph per dot, '-' |
| SliceRender.LoadNotes | typeLibrary.py:239-270 | each row holding a note shows the last note written on it, and every other row is kept |
| SliceRender.Mark | typeLibrary.py:280-290 | a tie mark overwrites only the last character of a row (tie begins) or only the first (tie ends) |
| SliceRender.MarkIdempotent | typeLibrary.py:280-290 | marking a row twice changes nothing further |
| SliceRender.MarkRows | typeLibrary.py:280-290 | tie marks go on exactly the rows that hold a note of the slice |
| SliceRender.SliceStaff | typeLibrary.py:295-307 | a slice is drawn 3 + [sharp] + dots columns wide, and each row is background, ledger, note or rest text, then tie marks |
| SliceRender.NoteRowShape | typeLibrary.py:239-307 | a drawn note row starts with the tie glyph or padding, then the note glyph and a sharp if any, and ends with the tie glyph exactly when a tie begins |
| Measures.EmptyMeasure | typeLibrary.py:363-365 | a new measure has no slices and length 0 |
| Measures.AddSlice | typeLibrary.py:373-375 | adding a slice appends it and adds its length, so the length stays the sum of the slices' lengths |
| Measures.Gap | typeLibrary.py:383-390 | a gap of g default columns widens every row by g |
| Measures.MeasureStaff | typeLibrary.py:383-390 | a measure is drawn as wide as its slices together plus the gap size for each slice that is not tied to the next |
| Measures.MeasureWidth | typeLibrary.py:383-390 | the width of the first k slices' drawing is their widths plus one gap per untied slice boundary |
| Measures.GapsOnlyWithoutTie | typeLibrary.py:383-390 | a gap follows a slice exactly when no tie begins on it |
| Songs.NewSong | typeLibrary.py:489-492 | a new song has no measures and no extra text |
| Songs.AddMeasure | typeLibrary.py:502-506 | a measure is appended exactly when its length is in [0, 1]; otherwise a MeasureException and the song is unchanged |
| Songs.Padded | typeLibrary.py:525-526 | the extra-text table is extended with empty entries up to the requested measure and nothing in it changes |
| Songs.WithCell | typeLibrary.py:524-530 | writing one cell of an entry leaves its other cells alone |
| Songs.PlaceExtraLine | typeLibrary.py:524-530 | only cell [measure][place] changes, after the table is padded; a following line is joined with a newline, and measures and gap size are untouched |
| Songs.ExtraTextAt | typeLibrary.py:548-551 | text is found exactly for a measure index inside the table |
| Songs.PlacedTextIsFound | typeLibrary.py:524-581 | after placing a non-empty line, the cell reports extra text and ends with that line |
| Songs.Extend | typeLibrary.py:598-605 | each measure adds its width plus one bar column, two more before the first measure and one more after the last |
| Songs.RenderStep | typeLibrary.py:595-614 | a measure either extends the current staff line and collects its start-of-line text, or flushes the line and starts over with a bar column |
| Songs.RenderPictures | typeLibrary.py:588-619 | printing fails exactly when the extra-text table has more than one entry past the last measure |
| Songs.Render | typeLibrary.py:588-619 | printing fails exactly when the extra-text table is too long; a song without measures prints only its leading text |
| Songs.EmptySongIsEmpty | typeLibrary.py:588-619 | a new song prints as "" |
| Songs.LeadingTextFirst | typeLibrary.py:593-594 | the text placed before the first measure always opens the output |
| Songs.UnflushedText | typeLibrary.py:595-616 | without extra text no line is ever flushed and no text is collected |
| Songs.SingleLineLayout | typeLibrary.py:588-619 | without extra text the song prints as one staff: two bars, then each measure followed by a bar, then one more bar |
| Scan.AddString | tabReader.py:170-184 | extending the array of one string appends to that array and leaves the other three as they were |
| Scan.SetString | parsingUtils.py:291-309 | assigning the array of one string replaces that array and leaves the other three as they were |
| Scan.FretText | parsingUtils.py:56-66 | the fret text is one digit, or two when the next character is a digit too |
| Scan.ParseNote | parsingUtils.py:56-66 | a digit adds one note with that fret (two digits when they follow each other, then skip is true) and fails exactly for a fret above 36; anything else leaves the slice alone |
| Scan.ParseWrittenFret | parsingUtils.py:56-66 | any fret 0..36 written in decimal is read back as that fret, with skip exactly for frets of two digits |
| Scan.ParseColumn | parsingUtils.py:109-117 | a column adds one note per string holding a digit, fails exactly when one of its frets is above 36, and skips when any string has two digits |
| Scan.DotRun | parsingUtils.py:102-105 | the dots counted are exactly the run of dot symbols right after the column |
| Scan.WithLast | parsingUtils.py:120-121 | re-flagging `lastSlice` changes it wherever it lives (held aside, in the open measure, or in the song) and nothing else |
| Scan.TieToLast | parsingUtils.py:120-121 | tying to `lastSlice` succeeds exactly when the notes match, flagging both sides |
| Scan.Append | parsingUtils.py:123-125 | the slice joins the open measure and becomes `lastSlice` |
| Scan.CloseMeasure | parsingUtils.py:131-133 | an empty measure is not stored; a non-empty one is added to the song if its length is in [0, 1], otherwise a MeasureException |
| Scan.AtBar | parsingUtils.py:128-134 | a triggered bar test needs bars on all four strings (TabFileException otherwise) and then closes the measure |
| Scan.Release | parsingUtils.py:144 | when the scan ends, `lastSlice` remains a slice of the song or is held aside |
| Scan.BuiltIsDrawable | typeLibrary.py:588-619 | every measure of a song the scanners build meets the precondition of drawing; printing can still fail on the extra-text bound of typeLibrary.py:591-592 |
| Scan.TieKeepsSound | parsingUtils.py:120-121 | a tie keeps every stored measure good and every length the sum of its slices |
| Scan.AppendKeepsSound | parsingUtils.py:123-125 | appending a drawable slice keeps the scan sound |
| Scan.CloseKeepsSound | parsingUtils.py:131-133 | closing a measure keeps the scan sound |
| ParsingUtils.ColumnSlice | parsingUtils.py:100-117 | a timed column gets its symbol's length and one dot per following dot symbol; frets are read only with no timing or a timed column, and reading fails exactly on a fret above 36 |
| ParsingUtils.Advance | parsingUtils.py:138-143 | the cursor moves on by the dot count if any, else 2 after a two-digit fret, else 1, and always by at least 1 |
| ParsingUtils.TieStep | parsingUtils.py:120-121 | a timed column after the tie symbol must tie to `lastSlice` (TabException otherwise); no other column ties |
| ParsingUtils.Place | parsingUtils.py:123-134 | a rest or a slice with notes is appended; any other column goes through the bar test that ignores A |
| ParsingUtils.Step | parsingUtils.py:94-143 | one column: the scan stays sound, a new measure appears only at a column of four bars, and the cursor advances as `Advance` says without passing the end of the arrays |
| ParsingUtils.ScanFrom | parsingUtils.py:91-144 | scanning the remaining columns keeps the song buildable and only adds measures; without bars on G no measure is added |
| ParsingUtils.UpdateSong | parsingUtils.py:91-144 | one group's scan adds only good measures and keeps the extra text and gap size; a group with no bar on G adds no measure |
| ParsingUtils.ALoneBarIgnored | parsingUtils.py:128 | a bar on the A string alone passes unnoticed |
| ParsingUtils.BrokenBarRejected | parsingUtils.py:128-130 | a bar on G without a bar on D is an improper measure line |
| ParsingUtils.RunLength | parsingUtils.py:38-39 | the run of allowed characters from a position is maximal |
| ParsingUtils.ExtractStringData | parsingUtils.py:38-39 | a match splits the line into prefix, string data and rest; the prefix has no bar, and the data is a bar, allowed characters, and a bar |
| ParsingUtils.ExtractIsGreedyMatch | parsingUtils.py:38-39 | whenever any split exists the match is found, starts at the first bar, and ends at the farthest possible bar |
| ParsingUtils.NoMatchNoSplit | parsingUtils.py:38-39 | no match means no split of the line exists |
| ParsingUtils.CheckChrToStringName | parsingUtils.py:156-160 | a character passes exactly when the name is a string name and the two are equal; a mismatch is a TabFileException; a name outside the string names, which no caller passes, is a NameError because `TabException` is not imported |
| ParsingUtils.RemoveStringName | parsingUtils.py:177-186 | a last character that is the whole text or follows whitespace must be the expected name in either case and is removed; other text is returned unchanged |
| ParsingUtils.RemoveWrittenName | parsingUtils.py:177-186 | a caption followed by the string's name gives the caption back |
| ParsingUtils.SaveSameLineExtraText | parsingUtils.py:198-205 | a blank fragment is ignored; otherwise it is stripped and appended, after ';' when text is already saved |
| ParsingUtils.SaveAllJoins | parsingUtils.py:198-205 | saving fragments one by one gives the non-blank fragments, stripped, joined by ';' |
| ParsingUtils.Drop | parsingUtils.py:299 | `notes[trim:]` drops the first `trim` characters, or everything when there are fewer |
| ParsingUtils.StringData | parsingUtils.py:276-298 | with extra text the data is the string data of the regular-expression match, and its absence is detected; without, it is the left-stripped line |
| ParsingUtils.ExtraStringData | parsingUtils.py:278-285 | the data is the match's middle part and the trim its prefix's length; saved text changes only when extra text is kept |
| ParsingUtils.PlainStringData | parsingUtils.py:287-290 | the data is the left-stripped line and the trim the whitespace removed; it fails exactly for an empty line or a leading letter that is not the string's name |
| ParsingUtils.StoreString | parsingUtils.py:291-329 | a string line replaces its own array and keeps the other three; the D and A lines, and the G line without timing, change nothing else; the timed G line realigns the timing array to it; the E line fails unless all arrays have one length |
| ParsingUtils.CloseGroup | parsingUtils.py:309-328 | a group is scanned only when its arrays (and the timing array) have one length, and the saved texts are cleared |
| ParsingUtils.ReadLine | parsingUtils.py:259-389 | one line counts as at most one timing or string line, a blank line never counts, and the song stays buildable |
| ParsingUtils.ReadTimingSlot | parsingUtils.py:268-274 | where a timing line is due, a line counts exactly when it is a timing line, and it becomes the timing array |
| ParsingUtils.ReadStringSlot | parsingUtils.py:275-334 | where a string line is due, a line counts at most once and always counts without extra text; with extra text a line that is read counts exactly when `extractStringData` matches |
| ParsingUtils.ReadStringSlotStores | parsingUtils.py:276-309 | a line that counts stores, as its string's array, the data `extractStringData` finds with extra text and the left-stripped line without |
| ParsingUtils.ReadStringSlotUnmatched | parsingUtils.py:330-386 | with extra text, an unmatched line is start-of-line text before the next measure (following text after the last measure for an untimed G slot) when extra text is kept, and otherwise changes nothing |
| ParsingUtils.ReadLines | parsingUtils.py:253-389 | the count of lines taken grows by at most one per line, and a blank file adds no measure and counts no line |
| ParsingUtils.BuildSong | parsingUtils.py:234-397 | with timing and no loaded legend it fails at once, a configuration error at line 6 (the TIMING_SYMBOLS option's line); on success the count of lines taken is a whole number of groups and every added measure is good |
| ParsingUtils.BarlessGroupUnprintable | parsingUtils.py:316-327 | a group with no bar on G adds no measure after its start text opened the entry after the next measure, so the song meets the drawing precondition yet printing it is a TabFileException (typeLibrary.py:591-592) |
| ParsingUtils.TooMuchTextUnprintable | typeLibrary.py:591-592 | a built song with more extra-text entries than its measures plus one meets the drawing precondition, yet printing it is a TabFileException |
| ParsingUtils.BlankFileAddsNothing | parsingUtils.py:259-265 | a file of blank lines adds no measure and takes no line |
| TabParser.Shorten | tabParser.py:175-181 | the cut runs from the first bar to the last one when they are at least two apart, and is a piece of the line at the returned offset; otherwise the line is returned with offset 0 |
| TabParser.ShortenIdempotent | tabParser.py:175-181 | shortening twice is shortening once |
| TabParser.TimeSlice | tabParser.py:143-151 | a slice with notes needs a legend symbol at its column, ties to `lastSlice` after the tie symbol, and takes the dots that follow |
| TabParser.Step | tabParser.py:119-161 | a column fails on a fret above 36, advances 2 after a two-digit fret and 1 otherwise, keeps the scan sound, and adds a measure only at a full bar |
| TabParser.NoteFreeColumn | tabParser.py:123-141 | a column without a digit adds no slice: it only goes through the bar test and moves the cursor one column |
| TabParser.ScanRange | tabParser.py:118-161 | scanning to the end keeps the scan sound and only adds measures |
| TabParser.UpdateSong | tabParser.py:116-162 | scanning the new columns adds only good measures; from past the end it changes nothing |
| TabParser.ALoneBarIgnored | tabParser.py:135-136 | a bar on the A string alone passes unnoticed |
| TabParser.Realign | tabParser.py:255-266 | the G line deletes `front` timing characters at `nextUpdate` (IndexError past the end) and pads with spaces to the G array's length |
| TabParser.StoreString | tabParser.py:254-277 | each string line extends its own array; a timed G line leaves the timing array exactly as `Realign` makes it, other lines leave it alone; the E line fails unless all arrays have one length |
| TabParser.CloseGroup | tabParser.py:271-276 | the group is scanned only when its arrays have one length |
| TabParser.ExtraLine | tabParser.py:231-232 | keeping a line as extra text always fails: `placeExtraLine` is called with one argument |
| TabParser.ReadLine | tabParser.py:228-306 | a blank line between groups fails, a blank line inside a group is ignored; any other line that is read counts once; a line that is not the due timing or simple string line fails with the one-argument `placeExtraLine` call; a taken timing line is appended to the timing array with `nextUpdate` at its start, and a taken string line is appended to its string array |
| TabParser.ReadLines | tabParser.py:222-306 | each line counts at most once and the song stays buildable |
| TabParser.Start | tabParser.py:207-221 | the parser starts with empty arrays and nothing counted |
| TabParser.BuildSong | tabParser.py:206-314 | on success the count of lines taken is a whole number of groups and every added measure is good |
| TabParser.LeadingBlankLineFails | tabParser.py:229-232 | a file that opens with a blank line is never read |
| TabParser.PlainLinesAllCount | tabParser.py:236-303 | without extra text every non-blank line counts |
| TabReader.NoteLinesAgree | tabReader.py:118-121 | a non-empty timing line of the later parser is one here too |
| TabReader.StringLinesAgree | tabReader.py:135-138 | a string line here without parentheses or blanks is a simple string line of the later parser |
| TabReader.BuildSong | tabReader.py:64-104 | one scan of all columns keeps the song buildable and only adds measures |
| TabReader.BarWithoutGIgnored | tabReader.py:82-88 | bars on D, A and E pass unnoticed without a bar on G |
| TabReader.PadNotes | tabReader.py:172-178 | the timing array is padded with one space per character the G line has beyond the last timing line |
| TabReader.LoadLine | tabReader.py:160-197 | a line counts exactly when it is the timing line or string line that is due, and otherwise changes nothing; a counted timing line is appended to the timing array and sets its length as the last one, a counted string line is appended to its own array, and a G line pads the timing array with `PadNotes` |
| TabReader.LoadAll | tabReader.py:157-197 | each line counts at most once |
| TabReader.LoadLinesIntoLists | tabReader.py:157-212 | the arrays returned are the ones the line loop collects, and they have one length; it fails exactly when timing is on and the count is not a multiple of 20, or the arrays differ in length |
| TabReader.CheckLists | tabReader.py:199-212 | the checks after the loop refuse exactly a timed count that is not a multiple of 20 and arrays of unequal length, and otherwise return the arrays unchanged |
| TabReader.MultipleOfTwenty | tabReader.py:199 | testing a count against 5 and against 4 is the same as testing it against 20 |
| TabReader.UntimedCountUnchecked | tabReader.py:199-205 | without timing only unequal arrays are refused |
| TabReader.OneTimedGroupRefused | tabReader.py:199-205 | a single complete timed group of five lines is refused |
| ConfigText.RemoveSpace | configUtilLibrary.py:98 | removing whitespace keeps exactly the other characters; one character is kept or dropped as it is whitespace or not |
| ConfigText.RemoveSpaceConcat | configUtilLibrary.py:98 | removing whitespace distributes over concatenation, so the kept characters stay in their order |
| ConfigText.NormaliseLine | configUtilLibrary.py:96-104 | a line opening with '#' or left empty is dropped; otherwise whitespace is removed and a '#' after the first position cuts the rest |
| ConfigText.NormaliseIdempotent | configUtilLibrary.py:96-104 | normalising a kept line again changes nothing |
| ConfigText.IndentedCommentKept | configUtilLibrary.py:97-98 | a '#' comment after whitespace is kept as a setting line |
| ConfigText.LoadLines | configUtilLibrary.py:96-104 | every stored line is normalised, with no more lines than read |
| ConfigText.ReloadStable | configUtilLibrary.py:96-104 | loading the stored lines again stores the same lines |
| ConfigText.LoadLinesAppend | configUtilLibrary.py:96-104 | loading two runs of lines stores the first run's lines, then the second's |
| ConfigText.LoadPlain | configUtilLibrary.py:96-104 | lines without whitespace or '#' are stored unchanged |
| ConfigText.LoadComments | configUtilLibrary.py:97 | lines opening with '#' are all dropped |
| ConfigText.SettingOf | configUtilLibrary.py:128-133 | a setting line must open with the name, and its first '=' must follow directly; the value is what comes after |
| ConfigText.SettingRoundTrip | configUtilLibrary.py:128-133 | name=value gives the value back |
| ConfigText.ParseFlag | configUtilLibrary.py:143-148 | exactly "true" and "false" are flags |
| ConfigText.FlagRoundTrip | configUtilLibrary.py:143-146 | a flag's text reads back as that flag, and only that text does |
| ConfigText.ParseInt | configUtilLibrary.py:158 | `int()` accepts a sign and digits, giving their decimal value with the sign |
| ConfigText.ParseCount | configUtilLibrary.py:157-160 | a count is an integer that is not negative |
| ConfigText.CountRoundTrip | configUtilLibrary.py:155-165 | every count reads back from its decimal text, and a minus sign is refused unless the count is 0 |
| ConfigText.CheckConfigFileLoaded | configUtilLibrary.py:79-81 | the check passes exactly when some line is stored, and fails with "config file not loaded" otherwise; configUtils.py:49-51 is the same check |
| ConfigLibrary.OptionNumbering | configUtilLibrary.py:24-31 | the seven options are numbered 0..6 without repeats, each in its place in the option list |
| ConfigLibrary.NewReader | configUtilLibrary.py:62-66 | a new reader has no lines and no settings read |
| ConfigLibrary.Open | configUtilLibrary.py:92-106 | opening a file appends its normalised lines and keeps the settings |
| ConfigLibrary.ReadSetting | configUtilLibrary.py:124-133 | an option's value is read from the line with its number when that line opens with name=; errors give the option number plus one as the line, and a missing line is a NameError |
| ConfigLibrary.ReadSettingRoundTrip | configUtilLibrary.py:124-133 | name=value stored at the option's number reads back as value |
| ConfigLibrary.ReadFlag | configUtilLibrary.py:141-148 | a flag option is recorded exactly for "true" or "false", and only that option changes |
| ConfigLibrary.ReadCount | configUtilLibrary.py:155-165 | a count option is recorded exactly for an integer that is not negative |
| ConfigLibrary.ReadPlayingLegend | configUtilLibrary.py:203-208 | the playing legend is recorded exactly when it holds no space or digit (the stored value never holds whitespace anyway) |
| ConfigLibrary.CharSetCard | configUtilLibrary.py:217 | a text has as many different characters as it has characters exactly when they are all different |
| ConfigLibrary.ReadTimingSymbolsList | configUtilLibrary.py:215-219 | the timing symbols are recorded exactly when they are ten different characters |
| ConfigLibrary.AcceptedSymbolsLoad | configUtilLibrary.py:215-219 | accepted timing symbols always load into the legend, with tie, dot and the eight durations in order |
| ConfigLibrary.CheckIfOptionRead | configUtilLibrary.py:264-266 | the check passes exactly when the option was read |
| ConfigLibrary.GetSettingForOption | configUtilLibrary.py:276-278 | a setting is returned exactly when it was read, and it is the recorded one |
| ConfigLibrary.ReadKeepExtra | configUtilLibrary.py:232-242 | keeping extra text needs the has-extra option read first, and "true" is refused unless extra text is present |
| ConfigLibrary.ReadThenGet | configUtilLibrary.py:264-278 | a setting just read is what `getSettingForOption` returns |
| ConfigLibrary.DefaultSettingLines | configUtilLibrary.py:297-312 | the default file holds the seven options in order, each as name=default |
| ConfigLibrary.DefaultLinesLoad | configUtilLibrary.py:297-312 | loading the default file stores exactly its seven setting lines |
| ConfigLibrary.DefaultSettingsRead | configUtilLibrary.py:283-312 | each option reads back its default value from those lines |
| ConfigLibrary.DefaultConfigReads | configUtilLibrary.py:283-312 | reading all options of the default file succeeds with the default settings |
| ConfigUtils.ReadConfigFile | configUtils.py:62-81 | the file's normalised lines are appended to the stored ones |
| ConfigUtils.GetSetting | configUtils.py:92-99 | the stored line at the index must open with id=; the value follows it; errors give the index as the line, and an index past the end is an IndexError |
| ConfigUtils.GetTiming | configUtils.py:107-114 | the timing setting is exactly "true" or "false" |
| ConfigUtils.GetGapsize | configUtils.py:121-131 | the gap size is an integer that is not negative |
| ConfigUtils.ConfigRoundTrip | configUtils.py:138-142 | a file written like the default one, with any flag and gap size, reads back with those values |
| ConfigUtils.SeparatorIsWhitespace | configUtils.py:68 | setting lines that end in one of the separators 0x1C-0x1F read back their values, since `split()` drops them as whitespace |

### Behaviours of the code that the model keeps

These are reproduced as written, not corrected:

- The bar test of parsingUtils.py:128 and tabParser.py:135 compares the whole A array with "|". That is never true, so a bar on the A string alone is not seen (`ParsingUtils.ALoneBarIgnored`, `TabParser.ALoneBarIgnored`).
- The guard of `applyDot` at typeLibrary.py:156 compares a length with a list and never fires (`Slices.DotWithoutLength`).
- The count check of tabReader.py:199 tests `hasTiming` twice. With timing, a count must be a multiple of 20. Without timing, the count is never checked (`TabReader.OneTimedGroupRefused`, `TabReader.UntimedCountUnchecked`).
- configUtilLibrary.py:127 names an undefined `lines`. When there are too few stored lines, `readSetting` raises a NameError (`ConfigLibrary.ReadSetting`).
- `Song.STRING_NAMES` is used by parsingUtils.py but not defined in typeLibrary.py. It is taken to be "GDAE" (`ParsingUtils.StringNames`).
- tabParser.py calls `placeExtraLine` with the line alone, while the method takes three arguments. Every such call fails (`TabParser.ExtraLine`, `TabParser.LeadingBlankLineFails`).
- `readKeepExtra` reports its conflict at line 0.
- configUtils.py reports a setting error at the stored index itself. `getTiming` and `getGapsize` report lines 1 and 2.
- Comment detection tests the raw line. A '#' after leading whitespace is kept as a setting line (`ConfigText.IndentedCommentKept`).
- tabReader.py's bar test looks at the G string only (`TabReader.BarWithoutGIgnored`).
- parsingUtils.py:321 and 370 place the start text, even when it is empty, at the entry after the next measure before `updateSong` runs. A group with no bar on G then adds no measure, and the song holds at least two extra-text entries more than it has measures. Printing it raises the TabFileException of typeLibrary.py:591-592 (`ParsingUtils.BarlessGroupUnprintable`).
- parsingUtils.py:10 imports `ConfigOptionID` from configUtils.py, while the enum is defined at configUtilLibrary.py:24. The name is taken as resolved to that enum, so the legend error of parsingUtils.py:248 is reported at line 6.
- tabReader.py:13 imports `TabIOException`, which exceptionsLibrary.py does not define. The import is taken as resolved; the exception is only raised by the file access that is left out.
- parsingUtils.py:158 raises `TabException`, which parsingUtils.py:9 does not import. The branch would raise a NameError; no caller reaches it, since every caller passes a string name (`ParsingUtils.CheckChrToStringName`).

## Left out

- Logging (loggingUtils.py) and all console output: no behaviour of the core depends on it.
- File access: reading the tab and configuration files, `configFileFound`, and writing the default configuration file. A file is a sequence of lines, and the default file's comment lines are a parameter.
- tabReader.py `run` and the module-level script: argument handling, timing and HTML output.
- The message text of the exceptions. An error is a constructor of `Results.Error` with a short reason. The exceptions' own constructor arity (one argument, while callers pass two or three) is not modelled: the error kind is kept instead.
- Unicode digits, letters and whitespace beyond ASCII, Unicode case mapping (the `isalpha` and `upper` of parsingUtils.py:179, 289-290 and 349-350 are the ASCII ones), and the underscores and surrounding whitespace that Python's `int()` also accepts.
- The identity of the note, rest, sharp, dot and tie glyphs: they are opaque characters.
- The branch of `StaffString.__str__` for columns holding "\n", and `newLineStaffString`: no code of the modelled core puts such a column into a buffer.
- `Song.getCorrMeasureStaffStr` and the other `Song` accessors that only print.
- The configuration getters that tabParser.py calls (`isTimingSupplied` and the like) do not exist in the configuration library. Its options are therefore a parameter (`TabParser.ParserOptions`), and the link to a configuration file is not modelled.
- Python's regular-expression engine: `isTimingLine`, `extractStringData` and the legend character classes are explicit character-set predicates and splits.
- Floating point: every duration is a power of two, so exact `real` arithmetic is used.
- ParsingUtils.BuildSong: states soundness, the group count and the up-front legend check, not the exact song built.
- ParsingUtils.ReadLines: states the count bounds and soundness, not the exact song built.
- ParsingUtils.UpdateSong: states that a group without a bar on G adds no measure, but not in general that the slices after the group's last full bar stay out of the song; the measure still open when the scan ends is discarded by the definition, and no contract names it.
- ParsingUtils.ScanFrom: states soundness and the measures kept, not the exact slices built.
- TabParser.BuildSong: states soundness and the group count, not the exact song built.
- TabParser.ReadLines: states the count bounds and soundness, not the exact song built.
- TabReader.BuildSong: states soundness, not the exact song built.
- TabReader.LoadAll: states the count bounds, not the arrays' contents.
