/** The process-wide timing and playing legend of typeLibrary.py (the static
    members of `Song`), as one immutable value that is built once from the
    configuration and then passed to the parser and the renderer. */
module Legends {
  import opened Results
  import opened Chars

  /** The key under which the "no timing given" entry is stored. */
  const NoTimingSymbol: char := '\U{2022}'

  /** One legend entry: the duration as a fraction of a whole measure, the
      note glyph and the rest glyph. */
  datatype TimingEntry = TimingEntry(length: real, noteGlyph: char, restGlyph: char)

  datatype Legend = Legend(
    timing: map<char, TimingEntry>,
    tieSymbol: Option<char>,
    dotSymbol: Option<char>,
    timingChars: set<char>,     // characters a timing line may hold
    playingChars: set<char>)    // characters string data may hold
  {
    /** The no-timing entry is present and has length 0. */
    predicate WellFormed() {
      NoTimingSymbol in timing && timing[NoTimingSymbol].length == 0.0
    }

    /** What `buildSong` checks before parsing a tab that carries timing:
        duration symbols were added and a tie and a dot symbol are set. */
    predicate TimingLoaded() {
      |timing| != 1 && tieSymbol.Some? && dotSymbol.Some?
    }

    function NoTimingLength(): real
      requires NoTimingSymbol in timing
    {
      timing[NoTimingSymbol].length
    }
  }

  const Digits: set<char> := {'0', '1', '2', '3', '4', '5', '6', '7', '8', '9'}

  /** The legend before any configuration is loaded. The source stores no
      rest glyph for the no-timing entry; the model repeats the note glyph
      there, which is never read because a slice with that symbol is never
      a rest. */
  function DefaultLegend(): (l: Legend)
    ensures l.WellFormed() && !l.TimingLoaded()
  {
    Legend(map[NoTimingSymbol := TimingEntry(0.0, NoTimingSymbol, NoTimingSymbol)],
           None, None, {' '}, Digits + {'-', '|'})
  }

  function Pow2(n: nat): (p: nat)
    ensures p >= 1
  {
    if n == 0 then 1 else 2 * Pow2(n - 1)
  }

  /** Glyphs of the whole, half, ..., 128th note and rest. */
  const NoteGlyphs: seq<char> := ['\U{1D15D}', '\U{1D15E}', '\U{1D15F}', '\U{1D160}',
                                  '\U{1D161}', '\U{1D162}', '\U{1D163}', '\U{1D164}']
  const RestGlyphs: seq<char> := ['\U{1D13B}', '\U{1D13C}', '\U{1D13D}', '\U{1D13E}',
                                  '\U{1D13F}', '\U{1D140}', '\U{1D141}', '\U{1D142}']

  /** The lengths written out in the legend, whole note first. */
  const Lengths: seq<real> := [1.0, 0.5, 0.25, 0.125, 0.0625, 0.03125, 0.015625, 0.0078125]

  /** The entry of the `k`-th duration symbol, k = 0 for the whole note. */
  function DurationEntry(k: nat): TimingEntry
    requires k < 8
  {
    TimingEntry(Lengths[k], NoteGlyphs[k], RestGlyphs[k])
  }

  /** The written-out lengths are the successive halvings of a whole
      measure: the `k`-th lasts 1/2^k. */
  lemma LengthsArePowers(k: nat)
    requires k < 8
    ensures DurationEntry(k).length * (Pow2(k) as real) == 1.0
    ensures k > 0 ==> DurationEntry(k).length * 2.0 == DurationEntry(k - 1).length
  {
    assert Pow2(1) == 2 && Pow2(2) == 4 && Pow2(3) == 8 && Pow2(4) == 16;
    assert Pow2(5) == 32 && Pow2(6) == 64 && Pow2(7) == 128;
  }

  /** No character occurs twice in `s`. */
  predicate Distinct(s: string) {
    forall i, j :: 0 <= i < j < |s| ==> s[i] != s[j]
  }

  /** `Song.loadTimingDataFromSymbolList`: symbol 0 is the tie, symbol 1 the
      dot, symbols 2..9 the durations from the whole note down to the 128th
      note, stored one after the other (a later duplicate overwrites an
      earlier one); every symbol becomes an allowed timing-line character. */
  function LoadTimingData(l: Legend, symbols: string): (r: Result<Legend>)
    ensures r.Err? <==> |symbols| < 10
    ensures r.Err? ==> r.error.IndexError?
    ensures r.Ok? ==> r.value.tieSymbol == Some(symbols[0]) && r.value.dotSymbol == Some(symbols[1])
    ensures r.Ok? ==> r.value.timing.Keys == l.timing.Keys + set k | 2 <= k < 10 :: symbols[k]
    ensures r.Ok? && Distinct(symbols[2..10]) ==> forall k :: 2 <= k < 10 ==>
      r.value.timing[symbols[k]] == DurationEntry(k - 2)
    ensures r.Ok? ==> forall c :: c in l.timing && c !in symbols[2..10] ==> r.value.timing[c] == l.timing[c]
    ensures r.Ok? ==> r.value.timingChars == l.timingChars + set k | 0 <= k < |symbols| :: symbols[k]
    ensures r.Ok? ==> r.value.playingChars == l.playingChars
    ensures r.Ok? && l.WellFormed() && NoTimingSymbol !in symbols[2..10] ==> r.value.WellFormed()
  {
    if |symbols| < 10 then Err(IndexError("symbol list shorter than 10"))
    else
      var t := l.timing[symbols[2] := DurationEntry(0)][symbols[3] := DurationEntry(1)]
                       [symbols[4] := DurationEntry(2)][symbols[5] := DurationEntry(3)]
                       [symbols[6] := DurationEntry(4)][symbols[7] := DurationEntry(5)]
                       [symbols[8] := DurationEntry(6)][symbols[9] := DurationEntry(7)];
      assert forall c :: c in symbols[2..10] <==> exists k :: 2 <= k < 10 && symbols[k] == c by {
        forall c ensures c in symbols[2..10] <==> exists k :: 2 <= k < 10 && symbols[k] == c {
          if c in symbols[2..10] {
            var i :| 0 <= i < 8 && symbols[2..10][i] == c;
            assert symbols[i + 2] == c;
          }
        }
      }
      Ok(l.(timing := t,
            tieSymbol := Some(symbols[0]),
            dotSymbol := Some(symbols[1]),
            timingChars := l.timingChars + set k | 0 <= k < |symbols| :: symbols[k]))
  }

  /** `Song.loadPlayingLegend`: the legend's characters become allowed in
      string data. */
  function LoadPlayingLegend(l: Legend, playing: string): (r: Legend)
    ensures r.playingChars == l.playingChars + set k | 0 <= k < |playing| :: playing[k]
    ensures r.timing == l.timing && r.timingChars == l.timingChars
    ensures r.tieSymbol == l.tieSymbol && r.dotSymbol == l.dotSymbol
  {
    l.(playingChars := l.playingChars + set k | 0 <= k < |playing| :: playing[k])
  }

  /** The default symbol list "+.WHQESTFO" loads a legend in which the
      quarter note 'Q' lasts a quarter of a measure. */
  lemma DefaultSymbolsLoad()
    ensures LoadTimingData(DefaultLegend(), "+.WHQESTFO").Ok?
    ensures var l := LoadTimingData(DefaultLegend(), "+.WHQESTFO").value;
      && l.WellFormed() && l.TimingLoaded()
      && 'Q' in l.timing && l.timing['Q'].length == 0.25
  {
    var s := "+.WHQESTFO";
    var r := LoadTimingData(DefaultLegend(), s);
    var l := r.value;
    assert s[2] == 'W' && s[4] == 'Q';
    assert s[5] == 'E' && s[6] == 'S' && s[7] == 'T' && s[8] == 'F' && s[9] == 'O';
    assert l.timing['Q'] == DurationEntry(2);
    assert {NoTimingSymbol, 'W'} <= l.timing.Keys;
    SubsetCard({NoTimingSymbol, 'W'}, l.timing.Keys);
    assert s[3] == 'H';
    assert NoTimingSymbol !in s[2..10];
  }

  lemma SubsetCard<T>(a: set<T>, b: set<T>)
    requires a <= b
    ensures |a| <= |b|
  {
    if a != {} {
      var x :| x in a;
      SubsetCard(a - {x}, b - {x});
    }
  }
}
