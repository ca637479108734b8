/** The `Measure` class of typeLibrary.py: an ordered list of slices, their
    summed length, and the staff picture of the slices separated by gaps. */
module Measures {
  import opened Legends
  import opened Slices
  import opened SliceRender
  import opened StaffStrings
  import opened Chars

  datatype Measure = Measure(slices: seq<Slice>, length: real)

  /** The sum of the lengths of `slices`. */
  function TotalLength(slices: seq<Slice>): real {
    if |slices| == 0 then 0.0 else TotalLength(slices[..|slices| - 1]) + slices[|slices| - 1].length
  }

  /** `Measure()`. */
  function EmptyMeasure(): (m: Measure)
    ensures |m.slices| == 0 && m.length == TotalLength(m.slices)
  {
    Measure([], 0.0)
  }

  /** `addSlice`: appends the slice and adds its length, so the measure
      length stays the sum of its slices' lengths. */
  function AddSlice(m: Measure, sl: Slice): (r: Measure)
    ensures r.slices == m.slices + [sl]
    ensures r.length == m.length + sl.length
    ensures m.length == TotalLength(m.slices) ==> r.length == TotalLength(r.slices)
  {
    assert (m.slices + [sl])[..|m.slices|] == m.slices;
    Measure(m.slices + [sl], m.length + sl.length)
  }

  /** `isEmpty`. */
  predicate IsEmpty(m: Measure) {
    |m.slices| == 0
  }

  /** What the renderer needs of a slice: it is summarised and its symbol
      is in the legend. */
  predicate Drawn(l: Legend, sl: Slice) {
    NoTimingSymbol in l.timing && sl.symbol in l.timing && Summarised(sl)
  }

  predicate AllDrawn(l: Legend, slices: seq<Slice>) {
    forall i :: 0 <= i < |slices| ==> Drawn(l, slices[i])
  }

  /** `g` unions of `StaffString()` after `s`. */
  function Gap(s: Staff, g: nat): (r: Staff)
    requires s.WellFormed()
    ensures r.WellFormed() && r.width == s.width + g
    ensures forall k :: 0 <= k < StaffHeight ==> r.rows[k] == s.rows[k] + Repeat(DefaultChar(k), g)
  {
    if g == 0 then s else Union(Gap(s, g - 1), DefaultColumn())
  }

  /** Whether a gap follows slice `i` of `slices`: not after the last slice
      and not after a slice that begins a tie. */
  predicate GapAfter(slices: seq<Slice>, i: int) {
    0 <= i < |slices| - 1 && !slices[i].tieBegins
  }

  /** The slice pictures of `slices`, one per slice. */
  function Pictures(l: Legend, slices: seq<Slice>): (pics: seq<Staff>)
    requires AllDrawn(l, slices)
    ensures |pics| == |slices|
    ensures forall i :: 0 <= i < |slices| ==> pics[i] == SliceStaff(l, slices[i])
  {
    seq(|slices|, i requires 0 <= i < |slices| => SliceStaff(l, slices[i]))
  }

  /** Each picture is the well-formed drawing of its slice, as wide as the
      slice. */
  predicate Fits(pics: seq<Staff>, slices: seq<Slice>) {
    |pics| == |slices| &&
    forall i :: 0 <= i < |pics| ==> pics[i].WellFormed() && pics[i].width == SliceWidth(slices[i])
  }

  /** The loop of `getStaffStr` after its first `k` iterations, given the
      slice pictures. */
  function LayoutUpTo(pics: seq<Staff>, slices: seq<Slice>, gapsize: nat, k: nat): (r: Staff)
    requires k <= |slices| && Fits(pics, slices)
    ensures r.WellFormed()
  {
    if k == 0 then EmptyStaff()
    else
      var a := Union(LayoutUpTo(pics, slices, gapsize, k - 1), pics[k - 1]);
      if GapAfter(slices, k - 1) then Gap(a, gapsize) else a
  }

  /** `getStaffStr(gapsize)`. */
  function MeasureStaff(l: Legend, m: Measure, gapsize: nat): (r: Staff)
    requires AllDrawn(l, m.slices)
    ensures r.WellFormed()
    ensures r.width == SumWidths(m.slices, |m.slices|) + gapsize * GapCount(m.slices, |m.slices|)
  {
    var pics := Pictures(l, m.slices);
    MeasureWidth(pics, m.slices, gapsize, |m.slices|);
    LayoutUpTo(pics, m.slices, gapsize, |m.slices|)
  }

  /** The widths of the first `k` slices, summed. */
  function SumWidths(slices: seq<Slice>, k: nat): nat
    requires k <= |slices|
  {
    if k == 0 then 0 else SumWidths(slices, k - 1) + SliceWidth(slices[k - 1])
  }

  /** How many of the first `k` slices are followed by a gap. */
  function GapCount(slices: seq<Slice>, k: nat): nat
    requires k <= |slices|
  {
    |set i | 0 <= i < k && GapAfter(slices, i)|
  }

  /** Counting gaps one slice at a time. */
  lemma GapCountStep(slices: seq<Slice>, k: nat)
    requires 0 < k <= |slices|
    ensures GapCount(slices, k) == GapCount(slices, k - 1) + (if GapAfter(slices, k - 1) then 1 else 0)
  {
    var prev := set i | 0 <= i < k - 1 && GapAfter(slices, i);
    var now := set i | 0 <= i < k && GapAfter(slices, i);
    if GapAfter(slices, k - 1) {
      assert now == prev + {k - 1};
    } else {
      assert now == prev;
    }
  }

  /** The measure is as wide as its slices plus `gapsize` columns for
      every slice that is followed by a gap. */
  lemma {:induction false} MeasureWidth(pics: seq<Staff>, slices: seq<Slice>, gapsize: nat, k: nat)
    requires k <= |slices| && Fits(pics, slices)
    ensures LayoutUpTo(pics, slices, gapsize, k).width == SumWidths(slices, k) + gapsize * GapCount(slices, k)
  {
    if k == 0 {
      assert (set i | 0 <= i < 0 && GapAfter(slices, i)) == {};
    } else {
      MeasureWidth(pics, slices, gapsize, k - 1);
      GapCountStep(slices, k);
      var w := LayoutUpTo(pics, slices, gapsize, k).width;
      var prev := LayoutUpTo(pics, slices, gapsize, k - 1).width;
      var extra := if GapAfter(slices, k - 1) then 1 else 0;
      assert w == prev + SliceWidth(slices[k - 1]) + gapsize * extra;
      ScaledStep(gapsize, GapCount(slices, k - 1), extra);
    }
  }

  lemma ScaledStep(g: nat, count: nat, extra: nat)
    ensures g * (count + extra) == g * count + g * extra
  {
  }

  /** Slices joined by a tie are drawn with no gap between them; every
      other pair of neighbours is separated by `gapsize` default columns. */
  lemma GapsOnlyWithoutTie(pics: seq<Staff>, slices: seq<Slice>, gapsize: nat, k: nat)
    requires 0 < k < |slices| && Fits(pics, slices)
    ensures slices[k - 1].tieBegins ==>
      LayoutUpTo(pics, slices, gapsize, k) == Union(LayoutUpTo(pics, slices, gapsize, k - 1), pics[k - 1])
    ensures !slices[k - 1].tieBegins ==>
      LayoutUpTo(pics, slices, gapsize, k) == Gap(Union(LayoutUpTo(pics, slices, gapsize, k - 1), pics[k - 1]), gapsize)
  {
  }
}
