/**
 * ReferencePlot: the bar profile of a calibration reference's concentrations over a
 * range of atomic ordinals. An ordinal whose series has no concentration repeats the
 * most recent value to its left (0 before the first one).
 *
 * The TransitionSeries constructor and CalibrationReference are not part of this
 * model: `make` builds the series of an element and shell, and the reference's
 * series of a shell are passed in.
 */
module ReferencePlots {
  import opened Types

  /** The series of the profile at position k: the element of ordinal start + k. */
  function ProfileKeys(elements: seq<Element>, tst: Shell, start: int, n: nat, make: (Element, Shell) -> Series)
    : (r: seq<Series>)
    requires 0 <= start && start + n <= |elements|
    ensures |r| == n
    ensures forall k :: 0 <= k < n ==> r[k] == make(elements[start + k], tst)
  {
    seq(n, k requires 0 <= k < n => make(elements[start + k], tst))
  }

  /** The concentration of the nearest position at or before `i` that has one, or 0. */
  function Latest(keys: seq<Series>, values: map<Series, real>, i: int): real
    requires i < |keys|
    decreases i
  {
    if i < 0 then 0.0
    else if keys[i] in values then values[keys[i]]
    else Latest(keys, values, i - 1)
  }

  /** Latest at a position is the value of the last present key up to it. */
  lemma {:induction false} LatestIsLastPresent(keys: seq<Series>, values: map<Series, real>, i: int, j: int)
    requires 0 <= j <= i < |keys|
    requires keys[j] in values
    requires forall k :: j < k <= i ==> keys[k] !in values
    ensures Latest(keys, values, i) == values[keys[j]]
    decreases i
  {
    if i > j {
      LatestIsLastPresent(keys, values, i - 1, j);
    }
  }

  /** With no present key up to `i`, Latest is 0. */
  lemma {:induction false} LatestNone(keys: seq<Series>, values: map<Series, real>, i: int)
    requires i < |keys|
    requires forall k :: 0 <= k <= i ==> keys[k] !in values
    ensures Latest(keys, values, i) == 0.0
    decreases i
  {
    if i >= 0 {
      LatestNone(keys, values, i - 1);
    }
  }

  /**
   * profileToSpectrum: one entry per ordinal from start to stop; entry k is the
   * concentration of ordinal start + k, or the last one seen before it.
   */
  method ProfileToSpectrum(values: map<Series, real>, tst: Shell, start: int, stop: int, elements: seq<Element>,
                           make: (Element, Shell) -> Series) returns (spectrum: array<real>)
    requires 0 <= start && start - 1 <= stop < |elements|
    ensures fresh(spectrum)
    ensures spectrum.Length == stop - start + 1
    ensures forall k :: 0 <= k < spectrum.Length ==>
      spectrum[k] == Latest(ProfileKeys(elements, tst, start, stop - start + 1, make), values, k)
  {
    spectrum := new real[stop - start + 1](_ => 0.0);
    ghost var keys := ProfileKeys(elements, tst, start, stop - start + 1, make);
    var value := 0.0;
    for ordinal := start to stop + 1
      invariant value == Latest(keys, values, ordinal - start - 1)
      invariant forall k :: 0 <= k < ordinal - start ==> spectrum[k] == Latest(keys, values, k)
    {
      var ts := make(elements[ordinal], tst);
      assert ts == keys[ordinal - start];
      if ts in values {
        value := values[ts];
      }
      assert value == Latest(keys, values, ordinal - start);
      var index := ordinal;
      spectrum[index - start] := value;
    }
  }

  /** The ordinal range of the plot: [0, 1], or from the first to the last series when
      there are at least two. */
  function PlotRange(tss: seq<Series>): (r: (int, int))
    ensures |tss| < 2 ==> r == (0, 1)
    ensures |tss| >= 2 ==> r.0 == tss[0].element.ordinal && r.1 == tss[|tss| - 1].element.ordinal
  {
    if |tss| >= 2 then (tss[0].element.ordinal, tss[|tss| - 1].element.ordinal) else (0, 1)
  }

  /** For series sorted by ordinal, as the reference lists them, the range covers every
      series and is never reversed. */
  lemma PlotRangeCovers(tss: seq<Series>)
    requires forall i, j :: 0 <= i < j < |tss| ==> tss[i].element.ordinal <= tss[j].element.ordinal
    requires |tss| >= 2
    ensures PlotRange(tss).0 <= PlotRange(tss).1
    ensures forall s :: s in tss ==> PlotRange(tss).0 <= s.element.ordinal <= PlotRange(tss).1
  {
    forall s | s in tss
      ensures PlotRange(tss).0 <= s.element.ordinal <= PlotRange(tss).1
    {
      var i :| 0 <= i < |tss| && tss[i] == s;
      if 0 < i {
        assert tss[0].element.ordinal <= tss[i].element.ordinal;
      }
      if i < |tss| - 1 {
        assert tss[i].element.ordinal <= tss[|tss| - 1].element.ordinal;
      }
    }
  }

  /** The plot of one reference and shell: its profile over the plotted range. */
  class ReferencePlot {
    const lowest: int
    const highest: int
    const data: array<real>

    constructor (concentrations: map<Series, real>, tss: seq<Series>, tst: Shell, elements: seq<Element>,
                 make: (Element, Shell) -> Series)
      requires 0 <= PlotRange(tss).0 && PlotRange(tss).0 - 1 <= PlotRange(tss).1 < |elements|
      ensures (lowest, highest) == PlotRange(tss)
      ensures data.Length == highest - lowest + 1
      ensures forall k :: 0 <= k < data.Length ==>
        data[k] == Latest(ProfileKeys(elements, tst, lowest, highest - lowest + 1, make), concentrations, k)
    {
      var range := PlotRange(tss);
      lowest := range.0;
      highest := range.1;
      var spectrum := ProfileToSpectrum(concentrations, tst, range.0, range.1, elements, make);
      data := spectrum;
    }
  }
}
