/**
 * The fitting set: an ordered list of unique, non-empty transition series together
 * with the fitting parameters used to solve it. Its own source is not part of this
 * model; the operations below keep the invariants the rest of the program relies on:
 * no duplicates, adding a duplicate or an empty series does nothing, removing an
 * absent series does nothing.
 */
module FittingSets {
  import opened Types

  /** EnergyCalibration: the energy range spread over a number of channels. */
  datatype Calibration = Calibration(minEnergy: real, maxEnergy: real, channels: int)

  /** EscapePeakType, named by its constant. */
  datatype EscapeType = EscapeType(name: string)

  /** The peak-shape function class, named by its class name. */
  datatype PeakShape = PeakShape(name: string)

  datatype FittingParameters = FittingParameters(calibration: Calibration, escape: EscapeType, fwhmBase: real, shape: PeakShape)

  /** The list a fitting set holds after adding `s` to `l`. */
  function Added(l: seq<Series>, s: Series): seq<Series>
  {
    if s in l || s.transitions == [] then l else l + [s]
  }

  class FittingSet {
    var series: seq<Series>
    var params: FittingParameters

    ghost predicate Valid()
      reads this
    {
      NoDup(series) && forall s :: s in series ==> s.transitions != []
    }

    constructor (p: FittingParameters)
      ensures Valid()
      ensures series == [] && params == p
    {
      series := [];
      params := p;
    }

    /** addTransitionSeries: appends, unless the series is empty or already present. */
    method Add(s: Series)
      requires Valid()
      modifies this`series
      ensures Valid()
      ensures series == Added(old(series), s)
    {
      if s !in series && s.transitions != [] {
        series := series + [s];
      }
    }

    /** remove: drops the series if present. */
    method Remove(s: Series)
      requires Valid()
      modifies this`series
      ensures Valid()
      ensures series == RemoveFirst(old(series), s)
      ensures s !in series
    {
      RemoveFirstNoDup(series, s);
      series := RemoveFirst(series, s);
    }

    /** insertTransitionSeries: puts the series at `index`, unless it is empty or already present. */
    method Insert(index: int, s: Series)
      requires Valid()
      requires 0 <= index <= |series|
      modifies this`series
      ensures Valid()
      ensures series == if s in old(series) || s.transitions == [] then old(series)
                        else old(series)[..index] + [s] + old(series)[index..]
    {
      if s !in series && s.transitions != [] {
        ghost var old0 := series;
        series := series[..index] + [s] + series[index..];
        assert forall k :: 0 <= k < |series| ==>
          series[k] == if k < index then old0[k] else if k == index then s else old0[k - 1];
      }
    }

    method Clear()
      modifies this`series
      ensures Valid()
      ensures series == []
    {
      series := [];
    }

    method SetParameters(p: FittingParameters)
      modifies this`params
      ensures params == p
    {
      params := p;
    }
  }
}
