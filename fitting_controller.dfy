/**
 * FittingController: the plot's fitting state. It holds two fitting sets, the
 * selections (the series the user fits) and the proposals (series suggested but not
 * committed), the annotation map and the highlighted list, and keeps the fitting
 * parameters of both sets in step.
 *
 * The cached fitting results, the data set and the peak table are not fields here:
 * the operations that read them take them as parameters. Undo points and cache
 * invalidation are not modelled; `notifications` counts the direct
 * updateListeners(false) calls.
 */
module FittingControl {
  import opened Types
  import opened FittingSets
  import CompoundScorer
  import PeakProposal

  /** A FittingResult: the series and its fitted curve, one value per channel. */
  datatype FitResult = FitResult(series: Series, fit: seq<Float>)

  // ---------------------------------------------------------------------------
  // Moving a series within the list

  /** The index the moved series lands at: decremented when moving towards the end,
      since removing it first shifts the later entries down. */
  function MoveTarget(from: int, to: int): int
  {
    if to > from then to - 1 else to
  }

  /** The list after moving the entry at `from` so that it lands at MoveTarget(from, to). */
  function Moved(l: seq<Series>, from: int, to: int): seq<Series>
    requires 0 <= from < |l|
    requires 0 <= MoveTarget(from, to) < |l|
  {
    var rest := l[..from] + l[from + 1..];
    var at := MoveTarget(from, to);
    rest[..at] + [l[from]] + rest[at..]
  }

  /** Removing an entry of a duplicate-free list removes it at its own index. */
  lemma {:induction false} RemoveAt(l: seq<Series>, i: int)
    requires NoDup(l) && 0 <= i < |l|
    ensures RemoveFirst(l, l[i]) == l[..i] + l[i + 1..]
  {
    if i > 0 {
      assert NoDup(l[1..]);
      assert l[0] != l[i];
      RemoveAt(l[1..], i - 1);
      assert l[1..][i - 1] == l[i];
      assert [l[0]] + l[1..][..i - 1] == l[..i];
      assert l[1..][i..] == l[i + 1..];
    }
  }

  /** A move is a permutation that puts the moved series at the target index and keeps
      the other series in their order. */
  lemma MovedCorrect(l: seq<Series>, from: int, to: int)
    requires 0 <= from < |l|
    requires 0 <= MoveTarget(from, to) < |l|
    ensures |Moved(l, from, to)| == |l|
    ensures multiset(Moved(l, from, to)) == multiset(l)
    ensures Moved(l, from, to)[MoveTarget(from, to)] == l[from]
    ensures var at := MoveTarget(from, to);
      Moved(l, from, to)[..at] + Moved(l, from, to)[at + 1..] == l[..from] + l[from + 1..]
  {
    var rest := l[..from] + l[from + 1..];
    var at := MoveTarget(from, to);
    var m := Moved(l, from, to);
    assert l == l[..from] + [l[from]] + l[from + 1..];
    assert multiset(l) == multiset(l[..from]) + multiset{l[from]} + multiset(l[from + 1..]);
    assert multiset(rest) == multiset(l[..from]) + multiset(l[from + 1..]);
    assert rest == rest[..at] + rest[at..];
    assert multiset(rest) == multiset(rest[..at]) + multiset(rest[at..]);
    assert m == rest[..at] + [l[from]] + rest[at..];
    calc {
      multiset(m);
      multiset(rest[..at]) + multiset{l[from]} + multiset(rest[at..]);
      multiset(rest[..at]) + multiset(rest[at..]) + multiset{l[from]};
      multiset(rest) + multiset{l[from]};
      multiset(l[..from]) + multiset(l[from + 1..]) + multiset{l[from]};
      multiset(l);
    }
    assert m[..at] == rest[..at];
    assert m[at + 1..] == rest[at..];
  }

  /** Moving a series onto its own position, or onto the next one, changes nothing. */
  lemma MoveInPlace(l: seq<Series>, from: int)
    requires 0 <= from < |l|
    ensures Moved(l, from, from) == l
    ensures Moved(l, from, from + 1) == l
  {
    assert (l[..from] + l[from + 1..])[..from] == l[..from];
    assert (l[..from] + l[from + 1..])[from..] == l[from + 1..];
    assert l == l[..from] + [l[from]] + l[from + 1..];
  }

  // ---------------------------------------------------------------------------
  // Adding several series

  /** The list after adding each of `tss` in turn. */
  function AddedAll(l: seq<Series>, tss: seq<Series>): seq<Series>
  {
    if tss == [] then l else Added(AddedAll(l, tss[..|tss| - 1]), tss[|tss| - 1])
  }

  /** After adding a list, a series is present exactly when it was before or it is a
      non-empty member of the list; the old entries keep their places. */
  lemma {:induction false} AddedAllMembers(l: seq<Series>, tss: seq<Series>)
    ensures forall x :: x in AddedAll(l, tss) <==> x in l || (x in tss && x.transitions != [])
    ensures |l| <= |AddedAll(l, tss)| && AddedAll(l, tss)[..|l|] == l
  {
    if tss != [] {
      var init := tss[..|tss| - 1];
      AddedAllMembers(l, init);
      assert tss == init + [tss[|tss| - 1]];
    }
  }

  // ---------------------------------------------------------------------------
  // Annotations

  /** String.trim: drops leading and trailing characters at or below U+0020. */
  function TrimStart(s: string): string
  {
    if s != [] && s[0] <= ' ' then TrimStart(s[1..]) else s
  }

  function TrimEnd(s: string): string
  {
    if s != [] && s[|s| - 1] <= ' ' then TrimEnd(s[..|s| - 1]) else s
  }

  function Trim(s: string): string
  {
    TrimEnd(TrimStart(s))
  }

  /** Every character is whitespace or a control character. */
  predicate Blank(s: string)
  {
    forall i :: 0 <= i < |s| ==> s[i] <= ' '
  }

  lemma {:induction false} TrimStartBlank(s: string)
    ensures TrimStart(s) == [] <==> Blank(s)
    ensures TrimStart(s) != [] ==> TrimStart(s)[0] > ' '
  {
    if s != [] && s[0] <= ' ' {
      TrimStartBlank(s[1..]);
      assert forall i :: 0 < i < |s| ==> s[i] == s[1..][i - 1];
    }
  }

  lemma {:induction false} TrimEndEmpty(s: string)
    requires s == [] || s[0] > ' '
    ensures TrimEnd(s) == [] <==> s == []
  {
    if s != [] && s[|s| - 1] <= ' ' {
      assert |s| > 1;
      TrimEndEmpty(s[..|s| - 1]);
    }
  }

  /** trim().length() == 0 exactly for blank strings. */
  lemma TrimEmptyIffBlank(s: string)
    ensures |Trim(s)| == 0 <==> Blank(s)
  {
    TrimStartBlank(s);
    TrimEndEmpty(TrimStart(s));
  }

  // ---------------------------------------------------------------------------
  // Queries over the fitting results

  /** The fit's value at `channel` is in bounds, a number, and above `v`. */
  predicate Above(f: FitResult, channel: int, v: real)
  {
    0 <= channel < |f.fit| && f.fit[channel].Num? && f.fit[channel].r > v
  }

  /** The fit's value at `channel` is in bounds, a number, and at least `v`. */
  predicate AtLeast(f: FitResult, channel: int, v: real)
  {
    0 <= channel < |f.fit| && f.fit[channel].Num? && f.fit[channel].r >= v
  }

  /**
   * selectTransitionSeriesAtChannel: the series of the first fit whose in-bounds value
   * at `channel` is the largest, provided it exceeds 1; none when there are no
   * results or no fit exceeds 1 there.
   */
  method SelectTransitionSeriesAtChannel(results: Option<seq<FitResult>>, channel: int) returns (r: Option<Series>)
    ensures r.None? <==> results.None? || forall i :: 0 <= i < |results.value| ==> !Above(results.value[i], channel, 1.0)
    ensures r.Some? ==> exists k :: (0 <= k < |results.value| && results.value[k].series == r.value
      && Above(results.value[k], channel, 1.0)
      && (forall j :: 0 <= j < |results.value| ==> !Above(results.value[j], channel, results.value[k].fit[channel].r))
      && (forall j :: 0 <= j < k ==> !AtLeast(results.value[j], channel, results.value[k].fit[channel].r)))
  {
    if results.None? {
      return None;
    }
    var fits := results.value;
    var bestValue := 1.0;
    var best := -1;
    for i := 0 to |fits|
      invariant -1 <= best < i || (best == -1 && i == 0)
      invariant best == -1 <==> forall j :: 0 <= j < i ==> !Above(fits[j], channel, 1.0)
      invariant best == -1 ==> bestValue == 1.0
      invariant best >= 0 ==> Above(fits[best], channel, 1.0) && bestValue == fits[best].fit[channel].r
      invariant forall j :: 0 <= j < i ==> !Above(fits[j], channel, bestValue)
      invariant best >= 0 ==> forall j :: 0 <= j < best ==> !AtLeast(fits[j], channel, bestValue)
    {
      if !(0 <= channel < |fits[i].fit|) {
        continue;
      }
      var value := fits[i].fit[channel];
      if value.Num? && value.r > bestValue {
        bestValue := value.r;
        best := i;
      }
    }
    if best == -1 {
      return None;
    }
    return Some(fits[best].series);
  }

  /**
   * getTransitionSeriesIntensity: the maximum of the first fit for `ts`, with NaN read
   * as 0; 0 when there are no results or no fit for `ts`.
   */
  method TransitionSeriesIntensity(results: Option<seq<FitResult>>, ts: Series, max: seq<Float> -> Float)
    returns (r: real)
    ensures results.None? ==> r == 0.0
    ensures results.Some? && (forall i :: 0 <= i < |results.value| ==> results.value[i].series != ts) ==> r == 0.0
    ensures results.Some? ==> forall k :: (0 <= k < |results.value| && results.value[k].series == ts
      && (forall j :: 0 <= j < k ==> results.value[j].series != ts)
      ==> r == CompoundScorer.Clean(max(results.value[k].fit)))
  {
    if results.None? {
      return 0.0;
    }
    var fits := results.value;
    for i := 0 to |fits|
      invariant forall j :: 0 <= j < i ==> fits[j].series != ts
    {
      if fits[i].series == ts {
        var m := max(fits[i].fit);
        if m.NaN? {
          m := Num(0.0);
        }
        return m.r;
      }
    }
    return 0.0;
  }

  // ---------------------------------------------------------------------------
  // Proposals

  /** At most `count` series, each the re-suggested one (when it was proposed) or
      neither fitted nor proposed. */
  predicate Proposable(r: seq<Series>, fits: seq<Series>, proposed: seq<Series>, current: Option<Series>, count: nat)
  {
    |r| <= count
    && forall x :: x in r ==>
         (current.Some? && x == current.value && x in proposed) || (x !in fits && x !in proposed)
  }

  lemma ProposalsProposable(data: Spectrum, e: PeakProposal.Engine, fits: seq<Series>, proposed: seq<Series>,
                            channel: int, current: Option<Series>, count: nat)
    ensures Proposable(Firsts(PeakProposal.Guesses(data, e, fits, proposed, channel, current, count)),
                       fits, proposed, current, count)
  {
    var gs := PeakProposal.Guesses(data, e, fits, proposed, channel, current, count);
    PeakProposal.GuessesFresh(data, e, fits, proposed, channel, current, count);
    forall x | x in Firsts(gs)
      ensures (current.Some? && x == current.value && x in proposed) || (x !in fits && x !in proposed)
    {
      var i :| 0 <= i < |Firsts(gs)| && Firsts(gs)[i] == x;
      assert gs[i].0 == x;
    }
  }

  // ---------------------------------------------------------------------------
  // The controller

  class FittingController {
    const selections: FittingSet
    const proposals: FittingSet
    var annotations: map<Series, string>
    var highlighted: Option<seq<Series>>
    var notifications: nat

    ghost predicate Valid()
      reads this, selections, proposals
    {
      selections.Valid() && proposals.Valid() && selections != proposals
    }

    /** A fresh fitting model: both sets empty, with parameters `p`. */
    constructor (p: FittingParameters)
      ensures Valid() && fresh(selections) && fresh(proposals)
      ensures selections.series == [] && proposals.series == []
      ensures selections.params == p && proposals.params == p
      ensures annotations == map[] && highlighted == None && notifications == 0
    {
      selections := new FittingSet(p);
      proposals := new FittingSet(p);
      annotations := map[];
      highlighted := None;
      notifications := 0;
    }

    /** addTransitionSeries: a null series is ignored. */
    method AddTransitionSeries(e: Option<Series>)
      requires Valid()
      modifies selections`series
      ensures Valid()
      ensures selections.series == if e.None? then old(selections.series) else Added(old(selections.series), e.value)
    {
      if e.None? {
        return;
      }
      selections.Add(e.value);
    }

    /** moveTransitionSeries. */
    method MoveTransitionSeries(from: int, to: int)
      requires Valid()
      requires 0 <= from < |selections.series|
      requires 0 <= MoveTarget(from, to) < |selections.series|
      modifies selections`series
      ensures Valid()
      ensures selections.series == Moved(old(selections.series), from, to)
    {
      var at := to;
      if to > from {
        at := to - 1;
      }
      var ts := selections.series[from];
      RemoveAt(selections.series, from);
      selections.Remove(ts);
      selections.Insert(at, ts);
    }

    /** addAllTransitionSeries. */
    method AddAllTransitionSeries(tss: seq<Series>)
      requires Valid()
      modifies selections`series
      ensures Valid()
      ensures selections.series == AddedAll(old(selections.series), tss)
    {
      ghost var l0 := selections.series;
      for i := 0 to |tss|
        invariant Valid()
        invariant selections.series == AddedAll(l0, tss[..i])
      {
        assert tss[..i + 1][..i] == tss[..i];
        selections.Add(tss[i]);
      }
      assert tss[..|tss|] == tss;
    }

    method ClearTransitionSeries()
      requires Valid()
      modifies selections`series
      ensures Valid()
      ensures selections.series == []
    {
      selections.Clear();
    }

    method RemoveTransitionSeries(e: Series)
      requires Valid()
      modifies selections`series
      ensures Valid()
      ensures selections.series == RemoveFirst(old(selections.series), e)
    {
      selections.Remove(e);
    }

    /** getUnfittedTransitionSeries: the table's series that are not fitted, in table order. */
    function UnfittedTransitionSeries(all: seq<Series>): (r: seq<Series>)
      reads this, selections
      ensures forall x :: x in r <==> x in all && x !in selections.series
    {
      var fitted := selections.series;
      Filter(all, (x: Series) => x !in fitted)
    }

    method AddProposedTransitionSeries(e: Series)
      requires Valid()
      modifies proposals`series
      ensures Valid()
      ensures proposals.series == Added(old(proposals.series), e)
    {
      proposals.Add(e);
    }

    method RemoveProposedTransitionSeries(e: Series)
      requires Valid()
      modifies proposals`series
      ensures Valid()
      ensures proposals.series == RemoveFirst(old(proposals.series), e)
    {
      proposals.Remove(e);
    }

    method ClearProposedTransitionSeries()
      requires Valid()
      modifies proposals`series
      ensures Valid()
      ensures proposals.series == []
    {
      proposals.Clear();
    }

    /** commitProposedTransitionSeries: every proposal joins the selections, in order,
        and the proposals are emptied. */
    method CommitProposedTransitionSeries()
      requires Valid()
      modifies selections`series, proposals`series
      ensures Valid()
      ensures selections.series == AddedAll(old(selections.series), old(proposals.series))
      ensures proposals.series == []
      ensures forall x :: x in selections.series <==> x in old(selections.series) || x in old(proposals.series)
    {
      AddedAllMembers(selections.series, proposals.series);
      AddAllTransitionSeries(proposals.series);
      proposals.Clear();
    }

    /**
     * proposeTransitionSeriesFromChannel: no list without a data set; otherwise the
     * series of at most six ranked guesses, each either the re-suggested series or
     * neither fitted nor proposed.
     */
    method ProposeTransitionSeriesFromChannel(hasDataSet: bool, data: Spectrum, e: PeakProposal.Engine,
                                              channel: int, current: Option<Series>)
      returns (r: Option<seq<Series>>)
      requires Valid()
      modifies proposals`series
      ensures Valid()
      ensures proposals.params == old(proposals.params)
      ensures !hasDataSet ==> r.None? && proposals.series == old(proposals.series)
      ensures hasDataSet ==> proposals.series == PeakProposal.Reinserted(old(proposals.series), current)
      ensures hasDataSet ==>
        (r.Some? && r.value == Firsts(PeakProposal.Guesses(data, e, selections.series, old(proposals.series), channel, current, 6)))
      ensures r.Some? ==> Proposable(r.value, selections.series, old(proposals.series), current, 6)
    {
      if !hasDataSet {
        return None;
      }
      ghost var p0 := proposals.series;
      ProposalsProposable(data, e, selections.series, p0, channel, current, 6);
      var guesses := PeakProposal.FromChannel(data, e, selections, proposals, channel, current, 6);
      r := Some(Firsts(guesses));
    }

    // -------------------------------------------------------------------------
    // Parameters: both sets always receive the same value.

    /** setEscapeType. */
    method SetEscapeType(t: EscapeType)
      requires Valid()
      modifies selections`params, proposals`params, this`notifications
      ensures Valid()
      ensures selections.params == old(selections.params).(escape := t)
      ensures proposals.params == old(proposals.params).(escape := t)
      ensures notifications == old(notifications) + 1
    {
      selections.SetParameters(selections.params.(escape := t));
      proposals.SetParameters(proposals.params.(escape := t));
      notifications := notifications + 1;
    }

    /** setFittingParameters: both calibrations become (min, max, scanSize), and the
        proposals take the selections' escape type. */
    method SetFittingParameters(scanSize: int, min: real, max: real)
      requires Valid()
      modifies selections`params, proposals`params
      ensures Valid()
      ensures selections.params == old(selections.params).(calibration := Calibration(min, max, scanSize))
      ensures proposals.params == old(proposals.params).(calibration := Calibration(min, max, scanSize),
                                                         escape := old(selections.params).escape)
      ensures selections.params.calibration == proposals.params.calibration
      ensures selections.params.escape == proposals.params.escape
    {
      var cal := Calibration(min, max, scanSize);
      selections.SetParameters(selections.params.(calibration := cal));
      proposals.SetParameters(proposals.params.(calibration := cal));
      var esc := selections.params.escape;
      selections.SetParameters(selections.params.(escape := esc));
      esc := selections.params.escape;
      proposals.SetParameters(proposals.params.(escape := esc));
    }

    /** setMaxEnergy: keeps the minimum energy; `dataWidth` is the data set's channel count. */
    method SetMaxEnergy(max: real, dataWidth: int)
      requires Valid()
      modifies selections`params, proposals`params, this`notifications
      ensures Valid()
      ensures selections.params == old(selections.params).(calibration := Calibration(old(selections.params).calibration.minEnergy, max, dataWidth))
      ensures proposals.params == old(proposals.params).(calibration := Calibration(old(selections.params).calibration.minEnergy, max, dataWidth),
                                                         escape := old(selections.params).escape)
      ensures notifications == old(notifications) + 1
    {
      SetFittingParameters(dataWidth, selections.params.calibration.minEnergy, max);
      notifications := notifications + 1;
    }

    /** setMinEnergy: keeps the maximum energy. */
    method SetMinEnergy(min: real, dataWidth: int)
      requires Valid()
      modifies selections`params, proposals`params, this`notifications
      ensures Valid()
      ensures selections.params == old(selections.params).(calibration := Calibration(min, old(selections.params).calibration.maxEnergy, dataWidth))
      ensures proposals.params == old(proposals.params).(calibration := Calibration(min, old(selections.params).calibration.maxEnergy, dataWidth),
                                                         escape := old(selections.params).escape)
      ensures notifications == old(notifications) + 1
    {
      SetFittingParameters(dataWidth, min, selections.params.calibration.maxEnergy);
      notifications := notifications + 1;
    }

    /** setFWHMBase. */
    method SetFWHMBase(base: real)
      requires Valid()
      modifies selections`params, proposals`params
      ensures Valid()
      ensures selections.params == old(selections.params).(fwhmBase := base)
      ensures proposals.params == old(proposals.params).(fwhmBase := base)
    {
      selections.SetParameters(selections.params.(fwhmBase := base));
      proposals.SetParameters(proposals.params.(fwhmBase := base));
    }

    /** setFittingFunction. */
    method SetFittingFunction(shape: PeakShape)
      requires Valid()
      modifies selections`params, proposals`params
      ensures Valid()
      ensures selections.params == old(selections.params).(shape := shape)
      ensures proposals.params == old(proposals.params).(shape := shape)
    {
      selections.SetParameters(selections.params.(shape := shape));
      proposals.SetParameters(proposals.params.(shape := shape));
    }

    // -------------------------------------------------------------------------
    // Highlight and annotations

    /** setHighlightedTransitionSeries: a list equal to the current one changes nothing
        and notifies nobody. */
    method SetHighlightedTransitionSeries(h: Option<seq<Series>>)
      modifies this`highlighted, this`notifications
      ensures highlighted == h
      ensures notifications == if old(highlighted).Some? && old(highlighted) == h then old(notifications)
                               else old(notifications) + 1
    {
      if highlighted.Some? && highlighted == h {
        return;
      }
      highlighted := h;
      notifications := notifications + 1;
    }

    /** hasAnnotation: present and not blank. */
    function HasAnnotation(ts: Series): (r: bool)
      reads this
      ensures r <==> ts in annotations && !Blank(annotations[ts])
    {
      if ts !in annotations then false
      else
        TrimEmptyIffBlank(annotations[ts]);
        |Trim(annotations[ts])| != 0
    }

    /** getAnnotation: null when absent. */
    function GetAnnotation(ts: Series): (r: Option<string>)
      reads this
      ensures r.Some? <==> ts in annotations
      ensures r.Some? ==> r.value == annotations[ts]
    {
      if ts in annotations then Some(annotations[ts]) else None
    }

    /** setAnnotation: a blank annotation removes the entry, any other is stored. */
    method SetAnnotation(ts: Series, annotation: string)
      modifies this`annotations, this`notifications
      ensures annotations == if Blank(annotation) then old(annotations) - {ts} else old(annotations)[ts := annotation]
      ensures HasAnnotation(ts) <==> !Blank(annotation)
      ensures notifications == old(notifications) + 1
    {
      TrimEmptyIffBlank(annotation);
      if |Trim(annotation)| == 0 {
        annotations := annotations - {ts};
      } else {
        annotations := annotations[ts := annotation];
      }
      notifications := notifications + 1;
    }

    method ClearAnnotations()
      modifies this`annotations, this`notifications
      ensures annotations == map[]
      ensures notifications == old(notifications) + 1
    {
      annotations := map[];
      notifications := notifications + 1;
    }
  }
}
