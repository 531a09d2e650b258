/**
 * Z-calibration profiles: a per-series calibration factor built from a fitted
 * reference sample, then interpolated, smoothed and normalised against the
 * reference's anchor series; and the normaliser that divides every factor by the
 * anchor's.
 *
 * The calibration map is a LinkedHashMap: `keys` keeps its insertion order and
 * `calibrations` its contents. The reference, the fitting results, the energy
 * calibration, the interpolator and the two smoothers are not part of this model;
 * they enter as values and functions.
 */
module Calibration {
  import opened Types

  /** CalibrationReference: a name, an anchor series and known concentrations. */
  datatype Reference = Reference(name: string, anchor: Series, concentrations: map<Series, real>)

  /** FittingResult: the fitted series, the number of channels of its fit and the fit's sum. */
  datatype FitResult = FitResult(series: Series, fitChannels: int, fitSum: real)

  /** FittingResultSet, with what the build loop asks of its parameters. */
  datatype Sample = Sample(fits: seq<FitResult>, calibrationIsZero: bool,
                           channelFromEnergy: real -> int, strongestEnergy: Series -> real)

  /** A LinkedHashMap from series to factors: insertion order and contents. */
  datatype Linked = Linked(keys: seq<Series>, values: map<Series, real>)

  predicate LinkedValid(l: Linked)
  {
    NoDup(l.keys) && (forall k :: k in l.keys ==> k in l.values) && (forall k :: k in l.values ==> k in l.keys)
  }

  /** Map.put: a new key goes last, an existing key keeps its place. */
  function Put(l: Linked, k: Series, v: real): (r: Linked)
    ensures LinkedValid(l) ==> LinkedValid(r)
  {
    Linked(if k in l.values then l.keys else l.keys + [k], l.values[k := v])
  }

  // ===========================================================================
  // The build loop

  /**
   * The factor the build loop stores for one fit, if any: the series must have a
   * reference concentration, its strongest line must fall below the fit's channel
   * count, and fitSum / concentration * 1000 must be finite and at least 1. A zero
   * concentration makes the quotient infinite or NaN, which is rejected.
   */
  function FitFactor(ref: Reference, sample: Sample, fit: FitResult): (r: Option<real>)
    ensures r.Some? ==> r.value >= 1.0
    ensures r.Some? ==> fit.series in ref.concentrations && ref.concentrations[fit.series] != 0.0
    ensures r.Some? ==> sample.channelFromEnergy(sample.strongestEnergy(fit.series)) < fit.fitChannels
    ensures r.Some? ==> r.value == fit.fitSum / ref.concentrations[fit.series] * 1000.0
  {
    if fit.series !in ref.concentrations then None
    else if sample.channelFromEnergy(sample.strongestEnergy(fit.series)) >= fit.fitChannels then None
    else
      var referenceValue := ref.concentrations[fit.series];
      if referenceValue == 0.0 then None
      else
        var calibration := fit.fitSum / referenceValue * 1000.0;
        if calibration < 1.0 then None else Some(calibration)
  }

  /** The map the build loop leaves after the given fits, starting from `l`. */
  function BuildFrom(ref: Reference, sample: Sample, fits: seq<FitResult>, l: Linked): Linked
  {
    if fits == [] then l
    else
      var prev := BuildFrom(ref, sample, fits[..|fits| - 1], l);
      var fit := fits[|fits| - 1];
      match FitFactor(ref, sample, fit)
      case None => prev
      case Some(c) => Put(prev, fit.series, c)
  }

  /** One more fit: its factor, if it has one, is put into the map built so far. */
  lemma BuildStep(ref: Reference, sample: Sample, fits: seq<FitResult>, i: int)
    requires 0 <= i < |fits|
    ensures BuildFrom(ref, sample, fits[..i + 1], Linked([], map[])) ==
      match FitFactor(ref, sample, fits[i])
      case None => BuildFrom(ref, sample, fits[..i], Linked([], map[]))
      case Some(c) => Put(BuildFrom(ref, sample, fits[..i], Linked([], map[])), fits[i].series, c)
    ensures fits[..|fits|] == fits
  {
    assert fits[..i + 1][..i] == fits[..i];
  }

  /** The map the build loop produces: nothing when the energy calibration is zero. */
  function Built(ref: Reference, sample: Sample): Linked
  {
    if sample.calibrationIsZero then Linked([], map[])
    else BuildFrom(ref, sample, sample.fits, Linked([], map[]))
  }

  /**
   * Every stored factor is at least 1 and is the factor of an accepted fit of its
   * series; every accepted fit's series is stored.
   */
  lemma {:induction false} BuildFromFacts(ref: Reference, sample: Sample, fits: seq<FitResult>)
    ensures var l := BuildFrom(ref, sample, fits, Linked([], map[]));
      && LinkedValid(l)
      && (forall k :: k in l.values ==> l.values[k] >= 1.0)
      && (forall k :: k in l.values ==> exists i :: 0 <= i < |fits| && fits[i].series == k && FitFactor(ref, sample, fits[i]) == Some(l.values[k]))
      && (forall i :: 0 <= i < |fits| && FitFactor(ref, sample, fits[i]).Some? ==> fits[i].series in l.values)
  {
    if fits != [] {
      var init := fits[..|fits| - 1];
      BuildFromFacts(ref, sample, init);
      var l := BuildFrom(ref, sample, fits, Linked([], map[]));
      var prev := BuildFrom(ref, sample, init, Linked([], map[]));
      forall k | k in l.values
        ensures exists i :: 0 <= i < |fits| && fits[i].series == k && FitFactor(ref, sample, fits[i]) == Some(l.values[k])
      {
        if k == fits[|fits| - 1].series && FitFactor(ref, sample, fits[|fits| - 1]).Some? {
        } else {
          var i :| 0 <= i < |init| && init[i].series == k && FitFactor(ref, sample, init[i]) == Some(prev.values[k]);
          assert fits[i] == init[i];
        }
      }
      forall i | 0 <= i < |fits| && FitFactor(ref, sample, fits[i]).Some? ensures fits[i].series in l.values {
        if i < |init| {
          assert fits[i] == init[i];
        }
      }
    }
  }

  /** With a zero energy calibration the build loop stores nothing; otherwise every
      stored factor is at least 1 and comes from an accepted fit of its series. */
  lemma BuiltFacts(ref: Reference, sample: Sample)
    ensures var l := Built(ref, sample);
      && LinkedValid(l)
      && (sample.calibrationIsZero ==> l.keys == [] && l.values == map[])
      && (forall k :: k in l.values ==> l.values[k] >= 1.0)
      && (forall k :: k in l.values ==> exists fit :: fit in sample.fits && fit.series == k && FitFactor(ref, sample, fit) == Some(l.values[k]))
      && (!sample.calibrationIsZero ==> forall fit :: fit in sample.fits && FitFactor(ref, sample, fit).Some? ==> fit.series in l.values)
  {
    if !sample.calibrationIsZero {
      BuildFromFacts(ref, sample, sample.fits);
      var l := Built(ref, sample);
      forall k | k in l.values
        ensures exists fit :: fit in sample.fits && fit.series == k && FitFactor(ref, sample, fit) == Some(l.values[k])
      {
        var i :| 0 <= i < |sample.fits| && sample.fits[i].series == k && FitFactor(ref, sample, sample.fits[i]) == Some(l.values[k]);
        assert sample.fits[i] in sample.fits;
      }
    }
  }

  /** The interpolated series are added and put with their smoothed values, in order. */
  function PutAll(l: Linked, pairs: seq<(Series, real)>): (r: Linked)
    ensures LinkedValid(l) ==> LinkedValid(r)
  {
    if pairs == [] then l
    else Put(PutAll(l, pairs[..|pairs| - 1]), pairs[|pairs| - 1].0, pairs[|pairs| - 1].1)
  }

  /** Merging keeps every key and adds exactly the interpolated series. */
  lemma {:induction false} PutAllKeys(l: Linked, pairs: seq<(Series, real)>)
    ensures forall k :: k in PutAll(l, pairs).values <==> k in l.values || k in Firsts(pairs)
  {
    if pairs != [] {
      var init := pairs[..|pairs| - 1];
      PutAllKeys(l, init);
      assert Firsts(pairs) == Firsts(init) + [pairs[|pairs| - 1].0];
    }
  }

  // ===========================================================================
  // The normaliser

  /** normalize(calibrations, tst, against): factors of shell `tst` divided by `against`. */
  function DividedShell(m: map<Series, real>, tst: Shell, against: real): (r: map<Series, real>)
    requires against != 0.0
    ensures r.Keys == m.Keys
  {
    map k | k in m :: if k.shell == tst then m[k] / against else m[k]
  }

  /** Every factor divided by `against`. */
  function Divided(m: map<Series, real>, against: real): (r: map<Series, real>)
    requires against != 0.0
    ensures r.Keys == m.Keys
  {
    map k | k in m :: m[k] / against
  }

  /** The map part way through normalize: the factors of shell `tst` among the keys
      in `done` divided. */
  function DividedAmong(m: map<Series, real>, done: seq<Series>, tst: Shell, against: real): map<Series, real>
    requires against != 0.0
  {
    map k | k in m :: if k in done && k.shell == tst then m[k] / against else m[k]
  }

  /** One iteration of normalize over the keys `ks`: the key at `j` still holds its
      original factor, which is divided exactly when its shell matches. */
  lemma DividedAmongStep(m: map<Series, real>, ks: seq<Series>, j: int, tst: Shell, against: real)
    requires against != 0.0 && 0 <= j < |ks| && NoDup(ks) && ks[j] in m
    ensures DividedAmong(m, ks[..j], tst, against)[ks[j]] == m[ks[j]]
    ensures ks[j].shell == tst ==>
      DividedAmong(m, ks[..j + 1], tst, against) == DividedAmong(m, ks[..j], tst, against)[ks[j] := m[ks[j]] / against]
    ensures ks[j].shell != tst ==>
      DividedAmong(m, ks[..j + 1], tst, against) == DividedAmong(m, ks[..j], tst, against)
  {
    assert ks[..j + 1] == ks[..j] + [ks[j]];
    assert ks[j] !in ks[..j];
  }

  /** Once every key has been visited the shell is divided throughout. */
  lemma DividedAmongAll(m: map<Series, real>, ks: seq<Series>, tst: Shell, against: real)
    requires against != 0.0 && forall k :: k in m ==> k in ks
    ensures DividedAmong(m, ks, tst, against) == DividedShell(m, tst, against)
    ensures ks[..|ks|] == ks
  {
    var a := DividedAmong(m, ks, tst, against);
    var b := DividedShell(m, tst, against);
    assert a.Keys == b.Keys;
    assert forall k :: k in a ==> a[k] == b[k];
    assert ks[..|ks|] == ks;
  }

  /** The map part way through process: the factors of the shells in `shells` divided. */
  function ShellsDivided(m: map<Series, real>, shells: set<Shell>, against: real): map<Series, real>
    requires against != 0.0
  {
    map k | k in m :: if k.shell in shells then m[k] / against else m[k]
  }

  lemma ShellsDividedStep(m: map<Series, real>, shells: set<Shell>, tst: Shell, against: real)
    requires against != 0.0 && tst !in shells
    ensures DividedShell(ShellsDivided(m, shells, against), tst, against) == ShellsDivided(m, shells + {tst}, against)
  {
  }

  /** process: the result of the normaliser on a calibration map. */
  function Normalized(m: map<Series, real>, anchor: Series): map<Series, real>
    requires anchor in m ==> m[anchor] != 0.0
  {
    if anchor in m then Divided(m, m[anchor]) else m
  }

  /** After normalisation the anchor's factor is 1 and every factor has been divided
      exactly once by the anchor's old factor; without an anchor nothing changes. */
  lemma NormalizedFacts(m: map<Series, real>, anchor: Series)
    requires anchor in m ==> m[anchor] != 0.0
    ensures Normalized(m, anchor).Keys == m.Keys
    ensures anchor in m ==> Normalized(m, anchor)[anchor] == 1.0
    ensures anchor in m ==> forall k :: k in m ==> Normalized(m, anchor)[k] * m[anchor] == m[k]
    ensures anchor !in m ==> Normalized(m, anchor) == m
  {
    if anchor in m {
      var a := m[anchor];
      forall k | k in m ensures Normalized(m, anchor)[k] * a == m[k] {
        DivMul(m[k], a);
      }
      DivSelf(a);
      assert Normalized(m, anchor)[anchor] == a / a;
    }
  }

  lemma DivSelf(a: real)
    requires a != 0.0
    ensures a / a == 1.0
  {
  }

  lemma DivMul(x: real, a: real)
    requires a != 0.0
    ensures (x / a) * a == x
  {
  }

  // ===========================================================================
  // The profile

  /** The name of the empty profile. */
  const EmptyName: string := "Empty Z-Calibration Profile"

  /** The name of a profile built from the reference called `refName`. */
  function BuiltName(refName: string): string
  {
    "Unknown " + refName + " Z-Calibration Profile"
  }

  /** The key order after the smoothers, which keep the key set. */
  function ShellKey(s: Series): real
  {
    s.element.ordinal as real
  }

  function HasShell(tst: Shell): Series -> bool
  {
    (s: Series) => s.shell == tst
  }

  class CalibrationProfile {
    var reference: Reference
    var keys: seq<Series>
    var calibrations: map<Series, real>
    var name: string
    var creationDate: string
    var interpolated: seq<Series>

    ghost predicate Valid()
      reads this
    {
      LinkedValid(Linked(keys, calibrations))
    }

    /** The empty profile; `today` stands for LocalDate.now(). */
    constructor Empty(empty: Reference, today: string)
      ensures Valid()
      ensures reference == empty && keys == [] && calibrations == map[] && interpolated == []
      ensures name == EmptyName && creationDate == today
      ensures IsEmpty()
    {
      reference := empty;
      keys := [];
      calibrations := map[];
      interpolated := [];
      name := EmptyName;
      creationDate := today;
    }

    /** The copy constructor: the maps and lists are copied, the creation date is not. */
    constructor Copy(other: CalibrationProfile, today: string)
      requires other.Valid()
      ensures Valid()
      ensures reference == other.reference && keys == other.keys && calibrations == other.calibrations
      ensures name == other.name && interpolated == other.interpolated && creationDate == today
    {
      reference := other.reference;
      keys := other.keys;
      calibrations := other.calibrations;
      name := other.name;
      interpolated := other.interpolated;
      creationDate := today;
    }

    /**
     * Builds a profile from a reference and a fitted sample: the build loop, then the
     * interpolated series of an interpolated and smoothed copy (`interpolate` gives
     * them with their values), then the light smoother (`smooth`, which keeps the
     * key set), then the normaliser.
     */
    constructor Build(ref: Reference, sample: Sample, empty: Reference, today: string,
                      interpolate: Linked -> seq<(Series, real)>, smooth: map<Series, real> -> map<Series, real>)
      requires forall m :: smooth(m).Keys == m.Keys && (ref.anchor in m ==> smooth(m)[ref.anchor] != 0.0)
      ensures Valid()
      ensures reference == ref && name == BuiltName(ref.name) && creationDate == today
      ensures var built := Built(ref, sample);
        var pairs := interpolate(built);
        var merged := PutAll(built, pairs);
        && keys == merged.keys
        && calibrations == Normalized(smooth(merged.values), ref.anchor)
        && interpolated == Firsts(pairs)
    {
      reference := ref;
      keys := [];
      calibrations := map[];
      interpolated := [];
      name := BuiltName(ref.name);
      creationDate := today;
      new;
      if !sample.calibrationIsZero {
        BuildLoop(sample);
      }
      ghost var built := Linked(keys, calibrations);
      assert built == Built(ref, sample);
      Complete(interpolate, smooth);
    }

    /** The steps after the build loop: merge the interpolated series, smooth, then
        normalise against the reference's anchor. */
    method Complete(interpolate: Linked -> seq<(Series, real)>, smooth: map<Series, real> -> map<Series, real>)
      requires Valid()
      requires forall m :: smooth(m).Keys == m.Keys && (reference.anchor in m ==> smooth(m)[reference.anchor] != 0.0)
      modifies this`keys, this`calibrations, this`interpolated
      ensures Valid()
      ensures var built := old(Linked(keys, calibrations));
        var pairs := interpolate(built);
        var merged := PutAll(built, pairs);
        && keys == merged.keys
        && calibrations == Normalized(smooth(merged.values), reference.anchor)
        && interpolated == old(interpolated) + Firsts(pairs)
    {
      var pairs := interpolate(Linked(keys, calibrations));
      Merge(pairs);
      Finish(smooth);
    }

    /** The light smoother, then the normaliser against the reference's anchor. */
    method Finish(smooth: map<Series, real> -> map<Series, real>)
      requires Valid()
      requires forall m :: smooth(m).Keys == m.Keys && (reference.anchor in m ==> smooth(m)[reference.anchor] != 0.0)
      modifies this`calibrations
      ensures Valid()
      ensures calibrations == Normalized(smooth(old(calibrations)), reference.anchor)
    {
      assert smooth(calibrations).Keys == calibrations.Keys;
      Smooth(smooth);
      ghost var smoothed := calibrations;
      assert reference.anchor in smoothed ==> smoothed[reference.anchor] != 0.0;
      NormalizerProcess(this);
    }

    /** The build loop over the fitting results. */
    method BuildLoop(sample: Sample)
      requires keys == [] && calibrations == map[]
      modifies this`keys, this`calibrations
      ensures Valid()
      ensures Linked(keys, calibrations) == BuildFrom(reference, sample, sample.fits, Linked([], map[]))
    {
      BuildFromFacts(reference, sample, sample.fits);
      for i := 0 to |sample.fits|
        invariant Linked(keys, calibrations) == BuildFrom(reference, sample, sample.fits[..i], Linked([], map[]))
      {
        BuildStep(reference, sample, sample.fits, i);
        BuildOne(sample, sample.fits[i]);
      }
      assert sample.fits[..|sample.fits|] == sample.fits;
    }

    /** One iteration of the build loop: stores the fit's factor when it is accepted. */
    method BuildOne(sample: Sample, fit: FitResult)
      modifies this`keys, this`calibrations
      ensures Linked(keys, calibrations) ==
        match FitFactor(reference, sample, fit)
        case None => old(Linked(keys, calibrations))
        case Some(c) => Put(old(Linked(keys, calibrations)), fit.series, c)
    {
      var ts := fit.series;
      var channel := sample.channelFromEnergy(sample.strongestEnergy(ts));
      if ts !in reference.concentrations {
        return;
      }
      if channel >= fit.fitChannels {
        return;
      }
      var sampleIntensity := fit.fitSum;
      var referenceValue := reference.concentrations[ts];
      if referenceValue == 0.0 {
        return;
      }
      var calibration := sampleIntensity / referenceValue * 1000.0;
      if calibration < 1.0 {
        return;
      }
      PutFactor(ts, calibration);
    }

    /** Adds each interpolated series to `interpolated` and puts its value. */
    method Merge(pairs: seq<(Series, real)>)
      requires Valid()
      modifies this`keys, this`calibrations, this`interpolated
      ensures Valid()
      ensures Linked(keys, calibrations) == PutAll(old(Linked(keys, calibrations)), pairs)
      ensures interpolated == old(interpolated) + Firsts(pairs)
    {
      ghost var l0 := Linked(keys, calibrations);
      ghost var i0 := interpolated;
      for i := 0 to |pairs|
        invariant Linked(keys, calibrations) == PutAll(l0, pairs[..i])
        invariant interpolated == i0 + Firsts(pairs[..i])
        invariant Valid()
      {
        assert pairs[..i + 1][..i] == pairs[..i];
        assert Firsts(pairs[..i + 1]) == Firsts(pairs[..i]) + [pairs[i].0];
        var ts := pairs[i].0;
        interpolated := interpolated + [ts];
        PutFactor(ts, pairs[i].1);
      }
      assert pairs[..|pairs|] == pairs;
    }

    /** calibrations.put(ts, value) on the LinkedHashMap. */
    method PutFactor(ts: Series, value: real)
      modifies this`keys, this`calibrations
      ensures Linked(keys, calibrations) == Put(old(Linked(keys, calibrations)), ts, value)
    {
      if ts !in calibrations {
        keys := keys + [ts];
      }
      calibrations := calibrations[ts := value];
    }

    /** The light smoothing pass, which keeps the key set. */
    method Smooth(smooth: map<Series, real> -> map<Series, real>)
      requires Valid()
      requires smooth(calibrations).Keys == calibrations.Keys
      modifies this`calibrations
      ensures Valid()
      ensures calibrations == smooth(old(calibrations))
    {
      calibrations := smooth(calibrations);
    }

    function Contains(ts: Series): (r: bool)
      reads this
      ensures r <==> ts in calibrations
    {
      ts in calibrations
    }

    function IsEmpty(): (r: bool)
      reads this
      ensures r <==> calibrations == map[]
    {
      |calibrations| == 0
    }

    /** calibrate(value, ts): divided by the series' factor, or unchanged without one. */
    function Calibrate(value: real, ts: Series): (r: real)
      reads this
      requires ts in calibrations ==> calibrations[ts] != 0.0
      ensures ts !in calibrations ==> r == value
      ensures ts in calibrations ==> r * calibrations[ts] == value
    {
      if ts in calibrations then value / calibrations[ts] else value
    }

    /** calibrateMap: every channel divided by the factor; the same spectrum without one. */
    function CalibrateMap(data: Spectrum, ts: Series): (r: Spectrum)
      reads this
      requires ts in calibrations ==> calibrations[ts] != 0.0
      ensures ts !in calibrations ==> r == data
      ensures |r| == |data|
      ensures forall i :: 0 <= i < |data| ==> r[i] == Calibrate(data[i], ts)
    {
      if !Contains(ts) then data
      else
        var calibration := calibrations[ts];
        seq(|data|, i requires 0 <= i < |data| => data[i] / calibration)
    }

    /** getCalibrations: a copy of the map, in insertion order. The body is the
        contract: the copy holds the profile's own keys in their order, with their
        factors; the ensures add that it is well formed and which keys it holds. */
    function GetCalibrations(): (r: Linked)
      reads this
      requires Valid()
      ensures LinkedValid(r)
      ensures forall k :: k in r.values <==> Contains(k)
    {
      Linked(keys, calibrations)
    }

    /** getTransitionSeries(shell): the keys of that shell by ascending element ordinal. */
    function GetTransitionSeries(tst: Shell): (r: seq<Series>)
      reads this
      ensures forall ts :: ts in r <==> ts in keys && ts.shell == tst
      ensures SortedOn(r, ShellKey)
    {
      var f := Filter(keys, HasShell(tst));
      SortOnMembers(f, ShellKey);
      SortOnCorrect(f, ShellKey);
      SortOn(f, ShellKey)
    }

    /** getInterpolated: a copy of the interpolated list. */
    function GetInterpolated(): (r: seq<Series>)
      reads this
      ensures r == interpolated
    {
      interpolated
    }

    /** The series of one shell are exactly the keys of that shell, each once, sorted
        by element ordinal. */
    lemma TransitionSeriesOfShell(tst: Shell)
      requires Valid()
      ensures var r := GetTransitionSeries(tst);
        && (forall ts :: ts in r <==> ts in calibrations && ts.shell == tst)
        && multiset(r) == multiset(Filter(keys, HasShell(tst)))
        && SortedOn(r, ShellKey)
    {
      var f := Filter(keys, HasShell(tst));
      SortOnCorrect(f, ShellKey);
      SortOnMembers(f, ShellKey);
    }
  }

  /**
   * CalibrationNormalizer.process: with the anchor's factor present, normalises each
   * shell in turn against that factor, captured before any update; otherwise nothing.
   */
  method NormalizerProcess(p: CalibrationProfile)
    requires p.Valid()
    requires p.reference.anchor in p.calibrations ==> p.calibrations[p.reference.anchor] != 0.0
    modifies p`calibrations
    ensures p.Valid()
    ensures p.calibrations == Normalized(old(p.calibrations), p.reference.anchor)
  {
    var anchor := p.reference.anchor;
    if anchor !in p.calibrations {
      return;
    }
    var anchorValue := p.calibrations[anchor];
    ghost var m0 := p.calibrations;
    ghost var done: set<Shell> := {};
    for i := 0 to |Shells|
      invariant p.Valid()
      invariant done == set j | 0 <= j < i :: Shells[j]
      invariant p.calibrations == ShellsDivided(m0, done, anchorValue)
    {
      assert Shells[i] !in done;
      ShellsDividedStep(m0, done, Shells[i], anchorValue);
      Normalize(p, Shells[i], anchorValue);
      done := done + {Shells[i]};
    }
    AllShells();
    forall tst: Shell ensures tst in done {
      assert tst in Shells;
      var j :| 0 <= j < |Shells| && Shells[j] == tst;
    }
    assert p.calibrations == Divided(m0, anchorValue);
  }

  /** normalize: divides the factor of every key of shell `tst`, in key order. */
  method Normalize(p: CalibrationProfile, tst: Shell, against: real)
    requires p.Valid()
    requires against != 0.0
    modifies p`calibrations
    ensures p.Valid()
    ensures p.calibrations == DividedShell(old(p.calibrations), tst, against)
  {
    ghost var m0 := p.calibrations;
    var ks := p.keys;
    for j := 0 to |ks|
      invariant p.calibrations == DividedAmong(m0, ks[..j], tst, against)
    {
      var ts := ks[j];
      DividedAmongStep(m0, ks, j, tst, against);
      if ts.shell != tst {
        continue;
      }
      var value := p.calibrations[ts];
      p.calibrations := p.calibrations[ts := value / against];
    }
    DividedAmongAll(m0, ks, tst, against);
  }
}
