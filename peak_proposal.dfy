/**
 * PeakProposal: automatic proposal of transition series for a spectrum.
 *
 * Stage 1 drops every detected peak channel that an already fitted transition
 * explains. Stage 2 walks the remaining channels in order and greedily accepts the
 * best fresh guess for each channel, skipping a channel whose raw guesses already
 * contain an accepted series. Guesses for a channel come from a candidate universe
 * (the registry plus pairwise summations of fitted and proposed series, minus those
 * already fitted or proposed) shortlisted by a fast compound scorer and re-ranked by
 * a slower one.
 *
 * The peak searcher, energy calibration, peak width, fitting solver, summation and
 * the individual scorers are not part of this model; they are the fields of an
 * `Engine`. Cancellation is an oracle `abort` asked at each checkpoint in turn:
 * poll 0 after stage 1, then one poll per channel that stage 2 does not skip.
 */
module PeakProposal {
  import opened Types
  import opened FittingSets
  import opened CompoundScorer

  /** The sub-scorers of the two compound scorers. */
  datatype ScorerId = EnergyProximity | FastFitting | NoComplexPileup | PileupSource | CurveFitting | FastCompound

  /** A proposed series with its negated score (the source's Pair<TransitionSeries, Float>). */
  type Guess = (Series, real)

  /** The collaborators of a proposal run. */
  datatype Engine = Engine(
    search: Spectrum -> seq<int>,            // PeakSearcher.search
    energyFromChannel: int -> real,          // the fitted set's EnergyCalibration
    fwhm: Transition -> real,                // FittingParameters.getFWHM
    solve: (Spectrum, seq<Series>) -> Spectrum,  // the residual FittingSolver.solve leaves
    registry: seq<Series>,                   // PeakTable.SYSTEM.getAll()
    summation: (Series, Series) -> Series,   // TransitionSeries.summation
    subScore: (ScorerId, Spectrum, Spectrum, real, Series) -> Float)
      // a sub-scorer's score of a series, given the data, the residual and the channel energy

  /** The result of a search: the proposals, no result after an abort, or the
      exception raised when a channel has no guess at all. */
  datatype Outcome = Completed(proposals: seq<Series>) | Aborted | NoGuess(channel: int)

  // ===========================================================================
  // Stage 1: drop peaks already explained by fitted transitions

  /** Transition `t` explains `peak`: it is strong enough and the peak's energy lies
      strictly inside its half-width window. */
  predicate Covers(e: Engine, t: Transition, peak: int)
  {
    t.relativeIntensity >= 0.1 &&
    var hwhm := e.fwhm(t) / 2.0;
    t.energy - hwhm < e.energyFromChannel(peak) < t.energy + hwhm
  }

  predicate Explained(e: Engine, fitted: seq<Series>, peak: int)
  {
    exists ts, t :: ts in fitted && t in ts.transitions && Covers(e, t, peak)
  }

  function Unexplained(e: Engine, fitted: seq<Series>): int -> bool
  {
    peak => !Explained(e, fitted, peak)
  }

  /** The elements of `s` whose flag in `keep` is set. */
  function Select<T>(s: seq<T>, keep: seq<bool>): seq<T>
    requires |keep| == |s|
  {
    if s == [] then [] else (if keep[0] then [s[0]] else []) + Select(s[1..], keep[1..])
  }

  /** The first kept position holding `v`, or |s| if there is none. */
  function FirstKept<T(==)>(s: seq<T>, keep: seq<bool>, v: T): (j: nat)
    requires |keep| == |s|
    ensures j <= |s|
    ensures j < |s| ==> keep[j] && s[j] == v
    ensures forall i :: 0 <= i < j ==> !(keep[i] && s[i] == v)
  {
    if s == [] then 0
    else if keep[0] && s[0] == v then 0
    else 1 + FirstKept(s[1..], keep[1..], v)
  }

  /** Removing the first `v` from a selection clears the flag of its first kept occurrence. */
  lemma {:induction false} RemoveFirstSelect<T>(s: seq<T>, keep: seq<bool>, v: T)
    requires |keep| == |s|
    ensures var j := FirstKept(s, keep, v);
      RemoveFirst(Select(s, keep), v) == if j < |s| then Select(s, keep[j := false]) else Select(s, keep)
  {
    if s != [] {
      var j := FirstKept(s, keep, v);
      var rest := Select(s[1..], keep[1..]);
      if keep[0] && s[0] == v {
        assert j == 0;
        assert Select(s, keep) == [v] + rest;
        assert keep[0 := false][1..] == keep[1..];
        assert Select(s, keep[0 := false]) == rest;
      } else {
        RemoveFirstSelect(s[1..], keep[1..], v);
        var j' := FirstKept(s[1..], keep[1..], v);
        assert j == 1 + j';
        var rest' := if j < |s| then Select(s[1..], keep[1..][j' := false]) else rest;
        assert RemoveFirst(rest, v) == rest';
        if j < |s| {
          assert keep[j := false][1..] == keep[1..][j' := false];
          assert keep[j := false][0] == keep[0];
        }
        if keep[0] {
          assert Select(s, keep) == [s[0]] + rest;
        } else {
          assert Select(s, keep) == rest;
        }
      }
    }
  }

  lemma {:induction false} SelectFilter<T(!new)>(s: seq<T>, keep: seq<bool>, p: T -> bool)
    requires |keep| == |s|
    requires forall j :: 0 <= j < |s| ==> (keep[j] <==> p(s[j]))
    ensures Select(s, keep) == Filter(s, p)
  {
    if s != [] {
      SelectFilter(s[1..], keep[1..], p);
    }
  }

  lemma {:induction false} SelectAll<T>(s: seq<T>, keep: seq<bool>)
    requires |keep| == |s|
    requires forall j :: 0 <= j < |s| ==> keep[j]
    ensures Select(s, keep) == s
  {
    if s != [] {
      SelectAll(s[1..], keep[1..]);
    }
  }

  /** What the stage-1 loop keeps: `peaks` is the selection `kept` of the copy, the
      explained peaks before `idx` are gone and every unexplained peak is still there. */
  ghost predicate Pruned(e: Engine, fitted: seq<Series>, copy: seq<int>, kept: seq<bool>, peaks: seq<int>, idx: int)
  {
    |kept| == |copy| && peaks == Select(copy, kept)
    && (forall j :: 0 <= j < idx && j < |copy| && Explained(e, fitted, copy[j]) ==> !kept[j])
    && (forall j :: 0 <= j < |copy| && !Explained(e, fitted, copy[j]) ==> kept[j])
  }

  /** Some transition of `ts` explains `peak`. */
  ghost predicate CoveredBy(e: Engine, ts: seq<Transition>, peak: int)
  {
    exists t :: t in ts && Covers(e, t, peak)
  }

  /** Removing the explained peak at `idx` from `peaks` clears the flag of its first
      kept occurrence: the peak at `idx` itself when it is still kept, since every
      earlier equal peak is explained too and so already gone. */
  lemma RemoveStep(e: Engine, fitted: seq<Series>, copy: seq<int>, kept: seq<bool>, peaks: seq<int>, idx: int)
    returns (kept': seq<bool>)
    requires 0 <= idx < |copy| && Pruned(e, fitted, copy, kept, peaks, idx)
    requires Explained(e, fitted, copy[idx])
    ensures Pruned(e, fitted, copy, kept', RemoveFirst(peaks, copy[idx]), idx)
    ensures !kept'[idx]
    ensures forall j :: 0 <= j < |copy| && !kept[j] ==> !kept'[j]
  {
    RemoveFirstSelect(copy, kept, copy[idx]);
    var j := FirstKept(copy, kept, copy[idx]);
    kept' := if j < |copy| then kept[j := false] else kept;
    if j < |copy| {
      assert copy[j] == copy[idx];
    }
    assert forall i :: 0 <= i < idx && copy[i] == copy[idx] ==> !kept[i];
  }

  /** Extending the scanned transitions by one. */
  lemma CoveredByStep(e: Engine, ts: seq<Transition>, k: int, peak: int)
    requires 0 <= k < |ts|
    ensures CoveredBy(e, ts[..k + 1], peak) <==> CoveredBy(e, ts[..k], peak) || Covers(e, ts[k], peak)
    ensures ts[..|ts|] == ts
  {
    assert ts[..k + 1] == ts[..k] + [ts[k]];
  }

  /** Extending the scanned fitted series by one. */
  lemma ExplainedStep(e: Engine, fitted: seq<Series>, f: int, peak: int)
    requires 0 <= f < |fitted|
    ensures Explained(e, fitted[..f + 1], peak) ==>
              Explained(e, fitted[..f], peak) || CoveredBy(e, fitted[f].transitions, peak)
    ensures fitted[..|fitted|] == fitted
  {
    assert fitted[..f + 1] == fitted[..f] + [fitted[f]];
  }

  /** Once the peak at `idx` is gone if explained, the invariant moves past it. */
  lemma PrunedNext(e: Engine, fitted: seq<Series>, copy: seq<int>, kept: seq<bool>, peaks: seq<int>, idx: int)
    requires 0 <= idx < |copy| && Pruned(e, fitted, copy, kept, peaks, idx)
    requires Explained(e, fitted, copy[idx]) ==> !kept[idx]
    ensures Pruned(e, fitted, copy, kept, peaks, idx + 1)
  {
  }

  /**
   * The stage-1 loop: for every detected peak (iterating over a copy), every fitted
   * series and every transition of at least 0.1 relative intensity whose window
   * holds the peak's energy, the first equal element still in `peaks` is removed.
   */
  method RemoveExplained(e: Engine, fitted: seq<Series>, detected: seq<int>) returns (peaks: seq<int>)
    ensures peaks == Filter(detected, Unexplained(e, fitted))
  {
    peaks := detected;
    var copy := detected;
    ghost var kept := seq(|copy|, _ => true);
    SelectAll(copy, kept);
    for idx := 0 to |copy|
      invariant Pruned(e, fitted, copy, kept, peaks, idx)
    {
      var peak := copy[idx];
      for f := 0 to |fitted|
        invariant Pruned(e, fitted, copy, kept, peaks, idx)
        invariant Explained(e, fitted[..f], peak) ==> !kept[idx]
      {
        var ts := fitted[f];
        for k := 0 to |ts.transitions|
          invariant Pruned(e, fitted, copy, kept, peaks, idx)
          invariant Explained(e, fitted[..f], peak) ==> !kept[idx]
          invariant CoveredBy(e, ts.transitions[..k], peak) ==> !kept[idx]
        {
          var t := ts.transitions[k];
          CoveredByStep(e, ts.transitions, k, peak);
          if t.relativeIntensity < 0.1 {
            continue;
          }
          var hwhm := e.fwhm(t) / 2.0;
          var lo := t.energy - hwhm;
          var hi := t.energy + hwhm;
          var energy := e.energyFromChannel(peak);
          if lo < energy && energy < hi {
            assert Covers(e, t, peak);
            assert Explained(e, fitted, peak) by {
              assert ts in fitted && t in ts.transitions;
            }
            kept := RemoveStep(e, fitted, copy, kept, peaks, idx);
            peaks := RemoveFirst(peaks, peak);
          }
        }
        ExplainedStep(e, fitted, f, peak);
      }
      PrunedNext(e, fitted, copy, kept, peaks, idx);
    }
    SelectFilter(copy, kept, Unexplained(e, fitted));
  }

  /** With no fitted transition of relative intensity 0.1 or more, stage 1 drops nothing. */
  lemma WeakLinesNeverDrop(e: Engine, fitted: seq<Series>, detected: seq<int>)
    requires forall ts, t :: ts in fitted && t in ts.transitions ==> t.relativeIntensity < 0.1
    ensures Filter(detected, Unexplained(e, fitted)) == detected
  {
    FilterAll(detected, Unexplained(e, fitted));
  }

  // ===========================================================================
  // The candidate universe of fromChannel

  /** The series whose pairwise summations are added: fitted then proposed, without
      the first occurrence of the re-suggested series when it is used. */
  function SummationCandidates(fits: seq<Series>, proposed: seq<Series>, current: Option<Series>, used: bool): seq<Series>
    requires used ==> current.Some?
  {
    if used then RemoveFirst(fits + proposed, current.value) else fits + proposed
  }

  /** The summations of `x` with each of `ys`, in order. */
  function Row(x: Series, ys: seq<Series>, sum: (Series, Series) -> Series): (r: seq<Series>)
    ensures |r| == |ys|
    ensures forall j :: 0 <= j < |ys| ==> r[j] == sum(x, ys[j])
  {
    seq(|ys|, j requires 0 <= j < |ys| => sum(x, ys[j]))
  }

  /** All summations sum(a, b), a from `xs` (outer loop) and b from `ys` (inner loop). */
  function Pairwise(xs: seq<Series>, ys: seq<Series>, sum: (Series, Series) -> Series): seq<Series>
  {
    if xs == [] then [] else Pairwise(xs[..|xs| - 1], ys, sum) + Row(xs[|xs| - 1], ys, sum)
  }

  lemma {:induction false} PairwiseMembers(xs: seq<Series>, ys: seq<Series>, sum: (Series, Series) -> Series)
    ensures forall a, b :: a in xs && b in ys ==> sum(a, b) in Pairwise(xs, ys, sum)
    ensures forall x :: x in Pairwise(xs, ys, sum) ==> exists a, b :: a in xs && b in ys && x == sum(a, b)
  {
    if xs != [] {
      var init := xs[..|xs| - 1];
      var last := xs[|xs| - 1];
      PairwiseMembers(init, ys, sum);
      assert xs == init + [last];
      var row := Row(last, ys, sum);
      forall a, b | a in xs && b in ys ensures sum(a, b) in Pairwise(xs, ys, sum) {
        if a == last {
          var j :| 0 <= j < |ys| && ys[j] == b;
          assert row[j] == sum(a, b);
        }
      }
      forall x | x in Pairwise(xs, ys, sum) ensures exists a, b :: a in xs && b in ys && x == sum(a, b) {
        if x in row {
          var j :| 0 <= j < |row| && row[j] == x;
          assert last in xs && ys[j] in ys && x == sum(last, ys[j]);
        } else {
          assert x in Pairwise(init, ys, sum);
          var a, b :| a in init && b in ys && x == sum(a, b);
          assert a in xs;
        }
      }
    }
  }

  /**
   * The candidates of fromChannel: the registry and all pairwise summations of the
   * summation candidates, minus every fitted series, minus every proposed series,
   * plus the re-suggested series when it is used, without duplicates.
   */
  function Universe(e: Engine, fits: seq<Series>, proposed: seq<Series>, current: Option<Series>, used: bool): seq<Series>
    requires used ==> current.Some?
  {
    var sc := SummationCandidates(fits, proposed, current, used);
    var tss := e.registry + Pairwise(sc, sc, e.summation);
    var pruned := RemoveAll(RemoveAll(tss, fits), proposed);
    Dedup(if used then pruned + [current.value] else pruned)
  }

  /** Every candidate is the re-suggested series or neither fitted nor proposed. */
  lemma CandidatesAreFresh(e: Engine, fits: seq<Series>, proposed: seq<Series>, current: Option<Series>, used: bool, x: Series)
    requires used ==> current.Some?
    requires x in Universe(e, fits, proposed, current, used)
    ensures (used && x == current.value) || (x !in fits && x !in proposed)
  {
  }

  /** Every registry series and every summation of two summation candidates that is
      neither fitted nor proposed is a candidate; so is the re-suggested series. */
  lemma CandidatesAreComplete(e: Engine, fits: seq<Series>, proposed: seq<Series>, current: Option<Series>, used: bool)
    requires used ==> current.Some?
    ensures forall x :: x in e.registry && x !in fits && x !in proposed ==> x in Universe(e, fits, proposed, current, used)
    ensures var sc := SummationCandidates(fits, proposed, current, used);
      forall a, b :: a in sc && b in sc && e.summation(a, b) !in fits && e.summation(a, b) !in proposed ==>
        e.summation(a, b) in Universe(e, fits, proposed, current, used)
    ensures used ==> current.value in Universe(e, fits, proposed, current, used)
  {
    var sc := SummationCandidates(fits, proposed, current, used);
    PairwiseMembers(sc, sc, e.summation);
  }

  /** The registry holds no empty series, and summing two non-empty series gives a
      non-empty series. */
  ghost predicate WellFormed(e: Engine)
  {
    (forall s :: s in e.registry ==> s.transitions != []) &&
    (forall a: Series, b: Series :: a.transitions != [] && b.transitions != [] ==> e.summation(a, b).transitions != [])
  }

  lemma CandidatesNonEmpty(e: Engine, fits: seq<Series>, proposed: seq<Series>, current: Option<Series>, used: bool)
    requires used ==> current.Some? && current.value.transitions != []
    requires WellFormed(e)
    requires forall s :: s in fits + proposed ==> s.transitions != []
    ensures forall x :: x in Universe(e, fits, proposed, current, used) ==> x.transitions != []
  {
    var sc := SummationCandidates(fits, proposed, current, used);
    PairwiseMembers(sc, sc, e.summation);
  }

  // ===========================================================================
  // Scoring and ranking

  /** The fast compound scorer's weights (10, 10, 2 and 1) and their total. */
  const FastWeights: map<ScorerId, real> := map[EnergyProximity := 10.0, FastFitting := 10.0, NoComplexPileup := 2.0, PileupSource := 1.0]
  const FastTotal: real := 23.0

  /** The good compound scorer: the fast compound scorer at 23, curve fitting at 10. */
  const GoodWeights: map<ScorerId, real> := map[FastCompound := 23.0, CurveFitting := 10.0]
  const GoodTotal: real := 33.0

  function SubScores(e: Engine, data: Spectrum, residual: Spectrum, energy: real, ts: Series): ScorerId -> Float
  {
    k => e.subScore(k, data, residual, energy, ts)
  }

  /** The good scorer's sub-scores, `fast` being the fast compound scorer's score. */
  function GoodSubScores(e: Engine, data: Spectrum, residual: Spectrum, energy: real, ts: Series, fast: real): ScorerId -> Float
  {
    k => if k == FastCompound then Num(fast) else e.subScore(k, data, residual, energy, ts)
  }

  ghost function FastScore(e: Engine, data: Spectrum, residual: Spectrum, energy: real, ts: Series): real
  {
    Product(FastWeights.Keys, Weighted(FastWeights, FastTotal, SubScores(e, data, residual, energy, ts)))
  }

  ghost function GoodScore(e: Engine, data: Spectrum, residual: Spectrum, energy: real, ts: Series): real
  {
    Product(GoodWeights.Keys, Weighted(GoodWeights, GoodTotal,
      GoodSubScores(e, data, residual, energy, ts, FastScore(e, data, residual, energy, ts))))
  }

  ghost function FastFn(e: Engine, data: Spectrum, residual: Spectrum, energy: real): Series -> real
  {
    ts => FastScore(e, data, residual, energy, ts)
  }

  ghost function GoodFn(e: Engine, data: Spectrum, residual: Spectrum, energy: real): Series -> real
  {
    ts => GoodScore(e, data, residual, energy, ts)
  }

  /** A candidate whose energy-proximity, fast-fitting, pile-up or pile-up-source
      score is 0 or NaN scores 0 with both compound scorers. */
  lemma ZeroSubScoreZeroesBoth(e: Engine, data: Spectrum, residual: Spectrum, energy: real, ts: Series, k: ScorerId)
    requires k in FastWeights
    requires var f := e.subScore(k, data, residual, energy, ts); f.NaN? || f == Num(0.0)
    ensures FastScore(e, data, residual, energy, ts) == 0.0
    ensures GoodScore(e, data, residual, energy, ts) == 0.0
  {
    ZeroSubScore(FastWeights, FastTotal, SubScores(e, data, residual, energy, ts), k);
    ZeroSubScore(GoodWeights, GoodTotal, GoodSubScores(e, data, residual, energy, ts, 0.0), FastCompound);
  }

  /** Each series paired with its negated score. */
  function Scored(xs: seq<Series>, score: Series -> real): (r: seq<Guess>)
    ensures |r| == |xs|
    ensures forall i :: 0 <= i < |xs| ==> r[i] == (xs[i], -score(xs[i]))
  {
    seq(|xs|, i requires 0 <= i < |xs| => (xs[i], -score(xs[i])))
  }

  /** The ranking stream: sort by negated fast score, keep the first k, pair each with
      its negated good score and sort by that. */
  function Rank(cands: seq<Series>, fast: Series -> real, good: Series -> real, k: nat): seq<Guess>
  {
    SortByKey(Scored(ShortlistOf(cands, fast, k), good))
  }

  /** Scoring one more series appends its pair. */
  lemma ScoredStep(xs: seq<Series>, score: Series -> real, i: int)
    requires 0 <= i < |xs|
    ensures Scored(xs[..i + 1], score) == Scored(xs[..i], score) + [(xs[i], -score(xs[i]))]
  {
    var a := Scored(xs[..i + 1], score);
    var b := Scored(xs[..i], score) + [(xs[i], -score(xs[i]))];
    assert forall j :: 0 <= j < |a| ==> a[j] == b[j];
  }

  lemma ScoredMember(xs: seq<Series>, score: Series -> real, p: Guess)
    requires p in Scored(xs, score)
    ensures p.0 in xs && p.1 == -score(p.0)
  {
  }

  /** Sorting scored series keeps each series with its own score. */
  lemma SortedScored(xs: seq<Series>, score: Series -> real)
    ensures var r := SortByKey(Scored(xs, score));
      && |r| == |xs|
      && SortedByKey(r)
      && (forall p :: p in r ==> p.0 in xs && p.1 == -score(p.0))
      && (forall x :: x in xs ==> (x, -score(x)) in r)
  {
    var a := Scored(xs, score);
    SortByKeyCorrect(a);
    SortByKeyMembers(a);
    forall x | x in xs ensures (x, -score(x)) in a {
      var i :| 0 <= i < |xs| && xs[i] == x;
      assert a[i] == (x, -score(x));
    }
    forall p | p in a ensures p.0 in xs && p.1 == -score(p.0) {
      var i :| 0 <= i < |a| && a[i] == p;
    }
  }

  /** The first k series by fast score. */
  function ShortlistOf(cands: seq<Series>, fast: Series -> real, k: nat): seq<Series>
  {
    Firsts(Take(SortByKey(Scored(cands, fast)), k))
  }

  lemma ShortlistMembers(cands: seq<Series>, fast: Series -> real, k: nat)
    ensures forall x :: x in ShortlistOf(cands, fast, k) ==> x in cands
  {
    SortedScored(cands, fast);
    var b := SortByKey(Scored(cands, fast));
    var l := ShortlistOf(cands, fast, k);
    forall x | x in l ensures x in cands {
      var i :| 0 <= i < |l| && l[i] == x;
      assert b[i] in b;
    }
  }

  /** In a sorted list, a pair outside the first k has a key no smaller than any of them. */
  lemma TakeSortedBest(b: seq<Guess>, k: nat, i: nat, y: Guess)
    requires SortedByKey(b)
    requires i < |Take(b, k)| && y in b && y.0 !in Firsts(Take(b, k))
    ensures b[i].1 <= y.1
  {
    var t := Take(b, k);
    var m :| 0 <= m < |b| && b[m] == y;
    assert m >= |t| by {
      assert forall j :: 0 <= j < |t| ==> Firsts(t)[j] == b[j].0;
    }
  }

  lemma ShortlistBest(cands: seq<Series>, fast: Series -> real, k: nat, x: Series, y: Series)
    requires x in ShortlistOf(cands, fast, k) && y in cands && y !in ShortlistOf(cands, fast, k)
    ensures fast(y) <= fast(x)
  {
    var b := SortByKey(Scored(cands, fast));
    var l := Firsts(Take(b, k));
    SortByKeyCorrect(Scored(cands, fast));
    var i :| 0 <= i < |l| && l[i] == x;
    SortedScoredPair(cands, fast, b[i]);
    SortedScoredHas(cands, fast, y);
    TakeSortedBest(b, k, i, (y, -fast(y)));
  }

  lemma SortedScoredPair(xs: seq<Series>, score: Series -> real, p: Guess)
    requires p in SortByKey(Scored(xs, score))
    ensures p.1 == -score(p.0)
  {
    SortByKeyMembers(Scored(xs, score));
  }

  lemma SortedScoredHas(xs: seq<Series>, score: Series -> real, y: Series)
    requires y in xs
    ensures (y, -score(y)) in SortByKey(Scored(xs, score))
  {
    SortByKeyMembers(Scored(xs, score));
    var j :| 0 <= j < |xs| && xs[j] == y;
    assert Scored(xs, score)[j] == (y, -score(y));
  }

  /** The first k by fast score: no candidate left out scores better than one kept. */
  lemma Shortlist(cands: seq<Series>, fast: Series -> real, k: nat)
    ensures var l := ShortlistOf(cands, fast, k);
      && |l| == (if k < |cands| then k else |cands|)
      && (forall x :: x in l ==> x in cands)
      && (forall x, y :: x in l && y in cands && y !in l ==> fast(y) <= fast(x))
  {
    SortedScored(cands, fast);
    ShortlistMembers(cands, fast, k);
    var l := ShortlistOf(cands, fast, k);
    forall x, y | x in l && y in cands && y !in l ensures fast(y) <= fast(x) {
      ShortlistBest(cands, fast, k, x, y);
    }
  }

  /** Every shortlisted series is ranked. */
  lemma RankKeepsShortlist(l: seq<Series>, good: Series -> real)
    ensures forall y :: y in l ==> y in Firsts(SortByKey(Scored(l, good)))
  {
    SortedScored(l, good);
    var r := SortByKey(Scored(l, good));
    forall y | y in l ensures y in Firsts(r) {
      var q :| 0 <= q < |r| && r[q] == (y, -good(y));
      assert Firsts(r)[q] == y;
    }
  }

  /**
   * The ranking keeps min(k, |cands|) candidates, ordered by descending good score,
   * and those are the best by fast score: every candidate left out scores no better.
   */
  lemma RankCorrect(cands: seq<Series>, fast: Series -> real, good: Series -> real, k: nat)
    ensures var r := Rank(cands, fast, good, k);
      && |r| == (if k < |cands| then k else |cands|)
      && SortedByKey(r)
      && (forall i :: 0 <= i < |r| ==> r[i].0 in cands && r[i].1 == -good(r[i].0))
      && (forall i, y :: 0 <= i < |r| && y in cands && y !in Firsts(r) ==> fast(y) <= fast(r[i].0))
  {
    Shortlist(cands, fast, k);
    var l := ShortlistOf(cands, fast, k);
    SortedScored(l, good);
    RankKeepsShortlist(l, good);
    var r := SortByKey(Scored(l, good));
    assert r == Rank(cands, fast, good, k);
    forall i | 0 <= i < |r| ensures r[i].0 in l && r[i].1 == -good(r[i].0) {
      assert r[i] in r;
    }
  }

  // ===========================================================================
  // fromChannel

  /** `proposed` after fromChannel: a used re-suggested series moves to the end. */
  function Reinserted(proposed: seq<Series>, current: Option<Series>): seq<Series>
  {
    if current.Some? && current.value in proposed
    then RemoveFirst(proposed, current.value) + [current.value]
    else proposed
  }

  lemma ReinsertedSameMembers(proposed: seq<Series>, current: Option<Series>)
    ensures |Reinserted(proposed, current)| == |proposed|
    ensures forall x :: x in Reinserted(proposed, current) <==> x in proposed
  {
  }

  /** The guesses fromChannel returns for `channel`, given the fitted and proposed lists. */
  ghost function Guesses(data: Spectrum, e: Engine, fits: seq<Series>, proposed: seq<Series>, channel: int,
                         current: Option<Series>, guessCount: nat): seq<Guess>
  {
    var used := current.Some? && current.value in proposed;
    var solvedAgainst := if used then RemoveFirst(proposed, current.value) else proposed;
    var residual := e.solve(e.solve(data, fits), solvedAgainst);
    var energy := e.energyFromChannel(channel);
    Rank(Universe(e, fits, Reinserted(proposed, current), current, used),
         FastFn(e, data, residual, energy), GoodFn(e, data, residual, energy), guessCount)
  }

  /** Every guess is the re-suggested series or neither fitted nor proposed; there are
      at most guessCount of them, ordered by descending good score. */
  lemma GuessesFresh(data: Spectrum, e: Engine, fits: seq<Series>, proposed: seq<Series>, channel: int,
                     current: Option<Series>, guessCount: nat)
    ensures var gs := Guesses(data, e, fits, proposed, channel, current, guessCount);
      && |gs| <= guessCount
      && SortedByKey(gs)
      && forall i :: 0 <= i < |gs| ==>
           (current.Some? && gs[i].0 == current.value && current.value in proposed)
           || (gs[i].0 !in fits && gs[i].0 !in proposed)
  {
    var used := current.Some? && current.value in proposed;
    var solvedAgainst := if used then RemoveFirst(proposed, current.value) else proposed;
    var residual := e.solve(e.solve(data, fits), solvedAgainst);
    var energy := e.energyFromChannel(channel);
    var after := Reinserted(proposed, current);
    var u := Universe(e, fits, after, current, used);
    RankCorrect(u, FastFn(e, data, residual, energy), GoodFn(e, data, residual, energy), guessCount);
    ReinsertedSameMembers(proposed, current);
    var gs := Guesses(data, e, fits, proposed, channel, current, guessCount);
    forall i | 0 <= i < |gs|
      ensures (current.Some? && gs[i].0 == current.value && current.value in proposed)
           || (gs[i].0 !in fits && gs[i].0 !in proposed)
    {
      CandidatesAreFresh(e, fits, after, current, used, gs[i].0);
    }
  }

  /** With no re-suggested series, guesses are fresh and non-empty series. */
  lemma FirstGuessFresh(data: Spectrum, e: Engine, fits: seq<Series>, proposed: seq<Series>, channel: int, guessCount: nat)
    requires WellFormed(e)
    requires forall s :: s in fits + proposed ==> s.transitions != []
    ensures forall g :: g in Guesses(data, e, fits, proposed, channel, None, guessCount) ==>
      g.0 !in fits && g.0 !in proposed && g.0.transitions != []
  {
    var residual := e.solve(e.solve(data, fits), proposed);
    var energy := e.energyFromChannel(channel);
    var u := Universe(e, fits, proposed, None, false);
    RankCorrect(u, FastFn(e, data, residual, energy), GoodFn(e, data, residual, energy), guessCount);
    CandidatesNonEmpty(e, fits, proposed, None, false);
    GuessesFresh(data, e, fits, proposed, channel, None, guessCount);
  }

  /**
   * fromChannel: solves the fitted and the proposed series (without a used
   * re-suggested series), builds the candidate universe and ranks it.
   */
  method FromChannel(data: Spectrum, e: Engine, fits: FittingSet, proposed: FittingSet, channel: int,
                     current: Option<Series>, guessCount: nat) returns (guesses: seq<Guess>)
    requires fits.Valid() && proposed.Valid() && fits != proposed
    modifies proposed`series
    ensures proposed.Valid()
    ensures proposed.series == Reinserted(old(proposed.series), current)
    ensures guesses == Guesses(data, e, fits.series, old(proposed.series), channel, current, guessCount)
  {
    ghost var proposed0 := proposed.series;
    var used := current.Some? && current.value in proposed.series;
    if used {
      proposed.Remove(current.value);
    }
    var fitResidual := e.solve(data, fits.series);
    var residual := e.solve(fitResidual, proposed.series);
    if used {
      proposed.Add(current.value);
    }
    assert proposed.series == Reinserted(proposed0, current);
    var energy := e.energyFromChannel(channel);
    var tss := CandidateList(e, fits.series, proposed.series, current, used);
    guesses := RankCandidates(data, e, residual, energy, tss, guessCount);
  }

  /** The candidate list of fromChannel: registry and summations, pruned and deduplicated. */
  method CandidateList(e: Engine, fits: seq<Series>, proposed: seq<Series>, current: Option<Series>, used: bool)
    returns (tss: seq<Series>)
    requires used ==> current.Some?
    ensures tss == Universe(e, fits, proposed, current, used)
  {
    var sc := fits + proposed;
    if used {
      sc := RemoveFirst(sc, current.value);
    }
    var pairs := SummationPairs(sc, e.summation);
    tss := e.registry + pairs;
    tss := RemoveAll(tss, fits);
    tss := RemoveAll(tss, proposed);
    if used {
      tss := tss + [current.value];
    }
    tss := Dedup(tss);
  }

  /** The nested loop adding the summation of every pair of candidates. */
  method SummationPairs(sc: seq<Series>, sum: (Series, Series) -> Series) returns (pairs: seq<Series>)
    ensures pairs == Pairwise(sc, sc, sum)
  {
    pairs := [];
    for i := 0 to |sc|
      invariant pairs == Pairwise(sc[..i], sc, sum)
    {
      for j := 0 to |sc|
        invariant pairs == Pairwise(sc[..i], sc, sum) + Row(sc[i], sc[..j], sum)
      {
        assert Row(sc[i], sc[..j + 1], sum) == Row(sc[i], sc[..j], sum) + [sum(sc[i], sc[j])];
        pairs := pairs + [sum(sc[i], sc[j])];
      }
      assert sc[..i + 1][..i] == sc[..i];
      assert sc[..|sc|] == sc;
    }
    assert sc[..|sc|] == sc;
  }

  /** The fast compound scorer of fromChannel. */
  method NewFastScorer() returns (fast: CompoundFittingScorer<ScorerId>)
    ensures fresh(fast)
    ensures fast.scorers == FastWeights && fast.totalWeight == FastTotal
  {
    fast := new CompoundFittingScorer<ScorerId>();
    fast.Add(EnergyProximity, 10.0);
    fast.Add(FastFitting, 10.0);
    fast.Add(NoComplexPileup, 2.0);
    fast.Add(PileupSource, 1.0);
  }

  /** The good compound scorer of fromChannel (the fast one enters as a sub-scorer). */
  method NewGoodScorer() returns (good: CompoundFittingScorer<ScorerId>)
    ensures fresh(good)
    ensures good.scorers == GoodWeights && good.totalWeight == GoodTotal
  {
    good := new CompoundFittingScorer<ScorerId>();
    good.Add(FastCompound, 23.0);
    good.Add(CurveFitting, 10.0);
  }

  /** Scores every candidate with the fast compound scorer. */
  method FastPass(fast: CompoundFittingScorer<ScorerId>, data: Spectrum, e: Engine, residual: Spectrum, energy: real,
                  tss: seq<Series>) returns (byFast: seq<Guess>)
    requires fast.scorers == FastWeights && fast.totalWeight == FastTotal
    ensures byFast == Scored(tss, FastFn(e, data, residual, energy))
  {
    byFast := [];
    for i := 0 to |tss|
      invariant byFast == Scored(tss[..i], FastFn(e, data, residual, energy))
    {
      ScoredStep(tss, FastFn(e, data, residual, energy), i);
      var score := fast.Score(SubScores(e, data, residual, energy, tss[i]));
      byFast := byFast + [(tss[i], -score)];
    }
    assert tss[..|tss|] == tss;
  }

  /** Scores every shortlisted candidate with the good compound scorer. */
  method GoodPass(fast: CompoundFittingScorer<ScorerId>, good: CompoundFittingScorer<ScorerId>, data: Spectrum,
                  e: Engine, residual: Spectrum, energy: real, shortlist: seq<Series>) returns (byGood: seq<Guess>)
    requires fast.scorers == FastWeights && fast.totalWeight == FastTotal
    requires good.scorers == GoodWeights && good.totalWeight == GoodTotal
    ensures byGood == Scored(shortlist, GoodFn(e, data, residual, energy))
  {
    byGood := [];
    for i := 0 to |shortlist|
      invariant byGood == Scored(shortlist[..i], GoodFn(e, data, residual, energy))
    {
      ScoredStep(shortlist, GoodFn(e, data, residual, energy), i);
      var fastScore := fast.Score(SubScores(e, data, residual, energy, shortlist[i]));
      var score := good.Score(GoodSubScores(e, data, residual, energy, shortlist[i], fastScore));
      byGood := byGood + [(shortlist[i], -score)];
    }
    assert shortlist[..|shortlist|] == shortlist;
  }

  /** The ranking stream of fromChannel, with both compound scorers. */
  method RankCandidates(data: Spectrum, e: Engine, residual: Spectrum, energy: real, tss: seq<Series>, guessCount: nat)
    returns (guesses: seq<Guess>)
    ensures guesses == Rank(tss, FastFn(e, data, residual, energy), GoodFn(e, data, residual, energy), guessCount)
  {
    var fast := NewFastScorer();
    var good := NewGoodScorer();
    var byFast := FastPass(fast, data, e, residual, energy, tss);
    var shortlist := Firsts(Take(SortByKey(byFast), guessCount));
    var byGood := GoodPass(fast, good, data, e, residual, energy, shortlist);
    guesses := SortByKey(byGood);
  }

  // ===========================================================================
  // The search

  /** proposalsContainsGuess: some guessed series is already proposed. */
  function ContainsGuess(proposals: seq<Series>, guesses: seq<Guess>): (r: bool)
    ensures r <==> exists g :: g in guesses && g.0 in proposals
  {
    if guesses == [] then false
    else if guesses[0].0 in proposals then true
    else ContainsGuess(proposals, guesses[1..])
  }

  /**
   * The check on line 145 asks whether the list of fitted series contains the
   * (series, score) pair itself. A pair never equals a series, so the answer is
   * always no and the guess is always accepted.
   */
  function FittedContainsPair(fitted: seq<Series>, guess: Guess): bool
  {
    false
  }

  /** makeGuesses: one raw guess list per peak channel, computed with no proposals. */
  ghost function RawGuesses(data: Spectrum, e: Engine, fits: seq<Series>, proposed: seq<Series>, peaks: seq<int>)
    : (r: map<int, seq<Guess>>)
    ensures forall c :: c in r <==> c in peaks
    ensures forall c :: c in r ==> r[c] == Guesses(data, e, fits, proposed, c, None, 5)
  {
    if peaks == [] then map[]
    else
      var c := peaks[|peaks| - 1];
      assert peaks == peaks[..|peaks| - 1] + [c];
      RawGuesses(data, e, fits, proposed, peaks[..|peaks| - 1])[c := Guesses(data, e, fits, proposed, c, None, 5)]
  }

  method MakeGuesses(data: Spectrum, e: Engine, peaks: seq<int>, fits: FittingSet, proposals: FittingSet)
    returns (guesses: map<int, seq<Guess>>)
    requires fits.Valid() && proposals.Valid() && fits != proposals
    modifies proposals
    ensures proposals.Valid()
    ensures proposals.series == old(proposals.series)
    ensures guesses == RawGuesses(data, e, fits.series, proposals.series, peaks)
  {
    guesses := map[];
    for i := 0 to |peaks|
      invariant proposals.Valid()
      invariant proposals.series == old(proposals.series)
      invariant guesses == RawGuesses(data, e, fits.series, proposals.series, peaks[..i])
    {
      RawGuessesStep(data, e, fits.series, proposals.series, peaks, i);
      var g := FromChannel(data, e, fits, proposals, peaks[i], None, 5);
      guesses := guesses[peaks[i] := g];
    }
    assert peaks[..|peaks|] == peaks;
  }

  /** One more peak channel adds its guesses to the raw map. */
  lemma RawGuessesStep(data: Spectrum, e: Engine, fits: seq<Series>, proposed: seq<Series>, peaks: seq<int>, i: int)
    requires 0 <= i < |peaks|
    ensures RawGuesses(data, e, fits, proposed, peaks[..i + 1])
         == RawGuesses(data, e, fits, proposed, peaks[..i])[peaks[i] := Guesses(data, e, fits, proposed, peaks[i], None, 5)]
  {
    var q := peaks[..i + 1];
    assert q[..|q| - 1] == peaks[..i] && q[|q| - 1] == peaks[i];
  }

  /**
   * The stage-2 loop from the next channel to examine (`peaks[idx]`), the series
   * accepted so far, the proposals list, the next abort poll and the work units
   * completed so far.
   */
  ghost function Stage2(data: Spectrum, e: Engine, fits: seq<Series>, peaks: seq<int>, raw: map<int, seq<Guess>>,
                        idx: nat, newFits: seq<Series>, proposed: seq<Series>, abort: nat -> bool, poll: nat,
                        work: nat): (Outcome, nat)
    requires idx <= |peaks|
    requires forall c :: c in peaks ==> c in raw
    decreases |peaks| - idx
  {
    if idx == |peaks| then (Completed(newFits), work)
    else
      var channel := peaks[idx];
      if ContainsGuess(newFits, raw[channel]) then
        Stage2(data, e, fits, peaks, raw, idx + 1, newFits, proposed, abort, poll, work)
      else if abort(poll) then (Aborted, work)
      else
        var guesses := Guesses(data, e, fits, proposed, channel, None, 5);
        if guesses == [] then (NoGuess(channel), work)
        else
          var g := guesses[0].0;
          var accept := !FittedContainsPair(fits, guesses[0]);
          Stage2(data, e, fits, peaks, raw, idx + 1,
                 if accept then newFits + [g] else newFits,
                 if accept then Added(proposed, g) else proposed, abort, poll + 1, work + 1)
  }

  ghost function SearchSpec(data: Spectrum, e: Engine, fits: seq<Series>, abort: nat -> bool): (Outcome, nat)
  {
    var peaks := Filter(e.search(data), Unexplained(e, fits));
    if abort(0) then (Aborted, 0)
    else Stage2(data, e, fits, peaks, RawGuesses(data, e, fits, [], peaks), 0, [], [], abort, 1, 0)
  }

  /**
   * The search job: stage 1, the abort check, the raw guesses, then the greedy
   * stage-2 loop. `work` counts the stage-2 work units completed. The fitted set is
   * only read.
   */
  method Search(data: Spectrum, e: Engine, fits: FittingSet, abort: nat -> bool) returns (outcome: Outcome, work: nat)
    requires fits.Valid()
    ensures (outcome, work) == SearchSpec(data, e, fits.series, abort)
    ensures abort(0) ==> outcome == Aborted
  {
    var peaks := RemoveExplained(e, fits.series, e.search(data));
    if abort(0) {
      return Aborted, 0;
    }
    var proposals := new FittingSet(fits.params);
    var raw := MakeGuesses(data, e, peaks, fits, proposals);
    outcome, work := SecondStage(data, e, fits, peaks, raw, proposals, abort);
  }

  /** The stage-2 loop of the search job, from an empty proposals set. */
  method SecondStage(data: Spectrum, e: Engine, fits: FittingSet, peaks: seq<int>, raw: map<int, seq<Guess>>,
                     proposals: FittingSet, abort: nat -> bool) returns (outcome: Outcome, work: nat)
    requires fits.Valid() && proposals.Valid() && fits != proposals
    requires proposals.series == []
    requires forall c :: c in peaks ==> c in raw
    modifies proposals
    ensures (outcome, work) == Stage2(data, e, fits.series, peaks, raw, 0, [], [], abort, 1, 0)
  {
    var newFits: seq<Series> := [];
    var poll: nat := 1;
    work := 0;
    var idx := 0;
    while idx < |peaks|
      invariant 0 <= idx <= |peaks|
      invariant proposals.Valid()
      invariant Stage2(data, e, fits.series, peaks, raw, idx, newFits, proposals.series, abort, poll, work)
             == Stage2(data, e, fits.series, peaks, raw, 0, [], [], abort, 1, 0)
    {
      var channel := peaks[idx];
      var rawGuesses := raw[channel];
      var guesses := FromChannel(data, e, fits, proposals, channel, None, 5);
      if ContainsGuess(newFits, rawGuesses) {
        idx := idx + 1;
        continue;
      }
      if abort(poll) {
        return Aborted, work;
      }
      if guesses == [] {
        return NoGuess(channel), work;
      }
      var guess := guesses[0];
      if !FittedContainsPair(fits.series, guess) {
        newFits := newFits + [guess.0];
        proposals.Add(guess.0);
      }
      poll := poll + 1;
      work := work + 1;
      idx := idx + 1;
    }
    return Completed(newFits), work;
  }

  // ===========================================================================
  // Properties of the search

  /** Without an abort request the search never ends aborted; an aborted run was
      asked to abort at one of its polls. */
  lemma {:induction false} AbortOnlyWhenRequested(data: Spectrum, e: Engine, fits: seq<Series>, peaks: seq<int>,
      raw: map<int, seq<Guess>>, idx: nat, newFits: seq<Series>, proposed: seq<Series>, abort: nat -> bool,
      poll: nat, work: nat)
    requires idx <= |peaks|
    requires forall c :: c in peaks ==> c in raw
    requires Stage2(data, e, fits, peaks, raw, idx, newFits, proposed, abort, poll, work).0 == Aborted
    ensures exists i :: poll <= i && abort(i)
    decreases |peaks| - idx
  {
    var channel := peaks[idx];
    if ContainsGuess(newFits, raw[channel]) {
      AbortOnlyWhenRequested(data, e, fits, peaks, raw, idx + 1, newFits, proposed, abort, poll, work);
    } else if !abort(poll) {
      var guesses := Guesses(data, e, fits, proposed, channel, None, 5);
      var g := guesses[0].0;
      AbortOnlyWhenRequested(data, e, fits, peaks, raw, idx + 1, newFits + [g], Added(proposed, g), abort, poll + 1, work + 1);
    }
  }

  lemma NoAbortNoAbortedResult(data: Spectrum, e: Engine, fits: seq<Series>, abort: nat -> bool)
    requires forall i :: !abort(i)
    ensures SearchSpec(data, e, fits, abort).0 != Aborted
  {
    var peaks := Filter(e.search(data), Unexplained(e, fits));
    if SearchSpec(data, e, fits, abort).0 == Aborted {
      AbortOnlyWhenRequested(data, e, fits, peaks, RawGuesses(data, e, fits, [], peaks), 0, [], [], abort, 1, 0);
    }
  }

  /**
   * A completed stage 2 extends the accepted list with distinct series that are not
   * fitted, keeps the proposals list equal to it, and completes exactly one work unit
   * per accepted series: skipped channels complete none.
   */
  lemma {:induction false} Stage2Accepts(data: Spectrum, e: Engine, fits: seq<Series>, peaks: seq<int>,
      raw: map<int, seq<Guess>>, idx: nat, newFits: seq<Series>, abort: nat -> bool, poll: nat, work: nat)
    requires idx <= |peaks|
    requires forall c :: c in peaks ==> c in raw
    requires WellFormed(e)
    requires forall s :: s in fits ==> s.transitions != []
    requires NoDup(newFits)
    requires forall s :: s in newFits ==> s !in fits && s.transitions != []
    ensures AcceptsFrom(Stage2(data, e, fits, peaks, raw, idx, newFits, newFits, abort, poll, work), fits, newFits, work,
                        |peaks| - idx)
    decreases |peaks| - idx
  {
    if idx < |peaks| {
      var channel := peaks[idx];
      if ContainsGuess(newFits, raw[channel]) {
        Stage2Accepts(data, e, fits, peaks, raw, idx + 1, newFits, abort, poll, work);
        SkipCase(data, e, fits, peaks, raw, idx, newFits, abort, poll, work);
      } else if abort(poll) || Guesses(data, e, fits, newFits, channel, None, 5) == [] {
        StopCase(data, e, fits, peaks, raw, idx, newFits, abort, poll, work);
      } else {
        var g := Guesses(data, e, fits, newFits, channel, None, 5)[0].0;
        AcceptFresh(data, e, fits, newFits, channel);
        Stage2Accepts(data, e, fits, peaks, raw, idx + 1, newFits + [g], abort, poll + 1, work + 1);
        AcceptCase(data, e, fits, peaks, raw, idx, newFits, abort, poll, work);
      }
    }
  }

  /** A channel whose raw guesses hold an accepted series is skipped. */
  lemma SkipCase(data: Spectrum, e: Engine, fits: seq<Series>, peaks: seq<int>, raw: map<int, seq<Guess>>,
                 idx: nat, newFits: seq<Series>, abort: nat -> bool, poll: nat, work: nat)
    requires idx < |peaks| && (forall c :: c in peaks ==> c in raw) && peaks[idx] in raw
    requires ContainsGuess(newFits, raw[peaks[idx]])
    requires AcceptsFrom(Stage2(data, e, fits, peaks, raw, idx + 1, newFits, newFits, abort, poll, work), fits, newFits, work,
                         |peaks| - idx - 1)
    ensures AcceptsFrom(Stage2(data, e, fits, peaks, raw, idx, newFits, newFits, abort, poll, work), fits, newFits, work,
                        |peaks| - idx)
  {
    AcceptsSkip(Stage2(data, e, fits, peaks, raw, idx + 1, newFits, newFits, abort, poll, work), fits, newFits, work,
                |peaks| - idx - 1);
  }

  /** An abort or a channel without guesses ends stage 2 with the work done so far. */
  lemma StopCase(data: Spectrum, e: Engine, fits: seq<Series>, peaks: seq<int>, raw: map<int, seq<Guess>>,
                 idx: nat, newFits: seq<Series>, abort: nat -> bool, poll: nat, work: nat)
    requires idx < |peaks| && (forall c :: c in peaks ==> c in raw) && peaks[idx] in raw
    requires !ContainsGuess(newFits, raw[peaks[idx]])
    requires abort(poll) || Guesses(data, e, fits, newFits, peaks[idx], None, 5) == []
    ensures AcceptsFrom(Stage2(data, e, fits, peaks, raw, idx, newFits, newFits, abort, poll, work), fits, newFits, work,
                        |peaks| - idx)
  {
  }

  /** Otherwise the channel's first guess is accepted and proposed. */
  lemma AcceptCase(data: Spectrum, e: Engine, fits: seq<Series>, peaks: seq<int>, raw: map<int, seq<Guess>>,
                   idx: nat, newFits: seq<Series>, abort: nat -> bool, poll: nat, work: nat)
    requires idx < |peaks| && (forall c :: c in peaks ==> c in raw) && peaks[idx] in raw
    requires !ContainsGuess(newFits, raw[peaks[idx]]) && !abort(poll)
    requires Guesses(data, e, fits, newFits, peaks[idx], None, 5) != []
    requires var g := Guesses(data, e, fits, newFits, peaks[idx], None, 5)[0].0;
      && Added(newFits, g) == newFits + [g]
      && AcceptsFrom(Stage2(data, e, fits, peaks, raw, idx + 1, newFits + [g], newFits + [g], abort, poll + 1, work + 1),
                     fits, newFits + [g], work + 1, |peaks| - idx - 1)
    ensures AcceptsFrom(Stage2(data, e, fits, peaks, raw, idx, newFits, newFits, abort, poll, work), fits, newFits, work,
                        |peaks| - idx)
  {
    var g := Guesses(data, e, fits, newFits, peaks[idx], None, 5)[0].0;
    AcceptsStep(Stage2(data, e, fits, peaks, raw, idx + 1, newFits + [g], newFits + [g], abort, poll + 1, work + 1),
                fits, newFits, g, work, |peaks| - idx - 1);
  }

  /**
   * What a stage-2 outcome `r` keeps, started from the accepted list `newFits` after
   * `work` work units with `n` channels to go: at most one unit per channel, and when
   * completed, an extension of `newFits` by distinct unfitted series, one unit each.
   */
  ghost predicate AcceptsFrom(r: (Outcome, nat), fits: seq<Series>, newFits: seq<Series>, work: nat, n: nat)
  {
    && work <= r.1 <= work + n
    && (r.0.Completed? ==>
          && newFits <= r.0.proposals
          && NoDup(r.0.proposals)
          && (forall s :: s in r.0.proposals ==> s !in fits)
          && r.1 - work == |r.0.proposals| - |newFits|)
  }

  /** A skipped channel completes no work unit. */
  lemma AcceptsSkip(r: (Outcome, nat), fits: seq<Series>, newFits: seq<Series>, work: nat, n: nat)
    requires AcceptsFrom(r, fits, newFits, work, n)
    ensures AcceptsFrom(r, fits, newFits, work, n + 1)
  {
  }

  /** An accepted guess completes one work unit and extends the accepted list by one. */
  lemma AcceptsStep(r: (Outcome, nat), fits: seq<Series>, newFits: seq<Series>, g: Series, work: nat, n: nat)
    requires AcceptsFrom(r, fits, newFits + [g], work + 1, n)
    ensures AcceptsFrom(r, fits, newFits, work, n + 1)
  {
    if r.0.Completed? {
      assert newFits <= newFits + [g];
    }
  }

  /** The first guess of a channel extends the accepted list with a fresh series. */
  lemma AcceptFresh(data: Spectrum, e: Engine, fits: seq<Series>, newFits: seq<Series>, channel: int)
    requires WellFormed(e)
    requires forall s :: s in fits ==> s.transitions != []
    requires NoDup(newFits)
    requires forall s :: s in newFits ==> s !in fits && s.transitions != []
    requires Guesses(data, e, fits, newFits, channel, None, 5) != []
    ensures var g := Guesses(data, e, fits, newFits, channel, None, 5)[0].0;
      && Added(newFits, g) == newFits + [g]
      && NoDup(newFits + [g])
      && forall s :: s in newFits + [g] ==> s !in fits && s.transitions != []
  {
    var guesses := Guesses(data, e, fits, newFits, channel, None, 5);
    FirstGuessFresh(data, e, fits, newFits, channel, 5);
    assert guesses[0] in guesses;
  }

  /** A completed search proposes distinct series none of which is already fitted,
      and completes one work unit per proposal. */
  lemma SearchProposesFreshSeries(data: Spectrum, e: Engine, fits: seq<Series>, abort: nat -> bool)
    requires WellFormed(e)
    requires forall s :: s in fits ==> s.transitions != []
    ensures var (o, w) := SearchSpec(data, e, fits, abort);
      o.Completed? ==> NoDup(o.proposals) && (forall s :: s in o.proposals ==> s !in fits) && w == |o.proposals|
  {
    var peaks := Filter(e.search(data), Unexplained(e, fits));
    if !abort(0) {
      Stage2Accepts(data, e, fits, peaks, RawGuesses(data, e, fits, [], peaks), 0, [], abort, 1, 0);
    }
  }
}
