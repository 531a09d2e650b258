/**
 * The peak table: the registry of known transition series, in two versions that
 * behave alike, one held by an instance and one in a static list. Both append
 * non-empty series, look series up by element and by element and shell, and list
 * every series with its distance to an energy, nearest first.
 *
 * A series' distance to an energy (getProximityToEnergy) is not part of this
 * model; it is the function `proximity`, already applied to the energy.
 */
module PeakTables {
  import opened Types

  function HasElement(e: Element): Series -> bool
  {
    (ts: Series) => ts.element == e
  }

  function HasElementAndShell(e: Element, t: Shell): Series -> bool
  {
    (ts: Series) => ts.element == e && ts.shell == t
  }

  /** getTransitionSeriesForElement: the series of element `e`, in table order. */
  function ForElement(table: seq<Series>, e: Element): (r: seq<Series>)
    ensures forall ts :: ts in r <==> ts in table && ts.element == e
  {
    Filter(table, HasElement(e))
  }

  /** getTransitionSeries(e, t): the first series of element `e` and shell `t`, or null. */
  function Lookup(table: seq<Series>, e: Element, t: Shell): (r: Option<Series>)
    ensures r.None? <==> forall ts :: ts in table ==> !(ts.element == e && ts.shell == t)
    ensures r.Some? ==> r.value.element == e && r.value.shell == t
    ensures r.Some? ==> exists i :: (0 <= i < |table| && table[i] == r.value &&
      forall j :: 0 <= j < i ==> !(table[j].element == e && table[j].shell == t))
  {
    var tss := Filter(table, HasElementAndShell(e, t));
    if |tss| == 0 then None
    else
      FirstMatch(table, e, t);
      assert tss[0] in tss;
      Some(tss[0])
  }

  lemma {:induction false} FirstMatch(table: seq<Series>, e: Element, t: Shell)
    requires Filter(table, HasElementAndShell(e, t)) != []
    ensures exists i :: (0 <= i < |table| && table[i] == Filter(table, HasElementAndShell(e, t))[0] &&
      forall j :: 0 <= j < i ==> !(table[j].element == e && table[j].shell == t))
  {
    var p := HasElementAndShell(e, t);
    if !p(table[0]) {
      FirstMatch(table[1..], e, t);
      var i :| 0 <= i < |table[1..]| && table[1..][i] == Filter(table[1..], p)[0]
        && forall j :: 0 <= j < i ==> !(table[1..][j].element == e && table[1..][j].shell == t);
      assert table[i + 1] == Filter(table, p)[0];
    } else {
      assert table[0] == Filter(table, p)[0];
    }
  }

  /**
   * The comparator of getNearestMatchesToEnergy as written: the difference of the
   * two distances rounded to an int (Math.round is floor(x + 0.5)).
   */
  function RoundedCompare(a: real, b: real): int
  {
    (a - b + 0.5).Floor
  }

  /** Distances less than 0.5 apart compare as equal. */
  lemma RoundedCompareTies(a: real, b: real)
    ensures RoundedCompare(a, b) == 0 <==> -0.5 <= a - b < 0.5
  {
  }

  /** The rounded comparator breaks the Comparator contract: 0 ties with 0.4 and 0.4
      with 0.8, yet 0 compares below 0.8. */
  lemma RoundedCompareNotTransitive()
    ensures RoundedCompare(0.0, 0.4) == 0 && RoundedCompare(0.4, 0.8) == 0
    ensures RoundedCompare(0.0, 0.8) < 0
  {
    RoundedCompareTies(0.0, 0.4);
    RoundedCompareTies(0.4, 0.8);
  }

  /** The (series, distance) pairs of the table, nearest first, ties in table order. */
  function NearestMatches(table: seq<Series>, proximity: Series -> real): (r: seq<(Series, real)>)
    ensures |r| == |table|
    ensures SortedByKey(r)
  {
    SortByKeyCorrect(Keyed(table, proximity));
    SortByKey(Keyed(table, proximity))
  }

  /** The nearest-match list pairs every series of the table with its own distance,
      once per occurrence, by ascending distance. */
  lemma NearestMatchesCorrect(table: seq<Series>, proximity: Series -> real)
    ensures var r := NearestMatches(table, proximity);
      && |r| == |table|
      && multiset(r) == multiset(Keyed(table, proximity))
      && SortedByKey(r)
      && (forall p :: p in r ==> p.0 in table && p.1 == proximity(p.0))
      && (forall ts :: ts in table ==> (ts, proximity(ts)) in r)
  {
    var k := Keyed(table, proximity);
    SortByKeyCorrect(k);
    SortByKeyMembers(k);
    forall p | p in k ensures p.0 in table && p.1 == proximity(p.0) {
      var i :| 0 <= i < |k| && k[i] == p;
    }
    forall ts | ts in table ensures (ts, proximity(ts)) in k {
      var i :| 0 <= i < |table| && table[i] == ts;
      assert k[i] == (ts, proximity(ts));
    }
  }

  /** The pairs the nearest-match loop builds, before sorting. */
  method PairWithProximity(table: seq<Series>, proximity: Series -> real) returns (matches: seq<(Series, real)>)
    ensures matches == Keyed(table, proximity)
  {
    matches := [];
    for i := 0 to |table|
      invariant matches == Keyed(table[..i], proximity)
    {
      matches := matches + [(table[i], proximity(table[i]))];
    }
    assert table[..|table|] == table;
  }

  /** The peak table held by an instance. */
  class PeakTable {
    var elementTransitions: seq<Series>

    constructor ()
      ensures elementTransitions == []
    {
      elementTransitions := [];
    }

    /** addSeries: appends a series with at least one transition; ignores an empty one. */
    method AddSeries(ts: Series)
      modifies this
      ensures elementTransitions == if ts.transitions == [] then old(elementTransitions) else old(elementTransitions) + [ts]
    {
      if |ts.transitions| == 0 {
        return;
      }
      elementTransitions := elementTransitions + [ts];
    }

    method GetNearestMatchesToEnergy(proximity: Series -> real) returns (matches: seq<(Series, real)>)
      ensures matches == NearestMatches(elementTransitions, proximity)
    {
      matches := PairWithProximity(elementTransitions, proximity);
      matches := SortByKey(matches);
    }

    function GetTransitionSeriesForElement(e: Element): (r: seq<Series>)
      reads this
      ensures r == ForElement(elementTransitions, e)
    {
      Filter(elementTransitions, HasElement(e))
    }

    /** getAllTransitionSeries: a fresh list with the table's contents. */
    function GetAllTransitionSeries(): (r: seq<Series>)
      reads this
      ensures r == elementTransitions
    {
      seq(|elementTransitions|, i requires 0 <= i < |elementTransitions| reads this => elementTransitions[i])
    }

    function GetTransitionSeries(e: Element, t: Shell): (r: Option<Series>)
      reads this
      ensures r == Lookup(elementTransitions, e, t)
    {
      var tss := Filter(elementTransitions, HasElementAndShell(e, t));
      if |tss| == 0 then None else Some(tss[0])
    }
  }

  /**
   * The peak table kept in a static list. Dafny has no mutable globals: the one
   * object of this class stands for the class's static state.
   */
  class StaticPeakTable {
    var elementTransitions: seq<Series>

    constructor ()
      ensures elementTransitions == []
    {
      elementTransitions := [];
    }

    method AddSeries(ts: Series)
      modifies this
      ensures elementTransitions == if ts.transitions == [] then old(elementTransitions) else old(elementTransitions) + [ts]
    {
      if |ts.transitions| == 0 {
        return;
      }
      elementTransitions := elementTransitions + [ts];
    }

    method GetNearestMatchesToEnergy(proximity: Series -> real) returns (matches: seq<(Series, real)>)
      ensures matches == NearestMatches(elementTransitions, proximity)
    {
      matches := PairWithProximity(elementTransitions, proximity);
      matches := SortByKey(matches);
    }

    function GetTransitionSeriesForElement(e: Element): (r: seq<Series>)
      reads this
      ensures r == ForElement(elementTransitions, e)
    {
      Filter(elementTransitions, HasElement(e))
    }

    function GetAllTransitionSeries(): (r: seq<Series>)
      reads this
      ensures r == elementTransitions
    {
      seq(|elementTransitions|, i requires 0 <= i < |elementTransitions| reads this => elementTransitions[i])
    }

    function GetTransitionSeries(e: Element, t: Shell): (r: Option<Series>)
      reads this
      ensures r == Lookup(elementTransitions, e, t)
    {
      var tss := Filter(elementTransitions, HasElementAndShell(e, t));
      if |tss| == 0 then None else Some(tss[0])
    }
  }
}
