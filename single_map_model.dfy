/**
 * SingleMapModel: the state of one map view. Every mapped series has a ratio side, an
 * overlay colour and a visible flag; the queries list the series in sorted order and
 * compose the map titles.
 *
 * MapResultSet is represented by the list of its series. TransitionSeries.compareTo is
 * not part of this model: `order` ranks series, and the series are listed by
 * ascending rank. toElementString is the parameter `elementString`; fava's foldr with
 * strcat(", ") joins with ", " and gives no title for an empty list, and unique keeps
 * the first occurrence of each name.
 */
module SingleMap {
  import opened Types

  datatype DisplayMode = CompositeDisplay | RatioDisplay | OtherDisplay

  /** OverlayColour, by its constant name. */
  datatype OverlayColour = OverlayColour(name: string)

  const Red := OverlayColour("RED")

  /** foldr(names, strcat(", ")): the names joined by ", ", none for an empty list. */
  function Join(names: seq<string>): (r: Option<string>)
    ensures r.None? <==> names == []
  {
    if names == [] then None
    else if |names| == 1 then Some(names[0])
    else Some(names[0] + ", " + Join(names[1..]).value)
  }

  /** Joining two non-empty lists joins their titles. */
  lemma {:induction false} JoinAppend(a: seq<string>, b: seq<string>)
    requires a != [] && b != []
    ensures Join(a + b) == Some(Join(a).value + ", " + Join(b).value)
  {
    if |a| == 1 {
      assert (a + b)[1..] == b;
    } else {
      var rest := Join(a[1..]).value;
      assert (a + b)[1..] == a[1..] + b;
      JoinAppend(a[1..], b);
      assert Join(a).value == a[0] + ", " + rest;
      var tail := Join(b).value;
      assert Join(a + b).value == a[0] + ", " + (rest + ", " + tail);
      assert a[0] + ", " + (rest + ", " + tail) == (a[0] + ", " + rest) + ", " + tail;
    }
  }

  /** A title: the joined names, or "-" when there are none. */
  function Title(names: seq<string>): (r: string)
    ensures names == [] ==> r == "-"
    ensures |names| == 1 ==> r == names[0]
  {
    match Join(names)
    case None => "-"
    case Some(t) => t
  }

  /** The element string of each series. */
  function Names(list: seq<Series>, name: Series -> string): (r: seq<string>)
    ensures |r| == |list|
    ensures forall i :: 0 <= i < |list| ==> r[i] == name(list[i])
  {
    seq(|list|, i requires 0 <= i < |list| => name(list[i]))
  }

  function ElementName(ts: Series): string
  {
    ts.element.name
  }

  /** getDatasetTitle. */
  function DatasetTitle(list: seq<Series>, elementString: Series -> string): (r: string)
    ensures list == [] ==> r == "-"
    ensures |list| == 1 ==> r == elementString(list[0])
  {
    Title(Names(list, elementString))
  }

  /** getShortDatasetTitle: element names, each once. */
  function ShortDatasetTitle(list: seq<Series>): (r: string)
    ensures list == [] ==> r == "-"
    ensures |list| == 1 ==> r == list[0].element.name
  {
    Title(Dedup(Names(list, ElementName)))
  }

  /** The short title names each element of the list once and nothing else. */
  lemma ShortTitleNames(list: seq<Series>)
    ensures list == [] ==> ShortDatasetTitle(list) == "-"
    ensures NoDup(Dedup(Names(list, ElementName)))
    ensures forall n :: n in Dedup(Names(list, ElementName)) <==> exists ts :: ts in list && ts.element.name == n
  {
    var names := Names(list, ElementName);
    forall n ensures n in names <==> exists ts :: ts in list && ts.element.name == n {
      if n in names {
        var i :| 0 <= i < |names| && names[i] == n;
        assert list[i] in list;
      }
      if exists ts :: ts in list && ts.element.name == n {
        var ts :| ts in list && ts.element.name == n;
        var i :| 0 <= i < |list| && list[i] == ts;
        assert names[i] == n;
      }
    }
  }

  class SingleMapModel {
    var resultantData: Option<seq<(Series, Spectrum)>>
    var mapResults: Option<seq<Series>>
    var ratioSide: map<Series, int>
    var overlayColour: map<Series, OverlayColour>
    var visible: map<Series, bool>
    var displayMode: DisplayMode

    /** The three per-series maps cover the same series. */
    ghost predicate Valid()
      reads this
    {
      ratioSide.Keys == visible.Keys && overlayColour.Keys == visible.Keys
    }

    /** Every series of the result set starts on side 1, red and visible. */
    constructor (originalData: seq<Series>)
      ensures Valid()
      ensures resultantData == None && mapResults == Some(originalData) && displayMode == CompositeDisplay
      ensures visible.Keys == set ts | ts in originalData
      ensures forall ts :: ts in visible ==> ratioSide[ts] == 1 && overlayColour[ts] == Red && visible[ts]
    {
      resultantData := None;
      mapResults := Some(originalData);
      displayMode := CompositeDisplay;
      var sides: map<Series, int> := map[];
      var colours: map<Series, OverlayColour> := map[];
      var shown: map<Series, bool> := map[];
      for i := 0 to |originalData|
        invariant shown.Keys == set ts | ts in originalData[..i]
        invariant sides.Keys == shown.Keys && colours.Keys == shown.Keys
        invariant forall ts :: ts in shown ==> sides[ts] == 1 && colours[ts] == Red && shown[ts]
      {
        var ts := originalData[i];
        sides := sides[ts := 1];
        colours := colours[ts := Red];
        shown := shown[ts := true];
        assert originalData[..i + 1] == originalData[..i] + [ts];
      }
      assert originalData[..|originalData|] == originalData;
      ratioSide := sides;
      overlayColour := colours;
      visible := shown;
    }

    /** getAllTransitionSeries: every series, once, by ascending rank. */
    ghost function AllTransitionSeries(order: Series -> int): (r: seq<Series>)
      reads this
      ensures NoDup(r) && SortedBy(r, order)
      ensures forall ts :: ts in r <==> ts in visible
    {
      SortSetBy(visible.Keys, order)
    }

    /** getVisibleTransitionSeries: the sorted series whose flag is set. */
    ghost function VisibleTransitionSeries(order: Series -> int): (r: seq<Series>)
      reads this
      ensures forall ts :: ts in r <==> ts in visible && visible[ts]
      ensures NoDup(r) && SortedBy(r, order)
    {
      var shown := visible;
      var all := AllTransitionSeries(order);
      FilterNoDup(all, (ts: Series) => ts in shown && shown[ts]);
      FilterSorted(all, (ts: Series) => ts in shown && shown[ts], order);
      Filter(all, (ts: Series) => ts in shown && shown[ts])
    }

    /** getTransitionSeriesForRatioSide: the visible series on `side`, in order. */
    ghost function TransitionSeriesForRatioSide(order: Series -> int, side: int): (r: seq<Series>)
      requires Valid()
      reads this
      ensures forall ts :: ts in r <==> ts in visible && visible[ts] && ratioSide[ts] == side
      ensures NoDup(r) && SortedBy(r, order)
    {
      var sides := ratioSide;
      var vis := VisibleTransitionSeries(order);
      FilterNoDup(vis, (ts: Series) => ts in sides && sides[ts] == side);
      FilterSorted(vis, (ts: Series) => ts in sides && sides[ts] == side, order);
      Filter(vis, (ts: Series) => ts in sides && sides[ts] == side)
    }

    /** With every series on side 1 or 2, each visible series is on exactly one side. */
    lemma RatioSidesPartition(order: Series -> int)
      requires Valid()
      requires forall ts :: ts in ratioSide ==> ratioSide[ts] == 1 || ratioSide[ts] == 2
      ensures forall ts :: ts in visible && visible[ts] ==>
        (ts in TransitionSeriesForRatioSide(order, 1)) != (ts in TransitionSeriesForRatioSide(order, 2))
    {
    }

    /** getTransitionSeriesForColour: the resultant entries of colour `c` that are visible. */
    function TransitionSeriesForColour(c: OverlayColour): (r: seq<(Series, Spectrum)>)
      requires Valid()
      requires resultantData.Some?
      requires forall e :: e in resultantData.value && e.0 in overlayColour && overlayColour[e.0] == c ==> e.0 in visible
      reads this
      ensures forall e :: e in r <==> e in resultantData.value && e.0 in overlayColour && overlayColour[e.0] == c && visible[e.0]
    {
      var colours := overlayColour;
      var shown := visible;
      Filter(resultantData.value, (e: (Series, Spectrum)) =>
        e.0 in colours && colours[e.0] == c && e.0 in shown && shown[e.0])
    }

    /** mapLongTitle: in ratio mode, the two sides' titles around " ∶ "; otherwise the
        title of the visible series. */
    ghost function MapLongTitle(order: Series -> int, elementString: Series -> string): (r: string)
      requires Valid()
      reads this
      ensures displayMode == RatioDisplay ==> (r ==
        DatasetTitle(TransitionSeriesForRatioSide(order, 1), elementString) + " ∶ "
        + DatasetTitle(TransitionSeriesForRatioSide(order, 2), elementString))
      ensures displayMode != RatioDisplay ==> r == DatasetTitle(VisibleTransitionSeries(order), elementString)
    {
      match displayMode
      case RatioDisplay =>
        DatasetTitle(TransitionSeriesForRatioSide(order, 1), elementString) + " ∶ "
        + DatasetTitle(TransitionSeriesForRatioSide(order, 2), elementString)
      case _ => DatasetTitle(VisibleTransitionSeries(order), elementString)
    }

    /** discard: empties the resultant data and the maps and drops the result set. */
    method Discard()
      requires resultantData.Some?
      modifies this
      ensures Valid()
      ensures resultantData == Some([]) && mapResults == None
      ensures ratioSide == map[] && overlayColour == map[] && visible == map[]
      ensures displayMode == old(displayMode)
    {
      resultantData := Some([]);
      ratioSide := map[];
      overlayColour := map[];
      visible := map[];
      mapResults := None;
    }
  }
}
