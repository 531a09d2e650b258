/**
 * SerializedTransitionSeries: the settings form of a transition series. Each base
 * (primary) series becomes the component string "ELEMENT:TYPE"; decoding looks each
 * component up in the static peak table and combines the results with `summation`.
 *
 * Element.valueOf, TransitionSeriesType.fromTypeString and TransitionSeries.summation
 * are not part of this model; they are parameters. An exception while decoding is
 * the `Error` result.
 */
module SerializedSeries {
  import opened Types
  import opened PeakTables

  /** The outcome of toTS: the combined series with its visible flag, or the component
      whose decoding throws. */
  datatype Decoded = Ok(series: Series, visible: bool) | Error(component: string)

  /** bt.element.name() + ":" + bt.type.name(). */
  function Component(bt: Series): (r: string)
    ensures r == bt.element.name + [':'] + ShellName(bt.shell)
  {
    bt.element.name + ":" + ShellName(bt.shell)
  }

  /** The components of a series: one per base series, in order. */
  function Components(ts: Series): (r: seq<string>)
    ensures |r| == |Base(ts)|
    ensures forall i :: 0 <= i < |r| ==> r[i] == Component(Base(ts)[i])
  {
    seq(|Base(ts)|, i requires 0 <= i < |Base(ts)| => Component(Base(ts)[i]))
  }

  /** The position of the first ':' in `s`, or |s|. */
  function FirstColon(s: string): (i: nat)
    ensures i <= |s|
    ensures i < |s| ==> s[i] == ':'
    ensures forall j :: 0 <= j < i ==> s[j] != ':'
  {
    if s == [] then 0
    else if s[0] == ':' then 0
    else 1 + FirstColon(s[1..])
  }

  /** split(":", 2): the text before the first ':' and, if there is one, the rest. */
  function SplitFirst(s: string): (string, Option<string>)
  {
    var i := FirstColon(s);
    if i == |s| then (s, None) else (s[..i], Some(s[i + 1..]))
  }

  /** Splitting name + ":" + type at the first ':' recovers both parts when the name
      has no ':', whatever the type holds. */
  lemma SplitFirstRecovers(name: string, tp: string)
    requires ':' !in name
    ensures SplitFirst(name + ":" + tp) == (name, Some(tp))
  {
    var s := name + ":" + tp;
    assert s[|name|] == ':';
    assert forall j :: 0 <= j < |name| ==> s[j] == name[j];
    assert FirstColon(s) == |name|;
    assert s[..|name|] == name;
    assert s[|name| + 1..] == tp;
  }

  /** What one component decodes to: the peak-table lookup of its element and type,
      which may be null; no value when valueOf, split or fromTypeString fails. */
  function DecodeComponent(tsd: string, table: seq<Series>, elementOf: string -> Option<Element>,
                           typeOf: string -> Option<Shell>): Option<Option<Series>>
  {
    var (first, rest) := SplitFirst(tsd);
    if rest.None? then None
    else match (elementOf(first), typeOf(rest.value))
      case (Some(e), Some(t)) => Some(Lookup(table, e, t))
      case _ => None
  }

  /** The list toTS hands to summation, or the first component that throws. */
  function DecodeAll(components: seq<string>, table: seq<Series>, elementOf: string -> Option<Element>,
                     typeOf: string -> Option<Shell>): Result<seq<Option<Series>>>
  {
    if components == [] then Success([])
    else
      match DecodeAll(components[..|components| - 1], table, elementOf, typeOf)
      case Failure(c) => Failure(c)
      case Success(prev) =>
        match DecodeComponent(components[|components| - 1], table, elementOf, typeOf)
        case None => Failure(components[|components| - 1])
        case Some(created) => Success(prev + [created])
  }

  datatype Result<T> = Success(value: T) | Failure(component: string)

  /** Once a component throws, decoding the longer list throws at that same component. */
  lemma {:induction false} FailureSticks(components: seq<string>, i: nat, j: nat, table: seq<Series>,
                                         elementOf: string -> Option<Element>, typeOf: string -> Option<Shell>)
    requires i <= j <= |components|
    requires DecodeAll(components[..i], table, elementOf, typeOf).Failure?
    ensures DecodeAll(components[..j], table, elementOf, typeOf) == DecodeAll(components[..i], table, elementOf, typeOf)
    decreases j - i
  {
    if i < j {
      assert components[..i + 1][..i] == components[..i];
      FailureSticks(components, i + 1, j, table, elementOf, typeOf);
    }
  }

  /** The serialised form of a series. */
  class SerializedTransitionSeries {
    var components: seq<string>
    var visible: bool

    constructor ()
      ensures components == [] && !visible
    {
      components := [];
      visible := false;
    }

    /** Encodes `ts`, whose visible flag is `tsVisible`. */
    constructor FromSeries(ts: Series, tsVisible: bool)
      ensures components == Components(ts)
      ensures visible == tsVisible
    {
      components := [];
      visible := false;
      new;
      components := [];
      var bases := Base(ts);
      for i := 0 to |bases|
        invariant components == Components(ts)[..i]
      {
        components := components + [Component(bases[i])];
      }
      visible := tsVisible;
    }

    /** toTS: decodes every component in order, then combines them. */
    method ToTS(table: StaticPeakTable, elementOf: string -> Option<Element>, typeOf: string -> Option<Shell>,
                summation: seq<Option<Series>> -> Series) returns (r: Decoded)
      ensures r == match DecodeAll(components, table.elementTransitions, elementOf, typeOf)
                   case Failure(c) => Error(c)
                   case Success(tss) => Ok(summation(tss), visible)
    {
      var tss: seq<Option<Series>> := [];
      for i := 0 to |components|
        invariant DecodeAll(components[..i], table.elementTransitions, elementOf, typeOf) == Success(tss)
      {
        var tsd := components[i];
        assert components[..i + 1][..i] == components[..i];
        assert components[..i + 1][i] == tsd;
        var (first, rest) := SplitFirst(tsd);
        var e := if rest.None? then None else elementOf(first);
        var tst := if e.None? then None else typeOf(rest.value);
        if tst.None? {
          FailureSticks(components, i + 1, |components|, table.elementTransitions, elementOf, typeOf);
          assert components[..|components|] == components;
          return Error(tsd);
        }
        var created := table.GetTransitionSeries(e.value, tst.value);
        tss := tss + [created];
      }
      assert components[..|components|] == components;
      var ts := summation(tss);
      return Ok(ts, visible);
    }
  }

  /** valueOf and fromTypeString invert name() on the base series of `ts`, and no
      element name holds a ':'. */
  predicate Invertible(ts: Series, elementOf: string -> Option<Element>, typeOf: string -> Option<Shell>)
  {
    forall i :: 0 <= i < |Base(ts)| ==>
      ':' !in Base(ts)[i].element.name
      && elementOf(Base(ts)[i].element.name) == Some(Base(ts)[i].element)
      && typeOf(ShellName(Base(ts)[i].shell)) == Some(Base(ts)[i].shell)
  }

  /** The table entries of the first `n` base series of `ts`, in order. */
  function Looked(ts: Series, n: nat, table: seq<Series>): (r: seq<Option<Series>>)
    requires n <= |Base(ts)|
    ensures |r| == n
    ensures forall i :: 0 <= i < n ==> r[i] == Lookup(table, Base(ts)[i].element, Base(ts)[i].shell)
  {
    seq(n, i requires 0 <= i < n => Lookup(table, Base(ts)[i].element, Base(ts)[i].shell))
  }

  /** Decoding the first `n` components of an encoded series looks up, in base order,
      each base series' element and shell. */
  lemma {:induction false} DecodeEncoded(ts: Series, n: nat, table: seq<Series>,
                                         elementOf: string -> Option<Element>, typeOf: string -> Option<Shell>)
    requires n <= |Base(ts)|
    requires Invertible(ts, elementOf, typeOf)
    ensures DecodeAll(Components(ts)[..n], table, elementOf, typeOf) == Success(Looked(ts, n, table))
  {
    if n > 0 {
      DecodeEncoded(ts, n - 1, table, elementOf, typeOf);
      var bt := Base(ts)[n - 1];
      var cs := Components(ts)[..n];
      assert cs[..n - 1] == Components(ts)[..n - 1];
      assert cs[n - 1] == bt.element.name + ":" + ShellName(bt.shell);
      SplitFirstRecovers(bt.element.name, ShellName(bt.shell));
      assert DecodeComponent(cs[n - 1], table, elementOf, typeOf) == Some(Lookup(table, bt.element, bt.shell));
      assert Looked(ts, n - 1, table) + [Lookup(table, bt.element, bt.shell)] == Looked(ts, n, table);
    }
  }

  /** The round trip: decoding an encoded series hands summation each base series'
      table entry, in order. */
  lemma RoundTrip(ts: Series, table: seq<Series>, elementOf: string -> Option<Element>, typeOf: string -> Option<Shell>)
    requires Invertible(ts, elementOf, typeOf)
    ensures DecodeAll(Components(ts), table, elementOf, typeOf) == Success(Looked(ts, |Base(ts)|, table))
  {
    DecodeEncoded(ts, |Base(ts)|, table, elementOf, typeOf);
    assert Components(ts)[..|Base(ts)|] == Components(ts);
  }
}
