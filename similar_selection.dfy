/**
 * SimilarSelection: selects the map points whose values are similar to a clicked
 * point's, either all over the map or only those connected to it (a flood fill over
 * 4-neighbours), pads the selection by neighbours, and merges it with the previous
 * selection.
 *
 * GridPerspective is not part of this model: a grid of width w and height h is taken
 * to be indexed row by row (index = y * w + x), and a neighbour that falls outside
 * the grid is -1.
 */
module Similar {
  import opened Types

  datatype Grid = Grid(w: nat, h: nat)

  /** The map display mode, as far as selection distinguishes it. */
  datatype MapMode = Composite | Ratio | OtherMode

  function Size(g: Grid): nat
  {
    g.w * g.h
  }

  /** getIndexFromXY. */
  function IndexOf(g: Grid, x: int, y: int): int
  {
    y * g.w + x
  }

  lemma IndexInGrid(g: Grid, x: int, y: int)
    requires 0 <= x < g.w && 0 <= y < g.h
    ensures 0 <= IndexOf(g, x, y) < Size(g)
  {
    assert y * g.w <= (g.h - 1) * g.w by {
      MulMono(y, g.h - 1, g.w);
    }
  }

  lemma MulMono(a: int, b: int, c: nat)
    requires a <= b
    ensures a * c <= b * c
  {
  }

  /** north, south, east and west of point `p`, each -1 when outside the grid. */
  function Neighbours(g: Grid, p: int): (r: seq<int>)
    ensures |r| == 4
    ensures forall d :: 0 <= d < 4 ==> r[d] == -1 || 0 <= r[d] < Size(g)
  {
    if g.w == 0 || !(0 <= p < Size(g)) then [-1, -1, -1, -1]
    else
      var x := p % g.w;
      var y := p / g.w;
      NeighboursInGrid(g, p, x, y);
      [if y > 0 then p - g.w else -1,
       if y < g.h - 1 then p + g.w else -1,
       if x < g.w - 1 then p + 1 else -1,
       if x > 0 then p - 1 else -1]
  }

  lemma NeighboursInGrid(g: Grid, p: int, x: int, y: int)
    requires g.w > 0 && 0 <= p < Size(g)
    requires x == p % g.w && y == p / g.w
    ensures y > 0 ==> 0 <= p - g.w
    ensures y < g.h - 1 ==> p + g.w < Size(g)
    ensures x < g.w - 1 ==> p + 1 < Size(g)
    ensures x > 0 ==> 0 <= p - 1
  {
    assert p == y * g.w + x && 0 <= x < g.w;
    assert 0 <= y by {
      if y < 0 {
        MulMono(y, -1, g.w);
      }
    }
    assert y < g.h by {
      if y >= g.h {
        MulMono(g.h, y, g.w);
      }
    }
    if y > 0 {
      MulMono(1, y, g.w);
    }
    MulMono(y + 1, g.h, g.w);
    assert (y + 1) * g.w == y * g.w + g.w;
    if y < g.h - 1 {
      MulMono(y + 2, g.h, g.w);
      assert (y + 2) * g.w == y * g.w + g.w + g.w;
    }
  }

  /** The threshold test: value lies within [other / t, other * t]. */
  predicate Match(value: real, other: real, t: real)
    requires t > 0.0
  {
    value >= other / t && value <= other * t
  }

  /** `n` is a point of the grid whose value passes the threshold test. */
  predicate Matches(data: seq<real>, value: real, t: real, n: int)
    requires t > 0.0
  {
    0 <= n < |data| && Match(value, data[n], t)
  }

  /** The values of a ratio map whose clicked value is negative, flipped. */
  function Negated(data: seq<real>): (r: seq<real>)
    ensures |r| == |data|
    ensures forall i :: 0 <= i < |data| ==> r[i] == -data[i]
  {
    seq(|data|, i requires 0 <= i < |data| => -data[i])
  }

  /** The indices 0 .. n-1. */
  function Indices(n: nat): (r: set<int>)
    ensures forall i :: i in r <==> 0 <= i < n
  {
    if n == 0 then {} else Indices(n - 1) + {n - 1}
  }

  function Elems(s: seq<int>): set<int>
  {
    set x | x in s
  }

  // ---------------------------------------------------------------------------
  // Non-contiguous selection

  /** The matching indices below `n`, ascending. */
  function Matching(data: seq<real>, value: real, t: real, n: nat): seq<int>
    requires t > 0.0 && n <= |data|
  {
    if n == 0 then []
    else Matching(data, value, t, n - 1) + (if Match(value, data[n - 1], t) then [n - 1] else [])
  }

  /** Exactly the matching indices below `n`, each once, in ascending (row-major) order. */
  lemma {:induction false} MatchingCorrect(data: seq<real>, value: real, t: real, n: nat)
    requires t > 0.0 && n <= |data|
    ensures forall i :: i in Matching(data, value, t, n) <==> 0 <= i < n && Match(value, data[i], t)
    ensures forall i, j :: 0 <= i < j < |Matching(data, value, t, n)| ==>
      Matching(data, value, t, n)[i] < Matching(data, value, t, n)[j]
  {
    MatchingMembers(data, value, t, n);
    MatchingAscending(data, value, t, n);
  }

  lemma {:induction false} MatchingMembers(data: seq<real>, value: real, t: real, n: nat)
    requires t > 0.0 && n <= |data|
    ensures forall i :: i in Matching(data, value, t, n) <==> 0 <= i < n && Match(value, data[i], t)
  {
    if n > 0 {
      MatchingMembers(data, value, t, n - 1);
    }
  }

  lemma {:induction false} MatchingAscending(data: seq<real>, value: real, t: real, n: nat)
    requires t > 0.0 && n <= |data|
    ensures forall i, j :: 0 <= i < j < |Matching(data, value, t, n)| ==>
      Matching(data, value, t, n)[i] < Matching(data, value, t, n)[j]
  {
    if n > 0 {
      MatchingAscending(data, value, t, n - 1);
      if Match(value, data[n - 1], t) {
        MatchingMembers(data, value, t, n - 1);
        AppendAscending(Matching(data, value, t, n - 1), n - 1);
      }
    }
  }

  /** Appending a value above every element keeps a list strictly ascending. */
  lemma AppendAscending(m: seq<int>, x: int)
    requires forall i, j :: 0 <= i < j < |m| ==> m[i] < m[j]
    requires forall y :: y in m ==> y < x
    ensures forall i, j :: 0 <= i < j < |m + [x]| ==> (m + [x])[i] < (m + [x])[j]
  {
    var r := m + [x];
    forall i, j | 0 <= i < j < |r| ensures r[i] < r[j] {
      assert r[i] == m[i] && m[i] in m;
    }
  }

  /** The all-points scan: every row, every column. */
  method AllMatching(g: Grid, data: seq<real>, value: real, t: real) returns (points: seq<int>)
    requires t > 0.0 && Size(g) <= |data|
    ensures points == Matching(data, value, t, Size(g))
  {
    points := [];
    for y := 0 to g.h
      invariant y * g.w <= Size(g)
      invariant points == Matching(data, value, t, y * g.w)
    {
      assert (y + 1) * g.w == y * g.w + g.w;
      MulMono(y + 1, g.h, g.w);
      for x := 0 to g.w
        invariant points == Matching(data, value, t, y * g.w + x)
      {
        var other := data[IndexOf(g, x, y)];
        if Match(value, other, t) {
          points := points + [IndexOf(g, x, y)];
        }
      }
    }
  }

  // ---------------------------------------------------------------------------
  // Contiguous selection (flood fill)

  /** Grid points with no duplicates. */
  predicate Points(g: Grid, s: seq<int>)
  {
    NoDup(s) && forall i :: 0 <= i < |s| ==> 0 <= s[i] < Size(g)
  }

  /** Each point after the first passes the test and neighbours an earlier point. */
  predicate Grown(g: Grid, data: seq<real>, value: real, t: real, s: seq<int>)
    requires t > 0.0
  {
    forall k :: 0 < k < |s| ==>
      Matches(data, value, t, s[k]) && exists j :: 0 <= j < k && s[k] in Neighbours(g, s[j])
  }

  /** The first `n` points have every matching neighbour in `s`. */
  predicate ClosedUpTo(g: Grid, data: seq<real>, value: real, t: real, s: seq<int>, n: int)
    requires t > 0.0 && 0 <= n <= |s|
  {
    forall i, d :: 0 <= i < n && 0 <= d < 4 && Matches(data, value, t, Neighbours(g, s[i])[d]) ==>
      Neighbours(g, s[i])[d] in s
  }

  /** The result of the flood fill from `start`: it starts there, grows by matching
      neighbours only, and leaves no matching neighbour of a member out. */
  predicate Flooded(g: Grid, data: seq<real>, value: real, t: real, start: int, s: seq<int>)
    requires t > 0.0
  {
    |s| > 0 && s[0] == start && Points(g, s) && Grown(g, data, value, t, s)
    && ClosedUpTo(g, data, value, t, s, |s|)
  }

  /** One worklist step: adds the matching, not yet selected neighbours of `point`. */
  method Visit(g: Grid, data: seq<real>, value: real, t: real, point: int, points: seq<int>, pointSet: set<int>)
    returns (points': seq<int>, pointSet': set<int>)
    requires t > 0.0 && Size(g) <= |data|
    requires Points(g, points) && pointSet == Elems(points)
    ensures Points(g, points') && pointSet' == Elems(points')
    ensures |points| <= |points'| && points'[..|points|] == points
    ensures pointSet <= pointSet' && (pointSet' == pointSet ==> points' == points)
    ensures forall k :: |points| <= k < |points'| ==>
      Matches(data, value, t, points'[k]) && points'[k] in Neighbours(g, point)
    ensures forall d :: 0 <= d < 4 && Matches(data, value, t, Neighbours(g, point)[d]) ==>
      Neighbours(g, point)[d] in points'
  {
    var neighbours := Neighbours(g, point);
    points', pointSet' := points, pointSet;
    for d := 0 to 4
      invariant Points(g, points') && pointSet' == Elems(points')
      invariant |points| <= |points'| && points'[..|points|] == points
      invariant pointSet <= pointSet' && (pointSet' == pointSet ==> points' == points)
      invariant forall k :: |points| <= k < |points'| ==>
        Matches(data, value, t, points'[k]) && points'[k] in neighbours
      invariant forall e :: 0 <= e < d && Matches(data, value, t, neighbours[e]) ==> neighbours[e] in points'
    {
      ghost var before := points';
      points', pointSet' := Consider(g, data, value, t, neighbours[d], points', pointSet');
      assert points'[..|points|] == before[..|points|];
    }
  }

  /** The loop body of a visit: adds `neighbour` when it is in the grid, not yet
      selected and passes the test. */
  method Consider(g: Grid, data: seq<real>, value: real, t: real, neighbour: int, points: seq<int>, pointSet: set<int>)
    returns (points': seq<int>, pointSet': set<int>)
    requires t > 0.0 && Size(g) <= |data| && (neighbour == -1 || 0 <= neighbour < Size(g))
    requires Points(g, points) && pointSet == Elems(points)
    ensures Points(g, points') && pointSet' == Elems(points')
    ensures points' == points || points' == points + [neighbour]
    ensures points' == points + [neighbour] ==> Matches(data, value, t, neighbour) && neighbour !in pointSet
    ensures pointSet' == pointSet ==> points' == points
    ensures pointSet <= pointSet'
    ensures Matches(data, value, t, neighbour) ==> neighbour in points'
  {
    points', pointSet' := points, pointSet;
    if neighbour == -1 {
      return;
    }
    if neighbour in pointSet {
      return;
    }
    var other := data[neighbour];
    if Match(value, other, t) {
      AppendPoint(g, points, pointSet, neighbour);
      points' := points + [neighbour];
      pointSet' := pointSet + {neighbour};
    }
  }

  /** Appending a new grid point keeps the list duplicate-free and in step with its set. */
  lemma AppendPoint(g: Grid, points: seq<int>, pointSet: set<int>, n: int)
    requires Points(g, points) && pointSet == Elems(points) && 0 <= n < Size(g) && n !in pointSet
    ensures Points(g, points + [n]) && pointSet + {n} == Elems(points + [n])
    ensures pointSet + {n} != pointSet
  {
  }

  /** Visiting the point at `cursor` keeps every point grown from an earlier one. */
  lemma GrownStep(g: Grid, data: seq<real>, value: real, t: real, before: seq<int>, after: seq<int>, cursor: int)
    requires t > 0.0 && 0 <= cursor < |before| <= |after| && after[..|before|] == before
    requires Grown(g, data, value, t, before)
    requires forall k :: |before| <= k < |after| ==>
      Matches(data, value, t, after[k]) && after[k] in Neighbours(g, before[cursor])
    ensures Grown(g, data, value, t, after)
  {
    forall k | 0 < k < |after|
      ensures Matches(data, value, t, after[k]) && exists j :: 0 <= j < k && after[k] in Neighbours(g, after[j])
    {
      if k >= |before| {
        assert after[cursor] == before[cursor];
      } else {
        assert after[k] == before[k];
        var j :| 0 <= j < k && before[k] in Neighbours(g, before[j]);
        assert after[j] == before[j];
      }
    }
  }

  /** After visiting the point at `cursor`, the points up to it are closed. */
  lemma ClosedStep(g: Grid, data: seq<real>, value: real, t: real, before: seq<int>, after: seq<int>, cursor: int)
    requires t > 0.0 && 0 <= cursor < |before| <= |after| && after[..|before|] == before
    requires ClosedUpTo(g, data, value, t, before, cursor)
    requires forall d :: 0 <= d < 4 && Matches(data, value, t, Neighbours(g, before[cursor])[d]) ==>
      Neighbours(g, before[cursor])[d] in after
    ensures ClosedUpTo(g, data, value, t, after, cursor + 1)
  {
    forall i, d | 0 <= i < cursor + 1 && 0 <= d < 4 && Matches(data, value, t, Neighbours(g, after[i])[d])
      ensures Neighbours(g, after[i])[d] in after
    {
      assert after[i] == before[i];
      if i < cursor {
        var n := Neighbours(g, before[i])[d];
        assert n in before;
        var q :| 0 <= q < |before| && before[q] == n;
        assert after[q] == n;
      }
    }
  }

  /** What the worklist loop keeps: the points grew from `start`, and those before
      `cursor` have had their neighbours visited. */
  predicate FloodInvariant(g: Grid, data: seq<real>, value: real, t: real, start: int,
                           points: seq<int>, pointSet: set<int>, cursor: int)
    requires t > 0.0
  {
    0 <= cursor <= |points| && |points| > 0 && points[0] == start
    && Points(g, points) && pointSet == Elems(points)
    && Grown(g, data, value, t, points) && ClosedUpTo(g, data, value, t, points, cursor)
  }

  /** Visiting the point at `cursor` keeps the loop invariant for the next point. */
  lemma FloodStep(g: Grid, data: seq<real>, value: real, t: real, start: int,
                  before: seq<int>, beforeSet: set<int>, after: seq<int>, afterSet: set<int>, cursor: int)
    requires t > 0.0 && FloodInvariant(g, data, value, t, start, before, beforeSet, cursor)
    requires cursor < |before|
    requires Points(g, after) && afterSet == Elems(after)
    requires |before| <= |after| && after[..|before|] == before
    requires forall k :: |before| <= k < |after| ==>
      Matches(data, value, t, after[k]) && after[k] in Neighbours(g, before[cursor])
    requires forall d :: 0 <= d < 4 && Matches(data, value, t, Neighbours(g, before[cursor])[d]) ==>
      Neighbours(g, before[cursor])[d] in after
    ensures FloodInvariant(g, data, value, t, start, after, afterSet, cursor + 1)
    ensures afterSet <= Indices(Size(g))
  {
    GrownStep(g, data, value, t, before, after, cursor);
    ClosedStep(g, data, value, t, before, after, cursor);
    forall q | q in afterSet ensures q in Indices(Size(g)) {
      var k :| 0 <= k < |after| && after[k] == q;
    }
  }

  /** The worklist loop: visits every point it has added, in order. */
  method FloodFill(g: Grid, data: seq<real>, value: real, t: real, start: int) returns (points: seq<int>)
    requires t > 0.0 && Size(g) <= |data| && 0 <= start < Size(g)
    ensures Flooded(g, data, value, t, start, points)
  {
    var pointSet := {start};
    points := [start];
    var cursor := 0;
    ghost var all := Indices(Size(g));
    while cursor < |points|
      invariant FloodInvariant(g, data, value, t, start, points, pointSet, cursor)
      invariant pointSet <= all
      decreases all - pointSet, |points| - cursor
    {
      var point := points[cursor];
      ghost var before, beforeSet := points, pointSet;
      points, pointSet := Visit(g, data, value, t, point, points, pointSet);
      FloodStep(g, data, value, t, start, before, beforeSet, points, pointSet, cursor);
      if pointSet != beforeSet {
        Shrinks(all, beforeSet, pointSet);
      }
      cursor := cursor + 1;
    }
  }

  /** Growing a subset of `all` shrinks what is left of `all`. */
  lemma Shrinks<T>(all: set<T>, a: set<T>, b: set<T>)
    requires a <= b <= all && a != b
    ensures all - b < all - a
  {
    var x :| x in b && x !in a;
    assert x in all - a;
  }

  // ---------------------------------------------------------------------------
  // Padding

  /** A set of points together with every in-grid neighbour of its members. */
  function Grow(g: Grid, s: set<int>): (r: set<int>)
    ensures s <= r
  {
    s + set p, d | p in s && 0 <= d < 4 && Neighbours(g, p)[d] != -1 :: Neighbours(g, p)[d]
  }

  /** Grid points grow into grid points. */
  lemma GrowInGrid(g: Grid, s: set<int>)
    requires forall p :: p in s ==> 0 <= p < Size(g)
    ensures forall p :: p in Grow(g, s) ==> 0 <= p < Size(g)
  {
  }

  /** The points after `k` rounds of padding. */
  function Padded(g: Grid, s: set<int>, k: nat): set<int>
  {
    if k == 0 then s else Grow(g, Padded(g, s, k - 1))
  }

  /** Each round of padding keeps everything already selected. */
  lemma {:induction false} PaddedGrows(g: Grid, s: set<int>, i: nat, k: nat)
    requires i <= k
    ensures Padded(g, s, i) <= Padded(g, s, k)
  {
    forall n: nat | 0 < n
      ensures Padded(g, s, n - 1) <= Padded(g, s, n)
    {
      PaddedStep(g, s, n);
    }
    ChainGrows(n => Padded(g, s, n), i, k);
  }

  /** A chain of sets each contained in the next grows along the whole chain. */
  lemma {:induction false} ChainGrows<T>(f: nat -> set<T>, i: nat, k: nat)
    requires i <= k
    requires forall n: nat :: 0 < n ==> f(n - 1) <= f(n)
    ensures f(i) <= f(k)
    decreases k - i
  {
    if i < k {
      ChainGrows(f, i, k - 1);
      SubsetTrans(f(i), f(k - 1), f(k));
    }
  }

  lemma PaddedStep(g: Grid, s: set<int>, k: nat)
    requires k > 0
    ensures Padded(g, s, k - 1) <= Padded(g, s, k)
  {
    var p := Padded(g, s, k - 1);
    assert Padded(g, s, k) == Grow(g, p);
  }

  lemma SubsetTrans<T>(a: set<T>, b: set<T>, c: set<T>)
    requires a <= b && b <= c
    ensures a <= c
  {
  }

  /** The inner loop of padSelection: adds each in-grid neighbour not yet present. */
  method AddNeighbours(pointSet: set<int>, neighbours: seq<int>) returns (r: set<int>)
    requires |neighbours| == 4
    ensures r == pointSet + set e | 0 <= e < 4 && neighbours[e] != -1 :: neighbours[e]
  {
    r := pointSet;
    for d := 0 to 4
      invariant r == pointSet + set e | 0 <= e < d && neighbours[e] != -1 :: neighbours[e]
    {
      var neighbour := neighbours[d];
      if neighbour == -1 {
        continue;
      }
      if neighbour in r {
        continue;
      }
      r := r + {neighbour};
    }
  }

  /** padSelection: the points with all their in-grid neighbours, each once. */
  method PadSelection(g: Grid, points: seq<int>) returns (r: seq<int>)
    ensures NoDup(r) && Elems(r) == Grow(g, Elems(points))
  {
    var pointSet := Elems(points);
    for i := 0 to |points|
      invariant Elems(points) <= pointSet
      invariant pointSet == Elems(points) + set p, d | p in points[..i] && 0 <= d < 4 && Neighbours(g, p)[d] != -1 :: Neighbours(g, p)[d]
    {
      pointSet := AddNeighbours(pointSet, Neighbours(g, points[i]));
      assert points[..i + 1] == points[..i] + [points[i]];
    }
    assert points[..|points|] == points;
    r := ListOf(pointSet);
    assert Elems(r) == pointSet;
  }

  // ---------------------------------------------------------------------------
  // The selection

  /** The points the click selects before padding. */
  ghost predicate Found(g: Grid, data: seq<real>, value: real, t: real, start: int, contiguous: bool, s: seq<int>)
    requires t > 0.0 && Size(g) <= |data|
  {
    if contiguous then Flooded(g, data, value, t, start, s) else s == Matching(data, value, t, Size(g))
  }

  /** `s` is `found` padded `k` times: unchanged when k is 0, otherwise the padded set
      in some order. */
  predicate PaddedFrom(g: Grid, found: seq<int>, k: nat, s: seq<int>)
  {
    if k == 0 then s == found else NoDup(s) && Elems(s) == Padded(g, Elems(found), k)
  }

  /** The selection after merging `points` into the previous selection `prev`. */
  predicate Merged(prev: seq<int>, points: seq<int>, clicked: int, modifying: bool, next: seq<int>)
  {
    if modifying && clicked in prev then next == RemoveAll(prev, points)
    else if modifying then NoDup(next) && Elems(next) == Elems(prev) + Elems(points)
    else next == points
  }

  /** The data and clicked value the test runs on: a ratio map clicked at a negative
      value is negated throughout. */
  function Oriented(mode: MapMode, data: seq<real>, clicked: int): (r: (seq<real>, real))
    requires 0 <= clicked < |data|
    ensures |r.0| == |data| && r.1 == r.0[clicked]
    ensures mode == Ratio && data[clicked] < 0.0 ==> r.1 > 0.0
    ensures !(mode == Ratio && data[clicked] < 0.0) ==> r.0 == data
  {
    if mode == Ratio && data[clicked] < 0.0 then (Negated(data), -data[clicked]) else (data, data[clicked])
  }

  /** The flip of a ratio map clicked at a negative value, done in place on the map's
      own values; returns the clicked value the test runs on. */
  method Orient(mode: MapMode, data: array<real>, clicked: int) returns (value: real)
    requires 0 <= clicked < data.Length
    modifies data
    ensures (data[..], value) == Oriented(mode, old(data[..]), clicked)
  {
    value := data[clicked];
    if mode == Ratio && value < 0.0 {
      for i := 0 to data.Length
        invariant forall j :: 0 <= j < i ==> data[j] == -old(data[j])
        invariant forall j :: i <= j < data.Length ==> data[j] == old(data[j])
      {
        data[i] := -data[i];
      }
      assert data[..] == Negated(old(data[..]));
      value := data[clicked];
    }
  }

  class SimilarSelection {
    var indexes: seq<int>
    var threshold: real
    var padding: nat

    /** The two parameters' validators. */
    predicate ThresholdValid(t: real)
    {
      1.0 <= t <= 100.0
    }

    predicate PaddingValid(p: int)
    {
      0 <= p <= 10
    }

    ghost predicate Valid()
      reads this
    {
      ThresholdValid(threshold) && PaddingValid(padding)
    }

    constructor ()
      ensures Valid()
      ensures indexes == [] && threshold == 1.2 && padding == 0
    {
      indexes := [];
      threshold := 1.2;
      padding := 0;
    }

    method ClearSelection()
      modifies this`indexes
      ensures indexes == []
    {
      SetPoints([]);
    }

    method SetPoints(points: seq<int>)
      modifies this`indexes
      ensures indexes == points
    {
      indexes := points;
    }

    /** The points padded `padding` times. */
    method PadAll(g: Grid, found: seq<int>) returns (points: seq<int>)
      ensures PaddedFrom(g, found, padding, points)
    {
      points := found;
      for i := 0 to padding
        invariant PaddedFrom(g, found, i, points)
      {
        points := PadSelection(g, points);
      }
    }

    /** The final merge with the previous selection. */
    method Merge(points: seq<int>, clicked: int, modifying: bool)
      modifies this`indexes
      ensures Merged(old(indexes), points, clicked, modifying, indexes)
    {
      if modifying && clicked in indexes {
        var merged := RemoveAll(indexes, points);
        SetPoints(merged);
      } else if modifying {
        var merged := ListOf(Elems(indexes) + Elems(points));
        assert Elems(merged) == Elems(indexes) + Elems(points);
        SetPoints(merged);
      } else {
        SetPoints(points);
      }
    }

    /** selectPoint: the click at (x, y) on a composite or ratio map, whose values are
        `data`. */
    method SelectPoint(g: Grid, mode: MapMode, data: array<real>, x: int, y: int, contiguous: bool, modifying: bool)
      requires Valid()
      requires mode != OtherMode
      requires Size(g) <= data.Length && 0 <= x < g.w && 0 <= y < g.h
      modifies this`indexes, data
      ensures Valid()
      ensures var clicked := IndexOf(g, x, y);
        0 <= clicked < data.Length &&
        var (d, v) := Oriented(mode, old(data[..]), clicked);
        && data[..] == d
        && (exists found, points :: Found(g, d, v, threshold, clicked, contiguous, found)
              && PaddedFrom(g, found, padding, points)
              && Merged(old(indexes), points, clicked, modifying, indexes))
    {
      if !modifying {
        ClearSelection();
      }
      ghost var previous := old(indexes);
      IndexInGrid(g, x, y);
      var clicked := IndexOf(g, x, y);
      var value := Orient(mode, data, clicked);
      var d := data[..];
      var found;
      if !contiguous {
        found := AllMatching(g, d, value, threshold);
      } else {
        found := FloodFill(g, d, value, threshold, clicked);
      }
      var points := PadAll(g, found);
      Merge(points, clicked, modifying);
      assert Found(g, d, value, threshold, clicked, contiguous, found);
      assert Merged(previous, points, clicked, modifying, indexes);
    }
  }
}
