/**
 * Value types shared by every part of the model: elements, shells, transitions and
 * transition series, spectra, Java's nullable references and NaN, and the list
 * operations the Java collections library performs on them (filter, remove,
 * removeAll, de-duplication, stable sorting).
 */
module Types {

  /** A reference that may be null. */
  datatype Option<T> = None | Some(value: T)

  /** A Java float: a real number or NaN (infinities are not modelled). */
  datatype Float = Num(r: real) | NaN

  /** A chemical element: its enum constant name and its ordinal (atomic order). */
  datatype Element = Element(name: string, ordinal: nat)

  /** The shell (series type) of a transition series. */
  datatype Shell = K | L | M | N

  /** TransitionSeriesMode. */
  datatype Mode = Primary | Pileup | Summation

  /** An emission line. */
  datatype Transition = Transition(energy: real, relativeIntensity: real)

  /**
   * A transition series. Equality is structural, as Java's equals is. A primary
   * series has no parts; a composite (pileup or summation) series keeps its
   * primary components, in order, in `parts`.
   */
  datatype Series = Series(element: Element, shell: Shell, mode: Mode, transitions: seq<Transition>, parts: seq<Series>)

  /** A spectrum: one intensity per channel. */
  type Spectrum = seq<real>

  /** The shells in enum declaration order (TransitionShell.values()). */
  const Shells: seq<Shell> := [K, L, M, N]

  lemma AllShells()
    ensures forall s: Shell :: s in Shells
  {
    forall s: Shell ensures s in Shells {
      match s
      case K => assert Shells[0] == K;
      case L => assert Shells[1] == L;
      case M => assert Shells[2] == M;
      case N => assert Shells[3] == N;
    }
  }

  /** The enum constant name of a shell. */
  function ShellName(s: Shell): string
  {
    match s
    case K => "K"
    case L => "L"
    case M => "M"
    case N => "N"
  }

  /** getBaseTransitionSeries: a primary series is its own base. */
  function Base(s: Series): (r: seq<Series>)
    ensures r != []
    ensures s.parts == [] ==> r == [s]
  {
    if s.parts == [] then [s] else s.parts
  }

  // ---------------------------------------------------------------------------
  // Lists

  predicate NoDup<T(==)>(s: seq<T>)
  {
    forall i, j :: 0 <= i < j < |s| ==> s[i] != s[j]
  }

  /** The elements of `s` satisfying `p`, in order (a stream filter). */
  function Filter<T(!new)>(s: seq<T>, p: T -> bool): (r: seq<T>)
    ensures |r| <= |s|
    ensures forall x :: x in r <==> x in s && p(x)
  {
    if s == [] then []
    else (if p(s[0]) then [s[0]] else []) + Filter(s[1..], p)
  }

  lemma {:induction false} FilterNoDup<T(!new)>(s: seq<T>, p: T -> bool)
    requires NoDup(s)
    ensures NoDup(Filter(s, p))
  {
    if s != [] {
      FilterNoDup(s[1..], p);
      assert s[0] !in s[1..];
    }
  }

  lemma {:induction false} FilterAll<T(!new)>(s: seq<T>, p: T -> bool)
    requires forall x :: x in s ==> p(x)
    ensures Filter(s, p) == s
  {
    if s != [] {
      FilterAll(s[1..], p);
    }
  }

  lemma {:induction false} FilterAppend<T(!new)>(s: seq<T>, t: seq<T>, p: T -> bool)
    ensures Filter(s + t, p) == Filter(s, p) + Filter(t, p)
  {
    if s != [] {
      assert (s + t)[1..] == s[1..] + t;
      FilterAppend(s[1..], t, p);
    } else {
      assert s + t == t;
    }
  }

  /** List.remove(Object): drops the first element equal to `x`, if any. */
  function RemoveFirst<T(==)>(s: seq<T>, x: T): (r: seq<T>)
    ensures |r| == if x in s then |s| - 1 else |s|
    ensures forall y :: y in r ==> y in s
    ensures forall y :: y in s && y != x ==> y in r
  {
    if s == [] then []
    else if s[0] == x then s[1..]
    else [s[0]] + RemoveFirst(s[1..], x)
  }

  lemma {:induction false} RemoveFirstNoDup<T>(s: seq<T>, x: T)
    requires NoDup(s)
    ensures NoDup(RemoveFirst(s, x))
    ensures x !in RemoveFirst(s, x)
  {
    if s != [] && s[0] != x {
      RemoveFirstNoDup(s[1..], x);
      assert s[0] !in s[1..];
    }
  }

  /** Collection.removeAll: drops every element that occurs in `xs`. */
  function RemoveAll<T(==,!new)>(s: seq<T>, xs: seq<T>): (r: seq<T>)
    ensures forall y :: y in r <==> y in s && y !in xs
  {
    Filter(s, y => y !in xs)
  }

  /** De-duplication keeping the first occurrence of each element. */
  function Dedup<T(==,!new)>(s: seq<T>): (r: seq<T>)
    ensures NoDup(r)
    ensures forall x :: x in r <==> x in s
    ensures |r| <= |s|
  {
    if s == [] then []
    else
      var d := Dedup(s[..|s| - 1]);
      var x := s[|s| - 1];
      assert s == s[..|s| - 1] + [x];
      if x in d then d else d + [x]
  }

  /** new ArrayList<>(set): the members of a set in some order, each once. */
  method ListOf<T>(s: set<T>) returns (r: seq<T>)
    ensures NoDup(r)
    ensures forall x :: x in r <==> x in s
  {
    r := [];
    var rest := s;
    while rest != {}
      invariant NoDup(r)
      invariant forall x :: x in s <==> x in r || x in rest
      invariant forall x :: x in r ==> x !in rest
      decreases rest
    {
      var x :| x in rest;
      r := r + [x];
      rest := rest - {x};
    }
  }

  /** Element type of the first component of a list of pairs. */
  function Firsts<T, U>(s: seq<(T, U)>): (r: seq<T>)
    ensures |r| == |s|
    ensures forall i :: 0 <= i < |s| ==> r[i] == s[i].0
  {
    seq(|s|, i requires 0 <= i < |s| => s[i].0)
  }

  /** Each element paired with its key. */
  function Keyed<T>(xs: seq<T>, key: T -> real): (r: seq<(T, real)>)
    ensures |r| == |xs|
    ensures forall i :: 0 <= i < |xs| ==> r[i] == (xs[i], key(xs[i]))
  {
    seq(|xs|, i requires 0 <= i < |xs| => (xs[i], key(xs[i])))
  }

  /** Stream.limit(k). */
  function Take<T>(s: seq<T>, k: nat): (r: seq<T>)
    ensures |r| == if k < |s| then k else |s|
    ensures r == s[..|r|]
  {
    if k < |s| then s[..k] else s
  }

  // ---------------------------------------------------------------------------
  // Stable sorting by a real-valued key, ascending, as Stream.sorted with a key
  // comparator does.

  predicate SortedOn<T>(s: seq<T>, key: T -> real)
  {
    forall i, j :: 0 <= i < j < |s| ==> key(s[i]) <= key(s[j])
  }

  function InsertOn<T>(x: T, s: seq<T>, key: T -> real): seq<T>
  {
    if s == [] || key(x) <= key(s[0]) then [x] + s
    else [s[0]] + InsertOn(x, s[1..], key)
  }

  function SortOn<T>(s: seq<T>, key: T -> real): seq<T>
  {
    if s == [] then [] else InsertOn(s[0], SortOn(s[1..], key), key)
  }

  /** The head of an insertion is the inserted element or the old head. */
  lemma InsertOnHead<T>(x: T, s: seq<T>, key: T -> real)
    ensures InsertOn(x, s, key) != []
    ensures InsertOn(x, s, key)[0] == x || (s != [] && InsertOn(x, s, key)[0] == s[0])
  {
  }

  lemma {:induction false} InsertOnSorted<T>(x: T, s: seq<T>, key: T -> real)
    requires SortedOn(s, key)
    ensures SortedOn(InsertOn(x, s, key), key)
  {
    if s != [] && key(s[0]) < key(x) {
      var t := s[1..];
      InsertOnSorted(x, t, key);
      var r := InsertOn(x, t, key);
      InsertOnHead(x, t, key);
      assert key(s[0]) <= key(r[0]);
      assert forall k :: 0 <= k < |r| ==> key(r[0]) <= key(r[k]);
    }
  }

  lemma {:induction false} InsertOnPerm<T>(x: T, s: seq<T>, key: T -> real)
    ensures multiset(InsertOn(x, s, key)) == multiset(s) + multiset{x}
  {
    if s != [] && key(s[0]) < key(x) {
      InsertOnPerm(x, s[1..], key);
      assert s == [s[0]] + s[1..];
    }
  }

  lemma InsertOnCorrect<T>(x: T, s: seq<T>, key: T -> real)
    requires SortedOn(s, key)
    ensures SortedOn(InsertOn(x, s, key), key)
    ensures multiset(InsertOn(x, s, key)) == multiset(s) + multiset{x}
  {
    InsertOnSorted(x, s, key);
    InsertOnPerm(x, s, key);
  }

  lemma {:induction false} SortOnSorted<T>(s: seq<T>, key: T -> real)
    ensures SortedOn(SortOn(s, key), key)
  {
    if s != [] {
      SortOnSorted(s[1..], key);
      InsertOnSorted(s[0], SortOn(s[1..], key), key);
    }
  }

  lemma {:induction false} SortOnPerm<T>(s: seq<T>, key: T -> real)
    ensures multiset(SortOn(s, key)) == multiset(s)
  {
    if s != [] {
      SortOnPerm(s[1..], key);
      InsertOnPerm(s[0], SortOn(s[1..], key), key);
      assert s == [s[0]] + s[1..];
    }
  }

  /** Sorting gives an ascending permutation of the input. */
  lemma SortOnCorrect<T>(s: seq<T>, key: T -> real)
    ensures SortedOn(SortOn(s, key), key)
    ensures multiset(SortOn(s, key)) == multiset(s)
    ensures |SortOn(s, key)| == |s|
  {
    SortOnSorted(s, key);
    SortOnPerm(s, key);
    assert |multiset(SortOn(s, key))| == |multiset(s)|;
  }

  lemma SortOnMembers<T>(s: seq<T>, key: T -> real)
    ensures forall x :: x in SortOn(s, key) <==> x in s
  {
    SortOnCorrect(s, key);
    forall x ensures x in SortOn(s, key) <==> x in s {
      assert x in SortOn(s, key) <==> x in multiset(SortOn(s, key));
      assert x in s <==> x in multiset(s);
    }
  }

  /** The key of an (item, key) pair. */
  function PairKey<T>(p: (T, real)): real
  {
    p.1
  }

  predicate SortedByKey<T>(s: seq<(T, real)>)
  {
    SortedOn(s, PairKey)
  }

  function SortByKey<T>(s: seq<(T, real)>): seq<(T, real)>
  {
    SortOn(s, PairKey)
  }

  lemma SortByKeyCorrect<T>(s: seq<(T, real)>)
    ensures SortedByKey(SortByKey(s))
    ensures multiset(SortByKey(s)) == multiset(s)
    ensures |SortByKey(s)| == |s|
  {
    SortOnCorrect(s, PairKey);
  }

  lemma SortByKeyMembers<T>(s: seq<(T, real)>)
    ensures forall x :: x in SortByKey(s) <==> x in s
  {
    SortOnMembers(s, PairKey);
  }

  // ---------------------------------------------------------------------------
  // Sorting a finite set by an integer key (a key set sorted by a comparator).

  predicate SortedBy<T>(s: seq<T>, key: T -> int)
  {
    forall i, j :: 0 <= i < j < |s| ==> key(s[i]) <= key(s[j])
  }

  /** A stream filter keeps the stream's order. */
  lemma {:induction false} FilterSorted<T(!new)>(s: seq<T>, p: T -> bool, key: T -> int)
    requires SortedBy(s, key)
    ensures SortedBy(Filter(s, p), key)
  {
    if s != [] {
      var rest := Filter(s[1..], p);
      FilterSorted(s[1..], p, key);
      forall x | x in rest ensures key(s[0]) <= key(x) {
        var k :| 1 <= k < |s| && s[k] == x;
      }
    }
  }

  lemma {:induction false} MinimumExists<T(!new)>(s: set<T>, key: T -> int)
    requires s != {}
    ensures exists m :: m in s && forall y :: y in s ==> key(m) <= key(y)
    decreases s
  {
    var x :| x in s;
    if s != {x} {
      MinimumExists(s - {x}, key);
      var m :| m in s - {x} && forall y :: y in s - {x} ==> key(m) <= key(y);
      if key(x) < key(m) {
        assert forall y :: y in s ==> key(x) <= key(y);
      } else {
        assert forall y :: y in s ==> key(m) <= key(y);
      }
    }
  }

  /**
   * The elements of `s` listed once each, by ascending key. Elements with equal
   * keys come in an unspecified order.
   */
  ghost function SortSetBy<T(!new)>(s: set<T>, key: T -> int): (r: seq<T>)
    ensures NoDup(r)
    ensures forall x :: x in r <==> x in s
    ensures SortedBy(r, key)
    decreases s
  {
    if s == {} then []
    else
      MinimumExists(s, key);
      var m :| m in s && forall y :: y in s ==> key(m) <= key(y);
      [m] + SortSetBy(s - {m}, key)
  }
}
