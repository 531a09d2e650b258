/**
 * CompoundFittingScorer: a weighted product of sub-scorers. Each sub-scorer's score
 * (NaN read as 0) is multiplied by its weight divided by the total weight, and the
 * compound score is the product of these factors over the sub-scorers, starting from 1.
 * The sub-scorers themselves are not part of this model: a score call receives their
 * scores for the series being scored as the function `sub`.
 */
module CompoundScorer {
  import opened Types

  /** A sub-score with NaN read as 0. */
  function Clean(f: Float): (r: real)
    ensures f.NaN? ==> r == 0.0
    ensures f.Num? ==> r == f.r
  {
    match f
    case NaN => 0.0
    case Num(x) => x
  }

  /**
   * The factor each sub-scorer contributes: its cleaned score times its share of the
   * total weight. Only keys of `weights` are ever consulted, and only with a non-zero
   * total (a non-empty scorer map with a zero total divides by zero).
   */
  function Weighted<S>(weights: map<S, real>, total: real, sub: S -> Float): S -> real
  {
    k => if k in weights && total != 0.0 then Clean(sub(k)) * (weights[k] / total) else 0.0
  }

  /** The product of f over `keys`; which key is taken first is left open. */
  ghost function Product<S(!new)>(keys: set<S>, f: S -> real): real
    decreases keys
  {
    if keys == {} then 1.0
    else
      var k :| k in keys;
      f(k) * Product(keys - {k}, f)
  }

  /** Names the key the definition of Product takes first. */
  lemma Unfold<S(!new)>(keys: set<S>, f: S -> real) returns (j: S)
    requires keys != {}
    ensures j in keys && Product(keys, f) == f(j) * Product(keys - {j}, f)
  {
    j :| j in keys && Product(keys, f) == f(j) * Product(keys - {j}, f);
  }

  /** Any key may be taken first: the product does not depend on iteration order. */
  lemma {:induction false} ProductPick<S(!new)>(keys: set<S>, f: S -> real, k: S)
    requires k in keys
    ensures Product(keys, f) == f(k) * Product(keys - {k}, f)
    decreases keys
  {
    var j := Unfold(keys, f);
    if j != k {
      var rest := Product(keys - {j} - {k}, f);
      ProductPick(keys - {j}, f, k);
      ProductPick(keys - {k}, f, j);
      assert keys - {j} - {k} == keys - {k} - {j};
      Swap(f(j), f(k), rest, Product(keys - {j}, f), Product(keys - {k}, f));
    }
  }

  /** Taking one more key into the product multiplies it by that key's factor. */
  lemma ProductStep<S(!new)>(done: set<S>, f: S -> real, s: S, p: real, factor: real)
    requires s !in done && p == Product(done, f) && factor == f(s)
    ensures p * factor == Product(done + {s}, f)
  {
    ProductPick(done + {s}, f, s);
    assert done + {s} - {s} == done;
  }

  /** The order of two factors before a common rest does not matter. */
  lemma Swap(a: real, b: real, rest: real, p: real, q: real)
    requires p == b * rest && q == a * rest
    ensures a * p == b * q
  {
  }

  /** A zero or NaN sub-score forces the compound score to 0. */
  lemma ZeroSubScore<S(!new)>(weights: map<S, real>, total: real, sub: S -> Float, k: S)
    requires k in weights && (sub(k).NaN? || sub(k) == Num(0.0))
    ensures Product(weights.Keys, Weighted(weights, total, sub)) == 0.0
  {
    ProductPick(weights.Keys, Weighted(weights, total, sub), k);
  }

  /** With one sub-scorer the compound score is that score scaled by its weight share. */
  lemma SingleScorer<S(!new)>(weights: map<S, real>, total: real, sub: S -> Float, k: S)
    requires weights.Keys == {k} && total != 0.0
    ensures Product(weights.Keys, Weighted(weights, total, sub)) == Clean(sub(k)) * (weights[k] / total)
  {
    ProductPick(weights.Keys, Weighted(weights, total, sub), k);
    assert weights.Keys - {k} == {};
  }

  class CompoundFittingScorer<S(==,!new)> {
    var scorers: map<S, real>
    var totalWeight: real

    constructor ()
      ensures scorers == map[] && totalWeight == 0.0
    {
      scorers := map[];
      totalWeight := 0.0;
    }

    /** Puts (or overwrites) the weight and adds it to the total, every time. */
    method Add(scorer: S, weight: real)
      modifies this
      ensures scorers == old(scorers)[scorer := weight]
      ensures totalWeight == old(totalWeight) + weight
    {
      scorers := scorers[scorer := weight];
      totalWeight := totalWeight + weight;
    }

    /** The compound score of one series, given its sub-scores. */
    method Score(sub: S -> Float) returns (score: real)
      requires scorers == map[] || totalWeight != 0.0
      ensures score == Product(scorers.Keys, Weighted(scorers, totalWeight, sub))
      ensures scorers == map[] ==> score == 1.0
      ensures (exists k :: k in scorers && (sub(k).NaN? || sub(k) == Num(0.0))) ==> score == 0.0
    {
      ghost var f := Weighted(scorers, totalWeight, sub);
      score := 1.0;
      var remaining := scorers.Keys;
      ghost var done: set<S> := {};
      while remaining != {}
        invariant remaining <= scorers.Keys
        invariant done == scorers.Keys - remaining
        invariant score == Product(done, f)
        decreases remaining
      {
        var s :| s in remaining;
        var weight := scorers[s];
        var thisScore := Clean(sub(s));
        var factor := thisScore * (weight / totalWeight);
        ProductStep(done, f, s, score, factor);
        score := score * factor;
        remaining := remaining - {s};
        done := done + {s};
      }
      assert done == scorers.Keys;
      forall k | k in scorers && (sub(k).NaN? || sub(k) == Num(0.0))
        ensures score == 0.0
      {
        ZeroSubScore(scorers, totalWeight, sub, k);
      }
    }
  }
}
