/**
 * Stand-ins for vivarium's randomness stream. The uniform draws themselves are inputs of the
 * model (one per simulant and key, in [0, 1)); what is modelled is how a draw is turned into
 * a choice or a filter decision.
 */
module Randomness {

  /** Every draw of a keyed randomness stream lies in [0, 1). */
  ghost predicate UnitKeyedDraws(draw: (string, int) -> real)
  {
    forall key, id :: 0.0 <= draw(key, id) < 1.0
  }

  /** The sum of the weights of a list of choices. */
  function Total<T>(choices: seq<(T, real)>): real
  {
    if choices == [] then 0.0 else choices[0].1 + Total(choices[1..])
  }

  /**
   * The number of cumulative weights (starting from `acc`) that `x` strictly exceeds: the
   * index `choice` selects, counting the bins `draw > cumsum(p)`.
   */
  function CountExceeded<T>(x: real, choices: seq<(T, real)>, acc: real): (r: nat)
    ensures r <= |choices|
  {
    if choices == [] then 0
    else (if x > acc + choices[0].1 then 1 else 0) + CountExceeded(x, choices[1..], acc + choices[0].1)
  }

  /** A value below the final cumulative weight exceeds at most all but the last of them. */
  lemma {:induction false} CountExceededBelowTotal<T>(x: real, choices: seq<(T, real)>, acc: real)
    requires |choices| >= 1 && x < acc + Total(choices)
    ensures CountExceeded(x, choices, acc) < |choices|
  {
    if |choices| == 1 {
      assert Total(choices[1..]) == 0.0;
    } else {
      CountExceededBelowTotal(x, choices[1..], acc + choices[0].1);
    }
  }

  /** The draw scaled to the weights: `u` times their total, below the total. */
  function Draw<T>(u: real, choices: seq<(T, real)>): (x: real)
    requires 0.0 <= u < 1.0 && Total(choices) > 0.0
    ensures 0.0 <= x < Total(choices)
  {
    ScaledBounds(u, Total(choices));
    u * Total(choices)
  }

  lemma ScaledBounds(u: real, t: real)
    requires 0.0 <= u < 1.0 && t > 0.0
    ensures 0.0 <= u * t < t
  {
    assert t - u * t == (1.0 - u) * t;
  }

  /**
   * `randomness.choice` for one simulant: the weights are normalised by their total, and the
   * draw selects the first choice whose cumulative probability it does not exceed.
   */
  function Choose<T>(u: real, choices: seq<(T, real)>): (r: T)
    requires 0.0 <= u < 1.0 && Total(choices) > 0.0
    ensures exists k :: 0 <= k < |choices| && r == choices[k].0
  {
    assert |choices| >= 1;
    CountExceededBelowTotal(Draw(u, choices), choices, 0.0);
    choices[CountExceeded(Draw(u, choices), choices, 0.0)].0
  }

  /**
   * With non-negative weights the draw `x` selects the entry whose bin holds it: the cumulative
   * weight before the entry is below `x` (unless it is the first), and the cumulative weight
   * through it is at least `x`.
   */
  lemma {:induction false} CountExceededBracket<T>(x: real, choices: seq<(T, real)>, acc: real)
    requires forall j :: 0 <= j < |choices| ==> choices[j].1 >= 0.0
    requires |choices| >= 1 && x <= acc + Total(choices)
    ensures var k := CountExceeded(x, choices, acc);
      k < |choices| && (k > 0 ==> acc + Total(choices[..k]) < x) && x <= acc + Total(choices[..k + 1])
  {
    var w, rest := choices[0].1, choices[1..];
    TotalOfFirst(choices);
    if x > acc + w {
      assert rest != [];
      CountExceededBracket(x, rest, acc + w);
      var k' := CountExceeded(x, rest, acc + w);
      TotalOfPrefix(choices, k');
      TotalOfPrefix(choices, k' + 1);
    } else {
      NonNegativeNotExceeded(x, rest, acc + w);
    }
  }

  lemma TotalOfFirst<T>(choices: seq<(T, real)>)
    requires |choices| >= 1
    ensures Total(choices[..1]) == choices[0].1
  {
    assert choices[..1][1..] == [];
  }

  /** The cumulative weight through a prefix of length `n + 1` is the first weight plus the rest's. */
  lemma TotalOfPrefix<T>(choices: seq<(T, real)>, n: nat)
    requires n + 1 <= |choices|
    ensures Total(choices[..n + 1]) == choices[0].1 + Total(choices[1..][..n])
  {
    assert choices[..n + 1][1..] == choices[1..][..n];
  }

  lemma {:induction false} NonNegativeNotExceeded<T>(x: real, choices: seq<(T, real)>, acc: real)
    requires forall j :: 0 <= j < |choices| ==> choices[j].1 >= 0.0
    requires x <= acc
    ensures CountExceeded(x, choices, acc) == 0
  {
    if choices != [] {
      NonNegativeNotExceeded(x, choices[1..], acc + choices[0].1);
    }
  }

  /**
   * What `Choose` selects: the entry `k` whose cumulative weight before it lies below the
   * scaled draw `Draw(u, choices)`, that is `u * Total(choices)` (unless it is the first) and whose cumulative weight
   * through it reaches the draw.
   */
  lemma ChooseIndex<T>(u: real, choices: seq<(T, real)>)
    requires 0.0 <= u < 1.0 && Total(choices) > 0.0
    requires forall j :: 0 <= j < |choices| ==> choices[j].1 >= 0.0
    ensures var x := Draw(u, choices); var k := CountExceeded(x, choices, 0.0);
      k < |choices| && Choose(u, choices) == choices[k].0 &&
      (k > 0 ==> Total(choices[..k]) < x) && x <= Total(choices[..k + 1])
  {
    assert |choices| >= 1;
    CountExceededBracket(Draw(u, choices), choices, 0.0);
  }

  /** A choice list whose only positive weight is on one entry always selects that entry. */
  lemma {:induction false} CountExceededSingleMass<T>(x: real, choices: seq<(T, real)>, acc: real, k: nat)
    requires k < |choices| && choices[k].1 > 0.0
    requires forall j :: 0 <= j < |choices| && j != k ==> choices[j].1 == 0.0
    requires acc < x <= acc + choices[k].1
    ensures CountExceeded(x, choices, acc) == k
  {
    if k == 0 {
      ZeroWeightsNotExceeded(x, choices[1..], acc + choices[0].1);
    } else {
      CountExceededSingleMass(x, choices[1..], acc + choices[0].1, k - 1);
    }
  }

  lemma {:induction false} ZeroWeightsNotExceeded<T>(x: real, choices: seq<(T, real)>, acc: real)
    requires forall j :: 0 <= j < |choices| ==> choices[j].1 == 0.0
    requires x <= acc
    ensures CountExceeded(x, choices, acc) == 0
  {
    if choices != [] {
      ZeroWeightsNotExceeded(x, choices[1..], acc + choices[0].1);
    }
  }

  /** `filter_for_probability` for one simulant: kept when its draw falls below the probability. */
  predicate Kept(u: real, probability: real)
  {
    u < probability
  }

  /** A probability of one keeps every simulant, a probability of zero keeps none. */
  lemma KeptExtremes(u: real)
    requires 0.0 <= u < 1.0
    ensures Kept(u, 1.0) && !Kept(u, 0.0)
  {
  }
}
