/**
 * The `EvenlyDistributedPopulation` component (components/population.py): new simulants get
 * ages spread evenly over the open age range, alternate between female and male by index,
 * and start alive with the creation time as their entrance time.
 *
 * Ages are exact reals rather than floating point; the creation time is a real number of
 * days and NaT is `None`.
 */
module Population {
  import opened Wrappers
  import opened DataValues

  /** The columns `on_initialize_simulants` writes for one new simulant of the given index. */
  datatype Registered = Registered(
    id: int,
    entranceTime: real,
    exitTime: Option<real>,
    alive: bool,
    location: string,
    age: real,
    sex: Sex)

  /** `user_data.get(key, configured)`: a value the caller passes overrides the configured one. */
  function UserOrConfig(userData: map<string, real>, key: string, configured: real): real
  {
    if key in userData then userData[key] else configured
  }

  /** The step of `np.linspace(start, stop, num, endpoint=False)`: the range divided into `num` parts. */
  function LinspaceStep(start: real, stop: real, num: nat): real
    requires num > 0
  {
    (stop - start) / num as real
  }

  /**
   * `np.linspace(start, stop, num, endpoint=False)`: `num` points from `start`, `step`
   * apart, stopping before `stop`.
   */
  method Linspace(start: real, stop: real, num: nat) returns (a: array<real>)
    requires num > 0
    ensures fresh(a)
    ensures a.Length == num
    ensures forall k :: 0 <= k < num ==> a[k] == start + k as real * LinspaceStep(start, stop, num)
  {
    a := new real[num];
    for k := 0 to num
      invariant forall j :: 0 <= j < k ==> a[j] == start + j as real * LinspaceStep(start, stop, num)
    {
      a[k] := start + k as real * LinspaceStep(start, stop, num);
    }
  }

  /** The ages of `n` new simulants: the `n + 1` linspace points of the range with the first dropped. */
  function EvenAges(start: real, end: real, n: nat): (r: seq<real>)
    ensures |r| == n
  {
    seq(n, i requires 0 <= i < n => start + (i + 1) as real * LinspaceStep(start, end, n + 1))
  }

  /** `sex` starts as Female and is overwritten with Male where the index is odd. */
  function SexOf(id: int): Sex
  {
    if id % 2 == 1 then Male else Female
  }

  /** The row a new simulant of the given index gets. */
  function NewSimulant(id: int, creationTime: real, location: string, age: real): (r: Registered)
    ensures r.sex == Male <==> id % 2 == 1
  {
    Registered(id, creationTime, None, true, location, age, SexOf(id))
  }

  /**
   * `on_initialize_simulants`: the age range (user data over configuration), the columns
   * built one by one, `sex` overwritten in place for the odd indices.
   */
  method OnInitializeSimulants(index: seq<int>, userData: map<string, real>, configAgeStart: real, configAgeEnd: real,
                               creationTime: real, location: string)
    returns (population: seq<Registered>)
    ensures |population| == |index|
    ensures forall i :: 0 <= i < |index| ==>
      population[i] == NewSimulant(index[i], creationTime, location,
        EvenAges(UserOrConfig(userData, "age_start", configAgeStart), UserOrConfig(userData, "age_end", configAgeEnd), |index|)[i])
  {
    var n := |index|;
    var ageStart := UserOrConfig(userData, "age_start", configAgeStart);
    var ageEnd := UserOrConfig(userData, "age_end", configAgeEnd);
    var sexes := new Sex[n](_ => Female);
    for i := 0 to n
      invariant forall j :: 0 <= j < n ==> sexes[j] == if j < i then SexOf(index[j]) else Female
    {
      if index[i] % 2 == 1 {
        sexes[i] := Male;
      }
    }
    var points := Linspace(ageStart, ageEnd, n + 1);
    var ages := EvenAges(ageStart, ageEnd, n);
    population := [];
    for i := 0 to n
      invariant |population| == i
      invariant forall j :: 0 <= j < i ==> population[j] == NewSimulant(index[j], creationTime, location, ages[j])
    {
      assert points[i + 1] == ages[i];
      population := population + [Registered(index[i], creationTime, None, true, location, points[i + 1], sexes[i])];
    }
  }

  /** The linspace step of a non-empty range is positive, and `num` steps span the range. */
  lemma StepSpansRange(start: real, end: real, num: nat)
    requires start < end && num > 0
    ensures LinspaceStep(start, end, num) > 0.0
    ensures num as real * LinspaceStep(start, end, num) == end - start
  {
  }

  /** Point `k` of `m` equal positive steps: more steps reach further. */
  lemma MoreSteps(k: real, m: real, step: real)
    requires k < m && step > 0.0
    ensures k * step < m * step
  {
    assert m * step - k * step == (m - k) * step;
  }

  /** Age `i` is `i + 1` steps above `start` and `n - i` steps below `end`. */
  lemma EvenAgeAt(start: real, end: real, n: nat, i: nat)
    requires start < end && i < n
    ensures var step := LinspaceStep(start, end, n + 1);
      && EvenAges(start, end, n)[i] - start == (i + 1) as real * step
      && end - EvenAges(start, end, n)[i] == (n - i) as real * step
  {
    var step := LinspaceStep(start, end, n + 1);
    StepSpansRange(start, end, n + 1);
    assert (n + 1) as real * step - (i + 1) as real * step == (n - i) as real * step;
  }

  /** With `start < end` the ages lie strictly inside the range. */
  lemma EvenAgesInside(start: real, end: real, n: nat)
    requires start < end
    ensures forall i :: 0 <= i < n ==> start < EvenAges(start, end, n)[i] < end
  {
    var step := LinspaceStep(start, end, n + 1);
    StepSpansRange(start, end, n + 1);
    forall i | 0 <= i < n
      ensures start < EvenAges(start, end, n)[i] < end
    {
      EvenAgeAt(start, end, n, i);
      MoreSteps(0.0, (i + 1) as real, step);
      MoreSteps(0.0, (n - i) as real, step);
    }
  }

  /** With `start < end` the ages strictly increase. */
  lemma EvenAgesIncreasing(start: real, end: real, n: nat)
    requires start < end
    ensures forall i, j :: 0 <= i < j < n ==> EvenAges(start, end, n)[i] < EvenAges(start, end, n)[j]
  {
    var step := LinspaceStep(start, end, n + 1);
    StepSpansRange(start, end, n + 1);
    forall i, j | 0 <= i < j < n
      ensures EvenAges(start, end, n)[i] < EvenAges(start, end, n)[j]
    {
      MoreSteps((i + 1) as real, (j + 1) as real, step);
    }
  }

  /**
   * The ages are one step apart, and the same step separates the first from `start` and the
   * last from `end`: the range is cut into `n + 1` equal parts.
   */
  lemma EvenAgesEquallySpaced(start: real, end: real, n: nat)
    requires start < end
    ensures forall i :: 0 <= i < n - 1 ==>
      EvenAges(start, end, n)[i + 1] - EvenAges(start, end, n)[i] == LinspaceStep(start, end, n + 1)
    ensures n > 0 ==> EvenAges(start, end, n)[0] - start == LinspaceStep(start, end, n + 1)
    ensures n > 0 ==> end - EvenAges(start, end, n)[n - 1] == LinspaceStep(start, end, n + 1)
  {
    var step := LinspaceStep(start, end, n + 1);
    forall i | 0 <= i < n - 1
      ensures EvenAges(start, end, n)[i + 1] - EvenAges(start, end, n)[i] == step
    {
      assert (i + 2) as real * step - (i + 1) as real * step == step;
    }
    if n > 0 {
      EvenAgeAt(start, end, n, n - 1);
    }
  }

  /** A run of `n` consecutive indices from `first`, as a new population's index is. */
  function Consecutive(first: int, n: nat): (r: seq<int>)
    ensures |r| == n
    ensures forall i :: 0 <= i < n ==> r[i] == first + i
    decreases n
  {
    if n == 0 then [] else [first] + Consecutive(first + 1, n - 1)
  }

  /** How many of the given indices `SexOf` makes male. */
  function MaleCount(ids: seq<int>): nat
  {
    if ids == [] then 0 else (if SexOf(ids[0]) == Male then 1 else 0) + MaleCount(ids[1..])
  }

  /**
   * Consecutive indices split evenly between the sexes: half are male, the odd one out going
   * to the sex of the first index.
   */
  lemma {:induction false} ConsecutiveSplitEvenly(first: int, n: nat)
    ensures MaleCount(Consecutive(first, n)) == if first % 2 == 1 then (n + 1) / 2 else n / 2
    decreases n
  {
    if n > 0 {
      var ids := Consecutive(first, n);
      assert ids[1..] == Consecutive(first + 1, n - 1);
      ConsecutiveSplitEvenly(first + 1, n - 1);
      assert (first + 1) % 2 == 1 <==> first % 2 != 1;
    }
  }

  /** The new simulants differ in sex from their neighbours: male exactly where the index is odd. */
  lemma SexAlternates(id: int)
    ensures SexOf(id) == Male <==> id % 2 == 1
    ensures SexOf(id) != SexOf(id + 1)
  {
  }
}
