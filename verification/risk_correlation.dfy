/**
 * The `RiskCorrelation` component of components/risk_correlation.py: it completes the
 * correlation table with unit self-correlations and switched pair columns, reads one
 * covariance matrix per age band from it, assigns correlated propensities band by band and
 * registers one PAF modifier per affected target. The multivariate normal draws are inputs.
 */
module RiskCorrelation {
  import opened Wrappers
  import opened Strings
  import opened Sorting

  const PAIR_SEPARATOR := "_AND_"

  /** The column holding the correlation of two risks. */
  function PairColumn(first: string, second: string): string { first + PAIR_SEPARATOR + second }

  /** One `{risk}_propensity` column per correlated risk, in order. */
  function PropensityColumns(risks: seq<string>): (r: seq<string>)
    ensures |r| == |risks| && forall i :: 0 <= i < |risks| ==> r[i] == risks[i] + "_propensity"
  {
    seq(|risks|, i requires 0 <= i < |risks| => risks[i] + "_propensity")
  }

  /** The pair columns: every column whose name contains "AND", in column order. */
  function PairColumns(columns: seq<string>): (r: seq<string>)
    ensures forall c :: c in r <==> c in columns && Contains(c, "AND")
    ensures Distinct(columns) ==> Distinct(r)
  {
    if columns == [] then []
    else
      var rest := PairColumns(columns[1..]);
      assert forall c :: c in columns <==> c == columns[0] || c in columns[1..];
      if Contains(columns[0], "AND") then [columns[0]] + rest else rest
  }

  /**
   * `pair.split("_AND_")[1] + "_AND_" + pair.split("_AND_")[0]`; a column with "AND" but
   * without the separator has a single piece, and indexing it raises an IndexError.
   */
  function Switched(pair: string): (r: Result<string>)
    ensures r.Err? <==> |Split(pair, PAIR_SEPARATOR)| < 2
    ensures r.Ok? ==> r.value == PairColumn(Split(pair, PAIR_SEPARATOR)[1], Split(pair, PAIR_SEPARATOR)[0])
  {
    var parts := Split(pair, PAIR_SEPARATOR);
    if |parts| < 2 then Err(IndexError("list index out of range"))
    else Ok(PairColumn(parts[1], parts[0]))
  }

  /** The switched name of every pair column, the first failure raised. */
  function SwitchedAll(pairs: seq<string>): (r: Result<seq<string>>)
    ensures r.Ok? <==> forall k :: 0 <= k < |pairs| ==> Switched(pairs[k]).Ok?
    ensures r.Ok? ==> |r.value| == |pairs| && forall k :: 0 <= k < |pairs| ==> Switched(pairs[k]) == Ok(r.value[k])
  {
    if pairs == [] then Ok([])
    else
      var first :- Switched(pairs[0]);
      var rest :- SwitchedAll(pairs[1..]);
      assert forall k :: 1 <= k < |pairs| ==> pairs[k] == pairs[1..][k - 1];
      Ok([first] + rest)
  }

  /** Switching a pair of names that lack 'A' swaps them. */
  lemma SwitchPlainPair(a: string, b: string)
    requires Lacks(a, 'A') && Lacks(b, 'A')
    ensures Switched(PairColumn(a, b)) == Ok(PairColumn(b, a))
  {
    assert PAIR_SEPARATOR[1] == 'A' && Lacks(PAIR_SEPARATOR[..1], 'A');
    assert Join([a, b], PAIR_SEPARATOR) == PairColumn(a, b);
    SplitJoin([a, b], PAIR_SEPARATOR, 1);
  }

  /** Every pair column switches to a column that switches back to it. */
  predicate WellPaired(pairs: seq<string>, switched: seq<string>)
    requires |switched| == |pairs|
  {
    forall k :: 0 <= k < |pairs| ==> Switched(switched[k]) == Ok(pairs[k])
  }

  /** Columns with names built from risk names that lack 'A' are well paired. */
  lemma PlainPairsAreWellPaired(pairs: seq<(string, string)>)
    requires forall k :: 0 <= k < |pairs| ==> Lacks(pairs[k].0, 'A') && Lacks(pairs[k].1, 'A')
    ensures var cols := seq(|pairs|, k requires 0 <= k < |pairs| => PairColumn(pairs[k].0, pairs[k].1));
      SwitchedAll(cols).Ok? && WellPaired(cols, SwitchedAll(cols).value)
  {
    var cols := seq(|pairs|, k requires 0 <= k < |pairs| => PairColumn(pairs[k].0, pairs[k].1));
    forall k | 0 <= k < |pairs|
      ensures Switched(cols[k]) == Ok(PairColumn(pairs[k].1, pairs[k].0))
      ensures Switched(PairColumn(pairs[k].1, pairs[k].0)) == Ok(cols[k])
    {
      SwitchPlainPair(pairs[k].0, pairs[k].1);
      SwitchPlainPair(pairs[k].1, pairs[k].0);
    }
  }

  /** The columns after appending each name that is not yet a column. */
  function WithColumns(columns: seq<string>, names: seq<string>): (r: seq<string>)
    ensures forall c :: c in r <==> c in columns || c in names
    ensures Distinct(columns) ==> Distinct(r)
    decreases |names|
  {
    if names == [] then columns
    else
      assert forall c :: c in names <==> c == names[0] || c in names[1..];
      WithColumns(if names[0] in columns then columns else columns + [names[0]], names[1..])
  }

  function SelfColumns(risks: seq<string>): (r: seq<string>)
    ensures |r| == |risks| && forall i :: 0 <= i < |risks| ==> r[i] == PairColumn(risks[i], risks[i])
  {
    seq(|risks|, i requires 0 <= i < |risks| => PairColumn(risks[i], risks[i]))
  }

  /** A column of `n` ones. */
  function Ones(n: nat): (r: seq<real>)
    ensures |r| == n && forall k :: 0 <= k < n ==> r[k] == 1.0
  {
    if n == 0 then [] else [1.0] + Ones(n - 1)
  }

  /** The correlation table read from the correlation file, one row per age band. */
  class CorrelationData {
    var columns: seq<string>
    var values: map<string, seq<real>>
    const rows: nat

    ghost predicate Valid()
      reads this
    {
      && Distinct(columns)
      && (forall c :: c in values <==> c in columns)
      && (forall c :: c in values ==> |values[c]| == rows)
    }

    constructor (columns: seq<string>, values: map<string, seq<real>>, rows: nat)
      requires Distinct(columns) && (forall c :: c in values <==> c in columns)
      requires forall c :: c in values ==> |values[c]| == rows
      ensures Valid()
      ensures this.columns == columns && this.values == values && this.rows == rows
    {
      this.columns := columns;
      this.values := values;
      this.rows := rows;
    }

    /** `df[name] = column`: overwrites an existing column in place, or appends a new one. */
    method SetColumn(name: string, column: seq<real>)
      requires Valid() && |column| == rows
      modifies this
      ensures Valid()
      ensures values == old(values)[name := column]
      ensures columns == if name in old(columns) then old(columns) else old(columns) + [name]
    {
      values := values[name := column];
      if name !in columns {
        columns := columns + [name];
      }
    }

    /** `SetColumn`, seen as appending one more name to a list of names added to `base`. */
    method SetNamedColumn(ghost base: seq<string>, ghost names: seq<string>, name: string, column: seq<real>)
      requires Valid() && |column| == rows && columns == WithColumns(base, names)
      modifies this
      ensures Valid()
      ensures values == old(values)[name := column]
      ensures columns == WithColumns(base, names + [name])
    {
      WithColumnsSnoc(base, names, name);
      SetColumn(name, column);
    }

    /** The first loop: a column of ones for every risk with itself. */
    method AddSelfCorrelations(risks: seq<string>)
      requires Valid()
      modifies this
      ensures Valid()
      ensures columns == WithColumns(old(columns), SelfColumns(risks))
      ensures forall i :: 0 <= i < |risks| ==> SelfColumns(risks)[i] in values && values[SelfColumns(risks)[i]] == Ones(rows)
    {
      var ones := Ones(rows);
      var selfs := SelfColumns(risks);
      for i := 0 to |risks|
        invariant Valid()
        invariant columns == WithColumns(old(columns), selfs[..i])
        invariant forall j :: 0 <= j < i ==> selfs[j] in values && values[selfs[j]] == ones
      {
        PrefixGrows(selfs, i);
        SetNamedColumn(old(columns), selfs[..i], selfs[i], ones);
      }
      assert selfs[..|risks|] == selfs;
    }

    /**
     * The second loop: each pair column's values are copied into its switched column. With
     * well-paired names every pair column ends equal to its switched column, and a column
     * that switches to itself keeps its values.
     */
    method CopySwitchedPairs(pairs: seq<string>, switched: seq<string>)
      requires Valid() && Distinct(pairs) && |switched| == |pairs|
      requires forall c :: c in pairs ==> c in values
      requires forall k :: 0 <= k < |pairs| ==> Switched(pairs[k]) == Ok(switched[k])
      modifies this
      ensures Valid()
      ensures forall c :: c in old(values) ==> c in values
      ensures WellPaired(pairs, switched) ==> Symmetric(pairs, switched, values)
      ensures WellPaired(pairs, switched) ==>
        forall c :: c in old(values) && Switched(c) == Ok(c) ==> c in values && values[c] == old(values)[c]
    {
      for k := 0 to |pairs|
        invariant Valid()
        invariant forall c :: c in old(values) ==> c in values
        invariant forall c :: c in pairs ==> c in values
        invariant WellPaired(pairs, switched) ==>
          forall j :: 0 <= j < k ==> switched[j] in values && values[switched[j]] == values[pairs[j]]
        invariant WellPaired(pairs, switched) ==>
          forall c :: c in old(values) && Switched(c) == Ok(c) ==> values[c] == old(values)[c]
      {
        if WellPaired(pairs, switched) {
          CopyKeepsPairs(pairs, switched, values, k);
        }
        SetColumn(switched[k], values[pairs[k]]);
      }
    }

    /**
     * `update_correlation_data`: a column of ones for every risk with itself, then for every
     * pair column (as the table stands after that) its switched column receives a copy of
     * its values; a pair column without the separator raises an IndexError before any copy.
     * With well-paired names, the finished table is symmetric: each pair column and its
     * switched column hold the same values, and each risk's self column holds ones.
     */
    method UpdateCorrelationData(risks: seq<string>) returns (r: Result<()>)
      requires Valid()
      modifies this
      ensures Valid()
      ensures r.Err? <==> SwitchedAll(PairColumns(WithColumns(old(columns), SelfColumns(risks)))).Err?
      ensures r.Ok? ==>
        var pairs := PairColumns(WithColumns(old(columns), SelfColumns(risks)));
        WellPaired(pairs, SwitchedAll(pairs).value) ==> Symmetric(pairs, SwitchedAll(pairs).value, values)
      ensures r.Ok? ==>
        var pairs := PairColumns(WithColumns(old(columns), SelfColumns(risks)));
        WellPaired(pairs, SwitchedAll(pairs).value) ==>
          forall i :: 0 <= i < |risks| && Switched(SelfColumns(risks)[i]) == Ok(SelfColumns(risks)[i]) ==>
            SelfColumns(risks)[i] in values && values[SelfColumns(risks)[i]] == Ones(rows)
    {
      AddSelfCorrelations(risks);
      var pairs := PairColumns(columns);
      var all := SwitchedAll(pairs);
      if all.Err? {
        return Err(all.error);
      }
      CopySwitchedPairs(pairs, all.value);
      r := Ok(());
    }
  }

  /** Each pair column and its switched column are present and hold the same values. */
  ghost predicate Symmetric(pairs: seq<string>, switched: seq<string>, values: map<string, seq<real>>)
    requires |switched| == |pairs|
  {
    forall k :: 0 <= k < |pairs| ==> switched[k] in values && pairs[k] in values && values[switched[k]] == values[pairs[k]]
  }

  /** Appending one more name to the list of names appends it to the columns if it is new. */
  lemma {:induction false} WithColumnsSnoc(columns: seq<string>, names: seq<string>, name: string)
    ensures WithColumns(columns, names + [name]) ==
      (if name in WithColumns(columns, names) then WithColumns(columns, names) else WithColumns(columns, names) + [name])
    decreases |names|
  {
    if names == [] {
      assert [name][1..] == [];
    } else {
      assert (names + [name])[1..] == names[1..] + [name];
      WithColumnsSnoc(if names[0] in columns then columns else columns + [names[0]], names[1..], name);
    }
  }

  /**
   * Copying `pairs[k]` onto `switched[k]` keeps every earlier pair equal to its switched
   * column and every self column that switches to itself at its value.
   */
  lemma CopyKeepsPairs(pairs: seq<string>, switched: seq<string>, values: map<string, seq<real>>, k: nat)
    requires |switched| == |pairs| && k < |pairs| && Distinct(pairs)
    requires forall j :: 0 <= j < |pairs| ==> Switched(pairs[j]) == Ok(switched[j])
    requires WellPaired(pairs, switched)
    requires forall c :: c in pairs ==> c in values
    requires forall j :: 0 <= j < k ==> switched[j] in values && values[switched[j]] == values[pairs[j]]
    ensures var v := values[switched[k] := values[pairs[k]]];
      forall j :: 0 <= j < k + 1 ==> switched[j] in v && v[switched[j]] == v[pairs[j]]
    ensures forall c :: Switched(c) == Ok(c) && c in values ==>
      values[switched[k] := values[pairs[k]]][c] == values[c]
  {
    var v := values[switched[k] := values[pairs[k]]];
    forall j | 0 <= j < k
      ensures v[switched[j]] == v[pairs[j]]
    {
      if switched[j] == switched[k] {
        assert false;
      } else if pairs[j] == switched[k] {
        assert switched[j] == pairs[k];
      }
    }
    forall c | Switched(c) == Ok(c) && c in values
      ensures v[c] == values[c]
    {
      if c == switched[k] {
        assert pairs[k] == c;
      }
    }
  }

  /** The first column of `cols` that the table lacks. */
  function MissingIn(cols: seq<string>, values: map<string, seq<real>>): (r: Option<string>)
    ensures r.None? <==> forall k :: 0 <= k < |cols| ==> cols[k] in values
    ensures r.Some? ==> r.value in cols && r.value !in values
  {
    if cols == [] then None
    else if cols[0] !in values then Some(cols[0])
    else
      assert forall k :: 1 <= k < |cols| ==> cols[k] == cols[1..][k - 1];
      MissingIn(cols[1..], values)
  }

  /** The columns of one matrix row, `first_AND_second` for each second risk. */
  function RowColumns(first: string, risks: seq<string>): (r: seq<string>)
    ensures |r| == |risks| && forall j :: 0 <= j < |risks| ==> r[j] == PairColumn(first, risks[j])
  {
    seq(|risks|, j requires 0 <= j < |risks| => PairColumn(first, risks[j]))
  }

  /** The first column the comprehension reads (row by row) that the table lacks. */
  function MissingPair(firsts: seq<string>, risks: seq<string>, values: map<string, seq<real>>): (r: Option<string>)
    ensures r.None? <==> forall i, j :: 0 <= i < |firsts| && 0 <= j < |risks| ==> PairColumn(firsts[i], risks[j]) in values
    ensures r.Some? ==> r.value !in values
  {
    if firsts == [] then None
    else match MissingIn(RowColumns(firsts[0], risks), values)
      case Some(c) => Some(c)
      case None =>
        assert forall i :: 1 <= i < |firsts| ==> firsts[i] == firsts[1..][i - 1];
        MissingPair(firsts[1..], risks, values)
  }

  /**
   * The covariance matrix of one age band: entry `[i][j]` is the band's value in the column
   * `risk_i_AND_risk_j`; a missing column is a KeyError.
   */
  function CovarianceMatrix(risks: seq<string>, values: map<string, seq<real>>, row: nat): (r: Result<seq<seq<real>>>)
    requires forall c :: c in values ==> row < |values[c]|
    ensures r.Ok? <==> forall i, j :: 0 <= i < |risks| && 0 <= j < |risks| ==> PairColumn(risks[i], risks[j]) in values
    ensures r.Err? ==> r.error.KeyError? && r.error.key !in values
    ensures r.Ok? ==> |r.value| == |risks| && forall i :: 0 <= i < |risks| ==> (|r.value[i]| == |risks| &&
      forall j :: 0 <= j < |risks| ==> r.value[i][j] == values[PairColumn(risks[i], risks[j])][row])
  {
    match MissingPair(risks, risks, values)
    case Some(c) => Err(KeyError(c))
    case None =>
      Ok(seq(|risks|, i requires 0 <= i < |risks| =>
        seq(|risks|, j requires 0 <= j < |risks| => values[PairColumn(risks[i], risks[j])][row])))
  }

  /**
   * On a table whose pair columns equal their switched columns and whose self columns are
   * ones, every band's covariance matrix is symmetric with a unit diagonal.
   */
  lemma CovarianceSymmetric(risks: seq<string>, values: map<string, seq<real>>, row: nat)
    requires forall c :: c in values ==> row < |values[c]|
    requires forall i, j :: 0 <= i < |risks| && 0 <= j < |risks| ==>
      PairColumn(risks[i], risks[j]) in values && PairColumn(risks[j], risks[i]) in values &&
      values[PairColumn(risks[i], risks[j])] == values[PairColumn(risks[j], risks[i])]
    requires forall i :: 0 <= i < |risks| ==> values[PairColumn(risks[i], risks[i])][row] == 1.0
    ensures CovarianceMatrix(risks, values, row).Ok?
    ensures var m := CovarianceMatrix(risks, values, row).value;
      (forall i, j :: 0 <= i < |risks| && 0 <= j < |risks| ==> m[i][j] == m[j][i]) &&
      (forall i :: 0 <= i < |risks| ==> m[i][i] == 1.0)
  {
  }

  // ---------------------------------------------------------------- propensities

  /** The simulants of one band: `age_start <= age < age_end`. */
  function Band(ages: map<int, real>, band: (real, real)): (r: set<int>)
    ensures forall id :: id in r <==> id in ages && band.0 <= ages[id] && ages[id] < band.1
  {
    set id | id in ages && band.0 <= ages[id] && ages[id] < band.1
  }

  /** The propensities after the first `k` bands: each band overwrites its simulants' rows. */
  function Propensities(ages: map<int, real>, bands: seq<(real, real)>, draws: (nat, int) -> seq<real>, k: nat): (r: map<int, seq<real>>)
    requires k <= |bands|
    ensures forall id :: id in r <==> exists i :: 0 <= i < k && id in Band(ages, bands[i])
  {
    if k == 0 then map[]
    else
      var before := Propensities(ages, bands, draws, k - 1);
      var band := Band(ages, bands[k - 1]);
      before + map id | id in band :: draws(k - 1, id)
  }

  /** A simulant's propensities come from the last band that contains its age. */
  lemma {:induction false} LastBandWins(ages: map<int, real>, bands: seq<(real, real)>, draws: (nat, int) -> seq<real>,
                                        k: nat, id: int, i: nat)
    requires i < k <= |bands| && id in Band(ages, bands[i])
    requires forall j :: i < j < k ==> id !in Band(ages, bands[j])
    ensures Propensities(ages, bands, draws, k)[id] == draws(i, id)
    decreases k
  {
    var before := Propensities(ages, bands, draws, k - 1);
    var band := Band(ages, bands[k - 1]);
    assert Propensities(ages, bands, draws, k) == before + map id | id in band :: draws(k - 1, id);
    if i < k - 1 {
      LastBandWins(ages, bands, draws, k - 1, id, i);
      assert id !in band;
    } else {
      assert id in band;
    }
  }

  /**
   * `on_initialize_simulants`: band by band, the band's simulants receive that band's
   * correlated propensities; simulants outside every band receive none.
   */
  method InitializePropensities(ages: map<int, real>, bands: seq<(real, real)>, draws: (nat, int) -> seq<real>)
    returns (propensities: map<int, seq<real>>)
    ensures propensities == Propensities(ages, bands, draws, |bands|)
  {
    propensities := map[];
    for i := 0 to |bands|
      invariant propensities == Propensities(ages, bands, draws, i)
    {
      var band := Band(ages, bands[i]);
      propensities := propensities + map id | id in band :: draws(i, id);
    }
  }

  /** The key `get_hash` receives: `{input_draw}_{random_seed}`. */
  function SeedKey(inputDraw: nat, randomSeed: nat): (r: string)
    ensures Split(r, "_") == [NatToString(inputDraw), NatToString(randomSeed)]
  {
    var parts := [NatToString(inputDraw), NatToString(randomSeed)];
    assert Join(parts, "_") == NatToString(inputDraw) + "_" + NatToString(randomSeed);
    SplitJoin(parts, "_", 0);
    NatToString(inputDraw) + "_" + NatToString(randomSeed)
  }

  /** The key determines the draw and the seed, and nothing else enters it. */
  lemma SeedKeyDetermines(d1: nat, s1: nat, d2: nat, s2: nat)
    requires SeedKey(d1, s1) == SeedKey(d2, s2)
    ensures d1 == d2 && s1 == s2
  {
    assert Split(SeedKey(d1, s1), "_") == Split(SeedKey(d2, s2), "_");
    ParseNatToString(d1);
    ParseNatToString(d2);
    ParseNatToString(s1);
    ParseNatToString(s2);
  }

  // ---------------------------------------------------------------- PAF modifiers

  /** The PAF pipeline of an affected target: `{entity}.{measure}.paf`. */
  function PafPipeline(entity: string, measure: string): string { entity + "." + measure + ".paf" }

  /** One modifier per (affected_entity, affected_measure) group of the joint PAF data. */
  function PafModifiers(groups: seq<(string, string)>): (r: map<string, (string, string)>)
    ensures forall k :: 0 <= k < |groups| ==> PafPipeline(groups[k].0, groups[k].1) in r
    ensures forall name :: name in r ==> exists k :: 0 <= k < |groups| && name == PafPipeline(groups[k].0, groups[k].1)
  {
    if groups == [] then map[]
    else
      var rest := PafModifiers(groups[1..]);
      assert forall k :: 1 <= k < |groups| ==> groups[k] == groups[1..][k - 1];
      rest[PafPipeline(groups[0].0, groups[0].1) := groups[0]]
  }

  /** For dot-free names, different targets get different pipelines, so each keeps its own modifier. */
  lemma PafPipelinesDistinct(e1: string, m1: string, e2: string, m2: string)
    requires Lacks(e1, '.') && Lacks(m1, '.') && Lacks(e2, '.') && Lacks(m2, '.')
    requires PafPipeline(e1, m1) == PafPipeline(e2, m2)
    ensures e1 == e2 && m1 == m2
  {
    PafPipelineJoined(e1, m1);
    PafPipelineJoined(e2, m2);
    assert "."[..0] == "";
    SplitJoin([e1, m1, "paf"], ".", 0);
    SplitJoin([e2, m2, "paf"], ".", 0);
  }

  /** A PAF pipeline name is its three parts joined by dots. */
  lemma PafPipelineJoined(e: string, m: string)
    ensures Join([e, m, "paf"], ".") == PafPipeline(e, m)
  {
    var parts := [e, m, "paf"];
    assert parts[1..][1..] == ["paf"];
    assert Join(parts[1..], ".") == m + "." + "paf";
    assert "." + "paf" == ".paf";
  }
}
