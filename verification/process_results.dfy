/**
 * Post-processing of the simulation output tables (results_processing/process_results.py):
 * dropping incomplete random seeds, summing over seeds, the output column and row order,
 * and the event-count columns dropped before the transition counts are reshaped.
 */
module ProcessResults {
  import opened Wrappers
  import opened Strings
  import opened Sorting

  /** One row of the raw output: the run's draw, seed, scenario and location, then its value columns. */
  datatype Row = Row(draw: int, seed: int, scenario: string, location: string, values: seq<real>)

  /** The completed-job keyspace: the draws, seeds and scenarios that were launched. */
  datatype Keyspace = Keyspace(draws: seq<int>, seeds: seq<int>, scenarios: seq<string>)

  // ---------------------------------------------------------------------------------
  // filter_out_incomplete
  // ---------------------------------------------------------------------------------

  /** The seeds of rows with this draw and scenario. */
  function SeedsOf(data: seq<Row>, draw: int, scenario: string): set<int>
  {
    set r | r in data && r.draw == draw && r.scenario == scenario :: r.seed
  }

  /** The keyspace seeds present for this draw under every keyspace scenario. */
  function CompleteSeeds(data: seq<Row>, draw: int, ks: Keyspace): (r: set<int>)
    ensures forall s :: s in r ==> s in ks.seeds
    ensures forall s, sc :: s in r && sc in ks.scenarios ==> s in SeedsOf(data, draw, sc)
  {
    set s | s in ks.seeds && forall sc :: sc in ks.scenarios ==> s in SeedsOf(data, draw, sc)
  }

  /** The rows of this draw whose seed is one of `seeds`, in data order. */
  function RowsOf(data: seq<Row>, draw: int, seeds: set<int>): (r: seq<Row>)
    ensures forall x :: x in r <==> x in data && x.draw == draw && x.seed in seeds
  {
    if data == [] then []
    else
      var last := data[|data| - 1];
      FrontAndLast(data);
      RowsOf(data[..|data| - 1], draw, seeds) + (if last.draw == draw && last.seed in seeds then [last] else [])
  }

  /** The complete rows, draw by draw in keyspace order. */
  function Complete(data: seq<Row>, ks: Keyspace, draws: seq<int>): (r: seq<Row>)
    ensures forall x :: x in r ==> x in data && x.draw in draws
  {
    if draws == [] then []
    else RowsOf(data, draws[0], CompleteSeeds(data, draws[0], ks)) + Complete(data, ks, draws[1..])
  }

  /**
   * For each keyspace draw, narrows the keyspace seeds to those present under every
   * keyspace scenario, then keeps that draw's rows with a surviving seed. A keyspace
   * without draws leaves nothing to concatenate, which pandas refuses with a ValueError.
   */
  method FilterOutIncomplete(data: seq<Row>, ks: Keyspace) returns (r: Result<seq<Row>>)
    ensures r.Err? <==> ks.draws == []
    ensures r.Err? ==> r.error == ValueError("No objects to concatenate")
    ensures r.Ok? ==> r.value == Complete(data, ks, ks.draws)
  {
    var output := [];
    var d := 0;
    while d < |ks.draws|
      invariant 0 <= d <= |ks.draws|
      invariant output + Complete(data, ks, ks.draws[d..]) == Complete(data, ks, ks.draws)
    {
      var draw := ks.draws[d];
      var randomSeeds := CompleteSeedsOf(data, draw, ks);
      var drawData := DrawRows(data, draw, randomSeeds);
      CompleteFrom(data, ks, ks.draws, d);
      output := output + drawData;
      d := d + 1;
    }
    if ks.draws == [] {
      return Err(ValueError("No objects to concatenate"));
    }
    return Ok(output);
  }

  /** Unfolds `Complete` once at position `d` of the draws. */
  lemma CompleteFrom(data: seq<Row>, ks: Keyspace, draws: seq<int>, d: nat)
    requires d < |draws|
    ensures Complete(data, ks, draws[d..])
      == RowsOf(data, draws[d], CompleteSeeds(data, draws[d], ks)) + Complete(data, ks, draws[d + 1..])
  {
    assert draws[d..][1..] == draws[d + 1..];
  }

  /** Intersects the keyspace seeds with the seeds present under each keyspace scenario in turn. */
  method CompleteSeedsOf(data: seq<Row>, draw: int, ks: Keyspace) returns (randomSeeds: set<int>)
    ensures randomSeeds == CompleteSeeds(data, draw, ks)
  {
    randomSeeds := set s | s in ks.seeds;
    var k := 0;
    while k < |ks.scenarios|
      invariant 0 <= k <= |ks.scenarios|
      invariant randomSeeds == set s | s in ks.seeds && forall j :: 0 <= j < k ==> s in SeedsOf(data, draw, ks.scenarios[j])
    {
      randomSeeds := randomSeeds * SeedsOf(data, draw, ks.scenarios[k]);
      k := k + 1;
    }
    forall s ensures s in randomSeeds <==> s in CompleteSeeds(data, draw, ks) {
      if s in ks.seeds && forall sc :: sc in ks.scenarios ==> s in SeedsOf(data, draw, sc) {
        assert forall j :: 0 <= j < |ks.scenarios| ==> ks.scenarios[j] in ks.scenarios;
      }
    }
  }

  /** The rows of the draw whose seed survived, in data order. */
  method DrawRows(data: seq<Row>, draw: int, randomSeeds: set<int>) returns (drawData: seq<Row>)
    ensures drawData == RowsOf(data, draw, randomSeeds)
  {
    drawData := [];
    var i := 0;
    while i < |data|
      invariant 0 <= i <= |data|
      invariant drawData == RowsOf(data[..i], draw, randomSeeds)
    {
      PrefixOfPrefix(data, i, i + 1);
      if data[i].draw == draw && data[i].seed in randomSeeds {
        drawData := drawData + [data[i]];
      }
      i := i + 1;
    }
    assert data[..i] == data;
  }

  /**
   * A kept row comes from the data, has a keyspace draw and a keyspace seed, and its
   * seed was produced for that draw under every keyspace scenario.
   */
  lemma {:induction false} CompleteSound(data: seq<Row>, ks: Keyspace, draws: seq<int>, x: Row)
    requires x in Complete(data, ks, draws)
    ensures x in data && x.draw in draws && x.seed in ks.seeds
    ensures forall sc :: sc in ks.scenarios ==> exists y :: y in data && y.draw == x.draw && y.scenario == sc && y.seed == x.seed
  {
    if x in RowsOf(data, draws[0], CompleteSeeds(data, draws[0], ks)) {
      forall sc | sc in ks.scenarios
        ensures exists y :: y in data && y.draw == x.draw && y.scenario == sc && y.seed == x.seed
      {
        assert x.seed in SeedsOf(data, x.draw, sc);
      }
    } else {
      CompleteSound(data, ks, draws[1..], x);
    }
  }

  /** A row of a keyspace draw whose seed is complete for that draw is kept. */
  lemma {:induction false} CompleteKeeps(data: seq<Row>, ks: Keyspace, draws: seq<int>, x: Row)
    requires x in data && x.draw in draws && x.seed in CompleteSeeds(data, x.draw, ks)
    ensures x in Complete(data, ks, draws)
  {
    if draws[0] != x.draw {
      CompleteKeeps(data, ks, draws[1..], x);
    }
  }

  /** A seed missing from any keyspace scenario of its draw removes that draw's rows with the seed. */
  lemma MissingScenarioDrops(data: seq<Row>, ks: Keyspace, x: Row, sc: string)
    requires sc in ks.scenarios
    requires forall y :: y in data && y.draw == x.draw && y.scenario == sc ==> y.seed != x.seed
    ensures x !in Complete(data, ks, ks.draws)
  {
    if x in Complete(data, ks, ks.draws) {
      CompleteSound(data, ks, ks.draws, x);
      assert false;
    }
  }

  // ---------------------------------------------------------------------------------
  // aggregate_over_seed
  // ---------------------------------------------------------------------------------

  /** The group-by key: input draw, scenario and location. */
  datatype GroupKey = GroupKey(draw: int, scenario: string, location: string)

  function KeyOf(r: Row): GroupKey
  {
    GroupKey(r.draw, r.scenario, r.location)
  }

  /**
   * One aggregated row: its key and the sum of every other column, the random-seed
   * column included (no column is excluded from the sum, as the list of non-count
   * templates is empty).
   */
  datatype SeedSum = SeedSum(key: GroupKey, seed: int, values: seq<real>)

  /** The distinct keys of the data, in order of first appearance. */
  function KeysOf(data: seq<Row>): (r: seq<GroupKey>)
    ensures Distinct(r)
    ensures forall k :: k in r <==> exists x :: x in data && KeyOf(x) == k
  {
    if data == [] then []
    else
      var ks := KeysOf(data[..|data| - 1]);
      var last := data[|data| - 1];
      FrontAndLast(data);
      if KeyOf(last) in ks then ks else ks + [KeyOf(last)]
  }

  /** Column `c` of a row, 0 where the row is narrower. */
  function ValueAt(r: Row, c: nat): real
  {
    if c < |r.values| then r.values[c] else 0.0
  }

  /** The sum of column `c` over every row. */
  function Total(data: seq<Row>, c: nat): real
  {
    if data == [] then 0.0 else Total(data[..|data| - 1], c) + ValueAt(data[|data| - 1], c)
  }

  /** The sum of column `c` over the rows of group `k`. */
  function GroupTotal(data: seq<Row>, k: GroupKey, c: nat): real
  {
    if data == [] then 0.0
    else GroupTotal(data[..|data| - 1], k, c) + (if KeyOf(data[|data| - 1]) == k then ValueAt(data[|data| - 1], c) else 0.0)
  }

  /** The sum of the random seeds over the rows of group `k`. */
  function GroupSeedTotal(data: seq<Row>, k: GroupKey): int
  {
    if data == [] then 0
    else GroupSeedTotal(data[..|data| - 1], k) + (if KeyOf(data[|data| - 1]) == k then data[|data| - 1].seed else 0)
  }

  /** One summed row per key, in the order of `keys`. */
  function GroupRows(keys: seq<GroupKey>, data: seq<Row>, width: nat): (r: seq<SeedSum>)
    ensures |r| == |keys| && forall i :: 0 <= i < |r| ==> r[i].key == keys[i] && |r[i].values| == width
  {
    if keys == [] then []
    else
      [SeedSum(keys[0], GroupSeedTotal(data, keys[0]), seq(width, c requires 0 <= c < width => GroupTotal(data, keys[0], c)))]
      + GroupRows(keys[1..], data, width)
  }

  /** The order `groupby` sorts its keys in: draw, then scenario, then location. */
  predicate KeyLe(a: GroupKey, b: GroupKey)
  {
    || a.draw < b.draw
    || (a.draw == b.draw && a.scenario != b.scenario && LexLe(a.scenario, b.scenario))
    || (a.draw == b.draw && a.scenario == b.scenario && LexLe(a.location, b.location))
  }

  predicate SumLe(a: SeedSum, b: SeedSum)
  {
    KeyLe(a.key, b.key)
  }

  lemma SumLeTotalPreorder()
    ensures TotalPreorder(SumLe)
  {
    forall a: SeedSum, b: SeedSum ensures SumLe(a, b) || SumLe(b, a) {
      LexLeTotal(a.key.scenario, b.key.scenario);
      LexLeTotal(a.key.location, b.key.location);
    }
    forall a: SeedSum, b: SeedSum, c: SeedSum | SumLe(a, b) && SumLe(b, c) ensures SumLe(a, c) {
      var x, y, z := a.key, b.key, c.key;
      if x.draw == y.draw == z.draw {
        if x.scenario == y.scenario == z.scenario {
          LexLeTransitive(x.location, y.location, z.location);
        } else if x.scenario != y.scenario && y.scenario != z.scenario {
          LexLeTransitive(x.scenario, y.scenario, z.scenario);
          if x.scenario == z.scenario {
            LexLeAntisymmetric(x.scenario, y.scenario);
          }
        }
      }
    }
  }

  /**
   * `aggregate_over_seed`: one row per (draw, scenario, location) group holding the sum
   * of every other column over the group's rows, ordered by group key.
   */
  function AggregateOverSeed(data: seq<Row>, width: nat): (r: seq<SeedSum>)
    ensures SortedBy(r, SumLe)
    ensures multiset(r) == multiset(GroupRows(KeysOf(data), data, width))
  {
    SumLeTotalPreorder();
    SortBy(GroupRows(KeysOf(data), data, width), SumLe)
  }

  /** The aggregated rows are exactly one per group, each holding its group's sums. */
  lemma AggregateRows(data: seq<Row>, width: nat, s: SeedSum)
    ensures s in AggregateOverSeed(data, width) <==>
      (exists x :: x in data && KeyOf(x) == s.key)
      && s.seed == GroupSeedTotal(data, s.key)
      && |s.values| == width
      && (forall c :: 0 <= c < width ==> s.values[c] == GroupTotal(data, s.key, c))
  {
    var r := AggregateOverSeed(data, width);
    var g := GroupRows(KeysOf(data), data, width);
    assert s in r <==> s in multiset(r);
    assert s in g <==> s in multiset(g);
    GroupRowsMember(KeysOf(data), data, width, s);
  }

  lemma {:induction false} GroupRowsMember(keys: seq<GroupKey>, data: seq<Row>, width: nat, s: SeedSum)
    ensures s in GroupRows(keys, data, width) <==>
      s.key in keys
      && s.seed == GroupSeedTotal(data, s.key)
      && |s.values| == width
      && (forall c :: 0 <= c < width ==> s.values[c] == GroupTotal(data, s.key, c))
  {
    if keys != [] {
      GroupRowsMember(keys[1..], data, width, s);
      var head := SeedSum(keys[0], GroupSeedTotal(data, keys[0]), seq(width, c requires 0 <= c < width => GroupTotal(data, keys[0], c)));
      assert GroupRows(keys, data, width) == [head] + GroupRows(keys[1..], data, width);
      if s.key == keys[0] && s.seed == head.seed && |s.values| == width
        && (forall c :: 0 <= c < width ==> s.values[c] == GroupTotal(data, s.key, c)) {
        assert s.values == head.values;
      }
    }
  }

  /** The sum over the keys of their group totals. */
  function SumOver(keys: seq<GroupKey>, data: seq<Row>, c: nat): real
  {
    if keys == [] then 0.0 else GroupTotal(data, keys[0], c) + SumOver(keys[1..], data, c)
  }

  /** Adding a row adds its value to the sum over distinct keys exactly once, if its key is among them. */
  lemma {:induction false} SumOverSnoc(keys: seq<GroupKey>, data: seq<Row>, x: Row, c: nat)
    requires Distinct(keys)
    ensures SumOver(keys, data + [x], c) == SumOver(keys, data, c) + (if KeyOf(x) in keys then ValueAt(x, c) else 0.0)
  {
    if keys != [] {
      assert (data + [x])[..|data + [x]| - 1] == data;
      SumOverSnoc(keys[1..], data, x, c);
      assert KeyOf(x) == keys[0] ==> KeyOf(x) !in keys[1..];
    }
  }

  /** Summing by group and then over the groups gives the total of the column. */
  lemma {:induction false} SumOverKeys(keys: seq<GroupKey>, data: seq<Row>, c: nat)
    requires Distinct(keys)
    requires forall x :: x in data ==> KeyOf(x) in keys
    ensures SumOver(keys, data, c) == Total(data, c)
  {
    if data == [] {
      SumOverEmpty(keys, c);
    } else {
      var init := data[..|data| - 1];
      FrontAndLast(data);
      SumOverKeys(keys, init, c);
      SumOverSnoc(keys, init, data[|data| - 1], c);
    }
  }

  lemma {:induction false} SumOverEmpty(keys: seq<GroupKey>, c: nat)
    ensures SumOver(keys, [], c) == 0.0
  {
    if keys != [] {
      SumOverEmpty(keys[1..], c);
    }
  }

  /** The sum of column `c` over the summed rows. */
  function ColumnSum(rows: seq<SeedSum>, c: nat): real
  {
    if rows == [] then 0.0 else (if c < |rows[0].values| then rows[0].values[c] else 0.0) + ColumnSum(rows[1..], c)
  }

  lemma {:induction false} GroupRowsSum(keys: seq<GroupKey>, data: seq<Row>, width: nat, c: nat)
    requires c < width
    ensures ColumnSum(GroupRows(keys, data, width), c) == SumOver(keys, data, c)
  {
    if keys != [] {
      GroupRowsSum(keys[1..], data, width, c);
    }
  }

  /** Summing over seeds loses nothing: each column's grand total is unchanged by the grouping. */
  lemma AggregateConservesTotals(data: seq<Row>, width: nat, c: nat)
    requires c < width
    ensures ColumnSum(GroupRows(KeysOf(data), data, width), c) == Total(data, c)
  {
    GroupRowsSum(KeysOf(data), data, width, c);
    SumOverKeys(KeysOf(data), data, c);
  }

  // ---------------------------------------------------------------------------------
  // sort_data
  // ---------------------------------------------------------------------------------

  const OUTPUT_COLUMN_SORT_ORDER: seq<string> := ["age_group", "sex", "year", "risk", "cause", "measure", "input_draw"]

  /** A cell of the long-format table: a number (input draw) or text. */
  datatype Cell = Num(n: int) | Text(s: string)

  predicate CellLe(a: Cell, b: Cell)
  {
    match (a, b)
    case (Num(x), Num(y)) => x <= y
    case (Text(x), Text(y)) => LexLe(x, y)
    case (Num(_), Text(_)) => true
    case (Text(_), Num(_)) => false
  }

  lemma CellLeTotal(a: Cell, b: Cell)
    ensures CellLe(a, b) || CellLe(b, a)
  {
    if a.Text? && b.Text? {
      LexLeTotal(a.s, b.s);
    }
  }

  lemma CellLeTransitive(a: Cell, b: Cell, c: Cell)
    requires CellLe(a, b) && CellLe(b, c)
    ensures CellLe(a, c)
  {
    if a.Text? && b.Text? && c.Text? {
      LexLeTransitive(a.s, b.s, c.s);
    }
  }

  lemma CellLeAntisymmetric(a: Cell, b: Cell)
    requires CellLe(a, b) && CellLe(b, a)
    ensures a == b
  {
    if a.Text? && b.Text? {
      LexLeAntisymmetric(a.s, b.s);
    }
  }

  /** A table row: its cells by column name. */
  type TableRow = map<string, Cell>

  function CellOf(row: TableRow, c: string): Cell
  {
    if c in row then row[c] else Text("")
  }

  /** `sort_values(cols)`: the first column that differs decides. */
  predicate RowLe(cols: seq<string>, a: TableRow, b: TableRow)
    decreases |cols|
  {
    if cols == [] then true
    else if CellOf(a, cols[0]) != CellOf(b, cols[0]) then CellLe(CellOf(a, cols[0]), CellOf(b, cols[0]))
    else RowLe(cols[1..], a, b)
  }

  lemma {:induction false} RowLeTotal(cols: seq<string>, a: TableRow, b: TableRow)
    ensures RowLe(cols, a, b) || RowLe(cols, b, a)
    decreases |cols|
  {
    if cols != [] {
      CellLeTotal(CellOf(a, cols[0]), CellOf(b, cols[0]));
      RowLeTotal(cols[1..], a, b);
    }
  }

  lemma {:induction false} RowLeTransitive(cols: seq<string>, a: TableRow, b: TableRow, c: TableRow)
    requires RowLe(cols, a, b) && RowLe(cols, b, c)
    ensures RowLe(cols, a, c)
    decreases |cols|
  {
    if cols != [] {
      var x, y, z := CellOf(a, cols[0]), CellOf(b, cols[0]), CellOf(c, cols[0]);
      if x == y && y == z {
        RowLeTransitive(cols[1..], a, b, c);
      } else if x == z {
        CellLeAntisymmetric(x, y);
      } else if x != y && y != z {
        CellLeTransitive(x, y, z);
      }
    }
  }

  lemma RowLeTotalPreorder(cols: seq<string>)
    ensures TotalPreorder((a, b) => RowLe(cols, a, b))
  {
    forall a: TableRow, b: TableRow ensures RowLe(cols, a, b) || RowLe(cols, b, a) {
      RowLeTotal(cols, a, b);
    }
    forall a: TableRow, b: TableRow, c: TableRow | RowLe(cols, a, b) && RowLe(cols, b, c) ensures RowLe(cols, a, c) {
      RowLeTransitive(cols, a, b, c);
    }
  }

  /** A long-format table: its column names in order and its rows. */
  datatype Table = Table(columns: seq<string>, rows: seq<TableRow>)

  /** The sort columns the table has, in the fixed sort order. */
  function SortColumns(columns: seq<string>): (r: seq<string>)
    ensures forall c :: c in r <==> c in columns && c in OUTPUT_COLUMN_SORT_ORDER
    ensures Distinct(r)
    ensures InOrderOf(r, OUTPUT_COLUMN_SORT_ORDER)
  {
    KeepIn(OUTPUT_COLUMN_SORT_ORDER, columns)
  }

  /** The values of `order` that the table has, in the order of `order`. */
  function KeepIn(order: seq<string>, columns: seq<string>): (r: seq<string>)
    requires Distinct(order)
    ensures forall c :: c in r <==> c in columns && c in order
    ensures Distinct(r)
    ensures InOrderOf(r, order)
  {
    if order == [] then []
    else
      var rest := KeepIn(order[1..], columns);
      assert order[0] !in rest by {
        assert forall i :: 1 <= i < |order| ==> order[i] != order[0];
      }
      InOrderCons(order[0] in columns, rest, order);
      (if order[0] in columns then [order[0]] else []) + rest
  }

  /** The columns that are neither sort columns nor the value, in table order. */
  function OtherColumns(columns: seq<string>, sortOrder: seq<string>): (r: seq<string>)
    ensures forall c :: c in r <==> c in columns && c !in sortOrder && c != "value"
    ensures Distinct(columns) ==> Distinct(r) && InOrderOf(r, columns)
  {
    if columns == [] then []
    else
      var rest := OtherColumns(columns[1..], sortOrder);
      assert Distinct(columns) ==> Distinct(columns[1..]) && columns[0] !in columns[1..];
      var r := (if columns[0] !in sortOrder && columns[0] != "value" then [columns[0]] else []) + rest;
      assert Distinct(columns) ==> InOrderOf(r, columns) by {
        if Distinct(columns) {
          InOrderCons(columns[0] !in sortOrder && columns[0] != "value", rest, columns);
        }
      }
      r
  }

  /**
   * `sort_data`: the sort columns present, then the other columns, then "value" (a
   * KeyError if there is no value column); rows sorted by the sort columns.
   */
  function SortData(data: Table): (r: Result<Table>)
    ensures r.Err? <==> "value" !in data.columns
    ensures r.Err? ==> r.error == KeyError("value")
    ensures r.Ok? ==> (forall c :: c in r.value.columns <==> c in data.columns)
    ensures r.Ok? ==> r.value.columns == SortColumns(data.columns) + OtherColumns(data.columns, SortColumns(data.columns)) + ["value"]
    ensures r.Ok? ==> r.value.columns[|r.value.columns| - 1] == "value"
    ensures r.Ok? && Distinct(data.columns) ==> Distinct(r.value.columns)
    ensures r.Ok? ==> SortedBy(r.value.rows, (a, b) => RowLe(SortColumns(data.columns), a, b))
    ensures r.Ok? ==> multiset(r.value.rows) == multiset(data.rows)
  {
    if "value" !in data.columns then Err(KeyError("value"))
    else
      var sortOrder := SortColumns(data.columns);
      var others := OtherColumns(data.columns, sortOrder);
      RowLeTotalPreorder(sortOrder);
      var columns := sortOrder + others + ["value"];
      assert Distinct(data.columns) ==> Distinct(columns) by {
        if Distinct(data.columns) {
          ValueNotSortColumn();
          PartsDistinct(sortOrder, others, "value");
        }
      }
      Ok(Table(columns, SortBy(data.rows, (a, b) => RowLe(sortOrder, a, b))))
  }

  lemma ValueNotSortColumn()
    ensures "value" !in OUTPUT_COLUMN_SORT_ORDER
  {
  }

  /** Two disjoint distinct runs followed by a name in neither are distinct together. */
  lemma PartsDistinct(a: seq<string>, b: seq<string>, v: string)
    requires Distinct(a) && Distinct(b) && v !in a && v !in b
    requires forall c :: c in a ==> c !in b
    ensures Distinct(a + b + [v])
  {
    var s := a + b + [v];
    forall i, j | 0 <= i < j < |s|
      ensures s[i] != s[j]
    {
      if j < |a| {
        assert s[i] == a[i] && s[j] == a[j];
      } else if i < |a| && j < |a| + |b| {
        assert s[i] == a[i] && s[j] == b[j - |a|] && a[i] in a;
      } else if i < |a| {
        assert s[i] == a[i] && s[j] == v && a[i] in a;
      } else if j < |a| + |b| {
        assert s[i] == b[i - |a|] && s[j] == b[j - |a|];
      } else {
        assert s[i] == b[i - |a|] && s[j] == v && b[i - |a|] in b;
      }
    }
  }

  // ---------------------------------------------------------------------------------
  // get_transition_count_measure_data
  // ---------------------------------------------------------------------------------

  /** An event-count column of the year 2041. */
  predicate Is2041EventCount(c: string)
  {
    Contains(c, "event_count") && Contains(c, "2041")
  }

  /** The columns kept before transition counts are reshaped: every one except the 2041 event counts. */
  function DropLastYearEventCounts(columns: seq<string>): (r: seq<string>)
    ensures forall c :: c in r <==> c in columns && !Is2041EventCount(c)
    ensures |r| <= |columns|
  {
    if columns == [] then []
    else (if Is2041EventCount(columns[0]) then [] else [columns[0]]) + DropLastYearEventCounts(columns[1..])
  }

  /** Dropping keeps the relative order of the kept columns: it is a subsequence. */
  lemma DropKeepsOrder(columns: seq<string>, i: nat, j: nat)
    requires i < j < |DropLastYearEventCounts(columns)|
    ensures exists a, b :: 0 <= a < b < |columns| && columns[a] == DropLastYearEventCounts(columns)[i] && columns[b] == DropLastYearEventCounts(columns)[j]
  {
    var a, b := DropPositions(columns, i, j);
  }

  /** Where the `i`-th kept column came from. */
  lemma {:induction false} DropPosition(columns: seq<string>, i: nat) returns (a: nat)
    requires i < |DropLastYearEventCounts(columns)|
    ensures a < |columns| && columns[a] == DropLastYearEventCounts(columns)[i]
  {
    var rest := DropLastYearEventCounts(columns[1..]);
    if Is2041EventCount(columns[0]) {
      a := DropPosition(columns[1..], i);
      a := a + 1;
    } else if i == 0 {
      a := 0;
    } else {
      assert DropLastYearEventCounts(columns)[i] == rest[i - 1];
      a := DropPosition(columns[1..], i - 1);
      a := a + 1;
    }
  }

  /** Where the `i`-th and `j`-th kept columns came from, in the same order. */
  lemma {:induction false} DropPositions(columns: seq<string>, i: nat, j: nat) returns (a: nat, b: nat)
    requires i < j < |DropLastYearEventCounts(columns)|
    ensures a < b < |columns|
    ensures columns[a] == DropLastYearEventCounts(columns)[i] && columns[b] == DropLastYearEventCounts(columns)[j]
  {
    var r := DropLastYearEventCounts(columns);
    var rest := DropLastYearEventCounts(columns[1..]);
    if Is2041EventCount(columns[0]) {
      a, b := DropPositions(columns[1..], i, j);
      a, b := a + 1, b + 1;
    } else if i == 0 {
      assert r[j] == rest[j - 1];
      b := DropPosition(columns[1..], j - 1);
      a, b := 0, b + 1;
    } else {
      assert r[i] == rest[i - 1] && r[j] == rest[j - 1];
      a, b := DropPositions(columns[1..], i - 1, j - 1);
      a, b := a + 1, b + 1;
    }
  }
}
