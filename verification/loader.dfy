/**
 * The pure helpers of data/loader.py: the lookup-key source, the minimum floor on loaded
 * data, the categorical PAF, the relative-risk fan-out onto the model's causes and
 * transitions, the age and sex encoded in PAF output column names, and the PAF entity check.
 */
module Loader {
  import opened Wrappers
  import opened Strings
  import Paf

  // ---------------------------------------------------------------------------------
  // _get_source_key
  // ---------------------------------------------------------------------------------

  /** A lookup key: a plain artifact key, or a source/target pair for non-standard outputs. */
  datatype LookupKey = Plain(key: string) | SourceTarget(source: string, target: string)

  /** The key the data is read under: the source of a source/target pair, the key itself otherwise. */
  function GetSourceKey(k: LookupKey): (r: string)
    ensures k.SourceTarget? ==> r == k.source
    ensures k.Plain? ==> r == k.key
  {
    match k
    case Plain(key) => key
    case SourceTarget(source, _) => source
  }

  // ---------------------------------------------------------------------------------
  // load_standard_data_enforce_minimum
  // ---------------------------------------------------------------------------------

  function Floor(minValue: real, x: real): real
  {
    if x < minValue then minValue else x
  }

  /** The data with every value below the minimum lifted to it. */
  function FloorAll(minValue: real, s: seq<real>): (r: seq<real>)
    ensures |r| == |s| && forall i :: 0 <= i < |s| ==> r[i] == Floor(minValue, s[i])
  {
    seq(|s|, i requires 0 <= i < |s| => Floor(minValue, s[i]))
  }

  /** `data[data < min_value] = min_value`, in place. */
  method EnforceMinimum(minValue: real, data: array<real>)
    modifies data
    ensures data[..] == FloorAll(minValue, old(data[..]))
  {
    var i := 0;
    while i < data.Length
      invariant 0 <= i <= data.Length
      invariant data[..i] == FloorAll(minValue, old(data[..]))[..i]
      invariant data[i..] == old(data[i..])
    {
      if data[i] < minValue {
        data[i] := minValue;
      }
      i := i + 1;
    }
  }

  /** Every floored value is at least the minimum; values already there are unchanged; flooring twice is flooring once. */
  lemma FloorAllProperties(minValue: real, s: seq<real>)
    ensures forall i :: 0 <= i < |s| ==> FloorAll(minValue, s)[i] >= minValue
    ensures forall i :: 0 <= i < |s| && s[i] >= minValue ==> FloorAll(minValue, s)[i] == s[i]
    ensures FloorAll(minValue, FloorAll(minValue, s)) == FloorAll(minValue, s)
  {
  }

  // ---------------------------------------------------------------------------------
  // load_categorical_paf
  // ---------------------------------------------------------------------------------

  /** The categories of one demographic group: each category's exposure and relative risk. */
  type Categories = seq<(real, real)>

  function SumExpRr(cats: Categories): real
  {
    if cats == [] then 0.0 else SumExpRr(cats[..|cats| - 1]) + cats[|cats| - 1].0 * cats[|cats| - 1].1
  }

  function SumExp(cats: Categories): real
  {
    if cats == [] then 0.0 else SumExp(cats[..|cats| - 1]) + cats[|cats| - 1].0
  }

  /**
   * `load_categorical_paf`: a key other than the PAF key the loader knows is a ValueError;
   * a distribution neither dichotomous nor polytomous is a NotImplementedError; otherwise
   * each group's PAF is `(sum(exp * rr) - 1) / sum(exp * rr)`.
   */
  function LoadCategoricalPaf(key: string, pafKey: string, distribution: string, groups: seq<Categories>): (r: Result<seq<Option<real>>>)
    ensures key != pafKey <==> r.Err? && r.error.ValueError?
    ensures r.Err? && r.error.NotImplementedError? <==>
      key == pafKey && distribution != "dichotomous" && !Contains(distribution, "polytomous")
    ensures r.Ok? ==> (|r.value| == |groups|
      && forall i :: 0 <= i < |groups| ==> r.value[i] == Paf.PafOf(SumExpRr(groups[i])))
  {
    if key != pafKey then Err(ValueError("Unrecognized key " + key))
    else if distribution != "dichotomous" && !Contains(distribution, "polytomous") then
      Err(NotImplementedError("Unrecognized distribution " + distribution))
    else Ok(seq(|groups|, i requires 0 <= i < |groups| => Paf.PafOf(SumExpRr(groups[i]))))
  }

  lemma {:induction false} SumExpRrAtLeast(cats: Categories)
    requires forall i :: 0 <= i < |cats| ==> cats[i].0 >= 0.0 && cats[i].1 >= 1.0
    ensures SumExpRr(cats) >= SumExp(cats)
  {
    if cats != [] {
      SumExpRrAtLeast(cats[..|cats| - 1]);
      var c := cats[|cats| - 1];
      assert c.0 * c.1 >= c.0 * 1.0;
    }
  }

  lemma {:induction false} SumExpRrOfOnes(cats: Categories)
    requires forall i :: 0 <= i < |cats| ==> cats[i].1 == 1.0
    ensures SumExpRr(cats) == SumExp(cats)
  {
    if cats != [] {
      SumExpRrOfOnes(cats[..|cats| - 1]);
    }
  }

  /**
   * With exposures forming a distribution (non-negative, summing to 1) and no protective
   * category (every relative risk at least 1), the PAF lies in [0, 1); with every relative
   * risk 1 it is 0.
   */
  lemma CategoricalPafBounds(cats: Categories)
    requires forall i :: 0 <= i < |cats| ==> cats[i].0 >= 0.0 && cats[i].1 >= 1.0
    requires SumExp(cats) == 1.0
    ensures Paf.PafOf(SumExpRr(cats)).Some?
    ensures 0.0 <= Paf.PafOf(SumExpRr(cats)).value < 1.0
    ensures (forall i :: 0 <= i < |cats| ==> cats[i].1 == 1.0) ==> Paf.PafOf(SumExpRr(cats)).value == 0.0
  {
    SumExpRrAtLeast(cats);
    Paf.PafBounds(SumExpRr(cats));
    if forall i :: 0 <= i < |cats| ==> cats[i].1 == 1.0 {
      SumExpRrOfOnes(cats);
    }
  }

  // ---------------------------------------------------------------------------------
  // modify_rr_affected_entity / match_rr_to_cause_name
  // ---------------------------------------------------------------------------------

  /** A relative-risk row: the affected entity and measure, and the rest of its cells. */
  datatype RrRow = RrRow(affectedEntity: string, affectedMeasure: string, cells: seq<real>)

  /** A fan-out map in dictionary order: each entity with the model names it becomes. */
  type ModMap = seq<(string, seq<string>)>

  /** `"_to_" in name`: a transition between two states. */
  predicate IsTransitionRate(name: string)
  {
    Contains(name, "_to_")
  }

  /** The copy of a row for one model name. */
  function Relabel(row: RrRow, name: string): (r: RrRow)
    ensures r.affectedEntity == name && r.cells == row.cells
    ensures r.affectedMeasure == (if IsTransitionRate(name) then "transition_rate" else row.affectedMeasure)
  {
    RrRow(name, if IsTransitionRate(name) then "transition_rate" else row.affectedMeasure, row.cells)
  }

  /** The rows of the data with this affected entity, in data order. */
  function RowsFor(data: seq<RrRow>, entity: string): (r: seq<RrRow>)
    ensures forall x :: x in r <==> x in data && x.affectedEntity == entity
  {
    if data == [] then []
    else
      var last := data[|data| - 1];
      FrontAndLast(data);
      RowsFor(data[..|data| - 1], entity) + (if last.affectedEntity == entity then [last] else [])
  }

  /** Every row relabelled to one name. */
  function RelabelAll(rows: seq<RrRow>, name: string): (r: seq<RrRow>)
    ensures |r| == |rows| && forall i :: 0 <= i < |rows| ==> r[i] == Relabel(rows[i], name)
  {
    seq(|rows|, i requires 0 <= i < |rows| => Relabel(rows[i], name))
  }

  /** For one entity, a relabelled copy of its rows per name, names in map order. */
  function CopiesFor(rows: seq<RrRow>, names: seq<string>): seq<RrRow>
  {
    if names == [] then [] else CopiesFor(rows, names[..|names| - 1]) + RelabelAll(rows, names[|names| - 1])
  }

  /** The fan-out of the whole map, entities in map order. */
  function FanOut(data: seq<RrRow>, modMap: ModMap): seq<RrRow>
  {
    if modMap == [] then []
    else
      var last := modMap[|modMap| - 1];
      FanOut(data, modMap[..|modMap| - 1]) + CopiesFor(RowsFor(data, last.0), last.1)
  }

  /**
   * `modify_rr_affected_entity`: for each entity of the map and each of its names, a copy
   * of the entity's rows with the name as affected entity, and "transition_rate" as the
   * measure when the name is a transition. A map without any name leaves no copy to
   * concatenate, which pandas refuses with a ValueError.
   */
  method ModifyRrAffectedEntity(data: seq<RrRow>, modMap: ModMap) returns (r: Result<seq<RrRow>>)
    ensures r.Err? <==> forall k :: 0 <= k < |modMap| ==> modMap[k].1 == []
    ensures r.Err? ==> r.error == ValueError("No objects to concatenate")
    ensures r.Ok? ==> r.value == FanOut(data, modMap)
  {
    var newData := [];
    var copied := false;
    var k := 0;
    while k < |modMap|
      invariant 0 <= k <= |modMap|
      invariant newData == FanOut(data, modMap[..k])
      invariant copied <==> exists j :: 0 <= j < k && modMap[j].1 != []
    {
      var dfNew := EntityCopies(RowsFor(data, modMap[k].0), modMap[k].1);
      newData := newData + dfNew;
      copied := copied || modMap[k].1 != [];
      PrefixOfPrefix(modMap, k, k + 1);
      k := k + 1;
    }
    assert modMap[..k] == modMap;
    if !copied {
      return Err(ValueError("No objects to concatenate"));
    }
    return Ok(newData);
  }

  /** The copies of one entity's rows, one relabelled block per name. */
  method EntityCopies(tmp: seq<RrRow>, names: seq<string>) returns (copies: seq<RrRow>)
    ensures copies == CopiesFor(tmp, names)
  {
    copies := [];
    var n := 0;
    while n < |names|
      invariant 0 <= n <= |names|
      invariant copies == CopiesFor(tmp, names[..n])
    {
      var dfNew := RelabelAll(tmp, names[n]);
      PrefixOfPrefix(names, n, n + 1);
      copies := copies + dfNew;
      n := n + 1;
    }
    assert names[..n] == names;
  }

  /** `x` is a row of the entry's entity relabelled with one of the entry's names. */
  predicate FromEntry(entry: (string, seq<string>), data: seq<RrRow>, x: RrRow)
  {
    exists row, name :: row in data && row.affectedEntity == entry.0 && name in entry.1 && x == Relabel(row, name)
  }

  /** `x` comes from some entry of the map. */
  predicate FromMap(modMap: ModMap, data: seq<RrRow>, x: RrRow)
  {
    exists k :: 0 <= k < |modMap| && FromEntry(modMap[k], data, x)
  }

  /** A copy is a row of the entity relabelled with one of the names. */
  lemma {:induction false} CopiesForMember(rows: seq<RrRow>, names: seq<string>, x: RrRow)
    ensures x in CopiesFor(rows, names) <==> exists row, name :: row in rows && name in names && x == Relabel(row, name)
  {
    if names != [] {
      var init := names[..|names| - 1];
      var last := names[|names| - 1];
      CopiesForMember(rows, init, x);
      assert forall name :: name in names <==> name in init || name == last;
      if x in RelabelAll(rows, last) {
        var i :| 0 <= i < |rows| && RelabelAll(rows, last)[i] == x;
        assert rows[i] in rows;
      }
      if exists row :: row in rows && x == Relabel(row, last) {
        var row :| row in rows && x == Relabel(row, last);
        var i :| 0 <= i < |rows| && rows[i] == row;
        assert RelabelAll(rows, last)[i] == x;
      }
    }
  }

  lemma EntryMember(data: seq<RrRow>, entry: (string, seq<string>), x: RrRow)
    ensures x in CopiesFor(RowsFor(data, entry.0), entry.1) <==> FromEntry(entry, data, x)
  {
    CopiesForMember(RowsFor(data, entry.0), entry.1, x);
  }

  lemma FromMapSnoc(modMap: ModMap, data: seq<RrRow>, x: RrRow)
    requires modMap != []
    ensures FromMap(modMap, data, x) <==>
      FromMap(modMap[..|modMap| - 1], data, x) || FromEntry(modMap[|modMap| - 1], data, x)
  {
    var init := modMap[..|modMap| - 1];
    if FromMap(modMap, data, x) {
      var k :| 0 <= k < |modMap| && FromEntry(modMap[k], data, x);
      if k < |init| {
        assert init[k] == modMap[k];
      }
    }
    if FromMap(init, data, x) {
      var k :| 0 <= k < |init| && FromEntry(init[k], data, x);
      assert modMap[k] == init[k];
    }
  }

  /**
   * Every output row is a row of a mapped entity relabelled with one of that entity's
   * names, and every such relabelling is output: rows of unmapped entities are dropped.
   */
  lemma {:induction false} FanOutMember(data: seq<RrRow>, modMap: ModMap, x: RrRow)
    ensures x in FanOut(data, modMap) <==> FromMap(modMap, data, x)
  {
    if modMap != [] {
      var init := modMap[..|modMap| - 1];
      var last := modMap[|modMap| - 1];
      assert FanOut(data, modMap) == FanOut(data, init) + CopiesFor(RowsFor(data, last.0), last.1);
      FanOutMember(data, init, x);
      EntryMember(data, last, x);
      FromMapSnoc(modMap, data, x);
    }
  }

  /** The measures `match_rr_to_cause_name` rewrites. */
  const RR_MEASURES: seq<string> := ["relative_risk", "population_attributable_fraction", "mediation_factors"]

  /** The fan-out for PAFs this repository calculates: each model entity to itself, heart failure to its two kinds. */
  const CALCULATED_PAF_MAP: ModMap := [
    ("acute_myocardial_infarction", ["acute_myocardial_infarction"]),
    ("post_myocardial_infarction_to_acute_myocardial_infarction", ["post_myocardial_infarction_to_acute_myocardial_infarction"]),
    ("acute_ischemic_stroke", ["acute_ischemic_stroke"]),
    ("chronic_ischemic_stroke_to_acute_ischemic_stroke", ["chronic_ischemic_stroke_to_acute_ischemic_stroke"]),
    ("heart_failure", ["heart_failure_from_ischemic_heart_disease", "heart_failure_residual"])
  ]

  /** The fan-out for GBD data: each cause to the incidence and the recurrence transition it drives. */
  const GBD_CAUSE_MAP: ModMap := [
    ("ischemic_heart_disease", ["acute_myocardial_infarction", "post_myocardial_infarction_to_acute_myocardial_infarction"]),
    ("ischemic_stroke", ["acute_ischemic_stroke", "chronic_ischemic_stroke_to_acute_ischemic_stroke"]),
    ("heart_failure", ["heart_failure_from_ischemic_heart_disease", "heart_failure_residual"])
  ]

  /**
   * `match_rr_to_cause_name`: relative-risk, PAF and mediation data are fanned out with
   * the calculated-PAF map (for the keys of the PAFs this repository calculates) or the
   * GBD cause map; any other data is returned unchanged.
   */
  method MatchRrToCauseName(data: seq<RrRow>, measure: string, isCalculatedPaf: bool) returns (r: seq<RrRow>)
    ensures measure !in RR_MEASURES ==> r == data
    ensures measure in RR_MEASURES ==> r == FanOut(data, if isCalculatedPaf then CALCULATED_PAF_MAP else GBD_CAUSE_MAP)
  {
    var map_ := if isCalculatedPaf then CALCULATED_PAF_MAP else GBD_CAUSE_MAP;
    r := data;
    if measure in RR_MEASURES {
      assert map_[0].1 != [];
      var modified := ModifyRrAffectedEntity(data, map_);
      r := modified.value;
    }
  }

  /** The acute stroke names a state, the chronic-to-acute entity a transition. */
  lemma StrokeEntityKinds()
    ensures !IsTransitionRate("acute_ischemic_stroke")
    ensures IsTransitionRate("chronic_ischemic_stroke_to_acute_ischemic_stroke")
  {
    var acute, chronic := "acute_ischemic_stroke", "chronic_ischemic_stroke_to_acute_ischemic_stroke";
    assert !IsTransitionRate(acute) by {
      assert acute == "acute_ischemic_s" + "troke";
      NoMatchAcross("acute_ischemic_s", "troke", "_to_", 2, 3);
    }
    assert IsTransitionRate(chronic) by {
      assert chronic == "chronic_ischemic_stroke" + "_to_" + acute;
      assert chronic[23..27] == "_to_";
      assert MatchAt(chronic, "_to_", 23);
    }
  }

  /**
   * A GBD ischemic-stroke relative risk becomes an acute-stroke incidence row with its
   * measure kept and a chronic-to-acute transition-rate row.
   */
  lemma StrokeRrFanOut(cells: seq<real>)
    ensures FanOut([RrRow("ischemic_stroke", "incidence_rate", cells)], GBD_CAUSE_MAP) ==
      [RrRow("acute_ischemic_stroke", "incidence_rate", cells),
       RrRow("chronic_ischemic_stroke_to_acute_ischemic_stroke", "transition_rate", cells)]
  {
    var row := RrRow("ischemic_stroke", "incidence_rate", cells);
    var data := [row];
    var acute, chronic := "acute_ischemic_stroke", "chronic_ischemic_stroke_to_acute_ischemic_stroke";
    StrokeEntityKinds();
    var e0, e1, e2 := GBD_CAUSE_MAP[0], GBD_CAUSE_MAP[1], GBD_CAUSE_MAP[2];
    assert RowsFor(data, e0.0) == [];
    assert RowsFor(data, e1.0) == data;
    assert RowsFor(data, e2.0) == [];
    CopiesForNone(e0.1);
    CopiesForNone(e2.1);
    assert e1.1 == [acute, chronic];
    CopiesForPair(data, acute, chronic);
    assert FanOut(data, GBD_CAUSE_MAP[..1]) == [] by {
      assert GBD_CAUSE_MAP[..1][..0] == [];
    }
    assert FanOut(data, GBD_CAUSE_MAP[..2]) == [Relabel(row, acute), Relabel(row, chronic)] by {
      assert GBD_CAUSE_MAP[..2][..1] == GBD_CAUSE_MAP[..1];
    }
    assert GBD_CAUSE_MAP[..3][..2] == GBD_CAUSE_MAP[..2];
    assert GBD_CAUSE_MAP[..3] == GBD_CAUSE_MAP;
  }

  /** An entity without rows has no copies. */
  lemma {:induction false} CopiesForNone(names: seq<string>)
    ensures CopiesFor([], names) == []
  {
    if names != [] {
      CopiesForNone(names[..|names| - 1]);
    }
  }

  /** Two names give the relabelled rows under the first name, then under the second. */
  lemma CopiesForPair(rows: seq<RrRow>, n1: string, n2: string)
    ensures CopiesFor(rows, [n1, n2]) == RelabelAll(rows, n1) + RelabelAll(rows, n2)
  {
    assert [n1, n2][..1] == [n1];
    assert [n1][..0] == [];
    assert CopiesFor(rows, []) == [];
    assert CopiesFor(rows, [n1]) == RelabelAll(rows, n1);
  }

  // ---------------------------------------------------------------------------------
  // get_age_and_sex_from_paf_output_cols
  // ---------------------------------------------------------------------------------

  /** `s.split(sep)[k]`, an IndexError when there are too few pieces. */
  function SplitPart(s: string, sep: string, k: nat): (r: Result<string>)
    requires |sep| > 0
    ensures r.Ok? <==> k < |Split(s, sep)|
    ensures r.Ok? ==> r.value == Split(s, sep)[k]
    ensures r.Err? ==> r.error.IndexError?
  {
    var parts := Split(s, sep);
    if k < |parts| then Ok(parts[k]) else Err(IndexError("list index out of range"))
  }

  /**
   * `get_age_and_sex_from_paf_output_cols`: the text after "AGE_GROUP_" up to "_SEX" is
   * the age group `a_to_b` (or `95_plus`), the text after "_SEX_" is the sex; the result
   * is "a,b+1,sex", or "95,125,sex" for the open-ended group.
   */
  function GetAgeAndSexFromPafOutputCols(measure: string): (r: Result<string>)
    ensures r.Err? ==> r.error.IndexError? || r.error.ValueError?
    ensures !Contains(measure, "AGE_GROUP_") ==> r.Err? && r.error.IndexError?
  {
    match SplitPart(measure, "AGE_GROUP_", 1)
    case Err(e) => Err(e)
    case Ok(ageGroup) =>
      match AgeRange(Split(ageGroup, "_SEX")[0])
      case Err(e) => Err(e)
      case Ok(range) =>
        match SplitPart(measure, "_SEX_", 1)
        case Err(e) => Err(e)
        case Ok(sex) => Ok(range + "," + sex)
  }

  /** "start,end" of an age group: its first field, and one past its last field ("125" after "95"). */
  function AgeRange(age: string): (r: Result<string>)
    ensures r.Err? ==> r.error.ValueError?
    ensures Split(age, "_")[0] == "95" ==> r == Ok("95,125")
  {
    var ageParts := Split(age, "_");
    var ageStart := ageParts[0];
    if ageStart == "95" then
      assert ageStart + "," + "125" == "95,125";
      Ok(ageStart + "," + "125")
    else match ParseInt(ageParts[|ageParts| - 1])
      case Ok(n) => Ok(ageStart + "," + NatToString(n + 1))
      case Err(e) => Err(e)
  }

  /** The PAF output column of an age group `a_to_b` and a sex. */
  function PafColumn(prefix: string, a: nat, b: nat, sex: string): string
  {
    prefix + "AGE_GROUP_" + NatToString(a) + "_to_" + NatToString(b) + "_SEX_" + sex
  }

  /** The PAF output column of the open-ended age group `95_plus` and a sex. */
  function OldestPafColumn(prefix: string, sex: string): string
  {
    prefix + "AGE_GROUP_" + "95_plus" + "_SEX_" + sex
  }

  lemma DigitsLack(n: nat, c: char)
    requires !('0' <= c <= '9')
    ensures Lacks(NatToString(n), c)
  {
  }

  /** The text after "AGE_GROUP_", when the prefix has no 'A' and the rest neither. */
  lemma AgeGroupPart(prefix: string, rest: string)
    requires Lacks(prefix, 'A') && Lacks(rest, 'A')
    ensures SplitPart(prefix + "AGE_GROUP_" + rest, "AGE_GROUP_", 1) == Ok(rest)
  {
    var sep := "AGE_GROUP_";
    assert sep[0] == 'A' && sep[..0] == [];
    SplitAfter(prefix, sep, rest, 0);
    SplitWithout(rest, sep, 'A');
    assert Split(prefix + sep + rest, sep) == [prefix, rest];
  }

  /** The text before "_SEX", when the age group has no 'S'. */
  lemma AgeBeforeSex(age: string, sex: string)
    requires Lacks(age, 'S')
    ensures Split(age + "_SEX_" + sex, "_SEX")[0] == age
  {
    assert "_SEX"[..1] == "_";
    SplitAfter(age, "_SEX", "_" + sex, 1);
    assert age + "_SEX_" + sex == age + "_SEX" + ("_" + sex);
  }

  /** The text after "_SEX_", when nothing before it and nothing after it has an 'S'. */
  lemma SexPart(before: string, sex: string)
    requires Lacks(before, 'S') && Lacks(sex, 'S')
    ensures SplitPart(before + "_SEX_" + sex, "_SEX_", 1) == Ok(sex)
  {
    assert "_SEX_"[..1] == "_";
    SplitAfter(before, "_SEX_", sex, 1);
    SplitWithout(sex, "_SEX_", 'S');
  }

  /** `a_to_b` splits on underscores into `a`, "to" and `b`. */
  lemma AgeGroupPieces(a: nat, b: nat)
    ensures Split(NatToString(a) + "_to_" + NatToString(b), "_") == [NatToString(a), "to", NatToString(b)]
  {
    var sa, sb := NatToString(a), NatToString(b);
    DigitsLack(a, '_');
    DigitsLack(b, '_');
    assert Lacks("to", '_');
    ToJoined(sa, sb);
    UnderscoreTriple(sa, "to", sb);
  }

  /** The "_to_" of an age group is "to" between two underscores. */
  lemma ToJoined(x: string, y: string)
    ensures x + "_to_" + y == x + "_" + "to" + "_" + y
  {
    assert "_to_" == "_" + "to" + "_";
  }

  /** `x_y` splits on underscores into `x` and `y` when neither has one. */
  lemma UnderscorePair(x: string, y: string)
    requires Lacks(x, '_') && Lacks(y, '_')
    ensures Split(x + "_" + y, "_") == [x, y]
  {
    assert "_"[0] == '_' && "_"[..0] == [];
    SplitAfter(x, "_", y, 0);
    SplitWithout(y, "_", '_');
  }

  /** `x_y_z` splits on underscores into `x`, `y` and `z` when none has one. */
  lemma UnderscoreTriple(x: string, y: string, z: string)
    requires Lacks(x, '_') && Lacks(y, '_') && Lacks(z, '_')
    ensures Split(x + "_" + y + "_" + z, "_") == [x, y, z]
  {
    UnderscorePair(y, z);
    assert "_"[0] == '_' && "_"[..0] == [];
    assert x + "_" + y + "_" + z == x + "_" + (y + "_" + z);
    SplitAfter(x, "_", y + "_" + z, 0);
  }

  lemma AgeRangeOf(a: nat, b: nat)
    requires NatToString(a) != "95"
    ensures AgeRange(NatToString(a) + "_to_" + NatToString(b)) == Ok(NatToString(a) + "," + NatToString(b + 1))
  {
    AgeGroupPieces(a, b);
    ParseNatToString(b);
  }

  lemma AgeRangeOldest()
    ensures AgeRange("95_plus") == Ok("95,125")
  {
    UnderscoreHead("95", "plus");
    assert "95" + "_" + "plus" == "95_plus";
    assert "95" + "," + "125" == "95,125";
  }

  /** The first piece of `x_y`, split on underscores, is `x` when `x` has none. */
  lemma UnderscoreHead(x: string, y: string)
    requires Lacks(x, '_')
    ensures Split(x + "_" + y, "_")[0] == x
  {
    assert "_"[..0] == [];
    SplitAfter(x, "_", y, 0);
  }

  /** The three readings compose into the function's result. */
  lemma AgeAndSexSteps(measure: string, ageGroup: string, age: string, range: string, sex: string)
    requires SplitPart(measure, "AGE_GROUP_", 1) == Ok(ageGroup)
    requires Split(ageGroup, "_SEX")[0] == age
    requires AgeRange(age) == Ok(range)
    requires SplitPart(measure, "_SEX_", 1) == Ok(sex)
    ensures GetAgeAndSexFromPafOutputCols(measure) == Ok(range + "," + sex)
  {
  }

  /**
   * For a column whose prefix and sex have no upper-case A or S (the generated columns are
   * lower case apart from the markers), the age group `a_to_b` and the sex are read back
   * as "a,b+1,sex".
   */
  lemma AgeAndSexOfColumn(prefix: string, a: nat, b: nat, sex: string)
    requires Lacks(prefix, 'A') && Lacks(prefix, 'S') && Lacks(sex, 'A') && Lacks(sex, 'S')
    requires NatToString(a) != "95"
    ensures GetAgeAndSexFromPafOutputCols(PafColumn(prefix, a, b, sex)) ==
      Ok(NatToString(a) + "," + NatToString(b + 1) + "," + sex)
  {
    var sa, sb := NatToString(a), NatToString(b);
    var age := sa + "_to_" + sb;
    AgeGroupLacks(a, b);
    MarkersLack(prefix, age, sex);
    var afterAge := age + "_SEX_" + sex;
    var before := prefix + "AGE_GROUP_" + age;
    var s := PafColumn(prefix, a, b, sex);
    ColumnPieces(prefix, a, b, sex);
    AgeGroupPart(prefix, afterAge);
    AgeBeforeSex(age, sex);
    AgeRangeOf(a, b);
    SexPart(before, sex);
    AgeAndSexSteps(s, afterAge, age, sa + "," + NatToString(b + 1), sex);
  }

  /** An age group `a_to_b` has neither an upper-case A nor an S. */
  lemma AgeGroupLacks(a: nat, b: nat)
    ensures var age := NatToString(a) + "_to_" + NatToString(b);
      Lacks(age, 'A') && Lacks(age, 'S')
  {
    DigitsLack(a, 'A'); DigitsLack(a, 'S');
    DigitsLack(b, 'A'); DigitsLack(b, 'S');
    assert Lacks("_to_", 'A') && Lacks("_to_", 'S');
    LacksConcat(NatToString(a), "_to_", 'A');
    LacksConcat(NatToString(a) + "_to_", NatToString(b), 'A');
    LacksConcat(NatToString(a), "_to_", 'S');
    LacksConcat(NatToString(a) + "_to_", NatToString(b), 'S');
  }

  /** Around the markers, the pieces of a column keep lacking the markers' first letters. */
  lemma MarkersLack(prefix: string, age: string, sex: string)
    requires Lacks(prefix, 'S') && Lacks(age, 'A') && Lacks(age, 'S') && Lacks(sex, 'A')
    ensures Lacks(age + "_SEX_" + sex, 'A') && Lacks(prefix + "AGE_GROUP_" + age, 'S')
  {
    assert Lacks("_SEX_", 'A') && Lacks("AGE_GROUP_", 'S');
    LacksConcat(age, "_SEX_", 'A');
    LacksConcat(age + "_SEX_", sex, 'A');
    LacksConcat(prefix, "AGE_GROUP_", 'S');
    LacksConcat(prefix + "AGE_GROUP_", age, 'S');
  }

  /** A PAF column read around its age group or around its sex marker. */
  lemma ColumnPieces(prefix: string, a: nat, b: nat, sex: string)
    ensures var age := NatToString(a) + "_to_" + NatToString(b);
      PafColumn(prefix, a, b, sex) == prefix + "AGE_GROUP_" + (age + "_SEX_" + sex) &&
      PafColumn(prefix, a, b, sex) == prefix + "AGE_GROUP_" + age + "_SEX_" + sex
  {
  }

  /** The open-ended column read the same two ways. */
  lemma OldestColumnPieces(prefix: string, sex: string)
    ensures OldestPafColumn(prefix, sex) == prefix + "AGE_GROUP_" + ("95_plus" + "_SEX_" + sex) &&
      OldestPafColumn(prefix, sex) == prefix + "AGE_GROUP_" + "95_plus" + "_SEX_" + sex
  {
  }

  /** The open-ended age group ends at 125. */
  lemma AgeAndSexOfOldestColumn(prefix: string, sex: string)
    requires Lacks(prefix, 'A') && Lacks(prefix, 'S') && Lacks(sex, 'A') && Lacks(sex, 'S')
    ensures GetAgeAndSexFromPafOutputCols(OldestPafColumn(prefix, sex)) == Ok("95,125," + sex)
  {
    var age := "95_plus";
    assert Lacks(age, 'A') && Lacks(age, 'S');
    MarkersLack(prefix, age, sex);
    var afterAge := age + "_SEX_" + sex;
    var before := prefix + "AGE_GROUP_" + age;
    var s := OldestPafColumn(prefix, sex);
    OldestColumnPieces(prefix, sex);
    AgeGroupPart(prefix, afterAge);
    AgeBeforeSex(age, sex);
    AgeRangeOldest();
    SexPart(before, sex);
    AgeAndSexSteps(s, afterAge, age, "95,125", sex);
    assert "95,125" + "," + sex == "95,125," + sex;
  }

  /** A column without the age-group marker is an IndexError. */
  lemma NoAgeGroupIsIndexError(measure: string)
    requires !Contains(measure, "AGE_GROUP_")
    ensures GetAgeAndSexFromPafOutputCols(measure).Err?
    ensures GetAgeAndSexFromPafOutputCols(measure).error.IndexError?
  {
  }

  // ---------------------------------------------------------------------------------
  // format_paf_data (entity check)
  // ---------------------------------------------------------------------------------

  const PAF_ENTITIES: seq<string> := ["high_ldl_cholesterol", "high_body_mass_index_in_adults",
    "high_systolic_blood_pressure", "categorical_high_systolic_blood_pressure"]

  /** `format_paf_data` accepts only the four risks with calculated PAFs; anything else is a ValueError. */
  function CheckPafEntity(entity: string): (r: Result<string>)
    ensures r.Ok? <==> entity in PAF_ENTITIES
    ensures r.Ok? ==> r.value == entity
    ensures r.Err? ==> r.error.ValueError?
  {
    if entity in PAF_ENTITIES then Ok(entity)
    else Err(ValueError("entity must be one of the calculated PAF risks. You provided entity " + entity + "."))
  }
}
