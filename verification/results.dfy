/**
 * Result column names (constants/results.py): column templates, the Cartesian product of
 * the field values a template mentions, `RESULT_COLUMNS`, `RESULTS_MAP` and the throwaway
 * event-count columns.
 */
module Results {
  import opened Wrappers
  import opened Strings
  import opened Sorting
  import Models

  const TOTAL_POPULATION_COLUMN := "total_population"
  const TOTAL_YLDS_COLUMN := "years_lived_with_disability"
  const TOTAL_YLLS_COLUMN := "years_of_life_lost"

  /** The standard columns, in dictionary order. */
  const STANDARD_COLUMNS: seq<(string, string)> := [
    ("total_population", TOTAL_POPULATION_COLUMN),
    ("total_ylls", TOTAL_YLLS_COLUMN),
    ("total_ylds", TOTAL_YLDS_COLUMN)
  ]

  function Values(pairs: seq<(string, string)>): (r: seq<string>)
    ensures |r| == |pairs| && forall i :: 0 <= i < |pairs| ==> r[i] == pairs[i].1
  {
    seq(|pairs|, i requires 0 <= i < |pairs| => pairs[i].1)
  }

  /** A format template: literal text and `{FIELD}` placeholders. */
  datatype Segment = Lit(text: string) | Field(name: string)
  type Template = seq<Segment>

  /** `"{FIELD}" in template` */
  predicate Mentions(t: Template, field: string)
  {
    exists i :: 0 <= i < |t| && t[i] == Field(field)
  }

  /** The value bound to `name` by `zip(fields, values)`, if any. */
  function Lookup(binding: seq<(string, string)>, name: string): Option<string>
  {
    if binding == [] then None
    else if binding[0].0 == name then Some(binding[0].1)
    else Lookup(binding[1..], name)
  }

  /** Every placeholder of `t` is bound. */
  predicate Bound(t: Template, binding: seq<(string, string)>)
  {
    forall i :: 0 <= i < |t| && t[i].Field? ==> Lookup(binding, t[i].name).Some?
  }

  /** `template.format(**binding)` */
  function Format(t: Template, binding: seq<(string, string)>): (r: string)
    requires Bound(t, binding)
    ensures t != [] && t[0].Lit? ==> t[0].text <= r
    ensures t != [] && t[0].Field? ==> Lookup(binding, t[0].name).value <= r
  {
    if t == [] then ""
    else
      (match t[0]
       case Lit(text) => text
       case Field(name) => Lookup(binding, name).value)
      + Format(t[1..], binding)
  }

  function Zip(names: seq<string>, values: seq<string>): (r: seq<(string, string)>)
    requires |names| == |values|
    ensures |r| == |names| && forall i :: 0 <= i < |r| ==> r[i] == (names[i], values[i])
  {
    seq(|names|, i requires 0 <= i < |names| => (names[i], values[i]))
  }

  const TOTAL_POPULATION_COLUMN_TEMPLATE: Template := [Lit("total_population_"), Field("POP_STATE")]
  const DEATH_COLUMN_TEMPLATE: Template := [Lit("death_due_to_"), Field("CAUSE_OF_DEATH"),
    Lit("_year_"), Field("YEAR"), Lit("_sex_"), Field("SEX"), Lit("_age_"), Field("AGE_GROUP")]
  const YLLS_COLUMN_TEMPLATE: Template := [Lit("ylls_due_to_"), Field("CAUSE_OF_DEATH"),
    Lit("_year_"), Field("YEAR"), Lit("_sex_"), Field("SEX"), Lit("_age_"), Field("AGE_GROUP")]
  const YLDS_COLUMN_TEMPLATE: Template := [Lit("ylds_due_to_"), Field("CAUSE_OF_DISABILITY"),
    Lit("_year_"), Field("YEAR"), Lit("_sex_"), Field("SEX"), Lit("_age_"), Field("AGE_GROUP")]
  const STATE_PERSON_TIME_COLUMN_TEMPLATE: Template := [Field("STATE"),
    Lit("_person_time_year_"), Field("YEAR"), Lit("_sex_"), Field("SEX"), Lit("_age_"), Field("AGE_GROUP")]
  const TRANSITION_COUNT_COLUMN_TEMPLATE: Template := [Field("TRANSITION"),
    Lit("_event_count_year_"), Field("YEAR"), Lit("_sex_"), Field("SEX"), Lit("_age_"), Field("AGE_GROUP")]
  const RISK_EXPOSURE_TIME_TEMPLATE: Template := [Lit("total_exposure_time_risk_"), Field("RISK"),
    Lit("_year_"), Field("YEAR"), Lit("_sex_"), Field("SEX"), Lit("_age_"), Field("AGE_GROUP")]
  const VISIT_COUNT_TEMPLATE: Template := [Lit("healthcare_visits_"), Field("VISIT_TYPE"),
    Lit("_year_"), Field("YEAR"), Lit("_sex_"), Field("SEX"), Lit("_age_"), Field("AGE_GROUP")]

  /** The column templates by kind, in dictionary order. */
  const COLUMN_TEMPLATES: seq<(string, Template)> := [
    ("population", TOTAL_POPULATION_COLUMN_TEMPLATE),
    ("deaths", DEATH_COLUMN_TEMPLATE),
    ("ylls", YLLS_COLUMN_TEMPLATE),
    ("ylds", YLDS_COLUMN_TEMPLATE),
    ("state_person_time", STATE_PERSON_TIME_COLUMN_TEMPLATE),
    ("transition_count", TRANSITION_COUNT_COLUMN_TEMPLATE),
    ("risk_exposure_time", RISK_EXPOSURE_TIME_TEMPLATE),
    ("healthcare_visits", VISIT_COUNT_TEMPLATE)
  ]

  /** `COLUMN_TEMPLATES.get(kind)` */
  function TemplateOf(templates: seq<(string, Template)>, kind: string): (r: Option<Template>)
    ensures r.Some? <==> exists i :: 0 <= i < |templates| && templates[i].0 == kind
    ensures r.Some? ==> exists i :: 0 <= i < |templates| && templates[i] == (kind, r.value)
  {
    if templates == [] then None
    else if templates[0].0 == kind then Some(templates[0].1)
    else TemplateOf(templates[1..], kind)
  }

  const POP_STATES: seq<string> := ["living", "dead", "tracked", "untracked"]
  const SEXES: seq<string> := ["male", "female"]
  /** `range(2021, 2041)`, as the strings the templates print. */
  function Years(): (r: seq<string>)
    ensures |r| == 20
  {
    seq(20, i requires 0 <= i < 20 => NatToString(2021 + i))
  }
  const AGE_GROUPS: seq<string> := ["25_to_29", "30_to_34", "35_to_39", "40_to_44", "45_to_49",
    "50_to_54", "55_to_59", "60_to_64", "65_to_69", "70_to_74", "75_to_79", "80_to_84",
    "85_to_89", "90_to_94", "95_plus"]
  const RISKS: seq<string> := ["high_ldl_cholesterol", "high_systolic_blood_pressure"]

  /**
   * Names the field map reads from modules where they are not defined: the acute-MI and
   * post-MI state names of the models module and the visit types of the data values.
   */
  datatype MissingNames = MissingNames(acuteMiStateName: string, postMiStateName: string, visitTypes: seq<string>)

  function CausesOfDisability(m: MissingNames): seq<string>
  {
    [Models.ACUTE_ISCHEMIC_STROKE_STATE_NAME, Models.CHRONIC_ISCHEMIC_STROKE_STATE_NAME, m.acuteMiStateName, "angina"]
  }

  function CausesOfDeath(m: MissingNames): seq<string>
  {
    CausesOfDisability(m) + ["other_causes", m.postMiStateName]
  }

  /** The string values of transition strings. */
  function StringValues(ts: seq<Models.TransitionString>): (r: seq<string>)
    ensures |r| == |ts| && forall i :: 0 <= i < |ts| ==> r[i] == ts[i].value
  {
    seq(|ts|, i requires 0 <= i < |ts| => ts[i].value)
  }

  /** `TEMPLATE_FIELD_MAP`, in dictionary order. */
  function TemplateFieldMap(m: MissingNames): seq<(string, seq<string>)>
  {
    [ ("POP_STATE", POP_STATES),
      ("YEAR", Years()),
      ("SEX", SEXES),
      ("AGE_GROUP", AGE_GROUPS),
      ("CAUSE_OF_DEATH", CausesOfDeath(m)),
      ("CAUSE_OF_DISABILITY", CausesOfDisability(m)),
      ("STATE", Models.AllStates(Models.STATE_MACHINE_MAP)),
      ("TRANSITION", StringValues(Models.AllTransitions(Models.STATE_MACHINE_MAP))),
      ("RISK", RISKS),
      ("VISIT_TYPE", m.visitTypes) ]
  }

  /** The fields of the map that the template mentions, in map order. */
  function FilteredFieldMap(fieldMap: seq<(string, seq<string>)>, t: Template): (r: seq<(string, seq<string>)>)
    ensures forall p :: p in r <==> p in fieldMap && Mentions(t, p.0)
  {
    if fieldMap == [] then []
    else (if Mentions(t, fieldMap[0].0) then [fieldMap[0]] else []) + FilteredFieldMap(fieldMap[1..], t)
  }

  /** The filtered fields keep the order of the map. */
  lemma {:induction false} FilteredFieldMapInOrder(fieldMap: seq<(string, seq<string>)>, t: Template)
    requires Distinct(fieldMap)
    ensures InOrderOf(FilteredFieldMap(fieldMap, t), fieldMap)
  {
    if fieldMap != [] {
      assert fieldMap[0] !in fieldMap[1..];
      FilteredFieldMapInOrder(fieldMap[1..], t);
      InOrderCons(Mentions(t, fieldMap[0].0), FilteredFieldMap(fieldMap[1..], t), fieldMap);
    }
  }

  function Names(fieldMap: seq<(string, seq<string>)>): (r: seq<string>)
    ensures |r| == |fieldMap| && forall i :: 0 <= i < |r| ==> r[i] == fieldMap[i].0
  {
    seq(|fieldMap|, i requires 0 <= i < |fieldMap| => fieldMap[i].0)
  }

  function Groups(fieldMap: seq<(string, seq<string>)>): (r: seq<seq<string>>)
    ensures |r| == |fieldMap| && forall i :: 0 <= i < |r| ==> r[i] == fieldMap[i].1
  {
    seq(|fieldMap|, i requires 0 <= i < |fieldMap| => fieldMap[i].1)
  }

  /** The product of the group sizes. */
  function ProductSize(groups: seq<seq<string>>): nat
  {
    if groups == [] then 1 else |groups[0]| * ProductSize(groups[1..])
  }

  function Prepend(v: string, tails: seq<seq<string>>): (r: seq<seq<string>>)
    ensures |r| == |tails| && forall i :: 0 <= i < |r| ==> r[i] == [v] + tails[i]
  {
    seq(|tails|, i requires 0 <= i < |tails| => [v] + tails[i])
  }

  /** Every value of `first` before every tail, first values varying slowest. */
  function Expand(first: seq<string>, tails: seq<seq<string>>): (r: seq<seq<string>>)
  {
    if first == [] then [] else Prepend(first[0], tails) + Expand(first[1..], tails)
  }

  lemma {:induction false} ExpandLength(first: seq<string>, tails: seq<seq<string>>)
    ensures |Expand(first, tails)| == |first| * |tails|
  {
    if first != [] {
      var n := |first[1..]|;
      ExpandLength(first[1..], tails);
      assert |Expand(first, tails)| == |tails| + n * |tails|;
      assert (n + 1) * |tails| == n * |tails| + |tails|;
    }
  }

  /** A member of the expansion is a value of `first` before a tail. */
  lemma {:induction false} ExpandMember(first: seq<string>, tails: seq<seq<string>>, p: seq<string>)
    requires p in Expand(first, tails)
    ensures |p| > 0 && p[0] in first && p[1..] in tails
  {
    if p in Prepend(first[0], tails) {
      var i :| 0 <= i < |tails| && Prepend(first[0], tails)[i] == p;
      assert p[1..] == tails[i];
    } else {
      ExpandMember(first[1..], tails, p);
    }
  }

  /** Every value of `first` before every tail is a member of the expansion. */
  lemma {:induction false} ExpandComplete(first: seq<string>, tails: seq<seq<string>>, v: string, tail: seq<string>)
    requires v in first && tail in tails
    ensures [v] + tail in Expand(first, tails)
  {
    if v == first[0] {
      var i :| 0 <= i < |tails| && tails[i] == tail;
      assert Prepend(first[0], tails)[i] == [v] + tail;
    } else {
      ExpandComplete(first[1..], tails, v, tail);
    }
  }

  /** `itertools.product(*groups)`, first groups varying slowest. */
  function Product(groups: seq<seq<string>>): (r: seq<seq<string>>)
    ensures forall i :: 0 <= i < |r| ==> |r[i]| == |groups|
  {
    if groups == [] then [[]]
    else
      var r := Expand(groups[0], Product(groups[1..]));
      assert forall i :: 0 <= i < |r| ==> |r[i]| == |groups| by {
        forall i | 0 <= i < |r| ensures |r[i]| == |groups| {
          ExpandMember(groups[0], Product(groups[1..]), r[i]);
        }
      }
      r
  }

  /** There are as many combinations as the product of the group sizes. */
  lemma {:induction false} ProductLength(groups: seq<seq<string>>)
    ensures |Product(groups)| == ProductSize(groups)
  {
    if groups != [] {
      ProductLength(groups[1..]);
      ExpandLength(groups[0], Product(groups[1..]));
    }
  }

  /** Each combination takes its i-th value from the i-th group. */
  lemma {:induction false} ProductMember(groups: seq<seq<string>>, p: seq<string>)
    requires p in Product(groups)
    ensures |p| == |groups| && forall i :: 0 <= i < |groups| ==> p[i] in groups[i]
  {
    if groups != [] {
      var rest, tail := groups[1..], p[1..];
      ExpandMember(groups[0], Product(rest), p);
      ProductMember(rest, tail);
      assert forall i :: 1 <= i < |groups| ==> p[i] == tail[i - 1] && groups[i] == rest[i - 1];
    }
  }

  /** Every choice of one value per group is a combination. */
  lemma {:induction false} ProductComplete(groups: seq<seq<string>>, p: seq<string>)
    requires |p| == |groups| && forall i :: 0 <= i < |groups| ==> p[i] in groups[i]
    ensures p in Product(groups)
  {
    if groups != [] {
      var rest, tail := groups[1..], p[1..];
      assert forall i :: 0 <= i < |rest| ==> tail[i] == p[i + 1] && rest[i] == groups[i + 1];
      ProductComplete(rest, tail);
      ExpandComplete(groups[0], Product(rest), p[0], tail);
      assert p == [p[0]] + tail;
    }
  }

  /** Every placeholder of the template names a field of the map. */
  predicate FieldsKnown(t: Template, fieldMap: seq<(string, seq<string>)>)
  {
    forall i :: 0 <= i < |t| && t[i].Field? ==> t[i].name in Names(fieldMap)
  }

  /** A placeholder the template mentions is bound by any combination of the filtered fields. */
  lemma FilteredBinds(t: Template, fieldMap: seq<(string, seq<string>)>, values: seq<string>)
    requires FieldsKnown(t, fieldMap)
    requires |values| == |FilteredFieldMap(fieldMap, t)|
    ensures Bound(t, Zip(Names(FilteredFieldMap(fieldMap, t)), values))
  {
    var filtered := FilteredFieldMap(fieldMap, t);
    var binding := Zip(Names(filtered), values);
    forall i | 0 <= i < |t| && t[i].Field?
      ensures Lookup(binding, t[i].name).Some?
    {
      var j :| 0 <= j < |fieldMap| && Names(fieldMap)[j] == t[i].name;
      assert fieldMap[j] in filtered;
      var k :| 0 <= k < |filtered| && filtered[k] == fieldMap[j];
      LookupFinds(binding, k);
    }
  }

  lemma {:induction false} LookupFinds(binding: seq<(string, string)>, k: nat)
    requires k < |binding|
    ensures Lookup(binding, binding[k].0).Some?
  {
    if k > 0 && binding[0].0 != binding[k].0 {
      LookupFinds(binding[1..], k - 1);
    }
  }

  /** The columns of one template: one formatted name per combination of its fields' values. */
  function ColumnsOf(t: Template, fieldMap: seq<(string, seq<string>)>): (r: seq<string>)
    requires FieldsKnown(t, fieldMap)
    ensures |r| == ProductSize(Groups(FilteredFieldMap(fieldMap, t)))
  {
    var groups := Groups(FilteredFieldMap(fieldMap, t));
    var combos := Product(groups);
    ProductLength(groups);
    assert forall i :: 0 <= i < |combos| ==> |combos[i]| == |groups| by {
      forall i | 0 <= i < |combos| ensures |combos[i]| == |groups| {
        ProductMember(groups, combos[i]);
      }
    }
    seq(|combos|, i requires 0 <= i < |combos| => ColumnOf(t, fieldMap, combos[i]))
  }

  /** The column of one combination of values of the fields the template mentions. */
  function ColumnOf(t: Template, fieldMap: seq<(string, seq<string>)>, values: seq<string>): string
    requires FieldsKnown(t, fieldMap)
    requires |values| == |FilteredFieldMap(fieldMap, t)|
  {
    FilteredBinds(t, fieldMap, values);
    Format(t, Zip(Names(FilteredFieldMap(fieldMap, t)), values))
  }

  /** Every choice of one value per mentioned field gives a column of the template. */
  lemma ColumnsComplete(t: Template, fieldMap: seq<(string, seq<string>)>, values: seq<string>)
    requires FieldsKnown(t, fieldMap)
    requires |values| == |FilteredFieldMap(fieldMap, t)|
    requires forall i :: 0 <= i < |values| ==> values[i] in FilteredFieldMap(fieldMap, t)[i].1
    ensures ColumnOf(t, fieldMap, values) in ColumnsOf(t, fieldMap)
  {
    var groups := Groups(FilteredFieldMap(fieldMap, t));
    ProductComplete(groups, values);
    var k :| 0 <= k < |Product(groups)| && Product(groups)[k] == values;
    ProductLength(groups);
    assert ColumnsOf(t, fieldMap)[k] == ColumnOf(t, fieldMap, values);
  }

  /** Every column of the template is the template formatted with one value per mentioned field. */
  lemma ColumnsSound(t: Template, fieldMap: seq<(string, seq<string>)>, c: string)
    requires FieldsKnown(t, fieldMap)
    requires c in ColumnsOf(t, fieldMap)
    ensures exists values :: (
              && |values| == |FilteredFieldMap(fieldMap, t)|
              && (forall i :: 0 <= i < |values| ==> values[i] in FilteredFieldMap(fieldMap, t)[i].1)
              && c == ColumnOf(t, fieldMap, values))
  {
    var groups := Groups(FilteredFieldMap(fieldMap, t));
    ProductLength(groups);
    var k :| 0 <= k < |ColumnsOf(t, fieldMap)| && ColumnsOf(t, fieldMap)[k] == c;
    ProductMember(groups, Product(groups)[k]);
    assert c == ColumnOf(t, fieldMap, Product(groups)[k]);
  }

  /** Formats the template once per combination of its fields' values, in product order. */
  method TemplateColumns(t: Template, fieldMap: seq<(string, seq<string>)>) returns (columns: seq<string>)
    requires FieldsKnown(t, fieldMap)
    ensures columns == ColumnsOf(t, fieldMap)
  {
    var groups := Groups(FilteredFieldMap(fieldMap, t));
    var valueGroups := Product(groups);
    ghost var all := ColumnsOf(t, fieldMap);
    columns := [];
    var g := 0;
    while g < |valueGroups|
      invariant 0 <= g <= |valueGroups| == |all|
      invariant columns == all[..g]
    {
      ProductMember(groups, valueGroups[g]);
      assert all[g] == ColumnOf(t, fieldMap, valueGroups[g]);
      PrefixGrows(all, g);
      columns := columns + [ColumnOf(t, fieldMap, valueGroups[g])];
      g := g + 1;
    }
  }

  /** The columns of every template, in template order. */
  method KindsColumns(templates: seq<(string, Template)>, fieldMap: seq<(string, seq<string>)>) returns (columns: seq<string>)
    requires forall i :: 0 <= i < |templates| ==> FieldsKnown(templates[i].1, fieldMap)
    ensures columns == AllKindsColumns(templates, fieldMap)
  {
    columns := [];
    var k := 0;
    while k < |templates|
      invariant 0 <= k <= |templates|
      invariant columns == KindsColumnsUpTo(templates, fieldMap, k)
    {
      var more := TemplateColumns(templates[k].1, fieldMap);
      columns := columns + more;
      k := k + 1;
    }
  }

  const FIELD_NAMES: seq<string> := ["POP_STATE", "YEAR", "SEX", "AGE_GROUP", "CAUSE_OF_DEATH",
    "CAUSE_OF_DISABILITY", "STATE", "TRANSITION", "RISK", "VISIT_TYPE"]

  predicate AllTemplatesKnown(m: MissingNames)
  {
    forall i :: 0 <= i < |COLUMN_TEMPLATES| ==> FieldsKnown(COLUMN_TEMPLATES[i].1, TemplateFieldMap(m))
  }

  /** Every placeholder of every column template names a field of the field map. */
  lemma TemplatesKnown(m: MissingNames)
    ensures AllTemplatesKnown(m)
  {
    var fm := TemplateFieldMap(m);
    assert Names(fm) == FIELD_NAMES;
    assert FieldsKnown(TOTAL_POPULATION_COLUMN_TEMPLATE, fm);
    assert FieldsKnown(DEATH_COLUMN_TEMPLATE, fm);
    assert FieldsKnown(YLLS_COLUMN_TEMPLATE, fm);
    assert FieldsKnown(YLDS_COLUMN_TEMPLATE, fm);
    assert FieldsKnown(STATE_PERSON_TIME_COLUMN_TEMPLATE, fm);
    assert FieldsKnown(TRANSITION_COUNT_COLUMN_TEMPLATE, fm);
    assert FieldsKnown(RISK_EXPOSURE_TIME_TEMPLATE, fm);
    assert FieldsKnown(VISIT_COUNT_TEMPLATE, fm);
  }

  /** The columns of every kind, concatenated in the order of the templates. */
  function AllKindsColumns(templates: seq<(string, Template)>, fieldMap: seq<(string, seq<string>)>): seq<string>
    requires forall i :: 0 <= i < |templates| ==> FieldsKnown(templates[i].1, fieldMap)
  {
    KindsColumnsUpTo(templates, fieldMap, |templates|)
  }

  /** The columns of the first `k` kinds, in template order. */
  function KindsColumnsUpTo(templates: seq<(string, Template)>, fieldMap: seq<(string, seq<string>)>, k: nat): seq<string>
    requires k <= |templates|
    requires forall i :: 0 <= i < |templates| ==> FieldsKnown(templates[i].1, fieldMap)
  {
    if k == 0 then [] else KindsColumnsUpTo(templates, fieldMap, k - 1) + ColumnsOf(templates[k - 1].1, fieldMap)
  }

  /**
   * `RESULT_COLUMNS(kind)`: an unknown kind is a ValueError; a known kind gives its
   * template's columns; "all" gives the standard columns followed by every kind's
   * columns in template order.
   */
  method ResultColumns(kind: string, m: MissingNames) returns (r: Result<seq<string>>)
    ensures kind != "all" && TemplateOf(COLUMN_TEMPLATES, kind).None? ==> r.Err? && r.error.ValueError?
    ensures kind != "all" && TemplateOf(COLUMN_TEMPLATES, kind).Some? ==>
      TemplatesKnownOf(kind, m) && r == Ok(ColumnsOf(TemplateOf(COLUMN_TEMPLATES, kind).value, TemplateFieldMap(m)))
    ensures kind == "all" ==> AllTemplatesKnown(m) && r == Ok(Values(STANDARD_COLUMNS) + AllKindsColumns(COLUMN_TEMPLATES, TemplateFieldMap(m)))
  {
    TemplatesKnown(m);
    var fieldMap := TemplateFieldMap(m);
    if kind != "all" && TemplateOf(COLUMN_TEMPLATES, kind).None? {
      return Err(ValueError("Unknown result column type " + kind));
    }
    var columns: seq<string>;
    if kind == "all" {
      columns := KindsColumns(COLUMN_TEMPLATES, fieldMap);
      columns := Values(STANDARD_COLUMNS) + columns;
    } else {
      columns := TemplateColumns(TemplateOf(COLUMN_TEMPLATES, kind).value, fieldMap);
    }
    return Ok(columns);
  }

  predicate TemplatesKnownOf(kind: string, m: MissingNames)
  {
    TemplateOf(COLUMN_TEMPLATES, kind).Some? ==> FieldsKnown(TemplateOf(COLUMN_TEMPLATES, kind).value, TemplateFieldMap(m))
  }

  /** The kinds of the template map are distinct, so a kind finds its own template. */
  lemma DistinctKinds(k: nat)
    requires k < |COLUMN_TEMPLATES|
    ensures TemplateOf(COLUMN_TEMPLATES, COLUMN_TEMPLATES[k].0) == Some(COLUMN_TEMPLATES[k].1)
  {
  }

  /** A row of `RESULTS_MAP(kind)`: the column as key, the lower-cased field names with their values, and the kind. */
  datatype MapRow = MapRow(key: string, fields: seq<(string, string)>, measure: string)

  predicate KeyLe(a: MapRow, b: MapRow)
  {
    LexLe(a.key, b.key)
  }

  lemma KeyLeTotalPreorder()
    ensures TotalPreorder(KeyLe)
  {
    forall a: MapRow, b: MapRow ensures KeyLe(a, b) || KeyLe(b, a) {
      LexLeTotal(a.key, b.key);
    }
    forall a: MapRow, b: MapRow, c: MapRow | KeyLe(a, b) && KeyLe(b, c) ensures KeyLe(a, c) {
      LexLeTransitive(a.key, b.key, c.key);
    }
  }

  function LowerNames(names: seq<string>): (r: seq<string>)
    ensures |r| == |names| && forall i :: 0 <= i < |r| ==> r[i] == Lower(names[i])
  {
    seq(|names|, i requires 0 <= i < |names| => Lower(names[i]))
  }

  /**
   * The row of one combination of the mentioned fields' values: the column it formats as
   * key, each lower-cased field name with its value, and the kind as measure.
   */
  function CombinationRow(t: Template, fieldMap: seq<(string, seq<string>)>, kind: string, values: seq<string>): MapRow
    requires FieldsKnown(t, fieldMap)
    requires |values| == |FilteredFieldMap(fieldMap, t)|
  {
    MapRow(ColumnOf(t, fieldMap, values), Zip(LowerNames(Names(FilteredFieldMap(fieldMap, t))), values), kind)
  }

  /** The `g`-th row is the row of the `g`-th combination, keyed by the `g`-th column. */
  lemma CombinationRowAt(t: Template, fieldMap: seq<(string, seq<string>)>, kind: string, g: nat)
    requires FieldsKnown(t, fieldMap) && g < |CombinationRows(t, fieldMap, kind)|
    ensures var filtered := FilteredFieldMap(fieldMap, t);
      var values := Product(Groups(filtered))[g];
      && |values| == |filtered|
      && CombinationRows(t, fieldMap, kind)[g] == MapRow(ColumnsOf(t, fieldMap)[g], Zip(LowerNames(Names(filtered)), values), kind)
  {
    var groups := Groups(FilteredFieldMap(fieldMap, t));
    ProductLength(groups);
    ProductMember(groups, Product(groups)[g]);
  }

  /** `row` is the row of some combination of one value per mentioned field. */
  ghost predicate IsCombinationRow(t: Template, fieldMap: seq<(string, seq<string>)>, kind: string, row: MapRow)
    requires FieldsKnown(t, fieldMap)
  {
    exists values :: (
      && |values| == |FilteredFieldMap(fieldMap, t)|
      && (forall i :: 0 <= i < |values| ==> values[i] in FilteredFieldMap(fieldMap, t)[i].1)
      && row == CombinationRow(t, fieldMap, kind, values))
  }

  /** The rows before sorting: one per combination of the mentioned fields' values, in product order. */
  function CombinationRows(t: Template, fieldMap: seq<(string, seq<string>)>, kind: string): (r: seq<MapRow>)
    requires FieldsKnown(t, fieldMap)
    ensures |r| == |ColumnsOf(t, fieldMap)|
    ensures forall i :: 0 <= i < |r| ==> r[i].key == ColumnsOf(t, fieldMap)[i] && r[i].measure == kind
  {
    var groups := Groups(FilteredFieldMap(fieldMap, t));
    var combos := Product(groups);
    ProductLength(groups);
    assert forall i :: 0 <= i < |combos| ==> |combos[i]| == |groups| by {
      forall i | 0 <= i < |combos| ensures |combos[i]| == |groups| {
        ProductMember(groups, combos[i]);
      }
    }
    seq(|combos|, i requires 0 <= i < |combos| => CombinationRow(t, fieldMap, kind, combos[i]))
  }

  /** Every row before sorting pairs the lower-cased field names with the values that format its key. */
  lemma CombinationRowsSound(t: Template, fieldMap: seq<(string, seq<string>)>, kind: string, row: MapRow)
    requires FieldsKnown(t, fieldMap)
    requires row in CombinationRows(t, fieldMap, kind)
    ensures IsCombinationRow(t, fieldMap, kind, row)
  {
    var groups := Groups(FilteredFieldMap(fieldMap, t));
    var rows := CombinationRows(t, fieldMap, kind);
    var k :| 0 <= k < |rows| && rows[k] == row;
    ProductLength(groups);
    ProductMember(groups, Product(groups)[k]);
    assert row == CombinationRow(t, fieldMap, kind, Product(groups)[k]);
  }

  /** Builds one row per combination, in product order, before sorting. */
  method TemplateRows(t: Template, fieldMap: seq<(string, seq<string>)>, kind: string) returns (rows: seq<MapRow>)
    requires FieldsKnown(t, fieldMap)
    ensures rows == CombinationRows(t, fieldMap, kind)
  {
    var columns := TemplateColumns(t, fieldMap);
    var filtered := FilteredFieldMap(fieldMap, t);
    var fields := LowerNames(Names(filtered));
    var valueGroups := Product(Groups(filtered));
    ghost var all := CombinationRows(t, fieldMap, kind);
    ProductLength(Groups(filtered));
    rows := [];
    var g := 0;
    while g < |valueGroups|
      invariant 0 <= g <= |valueGroups| == |columns| == |all|
      invariant rows == all[..g]
    {
      CombinationRowAt(t, fieldMap, kind, g);
      PrefixGrows(all, g);
      rows := rows + [MapRow(columns[g], Zip(fields, valueGroups[g]), kind)];
      g := g + 1;
    }
  }

  /** Sorting the rows by key keeps their number, their measures and their key set. */
  lemma SortRowsKeeps(rows: seq<MapRow>, sorted: seq<MapRow>, columns: seq<string>, kind: string)
    requires multiset(sorted) == multiset(rows)
    requires |rows| == |columns|
    requires forall i :: 0 <= i < |rows| ==> rows[i].key == columns[i] && rows[i].measure == kind
    ensures |sorted| == |columns|
    ensures forall row :: row in sorted ==> row.measure == kind
    ensures forall c :: c in columns <==> exists row :: row in sorted && row.key == c
  {
    assert forall row :: row in sorted <==> row in rows by {
      forall row ensures row in sorted <==> row in rows {
        assert row in sorted <==> row in multiset(sorted);
        assert row in rows <==> row in multiset(rows);
      }
    }
    assert |sorted| == |rows| by {
      assert |multiset(sorted)| == |multiset(rows)|;
    }
    forall c ensures c in columns <==> exists row :: row in sorted && row.key == c {
      if c in columns {
        var i :| 0 <= i < |columns| && columns[i] == c;
        assert rows[i] in sorted;
      }
    }
  }

  /**
   * `RESULTS_MAP(kind)`: an unknown kind (including "all") is a ValueError; otherwise one
   * row per combination of the template's field values, keyed by the formatted column,
   * measure = kind, sorted by key.
   */
  method ResultsMap(kind: string, m: MissingNames) returns (r: Result<seq<MapRow>>)
    ensures TemplateOf(COLUMN_TEMPLATES, kind).None? <==> r.Err?
    ensures r.Err? ==> r.error.ValueError?
    ensures r.Ok? ==> TemplatesKnownOf(kind, m) && SortedBy(r.value, KeyLe)
    ensures r.Ok? ==> multiset(r.value) == multiset(CombinationRows(TemplateOf(COLUMN_TEMPLATES, kind).value, TemplateFieldMap(m), kind))
    ensures r.Ok? ==> |r.value| == |ColumnsOf(TemplateOf(COLUMN_TEMPLATES, kind).value, TemplateFieldMap(m))|
    ensures r.Ok? ==> forall row :: row in r.value ==> row.measure == kind
    ensures r.Ok? ==> forall row :: row in r.value ==> IsCombinationRow(TemplateOf(COLUMN_TEMPLATES, kind).value, TemplateFieldMap(m), kind, row)
    ensures r.Ok? ==> forall c :: c in ColumnsOf(TemplateOf(COLUMN_TEMPLATES, kind).value, TemplateFieldMap(m)) <==>
                              exists row :: row in r.value && row.key == c
  {
    if TemplateOf(COLUMN_TEMPLATES, kind).None? {
      return Err(ValueError("Unknown result column type " + kind));
    }
    TemplatesKnown(m);
    var t := TemplateOf(COLUMN_TEMPLATES, kind).value;
    var fieldMap := TemplateFieldMap(m);
    var rows := TemplateRows(t, fieldMap, kind);
    KeyLeTotalPreorder();
    var sorted := SortBy(rows, KeyLe);
    SortRowsKeeps(rows, sorted, ColumnsOf(t, fieldMap), kind);
    forall row | row in sorted
      ensures IsCombinationRow(t, fieldMap, kind, row)
    {
      assert row in multiset(rows);
      CombinationRowsSound(t, fieldMap, kind, row);
    }
    return Ok(sorted);
  }

  /** `THROWAWAY_COLUMNS`: one event-count column per model state. */
  function ThrowawayColumns(states: seq<string>): (r: seq<string>)
    ensures |r| == |states| && forall i :: 0 <= i < |r| ==> r[i] == states[i] + "_event_count"
  {
    seq(|states|, i requires 0 <= i < |states| => states[i] + "_event_count")
  }

  const THROWAWAY_COLUMNS: seq<string> := ThrowawayColumns(Models.AllStates(Models.STATE_MACHINE_MAP))

  /** With only the stroke model registered, the throwaway columns are the three stroke states' event counts. */
  lemma ThrowawayStrokeColumns()
    ensures THROWAWAY_COLUMNS == ["susceptible_to_ischemic_stroke_event_count",
      "acute_ischemic_stroke_event_count", "chronic_ischemic_stroke_event_count"]
  {
    Models.StrokeStateMachine();
    var states := Models.ISCHEMIC_STROKE_MODEL_STATES;
    SusceptibleEventCount();
    AcuteEventCount();
    ChronicEventCount();
    assert ThrowawayColumns(states) == [states[0] + "_event_count", states[1] + "_event_count",
      states[2] + "_event_count"];
  }

  lemma SusceptibleEventCount()
    ensures Models.ISCHEMIC_STROKE_SUSCEPTIBLE_STATE_NAME + "_event_count" == "susceptible_to_ischemic_stroke_event_count"
  {
  }

  lemma AcuteEventCount()
    ensures Models.ACUTE_ISCHEMIC_STROKE_STATE_NAME + "_event_count" == "acute_ischemic_stroke_event_count"
  {
  }

  lemma ChronicEventCount()
    ensures Models.CHRONIC_ISCHEMIC_STROKE_STATE_NAME + "_event_count" == "chronic_ischemic_stroke_event_count"
  {
  }
}
