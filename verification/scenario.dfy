/**
 * Builders for the statements that create and update rows of the
 * scenarios table. A statement is modelled by the text fragments the
 * builder computes; the surrounding SQL keywords and whitespace are fixed.
 *
 * A Python dict is an ordered sequence of (key, value) pairs with distinct
 * keys.
 */
module Scenario {
  import opened PyValues

  /** `INSERT INTO scenarios (<columns>) VALUES (<values>);` */
  datatype InsertStatement = InsertStatement(columns: string, values: string)

  /** `UPDATE scenarios SET <column> = <value> WHERE scenario_name = '<scenarioName>';` */
  datatype UpdateStatement = UpdateStatement(column: string, value: string, scenarioName: string)

  predicate DistinctKeys(entries: seq<(string, PyValue)>) {
    forall i, j :: 0 <= i < j < |entries| ==> entries[i].0 != entries[j].0
  }

  function Keys(entries: seq<(string, PyValue)>): (keys: seq<string>)
    ensures |keys| == |entries| && forall i :: 0 <= i < |entries| ==> keys[i] == entries[i].0
  {
    seq(|entries|, i requires 0 <= i < |entries| => entries[i].0)
  }

  /** The parts separated by ", ". */
  function Join(parts: seq<string>): string
    decreases |parts|
  {
    if |parts| == 0 then ""
    else if |parts| == 1 then parts[0]
    else Join(parts[..|parts| - 1]) + ", " + parts[|parts| - 1]
  }

  /** Python's `list.index`: the first position of `x`, or |s| when absent (where Python raises). */
  function IndexOf(s: seq<string>, x: string): (r: nat)
    ensures r <= |s|
    ensures r < |s| ==> s[r] == x
    ensures forall k :: 0 <= k < r ==> s[k] != x
    decreases |s|
  {
    if s == [] then 0 else if s[0] == x then 0 else 1 + IndexOf(s[1..], x)
  }

  /** Appending a part extends the text by ", " and the part (by the part alone when it is the first). */
  lemma JoinSnoc(parts: seq<string>, x: string)
    ensures Join(parts + [x]) == if parts == [] then x else Join(parts) + ", " + x
  {
    assert (parts + [x])[..|parts|] == parts;
  }

  lemma IndexOfDistinct(s: seq<string>, i: nat)
    requires i < |s| && forall a, b :: 0 <= a < b < |s| ==> s[a] != s[b]
    ensures IndexOf(s, s[i]) == i
  {
  }

  // ---------------------------------------------------------------------
  // create_scenario

  /**
   * The value text of the entry at `position`: the first entry's value is
   * quoted, later values are written bare; None is NULL anywhere.
   */
  function ValueText(position: nat, v: PyValue): string {
    if v.PyNone? then "NULL"
    else if position == 0 then "'" + Str(v) + "'"
    else Str(v)
  }

  function ValueTexts(entries: seq<(string, PyValue)>): (texts: seq<string>)
    ensures |texts| == |entries|
  {
    seq(|entries|, i requires 0 <= i < |entries| => ValueText(i, entries[i].1))
  }

  /** The statement create_scenario issues for a dict, in terms of its keys and value texts. */
  function CreateScenarioStatement(entries: seq<(string, PyValue)>): InsertStatement {
    InsertStatement(Join(Keys(entries)), Join(ValueTexts(entries)))
  }

  /** What one pass of create_scenario's loop appends, stated on the spec functions. */
  lemma CreateScenarioStep(entries: seq<(string, PyValue)>, i: nat)
    requires DistinctKeys(entries) && i < |entries|
    ensures IndexOf(Keys(entries), entries[i].0) == 0 <==> i == 0
    ensures Join(Keys(entries)[..i + 1]) ==
              if i == 0 then Join(Keys(entries)[..i]) + entries[i].0
              else Join(Keys(entries)[..i]) + (", " + entries[i].0)
    ensures Join(ValueTexts(entries)[..i + 1]) ==
              if i == 0 then Join(ValueTexts(entries)[..i]) + (if entries[i].1.PyNone? then "NULL" else "'" + Str(entries[i].1) + "'")
              else Join(ValueTexts(entries)[..i]) + (if entries[i].1.PyNone? then ", NULL" else ", " + Str(entries[i].1))
    ensures "scenario_id" in Keys(entries)[..i + 1] <==> "scenario_id" in Keys(entries)[..i] || entries[i].0 == "scenario_id"
  {
    var keys := Keys(entries);
    assert forall a, b :: 0 <= a < b < |keys| ==> keys[a] != keys[b];
    IndexOfDistinct(keys, i);
    JoinPrefixStep(keys, i);
    JoinPrefixStep(ValueTexts(entries), i);
    assert keys[..i + 1] == keys[..i] + [keys[i]];
  }

  lemma JoinPrefixStep(parts: seq<string>, i: nat)
    requires i < |parts|
    ensures Join(parts[..i + 1]) == if i == 0 then Join(parts[..i]) + parts[i] else Join(parts[..i]) + (", " + parts[i])
  {
    assert parts[..i + 1] == parts[..i] + [parts[i]];
    JoinSnoc(parts[..i], parts[i]);
    assert Join(parts[..i]) + ", " + parts[i] == Join(parts[..i]) + (", " + parts[i]);
  }

  /**
   * Builds the INSERT for the given column -> value dict by appending one
   * column name and one value text per key, in key order, and reports
   * whether the scenario_id warning was raised. The scenario_id column is
   * emitted like any other.
   */
  method CreateScenario(entries: seq<(string, PyValue)>) returns (statement: InsertStatement, warned: bool)
    requires DistinctKeys(entries)
    ensures warned <==> "scenario_id" in Keys(entries)
    ensures statement == CreateScenarioStatement(entries)
  {
    var keys := Keys(entries);
    var columnNames := "";
    var columnValues := "";
    warned := false;
    var i := 0;
    while i < |entries|
      invariant 0 <= i <= |entries|
      invariant columnNames == Join(keys[..i])
      invariant columnValues == Join(ValueTexts(entries)[..i])
      invariant warned <==> "scenario_id" in keys[..i]
      decreases |entries| - i
    {
      var name := entries[i].0;
      var value := entries[i].1;
      if name == "scenario_id" {
        warned := true;
      }
      CreateScenarioStep(entries, i);
      if IndexOf(keys, name) == 0 {
        columnNames := columnNames + name;
        columnValues := columnValues + (if value.PyNone? then "NULL" else "'" + Str(value) + "'");
      } else {
        columnNames := columnNames + (", " + name);
        columnValues := columnValues + (if value.PyNone? then ", NULL" else ", " + Str(value));
      }
      i := i + 1;
    }
    assert keys[..i] == keys;
    assert ValueTexts(entries)[..i] == ValueTexts(entries);
    statement := InsertStatement(columnNames, columnValues);
  }

  /**
   * Each key gets exactly one value text: the column and value lists have
   * the same length, the first value is quoted unless None, later string
   * values are not quoted, and None is written NULL.
   */
  lemma ColumnsMatchValues(entries: seq<(string, PyValue)>)
    ensures |Keys(entries)| == |ValueTexts(entries)| == |entries|
    ensures forall i :: 0 <= i < |entries| && entries[i].1.PyNone? ==> ValueTexts(entries)[i] == "NULL"
    ensures |entries| > 0 && entries[0].1.PyStr? ==> ValueTexts(entries)[0] == "'" + entries[0].1.s + "'"
    ensures forall i :: 0 < i < |entries| && entries[i].1.PyStr? ==> ValueTexts(entries)[i] == entries[i].1.s
  {
  }

  /**
   * Although the warning says scenario_id will be skipped, a scenario_id
   * key raises the warning (CreateScenario warns iff "scenario_id" is a
   * key) and still puts its column and its own value text into the
   * statement, at its own position, whatever the value is.
   */
  lemma ScenarioIdStillInserted(entries: seq<(string, PyValue)>, i: nat)
    requires i < |entries| && entries[i].0 == "scenario_id"
    ensures "scenario_id" in Keys(entries)
    ensures |Keys(entries)| == |ValueTexts(entries)| == |entries|
    ensures Keys(entries)[i] == "scenario_id"
    ensures ValueTexts(entries)[i] == ValueText(i, entries[i].1)
    ensures entries[i].1.PyInt? ==> ValueTexts(entries)[i] != "NULL"
    ensures entries[i].1.PyInt? && i > 0 ==> ValueTexts(entries)[i] == IntToString(entries[i].1.i)
  {
    var v := entries[i].1;
    assert Keys(entries)[i] == "scenario_id";
    if v.PyInt? {
      if i == 0 {
        assert ValueTexts(entries)[i][0] == '\'';
      } else {
        assert Str(v)[0] == '-' || IsDigit(Str(v)[0]);
      }
    }
  }

  // ---------------------------------------------------------------------
  // update_scenario_single_column / update_scenario_multiple_columns

  /** The SQL literal for an updated value: strings quoted, None as NULL, anything else bare. */
  function UpdateValueText(v: PyValue): (r: string)
    ensures v.PyStr? ==> r == "'" + v.s + "'"
    ensures v.PyInt? ==> r == Str(v)
    ensures r == "NULL" <==> v.PyNone?
  {
    match v
    case PyStr(s) =>
      assert ("'" + s + "'")[0] == '\'';
      "'" + s + "'"
    case PyNone => "NULL"
    case PyInt(_) =>
      assert Str(v)[0] != 'N';
      Str(v)
  }

  function UpdateScenarioSingleColumn(scenarioName: string, column: string, value: PyValue): (u: UpdateStatement)
    ensures u.column == column && u.scenarioName == scenarioName
    ensures value.PyStr? ==> u.value == "'" + value.s + "'"
    ensures value.PyInt? ==> u.value == Str(value)
    ensures u.value == "NULL" <==> value.PyNone?
  {
    UpdateStatement(column, UpdateValueText(value), scenarioName)
  }

  /** Issues one single-column update per key of the dict, in key order. */
  method UpdateScenarioMultipleColumns(scenarioName: string, entries: seq<(string, PyValue)>)
    returns (issued: seq<UpdateStatement>)
    ensures |issued| == |entries|
    ensures forall i :: 0 <= i < |entries| ==>
              issued[i] == UpdateScenarioSingleColumn(scenarioName, entries[i].0, entries[i].1)
  {
    issued := [];
    var i := 0;
    while i < |entries|
      invariant 0 <= i <= |entries|
      invariant |issued| == i
      invariant forall k :: 0 <= k < i ==> issued[k] == UpdateScenarioSingleColumn(scenarioName, entries[k].0, entries[k].1)
      decreases |entries| - i
    {
      var u := UpdateScenarioSingleColumn(scenarioName, entries[i].0, entries[i].1);
      ghost var before := issued;
      issued := issued + [u];
      forall k | 0 <= k < i + 1
        ensures issued[k] == UpdateScenarioSingleColumn(scenarioName, entries[k].0, entries[k].1)
      {
        if k < i {
          assert issued[k] == before[k];
        }
      }
      i := i + 1;
    }
  }

  // ---------------------------------------------------------------------
  // create_scenario_all_args

  /** Columns 0 to 17 of the all-arguments INSERT: the scenario name and the seventeen `of_` feature flags. */
  const FeatureFlags: seq<string> := [
      "scenario_name", "of_fuels", "of_multi_stage", "of_transmission",
      "of_transmission_hurdle_rates", "of_simultaneous_flow_limits", "of_lf_reserves_up",
      "of_lf_reserves_down", "of_regulation_up", "of_regulation_down", "of_frequency_response",
      "of_spinning_reserves", "of_rps", "of_carbon_cap", "of_track_carbon_imports", "of_prm",
      "of_local_capacity", "of_elcc_surface"
  ]

  /** Columns 18 to 29 of the all-arguments INSERT: the temporal, load-zone and zone scenario ids. */
  const ZoneScenarioIds: seq<string> := [
      "temporal_scenario_id", "load_zone_scenario_id", "lf_reserves_up_ba_scenario_id",
      "lf_reserves_down_ba_scenario_id", "regulation_up_ba_scenario_id",
      "regulation_down_ba_scenario_id", "frequency_response_ba_scenario_id",
      "spinning_reserves_ba_scenario_id", "rps_zone_scenario_id", "carbon_cap_zone_scenario_id",
      "prm_zone_scenario_id", "local_capacity_zone_scenario_id"
  ]

  /** Columns 30 to 52 of the all-arguments INSERT: the project and fuel scenario ids. */
  const ProjectScenarioIds: seq<string> := [
      "project_portfolio_scenario_id", "project_operational_chars_scenario_id",
      "project_availability_scenario_id", "fuel_scenario_id", "project_load_zone_scenario_id",
      "project_lf_reserves_up_ba_scenario_id", "project_lf_reserves_down_ba_scenario_id",
      "project_regulation_up_ba_scenario_id", "project_regulation_down_ba_scenario_id",
      "project_frequency_response_ba_scenario_id", "project_spinning_reserves_ba_scenario_id",
      "project_rps_zone_scenario_id", "project_carbon_cap_zone_scenario_id",
      "project_prm_zone_scenario_id", "project_elcc_chars_scenario_id",
      "prm_energy_only_scenario_id", "project_local_capacity_zone_scenario_id",
      "project_local_capacity_chars_scenario_id", "project_existing_capacity_scenario_id",
      "project_existing_fixed_cost_scenario_id", "fuel_price_scenario_id",
      "project_new_cost_scenario_id", "project_new_potential_scenario_id"
  ]

  /** Columns 53 to 60 of the all-arguments INSERT: the transmission scenario ids. */
  const TransmissionScenarioIds: seq<string> := [
      "transmission_portfolio_scenario_id", "transmission_load_zone_scenario_id",
      "transmission_existing_capacity_scenario_id", "transmission_operational_chars_scenario_id",
      "transmission_hurdle_rate_scenario_id", "transmission_carbon_cap_zone_scenario_id",
      "transmission_simultaneous_flow_limit_scenario_id",
      "transmission_simultaneous_flow_limit_line_group_scenario_id"
  ]

  /** Columns 61 to 73 of the all-arguments INSERT: the load, reserve, target and tuning scenario ids. */
  const RequirementScenarioIds: seq<string> := [
      "load_scenario_id", "lf_reserves_up_scenario_id", "lf_reserves_down_scenario_id",
      "regulation_up_scenario_id", "regulation_down_scenario_id", "frequency_response_scenario_id",
      "spinning_reserves_scenario_id", "rps_target_scenario_id", "carbon_cap_target_scenario_id",
      "prm_requirement_scenario_id", "elcc_surface_scenario_id",
      "local_capacity_requirement_scenario_id", "tuning_scenario_id"
  ]

  /** The column list of the all-arguments INSERT, in statement order. */
  const AllArgsColumns: seq<string> :=
    FeatureFlags + ZoneScenarioIds + ProjectScenarioIds + TransmissionScenarioIds + RequirementScenarioIds

  /** The VALUES placeholders: only the first (the scenario name) is quoted. */
  datatype Placeholder = Quoted | Bare

  function Bares(n: nat): (r: seq<Placeholder>)
    ensures |r| == n && forall i :: 0 <= i < n ==> r[i] == Bare
  {
    if n == 0 then [] else [Bare] + Bares(n - 1)
  }

  const AllArgsPlaceholders: seq<Placeholder> := [Quoted] + Bares(73)

  /**
   * The arguments passed positionally to format: the parameters of the
   * same names as the columns, in the same order.
   */
  const AllArgsFormatArguments: seq<string> := AllArgsColumns

  /** A placeholder filled with `str` of its argument. */
  function Fill(p: Placeholder, v: PyValue): string {
    match p
    case Quoted => "'" + Str(v) + "'"
    case Bare => Str(v)
  }

  /** The filled VALUES entries, one per placeholder. */
  function AllArgsValueTexts(args: map<string, PyValue>): (texts: seq<string>)
    requires forall k :: 0 <= k < |AllArgsFormatArguments| ==> AllArgsFormatArguments[k] in args
    ensures |texts| == |AllArgsPlaceholders|
  {
    seq(|AllArgsPlaceholders|, i requires 0 <= i < |AllArgsPlaceholders| =>
      Fill(AllArgsPlaceholders[i], args[AllArgsFormatArguments[i]]))
  }

  /** The statement create_scenario_all_args issues; `args` maps parameter names to arguments. */
  function AllArgsStatement(args: map<string, PyValue>): InsertStatement
    requires forall k :: 0 <= k < |AllArgsFormatArguments| ==> AllArgsFormatArguments[k] in args
  {
    InsertStatement(Join(AllArgsColumns), Join(AllArgsValueTexts(args)))
  }

  /**
   * The three lists line up: 74 columns, 74 placeholders and 74 format
   * arguments, with the scenario name first.
   */
  lemma AllArgsAligned()
    ensures |AllArgsColumns| == |AllArgsPlaceholders| == |AllArgsFormatArguments| == 74
    ensures AllArgsColumns[0] == "scenario_name"
  {
  }

  /** Only the scenario name's placeholder is quoted. */
  lemma AllArgsQuoting()
    ensures |AllArgsPlaceholders| == 74
    ensures forall i :: 0 <= i < 74 ==> (AllArgsPlaceholders[i] == Quoted <==> i == 0)
  {
  }

  /** The dict create_scenario would receive for the same arguments, in column order. */
  function AllArgsEntries(args: map<string, PyValue>): (entries: seq<(string, PyValue)>)
    requires forall k :: 0 <= k < |AllArgsColumns| ==> AllArgsColumns[k] in args
    ensures |entries| == |AllArgsColumns|
  {
    seq(|AllArgsColumns|, i requires 0 <= i < |AllArgsColumns| => (AllArgsColumns[i], args[AllArgsColumns[i]]))
  }

  /**
   * With no None argument, create_scenario_all_args and create_scenario on
   * the same values in column order issue the same statement.
   */
  lemma AllArgsAgreesWithCreateScenario(args: map<string, PyValue>)
    requires forall k :: 0 <= k < |AllArgsColumns| ==> AllArgsColumns[k] in args && !args[AllArgsColumns[k]].PyNone?
    ensures AllArgsStatement(args) == CreateScenarioStatement(AllArgsEntries(args))
  {
    AllArgsAligned();
    AllArgsQuoting();
    var entries := AllArgsEntries(args);
    assert Keys(entries) == AllArgsColumns;
    forall i | 0 <= i < 74 ensures AllArgsValueTexts(args)[i] == ValueTexts(entries)[i] {
    }
    assert AllArgsValueTexts(args) == ValueTexts(entries);
  }

  /**
   * Unlike create_scenario, a None argument is not written NULL: `str`
   * turns it into the text None (quoted for the scenario name).
   */
  lemma AllArgsWritesNoneAsText(args: map<string, PyValue>, i: nat)
    requires forall k :: 0 <= k < |AllArgsColumns| ==> AllArgsColumns[k] in args
    requires i < |AllArgsColumns| && args[AllArgsColumns[i]].PyNone?
    ensures AllArgsValueTexts(args)[i] == if i == 0 then "'None'" else "None"
    ensures ValueTexts(AllArgsEntries(args))[i] == "NULL"
  {
    AllArgsAligned();
    AllArgsQuoting();
  }
}
