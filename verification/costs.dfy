/**
 * Operational costs of projects: variable O&M, fuel, startup and shutdown
 * costs, and the staged import of the four cost result tables.
 *
 * Pyomo parameters and variables are plain total functions; the
 * operational-type modules (which supply the fuel burn and the startup and
 * shutdown expressions) are values in a map keyed by operational type.
 */
module Costs {
  import opened Wrappers
  import opened Staging

  /** The model parameters the cost rules read. */
  datatype Inputs = Inputs(
    operationalType: string -> string,
    fuel: string -> string,
    period: int -> int,
    horizon: int -> int,
    month: int -> int,
    firstHorizonTimepoint: int -> int,
    boundary: int -> string,
    fuelPricePerMmbtu: (string, int, int) -> real,
    variableOmCostPerMwh: string -> real,
    startupCostPerUnit: string -> real,
    shutdownCostPerUnit: string -> real)

  /**
   * The rules one operational-type module offers to this module. A module
   * may lack a fuel burn rule; a rule it has may raise, with a message.
   */
  datatype FuelBurnRule = Undefined | Defined(burn: (string, int) -> Result<real, string>)

  datatype OperationalTypeModule = OperationalTypeModule(
    fuelBurn: FuelBurnRule,
    startup: (string, int) -> Result<real, string>,
    shutdown: (string, int) -> Result<real, string>)

  datatype CostError =
    | UnknownOperationalType(operationalType: string)  // no module imported for this type
    | NoFuelBurnRule(operationalType: string)          // the module defines no fuel_burn_rule
    | RuleRaised(message: string)                       // the module's rule raised

  // ---------------------------------------------------------------------
  // Variable O&M

  /** Variable O&M cost of project g at timepoint tmp. */
  function VariableOmCost(inputs: Inputs, powerProvisionMw: (string, int) -> real, g: string, tmp: int): (cost: real)
    ensures powerProvisionMw(g, tmp) >= 0.0 && inputs.variableOmCostPerMwh(g) >= 0.0 ==> cost >= 0.0
    ensures powerProvisionMw(g, tmp) == 0.0 || inputs.variableOmCostPerMwh(g) == 0.0 ==> cost == 0.0
  {
    powerProvisionMw(g, tmp) * inputs.variableOmCostPerMwh(g)
  }

  /**
   * The cost is linear in the power provided: no output costs nothing, and
   * with a non-negative rate, more output never costs less.
   */
  lemma VariableOmCostMonotone(inputs: Inputs, power1: (string, int) -> real, power2: (string, int) -> real, g: string, tmp: int)
    requires inputs.variableOmCostPerMwh(g) >= 0.0
    requires 0.0 <= power1(g, tmp) <= power2(g, tmp)
    ensures 0.0 <= VariableOmCost(inputs, power1, g, tmp) <= VariableOmCost(inputs, power2, g, tmp)
    ensures power1(g, tmp) == 0.0 ==> VariableOmCost(inputs, power1, g, tmp) == 0.0
  {
    var rate := inputs.variableOmCostPerMwh(g);
    assert power1(g, tmp) * rate <= power2(g, tmp) * rate by {
      assert (power2(g, tmp) - power1(g, tmp)) * rate >= 0.0;
    }
  }

  // ---------------------------------------------------------------------
  // Rule dispatch through the operational-type modules

  /** The price of g's fuel in the period of tmp and the month of tmp's horizon. */
  function FuelPrice(inputs: Inputs, g: string, tmp: int): real {
    inputs.fuelPricePerMmbtu(inputs.fuel(g), inputs.period(tmp), inputs.month(inputs.horizon(tmp)))
  }

  /** The cost of burning `mmbtu` of fuel at a price per MMBtu. */
  function BurnCost(mmbtu: real, pricePerMmbtu: real): real {
    mmbtu * pricePerMmbtu
  }

  /**
   * Fuel cost of project g at timepoint tmp: the fuel burn from g's
   * operational-type module times the price of g's fuel in the period of
   * tmp and the month of tmp's horizon.
   */
  function FuelCost(modules: map<string, OperationalTypeModule>, inputs: Inputs, g: string, tmp: int): (r: Result<real, CostError>)
    ensures inputs.operationalType(g) !in modules ==> r == Failure(UnknownOperationalType(inputs.operationalType(g)))
    ensures inputs.operationalType(g) in modules && modules[inputs.operationalType(g)].fuelBurn.Undefined? ==>
      r == Failure(NoFuelBurnRule(inputs.operationalType(g)))
    ensures inputs.operationalType(g) in modules && modules[inputs.operationalType(g)].fuelBurn.Defined? ==>
      var burn := modules[inputs.operationalType(g)].fuelBurn.burn(g, tmp);
      && (burn.Failure? ==> r == Failure(RuleRaised(burn.error)))
      && (burn.Success? ==> r == Success(burn.value * FuelPrice(inputs, g, tmp)))
    ensures r.Success? <==>
      && inputs.operationalType(g) in modules
      && modules[inputs.operationalType(g)].fuelBurn.Defined?
      && modules[inputs.operationalType(g)].fuelBurn.burn(g, tmp).Success?
  {
    var t := inputs.operationalType(g);
    if t !in modules then Failure(UnknownOperationalType(t))
    else if modules[t].fuelBurn.Undefined? then Failure(NoFuelBurnRule(t))
    else
      var burn := modules[t].fuelBurn.burn(g, tmp);
      if burn.Failure? then Failure(RuleRaised(burn.error))
      else Success(BurnCost(burn.value, FuelPrice(inputs, g, tmp)))
  }

  /** The startup expression of g at tmp, taken from g's operational-type module. */
  function StartupExpression(modules: map<string, OperationalTypeModule>, inputs: Inputs, g: string, tmp: int): (r: Result<real, CostError>)
    ensures inputs.operationalType(g) !in modules ==> r == Failure(UnknownOperationalType(inputs.operationalType(g)))
    ensures inputs.operationalType(g) in modules ==>
      var x := modules[inputs.operationalType(g)].startup(g, tmp);
      && (x.Failure? ==> r == Failure(RuleRaised(x.error)))
      && (x.Success? ==> r == Success(x.value))
    ensures r.Success? <==> inputs.operationalType(g) in modules && modules[inputs.operationalType(g)].startup(g, tmp).Success?
  {
    var t := inputs.operationalType(g);
    if t !in modules then Failure(UnknownOperationalType(t))
    else
      var x := modules[t].startup(g, tmp);
      if x.Failure? then Failure(RuleRaised(x.error)) else Success(x.value)
  }

  /** The shutdown expression of g at tmp, taken from g's operational-type module. */
  function ShutdownExpression(modules: map<string, OperationalTypeModule>, inputs: Inputs, g: string, tmp: int): (r: Result<real, CostError>)
    ensures inputs.operationalType(g) !in modules ==> r == Failure(UnknownOperationalType(inputs.operationalType(g)))
    ensures inputs.operationalType(g) in modules ==>
      var x := modules[inputs.operationalType(g)].shutdown(g, tmp);
      && (x.Failure? ==> r == Failure(RuleRaised(x.error)))
      && (x.Success? ==> r == Success(x.value))
    ensures r.Success? <==> inputs.operationalType(g) in modules && modules[inputs.operationalType(g)].shutdown(g, tmp).Success?
  {
    var t := inputs.operationalType(g);
    if t !in modules then Failure(UnknownOperationalType(t))
    else
      var x := modules[t].shutdown(g, tmp);
      if x.Failure? then Failure(RuleRaised(x.error)) else Success(x.value)
  }

  /** Two module maps that agree on g's operational type. */
  ghost predicate AgreeOn(m1: map<string, OperationalTypeModule>, m2: map<string, OperationalTypeModule>, t: string) {
    (t in m1 <==> t in m2) && (t in m1 ==> m1[t] == m2[t])
  }

  /**
   * The fuel cost and the startup and shutdown expressions of g depend on
   * no module other than the one keyed by g's operational type.
   */
  lemma RulesComeFromOwnModule(m1: map<string, OperationalTypeModule>, m2: map<string, OperationalTypeModule>,
                               inputs: Inputs, g: string, tmp: int)
    requires AgreeOn(m1, m2, inputs.operationalType(g))
    ensures FuelCost(m1, inputs, g, tmp) == FuelCost(m2, inputs, g, tmp)
    ensures StartupExpression(m1, inputs, g, tmp) == StartupExpression(m2, inputs, g, tmp)
    ensures ShutdownExpression(m1, inputs, g, tmp) == ShutdownExpression(m2, inputs, g, tmp)
  {
  }

  // ---------------------------------------------------------------------
  // Startup and shutdown cost constraints

  /** A constraint rule's result: skipped, or cost >= bound. */
  datatype ConstraintRule = Skip | CostAtLeast(bound: real)

  /** The first timepoint of a linear horizon has no previous timepoint. */
  predicate StartsLinearHorizon(inputs: Inputs, tmp: int) {
    tmp == inputs.firstHorizonTimepoint(inputs.horizon(tmp)) && inputs.boundary(inputs.horizon(tmp)) == "linear"
  }

  /**
   * The startup (or shutdown) cost constraint at tmp for an expression
   * value and a per-unit cost: skipped exactly on the first timepoint of a
   * linear horizon, otherwise the cost must be at least expression times
   * the per-unit cost.
   */
  function CostConstraintRule(inputs: Inputs, tmp: int, expression: real, perUnitCost: real): (r: ConstraintRule)
    ensures r.Skip? <==> StartsLinearHorizon(inputs, tmp)
    ensures r.CostAtLeast? ==> r.bound == expression * perUnitCost
  {
    if StartsLinearHorizon(inputs, tmp) then Skip else CostAtLeast(expression * perUnitCost)
  }

  function StartupCostRule(inputs: Inputs, g: string, tmp: int, startupExpression: real): (r: ConstraintRule)
    ensures r.Skip? <==> StartsLinearHorizon(inputs, tmp)
    ensures r.CostAtLeast? ==> r.bound == startupExpression * inputs.startupCostPerUnit(g)
  {
    CostConstraintRule(inputs, tmp, startupExpression, inputs.startupCostPerUnit(g))
  }

  function ShutdownCostRule(inputs: Inputs, g: string, tmp: int, shutdownExpression: real): (r: ConstraintRule)
    ensures r.Skip? <==> StartsLinearHorizon(inputs, tmp)
    ensures r.CostAtLeast? ==> r.bound == shutdownExpression * inputs.shutdownCostPerUnit(g)
  {
    CostConstraintRule(inputs, tmp, shutdownExpression, inputs.shutdownCostPerUnit(g))
  }

  /** A cost value is feasible: non-negative (NonNegativeReals) and meeting the rule. */
  predicate Feasible(rule: ConstraintRule, cost: real) {
    cost >= 0.0 && (rule.CostAtLeast? ==> cost >= rule.bound)
  }

  function Max(a: real, b: real): real {
    if a >= b then a else b
  }

  /**
   * The feasible costs are exactly those at least max(0, expression times
   * per-unit cost) where the constraint applies, and exactly the
   * non-negative ones where it is skipped; a negative expression (units
   * shut down rather than started) therefore allows a zero cost.
   */
  lemma FeasibleCosts(inputs: Inputs, tmp: int, expression: real, perUnitCost: real, cost: real)
    ensures var rule := CostConstraintRule(inputs, tmp, expression, perUnitCost);
            Feasible(rule, cost) <==>
              if StartsLinearHorizon(inputs, tmp) then cost >= 0.0 else cost >= Max(0.0, expression * perUnitCost)
  {
  }

  // ---------------------------------------------------------------------
  // Importing the four cost result tables

  datatype CostKind = VariableOm | Fuel | Startup | Shutdown {
    /** The cost column of this kind's result table. */
    function CostColumn(): string {
      match this
      case VariableOm => "variable_om_cost"
      case Fuel => "fuel_cost"
      case Startup => "startup_cost"
      case Shutdown => "shutdown_cost"
    }
  }

  /** One row of costs_operations_<kind>.csv, in its column order. */
  datatype CostRecord = CostRecord(
    project: string, period: int, horizon: int, timepoint: int,
    horizonWeight: real, hoursInTimepoint: real,
    loadZone: string, technology: string, cost: real)

  function TempColumns(kind: CostKind): (c: seq<string>)
    ensures |c| == 10 && c[0] == "scenario_id" && c[1] == "project" && c[4] == "timepoint"
  {
    ["scenario_id", "project", "period", "horizon", "timepoint", "horizon_weight",
     "number_of_hours_in_timepoint", "load_zone", "technology", kind.CostColumn()]
  }

  function InsertedValues(sid: int, rec: CostRecord): (v: seq<Cell>)
    ensures |v| == 10
  {
    [IntCell(sid), TextCell(rec.project), IntCell(rec.period), IntCell(rec.horizon),
     IntCell(rec.timepoint), RealCell(rec.horizonWeight), RealCell(rec.hoursInTimepoint),
     TextCell(rec.loadZone), TextCell(rec.technology), RealCell(rec.cost)]
  }

  function StagedRow(kind: CostKind, sid: int, rec: CostRecord): Row {
    Zip(TempColumns(kind), InsertedValues(sid, rec))
  }

  function StagedRows(kind: CostKind, sid: int, records: seq<CostRecord>): (rows: seq<Row>)
    ensures |rows| == |records|
  {
    seq(|records|, i requires 0 <= i < |records| => StagedRow(kind, sid, records[i]))
  }

  predicate EndsWithCost(s: string) {
    |s| >= 4 && s[|s| - 4] == 'c' && s[|s| - 3] == 'o' && s[|s| - 2] == 's' && s[|s| - 1] == 't'
  }

  /** Only the last column name ends in "cost", so the column names are distinct. */
  lemma TempColumnsDistinct(kind: CostKind)
    ensures Distinct(TempColumns(kind))
  {
    var c := TempColumns(kind);
    assert EndsWithCost(c[9]);
    forall i | 0 <= i < 9 ensures !EndsWithCost(c[i]) {
    }
  }

  /**
   * Unlike the reserve-provision import, the values are listed in column
   * order: each stored row holds the record's own load zone and cost under
   * the key (scenario id, project, timepoint).
   */
  lemma StagedRowFields(kind: CostKind, sid: int, rec: CostRecord)
    ensures "load_zone" in StagedRow(kind, sid, rec) && kind.CostColumn() in StagedRow(kind, sid, rec)
    ensures KeyOf(StagedRow(kind, sid, rec)) == Key(sid, rec.project, rec.timepoint)
    ensures StagedRow(kind, sid, rec)["load_zone"] == TextCell(rec.loadZone)
    ensures StagedRow(kind, sid, rec)[kind.CostColumn()] == RealCell(rec.cost)
  {
    StagedRowAt(kind, sid, rec, 0);
    StagedRowAt(kind, sid, rec, 1);
    StagedRowAt(kind, sid, rec, 4);
    StagedRowAt(kind, sid, rec, 7);
    StagedRowAt(kind, sid, rec, 9);
  }

  /** Column i of the staged row holds value i of the VALUES list. */
  lemma StagedRowAt(kind: CostKind, sid: int, rec: CostRecord, i: nat)
    requires i < 10
    ensures TempColumns(kind)[i] in StagedRow(kind, sid, rec)
    ensures StagedRow(kind, sid, rec)[TempColumns(kind)[i]] == InsertedValues(sid, rec)[i]
  {
    TempColumnsDistinct(kind);
    ZipAt(TempColumns(kind), InsertedValues(sid, rec), i);
  }

  predicate DistinctProjectTimepoints(records: seq<CostRecord>) {
    forall i, j :: 0 <= i < j < |records| ==>
      (records[i].project, records[i].timepoint) != (records[j].project, records[j].timepoint)
  }

  lemma StagedRowsKeys(kind: CostKind, sid: int, records: seq<CostRecord>)
    ensures AllOfScenario(StagedRows(kind, sid, records), sid)
    ensures UniqueKeys(StagedRows(kind, sid, records)) <==> DistinctProjectTimepoints(records)
  {
    var rows := StagedRows(kind, sid, records);
    forall i | 0 <= i < |rows| ensures KeyOf(rows[i]) == Key(sid, records[i].project, records[i].timepoint) {
      StagedRowFields(kind, sid, records[i]);
    }
  }

  /**
   * A cost table's rows after the import reaches it (`reached`): imported
   * when its records have distinct keys, else emptied of the scenario; a
   * table the import never reaches is unchanged.
   */
  function TableAfter(rows: seq<Row>, sid: int, kind: CostKind, records: seq<CostRecord>, reached: bool): seq<Row> {
    if !reached then rows
    else if DistinctProjectTimepoints(records) then AfterImport(rows, sid, StagedRows(kind, sid, records))
    else WithoutScenario(rows, sid)
  }

  /**
   * A cost table's temporary tables after the import reaches it: the
   * scenario's temporary table dropped after a successful block, left
   * behind with the rows before the first repeated key after a failing one;
   * a table the import never reaches keeps its temporary tables.
   */
  function TempsAfter(temps: map<int, seq<Row>>, sid: int, kind: CostKind, records: seq<CostRecord>, reached: bool)
    : map<int, seq<Row>>
  {
    if reached then TempsAfterImport(temps, sid, StagedRows(kind, sid, records)) else temps
  }

  /**
   * A reached block drops the scenario's temporary table exactly when its
   * records have distinct keys; a leftover table holds a duplicate-free
   * prefix of the staged rows; other scenarios' temporary tables stay.
   */
  lemma TempsAfterReached(temps: map<int, seq<Row>>, sid: int, kind: CostKind, records: seq<CostRecord>)
    ensures var t := TempsAfter(temps, sid, kind, records, true);
            && (sid !in t <==> DistinctProjectTimepoints(records))
            && (sid in t ==> UniqueKeys(t[sid]) && t[sid] == StagedRows(kind, sid, records)[..|t[sid]|]
                             && |t[sid]| < |records|)
            && (forall other :: other != sid ==> (other in t <==> other in temps))
  {
    StagedRowsKeys(kind, sid, records);
  }

  /** One of the four staged blocks. */
  method ImportCostTable(sid: int, table: ResultTable, kind: CostKind, records: seq<CostRecord>)
    returns (outcome: Outcome<CostKind>)
    modifies table
    ensures outcome.Pass? <==> DistinctProjectTimepoints(records)
    ensures outcome.Fail? ==> outcome.error == kind
    ensures table.rows == TableAfter(old(table.rows), sid, kind, records, true)
    ensures outcome.Pass? ==> table.temps == old(table.temps) - {sid}
    ensures table.temps == TempsAfter(old(table.temps), sid, kind, records, true)
  {
    StagedRowsKeys(kind, sid, records);
    var staged := table.ImportScenario(sid, StagedRows(kind, sid, records));
    if staged.Fail? {
      return Fail(kind);
    }
    outcome := Pass;
  }

  /** The first table whose records repeat a key, in import order. */
  function FirstFailure(variableOm: seq<CostRecord>, fuel: seq<CostRecord>,
                        startup: seq<CostRecord>, shutdown: seq<CostRecord>): (r: Outcome<CostKind>)
    ensures r.Pass? <==>
      DistinctProjectTimepoints(variableOm) && DistinctProjectTimepoints(fuel)
      && DistinctProjectTimepoints(startup) && DistinctProjectTimepoints(shutdown)
  {
    if !DistinctProjectTimepoints(variableOm) then Fail(VariableOm)
    else if !DistinctProjectTimepoints(fuel) then Fail(Fuel)
    else if !DistinctProjectTimepoints(startup) then Fail(Startup)
    else if !DistinctProjectTimepoints(shutdown) then Fail(Shutdown)
    else Pass
  }

  /**
   * Imports the variable O&M, fuel, startup and shutdown results of
   * scenario `sid`, in that order, each into its own table. A failing
   * block stops the import: the tables after it are left as they were.
   * Each table's rows of other scenarios are never touched, and no
   * block changes another block's table.
   */
  method ImportResultsIntoDatabase(sid: int,
                                   variableOmTable: ResultTable, fuelTable: ResultTable,
                                   startupTable: ResultTable, shutdownTable: ResultTable,
                                   variableOm: seq<CostRecord>, fuel: seq<CostRecord>,
                                   startup: seq<CostRecord>, shutdown: seq<CostRecord>)
    returns (outcome: Outcome<CostKind>)
    requires variableOmTable != fuelTable && variableOmTable != startupTable && variableOmTable != shutdownTable
    requires fuelTable != startupTable && fuelTable != shutdownTable && startupTable != shutdownTable
    modifies variableOmTable, fuelTable, startupTable, shutdownTable
    ensures outcome == FirstFailure(variableOm, fuel, startup, shutdown)
    ensures variableOmTable.rows == TableAfter(old(variableOmTable.rows), sid, VariableOm, variableOm, true)
    ensures fuelTable.rows == TableAfter(old(fuelTable.rows), sid, Fuel, fuel,
                                         DistinctProjectTimepoints(variableOm))
    ensures startupTable.rows == TableAfter(old(startupTable.rows), sid, Startup, startup,
                                            DistinctProjectTimepoints(variableOm) && DistinctProjectTimepoints(fuel))
    ensures shutdownTable.rows == TableAfter(old(shutdownTable.rows), sid, Shutdown, shutdown,
                                             DistinctProjectTimepoints(variableOm) && DistinctProjectTimepoints(fuel)
                                             && DistinctProjectTimepoints(startup))
    ensures variableOmTable.temps == TempsAfter(old(variableOmTable.temps), sid, VariableOm, variableOm, true)
    ensures fuelTable.temps == TempsAfter(old(fuelTable.temps), sid, Fuel, fuel,
                                          DistinctProjectTimepoints(variableOm))
    ensures startupTable.temps == TempsAfter(old(startupTable.temps), sid, Startup, startup,
                                             DistinctProjectTimepoints(variableOm) && DistinctProjectTimepoints(fuel))
    ensures shutdownTable.temps == TempsAfter(old(shutdownTable.temps), sid, Shutdown, shutdown,
                                              DistinctProjectTimepoints(variableOm) && DistinctProjectTimepoints(fuel)
                                              && DistinctProjectTimepoints(startup))
  {
    outcome := ImportCostTable(sid, variableOmTable, VariableOm, variableOm);
    if outcome.Fail? {
      return;
    }
    outcome := ImportCostTable(sid, fuelTable, Fuel, fuel);
    if outcome.Fail? {
      return;
    }
    outcome := ImportCostTable(sid, startupTable, Startup, startup);
    if outcome.Fail? {
      return;
    }
    outcome := ImportCostTable(sid, shutdownTable, Shutdown, shutdown);
  }

  /**
   * Whatever happens, a table's rows for any other scenario are those it
   * had before the import.
   */
  lemma OtherScenariosUntouched(rows: seq<Row>, sid: int, kind: CostKind, records: seq<CostRecord>,
                                reached: bool, other: int)
    requires other != sid
    ensures ScenarioRows(TableAfter(rows, sid, kind, records, reached), other) == ScenarioRows(rows, other)
  {
    if reached {
      if DistinctProjectTimepoints(records) {
        StagedRowsKeys(kind, sid, records);
        ImportKeepsOtherScenarios(rows, sid, StagedRows(kind, sid, records), other);
      } else {
        OtherScenarioSurvivesDelete(rows, sid, other);
      }
    }
  }

  /**
   * A table the import reached holds, for the scenario, either exactly its
   * staged rows in key order or, after a repeated key, nothing at all.
   */
  lemma ScenarioRowsAfterImport(rows: seq<Row>, sid: int, kind: CostKind, records: seq<CostRecord>)
    ensures var after := ScenarioRows(TableAfter(rows, sid, kind, records, true), sid);
            && (DistinctProjectTimepoints(records) ==> after == SortByKey(StagedRows(kind, sid, records)) && SortedByKey(after))
            && (!DistinctProjectTimepoints(records) ==> after == [])
  {
    if DistinctProjectTimepoints(records) {
      StagedRowsKeys(kind, sid, records);
      ImportReplacesScenarioRows(rows, sid, StagedRows(kind, sid, records));
    } else {
      DeleteEmptiesScenario(rows, sid);
    }
  }
}
