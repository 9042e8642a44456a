/**
 * The carbon-cap balance (gridpath/system/policy/carbon_cap/carbon_balance.py):
 * total emissions as the sum of the registered emission components, the
 * cap constraint in tons against a target in MMT, the MMT export, the dual
 * bookkeeping and the updates of results_system_carbon_emissions.
 */
module CarbonBalance {
  import opened Wrappers
  import opened Staging

  // ---------------------------------------------------------------------
  // Emissions and the cap

  /**
   * Total_Carbon_Emissions_from_All_Sources_Expression at (z, p): the sum,
   * over the registered component names, of that component at (z, p).
   */
  function TotalEmissions(components: seq<string>, component: (string, string, int) -> real,
                          z: string, p: int): real
    decreases |components|
  {
    if components == [] then 0.0
    else TotalEmissions(components[..|components| - 1], component, z, p)
         + component(components[|components| - 1], z, p)
  }

  /** An empty registry sums to 0; registering one more component adds its value. */
  lemma TotalEmissionsSteps(components: seq<string>, c: string, component: (string, string, int) -> real,
                            z: string, p: int)
    ensures TotalEmissions([], component, z, p) == 0.0
    ensures TotalEmissions(components + [c], component, z, p)
            == TotalEmissions(components, component, z, p) + component(c, z, p)
  {
    assert (components + [c])[..|components|] == components;
  }

  /** Emissions components are only read through the registry: unlisted components do not matter. */
  lemma {:induction false} TotalEmissionsReadsRegistryOnly(components: seq<string>,
                                                           a: (string, string, int) -> real,
                                                           b: (string, string, int) -> real,
                                                           z: string, p: int)
    requires forall k :: 0 <= k < |components| ==> a(components[k], z, p) == b(components[k], z, p)
    ensures TotalEmissions(components, a, z, p) == TotalEmissions(components, b, z, p)
    decreases |components|
  {
    if components != [] {
      TotalEmissionsReadsRegistryOnly(components[..|components| - 1], a, b, z, p);
    }
  }

  const TonsPerMmt: real := 1000000.0

  /** Carbon_Cap_Constraint at (z, p): total tons at most the MMT target converted to tons. */
  predicate CarbonCapTarget(totalTons: real, targetMmt: real) {
    totalTons <= targetMmt * TonsPerMmt
  }

  /** The carbon_emissions_mmt column of carbon_cap.csv: total tons over 10^6. */
  function ExportedEmissionsMmt(totalTons: real): (mmt: real)
    ensures mmt * TonsPerMmt == totalTons
  {
    totalTons / TonsPerMmt
  }

  /**
   * The constraint holds iff the exported MMT figure is at most the target:
   * the export undoes the conversion the constraint applies.
   */
  lemma CapHoldsIffExportWithinTarget(totalTons: real, targetMmt: real)
    ensures CarbonCapTarget(totalTons, targetMmt) <==> ExportedEmissionsMmt(totalTons) <= targetMmt
    ensures ExportedEmissionsMmt(targetMmt * TonsPerMmt) == targetMmt
  {
  }

  // ---------------------------------------------------------------------
  // Duals

  /** The model's table of dual-export column names, keyed by constraint name. */
  class DualsRegistry {
    var constraintIndices: map<string, seq<string>>

    constructor (initial: map<string, seq<string>>)
      ensures constraintIndices == initial
    {
      constraintIndices := initial;
    }

    /** `save_duals`: register the columns of Carbon_Cap_Constraint's dual export. */
    method SaveDuals()
      modifies this
      ensures constraintIndices == old(constraintIndices)["Carbon_Cap_Constraint" := ["carbon_cap_zone", "period", "dual"]]
      ensures forall k :: k in old(constraintIndices) && k != "Carbon_Cap_Constraint" ==>
                k in constraintIndices && constraintIndices[k] == old(constraintIndices)[k]
    {
      constraintIndices := constraintIndices["Carbon_Cap_Constraint" := ["carbon_cap_zone", "period", "dual"]];
    }
  }

  // ---------------------------------------------------------------------
  // results_system_carbon_emissions

  /** A row of results_system_carbon_emissions; NULL is None. */
  datatype EmissionsRow = EmissionsRow(
    scenarioId: int, carbonCapZone: string, period: int,
    totalEmissionsMmt: Option<real>, discountFactor: Option<real>,
    numberYearsRepresented: Option<real>, dual: Option<real>,
    carbonCapMarginalCostPerMmt: Option<real>)

  /** The values one carbon_cap.csv row writes into its (zone, period) row. */
  datatype EmissionsUpdate = EmissionsUpdate(
    zone: string, period: int, discountFactor: real, numberYears: real, totalEmissionsMmt: real)

  /** The value one Carbon_Cap_Constraint.csv row writes into its (zone, period) row. */
  datatype DualUpdate = DualUpdate(zone: string, period: int, dual: real)

  /** Where a results file cannot be read: a missing header or an unusable cell. */
  datatype ImportError = MissingHeader(file: string) | BadRow(file: string, line: nat)

  predicate AtKey(r: EmissionsRow, sid: int, zone: string, period: int) {
    r.scenarioId == sid && r.carbonCapZone == zone && r.period == period
  }

  /** The rows after `SET total_emissions_mmt = NULL WHERE scenario_id = sid`. */
  function ResetTotals(rows: seq<EmissionsRow>, sid: int): (r: seq<EmissionsRow>)
    ensures |r| == |rows|
    ensures forall i :: 0 <= i < |rows| ==> r[i].scenarioId == rows[i].scenarioId
    ensures forall i :: 0 <= i < |rows| && rows[i].scenarioId != sid ==> r[i] == rows[i]
    ensures forall i :: 0 <= i < |rows| && rows[i].scenarioId == sid ==>
              r[i].totalEmissionsMmt.None? && r[i] == rows[i].(totalEmissionsMmt := None)
  {
    seq(|rows|, i requires 0 <= i < |rows| =>
      if rows[i].scenarioId == sid then rows[i].(totalEmissionsMmt := None) else rows[i])
  }

  /** The rows after one carbon_cap.csv row's UPDATE. */
  function ApplyEmissions(rows: seq<EmissionsRow>, sid: int, u: EmissionsUpdate): (r: seq<EmissionsRow>)
    ensures |r| == |rows|
    ensures forall i :: 0 <= i < |rows| && !AtKey(rows[i], sid, u.zone, u.period) ==> r[i] == rows[i]
    ensures forall i :: 0 <= i < |rows| && AtKey(rows[i], sid, u.zone, u.period) ==>
              r[i] == rows[i].(totalEmissionsMmt := Some(u.totalEmissionsMmt),
                               discountFactor := Some(u.discountFactor),
                               numberYearsRepresented := Some(u.numberYears))
  {
    seq(|rows|, i requires 0 <= i < |rows| =>
      if AtKey(rows[i], sid, u.zone, u.period)
      then rows[i].(totalEmissionsMmt := Some(u.totalEmissionsMmt),
                    discountFactor := Some(u.discountFactor),
                    numberYearsRepresented := Some(u.numberYears))
      else rows[i])
  }

  /** The rows after one Carbon_Cap_Constraint.csv row's UPDATE. */
  function ApplyDual(rows: seq<EmissionsRow>, sid: int, u: DualUpdate): (r: seq<EmissionsRow>)
    ensures |r| == |rows|
    ensures forall i :: 0 <= i < |rows| && !AtKey(rows[i], sid, u.zone, u.period) ==> r[i] == rows[i]
    ensures forall i :: 0 <= i < |rows| && AtKey(rows[i], sid, u.zone, u.period) ==>
              r[i] == rows[i].(dual := Some(u.dual))
  {
    seq(|rows|, i requires 0 <= i < |rows| =>
      if AtKey(rows[i], sid, u.zone, u.period) then rows[i].(dual := Some(u.dual)) else rows[i])
  }

  /**
   * `dual / (discount_factor * number_years_represented)` under SQL rules:
   * NULL when an operand is NULL or the divisor is zero.
   */
  function MarginalCost(dual: Option<real>, discountFactor: Option<real>, numberYears: Option<real>)
    : (r: Option<real>)
    ensures r.Some? <==> dual.Some? && discountFactor.Some? && numberYears.Some?
                         && discountFactor.value * numberYears.value != 0.0
    ensures r.Some? ==> r.value * (discountFactor.value * numberYears.value) == dual.value
  {
    if dual.None? || discountFactor.None? || numberYears.None? then None
    else if discountFactor.value * numberYears.value == 0.0 then None
    else Some(dual.value / (discountFactor.value * numberYears.value))
  }

  /** The rows after the marginal-cost UPDATE of scenario `sid`. */
  function ApplyMarginalCosts(rows: seq<EmissionsRow>, sid: int): (r: seq<EmissionsRow>)
    ensures |r| == |rows|
    ensures forall i :: 0 <= i < |rows| && rows[i].scenarioId != sid ==> r[i] == rows[i]
    ensures forall i :: 0 <= i < |rows| && rows[i].scenarioId == sid ==>
              r[i] == rows[i].(carbonCapMarginalCostPerMmt :=
                MarginalCost(rows[i].dual, rows[i].discountFactor, rows[i].numberYearsRepresented))
  {
    seq(|rows|, i requires 0 <= i < |rows| =>
      if rows[i].scenarioId == sid
      then rows[i].(carbonCapMarginalCostPerMmt :=
             MarginalCost(rows[i].dual, rows[i].discountFactor, rows[i].numberYearsRepresented))
      else rows[i])
  }

  /** Two row lists that agree on every row outside scenario `sid`. */
  predicate SameOutside(a: seq<EmissionsRow>, b: seq<EmissionsRow>, sid: int) {
    |a| == |b|
    && (forall i :: 0 <= i < |a| ==> a[i].scenarioId == b[i].scenarioId)
    && (forall i :: 0 <= i < |a| && a[i].scenarioId != sid ==> a[i] == b[i])
  }

  lemma SameOutsideTransitive(a: seq<EmissionsRow>, b: seq<EmissionsRow>, c: seq<EmissionsRow>, sid: int)
    requires SameOutside(a, b, sid) && SameOutside(b, c, sid)
    ensures SameOutside(a, c, sid)
  {
  }

  // ---------------------------------------------------------------------
  // Reading the two results files

  /** The number in a cell. */
  function Number(c: Cell): Option<real> {
    match c
    case IntCell(i) => Some(i as real)
    case RealCell(x) => Some(x)
    case TextCell(_) => None
  }

  /**
   * A carbon_cap.csv data row: zone, period, discount factor, years
   * represented, target, emissions in MMT. The update takes the emissions
   * from index 5 and does not read the target at index 4.
   */
  function ParseEmissionsRow(row: seq<Cell>): (u: Option<EmissionsUpdate>)
    ensures u.Some? ==> |row| >= 6 && row[0] == TextCell(u.value.zone) && row[1] == IntCell(u.value.period)
                        && Number(row[2]) == Some(u.value.discountFactor)
                        && Number(row[3]) == Some(u.value.numberYears)
                        && Number(row[5]) == Some(u.value.totalEmissionsMmt)
    ensures u.None? <==> |row| < 6 || !row[0].TextCell? || !row[1].IntCell?
                         || Number(row[2]).None? || Number(row[3]).None? || Number(row[5]).None?
  {
    if |row| < 6 || !row[0].TextCell? || !row[1].IntCell? then None
    else match (Number(row[2]), Number(row[3]), Number(row[5]))
      case (Some(df), Some(ny), Some(mmt)) => Some(EmissionsUpdate(row[0].s, row[1].i, df, ny, mmt))
      case _ => None
  }

  /** A Carbon_Cap_Constraint.csv data row: zone, period, dual. */
  function ParseDualRow(row: seq<Cell>): (u: Option<DualUpdate>)
    ensures u.Some? ==> |row| >= 3 && row[0] == TextCell(u.value.zone) && row[1] == IntCell(u.value.period)
                        && Number(row[2]) == Some(u.value.dual)
    ensures u.None? <==> |row| < 3 || !row[0].TextCell? || !row[1].IntCell? || Number(row[2]).None?
  {
    if |row| < 3 || !row[0].TextCell? || !row[1].IntCell? then None
    else match Number(row[2])
      case Some(d) => Some(DualUpdate(row[0].s, row[1].i, d))
      case None => None
  }

  /** The emissions updates of the data rows, applied in order. */
  function ApplyEmissionsRows(rows: seq<EmissionsRow>, sid: int, updates: seq<EmissionsUpdate>)
    : (r: seq<EmissionsRow>)
    ensures SameOutside(rows, r, sid)
    decreases |updates|
  {
    if updates == [] then rows
    else ApplyEmissionsRows(ApplyEmissions(rows, sid, updates[0]), sid, updates[1..])
  }

  /** The dual updates of the data rows, applied in order. */
  function ApplyDualRows(rows: seq<EmissionsRow>, sid: int, updates: seq<DualUpdate>)
    : (r: seq<EmissionsRow>)
    ensures SameOutside(rows, r, sid)
    decreases |updates|
  {
    if updates == [] then rows
    else ApplyDualRows(ApplyDual(rows, sid, updates[0]), sid, updates[1..])
  }

  /** The parsed data rows of carbon_cap.csv, or the first line that cannot be used. */
  function ParseEmissionsFile(lines: seq<seq<Cell>>): Result<seq<EmissionsUpdate>, ImportError> {
    if lines == [] then Failure(MissingHeader("carbon_cap.csv"))
    else ParseEmissionsLines(lines, 1)
  }

  function ParseEmissionsLines(lines: seq<seq<Cell>>, k: nat): (r: Result<seq<EmissionsUpdate>, ImportError>)
    requires 1 <= k <= |lines|
    ensures r.Success? ==> |r.value| == |lines| - k
    ensures r.Failure? ==> r.error.BadRow? && k <= r.error.line < |lines|
    decreases |lines| - k
  {
    if k == |lines| then Success([])
    else match ParseEmissionsRow(lines[k])
      case None => Failure(BadRow("carbon_cap.csv", k))
      case Some(u) =>
        match ParseEmissionsLines(lines, k + 1)
        case Failure(e) => Failure(e)
        case Success(us) => Success([u] + us)
  }

  /** A parsable line k contributes its update ahead of the later lines'. */
  lemma ParseEmissionsLinesStep(lines: seq<seq<Cell>>, k: nat)
    requires 1 <= k < |lines| && ParseEmissionsRow(lines[k]).Some?
    ensures ParseEmissionsLines(lines, k).Success? <==> ParseEmissionsLines(lines, k + 1).Success?
    ensures ParseEmissionsLines(lines, k).Success? ==>
              ParseEmissionsLines(lines, k).value == [ParseEmissionsRow(lines[k]).value] + ParseEmissionsLines(lines, k + 1).value
  {
  }

  /** The parsed data rows of Carbon_Cap_Constraint.csv, or the first line that cannot be used. */
  function ParseDualsFile(lines: seq<seq<Cell>>): Result<seq<DualUpdate>, ImportError> {
    if lines == [] then Failure(MissingHeader("Carbon_Cap_Constraint.csv"))
    else ParseDualLines(lines, 1)
  }

  function ParseDualLines(lines: seq<seq<Cell>>, k: nat): (r: Result<seq<DualUpdate>, ImportError>)
    requires 1 <= k <= |lines|
    ensures r.Success? ==> |r.value| == |lines| - k
    ensures r.Failure? ==> r.error.BadRow? && k <= r.error.line < |lines|
    decreases |lines| - k
  {
    if k == |lines| then Success([])
    else match ParseDualRow(lines[k])
      case None => Failure(BadRow("Carbon_Cap_Constraint.csv", k))
      case Some(u) =>
        match ParseDualLines(lines, k + 1)
        case Failure(e) => Failure(e)
        case Success(us) => Success([u] + us)
  }

  /** A parsable line k contributes its update ahead of the later lines'. */
  lemma ParseDualLinesStep(lines: seq<seq<Cell>>, k: nat)
    requires 1 <= k < |lines| && ParseDualRow(lines[k]).Some?
    ensures ParseDualLines(lines, k).Success? <==> ParseDualLines(lines, k + 1).Success?
    ensures ParseDualLines(lines, k).Success? ==>
              ParseDualLines(lines, k).value == [ParseDualRow(lines[k]).value] + ParseDualLines(lines, k + 1).value
  {
  }

  /**
   * The updates of the usable data lines from line k up to the first line
   * that cannot be used: all of them when every line parses, otherwise one
   * per line before the failing one.
   */
  function EmissionsPrefix(lines: seq<seq<Cell>>, k: nat): (us: seq<EmissionsUpdate>)
    requires 1 <= k <= |lines|
    ensures ParseEmissionsLines(lines, k).Success? ==> us == ParseEmissionsLines(lines, k).value
    ensures ParseEmissionsLines(lines, k).Failure? ==> |us| == ParseEmissionsLines(lines, k).error.line - k
    ensures forall j :: 0 <= j < |us| ==> ParseEmissionsRow(lines[k + j]) == Some(us[j])
    decreases |lines| - k
  {
    if k == |lines| then []
    else match ParseEmissionsRow(lines[k])
      case None => []
      case Some(u) => [u] + EmissionsPrefix(lines, k + 1)
  }

  /** The dual-file counterpart of EmissionsPrefix. */
  function DualPrefix(lines: seq<seq<Cell>>, k: nat): (us: seq<DualUpdate>)
    requires 1 <= k <= |lines|
    ensures ParseDualLines(lines, k).Success? ==> us == ParseDualLines(lines, k).value
    ensures ParseDualLines(lines, k).Failure? ==> |us| == ParseDualLines(lines, k).error.line - k
    ensures forall j :: 0 <= j < |us| ==> ParseDualRow(lines[k + j]) == Some(us[j])
    decreases |lines| - k
  {
    if k == |lines| then []
    else match ParseDualRow(lines[k])
      case None => []
      case Some(u) => [u] + DualPrefix(lines, k + 1)
  }

  /**
   * The rows after reading carbon_cap.csv, whether or not it parses: the
   * updates of the lines before the first unusable one have been applied
   * (an empty file applies nothing).
   */
  function AfterEmissionsFile(rows: seq<EmissionsRow>, sid: int, lines: seq<seq<Cell>>): seq<EmissionsRow> {
    if lines == [] then rows else ApplyEmissionsRows(rows, sid, EmissionsPrefix(lines, 1))
  }

  /** The rows after reading Carbon_Cap_Constraint.csv, whether or not it parses. */
  function AfterDualsFile(rows: seq<EmissionsRow>, sid: int, lines: seq<seq<Cell>>): seq<EmissionsRow> {
    if lines == [] then rows else ApplyDualRows(rows, sid, DualPrefix(lines, 1))
  }

  /** The table after a complete import of scenario `sid`. */
  function TableAfterImport(rows: seq<EmissionsRow>, sid: int, emissions: seq<EmissionsUpdate>, duals: seq<DualUpdate>)
    : seq<EmissionsRow>
  {
    ApplyMarginalCosts(ApplyDualRows(ApplyEmissionsRows(ResetTotals(rows, sid), sid, emissions), sid, duals), sid)
  }

  lemma AppendShift<T>(applied: seq<T>, u: T, rest: seq<T>)
    ensures applied + ([u] + rest) == (applied + [u]) + rest
  {
  }

  /** results_system_carbon_emissions, updated in place by the import. */
  class ResultsSystemCarbonEmissions {
    var rows: seq<EmissionsRow>

    constructor (initial: seq<EmissionsRow>)
      ensures rows == initial
    {
      rows := initial;
    }

    /** Reads a results file's data rows and applies each emissions update in turn. */
    method UpdateEmissions(sid: int, lines: seq<seq<Cell>>) returns (outcome: Outcome<ImportError>)
      modifies this
      ensures SameOutside(old(rows), rows, sid)
      ensures outcome.Pass? <==> ParseEmissionsFile(lines).Success?
      ensures outcome.Pass? ==> rows == ApplyEmissionsRows(old(rows), sid, ParseEmissionsFile(lines).value)
      ensures rows == AfterEmissionsFile(old(rows), sid, lines)
    {
      if lines == [] {
        return Fail(MissingHeader("carbon_cap.csv"));
      }
      var k := 1;
      ghost var applied: seq<EmissionsUpdate> := [];
      while k < |lines|
        invariant 1 <= k <= |lines|
        invariant rows == ApplyEmissionsRows(old(rows), sid, applied)
        invariant ParseEmissionsLines(lines, 1).Success? <==> ParseEmissionsLines(lines, k).Success?
        invariant ParseEmissionsLines(lines, k).Success? ==>
                    ParseEmissionsLines(lines, 1).value == applied + ParseEmissionsLines(lines, k).value
        invariant EmissionsPrefix(lines, 1) == applied + EmissionsPrefix(lines, k)
        decreases |lines| - k
      {
        var u := ParseEmissionsRow(lines[k]);
        if u.None? {
          assert applied + [] == applied;
          return Fail(BadRow("carbon_cap.csv", k));
        }
        rows := ApplyEmissions(rows, sid, u.value);
        ApplyEmissionsRowsSnoc(old(rows), sid, applied, u.value);
        ParseEmissionsLinesStep(lines, k);
        AppendShift(applied, u.value, if ParseEmissionsLines(lines, k + 1).Success? then ParseEmissionsLines(lines, k + 1).value else []);
        AppendShift(applied, u.value, EmissionsPrefix(lines, k + 1));
        applied := applied + [u.value];
        k := k + 1;
      }
      assert ParseEmissionsLines(lines, k).value == [];
      assert applied + [] == applied;
      outcome := Pass;
    }

    /** Reads the duals file's data rows and applies each dual update in turn. */
    method UpdateDuals(sid: int, lines: seq<seq<Cell>>) returns (outcome: Outcome<ImportError>)
      modifies this
      ensures SameOutside(old(rows), rows, sid)
      ensures outcome.Pass? <==> ParseDualsFile(lines).Success?
      ensures outcome.Pass? ==> rows == ApplyDualRows(old(rows), sid, ParseDualsFile(lines).value)
      ensures rows == AfterDualsFile(old(rows), sid, lines)
    {
      if lines == [] {
        return Fail(MissingHeader("Carbon_Cap_Constraint.csv"));
      }
      var k := 1;
      ghost var applied: seq<DualUpdate> := [];
      while k < |lines|
        invariant 1 <= k <= |lines|
        invariant rows == ApplyDualRows(old(rows), sid, applied)
        invariant ParseDualLines(lines, 1).Success? <==> ParseDualLines(lines, k).Success?
        invariant ParseDualLines(lines, k).Success? ==>
                    ParseDualLines(lines, 1).value == applied + ParseDualLines(lines, k).value
        invariant DualPrefix(lines, 1) == applied + DualPrefix(lines, k)
        decreases |lines| - k
      {
        var u := ParseDualRow(lines[k]);
        if u.None? {
          assert applied + [] == applied;
          return Fail(BadRow("Carbon_Cap_Constraint.csv", k));
        }
        rows := ApplyDual(rows, sid, u.value);
        ApplyDualRowsSnoc(old(rows), sid, applied, u.value);
        ParseDualLinesStep(lines, k);
        AppendShift(applied, u.value, if ParseDualLines(lines, k + 1).Success? then ParseDualLines(lines, k + 1).value else []);
        AppendShift(applied, u.value, DualPrefix(lines, k + 1));
        applied := applied + [u.value];
        k := k + 1;
      }
      assert ParseDualLines(lines, k).value == [];
      assert applied + [] == applied;
      outcome := Pass;
    }

    /**
     * `import_results_into_database`: NULL the scenario's totals, apply
     * carbon_cap.csv, apply the duals, then compute the marginal costs. Rows
     * of other scenarios never change, whether or not a file is unusable.
     */
    method ImportResultsIntoDatabase(sid: int, emissionsLines: seq<seq<Cell>>, dualLines: seq<seq<Cell>>)
      returns (outcome: Outcome<ImportError>)
      modifies this
      ensures SameOutside(old(rows), rows, sid)
      ensures outcome.Pass? <==> ParseEmissionsFile(emissionsLines).Success? && ParseDualsFile(dualLines).Success?
      ensures outcome.Pass? ==> rows == TableAfterImport(old(rows), sid, ParseEmissionsFile(emissionsLines).value,
                                                    ParseDualsFile(dualLines).value)
      ensures outcome.Fail? && ParseEmissionsFile(emissionsLines).Failure? ==>
                rows == AfterEmissionsFile(ResetTotals(old(rows), sid), sid, emissionsLines)
      ensures outcome.Fail? && ParseEmissionsFile(emissionsLines).Success? ==>
                rows == AfterDualsFile(ApplyEmissionsRows(ResetTotals(old(rows), sid), sid,
                                                          ParseEmissionsFile(emissionsLines).value), sid, dualLines)
    {
      rows := ResetTotals(rows, sid);
      ghost var afterReset := rows;
      outcome := UpdateEmissions(sid, emissionsLines);
      if outcome.Fail? {
        return;
      }
      ghost var afterEmissions := rows;
      outcome := UpdateDuals(sid, dualLines);
      if outcome.Fail? {
        SameOutsideTransitive(old(rows), afterReset, afterEmissions, sid);
        SameOutsideTransitive(old(rows), afterEmissions, rows, sid);
        return;
      }
      ghost var afterDuals := rows;
      rows := ApplyMarginalCosts(rows, sid);
      SameOutsideTransitive(old(rows), afterReset, afterEmissions, sid);
      SameOutsideTransitive(old(rows), afterEmissions, afterDuals, sid);
      SameOutsideTransitive(old(rows), afterDuals, rows, sid);
    }
  }

  lemma {:induction false} ApplyEmissionsRowsSnoc(rows: seq<EmissionsRow>, sid: int, us: seq<EmissionsUpdate>,
                                                  u: EmissionsUpdate)
    ensures ApplyEmissionsRows(rows, sid, us + [u]) == ApplyEmissions(ApplyEmissionsRows(rows, sid, us), sid, u)
    decreases |us|
  {
    if us == [] {
      assert ([] + [u])[1..] == [];
    } else {
      assert (us + [u])[1..] == us[1..] + [u];
      ApplyEmissionsRowsSnoc(ApplyEmissions(rows, sid, us[0]), sid, us[1..], u);
    }
  }

  lemma {:induction false} ApplyDualRowsSnoc(rows: seq<EmissionsRow>, sid: int, us: seq<DualUpdate>, u: DualUpdate)
    ensures ApplyDualRows(rows, sid, us + [u]) == ApplyDual(ApplyDualRows(rows, sid, us), sid, u)
    decreases |us|
  {
    if us == [] {
      assert ([] + [u])[1..] == [];
    } else {
      assert (us + [u])[1..] == us[1..] + [u];
      ApplyDualRowsSnoc(ApplyDual(rows, sid, us[0]), sid, us[1..], u);
    }
  }

  /**
   * After a complete import every row of the scenario has a marginal cost
   * that is NULL or, multiplied by discount factor × years represented,
   * gives back its dual.
   */
  lemma ImportedMarginalCosts(rows: seq<EmissionsRow>, sid: int, emissions: seq<EmissionsUpdate>,
                              duals: seq<DualUpdate>, i: nat)
    requires i < |rows| && rows[i].scenarioId == sid
    ensures |TableAfterImport(rows, sid, emissions, duals)| == |rows|
    ensures var r := TableAfterImport(rows, sid, emissions, duals)[i];
            r.carbonCapMarginalCostPerMmt.Some? ==>
              r.carbonCapMarginalCostPerMmt.value * (r.discountFactor.value * r.numberYearsRepresented.value)
              == r.dual.value
  {
    var before := ApplyDualRows(ApplyEmissionsRows(ResetTotals(rows, sid), sid, emissions), sid, duals);
    assert before[i].scenarioId == sid;
  }

  /**
   * A row of the scenario that no carbon_cap.csv row names keeps the NULL
   * total the reset gave it.
   */
  lemma {:induction false} UnlistedRowKeepsNullTotal(rows: seq<EmissionsRow>, sid: int, emissions: seq<EmissionsUpdate>,
                                                     i: nat)
    requires i < |rows| && rows[i].scenarioId == sid
    requires forall k :: 0 <= k < |emissions| ==> !AtKey(rows[i], sid, emissions[k].zone, emissions[k].period)
    ensures |ApplyEmissionsRows(rows, sid, emissions)| == |rows|
    ensures ApplyEmissionsRows(rows, sid, emissions)[i] == rows[i]
    decreases |emissions|
  {
    if emissions != [] {
      var next := ApplyEmissions(rows, sid, emissions[0]);
      assert next[i] == rows[i];
      UnlistedRowKeepsNullTotal(next, sid, emissions[1..], i);
    }
  }
}
