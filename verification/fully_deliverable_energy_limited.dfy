/**
 * The fully-deliverable energy-limited (FDDL) PRM type
 * (gridpath/project/prm/prm_types/fully_deliverable_energy_limited.py):
 * its project and project-period sets, the two limits on the capacity
 * eligible for capacity credit, and the rewrite of projects.tab that
 * appends the minimum-duration column.
 */
module FullyDeliverableEnergyLimited {
  import opened Wrappers
  import opened Staging

  const FddlType := "fully_deliverable_energy_limited"

  // ---------------------------------------------------------------------
  // Sets

  /** FDDL_PRM_PROJECTS: the PRM projects of the FDDL type, in PRM order. */
  function FddlPrmProjects(prmProjects: seq<string>, prmType: string -> string): (r: seq<string>)
    ensures forall g :: g in r <==> g in prmProjects && prmType(g) == FddlType
    ensures |r| <= |prmProjects|
    decreases |prmProjects|
  {
    if prmProjects == [] then []
    else (if prmType(prmProjects[0]) == FddlType then [prmProjects[0]] else [])
         + FddlPrmProjects(prmProjects[1..], prmType)
  }

  /** The comprehension of FDDL_PRM_PROJECT_OPERATIONAL_PERIODS, before the `within` check. */
  function FddlPeriodsOf(prmPeriods: seq<(string, int)>, fddl: seq<string>): (r: seq<(string, int)>)
    ensures forall gp :: gp in r <==> gp in prmPeriods && gp.0 in fddl
    decreases |prmPeriods|
  {
    if prmPeriods == [] then []
    else (if prmPeriods[0].0 in fddl then [prmPeriods[0]] else [])
         + FddlPeriodsOf(prmPeriods[1..], fddl)
  }

  /** A set element outside the set it was declared `within`. */
  datatype WithinError = NotWithin(element: (string, int))

  /**
   * FDDL_PRM_PROJECT_OPERATIONAL_PERIODS: the PRM project-periods of FDDL
   * projects; declaring it within PRM ∩ storage operational periods fails
   * on the first one that is not a storage operational period.
   */
  function FddlPrmProjectOperationalPeriods(prmPeriods: seq<(string, int)>, fddl: seq<string>,
                                            storagePeriods: set<(string, int)>)
    : (r: Result<seq<(string, int)>, WithinError>)
    ensures r.Success? <==> forall gp :: gp in prmPeriods && gp.0 in fddl ==> gp in storagePeriods
    ensures r.Success? ==> forall gp :: gp in r.value <==> gp in prmPeriods && gp.0 in fddl
    ensures r.Success? ==> forall gp :: gp in r.value ==> gp in prmPeriods && gp in storagePeriods
    ensures r.Failure? ==> r.error.element in prmPeriods && r.error.element.0 in fddl
                           && r.error.element !in storagePeriods
  {
    var candidates := FddlPeriodsOf(prmPeriods, fddl);
    FirstOutside(candidates, storagePeriods)
  }

  /** The candidates, or the first of them that is not in `allowed`. */
  function FirstOutside(candidates: seq<(string, int)>, allowed: set<(string, int)>)
    : (r: Result<seq<(string, int)>, WithinError>)
    ensures r.Success? <==> forall gp :: gp in candidates ==> gp in allowed
    ensures r.Success? ==> r.value == candidates
    ensures r.Failure? ==> r.error.element in candidates && r.error.element !in allowed
    decreases |candidates|
  {
    if candidates == [] then Success([])
    else if candidates[0] !in allowed then Failure(NotWithin(candidates[0]))
    else match FirstOutside(candidates[1..], allowed)
      case Failure(e) => Failure(e)
      case Success(_) =>
        assert candidates == [candidates[0]] + candidates[1..];
        Success(candidates)
  }

  // ---------------------------------------------------------------------
  // Constraints

  /** Max_FDDL_Project_Capacity_Credit_Constraint at (g, p). */
  predicate EligibleWithinCapacity(eligibleMw: real, capacityMw: real) {
    eligibleMw <= capacityMw
  }

  /** Why a constraint cannot be built. */
  datatype RuleError = ZeroMinimumDuration

  /**
   * The right-hand side of FDDL_Project_Capacity_Credit_Duration_Derate_Constraint:
   * energy capacity over the minimum duration; a zero duration divides by zero.
   */
  function DurationDerateBound(energyCapacityMwh: real, minDurationHours: real): (r: Result<real, RuleError>)
    requires minDurationHours >= 0.0
    ensures r.Failure? <==> minDurationHours == 0.0
    ensures r.Success? ==> r.value * minDurationHours == energyCapacityMwh
  {
    if minDurationHours == 0.0 then Failure(ZeroMinimumDuration)
    else Success(energyCapacityMwh / minDurationHours)
  }

  /** The duration derate constraint at (g, p), once its bound exists. */
  predicate EligibleWithinDurationDerate(eligibleMw: real, energyCapacityMwh: real, minDurationHours: real)
    requires minDurationHours > 0.0
  {
    eligibleMw <= energyCapacityMwh / minDurationHours
  }

  function Min(a: real, b: real): real {
    if a <= b then a else b
  }

  /**
   * An eligible capacity that is a NonNegativeReal and meets both
   * constraints lies between 0 and the smaller of the two bounds, and
   * any such value meets both constraints.
   */
  lemma EligibleCapacityBounds(eligibleMw: real, capacityMw: real, energyCapacityMwh: real, minDurationHours: real)
    requires minDurationHours > 0.0
    ensures (eligibleMw >= 0.0 && EligibleWithinCapacity(eligibleMw, capacityMw)
             && EligibleWithinDurationDerate(eligibleMw, energyCapacityMwh, minDurationHours))
            <==> 0.0 <= eligibleMw <= Min(capacityMw, energyCapacityMwh / minDurationHours)
  {
  }

  /** `elcc_eligible_capacity_rule`: the eligible capacity, unchanged. */
  function ElccEligibleCapacityRule(eligibleMw: (string, int) -> real, g: string, p: int): real {
    eligibleMw(g, p)
  }

  /**
   * The capacity an FDDL project contributes to the ELCC calculation never
   * exceeds its capacity nor what its energy can sustain over the minimum
   * duration, when the eligible-capacity variable meets both constraints.
   */
  lemma ElccContributionBounded(eligibleMw: (string, int) -> real, capacityMw: real, energyCapacityMwh: real,
                                minDurationHours: real, g: string, p: int)
    requires minDurationHours > 0.0 && eligibleMw(g, p) >= 0.0
    requires EligibleWithinCapacity(eligibleMw(g, p), capacityMw)
    requires EligibleWithinDurationDerate(eligibleMw(g, p), energyCapacityMwh, minDurationHours)
    ensures 0.0 <= ElccEligibleCapacityRule(eligibleMw, g, p) <= Min(capacityMw, energyCapacityMwh / minDurationHours)
  {
    EligibleCapacityBounds(eligibleMw(g, p), capacityMw, energyCapacityMwh, minDurationHours);
  }

  // ---------------------------------------------------------------------
  // projects.tab rewrite

  /** A row of the project/zone/duration query; NULL is None. */
  datatype ZoneDurationRow = ZoneDurationRow(project: string, prmZone: Option<string>, minDurationHours: Option<real>)

  /**
   * The dict value stored for a query row: the text "." when the zone is
   * NULL, otherwise the duration, which may itself be NULL (None).
   */
  function DictValue(row: ZoneDurationRow): Option<Cell> {
    if row.prmZone.None? then Some(TextCell("."))
    else match row.minDurationHours
      case None => None
      case Some(h) => Some(RealCell(h))
  }

  /** `prj_zone_dur_dict` after the first rows of the query; a later row overwrites an earlier one. */
  function ZoneDurationDict(rows: seq<ZoneDurationRow>): map<string, Option<Cell>>
    decreases |rows|
  {
    if rows == [] then map[]
    else ZoneDurationDict(rows[..|rows| - 1])[rows[|rows| - 1].project := DictValue(rows[|rows| - 1])]
  }

  /** The position of the last query row for a project. */
  predicate IsLastRowFor(rows: seq<ZoneDurationRow>, project: string, i: nat) {
    i < |rows| && rows[i].project == project
    && forall k :: i < k < |rows| ==> rows[k].project != project
  }

  /** A project is a key iff some query row names it. */
  lemma {:induction false} DictKeys(rows: seq<ZoneDurationRow>, project: string)
    ensures project in ZoneDurationDict(rows) <==> exists i :: 0 <= i < |rows| && rows[i].project == project
    decreases |rows|
  {
    if rows != [] {
      var n := |rows| - 1;
      var front := rows[..n];
      DictKeys(front, project);
      if exists i :: 0 <= i < |front| && front[i].project == project {
        var i :| 0 <= i < |front| && front[i].project == project;
        assert rows[i].project == project;
      }
      if rows[n].project != project && exists i :: 0 <= i < |rows| && rows[i].project == project {
        var i :| 0 <= i < |rows| && rows[i].project == project;
        assert front[i].project == project;
      }
    }
  }

  /** A project's value comes from the last query row that names it. */
  lemma {:induction false} LastRowWins(rows: seq<ZoneDurationRow>, project: string, i: nat)
    requires IsLastRowFor(rows, project, i)
    ensures project in ZoneDurationDict(rows)
    ensures ZoneDurationDict(rows)[project] == DictValue(rows[i])
    decreases |rows|
  {
    var n := |rows| - 1;
    if i < n {
      var front := rows[..n];
      assert IsLastRowFor(front, project, i);
      LastRowWins(front, project, i);
    }
  }

  /** The loop that fills `prj_zone_dur_dict`. */
  method BuildZoneDurationDict(rows: seq<ZoneDurationRow>) returns (d: map<string, Option<Cell>>)
    ensures d == ZoneDurationDict(rows)
  {
    d := map[];
    for i := 0 to |rows|
      invariant d == ZoneDurationDict(rows[..i])
    {
      assert rows[..i + 1][..i] == rows[..i];
      d := d[rows[i].project := DictValue(rows[i])];
    }
    assert rows[..|rows|] == rows;
  }

  const MinDurationColumn := "minimum_duration_for_full_capacity_credit_hours"

  /** The cell appended to a data row whose first cell is `project`. */
  function AppendedCell(d: map<string, Option<Cell>>, project: string): Cell {
    if project in d then (if d[project].None? then TextCell(".") else d[project].value)
    else TextCell(".")
  }

  /**
   * The appended cell is the duration of the project's last query row
   * when that row has a zone and a duration, and "." in every other case:
   * no row for the project, a NULL zone, or a NULL duration.
   */
  lemma AppendedCellMeaning(rows: seq<ZoneDurationRow>, project: string, i: nat)
    requires IsLastRowFor(rows, project, i)
    ensures AppendedCell(ZoneDurationDict(rows), project)
            == if rows[i].prmZone.Some? && rows[i].minDurationHours.Some?
               then RealCell(rows[i].minDurationHours.value) else TextCell(".")
  {
    LastRowWins(rows, project, i);
  }

  lemma AbsentProjectGetsDot(rows: seq<ZoneDurationRow>, project: string)
    requires forall i :: 0 <= i < |rows| ==> rows[i].project != project
    ensures AppendedCell(ZoneDurationDict(rows), project) == TextCell(".")
  {
    DictKeys(rows, project);
  }

  /** Cells read by csv.reader are text. */
  function TextCells(row: seq<string>): (cells: seq<Cell>)
    ensures |cells| == |row|
    ensures forall k :: 0 <= k < |row| ==> cells[k] == TextCell(row[k])
  {
    seq(|row|, k requires 0 <= k < |row| => TextCell(row[k]))
  }

  /** Reading projects.tab fails on an empty file (no header) or an empty data row (no `row[0]`). */
  datatype RewriteError = NoHeader | EmptyRow(line: nat)

  /** The rewritten data row: its cells followed by the appended cell. */
  function RewrittenRow(d: map<string, Option<Cell>>, row: seq<string>): seq<Cell>
    requires row != []
  {
    TextCells(row) + [AppendedCell(d, row[0])]
  }

  /**
   * The rows of the rewritten projects.tab: the header gains the
   * minimum-duration column and each data row gains its appended cell.
   */
  method RewriteProjectsTab(d: map<string, Option<Cell>>, lines: seq<seq<string>>)
    returns (r: Result<seq<seq<Cell>>, RewriteError>)
    ensures r.Failure? <==> lines == [] || exists k :: 1 <= k < |lines| && lines[k] == []
    ensures r.Failure? ==> (r.error == NoHeader <==> lines == [])
    ensures r.Failure? && r.error.EmptyRow? ==>
              1 <= r.error.line < |lines| && lines[r.error.line] == []
              && forall j :: 1 <= j < r.error.line ==> lines[j] != []
    ensures r.Success? ==> |r.value| == |lines|
    ensures r.Success? ==> r.value[0] == TextCells(lines[0]) + [TextCell(MinDurationColumn)]
    ensures r.Success? ==> forall k :: 1 <= k < |lines| ==>
              lines[k] != [] && r.value[k] == RewrittenRow(d, lines[k])
  {
    if lines == [] {
      return Failure(NoHeader);
    }
    var newRows := [TextCells(lines[0]) + [TextCell(MinDurationColumn)]];
    var k := 1;
    while k < |lines|
      invariant 1 <= k <= |lines|
      invariant |newRows| == k
      invariant newRows[0] == TextCells(lines[0]) + [TextCell(MinDurationColumn)]
      invariant forall j :: 1 <= j < k ==> lines[j] != [] && newRows[j] == RewrittenRow(d, lines[j])
    {
      var row := lines[k];
      if row == [] {
        return Failure(EmptyRow(k));
      }
      newRows := newRows + [RewrittenRow(d, row)];
      k := k + 1;
    }
    r := Success(newRows);
  }

  /**
   * `get_module_specific_inputs_from_database`, given the query rows and
   * the lines of projects.tab: the dict of the query, then the rewrite.
   */
  method GetModuleSpecificInputs(query: seq<ZoneDurationRow>, lines: seq<seq<string>>)
    returns (r: Result<seq<seq<Cell>>, RewriteError>)
    ensures r.Failure? <==> lines == [] || exists k :: 1 <= k < |lines| && lines[k] == []
    ensures r.Success? ==> |r.value| == |lines|
    ensures r.Success? ==> r.value[0] == TextCells(lines[0]) + [TextCell(MinDurationColumn)]
    ensures r.Success? ==> forall k :: 1 <= k < |lines| ==>
              lines[k] != [] && r.value[k] == RewrittenRow(ZoneDurationDict(query), lines[k])
  {
    var d := BuildZoneDurationDict(query);
    r := RewriteProjectsTab(d, lines);
  }

  /**
   * The rewrite keeps every row: each gains exactly one trailing cell and
   * keeps its original cells in front of it.
   */
  lemma RewriteKeepsCells(d: map<string, Option<Cell>>, lines: seq<seq<string>>, written: seq<seq<Cell>>)
    requires |written| == |lines| && lines != []
    requires written[0] == TextCells(lines[0]) + [TextCell(MinDurationColumn)]
    requires forall k :: 1 <= k < |lines| ==> lines[k] != [] && written[k] == RewrittenRow(d, lines[k])
    ensures forall k :: 0 <= k < |lines| ==>
              |written[k]| == |lines[k]| + 1 && written[k][..|lines[k]|] == TextCells(lines[k])
  {
    forall k | 0 <= k < |lines|
      ensures |written[k]| == |lines[k]| + 1 && written[k][..|lines[k]|] == TextCells(lines[k])
    {
      assert (TextCells(lines[k]) + [TextCell(".")])[..|lines[k]|] == TextCells(lines[k]);
    }
  }
}
