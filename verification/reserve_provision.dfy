/**
 * Generic reserve-provision wiring shared by every reserve type
 * (regulation up/down, load-following up/down, spinning reserves):
 *   - the registry of which projects carry which reserve-provision variable,
 *     filled by scanning the rows of projects.tab;
 *   - the reserve project-timepoint filter and the parameter defaults;
 *   - the column-selection decisions of the data load;
 *   - the staged import of the reserve-provision results into the database.
 */
module ReserveProvision {
  import opened Wrappers
  import opened IndexSets
  import opened Staging

  // ---------------------------------------------------------------------
  // Header lookup

  /** The first position of `name` in a header row, or None when it is absent. */
  function FirstPosition(header: seq<string>, name: string): (r: Option<nat>)
    ensures r.Some? ==> r.value < |header| && header[r.value] == name && name !in header[..r.value]
    ensures r.None? <==> name !in header
    decreases |header|
  {
    if header == [] then None
    else if header[0] == name then Some(0)
    else
      match FirstPosition(header[1..], name)
      case None => None
      case Some(k) =>
        assert header[..k + 1] == [header[0]] + header[1..][..k];
        Some(k + 1)
  }

  // ---------------------------------------------------------------------
  // Scanning projects.tab into the headroom/footroom registry

  datatype ScanError =
    | RepeatedColumns             // check_list_items_are_unique rejects the header
    | MissingColumn(name: string) // the header lacks a column the scan looks up
    | ShortRow                    // a data row has no cell at a looked-up position

  /** The list already registered for `g`, or the empty list. */
  function Existing(d: map<string, seq<string>>, g: string): seq<string> {
    if g in d then d[g] else []
  }

  /**
   * One data row of projects.tab: the project gets an (empty) entry if it
   * has none, and the reserve variable is appended to its entry when the
   * row's balancing-area cell is not ".". The entry is created before the
   * balancing-area column is looked up.
   */
  function ScanRow(d: map<string, seq<string>>, header: seq<string>, row: seq<string>,
                   baColumn: string, variable: string): (r: (map<string, seq<string>>, Outcome<ScanError>))
    ensures d.Keys <= r.0.Keys
    ensures forall g :: g in d ==> d[g] <= r.0[g]
  {
    match FirstPosition(header, "project")
    case None => (d, Fail(MissingColumn("project")))
    case Some(pi) =>
      if pi >= |row| then (d, Fail(ShortRow))
      else
        var g := row[pi];
        var d1 := if g in d then d else d[g := []];
        match FirstPosition(header, baColumn)
        case None => (d1, Fail(MissingColumn(baColumn)))
        case Some(bi) =>
          if bi >= |row| then (d1, Fail(ShortRow))
          else if row[bi] != "." then (d1[g := d1[g] + [variable]], Pass)
          else (d1, Pass)
  }

  /**
   * The registry after scanning `rows` in order, and whether the scan ran
   * to the end. Every project already registered keeps its list as a
   * prefix of its new list: an entry is never reset.
   */
  function ScanProjects(d: map<string, seq<string>>, header: seq<string>, rows: seq<seq<string>>,
                        baColumn: string, variable: string): (r: (map<string, seq<string>>, Outcome<ScanError>))
    ensures d.Keys <= r.0.Keys
    ensures forall g :: g in d ==> d[g] <= r.0[g]
    decreases |rows|
  {
    if rows == [] then (d, Pass)
    else
      var step := ScanRow(d, header, rows[0], baColumn, variable);
      if step.1.Fail? then step
      else ScanProjects(step.0, header, rows[1..], baColumn, variable)
  }

  /** The header holds both looked-up columns and `row` reaches both of them. */
  predicate ScannableRow(header: seq<string>, row: seq<string>, baColumn: string, pi: nat, bi: nat) {
    && FirstPosition(header, "project") == Some(pi)
    && FirstPosition(header, baColumn) == Some(bi)
    && pi < |row| && bi < |row|
  }

  predicate ScannableTable(header: seq<string>, rows: seq<seq<string>>, baColumn: string, pi: nat, bi: nat) {
    forall i :: 0 <= i < |rows| ==> ScannableRow(header, rows[i], baColumn, pi, bi)
  }

  /** The projects named in the project column of `rows`. */
  function ListedProjects(rows: seq<seq<string>>, pi: nat): (r: set<string>)
    requires forall i :: 0 <= i < |rows| ==> pi < |rows[i]|
    ensures forall g :: g in r <==> exists i :: 0 <= i < |rows| && rows[i][pi] == g
  {
    set i | 0 <= i < |rows| :: rows[i][pi]
  }

  /** One copy of `variable` for each row of `g` whose balancing-area cell is not ".". */
  function Provisions(rows: seq<seq<string>>, pi: nat, bi: nat, g: string, variable: string): (r: seq<string>)
    requires forall i :: 0 <= i < |rows| ==> pi < |rows[i]| && bi < |rows[i]|
    ensures variable in r <==> exists i :: 0 <= i < |rows| && rows[i][pi] == g && rows[i][bi] != "."
    ensures forall v :: v in r ==> v == variable
    decreases |rows|
  {
    if rows == [] then []
    else
      var tail := Provisions(rows[1..], pi, bi, g, variable);
      assert forall i :: 1 <= i < |rows| ==> rows[1..][i - 1] == rows[i];
      (if rows[0][pi] == g && rows[0][bi] != "." then [variable] else []) + tail
  }

  /** A row reaching both looked-up columns scans without error and touches only its own project. */
  lemma ScanRowStep(d: map<string, seq<string>>, header: seq<string>, row: seq<string>,
                    baColumn: string, variable: string, pi: nat, bi: nat)
    requires ScannableRow(header, row, baColumn, pi, bi)
    ensures ScanRow(d, header, row, baColumn, variable).1 == Pass
    ensures ScanRow(d, header, row, baColumn, variable).0.Keys == d.Keys + {row[pi]}
    ensures forall g :: g in ScanRow(d, header, row, baColumn, variable).0 ==>
              Existing(ScanRow(d, header, row, baColumn, variable).0, g)
              == Existing(d, g) + (if row[pi] == g && row[bi] != "." then [variable] else [])
  {
  }

  lemma ExistingAfterRow(d: map<string, seq<string>>, header: seq<string>, row: seq<string>,
                         baColumn: string, variable: string, pi: nat, bi: nat, g: string)
    requires ScannableRow(header, row, baColumn, pi, bi)
    ensures Existing(ScanRow(d, header, row, baColumn, variable).0, g)
            == Existing(d, g) + (if row[pi] == g && row[bi] != "." then [variable] else [])
  {
    ScanRowStep(d, header, row, baColumn, variable, pi, bi);
  }

  lemma {:induction false} ListedProjectsUnfold(rows: seq<seq<string>>, pi: nat)
    requires rows != [] && forall i :: 0 <= i < |rows| ==> pi < |rows[i]|
    ensures ListedProjects(rows, pi) == {rows[0][pi]} + ListedProjects(rows[1..], pi)
  {
    forall g | g in ListedProjects(rows, pi) ensures g in {rows[0][pi]} + ListedProjects(rows[1..], pi) {
      var i :| 0 <= i < |rows| && rows[i][pi] == g;
      if i > 0 { assert rows[1..][i - 1] == rows[i]; }
    }
  }

  lemma {:induction false} ScannableTail(header: seq<string>, rows: seq<seq<string>>, baColumn: string, pi: nat, bi: nat)
    requires rows != [] && ScannableTable(header, rows, baColumn, pi, bi)
    ensures ScannableTable(header, rows[1..], baColumn, pi, bi)
  {
    forall i | 0 <= i < |rows[1..]| ensures ScannableRow(header, rows[1..][i], baColumn, pi, bi) {
      assert rows[1..][i] == rows[i + 1];
    }
  }

  lemma AppendAssociative(a: seq<string>, b: seq<string>, c: seq<string>)
    ensures (a + b) + c == a + (b + c)
  {
  }

  /** A scan of a well-formed table runs to the end and adds exactly the listed projects as keys. */
  lemma {:induction false} ScanKeys(d: map<string, seq<string>>, header: seq<string>, rows: seq<seq<string>>,
                                    baColumn: string, variable: string, pi: nat, bi: nat)
    requires ScannableTable(header, rows, baColumn, pi, bi)
    ensures ScanProjects(d, header, rows, baColumn, variable).1 == Pass
    ensures ScanProjects(d, header, rows, baColumn, variable).0.Keys == d.Keys + ListedProjects(rows, pi)
    decreases |rows|
  {
    if rows != [] {
      ScannableTail(header, rows, baColumn, pi, bi);
      ScanRowStep(d, header, rows[0], baColumn, variable, pi, bi);
      ScanKeys(ScanRow(d, header, rows[0], baColumn, variable).0, header, rows[1..], baColumn, variable, pi, bi);
      ListedProjectsUnfold(rows, pi);
    }
  }

  /** After a scan of a well-formed table, project `g`'s list is its old list plus its own eligible rows. */
  lemma {:induction false} ScanListOf(d: map<string, seq<string>>, header: seq<string>, rows: seq<seq<string>>,
                                      baColumn: string, variable: string, pi: nat, bi: nat, g: string)
    requires ScannableTable(header, rows, baColumn, pi, bi)
    ensures Existing(ScanProjects(d, header, rows, baColumn, variable).0, g)
            == Existing(d, g) + Provisions(rows, pi, bi, g, variable)
    decreases |rows|
  {
    if rows != [] {
      ScannableTail(header, rows, baColumn, pi, bi);
      var d1 := ScanRow(d, header, rows[0], baColumn, variable).0;
      ScanRowStep(d, header, rows[0], baColumn, variable, pi, bi);
      ScanListOf(d1, header, rows[1..], baColumn, variable, pi, bi, g);
      var head := if rows[0][pi] == g && rows[0][bi] != "." then [variable] else [];
      var rest := Provisions(rows[1..], pi, bi, g, variable);
      assert Provisions(rows, pi, bi, g, variable) == head + rest;
      ExistingAfterRow(d, header, rows[0], baColumn, variable, pi, bi, g);
      AppendAssociative(Existing(d, g), head, rest);
    }
  }

  /**
   * A scan of a well-formed table runs to the end; every listed project
   * becomes a key; each project's list is its old list followed by one
   * copy of the variable per row of it with a balancing area; projects
   * without such a row keep their list.
   */
  lemma ScanCharacterised(d: map<string, seq<string>>, header: seq<string>, rows: seq<seq<string>>,
                          baColumn: string, variable: string, pi: nat, bi: nat)
    requires ScannableTable(header, rows, baColumn, pi, bi)
    ensures ScanProjects(d, header, rows, baColumn, variable).1 == Pass
    ensures ScanProjects(d, header, rows, baColumn, variable).0.Keys == d.Keys + ListedProjects(rows, pi)
    ensures forall g :: g in ScanProjects(d, header, rows, baColumn, variable).0 ==>
              ScanProjects(d, header, rows, baColumn, variable).0[g] == Existing(d, g) + Provisions(rows, pi, bi, g, variable)
  {
    ScanKeys(d, header, rows, baColumn, variable, pi, bi);
    var r := ScanProjects(d, header, rows, baColumn, variable).0;
    forall g | g in r ensures r[g] == Existing(d, g) + Provisions(rows, pi, bi, g, variable) {
      ScanListOf(d, header, rows, baColumn, variable, pi, bi, g);
    }
  }

  /**
   * With no project carrying `variable` beforehand, a project carries it
   * after the scan exactly when one of its rows names a balancing area.
   */
  lemma ScanRegistersEligibleProjects(d: map<string, seq<string>>, header: seq<string>, rows: seq<seq<string>>,
                                      baColumn: string, variable: string, pi: nat, bi: nat, g: string)
    requires ScannableTable(header, rows, baColumn, pi, bi)
    requires forall h :: h in d ==> variable !in d[h]
    ensures var r := ScanProjects(d, header, rows, baColumn, variable).0;
            (g in r && variable in r[g]) <==> exists i :: 0 <= i < |rows| && rows[i][pi] == g && rows[i][bi] != "."
  {
    ScanCharacterised(d, header, rows, baColumn, variable, pi, bi);
    var r := ScanProjects(d, header, rows, baColumn, variable).0;
    if exists i :: 0 <= i < |rows| && rows[i][pi] == g && rows[i][bi] != "." {
      var i :| 0 <= i < |rows| && rows[i][pi] == g && rows[i][bi] != ".";
      assert g in ListedProjects(rows, pi);
    }
    if g in r && variable in r[g] {
      assert r[g] == Existing(d, g) + Provisions(rows, pi, bi, g, variable);
    }
  }

  datatype RoomDict = Headroom | Footroom {
    function Other(): RoomDict {
      if this == Headroom then Footroom else Headroom
    }
  }

  /** The dynamic-components object shared by all modules while the model is built. */
  class DynamicComponents {
    var requiredReserveModules: seq<string>
    var headroomVariables: map<string, seq<string>>
    var footroomVariables: map<string, seq<string>>
    var reserveVariableDerateParams: map<string, string>
    var reserveToEnergyAdjustmentParams: map<string, (string, string)>

    constructor ()
      ensures requiredReserveModules == [] && headroomVariables == map[] && footroomVariables == map[]
      ensures reserveVariableDerateParams == map[] && reserveToEnergyAdjustmentParams == map[]
    {
      requiredReserveModules := [];
      headroomVariables := map[];
      footroomVariables := map[];
      reserveVariableDerateParams := map[];
      reserveToEnergyAdjustmentParams := map[];
    }

    /** The registry named by `room`: project -> reserve-provision variable names. */
    function RoomVariables(room: RoomDict): map<string, seq<string>>
      reads this
    {
      if room == Headroom then headroomVariables else footroomVariables
    }

    method SetRoomVariables(room: RoomDict, m: map<string, seq<string>>)
      modifies this
      ensures RoomVariables(room) == m && RoomVariables(room.Other()) == old(RoomVariables(room.Other()))
      ensures requiredReserveModules == old(requiredReserveModules)
      ensures reserveVariableDerateParams == old(reserveVariableDerateParams)
      ensures reserveToEnergyAdjustmentParams == old(reserveToEnergyAdjustmentParams)
    {
      if room == Headroom {
        headroomVariables := m;
      } else {
        footroomVariables := m;
      }
    }

    /** The body of the projects.tab loop for one row: see ScanRow. */
    method ScanOneRow(room: RoomDict, header: seq<string>, row: seq<string>, baColumn: string, variable: string)
      returns (outcome: Outcome<ScanError>)
      modifies this
      ensures (RoomVariables(room), outcome) == ScanRow(old(RoomVariables(room)), header, row, baColumn, variable)
      ensures RoomVariables(room.Other()) == old(RoomVariables(room.Other()))
      ensures requiredReserveModules == old(requiredReserveModules)
      ensures reserveVariableDerateParams == old(reserveVariableDerateParams)
      ensures reserveToEnergyAdjustmentParams == old(reserveToEnergyAdjustmentParams)
    {
      var projectPosition := FirstPosition(header, "project");
      if projectPosition.None? {
        return Fail(MissingColumn("project"));
      }
      if projectPosition.value >= |row| {
        return Fail(ShortRow);
      }
      var generator := row[projectPosition.value];
      if generator !in RoomVariables(room) {
        SetRoomVariables(room, RoomVariables(room)[generator := []]);
      }
      var baPosition := FirstPosition(header, baColumn);
      if baPosition.None? {
        return Fail(MissingColumn(baColumn));
      }
      if baPosition.value >= |row| {
        return Fail(ShortRow);
      }
      if row[baPosition.value] != "." {
        var registry := RoomVariables(room);
        SetRoomVariables(room, registry[generator := registry[generator] + [variable]]);
      }
      outcome := Pass;
    }

    /**
     * Registers one reserve type: records the reserve module, scans the
     * projects.tab rows into the headroom or footroom registry, and, when
     * the scan completes, records the variable's derate parameter and its
     * (energy-adjustment parameter, balancing-area parameter) pair.
     */
    method DetermineDynamicComponents(reserveModule: string, room: RoomDict,
                                      header: seq<string>, rows: seq<seq<string>>,
                                      baColumn: string, variable: string,
                                      derateParam: string, adjustmentParam: string, baParam: string)
      returns (outcome: Outcome<ScanError>)
      modifies this
      ensures requiredReserveModules == old(requiredReserveModules) + [reserveModule]
      ensures RoomVariables(room.Other()) == old(RoomVariables(room.Other()))
      ensures !Distinct(header) ==> outcome == Fail(RepeatedColumns) && RoomVariables(room) == old(RoomVariables(room))
      ensures Distinct(header) ==>
        (RoomVariables(room), outcome) == ScanProjects(old(RoomVariables(room)), header, rows, baColumn, variable)
      ensures outcome.Pass? ==>
        && reserveVariableDerateParams == old(reserveVariableDerateParams)[variable := derateParam]
        && reserveToEnergyAdjustmentParams == old(reserveToEnergyAdjustmentParams)[variable := (adjustmentParam, baParam)]
      ensures outcome.Fail? ==>
        && reserveVariableDerateParams == old(reserveVariableDerateParams)
        && reserveToEnergyAdjustmentParams == old(reserveToEnergyAdjustmentParams)
    {
      requiredReserveModules := requiredReserveModules + [reserveModule];
      if !Distinct(header) {
        return Fail(RepeatedColumns);
      }
      outcome := ScanAllRows(room, header, rows, baColumn, variable);
      if outcome.Pass? {
        reserveVariableDerateParams := reserveVariableDerateParams[variable := derateParam];
        reserveToEnergyAdjustmentParams := reserveToEnergyAdjustmentParams[variable := (adjustmentParam, baParam)];
      }
    }

    /** The projects.tab loop: scans rows in order and stops at the first row that fails. */
    method ScanAllRows(room: RoomDict, header: seq<string>, rows: seq<seq<string>>, baColumn: string, variable: string)
      returns (outcome: Outcome<ScanError>)
      modifies this
      ensures (RoomVariables(room), outcome) == ScanProjects(old(RoomVariables(room)), header, rows, baColumn, variable)
      ensures RoomVariables(room.Other()) == old(RoomVariables(room.Other()))
      ensures requiredReserveModules == old(requiredReserveModules)
      ensures reserveVariableDerateParams == old(reserveVariableDerateParams)
      ensures reserveToEnergyAdjustmentParams == old(reserveToEnergyAdjustmentParams)
    {
      var i := 0;
      while i < |rows|
        invariant 0 <= i <= |rows|
        invariant requiredReserveModules == old(requiredReserveModules)
        invariant RoomVariables(room.Other()) == old(RoomVariables(room.Other()))
        invariant reserveVariableDerateParams == old(reserveVariableDerateParams)
        invariant reserveToEnergyAdjustmentParams == old(reserveToEnergyAdjustmentParams)
        invariant ScanProjects(RoomVariables(room), header, rows[i..], baColumn, variable)
               == ScanProjects(old(RoomVariables(room)), header, rows, baColumn, variable)
        decreases |rows| - i
      {
        assert rows[i..][0] == rows[i] && rows[i..][1..] == rows[i + 1..];
        var step := ScanOneRow(room, header, rows[i], baColumn, variable);
        if step.Fail? {
          return step;
        }
        i := i + 1;
      }
      outcome := Pass;
    }
  }

  // ---------------------------------------------------------------------
  // Parameter defaults

  /** Every loaded value lies in Pyomo's PercentFraction domain [0, 1]. */
  predicate PercentFractions(loaded: map<string, real>) {
    forall k :: k in loaded ==> 0.0 <= loaded[k] <= 1.0
  }

  /**
   * The headroom/footroom derate of reserve project `g`: the loaded value,
   * or 1 (no derate) when projects.tab gave none.
   */
  function ProvisionDerate(loaded: map<string, real>, g: string): (r: real)
    requires PercentFractions(loaded)
    ensures 0.0 <= r <= 1.0
    ensures g !in loaded ==> r == 1.0
    ensures g in loaded ==> r == loaded[g]
  {
    if g in loaded then loaded[g] else 1.0
  }

  /**
   * The subhourly energy adjustment of balancing area `ba`: the loaded
   * value, or 0 (no adjustment) when none was loaded.
   */
  function EnergyAdjustment(loaded: map<string, real>, ba: string): (r: real)
    requires PercentFractions(loaded)
    ensures 0.0 <= r <= 1.0
    ensures ba !in loaded ==> r == 0.0
    ensures ba in loaded ==> r == loaded[ba]
  {
    if ba in loaded then loaded[ba] else 0.0
  }

  // ---------------------------------------------------------------------
  // What the data load reads

  datatype LoadPlan = LoadPlan(projectColumns: seq<string>, loadsDerate: bool, loadsEnergyAdjustment: bool)

  /**
   * The columns read from projects.tab and whether the derate and the
   * energy adjustment are loaded: the derate column is read, and the
   * derate loaded, only when projects.tab's header names it; the
   * adjustment is loaded only when the balancing-area file's header has a
   * "reserve_to_energy_adjustment" column.
   */
  function PlanLoad(baColumn: string, derateColumn: string, projectsHeader: seq<string>, baHeader: seq<string>): (p: LoadPlan)
    ensures |p.projectColumns| >= 2 && p.projectColumns[..2] == ["project", baColumn]
    ensures p.loadsDerate <==> derateColumn in projectsHeader
    ensures |p.projectColumns| == (if p.loadsDerate then 3 else 2)
    ensures p.loadsDerate ==> p.projectColumns[2] == derateColumn
    ensures p.loadsEnergyAdjustment <==> "reserve_to_energy_adjustment" in baHeader
  {
    var base := ["project", baColumn];
    var loadsDerate := derateColumn in projectsHeader;
    LoadPlan(if loadsDerate then base + [derateColumn] else base, loadsDerate,
             "reserve_to_energy_adjustment" in baHeader)
  }

  /**
   * The balancing-area parameter as loaded from the (project, ba) columns:
   * a "." cell is a missing value and sets nothing; a later row for the
   * same project overrides an earlier one.
   */
  function BalancingAreaParam(rows: seq<seq<string>>, pi: nat, bi: nat): (m: map<string, string>)
    requires forall i :: 0 <= i < |rows| ==> pi < |rows[i]| && bi < |rows[i]|
    ensures forall g :: g in m <==> exists i :: 0 <= i < |rows| && rows[i][pi] == g && rows[i][bi] != "."
    ensures forall g :: g in m ==> m[g] != "."
    decreases |rows|
  {
    if rows == [] then map[]
    else
      var n := |rows| - 1;
      var earlier := BalancingAreaParam(rows[..n], pi, bi);
      assert forall i :: 0 <= i < n ==> rows[..n][i] == rows[i];
      if rows[n][bi] != "." then earlier[rows[n][pi] := rows[n][bi]] else earlier
  }

  /** The reserve project set: the keys of the balancing-area parameter. */
  function ReserveProjects(rows: seq<seq<string>>, pi: nat, bi: nat): set<string>
    requires forall i :: 0 <= i < |rows| ==> pi < |rows[i]| && bi < |rows[i]|
  {
    BalancingAreaParam(rows, pi, bi).Keys
  }

  /**
   * The registry built while the model is assembled and the reserve project
   * set loaded from the same projects.tab agree: starting from a registry
   * without the variable, a project carries the reserve variable exactly
   * when it is a reserve project.
   */
  lemma RegistryAgreesWithReserveProjects(d: map<string, seq<string>>, header: seq<string>, rows: seq<seq<string>>,
                                          baColumn: string, variable: string, pi: nat, bi: nat, g: string)
    requires ScannableTable(header, rows, baColumn, pi, bi)
    requires forall h :: h in d ==> variable !in d[h]
    ensures var r := ScanProjects(d, header, rows, baColumn, variable).0;
            (g in r && variable in r[g]) <==> g in ReserveProjects(rows, pi, bi)
  {
    ScanRegistersEligibleProjects(d, header, rows, baColumn, variable, pi, bi, g);
  }

  // ---------------------------------------------------------------------
  // Importing the results into the database

  /** One row of reserves_provision_<type>.csv, in its column order. */
  datatype ProvisionRecord = ProvisionRecord(
    project: string, period: int, horizon: int, timepoint: int,
    horizonWeight: real, hoursInTimepoint: real,
    balancingArea: string, loadZone: string, technology: string,
    provisionMw: real)

  /** The column list of the temporary table's INSERT. */
  function TempColumns(reserveType: string): (c: seq<string>)
    ensures |c| == 11 && c[0] == "scenario_id" && c[1] == "project" && c[4] == "timepoint"
    ensures c[7] == "load_zone" && c[8] == reserveType + "_ba"
  {
    ["scenario_id", "project", "period", "horizon", "timepoint", "horizon_weight",
     "number_of_hours_in_timepoint", "load_zone", reserveType + "_ba", "technology",
     "reserve_provision_mw"]
  }

  /** The VALUES list of the temporary table's INSERT, in the order the statement formats them. */
  function InsertedValues(sid: int, rec: ProvisionRecord): (v: seq<Cell>)
    ensures |v| == 11
  {
    [IntCell(sid), TextCell(rec.project), IntCell(rec.period), IntCell(rec.horizon),
     IntCell(rec.timepoint), RealCell(rec.horizonWeight), RealCell(rec.hoursInTimepoint),
     TextCell(rec.balancingArea), TextCell(rec.loadZone), TextCell(rec.technology),
     RealCell(rec.provisionMw)]
  }

  /** The temporary-table row one CSV record becomes. */
  function StagedRow(reserveType: string, sid: int, rec: ProvisionRecord): Row {
    Zip(TempColumns(reserveType), InsertedValues(sid, rec))
  }

  function StagedRows(reserveType: string, sid: int, records: seq<ProvisionRecord>): (rows: seq<Row>)
    ensures |rows| == |records|
  {
    seq(|records|, i requires 0 <= i < |records| => StagedRow(reserveType, sid, records[i]))
  }

  predicate EndsWithBa(s: string) {
    |s| >= 3 && s[|s| - 3] == '_' && s[|s| - 2] == 'b' && s[|s| - 1] == 'a'
  }

  /** The temporary table's column names are distinct whatever the reserve type is called. */
  lemma TempColumnsDistinct(reserveType: string)
    ensures Distinct(TempColumns(reserveType))
  {
    var c := TempColumns(reserveType);
    assert EndsWithBa(c[8]);
    forall i | 0 <= i < 11 && i != 8 ensures !EndsWithBa(c[i]) {
    }
  }

  /**
   * What a staged row holds: the primary key comes from the scenario id
   * and the record's project and timepoint, but the record's balancing
   * area lands in the load_zone column and its load zone in the
   * <type>_ba column, because the VALUES list gives them in the opposite
   * order to the column list.
   */
  lemma StagedRowSwapsZones(reserveType: string, sid: int, rec: ProvisionRecord)
    ensures KeyOf(StagedRow(reserveType, sid, rec)) == Key(sid, rec.project, rec.timepoint)
    ensures StagedRow(reserveType, sid, rec)["load_zone"] == TextCell(rec.balancingArea)
    ensures StagedRow(reserveType, sid, rec)[reserveType + "_ba"] == TextCell(rec.loadZone)
    ensures StagedRow(reserveType, sid, rec)["reserve_provision_mw"] == RealCell(rec.provisionMw)
  {
    StagedRowAt(reserveType, sid, rec, 0);
    StagedRowAt(reserveType, sid, rec, 1);
    StagedRowAt(reserveType, sid, rec, 4);
    StagedRowAt(reserveType, sid, rec, 7);
    StagedRowAt(reserveType, sid, rec, 8);
    StagedRowAt(reserveType, sid, rec, 10);
  }

  /** Column i of the staged row holds value i of the VALUES list. */
  lemma StagedRowAt(reserveType: string, sid: int, rec: ProvisionRecord, i: nat)
    requires i < 11
    ensures TempColumns(reserveType)[i] in StagedRow(reserveType, sid, rec)
    ensures StagedRow(reserveType, sid, rec)[TempColumns(reserveType)[i]] == InsertedValues(sid, rec)[i]
  {
    TempColumnsDistinct(reserveType);
    ZipAt(TempColumns(reserveType), InsertedValues(sid, rec), i);
  }

  /**
   * Reading the zones back from the stored row recovers the exported ones
   * only for projects whose balancing area and load zone have the same name.
   */
  lemma ZoneRoundTripNeedsEqualNames(reserveType: string, sid: int, rec: ProvisionRecord)
    ensures TextAt(StagedRow(reserveType, sid, rec), "load_zone") == rec.loadZone <==> rec.balancingArea == rec.loadZone
    ensures TextAt(StagedRow(reserveType, sid, rec), reserveType + "_ba") == rec.balancingArea <==> rec.balancingArea == rec.loadZone
  {
    StagedRowSwapsZones(reserveType, sid, rec);
  }

  /** Two records stage to the same primary key exactly when they share project and timepoint. */
  predicate DistinctProjectTimepoints(records: seq<ProvisionRecord>) {
    forall i, j :: 0 <= i < j < |records| ==>
      (records[i].project, records[i].timepoint) != (records[j].project, records[j].timepoint)
  }

  lemma StagedRowsKeys(reserveType: string, sid: int, records: seq<ProvisionRecord>)
    ensures AllOfScenario(StagedRows(reserveType, sid, records), sid)
    ensures UniqueKeys(StagedRows(reserveType, sid, records)) <==> DistinctProjectTimepoints(records)
  {
    var rows := StagedRows(reserveType, sid, records);
    forall i | 0 <= i < |rows| ensures KeyOf(rows[i]) == Key(sid, records[i].project, records[i].timepoint) {
      StagedRowSwapsZones(reserveType, sid, records[i]);
    }
  }

  /**
   * Imports one reserve type's results for scenario `sid`: the scenario's
   * rows are deleted, the CSV records are staged in a temporary table under
   * the key (scenario_id, project, timepoint) and copied into the
   * permanent table in key order. The import fails exactly when two
   * records share a project and timepoint; the scenario's old rows are
   * gone either way and other scenarios are never touched.
   */
  method ImportResultsIntoDatabase(sid: int, table: ResultTable, reserveType: string, records: seq<ProvisionRecord>)
    returns (outcome: Outcome<StagingError>)
    modifies table
    ensures outcome.Pass? <==> DistinctProjectTimepoints(records)
    ensures outcome.Pass? ==>
      && table.rows == AfterImport(old(table.rows), sid, StagedRows(reserveType, sid, records))
      && table.temps == old(table.temps) - {sid}
    ensures outcome.Fail? ==> table.rows == WithoutScenario(old(table.rows), sid)
    ensures table.temps == TempsAfterImport(old(table.temps), sid, StagedRows(reserveType, sid, records))
  {
    StagedRowsKeys(reserveType, sid, records);
    outcome := table.ImportScenario(sid, StagedRows(reserveType, sid, records));
  }
}
