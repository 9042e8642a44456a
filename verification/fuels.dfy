/**
 * Fuel input shaping (gridpath/project/fuels.py): the subproblem/stage
 * normalisation, the required (fuel, period, month) index list of the input
 * validation, the emptiness-gated data loads and the two tab files.
 */
module Fuels {
  import opened Wrappers
  import opened PyValues
  import CommonFunctions
  import opened Staging

  // ---------------------------------------------------------------------
  // Subproblem and stage normalisation

  /** An empty subproblem or stage id stands for 1; anything else is kept. */
  function NormaliseId(v: PyValue): (r: PyValue)
    ensures r != PyStr("")
    ensures v == PyStr("") ==> r == PyInt(1)
    ensures v != PyStr("") ==> r == v
  {
    if v == PyStr("") then PyInt(1) else v
  }

  // ---------------------------------------------------------------------
  // Query rows

  /**
   * A row of the fuels query: the fuel and its CO2 intensity, which is NULL
   * when the second outer join finds no characteristics for the fuel.
   */
  datatype FuelRow = FuelRow(fuel: string, co2IntensityTonsPerMmbtu: Option<real>)

  /** A row of the fuel prices query. */
  datatype PriceRow = PriceRow(fuel: string, period: int, month: int, fuelPricePerMmbtu: real)

  /** A (fuel, period, month) index. */
  type FuelIndex = (string, int, int)

  // ---------------------------------------------------------------------
  // Validation indices

  /** The `fuel` column of the fuels query, in row order. */
  function FuelNames(fuels: seq<FuelRow>): (names: seq<string>)
    ensures |names| == |fuels|
    ensures forall i :: 0 <= i < |fuels| ==> names[i] == fuels[i].fuel
  {
    seq(|fuels|, i requires 0 <= i < |fuels| => fuels[i].fuel)
  }

  /** The (fuel, period, month) projection of the price rows, in row order. */
  function ActualFuelPeriodsMonths(prices: seq<PriceRow>): (idxs: seq<FuelIndex>)
    ensures |idxs| == |prices|
    ensures forall i :: 0 <= i < |prices| ==>
              idxs[i] == (prices[i].fuel, prices[i].period, prices[i].month)
  {
    seq(|prices|, i requires 0 <= i < |prices| => (prices[i].fuel, prices[i].period, prices[i].month))
  }

  /** Every fuel paired with one period and month, in fuel order. */
  function FuelsAt(p: int, m: int, fuels: seq<string>): (idxs: seq<FuelIndex>)
    ensures |idxs| == |fuels|
    ensures forall j :: 0 <= j < |fuels| ==> idxs[j] == (fuels[j], p, m)
  {
    seq(|fuels|, j requires 0 <= j < |fuels| => (fuels[j], p, m))
  }

  /** `[(f, p, m) for (p, m) in periods_months for f in fuels]`. */
  function RequiredFuelPeriodsMonths(periodsMonths: seq<(int, int)>, fuels: seq<string>): seq<FuelIndex>
    decreases |periodsMonths|
  {
    if periodsMonths == [] then []
    else FuelsAt(periodsMonths[0].0, periodsMonths[0].1, fuels)
         + RequiredFuelPeriodsMonths(periodsMonths[1..], fuels)
  }

  /** The required list has one entry per period-month and fuel. */
  lemma {:induction false} RequiredIndexLength(periodsMonths: seq<(int, int)>, fuels: seq<string>)
    ensures |RequiredFuelPeriodsMonths(periodsMonths, fuels)| == |periodsMonths| * |fuels|
    decreases |periodsMonths|
  {
    if periodsMonths != [] {
      RequiredIndexLength(periodsMonths[1..], fuels);
      MulSucc(|periodsMonths| - 1, |fuels|);
    }
  }

  lemma MulSucc(k: nat, n: nat)
    ensures (k + 1) * n == n + k * n
  {
  }

  /** Row-major positions: (i, j) with i > 0 sits |n| entries after (i - 1, j). */
  lemma RowMajorStep(i: nat, j: nat, k: nat, n: nat)
    requires 0 < i < k && j < n
    ensures i * n + j == n + ((i - 1) * n + j)
    ensures (i - 1) * n + j < (k - 1) * n
  {
    MulSucc(i - 1, n);
    MulMonotone(i, k - 1, n);
  }

  lemma MulMonotone(a: nat, b: nat, n: nat)
    requires a <= b
    ensures a * n <= b * n
  {
  }

  /**
   * The period-month is the outer loop: entry i * |fuels| + j pairs the
   * i-th period-month with the j-th fuel.
   */
  lemma {:induction false} RequiredIndexAt(periodsMonths: seq<(int, int)>, fuels: seq<string>, i: nat, j: nat)
    requires i < |periodsMonths| && j < |fuels|
    ensures i * |fuels| + j < |RequiredFuelPeriodsMonths(periodsMonths, fuels)|
    ensures RequiredFuelPeriodsMonths(periodsMonths, fuels)[i * |fuels| + j]
            == (fuels[j], periodsMonths[i].0, periodsMonths[i].1)
    decreases |periodsMonths|
  {
    var n := |fuels|;
    var head := FuelsAt(periodsMonths[0].0, periodsMonths[0].1, fuels);
    var rest := periodsMonths[1..];
    var r := RequiredFuelPeriodsMonths(periodsMonths, fuels);
    assert r == head + RequiredFuelPeriodsMonths(rest, fuels);
    if i == 0 {
      assert r[j] == head[j];
    } else {
      RowMajorStep(i, j, |periodsMonths|, n);
      RequiredIndexAt(rest, fuels, i - 1, j);
      assert periodsMonths[i] == rest[i - 1];
    }
  }

  /**
   * An index is required iff its fuel is one of the fuels and its period
   * and month are one of the period-months; in particular every required
   * triple's fuel comes from the fuels list.
   */
  lemma {:induction false} RequiredIndexMembership(periodsMonths: seq<(int, int)>, fuels: seq<string>, idx: FuelIndex)
    ensures idx in RequiredFuelPeriodsMonths(periodsMonths, fuels)
            <==> idx.0 in fuels && (idx.1, idx.2) in periodsMonths
    decreases |periodsMonths|
  {
    if periodsMonths != [] {
      var head := FuelsAt(periodsMonths[0].0, periodsMonths[0].1, fuels);
      var rest := periodsMonths[1..];
      RequiredIndexMembership(rest, fuels, idx);
      assert RequiredFuelPeriodsMonths(periodsMonths, fuels) == head + RequiredFuelPeriodsMonths(rest, fuels);
      assert periodsMonths == [periodsMonths[0]] + rest;
      if idx in head {
        var j :| 0 <= j < |head| && head[j] == idx;
        assert fuels[j] == idx.0;
      }
      if idx.0 in fuels && (idx.1, idx.2) == periodsMonths[0] {
        var j :| 0 <= j < |fuels| && fuels[j] == idx.0;
        assert head[j] == idx;
      }
    }
  }

  /** The two index lists `validate_inputs` hands to the index check. */
  datatype ValidationIndices = ValidationIndices(actual: seq<FuelIndex>, required: seq<FuelIndex>)

  /** `validate_inputs`: the actual and the required index lists. */
  function ValidationIndicesOf(fuels: seq<FuelRow>, prices: seq<PriceRow>, periodsMonths: seq<(int, int)>)
    : (v: ValidationIndices)
    ensures |v.actual| == |prices|
    ensures |v.required| == |periodsMonths| * |fuels|
    ensures forall idx :: idx in v.required <==>
              (exists i :: 0 <= i < |fuels| && fuels[i].fuel == idx.0) && (idx.1, idx.2) in periodsMonths
    ensures forall idx :: idx in v.actual <==>
              exists i :: 0 <= i < |prices| && (prices[i].fuel, prices[i].period, prices[i].month) == idx
  {
    var names := FuelNames(fuels);
    var v := ValidationIndices(ActualFuelPeriodsMonths(prices), RequiredFuelPeriodsMonths(periodsMonths, names));
    RequiredIndexLength(periodsMonths, names);
    forall idx ensures idx in v.required <==>
        (exists i :: 0 <= i < |fuels| && fuels[i].fuel == idx.0) && (idx.1, idx.2) in periodsMonths
    {
      RequiredIndexMembership(periodsMonths, names, idx);
      if idx.0 in names {
        var i :| 0 <= i < |names| && names[i] == idx.0;
        assert fuels[i].fuel == idx.0;
      }
      if exists i :: 0 <= i < |fuels| && fuels[i].fuel == idx.0 {
        var i :| 0 <= i < |fuels| && fuels[i].fuel == idx.0;
        assert names[i] == idx.0;
      }
    }
    forall idx | idx in v.actual
      ensures exists i :: 0 <= i < |prices| && (prices[i].fuel, prices[i].period, prices[i].month) == idx
    {
      var i :| 0 <= i < |v.actual| && v.actual[i] == idx;
    }
    forall idx | exists i :: 0 <= i < |prices| && (prices[i].fuel, prices[i].period, prices[i].month) == idx
      ensures idx in v.actual
    {
      var i :| 0 <= i < |prices| && (prices[i].fuel, prices[i].period, prices[i].month) == idx;
      assert v.actual[i] == idx;
    }
    v
  }

  // ---------------------------------------------------------------------
  // Tab files

  /** `os.path.join(scenario_directory, subproblem, stage, "inputs", file)`. */
  function InputsPath(scenarioDirectory: string, subproblem: string, stage: string, file: string): string {
    CommonFunctions.PathJoin(CommonFunctions.PathJoin(CommonFunctions.PathJoin(
      CommonFunctions.PathJoin(scenarioDirectory, subproblem), stage), "inputs"), file)
  }

  const FuelsHeader: seq<Cell> := [TextCell("FUELS"), TextCell("co2_intensity_tons_per_mmbtu")]
  const FuelPricesHeader: seq<Cell> :=
    [TextCell("fuel"), TextCell("period"), TextCell("month"), TextCell("fuel_price_per_mmbtu")]

  /** A written tab file: its path and its lines, each a list of cells. */
  datatype TabFile = TabFile(path: string, lines: seq<seq<Cell>>)

  /**
   * The cells csv.writer receives for a query row (number formatting is not
   * modelled): a NULL intensity is written as an empty cell.
   */
  function FuelCells(r: FuelRow): (cells: seq<Cell>)
    ensures |cells| == 2 && cells[0] == TextCell(r.fuel)
    ensures r.co2IntensityTonsPerMmbtu.None? <==> cells[1] == TextCell("")
    ensures r.co2IntensityTonsPerMmbtu.Some? ==> cells[1] == RealCell(r.co2IntensityTonsPerMmbtu.value)
  {
    [TextCell(r.fuel), if r.co2IntensityTonsPerMmbtu.None? then TextCell("") else RealCell(r.co2IntensityTonsPerMmbtu.value)]
  }

  function PriceCells(r: PriceRow): seq<Cell> {
    [TextCell(r.fuel), IntCell(r.period), IntCell(r.month), RealCell(r.fuelPricePerMmbtu)]
  }

  /** A tab file written as the header row followed by every data row in order. */
  method WriteTab(path: string, header: seq<Cell>, rows: seq<seq<Cell>>) returns (tab: TabFile)
    ensures tab.path == path
    ensures tab.lines == [header] + rows
  {
    var lines := [header];
    for i := 0 to |rows|
      invariant lines == [header] + rows[..i]
    {
      assert rows[..i + 1] == rows[..i] + [rows[i]];
      lines := lines + [rows[i]];
    }
    assert rows[..|rows|] == rows;
    tab := TabFile(path, lines);
  }

  function FuelLines(fuels: seq<FuelRow>): (rows: seq<seq<Cell>>)
    ensures |rows| == |fuels|
  {
    seq(|fuels|, i requires 0 <= i < |fuels| => FuelCells(fuels[i]))
  }

  function PriceLines(prices: seq<PriceRow>): (rows: seq<seq<Cell>>)
    ensures |rows| == |prices|
  {
    seq(|prices|, i requires 0 <= i < |prices| => PriceCells(prices[i]))
  }

  /**
   * `write_model_inputs`: fuels.tab and fuel_prices.tab under
   * str(subproblem)/str(stage)/inputs, each a header and then every query
   * row in order.
   */
  method WriteModelInputs(scenarioDirectory: string, subproblem: PyValue, stage: PyValue,
                          fuels: seq<FuelRow>, prices: seq<PriceRow>)
    returns (fuelsTab: TabFile, fuelPricesTab: TabFile)
    ensures fuelsTab.path == InputsPath(scenarioDirectory, Str(subproblem), Str(stage), "fuels.tab")
    ensures fuelPricesTab.path == InputsPath(scenarioDirectory, Str(subproblem), Str(stage), "fuel_prices.tab")
    ensures fuelsTab.lines == [FuelsHeader] + FuelLines(fuels)
    ensures fuelPricesTab.lines == [FuelPricesHeader] + PriceLines(prices)
  {
    fuelsTab := WriteTab(InputsPath(scenarioDirectory, Str(subproblem), Str(stage), "fuels.tab"),
                         FuelsHeader, FuelLines(fuels));
    fuelPricesTab := WriteTab(InputsPath(scenarioDirectory, Str(subproblem), Str(stage), "fuel_prices.tab"),
                              FuelPricesHeader, PriceLines(prices));
  }

  /**
   * The normalisation of an empty subproblem stays inside the database
   * read: write_model_inputs builds its paths from str(subproblem), so the
   * files of an empty subproblem go directly under str(stage), not under a
   * "1" directory.
   */
  lemma EmptySubproblemPathHasNoOne(scenarioDirectory: string, stage: int, file: string)
    requires scenarioDirectory != "" && scenarioDirectory[|scenarioDirectory| - 1] != '/'
    requires !CommonFunctions.IsAbsolute(file)
    ensures InputsPath(scenarioDirectory, Str(PyStr("")), Str(PyInt(stage)), file)
            == scenarioDirectory + "/" + IntToString(stage) + "/" + "inputs" + "/" + file
    ensures InputsPath(scenarioDirectory, Str(NormaliseId(PyStr(""))), Str(PyInt(stage)), file)
            == scenarioDirectory + "/" + "1" + "/" + IntToString(stage) + "/" + "inputs" + "/" + file
    ensures InputsPath(scenarioDirectory, Str(PyStr("")), Str(PyInt(stage)), file)
            != InputsPath(scenarioDirectory, Str(NormaliseId(PyStr(""))), Str(PyInt(stage)), file)
  {
    var d := scenarioDirectory;
    var st := IntToString(stage);
    assert IsDigit(st[|st| - 1]);
    // Without the normalisation: d, "", str(stage), "inputs", file.
    var p1 := CommonFunctions.PathJoin(d, "");
    JoinRelative(d, "");
    var p2 := CommonFunctions.PathJoin(p1, st);
    assert p1[|p1| - 1] == '/';
    JoinAfterSlash(p1, st);
    assert p2 == d + "/" + st;
    JoinRelative(p2, "inputs");
    var p3 := p2 + "/" + "inputs";
    JoinRelative(p3, file);
    // With it: d, "1", str(stage), "inputs", file.
    var q1 := d + "/" + "1";
    JoinRelative(d, "1");
    JoinRelative(q1, st);
    var q2 := q1 + "/" + st;
    JoinRelative(q2, "inputs");
    var q3 := q2 + "/" + "inputs";
    JoinRelative(q3, file);
    assert |p3 + "/" + file| + 2 == |q3 + "/" + file|;
  }

  lemma JoinRelative(a: string, b: string)
    requires a != "" && a[|a| - 1] != '/' && !CommonFunctions.IsAbsolute(b)
    ensures CommonFunctions.PathJoin(a, b) == a + "/" + b
  {
  }

  lemma JoinAfterSlash(a: string, b: string)
    requires a != "" && a[|a| - 1] == '/' && !CommonFunctions.IsAbsolute(b)
    ensures CommonFunctions.PathJoin(a, b) == a + b
  {
  }

  // ---------------------------------------------------------------------
  // Loading

  /** A `DataPortal.load` call: which parameter is loaded and from which file. */
  datatype Load = LoadFuelChars(file: string) | LoadFuelPrices(file: string)

  /** The data rows of a tab file as pandas reads it: every line after the header. */
  function DataRows(tab: TabFile): (rows: seq<seq<Cell>>)
    ensures |rows| == if tab.lines == [] then 0 else |tab.lines| - 1
  {
    if tab.lines == [] then [] else tab.lines[1..]
  }

  /**
   * The loads `load_model_data` issues: fuel characteristics when fuels.tab
   * has data rows, and the fuel prices under the same test on fuels.tab
   * (fuel_prices.tab's own rows are read but not consulted).
   */
  function LoadsFor(fuelsPath: string, fuelsTab: TabFile, fuelPricesPath: string, fuelPricesTab: TabFile)
    : (loads: seq<Load>)
    ensures LoadFuelChars(fuelsPath) in loads <==> DataRows(fuelsTab) != []
    ensures LoadFuelPrices(fuelPricesPath) in loads <==> DataRows(fuelsTab) != []
    ensures |loads| <= 2
  {
    if DataRows(fuelsTab) == [] then []
    else [LoadFuelChars(fuelsPath), LoadFuelPrices(fuelPricesPath)]
  }

  /** The data portal: the loads issued so far, in order. */
  class DataPortal {
    var loads: seq<Load>

    constructor ()
      ensures loads == []
    {
      loads := [];
    }

    /** `load_model_data`, given what pandas reads from the two files. */
    method LoadModelData(scenarioDirectory: string, subproblem: string, stage: string,
                         fuelsTab: TabFile, fuelPricesTab: TabFile)
      modifies this
      ensures loads == old(loads) + LoadsFor(
        InputsPath(scenarioDirectory, subproblem, stage, "fuels.tab"), fuelsTab,
        InputsPath(scenarioDirectory, subproblem, stage, "fuel_prices.tab"), fuelPricesTab)
    {
      var fuelsFile := InputsPath(scenarioDirectory, subproblem, stage, "fuels.tab");
      var fuelsEmpty := DataRows(fuelsTab) == [];
      if !fuelsEmpty {
        loads := loads + [LoadFuelChars(fuelsFile)];
      }
      var fuelPricesFile := InputsPath(scenarioDirectory, subproblem, stage, "fuel_prices.tab");
      var fuelPricesEmpty := DataRows(fuelPricesTab) == [];
      if !fuelsEmpty {
        loads := loads + [LoadFuelPrices(fuelPricesFile)];
      }
    }
  }

  /**
   * The price load follows fuels.tab only: an empty fuel_prices.tab is
   * still loaded when fuels.tab has rows, and a non-empty one is skipped
   * when fuels.tab has none.
   */
  lemma PriceLoadIgnoresPriceFile(fuelsPath: string, fuelsTab: TabFile, fuelPricesPath: string,
                                  tab1: TabFile, tab2: TabFile)
    ensures LoadsFor(fuelsPath, fuelsTab, fuelPricesPath, tab1) == LoadsFor(fuelsPath, fuelsTab, fuelPricesPath, tab2)
  {
  }

  /**
   * Writing then loading: for a string subproblem and stage, the files
   * `write_model_inputs` writes are those `load_model_data` reads; both
   * loads happen iff the fuels query returned a row, whatever the prices
   * query returned.
   */
  lemma {:induction false} WrittenInputsLoadIffFuels(scenarioDirectory: string, subproblem: string, stage: string,
                                                     fuels: seq<FuelRow>, prices: seq<PriceRow>,
                                                     fuelsTab: TabFile, fuelPricesTab: TabFile)
    requires fuelsTab == TabFile(InputsPath(scenarioDirectory, subproblem, stage, "fuels.tab"),
                                 [FuelsHeader] + FuelLines(fuels))
    requires fuelPricesTab == TabFile(InputsPath(scenarioDirectory, subproblem, stage, "fuel_prices.tab"),
                                      [FuelPricesHeader] + PriceLines(prices))
    ensures LoadFuelChars(fuelsTab.path) in LoadsFor(fuelsTab.path, fuelsTab, fuelPricesTab.path, fuelPricesTab)
            <==> fuels != []
    ensures LoadFuelPrices(fuelPricesTab.path) in LoadsFor(fuelsTab.path, fuelsTab, fuelPricesTab.path, fuelPricesTab)
            <==> fuels != []
    ensures DataRows(fuelPricesTab) == PriceLines(prices)
  {
    assert DataRows(fuelsTab) == FuelLines(fuels);
    assert |FuelLines(fuels)| == |fuels|;
  }
}
