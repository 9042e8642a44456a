# GridPath core logic in Dafny

This project models the sequential, solver-independent logic under
GridPath's Pyomo formulation and proves properties of it. It covers ten
source files:

- **Reserve provision** (`gridpath/project/operations/reserves/reserve_provision.py`):
  - the dynamic-components registry, filled from the rows of `projects.tab`;
  - the restriction of project-operational timepoints to reserve projects;
  - the derate and energy-adjustment defaults;
  - the column choices of the data load;
  - the staged import of reserve-provision results.
- **Operational costs** (`gridpath/project/operations/costs.py`):
  - the variable O&M, fuel, startup and shutdown cost rules, with dispatch through the operational-type modules;
  - the four staged imports of the cost result tables.
- **Scenario SQL builders** (`db/utilities/scenario.py`): `create_scenario`, the single- and multiple-column updates, and the 74-column `create_scenario_all_args`.
- **Fuels** (`gridpath/project/fuels.py`):
  - subproblem and stage normalisation;
  - the required (fuel, period, month) index;
  - load gating;
  - the written `fuels.tab` and `fuel_prices.tab`.
- **New-build storage** (`modules/project/capacity/capacity_types/new_build_storage.py`): capacity and cost sums over operational vintages, and the registry appends.
- **Fully deliverable energy-limited PRM type** (`gridpath/project/prm/prm_types/fully_deliverable_energy_limited.py`):
  - the set initialisers;
  - the eligible-capacity bounds;
  - the `projects.tab` column append.
- **Carbon-cap balance** (`gridpath/system/policy/carbon_cap/carbon_balance.py`):
  - the emissions sum, the cap and the MMT conversion;
  - `save_duals`;
  - the in-place results-table update.
- **Operational types**:
  - must-run (`modules/project/operations/operational_types/must_run.py`);
  - variable (`modules/generation/operations/operational_types/variable.py`).
- **Scenario directory** (`gridpath/common_functions.py`): `determine_scenario_directory`.

## How the model is built

Pyomo parameters, variables and expressions are plain inputs:

- total functions such as `string -> real`;
- sets;
- sequences in the order the source iterates them.

Quantities are `real`. A constraint rule is either a value (`Skip`, or `CostAtLeast(bound)`) or a predicate.

Database tables are abstract:

- a row maps column names to typed cells;
- a table is a sequence of rows in insertion order.

The temporary-table `INSERT` pairs its column list with its positional `VALUES` list exactly as written. As a result, the reserve-provision import's swap of the balancing-area and load-zone values is a consequence of the model, not a hand-coded case.

Code that changes state in place is modelled as classes:

- the dynamic-components registry;
- a result table with its temporary tables;
- the carbon results table;
- the duals registry;
- the capacity-type registry;
- the data portal.

Each method of these classes states its new state in terms of specification functions. Four of them loop, and their invariants tie each step to those functions: ReserveProvision.DynamicComponents.ScanAllRows, Staging.ResultTable.InsertAllIntoTemp, and CarbonBalance.ResultsSystemCarbonEmissions.UpdateEmissions and UpdateDuals.

The fuels and the projects-file rewrite produce tab files as sequences of typed cells.

The operational-type modules that `costs.py` calls are a map from operational type to a record of rules. A module may lack a fuel-burn rule, and any rule may raise an error with a message.

Shared modules:

- `Wrappers`: Option, Result and Outcome.
- `PyValues`: Python values and `str()`.
- `IndexSets`: the project-timepoint restriction used by reserve provision and must-run.
- `Staging`: the delete / temp-table / insert / sorted-copy / drop import, used by reserve provision and costs.
- `RuleErrors`: the error text of the must-run and variable startup/shutdown rules.

## Model

| member | source | states |
|---|---|---|
| IndexSets.RestrictToProjects | gridpath/project/operations/reserves/reserve_provision.py:127-133 | the reserve project-timepoints are exactly the project-operational timepoints whose project is a reserve project, hence a subset of them |
| ReserveProvision.FirstPosition | gridpath/project/operations/reserves/reserve_provision.py:60 | the position found holds the name and no earlier position does; None exactly when the header lacks the name |
| ReserveProvision.ScanRow | gridpath/project/operations/reserves/reserve_provision.py:57-76 | processing one row never removes a project nor shortens a project's existing list |
| ReserveProvision.ScanProjects | gridpath/project/operations/reserves/reserve_provision.py:57-76 | the scan over all rows never removes a project nor shortens an existing list |
| ReserveProvision.ListedProjects | gridpath/project/operations/reserves/reserve_provision.py:57-66 | a project is listed iff some row names it in the project column |
| ReserveProvision.Provisions | gridpath/project/operations/reserves/reserve_provision.py:73-76 | the variable is appended for g iff some row of g has a balancing-area cell other than "."; nothing else is appended |
| ReserveProvision.ScanRowStep | gridpath/project/operations/reserves/reserve_provision.py:57-76 | one row adds its project as a key and appends the variable to that project's list only, iff its balancing-area cell is not "." |
| ReserveProvision.ExistingAfterRow | gridpath/project/operations/reserves/reserve_provision.py:62-76 | after one row each project's list is the old list, extended by the variable only for the row's own project with a zone |
| ReserveProvision.ListedProjectsUnfold | gridpath/project/operations/reserves/reserve_provision.py:57-66 | the listed projects of a table are the first row's project plus those of the rest |
| ReserveProvision.ScannableTail | gridpath/project/operations/reserves/reserve_provision.py:57 | the rows after the first are still well formed for the scan |
| ReserveProvision.ScanKeys | gridpath/project/operations/reserves/reserve_provision.py:57-66 | the scan succeeds and the registry's projects are the old ones plus every project in the file |
| ReserveProvision.ScanListOf | gridpath/project/operations/reserves/reserve_provision.py:62-76 | each project's list is its existing list (kept, not reset) followed by one variable entry per row of it with a zone |
| ReserveProvision.ScanCharacterised | gridpath/project/operations/reserves/reserve_provision.py:57-76 | the scan's resulting registry, keys and lists together, in terms of the file's rows |
| ReserveProvision.ScanRegistersEligibleProjects | gridpath/project/operations/reserves/reserve_provision.py:73-76 | when the variable was not yet registered, g ends up with it iff some row of g names a balancing area |
| ReserveProvision.DynamicComponents.constructor | gridpath/project/operations/reserves/reserve_provision.py:49-94 | the registries start empty |
| ReserveProvision.DynamicComponents.SetRoomVariables | gridpath/project/operations/reserves/reserve_provision.py:65-76 | replaces the chosen headroom or footroom map and leaves the other map and the other registries unchanged |
| ReserveProvision.DynamicComponents.ScanOneRow | gridpath/project/operations/reserves/reserve_provision.py:57-76 | the in-place update of one row equals ScanRow on the old map; nothing else changes |
| ReserveProvision.DynamicComponents.ScanAllRows | gridpath/project/operations/reserves/reserve_provision.py:57-76 | the row loop leaves the map equal to ScanProjects of the old map and touches nothing else |
| ReserveProvision.DynamicComponents.DetermineDynamicComponents | gridpath/project/operations/reserves/reserve_provision.py:49-94 | appends the reserve module once, keeping earlier entries; a repeated header fails with the registries untouched; otherwise the scan's map; on success sets the derate entry and the (adjustment, balancing-area) entry for this variable only |
| ReserveProvision.ProvisionDerate | gridpath/project/operations/reserves/reserve_provision.py:148-151 | the derate lies in [0, 1] and defaults to 1 for a project with no loaded value |
| ReserveProvision.EnergyAdjustment | gridpath/project/operations/reserves/reserve_provision.py:158-161 | the adjustment lies in [0, 1] and defaults to 0 for a balancing area with no loaded value |
| ReserveProvision.PlanLoad | gridpath/project/operations/reserves/reserve_provision.py:191-231 | always selects project and balancing-area columns; adds the derate column iff the header has it; loads the adjustment iff the balancing-area header has it |
| ReserveProvision.BalancingAreaParam | gridpath/project/operations/reserves/reserve_provision.py:208-212 | the loaded balancing-area parameter is defined exactly for projects whose cell is not "." |
| ReserveProvision.ReserveProjects | gridpath/project/operations/reserves/reserve_provision.py:214-216 | the reserve project set is the key set of the loaded balancing-area parameter (its meaning is stated by RegistryAgreesWithReserveProjects) |
| ReserveProvision.RegistryAgreesWithReserveProjects | gridpath/project/operations/reserves/reserve_provision.py:73-76 | the projects the registry gives the variable are exactly the reserve project set the data load builds from the same file |
| ReserveProvision.TempColumns | gridpath/project/operations/reserves/reserve_provision.py:303-318 | eleven columns, with the key columns and load_zone before <reserve>_ba at positions 7 and 8 |
| ReserveProvision.InsertedValues | gridpath/project/operations/reserves/reserve_provision.py:347-352 | eleven values, one per column |
| ReserveProvision.StagedRows | gridpath/project/operations/reserves/reserve_provision.py:329-353 | one staged row per CSV row |
| ReserveProvision.StagedRow | gridpath/project/operations/reserves/reserve_provision.py:338-351 | the temporary-table row of one CSV record: the INSERT column list paired position by position with its VALUES list (the swap is stated by StagedRowSwapsZones) |
| ReserveProvision.TempColumnsDistinct | gridpath/project/operations/reserves/reserve_provision.py:303-318 | the temporary table's column names are distinct |
| ReserveProvision.StagedRowSwapsZones | gridpath/project/operations/reserves/reserve_provision.py:336-351 | a stored row's key is (scenario, project, timepoint), its load_zone holds the CSV balancing area and its <reserve>_ba holds the CSV load zone |
| ReserveProvision.StagedRowAt | gridpath/project/operations/reserves/reserve_provision.py:343-352 | column i of a staged row holds VALUES item i |
| ReserveProvision.ZoneRoundTripNeedsEqualNames | gridpath/project/operations/reserves/reserve_provision.py:336-351 | reading load_zone (or <reserve>_ba) back gives the CSV field of that name iff the load zone and balancing area are equal |
| ReserveProvision.StagedRowsKeys | gridpath/project/operations/reserves/reserve_provision.py:317-353 | staged rows all carry the scenario id; their keys are unique iff the CSV has no repeated (project, timepoint) |
| ReserveProvision.ImportResultsIntoDatabase | gridpath/project/operations/reserves/reserve_provision.py:288-377 | succeeds iff (project, timepoint) pairs are distinct; then the table is the others' rows followed by the staged rows in key order; on failure the scenario's rows are already deleted; in every outcome the temporary tables are TempsAfterImport: dropped on success, left holding the rows before the first repeated key on failure |
| Staging.Zip | gridpath/project/operations/costs.py:321-334 | an inserted row has exactly the listed columns |
| Staging.ZipAt | gridpath/project/operations/costs.py:321-334 | with distinct column names, column i receives value i |
| Staging.TextLeTotal | gridpath/project/operations/costs.py:349 | the text ordering of ORDER BY project is total |
| Staging.TextLeAntisymmetric | gridpath/project/operations/costs.py:349 | and antisymmetric |
| Staging.TextLeTransitive | gridpath/project/operations/costs.py:349 | and transitive |
| Staging.KeyLeTotal | gridpath/project/operations/costs.py:349 | ORDER BY scenario_id, project, timepoint is total |
| Staging.KeyLeTransitive | gridpath/project/operations/costs.py:349 | and transitive |
| Staging.InsertByKeyPermutes | gridpath/project/operations/costs.py:338-350 | inserting a row into the ordered copy adds exactly that row |
| Staging.InsertByKeyKeepsLowerBound | gridpath/project/operations/costs.py:338-350 | inserting a row at or after a key keeps every row at or after it |
| Staging.InsertByKeySorts | gridpath/project/operations/costs.py:338-350 | inserting into a sorted sequence keeps it sorted |
| Staging.SortByKeySorts | gridpath/project/operations/costs.py:338-350 | the copy into the permanent table is ordered by (scenario_id, project, timepoint) |
| Staging.SortByKeyPermutes | gridpath/project/operations/costs.py:338-350 | the ordered copy holds exactly the temporary table's rows, as a multiset |
| Staging.InsertByKey | gridpath/project/operations/costs.py:338-350 | one insertion step of the ORDER BY copy: the row goes before the first row whose key is not below it (properties in InsertByKeyPermutes, InsertByKeySorts) |
| Staging.SortByKey | gridpath/project/operations/costs.py:338-350 | the rows of the temporary table in ORDER BY scenario_id, project, timepoint (properties in SortByKeySorts, SortByKeyPermutes) |
| Staging.WithoutScenario | gridpath/project/operations/costs.py:270-276 | DELETE keeps exactly the rows of other scenarios and never adds rows |
| Staging.ScenarioRows | gridpath/project/operations/costs.py:270-276 | the rows a scenario query sees are exactly those with that scenario id |
| Staging.ScenarioRowsAppend | gridpath/project/operations/costs.py:338-350 | a scenario's rows of an appended table are those of each part, in order |
| Staging.WithoutScenarioAppend | gridpath/project/operations/costs.py:270-276 | deleting a scenario from an appended table deletes it from each part |
| Staging.ScenarioRowsOfOneScenario | gridpath/project/operations/costs.py:321-334 | rows all of one scenario are that scenario's rows, no other's, and vanish when it is deleted |
| Staging.SortedRowsOfOneScenario | gridpath/project/operations/costs.py:338-350 | sorting keeps every row in its scenario |
| Staging.ImportReplacesScenarioRows | gridpath/project/operations/costs.py:270-359 | after an import, the scenario's rows are exactly the staged batch, sorted by key |
| Staging.ImportKeepsOtherScenarios | gridpath/project/operations/costs.py:270-359 | an import leaves every other scenario's rows as they were |
| Staging.AfterImport | gridpath/project/operations/costs.py:270-359 | the permanent table after a successful import: the other scenarios' rows followed by the sorted batch (ImportReplacesScenarioRows, ImportKeepsOtherScenarios) |
| Staging.DeleteEmptiesScenario | gridpath/project/operations/costs.py:270-276 | after the delete the scenario has no rows |
| Staging.OtherScenarioSurvivesDelete | gridpath/project/operations/costs.py:270-276 | the delete keeps every other scenario's rows in order |
| Staging.ImportIdempotent | gridpath/project/operations/costs.py:270-359 | importing the same batch twice leaves the table as importing it once |
| Staging.WithoutScenarioIdempotent | gridpath/project/operations/costs.py:270-276 | deleting a scenario twice equals deleting it once |
| Staging.ResultTable.constructor | gridpath/project/operations/costs.py:258-359 | a table with the given rows and no temporary tables |
| Staging.ResultTable.DeleteScenario | gridpath/project/operations/costs.py:270-276 | removes the scenario's permanent rows; temporary tables unchanged |
| Staging.ResultTable.DropTempIfExists | gridpath/project/operations/costs.py:279-284 | removes the scenario's temporary table if there is one |
| Staging.ResultTable.CreateTemp | gridpath/project/operations/costs.py:286-302 | creates an empty temporary table for the scenario |
| Staging.ResultTable.InsertTemp | gridpath/project/operations/costs.py:321-334 | the primary key rejects a row iff its key is already in the temporary table; otherwise appends it |
| Staging.ResultTable.CopySortedToPermanent | gridpath/project/operations/costs.py:338-351 | appends the temporary table's rows to the permanent table in key order |
| Staging.ResultTable.DropTemp | gridpath/project/operations/costs.py:354-359 | removes the scenario's temporary table |
| Staging.ResultTable.ImportScenario | gridpath/project/operations/costs.py:270-359 | succeeds iff the staged keys are unique; then permanent = others + sorted batch and the temporary table is gone; a repeated key at the first repeat (FirstRepeat) leaves the scenario deleted and the temporary table holding the rows before it; the temporary tables are TempsAfterImport in every outcome |
| Staging.FirstRepeatFrom | gridpath/project/operations/costs.py:299-334 | from position i on, the first row whose key an earlier row has, or the end: the prefix before it is duplicate-free |
| Staging.FirstRepeat | gridpath/project/operations/costs.py:299-334 | where the temporary table's primary key stops the insert loop: a duplicate-free prefix followed by a repeated key, at the end exactly when keys are unique |
| Staging.FirstRepeatIsFirst | gridpath/project/operations/costs.py:299-334 | a position with a duplicate-free prefix and a repeated key is the first repeat, so the stopping point is determined |
| Staging.TempsAfterImport | gridpath/project/operations/costs.py:279-359 | the temporary tables after an import: the scenario's one is gone iff keys are unique, otherwise it holds a duplicate-free proper prefix of the batch; other scenarios' temporary tables are unchanged |
| Staging.ResultTable.InsertAllIntoTemp | gridpath/project/operations/costs.py:311-334 | the insert loop fills the temporary table with the whole batch iff its keys are unique, else stops at the first repeated key |
| Staging.RecreatedTempFilled | gridpath/project/operations/costs.py:279-302 | dropping, recreating and filling a temporary table only replaces its own entry |
| Staging.RecreatedTempDropped | gridpath/project/operations/costs.py:354-359 | dropping it again leaves the other temporary tables as they were |
| Staging.UniqueKeysExtend | gridpath/project/operations/costs.py:299 | a row whose key is new keeps the inserted prefix's keys unique |
| Staging.DuplicateBreaksUniqueness | gridpath/project/operations/costs.py:299 | a row whose key is already inserted makes the batch's keys not unique |
| Staging.FailedImportEmptiesScenario | gridpath/project/operations/costs.py:270-276 | after a failed import the scenario has no rows and other scenarios are untouched |
| Costs.VariableOmCost | gridpath/project/operations/costs.py:26-35 | power provision times the variable O&M rate: zero when either factor is zero, non-negative when both are |
| Costs.VariableOmCostMonotone | gridpath/project/operations/costs.py:26-35 | the variable O&M cost is non-negative, zero for zero output, and never lower for more output at a non-negative rate |
| Costs.FuelCost | gridpath/project/operations/costs.py:44-61 | fails with UnknownOperationalType when g's type has no module, with NoFuelBurnRule when the module defines no fuel burn, and with the rule's own message when the burn raises; otherwise succeeds with the burn times the price at (fuel[g], period[tmp], month[horizon[tmp]]); succeeds iff the module exists and its burn succeeds |
| Costs.StartupExpression | gridpath/project/operations/costs.py:64-79 | fails with UnknownOperationalType when g's type has no module; otherwise it is the startup rule of that module, its failure carrying the rule's message; succeeds iff that rule succeeds |
| Costs.ShutdownExpression | gridpath/project/operations/costs.py:81-96 | fails with UnknownOperationalType when g's type has no module; otherwise it is the shutdown rule of that module, its failure carrying the rule's message; succeeds iff that rule succeeds |
| Costs.RulesComeFromOwnModule | gridpath/project/operations/costs.py:44-96 | fuel cost and startup/shutdown expressions depend on no module other than the one keyed by g's operational type |
| Costs.StartsLinearHorizon | gridpath/project/operations/costs.py:118-119 | tmp is the first timepoint of its horizon and that horizon's boundary is "linear" (the skip condition of CostConstraintRule) |
| Costs.CostConstraintRule | gridpath/project/operations/costs.py:118-124 | skipped exactly on the first timepoint of a linear horizon, otherwise cost >= expression × per-unit cost |
| Costs.StartupCostRule | gridpath/project/operations/costs.py:102-128 | skipped iff tmp starts a linear horizon; otherwise the bound is the startup expression × startup cost per unit |
| Costs.ShutdownCostRule | gridpath/project/operations/costs.py:130-156 | skipped iff tmp starts a linear horizon; otherwise the bound is the shutdown expression × shutdown cost per unit |
| Costs.FeasibleCosts | gridpath/project/operations/costs.py:97-124 | with the non-negativity of the cost variable, feasible costs are exactly those >= max(0, expression × rate), or >= 0 where skipped |
| Costs.TempColumns | gridpath/project/operations/costs.py:286-300 | ten columns with scenario_id, project and timepoint at positions 0, 1 and 4 |
| Costs.InsertedValues | gridpath/project/operations/costs.py:328-333 | ten values, one per column |
| Costs.StagedRows | gridpath/project/operations/costs.py:311-334 | one staged row per CSV row |
| Costs.StagedRow | gridpath/project/operations/costs.py:311-333 | the temporary-table row of one CSV record: the INSERT column list paired position by position with its VALUES list (fields stated by StagedRowFields) |
| Costs.TempColumnsDistinct | gridpath/project/operations/costs.py:286-300 | the column names are distinct |
| Costs.StagedRowFields | gridpath/project/operations/costs.py:312-333 | a stored row has key (scenario, project, timepoint) and holds the record's own load zone and cost |
| Costs.StagedRowAt | gridpath/project/operations/costs.py:325-333 | column i of a staged row holds VALUES item i |
| Costs.StagedRowsKeys | gridpath/project/operations/costs.py:299-334 | staged rows all carry the scenario id; keys are unique iff (project, timepoint) pairs are distinct |
| Costs.ImportCostTable | gridpath/project/operations/costs.py:270-359 | one block succeeds iff keys are distinct and leaves the table as TableAfter and its temporary tables as TempsAfter: dropped on success, left behind with the rows before the repeated key on failure |
| Costs.TableAfter | gridpath/project/operations/costs.py:270-359 | a cost table after the import: unchanged when the import stops before it, the sorted import when its keys are distinct, else emptied of the scenario (OtherScenariosUntouched, ScenarioRowsAfterImport) |
| Costs.TempsAfter | gridpath/project/operations/costs.py:270-359 | a cost table's temporary tables after the import: unchanged when the import stops before it, otherwise TempsAfterImport of its staged rows |
| Costs.TempsAfterReached | gridpath/project/operations/costs.py:270-359 | a reached block drops the scenario's temporary table iff its records have distinct keys; a leftover one holds a duplicate-free proper prefix of the staged rows; other scenarios' temporary tables stay |
| Costs.FirstFailure | gridpath/project/operations/costs.py:270-635 | the import passes iff all four files have distinct keys |
| Costs.ImportResultsIntoDatabase | gridpath/project/operations/costs.py:258-635 | the four blocks run in order on four distinct tables; each reached table is imported or emptied of the scenario, with its temporary table dropped or left behind; the tables after a failing block keep both their rows and their temporary tables |
| Costs.OtherScenariosUntouched | gridpath/project/operations/costs.py:270-635 | whatever happens, every other scenario's rows in each table are unchanged |
| Costs.ScenarioRowsAfterImport | gridpath/project/operations/costs.py:270-359 | a reached table holds, for the scenario, exactly the staged rows in key order, or nothing after a repeated key |
| Scenario.Keys | db/utilities/scenario.py:424 | the mapping's keys in order |
| Scenario.IndexOf | db/utilities/scenario.py:432 | list.index: the first position holding the key, or the length if absent |
| Scenario.JoinSnoc | db/utilities/scenario.py:433-439 | appending a part adds it after ", " except on an empty list |
| Scenario.Join | db/utilities/scenario.py:433-443 | the parts separated by ", ", as the loop builds the two strings (JoinSnoc, JoinPrefixStep) |
| Scenario.IndexOfDistinct | db/utilities/scenario.py:432 | with distinct keys the index of key i is i |
| Scenario.ValueTexts | db/utilities/scenario.py:434-443 | one value text per entry |
| Scenario.CreateScenarioStep | db/utilities/scenario.py:424-443 | one loop step: key i is first iff i == 0; the names and values strings grow by the key and value text with the ", " separator after the first; the warning condition accumulates |
| Scenario.ValueText | db/utilities/scenario.py:433-443 | the value text of the entry at a position: NULL for None, quoted str() first, bare str() after (ColumnsMatchValues, UpdateValueText) |
| Scenario.CreateScenarioStatement | db/utilities/scenario.py:445-448 | the INSERT whose column list joins the keys and whose value list joins the value texts (CreateScenario proves the loop builds it) |
| Scenario.JoinPrefixStep | db/utilities/scenario.py:433-443 | joining one more part of a list extends the prefix join |
| Scenario.CreateScenario | db/utilities/scenario.py:403-450 | the accumulating loop produces the statement with column list and value list joined by ", ", and warns iff scenario_id is a key |
| Scenario.ColumnsMatchValues | db/utilities/scenario.py:424-443 | as many columns as values; None is NULL; the first string is quoted, later strings are bare |
| Scenario.ScenarioIdStillInserted | db/utilities/scenario.py:424-443 | for any value, a scenario_id key makes CreateScenario warn (its warning condition holds) and still puts "scenario_id" at its own position of the column list and that entry's own value text at the same position of the value list; an integer id is written as its str(), never NULL |
| Scenario.UpdateValueText | db/utilities/scenario.py:495-500 | strings are quoted, integers are str(v), and the text is NULL exactly for None |
| Scenario.UpdateScenarioSingleColumn | db/utilities/scenario.py:478-509 | sets the named column for the named scenario to the quoted string, str of an integer, or NULL exactly for None |
| Scenario.UpdateScenarioMultipleColumns | db/utilities/scenario.py:453-475 | issues exactly one single-column update per key, in key order |
| Scenario.Bares | db/utilities/scenario.py:249-321 | the unquoted placeholders |
| Scenario.AllArgsValueTexts | db/utilities/scenario.py:247-397 | one formatted value per placeholder |
| Scenario.AllArgsAligned | db/utilities/scenario.py:172-397 | 74 column names, 74 placeholders and 74 format arguments, with scenario_name first |
| Scenario.AllArgsQuoting | db/utilities/scenario.py:247-321 | only the first (scenario name) placeholder is quoted |
| Scenario.AllArgsEntries | db/utilities/scenario.py:172-246 | the arguments as entries in column order |
| Scenario.AllArgsAgreesWithCreateScenario | db/utilities/scenario.py:171-450 | with no None argument, the all-args statement is the one create_scenario builds from the same columns |
| Scenario.AllArgsWritesNoneAsText | db/utilities/scenario.py:247-397 | a None argument is written as the text None (quoted for the name) where create_scenario writes NULL |
| Fuels.NormaliseId | gridpath/project/fuels.py:94-95 | "" becomes 1 and any other value is kept |
| Fuels.FuelNames | gridpath/project/fuels.py:223 | the fuel column of the query rows, in order |
| Fuels.ActualFuelPeriodsMonths | gridpath/project/fuels.py:224-226 | the (fuel, period, month) of each price row, in row order |
| Fuels.FuelsAt | gridpath/project/fuels.py:227 | the inner loop: every fuel paired with one (period, month) |
| Fuels.RequiredIndexLength | gridpath/project/fuels.py:227 | the required index has |periods_months| × |fuels| entries |
| Fuels.RequiredIndexAt | gridpath/project/fuels.py:227 | entry i × |fuels| + j is (fuels[j], period i, month i): period-month is the outer loop |
| Fuels.RequiredIndexMembership | gridpath/project/fuels.py:227 | a triple is required iff its fuel is a fuel and its (period, month) is in periods_months |
| Fuels.RequiredFuelPeriodsMonths | gridpath/project/fuels.py:227 | [(f, p, m) for (p, m) in periods_months for f in fuels] (RequiredIndexLength, RequiredIndexAt, RequiredIndexMembership) |
| Fuels.ValidationIndicesOf | gridpath/project/fuels.py:222-227 | the actual and required index lists with their lengths and memberships |
| Fuels.WriteTab | gridpath/project/fuels.py:314-320 | the written file is the header followed by every row in order |
| Fuels.FuelLines | gridpath/project/fuels.py:319-320 | one line per fuel row |
| Fuels.PriceLines | gridpath/project/fuels.py:334-335 | one line per price row |
| Fuels.FuelCells | gridpath/project/fuels.py:319-320 | a fuel row is written as its fuel and its CO2 intensity, the NULL intensity from the outer join (lines 112-118) as an empty cell and only then |
| Fuels.WriteModelInputs | gridpath/project/fuels.py:307-335 | fuels.tab and fuel_prices.tab under inputs/ of str(subproblem)/str(stage), each its header followed by the query rows |
| Fuels.EmptySubproblemPathHasNoOne | gridpath/project/fuels.py:94-95 | the "" to 1 normalisation is local to the database read: write_model_inputs (lines 307-335) writes an empty subproblem's files directly under str(stage), not under a "1" directory |
| Fuels.DataRows | gridpath/project/fuels.py:65-66 | a tab file's data rows are all lines but the header |
| Fuels.LoadsFor | gridpath/project/fuels.py:59-83 | fuel characteristics are loaded iff fuels.tab has data, and so are fuel prices, whatever fuel_prices.tab holds |
| Fuels.DataPortal.constructor | gridpath/project/fuels.py:59-83 | no loads yet |
| Fuels.DataPortal.LoadModelData | gridpath/project/fuels.py:59-83 | appends exactly the gated loads for the two files under inputs/ |
| Fuels.PriceLoadIgnoresPriceFile | gridpath/project/fuels.py:79-83 | the contents of fuel_prices.tab never change what is loaded |
| Fuels.WrittenInputsLoadIffFuels | gridpath/project/fuels.py:65-83 | for files written by write_model_inputs, both loads happen iff there are fuels, even when there are prices |
| NewBuildStorage.OwnVintages | modules/project/capacity/capacity_types/new_build_storage.py:64-66 | exactly the operational vintages whose project is g |
| NewBuildStorage.FilteredSumIsSumOfOwn | modules/project/capacity/capacity_types/new_build_storage.py:64-66 | the filtered comprehension sum equals the sum over g's own vintages |
| NewBuildStorage.CapacityRule | modules/project/capacity/capacity_types/new_build_storage.py:56-70 | capacity is the sum of power builds over g's own vintages operational in p (also the New_Build_Storage_Power_Capacity_MW expression, lines 56-70, which capacity_rule at 89-97 returns) |
| NewBuildStorage.EnergyCapacityRule | modules/project/capacity/capacity_types/new_build_storage.py:72-86 | energy capacity is the sum of energy builds over g's vintages operational in p |
| NewBuildStorage.FilteredSumAdditive | modules/project/capacity/capacity_types/new_build_storage.py:118-124 | a filtered sum of a sum is the sum of the filtered sums |
| NewBuildStorage.CapacityCostSplits | modules/project/capacity/capacity_types/new_build_storage.py:111-124 | capacity cost equals the power-cost sum plus the energy-cost sum |
| NewBuildStorage.CapacityCostRule | modules/project/capacity/capacity_types/new_build_storage.py:111-124 | the capacity cost is the sum, over g's own vintages operational in p, of power build × cost per MW-yr plus energy build × cost per MWh-yr |
| NewBuildStorage.CostIsFilteredSum | modules/project/capacity/capacity_types/new_build_storage.py:118-124 | the cost rule's accumulation is the filtered sum of per-vintage costs |
| NewBuildStorage.OtherProjectsIgnored | modules/project/capacity/capacity_types/new_build_storage.py:64-66 | values of other projects' vintages never affect g's sums |
| NewBuildStorage.OtherVintagesAddNothing | modules/project/capacity/capacity_types/new_build_storage.py:122-124 | adding other projects' vintages leaves g's sum unchanged |
| NewBuildStorage.NoOwnVintages | modules/project/capacity/capacity_types/new_build_storage.py:64-66 | with no vintage of g operational, the sum is 0 |
| NewBuildStorage.FilteredSumNonNegative | modules/project/capacity/capacity_types/new_build_storage.py:20-32 | non-negative terms give a non-negative sum |
| NewBuildStorage.CapacitiesAndCostNonNegative | modules/project/capacity/capacity_types/new_build_storage.py:20-32 | with non-negative builds and cost parameters, both capacities and the cost are non-negative |
| NewBuildStorage.CapacityTypeRegistry.constructor | modules/project/capacity/capacity_types/new_build_storage.py:43-50 | both registry lists start empty |
| NewBuildStorage.CapacityTypeRegistry.AddModuleSpecificComponents | modules/project/capacity/capacity_types/new_build_storage.py:43-50 | appends NEW_BUILD_STORAGE_OPERATIONAL_PERIODS to each of the two lists |
| NewBuildStorage.AppendAddsOneOccurrence | modules/project/capacity/capacity_types/new_build_storage.py:43-50 | the append adds exactly one occurrence and keeps the prior contents as a prefix |
| FullyDeliverableEnergyLimited.FddlPrmProjects | gridpath/project/prm/prm_types/fully_deliverable_energy_limited.py:22-27 | exactly the PRM projects whose prm_type is fully_deliverable_energy_limited |
| FullyDeliverableEnergyLimited.FddlPeriodsOf | gridpath/project/prm/prm_types/fully_deliverable_energy_limited.py:35-39 | exactly the PRM project operational periods whose project is FDDL |
| FullyDeliverableEnergyLimited.FddlPrmProjectOperationalPeriods | gridpath/project/prm/prm_types/fully_deliverable_energy_limited.py:31-40 | the set is built iff every FDDL period is also a storage operational period, and is then within PRM ∩ storage; otherwise the error names an offending pair |
| FullyDeliverableEnergyLimited.FirstOutside | gridpath/project/prm/prm_types/fully_deliverable_energy_limited.py:33-34 | the within check passes iff every element is allowed, else names one that is not |
| FullyDeliverableEnergyLimited.EligibleWithinCapacity | gridpath/project/prm/prm_types/fully_deliverable_energy_limited.py:52-60 | Max_FDDL_Project_Capacity_Credit_Constraint: eligible capacity at most total capacity (EligibleCapacityBounds) |
| FullyDeliverableEnergyLimited.EligibleWithinDurationDerate | gridpath/project/prm/prm_types/fully_deliverable_energy_limited.py:67-78 | FDDL_Project_Capacity_Credit_Duration_Derate_Constraint once its bound exists: eligible capacity at most energy / min duration (EligibleCapacityBounds) |
| FullyDeliverableEnergyLimited.DurationDerateBound | gridpath/project/prm/prm_types/fully_deliverable_energy_limited.py:76-78 | energy / min duration, failing exactly on a zero duration |
| FullyDeliverableEnergyLimited.EligibleCapacityBounds | gridpath/project/prm/prm_types/fully_deliverable_energy_limited.py:47-83 | non-negative and both constraints hold iff 0 <= eligible <= min(capacity, energy / min duration) |
| FullyDeliverableEnergyLimited.ElccContributionBounded | gridpath/project/prm/prm_types/fully_deliverable_energy_limited.py:86-94 | the ELCC contribution is the eligible capacity, so it lies between 0 and min(capacity, energy / min duration) |
| FullyDeliverableEnergyLimited.DictKeys | gridpath/project/prm/prm_types/fully_deliverable_energy_limited.py:151-154 | the dictionary has a key for exactly the projects in the query |
| FullyDeliverableEnergyLimited.DictValue | gridpath/project/prm/prm_types/fully_deliverable_energy_limited.py:152-154 | the value stored for a query row: "." for a NULL zone, else the duration, None when NULL |
| FullyDeliverableEnergyLimited.ZoneDurationDict | gridpath/project/prm/prm_types/fully_deliverable_energy_limited.py:151-154 | the dictionary after the query rows, a later row overwriting an earlier one (DictKeys, LastRowWins) |
| FullyDeliverableEnergyLimited.LastRowWins | gridpath/project/prm/prm_types/fully_deliverable_energy_limited.py:152-154 | for a project in several rows, the last row's value wins |
| FullyDeliverableEnergyLimited.BuildZoneDurationDict | gridpath/project/prm/prm_types/fully_deliverable_energy_limited.py:151-154 | the loop builds ZoneDurationDict of the query rows |
| FullyDeliverableEnergyLimited.AppendedCellMeaning | gridpath/project/prm/prm_types/fully_deliverable_energy_limited.py:151-172 | the appended cell is the last row's duration when its zone and duration are present, "." otherwise |
| FullyDeliverableEnergyLimited.AppendedCell | gridpath/project/prm/prm_types/fully_deliverable_energy_limited.py:168-176 | the cell appended to a data row: the dictionary value, or "." when the project is absent or its value None (AppendedCellMeaning) |
| FullyDeliverableEnergyLimited.AbsentProjectGetsDot | gridpath/project/prm/prm_types/fully_deliverable_energy_limited.py:173-176 | a project absent from the query gets "." |
| FullyDeliverableEnergyLimited.TextCells | gridpath/project/prm/prm_types/fully_deliverable_energy_limited.py:158-168 | a read row's cells are its strings, one for one |
| FullyDeliverableEnergyLimited.RewrittenRow | gridpath/project/prm/prm_types/fully_deliverable_energy_limited.py:167-176 | a data row's cells followed by its appended cell (RewriteKeepsCells) |
| FullyDeliverableEnergyLimited.RewriteProjectsTab | gridpath/project/prm/prm_types/fully_deliverable_energy_limited.py:160-176 | fails exactly on a missing header or an empty data row (naming the first); otherwise the same number of rows, the header gains the min-duration column and each data row is rewritten |
| FullyDeliverableEnergyLimited.GetModuleSpecificInputs | gridpath/project/prm/prm_types/fully_deliverable_energy_limited.py:151-176 | the dictionary from the query, then the rewrite, with the same outcome |
| FullyDeliverableEnergyLimited.RewriteKeepsCells | gridpath/project/prm/prm_types/fully_deliverable_energy_limited.py:160-176 | every rewritten row keeps its original cells and gains exactly one trailing cell |
| CarbonBalance.TotalEmissions | gridpath/system/policy/carbon_cap/carbon_balance.py:29-35 | Total_Carbon_Emissions_from_All_Sources_Expression: the sum over the registered component names (TotalEmissionsSteps, TotalEmissionsReadsRegistryOnly) |
| CarbonBalance.TotalEmissionsSteps | gridpath/system/policy/carbon_cap/carbon_balance.py:29-35 | an empty registry sums to 0, and each registered component adds its value |
| CarbonBalance.TotalEmissionsReadsRegistryOnly | gridpath/system/policy/carbon_cap/carbon_balance.py:29-35 | the total depends only on the components the registry lists |
| CarbonBalance.ExportedEmissionsMmt | gridpath/system/policy/carbon_cap/carbon_balance.py:78-80 | the exported MMT times 10^6 is the total in tons |
| CarbonBalance.CarbonCapTarget | gridpath/system/policy/carbon_cap/carbon_balance.py:37-51 | Carbon_Cap_Constraint: total tons at most the MMT target × 10^6 (CapHoldsIffExportWithinTarget) |
| CarbonBalance.CapHoldsIffExportWithinTarget | gridpath/system/policy/carbon_cap/carbon_balance.py:37-51 | the cap holds iff the exported MMT is within the target; exporting the target in tons gives it back |
| CarbonBalance.DualsRegistry.constructor | gridpath/system/policy/carbon_cap/carbon_balance.py:84-86 | the registry holds the given indices |
| CarbonBalance.DualsRegistry.SaveDuals | gridpath/system/policy/carbon_cap/carbon_balance.py:84-86 | sets the Carbon_Cap_Constraint entry to its three index names, other keys unchanged |
| CarbonBalance.ResetTotals | gridpath/system/policy/carbon_cap/carbon_balance.py:107-114 | total emissions become NULL on every row of the scenario; other rows and columns unchanged |
| CarbonBalance.ApplyEmissions | gridpath/system/policy/carbon_cap/carbon_balance.py:129-140 | one CSV row updates total, discount factor and years on the (scenario, zone, period) rows only |
| CarbonBalance.ApplyDual | gridpath/system/policy/carbon_cap/carbon_balance.py:150-159 | one dual row sets the dual on the (scenario, zone, period) rows only |
| CarbonBalance.MarginalCost | gridpath/system/policy/carbon_cap/carbon_balance.py:163-167 | defined iff dual, discount factor and years are present with a non-zero product; then cost × (factor × years) = dual |
| CarbonBalance.ApplyMarginalCosts | gridpath/system/policy/carbon_cap/carbon_balance.py:162-171 | every row of the scenario gets its marginal cost; other rows unchanged |
| CarbonBalance.SameOutsideTransitive | gridpath/system/policy/carbon_cap/carbon_balance.py:107-171 | "other scenarios unchanged" composes across the import's steps |
| CarbonBalance.ParseEmissionsRow | gridpath/system/policy/carbon_cap/carbon_balance.py:123-127 | zone, period, discount factor, years and emissions come from indices 0, 1, 2, 3 and 5; the target at 4 is not read |
| CarbonBalance.ParseDualRow | gridpath/system/policy/carbon_cap/carbon_balance.py:157 | zone, period and dual come from indices 0, 1 and 2 |
| CarbonBalance.ApplyEmissionsRows | gridpath/system/policy/carbon_cap/carbon_balance.py:122-140 | the emissions updates leave other scenarios' rows unchanged |
| CarbonBalance.ApplyDualRows | gridpath/system/policy/carbon_cap/carbon_balance.py:150-159 | the dual updates leave other scenarios' rows unchanged |
| CarbonBalance.ParseEmissionsLines | gridpath/system/policy/carbon_cap/carbon_balance.py:121-127 | after the header, one update per line, or the first bad line |
| CarbonBalance.ParseEmissionsLinesStep | gridpath/system/policy/carbon_cap/carbon_balance.py:122-127 | a good line contributes its update ahead of the rest |
| CarbonBalance.ParseDualLines | gridpath/system/policy/carbon_cap/carbon_balance.py:148-157 | after the header, one update per line, or the first bad line |
| CarbonBalance.ParseDualLinesStep | gridpath/system/policy/carbon_cap/carbon_balance.py:150-157 | a good line contributes its update ahead of the rest |
| CarbonBalance.EmissionsPrefix | gridpath/system/policy/carbon_cap/carbon_balance.py:121-139 | the updates of carbon_cap.csv up to the first unusable line: every update when the file parses, one per line before the failing line otherwise, each parsed from its own line |
| CarbonBalance.DualPrefix | gridpath/system/policy/carbon_cap/carbon_balance.py:148-160 | the updates of Carbon_Cap_Constraint.csv up to the first unusable line: every update when the file parses, one per line before the failing line otherwise, each parsed from its own line |
| CarbonBalance.AfterEmissionsFile | gridpath/system/policy/carbon_cap/carbon_balance.py:116-139 | the rows after reading carbon_cap.csv whether or not it parses: the updates before the first unusable line applied in order |
| CarbonBalance.AfterDualsFile | gridpath/system/policy/carbon_cap/carbon_balance.py:142-160 | the rows after reading Carbon_Cap_Constraint.csv whether or not it parses: the updates before the first unusable line applied in order |
| CarbonBalance.ResultsSystemCarbonEmissions.constructor | gridpath/system/policy/carbon_cap/carbon_balance.py:89-171 | a table with the given rows |
| CarbonBalance.ResultsSystemCarbonEmissions.UpdateEmissions | gridpath/system/policy/carbon_cap/carbon_balance.py:116-141 | the per-row loop leaves the table as ApplyEmissionsRows of the parsed file; on an unusable line, with the updates of the lines before it applied (AfterEmissionsFile); other scenarios never change |
| CarbonBalance.ResultsSystemCarbonEmissions.UpdateDuals | gridpath/system/policy/carbon_cap/carbon_balance.py:143-160 | the per-row loop leaves the table as ApplyDualRows of the parsed file; on an unusable line, with the updates of the lines before it applied (AfterDualsFile); other scenarios never change |
| CarbonBalance.ResultsSystemCarbonEmissions.ImportResultsIntoDatabase | gridpath/system/policy/carbon_cap/carbon_balance.py:89-171 | reset, emissions, duals and marginal cost in that order; succeeds iff both files parse; on a failure the reset stays in effect with the updates read before the unusable line (and, for a duals failure, all emission updates) applied; other scenarios never change |
| CarbonBalance.ApplyEmissionsRowsSnoc | gridpath/system/policy/carbon_cap/carbon_balance.py:122-140 | applying one more CSV row is one more ApplyEmissions |
| CarbonBalance.ApplyDualRowsSnoc | gridpath/system/policy/carbon_cap/carbon_balance.py:150-159 | applying one more dual row is one more ApplyDual |
| CarbonBalance.ImportedMarginalCosts | gridpath/system/policy/carbon_cap/carbon_balance.py:162-171 | after the import, a scenario row's marginal cost times discount factor × years is its dual |
| CarbonBalance.UnlistedRowKeepsNullTotal | gridpath/system/policy/carbon_cap/carbon_balance.py:107-141 | a row no CSV line names keeps the value the reset gave it |
| MustRun.MustRunOperationalTimepoints | modules/project/operations/operational_types/must_run.py:24-28 | exactly the project operational timepoints of must-run generators |
| MustRun.MustRunFuelCost | modules/project/operations/operational_types/must_run.py:31-39 | with power at capacity, the fuel cost is heat rate × period capacity × fuel price, non-negative for non-negative inputs |
| MustRun.NothingToConstrain | modules/project/operations/operational_types/must_run.py:42-72 | max/min power rules are skipped and curtailment is 0 |
| MustRun.StartupRule | modules/project/operations/operational_types/must_run.py:89-101 | always fails, with a message that names g in quotes |
| MustRun.ShutdownRule | modules/project/operations/operational_types/must_run.py:104-116 | always fails, with a message that names g in quotes |
| MustRun.MustRunStartupCostRaises | gridpath/project/operations/costs.py:64-96 | as g's module in the cost rules, must-run makes the startup and shutdown expressions fail with its message |
| Variable.PowerWithinCapacity | modules/generation/operations/operational_types/variable.py:19-33 | a capacity factor in [0, 1] keeps power between 0 and capacity; factor 1 gives capacity and 0 gives 0 |
| Variable.NothingToConstrain | modules/generation/operations/operational_types/variable.py:36-55 | max/min power rules are skipped |
| Variable.StartupRule | modules/generation/operations/operational_types/variable.py:58-70 | always fails, with a message that names g in quotes |
| Variable.ShutdownRule | modules/generation/operations/operational_types/variable.py:73-85 | always fails, with a message that names g in quotes |
| RuleErrors.NoCostMessage | modules/project/operations/operational_types/must_run.py:97-100 | the message has 'g' right after its lead |
| RuleErrors.MessageIdentifiesGenerator | modules/generation/operations/operational_types/variable.py:66-69 | different generators get different messages |
| CommonFunctions.PathJoin | gridpath/common_functions.py:19-20 | os.path.join: an absolute second part replaces the first, otherwise they are joined with one separator |
| CommonFunctions.Separator | gridpath/common_functions.py:24-26 | no separator after an empty or slash-terminated first part |
| CommonFunctions.Basename | gridpath/common_functions.py:24-26 | the last path component has no separator |
| CommonFunctions.BasenameOfJoin | gridpath/common_functions.py:24-26 | joining a separator-free name makes it the last component |
| CommonFunctions.BasenameAfterSeparator | gridpath/common_functions.py:24-26 | a name after a separator is the last component |
| CommonFunctions.BasenameStep | gridpath/common_functions.py:24-26 | a non-separator character extends the last component |
| CommonFunctions.DetermineScenarioDirectory | gridpath/common_functions.py:7-28 | joins str(scenario_name) to the location, or to cwd/../scenarios when none is given |
| CommonFunctions.DefaultLocationIsSiblingScenarios | gridpath/common_functions.py:18-20 | with no location the result is cwd + "/../scenarios/" + name |
| CommonFunctions.GivenLocationIgnoresWorkingDirectory | gridpath/common_functions.py:21-22 | with a location the result does not depend on cwd |
| CommonFunctions.ScenarioNameIsLastComponent | gridpath/common_functions.py:24-28 | a non-empty separator-free name is the last component of the result |
| CommonFunctions.IntegerNameIsConverted | gridpath/common_functions.py:25-26 | an integer name appears as its decimal str() |
| PyValues.Str | db/utilities/scenario.py:435-441 | str() of a string is itself, of None is "None", and of an integer is non-empty with no separator or quote |
| PyValues.IntToString | db/utilities/scenario.py:441 | str() of an integer: non-empty, a minus sign at position 0 exactly for a negative value, digits everywhere else |
| PyValues.NatToStringRoundTrip | db/utilities/scenario.py:441 | the decimal digits of a natural number read back (DecimalValue) give the number |
| PyValues.IntToStringRoundTrip | db/utilities/scenario.py:441 | int(str(i)) == i, with an independent digit parser: the text is the decimal value of i |
| PyValues.IntToStringInjective | db/utilities/scenario.py:441 | different integers have different str() texts |

## Left out

- The Pyomo and solver layer: `Set`, `Param`, `Var`, `Constraint` and `Expression` objects, `value()`, and solving. Rules are functions over given inputs, and `within=` domains are preconditions or predicates.
- File and database I/O mechanics: opening CSV and tab files, `csv.reader`/`csv.writer` quoting, `pandas.read_csv` and `DataPortal.load`. Files are sequences of rows of strings or typed cells.
- SQL text: statements are modelled by their effect on abstract tables, or as the column and value strings `scenario.py` builds. Whitespace and the literal query text of the `get_inputs_from_database` functions are not modelled.
- Database commits and transaction boundaries: each statement takes effect at once. A failed carbon import therefore keeps the updates made before the failing line, and a failed staged import keeps the delete.
- SQLite arithmetic: the marginal-cost division is real division, NULL when an operand is NULL or the divisor is zero. Integer division between integer columns is not modelled.
- Floating point: database FLOAT columns, `old_div` and `str(float)` formatting. Quantities are `real` and tab-file cells keep their types.
- Console output: `print` and the `warnings` text. Only the fact that the warning fires is kept.
- Reflective module import (`import_module`).
- Python 2 `reader.next()` in the projects-file rewrite and the cost import; it reads the header as `next(reader)` does.
- check_list_items_are_unique (in gridpath/auxiliary) is not part of this model; the scan fails on a repeated header name instead.
- find_list_item_position is not part of this model; `ReserveProvision.FirstPosition` stands for its first element.
- load_operational_type_modules and generator_subset_init are not part of this model; the module map and the generator sets are inputs.
- The `common_methods` vintage functions are not part of this model; "vintages operational in period" is an input sequence.
- make_project_time_var_df is not part of this model.
- The validate_* helpers and write_validation_to_database are not part of this model. Only the index lists fuels.py hands them are modelled.
- The reserve-provision file read in generic_determine_dynamic_components and the file read and write of the fully deliverable energy-limited projects-file rewrite: their lines are parameters and results.
- Cell typing of the carbon CSV files: cells arrive typed, and a row with other cell types is a bad row that stops the import.
- The `PercentFraction` domains of the derate, the energy adjustment and `cap_factor` are preconditions, not checks.
- Variable.PowerProvisionRule, MustRun.PowerProvisionRule, MustRun.CurtailmentRule, MustRun.FuelCostRule, MustRun.MaxPowerRule, MustRun.MinPowerRule, Variable.MaxPowerRule, Variable.MinPowerRule and FullyDeliverableEnergyLimited.ElccEligibleCapacityRule carry no contract of their own; their properties are stated by PowerWithinCapacity, MustRunFuelCost, NothingToConstrain and ElccContributionBounded.
- must_run.py defines no fuel_burn_rule, which costs.py calls; in the model a module without one makes the fuel cost fail with `NoFuelBurnRule`.
- Scenario.AllArgsAligned: the distinctness of the 74 column names and the absence of scenario_id from them are not proved. The format arguments are taken to be the column names in the same order.
- export_results of costs.py (lines 160-257), the reserve generic_export_module_specific_results, and the file writing of the carbon export_results: only the MMT conversion is modelled.
- load_module_specific_data and export_module_specific_results of new_build_storage.py, variable.py and the fully deliverable energy-limited type: data loading and file output.
- create_directory_if_not_exists in gridpath/common_functions.py: a filesystem side effect.
- gridpath/system/reserves/balance/spinning_reserves.py, gridpath/system/reserves/balance/regulation_up.py and gridpath/geography/load_following_down_balancing_areas.py: name-constant wrappers and an input copy around code not part of this model.
- The test files under tests/: they exercise modules that are not part of this model.
