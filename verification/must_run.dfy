/**
 * The must-run operational type
 * (modules/project/operations/operational_types/must_run.py): its
 * operational timepoints, power at capacity, no curtailment, no power
 * limits, its fuel cost, and startup/shutdown rules that always raise.
 */
module MustRun {
  import opened Wrappers
  import IndexSets
  import RuleErrors
  import Costs

  /**
   * MUST_RUN_GENERATOR_OPERATIONAL_TIMEPOINTS: the project operational
   * timepoints of must-run generators (that set is given, its initialiser
   * is not part of this model).
   */
  function MustRunOperationalTimepoints(projectOperationalTimepoints: set<(string, int)>,
                                        mustRunGenerators: set<string>): (r: set<(string, int)>)
    ensures r <= projectOperationalTimepoints
    ensures forall g, tmp :: (g, tmp) in r <==> (g, tmp) in projectOperationalTimepoints && g in mustRunGenerators
  {
    IndexSets.RestrictToProjects(projectOperationalTimepoints, mustRunGenerators)
  }

  /** `power_provision_rule`: the capacity in the timepoint's period. */
  function PowerProvisionRule(capacityMw: (string, int) -> real, period: int -> int, g: string, tmp: int): real {
    capacityMw(g, period(tmp))
  }

  /** The rule of a power constraint; must-run generators have nothing to constrain. */
  datatype PowerLimitRule = Skip

  function MaxPowerRule(g: string, tmp: int): PowerLimitRule {
    Skip
  }

  function MinPowerRule(g: string, tmp: int): PowerLimitRule {
    Skip
  }

  /** `curtailment_rule`: curtailment is not allowed. */
  function CurtailmentRule(g: string, tmp: int): real {
    0.0
  }

  /** The inputs of `fuel_cost_rule`. */
  datatype FuelInputs = FuelInputs(
    incHeatRateMmbtuPerMwh: string -> real,
    fuel: string -> string,
    fuelPricePerMmbtu: string -> real)

  /** `fuel_cost_rule`: heat rate × power provision × the price of g's fuel. */
  function FuelCostRule(f: FuelInputs, powerProvisionMw: (string, int) -> real, g: string, tmp: int): real {
    f.incHeatRateMmbtuPerMwh(g) * powerProvisionMw(g, tmp) * f.fuelPricePerMmbtu(f.fuel(g))
  }

  /**
   * With power at capacity, the fuel cost is heat rate × capacity in the
   * period × fuel price; it is non-negative when those three are.
   */
  lemma MustRunFuelCost(f: FuelInputs, capacityMw: (string, int) -> real, period: int -> int, g: string, tmp: int)
    ensures FuelCostRule(f, (g', t') => PowerProvisionRule(capacityMw, period, g', t'), g, tmp)
            == f.incHeatRateMmbtuPerMwh(g) * capacityMw(g, period(tmp)) * f.fuelPricePerMmbtu(f.fuel(g))
    ensures f.incHeatRateMmbtuPerMwh(g) >= 0.0 && capacityMw(g, period(tmp)) >= 0.0
            && f.fuelPricePerMmbtu(f.fuel(g)) >= 0.0
            ==> FuelCostRule(f, (g', t') => PowerProvisionRule(capacityMw, period, g', t'), g, tmp) >= 0.0
  {
    var h := f.incHeatRateMmbtuPerMwh(g);
    var c := capacityMw(g, period(tmp));
    var p := f.fuelPricePerMmbtu(f.fuel(g));
    if h >= 0.0 && c >= 0.0 && p >= 0.0 {
      assert h * c >= 0.0;
      assert h * c * p >= 0.0;
    }
  }

  /** Must-run generators are never limited and never curtailed. */
  lemma NothingToConstrain(g: string, tmp: int)
    ensures MaxPowerRule(g, tmp) == Skip && MinPowerRule(g, tmp) == Skip
    ensures CurtailmentRule(g, tmp) == 0.0
  {
  }

  /** `startup_rule`: always raises a ValueError naming g. */
  function StartupRule(g: string, tmp: int): (r: Result<real, string>)
    ensures r.Failure?
    ensures RuleErrors.NamesGenerator(r.error, "Must-run", "startup", g)
  {
    Failure(RuleErrors.NoCostMessage("Must-run", "startup", g))
  }

  /** `shutdown_rule`: always raises a ValueError naming g. */
  function ShutdownRule(g: string, tmp: int): (r: Result<real, string>)
    ensures r.Failure?
    ensures RuleErrors.NamesGenerator(r.error, "Must-run", "shutdown", g)
  {
    Failure(RuleErrors.NoCostMessage("Must-run", "shutdown", g))
  }

  /**
   * Plugged into the cost rules as g's operational type, must-run makes
   * the startup and shutdown expressions fail with the message that names g.
   */
  lemma MustRunStartupCostRaises(modules: map<string, Costs.OperationalTypeModule>, inputs: Costs.Inputs,
                                 g: string, tmp: int)
    requires inputs.operationalType(g) in modules
    requires modules[inputs.operationalType(g)].startup == StartupRule
    requires modules[inputs.operationalType(g)].shutdown == ShutdownRule
    ensures Costs.StartupExpression(modules, inputs, g, tmp)
            == Failure(Costs.RuleRaised(RuleErrors.NoCostMessage("Must-run", "startup", g)))
    ensures Costs.ShutdownExpression(modules, inputs, g, tmp)
            == Failure(Costs.RuleRaised(RuleErrors.NoCostMessage("Must-run", "shutdown", g)))
  {
  }
}
