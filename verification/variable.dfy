/**
 * The variable operational type
 * (modules/generation/operations/operational_types/variable.py): power is
 * capacity × capacity factor, there are no power limits, and startup and
 * shutdown rules always raise.
 */
module Variable {
  import opened Wrappers
  import RuleErrors

  /** `cap_factor` is declared within PercentFraction. */
  predicate PercentFraction(x: real) {
    0.0 <= x <= 1.0
  }

  /** `power_provision_rule`: capacity × capacity factor in the timepoint. */
  function PowerProvisionRule(capacity: string -> real, capFactor: (string, int) -> real, g: string, tmp: int): real {
    capacity(g) * capFactor(g, tmp)
  }

  /**
   * A capacity factor in [0, 1] keeps power between 0 and a non-negative
   * capacity; a factor of 1 gives exactly the capacity and 0 gives none.
   */
  lemma PowerWithinCapacity(capacity: string -> real, capFactor: (string, int) -> real, g: string, tmp: int)
    requires capacity(g) >= 0.0 && PercentFraction(capFactor(g, tmp))
    ensures 0.0 <= PowerProvisionRule(capacity, capFactor, g, tmp) <= capacity(g)
    ensures capFactor(g, tmp) == 1.0 ==> PowerProvisionRule(capacity, capFactor, g, tmp) == capacity(g)
    ensures capFactor(g, tmp) == 0.0 ==> PowerProvisionRule(capacity, capFactor, g, tmp) == 0.0
  {
    var c := capacity(g);
    var f := capFactor(g, tmp);
    assert c * f <= c * 1.0 by {
      assert c * (1.0 - f) >= 0.0;
    }
  }

  /** The rule of a power constraint; variable generators have nothing to constrain. */
  datatype PowerLimitRule = Skip

  function MaxPowerRule(g: string, tmp: int): PowerLimitRule {
    Skip
  }

  function MinPowerRule(g: string, tmp: int): PowerLimitRule {
    Skip
  }

  /** Variable generators are never limited by these constraints. */
  lemma NothingToConstrain(g: string, tmp: int)
    ensures MaxPowerRule(g, tmp) == Skip && MinPowerRule(g, tmp) == Skip
  {
  }

  /** `startup_rule`: always raises a ValueError naming g. */
  function StartupRule(g: string, tmp: int): (r: Result<real, string>)
    ensures r.Failure?
    ensures RuleErrors.NamesGenerator(r.error, "Variable", "startup", g)
  {
    Failure(RuleErrors.NoCostMessage("Variable", "startup", g))
  }

  /** `shutdown_rule`: always raises a ValueError naming g. */
  function ShutdownRule(g: string, tmp: int): (r: Result<real, string>)
    ensures r.Failure?
    ensures RuleErrors.NamesGenerator(r.error, "Variable", "shutdown", g)
  {
    Failure(RuleErrors.NoCostMessage("Variable", "shutdown", g))
  }
}
