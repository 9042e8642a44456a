/**
 * The new-build storage capacity type
 * (modules/project/capacity/capacity_types/new_build_storage.py): power and
 * energy capacity as sums of builds over the vintages operational in a
 * period, the capacity cost, and the two registry appends.
 */
module NewBuildStorage {

  /** A (project, vintage) pair of NEW_BUILD_STORAGE_VINTAGES. */
  type Vintage = (string, int)

  /**
   * The inputs the rules read: the vintages operational in each period
   * (computed by helpers not part of this model), the two build decisions
   * and the two annualised cost parameters, all per vintage.
   */
  datatype StorageInputs = StorageInputs(
    vintagesOperationalInPeriod: int -> seq<Vintage>,
    buildStoragePowerMw: Vintage -> real,
    buildStorageEnergyMwh: Vintage -> real,
    annualizedRealCostPerMwYr: Vintage -> real,
    annualizedRealCostPerMwhYr: Vintage -> real)

  /** `sum(value[g, v] for (gen, v) in vintages if gen == g)`. */
  function FilteredSum(vintages: seq<Vintage>, g: string, value: Vintage -> real): real
    decreases |vintages|
  {
    if vintages == [] then 0.0
    else (if vintages[0].0 == g then value(vintages[0]) else 0.0) + FilteredSum(vintages[1..], g, value)
  }

  /** The vintages of project g, in list order. */
  function OwnVintages(vintages: seq<Vintage>, g: string): (own: seq<Vintage>)
    ensures forall v :: v in own <==> v in vintages && v.0 == g
    ensures |own| <= |vintages|
    decreases |vintages|
  {
    if vintages == [] then []
    else if vintages[0].0 == g then [vintages[0]] + OwnVintages(vintages[1..], g)
    else OwnVintages(vintages[1..], g)
  }

  /** The plain sum of `value` over a list of vintages. */
  function Sum(vintages: seq<Vintage>, value: Vintage -> real): real
    decreases |vintages|
  {
    if vintages == [] then 0.0 else value(vintages[0]) + Sum(vintages[1..], value)
  }

  /** Summing with the project test inside equals summing over g's own vintages. */
  lemma {:induction false} FilteredSumIsSumOfOwn(vintages: seq<Vintage>, g: string, value: Vintage -> real)
    ensures FilteredSum(vintages, g, value) == Sum(OwnVintages(vintages, g), value)
    decreases |vintages|
  {
    if vintages != [] {
      FilteredSumIsSumOfOwn(vintages[1..], g, value);
      if vintages[0].0 == g {
        assert ([vintages[0]] + OwnVintages(vintages[1..], g))[1..] == OwnVintages(vintages[1..], g);
      }
    }
  }

  /** `capacity_rule`: the power capacity expression of (g, p). */
  function CapacityRule(m: StorageInputs, g: string, p: int): (mw: real)
    ensures mw == Sum(OwnVintages(m.vintagesOperationalInPeriod(p), g), m.buildStoragePowerMw)
  {
    FilteredSumIsSumOfOwn(m.vintagesOperationalInPeriod(p), g, m.buildStoragePowerMw);
    FilteredSum(m.vintagesOperationalInPeriod(p), g, m.buildStoragePowerMw)
  }

  /** `energy_capacity_rule`: the energy capacity expression of (g, p). */
  function EnergyCapacityRule(m: StorageInputs, g: string, p: int): (mwh: real)
    ensures mwh == Sum(OwnVintages(m.vintagesOperationalInPeriod(p), g), m.buildStorageEnergyMwh)
  {
    FilteredSumIsSumOfOwn(m.vintagesOperationalInPeriod(p), g, m.buildStorageEnergyMwh);
    FilteredSum(m.vintagesOperationalInPeriod(p), g, m.buildStorageEnergyMwh)
  }

  /** The summand of `capacity_cost_rule` for one vintage. */
  function VintageCost(m: StorageInputs, v: Vintage): real {
    m.buildStoragePowerMw(v) * m.annualizedRealCostPerMwYr(v)
    + m.buildStorageEnergyMwh(v) * m.annualizedRealCostPerMwhYr(v)
  }

  /** `capacity_cost_rule` over a list of vintages. */
  function CapacityCostOver(m: StorageInputs, vintages: seq<Vintage>, g: string): real
    decreases |vintages|
  {
    if vintages == [] then 0.0
    else (if vintages[0].0 == g then VintageCost(m, vintages[0]) else 0.0)
         + CapacityCostOver(m, vintages[1..], g)
  }

  /** `capacity_cost_rule`: the cost of the vintages of g operational in p. */
  function CapacityCostRule(m: StorageInputs, g: string, p: int): (cost: real)
    ensures cost == Sum(OwnVintages(m.vintagesOperationalInPeriod(p), g), v => VintageCost(m, v))
  {
    CostIsFilteredSum(m, m.vintagesOperationalInPeriod(p), g);
    FilteredSumIsSumOfOwn(m.vintagesOperationalInPeriod(p), g, v => VintageCost(m, v));
    CapacityCostOver(m, m.vintagesOperationalInPeriod(p), g)
  }

  /** A sum of a sum of two terms is the sum of the two sums. */
  lemma {:induction false} FilteredSumAdditive(vintages: seq<Vintage>, g: string,
                                               a: Vintage -> real, b: Vintage -> real, c: Vintage -> real)
    requires forall v :: c(v) == a(v) + b(v)
    ensures FilteredSum(vintages, g, c) == FilteredSum(vintages, g, a) + FilteredSum(vintages, g, b)
    decreases |vintages|
  {
    if vintages != [] {
      FilteredSumAdditive(vintages[1..], g, a, b, c);
    }
  }

  /**
   * The capacity cost is the power-cost sum plus the energy-cost sum over
   * the same vintages.
   */
  lemma {:induction false} CapacityCostSplits(m: StorageInputs, g: string, p: int)
    ensures CapacityCostRule(m, g, p)
            == FilteredSum(m.vintagesOperationalInPeriod(p), g,
                           v => m.buildStoragePowerMw(v) * m.annualizedRealCostPerMwYr(v))
             + FilteredSum(m.vintagesOperationalInPeriod(p), g,
                           v => m.buildStorageEnergyMwh(v) * m.annualizedRealCostPerMwhYr(v))
  {
    var power := v => m.buildStoragePowerMw(v) * m.annualizedRealCostPerMwYr(v);
    var energy := v => m.buildStorageEnergyMwh(v) * m.annualizedRealCostPerMwhYr(v);
    var both := v => VintageCost(m, v);
    CostIsFilteredSum(m, m.vintagesOperationalInPeriod(p), g);
    FilteredSumAdditive(m.vintagesOperationalInPeriod(p), g, power, energy, both);
  }

  lemma {:induction false} CostIsFilteredSum(m: StorageInputs, vintages: seq<Vintage>, g: string)
    ensures CapacityCostOver(m, vintages, g) == FilteredSum(vintages, g, v => VintageCost(m, v))
    decreases |vintages|
  {
    if vintages != [] {
      CostIsFilteredSum(m, vintages[1..], g);
    }
  }

  /**
   * Vintages of other projects contribute nothing: two value functions
   * that agree on g's vintages give the same sum.
   */
  lemma {:induction false} OtherProjectsIgnored(vintages: seq<Vintage>, g: string,
                                                a: Vintage -> real, b: Vintage -> real)
    requires forall i :: 0 <= i < |vintages| && vintages[i].0 == g ==> a(vintages[i]) == b(vintages[i])
    ensures FilteredSum(vintages, g, a) == FilteredSum(vintages, g, b)
    decreases |vintages|
  {
    if vintages != [] {
      OtherProjectsIgnored(vintages[1..], g, a, b);
    }
  }

  /** Adding vintages that all belong to other projects leaves g's sum unchanged. */
  lemma {:induction false} OtherVintagesAddNothing(vintages: seq<Vintage>, others: seq<Vintage>, g: string,
                                                   value: Vintage -> real)
    requires forall i :: 0 <= i < |others| ==> others[i].0 != g
    ensures FilteredSum(vintages + others, g, value) == FilteredSum(vintages, g, value)
    decreases |vintages|
  {
    if vintages == [] {
      assert vintages + others == others;
      NoOwnVintages(others, g, value);
    } else {
      assert (vintages + others)[1..] == vintages[1..] + others;
      OtherVintagesAddNothing(vintages[1..], others, g, value);
    }
  }

  lemma {:induction false} NoOwnVintages(vintages: seq<Vintage>, g: string, value: Vintage -> real)
    requires forall i :: 0 <= i < |vintages| ==> vintages[i].0 != g
    ensures FilteredSum(vintages, g, value) == 0.0
    decreases |vintages|
  {
    if vintages != [] {
      NoOwnVintages(vintages[1..], g, value);
    }
  }

  /** Non-negative values give a non-negative sum. */
  lemma {:induction false} FilteredSumNonNegative(vintages: seq<Vintage>, g: string, value: Vintage -> real)
    requires forall i :: 0 <= i < |vintages| ==> value(vintages[i]) >= 0.0
    ensures FilteredSum(vintages, g, value) >= 0.0
    decreases |vintages|
  {
    if vintages != [] {
      FilteredSumNonNegative(vintages[1..], g, value);
    }
  }

  /** Builds and cost parameters declared NonNegativeReals. */
  ghost predicate NonNegativeInputs(m: StorageInputs) {
    forall v :: m.buildStoragePowerMw(v) >= 0.0 && m.buildStorageEnergyMwh(v) >= 0.0
                && m.annualizedRealCostPerMwYr(v) >= 0.0 && m.annualizedRealCostPerMwhYr(v) >= 0.0
  }

  /** With non-negative builds and costs, both capacities and the cost are non-negative. */
  lemma {:induction false} CapacitiesAndCostNonNegative(m: StorageInputs, g: string, p: int)
    requires NonNegativeInputs(m)
    ensures CapacityRule(m, g, p) >= 0.0
    ensures EnergyCapacityRule(m, g, p) >= 0.0
    ensures CapacityCostRule(m, g, p) >= 0.0
  {
    var vs := m.vintagesOperationalInPeriod(p);
    FilteredSumNonNegative(vs, g, m.buildStoragePowerMw);
    FilteredSumNonNegative(vs, g, m.buildStorageEnergyMwh);
    forall i | 0 <= i < |vs| ensures VintageCost(m, vs[i]) >= 0.0 {
      ProductNonNegative(m.buildStoragePowerMw(vs[i]), m.annualizedRealCostPerMwYr(vs[i]));
      ProductNonNegative(m.buildStorageEnergyMwh(vs[i]), m.annualizedRealCostPerMwhYr(vs[i]));
    }
    CostIsFilteredSum(m, vs, g);
    FilteredSumNonNegative(vs, g, v => VintageCost(m, v));
  }

  lemma ProductNonNegative(x: real, y: real)
    requires x >= 0.0 && y >= 0.0
    ensures x * y >= 0.0
  {
  }

  // ---------------------------------------------------------------------
  // Registry appends

  const NewBuildStorageOperationalPeriods := "NEW_BUILD_STORAGE_OPERATIONAL_PERIODS"

  /**
   * The two lists of set names the capacity types register, joined later
   * into PROJECT_OPERATIONAL_PERIODS and STORAGE_OPERATIONAL_PERIODS.
   */
  class CapacityTypeRegistry {
    var capacityTypeOperationalPeriodSets: seq<string>
    var storageOnlyCapacityTypeOperationalPeriodSets: seq<string>

    constructor ()
      ensures capacityTypeOperationalPeriodSets == []
      ensures storageOnlyCapacityTypeOperationalPeriodSets == []
    {
      capacityTypeOperationalPeriodSets := [];
      storageOnlyCapacityTypeOperationalPeriodSets := [];
    }

    /** The registry side of `add_module_specific_components`: one append to each list. */
    method AddModuleSpecificComponents()
      modifies this
      ensures capacityTypeOperationalPeriodSets
              == old(capacityTypeOperationalPeriodSets) + [NewBuildStorageOperationalPeriods]
      ensures storageOnlyCapacityTypeOperationalPeriodSets
              == old(storageOnlyCapacityTypeOperationalPeriodSets) + [NewBuildStorageOperationalPeriods]
    {
      capacityTypeOperationalPeriodSets := capacityTypeOperationalPeriodSets + [NewBuildStorageOperationalPeriods];
      storageOnlyCapacityTypeOperationalPeriodSets :=
        storageOnlyCapacityTypeOperationalPeriodSets + [NewBuildStorageOperationalPeriods];
    }
  }

  /**
   * After the appends, each list holds exactly one more occurrence of the
   * set name, and its earlier entries are where they were.
   */
  lemma AppendAddsOneOccurrence(before: seq<string>, after: seq<string>)
    requires after == before + [NewBuildStorageOperationalPeriods]
    ensures multiset(after)[NewBuildStorageOperationalPeriods] == multiset(before)[NewBuildStorageOperationalPeriods] + 1
    ensures after[..|before|] == before
  {
    assert after[..|before|] == before;
  }
}
