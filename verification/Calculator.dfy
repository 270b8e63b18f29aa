/**
 * The entry point of the simulation: one switch on the strategy selector
 * that hands the input to the matching engine.
 */
module Calculator {
  import opened Types
  import CompoundEngine
  import FixedIncomeEngine
  import MixedEngine

  /** What `calculateCompoundInterest` returns for `input`. */
  function Simulate(input: SimulationInput): SimulationResult
  {
    match input.investmentType
    case Fixed => FixedIncomeEngine.FixedSpec(input)
    case Mixed => MixedEngine.MixedSpec(input)
    case Compound => CompoundEngine.CompoundSpec(input)
  }

  /** Runs the engine the input's strategy selects. */
  method CalculateCompoundInterest(input: SimulationInput) returns (r: SimulationResult)
    ensures r == Simulate(input)
    ensures r.investmentType == input.investmentType
    ensures r.eventLog.Some? <==> input.investmentType == Mixed
  {
    match input.investmentType {
      case Fixed =>
        r := FixedIncomeEngine.CalculateFixedIncome(input);
      case Mixed =>
        r := MixedEngine.CalculateMixed(input);
        MixedEngine.MixedEchoesSettings(input, MixedEngine.PhaseSpec);
        MixedEventLogExists(input);
      case Compound =>
        r := CompoundEngine.CalculateCompound(input);
    }
  }

  /** Whatever the horizon, a mixed run carries an event log. */
  lemma MixedEventLogExists(input: SimulationInput)
    ensures MixedEngine.MixedSpec(input).eventLog.Some?
  {
    if input.years - MixedEngine.SettingsOf(input).switchYear <= 0 {
      MixedEngine.MixedEarlyReturn(input, MixedEngine.PhaseSpec);
    } else {
      MixedEngine.MixedEventLog(input, MixedEngine.PhaseSpec);
    }
  }

  /**
   * The result is tagged with the strategy asked for: the compound and the
   * fixed-income engines tag their own results, the mixed engine tags its
   * result as mixed whatever its phases were.
   */
  lemma SimulateKeepsStrategy(input: SimulationInput)
    ensures Simulate(input).investmentType == input.investmentType
    ensures Simulate(input).eventLog.Some? <==> input.investmentType == Mixed
  {
    if input.investmentType == Mixed {
      MixedEngine.MixedEchoesSettings(input, MixedEngine.PhaseSpec);
      MixedEventLogExists(input);
    }
  }

  /**
   * A phase of a mixed run asks the dispatcher for a plain strategy, so the
   * mixed engine's own delegation is the dispatcher's answer: the recursion
   * through the dispatcher stops after one level.
   */
  lemma PhaseIsDispatched(t: PhaseType, input: SimulationInput)
    requires input.investmentType == InvestmentTypeOf(t)
    ensures Simulate(input) == MixedEngine.PhaseSpec(t, input)
  {
  }
}
