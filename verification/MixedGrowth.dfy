/**
 * Balances never fall across a mixed run. Each phase engine, given
 * non-negative amounts and rates and a policy within the form's ranges,
 * yields records whose balances never decrease and never drop below its
 * rounded initial amount. The mixed run keeps that across the switch: the
 * second phase starts from the first phase's final balance, and after a
 * split the two legs' rounded starting amounts add up to at least that
 * balance.
 */
module MixedGrowth {
  import opened Types
  import opened Rounding
  import CompoundEngine
  import FixedIncomeEngine
  import opened MixedEngine

  /** The balances of `ys` never decrease. */
  predicate NonDecreasing(ys: seq<YearlyData>)
  {
    forall j, k :: 0 <= j <= k < |ys| ==> ys[j].finalBalance <= ys[k].finalBalance
  }

  /** No balance of `ys` exceeds `b`. */
  predicate AtMost(ys: seq<YearlyData>, b: real)
  {
    forall k :: 0 <= k < |ys| ==> ys[k].finalBalance <= b
  }

  /** No balance of `ys` is below `b`. */
  predicate AtLeast(ys: seq<YearlyData>, b: real)
  {
    forall k :: 0 <= k < |ys| ==> b <= ys[k].finalBalance
  }

  /**
   * A run that grows from `initial`: its balances never decrease, never drop
   * below the rounded initial amount and never exceed the summary's balance,
   * a whole number of cents.
   */
  predicate GrowsFrom(r: SimulationResult, initial: real)
  {
    && NonDecreasing(r.yearlyData)
    && AtLeast(r.yearlyData, Round(initial))
    && AtMost(r.yearlyData, r.summary.finalBalance)
    && Round(initial) <= r.summary.finalBalance
    && WholeCents(r.summary.finalBalance)
  }

  /** An input under which no phase can lose money. */
  predicate Sound(i: SimulationInput)
  {
    && i.initialInvestment >= 0.0 && i.monthlyContribution >= 0.0 && i.annualInterestRate >= 0.0
    && FixedIncomeEngine.SensiblePolicy(FixedIncomeEngine.PolicyOf(i))
  }

  /** A runner whose answer to every sound input grows from that input's initial amount. */
  ghost predicate GrowingRunner(run: Runner)
  {
    forall t, i :: Sound(i) ==> GrowsFrom(run(t, i), i.initialInvestment)
  }

  /** A compound run on a sound input grows from its initial amount. */
  lemma CompoundGrows(input: SimulationInput)
    requires Sound(input)
    ensures GrowsFrom(CompoundEngine.CompoundSpec(input), input.initialInvestment)
  {
    var r := CompoundEngine.CompoundSpec(input);
    forall j, k | 0 <= j <= k < |r.yearlyData|
      ensures Round(input.initialInvestment) <= r.yearlyData[j].finalBalance <= r.yearlyData[k].finalBalance
    {
      CompoundEngine.CompoundYearlyNonDecreasing(input, j, k);
    }
    CompoundEngine.CompoundSummaryIsLastRecord(input);
    if input.years >= 1 {
      var n := |r.yearlyData| - 1;
      CompoundEngine.CompoundRecordAt(input, n);
      RoundIsNearestCent(CompoundEngine.Balance(input.initialInvestment, input.monthlyContribution,
                                                CompoundEngine.MonthlyRate(input.annualInterestRate), 12 * (n + 1)));
    } else {
      RoundIsNearestCent(input.initialInvestment);
    }
  }

  /** A fixed-income run on a sound input grows from its initial amount. */
  lemma FixedGrows(input: SimulationInput)
    requires Sound(input)
    ensures GrowsFrom(FixedIncomeEngine.FixedSpec(input), input.initialInvestment)
  {
    var r := FixedIncomeEngine.FixedSpec(input);
    forall j, k | 0 <= j <= k < |r.yearlyData|
      ensures Round(input.initialInvestment) <= r.yearlyData[j].finalBalance <= r.yearlyData[k].finalBalance
    {
      FixedIncomeEngine.FixedYearlyNonDecreasing(input, j, k);
    }
    FixedIncomeEngine.FixedSummaryIsLastRecord(input);
    if input.years >= 1 {
      var n := |r.yearlyData| - 1;
      FixedIncomeEngine.FixedRecordAt(input, n);
      RoundIsNearestCent(FixedIncomeEngine.Balance(input.initialInvestment,
                                                   CompoundEngine.MonthlyRate(input.annualInterestRate),
                                                   FixedIncomeEngine.PolicyOf(input), 12 * (n + 1)));
    } else {
      RoundIsNearestCent(input.initialInvestment);
    }
  }

  /** The dispatcher is a growing runner. */
  lemma DispatcherGrows()
    ensures GrowingRunner(PhaseSpec)
  {
    forall t, i | Sound(i)
      ensures GrowsFrom(PhaseSpec(t, i), i.initialInvestment)
    {
      if t == CompoundPhase {
        CompoundGrows(i);
      } else {
        FixedGrows(i);
      }
    }
  }

  /** Records up to `b` followed by records from `b` on never decrease when each part does not. */
  lemma ConcatNonDecreasing(xs: seq<YearlyData>, ys: seq<YearlyData>, b: real)
    requires NonDecreasing(xs) && AtMost(xs, b)
    requires NonDecreasing(ys) && AtLeast(ys, b)
    ensures NonDecreasing(xs + ys)
  {
    var zs := xs + ys;
    forall j, k | 0 <= j <= k < |zs|
      ensures zs[j].finalBalance <= zs[k].finalBalance
    {
      if k < |xs| {
        assert zs[j] == xs[j] && zs[k] == xs[k];
      } else if j < |xs| {
        assert zs[j] == xs[j] && zs[k] == ys[k - |xs|];
      } else {
        assert zs[j] == ys[j - |xs|] && zs[k] == ys[k - |xs|];
      }
    }
  }

  /** A whole number of cents above -0.01 is not negative. */
  lemma WholeCentsAboveMinusOneCent(x: real)
    requires WholeCents(x) && x > -0.01
    ensures x >= 0.0
  {
    var n := (x * 100.0).Floor;
    assert n as real == x * 100.0;
    assert n > -1;
  }

  /**
   * Two non-negative parts of a whole-cent balance, each rounded, add up to
   * at least the balance: neither can lose half a cent, since a tie rounds
   * away from zero.
   */
  lemma RoundedPartsCoverWhole(m: real, r: real, b: real)
    requires m >= 0.0 && r >= 0.0 && m + r == b && WholeCents(b)
    ensures b <= Round(m) + Round(r)
  {
    RoundMagnitude(m);
    RoundMagnitude(r);
    WholeCentsSum(Round(m), Round(r));
    WholeCentsSum(Round(m) + Round(r), b);
    WholeCentsAboveMinusOneCent(Round(m) + Round(r) - b);
  }

  /** The branch without a split never lets a balance fall, given that its two phases do not. */
  lemma SequentialGrows(input: SimulationInput, s: Settings, phase1: SimulationResult, phase2: SimulationResult)
    requires 0 < input.years - s.switchYear == |phase2.yearlyData|
    requires NonDecreasing(phase1.yearlyData) && AtMost(phase1.yearlyData, phase1.summary.finalBalance)
    requires WholeCents(phase1.summary.finalBalance)
    requires GrowsFrom(phase2, phase1.summary.finalBalance)
    ensures NonDecreasing(SequentialResult(input, s, phase1, phase2).yearlyData)
  {
    var b := phase1.summary.finalBalance;
    RoundWholeCents(b);
    var renumbered := RenumberedAll(phase2.yearlyData, s.switchYear, phase1.summary.totalInvested,
                                    PhaseContribution(Phase2Type(s.order), input.monthlyContribution));
    assert forall k :: 0 <= k < |renumbered| ==> renumbered[k].finalBalance == phase2.yearlyData[k].finalBalance;
    ConcatNonDecreasing(phase1.yearlyData, renumbered, b);
  }

  /**
   * The split branch never lets a balance fall, given that its first phase
   * and both legs do not: every merged year holds at least the balance at
   * the switch.
   */
  lemma SplitGrows(input: SimulationInput, s: Settings, phase1: SimulationResult, a: SplitAmounts,
                   migrated: SimulationResult, retained: SimulationResult)
    requires 0 < input.years - s.switchYear
    requires PhaseShaped(migrated, Phase2Type(s.order), input.years - s.switchYear)
    requires PhaseShaped(retained, Phase1Type(s.order), input.years - s.switchYear)
    requires NonDecreasing(phase1.yearlyData) && AtMost(phase1.yearlyData, phase1.summary.finalBalance)
    requires WholeCents(phase1.summary.finalBalance)
    requires a.migrated >= 0.0 && a.retained >= 0.0 && a.migrated + a.retained == phase1.summary.finalBalance
    requires GrowsFrom(migrated, a.migrated) && GrowsFrom(retained, a.retained)
    ensures NonDecreasing(SplitResult(input, s, phase1, a, migrated, retained).yearlyData)
    ensures AtLeast(SplitResult(input, s, phase1, a, migrated, retained).yearlyData[|phase1.yearlyData|..],
                    phase1.summary.finalBalance)
  {
    var n, t1 := input.years - s.switchYear, Phase1Type(s.order);
    var c2 := PhaseContribution(Phase2Type(s.order), input.monthlyContribution);
    var merged := Merged(s.switchYear, phase1.summary.totalInvested, c2, t1, retained.yearlyData, migrated.yearlyData, n);
    forall k | 0 <= k < n
      ensures merged[k].finalBalance == retained.yearlyData[k].finalBalance + migrated.yearlyData[k].finalBalance
    {
      assert RecordShaped(retained.yearlyData[k], t1, k) && RecordShaped(migrated.yearlyData[k], Phase2Type(s.order), k);
      MergedRecordOfWholeLegs(s.switchYear, k, phase1.summary.totalInvested, c2, t1,
                              retained.yearlyData[k], migrated.yearlyData[k]);
    }
    RoundedPartsCoverWhole(a.migrated, a.retained, phase1.summary.finalBalance);
    ConcatNonDecreasing(phase1.yearlyData, merged, phase1.summary.finalBalance);
    assert SplitResult(input, s, phase1, a, migrated, retained).yearlyData[|phase1.yearlyData|..] == merged;
  }

  /**
   * A mixed run continued from a first phase that grows never lets a
   * balance fall, provided its later phases are run by a shaped, growing
   * runner on sound inputs.
   */
  lemma MixedFromGrows(input: SimulationInput, s: Settings, phase1: SimulationResult, run: Runner)
    requires ShapedRunner(run) && GrowingRunner(run)
    requires Sound(input) && Phase2Rate(input) >= 0.0
    requires GrowsFrom(phase1, input.initialInvestment)
    ensures NonDecreasing(MixedFrom(input, s, phase1, run).yearlyData)
  {
    var b := phase1.summary.finalBalance;
    RoundSign(input.initialInvestment);
    if input.years - s.switchYear <= 0 {
    } else if IsActualSplit(s, b) {
      var a := SplitOf(s, b);
      var migrated, retained := MigratedLeg(input, s, a, run), RetainedLeg(input, s, a, run);
      var mi, ri := SecondPhaseInput(input, s, a.migrated), RetainedInput(input, s, a.retained);
      assert Sound(mi) && Sound(ri);
      assert GrowsFrom(migrated, mi.initialInvestment) && GrowsFrom(retained, ri.initialInvestment);
      assert PhaseShaped(migrated, Phase2Type(s.order), RecordCount(mi.years));
      assert PhaseShaped(retained, Phase1Type(s.order), RecordCount(ri.years));
      SplitGrows(input, s, phase1, a, migrated, retained);
    } else {
      var phase2 := WholeLeg(input, s, phase1, run);
      var wi := SecondPhaseInput(input, s, b);
      assert Sound(wi);
      assert GrowsFrom(phase2, wi.initialInvestment);
      assert PhaseShaped(phase2, Phase2Type(s.order), RecordCount(wi.years));
      SequentialGrows(input, s, phase1, phase2);
    }
  }

  /**
   * With non-negative amounts and rates and a reinvestment policy within the
   * form's ranges, the yearly balances of a mixed run never decrease, on
   * either side of the switch and whether or not the balance was split.
   */
  lemma MixedYearlyNonDecreasing(input: SimulationInput, j: nat, k: nat)
    requires input.initialInvestment >= 0.0 && input.monthlyContribution >= 0.0
    requires input.annualInterestRate >= 0.0 && Phase2Rate(input) >= 0.0
    requires FixedIncomeEngine.SensiblePolicy(FixedIncomeEngine.PolicyOf(input))
    requires j <= k < |MixedSpec(input).yearlyData|
    ensures MixedSpec(input).yearlyData[j].finalBalance <= MixedSpec(input).yearlyData[k].finalBalance
  {
    DispatcherIsShaped();
    DispatcherGrows();
    var s := SettingsOf(input);
    var phase1 := Phase1With(input, PhaseSpec);
    assert Sound(Phase1Input(input, s));
    assert GrowsFrom(phase1, Phase1Input(input, s).initialInvestment);
    MixedFromGrows(input, s, phase1, PhaseSpec);
  }
}
