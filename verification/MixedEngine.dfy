/**
 * The mixed engine: a first phase runs one strategy up to the switch year,
 * a second phase runs the other strategy for the remaining years. At the
 * switch the balance either moves over whole, or is split into a migrated
 * leg (second strategy) and a retained leg (first strategy) that are
 * simulated independently and merged year by year. A small event log
 * narrates the start, the switch, the split and the end.
 */
module MixedEngine {
  import opened Types
  import opened Rounding
  import CompoundEngine
  import FixedIncomeEngine

  /** The mixed-run settings after the engine's defaults are applied. */
  datatype Settings = Settings(
    switchYear: int,
    order: MixedInvestmentOrder,
    enableSplit: bool,
    splitMode: SplitMode,
    splitValue: real,
    splitPercentage: real
  )

  /**
   * Absent settings default to a switch after year 1, compound first, no
   * split, percentage split mode, a split value of 0 and a split of 100%.
   */
  function SettingsOf(input: SimulationInput): (s: Settings)
    ensures input.switchToFixedYear == None ==> s.switchYear == 1
    ensures input.mixedInvestmentOrder == None ==> s.order == CompoundFirst
    ensures input.enableSplit == None ==> !s.enableSplit
    ensures input.splitMode == None ==> s.splitMode == SplitPercentage
    ensures input.splitValue == None ==> s.splitValue == 0.0
    ensures input.splitPercentage == None ==> s.splitPercentage == 100.0
    ensures input.switchToFixedYear.Some? ==> s.switchYear == input.switchToFixedYear.value
    ensures input.enableSplit.Some? ==> s.enableSplit == input.enableSplit.value
    ensures input.mixedInvestmentOrder.Some? ==> s.order == input.mixedInvestmentOrder.value
    ensures input.splitMode.Some? ==> s.splitMode == input.splitMode.value
    ensures input.splitValue.Some? ==> s.splitValue == input.splitValue.value
    ensures input.splitPercentage.Some? ==> s.splitPercentage == input.splitPercentage.value
  {
    Settings(input.switchToFixedYear.GetOr(1), input.mixedInvestmentOrder.GetOr(CompoundFirst),
             input.enableSplit.GetOr(false), input.splitMode.GetOr(SplitPercentage),
             input.splitValue.GetOr(0.0), input.splitPercentage.GetOr(100.0))
  }

  /** The strategy of the first phase. */
  function Phase1Type(order: MixedInvestmentOrder): (t: PhaseType)
    ensures t == CompoundPhase <==> order == CompoundFirst
  {
    if order == CompoundFirst then CompoundPhase else FixedPhase
  }

  /** The strategy of the second phase: always the other one. */
  function Phase2Type(order: MixedInvestmentOrder): (t: PhaseType)
    ensures t != Phase1Type(order)
  {
    if order == CompoundFirst then FixedPhase else CompoundPhase
  }

  /** The translation key naming a strategy in the event log. */
  function TypeKey(t: PhaseType): (k: TranslationKey)
    ensures k == CompoundInterest <==> t == CompoundPhase
    ensures k == FixedIncome <==> t == FixedPhase
  {
    match t
    case CompoundPhase => CompoundInterest
    case FixedPhase => FixedIncome
  }

  /** Only a compound phase takes the monthly contribution. */
  function PhaseContribution(t: PhaseType, contribution: real): real
  {
    if t == CompoundPhase then contribution else 0.0
  }

  /**
   * Whatever the order, the monthly contribution reaches exactly one phase,
   * the compound one; the fixed-income phase receives nothing.
   */
  lemma ContributionGoesToCompoundPhase(order: MixedInvestmentOrder, contribution: real)
    ensures PhaseContribution(Phase1Type(order), contribution) + PhaseContribution(Phase2Type(order), contribution)
         == contribution
    ensures PhaseContribution(FixedPhase, contribution) == 0.0
    ensures Phase1Type(order) == CompoundPhase || Phase2Type(order) == CompoundPhase
  {
  }

  /** The rate of the second phase; absent, it is the first phase's rate. */
  function Phase2Rate(input: SimulationInput): (rate: real)
    ensures input.annualInterestRatePhase2 == None ==> rate == input.annualInterestRate
    ensures input.annualInterestRatePhase2.Some? ==> rate == input.annualInterestRatePhase2.value
  {
    input.annualInterestRatePhase2.GetOr(input.annualInterestRate)
  }

  /**
   * The input of a phase: `input` with its initial amount, horizon,
   * contribution, strategy and rate replaced; everything else is passed on.
   */
  function PhaseInput(input: SimulationInput, t: PhaseType, initial: real, years: int, contribution: real, rate: real)
    : SimulationInput
  {
    input.(initialInvestment := initial, years := years, monthlyContribution := contribution,
           investmentType := InvestmentTypeOf(t), annualInterestRate := rate)
  }

  /** What the dispatcher returns for a phase input, which is never mixed. */
  function PhaseSpec(t: PhaseType, input: SimulationInput): (r: SimulationResult)
    ensures |r.yearlyData| == RecordCount(input.years)
    ensures r.eventLog == None
  {
    if t == CompoundPhase then CompoundEngine.CompoundSpec(input) else FixedIncomeEngine.FixedSpec(input)
  }

  /** The dispatcher on a phase input: the engine of the phase's strategy. */
  method CalculatePhase(t: PhaseType, input: SimulationInput) returns (r: SimulationResult)
    ensures r == PhaseSpec(t, input)
  {
    if t == CompoundPhase {
      r := CompoundEngine.CalculateCompound(input);
    } else {
      r := FixedIncomeEngine.CalculateFixedIncome(input);
    }
  }

  /** The input of the first phase: the whole input, cut to the switch year. */
  function Phase1Input(input: SimulationInput, s: Settings): SimulationInput
  {
    var t := Phase1Type(s.order);
    PhaseInput(input, t, input.initialInvestment, s.switchYear, PhaseContribution(t, input.monthlyContribution),
               input.annualInterestRate)
  }

  /**
   * The balance at the switch is divided only when splitting is enabled and
   * the split is proper: an amount strictly between 0 and the balance, or a
   * percentage strictly between 0 and 100.
   */
  predicate IsActualSplit(s: Settings, balanceAtSwitch: real)
  {
    s.enableSplit
    && if s.splitMode == SplitAmount then 0.0 < s.splitValue < balanceAtSwitch
       else 0.0 < s.splitPercentage < 100.0
  }

  /** `amount` scaled by `factor`. */
  function Scaled(amount: real, factor: real): real
  {
    amount * factor
  }

  /** `part` as a percentage of `whole`. */
  function ShareOf(part: real, whole: real): real
    requires whole != 0.0
  {
    part / whole * 100.0
  }

  /** The two legs of a split and the retained leg's share, in percent. */
  datatype SplitAmounts = SplitAmounts(migrated: real, retained: real, retainedPercentage: real)

  /**
   * How a proper split divides the balance at the switch: in amount mode the
   * split value migrates and the retained share is what is left, as a
   * percentage of the balance; in percentage mode the split percentage of
   * the balance migrates and the rest of the hundred percent is retained.
   */
  function SplitOf(s: Settings, balanceAtSwitch: real): (a: SplitAmounts)
    requires IsActualSplit(s, balanceAtSwitch)
    ensures a.migrated + a.retained == balanceAtSwitch
    ensures balanceAtSwitch >= 0.0 ==> a.migrated >= 0.0 && a.retained >= 0.0
    ensures s.splitMode == SplitAmount ==> a.migrated == s.splitValue
    ensures s.splitMode == SplitAmount ==> a.retainedPercentage * balanceAtSwitch == a.retained * 100.0
    ensures s.splitMode == SplitPercentage ==> a.migrated == balanceAtSwitch * (s.splitPercentage / 100.0)
    ensures s.splitMode == SplitPercentage ==> a.retained == balanceAtSwitch * (1.0 - s.splitPercentage / 100.0)
    ensures s.splitMode == SplitPercentage ==> a.retainedPercentage == 100.0 - s.splitPercentage
  {
    if s.splitMode == SplitAmount then
      var retained := balanceAtSwitch - s.splitValue;
      SplitAmounts(s.splitValue, retained, ShareOf(retained, balanceAtSwitch))
    else
      var p := s.splitPercentage;
      PercentageSplitConserves(balanceAtSwitch, p);
      SplitAmounts(FixedIncomeEngine.PercentOf(balanceAtSwitch, p), Scaled(balanceAtSwitch, 1.0 - p / 100.0), 100.0 - p)
  }

  /** `p` percent and the remaining `100 - p` percent of an amount add up to the amount. */
  lemma PercentageSplitConserves(b: real, p: real)
    ensures FixedIncomeEngine.PercentOf(b, p) + Scaled(b, 1.0 - p / 100.0) == b
  {
    assert b * (p / 100.0) + b * (1.0 - p / 100.0) == b * (p / 100.0 + (1.0 - p / 100.0));
  }

  /** The start event: the initial amount and the first strategy, at year 0. */
  function StartEvent(amount: real, typeKey: TranslationKey): EventLogItem
  {
    EventLogItem(0, Start, EventStartTitle, EventStartDesc, map[AmountSlot := Num(amount), TypeSlot := Key(typeKey)])
  }

  /** The switch event: the strategy left and the strategy entered. */
  function SwitchEvent(year: int, fromKey: TranslationKey, toKey: TranslationKey): EventLogItem
  {
    EventLogItem(year, Switch, EventSwitchTitle, EventSwitchDesc, map[FromTypeSlot := Key(fromKey), ToTypeSlot := Key(toKey)])
  }

  /** The split event: each leg's amount and share, and the strategy it runs. */
  function SplitEvent(year: int, a: SplitAmounts, splitPercentage: real, fromKey: TranslationKey, toKey: TranslationKey)
    : EventLogItem
  {
    EventLogItem(year, Split, EventSplitTitle, EventSplitDesc,
                 map[MigratedAmountSlot := Num(a.migrated), MigratedPercentageSlot := Num(splitPercentage),
                     ToTypeSlot := Key(toKey), RetainedAmountSlot := Num(a.retained),
                     RetainedPercentageSlot := Num(a.retainedPercentage), FromTypeSlot := Key(fromKey)])
  }

  /** The end event: the balance at the horizon. */
  function EndEvent(year: int, amount: real): EventLogItem
  {
    EventLogItem(year, End, EventEndTitle, EventEndDesc, map[AmountSlot := Num(amount)])
  }

  /** The contributions of the first `k` years of the second phase. */
  function Contributions(contribution: real, k: int): real
  {
    contribution * 12.0 * k as real
  }

  /** A monthly income counts only when it is present and not zero. */
  predicate Truthy(income: Option<real>)
  {
    income.Some? && income.value != 0.0
  }

  /**
   * The income of a merged year: the monthly income of the fixed-income leg
   * (the retained leg when the first phase is fixed income, otherwise the
   * migrated one), reported only when it is positive.
   */
  function CombinedIncome(phase1: PhaseType, retainedData: YearlyData, migratedData: YearlyData): (r: Option<real>)
    ensures r.Some? ==> r.value > 0.0
  {
    var fromRetained := if phase1 == FixedPhase && Truthy(retainedData.monthlyIncome)
                        then retainedData.monthlyIncome.value else 0.0;
    var fromMigrated := if Phase2TypeOf(phase1) == FixedPhase && Truthy(migratedData.monthlyIncome)
                        then migratedData.monthlyIncome.value else 0.0;
    var income := 0.0 + fromRetained + fromMigrated;
    if income > 0.0 then Some(income) else None
  }

  /** The other strategy. */
  function Phase2TypeOf(phase1: PhaseType): (t: PhaseType)
    ensures t != phase1
  {
    if phase1 == CompoundPhase then FixedPhase else CompoundPhase
  }

  /** The merged record of second-phase year `i + 1`, from the records of the two legs. */
  function MergedRecord(phase1Years: int, i: int, totalInvestedAtSwitch: real, phase2Contribution: real,
                        phase1: PhaseType, retainedData: YearlyData, migratedData: YearlyData): YearlyData
  {
    var totalFinalBalance := retainedData.finalBalance + migratedData.finalBalance;
    var currentTotalInvested := totalInvestedAtSwitch + Contributions(phase2Contribution, i + 1);
    var income := CombinedIncome(phase1, retainedData, migratedData);
    YearlyData(phase1Years + i + 1, Round(currentTotalInvested), Round(totalFinalBalance - currentTotalInvested),
               Round(totalFinalBalance), if income.Some? then Some(Round(income.value)) else None,
               Some(retainedData.finalBalance), Some(migratedData.finalBalance))
  }

  /** The first `n` merged records. */
  function Merged(phase1Years: int, totalInvestedAtSwitch: real, phase2Contribution: real, phase1: PhaseType,
                  retained: seq<YearlyData>, migrated: seq<YearlyData>, n: nat): (r: seq<YearlyData>)
    requires n <= |retained| && n <= |migrated|
    ensures |r| == n
  {
    seq(n, i requires 0 <= i < n =>
      MergedRecord(phase1Years, i, totalInvestedAtSwitch, phase2Contribution, phase1, retained[i], migrated[i]))
  }

  /**
   * A second-phase record moved behind the first phase: renumbered, with
   * the principal counted from the switch and the gains recomputed from it.
   */
  function Renumbered(data: YearlyData, phase1Years: int, totalInvestedAtSwitch: real, phase2Contribution: real)
    : YearlyData
  {
    var currentTotalInvested := totalInvestedAtSwitch + Contributions(phase2Contribution, data.year);
    data.(year := data.year + phase1Years, totalInvested := Round(currentTotalInvested),
          interestGains := Round(data.finalBalance - currentTotalInvested))
  }

  function RenumberedAll(data: seq<YearlyData>, phase1Years: int, totalInvestedAtSwitch: real, phase2Contribution: real)
    : (r: seq<YearlyData>)
    ensures |r| == |data|
  {
    seq(|data|, i requires 0 <= i < |data| => Renumbered(data[i], phase1Years, totalInvestedAtSwitch, phase2Contribution))
  }

  /** The result of a mixed run with the given records, summary and event log. */
  function Tagged(yearlyData: seq<YearlyData>, summary: Summary, input: SimulationInput, s: Settings,
                  log: seq<EventLogItem>): SimulationResult
  {
    SimulationResult(yearlyData, summary, Mixed, input.annualInterestRate, input.annualInterestRatePhase2,
                     Some(s.switchYear), Some(s.order), Some(s.enableSplit), Some(s.splitMode),
                     if s.splitMode == SplitAmount then Some(s.splitValue) else None,
                     if s.splitMode == SplitPercentage then Some(s.splitPercentage) else None,
                     Some(log))
  }

  /** With no second phase, the first phase's result, tagged as mixed and carrying every setting. */
  function Phase1Only(phase1: SimulationResult, input: SimulationInput, s: Settings, log: seq<EventLogItem>)
    : SimulationResult
  {
    phase1.(eventLog := Some(log), investmentType := Mixed, switchToFixedYear := Some(s.switchYear),
            mixedInvestmentOrder := Some(s.order), enableSplit := Some(s.enableSplit), splitMode := Some(s.splitMode),
            splitValue := Some(s.splitValue), splitPercentage := Some(s.splitPercentage),
            annualInterestRate := input.annualInterestRate, annualInterestRatePhase2 := input.annualInterestRatePhase2)
  }

  /** The summary of a record series ending in `last`. */
  function SummaryOf(last: YearlyData, monthlyIncome: Option<real>, retained: Option<real>, migrated: Option<real>)
    : Summary
  {
    Summary(last.totalInvested, last.interestGains, last.finalBalance, monthlyIncome, None, None, None, retained, migrated)
  }

  /** The log as it stands after the start event. */
  function StartLog(input: SimulationInput, s: Settings): seq<EventLogItem>
  {
    [StartEvent(input.initialInvestment, TypeKey(Phase1Type(s.order)))]
  }

  /** The log as it stands after the switch event. */
  function SwitchLog(input: SimulationInput, s: Settings): seq<EventLogItem>
  {
    StartLog(input, s) + [SwitchEvent(s.switchYear, TypeKey(Phase1Type(s.order)), TypeKey(Phase2Type(s.order)))]
  }

  /**
   * The input of a second-phase run of the second strategy from `initial`:
   * the migrated leg of a split, or the whole balance without one. It takes
   * the contribution (if compound) and the second rate.
   */
  function SecondPhaseInput(input: SimulationInput, s: Settings, initial: real): SimulationInput
  {
    var t2 := Phase2Type(s.order);
    PhaseInput(input, t2, initial, input.years - s.switchYear, PhaseContribution(t2, input.monthlyContribution),
               Phase2Rate(input))
  }

  /** The input of the retained leg: the first strategy at the first rate, without contributions. */
  function RetainedInput(input: SimulationInput, s: Settings, initial: real): SimulationInput
  {
    PhaseInput(input, Phase1Type(s.order), initial, input.years - s.switchYear, 0.0, input.annualInterestRate)
  }

  /** The split branch, given the split and the results of the migrated and the retained legs. */
  function SplitResult(input: SimulationInput, s: Settings, phase1: SimulationResult, a: SplitAmounts,
                       migrated: SimulationResult, retained: SimulationResult): SimulationResult
    requires 0 < input.years - s.switchYear <= |retained.yearlyData|
    requires input.years - s.switchYear <= |migrated.yearlyData|
  {
    var t1, t2 := Phase1Type(s.order), Phase2Type(s.order);
    var combined := phase1.yearlyData
                    + Merged(s.switchYear, phase1.summary.totalInvested, PhaseContribution(t2, input.monthlyContribution),
                             t1, retained.yearlyData, migrated.yearlyData, input.years - s.switchYear);
    var last := combined[|combined| - 1];
    var log := SwitchLog(input, s)
               + [SplitEvent(s.switchYear, a, s.splitPercentage, TypeKey(t1), TypeKey(t2))]
               + [EndEvent(input.years, last.finalBalance)];
    Tagged(combined, SummaryOf(last, last.monthlyIncome, Some(a.retained), Some(a.migrated)), input, s, log)
  }

  /** The branch without a split, given the second phase's result. */
  function SequentialResult(input: SimulationInput, s: Settings, phase1: SimulationResult, phase2: SimulationResult)
    : SimulationResult
    requires 0 < input.years - s.switchYear == |phase2.yearlyData|
  {
    var combined := phase1.yearlyData
                    + RenumberedAll(phase2.yearlyData, s.switchYear, phase1.summary.totalInvested,
                                    PhaseContribution(Phase2Type(s.order), input.monthlyContribution));
    var last := combined[|combined| - 1];
    Tagged(combined, SummaryOf(last, phase2.summary.monthlyIncome, None, None), input, s,
           SwitchLog(input, s) + [EndEvent(input.years, last.finalBalance)])
  }

  /**
   * The dispatcher as the mixed engine calls it: a phase strategy and the
   * phase's input in, the phase's result out.
   */
  type Runner = (PhaseType, SimulationInput) -> SimulationResult

  /** The runner answers every phase input with one record per year of its horizon. */
  ghost predicate RunsPhases(run: Runner)
  {
    forall t, i :: |run(t, i).yearlyData| == RecordCount(i.years)
  }

  /** The migrated leg of a split: the second strategy, from the migrated amount. */
  function MigratedLeg(input: SimulationInput, s: Settings, a: SplitAmounts, run: Runner): SimulationResult
  {
    run(Phase2Type(s.order), SecondPhaseInput(input, s, a.migrated))
  }

  /** The retained leg of a split: the first strategy, from the retained amount. */
  function RetainedLeg(input: SimulationInput, s: Settings, a: SplitAmounts, run: Runner): SimulationResult
  {
    run(Phase1Type(s.order), RetainedInput(input, s, a.retained))
  }

  /** The second phase without a split: the second strategy, from the whole balance at the switch. */
  function WholeLeg(input: SimulationInput, s: Settings, phase1: SimulationResult, run: Runner): SimulationResult
  {
    run(Phase2Type(s.order), SecondPhaseInput(input, s, phase1.summary.finalBalance))
  }

  /** What a mixed run returns once the first phase has produced `phase1`, its later phases run by `run`. */
  function MixedFrom(input: SimulationInput, s: Settings, phase1: SimulationResult, run: Runner): SimulationResult
    requires RunsPhases(run)
  {
    if input.years - s.switchYear <= 0 then
      Phase1Only(phase1, input, s, StartLog(input, s) + [EndEvent(input.years, phase1.summary.finalBalance)])
    else if IsActualSplit(s, phase1.summary.finalBalance) then
      var a := SplitOf(s, phase1.summary.finalBalance);
      SplitResult(input, s, phase1, a, MigratedLeg(input, s, a, run), RetainedLeg(input, s, a, run))
    else
      SequentialResult(input, s, phase1, WholeLeg(input, s, phase1, run))
  }

  /** The first phase's result for `input`. */
  function Phase1With(input: SimulationInput, run: Runner): SimulationResult
  {
    var s := SettingsOf(input);
    run(Phase1Type(s.order), Phase1Input(input, s))
  }

  /** A mixed run of `input` whose phases are run by `run`. */
  function MixedWith(input: SimulationInput, run: Runner): SimulationResult
    requires RunsPhases(run)
  {
    MixedFrom(input, SettingsOf(input), Phase1With(input, run), run)
  }

  /** The first phase's result for `input`, as the dispatcher computes it. */
  function Phase1Of(input: SimulationInput): SimulationResult
  {
    Phase1With(input, PhaseSpec)
  }

  /** What `calculateMixed` returns for `input`: a mixed run whose phases the dispatcher runs. */
  function MixedSpec(input: SimulationInput): SimulationResult
  {
    MixedWith(input, PhaseSpec)
  }

  lemma MergedSnoc(phase1Years: int, totalInvestedAtSwitch: real, phase2Contribution: real, phase1: PhaseType,
                   retained: seq<YearlyData>, migrated: seq<YearlyData>, n: nat)
    requires n < |retained| && n < |migrated|
    ensures Merged(phase1Years, totalInvestedAtSwitch, phase2Contribution, phase1, retained, migrated, n + 1)
         == Merged(phase1Years, totalInvestedAtSwitch, phase2Contribution, phase1, retained, migrated, n)
            + [MergedRecord(phase1Years, n, totalInvestedAtSwitch, phase2Contribution, phase1, retained[n], migrated[n])]
  {
  }

  /**
   * The merge loop of the split branch: appends to `prefix` the merged
   * records of the first `n` years of the two legs.
   */
  method MergeLegs(prefix: seq<YearlyData>, phase1Years: int, totalInvestedAtSwitch: real, phase2Contribution: real,
                   phase1Type: PhaseType, retained: seq<YearlyData>, migrated: seq<YearlyData>, n: int)
    returns (combined: seq<YearlyData>)
    requires n <= |retained| && n <= |migrated|
    ensures combined == prefix + Merged(phase1Years, totalInvestedAtSwitch, phase2Contribution, phase1Type,
                                        retained, migrated, if n < 0 then 0 else n)
  {
    combined := prefix;
    var i := 0;
    while i < n
      invariant 0 <= i && (n >= 0 ==> i <= n) && (n < 0 ==> i == 0)
      invariant combined == prefix + Merged(phase1Years, totalInvestedAtSwitch, phase2Contribution, phase1Type,
                                            retained, migrated, i)
    {
      var retainedData := retained[i];
      var migratedData := migrated[i];

      var totalFinalBalance := retainedData.finalBalance + migratedData.finalBalance;
      var contributionsThisPhase := phase2Contribution * 12.0 * (i + 1) as real;
      assert contributionsThisPhase == Contributions(phase2Contribution, i + 1);
      var currentTotalInvested := totalInvestedAtSwitch + contributionsThisPhase;
      var totalInterest := totalFinalBalance - currentTotalInvested;
      var income := CombinedIncome(phase1Type, retainedData, migratedData);

      combined := combined + [YearlyData(
        phase1Years + i + 1,
        Round(currentTotalInvested),
        Round(totalInterest),
        Round(totalFinalBalance),
        if income.Some? then Some(Round(income.value)) else None,
        Some(retainedData.finalBalance),
        Some(migratedData.finalBalance))];
      MergedSnoc(phase1Years, totalInvestedAtSwitch, phase2Contribution, phase1Type, retained, migrated, i);
      i := i + 1;
    }
  }

  /** The split branch of `calculateMixed`, from the switch on. */
  method ContinueSplit(input: SimulationInput, settings: Settings, phase1Result: SimulationResult,
                       eventLog: seq<EventLogItem>)
    returns (r: SimulationResult)
    requires input.years - settings.switchYear > 0
    requires IsActualSplit(settings, phase1Result.summary.finalBalance)
    requires eventLog == SwitchLog(input, settings)
    ensures r == MixedFrom(input, settings, phase1Result, PhaseSpec)
  {
    var phase1Type, phase2Type := Phase1Type(settings.order), Phase2Type(settings.order);
    var phase1Years := settings.switchYear;
    var phase2Years := input.years - settings.switchYear;
    var phase2Contribution := PhaseContribution(phase2Type, input.monthlyContribution);
    var phase2Rate := Phase2Rate(input);
    var balanceAtSwitch := phase1Result.summary.finalBalance;
    var totalInvestedAtSwitch := phase1Result.summary.totalInvested;
    var splitValue, splitPercentage := settings.splitValue, settings.splitPercentage;

    var migratedBalance := 0.0;
    var retainedBalance := 0.0;
    var retainedPercentage := 0.0;
    if settings.splitMode == SplitAmount {
      migratedBalance := splitValue;
      retainedBalance := balanceAtSwitch - splitValue;
      retainedPercentage := (retainedBalance / balanceAtSwitch) * 100.0;
      assert retainedPercentage == ShareOf(retainedBalance, balanceAtSwitch);
    } else {
      migratedBalance := balanceAtSwitch * (splitPercentage / 100.0);
      retainedBalance := balanceAtSwitch * (1.0 - splitPercentage / 100.0);
      retainedPercentage := 100.0 - splitPercentage;
      assert migratedBalance == FixedIncomeEngine.PercentOf(balanceAtSwitch, splitPercentage);
      assert retainedBalance == Scaled(balanceAtSwitch, 1.0 - splitPercentage / 100.0);
    }
    var amounts := SplitAmounts(migratedBalance, retainedBalance, retainedPercentage);
    assert amounts == SplitOf(settings, balanceAtSwitch);

    var log := eventLog + [SplitEvent(phase1Years, amounts, splitPercentage, TypeKey(phase1Type), TypeKey(phase2Type))];

    var migratedInput := PhaseInput(input, phase2Type, migratedBalance, phase2Years, phase2Contribution, phase2Rate);
    assert migratedInput == SecondPhaseInput(input, settings, amounts.migrated);
    var migratedResult := CalculatePhase(phase2Type, migratedInput);
    var retainedInput := PhaseInput(input, phase1Type, retainedBalance, phase2Years, 0.0, input.annualInterestRate);
    assert retainedInput == RetainedInput(input, settings, amounts.retained);
    var retainedResult := CalculatePhase(phase1Type, retainedInput);

    var combinedYearlyData := MergeLegs(phase1Result.yearlyData, phase1Years, totalInvestedAtSwitch, phase2Contribution,
                                        phase1Type, retainedResult.yearlyData, migratedResult.yearlyData, phase2Years);

    var lastData := combinedYearlyData[|combinedYearlyData| - 1];
    log := log + [EndEvent(input.years, lastData.finalBalance)];
    r := Tagged(combinedYearlyData, SummaryOf(lastData, lastData.monthlyIncome, Some(retainedBalance), Some(migratedBalance)),
                input, settings, log);
    assert r == SplitResult(input, settings, phase1Result, amounts, migratedResult, retainedResult);
  }

  /** The branch of `calculateMixed` without a split, from the switch on. */
  method ContinueWhole(input: SimulationInput, settings: Settings, phase1Result: SimulationResult,
                       eventLog: seq<EventLogItem>)
    returns (r: SimulationResult)
    requires input.years - settings.switchYear > 0
    requires !IsActualSplit(settings, phase1Result.summary.finalBalance)
    requires eventLog == SwitchLog(input, settings)
    ensures r == MixedFrom(input, settings, phase1Result, PhaseSpec)
  {
    var phase2Type := Phase2Type(settings.order);
    var phase1Years := settings.switchYear;
    var phase2Years := input.years - settings.switchYear;
    var phase2Contribution := PhaseContribution(phase2Type, input.monthlyContribution);
    var totalInvestedAtSwitch := phase1Result.summary.totalInvested;

    var phase2Input := PhaseInput(input, phase2Type, phase1Result.summary.finalBalance, phase2Years, phase2Contribution,
                                  Phase2Rate(input));
    assert phase2Input == SecondPhaseInput(input, settings, phase1Result.summary.finalBalance);
    var phase2Result := CalculatePhase(phase2Type, phase2Input);
    var combinedYearlyData := phase1Result.yearlyData
                              + RenumberedAll(phase2Result.yearlyData, phase1Years, totalInvestedAtSwitch, phase2Contribution);
    var lastDataFull := combinedYearlyData[|combinedYearlyData| - 1];

    var log := eventLog + [EndEvent(input.years, lastDataFull.finalBalance)];
    r := Tagged(combinedYearlyData, SummaryOf(lastDataFull, phase2Result.summary.monthlyIncome, None, None),
                input, settings, log);
    assert r == SequentialResult(input, settings, phase1Result, phase2Result);
  }

  /**
   * The opening of `calculateMixed`: the settings with their defaults, the
   * two strategies and their keys, the start event, and the first phase run
   * through the dispatcher.
   */
  method StartMixed(input: SimulationInput)
    returns (settings: Settings, phase1Type: PhaseType, phase2Type: PhaseType, phase1Result: SimulationResult,
             eventLog: seq<EventLogItem>)
    ensures settings == SettingsOf(input)
    ensures phase1Type == Phase1Type(settings.order) && phase2Type == Phase2Type(settings.order)
    ensures phase1Result == Phase1Of(input)
    ensures eventLog == StartLog(input, settings)
  {
    var switchToFixedYear := input.switchToFixedYear.GetOr(1);
    var mixedInvestmentOrder := input.mixedInvestmentOrder.GetOr(CompoundFirst);
    var enableSplit := input.enableSplit.GetOr(false);
    var splitMode := input.splitMode.GetOr(SplitPercentage);
    var splitValue := input.splitValue.GetOr(0.0);
    var splitPercentage := input.splitPercentage.GetOr(100.0);
    settings := Settings(switchToFixedYear, mixedInvestmentOrder, enableSplit, splitMode, splitValue, splitPercentage);
    eventLog := [];

    phase1Type := if mixedInvestmentOrder == CompoundFirst then CompoundPhase else FixedPhase;
    phase2Type := if mixedInvestmentOrder == CompoundFirst then FixedPhase else CompoundPhase;
    var phase1TypeKey := TypeKey(phase1Type);

    eventLog := eventLog + [StartEvent(input.initialInvestment, phase1TypeKey)];

    var phase1Contribution := if phase1Type == CompoundPhase then input.monthlyContribution else 0.0;
    var phase1Input := input.(years := switchToFixedYear, monthlyContribution := phase1Contribution,
                              investmentType := InvestmentTypeOf(phase1Type));
    assert phase1Input == Phase1Input(input, settings);
    phase1Result := CalculatePhase(phase1Type, phase1Input);
  }

  /** `calculateMixed`: the first phase, the early return, and the two ways to continue at the switch. */
  method CalculateMixed(input: SimulationInput) returns (r: SimulationResult)
    ensures r == MixedSpec(input)
  {
    var settings, phase1Type, phase2Type, phase1Result, eventLog := StartMixed(input);
    var years := input.years;
    var phase2Years := years - settings.switchYear;

    if phase2Years <= 0 {
      eventLog := eventLog + [EndEvent(years, phase1Result.summary.finalBalance)];
      r := Phase1Only(phase1Result, input, settings, eventLog);
      return;
    }

    eventLog := eventLog + [SwitchEvent(settings.switchYear, TypeKey(phase1Type), TypeKey(phase2Type))];

    var balanceAtSwitch := phase1Result.summary.finalBalance;
    var isActualSplit := false;
    if settings.enableSplit {
      if settings.splitMode == SplitAmount {
        isActualSplit := settings.splitValue > 0.0 && settings.splitValue < balanceAtSwitch;
      } else {
        isActualSplit := settings.splitPercentage > 0.0 && settings.splitPercentage < 100.0;
      }
    }

    if isActualSplit {
      r := ContinueSplit(input, settings, phase1Result, eventLog);
    } else {
      r := ContinueWhole(input, settings, phase1Result, eventLog);
    }
  }

  /** A record shaped like the `k`-th record of a phase of strategy `t`. */
  predicate RecordShaped(d: YearlyData, t: PhaseType, k: int)
  {
    && d.year == k + 1
    && WholeCents(d.finalBalance)
    && d.retainedBalance == None && d.migratedBalance == None
    && (d.monthlyIncome.Some? <==> t == FixedPhase)
  }

  /** A result shaped like a run of strategy `t` over `n` years: `n` such records and no split in the summary. */
  predicate PhaseShaped(r: SimulationResult, t: PhaseType, n: int)
  {
    && |r.yearlyData| == n
    && (forall k :: 0 <= k < n ==> RecordShaped(r.yearlyData[k], t, k))
    && r.summary.initialRetainedBalance == None && r.summary.initialMigratedBalance == None
  }

  /**
   * A record of a phase: year `k + 1`, a balance in whole cents, no split
   * balances, and a monthly income exactly when the phase is fixed income.
   */
  lemma PhaseRecordAt(t: PhaseType, input: SimulationInput, k: nat)
    requires k < |PhaseSpec(t, input).yearlyData|
    ensures RecordShaped(PhaseSpec(t, input).yearlyData[k], t, k)
  {
    if t == CompoundPhase {
      CompoundEngine.CompoundRecordAt(input, k);
      RoundIsNearestCent(CompoundEngine.Balance(input.initialInvestment, input.monthlyContribution,
                                                CompoundEngine.MonthlyRate(input.annualInterestRate), 12 * (k + 1)));
    } else {
      FixedIncomeEngine.FixedRecordAt(input, k);
      RoundIsNearestCent(FixedIncomeEngine.Balance(input.initialInvestment,
                                                   CompoundEngine.MonthlyRate(input.annualInterestRate),
                                                   FixedIncomeEngine.PolicyOf(input), 12 * (k + 1)));
    }
  }

  /** Every phase run is shaped as a phase: one record per year, numbered from 1, in whole cents. */
  lemma PhaseIsShaped(t: PhaseType, input: SimulationInput)
    ensures PhaseShaped(PhaseSpec(t, input), t, RecordCount(input.years))
  {
    forall k | 0 <= k < RecordCount(input.years)
      ensures RecordShaped(PhaseSpec(t, input).yearlyData[k], t, k)
    {
      PhaseRecordAt(t, input, k);
    }
  }

  /**
   * A merged record of two legs whose balances are whole cents carries
   * exactly their sum, the rounding having nothing left to do.
   */
  lemma MergedRecordOfWholeLegs(phase1Years: int, i: int, totalInvestedAtSwitch: real, phase2Contribution: real,
                                phase1: PhaseType, retainedData: YearlyData, migratedData: YearlyData)
    requires WholeCents(retainedData.finalBalance) && WholeCents(migratedData.finalBalance)
    ensures var d := MergedRecord(phase1Years, i, totalInvestedAtSwitch, phase2Contribution, phase1, retainedData, migratedData);
      && d.year == phase1Years + i + 1
      && d.totalInvested == Round(totalInvestedAtSwitch + Contributions(phase2Contribution, i + 1))
      && d.retainedBalance == Some(retainedData.finalBalance) && d.migratedBalance == Some(migratedData.finalBalance)
      && d.finalBalance == retainedData.finalBalance + migratedData.finalBalance
  {
    WholeCentsSum(retainedData.finalBalance, migratedData.finalBalance);
    RoundWholeCents(retainedData.finalBalance + migratedData.finalBalance);
  }

  /**
   * Of two shaped legs only the fixed-income one has an income; the merged
   * income is that income, reported only when positive.
   */
  lemma CombinedIncomeIsFixedLeg(phase1: PhaseType, retainedData: YearlyData, migratedData: YearlyData, k: int)
    requires RecordShaped(retainedData, phase1, k) && RecordShaped(migratedData, Phase2TypeOf(phase1), k)
    ensures var fixedLeg := if phase1 == FixedPhase then retainedData else migratedData;
      && fixedLeg.monthlyIncome.Some?
      && CombinedIncome(phase1, retainedData, migratedData)
         == if fixedLeg.monthlyIncome.value > 0.0 then Some(fixedLeg.monthlyIncome.value) else None
  {
  }

  /**
   * The split branch keeps the first phase's records and appends one merged
   * record per second-phase year: numbered on from the switch, its principal
   * counted from the switch, its balance exactly the two legs' balances,
   * which it reports, and its income that of the fixed-income leg when
   * positive.
   */
  lemma SplitRecords(input: SimulationInput, s: Settings, phase1: SimulationResult, a: SplitAmounts,
                     migrated: SimulationResult, retained: SimulationResult, k: int)
    requires 0 < input.years - s.switchYear
    requires PhaseShaped(migrated, Phase2Type(s.order), input.years - s.switchYear)
    requires PhaseShaped(retained, Phase1Type(s.order), input.years - s.switchYear)
    requires 0 <= k < input.years - s.switchYear
    ensures var r := SplitResult(input, s, phase1, a, migrated, retained);
      var n1 := |phase1.yearlyData|;
      var c2 := PhaseContribution(Phase2Type(s.order), input.monthlyContribution);
      var rd, md := retained.yearlyData[k], migrated.yearlyData[k];
      var income := (if Phase1Type(s.order) == FixedPhase then rd else md).monthlyIncome.value;
      && |r.yearlyData| == n1 + (input.years - s.switchYear)
      && r.yearlyData[..n1] == phase1.yearlyData
      && r.yearlyData[n1 + k].year == s.switchYear + k + 1
      && r.yearlyData[n1 + k].totalInvested == Round(phase1.summary.totalInvested + Contributions(c2, k + 1))
      && r.yearlyData[n1 + k].retainedBalance == Some(rd.finalBalance)
      && r.yearlyData[n1 + k].migratedBalance == Some(md.finalBalance)
      && r.yearlyData[n1 + k].finalBalance == rd.finalBalance + md.finalBalance
      && r.yearlyData[n1 + k].monthlyIncome == if income > 0.0 then Some(Round(income)) else None
  {
    var t1, t2 := Phase1Type(s.order), Phase2Type(s.order);
    var c2 := PhaseContribution(t2, input.monthlyContribution);
    var rd, md := retained.yearlyData[k], migrated.yearlyData[k];
    assert RecordShaped(rd, t1, k) && RecordShaped(md, t2, k);
    MergedRecordOfWholeLegs(s.switchYear, k, phase1.summary.totalInvested, c2, t1, rd, md);
    CombinedIncomeIsFixedLeg(t1, rd, md, k);
    var merged := Merged(s.switchYear, phase1.summary.totalInvested, c2, t1, retained.yearlyData, migrated.yearlyData,
                         input.years - s.switchYear);
    assert (phase1.yearlyData + merged)[|phase1.yearlyData| + k] == merged[k];
    assert (phase1.yearlyData + merged)[..|phase1.yearlyData|] == phase1.yearlyData;
  }

  /**
   * Without a split the first phase's records are kept and the second
   * phase's follow, renumbered from the switch, with their principal counted
   * from the switch and their gains recomputed from it; balance, income and
   * the absent split balances are the second phase's own.
   */
  lemma SequentialRecords(input: SimulationInput, s: Settings, phase1: SimulationResult, phase2: SimulationResult, k: int)
    requires 0 < input.years - s.switchYear
    requires PhaseShaped(phase2, Phase2Type(s.order), input.years - s.switchYear)
    requires 0 <= k < input.years - s.switchYear
    ensures var r := SequentialResult(input, s, phase1, phase2);
      var n1 := |phase1.yearlyData|;
      var invested := phase1.summary.totalInvested
                      + Contributions(PhaseContribution(Phase2Type(s.order), input.monthlyContribution), k + 1);
      var p2 := phase2.yearlyData[k];
      && |r.yearlyData| == n1 + (input.years - s.switchYear)
      && r.yearlyData[..n1] == phase1.yearlyData
      && r.yearlyData[n1 + k] == YearlyData(s.switchYear + k + 1, Round(invested), Round(p2.finalBalance - invested),
                                            p2.finalBalance, p2.monthlyIncome, None, None)
  {
    var c2 := PhaseContribution(Phase2Type(s.order), input.monthlyContribution);
    var renumbered := RenumberedAll(phase2.yearlyData, s.switchYear, phase1.summary.totalInvested, c2);
    assert RecordShaped(phase2.yearlyData[k], Phase2Type(s.order), k);
    assert (phase1.yearlyData + renumbered)[|phase1.yearlyData| + k] == renumbered[k];
    assert (phase1.yearlyData + renumbered)[..|phase1.yearlyData|] == phase1.yearlyData;
  }

  /**
   * The split branch's summary is its last record, plus the two amounts the
   * balance was split into; its log is start, switch, split and end, at year
   * 0, the switch year twice and the horizon, the end reporting the final
   * balance.
   */
  lemma SplitSummaryAndLog(input: SimulationInput, s: Settings, phase1: SimulationResult, a: SplitAmounts,
                           migrated: SimulationResult, retained: SimulationResult)
    requires 0 < input.years - s.switchYear
    requires |migrated.yearlyData| == |retained.yearlyData| == input.years - s.switchYear
    ensures var r := SplitResult(input, s, phase1, a, migrated, retained);
      var last := r.yearlyData[|r.yearlyData| - 1];
      && r.summary == Summary(last.totalInvested, last.interestGains, last.finalBalance, last.monthlyIncome,
                              None, None, None, Some(a.retained), Some(a.migrated))
      && r.eventLog.Some?
      && Kinds(r.eventLog.value) == [Start, Switch, Split, End]
      && EventYears(r.eventLog.value) == [0, s.switchYear, s.switchYear, input.years]
      && r.eventLog.value[3].descriptionValues == map[AmountSlot := Num(r.summary.finalBalance)]
  {
    var r := SplitResult(input, s, phase1, a, migrated, retained);
    var log := r.eventLog.value;
    assert |log| == 4 && log[0].kind == Start && log[1].kind == Switch && log[2].kind == Split && log[3].kind == End;
  }

  /**
   * Without a split the summary is the last record with the second phase's
   * income; the log is start, switch and end, at year 0, the switch year and
   * the horizon, the end reporting the final balance.
   */
  lemma SequentialSummaryAndLog(input: SimulationInput, s: Settings, phase1: SimulationResult, phase2: SimulationResult)
    requires 0 < input.years - s.switchYear == |phase2.yearlyData|
    ensures var r := SequentialResult(input, s, phase1, phase2);
      var last := r.yearlyData[|r.yearlyData| - 1];
      && r.summary == Summary(last.totalInvested, last.interestGains, last.finalBalance, phase2.summary.monthlyIncome,
                              None, None, None, None, None)
      && r.eventLog.Some?
      && Kinds(r.eventLog.value) == [Start, Switch, End]
      && EventYears(r.eventLog.value) == [0, s.switchYear, input.years]
      && r.eventLog.value[2].descriptionValues == map[AmountSlot := Num(r.summary.finalBalance)]
  {
    var r := SequentialResult(input, s, phase1, phase2);
    var log := r.eventLog.value;
    assert |log| == 3 && log[0].kind == Start && log[1].kind == Switch && log[2].kind == End;
  }

  /** A runner whose every answer is shaped as a run of the phase asked for. */
  ghost predicate ShapedRunner(run: Runner)
  {
    && RunsPhases(run)
    && forall t, i :: PhaseShaped(run(t, i), t, RecordCount(i.years))
  }

  /** The dispatcher is such a runner. */
  lemma DispatcherIsShaped()
    ensures ShapedRunner(PhaseSpec)
  {
    forall t, i ensures PhaseShaped(PhaseSpec(t, i), t, RecordCount(i.years)) {
      PhaseIsShaped(t, i);
    }
  }

  /**
   * Every mixed run is tagged as mixed and echoes the first rate, the given
   * second rate and the settings after defaults. The split value and
   * percentage are both echoed when no second phase runs; otherwise only the
   * one the split mode uses is.
   */
  lemma MixedEchoesSettings(input: SimulationInput, run: Runner)
    requires RunsPhases(run)
    ensures var r, s := MixedWith(input, run), SettingsOf(input);
      && r.investmentType == Mixed
      && r.annualInterestRate == input.annualInterestRate
      && r.annualInterestRatePhase2 == input.annualInterestRatePhase2
      && r.switchToFixedYear == Some(s.switchYear) && r.mixedInvestmentOrder == Some(s.order)
      && r.enableSplit == Some(s.enableSplit) && r.splitMode == Some(s.splitMode)
      && (input.years - s.switchYear <= 0 ==>
            r.splitValue == Some(s.splitValue) && r.splitPercentage == Some(s.splitPercentage))
      && (input.years - s.switchYear > 0 ==>
            && (r.splitValue.Some? <==> s.splitMode == SplitAmount)
            && (r.splitPercentage.Some? <==> s.splitMode == SplitPercentage)
            && (r.splitValue.Some? ==> r.splitValue.value == s.splitValue)
            && (r.splitPercentage.Some? ==> r.splitPercentage.value == s.splitPercentage))
  {
  }

  /**
   * With no second phase the run is the first phase's: the same records and
   * summary, with a log of just the start and the end.
   */
  lemma MixedEarlyReturn(input: SimulationInput, run: Runner)
    requires RunsPhases(run)
    requires input.years - SettingsOf(input).switchYear <= 0
    ensures var r, phase1 := MixedWith(input, run), Phase1With(input, run);
      && r.yearlyData == phase1.yearlyData && r.summary == phase1.summary
      && r.eventLog.Some?
      && Kinds(r.eventLog.value) == [Start, End]
      && EventYears(r.eventLog.value) == [0, input.years]
      && r.eventLog.value[1].descriptionValues == map[AmountSlot := Num(r.summary.finalBalance)]
  {
    var log := MixedWith(input, run).eventLog.value;
    assert |log| == 2 && log[0].kind == Start && log[1].kind == End;
  }

  /**
   * The event log of a run that reaches a second phase: start, switch, a
   * split event exactly when the balance was split, and end, at year 0, the
   * switch year and the horizon.
   */
  lemma MixedEventLog(input: SimulationInput, run: Runner)
    requires RunsPhases(run)
    requires input.years - SettingsOf(input).switchYear > 0
    ensures var r, s := MixedWith(input, run), SettingsOf(input);
      var split := IsActualSplit(s, Phase1With(input, run).summary.finalBalance);
      && r.eventLog.Some?
      && Kinds(r.eventLog.value) == (if split then [Start, Switch, Split, End] else [Start, Switch, End])
      && EventYears(r.eventLog.value)
         == (if split then [0, s.switchYear, s.switchYear, input.years] else [0, s.switchYear, input.years])
  {
    var s, phase1 := SettingsOf(input), Phase1With(input, run);
    if IsActualSplit(s, phase1.summary.finalBalance) {
      var a := SplitOf(s, phase1.summary.finalBalance);
      SplitSummaryAndLog(input, s, phase1, a, MigratedLeg(input, s, a, run), RetainedLeg(input, s, a, run));
    } else {
      SequentialSummaryAndLog(input, s, phase1, WholeLeg(input, s, phase1, run));
    }
  }

  /**
   * Once a second phase runs, the summary's balance is the last year's, and
   * it is the amount the end event reports.
   */
  lemma MixedEndIsFinalBalance(input: SimulationInput, run: Runner)
    requires RunsPhases(run)
    requires input.years - SettingsOf(input).switchYear > 0
    ensures var r := MixedWith(input, run);
      && r.eventLog.Some? && |r.eventLog.value| > 0 && |r.yearlyData| > 0
      && r.eventLog.value[|r.eventLog.value| - 1].descriptionValues == map[AmountSlot := Num(r.summary.finalBalance)]
      && r.summary.finalBalance == r.yearlyData[|r.yearlyData| - 1].finalBalance
  {
    var s, phase1 := SettingsOf(input), Phase1With(input, run);
    if IsActualSplit(s, phase1.summary.finalBalance) {
      var a := SplitOf(s, phase1.summary.finalBalance);
      SplitSummaryAndLog(input, s, phase1, a, MigratedLeg(input, s, a, run), RetainedLeg(input, s, a, run));
    } else {
      SequentialSummaryAndLog(input, s, phase1, WholeLeg(input, s, phase1, run));
    }
  }

  /**
   * The summary reports split balances exactly when a second phase exists
   * and the split is proper; the two balances then add up to the balance at
   * the switch, and in amount mode the migrated one is the amount asked for.
   */
  lemma MixedSplitIff(input: SimulationInput, run: Runner)
    requires ShapedRunner(run)
    ensures var r, s := MixedWith(input, run), SettingsOf(input);
      var b := Phase1With(input, run).summary.finalBalance;
      && (r.summary.initialRetainedBalance.Some? <==> input.years - s.switchYear > 0 && IsActualSplit(s, b))
      && (r.summary.initialRetainedBalance.Some? <==> r.summary.initialMigratedBalance.Some?)
      && (r.summary.initialRetainedBalance.Some? ==>
            && r.summary.initialRetainedBalance.value + r.summary.initialMigratedBalance.value == b
            && (s.splitMode == SplitAmount ==> r.summary.initialMigratedBalance.value == s.splitValue))
  {
    var s, phase1 := SettingsOf(input), Phase1With(input, run);
    if input.years - s.switchYear <= 0 {
      assert PhaseShaped(phase1, Phase1Type(s.order), RecordCount(Phase1Input(input, s).years));
    } else if IsActualSplit(s, phase1.summary.finalBalance) {
      var a := SplitOf(s, phase1.summary.finalBalance);
      SplitSummaryAndLog(input, s, phase1, a, MigratedLeg(input, s, a, run), RetainedLeg(input, s, a, run));
    } else {
      var phase2 := WholeLeg(input, s, phase1, run);
      assert PhaseShaped(phase2, Phase2Type(s.order), RecordCount(SecondPhaseInput(input, s, phase1.summary.finalBalance).years));
      SequentialSummaryAndLog(input, s, phase1, phase2);
    }
  }

  /** The records of a run continued from any first phase `phase1`. */
  lemma MixedFromKeepsPhase1(input: SimulationInput, s: Settings, phase1: SimulationResult, run: Runner)
    requires ShapedRunner(run)
    ensures var r := MixedFrom(input, s, phase1, run);
      var phase2Years := input.years - s.switchYear;
      && |r.yearlyData| == |phase1.yearlyData| + (if phase2Years > 0 then phase2Years else 0)
      && r.yearlyData[..|phase1.yearlyData|] == phase1.yearlyData
  {
    if input.years - s.switchYear <= 0 {
    } else if IsActualSplit(s, phase1.summary.finalBalance) {
      var a := SplitOf(s, phase1.summary.finalBalance);
      var migrated, retained := MigratedLeg(input, s, a, run), RetainedLeg(input, s, a, run);
      assert PhaseShaped(migrated, Phase2Type(s.order), RecordCount(SecondPhaseInput(input, s, a.migrated).years));
      assert PhaseShaped(retained, Phase1Type(s.order), RecordCount(RetainedInput(input, s, a.retained).years));
      SplitRecords(input, s, phase1, a, migrated, retained, 0);
    } else {
      var phase2 := WholeLeg(input, s, phase1, run);
      assert PhaseShaped(phase2, Phase2Type(s.order), RecordCount(SecondPhaseInput(input, s, phase1.summary.finalBalance).years));
      SequentialRecords(input, s, phase1, phase2, 0);
    }
  }

  /**
   * The first phase's records open every mixed run unchanged; a second
   * phase adds one record per remaining year.
   */
  lemma MixedKeepsPhase1(input: SimulationInput, run: Runner)
    requires ShapedRunner(run)
    ensures var r, phase1 := MixedWith(input, run), Phase1With(input, run);
      var phase2Years := input.years - SettingsOf(input).switchYear;
      && |r.yearlyData| == |phase1.yearlyData| + (if phase2Years > 0 then phase2Years else 0)
      && r.yearlyData[..|phase1.yearlyData|] == phase1.yearlyData
  {
    MixedFromKeepsPhase1(input, SettingsOf(input), Phase1With(input, run), run);
  }

  /** Second-phase year `k + 1` of a run continued from any first phase `phase1`. */
  lemma MixedFromRecordAt(input: SimulationInput, s: Settings, phase1: SimulationResult, run: Runner, k: int)
    requires ShapedRunner(run)
    requires 0 <= k < input.years - s.switchYear
    ensures var r := MixedFrom(input, s, phase1, run);
      var n1 := |phase1.yearlyData|;
      var c2 := PhaseContribution(Phase2Type(s.order), input.monthlyContribution);
      var split := IsActualSplit(s, phase1.summary.finalBalance);
      && n1 + k < |r.yearlyData|
      && var d := r.yearlyData[n1 + k];
      && d.year == s.switchYear + k + 1
      && d.totalInvested == Round(phase1.summary.totalInvested + Contributions(c2, k + 1))
      && (d.retainedBalance.Some? <==> split) && (d.migratedBalance.Some? <==> split)
      && (split ==> d.finalBalance == d.retainedBalance.value + d.migratedBalance.value)
  {
    if IsActualSplit(s, phase1.summary.finalBalance) {
      var a := SplitOf(s, phase1.summary.finalBalance);
      var migrated, retained := MigratedLeg(input, s, a, run), RetainedLeg(input, s, a, run);
      assert PhaseShaped(migrated, Phase2Type(s.order), RecordCount(SecondPhaseInput(input, s, a.migrated).years));
      assert PhaseShaped(retained, Phase1Type(s.order), RecordCount(RetainedInput(input, s, a.retained).years));
      SplitRecords(input, s, phase1, a, migrated, retained, k);
    } else {
      var phase2 := WholeLeg(input, s, phase1, run);
      assert PhaseShaped(phase2, Phase2Type(s.order), RecordCount(SecondPhaseInput(input, s, phase1.summary.finalBalance).years));
      SequentialRecords(input, s, phase1, phase2, k);
    }
  }

  /**
   * Second-phase year `k + 1` of a run: numbered on from the switch, its
   * principal counted from the switch; after a split its balance is exactly
   * the two legs' balances it reports, and without one it reports none.
   */
  lemma MixedRecordAt(input: SimulationInput, run: Runner, k: int)
    requires ShapedRunner(run)
    requires 0 <= k < input.years - SettingsOf(input).switchYear
    ensures var r, s, phase1 := MixedWith(input, run), SettingsOf(input), Phase1With(input, run);
      var n1 := |phase1.yearlyData|;
      var c2 := PhaseContribution(Phase2Type(s.order), input.monthlyContribution);
      var split := IsActualSplit(s, phase1.summary.finalBalance);
      && n1 + k < |r.yearlyData|
      && var d := r.yearlyData[n1 + k];
      && d.year == s.switchYear + k + 1
      && d.totalInvested == Round(phase1.summary.totalInvested + Contributions(c2, k + 1))
      && (d.retainedBalance.Some? <==> split) && (d.migratedBalance.Some? <==> split)
      && (split ==> d.finalBalance == d.retainedBalance.value + d.migratedBalance.value)
  {
    MixedFromRecordAt(input, SettingsOf(input), Phase1With(input, run), run, k);
  }

  /** The years of a run continued from a first phase shaped as a run up to the switch. */
  lemma MixedFromYearsConsecutive(input: SimulationInput, s: Settings, phase1: SimulationResult, run: Runner)
    requires ShapedRunner(run)
    requires 0 <= s.switchYear < input.years
    requires PhaseShaped(phase1, Phase1Type(s.order), s.switchYear)
    ensures var r := MixedFrom(input, s, phase1, run);
      && |r.yearlyData| == input.years
      && forall k :: 0 <= k < input.years ==> r.yearlyData[k].year == k + 1
  {
    MixedFromKeepsPhase1(input, s, phase1, run);
    var r := MixedFrom(input, s, phase1, run);
    forall k | 0 <= k < input.years
      ensures r.yearlyData[k].year == k + 1
    {
      if k < s.switchYear {
        assert r.yearlyData[k] == r.yearlyData[..|phase1.yearlyData|][k];
        assert RecordShaped(phase1.yearlyData[k], Phase1Type(s.order), k);
      } else {
        MixedFromRecordAt(input, s, phase1, run, k - s.switchYear);
      }
    }
  }

  /**
   * With the switch inside the horizon, the run has one record per year,
   * numbered 1 to `years` without gaps across the switch.
   */
  lemma MixedYearsConsecutive(input: SimulationInput, run: Runner)
    requires ShapedRunner(run)
    requires 0 <= SettingsOf(input).switchYear < input.years
    ensures var r := MixedWith(input, run);
      && |r.yearlyData| == input.years
      && forall k :: 0 <= k < input.years ==> r.yearlyData[k].year == k + 1
  {
    var s, phase1 := SettingsOf(input), Phase1With(input, run);
    assert PhaseShaped(phase1, Phase1Type(s.order), RecordCount(Phase1Input(input, s).years));
    MixedFromYearsConsecutive(input, s, phase1, run);
  }
}
