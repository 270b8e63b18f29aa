/**
 * The calculator form's logic: the state the form keeps, the update that
 * sets one field and then clamps the horizon and the switch year of a mixed
 * run, the effective rate derived from market indicators, and the shaping
 * that decides which optional fields reach the simulation.
 */
module CalculatorForm {
  import opened Types
  import opened Rounding
  import FixedIncomeEngine
  import MixedEngine
  import Calculator

  /**
   * The form's state: every simulation parameter, each always present,
   * including those the selected strategy does not use.
   */
  datatype FormState = FormState(
    initialInvestment: real,
    monthlyContribution: real,
    annualInterestRate: real,
    annualInterestRatePhase2: real,
    years: int,
    investmentType: InvestmentType,
    reinvestmentValue: real,
    reinvestmentMode: ReinvestmentMode,
    reinvestmentPercentage: real,
    reinvestmentThreshold: real,
    switchToFixedYear: int,
    mixedInvestmentOrder: MixedInvestmentOrder,
    enableSplit: bool,
    splitMode: SplitMode,
    splitValue: real,
    splitPercentage: real
  )

  /** The state a fresh form starts from. */
  const Defaults := FormState(1000.0, 200.0, 10.0, 6.0, 20, Compound, 0.0, Amount, 50.0, 0.0, 10, CompoundFirst,
                              false, SplitPercentage, 10000.0, 80.0)

  /** The name of a form field. */
  datatype Field =
    | InitialInvestment | MonthlyContribution | AnnualInterestRate | AnnualInterestRatePhase2 | Years
    | Strategy | ReinvestmentValue | Reinvestment | ReinvestmentPercentage | ReinvestmentThreshold
    | SwitchToFixedYear | Order | EnableSplit | Splitting | SplitValue | SplitPercent

  /** A value a field can hold. */
  datatype FieldValue =
    | Number(x: real)
    | Count(n: int)
    | StrategyValue(t: InvestmentType)
    | ReinvestmentValueMode(m: ReinvestmentMode)
    | OrderValue(o: MixedInvestmentOrder)
    | Flag(b: bool)
    | SplittingValue(sm: SplitMode)

  /** The value has the type of the field, as the updater's signature demands. */
  predicate Fits(f: Field, v: FieldValue)
  {
    match f
    case Years => v.Count?
    case SwitchToFixedYear => v.Count?
    case Strategy => v.StrategyValue?
    case Reinvestment => v.ReinvestmentValueMode?
    case Order => v.OrderValue?
    case EnableSplit => v.Flag?
    case Splitting => v.SplittingValue?
    case _ => v.Number?
  }

  /** The value field `f` holds in `s`. */
  function Get(s: FormState, f: Field): (v: FieldValue)
    ensures Fits(f, v)
  {
    match f
    case InitialInvestment => Number(s.initialInvestment)
    case MonthlyContribution => Number(s.monthlyContribution)
    case AnnualInterestRate => Number(s.annualInterestRate)
    case AnnualInterestRatePhase2 => Number(s.annualInterestRatePhase2)
    case Years => Count(s.years)
    case Strategy => StrategyValue(s.investmentType)
    case ReinvestmentValue => Number(s.reinvestmentValue)
    case Reinvestment => ReinvestmentValueMode(s.reinvestmentMode)
    case ReinvestmentPercentage => Number(s.reinvestmentPercentage)
    case ReinvestmentThreshold => Number(s.reinvestmentThreshold)
    case SwitchToFixedYear => Count(s.switchToFixedYear)
    case Order => OrderValue(s.mixedInvestmentOrder)
    case EnableSplit => Flag(s.enableSplit)
    case Splitting => SplittingValue(s.splitMode)
    case SplitValue => Number(s.splitValue)
    case SplitPercent => Number(s.splitPercentage)
  }

  /** `s` with field `f` replaced by `v`: the spread `{ ...s, [f]: v }`. */
  function Set(s: FormState, f: Field, v: FieldValue): (r: FormState)
    requires Fits(f, v)
    ensures Get(r, f) == v
    ensures forall g :: g != f ==> Get(r, g) == Get(s, g)
  {
    match f
    case InitialInvestment => s.(initialInvestment := v.x)
    case MonthlyContribution => s.(monthlyContribution := v.x)
    case AnnualInterestRate => s.(annualInterestRate := v.x)
    case AnnualInterestRatePhase2 => s.(annualInterestRatePhase2 := v.x)
    case Years => s.(years := v.n)
    case Strategy => s.(investmentType := v.t)
    case ReinvestmentValue => s.(reinvestmentValue := v.x)
    case Reinvestment => s.(reinvestmentMode := v.m)
    case ReinvestmentPercentage => s.(reinvestmentPercentage := v.x)
    case ReinvestmentThreshold => s.(reinvestmentThreshold := v.x)
    case SwitchToFixedYear => s.(switchToFixedYear := v.n)
    case Order => s.(mixedInvestmentOrder := v.o)
    case EnableSplit => s.(enableSplit := v.b)
    case Splitting => s.(splitMode := v.sm)
    case SplitValue => s.(splitValue := v.x)
    case SplitPercent => s.(splitPercentage := v.x)
  }

  /** Two states that agree on every field are the same state. */
  lemma FieldsDetermineState(s: FormState, t: FormState)
    requires forall g :: Get(s, g) == Get(t, g)
    ensures s == t
  {
    assert Get(s, InitialInvestment) == Get(t, InitialInvestment);
    assert Get(s, MonthlyContribution) == Get(t, MonthlyContribution);
    assert Get(s, AnnualInterestRate) == Get(t, AnnualInterestRate);
    assert Get(s, AnnualInterestRatePhase2) == Get(t, AnnualInterestRatePhase2);
    assert Get(s, Years) == Get(t, Years);
    assert Get(s, Strategy) == Get(t, Strategy);
    assert Get(s, ReinvestmentValue) == Get(t, ReinvestmentValue);
    assert Get(s, Reinvestment) == Get(t, Reinvestment);
    assert Get(s, ReinvestmentPercentage) == Get(t, ReinvestmentPercentage);
    assert Get(s, ReinvestmentThreshold) == Get(t, ReinvestmentThreshold);
    assert Get(s, SwitchToFixedYear) == Get(t, SwitchToFixedYear);
    assert Get(s, Order) == Get(t, Order);
    assert Get(s, EnableSplit) == Get(t, EnableSplit);
    assert Get(s, Splitting) == Get(t, Splitting);
    assert Get(s, SplitValue) == Get(t, SplitValue);
    assert Get(s, SplitPercent) == Get(t, SplitPercent);
  }

  /** Writing a field's own value back leaves the state as it was. */
  lemma SetOwnValue(s: FormState, f: Field)
    ensures Set(s, f, Get(s, f)) == s
  {
    var r := Set(s, f, Get(s, f));
    forall g ensures Get(r, g) == Get(s, g) {
    }
    FieldsDetermineState(r, s);
  }

  function IntMax(a: int, b: int): int { if a >= b then a else b }

  function IntMin(a: int, b: int): int { if a <= b then a else b }

  /** A state a mixed run can use: at least two years, and the switch strictly before the horizon. */
  predicate Admissible(s: FormState)
  {
    s.investmentType == Mixed ==> 2 <= s.years && s.switchToFixedYear < s.years
  }

  /**
   * The mixed-mode constraints as a reference: the horizon raised to at
   * least two years, then the switch year lowered to at most the year before
   * the horizon. Other strategies are left alone.
   */
  function Clamp(s: FormState): (r: FormState)
    ensures Admissible(r)
    ensures r == s.(years := r.years, switchToFixedYear := r.switchToFixedYear)
    ensures r.years >= s.years && r.switchToFixedYear <= s.switchToFixedYear
    ensures r == s <==> Admissible(s)
  {
    if s.investmentType != Mixed then s
    else
      var years := IntMax(s.years, 2);
      s.(years := years, switchToFixedYear := IntMin(s.switchToFixedYear, years - 1))
  }

  /**
   * Of all admissible states that differ from `s` only by a longer horizon
   * and an earlier switch, the clamp changes the least: its horizon is the
   * shortest, and with that horizon its switch is the latest.
   */
  lemma ClampIsLeastChange(s: FormState, t: FormState)
    requires s.investmentType == Mixed
    requires Admissible(t) && t == s.(years := t.years, switchToFixedYear := t.switchToFixedYear)
    requires t.years >= s.years && t.switchToFixedYear <= s.switchToFixedYear
    ensures Clamp(s).years <= t.years
    ensures t.years == Clamp(s).years ==> t.switchToFixedYear <= Clamp(s).switchToFixedYear
  {
  }

  /** Clamping twice is clamping once. */
  lemma ClampIdempotent(s: FormState)
    ensures Clamp(Clamp(s)) == Clamp(s)
  {
  }

  /** A fresh form switched to a mixed run already satisfies the mixed-mode constraints. */
  lemma DefaultsAdmitMixed()
    ensures var s := Set(Defaults, Strategy, StrategyValue(Mixed));
      Admissible(s) && Clamp(s) == s && s.years - s.switchToFixedYear == 10
  {
  }

  /**
   * The form's updater: copy the previous state with one field set, then,
   * when the run is mixed, raise the horizon to two years and pull the
   * switch year below the horizon.
   */
  method HandleInputChange(prevState: FormState, field: Field, value: FieldValue) returns (newState: FormState)
    requires Fits(field, value)
    ensures newState == Clamp(Set(prevState, field, value))
    ensures field != Years && field != SwitchToFixedYear ==> Get(newState, field) == value
  {
    newState := Set(prevState, field, value);
    if newState.investmentType == Mixed {
      if newState.years <= 1 {
        newState := newState.(years := 2);
      }
      if newState.switchToFixedYear >= newState.years {
        newState := newState.(switchToFixedYear := IntMax(1, newState.years - 1));
      }
    }
  }

  /** How the form obtains a rate: typed in, or derived from market indicators. */
  datatype RateMode = Manual | Cdi | IpcaPlus

  /** The formula a derived rate uses: a share of CDI, or inflation plus a fixed rate. */
  datatype RateIndex = CdiIndex | IpcaPlusIndex

  datatype RateConfig = RateConfig(mode: RateMode, index: RateIndex, cdiPercent: real, ipcaFixed: real)

  /** The indicators the derived rates are computed from, as yearly percentages. */
  datatype MarketData = MarketData(cdi: real, ipca: real)

  /** The derived yearly rate before rounding. */
  function UnroundedRate(config: RateConfig, market: MarketData): real
  {
    if config.index == CdiIndex then market.cdi * (config.cdiPercent / 100.0)
    else ((1.0 + market.ipca / 100.0) * (1.0 + config.ipcaFixed / 100.0) - 1.0) * 100.0
  }

  /**
   * The rate a derived mode puts in the rate field, rounded to cents; none in
   * manual mode. Once the mode is not manual, the formula is chosen by the
   * index alone.
   */
  function EffectiveRate(config: RateConfig, market: MarketData): (r: Option<real>)
    ensures r.None? <==> config.mode == Manual
    ensures r.Some? ==> WholeCents(r.value) && Abs(r.value - UnroundedRate(config, market)) <= 0.005
  {
    if config.mode == Manual then None
    else
      RoundIsNearestCent(UnroundedRate(config, market));
      Some(Round(UnroundedRate(config, market)))
  }

  /**
   * Inflation plus a fixed rate compounds: one plus the rate is the product
   * of one plus each, so the rate exceeds their sum by the cross term.
   */
  lemma IpcaPlusCompounds(config: RateConfig, market: MarketData)
    requires config.index == IpcaPlusIndex
    ensures var rate := UnroundedRate(config, market);
      && 1.0 + rate / 100.0 == (1.0 + market.ipca / 100.0) * (1.0 + config.ipcaFixed / 100.0)
      && rate == market.ipca + config.ipcaFixed + market.ipca * config.ipcaFixed / 100.0
  {
  }

  /** At 100% of CDI the derived rate is CDI itself, rounded. */
  lemma FullCdiIsCdi(config: RateConfig, market: MarketData)
    requires config.mode != Manual && config.index == CdiIndex && config.cdiPercent == 100.0
    ensures EffectiveRate(config, market) == Some(Round(market.cdi))
  {
    assert UnroundedRate(config, market) == market.cdi;
  }

  /** With a non-negative CDI, a larger share of it never gives a smaller rate. */
  lemma CdiShareMonotone(config: RateConfig, market: MarketData, larger: real)
    requires config.mode != Manual && config.index == CdiIndex
    requires market.cdi >= 0.0 && config.cdiPercent <= larger
    ensures EffectiveRate(config, market).value <= EffectiveRate(config.(cdiPercent := larger), market).value
  {
    var low, high := UnroundedRate(config, market), UnroundedRate(config.(cdiPercent := larger), market);
    assert low <= high by {
      assert high - low == market.cdi * ((larger - config.cdiPercent) / 100.0);
    }
    RoundMonotone(low, high);
  }

  /** Whether the strategy runs a fixed-income phase and so reads the reinvestment policy. */
  predicate UsesReinvestment(t: InvestmentType)
  {
    t == Fixed || t == Mixed
  }

  /**
   * The input the form hands to the simulation: the whole state, with the
   * contribution zeroed for fixed income and each optional parameter passed
   * only when the strategy, the reinvestment mode and the split settings
   * make it relevant.
   */
  function ShapeInputs(s: FormState): (r: SimulationInput)
    ensures r.investmentType == s.investmentType && r.years == s.years
    ensures r.initialInvestment == s.initialInvestment && r.annualInterestRate == s.annualInterestRate
    ensures r.monthlyContribution == (if s.investmentType == Fixed then 0.0 else s.monthlyContribution)
    ensures r.reinvestmentMode.Some? <==> UsesReinvestment(s.investmentType)
    ensures r.reinvestmentMode.Some? ==> r.reinvestmentMode.value == s.reinvestmentMode
    ensures r.reinvestmentValue.Some? <==> r.reinvestmentMode == Some(Amount)
    ensures r.reinvestmentPercentage.Some? <==> r.reinvestmentMode == Some(Percentage)
    ensures r.reinvestmentThreshold.Some? <==> r.reinvestmentMode == Some(AboveThreshold)
    ensures r.annualInterestRatePhase2.Some? <==> s.investmentType == Mixed
    ensures r.switchToFixedYear.Some? <==> s.investmentType == Mixed
    ensures r.mixedInvestmentOrder.Some? <==> s.investmentType == Mixed
    ensures r.enableSplit.Some? <==> s.investmentType == Mixed
    ensures r.splitMode.Some? <==> r.enableSplit == Some(true)
    ensures r.splitValue.Some? <==> r.splitMode == Some(SplitAmount)
    ensures r.splitPercentage.Some? <==> r.splitMode == Some(SplitPercentage)
    ensures r.annualInterestRatePhase2.Some? ==> r.annualInterestRatePhase2.value == s.annualInterestRatePhase2
    ensures r.reinvestmentValue.Some? ==> r.reinvestmentValue.value == s.reinvestmentValue
    ensures r.reinvestmentPercentage.Some? ==> r.reinvestmentPercentage.value == s.reinvestmentPercentage
    ensures r.reinvestmentThreshold.Some? ==> r.reinvestmentThreshold.value == s.reinvestmentThreshold
    ensures r.switchToFixedYear.Some? ==> r.switchToFixedYear.value == s.switchToFixedYear
    ensures r.mixedInvestmentOrder.Some? ==> r.mixedInvestmentOrder.value == s.mixedInvestmentOrder
    ensures r.enableSplit.Some? ==> r.enableSplit.value == s.enableSplit
    ensures r.splitMode.Some? ==> r.splitMode.value == s.splitMode
    ensures r.splitValue.Some? ==> r.splitValue.value == s.splitValue
    ensures r.splitPercentage.Some? ==> r.splitPercentage.value == s.splitPercentage
  {
    var t := s.investmentType;
    var mixed, reinvests, splits := t == Mixed, UsesReinvestment(t), t == Mixed && s.enableSplit;
    SimulationInput(
      s.initialInvestment,
      if t != Fixed then s.monthlyContribution else 0.0,
      s.annualInterestRate,
      if mixed then Some(s.annualInterestRatePhase2) else None,
      s.years,
      t,
      if reinvests && s.reinvestmentMode == Amount then Some(s.reinvestmentValue) else None,
      if reinvests && s.reinvestmentMode == Percentage then Some(s.reinvestmentPercentage) else None,
      if reinvests && s.reinvestmentMode == AboveThreshold then Some(s.reinvestmentThreshold) else None,
      if reinvests then Some(s.reinvestmentMode) else None,
      if mixed then Some(s.switchToFixedYear) else None,
      if mixed then Some(s.mixedInvestmentOrder) else None,
      if mixed then Some(s.enableSplit) else None,
      if splits then Some(s.splitMode) else None,
      if splits && s.splitMode == SplitAmount then Some(s.splitValue) else None,
      if splits && s.splitMode == SplitPercentage then Some(s.splitPercentage) else None
    )
  }

  /**
   * The reinvestment parameters the shaping drops are never read: the
   * fixed-income engine reinvests exactly what the form's own policy would.
   */
  lemma ShapedPolicyIsForms(s: FormState, interest: real)
    requires UsesReinvestment(s.investmentType)
    ensures var formPolicy := FixedIncomeEngine.Policy(s.reinvestmentMode, s.reinvestmentValue,
                                                       s.reinvestmentPercentage, s.reinvestmentThreshold);
      FixedIncomeEngine.RawReinvestment(FixedIncomeEngine.PolicyOf(ShapeInputs(s)), interest)
      == FixedIncomeEngine.RawReinvestment(formPolicy, interest)
  {
  }

  /**
   * The split settings the shaping drops are never read: the mixed engine
   * sees the form's switch year, order and second rate, and decides to split
   * exactly as it would on the form's own settings.
   */
  lemma ShapedSettingsAreForms(s: FormState, balanceAtSwitch: real)
    requires s.investmentType == Mixed
    ensures var input := ShapeInputs(s);
      var settings := MixedEngine.SettingsOf(input);
      var formSettings := MixedEngine.Settings(s.switchToFixedYear, s.mixedInvestmentOrder, s.enableSplit,
                                               s.splitMode, s.splitValue, s.splitPercentage);
      && settings.switchYear == s.switchToFixedYear && settings.order == s.mixedInvestmentOrder
      && MixedEngine.Phase2Rate(input) == s.annualInterestRatePhase2
      && (MixedEngine.IsActualSplit(settings, balanceAtSwitch) <==> MixedEngine.IsActualSplit(formSettings, balanceAtSwitch))
      && (MixedEngine.IsActualSplit(settings, balanceAtSwitch) ==>
            MixedEngine.SplitOf(settings, balanceAtSwitch) == MixedEngine.SplitOf(formSettings, balanceAtSwitch))
  {
  }

  /**
   * A mixed form, once clamped, always reaches the second phase: the shaped
   * input switches strictly before its horizon, and the run's log records
   * the start and then the switch.
   */
  lemma ClampedMixedFormSwitches(s: FormState)
    requires s.investmentType == Mixed
    ensures var input := ShapeInputs(Clamp(s));
      && input.years - MixedEngine.SettingsOf(input).switchYear > 0
      && Calculator.Simulate(input).eventLog.Some?
      && |Calculator.Simulate(input).eventLog.value| >= 3
      && Kinds(Calculator.Simulate(input).eventLog.value)[..2] == [Start, Switch]
  {
    var input := ShapeInputs(Clamp(s));
    MixedEngine.MixedEventLog(input, MixedEngine.PhaseSpec);
  }
}
