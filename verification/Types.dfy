/**
 * The value records shared by the simulation engines and the calculator form:
 * the strategy discriminants, the simulation input, the per-year record, the
 * event log entries and the simulation result. Optional TypeScript fields
 * become `Option` values; money and percentages are exact `real`s.
 */
module Types {

  datatype Option<+T> = None | Some(value: T) {
    /** The value, or `default` when absent (TypeScript's destructuring default). */
    function GetOr(default: T): T {
      match this
      case Some(v) => v
      case None => default
    }
  }

  /** The top-level strategy selector. */
  datatype InvestmentType = Compound | Fixed | Mixed

  /** How a fixed-income run decides what part of each month's interest compounds. */
  datatype ReinvestmentMode = Amount | Percentage | AboveThreshold

  /** Which strategy runs in the first phase of a mixed run. */
  datatype MixedInvestmentOrder = CompoundFirst | FixedFirst

  /** How the balance at the switch year is divided when a split is enabled. */
  datatype SplitMode = SplitAmount | SplitPercentage

  /**
   * The strategy one phase of a mixed run uses. A phase is never itself
   * mixed, which keeps the mixed engine's delegation one level deep.
   */
  datatype PhaseType = CompoundPhase | FixedPhase

  /** The discriminant value the mixed engine hands to the dispatcher for a phase. */
  function InvestmentTypeOf(t: PhaseType): (r: InvestmentType)
    ensures r != Mixed
    ensures (r == Compound) <==> (t == CompoundPhase)
  {
    match t
    case CompoundPhase => Compound
    case FixedPhase => Fixed
  }

  /** The parameters of one simulation run. */
  datatype SimulationInput = SimulationInput(
    initialInvestment: real,
    monthlyContribution: real,
    annualInterestRate: real,          // percent per year, phase-1 (or sole) rate
    annualInterestRatePhase2: Option<real>,
    years: int,
    investmentType: InvestmentType,
    reinvestmentValue: Option<real>,
    reinvestmentPercentage: Option<real>,
    reinvestmentThreshold: Option<real>,
    reinvestmentMode: Option<ReinvestmentMode>,
    switchToFixedYear: Option<int>,
    mixedInvestmentOrder: Option<MixedInvestmentOrder>,
    enableSplit: Option<bool>,
    splitMode: Option<SplitMode>,
    splitValue: Option<real>,
    splitPercentage: Option<real>
  )

  /**
   * One completed year. `interestGains` is cumulative to date, `monthlyIncome`
   * the payout of the year's final month, and the two split balances are the
   * portions that stayed in the phase-1 strategy and moved to the phase-2 one.
   */
  datatype YearlyData = YearlyData(
    year: int,
    totalInvested: real,
    interestGains: real,
    finalBalance: real,
    monthlyIncome: Option<real>,
    retainedBalance: Option<real>,
    migratedBalance: Option<real>
  )

  /** The four milestones a mixed run narrates. */
  datatype EventKind = Start | Switch | Split | End

  /**
   * The keys of the translation table that the event log refers to: the
   * title and the description of each event, and the names of the two
   * strategies.
   */
  datatype TranslationKey =
    | EventStartTitle | EventStartDesc | EventSwitchTitle | EventSwitchDesc
    | EventSplitTitle | EventSplitDesc | EventEndTitle | EventEndDesc
    | CompoundInterest | FixedIncome

  /** The placeholders an event description fills in. */
  datatype Slot =
    | AmountSlot | TypeSlot | FromTypeSlot | ToTypeSlot
    | MigratedAmountSlot | MigratedPercentageSlot | RetainedAmountSlot | RetainedPercentageSlot

  /** A value substituted into an event's description: a number or a translation key. */
  datatype EventValue = Num(n: real) | Key(k: TranslationKey)

  datatype EventLogItem = EventLogItem(
    year: int,
    kind: EventKind,
    titleKey: TranslationKey,
    descriptionKey: TranslationKey,
    descriptionValues: map<Slot, EventValue>
  )

  datatype Summary = Summary(
    totalInvested: real,
    totalInterest: real,
    finalBalance: real,
    monthlyIncome: Option<real>,
    reinvestmentValue: Option<real>,
    reinvestmentPercentage: Option<real>,
    reinvestmentThreshold: Option<real>,
    initialRetainedBalance: Option<real>,
    initialMigratedBalance: Option<real>
  )

  datatype SimulationResult = SimulationResult(
    yearlyData: seq<YearlyData>,
    summary: Summary,
    investmentType: InvestmentType,
    annualInterestRate: real,
    annualInterestRatePhase2: Option<real>,
    switchToFixedYear: Option<int>,
    mixedInvestmentOrder: Option<MixedInvestmentOrder>,
    enableSplit: Option<bool>,
    splitMode: Option<SplitMode>,
    splitValue: Option<real>,
    splitPercentage: Option<real>,
    eventLog: Option<seq<EventLogItem>>
  )

  /** The kinds of an event log, in order. */
  function Kinds(log: seq<EventLogItem>): (r: seq<EventKind>)
    ensures |r| == |log|
    ensures forall i :: 0 <= i < |log| ==> r[i] == log[i].kind
  {
    seq(|log|, i requires 0 <= i < |log| => log[i].kind)
  }

  /** The years of an event log, in order. */
  function EventYears(log: seq<EventLogItem>): (r: seq<int>)
    ensures |r| == |log|
    ensures forall i :: 0 <= i < |log| ==> r[i] == log[i].year
  {
    seq(|log|, i requires 0 <= i < |log| => log[i].year)
  }

  /** The number of months a horizon of `years` years covers; none when it is not positive. */
  function Months(years: int): (m: nat)
    ensures years > 0 ==> m == 12 * years
    ensures years <= 0 ==> m == 0
  {
    if years > 0 then 12 * years else 0
  }

  /** The number of yearly records a horizon of `years` years produces. */
  function RecordCount(years: int): (n: nat)
    ensures 12 * n == Months(years)
  {
    if years > 0 then years else 0
  }

  /** Month `m` of a whole-year horizon closes year `(m - 1) / 12 + 1` exactly when it is a multiple of 12. */
  lemma YearEnd(m: int, years: int)
    requires 0 < m <= Months(years)
    ensures var n := (m - 1) / 12;
      if m % 12 == 0 then m == 12 * (n + 1) && (m + 11) / 12 == n + 1 && m / 12 == n + 1
      else m != years * 12 && m / 12 == n
  {
  }
}
