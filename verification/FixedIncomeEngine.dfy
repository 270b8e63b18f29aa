/**
 * The fixed-income engine: the principal is never topped up; every month the
 * interest on the current balance is divided into a part that is reinvested
 * (rounded to cents and added to the balance) and a part that is paid out.
 * One record per completed year shows the balance and the last payout.
 */
module FixedIncomeEngine {
  import opened Types
  import opened Rounding
  import CompoundEngine

  /** The reinvestment policy after the engine's defaults are applied. */
  datatype Policy = Policy(mode: ReinvestmentMode, value: real, percentage: real, threshold: real)

  /** Absent policy fields default to 0, an absent mode to `amount`. */
  function PolicyOf(input: SimulationInput): (p: Policy)
    ensures p.mode == Amount <==> input.reinvestmentMode in {None, Some(Amount)}
    ensures input.reinvestmentMode.Some? ==> p.mode == input.reinvestmentMode.value
    ensures p.value == (if input.reinvestmentValue.Some? then input.reinvestmentValue.value else 0.0)
    ensures p.percentage == (if input.reinvestmentPercentage.Some? then input.reinvestmentPercentage.value else 0.0)
    ensures p.threshold == (if input.reinvestmentThreshold.Some? then input.reinvestmentThreshold.value else 0.0)
  {
    Policy(input.reinvestmentMode.GetOr(Amount), input.reinvestmentValue.GetOr(0.0),
           input.reinvestmentPercentage.GetOr(0.0), input.reinvestmentThreshold.GetOr(0.0))
  }

  function Min(a: real, b: real): real { if a <= b then a else b }

  function Max(a: real, b: real): real { if a >= b then a else b }

  /** `percentage` percent of `amount`. */
  function PercentOf(amount: real, percentage: real): real
  {
    amount * (percentage / 100.0)
  }

  /** The part of a month's interest the policy reinvests, before rounding. */
  function RawReinvestment(p: Policy, interest: real): real
  {
    match p.mode
    case Percentage => PercentOf(interest, p.percentage)
    case AboveThreshold => Max(0.0, interest - p.threshold)
    case Amount => Min(interest, p.value)
  }

  /** The reinvested amount, rounded to cents before it reaches the balance. */
  function Reinvestment(p: Policy, interest: real): real
  {
    Round(RawReinvestment(p, interest))
  }

  /** A month's interest on `balance` at the monthly rate `rate`. */
  function MonthInterest(balance: real, rate: real): real
  {
    balance * rate
  }

  /** The balance after `m` months. */
  function Balance(initial: real, rate: real, p: Policy, m: nat): real
  {
    if m == 0 then initial
    else
      var b := Balance(initial, rate, p, m - 1);
      b + Reinvestment(p, MonthInterest(b, rate))
  }

  /** The interest earned in month `m` (counting from 1). */
  function Interest(initial: real, rate: real, p: Policy, m: nat): real
    requires m >= 1
  {
    MonthInterest(Balance(initial, rate, p, m - 1), rate)
  }

  /** What is paid out in month `m`; no month has passed yet when `m` is 0. */
  function Payout(initial: real, rate: real, p: Policy, m: nat): real
  {
    if m == 0 then 0.0
    else
      var interest := Interest(initial, rate, p, m);
      interest - Reinvestment(p, interest)
  }

  /** The record emitted for year `year` after month `m`. */
  function Snapshot(initial: real, rate: real, p: Policy, year: int, m: nat): YearlyData
  {
    var balance := Balance(initial, rate, p, m);
    YearlyData(year, Round(initial), Round(balance - initial), Round(balance),
               Some(Round(Payout(initial, rate, p, m))), None, None)
  }

  /** The records of the first `n` years, in order: numbered from 1, each with the initial amount as its principal and an income. */
  function Records(initial: real, rate: real, p: Policy, n: nat): (r: seq<YearlyData>)
    ensures |r| == n
    ensures forall k :: 0 <= k < n ==> r[k].year == k + 1 && r[k].monthlyIncome.Some?
    ensures forall k :: 0 <= k < n ==> r[k].totalInvested == Round(initial)
  {
    seq(n, k requires 0 <= k < n => Snapshot(initial, rate, p, k + 1, 12 * (k + 1)))
  }

  /** The summary echoes only the parameter of the policy's own mode. */
  function EchoedSummary(p: Policy, totalInvested: real, totalInterest: real, finalBalance: real, monthlyIncome: real): Summary
  {
    Summary(totalInvested, totalInterest, finalBalance, Some(monthlyIncome),
            if p.mode == Amount then Some(p.value) else None,
            if p.mode == Percentage then Some(p.percentage) else None,
            if p.mode == AboveThreshold then Some(p.threshold) else None,
            None, None)
  }

  /** What `calculateFixedIncome` returns for `input`. */
  function FixedSpec(input: SimulationInput): (r: SimulationResult)
    ensures |r.yearlyData| == RecordCount(input.years)
    ensures r.investmentType == Fixed && r.eventLog == None
  {
    var initial, p := input.initialInvestment, PolicyOf(input);
    var rate := CompoundEngine.MonthlyRate(input.annualInterestRate);
    var months := Months(input.years);
    var finalBalance := Balance(initial, rate, p, months);
    SimulationResult(
      Records(initial, rate, p, RecordCount(input.years)),
      EchoedSummary(p, Round(initial), Round(finalBalance - initial), Round(finalBalance),
                    Round(Payout(initial, rate, p, months))),
      Fixed, input.annualInterestRate,
      None, None, None, None, None, None, None, None)
  }

  /** The balance, the last payout and the records after month `m` of a run of `months` months, as the loop builds them. */
  datatype LoopState = LoopState(balance: real, lastPayout: real, yearlyData: seq<YearlyData>)

  function Step(initial: real, rate: real, p: Policy, months: int, m: nat, s: LoopState): LoopState
  {
    var interest := MonthInterest(s.balance, rate);
    var reinvest := Reinvestment(p, interest);
    var payout := interest - reinvest;
    var balance := s.balance + reinvest;
    if m % 12 == 0 || m == months then
      var record := YearlyData((m + 11) / 12, Round(initial), Round(balance - initial), Round(balance),
                               Some(Round(payout)), None, None);
      LoopState(balance, payout, s.yearlyData + [record])
    else
      LoopState(balance, payout, s.yearlyData)
  }

  function Run(initial: real, rate: real, p: Policy, months: int, m: nat): LoopState
  {
    if m == 0 then LoopState(initial, 0.0, [])
    else Step(initial, rate, p, months, m, Run(initial, rate, p, months, m - 1))
  }

  /** The loop's balance and last payout follow the recurrences. */
  lemma {:induction false} RunBalance(initial: real, rate: real, p: Policy, months: int, m: nat)
    ensures Run(initial, rate, p, months, m).balance == Balance(initial, rate, p, m)
    ensures Run(initial, rate, p, months, m).lastPayout == Payout(initial, rate, p, m)
  {
    if m > 0 {
      RunBalance(initial, rate, p, months, m - 1);
    }
  }

  lemma RecordsSnoc(initial: real, rate: real, p: Policy, n: nat)
    ensures Records(initial, rate, p, n + 1)
         == Records(initial, rate, p, n) + [Snapshot(initial, rate, p, n + 1, 12 * (n + 1))]
  {
  }

  /** Over a horizon of whole years, the loop after `m` months holds the records of the years completed so far. */
  lemma {:induction false} RunMatchesRecords(initial: real, rate: real, p: Policy, years: int, m: nat)
    requires m <= Months(years)
    ensures Run(initial, rate, p, years * 12, m).yearlyData == Records(initial, rate, p, m / 12)
  {
    if m > 0 {
      YearEnd(m, years);
      RunMatchesRecords(initial, rate, p, years, m - 1);
      RunBalance(initial, rate, p, years * 12, m);
      var prev := Run(initial, rate, p, years * 12, m - 1).yearlyData;
      var n := (m - 1) / 12;
      if m % 12 == 0 {
        RecordsSnoc(initial, rate, p, n);
        assert Run(initial, rate, p, years * 12, m).yearlyData == prev + [Snapshot(initial, rate, p, n + 1, m)];
      } else {
        assert Run(initial, rate, p, years * 12, m).yearlyData == prev;
      }
    }
  }

  /**
   * The specification, read off the loop's final state `s`: its records,
   * and the summary of its balance and last payout.
   */
  lemma FinalStateIsSpec(input: SimulationInput, s: LoopState)
    requires s == Run(input.initialInvestment, CompoundEngine.MonthlyRate(input.annualInterestRate), PolicyOf(input),
                      input.years * 12, Months(input.years))
    ensures var initial := input.initialInvestment;
      FixedSpec(input) == SimulationResult(
        s.yearlyData,
        EchoedSummary(PolicyOf(input), Round(initial), Round(s.balance - initial), Round(s.balance), Round(s.lastPayout)),
        Fixed, input.annualInterestRate,
        None, None, None, None, None, None, None, None)
  {
    var rate := CompoundEngine.MonthlyRate(input.annualInterestRate);
    RunMatchesRecords(input.initialInvestment, rate, PolicyOf(input), input.years, Months(input.years));
    RunBalance(input.initialInvestment, rate, PolicyOf(input), input.years * 12, Months(input.years));
    assert Months(input.years) / 12 == RecordCount(input.years);
  }

  /** The month loop of `calculateFixedIncome`. */
  method CalculateFixedIncome(input: SimulationInput) returns (r: SimulationResult)
    ensures r == FixedSpec(input)
  {
    var initial, annualInterestRate, years := input.initialInvestment, input.annualInterestRate, input.years;
    var reinvestmentValue := input.reinvestmentValue.GetOr(0.0);
    var reinvestmentPercentage := input.reinvestmentPercentage.GetOr(0.0);
    var reinvestmentMode := input.reinvestmentMode.GetOr(Amount);
    var reinvestmentThreshold := input.reinvestmentThreshold.GetOr(0.0);
    var yearlyData: seq<YearlyData> := [];
    var monthlyRate := annualInterestRate / 100.0 / 12.0;
    var months := years * 12;

    var currentBalance := initial;
    var totalInvested := initial;
    var lastMonthlyPayout := 0.0;
    var policy := Policy(reinvestmentMode, reinvestmentValue, reinvestmentPercentage, reinvestmentThreshold);
    assert policy == PolicyOf(input);
    assert monthlyRate == CompoundEngine.MonthlyRate(annualInterestRate);

    var m := 1;
    while m <= months
      invariant 1 <= m <= Months(years) + 1
      invariant LoopState(currentBalance, lastMonthlyPayout, yearlyData) == Run(initial, monthlyRate, policy, months, m - 1)
    {
      ghost var before := LoopState(currentBalance, lastMonthlyPayout, yearlyData);
      var interestForMonth := currentBalance * monthlyRate;
      assert interestForMonth == MonthInterest(currentBalance, monthlyRate);

      var reinvestAmount := 0.0;
      if reinvestmentMode == Percentage {
        reinvestAmount := interestForMonth * (reinvestmentPercentage / 100.0);
        assert reinvestAmount == PercentOf(interestForMonth, reinvestmentPercentage);
      } else if reinvestmentMode == AboveThreshold {
        reinvestAmount := Max(0.0, interestForMonth - reinvestmentThreshold);
      } else {
        reinvestAmount := Min(interestForMonth, reinvestmentValue);
      }
      assert reinvestAmount == RawReinvestment(policy, interestForMonth);

      reinvestAmount := Round(reinvestAmount);
      assert reinvestAmount == Reinvestment(policy, interestForMonth);
      lastMonthlyPayout := interestForMonth - reinvestAmount;

      currentBalance := currentBalance + reinvestAmount;

      if m % 12 == 0 || m == months {
        var year := (m + 11) / 12;
        var interestGainsForYear := currentBalance - totalInvested;
        yearlyData := yearlyData + [YearlyData(year, Round(totalInvested), Round(interestGainsForYear), Round(currentBalance),
                                               Some(Round(lastMonthlyPayout)), None, None)];
      }
      assert LoopState(currentBalance, lastMonthlyPayout, yearlyData) == Step(initial, monthlyRate, policy, months, m, before);
      m := m + 1;
    }
    assert m - 1 == Months(years);
    FinalStateIsSpec(input, LoopState(currentBalance, lastMonthlyPayout, yearlyData));

    var finalInterestGains := currentBalance - totalInvested;
    r := SimulationResult(
      yearlyData,
      EchoedSummary(policy, Round(totalInvested), Round(finalInterestGains), Round(currentBalance), Round(lastMonthlyPayout)),
      Fixed, annualInterestRate,
      None, None, None, None, None, None, None, None);
  }

  /**
   * Record `k` belongs to year `k + 1`: the principal is the initial amount
   * alone, the balance and the cumulative gains are those of the recurrence,
   * and the monthly income is the payout of the year's last month.
   */
  lemma FixedRecordAt(input: SimulationInput, k: nat)
    requires k < |FixedSpec(input).yearlyData|
    ensures var d := FixedSpec(input).yearlyData[k];
      var rate := CompoundEngine.MonthlyRate(input.annualInterestRate);
      var balance := Balance(input.initialInvestment, rate, PolicyOf(input), 12 * (k + 1));
      && d.year == k + 1
      && d.totalInvested == FixedSpec(input).summary.totalInvested == Round(input.initialInvestment)
      && d.finalBalance == Round(balance)
      && d.interestGains == Round(balance - input.initialInvestment)
      && d.monthlyIncome == Some(Round(Payout(input.initialInvestment, rate, PolicyOf(input), 12 * (k + 1))))
      && d.retainedBalance == None && d.migratedBalance == None
  {
  }

  /** The summary repeats the last record; with no completed year it reports the untouched initial amount and no income. */
  lemma FixedSummaryIsLastRecord(input: SimulationInput)
    ensures var r := FixedSpec(input);
      if input.years >= 1 then
        var last := r.yearlyData[|r.yearlyData| - 1];
        r.summary.totalInvested == last.totalInvested
        && r.summary.totalInterest == last.interestGains
        && r.summary.finalBalance == last.finalBalance
        && r.summary.monthlyIncome == last.monthlyIncome
      else
        r.yearlyData == [] && r.summary.finalBalance == Round(input.initialInvestment)
        && r.summary.monthlyIncome == Some(0.0)
  {
    if input.years >= 1 {
      FixedRecordAt(input, input.years - 1);
    } else {
      ToFixedCents(0.0);
    }
  }

  /**
   * The summary carries exactly one reinvestment parameter: the one of the
   * active mode, with its default of 0 when it was not given.
   */
  lemma FixedSummaryEchoesActivePolicy(input: SimulationInput)
    ensures var s := FixedSpec(input).summary;
      var mode := input.reinvestmentMode.GetOr(Amount);
      && (s.reinvestmentValue.Some? <==> mode == Amount)
      && (s.reinvestmentPercentage.Some? <==> mode == Percentage)
      && (s.reinvestmentThreshold.Some? <==> mode == AboveThreshold)
      && (s.reinvestmentValue.Some? ==> s.reinvestmentValue.value == input.reinvestmentValue.GetOr(0.0))
      && (s.reinvestmentPercentage.Some? ==> s.reinvestmentPercentage.value == input.reinvestmentPercentage.GetOr(0.0))
      && (s.reinvestmentThreshold.Some? ==> s.reinvestmentThreshold.value == input.reinvestmentThreshold.GetOr(0.0))
      && s.initialRetainedBalance == None && s.initialMigratedBalance == None
  {
  }

  /** The total paid out over the first `m` months. */
  function PaidOut(initial: real, rate: real, p: Policy, m: nat): real
  {
    if m == 0 then 0.0 else PaidOut(initial, rate, p, m - 1) + Payout(initial, rate, p, m)
  }

  /** The total interest earned over the first `m` months. */
  function Earned(initial: real, rate: real, p: Policy, m: nat): real
  {
    if m == 0 then 0.0 else Earned(initial, rate, p, m - 1) + Interest(initial, rate, p, m)
  }

  /**
   * Every cent of interest is either reinvested or paid out: the balance
   * plus everything paid out is the initial amount plus everything earned.
   */
  lemma {:induction false} InterestIsReinvestedOrPaidOut(initial: real, rate: real, p: Policy, m: nat)
    ensures Balance(initial, rate, p, m) + PaidOut(initial, rate, p, m) == initial + Earned(initial, rate, p, m)
  {
    if m > 0 {
      InterestIsReinvestedOrPaidOut(initial, rate, p, m - 1);
    }
  }

  /** The policy's parameters lie in the ranges the form offers. */
  predicate SensiblePolicy(p: Policy)
  {
    p.value >= 0.0 && 0.0 <= p.percentage <= 100.0 && p.threshold >= 0.0
  }

  /**
   * On non-negative interest a sensible policy reinvests a whole number of
   * cents that is never negative and exceeds the interest by at most the
   * half cent rounding adds, so the payout is never below -0.005.
   */
  lemma ReinvestmentBounds(p: Policy, interest: real)
    requires SensiblePolicy(p) && interest >= 0.0
    ensures var r := Reinvestment(p, interest);
      && WholeCents(r)
      && 0.0 <= r <= interest + 0.005
      && interest - r >= -0.005
  {
    var raw := RawReinvestment(p, interest);
    if p.mode == Percentage {
      CompoundEngine.ProductNonNegative(interest, p.percentage / 100.0);
      CompoundEngine.ProductNonNegative(interest, 1.0 - p.percentage / 100.0);
    }
    assert 0.0 <= raw <= interest;
    RoundMagnitude(raw);
    RoundSign(raw);
  }

  /**
   * Rounding can lift the reinvested amount above the interest: half a cent
   * of interest with a cap of 1 reinvests a whole cent and pays out -0.005.
   */
  lemma ReinvestmentCanExceedInterest()
    ensures var p := Policy(Amount, 1.0, 0.0, 0.0);
      Reinvestment(p, 0.005) == 0.01 && 0.005 - Reinvestment(p, 0.005) == -0.005
  {
    ToFixedCents(0.005);
  }

  /**
   * A balance whose monthly reinvestment rounds to nothing never moves, and
   * every month pays out its whole interest.
   */
  lemma {:induction false} FixedPoint(initial: real, rate: real, p: Policy, m: nat)
    requires Reinvestment(p, MonthInterest(initial, rate)) == 0.0
    ensures Balance(initial, rate, p, m) == initial
    ensures m >= 1 ==> Payout(initial, rate, p, m) == MonthInterest(initial, rate)
  {
    if m > 0 {
      FixedPoint(initial, rate, p, m - 1);
    }
  }

  /**
   * With nothing to reinvest in amount mode, a non-negative amount at a
   * non-negative rate stays at the initial amount and pays out its whole
   * interest every month; every record shows no gains.
   */
  lemma AmountZeroKeepsPrincipal(input: SimulationInput, k: nat)
    requires input.reinvestmentMode in {None, Some(Amount)} && input.reinvestmentValue in {None, Some(0.0)}
    requires input.initialInvestment >= 0.0 && input.annualInterestRate >= 0.0
    requires k < |FixedSpec(input).yearlyData|
    ensures FixedSpec(input).yearlyData[k]
         == YearlyData(k + 1, Round(input.initialInvestment), 0.0, Round(input.initialInvestment),
                       Some(Round(MonthInterest(input.initialInvestment, CompoundEngine.MonthlyRate(input.annualInterestRate)))),
                       None, None)
  {
    var initial, rate, p := input.initialInvestment, CompoundEngine.MonthlyRate(input.annualInterestRate), PolicyOf(input);
    assert Reinvestment(p, MonthInterest(initial, rate)) == 0.0 by {
      CompoundEngine.ProductNonNegative(initial, rate);
      assert RawReinvestment(p, MonthInterest(initial, rate)) == 0.0;
      ToFixedCents(0.0);
    }
    FixedPoint(initial, rate, p, 12 * (k + 1));
    assert Round(initial - initial) == 0.0 by {
      ToFixedCents(0.0);
    }
    FixedRecordAt(input, k);
  }

  /** 10000 at 12% a year with nothing reinvested: 100 paid out every month, the balance stays at 10000. */
  lemma FixedIncomeScenario(input: SimulationInput)
    requires input.initialInvestment == 10000.0 && input.annualInterestRate == 12.0 && input.years == 1
    requires input.reinvestmentMode == Some(Amount) && input.reinvestmentValue == Some(0.0)
    ensures FixedSpec(input).yearlyData == [YearlyData(1, 10000.0, 0.0, 10000.0, Some(100.0), None, None)]
  {
    var r := FixedSpec(input).yearlyData;
    assert |r| == 1;
    AmountZeroKeepsPrincipal(input, 0);
    assert Round(input.initialInvestment) == 10000.0 by {
      ToFixedCents(10000.0);
    }
    assert Round(MonthInterest(input.initialInvestment, CompoundEngine.MonthlyRate(input.annualInterestRate))) == 100.0 by {
      assert MonthInterest(input.initialInvestment, CompoundEngine.MonthlyRate(input.annualInterestRate)) == 100.0;
      ToFixedCents(100.0);
    }
    assert r[0] == YearlyData(1, 10000.0, 0.0, 10000.0, Some(100.0), None, None);
  }

  /**
   * With a sensible policy, a non-negative amount at a non-negative rate
   * never shrinks: the balance does not fall from one month to the next.
   */
  lemma {:induction false} FixedBalanceNonDecreasing(initial: real, rate: real, p: Policy, m: nat)
    requires SensiblePolicy(p) && initial >= 0.0 && rate >= 0.0
    ensures initial <= Balance(initial, rate, p, m) <= Balance(initial, rate, p, m + 1)
  {
    if m > 0 {
      FixedBalanceNonDecreasing(initial, rate, p, m - 1);
    }
    var b := Balance(initial, rate, p, m);
    CompoundEngine.ProductNonNegative(b, rate);
    ReinvestmentBounds(p, MonthInterest(b, rate));
  }

  /** Under the same conditions a later month's balance is never lower. */
  lemma {:induction false} FixedBalanceMonotone(initial: real, rate: real, p: Policy, m1: nat, m2: nat)
    requires SensiblePolicy(p) && initial >= 0.0 && rate >= 0.0
    requires m1 <= m2
    ensures Balance(initial, rate, p, m1) <= Balance(initial, rate, p, m2)
  {
    if m1 < m2 {
      FixedBalanceMonotone(initial, rate, p, m1, m2 - 1);
      FixedBalanceNonDecreasing(initial, rate, p, m2 - 1);
    }
  }

  /**
   * With a sensible policy, a non-negative amount at a non-negative rate,
   * the yearly final balances never decrease, never drop below the rounded
   * initial amount, and the cumulative gains are never negative.
   */
  lemma FixedYearlyNonDecreasing(input: SimulationInput, j: nat, k: nat)
    requires SensiblePolicy(PolicyOf(input)) && input.initialInvestment >= 0.0 && input.annualInterestRate >= 0.0
    requires j <= k < |FixedSpec(input).yearlyData|
    ensures Round(input.initialInvestment) <= FixedSpec(input).yearlyData[j].finalBalance
    ensures FixedSpec(input).yearlyData[j].finalBalance <= FixedSpec(input).yearlyData[k].finalBalance
    ensures FixedSpec(input).yearlyData[k].interestGains >= 0.0
  {
    var b, rate, p := input.initialInvestment, CompoundEngine.MonthlyRate(input.annualInterestRate), PolicyOf(input);
    FixedRecordAt(input, j);
    FixedRecordAt(input, k);
    FixedBalanceNonDecreasing(b, rate, p, 12 * (j + 1));
    FixedBalanceNonDecreasing(b, rate, p, 12 * (k + 1));
    RoundMonotone(b, Balance(b, rate, p, 12 * (j + 1)));
    FixedBalanceMonotone(b, rate, p, 12 * (j + 1), 12 * (k + 1));
    RoundMonotone(Balance(b, rate, p, 12 * (j + 1)), Balance(b, rate, p, 12 * (k + 1)));
    RoundSign(Balance(b, rate, p, 12 * (k + 1)) - b);
  }

  /** A year of compounding 0.30 at 1% a month with no contributions, month by month. */
  lemma CompoundedThirtyCents(initial: real, rate: real)
    requires initial == 0.3 && rate == 0.01
    ensures CompoundEngine.Balance(initial, 0.0, rate, 12) == 0.3380475090395909161983603
  {
    assert CompoundEngine.Balance(initial, 0.0, rate, 1) == 0.303;
    assert CompoundEngine.Balance(initial, 0.0, rate, 2) == 0.30603;
    assert CompoundEngine.Balance(initial, 0.0, rate, 3) == 0.3090903;
    assert CompoundEngine.Balance(initial, 0.0, rate, 4) == 0.312181203;
    assert CompoundEngine.Balance(initial, 0.0, rate, 5) == 0.31530301503;
    assert CompoundEngine.Balance(initial, 0.0, rate, 6) == 0.3184560451803;
    assert CompoundEngine.Balance(initial, 0.0, rate, 7) == 0.321640605632103;
    assert CompoundEngine.Balance(initial, 0.0, rate, 8) == 0.32485701168842403;
    assert CompoundEngine.Balance(initial, 0.0, rate, 9) == 0.3281055818053082703;
    assert CompoundEngine.Balance(initial, 0.0, rate, 10) == 0.331386637623361353003;
    assert CompoundEngine.Balance(initial, 0.0, rate, 11) == 0.33470050399959496653303;
  }

  /** 0.30 compounded for a year at 12% with no contributions ends at 0.34. */
  lemma CompoundThirtyCentsScenario(input: SimulationInput)
    requires input.initialInvestment == 0.3 && input.monthlyContribution == 0.0
    requires input.annualInterestRate == 12.0 && input.years == 1
    ensures CompoundEngine.CompoundSpec(input).summary.finalBalance == 0.34
  {
    CompoundedThirtyCents(input.initialInvestment, CompoundEngine.MonthlyRate(input.annualInterestRate));
    ToFixedCents(0.3380475090395909161983603);
  }

  /**
   * Reinvesting all of 0.30's interest at 12% reinvests nothing: 0.003 a
   * month rounds to no cents, so the balance stays at 0.30. This holds for
   * 100% in percentage mode and for any cap of at least the month's interest
   * in amount mode.
   */
  lemma FullReinvestmentOfThirtyCents(input: SimulationInput)
    requires input.initialInvestment == 0.3 && input.annualInterestRate == 12.0 && input.years == 1
    requires || (input.reinvestmentMode == Some(Percentage) && input.reinvestmentPercentage == Some(100.0))
             || (input.reinvestmentMode == Some(Amount) && input.reinvestmentValue.GetOr(0.0) >= 0.003)
    ensures FixedSpec(input).summary.finalBalance == 0.3
  {
    var initial, rate, p := input.initialInvestment, CompoundEngine.MonthlyRate(input.annualInterestRate), PolicyOf(input);
    assert Reinvestment(p, MonthInterest(initial, rate)) == 0.0 by {
      assert RawReinvestment(p, MonthInterest(initial, rate)) == 0.003;
      ToFixedCents(0.003);
    }
    FixedPoint(initial, rate, p, 12);
    ToFixedCents(0.3);
  }

  /**
   * Reinvesting all interest is not compounding, whether by percentage or by
   * an uncapped amount: the same 0.30 at 12% for a year ends at 0.30 as fixed
   * income and at 0.34 as compound interest.
   */
  lemma FullReinvestmentIsNotCompound(input: SimulationInput)
    requires input.initialInvestment == 0.3 && input.monthlyContribution == 0.0
    requires input.annualInterestRate == 12.0 && input.years == 1
    requires || (input.reinvestmentMode == Some(Percentage) && input.reinvestmentPercentage == Some(100.0))
             || (input.reinvestmentMode == Some(Amount) && input.reinvestmentValue.GetOr(0.0) >= 0.003)
    ensures FixedSpec(input).summary.finalBalance == 0.3
    ensures CompoundEngine.CompoundSpec(input.(investmentType := Compound)).summary.finalBalance == 0.34
  {
    FullReinvestmentOfThirtyCents(input);
    CompoundThirtyCentsScenario(input.(investmentType := Compound));
  }
}
