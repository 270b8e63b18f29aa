/**
 * The compound-interest engine: every month the contribution is deposited and
 * then the month's interest accrues on the whole balance; one record is
 * emitted per completed year.
 */
module CompoundEngine {
  import opened Types
  import opened Rounding

  /** The monthly rate, as a fraction, for an annual rate given in percent. */
  function MonthlyRate(annualRate: real): (r: real)
    ensures r * 1200.0 == annualRate
  {
    annualRate / 100.0 / 12.0
  }

  /**
   * The principal paid in after `months` months: the initial amount plus one
   * contribution per month (a negative count takes contributions away, as the
   * product in the source does).
   */
  function Principal(initial: real, contribution: real, months: int): real
    decreases if months >= 0 then months else -months
  {
    if months == 0 then initial
    else if months > 0 then Principal(initial, contribution, months - 1) + contribution
    else Principal(initial, contribution, months + 1) - contribution
  }

  /** The principal is the initial amount plus the contribution times the month count. */
  lemma {:induction false} PrincipalIsProduct(initial: real, contribution: real, months: int)
    ensures Principal(initial, contribution, months) == initial + contribution * months as real
    decreases if months >= 0 then months else -months
  {
    if months > 0 {
      PrincipalIsProduct(initial, contribution, months - 1);
    } else if months < 0 {
      PrincipalIsProduct(initial, contribution, months + 1);
    }
  }

  /** One month: the contribution is deposited, then the month's interest accrues on the whole balance. */
  function MonthStep(balance: real, contribution: real, rate: real): real
  {
    (balance + contribution) * (1.0 + rate)
  }

  /** The running balance after `m` months. */
  function Balance(initial: real, contribution: real, rate: real, m: nat): real
  {
    if m == 0 then initial
    else MonthStep(Balance(initial, contribution, rate, m - 1), contribution, rate)
  }

  /** The record emitted for year `year` after month `m`. */
  function Snapshot(initial: real, contribution: real, rate: real, year: int, m: nat): YearlyData
  {
    var invested := Principal(initial, contribution, m);
    var balance := Balance(initial, contribution, rate, m);
    YearlyData(year, Round(invested), Round(balance - invested), Round(balance), None, None, None)
  }

  /** The records of the first `n` years, in order: numbered from 1, each with the principal paid in by its end and no income. */
  function Records(initial: real, contribution: real, rate: real, n: nat): (r: seq<YearlyData>)
    ensures |r| == n
    ensures forall k :: 0 <= k < n ==> r[k].year == k + 1 && r[k].monthlyIncome == None
    ensures forall k :: 0 <= k < n ==> r[k].totalInvested == Round(Principal(initial, contribution, 12 * (k + 1)))
  {
    seq(n, k requires 0 <= k < n => Snapshot(initial, contribution, rate, k + 1, 12 * (k + 1)))
  }

  /** What `calculateCompound` returns for `input`. */
  function CompoundSpec(input: SimulationInput): (r: SimulationResult)
    ensures |r.yearlyData| == RecordCount(input.years)
    ensures r.investmentType == Compound && r.eventLog == None
  {
    var initial, contribution := input.initialInvestment, input.monthlyContribution;
    var rate := MonthlyRate(input.annualInterestRate);
    var finalInvested := Principal(initial, contribution, input.years * 12);
    var finalBalance := Balance(initial, contribution, rate, Months(input.years));
    SimulationResult(
      Records(initial, contribution, rate, RecordCount(input.years)),
      Summary(Round(finalInvested), Round(finalBalance - finalInvested), Round(finalBalance),
              None, None, None, None, None, None),
      Compound, input.annualInterestRate,
      None, None, None, None, None, None, None, None)
  }

  /** The balance and the records after month `m` of a run of `months` months, as the month loop builds them. */
  datatype LoopState = LoopState(balance: real, yearlyData: seq<YearlyData>)

  function Run(initial: real, contribution: real, rate: real, months: int, m: nat): LoopState
  {
    if m == 0 then LoopState(initial, [])
    else
      var s := Run(initial, contribution, rate, months, m - 1);
      var balance := MonthStep(s.balance, contribution, rate);
      if m % 12 == 0 || m == months then
        var invested := Principal(initial, contribution, m);
        var record := YearlyData((m + 11) / 12, Round(invested), Round(balance - invested), Round(balance), None, None, None);
        LoopState(balance, s.yearlyData + [record])
      else
        LoopState(balance, s.yearlyData)
  }

  lemma RecordsSnoc(initial: real, contribution: real, rate: real, n: nat)
    ensures Records(initial, contribution, rate, n + 1)
         == Records(initial, contribution, rate, n) + [Snapshot(initial, contribution, rate, n + 1, 12 * (n + 1))]
  {
  }

  /** The loop's balance follows the recurrence. */
  lemma {:induction false} RunBalance(initial: real, contribution: real, rate: real, months: int, m: nat)
    ensures Run(initial, contribution, rate, months, m).balance == Balance(initial, contribution, rate, m)
  {
    if m > 0 {
      RunBalance(initial, contribution, rate, months, m - 1);
    }
  }

  /**
   * Over a horizon of whole years, the loop after `m` months holds the
   * recurrence's balance and the records of the years completed so far.
   */
  lemma {:induction false} RunMatchesRecords(initial: real, contribution: real, rate: real, years: int, m: nat)
    requires m <= Months(years)
    ensures Run(initial, contribution, rate, years * 12, m)
         == LoopState(Balance(initial, contribution, rate, m), Records(initial, contribution, rate, m / 12))
  {
    RunBalance(initial, contribution, rate, years * 12, m);
    if m > 0 {
      YearEnd(m, years);
      RunMatchesRecords(initial, contribution, rate, years, m - 1);
      var prev := Run(initial, contribution, rate, years * 12, m - 1).yearlyData;
      var n := (m - 1) / 12;
      if m % 12 == 0 {
        RecordsSnoc(initial, contribution, rate, n);
        assert Run(initial, contribution, rate, years * 12, m).yearlyData
            == prev + [Snapshot(initial, contribution, rate, n + 1, m)];
      } else {
        assert Run(initial, contribution, rate, years * 12, m).yearlyData == prev;
      }
    }
  }

  /** The specification, read as the final state of the month loop. */
  lemma CompoundSpecIsRun(input: SimulationInput)
    ensures var initial, contribution := input.initialInvestment, input.monthlyContribution;
      var s := Run(initial, contribution, MonthlyRate(input.annualInterestRate), input.years * 12, Months(input.years));
      var invested := Principal(initial, contribution, input.years * 12);
      CompoundSpec(input) == SimulationResult(
        s.yearlyData,
        Summary(Round(invested), Round(s.balance - invested), Round(s.balance), None, None, None, None, None, None),
        Compound, input.annualInterestRate,
        None, None, None, None, None, None, None, None)
  {
    var rate := MonthlyRate(input.annualInterestRate);
    RunMatchesRecords(input.initialInvestment, input.monthlyContribution, rate, input.years, Months(input.years));
    assert Months(input.years) / 12 == RecordCount(input.years);
  }

  /** The month loop of `calculateCompound`. */
  method CalculateCompound(input: SimulationInput) returns (r: SimulationResult)
    ensures r == CompoundSpec(input)
  {
    var initial, contribution, years := input.initialInvestment, input.monthlyContribution, input.years;
    var yearlyData: seq<YearlyData> := [];
    var monthlyRate := input.annualInterestRate / 100.0 / 12.0;
    var months := years * 12;

    var currentBalance := initial;
    var m := 1;
    while m <= months
      invariant 1 <= m <= Months(years) + 1
      invariant LoopState(currentBalance, yearlyData) == Run(initial, contribution, monthlyRate, months, m - 1)
    {
      ghost var previous := currentBalance;
      currentBalance := currentBalance + contribution;
      currentBalance := currentBalance * (1.0 + monthlyRate);
      assert currentBalance == MonthStep(previous, contribution, monthlyRate);
      if m % 12 == 0 || m == months {
        var year := (m + 11) / 12;
        var currentTotalInvested := Principal(initial, contribution, m);
        var interestGains := currentBalance - currentTotalInvested;
        yearlyData := yearlyData + [YearlyData(year, Round(currentTotalInvested), Round(interestGains), Round(currentBalance), None, None, None)];
      }
      assert LoopState(currentBalance, yearlyData) == Run(initial, contribution, monthlyRate, months, m);
      m := m + 1;
    }
    assert m - 1 == Months(years);
    CompoundSpecIsRun(input);

    var finalTotalInvested := Principal(initial, contribution, months);
    var finalBalance := currentBalance;
    var totalInterest := finalBalance - finalTotalInvested;
    r := SimulationResult(
      yearlyData,
      Summary(Round(finalTotalInvested), Round(totalInterest), Round(finalBalance),
              None, None, None, None, None, None),
      Compound, input.annualInterestRate,
      None, None, None, None, None, None, None, None);
  }

  /**
   * The records are numbered 1..years; record `k` shows the principal paid in
   * by the end of its year, the balance reached by the recurrence, and gains
   * equal to balance minus principal (to within the rounding of the two).
   */
  lemma CompoundRecordAt(input: SimulationInput, k: nat)
    requires k < |CompoundSpec(input).yearlyData|
    ensures var d := CompoundSpec(input).yearlyData[k];
      var months := 12 * (k + 1);
      var invested := Principal(input.initialInvestment, input.monthlyContribution, months);
      var balance := Balance(input.initialInvestment, input.monthlyContribution, MonthlyRate(input.annualInterestRate), months);
      && d.year == k + 1
      && d.totalInvested == Round(invested)
      && d.finalBalance == Round(balance)
      && d.interestGains == Round(balance - invested)
      && Abs(d.interestGains - (d.finalBalance - d.totalInvested)) <= 0.015
      && d.monthlyIncome == None && d.retainedBalance == None && d.migratedBalance == None
  {
    var months := 12 * (k + 1);
    var invested := Principal(input.initialInvestment, input.monthlyContribution, months);
    var balance := Balance(input.initialInvestment, input.monthlyContribution, MonthlyRate(input.annualInterestRate), months);
    RoundIsNearestCent(invested);
    RoundIsNearestCent(balance);
    RoundIsNearestCent(balance - invested);
  }

  /** The summary repeats the last record; with no completed year it reports the untouched initial balance. */
  lemma CompoundSummaryIsLastRecord(input: SimulationInput)
    ensures var r := CompoundSpec(input);
      if input.years >= 1 then
        var last := r.yearlyData[|r.yearlyData| - 1];
        r.summary.totalInvested == last.totalInvested
        && r.summary.totalInterest == last.interestGains
        && r.summary.finalBalance == last.finalBalance
      else
        r.yearlyData == [] && r.summary.finalBalance == Round(input.initialInvestment)
  {
    if input.years >= 1 {
      CompoundRecordAt(input, input.years - 1);
    }
  }

  /** `g` raised to the `m`. */
  function Pow(g: real, m: nat): real {
    if m == 0 then 1.0 else g * Pow(g, m - 1)
  }

  /** g + g^2 + ... + g^m. */
  function SumPow(g: real, m: nat): real {
    if m == 0 then 0.0 else SumPow(g, m - 1) + Pow(g, m)
  }

  /** The geometric-series identity (g - 1)(g + ... + g^m) = g(g^m - 1). */
  lemma {:induction false} SumPowClosedForm(g: real, m: nat)
    ensures SumPow(g, m) * (g - 1.0) == g * (Pow(g, m) - 1.0)
  {
    if m > 0 {
      SumPowClosedForm(g, m - 1);
      calc {
        SumPow(g, m) * (g - 1.0);
        SumPow(g, m - 1) * (g - 1.0) + Pow(g, m) * (g - 1.0);
        g * (Pow(g, m - 1) - 1.0) + Pow(g, m) * (g - 1.0);
        { assert Pow(g, m) == g * Pow(g, m - 1); }
        Pow(g, m) - g + Pow(g, m) * g - Pow(g, m);
        g * (Pow(g, m) - 1.0);
      }
    }
  }

  /**
   * The balance is the future value of the initial amount plus that of an
   * annuity due: initial·g^m + contribution·(g + ... + g^m), with g = 1 + rate.
   */
  lemma {:induction false} BalanceClosedForm(initial: real, contribution: real, rate: real, m: nat)
    ensures Balance(initial, contribution, rate, m)
         == initial * Pow(1.0 + rate, m) + contribution * SumPow(1.0 + rate, m)
  {
    if m > 0 {
      var g := 1.0 + rate;
      BalanceClosedForm(initial, contribution, rate, m - 1);
      var p, q := Pow(g, m - 1), SumPow(g, m - 1);
      SumPowClosedForm(g, m - 1);
      assert (q + 1.0) * g == q + g * p;
      assert Balance(initial, contribution, rate, m) == initial * (g * p) + contribution * ((q + 1.0) * g);
    }
  }

  /** A product of two non-negative amounts is non-negative. */
  lemma ProductNonNegative(x: real, y: real)
    requires x >= 0.0 && y >= 0.0
    ensures x * y >= 0.0
  {
  }

  /**
   * With a non-negative rate, initial amount and contribution the balance
   * never falls and never drops below the principal paid in, which is itself
   * non-negative.
   */
  lemma {:induction false} BalanceGrows(initial: real, contribution: real, rate: real, m: nat)
    requires initial >= 0.0 && contribution >= 0.0 && rate >= 0.0
    ensures Balance(initial, contribution, rate, m) >= Principal(initial, contribution, m) >= 0.0
    ensures Balance(initial, contribution, rate, m) <= Balance(initial, contribution, rate, m + 1)
  {
    var b := Balance(initial, contribution, rate, m);
    if m > 0 {
      BalanceGrows(initial, contribution, rate, m - 1);
      var prev := Balance(initial, contribution, rate, m - 1);
      ProductNonNegative(prev + contribution, rate);
      assert b == (prev + contribution) + (prev + contribution) * rate;
    }
    ProductNonNegative(b + contribution, rate);
    assert Balance(initial, contribution, rate, m + 1) == (b + contribution) + (b + contribution) * rate;
  }

  lemma {:induction false} BalanceMonotone(initial: real, contribution: real, rate: real, m1: nat, m2: nat)
    requires initial >= 0.0 && contribution >= 0.0 && rate >= 0.0
    requires m1 <= m2
    ensures Balance(initial, contribution, rate, m1) <= Balance(initial, contribution, rate, m2)
  {
    if m1 < m2 {
      BalanceMonotone(initial, contribution, rate, m1, m2 - 1);
      BalanceGrows(initial, contribution, rate, m2 - 1);
    }
  }

  /**
   * With a non-negative rate, initial amount and contribution, the yearly
   * final balances never decrease, never drop below the rounded initial
   * amount, and the cumulative gains are never negative.
   */
  lemma CompoundYearlyNonDecreasing(input: SimulationInput, j: nat, k: nat)
    requires input.initialInvestment >= 0.0 && input.monthlyContribution >= 0.0
    requires input.annualInterestRate >= 0.0
    requires j <= k < |CompoundSpec(input).yearlyData|
    ensures Round(input.initialInvestment) <= CompoundSpec(input).yearlyData[j].finalBalance
    ensures CompoundSpec(input).yearlyData[j].finalBalance <= CompoundSpec(input).yearlyData[k].finalBalance
    ensures CompoundSpec(input).yearlyData[k].interestGains >= 0.0
  {
    var b, c, rate := input.initialInvestment, input.monthlyContribution, MonthlyRate(input.annualInterestRate);
    CompoundRecordAt(input, j);
    CompoundRecordAt(input, k);
    BalanceMonotone(b, c, rate, 0, 12 * (j + 1));
    RoundMonotone(b, Balance(b, c, rate, 12 * (j + 1)));
    BalanceMonotone(b, c, rate, 12 * (j + 1), 12 * (k + 1));
    RoundMonotone(Balance(b, c, rate, 12 * (j + 1)), Balance(b, c, rate, 12 * (k + 1)));
    BalanceGrows(b, c, rate, 12 * (k + 1));
    RoundSign(Balance(b, c, rate, 12 * (k + 1)) - Principal(b, c, 12 * (k + 1)));
  }

  /**
   * 1000 invested, 200 deposited each month at 12% a year for one year:
   * 3400.00 paid in, 3688.69 at the end of the year.
   */
  lemma CompoundOneYearScenario()
    ensures CompoundSpec(SimulationInput(1000.0, 200.0, 12.0, None, 1, Compound, None, None, None, None,
                                         None, None, None, None, None, None)).yearlyData
         == [YearlyData(1, 3400.0, 288.69, 3688.69, None, None, None)]
  {
    var rate := MonthlyRate(12.0);
    assert rate == 0.01;
    var b := Balance(1000.0, 200.0, 0.01, 12);
    assert Balance(1000.0, 200.0, 0.01, 1) == 1212.0;
    assert Balance(1000.0, 200.0, 0.01, 2) == 1426.12;
    assert Balance(1000.0, 200.0, 0.01, 3) == 1642.3812;
    assert Balance(1000.0, 200.0, 0.01, 4) == 1860.805012;
    assert Balance(1000.0, 200.0, 0.01, 5) == 2081.41306212;
    assert Balance(1000.0, 200.0, 0.01, 6) == 2304.2271927412;
    assert Balance(1000.0, 200.0, 0.01, 7) == 2529.269464668612;
    assert Balance(1000.0, 200.0, 0.01, 8) == 2756.56215931529812;
    assert Balance(1000.0, 200.0, 0.01, 9) == 2986.1277809084511012;
    assert Balance(1000.0, 200.0, 0.01, 10) == 3217.989058717535612212;
    assert Balance(1000.0, 200.0, 0.01, 11) == 3452.16894930471096833412;
    assert b == 3688.6906387977580780174612;
    assert Principal(1000.0, 200.0, 12) == 3400.0;
    ToFixedCents(b);
    ToFixedCents(b - 3400.0);
    ToFixedCents(3400.0);
  }
}
