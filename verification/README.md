# Investment calculator simulation engine

This is a Dafny model of the simulation core of a web investment calculator.
The calculator has three strategies:

- **Compound interest.** A monthly contribution is deposited, and then a month of interest accrues on the whole balance.
- **Fixed income.** Each month's interest is split into a reinvested part and a paid-out part, under one of three policies: a capped `amount`, a `percentage`, or everything `above_threshold`. The reinvested part is rounded to cents before it joins the balance.
- **Mixed.** One strategy runs up to a switch year and the other runs after it. Optionally, the balance at the switch is split: a *migrated* leg moves to the second strategy and a *retained* leg stays in the first. The two legs are simulated separately and merged year by year. A mixed run also narrates itself in an event log (start, switch, an optional split, end).

A dispatcher selects the engine from the input's strategy. The model also covers three pieces of the calculator form:

- the field updater, which clamps the horizon and the switch year of a mixed run;
- the rate derived from market indicators (a share of CDI, or IPCA plus a fixed rate);
- the shaping of the form state into the simulation input, which decides which optional parameters reach the engine.

Modules, one per part of the program:

| Module | What it holds |
|---|---|
| `Types` | The strategy, policy, order and split enumerations. The simulation input, the yearly record, the summary, the event log entry and the result. |
| `Rounding` | `round`, modelled as rounding to the nearest cent with ties away from zero. This is what formatting with two fraction digits and parsing back does. The non-finite guard is on a small `JsNumber` type. |
| `CompoundEngine` | The month loop of `calculateCompound`. It is a method, proved equal to a recursive specification of the balance recurrence (`CompoundSpec`). |
| `FixedIncomeEngine` | The month loop of `calculateFixedIncome`. It is proved equal to `FixedSpec`. |
| `MixedEngine` | `calculateMixed`, as a method whose split branch fills the merged records in a loop. It is proved equal to `MixedSpec`, which runs each phase through the dispatcher. |
| `MixedGrowth` | Growth of a mixed run: with non-negative amounts and rates, balances never fall, across the switch and a split included. |
| `Calculator` | The dispatcher `calculateCompoundInterest`. |
| `CalculatorForm` | The form's state and updater, the effective rate, and the input shaping. |

Money, rates and percentages are exact `real`s. A phase of a mixed run asks the dispatcher for a plain strategy (`PhaseType`), so the recursion through the dispatcher stops after one level.

Lemmas about the mixed engine take a `Runner`, which is the dispatcher as the mixed engine calls it. They hold for any runner that answers each phase with one record per year, numbered from 1 and in whole cents. `MixedEngine.DispatcherIsShaped` proves that the real dispatcher is such a runner.

Three consequences of the code's arithmetic are proved as concrete scenarios:

- **The one-year compound example.** 1000 invested with 200 a month at 12% ends the year at 3688.69 (`CompoundEngine.CompoundOneYearScenario`).
- **Full reinvestment versus compounding.** Full reinvestment in fixed income is not numerically equivalent to compounding. The reinvested amount is rounded to cents every month, so 0.30 at 12% for a year stays at 0.30 as fixed income but reaches 0.34 compounded. This holds whether everything is reinvested as 100% or under an uncapped amount (`FixedIncomeEngine.FullReinvestmentIsNotCompound`).
- **Reinvestment above the interest.** In amount mode the reinvestment can exceed the month's interest by up to half a cent. Rounding happens after the clamp, so the payout can be -0.005 (`FixedIncomeEngine.ReinvestmentCanExceedInterest`).

## Model

| member | source | states |
|---|---|---|
| Rounding.Round | utils.ts:7-12 | Reference definition of `round` on a finite amount (two-digit `toFixed`, parsed back). Its properties are stated by `RoundIsNearestCent`, `RoundMagnitude`, `RoundSign`, `RoundWholeCents`, `RoundIdempotent`, `RoundMonotone` and `RoundSymmetric`. |
| Rounding.RoundNumber | utils.ts:7-12 | A NaN or infinite value rounds to 0. A finite value rounds to a whole number of cents at most half a cent away. |
| Rounding.ToFixedCents | utils.ts:11 | For a non-negative value, two fraction digits of `toFixed` give its number of cents rounded half up. |
| Rounding.RoundIsNearestCent | utils.ts:11 | `round(x)` is a whole number of cents within 0.005 of `x`. At exactly half a cent it is the neighbour farther from zero. |
| Rounding.RoundSign | utils.ts:11 | Rounding keeps the sign of an amount. |
| Rounding.RoundMagnitude | utils.ts:11 | A non-negative value rounds to whole cents in the half-open interval `(x - 0.005, x + 0.005]`. |
| Rounding.RoundWholeCents | utils.ts:11 | A whole number of cents is left unchanged. |
| Rounding.RoundIdempotent | utils.ts:7-12 | `round(round(x)) == round(x)`. |
| Rounding.RoundMonotone | utils.ts:11 | `x <= y` implies `round(x) <= round(y)`. |
| Rounding.RoundSymmetric | utils.ts:11 | `round(-x) == -round(x)`, because a negative value is rounded as its magnitude. |
| Types.InvestmentTypeOf | services/investmentCalculator.ts:111-112 | The strategy handed to the dispatcher for a phase is never `mixed`. It is compound exactly for a compound phase. |
| Types.Months | services/investmentCalculator.ts:9 | A horizon of `years` whole years is `12 * years` months, and no months when it is not positive. |
| Types.RecordCount | services/investmentCalculator.ts:13-17 | A horizon yields one yearly record per 12 months of it. |
| Types.YearEnd | services/investmentCalculator.ts:17-18 | Month `m` closes a year exactly when it is a multiple of 12. `Math.ceil(m / 12)` is then `m / 12`. Inside a whole-year horizon, the `m === months` test adds no other month. |
| CompoundEngine.MonthlyRate | services/investmentCalculator.ts:8 | The monthly rate times 1200 is the annual percentage. |
| CompoundEngine.PrincipalIsProduct | services/investmentCalculator.ts:19 | The principal paid in after `m` months is `initial + contribution * m`. |
| CompoundEngine.CompoundSpec | services/investmentCalculator.ts:5-44 | One record per year of the horizon, tagged compound, with no event log. |
| CompoundEngine.RunBalance | services/investmentCalculator.ts:13-15 | The loop's balance after `m` months follows `b <- (b + contribution)(1 + rate)`. |
| CompoundEngine.RunMatchesRecords | services/investmentCalculator.ts:13-28 | After `m` months of a whole-year horizon, the loop has pushed exactly the records of the `m / 12` completed years. |
| CompoundEngine.CompoundSpecIsRun | services/investmentCalculator.ts:30-43 | The result is the loop's records plus a summary of the rounded principal, gains and balance after all months. |
| CompoundEngine.CalculateCompound | services/investmentCalculator.ts:5-44 | The month loop returns exactly `CompoundSpec(input)`. |
| CompoundEngine.CompoundRecordAt | services/investmentCalculator.ts:17-26 | Record `k` is year `k + 1`, with the rounded principal `initial + contribution * 12(k + 1)`, the rounded recurrence balance, and cumulative gains. The gains are balance minus principal, within the 0.015 the three roundings allow. No income and no split balances. |
| CompoundEngine.CompoundSummaryIsLastRecord | services/investmentCalculator.ts:30-40 | The summary repeats the last record. With no whole year, the series is empty and the balance is the rounded initial amount. |
| CompoundEngine.BalanceClosedForm | services/investmentCalculator.ts:13-16 | After `m` months the balance is `initial * g^m + contribution * (g + ... + g^m)`, with `g = 1 + rate`. |
| CompoundEngine.BalanceGrows | services/investmentCalculator.ts:13-16 | With non-negative inputs and rate, the balance is at least the principal and never falls from one month to the next. |
| CompoundEngine.BalanceMonotone | services/investmentCalculator.ts:13-16 | With non-negative inputs and rate, a later month's balance is never lower. |
| CompoundEngine.CompoundYearlyNonDecreasing | services/investmentCalculator.ts:21-26 | With non-negative inputs and rate, yearly balances never decrease, never drop below the rounded initial amount, and the cumulative gains are never negative. |
| CompoundEngine.CompoundOneYearScenario | services/investmentCalculator.ts:5-44 | 1000 plus 200 a month at 12% for one year gives the single record (1, 3400.00, 288.69, 3688.69). |
| FixedIncomeEngine.PolicyOf | services/investmentCalculator.ts:47 | Absent policy parameters default to 0, and an absent mode to `amount`. A given mode, value, percentage or threshold is kept. |
| FixedIncomeEngine.FixedSpec | services/investmentCalculator.ts:46-102 | One record per year of the horizon, tagged fixed, with no event log. |
| FixedIncomeEngine.RunBalance | services/investmentCalculator.ts:56-71 | The loop's balance and last payout follow the reinvestment recurrences. |
| FixedIncomeEngine.RunMatchesRecords | services/investmentCalculator.ts:56-84 | After `m` months, the loop has pushed exactly the records of the completed years. |
| FixedIncomeEngine.FinalStateIsSpec | services/investmentCalculator.ts:86-101 | The result is the loop's final records, its rounded balance and gains, and the rounded last payout. |
| FixedIncomeEngine.CalculateFixedIncome | services/investmentCalculator.ts:46-102 | The month loop returns exactly `FixedSpec(input)`. |
| FixedIncomeEngine.FixedRecordAt | services/investmentCalculator.ts:73-83 | Record `k` is year `k + 1`. Its principal is the rounded initial amount, as in the summary. It carries the rounded recurrence balance and gains, and the rounded payout of the year's last month. |
| FixedIncomeEngine.FixedSummaryIsLastRecord | services/investmentCalculator.ts:86-94 | The summary repeats the last record, income included. With no whole year it reports the initial amount and an income of 0. |
| FixedIncomeEngine.FixedSummaryEchoesActivePolicy | services/investmentCalculator.ts:95-97 | The summary holds exactly the parameter of the active mode, with its default, and no split balances. |
| FixedIncomeEngine.InterestIsReinvestedOrPaidOut | services/investmentCalculator.ts:57-71 | Balance plus everything paid out equals the initial amount plus everything earned. |
| FixedIncomeEngine.RawReinvestment | services/investmentCalculator.ts:59-66 | Reference definition of the month's reinvestment before rounding: a percentage of the interest, the interest above the threshold (at least 0), or the interest capped at the value. Its consequences are stated by `ReinvestmentBounds` and `ReinvestmentCanExceedInterest`. |
| FixedIncomeEngine.Reinvestment | services/investmentCalculator.ts:59-68 | Reference definition of the month's reinvestment, rounded to cents after the mode's formula. `ReinvestmentBounds` states that it is whole cents in `[0, interest + 0.005]`; `InterestIsReinvestedOrPaidOut` that it and the payout account for all interest. |
| FixedIncomeEngine.ReinvestmentBounds | services/investmentCalculator.ts:59-69 | On non-negative interest, with form-range parameters, the reinvested amount is whole cents. It lies in `[0, interest + 0.005]`, so the payout is at least -0.005. |
| FixedIncomeEngine.ReinvestmentCanExceedInterest | services/investmentCalculator.ts:65-69 | Half a cent of interest under a cap of 1 reinvests a whole cent and pays out -0.005. |
| FixedIncomeEngine.FixedPoint | services/investmentCalculator.ts:56-71 | If the first month reinvests nothing, the balance never moves and every month pays out the whole interest. |
| FixedIncomeEngine.AmountZeroKeepsPrincipal | services/investmentCalculator.ts:64-71 | With a non-negative amount and rate, in amount mode with value 0, every record shows the initial amount, no gains, and the whole month's interest as income. |
| FixedIncomeEngine.FixedIncomeScenario | services/investmentCalculator.ts:46-102 | 10000 at 12% with nothing reinvested gives (1, 10000, 0, 10000) with an income of 100. |
| FixedIncomeEngine.FixedBalanceNonDecreasing | services/investmentCalculator.ts:59-71 | With form-range parameters and non-negative amount and rate, the balance never drops below the initial amount or from one month to the next. |
| FixedIncomeEngine.CompoundThirtyCentsScenario | services/investmentCalculator.ts:5-44 | 0.30 compounded at 12% for a year ends at 0.34. |
| FixedIncomeEngine.FullReinvestmentOfThirtyCents | services/investmentCalculator.ts:59-71 | Reinvesting all of 0.30's interest at 12%, by 100% or by an uncapped amount, leaves the balance at 0.30. |
| FixedIncomeEngine.FixedBalanceMonotone | services/investmentCalculator.ts:56-71 | With form-range parameters and non-negative amount and rate, a later month's balance is never lower than an earlier one's. |
| FixedIncomeEngine.FixedYearlyNonDecreasing | services/investmentCalculator.ts:73-83 | With form-range parameters and non-negative amount and rate, yearly balances never decrease, never drop below the rounded initial amount, and the cumulative gains are never negative. |
| FixedIncomeEngine.FullReinvestmentIsNotCompound | services/investmentCalculator.ts:46-102 | For the same input, full reinvestment ends at 0.30 while compounding ends at 0.34. |
| MixedEngine.SettingsOf | services/investmentCalculator.ts:105 | Destructuring defaults: switch after year 1, compound first, no split, percentage mode, split value 0, split percentage 100. Each given setting is kept. |
| MixedEngine.Phase1Type | services/investmentCalculator.ts:111 | The first phase is compound exactly when the order is compound first. |
| MixedEngine.Phase2Type | services/investmentCalculator.ts:112 | The second phase is always the other strategy. |
| MixedEngine.TypeKey | services/investmentCalculator.ts:113-114 | A strategy is named by `compoundInterest` exactly when compound, and by `fixedIncome` exactly when fixed. |
| MixedEngine.ContributionGoesToCompoundPhase | services/investmentCalculator.ts:120-121 | The contribution reaches exactly one phase, the compound one. The fixed phase gets 0. |
| MixedEngine.Phase2Rate | services/investmentCalculator.ts:118 | The second rate defaults to the first. |
| MixedEngine.PhaseSpec | services/investmentCalculator.ts:287-296 | A phase run yields one record per year and no event log. |
| MixedEngine.CalculatePhase | services/investmentCalculator.ts:287-296 | Dispatching a phase returns exactly `PhaseSpec`. |
| MixedEngine.IsActualSplit | services/investmentCalculator.ts:140-147 | Reference definition of a proper split: enabled, and an amount strictly between 0 and the balance, or a percentage strictly between 0 and 100. `MixedSplitIff` states that split balances are reported exactly when it holds. |
| MixedEngine.SplitOf | services/investmentCalculator.ts:150-162 | The migrated and retained legs add up to the balance at the switch and are non-negative on a non-negative balance. In amount mode the migrated leg is the split value and the retained percentage is the retained leg's share. In percentage mode the migrated leg is that percentage of the balance, the retained leg the rest, and the retained percentage 100 minus the split percentage. |
| MixedEngine.PercentageSplitConserves | services/investmentCalculator.ts:159-160 | `b * (p / 100) + b * (1 - p / 100) == b`. |
| MixedEngine.CombinedIncome | services/investmentCalculator.ts:196-201 | A merged income, when reported, is positive. |
| MixedEngine.Merged | services/investmentCalculator.ts:187-212 | The merge yields one record per second-phase year. |
| MixedEngine.RenumberedAll | services/investmentCalculator.ts:249-261 | Renumbering keeps one record per second-phase record. |
| MixedEngine.MergeLegs | services/investmentCalculator.ts:186-212 | The merge loop appends to the phase-1 records exactly the merged records of the two legs. |
| MixedEngine.ContinueSplit | services/investmentCalculator.ts:149-238 | The split branch returns what `MixedFrom` specifies for a proper split. |
| MixedEngine.ContinueWhole | services/investmentCalculator.ts:240-284 | The branch without a split returns what `MixedFrom` specifies. |
| MixedEngine.MixedFrom | services/investmentCalculator.ts:130-285 | Reference definition of a mixed run once the first phase is known: an early return without a second phase, the split branch, or the sequential branch. `MixedFromKeepsPhase1`, `MixedFromRecordAt`, `MixedFromYearsConsecutive` and `MixedGrowth.MixedFromGrows` state its properties. |
| MixedEngine.MixedSpec | services/investmentCalculator.ts:104-285 | Reference definition of `calculateMixed`, with the dispatcher running each phase. `CalculateMixed` is proved equal to it; `MixedEchoesSettings`, `MixedEarlyReturn`, `MixedEventLog`, `MixedEndIsFinalBalance`, `MixedSplitIff`, `MixedKeepsPhase1`, `MixedRecordAt`, `MixedYearsConsecutive` and `MixedGrowth.MixedYearlyNonDecreasing` state its properties. |
| MixedEngine.StartMixed | services/investmentCalculator.ts:104-128 | The opening of the mixed run yields the settings with their defaults, the two strategies in the chosen order, the start event, and exactly the first phase's result. |
| MixedEngine.CalculateMixed | services/investmentCalculator.ts:104-285 | The whole mixed computation returns exactly `MixedSpec(input)`. |
| MixedEngine.PhaseRecordAt | services/investmentCalculator.ts:169-184 | Every record of a phase run is year `k + 1`, with a whole-cent balance, no split balances, and an income exactly for a fixed phase. |
| MixedEngine.PhaseIsShaped | services/investmentCalculator.ts:169-184 | A phase run has one such record per year and no split in its summary. |
| MixedEngine.DispatcherIsShaped | services/investmentCalculator.ts:287-296 | The dispatcher answers every phase input with a shaped phase run. |
| MixedEngine.MergedRecordOfWholeLegs | services/investmentCalculator.ts:191-211 | With whole-cent legs, a merged year is numbered `phase1Years + i + 1`, with principal counted from the switch. It reports the two leg balances and holds exactly their sum. |
| MixedEngine.CombinedIncomeIsFixedLeg | services/investmentCalculator.ts:196-208 | Of two shaped legs, the merged income is the fixed-income leg's income when positive, and none otherwise. |
| MixedEngine.SplitRecords | services/investmentCalculator.ts:186-212 | The split branch keeps the phase-1 records and then gives merged year `k` its number, principal, both leg balances, their sum and the fixed leg's income. |
| MixedEngine.SequentialRecords | services/investmentCalculator.ts:249-261 | The branch without a split keeps the phase-1 records. It then gives each phase-2 record the number `switch + k + 1`, principal counted from the switch, and gains recomputed from it. |
| MixedEngine.SplitSummaryAndLog | services/investmentCalculator.ts:214-237 | The split summary is the last merged record plus both initial leg amounts. The log is start, switch, split, end, with the end reporting the final balance. |
| MixedEngine.SequentialSummaryAndLog | services/investmentCalculator.ts:262-284 | The summary is the last record with phase 2's income. The log is start, switch, end, with the end reporting the final balance. |
| MixedEngine.MixedEchoesSettings | services/investmentCalculator.ts:228-236 | Every mixed result is tagged mixed and echoes the rates and settings. Both split parameters are echoed on an early return; otherwise only the active mode's one. |
| MixedEngine.MixedEarlyReturn | services/investmentCalculator.ts:130-133 | With no second phase, the records and summary are phase 1's, and the log is start at 0 then end at the horizon with the final balance. |
| MixedEngine.MixedEventLog | services/investmentCalculator.ts:135-167 | With a second phase, the log is start, switch, a split exactly when split, and end, at years 0, the switch year (for switch and split) and the horizon. |
| MixedEngine.MixedEndIsFinalBalance | services/investmentCalculator.ts:262-264 | With a second phase, the summary balance is the last record's, and the end event reports it. |
| MixedEngine.MixedSplitIff | services/investmentCalculator.ts:140-161 | Split balances are reported exactly when a second phase runs and the split is proper. They add up to the balance at the switch, and in amount mode the migrated one is the split value. |
| MixedEngine.MixedFromKeepsPhase1 | services/investmentCalculator.ts:249-250 | Continuing from any first phase keeps its records as a prefix and adds one record per remaining year. |
| MixedEngine.MixedKeepsPhase1 | services/investmentCalculator.ts:186 | The phase-1 records open every mixed run unchanged, followed by one record per remaining year. |
| MixedEngine.MixedFromRecordAt | services/investmentCalculator.ts:203-211 | Continuing from any first phase, second-phase year `k + 1` is numbered from the switch, with principal from the switch and split balances exactly when split, summing to its balance. |
| MixedEngine.MixedRecordAt | services/investmentCalculator.ts:203-211 | The same as `MixedFromRecordAt`, for the mixed run of an input. |
| MixedEngine.MixedFromYearsConsecutive | services/investmentCalculator.ts:256 | A continuation of a shaped first phase is numbered 1 to `years` without a gap at the switch. |
| MixedEngine.MixedYearsConsecutive | services/investmentCalculator.ts:204 | With the switch inside the horizon, the run has `years` records numbered 1 to `years`. |
| MixedGrowth.CompoundGrows | services/investmentCalculator.ts:13-43 | On non-negative inputs, a compound run's balances never decrease, never drop below the rounded initial amount, never exceed the summary's balance, and that balance is whole cents. |
| MixedGrowth.FixedGrows | services/investmentCalculator.ts:56-93 | On non-negative inputs and form-range reinvestment parameters, a fixed-income run's balances never decrease, never drop below the rounded initial amount, never exceed the summary's balance, and that balance is whole cents. |
| MixedGrowth.DispatcherGrows | services/investmentCalculator.ts:287-296 | The dispatcher grows from the initial amount on every sound phase input. |
| MixedGrowth.ConcatNonDecreasing | services/investmentCalculator.ts:249-261 | Records that stay at or below a balance followed by records that start at or above it never decrease. |
| MixedGrowth.RoundedPartsCoverWhole | services/investmentCalculator.ts:154-162 | Two non-negative parts of a whole-cent balance, rounded separately, add up to at least the balance. |
| MixedGrowth.SequentialGrows | services/investmentCalculator.ts:240-261 | Without a split, a second phase started from the first phase's final balance keeps the combined balances non-decreasing. |
| MixedGrowth.SplitGrows | services/investmentCalculator.ts:186-212 | With a split into two non-negative legs that grow, the whole series never decreases, and every merged year holds at least the balance at the switch. |
| MixedGrowth.MixedFromGrows | services/investmentCalculator.ts:140-261 | Continuing a growing first phase with a shaped, growing runner never lets a balance fall. |
| MixedGrowth.MixedYearlyNonDecreasing | services/investmentCalculator.ts:104-261 | With non-negative amounts and both rates non-negative and a form-range policy, the yearly balances of a mixed run never decrease, across the switch and any split. |
| Calculator.Simulate | services/investmentCalculator.ts:287-297 | Reference definition of the dispatcher: the engine of the input's strategy. `CalculateCompoundInterest` is proved equal to it; `SimulateKeepsStrategy`, `MixedEventLogExists` and `PhaseIsDispatched` state its properties. |
| Calculator.CalculateCompoundInterest | services/investmentCalculator.ts:287-297 | The dispatcher returns the selected engine's result, tagged with the strategy asked for. It carries an event log exactly for mixed. |
| Calculator.MixedEventLogExists | services/investmentCalculator.ts:130-132 | A mixed result always has an event log, early return included. |
| Calculator.SimulateKeepsStrategy | services/investmentCalculator.ts:287-296 | The result is tagged with the requested strategy and has a log exactly when mixed. |
| Calculator.PhaseIsDispatched | services/investmentCalculator.ts:123-128 | The dispatcher on a phase input is the phase's own engine, so the mixed engine's delegation is one level deep. |
| CalculatorForm.Set | components/CalculatorForm.tsx:230 | The spread sets the named field to the value and keeps every other field. |
| CalculatorForm.SetOwnValue | components/CalculatorForm.tsx:230 | Writing a field's own value back leaves the state unchanged. |
| CalculatorForm.Clamp | components/CalculatorForm.tsx:232-242 | The result is admissible for a mixed run (at least 2 years, switch before the horizon). Only the horizon (never lowered) and the switch (never raised) change. The state is unchanged exactly when already admissible. |
| CalculatorForm.ClampIsLeastChange | components/CalculatorForm.tsx:235-241 | Among admissible states reached by lengthening the horizon and moving the switch earlier, the clamp's horizon is the shortest, and with that horizon its switch is the latest. |
| CalculatorForm.ClampIdempotent | components/CalculatorForm.tsx:232-242 | Clamping twice is clamping once. |
| CalculatorForm.DefaultsAdmitMixed | components/CalculatorForm.tsx:14-31 | Switching a fresh form to mixed needs no clamping. |
| CalculatorForm.HandleInputChange | components/CalculatorForm.tsx:228-246 | The updater's new state is the clamped spread. Any field other than the horizon and the switch year holds exactly the value given. |
| CalculatorForm.UnroundedRate | components/CalculatorForm.tsx:59-71 | Reference definition of the index formula before rounding: a share of CDI, or IPCA compounded with a fixed rate. `EffectiveRate`, `IpcaPlusCompounds`, `FullCdiIsCdi` and `CdiShareMonotone` state its properties. |
| CalculatorForm.EffectiveRate | components/CalculatorForm.tsx:59-71 | There is no rate exactly in manual mode. Otherwise the rate is whole cents within 0.005 of the index formula's rate. |
| CalculatorForm.IpcaPlusCompounds | components/CalculatorForm.tsx:64-68 | IPCA+ rates compound: `1 + rate` is the product of `1 + ipca` and `1 + fixed`, exceeding their sum by the cross term. |
| CalculatorForm.FullCdiIsCdi | components/CalculatorForm.tsx:62-63 | At 100% of CDI the rate is CDI, rounded. |
| CalculatorForm.CdiShareMonotone | components/CalculatorForm.tsx:62-63 | With a non-negative CDI, a larger share never gives a smaller rate. |
| CalculatorForm.ShapeInputs | components/CalculatorForm.tsx:252-266 | The contribution is zeroed for fixed. Each optional parameter is present exactly when the strategy, the reinvestment mode and the split settings make it relevant, and then it holds the form's value: the second rate, the reinvestment value, percentage and threshold, the switch year, the order, the split flag, the split mode, the split value and the split percentage. |
| CalculatorForm.ShapedPolicyIsForms | components/CalculatorForm.tsx:256-259 | The dropped reinvestment parameters are never read: the engine's policy reinvests what the form's policy would. |
| CalculatorForm.ShapedSettingsAreForms | components/CalculatorForm.tsx:260-265 | The dropped split parameters are never read: the engine sees the form's switch, order and second rate, and splits exactly as the form's settings would. |
| CalculatorForm.ClampedMixedFormSwitches | components/CalculatorForm.tsx:239-241 | A clamped mixed form always reaches the second phase, and its log begins with start, then switch. |

## Left out

- Non-finite and IEEE-754 arithmetic. Amounts are exact reals, so drift from accumulating binary doubles is not modelled. The NaN/Infinity guard of `round` exists only in `Rounding.RoundNumber`; the engines use the finite branch.
- `toFixed` for magnitudes of 10^21 and above, which switches to exponent notation, is not modelled.
- Non-integer `years` and `switchToFixedYear`. Both are `int`, so a horizon is always whole years, and `m === months` never closes a partial year.
- The dispatcher's `default:` arm. The strategy is a three-valued datatype that is always present, so no other or absent value reaches it.
- Translation keys and description placeholders are enumerations (`TranslationKey`, `Slot`), not strings. The translation table in `translations` is not part of this model.
- The `descriptionValues` placeholders the source leaves `undefined` cannot occur: every placeholder an event sets holds a number or a key.
- MixedEngine lemmas: stated over any `Runner` that answers with one record per year; they say nothing about runners that do not.
- The form's React machinery is not modelled: `setFormState`, the debounce timer, the `useEffect` that feeds the effective rate into the field, and the loading of market data (`fetchIndicators`, services/financialData.ts). Market data is a parameter of `EffectiveRate`.
- CalculatorForm.Set: models the spread over the 16 form fields with a typed `FieldValue`; assignments of a value of the wrong type, which TypeScript rejects, are excluded by `Fits`.
- Rendering, charts, the event log display, localisation and currency conversion, the AI analysis card and the animated background are not part of this model.
