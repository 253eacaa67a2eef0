# Rental-property projection engine, in Dafny

This project models the calculation core of a German rental-property
investment calculator. From a purchase, its financing, the rent and running
costs, depreciation rates and the owner's income-tax situation, the core
builds a year-by-year projection. Each year's record holds rent, costs, loan
interest and principal, depreciation, the taxable result, the income- and
church-tax saving, the after-tax cashflow, property value and equity. The
summary adds equity growth and an annualized return on equity.

The model has these parts. Each is a module in its own file.

- `Numerics` (`numerics.dfy`): `Math.round` as `(x + 1/2).Floor`, `Math.min`,
  `Math.max` and `Math.abs`. `Math.pow` with a whole exponent is a recursive
  `Pow`.
- `Results` (`results.dfy`): the `Result` type and the three input errors.
- `TaxCalculator` (`tax_calculator.dfy`), modelling `tax-calculator.js`:
  - the five-zone tariff of section 32a(1) of the German Income Tax Act
    (EStG), with the constants the code hard-codes (12096, 17443, 68480,
    277825);
  - the splitting rule for married filers, with rounding after doubling;
  - church tax.
- `PropertyCalculator` (`property_calculator.dfy`), modelling
  `property-calculator.js`:
  - transaction fees and total cost;
  - allocation of the capitalised extra costs to land and building;
  - the broker-as-consulting switch;
  - maintenance spread over several years;
  - the allocation warning;
  - the year-1 rent and cost baseline.
- `CashflowCalculator` (`cashflow_calculator.dfy`), modelling
  `cashflow-calculator.js`. The source loops over mutable running totals; the
  model writes this as a fold.
  - `StepYear(carry, year, params)` returns the next running totals together
    with that year's `YearRecord`.
  - `Projection` is year 1 followed by the folded years 2..N.
  - `CalculateFutureYears` is also given as the loop the source writes, and is
    proved equal to the fold.
- `CashflowProperties` (`cashflow_properties.dfy`): what every projection
  guarantees. This covers the chained shape of the fold, the cashflow
  waterfall, compounding escalation, the deduction schedule, the tax step,
  value and equity, the loan balance and cash financing.
- `SummaryCalculator` (`summary_calculator.dfy`), modelling
  `summary-calculator.js`: equity growth and the annualized return. The
  return is characterised by the equation it solves, `(1 + roi)^N = final /
  initial`, not computed.
- `LegacyCalculator` (`legacy_calculator.dfy`): the calculation functions of
  `immobilien-steuerrechner.js`, the older single-file version of the
  calculator.
- `LegacyEquivalence` (`legacy_equivalence.dfy`): where the two versions
  agree and where they part.
  - With the broker switch off, no church tax and a non-married filer, the
    modular pipeline reproduces every legacy year record (minus its
    church-tax and broker fields) and the legacy results exactly.
  - Church tax, the broker deduction and the maintenance-reserve input are
    where they diverge.
- `Pipeline` (`pipeline.dfy`): `calculateCashflow` run end to end from one
  configuration record, which stands in for the form.

JavaScript numbers are modelled as exact `real`s. Integer-valued results
(the income tax, the period, the maintenance distribution) are `int`.

Observations about the code, which the model follows:

- The income tax is non-decreasing in income for single filers
  (`SingleTaxMonotone`) but not for married filers. The code rounds after
  doubling, so the married tax drops by one euro just above 2 × 68480
  (`MarriedTaxNotMonotone`). The unrounded tariff itself dips at 68480
  (`TariffDropsAtZone2End`).
- The zone formulas meet exactly at 12096 and 277825, but with the code's
  coefficients they differ by less than one euro at 17443 and 68480
  (`ZoneEdgesNearlyContinuous`).
- Building depreciation is the entered building value times the rate
  (cashflow-calculator.js:27, 52). The allocated `totalBuildingValue`, which
  includes the capitalised extra costs, is computed but never used.
- Year 1 finances the full loan amount without the later years'
  positive-balance guard or clamp. The two agree whenever the loan amount is
  positive (`FirstYearIsOrdinaryStep`).
- The code does not check its inputs. The model returns an error where the
  code would divide by zero or, for a period of 0, read index −1 of the
  chart series (cashflow-calculator.js:189-191):
  - purchase price 0;
  - maintenance distribution 0;
  - a calculation period below 1.

## Model

| member | source | states |
|---|---|---|
| Numerics.Round | tax-calculator.js:59 | `Math.round`: the result is the integer n with n − ½ ≤ x < n + ½, so halves round up |
| TaxCalculator.TariffTax | tax-calculator.js:30-51 | the unrounded single tariff is never negative, and is zero exactly for incomes up to the 12096 allowance, negative incomes included |
| TaxCalculator.IncomeTax | tax-calculator.js:9-60 | the tax is a non-negative integer; it is 0 for a non-married income up to 12096 and for a married income up to 24192 |
| TaxCalculator.SingleTaxByZone | tax-calculator.js:30-51 | on each of the five intervals (…,12096], (12096,17443], (17443,68480], (68480,277825] and above, the tax is the rounded value of that zone's own formula |
| TaxCalculator.ZoneEdgesNearlyContinuous | tax-calculator.js:34-50 | the zone-b formula is 0 at the allowance; the adjacent formulas differ by less than one euro at 17443 and 68480 and are equal at 277825 |
| TaxCalculator.TariffDropsAtZone2End | tax-calculator.js:39-47 | the unrounded tariff just above 68480 is lower than at 68480, so the raw tariff is not monotone |
| TaxCalculator.EntryZoneIncreasing | tax-calculator.js:34-37 | the zone-b formula never decreases from the allowance upwards |
| TaxCalculator.ProgressionZoneIncreasing | tax-calculator.js:39-42 | the zone-c formula never decreases from 17443 upwards |
| TaxCalculator.RoundedTariffAroundEdges | tax-calculator.js:30-59 | the rounded tariff is at most 1015, 17850 and 105775 up to the edges 17443, 68480 and 277825, and at least that beyond each edge |
| TaxCalculator.SingleTaxMonotone | tax-calculator.js:30-59 | a larger income never gets a smaller rounded single-filer tax |
| TaxCalculator.OtherStatusIsSingle | tax-calculator.js:13-56 | every status string other than "married" is taxed exactly as "single" |
| TaxCalculator.MarriedSplittingWithinOne | tax-calculator.js:13-59 | the married tax is round(2 × tariff(income / 2)) and differs from twice the single tax on half the income by at most one euro |
| TaxCalculator.MarriedSplittingGapExample | tax-calculator.js:53-59 | the one-euro gap is reached: 136964 married pays 35701, while twice the single tax on 68482 is 35702 |
| TaxCalculator.MarriedTaxNotMonotone | tax-calculator.js:53-59 | the married tax falls from 35700 at 136960 to 35699 at 136960.2 |
| TaxCalculator.ChurchTax | tax-calculator.js:69-72 | church tax is 0 when not applicable, and otherwise income tax × rate / 100 |
| TaxCalculator.ChurchTaxSavingsProportional | tax-calculator.js:69-72 | church tax is linear, so the church-tax saving is rate / 100 times the income-tax saving (0 without church tax) |
| TaxCalculator.CalculateTaxInfo | tax-calculator.js:78-105 | the form values pass through; the income tax is non-negative; church tax is rate % of it when applicable and 0 otherwise |
| PropertyCalculator.CalculatePurchase | property-calculator.js:9-89 | fails exactly when the price or the distribution is 0, reporting the price first. Otherwise: the inputs pass through; each fee is price × rate / 100; total cost is price × (1 + sum of rates / 100) whatever the switch; the capitalised extras (all fees, or all but the broker fee) are shared in proportion to land and building value: land extra × price = extras × land value, and likewise for the building, each total value being value + its extra share; the broker fee is either capitalised or deducted in year 1, never both; annual maintenance × distribution = the maintenance cost; the percentages × price = value × 100 |
| PropertyCalculator.PurchaseConsequences | property-calculator.js:32-49 | the record built from the formulas has every property listed for `CalculatePurchase` |
| PropertyCalculator.ExtraCostsAllocation | property-calculator.js:37-43 | when land + building = price the capitalised extras are allocated in full; when land + building + furniture = price the unallocated part × price = extras × furniture value |
| PropertyCalculator.AllocationWarning | property-calculator.js:94-110 | the warning is raised exactly when land + building + furniture exceeds the price by more than 1 or falls short of it by more than 1 |
| PropertyCalculator.AllocationWarningNonBlocking | property-calculator.js:100-109 | a raised warning does not stop the purchase calculation, which succeeds for every non-zero price and distribution |
| PropertyCalculator.CalculateOngoing | property-calculator.js:116-152 | the inputs pass through; annual rent = 12 × monthly rent; the vacancy loss (annual − effective rent) = annual rent × vacancy / 100; 0 ≤ effective ≤ annual rent for a non-negative rent and a vacancy in [0, 100]; total cost = the sum of the four lines |
| CashflowCalculator.MakeParams | cashflow-calculator.js:19-81 | a loan exactly for the string "loan". The loan amount is total cost − down payment for a loan, and loan and annuity are 0 for cash. annuity = loan × (interest + repayment rate). The interest, repayment, appreciation and rent-increase rates are percent / 100. Each depreciation is value × rate / 100. The consulting cost is the broker fee only with the switch on. The prior tax is the income tax of the annual income |
| CashflowCalculator.FirstYearFinancing | cashflow-calculator.js:56-59 | interest = loan × rate, payment = interest + principal, balance = loan − principal ≥ 0; the payment is the annuity when annuity − interest fits in the loan, otherwise the whole loan is repaid |
| CashflowCalculator.FinancingStep | cashflow-calculator.js:397-408 | with a positive balance on a loan: interest on the balance, principal clamped to the balance, the new balance never negative, and the payment is the annuity while annuity − interest fits in the balance. Otherwise nothing is paid and the balance is left as it is |
| CashflowCalculator.TaxStep | cashflow-calculator.js:81-92 | new total income = max(0, income + taxable result) ≥ 0; new tax is its income tax; both church taxes are those of `ChurchTax`; the saving is the drop in income tax plus the drop in church tax |
| CashflowCalculator.StepYearCarries | cashflow-calculator.js:441-474 | the running totals handed to the next year are the rent, cost lines and balance stored in this year's record |
| CashflowCalculator.CalculateFutureYears | cashflow-calculator.js:353-478 | the loop returns exactly the folded years from the given totals: N − 1 records (none for N < 2), record j being year j + 2 |
| CashflowCalculator.FutureYearsLength | cashflow-calculator.js:383-475 | from year y the fold yields N − y + 1 records (none past N), numbered y, y + 1, … |
| CashflowCalculator.ProjectionYears | cashflow-calculator.js:166-167 | the projection holds max(1, N) records, numbered 1..N in order |
| CashflowCalculator.PrepareChartData | cashflow-calculator.js:486-500 | the years are 1..N (none for a negative N); each of the four series has one entry per record, equal to that record's cashflow, value, equity and balance |
| CashflowCalculator.CalculateCashflow | cashflow-calculator.js:13-200 | fails exactly when N < 1. Otherwise: the records are the projection of the set-up, N of them, numbered 1..N; final value, balance and equity are those of record N; monthly cashflow × 12 is year 1's cashflow; initial equity is the down payment (loan) or the total cost (cash); the down payment passes through; the loan amount is total cost − down payment (loan) or 0 (cash); annuity × 100 = loan amount × (interest + repayment percent); monthly payment × 12 = annuity; total cost passes through; the chart series are `prepareChartData` of the records |
| CashflowProperties.MakeParamsSound | cashflow-calculator.js:42-49 | the set-up is consistent: cash has no loan or annuity, the annuity is loan × (interest + repayment rate), and the baseline total cost is the sum of its four lines |
| CashflowProperties.ProjectionChained | cashflow-calculator.js:166-167 | the projection is year 1 followed by each later year stepped from the running totals of the record before it, max(1, N) records long |
| CashflowProperties.ChainedIsProjection | cashflow-calculator.js:145-167 | any chained record sequence of the projection's length is the projection |
| CashflowProperties.FirstLines | cashflow-calculator.js:312-344 | year 1's rent and four cost lines are the `calculateOngoing` baseline |
| CashflowProperties.FirstFinancing | cashflow-calculator.js:56-59 | year 1's interest, principal, payment and balance are the unguarded first-year financing of the loan amount |
| CashflowProperties.StepLine | cashflow-calculator.js:384-389 | in every later year, rent and each cost line are the previous year's value × (1 + rent-increase rate) |
| CashflowProperties.StepFinancing | cashflow-calculator.js:397-408 | every later year's financing fields are one financing step from the previous year's balance |
| CashflowProperties.TaxableResult | cashflow-calculator.js:391-418 | in every record, the costs are the sum of the four lines and the cashflow before financing is rent − costs. The payment is interest + principal, and the cashflow before tax is cashflow before financing − payment. Principal cancels: taxable result = rent − costs − interest − both depreciations − maintenance − the year-1 broker cost. The total depreciation sums those deductions |
| CashflowProperties.DeductionSchedule | cashflow-calculator.js:413-453 | the consulting broker fee is deducted in year 1 and in no other year; maintenance is deducted in year 1 and in every year up to the distribution period, and 0 after it |
| CashflowProperties.TaxSavingsStep | cashflow-calculator.js:417-432 | in every record: the prior income and prior tax are the set-up's; new total income = max(0, income + taxable result) ≥ 0; new tax is its income tax; the saving is income-tax drop + church-tax drop = (1 + church rate / 100) × income-tax drop; cashflow = cashflow before tax + saving |
| CashflowProperties.PreviousTaxConstant | cashflow-calculator.js:455-456 | every record measures its saving against the same prior tax |
| CashflowProperties.ValueAndEquity | cashflow-calculator.js:434-438 | year k + 1 is valued at the price compounded k times by the appreciation rate; equity = value − balance; the per-record initial equity is the down payment (loan) or the bare price (cash) |
| CashflowProperties.LineEscalation | cashflow-calculator.js:375-389 | each escalating line of year k + 1 is its year-1 value compounded k times by the rent-increase rate |
| CashflowProperties.Escalation | cashflow-calculator.js:375-389 | rent, property tax, management fee, maintenance reserve and insurance of year k + 1 are their year-1 values compounded k times |
| CashflowProperties.OngoingEscalation | cashflow-calculator.js:376-392 | the yearly cost total of year k + 1 is the year-1 total compounded k times |
| CashflowProperties.LoanBalanceNonNegative | cashflow-calculator.js:402-408 | the loan balance is never negative, whatever the inputs |
| CashflowProperties.FinancingStepRepays | cashflow-calculator.js:402-408 | when the annuity covers the interest, the principal is non-negative and the balance does not grow |
| CashflowProperties.LoanBalanceNonIncreasing | cashflow-calculator.js:402-408 | with non-negative rates and loan amount, no balance exceeds the loan amount and no balance exceeds the one before it |
| CashflowProperties.AnnuityCoversInterest | cashflow-calculator.js:46-49 | with non-negative terms the annuity covers the interest on any balance up to the loan amount |
| CashflowProperties.FirstYearRepays | cashflow-calculator.js:56-59 | when the annuity covers the interest, year 1 repays a non-negative principal and leaves at most the loan amount |
| CashflowProperties.ZeroBalanceAbsorbing | cashflow-calculator.js:402-408 | once the balance is 0 it stays 0, and every later year pays no interest, principal or payment |
| CashflowProperties.AnnuityPayment | cashflow-calculator.js:402-407 | while a loan is outstanding, the interest is on the balance (the loan amount in year 1) and payment = interest + principal. The payment is exactly the annuity while annuity − interest fits in the balance; otherwise the principal clears the balance to 0 |
| CashflowProperties.FirstYearIsOrdinaryStep | cashflow-calculator.js:56-59 | for a positive loan amount, year-1 financing equals an ordinary later-year step |
| CashflowProperties.CashFinancing | cashflow-calculator.js:43-59 | for cash financing every record has zero interest, principal, payment and balance, and equity equal to the property value |
| CashflowProperties.InitialEquitySplit | cashflow-calculator.js:182-193 | for cash the summary's initial equity is the total cost, extras included, while every record's initial equity is the bare price |
| SummaryCalculator.AnnualizedRateUnique | summary-calculator.js:24 | for a positive initial equity and N ≥ 1 at most one rate ≥ −1 solves (1 + roi)^N = final / initial |
| SummaryCalculator.AnnualizedRateZero | summary-calculator.js:23-24 | the rate is 0 exactly when the final equity equals the initial equity |
| SummaryCalculator.AnnualizedRatePositive | summary-calculator.js:23-24 | the rate is positive exactly when equity grew |
| SummaryCalculator.CalculateSummary | summary-calculator.js:10-43 | the results pass through unchanged, with only two fields added: equity growth = final − initial equity, and the rate, which satisfies (1 + roi)^N × initial = final, is ≥ −1, is 0 exactly when growth is 0, and is positive exactly when growth is positive |
| LegacyCalculator.LegacyIncomeTax | immobilien-steuerrechner.js:2-45 | the legacy tax is a non-negative integer, 0 for incomes up to 12096 |
| LegacyCalculator.LegacyPurchase | immobilien-steuerrechner.js:865-932 | fails exactly when the price or the distribution is 0; otherwise total cost = price × (1 + sum of rates / 100), total extra = sum of fees, annual maintenance × distribution = cost, and the warning is raised exactly when the allocation misses the price by more than 1 |
| LegacyCalculator.LegacyOngoing | immobilien-steuerrechner.js:183-217 | the maintenance reserve is rate × floor area; annual rent = 12 × monthly; vacancy loss = annual rent × vacancy / 100; total = sum of four lines |
| LegacyCalculator.LegacyMakeParams | immobilien-steuerrechner.js:226-260 | a loan exactly for "loan". The loan amount is total cost − down payment, and 0 with no annuity for cash. annuity × 100 = loan × (interest + repayment percent). The interest, appreciation and rent-increase rates are percent / 100, each depreciation is value × rate / 100, and the down payment and period pass through. The prior tax is the legacy tax of the income |
| LegacyCalculator.LegacyFinancingStep | immobilien-steuerrechner.js:365-376 | with a positive balance on a loan, it is the same split as the modular step; in every other case interest, principal, payment and the balance are all 0 |
| LegacyCalculator.LegacyTaxStep | immobilien-steuerrechner.js:386-391 | new total income = max(0, income + taxable result); new tax is the legacy tax; saving = prior − new tax, with no church tax |
| LegacyCalculator.LegacyFutureYearsLength | immobilien-steuerrechner.js:350-440 | from year y the legacy loop yields N − y + 1 records (none past N) |
| LegacyCalculator.LegacyValues | immobilien-steuerrechner.js:330-431 | legacy record k (year k + 1) is valued at the price compounded k times, and carries the down payment (loan) or the bare price (cash) as initial equity |
| LegacyCalculator.LegacyCalculateCashflow | immobilien-steuerrechner.js:220-460 | fails exactly when N < 1; otherwise N records, the final figures from record N, monthly cashflow × 12 = year-1 cashflow, initial equity the down payment or total cost, the down payment passing through, loan amount total cost − down payment (loan) or 0 (cash), annuity × 100 = loan amount × (interest + repayment percent), monthly payment × 12 = annuity, total cost passing through |
| LegacyEquivalence.LegacyTaxIsSingle | immobilien-steuerrechner.js:2-45 | for every income the legacy tax equals the modular tax for "single" |
| LegacyEquivalence.PurchaseAgrees | immobilien-steuerrechner.js:865-932 | with the switch off, both purchase calculations fail on the same inputs and otherwise agree on every shared field; nothing is deducted in year 1, and the warnings coincide |
| LegacyEquivalence.OngoingAgrees | immobilien-steuerrechner.js:183-217 | with the reserve entered as rate × area, the two cost calculations agree on every field |
| LegacyEquivalence.OngoingDiverges | immobilien-steuerrechner.js:194 | the same number typed into the reserve field gives the same reserve in both versions exactly when it is 0 or the floor area is 1 |
| LegacyEquivalence.LegacyResetIsNoOp | immobilien-steuerrechner.js:365-376 | the legacy reset of the balance to 0 changes nothing on any balance a projection can reach |
| LegacyEquivalence.TaxSavingsDiverge | immobilien-steuerrechner.js:386-391 | for a non-married filer both versions compute the same new tax, and the modular saving is the legacy saving plus the church tax on it |
| LegacyEquivalence.TaxAgrees | immobilien-steuerrechner.js:268-272 | without church tax, for a non-married filer, both tax steps agree on every figure |
| LegacyEquivalence.FirstAgrees | immobilien-steuerrechner.js:256-340 | on comparable settings year 1 is the same record in both versions, and hands on the same running totals |
| LegacyEquivalence.StepAgrees | immobilien-steuerrechner.js:350-440 | on comparable settings one later year is the same record in both versions, and hands on the same settled totals |
| LegacyEquivalence.FutureAgrees | immobilien-steuerrechner.js:342-440 | on comparable settings the folded later years are the legacy loop's records |
| LegacyEquivalence.ProjectionAgrees | immobilien-steuerrechner.js:303-440 | on comparable settings the whole modular projection, with its church-tax and broker fields dropped, is the legacy projection |
| LegacyEquivalence.MakeParamsCorrespond | immobilien-steuerrechner.js:222-260 | the modular set-up of the corresponding modular forms (`ModularPurchaseInput`, `ModularOngoingInput`, `ModularCashflowInput`) is comparable and translates to the legacy set-up |
| LegacyEquivalence.CashflowAgrees | immobilien-steuerrechner.js:220-460 | for a non-married filer without church tax, the legacy `calculateCashflow` is the modular one run on the corresponding modular forms: both fail for the same periods, and otherwise the results are identical and every record agrees on the shared fields |
| LegacyEquivalence.LegacyInitialEquitySplit | immobilien-steuerrechner.js:431-456 | for cash, the legacy summary starts from the total cost, while every legacy record carries the bare price |
| Pipeline.Run | cashflow-calculator.js:13-200 | from one configuration: fails exactly for a zero price, a zero distribution or N < 1, reporting them in that order; otherwise N projected records and a total cost of price × (1 + sum of rates / 100) |
| Pipeline.RunBrokerDeduction | cashflow-calculator.js:67-78 | end to end, the broker fee booked as consulting is deducted in year 1 and in no other year |
| Pipeline.RunRentEscalation | cashflow-calculator.js:375-385 | end to end, the rent of year k + 1 is the `calculateOngoing` effective rent compounded k times by the rent-increase rate |

## Left out

- Form reading and writing (`document.getElementById`, `parseFloat`, `parseInt`), event wiring and tabs are left out. The form is one configuration record (`Pipeline.Config`), and values the source reads twice from the same field are one value.
- The calculation period is an `int`. The legacy page reads it with `parseFloat` (immobilien-steuerrechner.js:239); fractional periods are not modelled.
- The chart (Chart.js, chart-utils.js, immobilien-steuerrechner.js:637-759) is a foreign library. `prepareChartData` is modelled; `createCashflowChart` is not.
- Table rendering and CSV export (table-generator.js, immobilien-steuerrechner.js:463-606 and 762-847) are presentation only. This includes the modular `addCsvRow`, whose returned row `exportTableToCSV` discards.
- Currency and percentage formatting, `toFixed`, and the displayed first-year return (`result-cf-roi`) are display only.
- The `window.calculationState` cache is left out; every run recomputes from its inputs.
- IEEE-754 effects are not modelled: numbers are exact reals. Infinity and NaN never arise; the divisions that would produce them are error results instead.
- The `taxRate` display value of `calculateTaxInfo` (tax-calculator.js:91) is left out. It only feeds a form field and divides by the income.
- SummaryCalculator.CalculateSummary: the fractional power `Math.pow(final / initial, 1 / N)` is not computed. The rate is a parameter required to satisfy its defining equation. This requires a positive initial equity, which the source does not check. It also requires a non-negative final equity: for N ≥ 2 `Math.pow` of a negative ratio with the fractional exponent 1 / N is NaN, and for N = 1, where `Math.pow(x, 1)` is defined for negative x, excluding it is a modelling choice.
- LegacyPurchase: a zero price is an error. In the source it only makes the percentages Infinity/NaN, while the rest of the record stays finite.
- LegacyCalculateCashflow: the results are read from the year records rather than the chart arrays the source keeps beside them; the two hold the same values by construction. Its building and furniture values come from the purchase record, which holds the same form fields the source reads again.
- LegacyCalculateCashflow: the legacy `calculateSummary` (immobilien-steuerrechner.js:609-634) computes the same two figures as the modular one. `SummaryCalculator.CalculateSummary` models both.
- The allocation warning's DOM side effect is modelled as a boolean (`AllocationWarning`, and a field of the legacy purchase record).
