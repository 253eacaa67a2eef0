/**
 * The year-by-year projection of cashflow-calculator.js: a constant-annuity
 * loan whose principal is clamped in the final year, compounding escalation
 * of rent and costs, the taxable result, tax savings against a fixed
 * "before" tax, property appreciation and equity.
 *
 * The source's imperative loop over mutable running totals is modelled as
 * a fold: `StepYear(carry, year, params)` returns the next carry together
 * with that year's record, and `Projection` collects the records of years
 * 1..N.
 */
module CashflowCalculator {
  import opened Numerics
  import opened Results
  import opened TaxCalculator
  import opened PropertyCalculator

  /** The financing, depreciation and projection form; every rate is in percent. */
  datatype CashflowInput = CashflowInput(
    financingType: string,
    downPayment: real,
    interestRate: real,
    repaymentRate: real,
    depreciationRate: real,
    furnitureDepreciationRate: real,
    appreciationRate: real,
    rentIncreaseRate: real,
    calculationPeriod: int)

  /** Only the exact string "loan" selects financing; anything else is cash. */
  predicate IsLoan(financingType: string)
  {
    financingType == "loan"
  }

  /** Everything the projection holds constant across the years; rates are fractions. */
  datatype Params = Params(
    purchase: PurchaseData,
    ongoing: OngoingData,
    taxInfo: TaxInfo,
    isLoan: bool,
    downPayment: real,
    interestRate: real,
    repaymentRate: real,
    loanAmount: real,
    annuity: real,
    buildingDepreciation: real,
    furnitureDepreciation: real,
    brokerConsultingCosts: real,
    appreciationRate: real,
    rentIncreaseRate: real,
    calculationPeriod: int,
    previousTax: int)

  /** Cash financing carries no loan and no annuity. */
  ghost predicate Consistent(p: Params)
  {
    !p.isLoan ==> p.loanAmount == 0.0 && p.annuity == 0.0
  }

  /** The set-up part of `calculateCashflow`, before the first year. */
  function MakeParams(purchase: PurchaseData, ongoing: OngoingData, taxInfo: TaxInfo, input: CashflowInput): (p: Params)
    ensures Consistent(p)
    ensures p.isLoan <==> IsLoan(input.financingType)
    ensures p.isLoan ==> p.loanAmount == purchase.totalCost - input.downPayment
    ensures p.annuity == p.loanAmount * (p.interestRate + p.repaymentRate)
    ensures p.interestRate * 100.0 == input.interestRate && p.repaymentRate * 100.0 == input.repaymentRate
    ensures p.appreciationRate * 100.0 == input.appreciationRate && p.rentIncreaseRate * 100.0 == input.rentIncreaseRate
    ensures p.buildingDepreciation * 100.0 == purchase.buildingValue * input.depreciationRate
    ensures p.furnitureDepreciation * 100.0 == purchase.furnitureValue * input.furnitureDepreciationRate
    ensures p.brokerConsultingCosts == (if purchase.brokerAsConsulting then purchase.brokerFee else 0.0)
    ensures p.previousTax == IncomeTax(taxInfo.annualIncome, taxInfo.taxStatus)
    ensures p.purchase == purchase && p.ongoing == ongoing && p.taxInfo == taxInfo
    ensures p.downPayment == input.downPayment && p.calculationPeriod == input.calculationPeriod
  {
    var isLoan := IsLoan(input.financingType);
    var interestRate := input.interestRate / 100.0;
    var repaymentRate := input.repaymentRate / 100.0;
    var loanAmount := if isLoan then purchase.totalCost - input.downPayment else 0.0;
    var annuity := if isLoan then loanAmount * (interestRate + repaymentRate) else 0.0;
    Params(
      purchase, ongoing, taxInfo, isLoan, input.downPayment, interestRate, repaymentRate,
      loanAmount, annuity,
      purchase.buildingValue * (input.depreciationRate / 100.0),
      purchase.furnitureValue * (input.furnitureDepreciationRate / 100.0),
      if purchase.brokerAsConsulting then purchase.brokerFee else 0.0,
      input.appreciationRate / 100.0, input.rentIncreaseRate / 100.0,
      input.calculationPeriod,
      IncomeTax(taxInfo.annualIncome, taxInfo.taxStatus))
  }

  /** One year's split of the loan payment and the balance left after it. */
  datatype Financing = Financing(interest: real, principal: real, payment: real, balance: real)

  /**
   * Year 1 runs the annuity against the full loan amount, with neither the
   * positive-balance guard nor the clamp of the later years.
   */
  function FirstYearFinancing(loanAmount: real, annuity: real, interestRate: real): (f: Financing)
    ensures f.interest == loanAmount * interestRate
    ensures f.payment == f.interest + f.principal
    ensures f.balance == loanAmount - f.principal
    ensures f.balance >= 0.0
    ensures annuity - f.interest <= loanAmount ==> f.payment == annuity
    ensures annuity - f.interest > loanAmount ==> f.principal == loanAmount && f.balance == 0.0
  {
    var interest := loanAmount * interestRate;
    var principal := Min(annuity - interest, loanAmount);
    Financing(interest, principal, interest + principal, loanAmount - principal)
  }

  /**
   * A later year: while a loan is outstanding the annuity pays the
   * interest and the rest goes to principal, clamped to the balance;
   * otherwise nothing is paid and the balance is left as it is.
   */
  function FinancingStep(isLoan: bool, balance: real, annuity: real, interestRate: real): (f: Financing)
    ensures !(isLoan && balance > 0.0) ==> f == Financing(0.0, 0.0, 0.0, balance)
    ensures isLoan && balance > 0.0 ==>
              && f.interest == balance * interestRate
              && f.payment == f.interest + f.principal
              && f.balance == balance - f.principal
              && f.balance >= 0.0
              && (annuity - f.interest <= balance ==> f.payment == annuity)
              && (annuity - f.interest > balance ==> f.principal == balance && f.balance == 0.0)
  {
    if isLoan && balance > 0.0 then
      var interest := balance * interestRate;
      var principal := Min(annuity - interest, balance);
      var remaining := balance - principal;
      Financing(interest, principal, interest + principal, if remaining < 0.0 then 0.0 else remaining)
    else
      Financing(0.0, 0.0, 0.0, balance)
  }

  /** The tax figures of one year. */
  datatype TaxOutcome = TaxOutcome(
    newTotalIncome: real,
    newTax: int,
    previousChurchTax: real,
    newChurchTax: real,
    taxSavings: real)

  /**
   * The tax step shared by every year: the property's taxable result is
   * added to the prior income (never below zero) and the saving is the
   * drop in income tax plus church tax against the fixed prior tax.
   */
  function TaxStep(taxableIncome: real, p: Params): (t: TaxOutcome)
    ensures t.newTotalIncome >= 0.0
    ensures t.newTotalIncome == Max(0.0, p.taxInfo.annualIncome + taxableIncome)
    ensures t.newTax == IncomeTax(t.newTotalIncome, p.taxInfo.taxStatus)
    ensures t.previousChurchTax == ChurchTax(p.previousTax as real, p.taxInfo.hasChurchTax, p.taxInfo.churchTaxRate)
    ensures t.newChurchTax == ChurchTax(t.newTax as real, p.taxInfo.hasChurchTax, p.taxInfo.churchTaxRate)
    ensures t.taxSavings == (p.previousTax - t.newTax) as real + (t.previousChurchTax - t.newChurchTax)
  {
    var info := p.taxInfo;
    var newTotalIncome := Max(0.0, info.annualIncome + taxableIncome);
    var newTax := IncomeTax(newTotalIncome, info.taxStatus);
    var previousChurchTax := ChurchTax(p.previousTax as real, info.hasChurchTax, info.churchTaxRate);
    var newChurchTax := ChurchTax(newTax as real, info.hasChurchTax, info.churchTaxRate);
    TaxOutcome(newTotalIncome, newTax, previousChurchTax, newChurchTax,
               (p.previousTax - newTax) as real + (previousChurchTax - newChurchTax))
  }

  /** The fields of one projected year, as the tables, chart and CSV read them. */
  datatype YearRecord = YearRecord(
    year: int,
    rent: real,
    ongoingCosts: real,
    interest: real,
    principal: real,
    payment: real,
    loanBalance: real,
    buildingDepreciation: real,
    furnitureDepreciation: real,
    maintenanceDeduction: real,
    totalDepreciation: real,
    taxableIncome: real,
    firstYearDeductibleCosts: real,
    previousIncome: real,
    previousTax: int,
    previousChurchTax: real,
    newTotalIncome: real,
    newTax: int,
    newChurchTax: real,
    taxSavings: real,
    cashflow: real,
    cashflowBeforeTax: real,
    propertyValue: real,
    equity: real,
    initialEquity: real,
    vacancyRate: real,
    propertyTax: real,
    managementFee: real,
    maintenanceReserve: real,
    insurance: real,
    cashflowBeforeFinancing: real)

  /** The running totals the loop threads from one year to the next. */
  datatype Carry = Carry(
    rent: real,
    propertyTax: real,
    managementFee: real,
    maintenanceReserve: real,
    insurance: real,
    loanBalance: real)

  /** The running totals as they stand after the year `r`. */
  function CarryOf(r: YearRecord): Carry
  {
    Carry(r.rent, r.propertyTax, r.managementFee, r.maintenanceReserve, r.insurance, r.loanBalance)
  }

  function InitialEquity(p: Params): real
  {
    if p.isLoan then p.downPayment else p.purchase.purchasePrice
  }

  /** `initializeYearlyData` with the year-1 figures of `calculateCashflow`. */
  function FirstYear(p: Params): (Carry, YearRecord)
  {
    var o := p.ongoing;
    var fin := FirstYearFinancing(p.loanAmount, p.annuity, p.interestRate);
    var beforeTax := o.effectiveRent - o.totalOngoing - fin.payment;
    var maintenance := p.purchase.annualMaintenance;
    var broker := p.brokerConsultingCosts;
    var taxable := beforeTax + fin.principal - p.buildingDepreciation - p.furnitureDepreciation - maintenance - broker;
    var t := TaxStep(taxable, p);
    var price := p.purchase.purchasePrice;
    var record := YearRecord(
      year := 1,
      rent := o.effectiveRent,
      ongoingCosts := o.totalOngoing,
      interest := fin.interest,
      principal := fin.principal,
      payment := fin.payment,
      loanBalance := fin.balance,
      buildingDepreciation := p.buildingDepreciation,
      furnitureDepreciation := p.furnitureDepreciation,
      maintenanceDeduction := maintenance,
      totalDepreciation := p.buildingDepreciation + p.furnitureDepreciation + maintenance + broker,
      taxableIncome := taxable,
      firstYearDeductibleCosts := broker,
      previousIncome := p.taxInfo.annualIncome,
      previousTax := p.previousTax,
      previousChurchTax := t.previousChurchTax,
      newTotalIncome := t.newTotalIncome,
      newTax := t.newTax,
      newChurchTax := t.newChurchTax,
      taxSavings := t.taxSavings,
      cashflow := beforeTax + t.taxSavings,
      cashflowBeforeTax := beforeTax,
      propertyValue := price,
      equity := if p.isLoan then price - fin.balance else price,
      initialEquity := InitialEquity(p),
      vacancyRate := o.vacancyRate,
      propertyTax := o.propertyTax,
      managementFee := o.managementFee,
      maintenanceReserve := o.maintenanceCost,
      insurance := o.insurance,
      cashflowBeforeFinancing := o.effectiveRent - o.totalOngoing);
    (CarryOf(record), record)
  }

  /** One year of escalation: an amount grows by `rate` (a fraction). */
  function Grow(amount: real, rate: real): real
  {
    amount * (1.0 + rate)
  }

  /** An amount compounded `years` times by `rate` (a fraction). */
  function Compound(amount: real, rate: real, years: nat): real
  {
    amount * Pow(1.0 + rate, years)
  }

  /** One pass of the loop in `calculateFutureYears`, for a year from 2 on. */
  function StepYear(c: Carry, year: int, p: Params): (Carry, YearRecord)
    requires year >= 2
  {
    var g := p.rentIncreaseRate;
    var rent := Grow(c.rent, g);
    var propertyTax := Grow(c.propertyTax, g);
    var managementFee := Grow(c.managementFee, g);
    var maintenanceReserve := Grow(c.maintenanceReserve, g);
    var insurance := Grow(c.insurance, g);
    var ongoing := propertyTax + managementFee + maintenanceReserve + insurance;
    var beforeFinancing := rent - ongoing;
    var fin := FinancingStep(p.isLoan, c.loanBalance, p.annuity, p.interestRate);
    var beforeTax := beforeFinancing - fin.payment;
    var maintenance := if year <= p.purchase.maintenanceDistribution then p.purchase.annualMaintenance else 0.0;
    var taxable := beforeTax + fin.principal - p.buildingDepreciation - p.furnitureDepreciation - maintenance;
    var t := TaxStep(taxable, p);
    var propertyValue := p.purchase.purchasePrice * Pow(1.0 + p.appreciationRate, year - 1);
    var record := YearRecord(
      year := year,
      rent := rent,
      ongoingCosts := ongoing,
      interest := fin.interest,
      principal := fin.principal,
      payment := fin.payment,
      loanBalance := fin.balance,
      buildingDepreciation := p.buildingDepreciation,
      furnitureDepreciation := p.furnitureDepreciation,
      maintenanceDeduction := maintenance,
      totalDepreciation := p.buildingDepreciation + p.furnitureDepreciation + maintenance,
      taxableIncome := taxable,
      firstYearDeductibleCosts := 0.0,
      previousIncome := p.taxInfo.annualIncome,
      previousTax := p.previousTax,
      previousChurchTax := t.previousChurchTax,
      newTotalIncome := t.newTotalIncome,
      newTax := t.newTax,
      newChurchTax := t.newChurchTax,
      taxSavings := t.taxSavings,
      cashflow := beforeTax + t.taxSavings,
      cashflowBeforeTax := beforeTax,
      propertyValue := propertyValue,
      equity := propertyValue - fin.balance,
      initialEquity := InitialEquity(p),
      vacancyRate := p.ongoing.vacancyRate,
      propertyTax := propertyTax,
      managementFee := managementFee,
      maintenanceReserve := maintenanceReserve,
      insurance := insurance,
      cashflowBeforeFinancing := beforeFinancing);
    (CarryOf(record), record)
  }

  /** The records of years `year`..`calculationPeriod`, folding StepYear from carry `c`. */
  function FutureYears(c: Carry, year: int, p: Params): seq<YearRecord>
    requires year >= 2
    decreases p.calculationPeriod - year + 1
  {
    if year > p.calculationPeriod then []
    else
      var next := StepYear(c, year, p);
      [next.1] + FutureYears(next.0, year + 1, p)
  }

  /** The running totals a step hands on are those of the record it produces. */
  lemma StepYearCarries(c: Carry, year: int, p: Params)
    requires year >= 2
    ensures StepYear(c, year, p).0 == CarryOf(StepYear(c, year, p).1)
  {
  }

  lemma FutureYearsUnfold(c: Carry, year: int, p: Params)
    requires 2 <= year <= p.calculationPeriod
    ensures FutureYears(c, year, p)
         == [StepYear(c, year, p).1] + FutureYears(StepYear(c, year, p).0, year + 1, p)
  {
  }

  /** Year 1 followed by the future years: `[yearlyData, ...futureYearlyData]`. */
  function Projection(p: Params): seq<YearRecord>
  {
    var first := FirstYear(p);
    [first.1] + FutureYears(first.0, 2, p)
  }

  /**
   * `calculateFutureYears` as the source writes it: a loop over the years
   * 2..calculationPeriod that pushes one record per year.
   */
  method CalculateFutureYears(p: Params, start: Carry) returns (futureYears: seq<YearRecord>)
    ensures futureYears == FutureYears(start, 2, p)
    ensures |futureYears| == if p.calculationPeriod < 2 then 0 else p.calculationPeriod - 1
    ensures forall j :: 0 <= j < |futureYears| ==> futureYears[j].year == j + 2
  {
    futureYears := [];
    var c := start;
    var year := 2;
    while year <= p.calculationPeriod
      invariant 2 <= year
      invariant futureYears + FutureYears(c, year, p) == FutureYears(start, 2, p)
      decreases p.calculationPeriod - year + 1
    {
      var next := StepYear(c, year, p);
      FutureYearsAppend(futureYears, c, year, p);
      futureYears := futureYears + [next.1];
      c := next.0;
      year := year + 1;
    }
    assert FutureYears(c, year, p) == [];
    FutureYearsLength(start, 2, p);
  }

  /** Moving one step of the fold from the pending part to the finished part. */
  lemma FutureYearsAppend(prefix: seq<YearRecord>, c: Carry, year: int, p: Params)
    requires 2 <= year <= p.calculationPeriod
    ensures prefix + FutureYears(c, year, p)
         == (prefix + [StepYear(c, year, p).1]) + FutureYears(StepYear(c, year, p).0, year + 1, p)
  {
    FutureYearsUnfold(c, year, p);
  }

  /** The series `prepareChartData` hands to the chart. */
  datatype ChartData = ChartData(
    years: seq<int>,
    cashflows: seq<real>,
    propertyValues: seq<real>,
    equityValues: seq<real>,
    loanValues: seq<real>)

  /** `prepareChartData`: the years 1..N and one value per record for each series. */
  function PrepareChartData(yearlyData: seq<YearRecord>, calculationPeriod: int): (chart: ChartData)
    ensures |chart.years| == (if calculationPeriod < 0 then 0 else calculationPeriod)
    ensures forall i :: 0 <= i < |chart.years| ==> chart.years[i] == i + 1
    ensures |chart.cashflows| == |chart.propertyValues| == |chart.equityValues| == |chart.loanValues| == |yearlyData|
    ensures forall i :: 0 <= i < |yearlyData| ==>
              && chart.cashflows[i] == yearlyData[i].cashflow
              && chart.propertyValues[i] == yearlyData[i].propertyValue
              && chart.equityValues[i] == yearlyData[i].equity
              && chart.loanValues[i] == yearlyData[i].loanBalance
  {
    var n := if calculationPeriod < 0 then 0 else calculationPeriod;
    ChartData(
      seq(n, i => i + 1),
      seq(|yearlyData|, i requires 0 <= i < |yearlyData| => yearlyData[i].cashflow),
      seq(|yearlyData|, i requires 0 <= i < |yearlyData| => yearlyData[i].propertyValue),
      seq(|yearlyData|, i requires 0 <= i < |yearlyData| => yearlyData[i].equity),
      seq(|yearlyData|, i requires 0 <= i < |yearlyData| => yearlyData[i].loanBalance))
  }

  /** The object `calculateCashflow` stores for the summary. */
  datatype CalculationResults = CalculationResults(
    totalCost: real,
    downPayment: real,
    loanAmount: real,
    annuity: real,
    monthlyPayment: real,
    monthlyCashflow: real,
    finalPropertyValue: real,
    remainingLoan: real,
    finalEquity: real,
    initialEquity: real)

  datatype CashflowOutput = CashflowOutput(
    results: CalculationResults,
    yearlyData: seq<YearRecord>,
    chart: ChartData)

  lemma {:induction false} FutureYearsLength(c: Carry, year: int, p: Params)
    requires year >= 2
    ensures |FutureYears(c, year, p)| == if year > p.calculationPeriod then 0 else p.calculationPeriod - year + 1
    ensures forall j :: 0 <= j < |FutureYears(c, year, p)| ==> FutureYears(c, year, p)[j].year == year + j
    decreases p.calculationPeriod - year + 1
  {
    if year <= p.calculationPeriod {
      var next := StepYear(c, year, p);
      FutureYearsLength(next.0, year + 1, p);
    }
  }

  /**
   * The projection holds max(1, calculationPeriod) records, one per year
   * 1..N in order.
   */
  lemma ProjectionYears(p: Params)
    ensures |Projection(p)| == if p.calculationPeriod < 1 then 1 else p.calculationPeriod
    ensures forall k :: 0 <= k < |Projection(p)| ==> Projection(p)[k].year == k + 1
  {
    FutureYearsLength(FirstYear(p).0, 2, p);
  }

  /**
   * `calculateCashflow`: the projection, the chart series and the results
   * for the summary. The final-year figures are read at index N - 1, which
   * exists only for a period of at least one year.
   */
  function CalculateCashflow(purchase: PurchaseData, ongoing: OngoingData, taxInfo: TaxInfo, input: CashflowInput): (r: Result<CashflowOutput>)
    ensures r.Err? <==> input.calculationPeriod < 1
    ensures r.Err? ==> r.error == PeriodBelowOne
    ensures r.Ok? ==>
              var out := r.value;
              var n := input.calculationPeriod;
              && out.yearlyData == Projection(MakeParams(purchase, ongoing, taxInfo, input))
              && |out.yearlyData| == n
              && (forall k :: 0 <= k < n ==> out.yearlyData[k].year == k + 1)
              && out.results.finalEquity == out.yearlyData[n - 1].equity
              && out.results.finalPropertyValue == out.yearlyData[n - 1].propertyValue
              && out.results.remainingLoan == out.yearlyData[n - 1].loanBalance
              && out.results.monthlyCashflow * 12.0 == out.yearlyData[0].cashflow
              && out.results.initialEquity == (if IsLoan(input.financingType) then input.downPayment else purchase.totalCost)
              && out.results.monthlyPayment * 12.0 == out.results.annuity
              && out.results.totalCost == purchase.totalCost
              && out.results.downPayment == input.downPayment
              && out.results.loanAmount
                 == (if IsLoan(input.financingType) then purchase.totalCost - input.downPayment else 0.0)
              && out.results.annuity * 100.0
                 == out.results.loanAmount * (input.interestRate + input.repaymentRate)
              && out.chart == PrepareChartData(out.yearlyData, n)
  {
    if input.calculationPeriod < 1 then Err(PeriodBelowOne)
    else
      var p := MakeParams(purchase, ongoing, taxInfo, input);
      var yearlyData := Projection(p);
      ProjectionYears(p);
      var n := input.calculationPeriod;
      var chart := PrepareChartData(yearlyData, n);
      var results := CalculationResults(
        purchase.totalCost, input.downPayment, p.loanAmount, p.annuity, p.annuity / 12.0,
        yearlyData[0].cashflow / 12.0,
        chart.propertyValues[n - 1], chart.loanValues[n - 1], chart.equityValues[n - 1],
        if p.isLoan then input.downPayment else purchase.totalCost);
      Ok(CashflowOutput(results, yearlyData, chart))
  }
}
