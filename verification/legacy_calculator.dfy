/**
 * The calculation functions of immobilien-steuerrechner.js, the older
 * single-file version of the calculator: a single-filer income tax, a
 * purchase model without the broker-as-consulting switch, a maintenance
 * reserve priced per square metre, and a projection loop without church
 * tax. It is modelled on its own terms, sharing only the running-totals
 * record, the financing split and the results record with the modular
 * version, so that LegacyEquivalence can relate the two.
 */
module LegacyCalculator {
  import opened Numerics
  import opened Results
  import opened PropertyCalculator
  import opened CashflowCalculator

  /**
   * The legacy `calculateGermanIncomeTax(income)`: the same five zones and
   * constants as the modular tariff, written out once more, for a single
   * filer only.
   */
  function LegacyIncomeTax(income: real): (tax: int)
    ensures tax >= 0
    ensures income <= 12096.0 ==> tax == 0
  {
    var raw :=
      if income <= 12096.0 then 0.0
      else if income <= 17443.0 then
        var y := (income - 12096.0) / 10000.0;
        (932.3 * y + 1400.0) * y
      else if income <= 68480.0 then
        var z := (income - 17443.0) / 10000.0;
        (176.64 * z + 2397.0) * z + 1015.13
      else if income <= 277825.0 then 0.42 * income - 10911.92
      else 0.45 * income - 19246.67;
    Round(raw)
  }

  /** The legacy purchase form: no broker-as-consulting switch. */
  datatype LegacyPurchaseInput = LegacyPurchaseInput(
    purchasePrice: real,
    transferTaxRate: real,
    notaryRate: real,
    brokerRate: real,
    landValue: real,
    buildingValue: real,
    maintenanceCost: real,
    furnitureValue: real,
    maintenanceDistribution: int)

  datatype LegacyPurchaseData = LegacyPurchaseData(
    purchasePrice: real,
    transferTax: real,
    notaryCosts: real,
    brokerFee: real,
    totalExtra: real,
    totalCost: real,
    landValue: real,
    buildingValue: real,
    maintenanceCost: real,
    furnitureValue: real,
    annualMaintenance: real,
    maintenanceDistribution: int,
    landValuePercentage: real,
    buildingValuePercentage: real,
    allocationWarning: bool)

  /**
   * The legacy `calculatePurchase`: every fee is capitalised, no extra
   * costs are allocated to land or building, and the allocation warning is
   * raised inline. A zero price or a zero distribution would divide by zero.
   */
  function LegacyPurchase(input: LegacyPurchaseInput): (r: Result<LegacyPurchaseData>)
    ensures r.Err? <==> input.purchasePrice == 0.0 || input.maintenanceDistribution == 0
    ensures r.Err? ==> r.error == (if input.purchasePrice == 0.0 then ZeroPurchasePrice else ZeroMaintenanceDistribution)
    ensures r.Ok? ==>
              var d := r.value;
              var price := input.purchasePrice;
              && d.totalCost == price * (1.0 + (input.transferTaxRate + input.notaryRate + input.brokerRate) / 100.0)
              && d.totalExtra == d.transferTax + d.notaryCosts + d.brokerFee
              && d.annualMaintenance * (input.maintenanceDistribution as real) == input.maintenanceCost
              && (d.allocationWarning <==> Abs(input.landValue + input.buildingValue + input.furnitureValue - price) > 1.0)
  {
    var price := input.purchasePrice;
    if price == 0.0 then Err(ZeroPurchasePrice)
    else if input.maintenanceDistribution == 0 then Err(ZeroMaintenanceDistribution)
    else
      var transferTax := price * (input.transferTaxRate / 100.0);
      var notaryCosts := price * (input.notaryRate / 100.0);
      var brokerFee := price * (input.brokerRate / 100.0);
      var totalExtra := transferTax + notaryCosts + brokerFee;
      var annualMaintenance := input.maintenanceCost / (input.maintenanceDistribution as real);
      QuotientTimesDivisor(input.maintenanceCost, input.maintenanceDistribution as real);
      Ok(LegacyPurchaseData(
        price, transferTax, notaryCosts, brokerFee, totalExtra, price + totalExtra,
        input.landValue, input.buildingValue, input.maintenanceCost, input.furnitureValue,
        annualMaintenance, input.maintenanceDistribution,
        (input.landValue / price) * 100.0, (input.buildingValue / price) * 100.0,
        AllocationWarning(price, input.landValue, input.buildingValue, input.furnitureValue)))
  }

  /** The legacy rent and cost form: the maintenance reserve is a rate per square metre. */
  datatype LegacyOngoingInput = LegacyOngoingInput(
    monthlyRent: real,
    vacancyRate: real,
    propertyTax: real,
    managementFee: real,
    maintenanceRate: real,
    propertySize: real,
    insurance: real)

  datatype LegacyOngoingData = LegacyOngoingData(
    monthlyRent: real,
    annualRent: real,
    vacancyRate: real,
    effectiveRent: real,
    propertyTax: real,
    managementFee: real,
    maintenanceCost: real,
    insurance: real,
    totalOngoing: real,
    propertySize: real)

  /** The legacy `calculateOngoing`: the reserve is rate times floor area. */
  function LegacyOngoing(input: LegacyOngoingInput): (d: LegacyOngoingData)
    ensures d.maintenanceCost == input.maintenanceRate * input.propertySize
    ensures d.annualRent == 12.0 * input.monthlyRent
    ensures d.annualRent - d.effectiveRent == d.annualRent * input.vacancyRate / 100.0
    ensures d.totalOngoing == input.propertyTax + input.managementFee + d.maintenanceCost + input.insurance
    ensures d.propertyTax == input.propertyTax && d.managementFee == input.managementFee
    ensures d.insurance == input.insurance && d.vacancyRate == input.vacancyRate
  {
    var annualRent := input.monthlyRent * 12.0;
    var maintenanceCost := input.maintenanceRate * input.propertySize;
    LegacyOngoingData(
      input.monthlyRent, annualRent, input.vacancyRate, annualRent * (1.0 - input.vacancyRate / 100.0),
      input.propertyTax, input.managementFee, maintenanceCost, input.insurance,
      input.propertyTax + input.managementFee + maintenanceCost + input.insurance,
      input.propertySize)
  }

  /** The financing, tax and projection form of the legacy page; rates in percent. */
  datatype LegacyCashflowInput = LegacyCashflowInput(
    financingType: string,
    downPayment: real,
    interestRate: real,
    repaymentRate: real,
    annualIncome: real,
    depreciationRate: real,
    furnitureDepreciationRate: real,
    appreciationRate: real,
    rentIncreaseRate: real,
    calculationPeriod: int)

  /** Everything the legacy loop holds constant across the years; rates are fractions. */
  datatype LegacyParams = LegacyParams(
    purchasePrice: real,
    annualMaintenance: real,
    maintenanceDistribution: int,
    effectiveRent: real,
    totalOngoing: real,
    vacancyRate: real,
    propertyTax: real,
    managementFee: real,
    maintenanceCost: real,
    insurance: real,
    annualIncome: real,
    isLoan: bool,
    downPayment: real,
    interestRate: real,
    loanAmount: real,
    annuity: real,
    buildingDepreciation: real,
    furnitureDepreciation: real,
    appreciationRate: real,
    rentIncreaseRate: real,
    calculationPeriod: int,
    previousTax: int)

  /** The set-up part of the legacy `calculateCashflow`. */
  function LegacyMakeParams(purchase: LegacyPurchaseData, ongoing: LegacyOngoingData, input: LegacyCashflowInput): (p: LegacyParams)
    ensures p.isLoan <==> IsLoan(input.financingType)
    ensures p.isLoan ==> p.loanAmount == purchase.totalCost - input.downPayment
    ensures !p.isLoan ==> p.loanAmount == 0.0 && p.annuity == 0.0
    ensures p.annuity * 100.0 == p.loanAmount * (input.interestRate + input.repaymentRate)
    ensures p.previousTax == LegacyIncomeTax(input.annualIncome)
    ensures p.interestRate * 100.0 == input.interestRate
    ensures p.appreciationRate * 100.0 == input.appreciationRate && p.rentIncreaseRate * 100.0 == input.rentIncreaseRate
    ensures p.buildingDepreciation * 100.0 == purchase.buildingValue * input.depreciationRate
    ensures p.furnitureDepreciation * 100.0 == purchase.furnitureValue * input.furnitureDepreciationRate
    ensures p.downPayment == input.downPayment && p.calculationPeriod == input.calculationPeriod
  {
    var isLoan := IsLoan(input.financingType);
    var interestRate := input.interestRate / 100.0;
    var repaymentRate := input.repaymentRate / 100.0;
    var loanAmount := if isLoan then purchase.totalCost - input.downPayment else 0.0;
    var annuity := if isLoan then loanAmount * (interestRate + repaymentRate) else 0.0;
    LegacyParams(
      purchase.purchasePrice, purchase.annualMaintenance, purchase.maintenanceDistribution,
      ongoing.effectiveRent, ongoing.totalOngoing, ongoing.vacancyRate,
      ongoing.propertyTax, ongoing.managementFee, ongoing.maintenanceCost, ongoing.insurance,
      input.annualIncome, isLoan, input.downPayment, interestRate,
      loanAmount, annuity,
      purchase.buildingValue * (input.depreciationRate / 100.0),
      purchase.furnitureValue * (input.furnitureDepreciationRate / 100.0),
      input.appreciationRate / 100.0, input.rentIncreaseRate / 100.0,
      input.calculationPeriod, LegacyIncomeTax(input.annualIncome))
  }

  /**
   * A later year's financing: as in the modular loop while a loan is
   * outstanding, but every other case zeroes interest, principal, payment
   * and the balance itself.
   */
  function LegacyFinancingStep(isLoan: bool, balance: real, annuity: real, interestRate: real): (f: Financing)
    ensures !(isLoan && balance > 0.0) ==> f == Financing(0.0, 0.0, 0.0, 0.0)
    ensures isLoan && balance > 0.0 ==>
              && f.interest == balance * interestRate
              && f.payment == f.interest + f.principal
              && f.balance == Max(0.0, balance - f.principal)
              && f.principal <= balance
  {
    if isLoan && balance > 0.0 then
      var interest := balance * interestRate;
      var principal := Min(annuity - interest, balance);
      var remaining := balance - principal;
      Financing(interest, principal, interest + principal, if remaining < 0.0 then 0.0 else remaining)
    else
      Financing(0.0, 0.0, 0.0, 0.0)
  }

  /** The legacy tax figures of one year: income tax only. */
  datatype LegacyTaxOutcome = LegacyTaxOutcome(newTotalIncome: real, newTax: int, taxSavings: real)

  function LegacyTaxStep(taxableIncome: real, p: LegacyParams): (t: LegacyTaxOutcome)
    ensures t.newTotalIncome >= 0.0
    ensures t.newTotalIncome == Max(0.0, p.annualIncome + taxableIncome)
    ensures t.newTax == LegacyIncomeTax(t.newTotalIncome)
    ensures t.taxSavings == (p.previousTax - t.newTax) as real
  {
    var newTotalIncome := Max(0.0, p.annualIncome + taxableIncome);
    var newTax := LegacyIncomeTax(newTotalIncome);
    LegacyTaxOutcome(newTotalIncome, newTax, (p.previousTax - newTax) as real)
  }

  /** The legacy year record: the modular one without the church-tax and broker fields. */
  datatype LegacyRecord = LegacyRecord(
    year: int,
    rent: real,
    ongoingCosts: real,
    interest: real,
    principal: real,
    payment: real,
    loanBalance: real,
    buildingDepreciation: real,
    furnitureDepreciation: real,
    maintenanceDeduction: real,
    totalDepreciation: real,
    taxableIncome: real,
    previousIncome: real,
    previousTax: int,
    newTotalIncome: real,
    newTax: int,
    taxSavings: real,
    cashflow: real,
    cashflowBeforeTax: real,
    propertyValue: real,
    equity: real,
    initialEquity: real,
    vacancyRate: real,
    propertyTax: real,
    managementFee: real,
    maintenanceReserve: real,
    insurance: real,
    cashflowBeforeFinancing: real)

  function LegacyCarryOf(r: LegacyRecord): Carry
  {
    Carry(r.rent, r.propertyTax, r.managementFee, r.maintenanceReserve, r.insurance, r.loanBalance)
  }

  function LegacyInitialEquity(p: LegacyParams): real
  {
    if p.isLoan then p.downPayment else p.purchasePrice
  }

  /** Year 1 of the legacy `calculateCashflow`. */
  function LegacyFirstYear(p: LegacyParams): (Carry, LegacyRecord)
  {
    var fin := FirstYearFinancing(p.loanAmount, p.annuity, p.interestRate);
    var beforeTax := p.effectiveRent - p.totalOngoing - fin.payment;
    var maintenance := p.annualMaintenance;
    var taxable := beforeTax + fin.principal - p.buildingDepreciation - p.furnitureDepreciation - maintenance;
    var t := LegacyTaxStep(taxable, p);
    var price := p.purchasePrice;
    var record := LegacyRecord(
      year := 1,
      rent := p.effectiveRent,
      ongoingCosts := p.totalOngoing,
      interest := fin.interest,
      principal := fin.principal,
      payment := fin.payment,
      loanBalance := fin.balance,
      buildingDepreciation := p.buildingDepreciation,
      furnitureDepreciation := p.furnitureDepreciation,
      maintenanceDeduction := maintenance,
      totalDepreciation := p.buildingDepreciation + p.furnitureDepreciation + maintenance,
      taxableIncome := taxable,
      previousIncome := p.annualIncome,
      previousTax := p.previousTax,
      newTotalIncome := t.newTotalIncome,
      newTax := t.newTax,
      taxSavings := t.taxSavings,
      cashflow := beforeTax + t.taxSavings,
      cashflowBeforeTax := beforeTax,
      propertyValue := price,
      equity := if p.isLoan then price - fin.balance else price,
      initialEquity := LegacyInitialEquity(p),
      vacancyRate := p.vacancyRate,
      propertyTax := p.propertyTax,
      managementFee := p.managementFee,
      maintenanceReserve := p.maintenanceCost,
      insurance := p.insurance,
      cashflowBeforeFinancing := p.effectiveRent - p.totalOngoing);
    (LegacyCarryOf(record), record)
  }

  /** One pass of the legacy loop, for a year from 2 on. */
  function LegacyStep(c: Carry, year: int, p: LegacyParams): (Carry, LegacyRecord)
    requires year >= 2
  {
    var g := p.rentIncreaseRate;
    var rent := Grow(c.rent, g);
    var propertyTax := Grow(c.propertyTax, g);
    var managementFee := Grow(c.managementFee, g);
    var maintenanceReserve := Grow(c.maintenanceReserve, g);
    var insurance := Grow(c.insurance, g);
    var ongoing := propertyTax + managementFee + maintenanceReserve + insurance;
    var beforeFinancing := rent - ongoing;
    var fin := LegacyFinancingStep(p.isLoan, c.loanBalance, p.annuity, p.interestRate);
    var beforeTax := beforeFinancing - fin.payment;
    var maintenance := if year <= p.maintenanceDistribution then p.annualMaintenance else 0.0;
    var taxable := beforeTax + fin.principal - p.buildingDepreciation - p.furnitureDepreciation - maintenance;
    var t := LegacyTaxStep(taxable, p);
    var propertyValue := p.purchasePrice * Pow(1.0 + p.appreciationRate, year - 1);
    var record := LegacyRecord(
      year := year,
      rent := rent,
      ongoingCosts := ongoing,
      interest := fin.interest,
      principal := fin.principal,
      payment := fin.payment,
      loanBalance := fin.balance,
      buildingDepreciation := p.buildingDepreciation,
      furnitureDepreciation := p.furnitureDepreciation,
      maintenanceDeduction := maintenance,
      totalDepreciation := p.buildingDepreciation + p.furnitureDepreciation + maintenance,
      taxableIncome := taxable,
      previousIncome := p.annualIncome,
      previousTax := p.previousTax,
      newTotalIncome := t.newTotalIncome,
      newTax := t.newTax,
      taxSavings := t.taxSavings,
      cashflow := beforeTax + t.taxSavings,
      cashflowBeforeTax := beforeTax,
      propertyValue := propertyValue,
      equity := propertyValue - fin.balance,
      initialEquity := LegacyInitialEquity(p),
      vacancyRate := p.vacancyRate,
      propertyTax := propertyTax,
      managementFee := managementFee,
      maintenanceReserve := maintenanceReserve,
      insurance := insurance,
      cashflowBeforeFinancing := beforeFinancing);
    (LegacyCarryOf(record), record)
  }

  function LegacyFutureYears(c: Carry, year: int, p: LegacyParams): seq<LegacyRecord>
    requires year >= 2
    decreases p.calculationPeriod - year + 1
  {
    if year > p.calculationPeriod then []
    else
      var next := LegacyStep(c, year, p);
      [next.1] + LegacyFutureYears(next.0, year + 1, p)
  }

  lemma LegacyFutureYearsUnfold(c: Carry, year: int, p: LegacyParams)
    requires 2 <= year <= p.calculationPeriod
    ensures LegacyFutureYears(c, year, p)
         == [LegacyStep(c, year, p).1] + LegacyFutureYears(LegacyStep(c, year, p).0, year + 1, p)
  {
  }

  function LegacyProjection(p: LegacyParams): seq<LegacyRecord>
  {
    var first := LegacyFirstYear(p);
    [first.1] + LegacyFutureYears(first.0, 2, p)
  }

  lemma {:induction false} LegacyFutureYearsLength(c: Carry, year: int, p: LegacyParams)
    requires year >= 2
    ensures |LegacyFutureYears(c, year, p)| == if year > p.calculationPeriod then 0 else p.calculationPeriod - year + 1
    decreases p.calculationPeriod - year + 1
  {
    if year <= p.calculationPeriod {
      var next := LegacyStep(c, year, p);
      LegacyFutureYearsLength(next.0, year + 1, p);
    }
  }

  /**
   * The records of `s`, taken as years `year`, `year + 1`, ..., are valued
   * at the price compounded once per year since year 1, and carry the
   * initial equity of the set-up.
   */
  ghost predicate ValuedFrom(s: seq<LegacyRecord>, year: int, p: LegacyParams)
    requires year >= 1
  {
    forall j :: 0 <= j < |s| ==>
      && s[j].propertyValue == p.purchasePrice * Pow(1.0 + p.appreciationRate, year + j - 1)
      && s[j].initialEquity == LegacyInitialEquity(p)
  }

  lemma LegacyFirstValue(p: LegacyParams)
    ensures ValuedFrom([LegacyFirstYear(p).1], 1, p)
  {
    assert Pow(1.0 + p.appreciationRate, 0) == 1.0;
  }

  lemma LegacyStepValue(c: Carry, year: int, p: LegacyParams)
    requires year >= 2
    ensures ValuedFrom([LegacyStep(c, year, p).1], year, p)
  {
  }

  lemma ValuedCons(x: seq<LegacyRecord>, rest: seq<LegacyRecord>, year: int, p: LegacyParams)
    requires year >= 1 && |x| == 1
    requires ValuedFrom(x, year, p) && ValuedFrom(rest, year + 1, p)
    ensures ValuedFrom(x + rest, year, p)
  {
    var s := x + rest;
    forall j | 1 <= j < |s|
      ensures s[j].propertyValue == p.purchasePrice * Pow(1.0 + p.appreciationRate, year + j - 1)
      ensures s[j].initialEquity == LegacyInitialEquity(p)
    {
      assert s[j] == rest[j - 1];
    }
  }

  lemma {:induction false} LegacyFutureValues(c: Carry, year: int, p: LegacyParams)
    requires year >= 2
    ensures ValuedFrom(LegacyFutureYears(c, year, p), year, p)
    decreases p.calculationPeriod - year + 1
  {
    if year <= p.calculationPeriod {
      var next := LegacyStep(c, year, p);
      LegacyStepValue(c, year, p);
      LegacyFutureValues(next.0, year + 1, p);
      ValuedCons([next.1], LegacyFutureYears(next.0, year + 1, p), year, p);
    }
  }

  /**
   * Legacy record k (year k + 1) is valued at the purchase price
   * compounded k times by the appreciation rate, and every record carries
   * the down payment (loan) or the bare price (cash) as initial equity.
   */
  lemma LegacyValues(p: LegacyParams, k: int)
    requires 0 <= k < |LegacyProjection(p)|
    ensures LegacyProjection(p)[k].propertyValue == p.purchasePrice * Pow(1.0 + p.appreciationRate, k)
    ensures LegacyProjection(p)[k].initialEquity == (if p.isLoan then p.downPayment else p.purchasePrice)
  {
    var first := LegacyFirstYear(p);
    LegacyFirstValue(p);
    LegacyFutureValues(first.0, 2, p);
    ValuedCons([first.1], LegacyFutureYears(first.0, 2, p), 1, p);
    assert ValuedFrom(LegacyProjection(p), 1, p);
  }

  datatype LegacyCashflowOutput = LegacyCashflowOutput(results: CalculationResults, yearlyData: seq<LegacyRecord>)

  /**
   * The legacy `calculateCashflow`: the projection and the results for the
   * summary, read at index N - 1 of the chart series, which exists only for
   * a period of at least one year.
   */
  function LegacyCalculateCashflow(purchase: LegacyPurchaseData, ongoing: LegacyOngoingData, input: LegacyCashflowInput): (r: Result<LegacyCashflowOutput>)
    ensures r.Err? <==> input.calculationPeriod < 1
    ensures r.Err? ==> r.error == PeriodBelowOne
    ensures r.Ok? ==>
              var out := r.value;
              var n := input.calculationPeriod;
              && |out.yearlyData| == n
              && out.results.finalEquity == out.yearlyData[n - 1].equity
              && out.results.finalPropertyValue == out.yearlyData[n - 1].propertyValue
              && out.results.remainingLoan == out.yearlyData[n - 1].loanBalance
              && out.results.monthlyCashflow * 12.0 == out.yearlyData[0].cashflow
              && out.results.initialEquity == (if IsLoan(input.financingType) then input.downPayment else purchase.totalCost)
              && out.results.monthlyPayment * 12.0 == out.results.annuity
              && out.results.totalCost == purchase.totalCost
              && out.results.downPayment == input.downPayment
              && out.results.loanAmount
                 == (if IsLoan(input.financingType) then purchase.totalCost - input.downPayment else 0.0)
              && out.results.annuity * 100.0
                 == out.results.loanAmount * (input.interestRate + input.repaymentRate)
  {
    if input.calculationPeriod < 1 then Err(PeriodBelowOne)
    else
      var p := LegacyMakeParams(purchase, ongoing, input);
      var yearlyData := LegacyProjection(p);
      LegacyFutureYearsLength(LegacyFirstYear(p).0, 2, p);
      var n := input.calculationPeriod;
      var results := CalculationResults(
        purchase.totalCost, input.downPayment, p.loanAmount, p.annuity, p.annuity / 12.0,
        yearlyData[0].cashflow / 12.0,
        yearlyData[n - 1].propertyValue, yearlyData[n - 1].loanBalance, yearlyData[n - 1].equity,
        if p.isLoan then input.downPayment else purchase.totalCost);
      Ok(LegacyCashflowOutput(results, yearlyData))
  }
}
