/**
 * Where the legacy single-file calculator and the modular one agree and
 * where they part. With the broker switch off, a maintenance reserve
 * entered as rate times floor area, no church tax and a non-married
 * filer, the modular pipeline reproduces every legacy year record and the
 * legacy results exactly; church tax, the broker deduction and the reserve
 * input are where they diverge.
 */
module LegacyEquivalence {
  import opened Numerics
  import opened Results
  import opened TaxCalculator
  import opened PropertyCalculator
  import opened CashflowCalculator
  import opened CashflowProperties
  import opened LegacyCalculator

  // ---------------------------------------------------------------------
  // Tax, purchase and ongoing costs
  // ---------------------------------------------------------------------

  /** The legacy tariff is the modular one for a single filer, for every income. */
  lemma LegacyTaxIsSingle(income: real)
    ensures LegacyIncomeTax(income) == IncomeTax(income, "single")
  {
  }

  /** The modular purchase form a legacy one stands for: the broker switch is off. */
  function ModularPurchaseInput(input: LegacyPurchaseInput): PurchaseInput
  {
    PurchaseInput(
      input.purchasePrice, input.transferTaxRate, input.notaryRate, input.brokerRate, false,
      input.landValue, input.buildingValue, input.furnitureValue,
      input.maintenanceCost, input.maintenanceDistribution)
  }

  /** The fields the two purchase records share hold the same values. */
  ghost predicate PurchaseMatches(d: PurchaseData, l: LegacyPurchaseData)
  {
    && d.purchasePrice == l.purchasePrice && d.transferTax == l.transferTax
    && d.notaryCosts == l.notaryCosts && d.brokerFee == l.brokerFee
    && d.totalExtra == l.totalExtra && d.totalCost == l.totalCost
    && d.landValue == l.landValue && d.buildingValue == l.buildingValue
    && d.maintenanceCost == l.maintenanceCost && d.furnitureValue == l.furnitureValue
    && d.annualMaintenance == l.annualMaintenance && d.maintenanceDistribution == l.maintenanceDistribution
    && d.landValuePercentage == l.landValuePercentage && d.buildingValuePercentage == l.buildingValuePercentage
  }

  /**
   * Both purchase calculations fail on the same inputs and otherwise agree
   * on every shared field; the modular one deducts nothing in year 1 when
   * the broker switch is off, and its warning is the legacy warning.
   */
  lemma PurchaseAgrees(input: LegacyPurchaseInput)
    ensures CalculatePurchase(ModularPurchaseInput(input)).Ok? <==> LegacyPurchase(input).Ok?
    ensures LegacyPurchase(input).Ok? ==>
              && PurchaseMatches(CalculatePurchase(ModularPurchaseInput(input)).value, LegacyPurchase(input).value)
              && !CalculatePurchase(ModularPurchaseInput(input)).value.brokerAsConsulting
              && CalculatePurchase(ModularPurchaseInput(input)).value.firstYearDeductibleCosts == 0.0
              && LegacyPurchase(input).value.allocationWarning
                 == AllocationWarning(input.purchasePrice, input.landValue, input.buildingValue, input.furnitureValue)
  {
  }

  /** The modular cost form a legacy one stands for: the reserve entered as rate times area. */
  function ModularOngoingInput(input: LegacyOngoingInput): OngoingInput
  {
    OngoingInput(
      input.monthlyRent, input.vacancyRate, input.propertyTax, input.managementFee,
      input.maintenanceRate * input.propertySize, input.insurance)
  }

  ghost predicate OngoingMatches(d: OngoingData, l: LegacyOngoingData)
  {
    && d.monthlyRent == l.monthlyRent && d.annualRent == l.annualRent
    && d.vacancyRate == l.vacancyRate && d.effectiveRent == l.effectiveRent
    && d.propertyTax == l.propertyTax && d.managementFee == l.managementFee
    && d.maintenanceCost == l.maintenanceCost && d.insurance == l.insurance
    && d.totalOngoing == l.totalOngoing
  }

  lemma OngoingAgrees(input: LegacyOngoingInput)
    ensures OngoingMatches(CalculateOngoing(ModularOngoingInput(input)), LegacyOngoing(input))
  {
  }

  /**
   * The same number typed into the maintenance-reserve field gives the
   * same reserve in both versions only when it is zero or the floor area
   * is exactly one square metre.
   */
  lemma OngoingDiverges(input: LegacyOngoingInput)
    ensures var modular := CalculateOngoing(OngoingInput(
              input.monthlyRent, input.vacancyRate, input.propertyTax, input.managementFee,
              input.maintenanceRate, input.insurance));
            var same := modular.maintenanceCost == LegacyOngoing(input).maintenanceCost;
            same <==> input.maintenanceRate == 0.0 || input.propertySize == 1.0
  {
    var rate, size := input.maintenanceRate, input.propertySize;
    assert rate - rate * size == rate * (1.0 - size);
    if rate == rate * size && rate != 0.0 {
      CancelFactor(1.0, size, rate);
    }
  }

  // ---------------------------------------------------------------------
  // The projection
  // ---------------------------------------------------------------------

  /** The constants of a modular projection, as the legacy loop holds them. */
  function ToLegacy(p: Params): LegacyParams
  {
    LegacyParams(
      p.purchase.purchasePrice, p.purchase.annualMaintenance, p.purchase.maintenanceDistribution,
      p.ongoing.effectiveRent, p.ongoing.totalOngoing, p.ongoing.vacancyRate,
      p.ongoing.propertyTax, p.ongoing.managementFee, p.ongoing.maintenanceCost, p.ongoing.insurance,
      p.taxInfo.annualIncome, p.isLoan, p.downPayment, p.interestRate, p.loanAmount, p.annuity,
      p.buildingDepreciation, p.furnitureDepreciation, p.appreciationRate, p.rentIncreaseRate,
      p.calculationPeriod, p.previousTax)
  }

  /**
   * A modular parameter set the legacy loop can reproduce: cash financing
   * carries no loan, the filer is not married, no broker cost is deducted
   * and no church tax is due.
   */
  ghost predicate Comparable(p: Params)
  {
    && Consistent(p)
    && !IsMarried(p.taxInfo.taxStatus)
    && p.brokerConsultingCosts == 0.0
    && !p.taxInfo.hasChurchTax
  }

  /** A modular year record with its church-tax and broker fields dropped. */
  function Common(r: YearRecord): LegacyRecord
  {
    LegacyRecord(
      r.year, r.rent, r.ongoingCosts, r.interest, r.principal, r.payment, r.loanBalance,
      r.buildingDepreciation, r.furnitureDepreciation, r.maintenanceDeduction, r.totalDepreciation,
      r.taxableIncome, r.previousIncome, r.previousTax, r.newTotalIncome, r.newTax, r.taxSavings,
      r.cashflow, r.cashflowBeforeTax, r.propertyValue, r.equity, r.initialEquity,
      r.vacancyRate, r.propertyTax, r.managementFee, r.maintenanceReserve, r.insurance,
      r.cashflowBeforeFinancing)
  }

  function CommonAll(s: seq<YearRecord>): (r: seq<LegacyRecord>)
    ensures |r| == |s|
    ensures forall i :: 0 <= i < |s| ==> r[i] == Common(s[i])
  {
    if s == [] then [] else [Common(s[0])] + CommonAll(s[1..])
  }

  lemma CommonAllCons(r: YearRecord, s: seq<YearRecord>)
    ensures CommonAll([r] + s) == [Common(r)] + CommonAll(s)
  {
    assert ([r] + s)[1..] == s;
  }

  lemma ConsAgrees(r: YearRecord, l: LegacyRecord, s: seq<YearRecord>, t: seq<LegacyRecord>)
    requires Common(r) == l && CommonAll(s) == t
    ensures CommonAll([r] + s) == [l] + t
  {
    CommonAllCons(r, s);
  }

  /** What every running total of a projection satisfies: no negative balance, and none at all for cash. */
  ghost predicate Settled(c: Carry, p: Params)
  {
    c.loanBalance >= 0.0 && (!p.isLoan ==> c.loanBalance == 0.0)
  }

  /**
   * The legacy loop zeroes the loan fields whenever no loan is being
   * repaid, where the modular loop keeps the balance; on every balance a
   * projection can reach the two coincide.
   */
  lemma LegacyResetIsNoOp(isLoan: bool, balance: real, annuity: real, interestRate: real)
    requires balance >= 0.0
    requires !isLoan ==> balance == 0.0
    ensures LegacyFinancingStep(isLoan, balance, annuity, interestRate)
         == FinancingStep(isLoan, balance, annuity, interestRate)
  {
  }

  /**
   * The legacy saving is income tax alone; the modular saving adds the
   * church-tax share. With the same taxable result the new income tax is
   * the same, and the modular saving is the legacy one plus the church tax
   * that the legacy saving would itself carry.
   */
  lemma TaxSavingsDiverge(taxableIncome: real, p: Params)
    requires !IsMarried(p.taxInfo.taxStatus)
    ensures TaxStep(taxableIncome, p).newTax == LegacyTaxStep(taxableIncome, ToLegacy(p)).newTax
    ensures TaxStep(taxableIncome, p).taxSavings
         == LegacyTaxStep(taxableIncome, ToLegacy(p)).taxSavings
            + ChurchTax(LegacyTaxStep(taxableIncome, ToLegacy(p)).taxSavings, p.taxInfo.hasChurchTax, p.taxInfo.churchTaxRate)
  {
    var t := TaxStep(taxableIncome, p);
    var l := LegacyTaxStep(taxableIncome, ToLegacy(p));
    assert l.newTotalIncome == t.newTotalIncome;
    OtherStatusIsSingle(t.newTotalIncome, p.taxInfo.taxStatus);
    LegacyTaxIsSingle(t.newTotalIncome);
    assert l.newTax == t.newTax;
    assert l.taxSavings == (p.previousTax - t.newTax) as real;
    SavingsShare(p.previousTax as real, t.newTax as real, p.taxInfo.hasChurchTax, p.taxInfo.churchTaxRate,
                 t.taxSavings, l.taxSavings);
  }

  /** The church-tax share scales the income-tax saving. */
  lemma SavingsShare(previousTax: real, newTax: real, hasChurchTax: bool, churchTaxRate: real,
                     savings: real, legacySavings: real)
    requires savings == (previousTax - newTax)
                        + (ChurchTax(previousTax, hasChurchTax, churchTaxRate) - ChurchTax(newTax, hasChurchTax, churchTaxRate))
    requires legacySavings == previousTax - newTax
    ensures savings == legacySavings + ChurchTax(legacySavings, hasChurchTax, churchTaxRate)
  {
    ChurchTaxSavingsProportional(previousTax, newTax, hasChurchTax, churchTaxRate);
  }

  /** Without church tax the two tax steps coincide on every figure. */
  lemma TaxAgrees(taxableIncome: real, p: Params)
    requires !IsMarried(p.taxInfo.taxStatus) && !p.taxInfo.hasChurchTax
    ensures TaxStep(taxableIncome, p).newTotalIncome == LegacyTaxStep(taxableIncome, ToLegacy(p)).newTotalIncome
    ensures TaxStep(taxableIncome, p).newTax == LegacyTaxStep(taxableIncome, ToLegacy(p)).newTax
    ensures TaxStep(taxableIncome, p).taxSavings == LegacyTaxStep(taxableIncome, ToLegacy(p)).taxSavings
  {
    var t := TaxStep(taxableIncome, p);
    OtherStatusIsSingle(t.newTotalIncome, p.taxInfo.taxStatus);
    LegacyTaxIsSingle(t.newTotalIncome);
  }

  lemma FirstAgrees(p: Params)
    requires Comparable(p)
    ensures Common(FirstYear(p).1) == LegacyFirstYear(ToLegacy(p)).1
    ensures FirstYear(p).0 == LegacyFirstYear(ToLegacy(p)).0
    ensures Settled(FirstYear(p).0, p)
  {
    TaxAgrees(FirstYear(p).1.taxableIncome, p);
  }

  lemma StepAgrees(c: Carry, year: int, p: Params)
    requires year >= 2
    requires Comparable(p)
    requires Settled(c, p)
    ensures Common(StepYear(c, year, p).1) == LegacyStep(c, year, ToLegacy(p)).1
    ensures StepYear(c, year, p).0 == LegacyStep(c, year, ToLegacy(p)).0
    ensures Settled(StepYear(c, year, p).0, p)
  {
    StepRecordAgrees(c, year, p);
    StepYearCarries(c, year, p);
  }

  lemma StepRecordAgrees(c: Carry, year: int, p: Params)
    requires year >= 2
    requires Comparable(p)
    requires Settled(c, p)
    ensures Common(StepYear(c, year, p).1) == LegacyStep(c, year, ToLegacy(p)).1
    ensures StepYear(c, year, p).1.loanBalance >= 0.0
    ensures !p.isLoan ==> StepYear(c, year, p).1.loanBalance == 0.0
  {
    StepLoanAgrees(c, year, p);
    StepFiguresAgree(c, year, p);
    StepTaxAgrees(c, year, p);
  }

  /** The financing fields of one step. */
  lemma StepLoanAgrees(c: Carry, year: int, p: Params)
    requires year >= 2
    requires Comparable(p)
    requires Settled(c, p)
    ensures var m, l := StepYear(c, year, p).1, LegacyStep(c, year, ToLegacy(p)).1;
            && m.interest == l.interest && m.principal == l.principal
            && m.payment == l.payment && m.loanBalance == l.loanBalance
            && m.loanBalance >= 0.0 && (!p.isLoan ==> m.loanBalance == 0.0)
  {
    LegacyResetIsNoOp(p.isLoan, c.loanBalance, p.annuity, p.interestRate);
  }

  /** The escalated, deducted and valued fields of one step, given that the financing agrees. */
  lemma StepFiguresAgree(c: Carry, year: int, p: Params)
    requires year >= 2
    requires Comparable(p)
    requires var m, l := StepYear(c, year, p).1, LegacyStep(c, year, ToLegacy(p)).1;
             m.principal == l.principal && m.payment == l.payment && m.loanBalance == l.loanBalance
    ensures var m, l := StepYear(c, year, p).1, LegacyStep(c, year, ToLegacy(p)).1;
            && m.taxableIncome == l.taxableIncome
            && m.cashflowBeforeTax == l.cashflowBeforeTax
            && m.equity == l.equity
  {
  }

  /** The tax fields of one step, given that the taxable results agree. */
  lemma StepTaxAgrees(c: Carry, year: int, p: Params)
    requires year >= 2
    requires Comparable(p)
    requires StepYear(c, year, p).1.taxableIncome == LegacyStep(c, year, ToLegacy(p)).1.taxableIncome
    requires StepYear(c, year, p).1.cashflowBeforeTax == LegacyStep(c, year, ToLegacy(p)).1.cashflowBeforeTax
    ensures var m, l := StepYear(c, year, p).1, LegacyStep(c, year, ToLegacy(p)).1;
            && m.newTotalIncome == l.newTotalIncome && m.newTax == l.newTax
            && m.taxSavings == l.taxSavings && m.cashflow == l.cashflow
  {
    TaxAgrees(StepYear(c, year, p).1.taxableIncome, p);
  }

  lemma {:induction false} FutureAgrees(c: Carry, year: int, p: Params)
    requires year >= 2
    requires Comparable(p)
    requires Settled(c, p)
    ensures CommonAll(FutureYears(c, year, p)) == LegacyFutureYears(c, year, ToLegacy(p))
    decreases p.calculationPeriod - year + 1
  {
    if year <= p.calculationPeriod {
      StepAgrees(c, year, p);
      FutureAgrees(StepYear(c, year, p).0, year + 1, p);
      FutureStepAgrees(c, year, p);
    }
  }

  /** One year of the induction: agreement after this year extends to agreement from it. */
  lemma FutureStepAgrees(c: Carry, year: int, p: Params)
    requires 2 <= year <= p.calculationPeriod
    requires Comparable(p)
    requires Settled(c, p)
    requires CommonAll(FutureYears(StepYear(c, year, p).0, year + 1, p))
          == LegacyFutureYears(StepYear(c, year, p).0, year + 1, ToLegacy(p))
    ensures CommonAll(FutureYears(c, year, p)) == LegacyFutureYears(c, year, ToLegacy(p))
  {
    var next, legacy := StepYear(c, year, p), LegacyStep(c, year, ToLegacy(p));
    StepAgrees(c, year, p);
    FutureYearsUnfold(c, year, p);
    LegacyFutureYearsUnfold(c, year, ToLegacy(p));
    ConsAgrees(next.1, legacy.1, FutureYears(next.0, year + 1, p), LegacyFutureYears(legacy.0, year + 1, ToLegacy(p)));
  }

  /**
   * Without church tax, for a non-married filer and with no broker
   * deduction, the modular projection is the legacy projection record for
   * record, once the modular-only fields are dropped.
   */
  lemma ProjectionAgrees(p: Params)
    requires Comparable(p)
    ensures CommonAll(Projection(p)) == LegacyProjection(ToLegacy(p))
  {
    FirstAgrees(p);
    FutureAgrees(FirstYear(p).0, 2, p);
    assert Projection(p)[1..] == FutureYears(FirstYear(p).0, 2, p);
  }

  /** The modular financing and projection form a legacy one stands for. */
  function ModularCashflowInput(input: LegacyCashflowInput): CashflowInput
  {
    CashflowInput(
      input.financingType, input.downPayment, input.interestRate, input.repaymentRate,
      input.depreciationRate, input.furnitureDepreciationRate,
      input.appreciationRate, input.rentIncreaseRate, input.calculationPeriod)
  }

  /**
   * Running the modular set-up on the corresponding modular forms
   * (`ModularPurchaseInput`, `ModularOngoingInput`, `ModularCashflowInput`), for any
   * non-married status and without church tax, gives parameters that
   * correspond to the legacy ones.
   */
  lemma MakeParamsCorrespond(purchase: LegacyPurchaseInput, ongoing: LegacyOngoingInput, input: LegacyCashflowInput,
                             taxStatus: string, churchTaxRate: real)
    requires LegacyPurchase(purchase).Ok?
    requires taxStatus != "married"
    ensures CalculatePurchase(ModularPurchaseInput(purchase)).Ok?
    ensures var p := MakeParams(CalculatePurchase(ModularPurchaseInput(purchase)).value,
                                CalculateOngoing(ModularOngoingInput(ongoing)),
                                CalculateTaxInfo(input.annualIncome, taxStatus, false, churchTaxRate),
                                ModularCashflowInput(input));
            && Comparable(p)
            && ToLegacy(p) == LegacyMakeParams(LegacyPurchase(purchase).value, LegacyOngoing(ongoing), input)
  {
    PurchaseAgrees(purchase);
    OngoingAgrees(ongoing);
    ParamsCorrespond(CalculatePurchase(ModularPurchaseInput(purchase)).value, LegacyPurchase(purchase).value,
                     CalculateOngoing(ModularOngoingInput(ongoing)), LegacyOngoing(ongoing),
                     input, taxStatus, churchTaxRate);
  }

  /** The set-up step on matching purchase and cost records. */
  lemma ParamsCorrespond(d: PurchaseData, ld: LegacyPurchaseData, o: OngoingData, lo: LegacyOngoingData,
                         input: LegacyCashflowInput, taxStatus: string, churchTaxRate: real)
    requires PurchaseMatches(d, ld) && !d.brokerAsConsulting
    requires OngoingMatches(o, lo)
    requires taxStatus != "married"
    ensures var p := MakeParams(d, o, CalculateTaxInfo(input.annualIncome, taxStatus, false, churchTaxRate),
                                ModularCashflowInput(input));
            && Comparable(p)
            && ToLegacy(p) == LegacyMakeParams(ld, lo, input)
  {
    OtherStatusIsSingle(input.annualIncome, taxStatus);
    LegacyTaxIsSingle(input.annualIncome);
  }

  /**
   * The whole legacy `calculateCashflow` is the modular one run on the
   * corresponding modular forms: both fail for the same periods, and otherwise the
   * results record is identical and the legacy year records are the
   * modular ones without their church-tax and broker fields.
   */
  lemma CashflowAgrees(purchase: LegacyPurchaseInput, ongoing: LegacyOngoingInput, input: LegacyCashflowInput,
                       taxStatus: string, churchTaxRate: real)
    requires LegacyPurchase(purchase).Ok?
    requires taxStatus != "married"
    ensures CalculatePurchase(ModularPurchaseInput(purchase)).Ok?
    ensures var modular := CalculateCashflow(
              CalculatePurchase(ModularPurchaseInput(purchase)).value,
              CalculateOngoing(ModularOngoingInput(ongoing)),
              CalculateTaxInfo(input.annualIncome, taxStatus, false, churchTaxRate),
              ModularCashflowInput(input));
            var legacy := LegacyCalculateCashflow(LegacyPurchase(purchase).value, LegacyOngoing(ongoing), input);
            && (modular.Ok? <==> legacy.Ok?)
            && (modular.Ok? ==>
                  && modular.value.results == legacy.value.results
                  && CommonAll(modular.value.yearlyData) == legacy.value.yearlyData)
  {
    MakeParamsCorrespond(purchase, ongoing, input, taxStatus, churchTaxRate);
    PurchaseAgrees(purchase);
    var d := CalculatePurchase(ModularPurchaseInput(purchase)).value;
    OutputsAgree(d, CalculateOngoing(ModularOngoingInput(ongoing)),
                 CalculateTaxInfo(input.annualIncome, taxStatus, false, churchTaxRate),
                 LegacyPurchase(purchase).value, LegacyOngoing(ongoing), input);
  }

  /** `calculateCashflow` of both versions on set-ups that correspond. */
  lemma OutputsAgree(d: PurchaseData, o: OngoingData, info: TaxInfo,
                     ld: LegacyPurchaseData, lo: LegacyOngoingData, input: LegacyCashflowInput)
    requires d.totalCost == ld.totalCost
    requires Comparable(MakeParams(d, o, info, ModularCashflowInput(input)))
    requires ToLegacy(MakeParams(d, o, info, ModularCashflowInput(input))) == LegacyMakeParams(ld, lo, input)
    ensures var modular := CalculateCashflow(d, o, info, ModularCashflowInput(input));
            var legacy := LegacyCalculateCashflow(ld, lo, input);
            && (modular.Ok? <==> legacy.Ok?)
            && (modular.Ok? ==>
                  && modular.value.results == legacy.value.results
                  && CommonAll(modular.value.yearlyData) == legacy.value.yearlyData)
  {
    var p := MakeParams(d, o, info, ModularCashflowInput(input));
    ProjectionAgrees(p);
    var modular := CalculateCashflow(d, o, info, ModularCashflowInput(input));
    var legacy := LegacyCalculateCashflow(ld, lo, input);
    if modular.Ok? {
      var n := input.calculationPeriod;
      assert CommonAll(modular.value.yearlyData)[n - 1] == Common(modular.value.yearlyData[n - 1]);
      assert CommonAll(modular.value.yearlyData)[0] == Common(modular.value.yearlyData[0]);
    }
  }

  /**
   * The cash-financing split holds in the legacy version too: the summary
   * starts from the total cost, every year record from the bare price.
   */
  lemma LegacyInitialEquitySplit(purchase: LegacyPurchaseInput, ongoing: LegacyOngoingInput, input: LegacyCashflowInput)
    requires LegacyPurchase(purchase).Ok?
    requires input.calculationPeriod >= 1
    requires !IsLoan(input.financingType)
    ensures var out := LegacyCalculateCashflow(LegacyPurchase(purchase).value, LegacyOngoing(ongoing), input).value;
            && out.results.initialEquity == LegacyPurchase(purchase).value.totalCost
            && forall k :: 0 <= k < |out.yearlyData| ==>
                 out.yearlyData[k].initialEquity == LegacyPurchase(purchase).value.purchasePrice
  {
    CashflowAgrees(purchase, ongoing, input, "single", 0.0);
    var d := CalculatePurchase(ModularPurchaseInput(purchase)).value;
    var o := CalculateOngoing(ModularOngoingInput(ongoing));
    var info := CalculateTaxInfo(input.annualIncome, "single", false, 0.0);
    InitialEquitySplit(d, o, info, ModularCashflowInput(input));
    PurchaseAgrees(purchase);
  }
}
