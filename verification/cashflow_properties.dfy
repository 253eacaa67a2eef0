/**
 * What the projection of cashflow-calculator.js guarantees about its
 * records: the structure of the fold, the per-year identities (principal
 * cancels out of the taxable result), compounding escalation in closed
 * form, the behaviour of the loan balance, and cash financing.
 */
module CashflowProperties {
  import opened Numerics
  import opened TaxCalculator
  import opened PropertyCalculator
  import opened CashflowCalculator

  /**
   * What the set-up of `calculateCashflow` guarantees about its constants
   * when the year-1 baseline comes from `calculateOngoing`.
   */
  ghost predicate Sound(p: Params)
  {
    && Consistent(p)
    && p.annuity == p.loanAmount * (p.interestRate + p.repaymentRate)
    && p.ongoing.totalOngoing
       == p.ongoing.propertyTax + p.ongoing.managementFee + p.ongoing.maintenanceCost + p.ongoing.insurance
  }

  lemma MakeParamsSound(purchase: PurchaseData, input: OngoingInput, taxInfo: TaxInfo, cashflowInput: CashflowInput)
    ensures Sound(MakeParams(purchase, CalculateOngoing(input), taxInfo, cashflowInput))
  {
  }

  // ---------------------------------------------------------------------
  // The shape of the fold
  // ---------------------------------------------------------------------

  lemma FirstYearCarries(p: Params)
    ensures FirstYear(p).0 == CarryOf(FirstYear(p).1)
  {
  }

  /** Record `j` of `ys` is the step of year `year + j` from the totals left by record `j - 1` (or `c`). */
  ghost predicate LinkFrom(ys: seq<YearRecord>, c: Carry, year: int, p: Params, j: int)
    requires year >= 2 && 0 <= j < |ys|
  {
    ys[j] == StepYear(if j == 0 then c else CarryOf(ys[j - 1]), year + j, p).1
  }

  /**
   * The records of `ys` are the steps of the years `year`, `year + 1`, ...
   * starting from the running totals `c`, each year stepped from the
   * totals of the record before it.
   */
  ghost predicate ChainedFrom(ys: seq<YearRecord>, c: Carry, year: int, p: Params)
    requires year >= 2
  {
    forall j :: 0 <= j < |ys| ==> LinkFrom(ys, c, year, p, j)
  }

  lemma ChainedCons(x: YearRecord, tail: seq<YearRecord>, c: Carry, year: int, p: Params)
    requires year >= 2
    requires x == StepYear(c, year, p).1
    requires ChainedFrom(tail, CarryOf(x), year + 1, p)
    ensures ChainedFrom([x] + tail, c, year, p)
  {
    var ys := [x] + tail;
    forall j | 0 <= j < |ys|
      ensures LinkFrom(ys, c, year, p, j)
    {
      if j > 0 {
        assert LinkFrom(tail, CarryOf(x), year + 1, p, j - 1);
        assert ys[j] == tail[j - 1];
        assert ys[j - 1] == if j == 1 then x else tail[j - 2];
      }
    }
  }

  lemma {:induction false} FutureYearsChained(c: Carry, year: int, p: Params)
    requires year >= 2
    ensures ChainedFrom(FutureYears(c, year, p), c, year, p)
    decreases p.calculationPeriod - year + 1
  {
    if year <= p.calculationPeriod {
      FutureYearsUnfold(c, year, p);
      StepYearCarries(c, year, p);
      var next := StepYear(c, year, p);
      FutureYearsChained(next.0, year + 1, p);
      ChainedCons(next.1, FutureYears(next.0, year + 1, p), c, year, p);
    }
  }

  /**
   * Record `k` of `ys` is year 1 for k = 0, and otherwise the step of year
   * `k + 1` from the running totals left by record `k - 1`.
   */
  ghost predicate Link(ys: seq<YearRecord>, p: Params, k: int)
    requires 0 <= k < |ys|
  {
    if k == 0 then ys[0] == FirstYear(p).1 else ys[k] == StepYear(CarryOf(ys[k - 1]), k + 1, p).1
  }

  /**
   * A sequence of records chained the way the fold chains them: year 1
   * first, then each year stepped from the running totals of the one
   * before. The projection is the chained sequence of its length.
   */
  ghost predicate Chained(ys: seq<YearRecord>, p: Params)
  {
    && |ys| >= 1
    && forall k :: 0 <= k < |ys| ==> Link(ys, p, k)
  }

  lemma ProjectionChained(p: Params)
    ensures Chained(Projection(p), p)
    ensures |Projection(p)| == if p.calculationPeriod < 1 then 1 else p.calculationPeriod
  {
    ProjectionYears(p);
    FirstYearCarries(p);
    var first := FirstYear(p);
    var ys := Projection(p);
    var tail := FutureYears(first.0, 2, p);
    FutureYearsChained(first.0, 2, p);
    assert ys == [first.1] + tail;
    forall k | 0 <= k < |ys|
      ensures Link(ys, p, k)
    {
      if k > 0 {
        assert LinkFrom(tail, first.0, 2, p, k - 1);
        assert ys[k] == tail[k - 1];
        assert ys[k - 1] == if k == 1 then first.1 else tail[k - 2];
      }
    }
  }

  lemma {:induction false} ChainedAgree(xs: seq<YearRecord>, ys: seq<YearRecord>, p: Params, k: int)
    requires Chained(xs, p) && Chained(ys, p)
    requires 0 <= k < |xs| && k < |ys|
    ensures xs[k] == ys[k]
  {
    if k > 0 {
      ChainedAgree(xs, ys, p, k - 1);
    }
    assert Link(xs, p, k) && Link(ys, p, k);
  }

  /** The chain is determined by its length: it is the projection. */
  lemma ChainedIsProjection(ys: seq<YearRecord>, p: Params)
    requires Chained(ys, p)
    requires |ys| == |Projection(p)|
    ensures ys == Projection(p)
  {
    ProjectionChained(p);
    forall k | 0 <= k < |ys|
      ensures ys[k] == Projection(p)[k]
    {
      ChainedAgree(ys, Projection(p), p, k);
    }
  }

  // ---------------------------------------------------------------------
  // Per-year identities
  // ---------------------------------------------------------------------

  /** The cashflow waterfall of one record; principal cancels out of the taxable result. */
  ghost predicate Waterfall(r: YearRecord, p: Params)
  {
    && r.ongoingCosts == r.propertyTax + r.managementFee + r.maintenanceReserve + r.insurance
    && r.cashflowBeforeFinancing == r.rent - r.ongoingCosts
    && r.payment == r.interest + r.principal
    && r.cashflowBeforeTax == r.cashflowBeforeFinancing - r.payment
    && r.taxableIncome
       == r.rent - r.ongoingCosts - r.interest - r.buildingDepreciation - r.furnitureDepreciation
          - r.maintenanceDeduction - r.firstYearDeductibleCosts
    && r.totalDepreciation
       == r.buildingDepreciation + r.furnitureDepreciation + r.maintenanceDeduction + r.firstYearDeductibleCosts
    && r.buildingDepreciation == p.buildingDepreciation
    && r.furnitureDepreciation == p.furnitureDepreciation
  }

  /** The tax figures of one record against the fixed prior tax. */
  ghost predicate TaxFigures(r: YearRecord, p: Params)
  {
    var info := p.taxInfo;
    && r.previousIncome == info.annualIncome
    && r.previousTax == p.previousTax
    && r.newTotalIncome == Max(0.0, info.annualIncome + r.taxableIncome)
    && r.newTax == IncomeTax(r.newTotalIncome, info.taxStatus)
    && r.previousChurchTax == ChurchTax(r.previousTax as real, info.hasChurchTax, info.churchTaxRate)
    && r.newChurchTax == ChurchTax(r.newTax as real, info.hasChurchTax, info.churchTaxRate)
    && r.taxSavings == (r.previousTax - r.newTax) as real + (r.previousChurchTax - r.newChurchTax)
    && r.cashflow == r.cashflowBeforeTax + r.taxSavings
  }

  /** Value and equity of one record; the year is at least 1. */
  ghost predicate ValueFigures(r: YearRecord, p: Params)
  {
    && r.year >= 1
    && r.propertyValue == p.purchase.purchasePrice * Pow(1.0 + p.appreciationRate, r.year - 1)
    && r.equity == r.propertyValue - r.loanBalance
    && r.initialEquity == (if p.isLoan then p.downPayment else p.purchase.purchasePrice)
  }

  /** The year-dependent deductions of one record. */
  ghost predicate Deductions(r: YearRecord, p: Params)
  {
    && r.firstYearDeductibleCosts == (if r.year == 1 then p.brokerConsultingCosts else 0.0)
    && r.maintenanceDeduction
       == (if r.year == 1 || r.year <= p.purchase.maintenanceDistribution then p.purchase.annualMaintenance else 0.0)
  }

  lemma FirstYearFigures(p: Params)
    requires Sound(p)
    ensures FirstYear(p).1.year == 1
    ensures Waterfall(FirstYear(p).1, p) && TaxFigures(FirstYear(p).1, p)
    ensures ValueFigures(FirstYear(p).1, p) && Deductions(FirstYear(p).1, p)
  {
  }

  lemma StepYearFigures(c: Carry, year: int, p: Params)
    requires year >= 2
    ensures StepYear(c, year, p).1.year == year
    ensures Waterfall(StepYear(c, year, p).1, p) && TaxFigures(StepYear(c, year, p).1, p)
    ensures ValueFigures(StepYear(c, year, p).1, p) && Deductions(StepYear(c, year, p).1, p)
  {
  }

  lemma ChainedFigures(ys: seq<YearRecord>, p: Params, k: int)
    requires Sound(p) && Chained(ys, p)
    requires 0 <= k < |ys|
    ensures ys[k].year == k + 1
    ensures Waterfall(ys[k], p) && TaxFigures(ys[k], p) && ValueFigures(ys[k], p) && Deductions(ys[k], p)
  {
    assert Link(ys, p, k);
    if k == 0 {
      FirstYearFigures(p);
    } else {
      StepYearFigures(CarryOf(ys[k - 1]), k + 1, p);
    }
  }

  /** Year 1 starts from the `calculateOngoing` baseline. */
  lemma FirstLines(ys: seq<YearRecord>, p: Params)
    requires Chained(ys, p)
    ensures var r, o := ys[0], p.ongoing;
            && r.rent == o.effectiveRent && r.propertyTax == o.propertyTax && r.managementFee == o.managementFee
            && r.maintenanceReserve == o.maintenanceCost && r.insurance == o.insurance
  {
    assert Link(ys, p, 0);
  }

  /** Year 1 runs the unguarded first-year financing against the loan amount. */
  lemma FirstFinancing(ys: seq<YearRecord>, p: Params)
    requires Chained(ys, p)
    ensures var r, f := ys[0], FirstYearFinancing(p.loanAmount, p.annuity, p.interestRate);
            && r.interest == f.interest && r.principal == f.principal && r.payment == f.payment
            && r.loanBalance == f.balance
  {
    assert Link(ys, p, 0);
  }

  /** The five lines that escalate with the rent-increase rate. */
  datatype Line = Rent | PropertyTax | ManagementFee | MaintenanceReserve | Insurance

  function LineOf(r: YearRecord, line: Line): real
  {
    match line
    case Rent => r.rent
    case PropertyTax => r.propertyTax
    case ManagementFee => r.managementFee
    case MaintenanceReserve => r.maintenanceReserve
    case Insurance => r.insurance
  }

  /** The year-1 value of a line in the `calculateOngoing` baseline. */
  function BaseOf(o: OngoingData, line: Line): real
  {
    match line
    case Rent => o.effectiveRent
    case PropertyTax => o.propertyTax
    case ManagementFee => o.managementFee
    case MaintenanceReserve => o.maintenanceCost
    case Insurance => o.insurance
  }

  /** A later year escalates each line of the year before by the rent-increase rate. */
  lemma StepLine(ys: seq<YearRecord>, p: Params, k: int, line: Line)
    requires Chained(ys, p)
    requires 1 <= k < |ys|
    ensures LineOf(ys[k], line) == Grow(LineOf(ys[k - 1], line), p.rentIncreaseRate)
  {
    assert Link(ys, p, k);
  }

  /** A later year takes one financing step from the previous balance. */
  lemma StepFinancing(ys: seq<YearRecord>, p: Params, k: int)
    requires Chained(ys, p)
    requires 1 <= k < |ys|
    ensures var r, f := ys[k], FinancingStep(p.isLoan, ys[k - 1].loanBalance, p.annuity, p.interestRate);
            && r.interest == f.interest && r.principal == f.principal && r.payment == f.payment
            && r.loanBalance == f.balance
  {
    assert Link(ys, p, k);
  }

  /**
   * The cashflow waterfall of every year. Principal is part of the payment
   * but is added back for tax, so it cancels: the taxable result is rent
   * less costs, interest, depreciation, the maintenance share and (in year
   * 1 only) the broker fee booked as consulting.
   */
  lemma TaxableResult(ys: seq<YearRecord>, p: Params, k: int)
    requires Sound(p) && Chained(ys, p)
    requires 0 <= k < |ys|
    ensures var r := ys[k];
            && r.year == k + 1
            && r.ongoingCosts == r.propertyTax + r.managementFee + r.maintenanceReserve + r.insurance
            && r.cashflowBeforeFinancing == r.rent - r.ongoingCosts
            && r.payment == r.interest + r.principal
            && r.cashflowBeforeTax == r.cashflowBeforeFinancing - r.payment
            && r.taxableIncome
               == r.rent - r.ongoingCosts - r.interest - r.buildingDepreciation - r.furnitureDepreciation
                  - r.maintenanceDeduction - r.firstYearDeductibleCosts
            && r.totalDepreciation
               == r.buildingDepreciation + r.furnitureDepreciation + r.maintenanceDeduction + r.firstYearDeductibleCosts
            && r.buildingDepreciation == p.buildingDepreciation
            && r.furnitureDepreciation == p.furnitureDepreciation
  {
    ChainedFigures(ys, p, k);
  }

  /**
   * The broker fee booked as consulting is deducted in year 1 only; the
   * maintenance share is deducted in year 1 and in every later year up to
   * the distribution period, and never after it.
   */
  lemma DeductionSchedule(ys: seq<YearRecord>, p: Params, k: int)
    requires Sound(p) && Chained(ys, p)
    requires 0 <= k < |ys|
    ensures ys[k].firstYearDeductibleCosts == (if k == 0 then p.brokerConsultingCosts else 0.0)
    ensures ys[k].maintenanceDeduction
         == (if k == 0 || k + 1 <= p.purchase.maintenanceDistribution then p.purchase.annualMaintenance else 0.0)
    ensures p.purchase.maintenanceDistribution >= 1 ==>
              ys[k].maintenanceDeduction
              == (if k + 1 <= p.purchase.maintenanceDistribution then p.purchase.annualMaintenance else 0.0)
  {
    ChainedFigures(ys, p, k);
  }

  /**
   * The tax step of every year: the taxable result moves the prior income
   * (never below zero), the prior tax is the same in every record, and the
   * saving is the drop in income tax plus church tax, which church tax
   * scales by (1 + rate / 100).
   */
  lemma TaxSavingsStep(ys: seq<YearRecord>, p: Params, k: int)
    requires Sound(p) && Chained(ys, p)
    requires 0 <= k < |ys|
    ensures var r, info := ys[k], p.taxInfo;
            && r.previousIncome == info.annualIncome
            && r.previousTax == p.previousTax
            && r.newTotalIncome == Max(0.0, info.annualIncome + r.taxableIncome)
            && r.newTotalIncome >= 0.0
            && r.newTax == IncomeTax(r.newTotalIncome, info.taxStatus)
            && r.taxSavings == (r.previousTax - r.newTax) as real + (r.previousChurchTax - r.newChurchTax)
            && r.taxSavings
               == (1.0 + (if info.hasChurchTax then info.churchTaxRate / 100.0 else 0.0))
                  * (r.previousTax - r.newTax) as real
            && r.cashflow == r.cashflowBeforeTax + r.taxSavings
  {
    ChainedFigures(ys, p, k);
    SavingsOfFigures(ys[k], p);
  }

  lemma SavingsOfFigures(r: YearRecord, p: Params)
    requires TaxFigures(r, p)
    ensures r.newTotalIncome >= 0.0
    ensures r.taxSavings
         == (1.0 + (if p.taxInfo.hasChurchTax then p.taxInfo.churchTaxRate / 100.0 else 0.0))
            * (r.previousTax - r.newTax) as real
  {
    var info := p.taxInfo;
    ChurchTaxSavingsProportional(r.previousTax as real, r.newTax as real, info.hasChurchTax, info.churchTaxRate);
  }

  /** The prior tax every saving is measured against is one and the same. */
  lemma PreviousTaxConstant(ys: seq<YearRecord>, p: Params, j: int, k: int)
    requires Sound(p) && Chained(ys, p)
    requires 0 <= j < |ys| && 0 <= k < |ys|
    ensures ys[j].previousTax == ys[k].previousTax == p.previousTax
  {
    ChainedFigures(ys, p, j);
    ChainedFigures(ys, p, k);
  }

  /**
   * The value of year k + 1 is the price compounded k times; equity is that
   * value less the outstanding loan; the per-record initial equity is the
   * down payment for a loan and the bare purchase price for cash.
   */
  lemma ValueAndEquity(ys: seq<YearRecord>, p: Params, k: int)
    requires Sound(p) && Chained(ys, p)
    requires 0 <= k < |ys|
    ensures ys[k].propertyValue == p.purchase.purchasePrice * Pow(1.0 + p.appreciationRate, k)
    ensures ys[k].equity == ys[k].propertyValue - ys[k].loanBalance
    ensures ys[k].initialEquity == (if p.isLoan then p.downPayment else p.purchase.purchasePrice)
  {
    ChainedFigures(ys, p, k);
  }

  // ---------------------------------------------------------------------
  // Escalation
  // ---------------------------------------------------------------------

  /** One more year of compounding is one more year of growth. */
  lemma CompoundOnce(base: real, rate: real, n: nat)
    requires n >= 1
    ensures Compound(base, rate, n) == Grow(Compound(base, rate, n - 1), rate)
  {
    var f := Pow(1.0 + rate, n - 1);
    assert Pow(1.0 + rate, n) == f * (1.0 + rate);
    assert base * (f * (1.0 + rate)) == (base * f) * (1.0 + rate);
  }

  /** In year k + 1 a line is its year-1 value compounded k times by the rent-increase rate. */
  lemma {:induction false} LineEscalation(ys: seq<YearRecord>, p: Params, k: int, line: Line)
    requires Chained(ys, p)
    requires 0 <= k < |ys|
    ensures LineOf(ys[k], line) == Compound(BaseOf(p.ongoing, line), p.rentIncreaseRate, k)
  {
    if k == 0 {
      FirstLines(ys, p);
      assert Pow(1.0 + p.rentIncreaseRate, 0) == 1.0;
    } else {
      StepLine(ys, p, k, line);
      LineEscalation(ys, p, k - 1, line);
      CompoundOnce(BaseOf(p.ongoing, line), p.rentIncreaseRate, k);
    }
  }

  /**
   * In year k + 1 the rent and each cost line are their year-1 values
   * compounded k times by the rent-increase rate.
   */
  lemma Escalation(ys: seq<YearRecord>, p: Params, k: int)
    requires Chained(ys, p)
    requires 0 <= k < |ys|
    ensures ys[k].rent == Compound(p.ongoing.effectiveRent, p.rentIncreaseRate, k)
    ensures ys[k].propertyTax == Compound(p.ongoing.propertyTax, p.rentIncreaseRate, k)
    ensures ys[k].managementFee == Compound(p.ongoing.managementFee, p.rentIncreaseRate, k)
    ensures ys[k].maintenanceReserve == Compound(p.ongoing.maintenanceCost, p.rentIncreaseRate, k)
    ensures ys[k].insurance == Compound(p.ongoing.insurance, p.rentIncreaseRate, k)
  {
    LineEscalation(ys, p, k, Rent);
    LineEscalation(ys, p, k, PropertyTax);
    LineEscalation(ys, p, k, ManagementFee);
    LineEscalation(ys, p, k, MaintenanceReserve);
    LineEscalation(ys, p, k, Insurance);
  }

  /** The yearly total of the four cost lines compounds like each line. */
  lemma OngoingEscalation(ys: seq<YearRecord>, p: Params, k: int)
    requires Sound(p) && Chained(ys, p)
    requires 0 <= k < |ys|
    ensures ys[k].ongoingCosts == Compound(p.ongoing.totalOngoing, p.rentIncreaseRate, k)
  {
    ChainedFigures(ys, p, k);
    Escalation(ys, p, k);
    var o, f := p.ongoing, Pow(1.0 + p.rentIncreaseRate, k);
    assert (o.propertyTax + o.managementFee + o.maintenanceCost + o.insurance) * f
        == o.propertyTax * f + o.managementFee * f + o.maintenanceCost * f + o.insurance * f;
  }

  // ---------------------------------------------------------------------
  // The loan
  // ---------------------------------------------------------------------

  /** The loan balance is never negative, whatever the inputs. */
  lemma {:induction false} LoanBalanceNonNegative(ys: seq<YearRecord>, p: Params, k: int)
    requires Chained(ys, p)
    requires 0 <= k < |ys|
    ensures ys[k].loanBalance >= 0.0
  {
    if k == 0 {
      FirstFinancing(ys, p);
    } else {
      StepFinancing(ys, p, k);
      LoanBalanceNonNegative(ys, p, k - 1);
    }
  }

  /** The loan terms under which repayment never runs backwards. */
  predicate RepayingTerms(p: Params)
  {
    p.interestRate >= 0.0 && p.repaymentRate >= 0.0 && p.loanAmount >= 0.0
  }

  /** A year whose annuity covers the interest repays a non-negative principal. */
  lemma FinancingStepRepays(isLoan: bool, balance: real, annuity: real, interestRate: real)
    requires balance >= 0.0
    requires annuity >= balance * interestRate
    ensures FinancingStep(isLoan, balance, annuity, interestRate).principal >= 0.0
    ensures FinancingStep(isLoan, balance, annuity, interestRate).balance <= balance
  {
  }

  /**
   * With non-negative rates and loan amount, the balance never exceeds the
   * loan amount and never grows from one year to the next.
   */
  lemma {:induction false} LoanBalanceNonIncreasing(ys: seq<YearRecord>, p: Params, k: int)
    requires Sound(p) && RepayingTerms(p)
    requires Chained(ys, p)
    requires 0 <= k < |ys|
    ensures ys[k].loanBalance <= p.loanAmount
    ensures k > 0 ==> ys[k].loanBalance <= ys[k - 1].loanBalance
  {
    if k == 0 {
      FirstBalanceBound(ys, p);
    } else {
      LoanBalanceNonIncreasing(ys, p, k - 1);
      LoanBalanceNonNegative(ys, p, k - 1);
      LaterBalanceBound(ys, p, k);
    }
  }

  /** Year 1 ends with no more than the loan amount outstanding. */
  lemma FirstBalanceBound(ys: seq<YearRecord>, p: Params)
    requires Sound(p) && RepayingTerms(p)
    requires Chained(ys, p) && |ys| >= 1
    ensures ys[0].loanBalance <= p.loanAmount
  {
    FirstFinancing(ys, p);
    AnnuityCoversInterest(p, p.loanAmount);
    FirstYearRepays(p.loanAmount, p.annuity, p.interestRate);
  }

  /** A later year starting within the loan amount does not raise the balance. */
  lemma LaterBalanceBound(ys: seq<YearRecord>, p: Params, k: int)
    requires Sound(p) && RepayingTerms(p)
    requires Chained(ys, p) && 1 <= k < |ys|
    requires 0.0 <= ys[k - 1].loanBalance <= p.loanAmount
    ensures ys[k].loanBalance <= ys[k - 1].loanBalance
  {
    StepFinancing(ys, p, k);
    var b := ys[k - 1].loanBalance;
    AnnuityCoversInterest(p, b);
    FinancingStepRepays(p.isLoan, b, p.annuity, p.interestRate);
  }

  /** With non-negative terms the annuity covers the interest on any balance up to the loan amount. */
  lemma AnnuityCoversInterest(p: Params, balance: real)
    requires Sound(p) && RepayingTerms(p)
    requires 0.0 <= balance <= p.loanAmount
    ensures p.annuity >= balance * p.interestRate
  {
    var L, i, rr := p.loanAmount, p.interestRate, p.repaymentRate;
    MulNonNegative(L, rr);
    MulMonotone(balance, i, L, i);
    assert p.annuity == L * i + L * rr;
  }

  /** Year 1 repays a non-negative principal when the annuity covers the interest. */
  lemma FirstYearRepays(loanAmount: real, annuity: real, interestRate: real)
    requires loanAmount >= 0.0
    requires annuity >= loanAmount * interestRate
    ensures FirstYearFinancing(loanAmount, annuity, interestRate).principal >= 0.0
    ensures FirstYearFinancing(loanAmount, annuity, interestRate).balance <= loanAmount
  {
  }

  /** Once the loan is repaid, no later year pays interest or principal. */
  lemma {:induction false} ZeroBalanceAbsorbing(ys: seq<YearRecord>, p: Params, j: int, k: int)
    requires Chained(ys, p)
    requires 0 <= j <= k < |ys|
    requires ys[j].loanBalance == 0.0
    ensures ys[k].loanBalance == 0.0
    ensures j < k ==> ys[k].interest == 0.0 && ys[k].principal == 0.0
                      && ys[k].payment == 0.0
    decreases k
  {
    if j < k {
      StepFinancing(ys, p, k);
      ZeroBalanceAbsorbing(ys, p, j, k - 1);
    }
  }

  /**
   * The annuity split: year 1 runs against the loan amount and every later
   * year against the outstanding balance. While the annuity less interest
   * fits in the balance the payment is exactly the annuity; otherwise the
   * final payment clears the balance.
   */
  lemma AnnuityPayment(ys: seq<YearRecord>, p: Params, k: int)
    requires Chained(ys, p)
    requires 0 <= k < |ys|
    requires k > 0 ==> p.isLoan && ys[k - 1].loanBalance > 0.0
    ensures var r, b := ys[k], if k == 0 then p.loanAmount else ys[k - 1].loanBalance;
            && r.interest == b * p.interestRate
            && r.payment == r.interest + r.principal
            && r.loanBalance == b - r.principal
            && (p.annuity - r.interest <= b ==> r.payment == p.annuity)
            && (p.annuity - r.interest > b ==> r.principal == b && r.loanBalance == 0.0)
  {
    if k == 0 {
      FirstFinancing(ys, p);
    } else {
      StepFinancing(ys, p, k);
    }
  }

  /**
   * Year 1 has neither the positive-balance guard nor the clamp of the
   * later years; for a positive loan amount both are inert and year 1 is an
   * ordinary step.
   */
  lemma FirstYearIsOrdinaryStep(loanAmount: real, annuity: real, interestRate: real)
    requires loanAmount > 0.0
    ensures FirstYearFinancing(loanAmount, annuity, interestRate)
         == FinancingStep(true, loanAmount, annuity, interestRate)
  {
  }

  /**
   * Cash financing: no interest, principal, payment or balance in any year,
   * and equity is the whole property value.
   */
  lemma {:induction false} CashFinancing(ys: seq<YearRecord>, p: Params, k: int)
    requires Sound(p) && !p.isLoan
    requires Chained(ys, p)
    requires 0 <= k < |ys|
    ensures var r := ys[k];
            && r.interest == 0.0 && r.principal == 0.0 && r.payment == 0.0 && r.loanBalance == 0.0
            && r.equity == r.propertyValue
  {
    if k == 0 {
      FirstFinancing(ys, p);
      ChainedFigures(ys, p, k);
    } else {
      StepFinancing(ys, p, k);
      ChainedFigures(ys, p, k);
      CashFinancing(ys, p, k - 1);
    }
  }

  /**
   * For cash the summary's initial equity is the total cost, extras
   * included, while every record's initial equity is the bare price.
   */
  lemma InitialEquitySplit(purchase: PurchaseData, ongoing: OngoingData, taxInfo: TaxInfo, input: CashflowInput)
    requires input.calculationPeriod >= 1
    requires !IsLoan(input.financingType)
    ensures var out := CalculateCashflow(purchase, ongoing, taxInfo, input).value;
            && out.results.initialEquity == purchase.totalCost
            && forall k :: 0 <= k < |out.yearlyData| ==> out.yearlyData[k].initialEquity == purchase.purchasePrice
  {
    var p := MakeParams(purchase, ongoing, taxInfo, input);
    var out := CalculateCashflow(purchase, ongoing, taxInfo, input).value;
    ProjectionChained(p);
    forall k | 0 <= k < |out.yearlyData|
      ensures out.yearlyData[k].initialEquity == purchase.purchasePrice
    {
      assert Link(out.yearlyData, p, k);
    }
  }
}
