/**
 * The modular pipeline as `calculateCashflow` drives it: the purchase,
 * cost and tax records are computed from the form and handed to the
 * projection. The form is one configuration record, so values the source
 * reads twice from the same field (the consulting checkbox, the building
 * and furniture values) are one value here.
 */
module Pipeline {
  import opened Numerics
  import opened Results
  import opened TaxCalculator
  import opened PropertyCalculator
  import opened CashflowCalculator
  import opened CashflowProperties

  /** Every form value the calculation reads. */
  datatype Config = Config(
    purchase: PurchaseInput,
    ongoing: OngoingInput,
    annualIncome: real,
    taxStatus: string,
    hasChurchTax: bool,
    churchTaxRate: real,
    cashflow: CashflowInput)

  /** The constants of the projection for a configuration whose purchase is well defined. */
  function ParamsOf(cfg: Config): Params
    requires CalculatePurchase(cfg.purchase).Ok?
  {
    MakeParams(CalculatePurchase(cfg.purchase).value, CalculateOngoing(cfg.ongoing),
               CalculateTaxInfo(cfg.annualIncome, cfg.taxStatus, cfg.hasChurchTax, cfg.churchTaxRate),
               cfg.cashflow)
  }

  /**
   * `calculateCashflow` with its inputs computed afresh. The first failing
   * stage decides the error: the purchase division, then the period.
   */
  function Run(cfg: Config): (r: Result<CashflowOutput>)
    ensures r.Err? <==> cfg.purchase.purchasePrice == 0.0 || cfg.purchase.maintenanceDistribution == 0
                        || cfg.cashflow.calculationPeriod < 1
    ensures r.Err? ==> r.error == (if cfg.purchase.purchasePrice == 0.0 then ZeroPurchasePrice
                                   else if cfg.purchase.maintenanceDistribution == 0 then ZeroMaintenanceDistribution
                                   else PeriodBelowOne)
    ensures r.Ok? ==>
              && r.value.yearlyData == Projection(ParamsOf(cfg))
              && |r.value.yearlyData| == cfg.cashflow.calculationPeriod
              && r.value.results.totalCost
                 == cfg.purchase.purchasePrice
                    * (1.0 + (cfg.purchase.transferTaxRate + cfg.purchase.notaryRate + cfg.purchase.brokerRate) / 100.0)
  {
    match CalculatePurchase(cfg.purchase)
    case Err(e) => Err(e)
    case Ok(purchase) =>
      CalculateCashflow(purchase, CalculateOngoing(cfg.ongoing),
                        CalculateTaxInfo(cfg.annualIncome, cfg.taxStatus, cfg.hasChurchTax, cfg.churchTaxRate),
                        cfg.cashflow)
  }

  /** The broker fee booked as consulting is deducted in year 1 and in no other year. */
  lemma RunBrokerDeduction(cfg: Config, k: int)
    requires Run(cfg).Ok?
    requires 0 <= k < |Run(cfg).value.yearlyData|
    ensures Run(cfg).value.yearlyData[k].firstYearDeductibleCosts
         == (if k == 0 && cfg.purchase.brokerAsConsulting
             then cfg.purchase.purchasePrice * cfg.purchase.brokerRate / 100.0 else 0.0)
  {
    var p := ParamsOf(cfg);
    MakeParamsSound(CalculatePurchase(cfg.purchase).value, cfg.ongoing,
                    CalculateTaxInfo(cfg.annualIncome, cfg.taxStatus, cfg.hasChurchTax, cfg.churchTaxRate), cfg.cashflow);
    ProjectionBroker(p, k);
  }

  lemma ProjectionBroker(p: Params, k: int)
    requires Sound(p)
    requires 0 <= k < |Projection(p)|
    ensures Projection(p)[k].firstYearDeductibleCosts == (if k == 0 then p.brokerConsultingCosts else 0.0)
  {
    ProjectionChained(p);
    DeductionSchedule(Projection(p), p, k);
  }

  /**
   * End to end: the rent of year k + 1 is the year-1 effective rent of
   * `calculateOngoing`, compounded k times by the rent-increase rate.
   */
  lemma RunRentEscalation(cfg: Config, k: int)
    requires Run(cfg).Ok?
    requires 0 <= k < |Run(cfg).value.yearlyData|
    ensures Run(cfg).value.yearlyData[k].rent
         == Compound(CalculateOngoing(cfg.ongoing).effectiveRent, cfg.cashflow.rentIncreaseRate / 100.0, k)
  {
    var p := ParamsOf(cfg);
    assert p.ongoing == CalculateOngoing(cfg.ongoing);
    assert p.rentIncreaseRate == cfg.cashflow.rentIncreaseRate / 100.0;
    ProjectionRent(p, k);
  }

  lemma ProjectionRent(p: Params, k: int)
    requires 0 <= k < |Projection(p)|
    ensures Projection(p)[k].rent == Compound(p.ongoing.effectiveRent, p.rentIncreaseRate, k)
  {
    ProjectionChained(p);
    Escalation(Projection(p), p, k);
  }
}
