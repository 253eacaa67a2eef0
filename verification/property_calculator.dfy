/**
 * The purchase and baseline cost model of property-calculator.js:
 * transaction fees, total cost, allocation of the extra costs to land and
 * building, the broker-as-consulting switch, the maintenance cost spread
 * over several years, the allocation warning, and the year-1 rent and
 * operating-cost baseline.
 */
module PropertyCalculator {
  import opened Numerics
  import opened Results

  /** The purchase form: prices in euro, fee rates in percent. */
  datatype PurchaseInput = PurchaseInput(
    purchasePrice: real,
    transferTaxRate: real,
    notaryRate: real,
    brokerRate: real,
    brokerAsConsulting: bool,
    landValue: real,
    buildingValue: real,
    furnitureValue: real,
    maintenanceCost: real,
    maintenanceDistribution: int)

  datatype PurchaseData = PurchaseData(
    purchasePrice: real,
    transferTax: real,
    notaryCosts: real,
    brokerFee: real,
    brokerAsConsulting: bool,
    firstYearDeductibleCosts: real,
    totalExtra: real,
    totalCost: real,
    landValue: real,
    buildingValue: real,
    landExtraCosts: real,
    buildingExtraCosts: real,
    totalLandValue: real,
    totalBuildingValue: real,
    maintenanceCost: real,
    furnitureValue: real,
    annualMaintenance: real,
    maintenanceDistribution: int,
    landValuePercentage: real,
    buildingValuePercentage: real)

  /** A fee of `rate` percent of the price. */
  function Fee(price: real, rate: real): real
  {
    price * (rate / 100.0)
  }

  /**
   * `calculatePurchase`. The land and building shares divide by the price
   * and the annual maintenance divides by the distribution years; where
   * either divisor is zero the result is an error instead of Infinity/NaN.
   */
  function CalculatePurchase(input: PurchaseInput): (r: Result<PurchaseData>)
    ensures r.Err? <==> input.purchasePrice == 0.0 || input.maintenanceDistribution == 0
    ensures r.Err? ==> r.error == (if input.purchasePrice == 0.0 then ZeroPurchasePrice else ZeroMaintenanceDistribution)
    ensures r.Ok? ==> PurchaseFacts(input, r.value)
  {
    var price := input.purchasePrice;
    if price == 0.0 then Err(ZeroPurchasePrice)
    else if input.maintenanceDistribution == 0 then Err(ZeroMaintenanceDistribution)
    else
      var transferTax := Fee(price, input.transferTaxRate);
      var notaryCosts := Fee(price, input.notaryRate);
      var brokerFee := Fee(price, input.brokerRate);
      var totalExtra := transferTax + notaryCosts + brokerFee;
      var totalCost := price + totalExtra;
      var relevantExtra := if input.brokerAsConsulting then transferTax + notaryCosts else totalExtra;
      var landExtra := relevantExtra * (input.landValue / price);
      var buildingExtra := relevantExtra * (input.buildingValue / price);
      var data := PurchaseData(
        price, transferTax, notaryCosts, brokerFee, input.brokerAsConsulting,
        if input.brokerAsConsulting then brokerFee else 0.0,
        totalExtra, totalCost,
        input.landValue, input.buildingValue, landExtra, buildingExtra,
        input.landValue + landExtra, input.buildingValue + buildingExtra,
        input.maintenanceCost, input.furnitureValue,
        input.maintenanceCost / (input.maintenanceDistribution as real),
        input.maintenanceDistribution,
        (input.landValue / price) * 100.0, (input.buildingValue / price) * 100.0);
      PurchaseConsequences(input, data);
      Ok(data)
  }

  /** The extra costs that are capitalised and shared between land and building. */
  function RelevantExtra(d: PurchaseData): real
  {
    if d.brokerAsConsulting then d.totalExtra - d.brokerFee else d.totalExtra
  }

  /** What a successful purchase calculation guarantees about its record. */
  ghost predicate PurchaseFacts(input: PurchaseInput, d: PurchaseData)
  {
    var price := input.purchasePrice;
    && price != 0.0
    // the inputs are carried through
    && d.purchasePrice == price && d.brokerAsConsulting == input.brokerAsConsulting
    && d.landValue == input.landValue && d.buildingValue == input.buildingValue
    && d.furnitureValue == input.furnitureValue && d.maintenanceCost == input.maintenanceCost
    && d.maintenanceDistribution == input.maintenanceDistribution
    // each fee is its rate share of the price, whatever the consulting flag
    && d.transferTax == price * input.transferTaxRate / 100.0
    && d.notaryCosts == price * input.notaryRate / 100.0
    && d.brokerFee == price * input.brokerRate / 100.0
    && d.totalExtra == d.transferTax + d.notaryCosts + d.brokerFee
    && d.totalCost == price * (1.0 + (input.transferTaxRate + input.notaryRate + input.brokerRate) / 100.0)
    // capitalised extras are shared in proportion to the land and building values
    && d.landExtraCosts * price == RelevantExtra(d) * d.landValue
    && d.buildingExtraCosts * price == RelevantExtra(d) * d.buildingValue
    && (d.landExtraCosts + d.buildingExtraCosts) * price == RelevantExtra(d) * (d.landValue + d.buildingValue)
    && d.totalLandValue == d.landValue + d.landExtraCosts
    && d.totalBuildingValue == d.buildingValue + d.buildingExtraCosts
    // the broker fee is either capitalised or deducted in year 1, never both
    && d.firstYearDeductibleCosts == (if d.brokerAsConsulting then d.brokerFee else 0.0)
    && RelevantExtra(d) + d.firstYearDeductibleCosts == d.totalExtra
    // the maintenance cost is spread evenly over the distribution years
    && d.annualMaintenance * (d.maintenanceDistribution as real) == d.maintenanceCost
    && d.landValuePercentage * price == d.landValue * 100.0
    && d.buildingValuePercentage * price == d.buildingValue * 100.0
  }

  lemma PurchaseConsequences(input: PurchaseInput, d: PurchaseData)
    requires input.purchasePrice != 0.0 && input.maintenanceDistribution != 0
    requires d.purchasePrice == input.purchasePrice && d.brokerAsConsulting == input.brokerAsConsulting
    requires d.landValue == input.landValue && d.buildingValue == input.buildingValue
    requires d.furnitureValue == input.furnitureValue && d.maintenanceCost == input.maintenanceCost
    requires d.maintenanceDistribution == input.maintenanceDistribution
    requires d.transferTax == Fee(input.purchasePrice, input.transferTaxRate)
    requires d.notaryCosts == Fee(input.purchasePrice, input.notaryRate)
    requires d.brokerFee == Fee(input.purchasePrice, input.brokerRate)
    requires d.totalExtra == d.transferTax + d.notaryCosts + d.brokerFee
    requires d.totalCost == input.purchasePrice + d.totalExtra
    requires d.landExtraCosts == RelevantExtra(d) * (d.landValue / d.purchasePrice)
    requires d.buildingExtraCosts == RelevantExtra(d) * (d.buildingValue / d.purchasePrice)
    requires d.totalLandValue == d.landValue + d.landExtraCosts
    requires d.totalBuildingValue == d.buildingValue + d.buildingExtraCosts
    requires d.firstYearDeductibleCosts == (if d.brokerAsConsulting then d.brokerFee else 0.0)
    requires d.annualMaintenance == d.maintenanceCost / (d.maintenanceDistribution as real)
    requires d.landValuePercentage == (d.landValue / d.purchasePrice) * 100.0
    requires d.buildingValuePercentage == (d.buildingValue / d.purchasePrice) * 100.0
    ensures PurchaseFacts(input, d)
  {
    var price := input.purchasePrice;
    ProportionalShares(RelevantExtra(d), d.landValue, d.buildingValue, price);
    ProportionalShare(RelevantExtra(d), d.landValue, price);
    ProportionalShare(RelevantExtra(d), d.buildingValue, price);
    QuotientTimesDivisor(d.maintenanceCost, d.maintenanceDistribution as real);
    QuotientTimesDivisor(d.landValue, price);
    QuotientTimesDivisor(d.buildingValue, price);
  }

  lemma QuotientTimesDivisor(a: real, b: real)
    requires b != 0.0
    ensures (a / b) * b == a
    ensures (a / b) * 100.0 * b == a * 100.0
  {
  }

  /** A proportional share of `e`, scaled back by the price, is `e` times the value. */
  lemma ProportionalShare(e: real, a: real, price: real)
    requires price != 0.0
    ensures (e * (a / price)) * price == e * a
  {
    QuotientTimesDivisor(a, price);
    assert (e * (a / price)) * price == e * ((a / price) * price);
  }

  /** Two proportional shares of `e` add up to the share of the combined value. */
  lemma ProportionalShares(e: real, a: real, b: real, price: real)
    requires price != 0.0
    ensures (e * (a / price) + e * (b / price)) * price == e * (a + b)
  {
    QuotientTimesDivisor(a, price);
    QuotientTimesDivisor(b, price);
    calc {
      (e * (a / price) + e * (b / price)) * price;
      e * ((a / price) * price) + e * ((b / price) * price);
      e * (a + b);
    }
  }

  /**
   * `validatePurchaseAllocation`: the warning fires exactly when land,
   * building and furniture miss the price by more than one euro.
   */
  function AllocationWarning(purchasePrice: real, landValue: real, buildingValue: real, furnitureValue: real): (warn: bool)
    ensures warn <==> (landValue + buildingValue + furnitureValue > purchasePrice + 1.0
                    || landValue + buildingValue + furnitureValue < purchasePrice - 1.0)
  {
    Abs(landValue + buildingValue + furnitureValue - purchasePrice) > 1.0
  }

  /** The warning does not block: the purchase calculation ignores it. */
  lemma AllocationWarningNonBlocking(input: PurchaseInput)
    requires input.purchasePrice != 0.0 && input.maintenanceDistribution != 0
    requires AllocationWarning(input.purchasePrice, input.landValue, input.buildingValue, input.furnitureValue)
    ensures CalculatePurchase(input).Ok?
  {
  }

  /**
   * When land and building make up the whole price the capitalised extra
   * costs are allocated in full; furniture takes no share, so whenever
   * furniture is part of the price the allocation falls short by exactly
   * the furniture's share.
   */
  lemma ExtraCostsAllocation(input: PurchaseInput)
    requires CalculatePurchase(input).Ok?
    ensures var d := CalculatePurchase(input).value;
            input.landValue + input.buildingValue == input.purchasePrice ==>
              d.landExtraCosts + d.buildingExtraCosts == RelevantExtra(d)
    ensures var d := CalculatePurchase(input).value;
            input.landValue + input.buildingValue + input.furnitureValue == input.purchasePrice ==>
              (RelevantExtra(d) - (d.landExtraCosts + d.buildingExtraCosts)) * input.purchasePrice
                == RelevantExtra(d) * input.furnitureValue
  {
    var d := CalculatePurchase(input).value;
    var price := input.purchasePrice;
    var e := RelevantExtra(d);
    var sharedExtra := d.landExtraCosts + d.buildingExtraCosts;
    assert sharedExtra * price == e * (input.landValue + input.buildingValue);
    if input.landValue + input.buildingValue == price {
      assert sharedExtra * price == e * price;
      CancelFactor(sharedExtra, e, price);
    }
    if input.landValue + input.buildingValue + input.furnitureValue == price {
      assert (e - sharedExtra) * price == e * price - sharedExtra * price;
    }
  }

  lemma CancelFactor(a: real, b: real, c: real)
    requires c != 0.0
    requires a * c == b * c
    ensures a == b
  {
    assert (a - b) * c == 0.0;
  }

  /** The rent and cost form; the vacancy rate is in percent. */
  datatype OngoingInput = OngoingInput(
    monthlyRent: real,
    vacancyRate: real,
    propertyTax: real,
    managementFee: real,
    maintenanceReserve: real,
    insurance: real)

  datatype OngoingData = OngoingData(
    monthlyRent: real,
    annualRent: real,
    vacancyRate: real,
    effectiveRent: real,
    propertyTax: real,
    managementFee: real,
    maintenanceCost: real,
    insurance: real,
    totalOngoing: real)

  /** `calculateOngoing`: the year-1 rent and operating-cost baseline. */
  function CalculateOngoing(input: OngoingInput): (d: OngoingData)
    ensures d.monthlyRent == input.monthlyRent && d.vacancyRate == input.vacancyRate
    ensures d.propertyTax == input.propertyTax && d.managementFee == input.managementFee
    ensures d.maintenanceCost == input.maintenanceReserve && d.insurance == input.insurance
    ensures d.annualRent == 12.0 * input.monthlyRent
    ensures d.annualRent - d.effectiveRent == d.annualRent * input.vacancyRate / 100.0
    ensures input.monthlyRent >= 0.0 && 0.0 <= input.vacancyRate <= 100.0 ==>
              0.0 <= d.effectiveRent <= d.annualRent
    ensures d.totalOngoing == d.propertyTax + d.managementFee + d.maintenanceCost + d.insurance
  {
    var annualRent := input.monthlyRent * 12.0;
    var effectiveRent := annualRent * (1.0 - input.vacancyRate / 100.0);
    assert input.monthlyRent >= 0.0 && 0.0 <= input.vacancyRate <= 100.0 ==> 0.0 <= effectiveRent <= annualRent by {
      if input.monthlyRent >= 0.0 && 0.0 <= input.vacancyRate <= 100.0 {
        MulNonNegative(annualRent, 1.0 - input.vacancyRate / 100.0);
        MulMonotone(annualRent, 1.0 - input.vacancyRate / 100.0, annualRent, 1.0);
      }
    }
    OngoingData(
      input.monthlyRent, annualRent, input.vacancyRate, effectiveRent,
      input.propertyTax, input.managementFee, input.maintenanceReserve, input.insurance,
      input.propertyTax + input.managementFee + input.maintenanceReserve + input.insurance)
  }
}
