/**
 * The income tax and church tax of tax-calculator.js: the five-zone
 * progressive tariff of section 32a(1) of the German Income Tax Act (EStG)
 * with the constants the code hard-codes, the splitting rule of
 * section 32a(5) EStG for married filers, and church tax as a flat
 * percentage of income tax.
 */
module TaxCalculator {
  import opened Numerics

  // Zone edges, in euro of taxable income (the code labels them 2024 values).
  const BasicAllowance: real := 12096.0
  const Zone1End: real := 17443.0
  const Zone2End: real := 68480.0
  const Zone3End: real := 277825.0

  /** Zone b, (12096, 17443]: a quadratic in y = (x - 12096) / 10000. */
  function EntryZoneTax(x: real): real
  {
    var y := (x - BasicAllowance) / 10000.0;
    (932.3 * y + 1400.0) * y
  }

  /** Zone c, (17443, 68480]: a quadratic in z = (x - 17443) / 10000. */
  function ProgressionZoneTax(x: real): real
  {
    var z := (x - Zone1End) / 10000.0;
    (176.64 * z + 2397.0) * z + 1015.13
  }

  /** Zone d, (68480, 277825]: 42 % less a constant. */
  function ProportionalZoneTax(x: real): real
  {
    0.42 * x - 10911.92
  }

  /** Zone e, above 277825: 45 % less a constant. */
  function TopZoneTax(x: real): real
  {
    0.45 * x - 19246.67
  }

  /**
   * The unrounded single-filer tariff. Every zone's formula is positive
   * on its own interval, so the tariff is never negative and is zero
   * exactly up to the basic allowance (negative income included).
   */
  function TariffTax(x: real): (t: real)
    ensures t >= 0.0
    ensures t == 0.0 <==> x <= BasicAllowance
  {
    if x <= BasicAllowance then 0.0
    else if x <= Zone1End then EntryZoneTax(x)
    else if x <= Zone2End then ProgressionZoneTax(x)
    else if x <= Zone3End then ProportionalZoneTax(x)
    else TopZoneTax(x)
  }

  /** Only the exact string "married" selects splitting. */
  predicate IsMarried(taxStatus: string)
  {
    taxStatus == "married"
  }

  /**
   * `calculateGermanIncomeTax(income, taxStatus)`: married filers are
   * taxed on half the income and the tax is doubled before rounding to
   * the nearest euro.
   */
  function IncomeTax(income: real, taxStatus: string): (tax: int)
    ensures tax >= 0
    ensures !IsMarried(taxStatus) && income <= BasicAllowance ==> tax == 0
    ensures IsMarried(taxStatus) && income <= 2.0 * BasicAllowance ==> tax == 0
  {
    var taxable := if IsMarried(taxStatus) then income / 2.0 else income;
    var raw := TariffTax(taxable);
    Round(if IsMarried(taxStatus) then raw * 2.0 else raw)
  }

  /** `calculateChurchTax`: zero when not applicable, else rate % of income tax. */
  function ChurchTax(incomeTax: real, hasChurchTax: bool, churchTaxRate: real): (c: real)
    ensures !hasChurchTax ==> c == 0.0
    ensures hasChurchTax ==> c == incomeTax * churchTaxRate / 100.0
  {
    if !hasChurchTax then 0.0 else incomeTax * (churchTaxRate / 100.0)
  }

  // ---------------------------------------------------------------------
  // Properties of the tariff
  // ---------------------------------------------------------------------

  /** Any status other than "married" is taxed exactly as "single". */
  lemma OtherStatusIsSingle(income: real, taxStatus: string)
    requires taxStatus != "married"
    ensures IncomeTax(income, taxStatus) == IncomeTax(income, "single")
  {
  }

  /** Each zone applies its own formula over its own interval. */
  lemma SingleTaxByZone(x: real)
    ensures x <= BasicAllowance ==> IncomeTax(x, "single") == 0
    ensures BasicAllowance < x <= Zone1End ==> IncomeTax(x, "single") == Round(EntryZoneTax(x))
    ensures Zone1End < x <= Zone2End ==> IncomeTax(x, "single") == Round(ProgressionZoneTax(x))
    ensures Zone2End < x <= Zone3End ==> IncomeTax(x, "single") == Round(ProportionalZoneTax(x))
    ensures Zone3End < x ==> IncomeTax(x, "single") == Round(TopZoneTax(x))
  {
  }

  /**
   * At every zone edge the two adjacent formulas differ by less than one
   * euro; at the allowance and at 277825 they agree exactly.
   */
  lemma ZoneEdgesNearlyContinuous()
    ensures EntryZoneTax(BasicAllowance) == 0.0
    ensures Abs(EntryZoneTax(Zone1End) - ProgressionZoneTax(Zone1End)) < 1.0
    ensures Abs(ProgressionZoneTax(Zone2End) - ProportionalZoneTax(Zone2End)) < 1.0
    ensures ProportionalZoneTax(Zone3End) == TopZoneTax(Zone3End)
  {
  }

  /**
   * The unrounded tariff is NOT monotone: at 68480 the zone c formula
   * ends about 0.094 euro above where the zone d formula starts.
   */
  lemma TariffDropsAtZone2End()
    ensures TariffTax(68480.1) < TariffTax(Zone2End)
  {
  }

  lemma EntryZoneIncreasing(x: real, x': real)
    requires BasicAllowance <= x <= x'
    ensures EntryZoneTax(x) <= EntryZoneTax(x')
  {
    var y := (x - BasicAllowance) / 10000.0;
    var y' := (x' - BasicAllowance) / 10000.0;
    MulMonotone(932.3 * y + 1400.0, y, 932.3 * y' + 1400.0, y');
  }

  lemma ProgressionZoneIncreasing(x: real, x': real)
    requires Zone1End <= x <= x'
    ensures ProgressionZoneTax(x) <= ProgressionZoneTax(x')
  {
    var z := (x - Zone1End) / 10000.0;
    var z' := (x' - Zone1End) / 10000.0;
    MulMonotone(176.64 * z + 2397.0, z, 176.64 * z' + 2397.0, z');
  }

  /** Where the rounded single tax sits on either side of each zone edge. */
  lemma RoundedTariffAroundEdges(x: real)
    ensures x <= Zone1End ==> Round(TariffTax(x)) <= 1015
    ensures x > Zone1End ==> Round(TariffTax(x)) >= 1015
    ensures x <= Zone2End ==> Round(TariffTax(x)) <= 17850
    ensures x > Zone2End ==> Round(TariffTax(x)) >= 17850
    ensures x <= Zone3End ==> Round(TariffTax(x)) <= 105775
    ensures x > Zone3End ==> Round(TariffTax(x)) >= 105775
  {
    var t := TariffTax(x);
    if x <= BasicAllowance {
    } else if x <= Zone1End {
      EntryZoneIncreasing(x, Zone1End);
      RoundMonotone(t, 1015.13);
    } else if x <= Zone2End {
      ProgressionZoneIncreasing(Zone1End, x);
      ProgressionZoneIncreasing(x, Zone2End);
      RoundMonotone(1015.13, t);
      RoundMonotone(t, ProgressionZoneTax(Zone2End));
      RoundUnique(ProgressionZoneTax(Zone2End), 17850);
    } else if x <= Zone3End {
      RoundMonotone(17849.68, t);
      RoundMonotone(t, 105774.58);
    } else {
      RoundMonotone(105774.58, t);
    }
  }

  /**
   * The rounded single-filer tax never decreases as income grows,
   * although the unrounded tariff dips at 68480 (see TariffDropsAtZone2End).
   */
  lemma SingleTaxMonotone(x: real, x': real)
    requires x <= x'
    ensures IncomeTax(x, "single") <= IncomeTax(x', "single")
  {
    var t, t' := TariffTax(x), TariffTax(x');
    RoundedTariffAroundEdges(x);
    RoundedTariffAroundEdges(x');
    if x' <= BasicAllowance || x <= BasicAllowance {
    } else if x' <= Zone1End {
      EntryZoneIncreasing(x, x');
      RoundMonotone(t, t');
    } else if Zone1End < x && x' <= Zone2End {
      ProgressionZoneIncreasing(x, x');
      RoundMonotone(t, t');
    } else if Zone2End < x && x' <= Zone3End {
      RoundMonotone(t, t');
    } else if Zone3End < x {
      RoundMonotone(t, t');
    }
  }

  /**
   * Splitting rounds after doubling, so the married tax can differ from
   * twice the single tax on half the income, but by at most one euro.
   */
  lemma MarriedSplittingWithinOne(income: real)
    ensures IncomeTax(income, "married") == Round(2.0 * TariffTax(income / 2.0))
    ensures -1 <= IncomeTax(income, "married") - 2 * IncomeTax(income / 2.0, "single") <= 1
  {
  }

  /** The one-euro gap of splitting is reached: 136964 married vs 2 x 68482 single. */
  lemma MarriedSplittingGapExample()
    ensures IncomeTax(136964.0, "married") == 35701
    ensures 2 * IncomeTax(68482.0, "single") == 35702
  {
    RoundUnique(2.0 * TariffTax(68482.0), 35701);
    RoundUnique(TariffTax(68482.0), 17851);
  }

  /**
   * Because rounding follows doubling, the married tax drops by one euro
   * just above 2 x 68480, where the single tariff dips.
   */
  lemma MarriedTaxNotMonotone()
    ensures IncomeTax(136960.0, "married") == 35700
    ensures IncomeTax(136960.2, "married") == 35699
  {
    RoundUnique(2.0 * TariffTax(68480.0), 35700);
    RoundUnique(2.0 * TariffTax(68480.1), 35699);
  }

  /**
   * Church tax is linear in income tax, so the church-tax saving is the
   * rate share of the income-tax saving.
   */
  lemma ChurchTaxSavingsProportional(previousTax: real, newTax: real, hasChurchTax: bool, churchTaxRate: real)
    ensures ChurchTax(previousTax, hasChurchTax, churchTaxRate) - ChurchTax(newTax, hasChurchTax, churchTaxRate)
         == (if hasChurchTax then churchTaxRate / 100.0 else 0.0) * (previousTax - newTax)
  {
  }

  /** The pure part of `calculateTaxInfo`: the form values plus both taxes. */
  datatype TaxInfo = TaxInfo(
    annualIncome: real,
    taxStatus: string,
    incomeTax: int,
    hasChurchTax: bool,
    churchTaxRate: real,
    churchTax: real)

  function CalculateTaxInfo(annualIncome: real, taxStatus: string, hasChurchTax: bool, churchTaxRate: real): (info: TaxInfo)
    ensures info.annualIncome == annualIncome && info.taxStatus == taxStatus
    ensures info.hasChurchTax == hasChurchTax && info.churchTaxRate == churchTaxRate
    ensures info.incomeTax >= 0
    ensures info.churchTax == (if hasChurchTax then info.incomeTax as real * churchTaxRate / 100.0 else 0.0)
  {
    var incomeTax := IncomeTax(annualIncome, taxStatus);
    TaxInfo(annualIncome, taxStatus, incomeTax, hasChurchTax, churchTaxRate,
            ChurchTax(incomeTax as real, hasChurchTax, churchTaxRate))
  }
}
