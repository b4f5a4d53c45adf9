/**
 * Worked bills. Each lemma fixes one input and states the exact breakdown
 * and total the calculator produces for it; the widths follow the code's
 * `max - min + 1`, so the first residential bracket takes 121 units and the
 * first natural-gas residential bracket 51.
 */
module Scenarios {
  import opened Rates
  import opened Brackets
  import opened Billing

  /** 100 kWh, residential, summer: all in the first bracket, plus tax. */
  lemma ResidentialSummer100()
    ensures ElectricityItems(100.0, Residential, Summer) == [163.0, 8.15]
    ensures ElectricityTotal(100.0, Residential, Summer) == 171.15
  {
    assert Truncate(100.0) == 100;
  }

  /** 400.9 kWh, residential, summer: 121 + 210 + 69 units; the fraction is dropped. */
  lemma ResidentialSummer400()
    ensures ElectricityItems(400.9, Residential, Summer) == [197.23, 499.8, 242.88, 46.9955]
    ensures ElectricityTotal(400.9, Residential, Summer) == 986.9055
  {
    assert Truncate(400.9) == 400;
    var rates := ResidentialSummer;
    assert Charges(rates[2..], 69) == [242.88];
    assert Charges(rates[1..], 279) == [499.8, 242.88];
    assert Charges(rates, 400) == [197.23, 499.8, 242.88];
  }

  /** No consumption, commercial, non-summer: the base fee and its tax. */
  lemma CommercialNonSummerZero()
    ensures ElectricityItems(0.0, Commercial, NonSummer) == [79.7, 3.985]
    ensures ElectricityTotal(0.0, Commercial, NonSummer) == 83.685
  {
    assert Truncate(0.0) == 0;
  }

  /** 1000 kWh, industrial, summer: base fee, one flat bracket, tax. */
  lemma IndustrialSummer1000()
    ensures ElectricityItems(1000.0, Industrial, Summer) == [223.7, 2850.0, 153.685]
    ensures ElectricityTotal(1000.0, Industrial, Summer) == 3227.385
  {
    assert Truncate(1000.0) == 1000;
  }

  /** 60 cubic metres of natural gas, residential: 51 + 9 units, plus tax. */
  lemma NaturalGasResidential60()
    ensures GasItems(60.0, NaturalGas, Residential) == [93.0, 485.52, 96.75, 33.7635]
    ensures GasTotal(60.0, NaturalGas, Residential) == 709.0335
  {
    assert Truncate(60.0) == 60;
    var rates := NaturalResidential;
    assert Charges(rates[1..], 9) == [96.75];
    assert Charges(rates, 60) == [485.52, 96.75];
  }

  /** 120 cubic metres of natural gas, industrial: billed on the commercial table, 101 + 19 units. */
  lemma IndustrialNaturalGas120()
    ensures GasItems(120.0, NaturalGas, Industrial) == [150.0, 1129.18, 225.15, 75.2165]
    ensures GasTotal(120.0, NaturalGas, Industrial) == 1579.5465
  {
    assert Truncate(120.0) == 120;
    var rates := NaturalCommercial;
    assert Charges(rates[1..], 19) == [225.15];
    assert Charges(rates, 120) == [1129.18, 225.15];
  }

  /** 20 cubic metres of liquefied petroleum gas: one flat charge, no tax. */
  lemma Lpg20()
    ensures GasItems(20.0, Lpg, Commercial) == [650.0]
    ensures GasTotal(20.0, Lpg, Commercial) == 650.0
  {
    assert Truncate(20.0) == 20;
    assert Charges(LpgRates, 20) == [650.0];
  }

  /** A negative consumption bills nothing but the base fee and its tax. */
  lemma NegativeConsumption()
    ensures GasItems(-5.5, NaturalGas, Commercial) == [150.0, 7.5]
    ensures GasTotal(-5.5, NaturalGas, Commercial) == 157.5
  {
    assert Truncate(-5.5) == -5;
  }
}
