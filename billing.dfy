/**
 * The two calculators of the tiered bill estimator. Each selects a schedule,
 * truncates the consumption to whole units, writes the base fee (when there
 * is one), one line item per touched bracket and, where it applies, a 5% tax
 * into the caller's breakdown buffer, and returns the total.
 *
 * The specification functions below give the line items and the total of a
 * bill; the methods are proved to write exactly those line items and return
 * exactly that total, and the lemmas state what a bill promises.
 */
module Billing {
  import opened Rates
  import opened Brackets

  /** The tax on electricity and on natural gas. */
  const TaxRate: real := 0.05

  /** The declared length of the caller's breakdown buffer. */
  const BreakdownCapacity: nat := 10

  /** The most line items a bill can have: base fee, every bracket, tax. */
  const MaxEntries: nat := 1 + MaxBrackets + 1

  /** The consumption truncates to a value of the C `int` type. */
  predicate InIntRange(x: real) {
    -2147483649.0 < x < 2147483648.0
  }

  /** Conversion to an integer, discarding the fraction (toward zero). */
  function Truncate(x: real): (n: int)
    ensures x >= 0.0 ==> 0 <= n && n as real <= x < n as real + 1.0
    ensures x < 0.0 ==> n <= 0 && n as real - 1.0 < x <= n as real
  {
    if x >= 0.0 then x.Floor else -((-x).Floor)
  }

  /** The base fee's line item, present only when the fee is positive. */
  function BaseFeeItems(baseFee: real): seq<real> {
    if baseFee > 0.0 then [baseFee] else []
  }

  /** The running total before tax: the base fee and every bracket's charge. */
  function PreTax(s: Schedule, n: int): real {
    s.baseFee + SumMoney(Charges(s.brackets, n))
  }

  function Tax(s: Schedule, n: int): real {
    PreTax(s, n) * TaxRate
  }

  /** The breakdown of a bill of `n` whole units on schedule `s`. */
  function LineItems(s: Schedule, n: int, taxed: bool): seq<real> {
    BaseFeeItems(s.baseFee) + Charges(s.brackets, n) + (if taxed then [Tax(s, n)] else [])
  }

  /** The total the calculator returns: the running total plus the tax. */
  function Total(s: Schedule, n: int, taxed: bool): real {
    if taxed then PreTax(s, n) + Tax(s, n) else PreTax(s, n)
  }

  function ElectricityItems(kWh: real, user: UserType, season: Season): seq<real> {
    LineItems(ElectricitySchedule(user, season), Truncate(kWh), true)
  }

  function ElectricityTotal(kWh: real, user: UserType, season: Season): real {
    Total(ElectricitySchedule(user, season), Truncate(kWh), true)
  }

  /** Only natural gas is taxed. */
  function GasItems(m3: real, gType: GasType, user: UserType): seq<real> {
    LineItems(GasSchedule(gType, user), Truncate(m3), gType == NaturalGas)
  }

  function GasTotal(m3: real, gType: GasType, user: UserType): real {
    Total(GasSchedule(gType, user), Truncate(m3), gType == NaturalGas)
  }

  /** The returned total is the sum of the breakdown. */
  lemma SumOfLineItems(s: Schedule, n: int, taxed: bool)
    requires s.baseFee >= 0.0
    ensures SumMoney(LineItems(s, n, taxed)) == Total(s, n, taxed)
  {
    var fee := BaseFeeItems(s.baseFee);
    var charges := Charges(s.brackets, n);
    var tax: seq<real> := if taxed then [Tax(s, n)] else [];
    SumMoneyAppend(fee, charges);
    SumMoneyAppend(fee + charges, tax);
    assert SumMoney(fee) == s.baseFee;
  }

  /**
   * With tax the total is the pre-tax total (base fee and bracket charges)
   * times 1.05; without it, the pre-tax total.
   */
  lemma TotalOfBill(s: Schedule, n: int, taxed: bool)
    ensures taxed ==> Total(s, n, taxed) == (s.baseFee + SumMoney(Charges(s.brackets, n))) * 1.05
    ensures !taxed ==> Total(s, n, taxed) == s.baseFee + SumMoney(Charges(s.brackets, n))
  {
  }

  /**
   * The breakdown holds the base fee if positive, one entry per touched
   * bracket and the tax if any; the touched brackets are exactly those
   * that begin below the consumption, so no bill has more than eight items.
   */
  lemma LineItemCount(s: Schedule, n: int, taxed: bool)
    requires WellFormed(s.brackets) && |s.brackets| <= MaxBrackets
    ensures var touched := |Walk(s.brackets, n)|;
      && |LineItems(s, n, taxed)| == (if s.baseFee > 0.0 then 1 else 0) + touched + (if taxed then 1 else 0)
      && (forall j :: 0 <= j < |s.brackets| ==> (j < touched <==> s.brackets[j].min < n))
      && |LineItems(s, n, taxed)| <= MaxEntries
  {
    WalkMatchesRanges(s.brackets, 0, n);
    ChargesOfWalk(s.brackets, n);
  }

  /**
   * A consumption that truncates to 0 or below bills no bracket: the bill is
   * the base fee when positive and, when taxed, the tax on it; untaxed with
   * no base fee, as for liquefied petroleum gas, it is empty.
   */
  lemma NothingConsumed(s: Schedule, n: int, taxed: bool)
    requires n <= 0
    ensures LineItems(s, n, taxed) == BaseFeeItems(s.baseFee) + (if taxed then [s.baseFee * TaxRate] else [])
    ensures Total(s, n, taxed) == if taxed then s.baseFee * 1.05 else s.baseFee
  {
    assert Charges(s.brackets, n) == [];
  }

  /** One more whole unit raises the total, unless the count is still below zero. */
  lemma TotalStep(s: Schedule, n: int, taxed: bool)
    requires WellFormed(s.brackets)
    ensures Total(s, n, taxed) <= Total(s, n + 1, taxed)
    ensures n >= 0 ==> Total(s, n, taxed) < Total(s, n + 1, taxed)
  {
    if n >= 0 {
      ChargesIncrease(s.brackets, 0, n);
    }
  }

  /**
   * Monotonicity: more whole units never lower the total, and every unit
   * beyond zero strictly raises it.
   */
  lemma {:induction false} TotalMonotone(s: Schedule, m: int, n: int, taxed: bool)
    requires WellFormed(s.brackets) && m <= n
    ensures Total(s, m, taxed) <= Total(s, n, taxed)
    ensures 0 <= m < n ==> Total(s, m, taxed) < Total(s, n, taxed)
    decreases n - m
  {
    if m < n {
      TotalMonotone(s, m, n - 1, taxed);
      TotalStep(s, n - 1, taxed);
    }
  }

  /** A larger electricity consumption never costs less. */
  lemma ElectricityMonotone(kWh: real, more: real, user: UserType, season: Season)
    requires kWh <= more
    ensures ElectricityTotal(kWh, user, season) <= ElectricityTotal(more, user, season)
  {
    TotalMonotone(ElectricitySchedule(user, season), Truncate(kWh), Truncate(more), true);
  }

  /** A larger gas consumption never costs less. */
  lemma GasMonotone(m3: real, more: real, gType: GasType, user: UserType)
    requires m3 <= more
    ensures GasTotal(m3, gType, user) <= GasTotal(more, gType, user)
  {
    TotalMonotone(GasSchedule(gType, user), Truncate(m3), Truncate(more), gType == NaturalGas);
  }

  /**
   * The bracket loop shared by both calculators: walks `rates` from the
   * first bracket while units remain, writing one line item per touched
   * bracket from `steps0` on and adding it to the running total; the rest of
   * the buffer keeps its contents.
   */
  method WalkBrackets(rates: seq<Bracket>, consumption: int, breakdown: array<real>, steps0: nat, total0: real)
    returns (steps: nat, total: real)
    requires steps0 + |rates| <= breakdown.Length
    modifies breakdown
    ensures steps == steps0 + |Walk(rates, consumption)| == steps0 + |Charges(rates, consumption)|
    ensures forall k :: 0 <= k < breakdown.Length ==>
      breakdown[k] == if steps0 <= k < steps then Charges(rates, consumption)[k - steps0] else old(breakdown[k])
    ensures total == total0 + SumMoney(Charges(rates, consumption))
  {
    ghost var orig := breakdown[..];
    steps, total := steps0, total0;
    var remaining := consumption;
    var i := 0;
    ghost var written: seq<real> := [];
    while i < |rates| && remaining > 0
      invariant 0 <= i <= |rates| && steps == steps0 + i && |written| == i
      invariant forall k :: 0 <= k < breakdown.Length ==>
        breakdown[k] == if steps0 <= k < steps then written[k - steps0] else orig[k]
      invariant written + Charges(rates[i..], remaining) == Charges(rates, consumption)
      invariant total == total0 + SumMoney(written)
    {
      var usage := Usage(rates[i], remaining);
      var charge := Charge(rates[i], usage);
      WalkStep(written, rates, i, remaining);
      SumMoneyAppend(written, [charge]);
      total := total + charge;
      breakdown[steps] := charge;
      written := written + [charge];
      steps := steps + 1;
      remaining := remaining - usage;
      i := i + 1;
    }
    assert Charges(rates[i..], remaining) == [];
    assert written == Charges(rates, consumption);
    ChargesOfWalk(rates, consumption);
  }

  /** One turn of the bracket loop at bracket `i`. */
  lemma WalkStep(written: seq<real>, rates: seq<Bracket>, i: nat, remaining: int)
    requires i < |rates| && remaining > 0
    ensures var u := Usage(rates[i], remaining);
      written + Charges(rates[i..], remaining)
      == (written + [Charge(rates[i], u)]) + Charges(rates[i + 1..], remaining - u)
  {
    assert rates[i..][1..] == rates[i + 1..];
  }

  /**
   * The calculation both calculators share once a schedule is chosen: the
   * running total starts at the base fee, which is written first when
   * positive; the bracket loop follows; the tax on the running total comes
   * last when `taxed`. The buffer then holds the bill's line items followed
   * by its old contents.
   */
  method BillSchedule(s: Schedule, consumption: int, taxed: bool, breakdown: array<real>)
    returns (total: real, steps: nat)
    requires |s.brackets| <= MaxBrackets && s.baseFee >= 0.0
    requires breakdown.Length >= BreakdownCapacity
    modifies breakdown
    ensures steps == |LineItems(s, consumption, taxed)| <= MaxEntries
    ensures forall k :: 0 <= k < breakdown.Length ==>
      breakdown[k] == if k < steps then LineItems(s, consumption, taxed)[k] else old(breakdown[k])
    ensures total == Total(s, consumption, taxed)
  {
    ghost var fee := BaseFeeItems(s.baseFee);
    total := s.baseFee;
    steps := 0;
    if s.baseFee > 0.0 {
      breakdown[steps] := s.baseFee;
      steps := steps + 1;
    }
    assert forall k :: 0 <= k < breakdown.Length ==> breakdown[k] == if k < steps then fee[k] else old(breakdown[k]);
    ghost var charges := Charges(s.brackets, consumption);
    ChargesOfWalk(s.brackets, consumption);
    steps, total := WalkBrackets(s.brackets, consumption, breakdown, steps, total);
    ghost var billed := fee + charges;
    assert forall k :: 0 <= k < breakdown.Length ==> breakdown[k] == if k < steps then billed[k] else old(breakdown[k]);
    assert total == PreTax(s, consumption);
    if taxed {
      var tax := total * TaxRate;
      assert tax == Tax(s, consumption);
      breakdown[steps] := tax;
      steps := steps + 1;
      total := total + tax;
      assert LineItems(s, consumption, taxed) == billed + [tax];
    } else {
      assert LineItems(s, consumption, taxed) == billed;
    }
  }

  /**
   * The electricity calculator: base fee, bracket charges and 5% tax, with
   * the breakdown written into the caller's buffer.
   */
  method CalculateElectricity(kWh: real, user: UserType, season: Season, breakdown: array<real>)
    returns (total: real, steps: nat)
    requires InIntRange(kWh)
    requires breakdown.Length >= BreakdownCapacity
    modifies breakdown
    ensures steps <= MaxEntries
    ensures breakdown[..steps] == ElectricityItems(kWh, user, season)
    ensures forall k :: steps <= k < breakdown.Length ==> breakdown[k] == old(breakdown[k])
    ensures total == ElectricityTotal(kWh, user, season)
    ensures total == SumMoney(breakdown[..steps])
  {
    var s := ElectricitySchedule(user, season);
    var remaining := Truncate(kWh);
    total, steps := BillSchedule(s, remaining, true, breakdown);
    assert breakdown[..steps] == LineItems(s, remaining, true);
    SumOfLineItems(s, remaining, true);
  }

  /**
   * The gas calculator: base fee and bracket charges, and the 5% tax only
   * for natural gas, with the breakdown written into the caller's buffer.
   */
  method CalculateGas(m3: real, gType: GasType, user: UserType, breakdown: array<real>)
    returns (total: real, steps: nat)
    requires InIntRange(m3)
    requires breakdown.Length >= BreakdownCapacity
    modifies breakdown
    ensures steps <= MaxEntries
    ensures breakdown[..steps] == GasItems(m3, gType, user)
    ensures forall k :: steps <= k < breakdown.Length ==> breakdown[k] == old(breakdown[k])
    ensures total == GasTotal(m3, gType, user)
    ensures total == SumMoney(breakdown[..steps])
  {
    var s := GasSchedule(gType, user);
    var remaining := Truncate(m3);
    total, steps := BillSchedule(s, remaining, gType == NaturalGas, breakdown);
    assert breakdown[..steps] == LineItems(s, remaining, gType == NaturalGas);
    SumOfLineItems(s, remaining, gType == NaturalGas);
  }
}
