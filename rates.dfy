/**
 * The built-in rate catalogue of the tiered electricity and gas bill
 * calculator: customer categories, seasons and fuel types, the progressive
 * rate brackets and the base fee of every schedule, and the selection of a
 * schedule from the selectors.
 */
module Rates {

  datatype UserType = Residential | Commercial | Industrial
  datatype Season = Summer | NonSummer
  datatype GasType = NaturalGas | Lpg

  /** The sentinel `max` of a bracket that has no upper limit. */
  const Unbounded: int := -1

  /**
   * One progressive tier: the units from `min` to `max` inclusive are billed
   * at `rate` per unit; `max == Unbounded` means every unit from `min` on.
   * The bracket's label is left out: the computation never reads it.
   */
  datatype Bracket = Bracket(min: int, max: int, rate: real)

  /** A rate schedule: its brackets in ascending order and its base fee. */
  datatype Schedule = Schedule(brackets: seq<Bracket>, baseFee: real)

  predicate Bounded(b: Bracket) {
    b.max != Unbounded
  }

  /** The number of units a bounded bracket can take, `max - min + 1`. */
  function Width(b: Bracket): int
    requires Bounded(b)
  {
    b.max - b.min + 1
  }

  /**
   * The brackets tile the units from `start` on: the first begins at
   * `start`, each bounded bracket is non-empty and the next begins right
   * after it, exactly the last one is unbounded, and every rate is positive.
   */
  predicate Tiered(rates: seq<Bracket>, start: int) {
    && |rates| > 0
    && rates[0].min == start
    && (forall i :: 0 <= i < |rates| - 1 ==>
          Bounded(rates[i]) && rates[i].min <= rates[i].max && rates[i + 1].min == rates[i].max + 1)
    && !Bounded(rates[|rates| - 1])
    && (forall i :: 0 <= i < |rates| ==> rates[i].rate > 0.0)
  }

  /** A table that tiles every unit from 0 on. */
  predicate WellFormed(rates: seq<Bracket>) {
    Tiered(rates, 0)
  }

  /** The most brackets any built-in table has. */
  const MaxBrackets: nat := 6

  const ResidentialSummer: seq<Bracket> := [
    Bracket(0, 120, 1.63),
    Bracket(121, 330, 2.38),
    Bracket(331, 500, 3.52),
    Bracket(501, 700, 4.80),
    Bracket(701, 1000, 5.66),
    Bracket(1001, Unbounded, 6.41)
  ]

  const ResidentialNonSummer: seq<Bracket> := [
    Bracket(0, 120, 1.63),
    Bracket(121, 330, 2.10),
    Bracket(331, 500, 2.89),
    Bracket(501, 700, 3.94),
    Bracket(701, 1000, 4.60),
    Bracket(1001, Unbounded, 5.03)
  ]

  const CommercialSummer: seq<Bracket> := [
    Bracket(0, 330, 2.53),
    Bracket(331, 700, 3.55),
    Bracket(701, 1500, 4.25),
    Bracket(1501, Unbounded, 4.73)
  ]

  const CommercialNonSummer: seq<Bracket> := [
    Bracket(0, 330, 2.12),
    Bracket(331, 700, 2.91),
    Bracket(701, 1500, 3.44),
    Bracket(1501, Unbounded, 3.81)
  ]

  const IndustrialSummer: seq<Bracket> := [Bracket(0, Unbounded, 2.85)]

  const IndustrialNonSummer: seq<Bracket> := [Bracket(0, Unbounded, 2.28)]

  const NaturalResidential: seq<Bracket> := [
    Bracket(0, 50, 9.52),
    Bracket(51, 100, 10.75),
    Bracket(101, 200, 11.42),
    Bracket(201, 500, 12.66),
    Bracket(501, Unbounded, 13.25)
  ]

  const NaturalCommercial: seq<Bracket> := [
    Bracket(0, 100, 11.18),
    Bracket(101, 500, 11.85),
    Bracket(501, Unbounded, 12.52)
  ]

  const LpgRates: seq<Bracket> := [Bracket(0, Unbounded, 32.5)]

  /**
   * The electricity schedule of a customer category in a season: residential
   * customers pay no base fee, commercial 79.7 and industrial 223.7; the
   * season picks the summer or the non-summer table of the category.
   */
  function ElectricitySchedule(user: UserType, season: Season): (s: Schedule)
    ensures WellFormed(s.brackets) && |s.brackets| <= MaxBrackets
    ensures s.baseFee == match user
                         case Residential => 0.0
                         case Commercial => 79.7
                         case Industrial => 223.7
    ensures user == Industrial ==> |s.brackets| == 1
  {
    if user == Residential then
      Schedule(if season == Summer then ResidentialSummer else ResidentialNonSummer, 0.0)
    else if user == Commercial then
      Schedule(if season == Summer then CommercialSummer else CommercialNonSummer, 79.7)
    else
      Schedule(if season == Summer then IndustrialSummer else IndustrialNonSummer, 223.7)
  }

  /**
   * The gas schedule of a fuel and a customer category: natural gas costs a
   * residential customer a base fee of 93 with the residential table and any
   * other customer 150 with the commercial table; liquefied petroleum gas has no base fee and one
   * flat rate of 32.5 whatever the customer.
   */
  function GasSchedule(gType: GasType, user: UserType): (s: Schedule)
    ensures WellFormed(s.brackets) && |s.brackets| <= MaxBrackets
    ensures gType == NaturalGas ==> s.baseFee == if user == Residential then 93.0 else 150.0
    ensures gType == NaturalGas ==> s.brackets == if user == Residential then NaturalResidential else NaturalCommercial
    ensures gType == Lpg ==> s.baseFee == 0.0 && s.brackets == [Bracket(0, Unbounded, 32.5)]
  {
    if gType == NaturalGas then
      if user == Residential then Schedule(NaturalResidential, 93.0)
      else Schedule(NaturalCommercial, 150.0)
    else
      Schedule(LpgRates, 0.0)
  }
}
