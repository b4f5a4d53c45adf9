# Tiered electricity and gas bill calculator

This project models the two calculators of a Taiwanese utility-bill estimator
(2024 rates): `calculateElectricity` and `calculateGas` in `README.c`. Each
calculator takes a consumption, picks a built-in schedule of progressive rate
brackets and a base fee from the customer category and the season or fuel
type, truncates the consumption to whole units, and walks the brackets in
order. It writes the base fee (when positive), one line item per touched
bracket and a 5% tax (always for electricity, only for natural gas) into the
caller's `breakdown` buffer, counts the items in `*steps` and returns the
total.

The model has four modules:

- `Rates` (`rates.dfy`): the selectors, the `Bracket` and `Schedule`
  values, the nine constant tables with the source's `max == -1` sentinel for
  "no upper limit", and the selection of a schedule. `Tiered` and
  `WellFormed` say what a correct table is. A correct table is contiguous from
  0, has non-empty bounded brackets, is unbounded only in its last bracket and
  has positive rates.
- `Brackets` (`brackets.dfy`): the bracket walk as specification functions.
  `Usage` is the units one bracket takes. `Walk` is the usage of every touched
  bracket. `Charges` is their line items. `UnitsIn` is an independent
  reference: the units of `0 .. n-1` that lie in a bracket's range. The
  lemmas prove conservation, fill order, agreement with the reference and
  strict growth per unit.
- `Billing` (`billing.dfy`): truncation toward zero, the line items and the
  total of a bill (`LineItems` and `Total`, which with `Brackets.Charges`
  are reference definitions without contracts of their own: the methods'
  contracts are stated in terms of them and the lemmas prove their
  properties), and the imperative calculators. `WalkBrackets` is the
  `for` loop. It keeps `remaining`, `i`, `*steps` and the running total, and
  writes into an `array<real>`. `BillSchedule` writes the base fee, runs the
  loop and adds the tax. `CalculateElectricity` and `CalculateGas` select the
  schedule and call it. Each method is proved to write exactly the line items
  of the specification and to return their sum. It is also proved to leave the
  rest of the buffer untouched.
- `Scenarios` (`scenarios.dfy`): worked bills with their exact breakdowns.

Money is exact `real`. Consumption is a `real`, truncated toward zero.

Where the code departs from what its own labels and comments suggest, the
model follows the code:

- The width of a bounded bracket is `max - min + 1`. The labels `"120度以下"`
  and `"121-330度"` (README.c:32-33) suggest a first bracket of 120 units,
  but the first residential bracket `{0, 120}` takes 121 units, and the
  first residential natural-gas bracket `{0, 50}` takes 51. 400 kWh residential in summer is billed as
  121 + 210 + 69 units (total 986.9055), not 120 + 209 + 69. 60 m³ of
  residential natural gas is 51 + 9 units (total 709.0335), not 50 + 10.
- Negative consumption is not rejected. It truncates to a count at or below
  zero, which bills no bracket. The bill is then the base fee when positive
  and, for electricity and natural gas only, the 5% tax on it; an LPG bill is
  empty, and a residential electricity bill is the single tax entry 0.
- The tax does not depend on a rate stored in the schedule. Electricity is
  always taxed and gas only when it is natural gas.

## Model

| member | source | states |
|---|---|---|
| Rates.ElectricitySchedule | README.c:31-92 | every electricity table is contiguous from 0, ordered, unbounded exactly in its last bracket, with positive rates and at most six brackets; base fee 0 residential, 79.7 commercial, 223.7 industrial; industrial has one flat bracket |
| Rates.GasSchedule | README.c:129-163 | every gas table is well formed; natural gas costs 93 with the residential table for residential customers and 150 with the commercial table for any other customer; LPG has base fee 0 and one flat 32.5 bracket whatever the customer |
| Brackets.Usage | README.c:105-113 | a bracket takes all remaining units or, when bounded and they do not fit, exactly its width `max-min+1`; never more than remains, never more than its width, and at least one unit while units remain |
| Brackets.Walk | README.c:104-117 | the loop touches at most as many brackets as the table has, and none when the truncated consumption is 0 or below |
| Brackets.ChargesOfWalk | README.c:104-116 | one line item per touched bracket, and each is that bracket's usage times its rate |
| Brackets.TieredLowerBound | README.c:31-60 | in a contiguous table no bracket starts before the table's start |
| Brackets.WalkConserves | README.c:102-117 | for positive truncated consumption the usages of the touched brackets sum exactly to it, so `remaining` ends at 0 |
| Brackets.WalkMatchesRanges | README.c:104-117 | each touched bracket takes exactly the units of `0..n-1` inside its range; a bracket is touched if and only if it starts below `n`; untouched brackets contain none of those units |
| Brackets.FillsInOrder | README.c:104-116 | every touched bracket takes at least one unit and at most its width; a later bracket is entered only when every earlier one was filled to capacity |
| Brackets.ChargesIncrease | README.c:104-117 | on a well-formed table one more unit strictly raises the sum of the bracket charges |
| Billing.Truncate | README.c:102 | `(int)` conversion: discards the fraction toward zero, for positive and negative consumption |
| Billing.SumOfLineItems | README.c:94-124 | the returned total equals the sum of the breakdown entries |
| Billing.TotalOfBill | README.c:94-122 | with tax the total is (base fee + bracket charges) × 1.05; without tax it is base fee + bracket charges |
| Billing.LineItemCount | README.c:96-121 | `*steps` = (1 if base fee > 0) + brackets touched + (1 if taxed); the touched brackets are exactly those starting below the consumption; never more than 8 entries, within `breakdown[10]` |
| Billing.NothingConsumed | README.c:94-124 | consumption truncating to 0 or below gives the base fee when positive and, for electricity and natural gas only, the 5% tax on it; an LPG bill is empty |
| Billing.TotalStep | README.c:104-122 | one more whole unit never lowers the total and, from 0 units on, strictly raises it |
| Billing.TotalMonotone | README.c:104-122 | a larger truncated consumption never gives a smaller total, and a strictly larger one from 0 on gives a strictly larger total |
| Billing.ElectricityMonotone | README.c:30-125 | a larger electricity consumption never costs less |
| Billing.GasMonotone | README.c:128-197 | a larger gas consumption never costs less |
| Billing.WalkBrackets | README.c:104-117 | the loop appends exactly the bracket line items after the entries already written, adds their sum to the running total, leaves the other entries alone, and advances `*steps` by the number of touched brackets |
| Billing.BillSchedule | README.c:94-124 | base fee, loop and optional tax write exactly the bill's line items `LineItems`, at most 8 of them; the returned total is `Total` of the schedule; the buffer beyond them is unchanged |
| Billing.CalculateElectricity | README.c:30-125 | the electricity breakdown and total for the selected schedule with 5% tax; total = sum of `breakdown[0..*steps)`; `*steps` ≤ 8 |
| Billing.CalculateGas | README.c:128-197 | the gas breakdown and total, taxed only for natural gas; total = sum of `breakdown[0..*steps)`; `*steps` ≤ 8 |
| Scenarios.ResidentialSummer100 | README.c:31-38 | 100 kWh residential summer: [163, 8.15], total 171.15 |
| Scenarios.ResidentialSummer400 | README.c:31-38 | 400.9 kWh residential summer: 121·1.63, 210·2.38, 69·3.52 and tax, total 986.9055 |
| Scenarios.CommercialNonSummerZero | README.c:53-58 | 0 kWh commercial non-summer: [79.7, 3.985], total 83.685 |
| Scenarios.IndustrialSummer1000 | README.c:59 | 1000 kWh industrial summer: [223.7, 2850, 153.685], total 3227.385 |
| Scenarios.NaturalGasResidential60 | README.c:129-135 | 60 m³ residential natural gas: [93, 51·9.52, 9·10.75, tax], total 709.0335 |
| Scenarios.IndustrialNaturalGas120 | README.c:154-157 | 120 m³ natural gas for an industrial customer uses the commercial table: [150, 101·11.18, 19·11.85, tax], total 1579.5465 |
| Scenarios.Lpg20 | README.c:141-143 | 20 m³ LPG: [650], no tax entry, total 650 |
| Scenarios.NegativeConsumption | README.c:173-175 | −5.5 m³ commercial natural gas: no bracket entry, [150, 7.5], total 157.5 |

## Left out

- IEEE `double` rounding of `usage * rate`, `total * 0.05` and the running sums is not modelled. Money is exact `real`.
- The `description[50]` labels of the brackets are not modelled. The computation never reads them.
- `(int)kWh` / `(int)m3` is undefined in C outside the `int` range and for NaN. The calculators require `InIntRange` of the consumption instead.
- `#include <stdio.h>` is not modelled. The file has no input or output code.
- The rate tables are local arrays reached through a pointer and `rate_count`. Here they are constant sequences.
- `*steps` is returned as an out-parameter instead of being written through a pointer.
- The buffer `double breakdown[10]` is an `array<real>` of length at least 10.
- The loop computes a bracket's usage with the same three branches, through the function `Usage` instead of inline code.
- Both C functions contain the same base-fee, loop and tax code. Here it is written once, in `BillSchedule` and `WalkBrackets`, with a `taxed` flag.
