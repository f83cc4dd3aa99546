# rv-calculator tax engine, modelled in Dafny

rv-calculator estimates what a Portuguese self-employed worker ("recibos
verdes") owes and keeps in a year. The estimate covers:

- VAT (IVA);
- Social Security contributions;
- income tax (IRS) under the simplified regime (75% of revenue is taxable);
- the "IRS Jovem" youth exemption;
- net income.

The repository holds two independent engines. This model keeps them apart, each
with its own constants:

- `Calculations` models `src/lib/calculations.ts`.
  - `calculateIRSPayable` is a loop over the bracket table that consumes a
    `remaining` amount.
  - `calculateTaxes` builds the annual and monthly breakdown and the
    effective IRS rate.
  - VAT is charged on top of domestic revenue, and nothing is charged below
    15000.
  - The IRS Jovem exemption is a fraction of the IRS base, capped at 55 × IAS
    (IAS 509.27).
- `TaxCalculator` models the calculator screen
  `src/components/TaxCalculator.tsx`.
  - `calculateIRS` is a second bracket loop with a different table and a
    different loop shape.
  - The straight-line computation of the component body is lifted into the
    pure function `Compute` of the five inputs, with `Screen` giving the
    figures shown for the same five inputs.
  - VAT is extracted from a VAT-inclusive amount (23/123 of it).
  - Monthly amounts are annualised with ×12.
  - Each IRS Jovem stage has its own fraction and a cap of so many IAS
    (IAS 509.26).

`Progressive` holds what the two engines share: bracket tables, the
progressive sum `ProgressiveTax(t, x)`, which is, over the brackets, `rate ×
max(0, min(x, hi) − lo)`, and its general properties.

- Both loops are methods with loop invariants. Each is proved equal to
  `ProgressiveTax` over any well-formed table (`Calculations.PayableOver`,
  `TaxCalculator.TaxOver`).
- The methods named after the source functions apply those loops to their
  own module's table.
- The properties then follow for all inputs:
  - no tax on amounts ≤ 0;
  - the tax lies between 0 and the top rate times the amount;
  - the tax is monotone, with slope at most the top rate;
  - the tax is convex: piecewise linear, with a slope that never decreases;
  - an amount inside the first bracket is taxed at 13.25% only.

Amounts are `real`, so the arithmetic is exact. The `Infinity` limit of the
last bracket is the `Infinity` constructor of `Limit`.

Behaviour of the code worth knowing:

- Negative amounts are not clamped to zero. `parseFloat(...) || 0` turns only
  NaN and 0 into 0, so negative revenue runs through both engines;
  `TaxCalculator.NoPositiveRevenue` states what then comes out.
- On the screen, the taxable amount after the exemption is
  `collectable − exemption`, with no floor at zero.
  `TaxCalculator.Compute` proves it is non-negative whenever revenue is.
- The two engines use different IAS values (509.27 and 509.26), different
  bracket tables and different IRS Jovem tables.

## Model

| member | source | states |
|---|---|---|
| `Progressive.Min` | src/lib/calculations.ts:65-68 | `Math.min`: the result is one of the two amounts and does not exceed either |
| `Progressive.Max` | src/lib/calculations.ts:69 | `Math.max`: the result is one of the two amounts and is not below either |
| `Progressive.Minus` | src/lib/calculations.ts:40 | `bracket.upto - lastLimit` when the limit may be `Infinity`: infinite exactly when the limit is, and otherwise the difference, so that adding `lastLimit` back gives the limit |
| `Progressive.MinLimit` | src/components/TaxCalculator.tsx:46 | `Math.min` with a bracket limit that may be `Infinity`: the result is the smaller of the two, and is the amount itself against `Infinity` |
| `Progressive.Segment` | src/lib/calculations.ts:40 | the part of an amount inside the bracket `(lo, hi]`: non-negative, 0 below `lo`, `x − lo` inside the bracket, the bracket's full width above it |
| `Progressive.NothingBelowFloor` | src/lib/calculations.ts:41 | once the amount does not exceed a bracket's lower limit, the brackets from there on add nothing, which is why the loops may stop there |
| `Progressive.SumFromGrowth` | src/lib/calculations.ts:23-47 | over a well-formed table with rates in `[0, m]`, raising the amount from `x` to `y` raises the tax by between 0 and `m × (y − x)` |
| `Progressive.TaxGrowth` | src/lib/calculations.ts:23-47 | the progressive tax is non-decreasing, with slope at most the top rate, for all amounts, negative ones included |
| `Progressive.TaxBounds` | src/lib/calculations.ts:23-47 | no tax on amounts ≤ 0; otherwise the tax lies in `[0, m × x]` |
| `Progressive.TaxConvex` | src/lib/calculations.ts:23-47 | over a well-formed table whose rates never decrease, from a rate of at least 0, a rise `d` of the amount costs at least as much tax on a higher amount as on a lower one: the tax is piecewise linear with a slope that never decreases |
| `Progressive.FirstBracketOnly` | src/lib/calculations.ts:23-47 | an amount inside the first bracket is taxed at the first rate only |
| `Calculations.ExemptionFraction` | src/lib/calculations.ts:15-21 | each IRS Jovem option's exempt fraction lies in `[0, 1]`; it is 0 exactly for `none`, and 1 exactly for the first year |
| `Calculations.BracketTable` | src/lib/calculations.ts:23-33 | the library's table is well formed: limits strictly increase from 0, and only the last bracket is unbounded; the rates never decrease from one bracket to the next; every rate lies in `[0, 0.48]` |
| `Calculations.LoopStep` | src/lib/calculations.ts:39-45 | a pass that finds a positive segment adds that bracket's share of the amount, and keeps the loop invariant for the next bracket |
| `Calculations.LoopStop` | src/lib/calculations.ts:40-41 | a pass that finds no positive segment leaves the total equal to the whole progressive tax |
| `Calculations.PayableOver` | src/lib/calculations.ts:35-47 | the loop of `calculateIRSPayable`, over any well-formed table, returns exactly the progressive sum for that table |
| `Calculations.CalculateIrsPayable` | src/lib/calculations.ts:35-47 | `calculateIRSPayable(x)` equals the progressive tax on `x` under the library's table |
| `Calculations.Rate` | src/lib/calculations.ts:88 | the effective rate is the quotient (`q × base == amount`) when the base is positive, and 0 otherwise |
| `Calculations.Exemption` | src/lib/calculations.ts:65-68 | the exemption is the smaller of the stage's fraction of the IRS base and 55 × IAS; it is 0 for `none` and non-negative on a non-negative base |
| `Calculations.IrsTaxable` | src/lib/calculations.ts:69 | the taxable amount is never negative, and never exceeds a non-negative base; for `none` it is `max(irsBase, 0)` |
| `Calculations.CalculateTaxes` | src/lib/calculations.ts:49-90 | gross is domestic + foreign; VAT is 0 exactly below 15000 of domestic revenue and 23% of it otherwise, whatever the foreign revenue; SS is 0 if exempt, else 14.98% of gross; IRS is the progressive tax on the taxable amount; net + SS + IRS = gross; every monthly field is the annual one ÷ 12 |
| `Calculations.IrsPayableBounds` | src/lib/calculations.ts:35-47 | no income tax on a taxable amount ≤ 0; otherwise it lies in `[0, 0.48 × x]` |
| `Calculations.IrsPayableMonotone` | src/lib/calculations.ts:23-47 | income tax is non-decreasing in the taxable amount, and grows by at most 48% of any rise |
| `Calculations.IrsPayableConvex` | src/lib/calculations.ts:23-47 | income tax is piecewise linear with a slope that never decreases: a rise of the taxable amount costs at least as much tax higher up |
| `Calculations.IrsFirstBracket` | src/lib/calculations.ts:23-47 | up to 7703, income tax is exactly 13.25% of the amount |
| `Calculations.EffectiveRate` | src/lib/calculations.ts:88 | with no positive IRS base, both the rate and the IRS are 0; otherwise the effective rate lies in `[0, 0.48]` |
| `Calculations.ZeroRevenue` | src/lib/calculations.ts:60-89 | no revenue gives an all-zero breakdown and a zero effective rate |
| `Calculations.OnlyVatDependsOnSplit` | src/lib/calculations.ts:60-71 | two splits of one total between domestic and foreign revenue give the same SS, IRS, net and effective rate |
| `Calculations.SsExemptionGain` | src/lib/calculations.ts:62-71 | the SS exemption raises net income by exactly 14.98% of gross, and leaves IRS and VAT unchanged |
| `Calculations.TaxableGrowth` | src/lib/calculations.ts:64-69 | the taxable amount grows with the IRS base, never faster than the base |
| `Calculations.RevenueMonotone` | src/lib/calculations.ts:60-71 | more total revenue never lowers SS, IRS or net income |
| `Calculations.IrsOn22500` | src/lib/calculations.ts:23-47 | the income tax on 22500 is 4455.9575 |
| `Calculations.Example30000` | src/lib/calculations.ts:49-90 | 30000 of domestic revenue, without IRS Jovem and paying SS, gives SS 4494, IRS 4455.9575, VAT 6900 and net 21050.0425 |
| `TaxCalculator.IrsJovemRules` | src/components/TaxCalculator.tsx:19-26 | every stage's rate lies in `[0, 1]` and its cap is non-negative; both are 0 exactly for `none` |
| `TaxCalculator.BracketTableShape` | src/components/TaxCalculator.tsx:30-40 | the screen's table has 9 brackets; limits are positive and strictly increasing, and only the last bracket is unbounded; rates do not decrease, running from 13.25% to 45%; the table is well formed with rates in `[0, 0.45]` |
| `TaxCalculator.LoopStep` | src/components/TaxCalculator.tsx:45-53 | a pass with a positive taxable part adds it at the bracket's rate, moves `prev` to the bracket's limit, and keeps the loop invariant |
| `TaxCalculator.LoopStop` | src/components/TaxCalculator.tsx:46-51 | a pass with no positive taxable part leaves the tax equal to the whole progressive tax |
| `TaxCalculator.TaxOver` | src/components/TaxCalculator.tsx:42-55 | the loop of `calculateIRS`, over any well-formed table, returns exactly the progressive sum for that table |
| `TaxCalculator.CalculateIrs` | src/components/TaxCalculator.tsx:42-55 | `calculateIRS(x)` equals the progressive tax on `x` under the screen's table |
| `TaxCalculator.Exemption` | src/components/TaxCalculator.tsx:79-80 | the exemption is the smaller of the stage's fraction of collectable income and the stage's cap × IAS; it is 0 for `none`, and within `[0, collectable]` for non-negative income |
| `TaxCalculator.Compute` | src/components/TaxCalculator.tsx:66-85 | monthly inputs are annualised ×12; the VAT is 23% of the VAT-exclusive part, and the two add up to the amount invoiced (1.23 × exclusive part = invoiced); revenue adds the non-VAT amount in full; SS is 0 if exempt, else 14.98% of revenue; collectable is 75% of revenue; taxable is collectable − exemption, within `[0, collectable]` for non-negative revenue; IRS is the progressive tax on it; net + SS + IRS = revenue; the State's total is SS + IRS + VAT; net + State's total = everything invoiced |
| `TaxCalculator.Screen` | src/components/TaxCalculator.tsx:66-94 | the figures displayed for the five inputs: the same `isMonthly` that annualised the amounts divides the results back, so in monthly mode every displayed figure (the chart's four slices and the State's total) is the annual one ÷ 12, and in annual mode it is the annual figure |
| `TaxCalculator.IrsTaxBounds` | src/components/TaxCalculator.tsx:42-55 | no income tax on an amount ≤ 0; otherwise it lies in `[0, 0.45 × x]` |
| `TaxCalculator.IrsTaxMonotone` | src/components/TaxCalculator.tsx:30-55 | income tax is non-decreasing in the amount, and grows by at most 45% of any rise |
| `TaxCalculator.IrsTaxConvex` | src/components/TaxCalculator.tsx:30-55 | income tax is piecewise linear with a slope that never decreases: a rise of the amount costs at least as much tax higher up |
| `TaxCalculator.IrsTaxFirstBracket` | src/components/TaxCalculator.tsx:30-55 | up to 7703, income tax is exactly 13.25% of the amount |
| `TaxCalculator.TaxableGrowth` | src/components/TaxCalculator.tsx:78-81 | the amount left after the exemption grows with collectable income, never faster than it |
| `TaxCalculator.MonthlyIsTwelveMonths` | src/components/TaxCalculator.tsx:66-94 | monthly mode on `x` gives exactly the figures of annual mode on `12x`, and every figure displayed in monthly mode is the one displayed in annual mode on `12x`, ÷ 12 |
| `TaxCalculator.RevenueMonotone` | src/components/TaxCalculator.tsx:74-84 | more annual revenue never lowers SS, IRS or net income |
| `TaxCalculator.NothingEntered` | src/components/TaxCalculator.tsx:66-85 | with both amounts 0, every figure is 0 in either mode |
| `TaxCalculator.NoPositiveRevenue` | src/components/TaxCalculator.tsx:67-84 | with revenue ≤ 0 (negative input is not clamped), the taxable amount is ≤ 0 and no IRS is due; net is revenue − SS; and SS is negative for negative revenue unless exempt |
| `TaxCalculator.IrsOn9000` | src/components/TaxCalculator.tsx:30-55 | the income tax on 9000 is 1254.1075 |
| `TaxCalculator.Example1230Monthly` | src/components/TaxCalculator.tsx:66-85 | 1230 a month with VAT and no exemptions gives 14760 invoiced, VAT 2760, revenue 12000, SS 1797.6, IRS 1254.1075, net 8948.2925 and 5811.7075 handed to the State |

## Left out

- The React component itself is not modelled: rendering, `useState` hooks,
  form controls, charts, colours and tooltips (src/components/TaxCalculator.tsx:57-64,96-169).
  They are user interface. The inputs of `Compute` stand in for the state
  hooks.
- Parsing of the text fields (`parseFloat(...) || 0`) is left out. It is a
  library call on user text, so the parsed numbers are inputs to `Compute`.
  NaN, which it turns into 0, does not exist among reals. Negative numbers pass
  through unchanged, as they do in the code.
- Rounding of displayed amounts (`toFixed(2)`) is left out. `Screen` gives
  the unrounded values. So are the formatting helpers in `src/lib/utils.ts`,
  `src/i18n.ts`, `src/main.tsx`, `src/App.tsx` and `vite.config.ts`. They are
  formatting, localisation and start-up plumbing.
- IEEE-754 floating point is not modelled, so rounding errors, NaN and
  Infinity arithmetic are absent. Amounts are exact reals, and a bracket limit
  is either a finite amount or `Infinity`.
- After the unbounded last bracket, both loops assign `Infinity` to their
  running limit (`lastLimit`, `prev`). No later pass reads it, because that
  bracket is the last. The model leaves the running limit unchanged there.
- `ssExempt = false`, the default parameter of `calculateTaxes`, is not
  modelled. The model's `CalculateTaxes` always takes the flag explicitly.
- The two bracket loops are written once over any well-formed table
  (`PayableOver`, `TaxOver`). `CalculateIrsPayable` and `CalculateIrs` then
  apply them to the fixed table, rather than iterating over the constant
  directly.
