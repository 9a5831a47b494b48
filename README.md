# Theater billing engine: a verified Dafny model

This project models the pricing and aggregation engine of a small theatre
billing program. An invoice names a customer and a list of performances.
Each performance names a play from a catalogue and an audience size. The
engine prices each performance by its play's genre (tragedy, comedy, history
or pastoral) in cents and awards loyalty volume credits. It then collects one
immutable record per performance and sums the amounts and the credits.

The source holds the per-genre formulas twice: in the statement printer
(`getAmount`, `getVolumeCredits`) and in the performance calculator
(`amountFor`, `volumeCredits`). Here the formulas are defined once, in
`Pricing`. Each copy keeps its own dispatch on the play's type: a switch in
the printer, an if-chain in the calculator. Lemmas prove that the two copies
agree, errors included.

Files and modules:

- `theater.dfy` (`Theater`): the value types `Play`, `Performance` and
  `Invoice`; the two errors (`UnknownType`, `UnresolvedPlay`); `Result` and
  `Option`. It also holds `Traverse`, the walk over a sequence that stops at
  the first failure. `Traverse` specifies the three loops that can fail: the
  statement's construction loop (through `Entries`) and the printer's two
  totals (through `SumEach`, the accumulator loop they share). The
  statement's own two total loops cannot fail and are specified by `Sum`.
- `java_int.dfy` (`JavaInt`): Java's 32-bit `int` and the wrap-around of `+=`.
- `constants.dfy` (`Constants`): the named pricing constants.
- `pricing.dfy` (`Pricing`): genres and their type tags, the amount and
  credit formulas, and a rate-card restatement of the tariff with its lemmas.
- `statement_printer.dfy` (`StatementPrinter`): the printer's lookups,
  per-performance amount and credits, and the two totals.
- `performance_calculator.dfy` (`Calculators`): the calculator, its variants,
  the factory, and the agreement with the printer.
- `performance_data.dfy` (`PerformanceRecord`): the computed record.
- `statement_data.dfy` (`StatementAggregation`): the aggregation into a
  `StatementData` object and its totals.

Modelling choices:

- Java exceptions become `Err` values. An unknown type is
  `UnknownType(type)`. A play id missing from the catalogue makes the Java
  code dereference `null`; that is `UnresolvedPlay(id)`.
- Audience sizes form the subset type `Audience`, from 0 to
  `MAX_AUDIENCE` (100000). Within that range every per-performance amount and
  credit count provably fits a Java `int` (`Pricing.Amount`,
  `Pricing.VolumeCredits`). Totals are not bounded: the accumulator loops
  wrap to 32 bits exactly as Java's `+=` does (`JavaInt.Wrap32`). Where the
  exact sum fits, the total is the exact sum.
- The printer's fields are never reassigned, so its operations are functions
  and methods that take the invoice and the catalogue as parameters.
- `StatementData` is a class. It has a constant `customer` and a
  `performances` sequence that construction appends to in place. A Dafny
  constructor cannot fail, so the Java constructor is modelled as
  `StatementData.Create`. Create allocates an empty statement, runs the loop,
  and returns `Err` on the first failure; no partially built statement
  escapes. `GetCustomer` and `GetPerformances` return the fields, and
  Create's contract states what those fields are.
- `PerformanceData` and the calculator are datatypes: their fields are final
  and nothing updates them.
- The calculator subclasses are not part of this model. The model assumes
  they do not override the base class's `amountFor` or `volumeCredits`. Under
  that assumption the factory's choice of variant never changes a result.
  The factory still falls back to the tragedy variant for an unknown type,
  and `amountFor` then fails because the type is not `"tragedy"`
  (`Calculators.FactoryUnknownTypeFallsBack`).

Where the code differs from what one might expect, the model follows the
code:

- The factory does not fail on an unknown type, but the aggregation still
  does, through `amountFor`.
- `getVolumeCredits` and `volumeCredits` never fail on an unknown type; they
  award the baseline credits. So `getTotalVolumeCredits` fails only for a
  play missing from the catalogue
  (`StatementPrinter.TotalCreditsIgnoreUnknownTypes`). `getTotalAmount`
  fails for either error.

`Invoice`, `Performance`, `Play`, `Constants` and the calculator subclasses
are not in the source modelled here. The first three are modelled as plain
datatypes. The constants are named values in `Constants`:

- tragedy: base 40000, threshold 30, 1000 per seat above it;
- comedy: base 30000, threshold 20, over-capacity amount 10000, 500 per seat
  above the threshold, 300 per seat on the whole audience;
- history: base 20000, threshold 20, 1000 per seat above it;
- pastoral: base 40000, threshold 20, 2500 per seat above it;
- volume credits: threshold 30, comedy divisor 5.

The source modelled here gives none of these values, so all of them are
chosen. The tragedy, comedy and credit values reproduce the worked invoice
of `HamletAndAsYouLikeIt`; the history and pastoral values are free
choices. Only `HamletAndAsYouLikeIt` and the 32-bit bounds depend on the
values. The other lemmas hold for any non-negative constants and a positive
divisor.

## Model

| member | source | states |
|---|---|---|
| `Theater.Traverse` | src/main/java/theater/StatementData.java:24-39 | the walk succeeds iff every element's step succeeds; then it yields one result per element, in order, each that element's step value; otherwise it fails with the error of the first failing element, all before it having succeeded |
| `Theater.TraverseStopsAt` | src/main/java/theater/StatementData.java:24-30 | once element k fails and all before it succeed, the whole walk fails with element k's error, whatever follows |
| `Theater.SumEach` | src/main/java/theater/StatementPrinter.java:105-119 | the accumulator loop over a sequence returns the exact sum of the per-element values wrapped to 32 bits, or aborts with the first failing element's error |
| `JavaInt.Wrap32` | src/main/java/theater/StatementPrinter.java:108 | the stored result lies in the int range, differs from the exact value by a multiple of 2^32, and is the exact value whenever that fits |
| `JavaInt.WrapAdd` | src/main/java/theater/StatementData.java:66-70 | adding to a wrapped accumulator gives the same int as wrapping the exact sum, so a `+=` loop holds the exact total modulo 2^32 |
| `Pricing.GenreOf` | src/main/java/theater/StatementPrinter.java:54-86 | a type string has a genre exactly when it is one of the four tags, and that genre's tag is the string |
| `Pricing.GenreOfTag` | src/main/java/theater/StatementPrinter.java:54-84 | each genre's tag dispatches back to that genre |
| `Pricing.Amount` | src/main/java/theater/StatementPrinter.java:53-88 | the amount of any in-range audience is non-negative and at most MAX_AMOUNT, which fits a Java int |
| `Pricing.AmountIsCardAmount` | src/main/java/theater/StatementPrinter.java:55-84 | every genre's amount is one closed formula on its rate card: base + per-extra-seat rate × max(audience − threshold, 0) + over-capacity amount past the threshold + flat rate × audience |
| `Pricing.AmountAtOrBelowThreshold` | src/main/java/theater/StatementPrinter.java:55-84 | at or below the threshold the amount is the base amount, plus for comedy the flat per-seat term |
| `Pricing.AmountMarginalSeat` | src/main/java/theater/StatementPrinter.java:55-84 | past the threshold one more seat adds exactly the per-extra-seat rate (comedy: plus the flat per-seat rate) |
| `Pricing.AmountCrossingThreshold` | src/main/java/theater/StatementPrinter.java:62-70 | the first seat over the threshold adds the over-capacity amount once, on top of the per-seat rates |
| `Pricing.AmountMonotone` | src/main/java/theater/StatementPrinter.java:51-89 | for every genre a larger audience never costs less |
| `Pricing.BaseCredits` | src/main/java/theater/StatementPrinter.java:94 | the baseline credits are max(audience − threshold, 0): non-negative, at least audience − threshold, and one of the two |
| `Pricing.ComedyBonus` | src/main/java/theater/StatementPrinter.java:95-97 | the comedy bonus is the floor of audience / divisor: between 0 and the audience, and the largest q with q × divisor ≤ audience |
| `Pricing.VolumeCredits` | src/main/java/theater/StatementPrinter.java:91-98 | credits are non-negative and fit a Java int |
| `Pricing.VolumeCreditsClosedForm` | src/main/java/theater/StatementPrinter.java:91-98 | credits are max(audience − threshold, 0), plus audience / divisor for comedy only |
| `Pricing.VolumeCreditsMonotone` | src/main/java/theater/StatementPrinter.java:91-98 | for every genre a larger audience never earns fewer credits |
| `StatementPrinter.GetPlay` | src/main/java/theater/StatementPrinter.java:47-49 | the lookup yields a play exactly when the id is in the catalogue, and then the catalogue's play |
| `StatementPrinter.GetAmount` | src/main/java/theater/StatementPrinter.java:51-89 | a successful amount is a non-negative Java int |
| `StatementPrinter.GetVolumeCredits` | src/main/java/theater/StatementPrinter.java:91-98 | successful credits are a non-negative Java int |
| `StatementPrinter.GetAmountKnownType` | src/main/java/theater/StatementPrinter.java:54-84 | for a resolved play whose type is a genre's tag, the amount is that genre's formula |
| `StatementPrinter.GetAmountUnknownType` | src/main/java/theater/StatementPrinter.java:85-86 | a resolved play whose type is none of the tags fails with "unknown type", for any audience |
| `StatementPrinter.GetAmountMissingPlay` | src/main/java/theater/StatementPrinter.java:51-95 | a play id missing from the catalogue fails both the amount and the credits (the null play is dereferenced) |
| `StatementPrinter.GetVolumeCreditsResolved` | src/main/java/theater/StatementPrinter.java:91-98 | for a resolved play the credits are the genre's credits, or just the baseline when the type is unknown; they never fail |
| `StatementPrinter.GetTotalAmount` | src/main/java/theater/StatementPrinter.java:105-111 | the total succeeds iff every performance's amount does; it is then the wrapped sum of those amounts, and otherwise fails with the first failing performance's error |
| `StatementPrinter.GetTotalVolumeCredits` | src/main/java/theater/StatementPrinter.java:113-119 | the same for the credits: the wrapped sum of the per-performance credits, or the first failure |
| `StatementPrinter.TotalAmountFirstError` | src/main/java/theater/StatementPrinter.java:105-111 | the amount total fails with the error of the first failing performance |
| `StatementPrinter.TotalAmountFailsOnUnknownType` | src/main/java/theater/StatementPrinter.java:105-111 | one resolved performance with an unknown type anywhere fails the amount total |
| `StatementPrinter.TotalCreditsIgnoreUnknownTypes` | src/main/java/theater/StatementPrinter.java:113-119 | with every play resolved the credit total succeeds, unknown types included |
| `StatementPrinter.TotalAmountExact` | src/main/java/theater/StatementPrinter.java:105-111 | an invoice of n performances with n × MAX_AMOUNT within the int range is totalled exactly, with no wrap-around |
| `Calculators.PerformanceCalculator.AmountFor` | src/main/java/theater/AbstractPerformanceCalculator.java:29-62 | a successful amount is non-negative |
| `Calculators.PerformanceCalculator.VolumeCredits` | src/main/java/theater/AbstractPerformanceCalculator.java:68-74 | the credits are non-negative |
| `Calculators.CreatePerformanceCalculator` | src/main/java/theater/AbstractPerformanceCalculator.java:82-97 | the calculator built holds exactly the given performance and play |
| `Calculators.GettersReturnConstructorArguments` | src/main/java/theater/AbstractPerformanceCalculator.java:11-22 | `getPerformance` and `getPlay` return the constructor's arguments |
| `Calculators.FactoryKnownType` | src/main/java/theater/AbstractPerformanceCalculator.java:82-95 | a known type gets its own genre's variant, whose amount and credits are that genre's formulas |
| `Calculators.FactoryUnknownTypeFallsBack` | src/main/java/theater/AbstractPerformanceCalculator.java:82-97 | an unknown type gets the tragedy variant, whose amount still fails with "unknown type" and whose credits are the baseline |
| `Calculators.AmountForAgreesWithPrinter` | src/main/java/theater/AbstractPerformanceCalculator.java:29-62 | for every resolved performance the calculator's amount equals the printer's, value or error |
| `Calculators.VolumeCreditsAgreesWithPrinter` | src/main/java/theater/AbstractPerformanceCalculator.java:68-74 | for every resolved performance the calculator's credits equal the printer's |
| `PerformanceRecord.GettersReturnConstructorArguments` | src/main/java/theater/PerformanceData.java:14-52 | every getter returns its constructor argument unchanged |
| `PerformanceRecord.AmountGettersAgree` | src/main/java/theater/PerformanceData.java:34-44 | `amountFor()` and `getAmount()` both return the stored amount |
| `StatementAggregation.Entry` | src/main/java/theater/StatementData.java:25-38 | one turn of the loop: a missing play fails as unresolved; a resolved play succeeds iff its type is a known tag, and otherwise fails as an unknown type; a record carries the play's name and type, the audience, and that genre's amount and credits |
| `StatementAggregation.Entries` | src/main/java/theater/StatementData.java:24-39 | a successful build has one record per performance, in order, each with that performance's audience and its play's name and type |
| `StatementAggregation.EntriesAt` | src/main/java/theater/StatementData.java:24-39 | built records match the performances one to one, in order: record i has the name and type of performance i's play, its audience, and its calculator's amount and credits |
| `StatementAggregation.EntriesSucceed` | src/main/java/theater/StatementData.java:25-30 | building succeeds iff every play id resolves and every type is one of the four tags |
| `StatementAggregation.EntriesFirstError` | src/main/java/theater/StatementData.java:24-30 | building fails with the error of the first failing performance |
| `StatementAggregation.EntriesAgreeWithPrinter` | src/main/java/theater/StatementData.java:65-84 | a built statement's amounts and credits are the printer's per-performance values, so both sets of totals agree; when building fails, the printer's amount total fails with the same error |
| `StatementAggregation.HamletAndAsYouLikeIt` | src/main/java/theater/StatementData.java:22-84 | Hamlet with 55 seats costs 65000 and earns 25 credits; As You Like It with 35 seats costs 58000 and earns 12; the totals are 123000 and 37 |
| `StatementAggregation.StatementData.constructor` | src/main/java/theater/StatementData.java:12-23 | a new statement has the customer and no records |
| `StatementAggregation.StatementData.Create` | src/main/java/theater/StatementData.java:22-40 | construction succeeds iff building the records does, and otherwise fails with the same error; on a new statement `GetCustomer` is the invoice's customer and `GetPerformances` exactly the built records |
| `StatementAggregation.StatementData.GetCustomer` | src/main/java/theater/StatementData.java:47-49 | returns the stored customer, which `Create` sets to the invoice's customer |
| `StatementAggregation.StatementData.GetPerformances` | src/main/java/theater/StatementData.java:56-58 | returns the stored records, which `Create` sets to the built records |
| `StatementAggregation.StatementData.TotalAmount` | src/main/java/theater/StatementData.java:65-71 | the total is the wrapped sum of the records' amounts |
| `StatementAggregation.StatementData.VolumeCredits` | src/main/java/theater/StatementData.java:78-84 | the total is the wrapped sum of the records' credits |

## Left out

- `renderPlainText`, `usd` and `statement()` in the printer, and the whole HTML printer, are left out. They only format strings through `NumberFormat`, `Locale`, `String.format` and `System.lineSeparator()`.
- Audiences below 0 or above `MAX_AUDIENCE` are left out. Negative audiences would need Java's truncating division, and large ones would overflow the per-performance amount.
- The printer's two `for` loops run as one shared method, `Theater.SumEach`, called with the per-performance amount or credits. The loop is generic so that the prover does not have to unfold the pricing formulas inside it.
- `getPerformances` returns the statement's internal mutable list, which a caller could alias and change. The model leaves this aliasing out: it returns the sequence value.
- Exception types and messages (`RuntimeException` with "unknown type: …", `NullPointerException`) are reduced to the two `Error` cases.
- The calculator variants' own bodies are not part of this model (see above). An override of `amountFor` or `volumeCredits` in a subclass would not be captured.
