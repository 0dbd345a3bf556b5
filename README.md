# Aurora Privé — a verified model of the banking demo's core

Aurora Privé is a demo bank for Chilean consumers. This project models its client-side core in Dafny and proves properties of that model.

The core has five parts:
- **The public credit simulator** (`public/ts/simulator`). It has these pieces:
  - annuity metrics (French amortisation, CAE, debt ratio);
  - a browser history capped at ten entries, with upsert by id;
  - the Zustand store, covering `setField`, `hydrate`, `compute`, `loadFromHistory` and the comparison against the CMF/ABIF benchmark table;
  - the view logic of the simulator component: the institution-repair effect, the insight cards and the CAE ranking.
- **The landing page's access panel** (`public/ts/home.tsx`). It covers:
  - Chilean RUT normalisation, formatting and modulo-11 validation;
  - the four-rule password-strength meter;
  - sign-up and login validation and submission.
- **The application store** (`src/store/useStore.ts`). It covers:
  - the four-step loan-request wizard;
  - simulations, profile updates, logout and reset.
- **The public and private simulators** (`src/components`). They cover:
  - the installment formula and the preferential rates;
  - insurance, total cost and the estimated CAE;
  - seeding the wizard from a quote.
- **The dashboard's score gauge and labels**, and the pre-approved limit.

Numbers are modelled as exact `real`s. Loan terms are `nat` exponents of a recursive power function.

State the source updates in place is modelled as a Dafny `class`, whose methods state the whole new state:
- the simulator store, `SimulatorStore.Store`;
- the application store, `AccountStore.Store`;
- the access panel, `AuthForms.AuthPanel`.

Each class method is specified by a pure function, and the function's properties are proved as lemmas. For example, `AccountStore.Store.NextStep` is specified by `AccountStore.Advanced`.

Two kinds of source code become `method`s:
- the RUT check-digit loop is `Rut.SumBody`, a method with loop invariants;
- `validateSignup` and `generateInsights` fill a map or an array step by step, and are `AuthForms.ValidateSignup` and `CreditSimulatorView.GenerateInsights`.

JavaScript's `Array.prototype.sort` is stable, and ordering by `a.cae - b.cae` is modelled as a stable insertion sort. Its sortedness and permutation are proved separately.

Three files under `public/js` are compiled twins of `.ts` files: `simulator/store.js`, `simulator/persistence.js` and `simulator/CreditSimulator.js`. They have the same logic as their `.ts` counterparts and differ only in how the default credit type is encoded, which is the first finding below. `public/js/home.js` is not a twin of `home.tsx`. It has none of the RUT, password or sign-up validation, its `handleAuthSubmit` only shows a toast, and it still holds merge-conflict markers. The access panel is therefore modelled from `home.tsx` only.

Modules, one per file:
- `Wrappers`;
- `LoanMath`: math.ts;
- `History`: persistence.ts;
- `Benchmarks`: chileanRates.js;
- `SimulatorStore`: store.ts;
- `CreditSimulatorView`: CreditSimulator.tsx;
- `JsText`, `Rut`, `Password` and `AuthForms`: home.tsx;
- `AccountStore`: useStore.ts;
- `Simulators`: PublicSimulator.tsx and PrivateSimulator.tsx;
- `Dashboard`: DashboardHome.tsx.

## Model

| member | source | states |
|---|---|---|
| LoanMath.PowAtLeastOne | analisis-y-diseno-de-software-main/mi-proyecto-node-docker/public/ts/simulator/math.ts:10 | a growth factor `(1 + r)^n` with `r >= 0` is at least 1 |
| LoanMath.PowAboveOne | analisis-y-diseno-de-software-main/mi-proyecto-node-docker/public/ts/simulator/math.ts:10-14 | with `r > 0` and `n >= 1` the factor exceeds 1, so the annuity denominator `factor - 1` is never zero |
| LoanMath.PowMonotoneInBase | analisis-y-diseno-de-software-main/mi-proyecto-node-docker/public/ts/simulator/math.ts:18 | a larger base gives a larger power (used for the CAE ordering) |
| LoanMath.Bernoulli | analisis-y-diseno-de-software-main/mi-proyecto-node-docker/public/ts/simulator/math.ts:10 | Bernoulli's inequality `(1 + r)^n >= 1 + n*r` for `r >= -1` |
| LoanMath.PowTimesDeficit | analisis-y-diseno-de-software-main/mi-proyecto-node-docker/public/ts/simulator/math.ts:12-16 | `(1 + r)^n * (1 - n*r) <= 1`, strictly for positive rate, which makes the installment times the term cover the principal |
| LoanMath.Installment | analisis-y-diseno-de-software-main/mi-proyecto-node-docker/public/ts/simulator/math.ts:12-14 | the monthly installment solves the annuity equation: times the term it is the principal at rate 0, and times `(1 + r)^n - 1` it is `P*r*(1 + r)^n` at a positive rate |
| LoanMath.BalanceTimesRate | analisis-y-diseno-de-software-main/mi-proyecto-node-docker/public/ts/simulator/math.ts:12-16 | closed form of the balance left after k payments of the French (annuity) system |
| LoanMath.BalanceAtZeroRate | analisis-y-diseno-de-software-main/mi-proyecto-node-docker/public/ts/simulator/math.ts:12-13 | at zero rate each payment lowers the balance by exactly the payment |
| LoanMath.InstallmentAmortizes | analisis-y-diseno-de-software-main/mi-proyecto-node-docker/public/ts/simulator/math.ts:9-16 | paying the computed installment for the whole term leaves a balance of exactly zero, at any rate `>= 0` |
| LoanMath.InstallmentSign | analisis-y-diseno-de-software-main/mi-proyecto-node-docker/public/ts/simulator/math.ts:12-14 | a positive principal gives a positive installment; a zero principal a zero installment |
| LoanMath.InstallmentCoversPrincipal | analisis-y-diseno-de-software-main/mi-proyecto-node-docker/public/ts/simulator/math.ts:12-17 | installment times term covers the principal, with equality exactly at zero rate and strict excess (positive interest) at a positive rate |
| LoanMath.ClampedTerm | analisis-y-diseno-de-software-main/mi-proyecto-node-docker/public/ts/simulator/math.ts:5 | `Math.max(term, 1)`: at least one month, and the term itself when it is at least 1 |
| LoanMath.CalculateSimulationMetrics | analisis-y-diseno-de-software-main/mi-proyecto-node-docker/public/ts/simulator/math.ts:3-28 | total paid is installment times the clamped term, interest is total paid minus the clamped amount, debt ratio times the clamped income is the installment, and the CAE is non-negative |
| LoanMath.MetricsAmortizeLoan | analisis-y-diseno-de-software-main/mi-proyecto-node-docker/public/ts/simulator/math.ts:3-16 | the metrics' installment repays the clamped amount over the clamped term at the clamped rate |
| LoanMath.MetricsInterest | analisis-y-diseno-de-software-main/mi-proyecto-node-docker/public/ts/simulator/math.ts:16-17 | total interest is never negative; a rate <= 0 splits the amount evenly with no interest; a positive rate on a positive amount gives positive interest |
| LoanMath.MetricsPositive | analisis-y-diseno-de-software-main/mi-proyecto-node-docker/public/ts/simulator/math.ts:12-19 | a positive amount gives a positive installment and debt ratio; a non-positive amount gives zero for both |
| LoanMath.CaeMonotone | analisis-y-diseno-de-software-main/mi-proyecto-node-docker/public/ts/simulator/math.ts:18 | the CAE grows with the annual rate, is at least the nominal rate, and is zero exactly for a rate `<= 0` |
| LoanMath.Cae | analisis-y-diseno-de-software-main/mi-proyecto-node-docker/public/ts/simulator/math.ts:18 | the annual cost of monthly compounding is never below twelve times the monthly rate (for any monthly rate `>= -1`) |
| LoanMath.BuildSimulationResult | analisis-y-diseno-de-software-main/mi-proyecto-node-docker/public/ts/simulator/math.ts:30-46 | the result carries the input, the timestamp and the metrics of the input, keeps the previous id when one is given and takes the fresh id otherwise |
| History.WithoutId | analisis-y-diseno-de-software-main/mi-proyecto-node-docker/public/ts/simulator/persistence.ts:44 | no entry with the given id survives, every other entry is kept in order, and the result is the history itself when the id is absent |
| History.WithoutIdKeepsCopies | analisis-y-diseno-de-software-main/mi-proyecto-node-docker/public/ts/simulator/persistence.ts:44 | the filter keeps every copy of every entry whose id differs: duplicates in a hydrated history survive |
| History.UpsertHistoryEntry | analisis-y-diseno-de-software-main/mi-proyecto-node-docker/public/ts/simulator/persistence.ts:40-46 | the new entry comes first, followed by the filtered old history cut to 9 entries (duplicates included); the list holds 1 to 10 entries, the id appears once, and an old entry is dropped only when the list is full |
| History.UpsertKeepsOrder | analisis-y-diseno-de-software-main/mi-proyecto-node-docker/public/ts/simulator/persistence.ts:44-45 | the entries after the head keep their relative order from the old history |
| History.UpsertNewId | analisis-y-diseno-de-software-main/mi-proyecto-node-docker/public/ts/simulator/persistence.ts:40-46 | a new id on a short history is prepended and nothing is lost |
| History.UpsertNewIdFull | analisis-y-diseno-de-software-main/mi-proyecto-node-docker/public/js/simulator/persistence.js:34-37 | a new id on a history of 10 or more entries keeps the entry and the 9 newest old entries |
| History.UpsertExistingId | analisis-y-diseno-de-software-main/mi-proyecto-node-docker/public/ts/simulator/persistence.ts:44-45 | replacing an existing id never lengthens the history |
| History.UpsertIdempotent | analisis-y-diseno-de-software-main/mi-proyecto-node-docker/public/ts/simulator/persistence.ts:40-46 | inserting the same entry twice equals inserting it once |
| History.WithoutIdDropsHead | analisis-y-diseno-de-software-main/mi-proyecto-node-docker/public/ts/simulator/persistence.ts:44 | filtering out the id of the head of a uniquely-keyed list returns its tail |
| Benchmarks.FindIn | analisis-y-diseno-de-software-main/mi-proyecto-node-docker/public/js/data/chileanRates.js:66-68 | `find`: a hit has the requested credit type and institution; a miss means no row matches |
| Benchmarks.FindInIsFirst | analisis-y-diseno-de-software-main/mi-proyecto-node-docker/public/js/data/chileanRates.js:67 | a hit is a row of the table, and no earlier row matches (first match) |
| Benchmarks.FindBenchmark | analisis-y-diseno-de-software-main/mi-proyecto-node-docker/public/js/data/chileanRates.js:66-68 | the benchmark found belongs to the table and has the requested keys; none is found exactly when no row has them |
| Benchmarks.TableWellFormed | analisis-y-diseno-de-software-main/mi-proyecto-node-docker/public/js/data/chileanRates.js:1-65 | nine rows, no two with the same credit type and institution, every average rate positive |
| Benchmarks.FindBenchmarkExact | analisis-y-diseno-de-software-main/mi-proyecto-node-docker/public/js/data/chileanRates.js:66-68 | looking up a row's own keys returns that row |
| SimulatorStore.InsertByCae | analisis-y-diseno-de-software-main/mi-proyecto-node-docker/public/ts/simulator/store.ts:36-38 | one step of the stable sort by CAE: one more element, and the head is the new entry unless the old head is strictly cheaper |
| SimulatorStore.InsertByCaeSorted | analisis-y-diseno-de-software-main/mi-proyecto-node-docker/public/ts/simulator/store.ts:49 | insertion keeps a list sorted by CAE |
| SimulatorStore.InsertByCaePermutes | analisis-y-diseno-de-software-main/mi-proyecto-node-docker/public/ts/simulator/store.ts:49 | insertion adds exactly the new entry to the multiset |
| SimulatorStore.SortByCae | analisis-y-diseno-de-software-main/mi-proyecto-node-docker/public/ts/simulator/store.ts:36-38 | `slice().sort((a, b) => a.cae - b.cae)` keeps the length |
| SimulatorStore.SortByCaeSorted | analisis-y-diseno-de-software-main/mi-proyecto-node-docker/public/ts/simulator/store.ts:36-38 | the sorted copy is in non-decreasing CAE order |
| SimulatorStore.SortByCaePermutes | analisis-y-diseno-de-software-main/mi-proyecto-node-docker/public/ts/simulator/store.ts:36-38 | the sorted copy is a permutation of the history |
| SimulatorStore.SortedHeadIsMinimum | analisis-y-diseno-de-software-main/mi-proyecto-node-docker/public/ts/simulator/store.ts:49 | the head of the sorted copy is an entry of least CAE |
| SimulatorStore.SortedHeadIsEarliestMinimum | analisis-y-diseno-de-software-main/mi-proyecto-node-docker/public/ts/simulator/store.ts:49 | ties go to the earliest entry of least CAE, as a stable sort does |
| SimulatorStore.OptimalId | analisis-y-diseno-de-software-main/mi-proyecto-node-docker/public/ts/simulator/store.ts:36-38 | there is an optimal id exactly when the history is non-empty |
| SimulatorStore.OptimalIdIsCheapest | analisis-y-diseno-de-software-main/mi-proyecto-node-docker/public/ts/simulator/store.ts:49 | the optimal id is the id of a history entry whose CAE is no greater than any other entry's |
| SimulatorStore.FindById | analisis-y-diseno-de-software-main/mi-proyecto-node-docker/public/ts/simulator/store.ts:57-58 | `find` by id: a hit is the first entry of the history with that id, even when later entries share it, and a miss means no entry has the id |
| SimulatorStore.ApplyUpdate | analisis-y-diseno-de-software-main/mi-proyecto-node-docker/public/ts/simulator/store.ts:29-33 | setting one field changes that field to the new value and leaves every other field as it was |
| SimulatorStore.ApplyUpdateUnchanged | analisis-y-diseno-de-software-main/mi-proyecto-node-docker/public/ts/simulator/store.ts:31 | writing a field's current value changes nothing |
| SimulatorStore.ApplyUpdateOverwrites | analisis-y-diseno-de-software-main/mi-proyecto-node-docker/public/ts/simulator/store.ts:31 | writing the same field twice keeps only the second write |
| SimulatorStore.DefaultAsWrittenHasNoBenchmark | analisis-y-diseno-de-software-main/mi-proyecto-node-docker/public/ts/simulator/store.ts:19 | the default credit type as encoded in the source matches no benchmark row (finding 1) |
| SimulatorStore.DefaultHasBenchmark | analisis-y-diseno-de-software-main/mi-proyecto-node-docker/public/ts/simulator/store.ts:15-22 | with the intended "Crédito de consumo" the default input has a benchmark |
| SimulatorStore.Store.constructor | analisis-y-diseno-de-software-main/mi-proyecto-node-docker/public/ts/simulator/store.ts:24-28 | the store starts on the default input with no result, no history and no optimal id |
| SimulatorStore.Store.AsShipped | analisis-y-diseno-de-software-main/mi-proyecto-node-docker/public/ts/simulator/store.ts:17-28 | the store as shipped starts on the mis-decoded default credit type, with no result, no history and no optimal id (finding 1) |
| SimulatorStore.Store.SetField | analisis-y-diseno-de-software-main/mi-proyecto-node-docker/public/ts/simulator/store.ts:29-33 | `setField` updates only the input, through ApplyUpdate |
| SimulatorStore.Store.Hydrate | analisis-y-diseno-de-software-main/mi-proyecto-node-docker/public/ts/simulator/store.ts:34-41 | `hydrate` stores at most the first 10 loaded entries and the optimal id of that history; input and current result unchanged |
| SimulatorStore.Store.Compute | analisis-y-diseno-de-software-main/mi-proyecto-node-docker/public/ts/simulator/store.ts:42-54 | `compute` returns the result built from the input, upserts it into the history, makes it the current result and always sets an optimal id |
| SimulatorStore.Store.LoadFromHistory | analisis-y-diseno-de-software-main/mi-proyecto-node-docker/public/ts/simulator/store.ts:55-71 | `loadFromHistory` copies a found entry's input fields into the form and shows it; an unknown id changes nothing |
| SimulatorStore.ComputedResultIsFound | analisis-y-diseno-de-software-main/mi-proyecto-node-docker/public/ts/simulator/store.ts:42-71 | the result just computed can be loaded back by its id |
| SimulatorStore.CompareAgainstBenchmark | analisis-y-diseno-de-software-main/mi-proyecto-node-docker/public/ts/simulator/store.ts:74-87 | no comparison exactly when there is no benchmark; otherwise the benchmark is the matching row, the delta is the rate minus its average, and isBelow holds iff the rate does not exceed the average |
| CreditSimulatorView.InstitutionOptions | analisis-y-diseno-de-software-main/mi-proyecto-node-docker/public/ts/simulator/CreditSimulator.tsx:33-39 | whenever a credit type has options, "Banco tradicional" comes first (the effect's fallback) |
| CreditSimulatorView.AllowedIffBenchmark | analisis-y-diseno-de-software-main/mi-proyecto-node-docker/public/ts/simulator/CreditSimulator.tsx:33-39 | a (credit type, institution) pair is offered by the form exactly when the rate table has a benchmark for it |
| CreditSimulatorView.Repaired | analisis-y-diseno-de-software-main/mi-proyecto-node-docker/public/ts/simulator/CreditSimulator.tsx:213-218 | the institution effect: an allowed pair is left as is, otherwise the institution becomes the first option; nothing else changes and the result is allowed |
| CreditSimulatorView.RepairedIdempotent | analisis-y-diseno-de-software-main/mi-proyecto-node-docker/public/ts/simulator/CreditSimulator.tsx:213-218 | running the effect a second time changes nothing, so it settles after one re-render |
| CreditSimulatorView.RepairedHasBenchmark | analisis-y-diseno-de-software-main/mi-proyecto-node-docker/public/ts/simulator/CreditSimulator.tsx:213-218 | after the effect every menu credit type has a benchmark to compare against |
| CreditSimulatorView.RepairInstitution | analisis-y-diseno-de-software-main/mi-proyecto-node-docker/public/ts/simulator/CreditSimulator.tsx:213-218 | the effect on the store: it fails (the source throws on `undefined.includes`) exactly when the credit type has no options, and otherwise stores the repaired input |
| CreditSimulatorView.DefaultCreditTypeAsWrittenHasNoOptions | analisis-y-diseno-de-software-main/mi-proyecto-node-docker/public/js/simulator/CreditSimulator.js:162 | the mis-encoded default credit type has no institution options, so the effect throws (finding 1) |
| CreditSimulatorView.DefaultNeedsNoRepair | analisis-y-diseno-de-software-main/mi-proyecto-node-docker/public/ts/simulator/CreditSimulator.tsx:213-218 | with the intended default the effect finds the pair allowed and leaves it alone |
| CreditSimulatorView.Mount | analisis-y-diseno-de-software-main/mi-proyecto-node-docker/public/ts/simulator/CreditSimulator.tsx:208-218 | the first mount fails (the render at line 348 throws on `undefined.map`) exactly when the credit type has no options, leaving the store as it was; otherwise the hydrate effect loads the newest ten saved entries and their optimal id, and the repair effect then stores the repaired input |
| CreditSimulatorView.MountShippedStore | analisis-y-diseno-de-software-main/mi-proyecto-node-docker/public/ts/simulator/store.ts:17-28 | mounting the screen on the store as shipped fails whatever history is saved (finding 1) |
| CreditSimulatorView.MountCorrectedStore | analisis-y-diseno-de-software-main/mi-proyecto-node-docker/public/ts/simulator/store.ts:17-28 | mounting on the corrected store succeeds, leaves the default input unchanged and shows the newest ten saved entries |
| CreditSimulatorView.TitleTextDistinct | analisis-y-diseno-de-software-main/mi-proyecto-node-docker/public/ts/simulator/CreditSimulator.tsx:58-104 | no two insight titles share a text |
| CreditSimulatorView.Preview | analisis-y-diseno-de-software-main/mi-proyecto-node-docker/public/ts/simulator/CreditSimulator.tsx:220-225 | the preview carries the input and the id "preview", with the same metrics a saved result would have |
| CreditSimulatorView.MinCae | analisis-y-diseno-de-software-main/mi-proyecto-node-docker/public/ts/simulator/CreditSimulator.tsx:98-99 | the least CAE of a non-empty history, attained by one of its entries |
| CreditSimulatorView.SortedHeadHasMinCae | analisis-y-diseno-de-software-main/mi-proyecto-node-docker/public/ts/simulator/CreditSimulator.tsx:98-99 | the head of the sorted history has that least CAE |
| CreditSimulatorView.BenchmarkInsight | analisis-y-diseno-de-software-main/mi-proyecto-node-docker/public/ts/simulator/CreditSimulator.tsx:53-75 | the first insight: competitive rate at or below the average, opportunity to lower the rate above it, benchmark unavailable (info tone) iff there is no row; the tone is positive iff the rate is below the average and a warning iff it is at or above it |
| CreditSimulatorView.DebtInsight | analisis-y-diseno-de-software-main/mi-proyecto-node-docker/public/ts/simulator/CreditSimulator.tsx:77-96 | the debt insight: high load iff ratio >= 0.45, healthy balance iff 0.3 <= ratio < 0.45, room to invest iff below 0.3 |
| CreditSimulatorView.HistoryInsight | analisis-y-diseno-de-software-main/mi-proyecto-node-docker/public/ts/simulator/CreditSimulator.tsx:98-112 | a history insight exists iff the history is non-empty; it declares the preview optimal iff it carries the optimal id or its CAE is within 0.01 of the cheapest |
| CreditSimulatorView.GenerateInsights | analisis-y-diseno-de-software-main/mi-proyecto-node-docker/public/ts/simulator/CreditSimulator.tsx:47-113 | two insights without history, three with; benchmark first, debt second, history third |
| CreditSimulatorView.Entries | analisis-y-diseno-de-software-main/mi-proyecto-node-docker/public/ts/simulator/CreditSimulator.tsx:233-243 | the entries of the ranked list, in rank order |
| CreditSimulatorView.RankedHistory | analisis-y-diseno-de-software-main/mi-proyecto-node-docker/public/ts/simulator/CreditSimulator.tsx:233-243 | ranks 1, 2, ... in non-decreasing CAE order, a permutation of the history |
| CreditSimulatorView.TopRankIsOptimal | analisis-y-diseno-de-software-main/mi-proyecto-node-docker/public/ts/simulator/CreditSimulator.tsx:233-243 | rank 1 is the entry the store marks as optimal |
| JsText.TrimStart | analisis-y-diseno-de-software-main/mi-proyecto-node-docker/public/ts/home.tsx:400 | drops exactly the leading whitespace |
| JsText.TrimEnd | analisis-y-diseno-de-software-main/mi-proyecto-node-docker/public/ts/home.tsx:400 | drops exactly the trailing whitespace |
| JsText.Trim | analisis-y-diseno-de-software-main/mi-proyecto-node-docker/public/ts/home.tsx:400 | `trim()` is empty iff the string is all whitespace, and otherwise starts and ends on non-whitespace |
| JsText.TrimIdempotent | analisis-y-diseno-de-software-main/mi-proyecto-node-docker/public/ts/home.tsx:400 | trimming twice equals trimming once |
| JsText.TrimRemovesOnlyEnds | analisis-y-diseno-de-software-main/mi-proyecto-node-docker/public/ts/home.tsx:400 | `trim()` is a contiguous slice of the string with only whitespace before and after it |
| Rut.NormalizeRut | analisis-y-diseno-de-software-main/mi-proyecto-node-docker/public/ts/home.tsx:58-62 | keeps only digits and K (lower-case k upper-cased), never lengthening the input |
| Rut.NormalizeAppend | analisis-y-diseno-de-software-main/mi-proyecto-node-docker/public/ts/home.tsx:58-62 | normalisation distributes over concatenation |
| Rut.NormalizeClean | analisis-y-diseno-de-software-main/mi-proyecto-node-docker/public/ts/home.tsx:58-62 | a string of digits and K is its own normal form |
| Rut.NormalizeIdempotent | analisis-y-diseno-de-software-main/mi-proyecto-node-docker/public/ts/home.tsx:58-62 | normalising twice equals normalising once |
| Rut.DigitRun | analisis-y-diseno-de-software-main/mi-proyecto-node-docker/public/ts/home.tsx:69 | the length of the maximal run of digits from a position |
| Rut.DotBeforeDigits | analisis-y-diseno-de-software-main/mi-proyecto-node-docker/public/ts/home.tsx:69 | on a digit body, the regex `\B(?=(\d{3})+(?!\d))` matches before position p iff p is inside the body and a multiple of 3 digits follow |
| Rut.FormatFrom | analisis-y-diseno-de-software-main/mi-proyecto-node-docker/public/ts/home.tsx:69 | the dotted body is never shorter than the digits it formats |
| Rut.FormatFromNormalizes | analisis-y-diseno-de-software-main/mi-proyecto-node-docker/public/ts/home.tsx:69 | removing the dots from the formatted body gives the body back |
| Rut.FormatClean | analisis-y-diseno-de-software-main/mi-proyecto-node-docker/public/ts/home.tsx:64-71 | a non-empty clean RUT is formatted ending in `-` and its check character |
| Rut.FormatRut | analisis-y-diseno-de-software-main/mi-proyecto-node-docker/public/ts/home.tsx:64-71 | the formatted RUT is empty iff nothing survives normalisation |
| Rut.FormatRutRoundTrip | analisis-y-diseno-de-software-main/mi-proyecto-node-docker/public/ts/home.tsx:58-71 | normalising a formatted RUT gives the normal form of the input |
| Rut.FormatRutIdempotent | analisis-y-diseno-de-software-main/mi-proyecto-node-docker/public/ts/home.tsx:64-71 | formatting an already formatted RUT changes nothing |
| Rut.FormatFromDigitStep | analisis-y-diseno-de-software-main/mi-proyecto-node-docker/public/ts/home.tsx:69 | on a digit body, one position of the dotted body: a dot first exactly when a positive multiple of three digits remain |
| Rut.FormattedEightDigits | analisis-y-diseno-de-software-main/mi-proyecto-node-docker/public/ts/home.tsx:69 | every eight-digit body is dotted as dd.ddd.ddd |
| Rut.FormattedExample | analisis-y-diseno-de-software-main/mi-proyecto-node-docker/public/ts/home.tsx:64-71 | 123456785 is shown as 12.345.678-5 |
| Rut.CheckDigit | analisis-y-diseno-de-software-main/mi-proyecto-node-docker/public/ts/home.tsx:84-85 | the expected check character is a digit or K and completes the weighted sum to a multiple of 11 |
| Rut.CheckDigitUnique | analisis-y-diseno-de-software-main/mi-proyecto-node-docker/public/ts/home.tsx:84-85 | it is the only character that does so |
| Rut.CheckValue | analisis-y-diseno-de-software-main/mi-proyecto-node-docker/public/ts/home.tsx:84-85 | a check character stands for at most 10, and for 10 exactly when it is K |
| Rut.WeightedSum | analisis-y-diseno-de-software-main/mi-proyecto-node-docker/public/ts/home.tsx:78-83 | the weighted sum of a digit body is at most 63 per digit (digit 9 times multiplier 7) |
| Rut.ValidateRut | analisis-y-diseno-de-software-main/mi-proyecto-node-docker/public/ts/home.tsx:73-87 | `validateRut` returns true exactly for a RUT whose normal form is a digit body of length >= 1 followed by its modulo-11 check character |
| Rut.SumBody | analisis-y-diseno-de-software-main/mi-proyecto-node-docker/public/ts/home.tsx:78-83 | the loop computes the weighted sum right to left with multipliers 2..7 and flags any non-digit (the NaN of `parseInt("K")`) |
| Rut.OneCheckCharacterPerBody | analisis-y-diseno-de-software-main/mi-proyecto-node-docker/public/ts/home.tsx:73-87 | every digit body has exactly one check character that makes it valid |
| Rut.FormattingPreservesValidity | analisis-y-diseno-de-software-main/mi-proyecto-node-docker/public/ts/home.tsx:64-87 | formatting never changes whether a RUT is valid |
| Rut.ExampleSum | analisis-y-diseno-de-software-main/mi-proyecto-node-docker/public/ts/home.tsx:78-83 | the weighted sum of 12345678 is 138 |
| Rut.ExampleCheckDigit | analisis-y-diseno-de-software-main/mi-proyecto-node-docker/public/ts/home.tsx:73-87 | among 12345678-0 .. 12345678-9, exactly 12345678-5 is accepted |
| Rut.WorkedExampleValid | analisis-y-diseno-de-software-main/mi-proyecto-node-docker/public/ts/home.tsx:73-87 | 12345678-5 is accepted |
| Rut.WorkedExampleInvalid | analisis-y-diseno-de-software-main/mi-proyecto-node-docker/public/ts/home.tsx:73-87 | 12345678-4 is refused |
| Password.CountPassed | analisis-y-diseno-de-software-main/mi-proyecto-node-docker/public/ts/home.tsx:91-96 | the number of rules passed, all of them iff every rule passes, none iff every rule fails |
| Password.CountPassedIsSetSize | analisis-y-diseno-de-software-main/mi-proyecto-node-docker/public/ts/home.tsx:91-96 | over a list of distinct rules the count is the number of distinct rules the value passes |
| Password.EveryRuleListed | analisis-y-diseno-de-software-main/mi-proyecto-node-docker/public/ts/home.tsx:32-53 | the rule list holds all four rules |
| Password.Score | analisis-y-diseno-de-software-main/mi-proyecto-node-docker/public/ts/home.tsx:89-110 | the score is the number of the four rules the password passes: 0..4, 4 iff every rule passes, 0 iff none does |
| Password.StrengthLabelsDistinct | analisis-y-diseno-de-software-main/mi-proyecto-node-docker/public/ts/home.tsx:97-103 | each score has its own caption |
| Password.StrengthOf | analisis-y-diseno-de-software-main/mi-proyecto-node-docker/public/ts/home.tsx:97-107 | caption "Define una clave" and the slate tone iff the score is 0, "Blindada" iff it is 4, the emerald tone iff it is 3 or 4 |
| Password.SignupRejectsIffNotBlindada | analisis-y-diseno-de-software-main/mi-proyecto-node-docker/public/ts/home.tsx:409 | the sign-up password check fails exactly when the strength meter does not show "Blindada" |
| Password.ScoreExamples | analisis-y-diseno-de-software-main/mi-proyecto-node-docker/public/ts/home.tsx:32-53 | the empty password scores 0 and "Abcdefghi1!" scores 4 |
| AuthForms.WeakIffShortOfFullScore | analisis-y-diseno-de-software-main/mi-proyecto-node-docker/public/ts/home.tsx:409 | short or failing a rule is the same as scoring below 4 |
| AuthForms.CheckFullName | analisis-y-diseno-de-software-main/mi-proyecto-node-docker/public/ts/home.tsx:400-402 | the name is in error iff it is blank after trimming |
| AuthForms.CheckPassword | analisis-y-diseno-de-software-main/mi-proyecto-node-docker/public/ts/home.tsx:409-411 | the password is in error iff it is short or fails a rule |
| AuthForms.ErrorMap | analisis-y-diseno-de-software-main/mi-proyecto-node-docker/public/ts/home.tsx:398-416 | one message per failing check, and only those |
| AuthForms.ValidateSignup | analisis-y-diseno-de-software-main/mi-proyecto-node-docker/public/ts/home.tsx:398-416 | a field has an error iff its check fails, each error with its own message |
| AuthForms.ValidateLogin | analisis-y-diseno-de-software-main/mi-proyecto-node-docker/public/ts/home.tsx:418-427 | the e-mail is in error iff rejected, the password iff empty, each with its own message |
| AuthForms.AcceptedSignupIsStrong | analisis-y-diseno-de-software-main/mi-proyecto-node-docker/public/ts/home.tsx:398-416 | a form with no error has a "Blindada" password of at least 10 characters, a valid RUT and a matching confirmation |
| AuthForms.AuthPanel.constructor | analisis-y-diseno-de-software-main/mi-proyecto-node-docker/public/ts/home.tsx:370-386 | the panel starts closed with empty forms and no errors |
| AuthForms.AuthPanel.SubmitSignup | analisis-y-diseno-de-software-main/mi-proyecto-node-docker/public/ts/home.tsx:447-456 | the errors are always shown; only an empty map closes the panel and clears the sign-up form; the login side is untouched |
| AuthForms.AuthPanel.SubmitLogin | analisis-y-diseno-de-software-main/mi-proyecto-node-docker/public/ts/home.tsx:457-465 | the same for login, leaving the sign-up side untouched |
| AuthForms.SignupSucceedsIffNoFailure | analisis-y-diseno-de-software-main/mi-proyecto-node-docker/public/ts/home.tsx:447-456 | the error map is empty exactly when no field fails |
| AccountStore.ReplyMessage | analisis-y-diseno-de-software-main/mi-proyecto-node-docker/src/store/useStore.ts:306 | `message || fallback`: an absent or empty message gives the fallback |
| AccountStore.ThrownMessage | analisis-y-diseno-de-software-main/mi-proyecto-node-docker/src/store/useStore.ts:311 | a thrown Error's message is used as it is, anything else gives the fallback |
| AccountStore.FailureMessage | analisis-y-diseno-de-software-main/mi-proyecto-node-docker/src/store/useStore.ts:449-466 | the error stored for a declined reply or a thrown error |
| AccountStore.MergeForm | analisis-y-diseno-de-software-main/mi-proyecto-node-docker/src/store/useStore.ts:360-367 | `{...formData, ...data}`: every field the patch carries wins, every other field is kept |
| AccountStore.MergeNothing | analisis-y-diseno-de-software-main/mi-proyecto-node-docker/src/store/useStore.ts:360-367 | an empty patch changes nothing |
| AccountStore.MergeIdempotent | analisis-y-diseno-de-software-main/mi-proyecto-node-docker/src/store/useStore.ts:360-367 | applying the same patch twice equals applying it once |
| AccountStore.MergeLaterWins | analisis-y-diseno-de-software-main/mi-proyecto-node-docker/src/store/useStore.ts:360-367 | two patches in a row equal one merged patch in which the later wins |
| AccountStore.InitialWizardFacts | analisis-y-diseno-de-software-main/mi-proyecto-node-docker/src/store/useStore.ts:91-104 | the wizard starts at step 1 of 4, with a form that still misses required fields |
| AccountStore.Advanced | analisis-y-diseno-de-software-main/mi-proyecto-node-docker/src/store/useStore.ts:372-382 | `nextStep` moves one step forward, stopping at the last step, and keeps the step in range |
| AccountStore.Retreated | analisis-y-diseno-de-software-main/mi-proyecto-node-docker/src/store/useStore.ts:387-394 | `prevStep` moves one step back, stopping at step 1, and keeps the step in range |
| AccountStore.Jumped | analisis-y-diseno-de-software-main/mi-proyecto-node-docker/src/store/useStore.ts:399-406 | `goToStep` lands on the requested step clamped to 1..maxSteps |
| AccountStore.RetreatUndoesAdvance | analisis-y-diseno-de-software-main/mi-proyecto-node-docker/src/store/useStore.ts:372-394 | going back undoes going forward below the last step |
| AccountStore.AdvanceUndoesRetreat | analisis-y-diseno-de-software-main/mi-proyecto-node-docker/src/store/useStore.ts:372-394 | going forward undoes going back above step 1 |
| AccountStore.JumpToCurrentStep | analisis-y-diseno-de-software-main/mi-proyecto-node-docker/src/store/useStore.ts:399-406 | jumping to the current step changes nothing |
| AccountStore.JumpIdempotent | analisis-y-diseno-de-software-main/mi-proyecto-node-docker/src/store/useStore.ts:399-406 | jumping twice to the same step equals jumping once |
| AccountStore.AdvancedTimes | analisis-y-diseno-de-software-main/mi-proyecto-node-docker/src/store/useStore.ts:372-382 | n forward steps change only the step |
| AccountStore.AdvancedTimesClamps | analisis-y-diseno-de-software-main/mi-proyecto-node-docker/src/store/useStore.ts:372-382 | n forward steps land on min(step + n, maxSteps) |
| AccountStore.WithFormData | analisis-y-diseno-de-software-main/mi-proyecto-node-docker/src/store/useStore.ts:360-367 | `setLoanFormData` merges the patch into the form and changes nothing else |
| AccountStore.Submitted | analisis-y-diseno-de-software-main/mi-proyecto-node-docker/src/store/useStore.ts:411-469 | submission succeeds iff no required field is falsy and the backend accepts; a missing field sets the required-fields error; success resets the wizard; a failure keeps the form and records the reply's message |
| AccountStore.FailedSubmissionKeepsForm | analisis-y-diseno-de-software-main/mi-proyecto-node-docker/src/store/useStore.ts:411-469 | a failed submission keeps the form and the step and always leaves an error |
| AccountStore.UntouchedWizardIsRefused | analisis-y-diseno-de-software-main/mi-proyecto-node-docker/src/store/useStore.ts:415-428 | the initial form is refused before any request, with the required-fields error |
| AccountStore.SignedOut | analisis-y-diseno-de-software-main/mi-proyecto-node-docker/src/store/useStore.ts:212-227 | logging out clears token, user, authentication and error |
| AccountStore.ForgetSimulations | analisis-y-diseno-de-software-main/mi-proyecto-node-docker/src/store/useStore.ts:212-227 | logging out forgets the current simulation and the history |
| AccountStore.ForgetLoans | analisis-y-diseno-de-software-main/mi-proyecto-node-docker/src/store/useStore.ts:212-227 | logging out forgets the loans, instalments and statistics |
| AccountStore.UpdatedUser | analisis-y-diseno-de-software-main/mi-proyecto-node-docker/src/store/useStore.ts:268-272 | `{...user, ...data}` when signed in: the patch's keys win, others are kept; no user stays no user |
| AccountStore.UpdatedUserIdempotent | analisis-y-diseno-de-software-main/mi-proyecto-node-docker/src/store/useStore.ts:268-272 | applying the same profile patch twice equals applying it once |
| AccountStore.Store.constructor | analisis-y-diseno-de-software-main/mi-proyecto-node-docker/src/store/useStore.ts:91-104 | the store starts in its initial state |
| AccountStore.Store.NextStep | analisis-y-diseno-de-software-main/mi-proyecto-node-docker/src/store/useStore.ts:372-382 | the wizard advances and the other slices are unchanged |
| AccountStore.Store.PrevStep | analisis-y-diseno-de-software-main/mi-proyecto-node-docker/src/store/useStore.ts:387-394 | the wizard retreats and the other slices are unchanged |
| AccountStore.Store.GoToStep | analisis-y-diseno-de-software-main/mi-proyecto-node-docker/src/store/useStore.ts:399-406 | the wizard jumps with clamping and the other slices are unchanged |
| AccountStore.Store.SetLoanFormData | analisis-y-diseno-de-software-main/mi-proyecto-node-docker/src/store/useStore.ts:360-367 | the form is merged and the other slices are unchanged |
| AccountStore.Store.SubmitLoanRequest | analisis-y-diseno-de-software-main/mi-proyecto-node-docker/src/store/useStore.ts:411-469 | the new wizard and the returned flag are those of Submitted; the other slices are unchanged |
| AccountStore.Store.ResetLoanWizard | analisis-y-diseno-de-software-main/mi-proyecto-node-docker/src/store/useStore.ts:474-476 | the wizard returns to its initial state |
| AccountStore.Store.UpdateProfile | analisis-y-diseno-de-software-main/mi-proyecto-node-docker/src/store/useStore.ts:268-272 | only the user record changes, by UpdatedUser |
| AccountStore.Store.SimulateLoan | analisis-y-diseno-de-software-main/mi-proyecto-node-docker/src/store/useStore.ts:286-315 | returns true iff the backend succeeds; success sets the current simulation and prepends it to the history; failure keeps both and records the message |
| AccountStore.Store.ClearSimulation | analisis-y-diseno-de-software-main/mi-proyecto-node-docker/src/store/useStore.ts:320-322 | clears the current simulation and its error, nothing else |
| AccountStore.Store.Logout | analisis-y-diseno-de-software-main/mi-proyecto-node-docker/src/store/useStore.ts:212-227 | signs out, forgets simulations and loans and resets the wizard |
| AccountStore.Store.Reset | analisis-y-diseno-de-software-main/mi-proyecto-node-docker/src/store/useStore.ts:596-616 | every slice returns to its initial state |
| Simulators.PublicMonthlyPayment | analisis-y-diseno-de-software-main/mi-proyecto-node-docker/src/components/PublicSimulator.tsx:14-26 | the public payment is the annuity installment at the monthly rate, principal / months at zero rate |
| Simulators.PublicQuoteOf | analisis-y-diseno-de-software-main/mi-proyecto-node-docker/src/components/PublicSimulator.tsx:34-39 | total to pay is installment times term and interest is total minus amount, at 18 % a year |
| Simulators.PublicQuoteRepays | analisis-y-diseno-de-software-main/mi-proyecto-node-docker/src/components/PublicSimulator.tsx:34-39 | the public installment repays the amount over the term, with positive installment and interest for a positive amount |
| Simulators.PublicRequest | analisis-y-diseno-de-software-main/mi-proyecto-node-docker/src/components/PublicSimulator.tsx:53-57 | the request sends the amount, the term and a monthly rate of 18 / 12 |
| Simulators.PreferentialRate | analisis-y-diseno-de-software-main/mi-proyecto-node-docker/src/components/PrivateSimulator.tsx:12-16 | REGULAR 1.5, PREMIUM 1.2, VIP 1.0 per month, a missing or empty type counts as REGULAR, an unknown type has no rate |
| Simulators.PreferentialRatesOrdered | analisis-y-diseno-de-software-main/mi-proyecto-node-docker/src/components/PrivateSimulator.tsx:12-16 | VIP < PREMIUM < REGULAR |
| Simulators.PrivateMonthlyPayment | analisis-y-diseno-de-software-main/mi-proyecto-node-docker/src/components/PrivateSimulator.tsx:19-31 | the private payment is the same annuity installment |
| Simulators.InsuranceCost | analisis-y-diseno-de-software-main/mi-proyecto-node-docker/src/components/PrivateSimulator.tsx:58-59 | a selected insurance costs 2 % of the base instalment, an unselected one nothing |
| Simulators.PrivateFigures | analisis-y-diseno-de-software-main/mi-proyecto-node-docker/src/components/PrivateSimulator.tsx:55-63 | base installment, insurances, final installment, total and interest as the component computes them |
| Simulators.PrivateQuoteAsWritten | analisis-y-diseno-de-software-main/mi-proyecto-node-docker/src/components/PrivateSimulator.tsx:64 | the total credit cost as written: interest plus the insurances again (finding 2) |
| Simulators.PrivateQuoteOf | analisis-y-diseno-de-software-main/mi-proyecto-node-docker/src/components/PrivateSimulator.tsx:55-64 | the corrected total credit cost: total to pay minus the amount |
| Simulators.InsuranceCountedTwice | analisis-y-diseno-de-software-main/mi-proyecto-node-docker/src/components/PrivateSimulator.tsx:62-64 | as written the total cost exceeds what the client pays above the amount by the insurance over the term, strictly whenever an insurance is chosen on a positive amount |
| Simulators.TotalCostSplits | analisis-y-diseno-de-software-main/mi-proyecto-node-docker/src/components/PrivateSimulator.tsx:55-64 | the corrected total cost is base interest plus insurance over the term, counted once |
| Simulators.TotalCostNonNegative | analisis-y-diseno-de-software-main/mi-proyecto-node-docker/src/components/PrivateSimulator.tsx:55-64 | the corrected total cost is never negative |
| Simulators.CaeEstimate | analisis-y-diseno-de-software-main/mi-proyecto-node-docker/src/components/PrivateSimulator.tsx:421 | the displayed CAE estimate is total cost / amount * 12 / term * 100 |
| Simulators.SliderCaeEstimate | analisis-y-diseno-de-software-main/mi-proyecto-node-docker/src/components/PrivateSimulator.tsx:178-214 | for every amount and term the sliders allow (1,000,000..50,000,000 and 6..48 months) the CAE estimate is defined and never negative |
| Simulators.RegularMatchesPublic | analisis-y-diseno-de-software-main/mi-proyecto-node-docker/src/components/PrivateSimulator.tsx:12-16 | a REGULAR client without insurance pays what the public simulator quotes |
| Simulators.ApplicationPatch | analisis-y-diseno-de-software-main/mi-proyecto-node-docker/src/components/PrivateSimulator.tsx:93-100 | the wizard is seeded with the amount, term, rate, CONSUMO and an empty reason |
| Simulators.StartApplication | analisis-y-diseno-de-software-main/mi-proyecto-node-docker/src/components/PrivateSimulator.tsx:89-101 | resetting then seeding the wizard leaves the initial wizard merged with that patch; other slices are unchanged |
| Simulators.StartedApplicationNeedsReason | analisis-y-diseno-de-software-main/mi-proyecto-node-docker/src/components/PrivateSimulator.tsx:93-100 | submitting the seeded wizard straight away is refused for the empty reason |
| Dashboard.Percentage | analisis-y-diseno-de-software-main/mi-proyecto-node-docker/src/components/DashboardHome.tsx:12-13 | the gauge percentage scales the score to 100 and stays in 0..100 for a score in 0..max |
| Dashboard.ScoreBand | analisis-y-diseno-de-software-main/mi-proyecto-node-docker/src/components/DashboardHome.tsx:16-21 | green iff >= 80 %, blue iff 60..80, yellow iff 40..60, red below 40 |
| Dashboard.ScoreBandMonotone | analisis-y-diseno-de-software-main/mi-proyecto-node-docker/src/components/DashboardHome.tsx:16-21 | a higher percentage never gives a lower band |
| Dashboard.BandColorsDistinct | analisis-y-diseno-de-software-main/mi-proyecto-node-docker/src/components/DashboardHome.tsx:17-20 | each band has its own primary and its own secondary colour |
| Dashboard.LabelOf | analisis-y-diseno-de-software-main/mi-proyecto-node-docker/src/components/DashboardHome.tsx:143-148 | Excelente iff >= 800, Muy Bueno iff 650..800, Bueno iff 500..650, Regular below 500, each with its own colour class (emerald, blue, yellow, red) |
| Dashboard.GaugeAndLabelAgreeOnlyAtTop | analisis-y-diseno-de-software-main/mi-proyecto-node-docker/src/components/DashboardHome.tsx:12-21 | green gauge and "Excelente" coincide on the 1000-point scale, but 600 is blue yet Bueno and 450 yellow yet Regular |
| Dashboard.DisplayedScore | analisis-y-diseno-de-software-main/mi-proyecto-node-docker/src/components/DashboardHome.tsx:221 | `score_credito || 950`: a missing or zero score shows 950 |
| Dashboard.DefaultScoreIsExcellent | analisis-y-diseno-de-software-main/mi-proyecto-node-docker/src/components/DashboardHome.tsx:221 | a client without a score sees Excelente and a green gauge |
| Dashboard.DisplayedIncome | analisis-y-diseno-de-software-main/mi-proyecto-node-docker/src/components/DashboardHome.tsx:224 | `ingresos_mensuales || 0` |
| Dashboard.PreApprovedLimit | analisis-y-diseno-de-software-main/mi-proyecto-node-docker/src/components/DashboardHome.tsx:225 | the limit is at most ten million and at most three months of income, and equals one of the two |
| Dashboard.PreApprovedLimitMonotone | analisis-y-diseno-de-software-main/mi-proyecto-node-docker/src/components/DashboardHome.tsx:225 | more income never lowers the limit |
| Dashboard.PreApprovedLimitCapped | analisis-y-diseno-de-software-main/mi-proyecto-node-docker/src/components/DashboardHome.tsx:225 | the cap applies iff three incomes reach ten million; a non-negative income gives a non-negative limit |
| Dashboard.NoIncomeNoLimit | analisis-y-diseno-de-software-main/mi-proyecto-node-docker/src/components/DashboardHome.tsx:224-225 | a client without income is pre-approved for nothing |

## Left out

- I/O is not modelled: `localStorage`, the HTTP API, the backend and `api.token`. Storage contents and backend replies are parameters: `Hydrate(stored)` and `Outcome` values. `persistHistory` is a no-op on the model's state.
- Fresh ids and timestamps are parameters of `BuildSimulationResult` and `Store.Compute`. These come from `crypto.randomUUID`, `Date.now`, `Math.random` and `new Date().toISOString()`.
- JavaScript numbers are IEEE doubles; the model uses exact reals. NaN, Infinity and rounding are not modelled. A fractional term (`term`, `plazo`) or a fractional wizard step is not modelled, since terms are `nat` and steps are `int`.
- `formatCurrency`, `formatPercent`, `formatRatio` and `toFixed` are display formatting and are not modelled.
- Strings are sequences of code points, not UTF-16. `toUpperCase` is modelled only for `k`, the one letter normalisation keeps.
- The e-mail regular expression of `validateEmail` is not reproduced. It is the predicate parameter `validateEmail`.
- Toasts, timers, the 500 ms debounce of the public simulator, `console.log` and the React rendering are not modelled, apart from the simulator's first mount: the render's institution-menu lookup and the hydrate and repair effects that follow it (`CreditSimulatorView.Mount`). Charts and sliders, including MetricsChart and StatCard, are left out as well.
- `handleBlur`, `handleSignupChange` and `handleLoginChange` are not modelled. They re-run the same validators, or write one field of a form.
- The sliders' ranges (`MIN_AMOUNT`..`MAX_AMOUNT`, `MIN_TERM`..`MAX_TERM`) appear only in `Simulators.SliderCaeEstimate`. The other simulator functions take any term of at least 1.
- Login, registration and data loading in useStore.ts are not modelled, because each is a backend round trip whose logic lives outside this source. This covers `login`, `register`, `checkAuth`, `loadSimulationHistory`, `loadCreditos`, `loadCreditoById`, `loadEstadisticas`, `createCredito` and the `clear*Error` actions. Their message fallbacks have the same shape as `ReplyMessage`/`ThrownMessage`.
- SimulatorStore.Store.constructor: starts on the corrected default credit type "Crédito de consumo", not on the mis-decoded string of store.ts:19 (finding 1). The store as shipped is `SimulatorStore.Store.AsShipped`, and `CreditSimulatorView.MountShippedStore` shows that mounting the screen on it fails.
- AccountStore.Store.SubmitLoanRequest: the `await get().loadCreditos()` after a successful submission is not modelled.
- AccountStore.MergeForm: a key present in the patch with the value `undefined` overwrites the field in JavaScript. The model treats an absent field as not in the patch.
- Simulators.PublicMonthlyPayment: requires a non-negative rate and a term of at least 1. The component's rate is the constant 18 and its slider keeps the term at 6 or more.
- Simulators.PrivateMonthlyPayment: requires a non-negative rate and a term of at least 1, as the slider ensures.
- Simulators.PreferentialRate: an unknown client type, including a JavaScript prototype key such as `toString`, is `None`. The source's behaviour in that case (`undefined` or a function, hence NaN) is not modelled.
- Simulators.CaeEstimate: requires a non-zero amount. The component's amount starts at `current?.monto || 5000000` and the slider never reaches 0.
- ConversionModal, DashboardLayout, StoreUsageExamples, the controllers and mockBackend are not part of this model.

## Findings

| source | as written | input that shows it | evidently intended | confidence | as-written member | corrected member |
|---|---|---|---|---|---|---|
| analisis-y-diseno-de-software-main/mi-proyecto-node-docker/public/ts/simulator/store.ts:19 | the default credit type is the mis-decoded string "Cr√©dito de consumo" ("CrÃ©dito de consumo" in analisis-y-diseno-de-software-main/mi-proyecto-node-docker/public/js/simulator/store.js:9); it matches no key of `institutionOptions` and no benchmark row, so the first render throws on `institutionOptions[input.creditType].map` (public/ts/simulator/CreditSimulator.tsx:348), and the repair effect at line 214 would throw on `undefined.includes` as well | the initial store, before any user input | "Crédito de consumo", the first credit type of the menu | not executed | SimulatorStore.DefaultAsWrittenHasNoBenchmark, CreditSimulatorView.DefaultCreditTypeAsWrittenHasNoOptions, CreditSimulatorView.MountShippedStore | SimulatorStore.DefaultHasBenchmark, CreditSimulatorView.DefaultNeedsNoRepair, CreditSimulatorView.MountCorrectedStore |
| analisis-y-diseno-de-software-main/mi-proyecto-node-docker/src/components/PrivateSimulator.tsx:64 | `costoTotalCredito = totalIntereses + (costoDesgravamen + costoCesantia) * plazo`, but `totalIntereses` is already `cuotaFinal * plazo - monto` and `cuotaFinal` includes both insurances, so the premiums are counted twice; the estimated CAE inherits the excess | any positive amount with either insurance ticked, e.g. 5,000,000 over 24 months at 1.5 % with `seguroDesgravamen` | the total cost is what the client pays above the amount, `totalPagar - monto` | not executed | Simulators.InsuranceCountedTwice | Simulators.TotalCostSplits |
