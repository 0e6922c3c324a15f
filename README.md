# Tavasit wizard: treatment rule, back-navigation history and debug-panel naming

Tavasit is a client-side wizard that advises olive growers whether a fungicide
treatment against peacock-eye spot is warranted. This project models three
small pieces of its logic in Dafny and proves properties about them:

- **The ≤0.1 mm rain treatment rule** (`RainDecision`, from
  `lib/calculation-test.ts`). It takes a list of daily readings. Each reading
  is a pair of rain in mm and minimum temperature in °C, and the rule also
  takes a cultivar temperature range `[lo, hi]`. It applies three checks in
  order, and the first one that fails gives `NO_TREATMENT`:
  1. any day with rain ≤ 0.1 mm;
  2. a total rain below 15 mm;
  3. an average minimum temperature outside `[lo, hi]`.

  If all three checks pass, the result is `TREATMENT`. The source runs the rule
  on constant mock data with the HS range `[12, 18]`. The model turns it into a
  function `Decide(days, lo, hi)` and keeps that data and range as constants.
  Readings are exact `real`s.
- **The back-navigation history** (`NavigationHistory`, from
  `lib/navigation-test.ts`). It is a stack of page numbers that starts at
  WELCOME (page 1). `addToHistory` pushes a page. `goBack` returns nothing
  while one entry or fewer remains; otherwise it pops the last entry and
  returns the new last entry. The stack is a class `History` with a `seq<int>`
  field, because the source mutates it in place. `AddToHistory` is specified
  as appending to the old history, and `GoBack` is tied to the value-level
  specification `Back`.
- **The debug panel's computed parts** (`DebugPanel`, from
  `components/DebugPanel.tsx`):
  - `getPageName`, which names the nine wizard pages and writes `UNKNOWN(n)`
    for any other page number. `DecimalText` writes `n` as text.
  - The per-day "≤0.1 mm" flag of the daily rain analysis.
  - The marking of the current entry in the history listing.

Modules: `Options` (the `None`/`Some` wrapper for JavaScript's `null`),
`RainDecision`, `NavigationHistory`, `DecimalText` and `DebugPanel`.

A note on the third scenario of `runCalculationTests`: it logs "Continue with
normal calculation", because it only runs the first check. The model carries
that data through the whole rule. Its total is 13.15 mm, which is below 15 mm,
so the full rule still answers `NO_TREATMENT` (`RainDecision.MockScenarios`).

## Model

| member | source | states |
|---|---|---|
| `RainDecision.HasLowRainDay` | lib/calculation-test.ts:21-25 | the `some` scan is true exactly when some day has rain ≤ 0.1 mm (inclusive) |
| `RainDecision.Decide` | lib/calculation-test.ts:29-59 | the result is TREATMENT iff every day's rain is > 0.1, the total is ≥ 15 mm, the list is non-empty and lo ≤ average ≤ hi, and NO_TREATMENT otherwise (exactly two outcomes); any low-rain day forces NO_TREATMENT; the divisor of the average is proved non-zero |
| `RainDecision.LowRainDayForcesNoTreatment` | lib/calculation-test.ts:22-32 | one day with rain ≤ 0.1 gives NO_TREATMENT, whatever the total rain or the temperatures |
| `RainDecision.InsufficientRainGivesNoTreatment` | lib/calculation-test.ts:34-44 | a total below 15 mm gives NO_TREATMENT |
| `RainDecision.EmptyReadingsGiveNoTreatment` | lib/calculation-test.ts:35-48 | an empty list totals 0 mm and is refused by the 15 mm check, before any average is taken |
| `RainDecision.TemperatureRangeCheck` | lib/calculation-test.ts:46-56 | once the first two checks pass, the list is non-empty and the result is TREATMENT iff lo ≤ average ≤ hi (both ends eligible) |
| `RainDecision.BoundaryCases` | lib/calculation-test.ts:21-56 | 0.1 and 0.05 mm are low-rain days and 0.15 is not; a total of exactly 15 mm passes; an average equal to 12 or 18 passes; 14.9 mm or an average of 18.5 is refused |
| `RainDecision.MockScenarios` | lib/calculation-test.ts:63-103 | the first mock data (5.0 / 0.1 / 8.0 mm, range 12–18) finds a low-rain day and gives NO_TREATMENT; the 0.05 data finds one; the 0.15 data finds none, totals 13.15 mm and gives NO_TREATMENT |
| `RainDecision.SumAppend` | lib/calculation-test.ts:35-37 | the `reduce` sum of a concatenation is the sum of the sums of its parts |
| `RainDecision.SumPermutation` | lib/calculation-test.ts:34-48 | the `reduce` sums of rain and of temperature do not depend on the order of the days |
| `RainDecision.LowRainDayCarriesOver` | lib/calculation-test.ts:22-25 | reordering the days keeps a low-rain day present |
| `RainDecision.DecideOrderIndependent` | lib/calculation-test.ts:21-56 | two lists with the same readings in any order get the same decision |
| `NavigationHistory.Back` | lib/navigation-test.ts:15-24 | with one entry or fewer: no page and the history unchanged; otherwise exactly the last entry is removed, the rest is non-empty, and the page returned is the new last entry |
| `NavigationHistory.BackUndoesForward` | lib/navigation-test.ts:10-24 | going back right after adding a page restores the prior history and returns its top |
| `NavigationHistory.NeverEmpty` | lib/navigation-test.ts:15-24 | going back never empties a non-empty history (adding a page leaves a non-empty history by `AddToHistory`'s contract) |
| `NavigationHistory.History.constructor` | lib/navigation-test.ts:8 | the history starts as the single entry WELCOME (1) |
| `NavigationHistory.History.AddToHistory` | lib/navigation-test.ts:10-13 | appends the page; the earlier entries are unchanged; the history is non-empty afterwards |
| `NavigationHistory.History.GoBack` | lib/navigation-test.ts:15-24 | the page returned and the new history are those of `Back` on the old history; the non-empty invariant is kept |
| `NavigationHistory.NavigationFlow` | lib/navigation-test.ts:26-38 | after pages 2, 3, 7 and 8 are added to [1], five back requests return 7, 3, 2, 1 and then nothing, leaving [1] |
| `DecimalText.NatText` | components/DebugPanel.tsx:29 | the text of a natural number is non-empty, consists of decimal digits and has no leading zero: it starts with '0' only for 0, whose text is exactly "0" |
| `DecimalText.IntText` | components/DebugPanel.tsx:29 | the text of an integer is non-empty, starts with '-' exactly when the number is negative, is all digits after that sign, and has no leading zero: the only text starting with '0' is exactly "0", for 0 |
| `DecimalText.NatTextRoundTrip` | components/DebugPanel.tsx:29 | parsing the digits of a natural number gives back that number |
| `DecimalText.IntTextRoundTrip` | components/DebugPanel.tsx:29 | parsing the text of any integer gives back that integer |
| `DebugPanel.PageName` | components/DebugPanel.tsx:18-31 | a name has the fallback shape `UNKNOWN(…)` exactly when the page is outside 1..9, and then the text between the parentheses is the page's decimal text; that this names every page distinctly is carried by `PageNameRoundTrip` and `PageNameInjective` |
| `DebugPanel.NamedPages` | components/DebugPanel.tsx:19-28 | pages 1..9 are named WELCOME, RAIN_EVENT, OLIVE_TYPE, RESELINCE_QUESTION, MR_QUESTION_SEASON, MR_QUESTION_CONTAMIATION, RAIN_TEMP, FINAL_WITH_CALC and FINAL_NO_CALC |
| `DebugPanel.UnknownPageNameParses` | components/DebugPanel.tsx:29 | the `UNKNOWN(n)` name of a page outside 1..9 carries n itself: it reads back as that page number |
| `DebugPanel.PageNameRoundTrip` | components/DebugPanel.tsx:18-31 | every integer gets a name, and that name reads back as that page number |
| `DebugPanel.PageNameInjective` | components/DebugPanel.tsx:18-31 | different page numbers get different names, the nine named pages included |
| `DebugPanel.DailyLowRainFlags` | components/DebugPanel.tsx:99-101 | one flag per day; a day is flagged iff it is a low-rain day of the decision rule (rain ≤ 0.1) |
| `DebugPanel.FlagsAgreeWithDecision` | components/DebugPanel.tsx:99-101 | some day is flagged iff the decision rule's first check fires, and then the decision is NO_TREATMENT |
| `DebugPanel.CurrentEntryMarks` | components/DebugPanel.tsx:71-73 | one mark per history entry |
| `DebugPanel.ExactlyOneCurrentEntry` | components/DebugPanel.tsx:71-73 | a non-empty history has exactly one entry marked current: the one at index length − 1 |

## Left out

- React rendering: `useState` visibility, Card/Button markup and the `JSON.stringify` dumps in the debug panel are UI.
- Console output: all `console.*` calls, and every logging helper of `lib/debug.ts`.
- Number parsing: `parseFloat` and its NaN results. Readings enter the model as `real`s that are already parsed.
- Floating point: the model uses exact reals, not IEEE doubles. Rounding of sums near the 15 mm and temperature thresholds is not modelled. `RainDecision.SumPermutation` and `RainDecision.DecideOrderIndependent` are facts about exact reals only. With doubles the left-to-right sum depends on order: rain readings 14.1, 0.2, 0.7 sum to just below 15, while 0.2, 0.7, 14.1 sum to exactly 15, so the two orders can get different decisions.
- Fixed log lines: the "RESULT" lines of the second and third scenarios in `runCalculationTests` only log text and decide nothing. `RainDecision.MockScenarios` covers the `some` checks of those scenarios.
- Wizard transitions: the page-transition logic (`handleNext`, `handlePrevious`) and `calcTavasit` of the wizard page are not part of this model.
- Bundler and layout: `next.config.ts` and `app/layout.tsx` (analytics) are not part of this model.
- Schema: the Zod schema in `frontend/types/data-types.tsx` is not part of this model.
- DebugPanel.PageName: page numbers are modelled as unbounded integers, not JavaScript doubles. A template literal writes a number of magnitude 10^21 or more in exponent form (`UNKNOWN(1e+21)`), a non-whole number with a '.' (or in exponent form below 10^-6, such as `1e-7`), and NaN and the infinities as `UNKNOWN(NaN)`, `UNKNOWN(Infinity)` and `UNKNOWN(-Infinity)`; none of these is modelled. Integers above 2^53 that a double cannot tell apart still get distinct names in the model (`DebugPanel.PageNameInjective`).
- NavigationHistory.History.GoBack: the history of the source is a local array captured by closures. The model makes it a field of one object, so aliasing of that array is not modelled.
