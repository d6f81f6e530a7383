# Calorie tracker: the metabolic calculator and the daily diary

This project models the logic of a single-page calorie tracker. The page converts
the user's imperial stats to metric and computes the Mifflin–St Jeor basal metabolic
rate (BMR). It turns the BMR into a total daily energy expenditure (TDEE) by an
activity factor. It also keeps a diary of the foods eaten today and a history of
daily totals, both stored in the browser.

- `JsMath` (`jsmath.dfy`) models JavaScript's `Math.round` on exact reals as
  `(x + 0.5).Floor`, which rounds halves up.
- `Calorie` (`calorie.dfy`) models `calcBMR` and `calcTDEE`.
- `Page` (`page.dfy`) models the state logic of the `Home` component:
  - the food, history and stats records;
  - the unit conversion;
  - the pure diary functions (`reduce` sum, index `filter`, portion scaling, history append);
  - a class `Page.Home`.

`Page.Home` has one field per piece of modelled component state (`log`, `history`,
`lastLogDate`, `results`, `portions`, `stats`). It also has one field per storage
record (`calorieStats`, `calorieLog`, `calorieHistory`, `lastLogDate`). A record
that was never written is `None`.

Its methods are the component's actions:
- `Load` is the mount effect.
- `Rollover` is the body of the midnight timer.
- `ShowResults` is the portion set-up at the end of the search handler.
- `AddToLog` and `RemoveFromLog` edit the diary.
- `PersistDiary` is the effect that writes the diary to storage whenever it changes.
  Each method that changes the diary ends by calling it.

"Today" and the new date are parameters, so no clock is involved.
`Persisted()` says that the storage records match the in-memory diary, history and date.
`Load` and `Rollover` establish it, and the diary edits preserve it. Because of
this, a second `Load` on the same day leaves the diary and the history unchanged.

The coded formula gives BMR(70, 175, 30) = 1648.75 for "male" and 1482.75 for
"female" (`Calorie.BMRWorkedValues`).

## Model

| member | source | states |
|---|---|---|
| `JsMath.Round` | app/lib/calorie.ts:14 | `Math.round(x)` is the integer r with x − 0.5 < r ≤ x + 0.5 |
| `JsMath.RoundUnique` | app/lib/calorie.ts:14 | only one integer satisfies Round's contract, so the contract fully determines the result |
| `JsMath.RoundHalfUp` | app/lib/calorie.ts:14 | n + 0.5 rounds to n + 1 and n − 0.5 rounds to n (ties go up, not to even) |
| `JsMath.RoundShift` | app/page.tsx:130 | adding a whole number before rounding adds it to the result |
| `JsMath.RoundMonotone` | app/lib/calorie.ts:14 | rounding is monotone |
| `Calorie.CalcBMR` | app/lib/calorie.ts:7-9 | the BMR exceeds the affine part 10·kg + 6.25·cm − 5·age by exactly the sex offset: +5 for "male", −161 for any other gender |
| `Calorie.SexOffset` | app/lib/calorie.ts:8 | with every measurement zero the BMR is the offset: +5 for "male", −161 for "female" and for any other gender |
| `Calorie.MaleFemaleDifference` | app/lib/calorie.ts:8-9 | for the same weight, height and age, male BMR exceeds female BMR by exactly 166 |
| `Calorie.BMRAffine` | app/lib/calorie.ts:9 | one more kg adds 10, one more cm adds 6.25, one more year subtracts 5 |
| `Calorie.BMRWorkedValues` | app/lib/calorie.ts:7-9 | BMR(70, 175, 30) is 1648.75 for male and 1482.75 for female |
| `Calorie.CalcTDEE` | app/lib/calorie.ts:13-15 | the TDEE is an integer within half a kcal of bmr × factor, with the interval (b·f − 0.5, b·f + 0.5] |
| `Calorie.TDEEWorkedValue` | app/lib/calorie.ts:14 | TDEE(1648.75, 1.2) = 1979 (1978.5 rounds up) |
| `Calorie.TDEEMonotone` | app/lib/calorie.ts:14 | for a non-negative activity factor, a larger BMR never gives a smaller TDEE |
| `Calorie.TDEEUnitFactor` | app/lib/calorie.ts:14 | at factor 1 the TDEE is the rounded BMR |
| `Page.WeightKg` | app/page.tsx:25 | kilograms times 2.20462 give back the pounds entered |
| `Page.HeightCm` | app/page.tsx:26-27 | centimetres divided by 2.54 give back the total inches 12·ft + in |
| `Page.Bmr` | app/page.tsx:28 | the page's BMR in the form's units: 10 per converted kilogram, 15.875 per inch of total height 12·ft + in, −5 per year, plus the sex offset |
| `Page.Tdee` | app/page.tsx:28-29 | the page's budget is within half a kcal of BMR(converted stats) × activity |
| `Page.DefaultBudget` | app/page.tsx:17-29 | with the default stats (154 lb, 5 ft 9 in, 30, male, 1.2) the budget is 1979 kcal |
| `Page.Sum` | app/page.tsx:130 | the `reduce` sum of the diary's calories (also at lines 61 and 93): 0 for an empty diary, and never negative when no item is |
| `Page.SumAppend` | app/page.tsx:130 | the diary sum over a concatenation is the sum of the two parts |
| `Page.SumSingleton` | app/page.tsx:130 | the sum over one item is its calories |
| `Page.SumWithout` | app/page.tsx:127-130 | dropping position idx lowers the sum by exactly that item's calories |
| `Page.TotalConsumed` | app/page.tsx:130 | `totalConsumed` is an integer within half a kcal of the diary's summed calories |
| `Page.Remaining` | app/page.tsx:131 | remaining + totalConsumed = tdee, and with non-negative calories remaining never exceeds tdee |
| `Page.ShownRemaining` | app/page.tsx:225 | the displayed remainder is never negative: it is the remainder when positive and 0 otherwise |
| `Page.WithoutIndex` | app/page.tsx:127 | the filter drops exactly position idx and keeps the others in order; an out-of-range idx leaves the list unchanged |
| `Page.Multiplier` | app/page.tsx:120 | the portion for idx when it is present and non-zero, otherwise 1; never 0 |
| `Page.Portioned` | app/page.tsx:121-122 | given the multiplier, the logged copy keeps name and serving fields; its calories are a whole number within half a kcal of calories × multiplier |
| `Page.TotalAfterAppend` | app/page.tsx:122-130 | appending a whole-calorie item raises totalConsumed by exactly its calories |
| `Page.TotalAfterAdd` | app/page.tsx:119-122 | adding an item raises totalConsumed by exactly round(calories × multiplier) |
| `Page.TotalAfterRemove` | app/page.tsx:126-130 | removing a whole-calorie item lowers totalConsumed by exactly its calories |
| `Page.DiaryExample` | app/page.tsx:119-131 | items of 250 and 137 kcal total 387 and leave 1613 of 2000; removing the first leaves only the second, totalling 137 |
| `Page.Archived` | app/page.tsx:61-62 | archiving adds exactly one entry: the old history is a prefix, then (date, rounded diary total) |
| `Page.OrEmpty` | app/page.tsx:54-58 | a present stored list is used as parsed; an absent record reads as the empty list |
| `Page.StoredLastOr` | app/page.tsx:56 | a stored last date that is present and non-empty is used; otherwise the date is today |
| `Page.InitialPortions` | app/page.tsx:113-114 | the initial portions map has exactly the keys 0 .. \|results\| − 1, each mapped to 1 |
| `Page.Home.Persisted` | app/page.tsx:63-71 | the storage records mirror memory: the stored diary is the diary, the stored history (or empty) is the history, the stored date is lastLogDate, so a load on that date archives nothing |
| `Page.Home.constructor` | app/page.tsx:17-39 | the first render: default stats, empty lists, lastLogDate = today, storage as found |
| `Page.Home.PersistDiary` | app/page.tsx:83-85 | the stored diary becomes the in-memory diary |
| `Page.Home.Load` | app/page.tsx:42-72 | stats are restored when stored. When the stored date differs from today (earlier or later), history becomes the stored history with one archived entry, and the diary and stored diary are empty. Otherwise (the stored date equals today, or is absent or empty and so defaults to today) history is the stored history and the diary is the stored diary. lastLogDate is today, storage is in sync, and a repeated same-day load changes neither diary nor history |
| `Page.Home.Rollover` | app/page.tsx:92-102 | history gains exactly (lastLogDate, rounded total) with the old history as a prefix; diary and stored diary become empty; the date and stored date become the new date; nothing else changes |
| `Page.Home.ShowResults` | app/page.tsx:111-115 | results are the search's foods, and every result index maps to a full portion |
| `Page.Home.AddToLog` | app/page.tsx:119-123 | the diary gains exactly the portioned item at its end with earlier items unchanged; storage follows |
| `Page.Home.RemoveFromLog` | app/page.tsx:126-128 | the diary loses exactly position idx, order kept, unchanged when out of range; storage follows |

## Left out

- The nutrition lookup route (`app/api/nutrition/route.ts`) is not modelled. It forwards the query to a third-party API using credentials from the environment. Its only logic is returning an error object with status 500 when the upstream response is not ok.
- The HTTP request in the search handler (app/page.tsx:110) is not modelled. `ShowResults` takes the returned food list as a parameter. The `query` text (app/page.tsx:32) only feeds that request, so it has no field.
- JSX rendering and styling are not modelled. That includes the portion selector's update of `portions` (app/page.tsx:196) and the rounded BMR display (app/page.tsx:177). `AddToLog` accepts any portions map, so every multiplier the selector could set is covered.
- The stats-persistence effect (app/page.tsx:75-80) is not modelled; it only writes a record. The stats themselves are restored by `Load`.
- No clock is modelled: `Date`, `toISOString`, the time until local midnight, `setTimeout` and `clearTimeout`. Today and the new date are opaque string parameters, and the timer callback is a plain method.
- Timing effects are not modelled: a UTC date compared against a local-midnight timer, and a possible double archive when the load and the timer both fire near midnight. Neither unique nor increasing history dates are claimed, because the code does not ensure them.
- JSON serialisation and the `localStorage` API are not modelled. Each record is a field holding its parsed value, and an absent record is `None`. Malformed stored JSON is not modelled.
- IEEE-754 doubles are not modelled: all arithmetic is on exact reals. `Math.round` is round-half-up on exact values, and a NaN portion (which `|| 1` would also replace) is not modelled.
- React's render and effect scheduling are not modelled. Each method applies a transition together with the diary-persistence effect it triggers.
