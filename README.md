# Shekel cash counter: the state engine

This project models the state engine under the React interface of a cash-counting calculator for Israeli shekels. The user enters how many of each coin and note they hold. The engine keeps a map from denomination to `{count, total}` and folds it into a coin subtotal, a note subtotal and a grand total. It also keeps a newest-first history of saved calculations, persists the unsaved session to browser storage, and resets the counter session in two phases.

Modelling choices:

- **Money is counted in agorot.** 100 agorot make one shekel. Every denomination (0.10, 0.50, 1, 2, 5 and 10 shekel coins; 20, 50, 100 and 200 shekel notes) is a whole number of agorot and every count is an integer. The program's `toFixed(2)` rounding therefore leaves every amount unchanged, and the model leaves it out.
- **Keys and counts.** A map key is `Numeric(agorot)` or `NonNumeric(text)`; the second stands for a key whose `parseFloat` is NaN. A `count` is `Num(n)`, `NaN` or `Missing` (undefined).
- **State cells and effects.** Each React state cell or ref is a class field. Each effect is a method that the caller invokes after the change that would trigger it. A call of `onChange` becomes a report returned by the method.
- **Environment as parameters.** Clock readings (history ids and dates, timestamps) and whether a storage write succeeds are method parameters.
- **Storage** is a map from key to parsed value. A failed write or removal leaves the map as it was.
- **The reset timer.** `handleReset`'s deferred trigger bump is an explicit second method. The counter counts the bumps that are scheduled and have not yet run.

Modules, and the source each one follows:

- `CashTypes` (cash_types.dfy): the data model and the two denomination lists, shared by the other modules; it follows no single file.
- `Text` (text.dfy): digit stripping, `parseInt` and `toString` on the texts that `DenominationRow.tsx` and `useDenominationState.tsx` hold.
- `TotalsCalculation` (totals_calculation.dfy): the fold of `useTotalsCalculation.tsx`. A ghost `Subtotal` sums over the map in no fixed order, and `SubtotalRemove` proves that the order does not matter.
- `HistoryManagement` (history_management.dfy): the filtered history list of `useHistoryManagement.tsx`.
- `Storage` (storage.dfy): the storage map behind `useLocalStorage.tsx`, which the hooks use.
- `CashCounter` (cash_counter.dfy): the session class. It covers the state of `useCashCounter.tsx`, the state cells of `useTotalsCalculation.tsx`, `useHistoryManagement.tsx` and `useCurrentState.tsx`.
- `DenominationState` (denomination_state.dfy): the count-and-multiplier entry hook of `useDenominationState.tsx`.
- `DenominationRow` (denomination_row.dfy): the digits-only row of `DenominationRow.tsx` that the sections render.
- `Sections` (sections.dfy): how `CoinsSection.tsx` and its note counterpart pass a row's report to the counter.

Some behaviour of the code differs from what a reader might expect, and the model keeps the code's behaviour:

- **Coin threshold.** A denomination of 10 shekels or less is a coin (`denomValue <= 10`), not "below 20".
- **Zero counts.** An entry with count 0 stays in the map as `{count: 0, total: 0}`; it is not removed.
- **Counts above 9999.** `handleDenominationChange` stores such a count as 0, not 9999. It also stores a negative count as it comes and does no "unchanged, so skip" check.
- **Initial count.** `useDenominationState` adopts `initialCount` once only. A reset does not re-open the initial sync.
- **Repeated resets.** A reset pressed twice schedules two trigger bumps; it is not ignored while one is pending.
- **History on startup.** The history starts from the storage hook's pre-load value, which is empty. The model does not read the history back from storage.

## Model

| member | source | states |
|---|---|---|
| `Text.StripNonDigits` | src/components/DenominationRow.tsx:38 | the result holds only digits, every digit of the input appears in it, it is no longer than the input, and it is the input itself when that is already all digits |
| `Text.StripNonDigitsChar` | src/components/DenominationRow.tsx:38 | a single character is kept exactly when it is a digit |
| `Text.StripNonDigitsConcat` | src/components/DenominationRow.tsx:38 | stripping a concatenation is the concatenation of the stripped parts; with the one-character case, the result is the input's digits in their order, each kept once |
| `Text.OrIfFalsy` | src/components/DenominationRow.tsx:31 | the falsy default applied to `parseInt` gives the parsed value when it is a non-zero number, and the default when it is NaN or 0 |
| `Text.NatToString` | src/components/DenominationRow.tsx:26 | `toString` of a natural number is a non-empty all-digits text whose decimal value is the number |
| `Text.ParseIntOfDigits` | src/components/denomination/hooks/useDenominationState.tsx:106-107 | `parseInt` of a non-empty digits-only text is its decimal value, never NaN |
| `Text.ParseIntOfIntToString` | src/components/DenominationRow.tsx:26-31 | rendering any integer with `toString` and parsing it back gives the integer, negative ones included |
| `TotalsCalculation.Contribution` | src/hooks/useTotalsCalculation.tsx:18-26 | an entry is skipped exactly when its key is non-numeric, its count is NaN or its count is negative; a numeric count contributes key × count; an absent count under a numeric key contributes 0; an amount under a key ≥ 0 is ≥ 0 |
| `TotalsCalculation.SubtotalRemove` | src/hooks/useTotalsCalculation.tsx:16-35 | the fold is independent of iteration order: any key can be split off, leaving its own part plus the sum of the rest |
| `TotalsCalculation.SubtotalUpdate` | src/hooks/useTotalsCalculation.tsx:16-35 | setting one key changes a sum by that key's new part only; the sum equals the new part plus the sum over the other keys |
| `TotalsCalculation.EmptyTotalsAreZero` | src/hooks/useTotalsCalculation.tsx:12-13 | an empty map gives a coin total, a note total and a grand total of 0 |
| `TotalsCalculation.GrandTotalIsSumOfAll` | src/hooks/useTotalsCalculation.tsx:38-40 | coin total plus note total equals the sum of every entry's amount, so each entry is counted exactly once |
| `TotalsCalculation.CoinTotalIsSumOverCoinKeys` | src/hooks/useTotalsCalculation.tsx:26-34 | the coin total is the sum of key × count over exactly the keys of 10 shekels or less |
| `TotalsCalculation.SkippedEntryIgnored` | src/hooks/useTotalsCalculation.tsx:18-23 | an entry with a non-numeric key or a NaN or negative count changes no sum: the map sums as if the key were absent |
| `TotalsCalculation.ZeroCountIgnored` | src/hooks/useTotalsCalculation.tsx:26-34 | a key holding `{count: 0}` gives the same sums as the map without that key |
| `TotalsCalculation.StoredTotalIgnored` | src/hooks/useTotalsCalculation.tsx:18-26 | two maps with the same keys and counts have the same sums, whatever their stored `total` fields hold |
| `TotalsCalculation.SubtotalNonNegative` | src/hooks/useTotalsCalculation.tsx:19-23 | with no negative denomination key, every sum is ≥ 0, even when negative counts are stored |
| `TotalsCalculation.SectionsMatchSplit` | src/hooks/useTotalsCalculation.tsx:30 | every coin of the coin section is ≤ 10 shekels and every note of the note section is above it, so the fold's split matches the sections |
| `TotalsCalculation.CalculateTotals` | src/hooks/useTotalsCalculation.tsx:10-46 | the loop over the entries returns the coin sum and the note sum of the map, and a grand total equal to their sum |
| `Storage.Written` | src/hooks/useLocalStorage.tsx:23-30 | a successful write stores the value under its key; a failed one changes nothing; other keys are untouched |
| `Storage.Removed` | src/hooks/useLocalStorage.tsx:33-40 | a successful removal deletes the key; a failed one changes nothing; other keys are untouched |
| `HistoryManagement.WithoutId` | src/hooks/useHistoryManagement.tsx:66 | an entry remains exactly when it was there and its id differs from the deleted one, and the list never grows |
| `HistoryManagement.DeleteAbsentIsIdentity` | src/hooks/useHistoryManagement.tsx:65-67 | deleting an id that no entry has leaves the history unchanged |
| `HistoryManagement.DeleteKeepsOrder` | src/hooks/useHistoryManagement.tsx:66 | deletion works piecewise over a concatenation, so the remaining entries keep their relative order |
| `HistoryManagement.DeleteLength` | src/hooks/useHistoryManagement.tsx:66 | the list shrinks by exactly the number of entries carrying the id |
| `HistoryManagement.DeleteIdempotent` | src/hooks/useHistoryManagement.tsx:65-67 | deleting the same id twice gives the same list as deleting it once |
| `HistoryManagement.DeleteUndoesSave` | src/hooks/useHistoryManagement.tsx:53-66 | saving an entry with a fresh id and then deleting that id gives back the history before the save |
| `CashCounter.StoredCount` | src/hooks/useCashCounter.tsx:37-39 | the stored count is never above 9999; a count of at most 9999 (negative included) is kept; above 9999, NaN or absent becomes 0 |
| `CashCounter.ApplyChange` | src/hooks/useCashCounter.tsx:43-51 | after a change the key is present with the stored count and total value × count, whatever total was passed; no other key changes or appears |
| `CashCounter.ApplyChangeIdempotent` | src/hooks/useCashCounter.tsx:45-51 | applying the same (value, count) twice gives the same map as applying it once, whatever totals were passed |
| `CashCounter.SubtotalAfterChange` | src/hooks/useCashCounter.tsx:43-51 | after a change, each sum is the sum over the other keys plus value × stored count on the value's side; a negative stored count adds nothing |
| `CashCounter.ZeroChangeDropsDenomination` | src/hooks/useCashCounter.tsx:45-51 | reporting count 0 leaves a grand total equal to that of the map without the key |
| `CashCounter.OverLimitStoredAsZero` | src/hooks/useCashCounter.tsx:37-39 | a count above 9999 is stored as `{count: 0, total: 0}`, not clamped, and drops out of the grand total |
| `CashCounter.CashCounter.constructor` | src/hooks/useCashCounter.tsx:9-11 | a fresh session has an empty map, the counter tab, trigger 0, zero sums, an empty history and nothing in the stored-state cell |
| `CashCounter.CashCounter.HandleDenominationChange` | src/hooks/useCashCounter.tsx:35-52 | the new map is `ApplyChange` of the old map |
| `CashCounter.CashCounter.RecalculateTotals` | src/hooks/useTotalsCalculation.tsx:10-46 | after the effect the three sums are those of the current map, and grand = coin + note |
| `CashCounter.CashCounter.SaveToHistory` | src/hooks/useHistoryManagement.tsx:38-63 | a grand total ≤ 0 changes nothing; otherwise the new entry (current map and sums, given id and date) is prepended to the old history, whether or not the storage write succeeds; an entry saved while settled records the sums of its own map |
| `CashCounter.CashCounter.DeleteHistoryEntry` | src/hooks/useHistoryManagement.tsx:65-75 | the history becomes the filtered list, which is also written to storage when the write succeeds |
| `CashCounter.CashCounter.ClearAllHistory` | src/hooks/useHistoryManagement.tsx:77-86 | the history is empty afterwards, and the stored history is removed when the removal succeeds |
| `CashCounter.CashCounter.RestoreFromHistory` | src/hooks/useHistoryManagement.tsx:88-92 | the live map becomes the entry's map and the tab becomes "counter"; the history is untouched |
| `CashCounter.CashCounter.LoadStoredState` | src/hooks/useLocalStorage.tsx:10-20 | a state record stored under the current-state key fills the stored-state cell; otherwise the cell is unchanged |
| `CashCounter.CashCounter.RehydrateEffect` | src/hooks/useCurrentState.tsx:26-30 | the map takes the stored map (or `{}`) only if a stored state exists, the live map is empty and the trigger is 0; otherwise it is unchanged |
| `CashCounter.CashCounter.SaveCurrentState` | src/hooks/useCurrentState.tsx:52-62 | the stored-state cell takes the live map and the timestamp, storage takes them when the write succeeds, and the live map is not changed |
| `CashCounter.CashCounter.SaveOnChangeEffect` | src/hooks/useCurrentState.tsx:33-37 | a non-empty map is saved; an empty map leaves the cell and storage as they were |
| `CashCounter.CashCounter.HandleBeforeUnload` | src/hooks/useCurrentState.tsx:40-43 | on unload the map is saved unconditionally, even when it is empty |
| `CashCounter.CashCounter.HandleReset` | src/hooks/useCurrentState.tsx:64-68 | the first phase empties the map, clears the stored-state cell, removes the stored key when the removal succeeds, and schedules one trigger bump without changing the trigger |
| `CashCounter.CashCounter.FinishReset` | src/hooks/useCurrentState.tsx:70-73 | the deferred phase raises the trigger by exactly 1 |
| `CashCounter.ResetSequence` | src/hooks/useCurrentState.tsx:64-74 | in the counter session alone, after both phases and the effects in between: the map is empty, the sums are 0, the stored-state cell is cleared, the stored key is gone when its removal succeeds and storage is unchanged when it fails, the trigger is positive, the history is untouched, and rehydration leaves the map empty |
| `CashCounter.SaveEditRestore` | src/hooks/useHistoryManagement.tsx:38-92 | save, an edit, then restore of the saved entry: the live map equals the map at save time, and once recalculated the sums equal the ones the entry recorded |
| `DenominationState.EditedText` | src/components/denomination/hooks/useDenominationState.tsx:98-110 | a keystroke leaves a digits-only field digits-only, and the field becomes either the typed digits or stays as it was |
| `DenominationState.EditKeepsFieldWithinCap` | src/components/denomination/hooks/useDenominationState.tsx:103-109 | for any current text: an empty edit is accepted, digits within the cap replace the text, digits parsing above the cap leave it unchanged, and a field within its cap stays within it |
| `DenominationState.BlurredText` | src/components/denomination/hooks/useDenominationState.tsx:138-148 | blur turns an empty field into its default text and leaves any other text untouched |
| `DenominationState.EffectiveCountMeaning` | src/components/denomination/hooks/useDenominationState.tsx:65-75 | for a digits-only count and a multiplier within 999: empty count means 0; empty or "0" multiplier means 1; the effective count is their product, never negative, and at most 9999 × 999 when the count is within 9999 (a count taken from `initialCount` may exceed it) |
| `DenominationState.EntryState.constructor` | src/components/denomination/hooks/useDenominationState.tsx:18-34 | the count text is `initialCount` when it is positive, otherwise "0"; the multiplier is "1"; the last report holds that count, multiplier 1 and total 0 |
| `DenominationState.EntryState.ResetEffect` | src/components/denomination/hooks/useDenominationState.tsx:37-50 | a trigger above the last one seen zeroes the fields, the total and the last report and emits (value, 0, 0); otherwise nothing changes and nothing is emitted; the trigger is remembered either way |
| `DenominationState.EntryState.InitialCountEffect` | src/components/denomination/hooks/useDenominationState.tsx:53-60 | a positive `initialCount` is adopted only while the initial sync is open, which then closes for good; otherwise nothing changes |
| `DenominationState.EntryState.RecomputeEffect` | src/components/denomination/hooks/useDenominationState.tsx:63-96 | the shown total becomes value × count × multiplier; a report (value, effective count, total) is emitted exactly when that pair differs from the last report, which is then updated |
| `DenominationState.EntryState.HandleCountChange` | src/components/denomination/hooks/useDenominationState.tsx:98-116 | the count text becomes the edited text with cap 9999 and stays digits-only |
| `DenominationState.EntryState.HandleMultiplierChange` | src/components/denomination/hooks/useDenominationState.tsx:118-136 | the multiplier text becomes the edited text with cap 999 and stays digits-only and within 999 |
| `DenominationState.EntryState.HandleCountBlur` | src/components/denomination/hooks/useDenominationState.tsx:138-142 | an empty count text becomes "0"; any other is kept |
| `DenominationState.EntryState.HandleMultiplierBlur` | src/components/denomination/hooks/useDenominationState.tsx:144-148 | an empty multiplier text becomes "1"; any other is kept |
| `DenominationState.ResetThenRecompute` | src/components/denomination/hooks/useDenominationState.tsx:37-96 | the recompute that follows a reset emits nothing, because the reset set the last report to zero |
| `DenominationState.RecomputeTwice` | src/components/denomination/hooks/useDenominationState.tsx:75-95 | a second recompute right after the first emits nothing |
| `DenominationRow.InitialTextRoundTrip` | src/components/DenominationRow.tsx:24-31 | the initial count text, `initialCount` rendered as a string, reads back as `initialCount` |
| `DenominationRow.EditedCountMeaning` | src/components/DenominationRow.tsx:31-39 | after an edit the reported count is the value of the typed digits (empty counts as 0), never negative and with no upper bound |
| `DenominationRow.Row.constructor` | src/components/DenominationRow.tsx:24-27 | the count text is `initialCount.toString()`, defaulting to "0", and the shown total is 0 |
| `DenominationRow.Row.HandleChange` | src/components/DenominationRow.tsx:37-40 | the count text becomes the digits of the input, with no cap |
| `DenominationRow.Row.RecomputeEffect` | src/components/DenominationRow.tsx:30-35 | every run reports (parsed count, value × count), with no change check, rounding or cap, and shows that total |
| `Sections.RowEditReachesTotals` | src/components/cash-counter/CoinsSection.tsx:59-61 | a row edit passed on by its section puts the typed count in the map when it is at most 9999 and 0 when it is larger, although the row shows the full product; the grand total becomes that of the other keys plus value × stored count |
| `Sections.ThreeShekelsAndTwoTwenties` | src/hooks/useTotalsCalculation.tsx:26-40 | three 1-shekel coins and two 20-shekel notes give coin 3.00, notes 40.00 and grand total 43.00 |

## Left out

- Rendering, styling, animation, translations, toasts and console output: presentation only.
- Floating point. Amounts are exact agorot, so `toFixed(2)` and `parseFloat` rounding do not appear. Fractional counts are also left out: every count is an integer.
- `parseInt` is modelled only on the texts the rows can hold: an optional minus sign followed by decimal digits and anything after them. Leading white space, a plus sign and a leading `0x`/`0X`, which `parseInt` with no radix reads as hexadecimal, are not modelled. No text the model parses has these forms: each is digits only or an integer's `toString`.
- Map keys are identified with the denomination they parse to. Two stored keys that parse to the same number, such as "5" and "5.0" or "5abc", are separate entries in the program, and both add to the sums. In the model they are one key. A key that is not a whole number of agorot cannot be represented. Such keys can come only from stored data that the program did not write itself.
- JSON parsing of stored values. Storage holds already parsed records. A value of the wrong shape under the current-state key is treated like an absent one by `CashCounter.CashCounter.LoadStoredState`.
- Loading the history back from storage. The history starts from the empty pre-load value, so no persist/load round trip is claimed.
- React scheduling. Effects run only when a method is called, and the model does not decide when React would call them. In particular, the section passes a new `onChange` function on every render, and that makes `DenominationRow`'s effect run again on every parent render. This re-reporting is not modelled.
- The 10 ms timer of `handleReset` is the explicit `FinishReset` step, and `Date.now()` and `toLocaleString` are parameters.
- `useDenominationState`'s `isCountChangingRef`/`isMultiplierChangingRef` flags and their 50 ms timers: they are never read. Its notification-timeout ref is never set.
- `CashCounter.ResetSequence`: the result holds for the counter hook and its effects alone. In the running program the rendered `DenominationRow`s are never passed the reset trigger, and after the map is cleared each row gets a new `onChange` and reports its old count again, which fills the map once more. The model does not claim that the wired screen ends up empty.
- `setActiveTab` as called directly by the tab bar is not modelled: it is a plain setter with nothing to check.
- `capacitor.config.ts`, `utils/formatters.ts` and the random background animation are not part of this model.
