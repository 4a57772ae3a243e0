/** How the coin and note sections connect a row to the counter
    (src/components/cash-counter/CoinsSection.tsx and NotesSection.tsx):
    each row's report is passed to `handleDenominationChange` together
    with the row's denomination. */
module Sections {
  import opened CashTypes
  import opened Text
  import opened TotalsCalculation
  import opened DenominationRow
  import opened CashCounter

  /** A keystroke in a row, the row's recompute, the section's call into
      the counter and the totals effect. The typed digits reach the map
      when they are at most 9999; a larger count reaches it as 0, although
      the row itself shows the full product. */
  method RowEditReachesTotals(row: Row, counter: CashCounter, raw: string)
    modifies row, counter
    ensures var digits := StripNonDigits(raw);
            var typed := if digits == "" then 0 else DigitsValue(digits);
            && Numeric(row.value) in counter.totals
            && counter.totals[Numeric(row.value)].count == Num(if typed <= MaxCount then typed else 0)
            && row.total == row.value * typed
    ensures counter.Settled()
    ensures counter.grandTotal == GrandTotalOf(old(counter.totals) - {Numeric(row.value)})
              + row.value * StoredCount(counter.totals[Numeric(row.value)].count)
  {
    row.HandleChange(raw);
    var count, total := row.RecomputeEffect();
    EditedCountMeaning(raw);
    counter.HandleDenominationChange(row.value, Num(count), total);
    counter.RecalculateTotals();
    var stored := StoredCount(Num(count));
    SubtotalAfterChange(old(counter.totals), row.value, Num(count), total, CoinTally);
    SubtotalAfterChange(old(counter.totals), row.value, Num(count), total, NoteTally);
  }

  /** Three one-shekel coins and two twenty-shekel notes: 3.00 in coins,
      40.00 in notes, 43.00 in all. */
  lemma ThreeShekelsAndTwoTwenties()
    ensures var m := ApplyChange(ApplyChange(map[], 100, Num(3), 300), 2000, Num(2), 4000);
            CoinTotalOf(m) == 300 && NoteTotalOf(m) == 4000 && GrandTotalOf(m) == 4300
  {
    var m1 := ApplyChange(map[], 100, Num(3), 300);
    SubtotalAfterChange(map[], 100, Num(3), 300, CoinTally);
    SubtotalAfterChange(map[], 100, Num(3), 300, NoteTally);
    assert m1 - {Numeric(2000)} == m1;
    SubtotalAfterChange(m1, 2000, Num(2), 4000, CoinTally);
    SubtotalAfterChange(m1, 2000, Num(2), 4000, NoteTally);
  }
}
