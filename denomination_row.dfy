/** The digits-only counter row that the coin and note sections render
    (src/components/DenominationRow.tsx): one count text, the shown total,
    and a recompute effect that reports `(count, value * count)` to the
    section, which passes it on with the row's denomination. */
module DenominationRow {
  import opened CashTypes
  import opened Text

  /** `parseInt(count) || 0`. */
  function RowCount(text: string): int {
    OrIfFalsy(ParseInt(text), 0)
  }

  /** The first count text reads back as the count it was rendered from,
      negative counts included. */
  lemma InitialTextRoundTrip(initialCount: int)
    ensures RowCount(IntToString(initialCount)) == initialCount
  {
    ParseIntOfIntToString(initialCount);
  }

  /** After an edit the count is the value of the typed digits, with no
      upper bound; no digits at all count as 0. */
  lemma EditedCountMeaning(raw: string)
    ensures RowCount(StripNonDigits(raw)) == if StripNonDigits(raw) == "" then 0 else DigitsValue(StripNonDigits(raw))
    ensures RowCount(StripNonDigits(raw)) >= 0
  {
    if StripNonDigits(raw) != "" {
      ParseIntOfDigits(StripNonDigits(raw));
    }
  }

  class Row {
    const value: int
    var count: string
    var total: int

    /** The first render: `initialCount.toString()`, by default "0". */
    constructor (value: int, initialCount: int)
      ensures this.value == value && count == IntToString(initialCount) && total == 0
      ensures RowCount(count) == initialCount
    {
      this.value := value;
      count := IntToString(initialCount);
      total := 0;
      InitialTextRoundTrip(initialCount);
    }

    /** `handleChange`: the text keeps only the digits typed. */
    method HandleChange(raw: string)
      modifies this`count
      ensures count == StripNonDigits(raw) && AllDigits(count)
    {
      count := StripNonDigits(raw);
    }

    /** The recompute effect: every run reports, with no change check. */
    method RecomputeEffect() returns (reportedCount: int, reportedTotal: int)
      modifies this`total
      ensures reportedCount == RowCount(count)
      ensures reportedTotal == value * reportedCount && total == reportedTotal
    {
      var parsedCount := OrIfFalsy(ParseInt(count), 0);
      var calculatedTotal := value * parsedCount;
      total := calculatedTotal;
      reportedCount, reportedTotal := parsedCount, calculatedTotal;
    }
  }
}
