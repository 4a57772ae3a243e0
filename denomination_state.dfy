/** The entry state of one denomination row with a count and a multiplier
    (src/components/denomination/hooks/useDenominationState.tsx). The two
    input texts, the shown total and the hook's refs are fields; each
    handler and each effect is a method, and a call of `onChange` is the
    report a method returns. */
module DenominationState {
  import opened CashTypes
  import opened Text

  const MaxCountInput: nat := 9999
  const MaxMultiplierInput: nat := 999

  /** The arguments of one `onChange(value, count, total)` call. */
  datatype Report = Report(value: int, count: int, total: int)

  /** The text after a keystroke: the typed digits, unless they are there and
      parse above `cap`, in which case the keystroke is ignored. */
  function EditedText(current: string, raw: string, cap: nat): (r: string)
    ensures AllDigits(current) ==> AllDigits(r)
    ensures r == current || r == StripNonDigits(raw)
  {
    var digits := StripNonDigits(raw);
    if digits == "" then ""
    else if DigitsValue(digits) <= cap then digits
    else current
  }

  /** A field holds digits only and its value, if any, stays within `cap`. */
  predicate WithinCap(s: string, cap: nat) {
    AllDigits(s) && (s == "" || DigitsValue(s) <= cap)
  }

  /** Every keystroke keeps a field digits-only and within its cap; an
      accepted keystroke stores exactly the typed digits, and one whose
      digits parse above the cap changes nothing. */
  lemma EditKeepsFieldWithinCap(current: string, raw: string, cap: nat)
    ensures WithinCap(current, cap) ==> WithinCap(EditedText(current, raw, cap), cap)
    ensures StripNonDigits(raw) != "" && DigitsValue(StripNonDigits(raw)) > cap
            ==> EditedText(current, raw, cap) == current
    ensures StripNonDigits(raw) == "" || DigitsValue(StripNonDigits(raw)) <= cap
            ==> EditedText(current, raw, cap) == StripNonDigits(raw)
  {
  }

  /** On blur an empty field takes its default text; any other is kept. */
  function BlurredText(s: string, fill: string): (r: string)
    ensures s != "" ==> r == s
    ensures s == "" ==> r == fill
  {
    if s == "" then fill else s
  }

  /** `parseInt(countInput) || 0`. */
  function CountOf(text: string): int {
    OrIfFalsy(ParseInt(text), 0)
  }

  /** `parseInt(multiplierInput) || 1`. */
  function MultiplierOf(text: string): int {
    OrIfFalsy(ParseInt(text), 1)
  }

  /** What the two fields mean: an empty count is 0; an empty multiplier
      and a multiplier of 0 are both 1; the effective count is their
      product, never negative, and at most 9999 times 999 while the count
      is within its cap (a count adopted from `initialCount` may exceed it). */
  lemma EffectiveCountMeaning(countText: string, multText: string)
    requires AllDigits(countText) && WithinCap(multText, MaxMultiplierInput)
    ensures CountOf(countText) == if countText == "" then 0 else DigitsValue(countText)
    ensures MultiplierOf(multText) == if multText == "" || DigitsValue(multText) == 0 then 1 else DigitsValue(multText)
    ensures 0 <= CountOf(countText) * MultiplierOf(multText)
    ensures WithinCap(countText, MaxCountInput) ==>
              CountOf(countText) * MultiplierOf(multText) <= MaxCountInput * MaxMultiplierInput
  {
    if countText != "" {
      ParseIntOfDigits(countText);
    }
    if multText != "" {
      ParseIntOfDigits(multText);
    }
    var c, m := CountOf(countText), MultiplierOf(multText);
    assert 0 <= c && 1 <= m <= MaxMultiplierInput;
    if WithinCap(countText, MaxCountInput) {
      MultiplyWithin(c, m, MaxCountInput, MaxMultiplierInput);
    } else {
      MultiplyWithin(c, m, c, m);
    }
  }

  lemma MultiplyWithin(a: int, b: int, amax: int, bmax: int)
    requires 0 <= a <= amax && 0 <= b <= bmax
    ensures 0 <= a * b <= amax * bmax
  {
  }

  class EntryState {
    const value: int
    var countInput: string
    var multiplierInput: string
    var total: int
    // lastReportedValues
    var lastCount: int
    var lastMultiplier: int
    var lastTotal: int
    // resetTriggerRef
    var lastResetTrigger: int
    // isInitialSyncRef
    var isInitialSync: bool

    /** Both fields hold digits only, and the multiplier stays within 999
        (the count can start above 9999 when the owner passes such a count). */
    ghost predicate Valid()
      reads this
    {
      AllDigits(countInput) && WithinCap(multiplierInput, MaxMultiplierInput)
    }

    function EffectiveCount(): int
      reads this
    {
      CountOf(countInput) * MultiplierOf(multiplierInput)
    }

    function LineTotal(): int
      reads this
    {
      value * CountOf(countInput) * MultiplierOf(multiplierInput)
    }

    /** The last report matches what the fields now mean. */
    ghost predicate InSync()
      reads this
    {
      lastCount == EffectiveCount() && lastTotal == LineTotal()
    }

    /** The first render: a positive `initialCount` is shown, otherwise "0". */
    constructor (value: int, initialCount: int, resetTrigger: int)
      ensures this.value == value && Valid()
      ensures countInput == (if initialCount > 0 then IntToString(initialCount) else "0")
      ensures multiplierInput == "1" && total == 0
      ensures lastCount == (if initialCount > 0 then initialCount else 0)
      ensures lastMultiplier == 1 && lastTotal == 0
      ensures lastResetTrigger == resetTrigger && isInitialSync
    {
      this.value := value;
      var countText := if initialCount > 0 then IntToString(initialCount) else "0";
      countInput := countText;
      multiplierInput := "1";
      total := 0;
      ParseIntOfIntToString(initialCount);
      lastCount := OrIfFalsy(ParseInt(countText), 0);
      lastMultiplier := OrIfFalsy(ParseInt("1"), 1);
      lastTotal := 0;
      lastResetTrigger := resetTrigger;
      isInitialSync := true;
    }

    /** The reset effect: a trigger above the last one seen zeroes the row
        and reports `(value, 0, 0)`; the trigger is remembered either way. */
    method ResetEffect(resetTrigger: int) returns (report: Option<Report>)
      requires Valid()
      modifies this
      ensures Valid() && lastResetTrigger == resetTrigger && isInitialSync == old(isInitialSync)
      ensures resetTrigger > old(lastResetTrigger) ==>
        && countInput == "0" && multiplierInput == "1" && total == 0
        && lastCount == 0 && lastMultiplier == 1 && lastTotal == 0
        && report == Some(Report(value, 0, 0))
        && InSync()
      ensures resetTrigger <= old(lastResetTrigger) ==>
        && countInput == old(countInput) && multiplierInput == old(multiplierInput) && total == old(total)
        && lastCount == old(lastCount) && lastMultiplier == old(lastMultiplier) && lastTotal == old(lastTotal)
        && report == None
    {
      report := None;
      if resetTrigger > lastResetTrigger {
        countInput := "0";
        multiplierInput := "1";
        total := 0;
        lastCount, lastMultiplier, lastTotal := 0, 1, 0;
        report := Some(Report(value, 0, 0));
        ParseIntOfDigits("0");
        ParseIntOfDigits("1");
      }
      lastResetTrigger := resetTrigger;
    }

    /** The initial-count effect: a positive `initialCount` is adopted while
        the initial sync is still open, which closes it for good. */
    method InitialCountEffect(initialCount: int)
      requires Valid()
      modifies this`countInput, this`lastCount, this`isInitialSync
      ensures Valid()
      ensures old(isInitialSync) && initialCount > 0 ==>
        countInput == IntToString(initialCount) && lastCount == initialCount && !isInitialSync
        && CountOf(countInput) == initialCount
      ensures !(old(isInitialSync) && initialCount > 0) ==>
        countInput == old(countInput) && lastCount == old(lastCount) && isInitialSync == old(isInitialSync)
    {
      if isInitialSync && initialCount > 0 {
        countInput := IntToString(initialCount);
        lastCount := initialCount;
        isInitialSync := false;
        ParseIntOfIntToString(initialCount);
      }
    }

    /** The recompute effect, run after either field changes: the shown total
        follows the fields, and the owner hears `(value, effective count,
        total)` only when that pair differs from the last report. */
    method RecomputeEffect() returns (report: Option<Report>)
      requires Valid()
      modifies this`total, this`lastCount, this`lastMultiplier, this`lastTotal
      ensures Valid() && total == LineTotal() && InSync()
      ensures report.Some? <==> !old(InSync())
      ensures report.Some? ==>
        report == Some(Report(value, EffectiveCount(), LineTotal())) && lastMultiplier == MultiplierOf(multiplierInput)
      ensures report.None? ==> lastMultiplier == old(lastMultiplier)
    {
      var count := OrIfFalsy(ParseInt(countInput), 0);
      var multiplier := OrIfFalsy(ParseInt(multiplierInput), 1);
      var calculatedTotal := value * count * multiplier;
      total := calculatedTotal;
      var effectiveCount := count * multiplier;
      report := None;
      if effectiveCount != lastCount || calculatedTotal != lastTotal {
        lastCount, lastMultiplier, lastTotal := effectiveCount, multiplier, calculatedTotal;
        report := Some(Report(value, effectiveCount, calculatedTotal));
      }
    }

    /** `handleCountChange`. */
    method HandleCountChange(raw: string)
      requires Valid()
      modifies this`countInput
      ensures Valid()
      ensures countInput == EditedText(old(countInput), raw, MaxCountInput)
    {
      var newValue := StripNonDigits(raw);
      if newValue == "" {
        countInput := "";
      } else {
        var parsed := ParseInt(newValue);
        ParseIntOfDigits(newValue);
        if parsed.Some? && parsed.value <= MaxCountInput {
          countInput := newValue;
        }
      }
    }

    /** `handleMultiplierChange`. */
    method HandleMultiplierChange(raw: string)
      requires Valid()
      modifies this`multiplierInput
      ensures Valid()
      ensures multiplierInput == EditedText(old(multiplierInput), raw, MaxMultiplierInput)
    {
      var newValue := StripNonDigits(raw);
      if newValue == "" {
        multiplierInput := "";
      } else {
        var parsed := ParseInt(newValue);
        ParseIntOfDigits(newValue);
        if parsed.Some? && parsed.value <= MaxMultiplierInput {
          multiplierInput := newValue;
        }
      }
    }

    /** `handleCountBlur`. */
    method HandleCountBlur()
      requires Valid()
      modifies this`countInput
      ensures Valid() && countInput == BlurredText(old(countInput), "0")
    {
      if countInput == "" {
        countInput := "0";
      }
    }

    /** `handleMultiplierBlur`. */
    method HandleMultiplierBlur()
      requires Valid()
      modifies this`multiplierInput
      ensures Valid() && multiplierInput == BlurredText(old(multiplierInput), "1")
    {
      if multiplierInput == "" {
        multiplierInput := "1";
        ParseIntOfDigits("1");
      }
    }
  }

  /** After a reset, the recompute that follows reports nothing: the last
      report was set to the zeroed fields. */
  method ResetThenRecompute(e: EntryState, resetTrigger: int) returns (second: Option<Report>)
    requires e.Valid() && resetTrigger > e.lastResetTrigger
    modifies e
    ensures second == None
    ensures e.countInput == "0" && e.multiplierInput == "1" && e.total == 0
  {
    var first := e.ResetEffect(resetTrigger);
    second := e.RecomputeEffect();
    ParseIntOfDigits("0");
  }

  /** Two recomputes in a row: the second one reports nothing. */
  method RecomputeTwice(e: EntryState) returns (first: Option<Report>, second: Option<Report>)
    requires e.Valid()
    modifies e
    ensures second == None
    ensures first.Some? ==> first.value.count == e.EffectiveCount() && first.value.total == e.LineTotal()
  {
    first := e.RecomputeEffect();
    second := e.RecomputeEffect();
  }
}
