/** The counter session (src/hooks/useCashCounter.tsx) with the hooks it
    composes: the totals fold it triggers (useTotalsCalculation.tsx), the
    history list (useHistoryManagement.tsx) and the persistence of the
    unsaved session together with the two-phase reset (useCurrentState.tsx).
    Each React state cell is a field; each effect is a method the caller
    invokes after the change that would trigger it; clock readings and
    whether a storage write succeeds are parameters. */
module CashCounter {
  import opened CashTypes
  import opened TotalsCalculation
  import opened HistoryManagement
  import opened Storage

  /** Counts above this are refused by `handleDenominationChange`. */
  const MaxCount: int := 9999

  const CounterTab: string := "counter"

  /** The count `handleDenominationChange` stores: a count above 9999 or not
      a number becomes 0; any other count, negative ones included, is kept. */
  function StoredCount(count: Count): (r: int)
    ensures r <= MaxCount
    ensures count.Num? && count.n <= MaxCount ==> r == count.n
    ensures !(count.Num? && count.n <= MaxCount) ==> r == 0
  {
    match count
    case Num(n) => if n > MaxCount then 0 else n
    case _ => 0
  }

  /** The new map of `handleDenominationChange`: the key `value` set to the
      stored count and a total recomputed from it; the `total` argument is
      never read. A zero count is kept as an explicit entry. */
  function ApplyChange(totals: Totals, value: int, count: Count, total: int): (r: Totals)
    ensures r.Keys == totals.Keys + {Numeric(value)}
    ensures r[Numeric(value)] == LineEntry(Num(StoredCount(count)), value * StoredCount(count))
    ensures forall k :: k in totals && k != Numeric(value) ==> r[k] == totals[k]
  {
    var stored := StoredCount(count);
    totals[Numeric(value) := LineEntry(Num(stored), value * stored)]
  }

  /** Applying the same change twice is applying it once. */
  lemma ApplyChangeIdempotent(totals: Totals, value: int, count: Count, t1: int, t2: int)
    ensures ApplyChange(ApplyChange(totals, value, count, t1), value, count, t2)
         == ApplyChange(totals, value, count, t1)
  {
  }

  /** After a change, each sum is the sum of the other keys plus the new
      line's amount `value * count`, on its side of the coin limit; a
      negative stored count adds nothing. */
  lemma SubtotalAfterChange(totals: Totals, value: int, count: Count, total: int, t: Tally)
    ensures Subtotal(ApplyChange(totals, value, count, total), t)
         == Subtotal(totals - {Numeric(value)}, t)
          + (if InTally(value, t) && StoredCount(count) >= 0 then value * StoredCount(count) else 0)
  {
    var stored := StoredCount(count);
    SubtotalUpdate(totals, Numeric(value), LineEntry(Num(stored), value * stored), t);
  }

  /** Reporting a zero count leaves every sum as if the denomination had
      never been entered. */
  lemma ZeroChangeDropsDenomination(totals: Totals, value: int, total: int)
    ensures GrandTotalOf(ApplyChange(totals, value, Num(0), total)) == GrandTotalOf(totals - {Numeric(value)})
  {
    SubtotalAfterChange(totals, value, Num(0), total, CoinTally);
    SubtotalAfterChange(totals, value, Num(0), total, NoteTally);
  }

  /** A count over the limit is stored as 0, not clamped to 9999. */
  lemma OverLimitStoredAsZero(totals: Totals, value: int, n: int, total: int)
    requires n > MaxCount
    ensures ApplyChange(totals, value, Num(n), total)[Numeric(value)] == LineEntry(Num(0), 0)
    ensures GrandTotalOf(ApplyChange(totals, value, Num(n), total)) == GrandTotalOf(totals - {Numeric(value)})
  {
    ZeroChangeDropsDenomination(totals, value, total);
  }

  /** A history entry whose recorded sums are those of its own map. */
  ghost predicate ConsistentEntry(e: HistoryEntry) {
    e.coinTotal == CoinTotalOf(e.totals) && e.noteTotal == NoteTotalOf(e.totals) && e.grandTotal == GrandTotalOf(e.totals)
  }

  class CashCounter {
    // useCashCounter
    var totals: Totals
    var activeTab: string
    var resetTrigger: int
    // useTotalsCalculation
    var coinTotal: int
    var noteTotal: int
    var grandTotal: int
    // useHistoryManagement
    var history: seq<HistoryEntry>
    // useCurrentState: the stored-state cell of its storage hook
    var storedState: Option<PersistedState>
    // localStorage
    var storage: Store
    /** Second reset phases scheduled and not yet run (the 10 ms timers). */
    var pendingResetBumps: nat

    /** The three sums are those of the current map: true once the totals
        effect has run after the last change to the map. */
    ghost predicate Settled()
      reads this
    {
      coinTotal == CoinTotalOf(totals) && noteTotal == NoteTotalOf(totals) && grandTotal == GrandTotalOf(totals)
    }

    /** The first render: nothing entered, the counter tab, trigger 0, an
        empty history, and storage as the browser has it. */
    constructor (initialStorage: Store)
      ensures totals == map[] && activeTab == CounterTab && resetTrigger == 0
      ensures coinTotal == 0 && noteTotal == 0 && grandTotal == 0 && Settled()
      ensures history == [] && storedState == None && storage == initialStorage
      ensures pendingResetBumps == 0
    {
      totals := map[];
      activeTab := CounterTab;
      resetTrigger := 0;
      coinTotal, noteTotal, grandTotal := 0, 0, 0;
      history := [];
      storedState := None;
      storage := initialStorage;
      pendingResetBumps := 0;
      EmptyTotalsAreZero();
    }

    /** `handleDenominationChange(value, count, total)`. */
    method HandleDenominationChange(value: int, count: Count, total: int)
      modifies this`totals
      ensures totals == ApplyChange(old(totals), value, count, total)
    {
      var c := match count case Num(n) => n case _ => 0;
      if count.NaN? || count.Missing? || c > MaxCount {
        c := 0;
      }
      var calculatedTotal := value * c;
      totals := totals[Numeric(value) := LineEntry(Num(c), calculatedTotal)];
    }

    /** The totals effect, run after `totals` changes. */
    method RecalculateTotals()
      modifies this`coinTotal, this`noteTotal, this`grandTotal
      ensures Settled()
      ensures grandTotal == coinTotal + noteTotal
    {
      coinTotal, noteTotal, grandTotal := CalculateTotals(totals);
    }

    /** `saveToHistory`: refused when the grand total is not positive;
        otherwise the new entry goes in front, whether or not the storage
        write succeeds. */
    method SaveToHistory(id: string, date: string, writeOk: bool) returns (saved: bool)
      modifies this`history, this`storage
      ensures saved <==> old(grandTotal) > 0
      ensures !saved ==> history == old(history) && storage == old(storage)
      ensures saved ==> history == [HistoryEntry(id, date, totals, grandTotal, coinTotal, noteTotal)] + old(history)
      ensures saved ==> storage == Written(old(storage), HistoryKey, HistoryBlob(history), writeOk)
      ensures saved && Settled() ==> ConsistentEntry(history[0])
    {
      if grandTotal <= 0 {
        return false;
      }
      var newEntry := HistoryEntry(id, date, totals, grandTotal, coinTotal, noteTotal);
      var updatedHistory := [newEntry] + history;
      history := updatedHistory;
      storage := Written(storage, HistoryKey, HistoryBlob(updatedHistory), writeOk);
      saved := true;
    }

    /** `deleteHistoryEntry(id)`. */
    method DeleteHistoryEntry(id: string, writeOk: bool)
      modifies this`history, this`storage
      ensures history == WithoutId(old(history), id)
      ensures storage == Written(old(storage), HistoryKey, HistoryBlob(history), writeOk)
    {
      var updatedHistory := WithoutId(history, id);
      history := updatedHistory;
      storage := Written(storage, HistoryKey, HistoryBlob(updatedHistory), writeOk);
    }

    /** `clearAllHistory`. */
    method ClearAllHistory(removeOk: bool)
      modifies this`history, this`storage
      ensures history == []
      ensures storage == Removed(old(storage), HistoryKey, removeOk)
    {
      history := [];
      storage := Removed(storage, HistoryKey, removeOk);
    }

    /** `restoreFromHistory(entry)`: the entry's map becomes the live map
        and the counter tab is shown; the history is not touched. */
    method RestoreFromHistory(entry: HistoryEntry)
      modifies this`totals, this`activeTab
      ensures totals == entry.totals && activeTab == CounterTab
    {
      totals := entry.totals;
      activeTab := CounterTab;
    }

    /** The storage hook's load on mount: a parsed state record under the
        current-state key fills the stored-state cell. */
    method LoadStoredState()
      modifies this`storedState
      ensures CurrentStateKey in storage && storage[CurrentStateKey].StateBlob?
              ==> storedState == Some(storage[CurrentStateKey].state)
      ensures !(CurrentStateKey in storage && storage[CurrentStateKey].StateBlob?)
              ==> storedState == old(storedState)
    {
      if CurrentStateKey in storage && storage[CurrentStateKey].StateBlob? {
        storedState := Some(storage[CurrentStateKey].state);
      }
    }

    /** The rehydration effect, run when the stored-state cell changes: only
        a session with nothing entered and no reset yet adopts the stored map
        (or an empty one when the record has none). */
    method RehydrateEffect()
      modifies this`totals
      ensures storedState.Some? && old(totals) == map[] && resetTrigger == 0
              ==> totals == storedState.value.totals.GetOr(map[])
      ensures !(storedState.Some? && old(totals) == map[] && resetTrigger == 0)
              ==> totals == old(totals)
    {
      if storedState.Some? && totals == map[] && resetTrigger == 0 {
        totals := storedState.value.totals.GetOr(map[]);
      }
    }

    /** `saveCurrentState(timestamp)`: the cell always takes the record; the
        storage write may fail. The live map is not touched. */
    method SaveCurrentState(timestamp: string, writeOk: bool)
      modifies this`storedState, this`storage
      ensures storedState == Some(PersistedState(Some(totals), timestamp))
      ensures storage == Written(old(storage), CurrentStateKey, StateBlob(PersistedState(Some(totals), timestamp)), writeOk)
    {
      var currentState := PersistedState(Some(totals), timestamp);
      storedState := Some(currentState);
      storage := Written(storage, CurrentStateKey, StateBlob(currentState), writeOk);
    }

    /** The save effect, run after `totals` changes: saves only a non-empty map. */
    method SaveOnChangeEffect(timestamp: string, writeOk: bool)
      modifies this`storedState, this`storage
      ensures totals != map[] ==> storedState == Some(PersistedState(Some(totals), timestamp))
      ensures totals != map[] ==> storage == Written(old(storage), CurrentStateKey, StateBlob(PersistedState(Some(totals), timestamp)), writeOk)
      ensures totals == map[] ==> storedState == old(storedState) && storage == old(storage)
    {
      if totals != map[] {
        SaveCurrentState(timestamp, writeOk);
      }
    }

    /** The page-unload listener: saves whatever the map holds, even an empty one. */
    method HandleBeforeUnload(timestamp: string, writeOk: bool)
      modifies this`storedState, this`storage
      ensures storedState == Some(PersistedState(Some(totals), timestamp))
      ensures storage == Written(old(storage), CurrentStateKey, StateBlob(PersistedState(Some(totals), timestamp)), writeOk)
    {
      SaveCurrentState(timestamp, writeOk);
    }

    /** `handleReset`, first phase: the map is emptied, the stored state is
        removed, and the trigger bump is scheduled for later. */
    method HandleReset(removeOk: bool)
      modifies this`totals, this`storedState, this`storage, this`pendingResetBumps
      ensures totals == map[] && storedState == None
      ensures storage == Removed(old(storage), CurrentStateKey, removeOk)
      ensures pendingResetBumps == old(pendingResetBumps) + 1
    {
      totals := map[];
      storedState := None;
      storage := Removed(storage, CurrentStateKey, removeOk);
      pendingResetBumps := pendingResetBumps + 1;
    }

    /** `handleReset`, second phase (the deferred timer): the trigger the
        rows watch goes up by one. */
    method FinishReset()
      requires pendingResetBumps > 0
      modifies this`resetTrigger, this`pendingResetBumps
      ensures resetTrigger == old(resetTrigger) + 1
      ensures pendingResetBumps == old(pendingResetBumps) - 1
    {
      resetTrigger := resetTrigger + 1;
      pendingResetBumps := pendingResetBumps - 1;
    }
  }

  /** A reset of the counter session: first phase, the effects that follow
      the cleared map, then the deferred bump. Afterwards the sums are 0, the
      stored state is gone unless its removal failed, and a rehydration run
      afterwards leaves the map empty. */
  method ResetSequence(c: CashCounter, removeOk: bool, timestamp: string, writeOk: bool)
    requires c.resetTrigger >= 0
    modifies c
    ensures c.totals == map[] && c.storedState == None
    ensures c.coinTotal == 0 && c.noteTotal == 0 && c.grandTotal == 0
    ensures removeOk ==> CurrentStateKey !in c.storage
    ensures !removeOk ==> c.storage == old(c.storage)
    ensures c.resetTrigger == old(c.resetTrigger) + 1 && c.resetTrigger > 0
    ensures c.history == old(c.history)
  {
    c.HandleReset(removeOk);
    c.RecalculateTotals();
    EmptyTotalsAreZero();
    c.SaveOnChangeEffect(timestamp, writeOk);
    c.FinishReset();
    c.RehydrateEffect();
  }

  /** Save, edit, then restore the saved entry: the live map is the one of
      the save, and once the totals effect runs the sums are those the
      entry recorded. */
  method SaveEditRestore(c: CashCounter, id: string, date: string, writeOk: bool,
                         value: int, count: Count, total: int) returns (saved: bool)
    requires c.Settled()
    modifies c
    ensures saved <==> old(c.grandTotal) > 0
    ensures saved ==> c.totals == old(c.totals) && c.activeTab == CounterTab && |c.history| > 0
    ensures saved ==> c.coinTotal == c.history[0].coinTotal && c.noteTotal == c.history[0].noteTotal
                      && c.grandTotal == c.history[0].grandTotal
    ensures saved ==> c.history[1..] == old(c.history)
  {
    saved := c.SaveToHistory(id, date, writeOk);
    if saved {
      var entry := c.history[0];
      c.HandleDenominationChange(value, count, total);
      c.RecalculateTotals();
      c.RestoreFromHistory(entry);
      c.RecalculateTotals();
    }
  }
}
