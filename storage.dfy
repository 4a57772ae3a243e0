/** Browser storage as an abstract key-value map whose writes may fail
    (a full quota, a value that cannot be serialised). A failed write or
    removal leaves the map as it was; the program catches the error and
    carries on. */
module Storage {
  import opened CashTypes

  const HistoryKey: string := "cash-counter-history"
  const CurrentStateKey: string := "cash-counter-current-state"

  /** The unsaved session: `{totals, timestamp}`. A record read back from
      storage may lack its `totals` field. */
  datatype PersistedState = PersistedState(totals: Option<Totals>, timestamp: string)

  /** What a storage key can hold, already parsed. */
  datatype Blob = HistoryBlob(entries: seq<HistoryEntry>) | StateBlob(state: PersistedState)

  type Store = map<string, Blob>

  /** `setItem(key, value)`, which succeeds when `ok`. */
  function Written(store: Store, key: string, value: Blob, ok: bool): (r: Store)
    ensures ok ==> key in r && r[key] == value
    ensures !ok ==> r == store
    ensures forall other :: other != key ==> (other in r <==> other in store)
    ensures forall other :: other != key && other in store ==> r[other] == store[other]
  {
    if ok then store[key := value] else store
  }

  /** `removeItem(key)`, which succeeds when `ok`. */
  function Removed(store: Store, key: string, ok: bool): (r: Store)
    ensures ok ==> key !in r
    ensures !ok ==> r == store
    ensures forall other :: other != key ==> (other in r <==> other in store)
    ensures forall other :: other != key && other in store ==> r[other] == store[other]
  {
    if ok then store - {key} else store
  }
}
